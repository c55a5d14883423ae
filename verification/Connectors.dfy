/** The registry of connectors on a host and the base manager that fills it. Connectors are values
    here; the manager replaces the connector it changes. */
module Connectors {
  import opened Base
  import opened UdpPublisher

  datatype Publisher = Publisher(
    serviceId: int,
    instanceId: InstanceId,
    groups: set<QoSGroup>,
    tcpPort: int,
    udpPort: int,
    mcastAddr: Address,
    mcastPort: int,
    isStatic: bool)

  /** A subscriber application; `id` tells applications apart. */
  datatype Subscriber = Subscriber(
    id: nat,
    group: QoSGroup,
    address: Address,
    tcpPort: int,
    udpPort: int,
    mcastAddr: Address,
    mcastPort: int,
    deadline: real,
    isStatic: bool)

  datatype PubEndpoint = PubEndpoint(qos: QoSGroup, index: nat, remotes: seq<Remote>)

  datatype PubConnector = PubConnector(index: nat, app: Publisher, endpoints: seq<PubEndpoint>)

  datatype SubEndpoint = SubEndpoint(qos: QoSGroup, index: nat)

  datatype SubConnector = SubConnector(
    index: nat,
    apps: seq<Subscriber>,
    address: Address,
    tcpPort: int,
    udpPort: int,
    endpoint: Option<SubEndpoint>)

  /** The registry's two tables and the manager's two endpoint counters. */
  datatype Registry = Registry(
    pubs: map<int, PubConnector>,
    subs: map<int, seq<SubConnector>>,
    pubEndpoints: nat,
    subEndpoints: nat)

  const NOTHING := Registry(map[], map[], 0, 0)

  // ------------------------------------------------------------------ searching

  function SubsOf(r: Registry, s: int): seq<SubConnector> {
    if s in r.subs then r.subs[s] else []
  }

  /** The first connector whose first application has the group. */
  function Search(conns: seq<SubConnector>, g: QoSGroup): (found: Result<Option<nat>>)
    ensures found.Ok? && found.value.Some? ==> found.value.value < |conns|
  {
    if conns == [] then Ok(None)
    else if conns[0].apps == [] then Err(EmptyConnector)
    else if conns[0].apps[0].group == g then Ok(Some(0))
    else
      var rest :- Search(conns[1..], g);
      Ok(if rest.Some? then Some(rest.value + 1) else None)
  }

  /** Whether some connector of the group has an endpoint. */
  function SearchEndpoint(conns: seq<SubConnector>, g: QoSGroup): Result<bool> {
    if conns == [] then Ok(false)
    else if conns[0].apps == [] then Err(EmptyConnector)
    else if conns[0].apps[0].group == g && conns[0].endpoint.Some? then Ok(true)
    else SearchEndpoint(conns[1..], g)
  }

  /** The position of the endpoint of a group in a publisher connector. */
  function SearchPubEndpoint(endpoints: seq<PubEndpoint>, g: QoSGroup): (found: Option<nat>)
    ensures found.Some? ==> found.value < |endpoints| && endpoints[found.value].qos == g
    ensures found.None? <==> forall e :: e in endpoints ==> e.qos != g
  {
    if endpoints == [] then None
    else if endpoints[0].qos == g then Some(0)
    else
      var rest := SearchPubEndpoint(endpoints[1..], g);
      if rest.Some? then Some(rest.value + 1) else None
  }

  // ------------------------------------------------------------------ counting

  /** A connector's place: its service and its position in that service's list. */
  function Places(subs: map<int, seq<SubConnector>>): set<(int, int)> {
    set s, i | s in subs.Keys && 0 <= i < |subs[s]| :: (s, i)
  }

  function CountSubs(subs: map<int, seq<SubConnector>>): nat {
    |Places(subs)|
  }

  // ------------------------------------------------------------------ registering

  function RegisterPublisher(r: Registry, p: Publisher): Result<Registry> {
    if p.serviceId in r.pubs then Err(DuplicatePublisher)
    else Ok(r.(pubs := r.pubs[p.serviceId := PubConnector(|r.pubs|, p, [])]))
  }

  function NewSubConnector(index: nat, app: Subscriber): SubConnector {
    SubConnector(index, [app], app.address, app.tcpPort, app.udpPort, None)
  }

  /** What registering a subscriber application did: joined a connector or created one. */
  datatype Registration = Registration(registry: Registry, created: bool)

  function RegisterSubscriber(r: Registry, s: int, app: Subscriber): Result<Registration> {
    var conns := SubsOf(r, s);
    var found :- Search(conns, app.group);
    match found
    case None =>
      var added := NewSubConnector(CountSubs(r.subs), app);
      Ok(Registration(r.(subs := r.subs[s := conns + [added]]), true))
    case Some(k) =>
      if app in conns[k].apps then Err(DuplicateSubscriber)
      else
        var joined := conns[k].(apps := conns[k].apps + [app]);
        Ok(Registration(r.(subs := r.subs[s := conns[k := joined]]), false))
  }

  // ------------------------------------------------------------------ endpoints

  /** `supported` are the groups the concrete manager knows how to create endpoints for. */
  function CreateOrFindPublisherEndpoint(r: Registry, s: int, g: QoSGroup, supported: set<QoSGroup>): Result<Registry> {
    if s !in r.pubs then Err(NoConnector)
    else if SearchPubEndpoint(r.pubs[s].endpoints, g).Some? then Ok(r)
    else if g !in supported then Err(UnknownGroup)
    else
      var added := PubEndpoint(g, r.pubEndpoints, []);
      Ok(r.(pubs := r.pubs[s := r.pubs[s].(endpoints := r.pubs[s].endpoints + [added])],
            pubEndpoints := r.pubEndpoints + 1))
  }

  function CreateOrFindSubscriberEndpoint(r: Registry, s: int, g: QoSGroup, supported: set<QoSGroup>)
      : Result<Registry> {
    var conns := SubsOf(r, s);
    var have :- SearchEndpoint(conns, g);
    if have then Ok(r)
    else
      var found :- Search(conns, g);
      match found
      case None => Err(NoConnector)
      case Some(k) =>
        if g !in supported then Err(UnknownConnectionType)
        else
          var added := conns[k].(endpoint := Some(SubEndpoint(g, r.subEndpoints)));
          Ok(r.(subs := r.subs[s := conns[k := added]], subEndpoints := r.subEndpoints + 1))
  }

  function AddPublisherRemote(r: Registry, s: int, g: QoSGroup, remote: Remote): Registry {
    if s !in r.pubs then r
    else
      var p := r.pubs[s];
      var k := SearchPubEndpoint(p.endpoints, g);
      if k.None? then r
      else
        var e := p.endpoints[k.value];
        r.(pubs := r.pubs[s := p.(endpoints := p.endpoints[k.value := e.(remotes := AddTo(e.remotes, remote))])])
  }

  // ------------------------------------------------------------------ the connector invariant

  /** A connector serves applications of one group, at the address and ports of the first. */
  ghost predicate OneGroup(c: SubConnector) {
    && c.apps != []
    && (forall a :: a in c.apps ==> a.group == c.apps[0].group)
    && c.address == c.apps[0].address && c.tcpPort == c.apps[0].tcpPort && c.udpPort == c.apps[0].udpPort
  }

  function GroupOf(c: SubConnector): QoSGroup
    requires c.apps != []
  {
    c.apps[0].group
  }

  ghost predicate Homogeneous(conns: seq<SubConnector>) {
    && (forall c :: c in conns ==> OneGroup(c) && (c.endpoint.Some? ==> c.endpoint.value.qos == GroupOf(c)))
    && (forall i, j :: 0 <= i < j < |conns| ==> GroupOf(conns[i]) != GroupOf(conns[j]))
  }

  /** Every service has at least one connector; each is non-empty and of one group; no two of a
      service share a group. */
  ghost predicate WellGrouped(subs: map<int, seq<SubConnector>>) {
    forall s :: s in subs ==> subs[s] != [] && Homogeneous(subs[s])
  }

  ghost predicate IsPlace(subs: map<int, seq<SubConnector>>, s: int, i: int) {
    s in subs && 0 <= i < |subs[s]|
  }

  /** Module indices count the connectors created and are never given out twice. */
  ghost predicate IndicesDistinct(subs: map<int, seq<SubConnector>>) {
    && (forall s, i | IsPlace(subs, s, i) :: subs[s][i].index < CountSubs(subs))
    && (forall s, i, t, j | IsPlace(subs, s, i) && IsPlace(subs, t, j) ::
          subs[s][i].index == subs[t][j].index ==> s == t && i == j)
  }

  ghost predicate Valid(r: Registry) {
    WellGrouped(r.subs) && IndicesDistinct(r.subs)
  }

  lemma {:induction false} SearchIsExact(conns: seq<SubConnector>, g: QoSGroup)
    requires forall c :: c in conns ==> c.apps != []
    ensures Search(conns, g).Ok?
    ensures match Search(conns, g).value
            case None => forall c :: c in conns ==> GroupOf(c) != g
            case Some(k) => GroupOf(conns[k]) == g && forall j :: 0 <= j < k ==> GroupOf(conns[j]) != g
  {
    if conns != [] {
      assert conns[0] in conns;
      forall c | c in conns[1..]
        ensures c in conns
      {
      }
      SearchIsExact(conns[1..], g);
      assert forall c :: c in conns ==> c == conns[0] || c in conns[1..];
      var found := Search(conns, g).value;
      if GroupOf(conns[0]) != g && found.Some? {
        assert conns[1..][found.value - 1] == conns[found.value];
        forall j | 0 <= j < found.value
          ensures GroupOf(conns[j]) != g
        {
          assert 0 < j ==> conns[1..][j - 1] == conns[j];
        }
      }
    }
  }

  lemma {:induction false} SearchEndpointIsExact(conns: seq<SubConnector>, g: QoSGroup)
    requires forall c :: c in conns ==> c.apps != []
    ensures SearchEndpoint(conns, g).Ok?
    ensures SearchEndpoint(conns, g).value <==> exists c :: c in conns && GroupOf(c) == g && c.endpoint.Some?
  {
    if conns != [] {
      assert conns[0] in conns;
      forall c | c in conns[1..]
        ensures c in conns
      {
      }
      SearchEndpointIsExact(conns[1..], g);
      assert forall c :: c in conns ==> c == conns[0] || c in conns[1..];
    }
  }

  /** The connector of a group is unique, wherever it stands. */
  lemma HomogeneousSearch(conns: seq<SubConnector>, g: QoSGroup, k: nat)
    requires Homogeneous(conns) && k < |conns| && GroupOf(conns[k]) == g
    ensures Search(conns, g) == Ok(Some(k))
  {
    SearchIsExact(conns, g);
    assert conns[k] in conns;
  }

  lemma HomogeneousAppend(conns: seq<SubConnector>, c: SubConnector)
    requires Homogeneous(conns) && OneGroup(c) && c.endpoint.None?
    requires forall d :: d in conns ==> GroupOf(d) != GroupOf(c)
    ensures Homogeneous(conns + [c])
  {
    var all := conns + [c];
    forall i, j | 0 <= i < j < |all|
      ensures GroupOf(all[i]) != GroupOf(all[j])
    {
      assert i < |conns| && conns[i] in conns;
    }
  }

  lemma HomogeneousUpdate(conns: seq<SubConnector>, k: nat, c: SubConnector)
    requires Homogeneous(conns) && k < |conns| && OneGroup(c) && GroupOf(c) == GroupOf(conns[k])
    requires c.endpoint.Some? ==> c.endpoint.value.qos == GroupOf(c)
    ensures Homogeneous(conns[k := c])
  {
    var all := conns[k := c];
    assert conns[k] in conns;
    forall d | d in all
      ensures OneGroup(d) && (d.endpoint.Some? ==> d.endpoint.value.qos == GroupOf(d))
    {
      assert d == c || d in conns;
    }
    forall i, j | 0 <= i < j < |all|
      ensures GroupOf(all[i]) != GroupOf(all[j])
    {
      assert conns[i] in conns && conns[j] in conns;
      assert GroupOf(conns[i]) != GroupOf(conns[j]);
    }
  }

  // Counting places

  lemma PlacesMembership(subs: map<int, seq<SubConnector>>, s: int, i: int)
    ensures (s, i) in Places(subs) <==> IsPlace(subs, s, i)
  {
  }

  lemma PlacesGrow(subs: map<int, seq<SubConnector>>, s: int, conns: seq<SubConnector>, c: SubConnector)
    requires conns == if s in subs then subs[s] else []
    ensures CountSubs(subs[s := conns + [c]]) == CountSubs(subs) + 1
  {
    hide Places;
    var after := subs[s := conns + [c]];
    forall p: (int, int)
      ensures p in Places(after) <==> p in Places(subs) || p == (s, |conns|)
    {
      PlacesMembership(after, p.0, p.1);
      PlacesMembership(subs, p.0, p.1);
      assert IsPlace(after, p.0, p.1) <==> IsPlace(subs, p.0, p.1) || (p.0 == s && p.1 == |conns|);
    }
    assert Places(after) == Places(subs) + {(s, |conns|)};
    PlacesMembership(subs, s, |conns|);
  }

  lemma PlacesUnchanged(subs: map<int, seq<SubConnector>>, s: int, conns: seq<SubConnector>)
    requires s in subs && |conns| == |subs[s]|
    ensures CountSubs(subs[s := conns]) == CountSubs(subs)
  {
    hide Places;
    var after := subs[s := conns];
    forall p: (int, int)
      ensures p in Places(after) <==> p in Places(subs)
    {
      PlacesMembership(after, p.0, p.1);
      PlacesMembership(subs, p.0, p.1);
    }
    assert Places(after) == Places(subs);
  }

  lemma IndicesAfterAppend(subs: map<int, seq<SubConnector>>, s: int, c: SubConnector)
    requires IndicesDistinct(subs) && c.index == CountSubs(subs)
    ensures var conns := if s in subs then subs[s] else [];
            IndicesDistinct(subs[s := conns + [c]])
  {
    var conns := if s in subs then subs[s] else [];
    var after := subs[s := conns + [c]];
    PlacesGrow(subs, s, conns, c);
    forall t, i | IsPlace(after, t, i)
      ensures (t == s && i == |conns| && after[t][i] == c) || (IsPlace(subs, t, i) && after[t][i] == subs[t][i])
    {
    }
  }

  lemma IndicesAfterUpdate(subs: map<int, seq<SubConnector>>, s: int, k: nat, c: SubConnector)
    requires IndicesDistinct(subs) && s in subs && k < |subs[s]| && c.index == subs[s][k].index
    ensures IndicesDistinct(subs[s := subs[s][k := c]])
  {
    var after := subs[s := subs[s][k := c]];
    PlacesUnchanged(subs, s, subs[s][k := c]);
    forall t, i | IsPlace(after, t, i)
      ensures IsPlace(subs, t, i) && after[t][i].index == subs[t][i].index
    {
    }
  }

  // ------------------------------------------------------------------ what every operation keeps

  /** A subscriber registers unless it is already connected for the service; registering joins the
      connector of its group, or creates one exactly when there was none, and keeps the invariant. */
  lemma RegisteringKeepsValid(r: Registry, s: int, app: Subscriber)
    requires Valid(r)
    ensures var result := RegisterSubscriber(r, s, app);
            && (result.Err? ==> result.error == DuplicateSubscriber)
            && (result.Err? <==> exists c :: c in SubsOf(r, s) && app in c.apps)
            && (result.Ok? ==>
                  && Valid(result.value.registry)
                  && (result.value.created <==> forall c :: c in SubsOf(r, s) ==> GroupOf(c) != app.group)
                  && CountSubs(result.value.registry.subs)
                     == CountSubs(r.subs) + if result.value.created then 1 else 0)
  {
    var conns := SubsOf(r, s);
    assert Homogeneous(conns);
    SearchIsExact(conns, app.group);
    match Search(conns, app.group).value
    case None =>
      var c := NewSubConnector(CountSubs(r.subs), app);
      HomogeneousAppend(conns, c);
      PlacesGrow(r.subs, s, conns, c);
      IndicesAfterAppend(r.subs, s, c);
      forall d | d in conns
        ensures app !in d.apps
      {
        assert OneGroup(d);
      }
    case Some(k) =>
      assert conns[k] in conns;
      forall d | d in conns && app in d.apps
        ensures d == conns[k]
      {
        assert OneGroup(d);
        var i :| 0 <= i < |conns| && conns[i] == d;
        HomogeneousSearch(conns, app.group, i);
      }
      if app !in conns[k].apps {
        var joined := conns[k].(apps := conns[k].apps + [app]);
        HomogeneousUpdate(conns, k, joined);
        PlacesUnchanged(r.subs, s, conns[k := joined]);
        IndicesAfterUpdate(r.subs, s, k, joined);
      }
  }

  /** Registering changes one connector: the one of the application's group, which is created with
      the application alone or takes it as its last. Registering it again is refused. */
  lemma RegisteringConnects(r: Registry, s: int, app: Subscriber) returns (k: nat)
    requires Valid(r) && RegisterSubscriber(r, s, app).Ok?
    ensures var result := RegisterSubscriber(r, s, app).value;
            var before, after := SubsOf(r, s), SubsOf(result.registry, s);
            && k < |after| && after[k].apps != [] && GroupOf(after[k]) == app.group
            && (result.created ==>
                  && k == |before| && |after| == |before| + 1
                  && after[k] == SubConnector(CountSubs(r.subs), [app], app.address, app.tcpPort, app.udpPort, None))
            && (!result.created ==>
                  && k < |before| && |after| == |before|
                  && after[k].apps == before[k].apps + [app]
                  && after[k].(apps := before[k].apps) == before[k])
            && (forall i :: 0 <= i < |before| && i != k ==> after[i] == before[i])
    ensures var r' := RegisterSubscriber(r, s, app).value.registry;
            && (forall t :: t != s ==> SubsOf(r', t) == SubsOf(r, t))
            && r'.(subs := r.subs) == r
            && RegisterSubscriber(r', s, app) == Err(DuplicateSubscriber)
  {
    hide Valid;
    hide Search;
    ConnectorsAreFound(r, s, app.group);
    RegisteringKeepsValid(r, s, app);
    var found := Search(SubsOf(r, s), app.group).value;
    k := if found.Some? then found.value else |SubsOf(r, s)|;
    var r' := RegisterSubscriber(r, s, app).value.registry;
    assert app in SubsOf(r', s)[k].apps;
    hide RegisterSubscriber;
    RegisteringKeepsValid(r', s, app);
  }

  lemma ConnectorsAreFound(r: Registry, s: int, g: QoSGroup)
    requires Valid(r)
    ensures Search(SubsOf(r, s), g).Ok?
    ensures forall c :: c in SubsOf(r, s) ==> c.apps != []
    ensures var found := Search(SubsOf(r, s), g).value;
            found.Some? ==> GroupOf(SubsOf(r, s)[found.value]) == g
  {
    var conns := SubsOf(r, s);
    assert Homogeneous(conns);
    SearchIsExact(conns, g);
    if Search(conns, g).value.Some? {
      assert conns[Search(conns, g).value.value] in conns;
    }
  }

  /** The application is connected for the service. */
  ghost predicate HasApp(r: Registry, s: int, app: Subscriber) {
    exists c :: c in SubsOf(r, s) && app in c.apps
  }

  ghost predicate HasConnector(r: Registry, s: int, g: QoSGroup) {
    exists c :: c in SubsOf(r, s) && c.apps != [] && GroupOf(c) == g
  }

  ghost predicate HasSubEndpoint(r: Registry, s: int, g: QoSGroup) {
    exists c :: c in SubsOf(r, s) && c.apps != [] && GroupOf(c) == g && c.endpoint.Some?
  }

  /** A subscriber endpoint is created at most once per connector: a second request finds it. */
  lemma SubscriberEndpointOnce(r: Registry, s: int, g: QoSGroup, supported: set<QoSGroup>)
    requires Valid(r) && g in supported
    ensures var result := CreateOrFindSubscriberEndpoint(r, s, g, supported);
            && (result.Ok? <==> HasConnector(r, s, g))
            && (result.Err? ==> result.error == NoConnector)
            && (result.Ok? ==>
                  && Valid(result.value)
                  && HasSubEndpoint(result.value, s, g)
                  && CreateOrFindSubscriberEndpoint(result.value, s, g, supported) == result
                  && result.value.subEndpoints
                     == r.subEndpoints + if HasSubEndpoint(r, s, g) then 0 else 1)
  {
    var conns := SubsOf(r, s);
    assert Homogeneous(conns);
    SearchEndpointIsExact(conns, g);
    SearchIsExact(conns, g);
    if !SearchEndpoint(conns, g).value && Search(conns, g).value.Some? {
      var k := Search(conns, g).value.value;
      assert conns[k] in conns;
      var c := conns[k].(endpoint := Some(SubEndpoint(g, r.subEndpoints)));
      HomogeneousUpdate(conns, k, c);
      IndicesAfterUpdate(r.subs, s, k, c);
      var after := conns[k := c];
      assert after[k] in after && after[k] == c;
      SearchEndpointIsExact(after, g);
    }
  }
}
