/** Nothing the manager does to the registry takes anything away: connectors, endpoints and remotes
    stay, and endpoint numbers are never given out twice. */
module ConnectorGrowth {
  import opened Base
  import opened UdpPublisher
  import opened Connectors

  // ------------------------------------------------------------------ growing

  ghost predicate EndpointsGrow(a: seq<PubEndpoint>, b: seq<PubEndpoint>) {
    && |a| <= |b|
    && forall i :: 0 <= i < |a| ==> b[i].qos == a[i].qos && b[i].index == a[i].index && a[i].remotes <= b[i].remotes
  }

  ghost predicate PubsGrow(a: map<int, PubConnector>, b: map<int, PubConnector>) {
    forall s :: s in a ==> s in b && b[s].app == a[s].app && EndpointsGrow(a[s].endpoints, b[s].endpoints)
  }

  /** The endpoint of a connector is set at most once. */
  ghost predicate ConnectorGrows(a: SubConnector, b: SubConnector) {
    && a.apps <= b.apps
    && b.index == a.index && b.address == a.address && b.tcpPort == a.tcpPort && b.udpPort == a.udpPort
    && (a.endpoint.Some? ==> b.endpoint == a.endpoint)
  }

  ghost predicate SubsGrow(a: map<int, seq<SubConnector>>, b: map<int, seq<SubConnector>>) {
    forall s, i | IsPlace(a, s, i) :: IsPlace(b, s, i) && ConnectorGrows(a[s][i], b[s][i])
  }

  ghost predicate Grows(a: Registry, b: Registry) {
    PubsGrow(a.pubs, b.pubs) && SubsGrow(a.subs, b.subs)
  }

  lemma PubsGrowOn(a: map<int, PubConnector>, b: map<int, PubConnector>, c: map<int, PubConnector>)
    requires PubsGrow(a, b) && PubsGrow(b, c)
    ensures PubsGrow(a, c)
  {
    forall s | s in a
      ensures EndpointsGrow(a[s].endpoints, c[s].endpoints)
    {
      var x, y, z := a[s].endpoints, b[s].endpoints, c[s].endpoints;
      forall i | 0 <= i < |x|
        ensures z[i].qos == x[i].qos && z[i].index == x[i].index && x[i].remotes <= z[i].remotes
      {
        assert y[i].qos == x[i].qos && x[i].remotes <= y[i].remotes;
      }
    }
  }

  lemma GrowsOn(a: Registry, b: Registry, c: Registry)
    requires Grows(a, b) && Grows(b, c)
    ensures Grows(a, c)
  {
    PubsGrowOn(a.pubs, b.pubs, c.pubs);
    hide PubsGrow;
    forall s, i | IsPlace(a.subs, s, i)
      ensures IsPlace(c.subs, s, i) && ConnectorGrows(a.subs[s][i], c.subs[s][i])
    {
      assert IsPlace(b.subs, s, i);
    }
  }

  lemma GrowsNot(a: Registry)
    ensures Grows(a, a)
  {
  }

  // ------------------------------------------------------------------ what growing keeps

  ghost predicate HasPubEndpoint(r: Registry, s: int, g: QoSGroup) {
    s in r.pubs && exists e :: e in r.pubs[s].endpoints && e.qos == g
  }

  ghost predicate HasRemote(r: Registry, s: int, g: QoSGroup, remote: Remote) {
    s in r.pubs && exists e :: e in r.pubs[s].endpoints && e.qos == g && remote in e.remotes
  }

  /** A connector of the service and group has these ports, and its first application this deadline. */
  ghost predicate HasConnectorLike(r: Registry, s: int, g: QoSGroup, tcpPort: int, udpPort: int, deadline: real) {
    exists c :: c in SubsOf(r, s) && c.apps != [] && GroupOf(c) == g
                && c.tcpPort == tcpPort && c.udpPort == udpPort && c.apps[0].deadline == deadline
  }

  lemma HasPubEndpointGrows(a: Registry, b: Registry, s: int, g: QoSGroup)
    requires Grows(a, b) && HasPubEndpoint(a, s, g)
    ensures HasPubEndpoint(b, s, g)
  {
    var x, y := a.pubs[s].endpoints, b.pubs[s].endpoints;
    var i :| 0 <= i < |x| && x[i].qos == g;
    assert y[i] in y && y[i].qos == g;
  }

  lemma HasRemoteGrows(a: Registry, b: Registry, s: int, g: QoSGroup, remote: Remote)
    requires Grows(a, b) && HasRemote(a, s, g, remote)
    ensures HasRemote(b, s, g, remote)
  {
    var x, y := a.pubs[s].endpoints, b.pubs[s].endpoints;
    var i :| 0 <= i < |x| && x[i].qos == g && remote in x[i].remotes;
    assert y[i] in y && y[i].qos == g && x[i].remotes <= y[i].remotes;
    var k :| 0 <= k < |x[i].remotes| && x[i].remotes[k] == remote;
    assert y[i].remotes[k] == remote;
  }

  lemma ConnectorStays(a: Registry, b: Registry, s: int, c: SubConnector) returns (d: SubConnector)
    requires Grows(a, b) && c in SubsOf(a, s) && c.apps != []
    ensures d in SubsOf(b, s) && ConnectorGrows(c, d) && d.apps != [] && GroupOf(d) == GroupOf(c)
  {
    var i :| 0 <= i < |SubsOf(a, s)| && SubsOf(a, s)[i] == c;
    assert IsPlace(a.subs, s, i);
    d := b.subs[s][i];
    assert c.apps[0] == d.apps[0];
  }

  lemma HasConnectorGrows(a: Registry, b: Registry, s: int, g: QoSGroup)
    requires Grows(a, b) && HasConnector(a, s, g)
    ensures HasConnector(b, s, g)
  {
    var c :| c in SubsOf(a, s) && c.apps != [] && GroupOf(c) == g;
    var d := ConnectorStays(a, b, s, c);
  }

  lemma HasSubEndpointGrows(a: Registry, b: Registry, s: int, g: QoSGroup)
    requires Grows(a, b) && HasSubEndpoint(a, s, g)
    ensures HasSubEndpoint(b, s, g)
  {
    var c :| c in SubsOf(a, s) && c.apps != [] && GroupOf(c) == g && c.endpoint.Some?;
    var d := ConnectorStays(a, b, s, c);
  }

  lemma LikeGrows(a: Registry, b: Registry, s: int, g: QoSGroup, tcpPort: int, udpPort: int, deadline: real)
    requires Grows(a, b) && HasConnectorLike(a, s, g, tcpPort, udpPort, deadline)
    ensures HasConnectorLike(b, s, g, tcpPort, udpPort, deadline)
  {
    var c :| c in SubsOf(a, s) && c.apps != [] && GroupOf(c) == g
             && c.tcpPort == tcpPort && c.udpPort == udpPort && c.apps[0].deadline == deadline;
    var d := ConnectorStays(a, b, s, c);
  }

  // ------------------------------------------------------------------ numbering endpoints

  ghost predicate IsPubEndpoint(pubs: map<int, PubConnector>, s: int, i: int) {
    s in pubs && 0 <= i < |pubs[s].endpoints|
  }

  /** A publisher's endpoints have distinct groups, and all endpoints on the host distinct numbers. */
  ghost predicate PubsNumbered(pubs: map<int, PubConnector>, count: nat) {
    && (forall s, i | IsPubEndpoint(pubs, s, i) :: pubs[s].endpoints[i].index < count)
    && (forall s, i, t, j | IsPubEndpoint(pubs, s, i) && IsPubEndpoint(pubs, t, j) ::
          pubs[s].endpoints[i].index == pubs[t].endpoints[j].index ==> s == t && i == j)
    && (forall s, i, j | IsPubEndpoint(pubs, s, i) && IsPubEndpoint(pubs, s, j) ::
          pubs[s].endpoints[i].qos == pubs[s].endpoints[j].qos ==> i == j)
  }

  /** Publisher connectors are numbered in the order they are created. */
  ghost predicate PubConnectorsNumbered(pubs: map<int, PubConnector>) {
    && (forall s :: s in pubs ==> pubs[s].index < |pubs|)
    && (forall s, t :: s in pubs && t in pubs && pubs[s].index == pubs[t].index ==> s == t)
  }

  ghost predicate HasEndpointAt(subs: map<int, seq<SubConnector>>, s: int, i: int) {
    IsPlace(subs, s, i) && subs[s][i].endpoint.Some?
  }

  ghost predicate SubsNumbered(subs: map<int, seq<SubConnector>>, count: nat) {
    && (forall s, i | HasEndpointAt(subs, s, i) :: subs[s][i].endpoint.value.index < count)
    && (forall s, i, t, j | HasEndpointAt(subs, s, i) && HasEndpointAt(subs, t, j) ::
          subs[s][i].endpoint.value.index == subs[t][j].endpoint.value.index ==> s == t && i == j)
  }

  ghost predicate Numbered(r: Registry) {
    PubsNumbered(r.pubs, r.pubEndpoints) && PubConnectorsNumbered(r.pubs) && SubsNumbered(r.subs, r.subEndpoints)
  }

  ghost predicate Keyed(r: Registry) {
    forall s :: s in r.pubs ==> r.pubs[s].app.serviceId == s
  }

  /** The invariant of a registry. */
  ghost predicate Sane(r: Registry) {
    Valid(r) && Numbered(r) && Keyed(r)
  }

  lemma NothingIsSane()
    ensures Sane(NOTHING)
  {
  }

  // ------------------------------------------------------------------ publishers

  lemma PublisherGrows(r: Registry, p: Publisher)
    requires Sane(r) && RegisterPublisher(r, p).Ok?
    ensures Grows(r, RegisterPublisher(r, p).value) && Sane(RegisterPublisher(r, p).value)
  {
    hide WellGrouped;
    hide IndicesDistinct;
    hide SubsNumbered;
    var r' := RegisterPublisher(r, p).value;
    forall s, i | IsPubEndpoint(r'.pubs, s, i)
      ensures IsPubEndpoint(r.pubs, s, i) && r'.pubs[s] == r.pubs[s]
    {
    }
  }

  lemma EndpointAppended(pubs: map<int, PubConnector>, count: nat, s: int, e: PubEndpoint)
    requires PubsNumbered(pubs, count) && s in pubs && e.index == count
    requires forall d :: d in pubs[s].endpoints ==> d.qos != e.qos
    ensures PubsNumbered(pubs[s := pubs[s].(endpoints := pubs[s].endpoints + [e])], count + 1)
  {
    var pubs' := pubs[s := pubs[s].(endpoints := pubs[s].endpoints + [e])];
    forall t, i | IsPubEndpoint(pubs', t, i)
      ensures (t == s && i == |pubs[s].endpoints| && pubs'[t].endpoints[i] == e)
           || (IsPubEndpoint(pubs, t, i) && pubs'[t].endpoints[i] == pubs[t].endpoints[i])
    {
    }
    forall i | IsPubEndpoint(pubs, s, i)
      ensures pubs[s].endpoints[i].qos != e.qos
    {
      assert pubs[s].endpoints[i] in pubs[s].endpoints;
    }
  }

  lemma PubEndpointAdded(r: Registry, s: int, g: QoSGroup, supported: set<QoSGroup>)
    requires Sane(r) && s in r.pubs && SearchPubEndpoint(r.pubs[s].endpoints, g).None? && g in supported
    ensures var r' := CreateOrFindPublisherEndpoint(r, s, g, supported).value;
            Grows(r, r') && Sane(r') && HasPubEndpoint(r', s, g)
  {
    hide WellGrouped;
    hide IndicesDistinct;
    hide SubsNumbered;
    hide PubsNumbered;
    var e := PubEndpoint(g, r.pubEndpoints, []);
    EndpointAppended(r.pubs, r.pubEndpoints, s, e);
    var es' := CreateOrFindPublisherEndpoint(r, s, g, supported).value.pubs[s].endpoints;
    assert es'[|r.pubs[s].endpoints|] == e;
  }

  /** A publisher endpoint is found or created exactly when the service is published here, and
      asking again changes nothing. */
  lemma PublisherEndpointGrows(r: Registry, s: int, g: QoSGroup, supported: set<QoSGroup>)
    requires Sane(r) && g in supported
    ensures var result := CreateOrFindPublisherEndpoint(r, s, g, supported);
            && (result.Ok? <==> s in r.pubs)
            && (result.Err? ==> result.error == NoConnector)
            && (result.Ok? ==>
                  && Grows(r, result.value) && Sane(result.value) && HasPubEndpoint(result.value, s, g)
                  && CreateOrFindPublisherEndpoint(result.value, s, g, supported) == result)
  {
    if s in r.pubs {
      if SearchPubEndpoint(r.pubs[s].endpoints, g).None? {
        PubEndpointAdded(r, s, g, supported);
      } else {
        GrowsNot(r);
      }
    }
  }

  function WithRemotes(pubs: map<int, PubConnector>, s: int, k: nat, remotes: seq<Remote>): map<int, PubConnector>
    requires s in pubs && k < |pubs[s].endpoints|
  {
    var p := pubs[s];
    pubs[s := p.(endpoints := p.endpoints[k := p.endpoints[k].(remotes := remotes)])]
  }

  lemma RemotesKeepNumbers(pubs: map<int, PubConnector>, count: nat, s: int, k: nat, remotes: seq<Remote>)
    requires PubsNumbered(pubs, count) && PubConnectorsNumbered(pubs) && s in pubs && k < |pubs[s].endpoints|
    ensures PubsNumbered(WithRemotes(pubs, s, k, remotes), count)
    ensures PubConnectorsNumbered(WithRemotes(pubs, s, k, remotes))
  {
    var after := WithRemotes(pubs, s, k, remotes);
    forall t, i | IsPubEndpoint(after, t, i)
      ensures IsPubEndpoint(pubs, t, i)
      ensures after[t].endpoints[i].index == pubs[t].endpoints[i].index
      ensures after[t].endpoints[i].qos == pubs[t].endpoints[i].qos
    {
    }
    assert forall t :: t in after ==> t in pubs && after[t].index == pubs[t].index;
    assert after.Keys == pubs.Keys;
    assert |after| == |after.Keys| && |pubs| == |pubs.Keys|;
  }

  lemma RemotesGrow(pubs: map<int, PubConnector>, s: int, k: nat, remotes: seq<Remote>)
    requires s in pubs && k < |pubs[s].endpoints| && pubs[s].endpoints[k].remotes <= remotes
    ensures PubsGrow(pubs, WithRemotes(pubs, s, k, remotes))
  {
  }

  lemma RemoteAdded(r: Registry, s: int, g: QoSGroup, remote: Remote)
    requires Sane(r) && HasPubEndpoint(r, s, g)
    ensures var r' := AddPublisherRemote(r, s, g, remote);
            Grows(r, r') && Sane(r') && HasRemote(r', s, g, remote) && HasPubEndpoint(r', s, g)
  {
    hide WellGrouped;
    hide IndicesDistinct;
    hide SubsNumbered;
    hide PubsNumbered;
    hide PubConnectorsNumbered;
    hide PubsGrow;
    hide SearchPubEndpoint;
    var es, k := r.pubs[s].endpoints, SearchPubEndpoint(r.pubs[s].endpoints, g).value;
    var remotes := AddTo(es[k].remotes, remote);
    var pubs' := WithRemotes(r.pubs, s, k, remotes);
    assert AddPublisherRemote(r, s, g, remote) == r.(pubs := pubs');
    RemotesKeepNumbers(r.pubs, r.pubEndpoints, s, k, remotes);
    RemotesGrow(r.pubs, s, k, remotes);
    assert pubs'[s].endpoints[k] in pubs'[s].endpoints && remote in remotes;
  }

  // ------------------------------------------------------------------ subscribers

  /** A connector appended to a service's list, or replaced by one that has grown. */
  lemma ConnectorPut(subs: map<int, seq<SubConnector>>, count: nat, s: int, k: nat, c: SubConnector)
    requires SubsNumbered(subs, count)
    requires var conns := if s in subs then subs[s] else [];
             && k <= |conns|
             && (k == |conns| ==> c.endpoint.None?)
             && (k < |conns| ==> ConnectorGrows(conns[k], c) && c.endpoint == conns[k].endpoint)
    ensures var conns := if s in subs then subs[s] else [];
            var subs' := subs[s := if k == |conns| then conns + [c] else conns[k := c]];
            SubsGrow(subs, subs') && SubsNumbered(subs', count)
  {
    var conns := if s in subs then subs[s] else [];
    var subs' := subs[s := if k == |conns| then conns + [c] else conns[k := c]];
    forall t, i | HasEndpointAt(subs', t, i)
      ensures HasEndpointAt(subs, t, i) && subs'[t][i].endpoint == subs[t][i].endpoint
    {
    }
  }

  lemma SamePubsGrow(pubs: map<int, PubConnector>)
    ensures PubsGrow(pubs, pubs)
  {
  }

  lemma SubscriberGrows(r: Registry, s: int, app: Subscriber)
    requires Sane(r) && RegisterSubscriber(r, s, app).Ok?
    ensures var r' := RegisterSubscriber(r, s, app).value.registry;
            Grows(r, r') && Sane(r') && HasConnector(r', s, app.group) && HasApp(r', s, app)
  {
    hide Valid;
    hide PubsNumbered;
    hide PubConnectorsNumbered;
    hide PubsGrow;
    hide SubsNumbered;
    hide SubsGrow;
    hide Search;
    RegisteringKeepsValid(r, s, app);
    ConnectorsAreFound(r, s, app.group);
    SamePubsGrow(r.pubs);
    var conns := SubsOf(r, s);
    var r' := RegisterSubscriber(r, s, app).value.registry;
    match Search(conns, app.group).value {
      case None =>
        var c := NewSubConnector(CountSubs(r.subs), app);
        ConnectorPut(r.subs, r.subEndpoints, s, |conns|, c);
        assert SubsOf(r', s)[|conns|] == c;
      case Some(k) =>
        var c := conns[k].(apps := conns[k].apps + [app]);
        ConnectorPut(r.subs, r.subEndpoints, s, k, c);
        assert SubsOf(r', s)[k] == c && GroupOf(c) == GroupOf(conns[k]);
    }
  }

  lemma SubEndpointAdded(r: Registry, s: int, g: QoSGroup, k: nat)
    requires Sane(r) && s in r.subs && k < |r.subs[s]| && r.subs[s][k].endpoint.None?
    ensures var e := r.subs[s][k].(endpoint := Some(SubEndpoint(g, r.subEndpoints)));
            var r' := r.(subs := r.subs[s := r.subs[s][k := e]], subEndpoints := r.subEndpoints + 1);
            Grows(r, r') && Numbered(r') && Keyed(r')
  {
    hide WellGrouped;
    hide IndicesDistinct;
    hide PubsNumbered;
    var e := r.subs[s][k].(endpoint := Some(SubEndpoint(g, r.subEndpoints)));
    var subs' := r.subs[s := r.subs[s][k := e]];
    forall t, i | HasEndpointAt(subs', t, i)
      ensures (t == s && i == k && subs'[t][i] == e) || (HasEndpointAt(r.subs, t, i) && subs'[t][i] == r.subs[t][i])
    {
    }
  }

  lemma SubscriberEndpointGrows(r: Registry, s: int, g: QoSGroup, supported: set<QoSGroup>)
    requires Sane(r) && g in supported && HasConnector(r, s, g)
    ensures var result := CreateOrFindSubscriberEndpoint(r, s, g, supported);
            result.Ok? && Grows(r, result.value) && Sane(result.value) && HasSubEndpoint(result.value, s, g)
  {
    SubscriberEndpointOnce(r, s, g, supported);
    var conns := SubsOf(r, s);
    assert Homogeneous(conns);
    SearchEndpointIsExact(conns, g);
    SearchIsExact(conns, g);
    if SearchEndpoint(conns, g).value {
      GrowsNot(r);
    } else {
      var k := Search(conns, g).value.value;
      assert conns[k] in conns && conns[k].endpoint.None?;
      SubEndpointAdded(r, s, g, k);
    }
  }

  // ------------------------------------------------------------------ nothing else changes

  /** The same services are published by the same applications. */
  ghost predicate SamePublishers(a: Registry, b: Registry) {
    b.pubs.Keys == a.pubs.Keys && forall s :: s in a.pubs ==> b.pubs[s].app == a.pubs[s].app
  }

  /** The same connectors, except that one may have got its endpoint. */
  ghost predicate SameConnectors(a: Registry, b: Registry) {
    forall s :: |SubsOf(b, s)| == |SubsOf(a, s)|
                && forall i :: 0 <= i < |SubsOf(a, s)| ==>
                     SubsOf(b, s)[i].(endpoint := SubsOf(a, s)[i].endpoint) == SubsOf(a, s)[i]
  }

  /** Looking for a publisher endpoint adds that endpoint, without remotes, or nothing. */
  lemma PublisherEndpointChanges(r: Registry, s: int, g: QoSGroup, supported: set<QoSGroup>)
    requires CreateOrFindPublisherEndpoint(r, s, g, supported).Ok?
    ensures var r' := CreateOrFindPublisherEndpoint(r, s, g, supported).value;
            && r'.subs == r.subs && SamePublishers(r, r')
            && (forall t, h :: HasPubEndpoint(r', t, h) <==> HasPubEndpoint(r, t, h) || (t == s && h == g))
            && (forall t, h, x :: HasRemote(r', t, h, x) <==> HasRemote(r, t, h, x))
  {
    var es, r' := r.pubs[s].endpoints, CreateOrFindPublisherEndpoint(r, s, g, supported).value;
    var found := SearchPubEndpoint(es, g);
    hide SearchPubEndpoint;
    if found.Some? {
      assert es[found.value] in es;
    } else {
      var e := PubEndpoint(g, r.pubEndpoints, []);
      assert r'.pubs[s].endpoints == es + [e];
      assert (es + [e])[|es|] == e;
      assert forall d :: d in es + [e] <==> d in es || d == e;
    }
  }

  lemma AddedRemotes(remotes: seq<Remote>, r: Remote, x: Remote)
    ensures x in AddTo(remotes, r) <==> x in remotes || x == r
  {
  }

  ghost predicate Serves(es: seq<PubEndpoint>, g: QoSGroup, x: Remote) {
    exists e :: e in es && e.qos == g && x in e.remotes
  }

  lemma EndpointReplaced(es: seq<PubEndpoint>, k: nat, remote: Remote, h: QoSGroup, x: Remote)
    requires k < |es|
    ensures var es' := es[k := es[k].(remotes := AddTo(es[k].remotes, remote))];
            Serves(es', h, x) <==> Serves(es, h, x) || (h == es[k].qos && x == remote)
  {
    var e := es[k].(remotes := AddTo(es[k].remotes, remote));
    var es' := es[k := e];
    AddedRemotes(es[k].remotes, remote, x);
    hide AddTo;
    assert es'[k] == e && es'[k] in es';
    if Serves(es, h, x) {
      var i :| 0 <= i < |es| && es[i].qos == h && x in es[i].remotes;
      assert es'[i] in es';
    }
    if Serves(es', h, x) {
      var i :| 0 <= i < |es'| && es'[i].qos == h && x in es'[i].remotes;
      assert es[i] in es;
    }
  }

  /** Adding a remote to an endpoint adds that remote to it, or nothing. */
  lemma RemoteChanges(r: Registry, s: int, g: QoSGroup, remote: Remote)
    requires HasPubEndpoint(r, s, g)
    ensures var r' := AddPublisherRemote(r, s, g, remote);
            && r'.subs == r.subs && SamePublishers(r, r')
            && (forall t, h :: HasPubEndpoint(r', t, h) <==> HasPubEndpoint(r, t, h))
            && (forall t, h, x ::
                  HasRemote(r', t, h, x) <==> HasRemote(r, t, h, x) || (t == s && h == g && x == remote))
  {
    hide SearchPubEndpoint;
    var es, k := r.pubs[s].endpoints, SearchPubEndpoint(r.pubs[s].endpoints, g).value;
    var r' := AddPublisherRemote(r, s, g, remote);
    assert r'.pubs[s].endpoints == es[k := es[k].(remotes := AddTo(es[k].remotes, remote))];
    assert forall t :: t in r.pubs <==> t in r'.pubs;
    assert forall t :: t in r.pubs && t != s ==> r'.pubs[t] == r.pubs[t];
    forall t, h
      ensures HasPubEndpoint(r', t, h) <==> HasPubEndpoint(r, t, h)
    {
      SameGroups(r, r', s, t, h);
    }
    forall t, h, x
      ensures HasRemote(r', t, h, x) <==> HasRemote(r, t, h, x) || (t == s && h == g && x == remote)
    {
      EndpointReplaced(es, k, remote, h, x);
      hide AddPublisherRemote;
      hide AddTo;
      assert t in r.pubs ==> (HasRemote(r, t, h, x) <==> Serves(r.pubs[t].endpoints, h, x));
      assert t in r'.pubs ==> (HasRemote(r', t, h, x) <==> Serves(r'.pubs[t].endpoints, h, x));
    }
  }

  /** An endpoint's remotes are distinct and in the order they came: a new one is its last. */
  lemma RemoteIsAddedOnce(r: Registry, s: int, g: QoSGroup, remote: Remote) returns (k: nat)
    requires HasPubEndpoint(r, s, g)
    ensures var r' := AddPublisherRemote(r, s, g, remote);
            && s in r'.pubs
            && var es, es' := r.pubs[s].endpoints, r'.pubs[s].endpoints;
               && k < |es| && |es'| == |es| && es[k].qos == g && es'[k].(remotes := es[k].remotes) == es[k]
               && es'[k].remotes == (if remote in es[k].remotes then es[k].remotes else es[k].remotes + [remote])
               && forall i :: 0 <= i < |es| && i != k ==> es'[i] == es[i]
  {
    hide SearchPubEndpoint;
    k := SearchPubEndpoint(r.pubs[s].endpoints, g).value;
  }

  lemma SameGroups(a: Registry, b: Registry, s: int, t: int, h: QoSGroup)
    requires s in a.pubs && s in b.pubs && |b.pubs[s].endpoints| == |a.pubs[s].endpoints|
    requires forall i :: 0 <= i < |a.pubs[s].endpoints| ==> b.pubs[s].endpoints[i].qos == a.pubs[s].endpoints[i].qos
    requires forall u :: u in a.pubs <==> u in b.pubs
    requires forall u :: u in a.pubs && u != s ==> b.pubs[u] == a.pubs[u]
    ensures HasPubEndpoint(b, t, h) <==> HasPubEndpoint(a, t, h)
  {
    if t == s {
      var x, y := a.pubs[s].endpoints, b.pubs[s].endpoints;
      if HasPubEndpoint(a, t, h) {
        var i :| 0 <= i < |x| && x[i].qos == h;
        assert y[i] in y;
      }
      if HasPubEndpoint(b, t, h) {
        var i :| 0 <= i < |y| && y[i].qos == h;
        assert x[i] in x;
      }
    }
  }

  ghost predicate HasEndpointIn(conns: seq<SubConnector>, g: QoSGroup) {
    exists c :: c in conns && c.apps != [] && GroupOf(c) == g && c.endpoint.Some?
  }

  lemma EndpointSet(conns: seq<SubConnector>, k: nat, e: SubEndpoint, h: QoSGroup)
    requires k < |conns| && conns[k].apps != []
    ensures HasEndpointIn(conns[k := conns[k].(endpoint := Some(e))], h)
            <==> HasEndpointIn(conns, h) || h == GroupOf(conns[k])
  {
    var after := conns[k := conns[k].(endpoint := Some(e))];
    assert after[k] in after;
    if HasEndpointIn(conns, h) {
      var i :| 0 <= i < |conns| && conns[i].apps != [] && GroupOf(conns[i]) == h && conns[i].endpoint.Some?;
      assert after[i] in after;
    }
    if HasEndpointIn(after, h) {
      var i :| 0 <= i < |after| && after[i].apps != [] && GroupOf(after[i]) == h && after[i].endpoint.Some?;
      assert conns[i] in conns;
    }
  }

  lemma EndpointIsIn(r: Registry, s: int, g: QoSGroup)
    ensures HasSubEndpoint(r, s, g) <==> HasEndpointIn(SubsOf(r, s), g)
  {
  }

  /** Looking for a subscriber endpoint gives the connector of the group one, or nothing. */
  lemma SubscriberEndpointChanges(r: Registry, s: int, g: QoSGroup, supported: set<QoSGroup>)
    requires Valid(r) && g in supported && CreateOrFindSubscriberEndpoint(r, s, g, supported).Ok?
    ensures var r' := CreateOrFindSubscriberEndpoint(r, s, g, supported).value;
            && r'.pubs == r.pubs && SameConnectors(r, r')
            && (forall t, h :: HasSubEndpoint(r', t, h) <==> HasSubEndpoint(r, t, h) || (t == s && h == g))
  {
    hide Valid;
    hide Search;
    hide SearchEndpoint;
    hide HasSubEndpoint;
    hide HasEndpointIn;
    var conns, r' := SubsOf(r, s), CreateOrFindSubscriberEndpoint(r, s, g, supported).value;
    ConnectorsAreFound(r, s, g);
    SubscriberEndpointOnce(r, s, g, supported);
    forall t, h
      ensures HasSubEndpoint(r', t, h) <==> HasSubEndpoint(r, t, h) || (t == s && h == g)
    {
      if r' != r {
        EndpointIsIn(r, t, h);
        EndpointIsIn(r', t, h);
        EndpointSet(conns, Search(conns, g).value.value, SubEndpoint(g, r.subEndpoints), h);
      }
    }
  }
}
