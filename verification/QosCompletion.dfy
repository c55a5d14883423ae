/** Negotiation completes: over a network that delivers every message once, in any order, each
    negotiation takes exactly four deliveries, none of them throws, and nothing is left over. */
module QosCompletion {
  import opened Base
  import opened Connectors
  import opened ConnectorGrowth
  import opened QosBroker
  import opened QosSafety
  import opened QosAgreement
  import opened QosHandshake

  /** Hosts, the messages in flight, the negotiations begun, and how many messages were delivered. */
  datatype Flow = Flow(net: Net, flight: seq<Msg>, begun: seq<NegotiationRequest>, deliveries: nat)

  datatype Step =
    | Begin(host: Address, request: NegotiationRequest)
    | Deliver(index: nat)
    | Grow(host: Address, registry: Registry)

  // ------------------------------------------------------------------ endpoint pairs

  /** The message belongs to the unordered pair of endpoints. */
  predicate Covers(m: Msg, x: EndpointDescription, y: EndpointDescription) {
    (m.sender == x && m.receiver == y) || (m.sender == y && m.receiver == x)
  }

  ghost predicate Distinct(flight: seq<Msg>) {
    forall i, j :: 0 <= i < j < |flight| ==> !Covers(flight[i], flight[j].sender, flight[j].receiver)
  }

  ghost predicate IsCovered(flight: seq<Msg>, x: EndpointDescription, y: EndpointDescription) {
    exists m :: m in flight && Covers(m, x, y)
  }

  function Without(flight: seq<Msg>, k: nat): seq<Msg>
    requires k < |flight|
  {
    flight[..k] + flight[k + 1..]
  }

  lemma WithoutIsDistinct(flight: seq<Msg>, k: nat)
    requires Distinct(flight) && k < |flight|
    ensures var rest := Without(flight, k);
            && Distinct(rest)
            && (forall m :: m in rest ==> m in flight && !Covers(m, flight[k].sender, flight[k].receiver))
            && (forall m :: m in flight ==> m == flight[k] || m in rest)
  {
    var rest := Without(flight, k);
    forall i, j | 0 <= i < j < |rest|
      ensures !Covers(rest[i], rest[j].sender, rest[j].receiver)
    {
      assert rest[i] == flight[if i < k then i else i + 1] && rest[j] == flight[if j < k then j else j + 1];
    }
    forall m | m in rest
      ensures m in flight && !Covers(m, flight[k].sender, flight[k].receiver)
    {
      var i :| 0 <= i < |rest| && rest[i] == m;
      assert m == flight[if i < k then i else i + 1];
    }
    forall m | m in flight
      ensures m == flight[k] || m in rest
    {
      var i :| 0 <= i < |flight| && flight[i] == m;
      if i < k {
        assert rest[i] == m;
      } else if k < i {
        assert rest[i - 1] == m;
      }
    }
  }

  // ------------------------------------------------------------------ the measure

  function Rank(m: Msg): nat {
    match m.payload
    case Request => 4
    case Response(_) => 3
    case Establish(_) => 2
    case Finalise(_, _) => 1
  }

  function Weight(flight: seq<Msg>): nat {
    if flight == [] then 0 else Weight(flight[..|flight| - 1]) + Rank(flight[|flight| - 1])
  }

  lemma {:induction false} WeightConcat(a: seq<Msg>, b: seq<Msg>)
    ensures Weight(a + b) == Weight(a) + Weight(b)
  {
    if b == [] {
      assert a + b == a;
    } else {
      assert (a + b)[..|a + b| - 1] == a + b[..|b| - 1];
      WeightConcat(a, b[..|b| - 1]);
    }
  }

  lemma WeightOne(m: Msg)
    ensures Weight([m]) == Rank(m)
  {
    assert [m][..0] == [];
  }

  lemma WeightWithout(flight: seq<Msg>, k: nat)
    requires k < |flight|
    ensures Weight(flight) == Weight(Without(flight, k)) + Rank(flight[k])
  {
    hide Weight;
    hide Rank;
    var a, m, b := flight[..k], flight[k], flight[k + 1..];
    assert flight == (a + [m]) + b;
    WeightConcat(a + [m], b);
    WeightConcat(a, [m]);
    WeightConcat(a, b);
    WeightOne(m);
  }

  // ------------------------------------------------------------------ one negotiation

  function ClientOf(m: Msg): EndpointDescription {
    if m.payload.Request? || m.payload.Establish? then m.sender else m.receiver
  }

  function ServerOf(m: Msg): EndpointDescription {
    if m.payload.Request? || m.payload.Establish? then m.receiver else m.sender
  }

  function BrokerAt(y: Net, x: EndpointDescription, z: EndpointDescription): Option<Broker> {
    if x.address in y then Find(y[x.address].brokers, x, z) else None
  }

  /** The client has a connector for the service and group, and the server publishes the service. */
  ghost predicate Ready(y: Net, c: EndpointDescription, p: EndpointDescription, g: QoSGroup) {
    && c.address in y && p.address in y && c.address != p.address
    && g in QOS_GROUPS
    && p.serviceId in y[p.address].site.registry.pubs
    && HasConnector(y[c.address].site.registry, p.serviceId, g)
  }

  predicate IsClient(b: Option<Broker>, state: BrokerState, g: QoSGroup) {
    b.Some? && b.value.state == state && !b.value.finished
    && b.value.request.Some? && b.value.request.value.group == g
  }

  predicate IsServer(b: Option<Broker>) {
    b.Some? && b.value.state.ServerPendingAccept? && b.value.request.None?
  }

  /** Both brokers are in the states that the one message in flight calls for. */
  ghost predicate Stage(y: Net, m: Msg) {
    var c, p := ClientOf(m), ServerOf(m);
    && WellFormed(m) && Ready(y, c, p, m.qosClass)
    && (match m.payload
        case Request => IsClient(BrokerAt(y, c, p), ClientPendingRequest, m.qosClass) && BrokerAt(y, p, c).None?
        case Response(_) =>
          IsClient(BrokerAt(y, c, p), ClientPendingRequest, m.qosClass) && IsServer(BrokerAt(y, p, c))
        case Establish(_) =>
          IsClient(BrokerAt(y, c, p), ClientPendingConnection, m.qosClass) && IsServer(BrokerAt(y, p, c))
        case Finalise(_, _) =>
          IsClient(BrokerAt(y, c, p), ClientPendingConnection, m.qosClass) && BrokerAt(y, p, c).None?)
  }

  // ------------------------------------------------------------------ steps

  /** A negotiation starts for a published service and a connected subscriber on different hosts,
      with an unused request id, and with no other negotiation open for the two endpoints. */
  ghost predicate MayBegin(y: Net, a: Address, r: NegotiationRequest) {
    && a in y && r.subscriber.address == a && Ready(y, r.subscriber, r.publisher, r.group)
    && r.id !in y[a].site.statuses
    && BrokerAt(y, r.subscriber, r.publisher).None? && BrokerAt(y, r.publisher, r.subscriber).None?
  }

  ghost predicate Possible(f: Flow, x: Step) {
    match x
    case Begin(a, r) => MayBegin(f.net, a, r)
    case Deliver(k) => k < |f.flight| && f.flight[k].receiver.address in f.net
    case Grow(a, r) => a in f.net && Grows(f.net[a].site.registry, r) && Sane(r)
  }

  /** The messages a host has sent since. */
  function NewlySent(d: Desk, e: Desk): seq<Msg> {
    if |d.site.sent| <= |e.site.sent| then e.site.sent[|d.site.sent|..] else []
  }

  ghost function Begun(f: Flow, a: Address, r: NegotiationRequest): Flow
    requires a in f.net
  {
    var e := CreateBroker(f.net[a], r);
    Flow(f.net[a := e], f.flight + NewlySent(f.net[a], e), f.begun + [r], f.deliveries)
  }

  ghost function Take(f: Flow, x: Step): Result<Flow>
    requires Possible(f, x)
  {
    match x
    case Begin(a, r) => Ok(Begun(f, a, r))
    case Deliver(k) =>
      var m := f.flight[k];
      var t := m.receiver.address;
      var e :- Dispatch(f.net[t], m);
      Ok(Flow(f.net[t := e], Without(f.flight, k) + NewlySent(f.net[t], e), f.begun, f.deliveries + 1))
    case Grow(a, r) =>
      Ok(f.(net := f.net[a := f.net[a].(site := f.net[a].site.(registry := r))]))
  }

  // ------------------------------------------------------------------ the invariant

  ghost predicate LocalDesk(d: Desk, a: Address) {
    && Sane(d.site.registry) && Unique(d.brokers)
    && forall x, z :: Find(d.brokers, x, z).Some? ==> x.address == a
  }

  ghost predicate DeskSane(y: Net, a: Address) {
    a in y && LocalDesk(y[a], a)
  }

  ghost predicate DesksSane(y: Net) {
    forall a :: a in y ==> DeskSane(y, a)
  }

  ghost predicate AllStaged(y: Net, flight: seq<Msg>) {
    forall m :: m in flight ==> Stage(y, m)
  }

  ghost predicate AllCovered(y: Net, flight: seq<Msg>) {
    forall x, z :: BrokerAt(y, x, z).Some? ==> IsCovered(flight, x, z)
  }

  ghost predicate InProgress(d: Desk, id: nat) {
    exists x, z :: var b := Find(d.brokers, x, z); b.Some? && b.value.request.Some? && b.value.request.value.id == id
  }

  ghost predicate DeskTracked(d: Desk) {
    forall id :: id in d.site.statuses ==> d.site.statuses[id] == FinalisedSuccess || InProgress(d, id)
  }

  ghost predicate AllTracked(y: Net) {
    forall a :: a in y ==> DeskTracked(y[a])
  }

  ghost predicate IsOpen(y: Net, r: NegotiationRequest) {
    var b := BrokerAt(y, r.subscriber, r.publisher);
    b.Some? && b.value.request == Some(r)
  }

  /** The request has succeeded by a Finalise of its own group. */
  predicate Wins(x: Success, r: NegotiationRequest) {
    x.request == r && x.finalise.qosClass == r.group
  }

  ghost predicate IsWon(y: Net, r: NegotiationRequest) {
    && r.subscriber.address in y
    && exists x :: x in y[r.subscriber.address].site.successes && Wins(x, r)
  }

  /** Every negotiation begun is open or has succeeded. */
  ghost predicate AllAccounted(y: Net, begun: seq<NegotiationRequest>) {
    forall r :: r in begun ==> IsOpen(y, r) || IsWon(y, r)
  }

  ghost predicate Inv(f: Flow) {
    && DesksSane(f.net)
    && Distinct(f.flight)
    && AllStaged(f.net, f.flight)
    && AllCovered(f.net, f.flight)
    && AllTracked(f.net)
    && AllAccounted(f.net, f.begun)
    && f.deliveries + Weight(f.flight) == 4 * |f.begun|
  }

  // ------------------------------------------------------------------ one delivery

  /** What a delivery leaves at the receiver and sends on. */
  ghost predicate Successor(m: Msg, next: Option<Broker>, reply: seq<Msg>) {
    match m.payload
    case Request => IsServer(next) && Continues(m, reply) && reply[0].payload.Response?
    case Response(_) =>
      IsClient(next, ClientPendingConnection, m.qosClass) && Continues(m, reply) && reply[0].payload.Establish?
    case Establish(_) => next.None? && Continues(m, reply) && reply[0].payload.Finalise?
    case Finalise(_, _) => next.None? && reply == []
  }

  ghost predicate Continues(m: Msg, reply: seq<Msg>) {
    && |reply| == 1 && WellFormed(reply[0]) && reply[0].qosClass == m.qosClass
    && reply[0].sender == m.receiver && reply[0].receiver == m.sender
  }

  /** What the receiver's desk looks like when a staged message arrives. */
  ghost predicate ReceiverReady(d: Desk, m: Msg) {
    var b := Find(d.brokers, m.receiver, m.sender);
    && WellFormed(m) && m.qosClass in QOS_GROUPS
    && (match m.payload
        case Request => b.None?
        case Response(_) =>
          && IsClient(b, ClientPendingRequest, m.qosClass)
          && HasConnector(d.site.registry, m.sender.serviceId, m.qosClass)
        case Establish(_) => IsServer(b) && m.receiver.serviceId in d.site.registry.pubs
        case Finalise(_, _) =>
          && IsClient(b, ClientPendingConnection, m.qosClass)
          && HasConnector(d.site.registry, m.sender.serviceId, m.qosClass))
  }

  lemma StageMakesReady(y: Net, m: Msg)
    requires Stage(y, m)
    ensures m.receiver.address in y && ReceiverReady(y[m.receiver.address], m)
  {
    hide HasConnector;
    hide Find;
  }

  /** A staged message never makes its receiver throw. */
  lemma DeliveryActs(d: Desk, m: Msg) returns (next: Option<Broker>, reply: seq<Msg>)
    requires ReceiverReady(d, m) && Sane(d.site.registry) && Unique(d.brokers)
    ensures Dispatch(d, m).Ok? && Acts(d, m, Dispatch(d, m).value, next, reply)
    ensures Successor(m, next, reply)
  {
    hide Acts;
    hide Dispatch;
    hide Find;
    hide Unique;
    hide Sane;
    hide HasConnector;
    var b := Find(d.brokers, m.receiver, m.sender);
    match m.payload {
      case Request =>
        RequestActs(d, m);
        next := Some(Broker(m.receiver, m.sender, ServerPendingAccept, None, false));
        reply := [Msg(Response(true), m.qosClass, m.receiver, m.sender)];
      case Response(_) =>
        var r := ResponseActs(d, m, b.value);
        next, reply := Some(b.value.(state := ClientPendingConnection)), [r];
      case Establish(_) =>
        var r := EstablishActs(d, m, b.value);
        next, reply := None, [r];
      case Finalise(_, _) =>
        FinaliseActs(d, m, b.value);
        next, reply := None, [];
    }
  }

  /** The net after the receiver has acted. */
  ghost predicate Delivered(y: Net, m: Msg, z: Net, next: Option<Broker>, reply: seq<Msg>) {
    var t := m.receiver.address;
    t in y && t in z && z == y[t := z[t]] && Acts(y[t], m, z[t], next, reply)
  }

  lemma BrokersAfter(y: Net, m: Msg, z: Net, next: Option<Broker>, reply: seq<Msg>,
                     x: EndpointDescription, w: EndpointDescription)
    requires Delivered(y, m, z, next, reply)
    ensures BrokerAt(z, x, w) == if x == m.receiver && w == m.sender then next else BrokerAt(y, x, w)
  {
    hide Sane;
    hide Grows;
    hide StatusesFollow;
    hide Unique;
    hide Find;
  }

  lemma ReadyAfter(y: Net, m: Msg, z: Net, next: Option<Broker>, reply: seq<Msg>,
                   c: EndpointDescription, p: EndpointDescription, g: QoSGroup)
    requires Delivered(y, m, z, next, reply) && Ready(y, c, p, g)
    ensures Ready(z, c, p, g)
  {
    var t := m.receiver.address;
    assert Grows(y[t].site.registry, z[t].site.registry);
    hide Acts;
    if c.address == t {
      HasConnectorGrows(y[t].site.registry, z[t].site.registry, p.serviceId, g);
    }
    hide HasConnector;
  }

  lemma OtherStageStays(y: Net, m: Msg, z: Net, next: Option<Broker>, reply: seq<Msg>, o: Msg)
    requires Delivered(y, m, z, next, reply) && Stage(y, o) && !Covers(o, m.sender, m.receiver)
    ensures Stage(z, o)
  {
    var c, p := ClientOf(o), ServerOf(o);
    BrokersAfter(y, m, z, next, reply, c, p);
    BrokersAfter(y, m, z, next, reply, p, c);
    ReadyAfter(y, m, z, next, reply, c, p, o.qosClass);
    hide Delivered;
    hide BrokerAt;
    hide Ready;
    hide WellFormed;
  }

  /** Both sides' brokers after a delivery are as the reply calls for. */
  lemma ReplyFits(y: Net, m: Msg, z: Net, next: Option<Broker>, reply: seq<Msg>)
    requires Stage(y, m) && Successor(m, next, reply) && reply != []
    requires BrokerAt(z, m.receiver, m.sender) == next
    requires BrokerAt(z, m.sender, m.receiver) == BrokerAt(y, m.sender, m.receiver)
    requires Ready(z, ClientOf(m), ServerOf(m), m.qosClass)
    ensures Stage(z, reply[0])
  {
    hide BrokerAt;
    hide Ready;
    hide WellFormed;
    assert ClientOf(reply[0]) == ClientOf(m) && ServerOf(reply[0]) == ServerOf(m);
  }

  lemma StagedEnds(y: Net, m: Msg, next: Option<Broker>, reply: seq<Msg>)
    requires Stage(y, m) && Successor(m, next, reply)
    ensures m.sender != m.receiver && Ready(y, ClientOf(m), ServerOf(m), m.qosClass) && |reply| <= 1
  {
    hide BrokerAt;
    hide HasConnector;
    hide WellFormed;
  }

  lemma ReplyIsStaged(y: Net, m: Msg, z: Net, next: Option<Broker>, reply: seq<Msg>)
    requires Delivered(y, m, z, next, reply) && Stage(y, m) && Successor(m, next, reply)
    ensures forall r :: r in reply ==> Stage(z, r)
  {
    hide Stage;
    hide Successor;
    hide BrokerAt;
    hide Ready;
    hide Delivered;
    StagedEnds(y, m, next, reply);
    BrokersAfter(y, m, z, next, reply, m.receiver, m.sender);
    BrokersAfter(y, m, z, next, reply, m.sender, m.receiver);
    ReadyAfter(y, m, z, next, reply, ClientOf(m), ServerOf(m), m.qosClass);
    if reply != [] {
      ReplyFits(y, m, z, next, reply);
    }
  }

  lemma CoveredAfter(y: Net, m: Msg, z: Net, next: Option<Broker>, reply: seq<Msg>,
                     flight: seq<Msg>, rest: seq<Msg>, x: EndpointDescription, w: EndpointDescription)
    requires Delivered(y, m, z, next, reply) && Stage(y, m) && Successor(m, next, reply)
    requires AllCovered(y, flight) && (forall o :: o in flight ==> o == m || o in rest)
    requires BrokerAt(z, x, w).Some?
    ensures IsCovered(rest + reply, x, w)
  {
    BrokersAfter(y, m, z, next, reply, x, w);
    hide Delivered;
    hide BrokerAt;
    hide Ready;
    hide WellFormed;
    if Covers(m, x, w) {
      assert !m.payload.Finalise?;
      assert reply[0] in rest + reply && Covers(reply[0], x, w);
    } else {
      assert IsCovered(flight, x, w);
      var o :| o in flight && Covers(o, x, w);
      assert o in rest + reply;
    }
  }

  lemma TrackedAfter(d: Desk, m: Msg, e: Desk, next: Option<Broker>, reply: seq<Msg>)
    requires DeskTracked(d) && Acts(d, m, e, next, reply)
    ensures DeskTracked(e)
  {
    hide Sane;
    hide Grows;
    hide Unique;
    hide Find;
    forall id | id in e.site.statuses && e.site.statuses[id] != FinalisedSuccess
      ensures InProgress(e, id)
    {
      var b := Find(d.brokers, m.receiver, m.sender);
      if b.Some? && b.value.request.Some? && b.value.request.value.id == id {
        assert Find(e.brokers, m.receiver, m.sender) == next;
      } else {
        assert InProgress(d, id);
        var x, w :| var k := Find(d.brokers, x, w); k.Some? && k.value.request.Some? && k.value.request.value.id == id;
        assert x != m.receiver || w != m.sender;
        assert Find(e.brokers, x, w) == Find(d.brokers, x, w);
      }
    }
  }

  lemma DesksSaneAfter(y: Net, m: Msg, z: Net, next: Option<Broker>, reply: seq<Msg>)
    requires Delivered(y, m, z, next, reply) && DesksSane(y)
    ensures DesksSane(z)
  {
    hide Grows;
    hide StatusesFollow;
    hide Sane;
    hide Unique;
    hide Find;
    var t := m.receiver.address;
    forall a | a in z
      ensures DeskSane(z, a)
    {
      assert a in y && DeskSane(y, a);
      if a == t {
        forall x, w | Find(z[a].brokers, x, w).Some?
          ensures x.address == a
        {
          if x != m.receiver || w != m.sender {
            assert Find(z[t].brokers, x, w) == Find(y[t].brokers, x, w);
          }
        }
      }
    }
  }

  lemma TrackedAllAfter(y: Net, m: Msg, z: Net, next: Option<Broker>, reply: seq<Msg>)
    requires Delivered(y, m, z, next, reply) && AllTracked(y)
    ensures AllTracked(z)
  {
    var t := m.receiver.address;
    assert DeskTracked(y[t]);
    TrackedAfter(y[t], m, z[t], next, reply);
    hide DeskTracked;
    hide Acts;
  }

  lemma WinningIsAdded(y: Net, m: Msg, z: Net, next: Option<Broker>, reply: seq<Msg>, r: NegotiationRequest)
    requires Delivered(y, m, z, next, reply) && Stage(y, m) && Successor(m, next, reply)
    requires IsOpen(y, r) && m.receiver == r.subscriber && m.sender == r.publisher
    ensures IsOpen(z, r) || IsWon(z, r)
  {
    var t := m.receiver.address;
    BrokersAfter(y, m, z, next, reply, r.subscriber, r.publisher);
    assert StatusesFollow(y[t], m, z[t], next) && SuccessesFollow(y[t], m, z[t]);
    hide Acts;
    hide Ready;
    hide Find;
    if m.payload.Finalise? {
      assert Success(r, m) in z[t].site.successes && Wins(Success(r, m), r);
    }
  }

  lemma OpenStaysOrWins(y: Net, m: Msg, z: Net, next: Option<Broker>, reply: seq<Msg>, r: NegotiationRequest)
    requires Delivered(y, m, z, next, reply) && Stage(y, m) && Successor(m, next, reply)
    requires IsOpen(y, r) || IsWon(y, r)
    ensures IsOpen(z, r) || IsWon(z, r)
  {
    var t := m.receiver.address;
    assert SuccessesFollow(y[t], m, z[t]);
    if IsWon(y, r) {
      hide Acts;
      hide Find;
      var x :| x in y[r.subscriber.address].site.successes && Wins(x, r);
      assert x in z[r.subscriber.address].site.successes;
    } else if m.receiver == r.subscriber && m.sender == r.publisher {
      WinningIsAdded(y, m, z, next, reply, r);
    } else {
      BrokersAfter(y, m, z, next, reply, r.subscriber, r.publisher);
    }
  }

  lemma AccountedAfter(y: Net, m: Msg, z: Net, next: Option<Broker>, reply: seq<Msg>, begun: seq<NegotiationRequest>)
    requires Delivered(y, m, z, next, reply) && Stage(y, m) && Successor(m, next, reply)
    requires AllAccounted(y, begun)
    ensures AllAccounted(z, begun)
  {
    hide Delivered;
    hide Stage;
    hide Successor;
    hide IsOpen;
    hide IsWon;
    forall r | r in begun
      ensures IsOpen(z, r) || IsWon(z, r)
    {
      OpenStaysOrWins(y, m, z, next, reply, r);
    }
  }

  lemma ReplyWeighsOneLess(m: Msg, next: Option<Broker>, reply: seq<Msg>)
    requires Successor(m, next, reply)
    ensures Rank(m) == Weight(reply) + 1
  {
    if reply != [] {
      assert reply == [reply[0]];
      WeightOne(reply[0]);
    }
  }

  lemma FlightStaysDistinct(rest: seq<Msg>, m: Msg, next: Option<Broker>, reply: seq<Msg>)
    requires Distinct(rest) && Successor(m, next, reply)
    requires forall o :: o in rest ==> !Covers(o, m.sender, m.receiver)
    ensures Distinct(rest + reply)
  {
    var all := rest + reply;
    hide WellFormed;
    forall i, j | 0 <= i < j < |all|
      ensures !Covers(all[i], all[j].sender, all[j].receiver)
    {
      if |rest| <= j {
        assert all[i] in rest && all[j] == reply[0];
      }
    }
  }

  lemma AllStagedAfter(y: Net, m: Msg, z: Net, next: Option<Broker>, reply: seq<Msg>, flight: seq<Msg>, rest: seq<Msg>)
    requires Delivered(y, m, z, next, reply) && Stage(y, m) && Successor(m, next, reply)
    requires AllStaged(y, flight)
    requires forall o :: o in rest ==> o in flight && !Covers(o, m.sender, m.receiver)
    ensures AllStaged(z, rest + reply)
  {
    ReplyIsStaged(y, m, z, next, reply);
    hide Stage;
    hide Delivered;
    hide Successor;
    hide Covers;
    forall o | o in rest + reply
      ensures Stage(z, o)
    {
      if o in rest {
        OtherStageStays(y, m, z, next, reply, o);
      }
    }
  }

  lemma AllCoveredAfter(y: Net, m: Msg, z: Net, next: Option<Broker>, reply: seq<Msg>, flight: seq<Msg>, rest: seq<Msg>)
    requires Delivered(y, m, z, next, reply) && Stage(y, m) && Successor(m, next, reply)
    requires AllCovered(y, flight) && (forall o :: o in flight ==> o == m || o in rest)
    ensures AllCovered(z, rest + reply)
  {
    hide Stage;
    hide Delivered;
    hide Successor;
    hide BrokerAt;
    hide IsCovered;
    forall x, w | BrokerAt(z, x, w).Some?
      ensures IsCovered(rest + reply, x, w)
    {
      hide AllCovered;
      CoveredAfter(y, m, z, next, reply, flight, rest, x, w);
    }
  }

  lemma CountAfter(flight: seq<Msg>, k: nat, next: Option<Broker>, reply: seq<Msg>)
    requires k < |flight| && Successor(flight[k], next, reply)
    ensures Weight(flight) == Weight(Without(flight, k) + reply) + 1
  {
    WeightWithout(flight, k);
    WeightConcat(Without(flight, k), reply);
    ReplyWeighsOneLess(flight[k], next, reply);
    hide Weight;
    hide Rank;
    hide Without;
    hide Successor;
  }

  lemma FlightAfter(y: Net, z: Net, next: Option<Broker>, reply: seq<Msg>, flight: seq<Msg>, k: nat)
    requires k < |flight| && Distinct(flight) && AllStaged(y, flight) && AllCovered(y, flight)
    requires Delivered(y, flight[k], z, next, reply) && Stage(y, flight[k]) && Successor(flight[k], next, reply)
    ensures var after := Without(flight, k) + reply;
            Distinct(after) && AllStaged(z, after) && AllCovered(z, after)
  {
    WithoutIsDistinct(flight, k);
    var m, rest := flight[k], Without(flight, k);
    hide Distinct;
    hide Stage;
    hide Delivered;
    hide Successor;
    hide AllStaged;
    hide AllCovered;
    hide Without;
    hide Covers;
    FlightStaysDistinct(rest, m, next, reply);
    AllStagedAfter(y, m, z, next, reply, flight, rest);
    AllCoveredAfter(y, m, z, next, reply, flight, rest);
  }

  lemma DeliveredKeepsInv(f: Flow, m: Msg, z: Net, next: Option<Broker>, reply: seq<Msg>, k: nat)
    requires Inv(f) && k < |f.flight| && m == f.flight[k]
    requires Delivered(f.net, m, z, next, reply) && Stage(f.net, m) && Successor(m, next, reply)
    ensures Inv(Flow(z, Without(f.flight, k) + reply, f.begun, f.deliveries + 1))
  {
    hide DesksSane;
    hide AllTracked;
    hide Weight;
    hide Distinct;
    hide Stage;
    hide Delivered;
    hide Successor;
    hide AllStaged;
    hide AllCovered;
    hide Without;
    DesksSaneAfter(f.net, m, z, next, reply);
    TrackedAllAfter(f.net, m, z, next, reply);
    hide AllAccounted;
    AccountedAfter(f.net, m, z, next, reply, f.begun);
    CountAfter(f.flight, k, next, reply);
    FlightAfter(f.net, z, next, reply, f.flight, k);
  }

  lemma StagedIn(f: Flow, k: nat)
    requires Inv(f) && k < |f.flight|
    ensures f.flight[k].receiver.address in f.net && Possible(f, Deliver(k))
    ensures Stage(f.net, f.flight[k]) && ReceiverReady(f.net[f.flight[k].receiver.address], f.flight[k])
    ensures DeskSane(f.net, f.flight[k].receiver.address)
  {
    assert f.flight[k] in f.flight;
    StageMakesReady(f.net, f.flight[k]);
  }

  lemma TakenDelivery(f: Flow, k: nat, next: Option<Broker>, reply: seq<Msg>)
    requires Possible(f, Deliver(k))
    requires var d := f.net[f.flight[k].receiver.address];
             Dispatch(d, f.flight[k]).Ok? && Acts(d, f.flight[k], Dispatch(d, f.flight[k]).value, next, reply)
    ensures var m := f.flight[k];
            var z := f.net[m.receiver.address := Dispatch(f.net[m.receiver.address], m).value];
            && Delivered(f.net, m, z, next, reply)
            && Take(f, Deliver(k)) == Ok(Flow(z, Without(f.flight, k) + reply, f.begun, f.deliveries + 1))
  {
    hide Dispatch;
    hide Without;
    hide Sane;
    hide Grows;
    hide Unique;
    hide Find;
    hide StatusesFollow;
  }

  lemma ActedKeepsInv(f: Flow, k: nat, next: Option<Broker>, reply: seq<Msg>)
    requires Inv(f) && k < |f.flight| && f.flight[k].receiver.address in f.net && Possible(f, Deliver(k))
    requires Stage(f.net, f.flight[k]) && Successor(f.flight[k], next, reply)
    requires var d := f.net[f.flight[k].receiver.address];
             Dispatch(d, f.flight[k]).Ok? && Acts(d, f.flight[k], Dispatch(d, f.flight[k]).value, next, reply)
    ensures Take(f, Deliver(k)).Ok? && Inv(Take(f, Deliver(k)).value)
  {
    hide Inv;
    hide Possible;
    hide Dispatch;
    hide Acts;
    hide Stage;
    hide Successor;
    hide Delivered;
    hide Take;
    hide Without;
    TakenDelivery(f, k, next, reply);
    var m := f.flight[k];
    DeliveredKeepsInv(f, m, f.net[m.receiver.address := Dispatch(f.net[m.receiver.address], m).value], next, reply, k);
  }

  /** Every delivery succeeds, and takes the negotiation one step on. */
  lemma DeliveryKeepsInv(f: Flow, k: nat)
    requires Inv(f) && k < |f.flight|
    ensures Possible(f, Deliver(k)) && Take(f, Deliver(k)).Ok? && Inv(Take(f, Deliver(k)).value)
  {
    StagedIn(f, k);
    var m := f.flight[k];
    var d := f.net[m.receiver.address];
    assert Sane(d.site.registry) && Unique(d.brokers);
    hide Inv;
    hide Possible;
    hide DeskSane;
    hide Dispatch;
    hide Acts;
    hide Stage;
    hide ReceiverReady;
    hide Successor;
    hide Take;
    hide Sane;
    hide Unique;
    var next, reply := DeliveryActs(d, m);
    ActedKeepsInv(f, k, next, reply);
  }

  // ------------------------------------------------------------------ a negotiation starts

  lemma CreatedBroker(d: Desk, r: NegotiationRequest)
    requires Sane(d.site.registry) && Unique(d.brokers) && Find(d.brokers, r.subscriber, r.publisher).None?
    ensures var b := NewBroker(r.subscriber, r.publisher, Some(r)).(state := ClientPendingRequest);
            var e := CreateBroker(d, r);
            && Unique(e.brokers)
            && (forall x, w :: Find(e.brokers, x, w)
                  == if x == r.subscriber && w == r.publisher then Some(b) else Find(d.brokers, x, w))
            && e.site == d.site.(statuses := d.site.statuses[r.id := RequestSend],
                                 sent := d.site.sent + [Msg(Request, r.group, r.subscriber, r.publisher)])
  {
    var b := NewBroker(r.subscriber, r.publisher, Some(r)).(state := ClientPendingRequest);
    AppendedFind(d.brokers, b, b.local, b.remote);
    forall x, w
      ensures Find(d.brokers + [b], x, w)
           == if x == r.subscriber && w == r.publisher then Some(b) else Find(d.brokers, x, w)
    {
      AppendedFind(d.brokers, b, x, w);
    }
    hide Find;
    hide Unique;
  }

  /** The net after a host has started a negotiation. */
  ghost predicate Started(y: Net, a: Address, r: NegotiationRequest, z: Net) {
    && a in y && z == y[a := CreateBroker(y[a], r)]
    && (forall x, w :: BrokerAt(z, x, w)
          == if x == r.subscriber && w == r.publisher
             then Some(NewBroker(r.subscriber, r.publisher, Some(r)).(state := ClientPendingRequest))
             else BrokerAt(y, x, w))
    && (forall b :: b in y ==> b in z && z[b].site.registry == y[b].site.registry)
  }

  lemma BrokersAfterStart(y: Net, a: Address, r: NegotiationRequest, x: EndpointDescription, w: EndpointDescription)
    requires a in y && LocalDesk(y[a], a) && r.subscriber.address == a
    requires BrokerAt(y, r.subscriber, r.publisher).None?
    ensures BrokerAt(y[a := CreateBroker(y[a], r)], x, w)
         == if x == r.subscriber && w == r.publisher
            then Some(NewBroker(r.subscriber, r.publisher, Some(r)).(state := ClientPendingRequest))
            else BrokerAt(y, x, w)
  {
    CreatedBroker(y[a], r);
    hide CreateBroker;
    hide Find;
  }

  lemma StartingSends(d: Desk, r: NegotiationRequest)
    ensures NewlySent(d, CreateBroker(d, r)) == [Msg(Request, r.group, r.subscriber, r.publisher)]
    ensures CreateBroker(d, r).site.registry == d.site.registry
    ensures CreateBroker(d, r).site.successes == d.site.successes
  {
  }

  lemma DeskIsLocal(y: Net, a: Address)
    requires DesksSane(y) && a in y
    ensures LocalDesk(y[a], a)
  {
    assert DeskSane(y, a);
  }

  lemma MayBeginHere(y: Net, a: Address, r: NegotiationRequest)
    requires MayBegin(y, a, r)
    ensures a in y && r.subscriber.address == a
    ensures BrokerAt(y, r.subscriber, r.publisher).None? && Find(y[a].brokers, r.subscriber, r.publisher).None?
  {
    hide Find;
    hide Ready;
  }

  lemma StartingIsStarted(y: Net, a: Address, r: NegotiationRequest)
    requires DesksSane(y) && MayBegin(y, a, r)
    ensures Started(y, a, r, y[a := CreateBroker(y[a], r)])
    ensures NewlySent(y[a], CreateBroker(y[a], r)) == [Msg(Request, r.group, r.subscriber, r.publisher)]
  {
    hide DesksSane;
    hide MayBegin;
    hide LocalDesk;
    hide CreateBroker;
    hide NewlySent;
    hide BrokerAt;
    hide Find;
    MayBeginHere(y, a, r);
    DeskIsLocal(y, a);
    StartingSends(y[a], r);
    forall x, w
      ensures BrokerAt(y[a := CreateBroker(y[a], r)], x, w)
           == if x == r.subscriber && w == r.publisher
              then Some(NewBroker(r.subscriber, r.publisher, Some(r)).(state := ClientPendingRequest))
              else BrokerAt(y, x, w)
    {
      BrokersAfterStart(y, a, r, x, w);
    }
  }

  lemma StartedDeskIsLocal(d: Desk, a: Address, r: NegotiationRequest)
    requires LocalDesk(d, a) && r.subscriber.address == a && Find(d.brokers, r.subscriber, r.publisher).None?
    ensures LocalDesk(CreateBroker(d, r), a)
  {
    CreatedBroker(d, r);
    hide CreateBroker;
    hide Find;
    hide Unique;
    hide Sane;
  }

  lemma StartedSane(y: Net, a: Address, r: NegotiationRequest)
    requires DesksSane(y) && MayBegin(y, a, r)
    ensures DesksSane(y[a := CreateBroker(y[a], r)])
  {
    hide MayBegin;
    hide LocalDesk;
    hide CreateBroker;
    hide Find;
    MayBeginHere(y, a, r);
    DeskIsLocal(y, a);
    StartedDeskIsLocal(y[a], a, r);
    var z := y[a := CreateBroker(y[a], r)];
    forall b | b in z
      ensures DeskSane(z, b)
    {
      assert b in y && DeskSane(y, b);
    }
  }

  lemma StartedDeskTracked(d: Desk, a: Address, r: NegotiationRequest)
    requires LocalDesk(d, a) && DeskTracked(d) && Find(d.brokers, r.subscriber, r.publisher).None?
    ensures DeskTracked(CreateBroker(d, r))
  {
    hide CreateBroker;
    hide Find;
    hide Unique;
    hide Sane;
    CreatedBroker(d, r);
    var e := CreateBroker(d, r);
    forall id | id in e.site.statuses && e.site.statuses[id] != FinalisedSuccess
      ensures InProgress(e, id)
    {
      if id == r.id {
        assert Find(e.brokers, r.subscriber, r.publisher).Some?;
      } else {
        assert InProgress(d, id);
        var x, w :| var k := Find(d.brokers, x, w); k.Some? && k.value.request.Some? && k.value.request.value.id == id;
        assert Find(e.brokers, x, w) == Find(d.brokers, x, w);
      }
    }
  }

  lemma StartedTracked(y: Net, a: Address, r: NegotiationRequest)
    requires DesksSane(y) && AllTracked(y) && MayBegin(y, a, r)
    ensures AllTracked(y[a := CreateBroker(y[a], r)])
  {
    hide DesksSane;
    hide MayBegin;
    hide LocalDesk;
    hide DeskTracked;
    hide CreateBroker;
    hide Find;
    MayBeginHere(y, a, r);
    DeskIsLocal(y, a);
    StartedDeskTracked(y[a], a, r);
  }

  lemma StaysAccounted(y: Net, a: Address, r: NegotiationRequest, z: Net, x: NegotiationRequest)
    requires Started(y, a, r, z) && BrokerAt(y, r.subscriber, r.publisher).None? && (IsOpen(y, x) || IsWon(y, x))
    ensures IsOpen(z, x) || IsWon(z, x)
  {
    hide BrokerAt;
    StartingSends(y[a], r);
    hide CreateBroker;
  }

  lemma StartedAccounted(y: Net, a: Address, r: NegotiationRequest, begun: seq<NegotiationRequest>)
    requires DesksSane(y) && MayBegin(y, a, r) && AllAccounted(y, begun)
    ensures AllAccounted(y[a := CreateBroker(y[a], r)], begun + [r])
  {
    hide DesksSane;
    hide MayBegin;
    hide CreateBroker;
    hide BrokerAt;
    hide Find;
    hide IsWon;
    MayBeginHere(y, a, r);
    StartingIsStarted(y, a, r);
    var z := y[a := CreateBroker(y[a], r)];
    assert IsOpen(z, r);
    hide Started;
    hide IsOpen;
    forall x | x in begun + [r]
      ensures IsOpen(z, x) || IsWon(z, x)
    {
      if x in begun {
        StaysAccounted(y, a, r, z, x);
      }
    }
  }

  /** No message in flight is of a pair for which nothing is open. */
  lemma FreshPairIsFresh(y: Net, flight: seq<Msg>, r: NegotiationRequest, o: Msg)
    requires AllStaged(y, flight) && o in flight
    requires BrokerAt(y, r.subscriber, r.publisher).None? && BrokerAt(y, r.publisher, r.subscriber).None?
    ensures !Covers(o, r.subscriber, r.publisher)
  {
    assert Stage(y, o);
    hide BrokerAt;
    hide Ready;
    hide WellFormed;
  }

  lemma StageAfterStart(y: Net, a: Address, r: NegotiationRequest, z: Net, o: Msg)
    requires Started(y, a, r, z) && Stage(y, o) && !Covers(o, r.subscriber, r.publisher)
    ensures Stage(z, o)
  {
    hide BrokerAt;
    hide CreateBroker;
    hide WellFormed;
    hide HasConnector;
  }

  lemma FlightAfterStart(y: Net, flight: seq<Msg>, a: Address, r: NegotiationRequest, z: Net)
    requires MayBegin(y, a, r) && Started(y, a, r, z)
    requires Distinct(flight) && AllStaged(y, flight) && AllCovered(y, flight)
    ensures var m := Msg(Request, r.group, r.subscriber, r.publisher);
            Distinct(flight + [m]) && AllStaged(z, flight + [m]) && AllCovered(z, flight + [m])
  {
    var m := Msg(Request, r.group, r.subscriber, r.publisher);
    var all := flight + [m];
    assert Stage(z, m) by {
      hide BrokerAt;
      hide CreateBroker;
      hide HasConnector;
    }
    hide BrokerAt;
    hide CreateBroker;
    hide Ready;
    hide Stage;
    forall o | o in flight
      ensures !Covers(o, r.subscriber, r.publisher) && Stage(z, o)
    {
      FreshPairIsFresh(y, flight, r, o);
      StageAfterStart(y, a, r, z, o);
    }
    forall x, w | BrokerAt(z, x, w).Some?
      ensures IsCovered(all, x, w)
    {
      if x == r.subscriber && w == r.publisher {
        assert m in all && Covers(m, x, w);
      } else {
        assert IsCovered(flight, x, w);
        var o :| o in flight && Covers(o, x, w);
        assert o in all;
      }
    }
  }

  lemma TakenStart(f: Flow, a: Address, r: NegotiationRequest)
    requires DesksSane(f.net) && MayBegin(f.net, a, r)
    ensures var m := Msg(Request, r.group, r.subscriber, r.publisher);
            && Take(f, Begin(a, r))
               == Ok(Flow(f.net[a := CreateBroker(f.net[a], r)], f.flight + [m], f.begun + [r], f.deliveries))
            && Weight(f.flight + [m]) == Weight(f.flight) + 4
  {
    var m := Msg(Request, r.group, r.subscriber, r.publisher);
    WeightConcat(f.flight, [m]);
    WeightOne(m);
    hide Weight;
    hide CreateBroker;
    hide Started;
    hide DesksSane;
    hide Ready;
    hide BrokerAt;
    hide NewlySent;
    StartingIsStarted(f.net, a, r);
  }

  lemma StartKeepsInv(f: Flow, a: Address, r: NegotiationRequest)
    requires Inv(f) && MayBegin(f.net, a, r)
    ensures Take(f, Begin(a, r)).Ok? && Inv(Take(f, Begin(a, r)).value)
  {
    hide Take;
    hide Weight;
    hide MayBegin;
    hide Started;
    hide CreateBroker;
    hide Distinct;
    hide AllStaged;
    hide AllCovered;
    hide DesksSane;
    hide AllTracked;
    MayBeginHere(f.net, a, r);
    TakenStart(f, a, r);
    StartingIsStarted(f.net, a, r);
    StartedSane(f.net, a, r);
    StartedTracked(f.net, a, r);
    hide AllAccounted;
    StartedAccounted(f.net, a, r, f.begun);
    FlightAfterStart(f.net, f.flight, a, r, f.net[a := CreateBroker(f.net[a], r)]);
  }

  // ------------------------------------------------------------------ a registry grows

  lemma StageAfterGrowth(y: Net, a: Address, r: Registry, o: Msg)
    requires a in y && Grows(y[a].site.registry, r) && Stage(y, o)
    ensures Stage(y[a := y[a].(site := y[a].site.(registry := r))], o)
  {
    var z := y[a := y[a].(site := y[a].site.(registry := r))];
    var c, p := ClientOf(o), ServerOf(o);
    assert BrokerAt(z, c, p) == BrokerAt(y, c, p) && BrokerAt(z, p, c) == BrokerAt(y, p, c);
    if c.address == a {
      HasConnectorGrows(y[a].site.registry, r, p.serviceId, o.qosClass);
    }
    hide HasConnector;
    hide BrokerAt;
    hide WellFormed;
  }

  function Grown(y: Net, a: Address, r: Registry): Net
    requires a in y
  {
    y[a := y[a].(site := y[a].site.(registry := r))]
  }

  lemma DesksAfterGrowth(y: Net, a: Address, r: Registry)
    requires a in y && Sane(r) && DesksSane(y) && AllTracked(y)
    ensures DesksSane(Grown(y, a, r)) && AllTracked(Grown(y, a, r))
  {
    hide Sane;
    hide Unique;
    hide Find;
    var z := Grown(y, a, r);
    forall b | b in z
      ensures DeskSane(z, b) && DeskTracked(z[b])
    {
      assert b in y && DeskSane(y, b) && DeskTracked(y[b]);
      if b == a {
        assert forall id :: InProgress(y[b], id) ==> InProgress(z[b], id);
      }
    }
  }

  lemma FlightAfterGrowth(y: Net, a: Address, r: Registry, flight: seq<Msg>)
    requires a in y && Grows(y[a].site.registry, r) && AllStaged(y, flight) && AllCovered(y, flight)
    ensures AllStaged(Grown(y, a, r), flight) && AllCovered(Grown(y, a, r), flight)
  {
    var z := Grown(y, a, r);
    forall x, w
      ensures BrokerAt(z, x, w) == BrokerAt(y, x, w)
    {
    }
    hide BrokerAt;
    hide IsCovered;
    hide Stage;
    hide Grows;
    forall o | o in flight
      ensures Stage(z, o)
    {
      StageAfterGrowth(y, a, r, o);
    }
  }

  lemma AccountedAfterGrowth(y: Net, a: Address, r: Registry, begun: seq<NegotiationRequest>)
    requires a in y && AllAccounted(y, begun)
    ensures AllAccounted(Grown(y, a, r), begun)
  {
    var z := Grown(y, a, r);
    forall q | q in begun
      ensures IsOpen(z, q) || IsWon(z, q)
    {
      assert BrokerAt(z, q.subscriber, q.publisher) == BrokerAt(y, q.subscriber, q.publisher);
      assert IsOpen(y, q) || IsWon(y, q);
    }
  }

  lemma GrowthKeepsInv(f: Flow, a: Address, r: Registry)
    requires Inv(f) && Possible(f, Grow(a, r))
    ensures Take(f, Grow(a, r)).Ok? && Inv(Take(f, Grow(a, r)).value)
  {
    DesksAfterGrowth(f.net, a, r);
    FlightAfterGrowth(f.net, a, r, f.flight);
    AccountedAfterGrowth(f.net, a, r, f.begun);
    hide AllAccounted;
    hide DesksSane;
    hide AllTracked;
    hide AllStaged;
    hide AllCovered;
    hide Distinct;
    hide Weight;
    hide Grows;
    hide Sane;
  }

  // ------------------------------------------------------------------ whole runs

  ghost predicate RunsTo(f: Flow, run: seq<Step>, z: Flow)
    decreases |run|
  {
    if run == [] then f == z
    else Possible(f, run[0]) && Take(f, run[0]).Ok? && RunsTo(Take(f, run[0]).value, run[1..], z)
  }

  lemma StepKeepsInv(f: Flow, x: Step)
    requires Inv(f) && Possible(f, x)
    ensures Take(f, x).Ok? && Inv(Take(f, x).value)
  {
    match x {
      case Begin(a, r) => StartKeepsInv(f, a, r);
      case Deliver(k) => DeliveryKeepsInv(f, k);
      case Grow(a, r) => GrowthKeepsInv(f, a, r);
    }
  }

  lemma {:induction false} RunKeepsInv(f: Flow, run: seq<Step>, z: Flow)
    requires Inv(f) && RunsTo(f, run, z)
    ensures Inv(z)
    decreases |run|
  {
    if run != [] {
      StepKeepsInv(f, run[0]);
      hide Inv;
      hide Take;
      hide Possible;
      RunKeepsInv(Take(f, run[0]).value, run[1..], z);
    }
  }

  ghost predicate Initially(f: Flow) {
    && f.flight == [] && f.begun == [] && f.deliveries == 0
    && forall a :: a in f.net ==>
         Sane(f.net[a].site.registry) && f.net[a] == Desk([], Site(f.net[a].site.registry, map[], [], []))
  }

  lemma InitiallyInv(f: Flow)
    requires Initially(f)
    ensures Inv(f)
  {
    hide Sane;
  }

  lemma NoBrokerLeft(y: Net, a: Address)
    requires DesksSane(y) && AllCovered(y, []) && a in y
    ensures y[a].brokers == []
  {
    if y[a].brokers != [] {
      assert DeskSane(y, a);
      var b := y[a].brokers[0];
      FindIs(y[a].brokers, 0);
      assert BrokerAt(y, b.local, b.remote).Some?;
      NothingCovered(b.local, b.remote);
      assert false;
    }
  }

  lemma NothingCovered(x: EndpointDescription, w: EndpointDescription)
    ensures !IsCovered([], x, w)
  {
  }

  // ------------------------------------------------------------------ the same run under any network

  /** Everything in flight has been sent by its sender. */
  ghost predicate AllSent(y: Net, flight: seq<Msg>) {
    forall m :: m in flight ==> m.sender.address in y && m in y[m.sender.address].site.sent
  }

  ghost predicate SentGrows(y: Net, z: Net) {
    z.Keys == y.Keys && forall a :: a in y ==> y[a].site.sent <= z[a].site.sent
  }

  /** The agreement invariant holds as well: a delivery is one of the arrivals that it allows. */
  ghost predicate Backed(f: Flow) {
    QosAgreement.Inv(f.net) && AllSent(f.net, f.flight)
  }

  lemma SentStays(y: Net, z: Net, flight: seq<Msg>, rest: seq<Msg>)
    requires AllSent(y, flight) && SentGrows(y, z) && forall m :: m in rest ==> m in flight
    ensures AllSent(z, rest)
  {
    forall m | m in rest
      ensures m.sender.address in z && m in z[m.sender.address].site.sent
    {
      assert m.sender.address in z.Keys;
      assert m in y[m.sender.address].site.sent;
    }
  }

  /** What a host has newly sent, it has sent, and under its own address. */
  lemma NewlySentIsSent(z: Net, a: Address, d: Desk)
    requires QosAgreement.Inv(z) && a in z
    ensures AllSent(z, NewlySent(d, z[a]))
  {
    hide SentOk;
    forall m | m in NewlySent(d, z[a])
      ensures m.sender.address == a && m in z[a].site.sent
    {
      var i :| 0 <= i < |z[a].site.sent| && z[a].site.sent[i] == m;
      assert SentOk(z, a, z[a].site.sent[i]);
      SentUnderOwnAddress(z, a, m);
    }
  }

  lemma SentUnderOwnAddress(z: Net, a: Address, m: Msg)
    requires SentOk(z, a, m)
    ensures m.sender.address == a
  {
    hide HasPubEndpoint;
    hide ServesAnEstablish;
  }

  lemma BegunIsBacked(f: Flow, a: Address, r: NegotiationRequest)
    requires Backed(f) && MayBegin(f.net, a, r)
    ensures Backed(Begun(f, a, r))
  {
    hide QosAgreement.Inv;
    hide Ready;
    hide NewlySent;
    hide BrokerAt;
    var z := f.net[a := CreateBroker(f.net[a], r)];
    QosAgreement.ActionKeepsInv(f.net, Start(a, r));
    NewlySentIsSent(z, a, f.net[a]);
    SentStays(f.net, z, f.flight, f.flight);
  }

  lemma DispatchKeepsSent(d: Desk, m: Msg, host: Address)
    requires BrokersOk(d.brokers, host) && Sane(d.site.registry) && WellFormed(m)
    requires m.receiver.address == host && Dispatch(d, m).Ok?
    ensures d.site.sent <= Dispatch(d, m).value.site.sent
  {
    hide Dispatch;
    hide BrokersOk;
    hide Sane;
    DispatchFollows(d, m, host);
  }

  lemma ArrivalOf(y: Net, flight: seq<Msg>, k: nat) returns (i: nat)
    requires QosAgreement.Inv(y) && AllSent(y, flight) && k < |flight| && flight[k].receiver.address in y
    ensures flight[k].sender.address in y
    ensures i < |y[flight[k].sender.address].site.sent| && y[flight[k].sender.address].site.sent[i] == flight[k]
    ensures QosAgreement.CanHappen(y, Arrive(flight[k].receiver.address, flight[k].sender.address, i))
    ensures Dispatch(y[flight[k].receiver.address], flight[k]).Ok? ==>
              y[flight[k].receiver.address].site.sent
              <= Dispatch(y[flight[k].receiver.address], flight[k]).value.site.sent
  {
    hide Dispatch;
    hide BrokersOk;
    hide Sane;
    hide HasPubEndpoint;
    hide NamesPublisher;
    hide ServesAnEstablish;
    hide AllSuccessesOk;
    var m := flight[k];
    i :| 0 <= i < |y[m.sender.address].site.sent| && y[m.sender.address].site.sent[i] == m;
    assert DeskOk(y, m.receiver.address) && SentOk(y, m.sender.address, y[m.sender.address].site.sent[i]);
    if Dispatch(y[m.receiver.address], m).Ok? {
      DispatchKeepsSent(y[m.receiver.address], m, m.receiver.address);
    }
  }

  lemma DeliveredIsBacked(f: Flow, k: nat)
    requires Backed(f) && Possible(f, Deliver(k)) && Take(f, Deliver(k)).Ok?
    ensures Backed(Take(f, Deliver(k)).value)
  {
    hide QosAgreement.Inv;
    hide QosAgreement.CanHappen;
    hide NewlySent;
    hide Dispatch;
    hide AllSent;
    var m, t := f.flight[k], f.flight[k].receiver.address;
    var i := ArrivalOf(f.net, f.flight, k);
    var z := f.net[t := Dispatch(f.net[t], m).value];
    assert QosAgreement.Act(f.net, Arrive(t, m.sender.address, i)) == Ok(z);
    QosAgreement.ActionKeepsInv(f.net, Arrive(t, m.sender.address, i));
    NewlySentIsSent(z, t, f.net[t]);
    SentStays(f.net, z, f.flight, Without(f.flight, k));
    SentTogether(z, Without(f.flight, k), NewlySent(f.net[t], z[t]));
  }

  lemma SentTogether(y: Net, a: seq<Msg>, b: seq<Msg>)
    requires AllSent(y, a) && AllSent(y, b)
    ensures AllSent(y, a + b)
  {
  }

  lemma GrownIsBacked(f: Flow, a: Address, r: Registry)
    requires Backed(f) && Possible(f, Grow(a, r))
    ensures Backed(Take(f, Grow(a, r)).value)
  {
    hide QosAgreement.Inv;
    hide Grows;
    hide Sane;
    QosAgreement.ActionKeepsInv(f.net, Register(a, r));
    SentStays(f.net, Grown(f.net, a, r), f.flight, f.flight);
  }

  lemma {:induction false} RunKeepsBacked(f: Flow, run: seq<Step>, z: Flow)
    requires Inv(f) && Backed(f) && RunsTo(f, run, z)
    ensures Inv(z) && Backed(z)
    decreases |run|
  {
    hide Inv;
    hide Backed;
    if run != [] {
      StepKeepsInv(f, run[0]);
      match run[0] {
        case Begin(a, r) => BegunIsBacked(f, a, r);
        case Deliver(k) => DeliveredIsBacked(f, k);
        case Grow(a, r) => GrownIsBacked(f, a, r);
      }
      hide Take;
      hide Possible;
      RunKeepsBacked(Take(f, run[0]).value, run[1..], z);
    }
  }

  lemma InitiallyBacked(f: Flow)
    requires Initially(f)
    ensures Backed(f)
  {
    hide Sane;
  }

  // ------------------------------------------------------------------ completion

  /** Both hosts have the endpoint of the requested group. */
  ghost predicate IsConnected(y: Net, r: NegotiationRequest) {
    && r.subscriber.address in y && r.publisher.address in y
    && HasSubEndpoint(y[r.subscriber.address].site.registry, r.publisher.serviceId, r.group)
    && HasPubEndpoint(y[r.publisher.address].site.registry, r.publisher.serviceId, r.group)
  }

  lemma WonIsConnected(y: Net, r: NegotiationRequest)
    requires QosAgreement.Inv(y) && IsWon(y, r)
    ensures IsConnected(y, r)
  {
    hide HasSubEndpoint;
    hide HasPubEndpoint;
    hide NamesPublisher;
    hide ServesAnEstablish;
    hide AllDesksOk;
    hide AllSentOk;
    var a := r.subscriber.address;
    var x :| x in y[a].site.successes && Wins(x, r);
    var i :| 0 <= i < |y[a].site.successes| && y[a].site.successes[i] == x;
    assert SuccessOk(y, a, y[a].site.successes[i]);
  }

  lemma NothingIsOpen(y: Net, r: NegotiationRequest)
    requires AllCovered(y, [])
    ensures !IsOpen(y, r)
  {
    NothingCovered(r.subscriber, r.publisher);
  }

  /** Nothing is in flight: no broker is left, and every negotiation begun has succeeded. */
  lemma QuietIsComplete(z: Flow)
    requires Inv(z) && Backed(z) && z.flight == []
    ensures forall a :: a in z.net ==> z.net[a].brokers == []
    ensures forall a, id :: a in z.net && id in z.net[a].site.statuses ==>
              z.net[a].site.statuses[id] == FinalisedSuccess
    ensures forall r :: r in z.begun ==> IsWon(z.net, r) && IsConnected(z.net, r)
  {
    hide DesksSane;
    hide AllCovered;
    hide IsWon;
    hide IsOpen;
    hide IsConnected;
    hide QosAgreement.Inv;
    forall a | a in z.net
      ensures z.net[a].brokers == []
    {
      NoBrokerLeft(z.net, a);
    }
    forall a, id | a in z.net && id in z.net[a].site.statuses
      ensures z.net[a].site.statuses[id] == FinalisedSuccess
    {
      assert DeskTracked(z.net[a]);
      NothingInProgress(z.net[a], id);
    }
    forall r | r in z.begun
      ensures IsWon(z.net, r) && IsConnected(z.net, r)
    {
      NothingIsOpen(z.net, r);
      WonIsConnected(z.net, r);
    }
  }

  /** Completion. In every reachable state of any number of hosts on a network that delivers each
      message once, in any order: a message in flight can always be delivered without an error, at
      most four deliveries are made for each negotiation begun, and when nothing is left in flight
      exactly four were, no host has a broker left, every status is a success, and every negotiation
      begun has succeeded by a Finalise of the group it asked for and left both hosts an endpoint of
      that group. */
  lemma {:induction false} NegotiationsComplete(f: Flow, run: seq<Step>, z: Flow)
    requires Initially(f) && RunsTo(f, run, z)
    ensures forall k :: 0 <= k < |z.flight| ==> Possible(z, Deliver(k)) && Take(z, Deliver(k)).Ok?
    ensures z.deliveries <= 4 * |z.begun|
    ensures z.flight == [] ==>
              && z.deliveries == 4 * |z.begun|
              && (forall a :: a in z.net ==> z.net[a].brokers == [])
              && (forall a, id :: a in z.net && id in z.net[a].site.statuses ==>
                    z.net[a].site.statuses[id] == FinalisedSuccess)
              && (forall r :: r in z.begun ==> IsWon(z.net, r) && IsConnected(z.net, r))
  {
    InitiallyInv(f);
    InitiallyBacked(f);
    RunKeepsBacked(f, run, z);
    forall k | 0 <= k < |z.flight|
      ensures Possible(z, Deliver(k)) && Take(z, Deliver(k)).Ok?
    {
      DeliveryKeepsInv(z, k);
    }
    assert z.deliveries + Weight(z.flight) == 4 * |z.begun|;
    hide Take;
    hide Possible;
    hide Inv;
    hide Backed;
    hide IsWon;
    hide IsConnected;
    if z.flight == [] {
      QuietIsComplete(z);
    }
  }

  lemma NothingInProgress(d: Desk, id: nat)
    requires d.brokers == []
    ensures !InProgress(d, id)
  {
  }

  /** A delivery leaves one less to do: Request, Response, Establish and Finalise stand for four,
      three, two and one. */
  lemma DeliveriesRunOut(f: Flow, k: nat)
    requires Inv(f) && k < |f.flight|
    ensures Possible(f, Deliver(k)) && Take(f, Deliver(k)).Ok?
    ensures Weight(Take(f, Deliver(k)).value.flight) == Weight(f.flight) - 1
  {
    DeliveryKeepsInv(f, k);
  }

  /** With nothing new starting, delivering whatever is in flight, in any order, ends after exactly as
      many deliveries as there are left to do. */
  lemma {:induction false} DeliveriesEnd(f: Flow, run: seq<Step>, z: Flow)
    requires Inv(f) && RunsTo(f, run, z) && forall i :: 0 <= i < |run| ==> run[i].Deliver?
    ensures |run| + Weight(z.flight) == Weight(f.flight)
    ensures z.flight == [] <==> |run| == Weight(f.flight)
    decreases |run|
  {
    hide Inv;
    hide Take;
    if run == [] {
      SomeWeight(z.flight);
    } else {
      assert run[0].Deliver?;
      StepKeepsInv(f, run[0]);
      DeliveriesRunOut(f, run[0].index);
      DeliveriesEnd(Take(f, run[0]).value, run[1..], z);
    }
  }

  lemma SomeWeight(flight: seq<Msg>)
    ensures Weight(flight) == 0 <==> flight == []
  {
  }
}
