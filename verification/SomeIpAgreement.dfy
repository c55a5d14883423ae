/** An active subscription is really served: agreement between subscribers and publishers, for any
    number of hosts and any loss, duplication and reordering of messages. */
module SomeIpAgreement {
  import opened Base
  import opened SdHeader
  import opened SdCodec
  import opened SdRoundTrip
  import opened UdpPublisher
  import opened Connectors
  import opened ConnectorGrowth
  import opened SomeIpNode
  import opened SomeIpSchedule
  import opened SomeIpLinks
  import opened SomeIpRuns
  import opened SomeIpHost
  import opened SomeIpSystem

  // ------------------------------------------------------------------ being served

  /** The port a subscription carries: only a UDP one names the connector's UDP port. */
  function WirePort(g: QoSGroup, c: SubConnector): int {
    if g.SomeIpUdp? then U16(c.udpPort) else -1
  }

  /** Host a subscribes to the service and group from that port. */
  ghost predicate SubscribesFrom(y: System, a: Address, s: int, g: QoSGroup, port: int) {
    && a in y.nodes
    && exists c :: c in SubsOf(y.nodes[a].registry, s) && c.apps != [] && GroupOf(c) == g && port == WirePort(g, c)
  }

  /** Host b publishes the instance of the service with an endpoint of the group that, unless it is a
      TCP one, sends to host a at the port host a subscribes from. */
  ghost predicate Reaches(y: System, a: Address, b: Address, s: int, g: QoSGroup, i: int) {
    && b in y.nodes && b != a
    && HasPubEndpoint(y.nodes[b].registry, s, g)
    && (i != ANY_INSTANCE ==> y.nodes[b].registry.pubs[s].app.instanceId == i)
    && (!g.SomeIpTcp? ==>
          exists port :: SubscribesFrom(y, a, s, g, port) && HasRemote(y.nodes[b].registry, s, g, Remote(a, port)))
  }

  ghost predicate Served(y: System, a: Address, ref: Ref)
    requires ref.SubRef?
  {
    exists b :: Reaches(y, a, b, ref.service, ref.group, ref.instance)
  }

  // ------------------------------------------------------------------ the invariant

  predicate Fits16(s: int) {
    0 <= s < 0x1_0000
  }

  ghost predicate SubscribeOk(y: System, a: Address, x: Notification) {
    && a in y.nodes && Fits16(x.serviceId)
    && HasConnectorLike(y.nodes[a].registry, x.serviceId, x.qosGroup, x.tcpPort, x.udpPort, x.deadline)
  }

  ghost predicate AckOk(y: System, b: Address, x: Notification) {
    x.address in y.nodes && Fits16(x.serviceId) && Reaches(y, x.address, b, x.serviceId, x.qosGroup, x.instanceId)
  }

  ghost predicate EntryOk(y: System, a: Address, e: LogEntry) {
    && a in y.configs && Passes(y.configs[a], e)
    && (e.message.Some? ==>
          && (e.message.value.kind.Subscribe? ==> SubscribeOk(y, a, e.message.value.notification))
          && (e.message.value.kind.SubscribeAck? ==> AckOk(y, a, e.message.value.notification)))
  }

  ghost predicate LogsOk(y: System) {
    forall a, k :: a in y.nodes && 0 <= k < |y.nodes[a].log| ==> EntryOk(y, a, y.nodes[a].log[k])
  }

  ghost predicate Agreed(y: System) {
    forall a, ref: Ref | a in y.nodes && ref.SubRef? ::
      IsActive(y.nodes[a], ref) ==> Served(y, a, ref)
  }

  ghost predicate AllGood(y: System) {
    forall a :: a in y.nodes ==> Good(y.nodes[a])
  }

  ghost predicate Inv(y: System) {
    Configured(y) && AllGood(y) && LogsOk(y) && Agreed(y)
  }

  // ------------------------------------------------------------------ growing

  ghost predicate SystemGrows(y: System, z: System) {
    && z.nodes.Keys == y.nodes.Keys && z.configs == y.configs
    && forall a :: a in y.nodes ==> Grows(y.nodes[a].registry, z.nodes[a].registry)
  }

  lemma SubscribesFromGrows(y: System, z: System, a: Address, s: int, g: QoSGroup, port: int)
    requires SystemGrows(y, z) && SubscribesFrom(y, a, s, g, port)
    ensures SubscribesFrom(z, a, s, g, port)
  {
    var c :| c in SubsOf(y.nodes[a].registry, s) && c.apps != [] && GroupOf(c) == g && port == WirePort(g, c);
    assert a in z.nodes.Keys;
    var d := ConnectorStays(y.nodes[a].registry, z.nodes[a].registry, s, c);
  }

  lemma ReachesGrows(y: System, z: System, a: Address, b: Address, s: int, g: QoSGroup, i: int)
    requires SystemGrows(y, z) && Reaches(y, a, b, s, g, i)
    ensures Reaches(z, a, b, s, g, i)
  {
    PublishedService(y.nodes[b].registry, s, g);
    ApplicationStays(y.nodes[b].registry, z.nodes[b].registry, s);
    hide Grows;
    hide HasPubEndpoint;
    hide HasRemote;
    hide SubscribesFrom;
    assert b in z.nodes.Keys;
    HasPubEndpointGrows(y.nodes[b].registry, z.nodes[b].registry, s, g);
    if !g.SomeIpTcp? {
      var port :| SubscribesFrom(y, a, s, g, port) && HasRemote(y.nodes[b].registry, s, g, Remote(a, port));
      SubscribesFromGrows(y, z, a, s, g, port);
      HasRemoteGrows(y.nodes[b].registry, z.nodes[b].registry, s, g, Remote(a, port));
    }
  }

  lemma ServedGrows(y: System, z: System, a: Address, ref: Ref)
    requires SystemGrows(y, z) && ref.SubRef? && Served(y, a, ref)
    ensures Served(z, a, ref)
  {
    hide Reaches;
    hide SystemGrows;
    var b :| Reaches(y, a, b, ref.service, ref.group, ref.instance);
    ReachesGrows(y, z, a, b, ref.service, ref.group, ref.instance);
  }

  lemma EntryOkGrows(y: System, z: System, a: Address, e: LogEntry)
    requires SystemGrows(y, z) && EntryOk(y, a, e)
    ensures EntryOk(z, a, e)
  {
    hide Grows;
    hide HasConnectorLike;
    hide Reaches;
    hide Passes;
    if e.message.Some? {
      var x := e.message.value.notification;
      assert a in y.nodes.Keys ==> a in z.nodes.Keys;
      if e.message.value.kind.Subscribe? {
        LikeGrows(y.nodes[a].registry, z.nodes[a].registry, x.serviceId, x.qosGroup, x.tcpPort, x.udpPort,
                  x.deadline);
      } else if e.message.value.kind.SubscribeAck? {
        assert x.address in y.nodes.Keys;
        ReachesGrows(y, z, x.address, a, x.serviceId, x.qosGroup, x.instanceId);
      }
    }
  }

  // ------------------------------------------------------------------ what an arriving message says

  ghost predicate Origin(y: System, b: Address, q: Notification) {
    && q.address in y.nodes && q.address != b && Fits16(q.serviceId)
    && (!q.qosGroup.SomeIpTcp? ==> SubscribesFrom(y, q.address, q.serviceId, q.qosGroup, q.udpPort))
  }

  ghost predicate EventOk(y: System, a: Address, e: Event) {
    e.Receive? ==>
      match e.kind
      case Find => true
      case Offer => Fits16(e.notification.serviceId)
      case Subscribe => Origin(y, a, e.notification)
      case SubscribeAck =>
        forall ref :: ByAck(e, ref) ==> Served(y, a, ref)
  }

  lemma EventOkGrows(y: System, z: System, a: Address, e: Event)
    requires SystemGrows(y, z) && EventOk(y, a, e)
    ensures EventOk(z, a, e)
  {
    hide Grows;
    hide SubscribesFrom;
    hide Served;
    if e.Receive? {
      var q := e.notification;
      if e.kind.Subscribe? {
        assert q.address in y.nodes.Keys;
        if !q.qosGroup.SomeIpTcp? {
          SubscribesFromGrows(y, z, q.address, q.serviceId, q.qosGroup, q.udpPort);
        }
      } else if e.kind.SubscribeAck? {
        forall ref | ByAck(e, ref)
          ensures Served(z, a, ref)
        {
          ServedGrows(y, z, a, ref);
        }
      }
    }
  }

  // ------------------------------------------------------------------ one host handles one event

  function Replace(y: System, a: Address, m: Node): System {
    y.(nodes := y.nodes[a := m])
  }

  lemma NewEntryOk(z: System, a: Address, ev: Event, e: LogEntry)
    requires a in z.nodes && EventOk(z, a, ev) && Justified(z.nodes[a], ev, e)
    requires a in z.configs && Passes(z.configs[a], e)
    ensures EntryOk(z, a, e)
  {
    hide Passes;
    hide HasConnectorLike;
    hide HasPubEndpoint;
    hide HasRemote;
    hide SubscribesFrom;
  }

  lemma ReplacingGrows(y: System, a: Address, m: Node)
    requires a in y.nodes && Grows(y.nodes[a].registry, m.registry)
    ensures SystemGrows(y, Replace(y, a, m))
  {
    var z := Replace(y, a, m);
    assert z.nodes.Keys == y.nodes.Keys;
    forall b | b in y.nodes
      ensures Grows(y.nodes[b].registry, z.nodes[b].registry)
    {
      GrowsNot(y.nodes[b].registry);
    }
  }

  lemma LogsStayOk(y: System, a: Address, m: Node, ev: Event)
    requires a in y.nodes && LogsOk(y) && Follows(y.nodes[a], m, ev) && EventOk(y, a, ev)
    requires a in y.configs && AllPass(y.configs[a], y.nodes[a], m)
    ensures LogsOk(Replace(y, a, m))
  {
    var n, z := y.nodes[a], Replace(y, a, m);
    ReplacingGrows(y, a, m);
    EventOkGrows(y, z, a, ev);
    hide EntryOk;
    hide SystemGrows;
    hide Grows;
    hide Linked;
    hide EventOk;
    hide Justified;
    hide OnlyAcksActivate;
    hide StatesStay;
    hide Passes;
    assert z.configs == y.configs && z.nodes[a] == m;
    forall b, k | b in z.nodes && 0 <= k < |z.nodes[b].log|
      ensures EntryOk(z, b, z.nodes[b].log[k])
    {
      if b == a && |n.log| <= k {
        NewEntryOk(z, a, ev, m.log[k]);
      } else {
        assert z.nodes[b].log[k] == y.nodes[b].log[k];
        EntryOkGrows(y, z, b, y.nodes[b].log[k]);
      }
    }
  }

  lemma AcksWereServed(y: System, a: Address, ev: Event, ref: Ref)
    requires EventOk(y, a, ev) && ByAck(ev, ref)
    ensures Served(y, a, ref)
  {
  }

  lemma StaysAgreed(y: System, a: Address, m: Node, ev: Event)
    requires a in y.nodes && Agreed(y) && Follows(y.nodes[a], m, ev) && EventOk(y, a, ev)
    ensures Agreed(Replace(y, a, m))
  {
    hide Served;
    hide SystemGrows;
    hide Grows;
    hide Linked;
    hide EventOk;
    hide Emits;
    hide StatesStay;
    hide ByAck;
    hide IsActive;
    hide IsRequested;
    var n, z := y.nodes[a], Replace(y, a, m);
    ReplacingGrows(y, a, m);
    forall b, ref: Ref | b in z.nodes && ref.SubRef? && IsActive(z.nodes[b], ref)
      ensures Served(z, b, ref)
    {
      if b == a && !IsActive(n, ref) {
        AcksWereServed(y, a, ev, ref);
      }
      ServedGrows(y, z, b, ref);
    }
  }

  lemma AllStayGood(y: System, a: Address, m: Node)
    requires Configured(y) && AllGood(y) && a in y.nodes && Good(m)
    ensures Configured(Replace(y, a, m)) && AllGood(Replace(y, a, m))
  {
    hide Good;
    assert Replace(y, a, m).nodes.Keys == y.nodes.Keys;
  }

  lemma FollowingKeepsInv(y: System, a: Address, m: Node, ev: Event)
    requires Inv(y) && a in y.nodes && EventOk(y, a, ev)
    requires Good(m) && Follows(y.nodes[a], m, ev) && AllPass(y.configs[a], y.nodes[a], m)
    ensures Inv(Replace(y, a, m)) && SystemGrows(y, Replace(y, a, m))
  {
    LogsStayOk(y, a, m, ev);
    StaysAgreed(y, a, m, ev);
    ReplacingGrows(y, a, m);
    AllStayGood(y, a, m);
    hide Good;
    hide Follows;
    hide EventOk;
    hide LogsOk;
    hide Agreed;
    hide AllGood;
    hide SystemGrows;
    hide Configured;
    hide AllPass;
  }

  lemma EventKeepsInv(y: System, a: Address, at: real, ev: Event)
    requires Inv(y) && a in y.nodes && EventOk(y, a, ev)
    requires Enabled(y.nodes[a], at, ev) && HostStep(y.configs[a], y.nodes[a], at, ev).Ok?
    ensures var z := Replace(y, a, HostStep(y.configs[a], y.nodes[a], at, ev).value);
            Inv(z) && SystemGrows(y, z)
  {
    assert Good(y.nodes[a]);
    EventKeepsGood(y.nodes[a], at, ev);
    HostStepIs(y.configs[a], y.nodes[a], at, ev);
    hide Inv;
    hide Good;
    hide Enabled;
    hide Acceptable;
    hide Moves;
    hide Follows;
    hide EventOk;
    hide SystemGrows;
    hide Step;
    hide HostStep;
    hide AllPass;
    FollowingKeepsInv(y, a, Step(y.nodes[a], at, ev).value, ev);
  }

  // ------------------------------------------------------------------ one message arrives

  lemma ReceivingTakesNoTime(c: SdCodec.Config, n: Node, at: real, kind: EntryType, q: Notification)
    requires HostStep(c, n, at, Receive(kind, q)).Ok?
    ensures var m := HostStep(c, n, at, Receive(kind, q)).value;
            m.now == at && m.timers == n.timers
  {
    HostStepIs(c, n, at, Receive(kind, q));
    hide HostStep;
    hide AllPass;
    match kind {
      case Find => AnsweringKeepsTimers(n.(now := at), q.serviceId, 0, q.address);
      case Offer => OffersKeepTimers(n.(now := at), q, InEnumOrder(q.qosGroups));
      case Subscribe =>
      case SubscribeAck => AcksKeepTimers(n.(now := at), q, InEnumOrder(q.qosGroups));
    }
  }

  ghost predicate AllEventsOk(y: System, a: Address, kind: EntryType, notes: seq<Notification>) {
    forall q :: q in notes ==> EventOk(y, a, Receive(kind, q))
  }

  lemma HasConfig(y: System, a: Address)
    requires Inv(y) && a in y.nodes
    ensures a in y.configs
  {
  }

  lemma TimelyReceive(n: Node, at: real, kind: EntryType, q: Notification)
    requires Timely(n, at)
    ensures Enabled(n, at, Receive(kind, q))
    ensures forall m: Node :: m.now == at && m.timers == n.timers ==> Timely(m, at)
  {
  }

  lemma OneReceived(y: System, a: Address, at: real, kind: EntryType, notes: seq<Notification>)
    requires Inv(y) && a in y.nodes && Timely(y.nodes[a], at) && notes != [] && AllEventsOk(y, a, kind, notes)
    requires HostStep(y.configs[a], y.nodes[a], at, Receive(kind, notes[0])).Ok?
    ensures var m := HostStep(y.configs[a], y.nodes[a], at, Receive(kind, notes[0])).value;
            && Inv(Replace(y, a, m)) && Timely(m, at) && AllEventsOk(Replace(y, a, m), a, kind, notes[1..])
  {
    hide Inv;
    hide EventOk;
    hide SystemGrows;
    hide HostStep;
    hide Enabled;
    hide Timely;
    hide Replace;
    HasConfig(y, a);
    var e, c := Receive(kind, notes[0]), y.configs[a];
    TimelyReceive(y.nodes[a], at, kind, notes[0]);
    ReceivingTakesNoTime(c, y.nodes[a], at, kind, notes[0]);
    EventKeepsInv(y, a, at, e);
    var z := Replace(y, a, HostStep(c, y.nodes[a], at, e).value);
    forall q | q in notes[1..]
      ensures EventOk(z, a, Receive(kind, q))
    {
      EventOkGrows(y, z, a, Receive(kind, q));
    }
  }

  lemma ReplacedTwice(y: System, a: Address, m: Node, k: Node)
    ensures a in Replace(y, a, m).nodes && Replace(y, a, m).nodes[a] == m && Replace(y, a, m).configs == y.configs
    ensures Replace(Replace(y, a, m), a, k) == Replace(y, a, k)
  {
  }

  lemma ReplacedBySame(y: System, a: Address)
    requires a in y.nodes
    ensures Replace(y, a, y.nodes[a]) == y
  {
  }

  lemma {:induction false} HandlingAllKeepsInv(y: System, a: Address, at: real, kind: EntryType,
                                               notes: seq<Notification>)
    requires Inv(y) && a in y.nodes && Timely(y.nodes[a], at) && AllEventsOk(y, a, kind, notes)
    requires HandleAll(y.configs[a], y.nodes[a], at, kind, notes).Ok?
    ensures Inv(Replace(y, a, HandleAll(y.configs[a], y.nodes[a], at, kind, notes).value))
    decreases |notes|
  {
    hide Inv;
    hide AllEventsOk;
    hide Timely;
    hide HostStep;
    hide Replace;
    HasConfig(y, a);
    var c := y.configs[a];
    if notes == [] {
      ReplacedBySame(y, a);
    } else {
      var m := HostStep(c, y.nodes[a], at, Receive(kind, notes[0])).value;
      OneReceived(y, a, at, kind, notes);
      ReplacedTwice(y, a, m, HandleAll(c, m, at, kind, notes[1..]).value);
      HandlingAllKeepsInv(Replace(y, a, m), a, at, kind, notes[1..]);
    }
  }

  lemma {:induction false} ReadingKeepsTheService(c: SdCodec.Config, n: Notification, options: seq<SdOption>,
                                                  from: nat, count: nat)
    requires ReadOffer(c, n, options, from, count).Ok?
    ensures ReadOffer(c, n, options, from, count).value.serviceId == n.serviceId
    decreases count
  {
    if count != 0 {
      ReadingKeepsTheService(c, ReadOfferOption(c, n, options[from]).value, options, from + 1, count - 1);
    }
  }

  lemma OfferNamesTheService(r: SdCodec.Config, w: Wire, src: Address)
    requires w.entry.entryType.Offer? && Decode(r, w, src).Ok?
    ensures forall q :: q in Decode(r, w, src).value ==> q.serviceId == w.entry.serviceId
  {
    ReadingKeepsTheService(r, Named(w.entry), w.options, w.entry.index1stOptions, w.entry.num1stOptions);
    hide ReadOffer;
  }

  lemma EncodedOfferFits(c: SdCodec.Config, n: Notification)
    requires EncodeOffer(c, n).Ok?
    ensures EncodeOffer(c, n).value.entry.entryType.Offer? && Fits16(EncodeOffer(c, n).value.entry.serviceId)
  {
    hide EndpointOptions;
    hide ConfigurationOptions;
  }

  lemma OfferArrives(y: System, a: Address, src: Address, m: Message)
    requires Configured(y) && a in y.nodes && src in y.nodes && m.kind.Offer? && Arrival(y, a, src, m).Ok?
    ensures forall q :: q in Arrival(y, a, src, m).value ==> Fits16(q.serviceId)
  {
    hide Decode;
    hide EncodeOffer;
    EncodedOfferFits(y.configs[src], m.notification);
    OfferNamesTheService(y.configs[a], EncodeOffer(y.configs[src], m.notification).value, src);
  }

  lemma SubscribeArrives(y: System, a: Address, src: Address, m: Message)
    requires Configured(y) && a in y.nodes && src in y.nodes && src != a
    requires m.kind.Subscribe? && SubscribeOk(y, src, m.notification) && Arrival(y, a, src, m).Ok?
    ensures forall q :: q in Arrival(y, a, src, m).value ==> Origin(y, a, q)
  {
    var x := m.notification;
    SubscribeRoundTrip(y.configs[src], y.configs[a], x, src);
    hide EncodeSubscribe;
    hide Decode;
    var q := EndpointAsSeen(y.configs[src], x, src).(qosGroup := x.qosGroup);
    assert Arrival(y, a, src, m) == Ok([q]);
    var c :| c in SubsOf(y.nodes[src].registry, x.serviceId) && c.apps != [] && GroupOf(c) == x.qosGroup
             && c.tcpPort == x.tcpPort && c.udpPort == x.udpPort;
    assert !x.qosGroup.SomeIpTcp? ==> SubscribesFrom(y, src, x.serviceId, x.qosGroup, WirePort(x.qosGroup, c));
    assert Origin(y, a, q);
  }

  lemma AckArrives(y: System, a: Address, src: Address, m: Message)
    requires Configured(y) && a in y.nodes && src in y.nodes
    requires m.kind.SubscribeAck? && AckOk(y, src, m.notification) && Arrival(y, a, src, m).Ok?
    requires m.notification.address == a
    ensures forall q, ref :: q in Arrival(y, a, src, m).value && ByAck(Receive(SubscribeAck, q), ref) ==>
              Served(y, a, ref)
  {
    var x := m.notification;
    AckRoundTrip(y.configs[src], y.configs[a], x, src);
    hide EncodeAck;
    hide Decode;
    var q := EndpointAsSeen(y.configs[src], x, src);
    assert Arrival(y, a, src, m) == Ok([q]);
    forall ref | ByAck(Receive(SubscribeAck, q), ref)
      ensures Served(y, a, ref)
    {
      AckedIsServed(y, a, src, x, ref);
    }
  }

  lemma AckedIsServed(y: System, a: Address, b: Address, x: Notification, ref: Ref)
    requires AckOk(y, b, x) && x.address == a && ref.SubRef?
    requires ref.service == x.serviceId && ref.group == x.qosGroup
    requires ref.instance == U16(x.instanceId) || ref.instance == ANY_INSTANCE
    ensures Served(y, a, ref)
  {
    hide HasPubEndpoint;
    hide HasRemote;
    hide SubscribesFrom;
    PublishedService(y.nodes[b].registry, x.serviceId, x.qosGroup);
    assert Reaches(y, a, b, ref.service, ref.group, ref.instance);
  }

  lemma ArrivalsAreOk(y: System, to: Address, at: real, src: Address, k: nat)
    requires Inv(y) && CanHappen(y, Deliver(to, at, src, k)) && Arrival(y, to, src, Sent(y, src, k)).Ok?
    ensures AllEventsOk(y, to, Sent(y, src, k).kind, Arrival(y, to, src, Sent(y, src, k)).value)
  {
    var m, e := Sent(y, src, k), y.nodes[src].log[k];
    assert EntryOk(y, src, e);
    hide SubscribeOk;
    hide Reaches;
    hide Origin;
    hide Served;
    hide Arrival;
    match m.kind {
      case Find =>
      case Offer => OfferArrives(y, to, src, m);
      case Subscribe => SubscribeArrives(y, to, src, m);
      case SubscribeAck => AckArrives(y, to, src, m);
    }
  }

  // ------------------------------------------------------------------ whole runs

  lemma LocalIsOk(y: System, a: Address, e: Event)
    requires !e.Receive?
    ensures EventOk(y, a, e)
  {
  }

  lemma ActionKeepsInv(y: System, x: Action)
    requires Inv(y) && CanHappen(y, x) && Act(y, x).Ok?
    ensures Inv(Act(y, x).value)
  {
    hide Inv;
    hide AllEventsOk;
    hide Arrival;
    hide HandleAll;
    hide HostStep;
    match x {
      case Local(a, at, e) =>
        LocalIsOk(y, a, e);
        EventKeepsInv(y, a, at, e);
      case Deliver(to, at, src, k) =>
        ArrivalsAreOk(y, to, at, src, k);
        HandlingAllKeepsInv(y, to, at, Sent(y, src, k).kind, Arrival(y, to, src, Sent(y, src, k)).value);
    }
  }

  ghost predicate RunsTo(y: System, run: seq<Action>, z: System)
    requires Configured(y)
    decreases |run|
  {
    if run == [] then y == z
    else
      && CanHappen(y, run[0]) && Act(y, run[0]).Ok?
      && RunsTo(Act(y, run[0]).value, run[1..], z)
  }

  lemma {:induction false} RunKeepsInv(y: System, run: seq<Action>, z: System)
    requires Inv(y) && RunsTo(y, run, z)
    ensures Inv(z)
    decreases |run|
  {
    if run != [] {
      ActionKeepsInv(y, run[0]);
      RunKeepsInv(Act(y, run[0]).value, run[1..], z);
    }
  }

  /** Hosts before anything has registered. */
  ghost predicate Initially(y: System) {
    && Configured(y)
    && forall a :: a in y.nodes ==>
         y.nodes[a] == NewNode(a, y.nodes[a].params) && 0.0 <= y.nodes[a].params.baseDelay
  }

  lemma InitiallyInv(y: System)
    requires Initially(y)
    ensures Inv(y)
  {
    forall a | a in y.nodes
      ensures Good(y.nodes[a])
    {
      NewNodeIsGood(a, y.nodes[a].params);
    }
  }

  lemma ConnectorFrontsItsApplication(n: Node, s: int, c: SubConnector)
    requires Good(n) && c in SubsOf(n.registry, s)
    ensures c.apps != [] && c.udpPort == c.apps[0].udpPort && c.tcpPort == c.apps[0].tcpPort
  {
    assert Homogeneous(SubsOf(n.registry, s));
    assert OneGroup(c);
  }

  /** Agreement. In every state that any run of any number of hosts reaches, over a network that
      loses, duplicates and reorders: an active subscription has its own endpoint, and some other
      host publishes the service, and the subscribed instance of it unless any was asked for, with an
      endpoint of that group, whose remotes contain the subscriber's address and its application's
      UDP port when the group is the UDP one. */
  lemma {:induction false} ActiveIsServed(y: System, run: seq<Action>, z: System, a: Address,
                                          s: int, g: QoSGroup, i: int)
    requires Initially(y) && RunsTo(y, run, z)
    requires a in z.nodes && IsActive(z.nodes[a], SubRef(s, g, i))
    ensures HasSubEndpoint(z.nodes[a].registry, s, g)
    ensures exists b :: b in z.nodes && b != a && HasPubEndpoint(z.nodes[b].registry, s, g)
              && (i != ANY_INSTANCE ==> z.nodes[b].registry.pubs[s].app.instanceId == i)
              && (g.SomeIpUdp? ==>
                    exists c :: c in SubsOf(z.nodes[a].registry, s) && c.apps != [] && GroupOf(c) == g
                      && HasRemote(z.nodes[b].registry, s, g, Remote(a, U16(c.apps[0].udpPort))))
  {
    InitiallyInv(y);
    RunKeepsInv(y, run, z);
    hide RunsTo;
    hide Initially;
    var ref := SubRef(s, g, i);
    assert Good(z.nodes[a]);
    ActiveHasEndpoint(z.nodes[a], ref);
    assert Served(z, a, ref);
    hide Inv;
    hide Good;
    hide Reaches;
    hide HasPubEndpoint;
    hide HasRemote;
    var b :| Reaches(z, a, b, s, g, i);
    ReachingNamesTheApplication(z, a, b, s, g, i);
  }

  lemma ActiveHasEndpoint(n: Node, ref: Ref)
    requires Good(n) && ref.SubRef? && IsActive(n, ref)
    ensures HasSubEndpoint(n.registry, ref.service, ref.group)
  {
    assert LinkedRef(n.registry, ref, n.states[ref]);
  }

  lemma ReachingNamesTheApplication(z: System, a: Address, b: Address, s: int, g: QoSGroup, i: int)
    requires a in z.nodes && Good(z.nodes[a]) && Reaches(z, a, b, s, g, i)
    ensures b in z.nodes && b != a && HasPubEndpoint(z.nodes[b].registry, s, g)
    ensures s in z.nodes[b].registry.pubs
    ensures i != ANY_INSTANCE ==> z.nodes[b].registry.pubs[s].app.instanceId == i
    ensures g.SomeIpUdp? ==>
              exists c :: c in SubsOf(z.nodes[a].registry, s) && c.apps != [] && GroupOf(c) == g
                && HasRemote(z.nodes[b].registry, s, g, Remote(a, U16(c.apps[0].udpPort)))
  {
    PublishedService(z.nodes[b].registry, s, g);
    hide Good;
    hide HasPubEndpoint;
    hide HasRemote;
    if g.SomeIpUdp? {
      var port :| SubscribesFrom(z, a, s, g, port) && HasRemote(z.nodes[b].registry, s, g, Remote(a, port));
      var c :| c in SubsOf(z.nodes[a].registry, s) && c.apps != [] && GroupOf(c) == g && port == WirePort(g, c);
      ConnectorFrontsItsApplication(z.nodes[a], s, c);
      assert HasRemote(z.nodes[b].registry, s, g, Remote(a, U16(c.apps[0].udpPort)));
    }
  }
}
