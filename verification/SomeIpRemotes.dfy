/** Nobody is sent to without having subscribed: where the remotes of a publisher come from. */
module SomeIpRemotes {
  import opened Base
  import opened SdHeader
  import opened SdCodec
  import opened UdpPublisher
  import opened Connectors
  import opened ConnectorGrowth
  import opened SomeIpNode
  import opened SomeIpLinks
  import opened SomeIpRuns
  import opened SomeIpHost
  import opened SomeIpSystem
  import opened SomeIpAgreement
  import opened SomeIpDelivery
  import opened SomeIpMessages
  import opened SomeIpEffects

  // ------------------------------------------------------------------ one host

  /** The multicast destination that a static publisher names itself. */
  ghost predicate IsOwnGroup(n: Node, s: int, g: QoSGroup, x: Remote) {
    && s in n.registry.pubs && g.SomeIpUdpMcast?
    && var p := n.registry.pubs[s].app; p.isStatic && x == Remote(p.mcastAddr, p.mcastPort)
  }

  ghost predicate AsksToBeSentTo(e: Event, s: int, g: QoSGroup, x: Remote) {
    && e.Receive? && e.kind.Subscribe? && e.notification.serviceId == s && e.notification.qosGroup == g
    && !g.SomeIpTcp? && x == Remote(e.notification.address, e.notification.udpPort)
  }

  /** Where a remote that the host has after an event comes from. */
  ghost predicate ComesFrom(n: Node, m: Node, e: Event, s: int, g: QoSGroup, x: Remote) {
    HasRemote(m.registry, s, g, x) ==>
      HasRemote(n.registry, s, g, x) || IsOwnGroup(m, s, g, x) || AsksToBeSentTo(e, s, g, x)
  }

  lemma PublisherComesWithItsGroup(n: Node, m: Node, p: Publisher, delay: real, s: int, g: QoSGroup, x: Remote)
    requires Publishes(n.registry, m.registry, p) && HasRemote(m.registry, s, g, x)
    requires if p.isStatic then SendsToItsGroup(n, m, p) else IsOfferedFrom(n, m, p, delay)
    ensures HasRemote(n.registry, s, g, x) || IsOwnGroup(m, s, g, x)
  {
    hide SameDiscovery;
    hide IsNewKey;
    hide OffersFor;
    if s == p.serviceId {
      assert HasPubEndpoint(m.registry, s, g);
    } else {
      assert s in m.registry.pubs.Keys;
    }
  }

  lemma HandlingAddsRemotes(n: Node, e: Event, s: int, g: QoSGroup, x: Remote)
    requires Linked(n) && Enabled(n, n.now, e) && Handle(n, e).Ok?
    ensures ComesFrom(n, Handle(n, e).value, e, s, g, x)
  {
    hide Linked;
    hide HasRemote;
    hide HasPubEndpoint;
    hide Publishes;
    hide SendsToItsGroup;
    hide IsOfferedFrom;
    hide RegisterPublisherService;
    hide RegisterSubscriberService;
    hide AcknowledgeSubscription;
    hide ProcessAcknowledged;
    hide OfferForGroups;
    hide FireTimer;
    hide LookForService;
    hide HasApp;
    hide HasConnector;
    var m := Handle(n, e).value;
    match e {
      case AddPublisher(p, delay) =>
        PublisherRegistered(n, p, delay);
        if HasRemote(m.registry, s, g, x) {
          PublisherComesWithItsGroup(n, m, p, delay, s, g, x);
        }
      case AddSubscriber(t, i, app, delay) =>
        SubscriberRegistered(n, t, i, app, delay);
        SamePublishersSend(n.registry, m.registry, s, g, x);
      case Fire(k) => FiringProceeds(n, k);
      case Receive(Find, q) => FindActs(n, q);
      case Receive(Offer, o) =>
        InEnumOrderVisitsTheSet(o.qosGroups);
        GroupsAsk(n, o, InEnumOrder(o.qosGroups));
      case Receive(Subscribe, q) => SubscriptionServed(n, q);
      case Receive(SubscribeAck, a) =>
        AckTaken(n, a);
        SamePublishersSend(n.registry, m.registry, s, g, x);
    }
  }

  lemma SamePublishersSend(a: Registry, b: Registry, s: int, g: QoSGroup, x: Remote)
    requires b.pubs == a.pubs
    ensures HasRemote(b, s, g, x) <==> HasRemote(a, s, g, x)
  {
  }

  lemma EventAddsRemotes(n: Node, at: real, e: Event, s: int, g: QoSGroup, x: Remote)
    requires Good(n) && Enabled(n, at, e) && Step(n, at, e).Ok?
    ensures ComesFrom(n, Step(n, at, e).value, e, s, g, x)
  {
    hide Good;
    hide Linked;
    hide Handle;
    hide HasRemote;
    GoodIsLinked(n, at);
    HandlingAddsRemotes(n.(now := at), e, s, g, x);
  }

  // ------------------------------------------------------------------ any number of hosts

  /** Another host subscribes to the group of the service from the remote's address and port. */
  ghost predicate IsSubscriber(y: System, b: Address, s: int, g: QoSGroup, x: Remote) {
    x.address != b && SubscribesFrom(y, x.address, s, g, x.port)
  }

  ghost predicate IsMeant(y: System, b: Address, s: int, g: QoSGroup, x: Remote) {
    b in y.nodes && (IsOwnGroup(y.nodes[b], s, g, x) || IsSubscriber(y, b, s, g, x))
  }

  ghost predicate AllMeant(y: System) {
    forall b, s, g, x :: b in y.nodes && HasRemote(y.nodes[b].registry, s, g, x) ==> IsMeant(y, b, s, g, x)
  }

  lemma MeantGrows(y: System, z: System, b: Address, s: int, g: QoSGroup, x: Remote)
    requires SystemGrows(y, z) && IsMeant(y, b, s, g, x)
    ensures IsMeant(z, b, s, g, x)
  {
    hide SubscribesFrom;
    hide Grows;
    assert b in z.nodes.Keys;
    if IsSubscriber(y, b, s, g, x) {
      SubscribesFromGrows(y, z, x.address, s, g, x.port);
    } else {
      ApplicationStays(y.nodes[b].registry, z.nodes[b].registry, s);
    }
  }

  lemma AskingIsMeant(y: System, a: Address, e: Event, s: int, g: QoSGroup, x: Remote)
    requires a in y.nodes && EventOk(y, a, e) && AsksToBeSentTo(e, s, g, x)
    ensures IsMeant(y, a, s, g, x)
  {
    hide SubscribesFrom;
  }

  lemma RemoteIsMeant(y: System, a: Address, m: Node, e: Event, b: Address, s: int, g: QoSGroup, x: Remote)
    requires a in y.nodes && AllMeant(y) && EventOk(y, a, e) && SystemGrows(y, Replace(y, a, m))
    requires ComesFrom(y.nodes[a], m, e, s, g, x)
    requires b in y.nodes && HasRemote(Replace(y, a, m).nodes[b].registry, s, g, x)
    ensures IsMeant(Replace(y, a, m), b, s, g, x)
  {
    hide EventOk;
    hide AsksToBeSentTo;
    hide SystemGrows;
    hide HasRemote;
    hide IsSubscriber;
    var z := Replace(y, a, m);
    if HasRemote(y.nodes[b].registry, s, g, x) {
      MeantGrows(y, z, b, s, g, x);
    } else if AsksToBeSentTo(e, s, g, x) {
      AskingIsMeant(y, a, e, s, g, x);
      MeantGrows(y, z, b, s, g, x);
    }
  }

  lemma EventKeepsMeant(y: System, a: Address, at: real, e: Event)
    requires Inv(y) && AllMeant(y) && a in y.nodes && EventOk(y, a, e)
    requires Enabled(y.nodes[a], at, e) && a in y.configs && HostStep(y.configs[a], y.nodes[a], at, e).Ok?
    ensures AllMeant(Replace(y, a, HostStep(y.configs[a], y.nodes[a], at, e).value))
  {
    hide AllMeant;
    hide EventOk;
    hide SystemGrows;
    hide HasRemote;
    hide IsMeant;
    hide ComesFrom;
    hide Step;
    hide HostStep;
    hide AllPass;
    hide Good;
    EventKeepsInv(y, a, at, e);
    HostStepIs(y.configs[a], y.nodes[a], at, e);
    assert Good(y.nodes[a]);
    hide Inv;
    hide Enabled;
    var m := Step(y.nodes[a], at, e).value;
    var z := Replace(y, a, m);
    forall b, s, g, x | b in z.nodes && HasRemote(z.nodes[b].registry, s, g, x)
      ensures IsMeant(z, b, s, g, x)
    {
      EventAddsRemotes(y.nodes[a], at, e, s, g, x);
      RemoteIsMeant(y, a, m, e, b, s, g, x);
    }
    AllAreMeant(z);
  }

  lemma AllAreMeant(z: System)
    requires forall b, s, g, x :: b in z.nodes && HasRemote(z.nodes[b].registry, s, g, x) ==> IsMeant(z, b, s, g, x)
    ensures AllMeant(z)
  {
    hide HasRemote;
    hide IsMeant;
  }

  lemma FirstIsOk(y: System, a: Address, kind: EntryType, notes: seq<Notification>)
    requires AllEventsOk(y, a, kind, notes) && notes != []
    ensures EventOk(y, a, Receive(kind, notes[0]))
  {
  }

  lemma {:induction false} HandlingAllKeepsMeant(y: System, a: Address, at: real, kind: EntryType,
                                                 notes: seq<Notification>)
    requires Inv(y) && AllMeant(y) && a in y.nodes && a in y.configs && Timely(y.nodes[a], at)
    requires AllEventsOk(y, a, kind, notes) && HandleAll(y.configs[a], y.nodes[a], at, kind, notes).Ok?
    ensures AllMeant(Replace(y, a, HandleAll(y.configs[a], y.nodes[a], at, kind, notes).value))
    decreases |notes|
  {
    hide Inv;
    hide AllMeant;
    hide AllEventsOk;
    hide EventOk;
    hide Timely;
    hide HostStep;
    hide Replace;
    hide Enabled;
    var c := y.configs[a];
    if notes == [] {
      ReplacedBySame(y, a);
    } else {
      var m := HostStep(c, y.nodes[a], at, Receive(kind, notes[0])).value;
      OneReceived(y, a, at, kind, notes);
      FirstIsOk(y, a, kind, notes);
      TimelyReceive(y.nodes[a], at, kind, notes[0]);
      EventKeepsMeant(y, a, at, Receive(kind, notes[0]));
      ReplacedTwice(y, a, m, HandleAll(c, m, at, kind, notes[1..]).value);
      HandlingAllKeepsMeant(Replace(y, a, m), a, at, kind, notes[1..]);
    }
  }

  lemma ActionKeepsMeant(y: System, x: Action)
    requires Inv(y) && AllMeant(y) && CanHappen(y, x) && Act(y, x).Ok?
    ensures AllMeant(Act(y, x).value)
  {
    hide Inv;
    hide AllMeant;
    hide AllEventsOk;
    hide EventOk;
    hide Arrival;
    hide HandleAll;
    hide HostStep;
    match x {
      case Local(a, at, e) =>
        LocalIsOk(y, a, e);
        HasConfig(y, a);
        EventKeepsMeant(y, a, at, e);
      case Deliver(to, at, src, k) =>
        ArrivalsAreOk(y, to, at, src, k);
        HasConfig(y, to);
        HandlingAllKeepsMeant(y, to, at, Sent(y, src, k).kind, Arrival(y, to, src, Sent(y, src, k)).value);
    }
  }

  lemma {:induction false} RunKeepsMeant(y: System, run: seq<Action>, z: System)
    requires Inv(y) && AllMeant(y) && RunsTo(y, run, z)
    ensures AllMeant(z)
    decreases |run|
  {
    hide Inv;
    hide AllMeant;
    hide CanHappen;
    hide Act;
    if run != [] {
      InvConfigured(y);
      ActionKeepsInv(y, run[0]);
      ActionKeepsMeant(y, run[0]);
      RunKeepsMeant(Act(y, run[0]).value, run[1..], z);
    }
  }

  lemma NothingIsSent(y: System)
    requires Initially(y)
    ensures AllMeant(y)
  {
    forall b, s, g, x | b in y.nodes
      ensures !HasRemote(y.nodes[b].registry, s, g, x)
    {
    }
  }

  /** The converse of agreement. In every state that any run of any number of hosts reaches, whatever
      is sent to has asked for it: a remote of a publisher is the multicast destination that it names
      itself, or the address of another host at which an application subscribes to the group, and for
      the UDP group that application's UDP port. */
  lemma {:induction false} RemotesAreSubscribers(y: System, run: seq<Action>, z: System, b: Address,
                                                 s: int, g: QoSGroup, x: Remote)
    requires Initially(y) && RunsTo(y, run, z) && b in z.nodes && HasRemote(z.nodes[b].registry, s, g, x)
    ensures || IsOwnGroup(z.nodes[b], s, g, x)
            || (x.address in z.nodes && x.address != b
                && exists c :: c in SubsOf(z.nodes[x.address].registry, s) && c.apps != [] && GroupOf(c) == g
                     && (g.SomeIpUdp? ==> x.port == U16(c.apps[0].udpPort)))
  {
    hide Initially;
    hide RunsTo;
    hide Inv;
    hide HasRemote;
    hide Good;
    InitiallyInv(y);
    NothingIsSent(y);
    RunKeepsInv(y, run, z);
    RunKeepsMeant(y, run, z);
    assert IsMeant(z, b, s, g, x);
    if !IsOwnGroup(z.nodes[b], s, g, x) {
      var n := z.nodes[x.address];
      var c :| c in SubsOf(n.registry, s) && c.apps != [] && GroupOf(c) == g && x.port == WirePort(g, c);
      ReceiverConfig(z, x.address);
      ConnectorFrontsItsApplication(n, s, c);
    }
  }
}
