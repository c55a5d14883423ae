/** How a host's subscriptions and offers are tied to its registry, and what its messages say
    about the registry: the invariant that makes the "should never happen" errors unreachable. */
module SomeIpLinks {
  import opened Base
  import opened SdHeader
  import opened SdCodec
  import opened UdpPublisher
  import opened Connectors
  import opened ConnectorGrowth
  import opened SomeIpNode

  ghost predicate LinkedRef(r: Registry, ref: Ref, st: SdState) {
    match ref
    case SubRef(s, g, _) =>
      st.SubscriptionState? && HasConnector(r, s, g) && (st.active ==> HasSubEndpoint(r, s, g))
    case OfferRef(s, i) =>
      st.OfferState? && s in r.pubs && r.pubs[s].app.instanceId == i && st.offering == Offering(r.pubs[s].app)
  }

  /** No two instances are subscribed for one service and group. */
  ghost predicate OnePerConnector(states: map<Ref, SdState>) {
    forall s, g, i, j :: SubRef(s, g, i) in states && SubRef(s, g, j) in states ==> i == j
  }

  ghost predicate AllLinked(r: Registry, states: map<Ref, SdState>) {
    forall ref :: ref in states ==> LinkedRef(r, ref, states[ref])
  }

  ghost predicate Linked(n: Node) {
    Sane(n.registry) && OnePerConnector(n.states) && AllLinked(n.registry, n.states)
  }

  ghost predicate IsActive(n: Node, ref: Ref) {
    ref in n.states && n.states[ref].SubscriptionState? && n.states[ref].active
  }

  ghost predicate IsRequested(n: Node, ref: Ref) {
    ref in n.states && n.states[ref].SubscriptionState? && n.states[ref].requested
  }

  /** The event is an acknowledgement that this subscription may take. */
  ghost predicate ByAck(ev: Event, ref: Ref) {
    && ref.SubRef? && ev.Receive? && ev.kind.SubscribeAck?
    && var a := ev.notification;
       && a.serviceId == ref.service && ref.group in a.qosGroups
       && (ref.instance == a.instanceId || ref.instance == ANY_INSTANCE)
  }

  // ------------------------------------------------------------------ what one event may do

  /** An acknowledgement is only sent with the endpoint, and its remote, in place, and names the
      publisher's instance. */
  ghost predicate Answers(r: Registry, q: Notification, a: Notification) {
    && a.serviceId == q.serviceId && a.address == q.address && a.qosGroup == q.qosGroup
    && q.qosGroup in SOMEIP_GROUPS
    && HasPubEndpoint(r, q.serviceId, q.qosGroup) && a.instanceId == r.pubs[q.serviceId].app.instanceId
    && (!q.qosGroup.SomeIpTcp? ==> HasRemote(r, q.serviceId, q.qosGroup, Remote(q.address, q.udpPort)))
  }

  /** The offer says what its publisher offers, after the initial wait of the instance. */
  ghost predicate OfferedInTime(n: Node, o: Notification, time: real) {
    var ref := OfferRef(o.serviceId, o.instanceId);
    && ref in n.states && n.states[ref].waitOver <= time
    && o.serviceId in n.registry.pubs && o == Offering(n.registry.pubs[o.serviceId].app).(address := o.address)
  }

  /** What a timer makes the host send, to everyone: the offer that it is for, or a Find for the service
      and instance that the subscription is for. */
  ghost predicate TimedSend(e: LogEntry) {
    e.cause.ByTimer? ==>
      && e.message.Some?
      && var x := e.message.value.notification;
         && x.serviceId == e.cause.ref.service && x.instanceId == e.cause.ref.instance && x.address == UNSPECIFIED
         && (if e.cause.ref.OfferRef? then e.message.value.kind.Offer? else e.message.value.kind.Find?)
  }

  /** The key subscribes to a group of the offered service, for the offered instance or for any. */
  predicate IsKeyFor(o: Notification, g: QoSGroup, ref: Ref) {
    && ref.SubRef? && ref.service == o.serviceId && ref.group == g
    && (ref.instance == o.instanceId || ref.instance == ANY_INSTANCE)
  }

  ghost predicate AreOffered(o: Notification, groups: seq<QoSGroup>) {
    forall g :: g in groups ==> g in o.qosGroups
  }

  /** The subscription names the service, the instance and the address of the offer, one of its groups,
      and the key that it is requested for. */
  ghost predicate FollowsOffer(o: Notification, cause: Cause, x: Notification) {
    && x.serviceId == o.serviceId && x.instanceId == o.instanceId && x.address == o.address
    && x.mcastAddr == o.mcastAddr && x.mcastPort == o.mcastPort && x.qosGroup in o.qosGroups
    && cause.RequestFor? && IsKeyFor(o, x.qosGroup, cause.ref)
  }

  /** The offer answers the Find. */
  ghost predicate AnswersFind(q: Notification, o: Notification) {
    o.serviceId == q.serviceId && o.address == q.address
    && (o.instanceId == q.instanceId || q.instanceId == ANY_INSTANCE)
  }

  /** What a message in the log says about the host that sent it while handling the event. */
  ghost predicate Justified(n: Node, ev: Event, e: LogEntry) {
    && (e.message.None? <==> e.cause.AcceptFor?) && (e.cause.AcceptFor? ==> ByAck(ev, e.cause.ref))
    && (e.cause.ByTimer? ==> !ev.Receive?) && TimedSend(e)
    && (e.cause.RequestFor? ==> e.message.Some? && e.message.value.kind.Subscribe?)
    && (e.message.Some? ==>
          var x := e.message.value.notification;
          match e.message.value.kind
          case Find => e.cause.ByTimer?
          case Offer =>
            && OfferedInTime(n, x, e.time)
            && (e.cause.ByTimer? || (ev.Receive? && ev.kind.Find? && AnswersFind(ev.notification, x)))
          case Subscribe =>
            && ev.Receive? && ev.kind.Offer? && FollowsOffer(ev.notification, e.cause, x)
            && HasConnectorLike(n.registry, x.serviceId, x.qosGroup, x.tcpPort, x.udpPort, x.deadline)
          case SubscribeAck =>
            ev.Receive? && ev.kind.Subscribe? && Answers(n.registry, ev.notification, x))
  }

  ghost predicate StatesStay(n: Node, m: Node) {
    forall ref :: ref in n.states ==> ref in m.states && m.states[ref].waitOver == n.states[ref].waitOver
  }

  ghost predicate OnlyAcksActivate(n: Node, m: Node, ev: Event) {
    && (forall ref: Ref | ref.SubRef? :: IsActive(m, ref) ==> IsActive(n, ref) || ByAck(ev, ref))
    && (forall ref: Ref | ref.SubRef? :: IsRequested(n, ref) ==> IsRequested(m, ref) || ByAck(ev, ref))
  }

  ghost predicate Emits(n: Node, m: Node, ev: Event) {
    && n.log <= m.log
    && forall k :: |n.log| <= k < |m.log| ==> Justified(m, ev, m.log[k])
  }

  ghost predicate Follows(n: Node, m: Node, ev: Event) {
    && Linked(m)
    && Grows(n.registry, m.registry)
    && StatesStay(n, m)
    && OnlyAcksActivate(n, m, ev)
    && Emits(n, m, ev)
  }

  lemma ApplicationStays(a: Registry, b: Registry, s: int)
    requires Grows(a, b) && s in a.pubs
    ensures s in b.pubs && b.pubs[s].app == a.pubs[s].app
  {
  }

  lemma PublishedService(r: Registry, s: int, g: QoSGroup)
    requires HasPubEndpoint(r, s, g)
    ensures s in r.pubs
  {
  }

  lemma JustifiedStays(n: Node, m: Node, ev: Event, e: LogEntry)
    requires Justified(n, ev, e) && Grows(n.registry, m.registry) && StatesStay(n, m)
    ensures Justified(m, ev, e)
  {
    hide HasPubEndpoint;
    hide HasRemote;
    hide HasConnectorLike;
    hide Grows;
    if e.message.Some? {
      var x := e.message.value.notification;
      match e.message.value.kind {
        case Find =>
        case Offer => ApplicationStays(n.registry, m.registry, x.serviceId);
        case Subscribe => LikeGrows(n.registry, m.registry, x.serviceId, x.qosGroup, x.tcpPort, x.udpPort, x.deadline);
        case SubscribeAck =>
          var q := ev.notification;
          HasPubEndpointGrows(n.registry, m.registry, q.serviceId, q.qosGroup);
          PublishedService(n.registry, q.serviceId, q.qosGroup);
          ApplicationStays(n.registry, m.registry, q.serviceId);
          if !q.qosGroup.SomeIpTcp? {
            HasRemoteGrows(n.registry, m.registry, q.serviceId, q.qosGroup, Remote(q.address, q.udpPort));
          }
      }
    }
  }

  lemma FollowsOn(n: Node, m: Node, k: Node, ev: Event)
    requires Follows(n, m, ev) && Follows(m, k, ev)
    ensures Follows(n, k, ev)
  {
    hide Linked;
    hide Grows;
    hide Justified;
    hide IsActive;
    hide IsRequested;
    hide ByAck;
    GrowsOn(n.registry, m.registry, k.registry);
    forall j | |n.log| <= j < |k.log|
      ensures Justified(k, ev, k.log[j])
    {
      if j < |m.log| {
        assert k.log[j] == m.log[j];
        JustifiedStays(m, k, ev, m.log[j]);
      }
    }
  }

  // ------------------------------------------------------------------ primitive changes

  lemma LinkedRefGrows(a: Registry, b: Registry, ref: Ref, st: SdState)
    requires LinkedRef(a, ref, st) && Grows(a, b)
    ensures LinkedRef(b, ref, st)
  {
    hide HasConnector;
    hide HasSubEndpoint;
    match ref {
      case SubRef(s, g, _) =>
        HasConnectorGrows(a, b, s, g);
        if st.active {
          HasSubEndpointGrows(a, b, s, g);
        }
      case OfferRef(s, i) =>
    }
  }

  lemma RegistryFollows(n: Node, r: Registry, ev: Event)
    requires Linked(n) && Sane(r) && Grows(n.registry, r)
    ensures Follows(n, n.(registry := r), ev)
  {
    hide Grows;
    hide Sane;
    hide LinkedRef;
    forall ref | ref in n.states
      ensures LinkedRef(r, ref, n.states[ref])
    {
      LinkedRefGrows(n.registry, r, ref, n.states[ref]);
    }
  }

  /** Nothing but timers and the clock. */
  lemma QuietFollows(n: Node, m: Node, ev: Event)
    requires Linked(n) && m.registry == n.registry && m.states == n.states && m.log == n.log
    ensures Follows(n, m, ev)
  {
    GrowsNot(n.registry);
    hide Grows;
    hide Sane;
    hide LinkedRef;
  }

  ghost predicate SoleInstance(n: Node, ref: Ref) {
    forall s, g, i, j :: ref == SubRef(s, g, i) && SubRef(s, g, j) in n.states ==> i == j
  }

  lemma PutLinked(n: Node, ref: Ref, st: SdState)
    requires Linked(n) && LinkedRef(n.registry, ref, st)
    requires ref !in n.states ==> SoleInstance(n, ref)
    ensures Linked(Put(n, ref, st))
  {
    hide Sane;
    hide LinkedRef;
  }

  /** The state may only be activated, or have its request cleared, by an acknowledgement. */
  ghost predicate PutAllowed(n: Node, ref: Ref, st: SdState, ev: Event) {
    ref.SubRef? && st.SubscriptionState? && !ByAck(ev, ref) ==>
      (st.active ==> IsActive(n, ref)) && (IsRequested(n, ref) ==> st.requested)
  }

  lemma PutActivation(n: Node, ref: Ref, st: SdState, ev: Event)
    requires PutAllowed(n, ref, st, ev) && (ref.SubRef? ==> st.SubscriptionState?)
    ensures OnlyAcksActivate(n, Put(n, ref, st), ev)
  {
    hide ByAck;
    var m := Put(n, ref, st);
    forall r: Ref | r.SubRef? && !ByAck(ev, r)
      ensures (IsActive(m, r) ==> IsActive(n, r)) && (IsRequested(n, r) ==> IsRequested(m, r))
    {
      if r == ref {
        assert m.states[r] == st;
      } else {
        assert r in m.states <==> r in n.states;
      }
    }
  }

  lemma LinkedRefKind(r: Registry, ref: Ref, st: SdState)
    requires LinkedRef(r, ref, st)
    ensures ref.SubRef? <==> st.SubscriptionState?
  {
  }

  lemma PutFollows(n: Node, ref: Ref, st: SdState, ev: Event)
    requires Linked(n) && LinkedRef(n.registry, ref, st)
    requires ref in n.states ==> st.waitOver == n.states[ref].waitOver
    requires ref !in n.states ==> SoleInstance(n, ref)
    requires PutAllowed(n, ref, st, ev)
    ensures Follows(n, Put(n, ref, st), ev)
  {
    hide Grows;
    hide Linked;
    hide LinkedRef;
    hide SoleInstance;
    hide OnlyAcksActivate;
    hide PutAllowed;
    hide Justified;
    GrowsNot(n.registry);
    PutLinked(n, ref, st);
    LinkedRefKind(n.registry, ref, st);
    PutActivation(n, ref, st, ev);
  }

  lemma LogFollows(n: Node, e: LogEntry, ev: Event)
    requires Linked(n) && Justified(n, ev, e)
    ensures Follows(n, n.(log := n.log + [e]), ev)
  {
    var m := n.(log := n.log + [e]);
    GrowsNot(n.registry);
    JustifiedStays(n, m, ev, e);
    hide Grows;
    hide Sane;
    hide LinkedRef;
    hide Justified;
  }

  // ------------------------------------------------------------------ timers

  ghost predicate MayOffer(n: Node, ref: Ref) {
    ref in n.states && (n.states[ref].OfferState? ==> n.states[ref].waitOver <= n.now)
  }

  lemma OfferingNamesItsRef(n: Node, ref: Ref)
    requires Linked(n) && ref in n.states
    ensures n.states[ref].OfferState? <==> ref.OfferRef?
    ensures n.states[ref].OfferState? ==>
              var o := n.states[ref].offering;
              && ref == OfferRef(o.serviceId, o.instanceId) && o.address == UNSPECIFIED
              && o.serviceId in n.registry.pubs && o == Offering(n.registry.pubs[o.serviceId].app)
  {
    assert LinkedRef(n.registry, ref, n.states[ref]);
  }

  lemma ExecuteSdFollows(n: Node, ref: Ref, ev: Event)
    requires Linked(n) && MayOffer(n, ref) && !ev.Receive?
    ensures Follows(n, ExecuteSd(n, ref), ev)
    ensures ExecuteSd(n, ref).states == n.states && ExecuteSd(n, ref).now == n.now
    ensures ExecuteSd(n, ref).params == n.params
  {
    hide Linked;
    hide Offering;
    var m := ExecuteSd(n, ref);
    var e := m.log[|n.log|];
    OfferingNamesItsRef(n, ref);
    LogFollows(n, e, ev);
  }

  lemma RestateFollows(n: Node, ref: Ref, phase: Phase, numRepetitions: nat, ev: Event)
    requires Linked(n) && ref in n.states
    ensures Follows(n, Put(n, ref, n.states[ref].(phase := phase, numRepetitions := numRepetitions)), ev)
  {
    assert LinkedRef(n.registry, ref, n.states[ref]);
    hide Linked;
    PutFollows(n, ref, n.states[ref].(phase := phase, numRepetitions := numRepetitions), ev);
  }

  lemma RestateAndScheduleFollows(n: Node, ref: Ref, phase: Phase, numRepetitions: nat, m: Node, ev: Event)
    requires Linked(n) && ref in n.states
    requires var k := Put(n, ref, n.states[ref].(phase := phase, numRepetitions := numRepetitions));
             m.registry == k.registry && m.states == k.states && m.log == k.log
    ensures Follows(n, m, ev)
  {
    var k := Put(n, ref, n.states[ref].(phase := phase, numRepetitions := numRepetitions));
    RestateFollows(n, ref, phase, numRepetitions, ev);
    assert Linked(k);
    QuietFollows(k, m, ev);
    FollowsOn(n, k, m, ev);
  }

  lemma FollowsLinked(n: Node, m: Node, ev: Event)
    requires Follows(n, m, ev)
    ensures Linked(m)
  {
  }

  lemma NextRepetitionFollows(n: Node, ref: Ref, ev: Event)
    requires Linked(n) && MayOffer(n, ref) && !ev.Receive?
    ensures Follows(n, HandleNextRepetition(n, ref), ev)
  {
    hide Linked;
    hide ExecuteSd;
    hide Follows;
    hide RepetitionDelay;
    QuietFollows(n, n, ev);
    var st, k := n.states[ref], HandleNextRepetition(n, ref);
    if !IsSubscriptionAndServiceSeen(st) {
      ExecuteSdFollows(n, ref, ev);
      var m := if 0 < st.numRepetitions then ExecuteSd(n, ref) else n;
      FollowsLinked(n, m, ev);
      if st.numRepetitions < n.params.repetitionsMax {
        RestateAndScheduleFollows(m, ref, Repetition, st.numRepetitions + 1, k, ev);
      } else {
        RestateAndScheduleFollows(m, ref, MainPhase, st.numRepetitions, k, ev);
      }
      FollowsOn(n, m, k, ev);
    }
  }

  lemma WaitOverFollows(n: Node, ref: Ref, ev: Event)
    requires Linked(n) && MayOffer(n, ref) && !ev.Receive?
    ensures Follows(n, HandleWaitOver(n, ref), ev)
  {
    QuietFollows(n, n, ev);
    if !IsSubscriptionAndServiceSeen(n.states[ref]) {
      ExecuteSdFollows(n, ref, ev);
      var m := ExecuteSd(n, ref);
      assert Linked(m);
      NextRepetitionFollows(m, ref, ev);
      hide HandleNextRepetition;
      FollowsOn(n, m, HandleNextRepetition(m, ref), ev);
    }
  }

  lemma CyclicFollows(n: Node, ref: Ref, ev: Event)
    requires Linked(n) && MayOffer(n, ref) && HandleCyclicOffer(n, ref).Ok? && !ev.Receive?
    ensures Follows(n, HandleCyclicOffer(n, ref).value, ev)
  {
    ExecuteSdFollows(n, ref, ev);
    var m, k := ExecuteSd(n, ref), HandleCyclicOffer(n, ref).value;
    assert Linked(m);
    QuietFollows(m, k, ev);
    FollowsOn(n, m, k, ev);
  }

  lemma StartingFollows(n: Node, ref: Ref, st: SdState, delay: real, ev: Event)
    requires Linked(n) && ref !in n.states && LinkedRef(n.registry, ref, st) && (ref.SubRef? ==> !st.active)
    requires SoleInstance(n, ref) && !ev.Receive?
    ensures Follows(n, StartInitialWait(n, ref, st, delay), ev)
  {
    var st' := st.(phase := InitialWait, initialDelay := delay, waitOver := n.now + delay);
    var m, k := Put(n, ref, st'), StartInitialWait(n, ref, st, delay);
    assert LinkedRef(n.registry, ref, st');
    PutFollows(n, ref, st', ev);
    assert Linked(m) && ref in m.states;
    hide Linked;
    if delay == 0.0 {
      WaitOverFollows(m, ref, ev);
    } else {
      QuietFollows(m, k, ev);
    }
    FollowsOn(n, m, k, ev);
  }
}
