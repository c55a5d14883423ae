/** A host as a whole: its manager and its discovery module. The manager's signals reach the module
    before the handler that raised them goes on, so an encoder's error is an error of the event. */
module SomeIpHost {
  import opened Base
  import opened SdHeader
  import opened SdCodec
  import opened SdRoundTrip
  import opened Connectors
  import opened SomeIpNode
  import opened SomeIpHistory
  import opened SomeIpSchedule
  import opened SomeIpEvents
  import opened SomeIpLinks
  import opened SomeIpInvariant
  import opened SomeIpRuns
  import opened SomeIpOffers

  /** The encoder's error for what an entry of the log sent, if any. */
  function Refusal(c: Config, e: LogEntry): Option<Error> {
    match e.message
    case None => None
    case Some(m) =>
      match Encode(c, m.kind, m.notification)
      case Err(error) => Some(error)
      case Ok(_) => None
  }

  /** The first such error from a position of the log on. */
  function FirstRefusal(c: Config, log: seq<LogEntry>, from: nat): Option<Error>
    decreases |log| - from
  {
    if |log| <= from then None
    else
      var refused := Refusal(c, log[from]);
      if refused.Some? then refused else FirstRefusal(c, log, from + 1)
  }

  /** One event at a host: the manager handles it, and the discovery module encodes what it sends. */
  function HostStep(c: Config, n: Node, at: real, e: Event): Result<Node>
    requires e.Fire? ==> e.timer < |n.timers| && n.timers[e.timer].ref in n.states
  {
    var m :- Step(n, at, e);
    var refused := FirstRefusal(c, m.log, |n.log|);
    if refused.Some? then Err(refused.value) else Ok(m)
  }

  // ------------------------------------------------------------------ what is sent encodes

  predicate Passes(c: Config, e: LogEntry) {
    Refusal(c, e).None?
  }

  /** Everything sent between two states encodes. */
  ghost predicate AllPass(c: Config, n: Node, m: Node) {
    forall k :: |n.log| <= k < |m.log| ==> Passes(c, m.log[k])
  }

  lemma {:induction false} RefusedExactlyWhen(c: Config, log: seq<LogEntry>, from: nat)
    ensures FirstRefusal(c, log, from).None? <==> forall k :: from <= k < |log| ==> Passes(c, log[k])
    decreases |log| - from
  {
    if from < |log| {
      RefusedExactlyWhen(c, log, from + 1);
    }
  }

  lemma HostStepIs(c: Config, n: Node, at: real, e: Event)
    requires e.Fire? ==> e.timer < |n.timers| && n.timers[e.timer].ref in n.states
    ensures HostStep(c, n, at, e).Ok? <==> Step(n, at, e).Ok? && AllPass(c, n, Step(n, at, e).value)
    ensures HostStep(c, n, at, e).Ok? ==> HostStep(c, n, at, e) == Step(n, at, e)
  {
    hide Step;
    if Step(n, at, e).Ok? {
      RefusedExactlyWhen(c, Step(n, at, e).value.log, |n.log|);
    }
  }

  lemma AllPassOn(c: Config, n: Node, m: Node, k: Node)
    requires n.log <= m.log <= k.log
    ensures AllPass(c, n, k) <==> AllPass(c, n, m) && AllPass(c, m, k)
  {
    hide Passes;
    forall j | |n.log| <= j < |m.log|
      ensures m.log[j] == k.log[j]
    {
    }
  }

  lemma OneEntryPasses(c: Config, n: Node, e: LogEntry, m: Node)
    requires m.log == n.log + [e]
    ensures AllPass(c, n, m) <==> Passes(c, e)
  {
    hide Passes;
    assert m.log[|n.log|] == e;
  }

  // ------------------------------------------------------------------ offers

  /** The discovery module can send this offer. */
  ghost predicate CanOffer(c: Config, o: Notification) {
    c.hasQoSNP || OffersAreEncodable(o)
  }

  lemma OfferPassesExactlyWhen(c: Config, e: LogEntry)
    requires e.message.Some? && e.message.value.kind.Offer? && NamesNoOtherGroup(e.message.value.notification)
    ensures Passes(c, e) <==> CanOffer(c, e.message.value.notification)
  {
    if !c.hasQoSNP {
      OfferEncodesExactlyWhen(c, e.message.value.notification);
    }
  }

  /** What a key sends when a timer of it goes off can be sent. */
  ghost predicate CanExecuteSd(c: Config, st: SdState) {
    st.OfferState? ==> CanOffer(c, st.offering)
  }

  predicate IsPlain(st: SdState) {
    st.OfferState? ==> NamesNoOtherGroup(st.offering)
  }

  lemma StatesArePlain(n: Node, ref: Ref)
    requires Linked(n) && ref in n.states
    ensures IsPlain(n.states[ref])
  {
    OfferingNamesItsRef(n, ref);
  }

  lemma ExecuteSdPasses(c: Config, n: Node, ref: Ref)
    requires ref in n.states && IsPlain(n.states[ref])
    ensures AllPass(c, n, ExecuteSd(n, ref)) <==> CanExecuteSd(c, n.states[ref])
    ensures n.log <= ExecuteSd(n, ref).log && ExecuteSd(n, ref).states == n.states
  {
    var m := ExecuteSd(n, ref);
    var e := m.log[|n.log|];
    OneEntryPasses(c, n, e, m);
    if n.states[ref].OfferState? {
      OfferPassesExactlyWhen(c, e);
    }
    hide AllPass;
    hide CanOffer;
  }

  lemma NextRepetitionPasses(c: Config, n: Node, ref: Ref)
    requires ref in n.states && IsPlain(n.states[ref])
    ensures n.log <= HandleNextRepetition(n, ref).log
    ensures AllPass(c, n, HandleNextRepetition(n, ref))
            <==> (0 < n.states[ref].numRepetitions ==> CanExecuteSd(c, n.states[ref]))
  {
    ExecuteSdPasses(c, n, ref);
    var m, k := if 0 < n.states[ref].numRepetitions then ExecuteSd(n, ref) else n, HandleNextRepetition(n, ref);
    hide ExecuteSd;
    hide Passes;
    hide CanOffer;
    if !IsSubscriptionAndServiceSeen(n.states[ref]) {
      assert k.log == m.log;
    }
  }

  lemma WaitOverPasses(c: Config, n: Node, ref: Ref)
    requires ref in n.states && IsPlain(n.states[ref])
    ensures n.log <= HandleWaitOver(n, ref).log
    ensures AllPass(c, n, HandleWaitOver(n, ref)) <==> CanExecuteSd(c, n.states[ref])
  {
    if !IsSubscriptionAndServiceSeen(n.states[ref]) {
      ExecuteSdPasses(c, n, ref);
      var m := ExecuteSd(n, ref);
      NextRepetitionPasses(c, m, ref);
      AllPassOn(c, n, m, HandleNextRepetition(m, ref));
      hide ExecuteSd;
      hide HandleNextRepetition;
      hide AllPass;
      hide CanOffer;
    }
  }

  // ------------------------------------------------------------------ timers and registrations

  lemma FiringPasses(c: Config, n: Node, k: nat)
    requires Linked(n) && AllSound(n) && k < |n.timers| && n.timers[k].ref in n.states && FireTimer(n, k).Ok?
    ensures AllPass(c, n, FireTimer(n, k).value) <==> CanExecuteSd(c, n.states[n.timers[k].ref])
  {
    var t, m := n.timers[k], Unscheduled(n, k);
    StatesArePlain(n, t.ref);
    StateOfView(n, t.ref);
    RemoveTimerView(n, k, t.ref);
    assert Sound(n.params, n.now, t.ref, ViewOf(n, t.ref));
    assert t.kind.NextRepetition? && n.states[t.ref].OfferState? ==> 0 < n.states[t.ref].numRepetitions;
    hide AllSound;
    hide Sound;
    hide ViewOf;
    hide Linked;
    hide AllPass;
    hide CanOffer;
    assert m.log == n.log;
    match t.kind {
      case WaitOver => WaitOverPasses(c, m, t.ref);
      case NextRepetition => NextRepetitionPasses(c, m, t.ref);
      case CyclicOffer => ExecuteSdPasses(c, m, t.ref);
    }
  }

  lemma SameLogPasses(c: Config, n: Node, m: Node)
    requires m.log == n.log
    ensures AllPass(c, n, m)
  {
  }

  lemma StartingPasses(c: Config, n: Node, ref: Ref, st: SdState, delay: real)
    requires IsPlain(st)
    ensures AllPass(c, n, StartInitialWait(n, ref, st, delay)) <==> (delay == 0.0 ==> CanExecuteSd(c, st))
  {
    var st' := st.(phase := InitialWait, initialDelay := delay, waitOver := n.now + delay);
    var m := Put(n, ref, st');
    if delay == 0.0 {
      WaitOverPasses(c, m, ref);
      hide HandleWaitOver;
    }
  }

  lemma PublisherPasses(c: Config, n: Node, p: Publisher, delay: real)
    requires RegisterPublisherService(n, p, delay).Ok?
    ensures AllPass(c, n, RegisterPublisherService(n, p, delay).value)
            <==> (!p.isStatic && delay == 0.0 ==> CanOffer(c, Offering(p)))
  {
    var r := n.(registry := RegisterPublisher(n.registry, p).value);
    hide RegisterStaticPublisher;
    hide StartInitialWait;
    hide CanOffer;
    if !p.isStatic {
      StartingPasses(c, r, OfferRef(p.serviceId, p.instanceId), NewOffer(p), delay);
    }
  }

  lemma SubscriberPasses(c: Config, n: Node, s: int, instance: int, app: Subscriber, delay: real)
    requires RegisterSubscriberService(n, s, instance, app, delay).Ok?
    ensures AllPass(c, n, RegisterSubscriberService(n, s, instance, app, delay).value)
  {
    var r := n.(registry := RegisterSubscriber(n.registry, s, app).value.registry);
    StartingPasses(c, r, SubRef(s, app.group, instance), NEW_SUBSCRIPTION, delay);
    hide RegisterSubscriber;
    hide StartInitialWait;
    hide CreateOrFindSubscriberEndpoint;
  }

  // ------------------------------------------------------------------ answers to a Find

  /** An offer that a Find for the key would be answered with. */
  ghost predicate IsOpenOffer(n: Node, ref: Ref) {
    ref in n.states && n.states[ref].OfferState? && !n.states[ref].phase.InitialWait?
  }

  lemma AnswerPasses(c: Config, n: Node, ref: Ref, to: Address)
    requires ref in n.states ==> IsPlain(n.states[ref])
    ensures var m := AnswerFind(n, ref, to);
            && n.log <= m.log && m.states == n.states && m.registry == n.registry
            && (AllPass(c, n, m) <==> (IsOpenOffer(n, ref) ==> CanOffer(c, n.states[ref].offering)))
  {
    if IsOpenOffer(n, ref) {
      var o := n.states[ref].offering.(address := to);
      var e := LogEntry(n.now, SomeIpNode.Reply, Some(Message(Offer, o)));
      OneEntryPasses(c, n, e, AnswerFind(n, ref, to));
      OfferPassesExactlyWhen(c, e);
      AddressDoesNotMatter(n.states[ref].offering, to);
    }
  }

  lemma AddressDoesNotMatter(o: Notification, to: Address)
    ensures OffersAreEncodable(o.(address := to)) <==> OffersAreEncodable(o)
  {
    assert forall g :: Encodable(o.(address := to), g) <==> Encodable(o, g);
  }

  lemma {:induction false} AnswerAllPasses(c: Config, n: Node, s: int, instance: nat, to: Address)
    requires Linked(n)
    ensures n.log <= AnswerFindAll(n, s, instance, to).log
    ensures AllPass(c, n, AnswerFindAll(n, s, instance, to))
            <==> forall i: nat :: instance <= i <= 0xFFFF && IsOpenOffer(n, OfferRef(s, i)) ==>
                   CanOffer(c, n.states[OfferRef(s, i)].offering)
    decreases 0x1_0000 - instance
  {
    if instance <= 0xFFFF {
      var ref := OfferRef(s, instance);
      if ref in n.states {
        StatesArePlain(n, ref);
      }
      AnswerPasses(c, n, ref, to);
      var m := AnswerFind(n, ref, to);
      assert Linked(m);
      hide Linked;
      hide AnswerFind;
      hide CanOffer;
      AnswerAllPasses(c, m, s, instance + 1, to);
      AllPassOn(c, n, m, AnswerFindAll(m, s, instance + 1, to));
      hide AllPass;
      assert forall i: nat :: IsOpenOffer(m, OfferRef(s, i)) <==> IsOpenOffer(n, OfferRef(s, i));
    }
  }

  /** The keys that a Find asks for: the instance, or any instance of the service. */
  ghost predicate IsSought(n: Node, q: Notification, ref: Ref) {
    && ref.OfferRef? && ref.service == q.serviceId
    && if OfferRef(q.serviceId, q.instanceId) in n.states then ref.instance == q.instanceId
       else q.instanceId == ANY_INSTANCE && 0 <= ref.instance <= 0xFFFF
  }

  ghost predicate FindPasses(c: Config, n: Node, q: Notification) {
    forall ref :: IsSought(n, q, ref) && IsOpenOffer(n, ref) ==> CanOffer(c, n.states[ref].offering)
  }

  lemma FindPassesExactlyWhen(c: Config, n: Node, q: Notification)
    requires Linked(n)
    ensures AllPass(c, n, LookForService(n, q)) <==> FindPasses(c, n, q)
  {
    var ref := OfferRef(q.serviceId, q.instanceId);
    if ref in n.states {
      StatesArePlain(n, ref);
      hide Linked;
      AnswerPasses(c, n, ref, q.address);
      hide AnswerFind;
      hide AllPass;
      hide CanOffer;
      assert forall r :: IsSought(n, q, r) <==> r == ref;
    } else if q.instanceId == ANY_INSTANCE {
      AnswerAllPasses(c, n, q.serviceId, 0, q.address);
      hide Linked;
      hide AnswerFindAll;
      hide AllPass;
      hide CanOffer;
      forall r | IsSought(n, q, r) && IsOpenOffer(n, r)
        ensures r == OfferRef(q.serviceId, r.instance)
      {
      }
      assert forall i: nat :: i <= 0xFFFF ==> IsSought(n, q, OfferRef(q.serviceId, i));
    }
  }

  // ------------------------------------------------------------------ subscriptions and acknowledgements

  lemma EndpointMade(c: Config, n: Notification)
    ensures EncodeSubscribe(c, n).Ok? <==> Encodable(n, n.qosGroup)
    ensures EncodeAck(c, n).Ok? <==> Encodable(n, n.qosGroup)
  {
  }

  lemma RequestPasses(c: Config, n: Node, ref: Ref, o: Notification, g: QoSGroup, d: SubConnector)
    requires ref in n.states && n.states[ref].SubscriptionState? && d.apps != []
    ensures var m := RequestSubscription(n, ref, o, g, d);
            n.log <= m.log && (AllPass(c, n, m) <==> Encodable(o, g))
  {
    var x := Subscription(o, g, d);
    EndpointMade(c, x);
    assert Encodable(x, g) <==> Encodable(o, g);
    hide EncodeSubscribe;
    OneEntryPasses(c, n, LogEntry(n.now, RequestFor(ref), Some(Message(Subscribe, x))),
                   RequestSubscription(n, ref, o, g, d));
  }

  lemma OneGroupPasses(c: Config, n: Node, o: Notification, g: QoSGroup)
    requires Linked(n)
    ensures OfferForGroup(n, o, g).Ok?
    ensures var m := OfferForGroup(n, o, g).value;
            n.log <= m.log && (AllPass(c, n, m) <==> (IsAwaited(n, o, g) ==> Encodable(o, g)))
  {
    var ref, d := OfferForOneGroup(n, o, g);
    hide Linked;
    hide OfferForGroup;
    hide RequestSubscription;
    hide IsAwaited;
    hide Encodable;
    hide AllPass;
    if d.Some? {
      RequestPasses(c, n, ref, o, g, d.value);
    } else {
      SameLogPasses(c, n, n);
    }
  }

  lemma {:induction false} GroupsPass(c: Config, n: Node, o: Notification, groups: seq<QoSGroup>)
    requires Linked(n) && Ascending(groups) && AreOffered(o, groups)
    ensures OfferForGroups(n, o, groups).Ok? && n.log <= OfferForGroups(n, o, groups).value.log
    ensures AllPass(c, n, OfferForGroups(n, o, groups).value)
            <==> forall g :: g in groups && IsAwaited(n, o, g) ==> Encodable(o, g)
    decreases |groups|
  {
    hide Linked;
    hide Follows;
    hide OfferForGroup;
    hide IsAwaited;
    hide Encodable;
    hide AllPass;
    if groups == [] {
      SameLogPasses(c, n, n);
    } else {
      var g := groups[0];
      OfferForGroupFollows(n, o, g);
      var m := OfferForGroup(n, o, g).value;
      FollowsLinked(n, m, Receive(Offer, o));
      OneGroupPasses(c, n, o, g);
      forall h | h != g
        ensures IsAwaited(m, o, h) <==> IsAwaited(n, o, h)
      {
        OthersStayAwaited(n, o, h, g);
      }
      GroupsPass(c, m, o, groups[1..]);
      AllPassOn(c, n, m, OfferForGroups(m, o, groups[1..]).value);
      assert forall h :: h in groups <==> h == g || h in groups[1..];
      assert g !in groups[1..];
    }
  }

  lemma OthersStayAwaited(n: Node, o: Notification, g: QoSGroup, other: QoSGroup)
    requires Linked(n) && other != g
    ensures OfferForGroup(n, o, other).Ok?
    ensures IsAwaited(OfferForGroup(n, o, other).value, o, g) <==> IsAwaited(n, o, g)
  {
    hide Linked;
    hide OfferForGroup;
    hide Waits;
    OtherGroupsDoNotMatter(n, o, g, other, SubRef(o.serviceId, g, o.instanceId));
    forall ref
      ensures Waits(OfferForGroup(n, o, other).value, o, g, ref) <==> Waits(n, o, g, ref)
    {
      OtherGroupsDoNotMatter(n, o, g, other, ref);
    }
  }

  /** The publisher here serves the group that the subscription asks for. */
  predicate IsServedHere(n: Node, q: Notification) {
    q.serviceId in n.registry.pubs && q.qosGroup in n.registry.pubs[q.serviceId].app.groups
  }

  lemma AcknowledgingPasses(c: Config, n: Node, q: Notification)
    requires AcknowledgeSubscription(n, q).Ok?
    ensures AllPass(c, n, AcknowledgeSubscription(n, q).value) <==> (IsServedHere(n, q) ==> Encodable(q, q.qosGroup))
  {
    if IsServedHere(n, q) {
      var p := n.registry.pubs[q.serviceId].app;
      var k := Acknowledgement(q, p);
      EndpointMade(c, k);
      assert Encodable(k, k.qosGroup) <==> Encodable(q, q.qosGroup);
      hide ServeSubscription;
      hide EncodeAck;
      OneEntryPasses(c, n, LogEntry(n.now, SomeIpNode.Reply, Some(Message(SubscribeAck, k))),
                     AcknowledgeSubscription(n, q).value);
    }
  }

  lemma {:induction false} AcceptingPasses(c: Config, n: Node, a: Notification, groups: seq<QoSGroup>)
    requires AckForGroups(n, a, groups).Ok?
    ensures n.log <= AckForGroups(n, a, groups).value.log && AllPass(c, n, AckForGroups(n, a, groups).value)
    decreases |groups|
  {
    if groups != [] {
      var one, any := SubRef(a.serviceId, groups[0], a.instanceId), SubRef(a.serviceId, groups[0], ANY_INSTANCE);
      var m := AcceptAck(n, one).value;
      var k := AcceptAck(m, any).value;
      AcceptPasses(c, n, one);
      AcceptPasses(c, m, any);
      AcceptingPasses(c, k, a, groups[1..]);
      hide AcceptAck;
      hide AllPass;
      AllPassOn(c, n, m, k);
      AllPassOn(c, n, k, AckForGroups(k, a, groups[1..]).value);
    }
  }

  lemma AcceptPasses(c: Config, n: Node, ref: Ref)
    requires ref.SubRef? && AcceptAck(n, ref).Ok?
    ensures n.log <= AcceptAck(n, ref).value.log && AllPass(c, n, AcceptAck(n, ref).value)
  {
    hide CreateOrFindSubscriberEndpoint;
  }

  // ------------------------------------------------------------------ which events throw

  /** What the event makes the host send can be encoded. */
  ghost predicate CanSend(c: Config, n: Node, e: Event) {
    match e
    case AddPublisher(p, delay) => !p.isStatic && delay == 0.0 ==> CanOffer(c, Offering(p))
    case AddSubscriber(_, _, _, _) => true
    case Fire(k) => k < |n.timers| && n.timers[k].ref in n.states && CanExecuteSd(c, n.states[n.timers[k].ref])
    case Receive(Find, q) => FindPasses(c, n, q)
    case Receive(Offer, o) => forall g :: g in o.qosGroups && IsAwaited(n, o, g) ==> Encodable(o, g)
    case Receive(Subscribe, q) => IsServedHere(n, q) ==> Encodable(q, q.qosGroup)
    case Receive(SubscribeAck, _) => true
  }

  lemma HandlingPasses(c: Config, n: Node, e: Event)
    requires Linked(n) && AllSound(n) && Enabled(n, n.now, e) && Handle(n, e).Ok?
    ensures AllPass(c, n, Handle(n, e).value) <==> CanSend(c, n, e)
  {
    hide Linked;
    hide AllSound;
    hide AllPass;
    hide CanOffer;
    hide FindPasses;
    hide Encodable;
    hide IsAwaited;
    match e {
      case AddPublisher(p, delay) => PublisherPasses(c, n, p, delay);
      case AddSubscriber(s, i, app, delay) => SubscriberPasses(c, n, s, i, app, delay);
      case Fire(k) => FiringPasses(c, n, k);
      case Receive(Find, q) => FindPassesExactlyWhen(c, n, q);
      case Receive(Offer, o) =>
        InEnumOrderVisitsTheSet(o.qosGroups);
        GroupsPass(c, n, o, InEnumOrder(o.qosGroups));
      case Receive(Subscribe, q) => AcknowledgingPasses(c, n, q);
      case Receive(SubscribeAck, a) => AcceptingPasses(c, n, a, InEnumOrder(a.qosGroups));
    }
  }

  lemma CanSendLater(c: Config, n: Node, at: real, e: Event)
    ensures CanSend(c, n.(now := at), e) <==> CanSend(c, n, e)
  {
    hide CanOffer;
    hide Encodable;
    var a := n.(now := at);
    match e {
      case Receive(Offer, o) =>
        assert forall g, ref :: Waits(a, o, g, ref) <==> Waits(n, o, g, ref);
      case _ =>
    }
  }

  lemma StepPasses(c: Config, n: Node, at: real, e: Event)
    requires Good(n) && Enabled(n, at, e) && Step(n, at, e).Ok?
    ensures AllPass(c, n, Step(n, at, e).value) <==> CanSend(c, n, e)
  {
    var a := n.(now := at);
    NothingMoves(n, a);
    MovesSound(n, a);
    assert Linked(a) && Enabled(a, at, e);
    hide Good;
    hide Linked;
    hide AllSound;
    hide Handle;
    hide CanSend;
    HandlingPasses(c, a, e);
    CanSendLater(c, n, at, e);
  }

  /** Which events throw at a host: exactly those the manager refuses, and those that make it send
      an offer, subscription or acknowledgement that its discovery module cannot encode. */
  lemma HostThrowsExactlyWhen(c: Config, n: Node, at: real, e: Event)
    requires Good(n) && Enabled(n, at, e)
    requires e.Receive? && e.kind.SubscribeAck? ==> e.notification.qosGroups <= SOMEIP_GROUPS
    ensures HostStep(c, n, at, e).Ok? <==> Acceptable(n, e) && CanSend(c, n, e)
  {
    EventKeepsGood(n, at, e);
    HostStepIs(c, n, at, e);
    hide Good;
    hide Enabled;
    hide Acceptable;
    hide CanSend;
    hide Moves;
    hide Follows;
    hide AllPass;
    if Step(n, at, e).Ok? {
      hide Step;
      StepPasses(c, n, at, e);
    }
  }

  /** Without an initial delay a host's first publisher is offered at once. */
  lemma FirstOffer(address: Address, params: Params, p: Publisher)
    requires !p.isStatic
    ensures var n, e := NewNode(address, params), AddPublisher(p, 0.0);
            && Enabled(n, 0.0, e) && Acceptable(n, e) && Step(n, 0.0, e).Ok?
            && var ref := OfferRef(p.serviceId, p.instanceId);
               Step(n, 0.0, e).value.log == [LogEntry(0.0, ByTimer(ref), Some(Message(Offer, Offering(p))))]
  {
    hide Offering;
  }

  /** A publisher of the multicast group that leaves its multicast address and port at their
      defaults. */
  const WITHOUT_MULTICAST_DATA := Publisher(7, 1, {SomeIpUdpMcast}, -1, -1, UNSPECIFIED, -1, false)

  lemma SingleGroupOffer(c: Config, o: Notification, g: QoSGroup, error: Error)
    requires !c.hasQoSNP && g in SOMEIP_GROUPS && o.qosGroups == {g} && CreateIpv4Endpoint(c, o, g) == Err(error)
    ensures EncodeOffer(c, o) == Err(error)
  {
    OneGroupWalk(g);
    hide InEnumOrder;
    hide CreateIpv4Endpoint;
    hide ConfigurationOptions;
    assert EndpointOptions(c, o, [g]) == Err(error);
  }

  lemma RefusedOffer(c: Config, e: LogEntry, error: Error)
    requires e.message.Some? && e.message.value.kind.Offer?
    requires EncodeOffer(c, e.message.value.notification) == Err(error)
    ensures FirstRefusal(c, [e], 0) == Some(error)
  {
    hide EncodeOffer;
    assert Refusal(c, [e][0]) == Some(error);
  }

  lemma FirstOfferRefused(c: Config, address: Address, params: Params, p: Publisher, error: Error)
    requires !p.isStatic && EncodeOffer(c, Offering(p)) == Err(error)
    ensures HostStep(c, NewNode(address, params), 0.0, AddPublisher(p, 0.0)) == Err(error)
  {
    hide Step;
    hide Encode;
    hide Offering;
    hide Acceptable;
    hide Enabled;
    hide Refusal;
    hide FirstRefusal;
    FirstOffer(address, params, p);
    var m := Step(NewNode(address, params), 0.0, AddPublisher(p, 0.0)).value;
    RefusedOffer(c, m.log[0], error);
  }

  /** The manager accepts it, but offering it at once throws. */
  lemma UnencodableOfferThrows(c: Config, address: Address, params: Params)
    requires !c.hasQoSNP
    ensures var n, e := NewNode(address, params), AddPublisher(WITHOUT_MULTICAST_DATA, 0.0);
            && Enabled(n, 0.0, e) && Acceptable(n, e) && Step(n, 0.0, e).Ok?
            && HostStep(c, n, 0.0, e) == Err(MissingMulticastInfo)
  {
    var o := Offering(WITHOUT_MULTICAST_DATA);
    assert CreateIpv4Endpoint(c, o, SomeIpUdpMcast) == Err(MissingMulticastInfo);
    SingleGroupOffer(c, o, SomeIpUdpMcast, MissingMulticastInfo);
    hide HostStep;
    hide EncodeOffer;
    hide Step;
    hide Acceptable;
    hide Enabled;
    FirstOffer(address, params, WITHOUT_MULTICAST_DATA);
    FirstOfferRefused(c, address, params, WITHOUT_MULTICAST_DATA, MissingMulticastInfo);
  }

  // ------------------------------------------------------------------ once sent, always sendable

  ghost predicate LogPasses(c: Config, n: Node) {
    forall k :: 0 <= k < |n.log| ==> Passes(c, n.log[k])
  }

  lemma {:induction false} TimesAreOfEntries(log: seq<LogEntry>, cause: Cause)
    requires Times(log, cause) != []
    ensures exists k :: 0 <= k < |log| && log[k].cause == cause
  {
    if log[|log| - 1].cause != cause {
      TimesAreOfEntries(log[..|log| - 1], cause);
      var k :| 0 <= k < |log| - 1 && log[..|log| - 1][k].cause == cause;
      assert log[k].cause == cause;
    }
  }

  /** An offer past its initial wait has been sent, so it can be sent again. */
  lemma OpenOffersCanBeSent(c: Config, n: Node, ref: Ref)
    requires Good(n) && LogPasses(c, n) && IsOpenOffer(n, ref)
    ensures CanOffer(c, n.states[ref].offering)
  {
    StateOfView(n, ref);
    assert Sound(n.params, n.now, ref, ViewOf(n, ref));
    OfferingNamesItsRef(n, ref);
    TimesAreOfEntries(n.log, ByTimer(ref));
    var k :| 0 <= k < |n.log| && n.log[k].cause == ByTimer(ref);
    var e := n.log[k];
    assert e in n.log && Told(n, e);
    hide Good;
    hide Sound;
    hide ViewOf;
    OfferPassesExactlyWhen(c, e);
    AddressDoesNotMatter(n.states[ref].offering, e.message.value.notification.address);
  }

  /** So at a host that has come so far without a throw, no Find throws. */
  lemma FindsNeverThrow(c: Config, n: Node, at: real, q: Notification)
    requires Good(n) && LogPasses(c, n) && Enabled(n, at, Receive(Find, q))
    ensures HostStep(c, n, at, Receive(Find, q)).Ok?
  {
    HostThrowsExactlyWhen(c, n, at, Receive(Find, q));
    hide Good;
    forall ref | IsSought(n, q, ref) && IsOpenOffer(n, ref)
      ensures CanOffer(c, n.states[ref].offering)
    {
      OpenOffersCanBeSent(c, n, ref);
    }
  }
}
