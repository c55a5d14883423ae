/** Whole runs of one host: applications register, timers fire and messages arrive in any order. */
module SomeIpRuns {
  import opened Base
  import opened SdCodec
  import opened Connectors
  import opened ConnectorGrowth
  import opened SomeIpNode
  import opened SomeIpHistory
  import opened SomeIpSchedule
  import opened SomeIpEvents
  import opened SomeIpLinks
  import opened SomeIpInvariant

  datatype Input = Input(at: real, event: Event)

  /** The events can happen in this order, and none throws. */
  ghost predicate Feasible(n: Node, run: seq<Input>)
    decreases |run|
  {
    run == [] ||
    (&& Enabled(n, run[0].at, run[0].event)
     && Step(n, run[0].at, run[0].event).Ok?
     && Feasible(Step(n, run[0].at, run[0].event).value, run[1..]))
  }

  ghost function Final(n: Node, run: seq<Input>): Node
    requires Feasible(n, run)
    decreases |run|
  {
    if run == [] then n else Final(Step(n, run[0].at, run[0].event).value, run[1..])
  }

  // ------------------------------------------------------------------ no timer is overdue

  ghost predicate NoneOverdue(n: Node) {
    forall t :: t in n.timers ==> n.now <= t.due
  }

  lemma DelayIsNatural(p: Params, k: nat)
    requires 0.0 <= p.baseDelay
    ensures 0.0 <= RepetitionDelay(p, k)
  {
  }

  lemma NextRepetitionOverdue(n: Node, ref: Ref)
    requires NoneOverdue(n) && 0.0 <= n.params.baseDelay && ref in n.states
    ensures NoneOverdue(HandleNextRepetition(n, ref))
  {
    DelayIsNatural(n.params, n.states[ref].numRepetitions);
    hide RepetitionDelay;
  }

  lemma StartingOverdue(n: Node, ref: Ref, st: SdState, delay: real)
    requires NoneOverdue(n) && 0.0 <= n.params.baseDelay && 0.0 <= delay
    ensures NoneOverdue(StartInitialWait(n, ref, st, delay))
  {
    hide HandleNextRepetition;
    var m := Put(n, ref, st.(phase := InitialWait, initialDelay := delay, waitOver := n.now + delay));
    if delay == 0.0 && !IsSubscriptionAndServiceSeen(m.states[ref]) {
      NextRepetitionOverdue(ExecuteSd(m, ref), ref);
    }
  }

  lemma {:induction false} AnsweringKeepsTimers(n: Node, s: int, instance: nat, to: Address)
    ensures AnswerFindAll(n, s, instance, to).timers == n.timers && AnswerFindAll(n, s, instance, to).now == n.now
    decreases 0x1_0000 - instance
  {
    if instance <= 0xFFFF {
      AnsweringKeepsTimers(AnswerFind(n, OfferRef(s, instance), to), s, instance + 1, to);
    }
  }

  lemma {:induction false} OffersKeepTimers(n: Node, o: Notification, groups: seq<QoSGroup>)
    requires OfferForGroups(n, o, groups).Ok?
    ensures var m := OfferForGroups(n, o, groups).value;
            m.timers == n.timers && m.now == n.now
    decreases |groups|
  {
    if groups != [] {
      OffersKeepTimers(OfferForGroup(n, o, groups[0]).value, o, groups[1..]);
    }
  }

  lemma {:induction false} AcksKeepTimers(n: Node, a: Notification, groups: seq<QoSGroup>)
    requires AckForGroups(n, a, groups).Ok?
    ensures var m := AckForGroups(n, a, groups).value;
            m.timers == n.timers && m.now == n.now
    decreases |groups|
  {
    if groups != [] {
      AcksKeepTimers(AckForGroup(n, a, groups[0]).value, a, groups[1..]);
    }
  }

  lemma FiringOverdue(n: Node, k: nat)
    requires AllSound(n) && NoneOverdue(n) && 0.0 <= n.params.baseDelay
    requires k < |n.timers| && n.timers[k].ref in n.states && n.timers[k].due == n.now && FireTimer(n, k).Ok?
    ensures NoneOverdue(FireTimer(n, k).value)
  {
    var t, m := n.timers[k], Unscheduled(n, k);
    StateOfView(n, t.ref);
    RemoveTimerView(n, k, t.ref);
    assert Sound(n.params, n.now, t.ref, ViewOf(n, t.ref));
    assert t.kind.CyclicOffer? ==> 0.0 < n.params.cyclicOfferDelay;
    hide AllSound;
    hide Sound;
    hide ViewOf;
    hide HandleNextRepetition;
    match t.kind {
      case WaitOver =>
        if !IsSubscriptionAndServiceSeen(m.states[t.ref]) {
          NextRepetitionOverdue(ExecuteSd(m, t.ref), t.ref);
        }
      case NextRepetition => NextRepetitionOverdue(m, t.ref);
      case CyclicOffer =>
    }
  }

  lemma RegisteringOverdue(n: Node, e: Event)
    requires NoneOverdue(n) && 0.0 <= n.params.baseDelay && (e.AddPublisher? || e.AddSubscriber?)
    requires Enabled(n, n.now, e) && Handle(n, e).Ok?
    ensures NoneOverdue(Handle(n, e).value)
  {
    hide StartInitialWait;
    hide RegisterSubscriber;
    match e {
      case AddPublisher(p, delay) =>
        var a := n.(registry := RegisterPublisher(n.registry, p).value);
        StartingOverdue(a, OfferRef(p.serviceId, p.instanceId), NewOffer(p), delay);
      case AddSubscriber(s, i, app, delay) =>
        var a := n.(registry := RegisterSubscriber(n.registry, s, app).value.registry);
        StartingOverdue(a, SubRef(s, app.group, i), NEW_SUBSCRIPTION, delay);
    }
  }

  lemma HandlingOverdue(n: Node, e: Event)
    requires AllSound(n) && NoneOverdue(n) && 0.0 <= n.params.baseDelay
    requires Enabled(n, n.now, e) && Handle(n, e).Ok?
    ensures NoneOverdue(Handle(n, e).value)
  {
    hide AllSound;
    match e {
      case AddPublisher(_, _) => RegisteringOverdue(n, e);
      case AddSubscriber(_, _, _, _) => RegisteringOverdue(n, e);
      case Fire(k) => FiringOverdue(n, k);
      case Receive(Find, q) => AnsweringKeepsTimers(n, q.serviceId, 0, q.address);
      case Receive(Offer, q) => OffersKeepTimers(n, q, InEnumOrder(q.qosGroups));
      case Receive(Subscribe, q) =>
      case Receive(SubscribeAck, q) => AcksKeepTimers(n, q, InEnumOrder(q.qosGroups));
    }
  }

  // ------------------------------------------------------------------ the invariant of every run

  /** What an entry says for as long as the host runs. */
  ghost predicate Told(n: Node, e: LogEntry) {
    && TimedSend(e)
    && (e.message.Some? && e.message.value.kind.Offer? ==> OfferedInTime(n, e.message.value.notification, e.time))
  }

  ghost predicate OffersInTime(n: Node) {
    forall e :: e in n.log ==> Told(n, e)
  }

  ghost predicate Good(n: Node) {
    Linked(n) && AllSound(n) && NoneOverdue(n) && 0.0 <= n.params.baseDelay && OffersInTime(n)
  }

  lemma NewNodeIsGood(address: Address, params: Params)
    requires 0.0 <= params.baseDelay
    ensures Good(NewNode(address, params))
  {
    var n := NewNode(address, params);
    NothingIsSane();
    forall r: Ref
      ensures Sound(n.params, n.now, r, ViewOf(n, r))
    {
      StateOfView(n, r);
    }
  }

  /** Whether an event is accepted; acknowledgements that name other than SOME/IP groups aside. */
  ghost predicate Acceptable(n: Node, e: Event) {
    match e
    case AddPublisher(p, _) => PublisherAccepted(n, p)
    case AddSubscriber(s, _, app, _) => SubscriberAccepted(n, s, app)
    case Fire(_) => true
    case Receive(kind, q) => kind.Subscribe? ==> !Refused(n, q)
  }

  lemma HandlingFollows(n: Node, e: Event)
    requires Linked(n) && AllSound(n) && Enabled(n, n.now, e)
    ensures Handle(n, e).Ok? ==> Acceptable(n, e) && Follows(n, Handle(n, e).value, e)
    ensures Acceptable(n, e) && (e.Receive? && e.kind.SubscribeAck? ==> e.notification.qosGroups <= SOMEIP_GROUPS) ==>
              Handle(n, e).Ok?
  {
    hide Linked;
    hide AllSound;
    hide Follows;
    match e {
      case AddPublisher(p, delay) => PublisherFollows(n, p, delay, e);
      case AddSubscriber(s, i, app, delay) => SubscriberFollows(n, s, i, app, delay, e);
      case Fire(k) => FiringFollows(n, k, e);
      case Receive(Find, q) => FindFollows(n, q, e);
      case Receive(Offer, q) =>
        InEnumOrderVisitsTheSet(q.qosGroups);
        OfferForGroupsFollows(n, q, InEnumOrder(q.qosGroups));
      case Receive(Subscribe, q) => AcknowledgingFollows(n, q);
      case Receive(SubscribeAck, q) => AckFollows(n, q);
    }
  }

  lemma ToldStays(n: Node, m: Node, x: LogEntry)
    requires Told(n, x) && Grows(n.registry, m.registry) && StatesStay(n, m)
    ensures Told(m, x)
  {
    hide Grows;
    hide TimedSend;
    if x.message.Some? && x.message.value.kind.Offer? {
      ApplicationStays(n.registry, m.registry, x.message.value.notification.serviceId);
    }
  }

  lemma OffersStayInTime(n: Node, m: Node, e: Event)
    requires OffersInTime(n) && Follows(n, m, e)
    ensures OffersInTime(m)
  {
    hide Linked;
    hide Grows;
    hide OnlyAcksActivate;
    hide StatesStay;
    hide Told;
    hide Justified;
    forall x | x in m.log
      ensures Told(m, x)
    {
      var k :| 0 <= k < |m.log| && m.log[k] == x;
      if k < |n.log| {
        assert x == n.log[k] && x in n.log;
        ToldStays(n, m, x);
      } else {
        JustifiedIsTold(m, e, x);
      }
    }
  }

  lemma JustifiedIsTold(m: Node, e: Event, x: LogEntry)
    requires Justified(m, e, x)
    ensures Told(m, x)
  {
    hide Answers;
    hide HasConnectorLike;
  }

  lemma LaterFollows(n: Node, at: real, m: Node, e: Event)
    requires Follows(n.(now := at), m, e)
    ensures Follows(n, m, e)
  {
  }

  /** In a reachable state every event that is accepted keeps the invariant; the errors the
      program expects never to happen do not happen. */
  lemma EventKeepsGood(n: Node, at: real, e: Event)
    requires Good(n) && Enabled(n, at, e)
    ensures Step(n, at, e).Ok? ==>
              && Acceptable(n, e) && Good(Step(n, at, e).value)
              && Moves(n, Step(n, at, e).value) && Follows(n, Step(n, at, e).value, e)
    ensures Acceptable(n, e) && (e.Receive? && e.kind.SubscribeAck? ==> e.notification.qosGroups <= SOMEIP_GROUPS) ==>
              Step(n, at, e).Ok?
  {
    var a := n.(now := at);
    NothingMoves(n, a);
    MovesSound(n, a);
    assert Linked(a) && Acceptable(a, e) == Acceptable(n, e) && NoneOverdue(a) && Enabled(a, at, e);
    hide Linked;
    hide Acceptable;
    hide AllSound;
    HandlingFollows(a, e);
    if Handle(a, e).Ok? {
      var m := Handle(a, e).value;
      EventMoves(n, at, e);
      MovesSound(n, m);
      HandlingOverdue(a, e);
      LaterFollows(n, at, m, e);
      FollowsLinked(n, m, e);
      OffersStayInTime(n, m, e);
      assert m.params == n.params;
    }
  }

  // ------------------------------------------------------------------ over all runs

  /** What holds between any two moments of a run. */
  ghost predicate Leads(n: Node, m: Node) {
    AllAdvance(n, m) && Grows(n.registry, m.registry) && n.now <= m.now && n.log <= m.log && m.params == n.params
  }

  lemma {:induction false} RunKeepsGood(n: Node, run: seq<Input>)
    requires Good(n) && Feasible(n, run)
    ensures Good(Final(n, run)) && Leads(n, Final(n, run))
    decreases |run|
  {
    if run == [] {
      NothingMoves(n, n);
      GrowsNot(n.registry);
    } else {
      var m := Step(n, run[0].at, run[0].event).value;
      EventKeepsGood(n, run[0].at, run[0].event);
      RunKeepsGood(m, run[1..]);
      var k := Final(m, run[1..]);
      assert Leads(n, m);
      hide Good;
      hide Moves;
      hide Follows;
      LeadsOn(n, m, k);
    }
  }

  lemma LeadsOn(n: Node, m: Node, k: Node)
    requires Leads(n, m) && Leads(m, k)
    ensures Leads(n, k)
  {
    GrowsOn(n.registry, m.registry, k.registry);
    hide Grows;
    forall r: Ref
      ensures Advances(ViewOf(n, r), ViewOf(k, r))
    {
      assert Advances(ViewOf(n, r), ViewOf(m, r)) && Advances(ViewOf(m, r), ViewOf(k, r));
      AdvancesOnAndOn(ViewOf(n, r), ViewOf(m, r), ViewOf(k, r));
    }
  }

  ghost predicate Reachable(n: Node) {
    exists address: Address, params: Params, run: seq<Input>
      | 0.0 <= params.baseDelay && Feasible(NewNode(address, params), run) ::
      n == Final(NewNode(address, params), run)
  }

  lemma ReachableIsGood(n: Node)
    requires Reachable(n)
    ensures Good(n)
  {
    var address: Address, params: Params, run: seq<Input> :|
      0.0 <= params.baseDelay && Feasible(NewNode(address, params), run) && n == Final(NewNode(address, params), run);
    NewNodeIsGood(address, params);
    RunKeepsGood(NewNode(address, params), run);
  }
}
