/** What a SOME/IP manager guarantees in every state it can reach, whatever registers, arrives or
    fires, and in whatever order. */
module SomeIpTheorems {
  import opened Base
  import opened SdHeader
  import opened SdCodec
  import opened Connectors
  import opened ConnectorGrowth
  import opened SomeIpNode
  import opened SomeIpHistory
  import opened SomeIpSchedule
  import opened SomeIpEvents
  import opened SomeIpLinks
  import opened SomeIpInvariant
  import opened SomeIpRuns
  import opened SomeIpOffers

  lemma ReachableIsSound(n: Node, ref: Ref)
    requires Reachable(n)
    ensures Sound(n.params, n.now, ref, ViewOf(n, ref))
    ensures ViewOf(n, ref).state == if ref in n.states then Some(n.states[ref]) else None
  {
    ReachableIsGood(n);
    StateOfView(n, ref);
  }

  // ------------------------------------------------------------------ the send schedule

  /** When the i-th following send of a key is due: the wait doubles with every repetition, from
      the base delay, and is the cyclic delay afterwards. */
  function DueAfter(p: Params, i: nat): real {
    var r := Repetitions(p);
    if i <= r then p.baseDelay * (Pow2(i) as real - 1.0)
    else p.baseDelay * (Pow2(r) as real - 1.0) + (i - r) as real * p.cyclicOfferDelay
  }

  lemma DueIsOffset(p: Params, i: nat)
    ensures DueAfter(p, i) == Offset(p, i)
  {
    OffsetClosedForm(p, i);
  }

  ghost predicate OffersCyclically(p: Params, st: SdState) {
    st.OfferState? && 0.0 < p.cyclicOfferDelay
  }

  /** Every send is on time; the main phase begins with the (R+1)-th; after it only offers send
      again; and a key never has two timers pending. */
  lemma SendSchedule(n: Node, ref: Ref)
    requires Reachable(n) && ref in n.states
    ensures var v, st, r := ViewOf(n, ref), n.states[ref], Repetitions(n.params);
            && (forall i :: 0 <= i < |v.sent| ==> v.sent[i] == st.waitOver + DueAfter(n.params, i))
            && |v.timers| <= 1
            && (!st.phase.MainPhase? ==> |v.sent| <= r)
            && (st.phase.MainPhase? && !IsSubscriptionAndServiceSeen(st) ==> r + 1 <= |v.sent|)
            && (r + 1 < |v.sent| ==> OffersCyclically(n.params, st))
  {
    ReachableIsSound(n, ref);
    var v := ViewOf(n, ref);
    forall i | 0 <= i < |v.sent|
      ensures v.sent[i] == n.states[ref].waitOver + DueAfter(n.params, i)
    {
      DueIsOffset(n.params, i);
    }
  }

  lemma {:induction false} NoNewTimes(log: seq<LogEntry>, more: seq<LogEntry>, c: Cause)
    requires log <= more && forall k :: |log| <= k < |more| ==> more[k].cause != c
    ensures Times(more, c) == Times(log, c)
    decreases |more|
  {
    if |log| < |more| {
      NoNewTimes(log, more[..|more| - 1], c);
    } else {
      assert more == log;
    }
  }

  ghost predicate AppendsOneAtMost(n: Node, m: Node) {
    n.log <= m.log && |m.log| <= |n.log| + 1
  }

  lemma FirstSendIsOne(n: Node, ref: Ref)
    requires ref in n.states && n.states[ref].numRepetitions == 0
    ensures AppendsOneAtMost(n, HandleWaitOver(n, ref))
  {
  }

  lemma StartingSendsOnce(n: Node, ref: Ref, st: SdState, delay: real)
    requires st.numRepetitions == 0
    ensures AppendsOneAtMost(n, StartInitialWait(n, ref, st, delay))
  {
    FirstSendIsOne(Put(n, ref, Waiting(n, st, delay)), ref);
    hide HandleWaitOver;
  }

  lemma RegisteringSendsOnce(n: Node, e: Event)
    requires (e.AddPublisher? || e.AddSubscriber?) && Handle(n, e).Ok?
    ensures AppendsOneAtMost(n, Handle(n, e).value)
  {
    hide StartInitialWait;
    hide RegisterSubscriber;
    hide RegisterStaticPublisher;
    match e {
      case AddPublisher(p, delay) =>
        var r := n.(registry := RegisterPublisher(n.registry, p).value);
        StartingSendsOnce(r, OfferRef(p.serviceId, p.instanceId), NewOffer(p), delay);
      case AddSubscriber(s, i, app, delay) =>
        var r := n.(registry := RegisterSubscriber(n.registry, s, app).value.registry);
        StartingSendsOnce(r, SubRef(s, app.group, i), NEW_SUBSCRIPTION, delay);
    }
  }

  lemma FiringSendsOnce(n: Node, k: nat)
    requires AllSound(n) && k < |n.timers| && n.timers[k].ref in n.states && FireTimer(n, k).Ok?
    ensures AppendsOneAtMost(n, FireTimer(n, k).value)
  {
    var t, m := n.timers[k], Unscheduled(n, k);
    StateOfView(n, t.ref);
    RemoveTimerView(n, k, t.ref);
    assert Sound(n.params, n.now, t.ref, ViewOf(n, t.ref));
    hide AllSound;
    hide ViewOf;
    if t.kind.WaitOver? && !IsSubscriptionAndServiceSeen(m.states[t.ref]) {
      FirstSendIsOne(m, t.ref);
    }
  }

  lemma ReceivingSendsNothing(n: Node, m: Node, e: Event, ref: Ref)
    requires Follows(n, m, e) && e.Receive?
    ensures Times(m.log, ByTimer(ref)) == Times(n.log, ByTimer(ref))
  {
    hide Linked;
    hide Grows;
    hide Times;
    forall k | |n.log| <= k < |m.log|
      ensures m.log[k].cause != ByTimer(ref)
    {
      assert Justified(m, e, m.log[k]);
    }
    NoNewTimes(n.log, m.log, ByTimer(ref));
  }

  lemma OneMoreTime(log: seq<LogEntry>, more: seq<LogEntry>, c: Cause)
    requires log <= more && |more| <= |log| + 1
    ensures |Times(more, c)| <= |Times(log, c)| + 1
  {
    if |log| < |more| {
      assert more == log + [more[|log|]];
      TimesAppend(log, more[|log|], c);
    } else {
      assert more == log;
    }
  }

  /** No event makes a key send twice. */
  lemma EventSendsOnce(n: Node, at: real, e: Event, ref: Ref)
    requires Good(n) && Enabled(n, at, e) && Step(n, at, e).Ok?
    ensures |ViewOf(Step(n, at, e).value, ref).sent| <= |ViewOf(n, ref).sent| + 1
  {
    var a, m := n.(now := at), Step(n, at, e).value;
    EventKeepsGood(n, at, e);
    NothingMoves(n, a);
    MovesSound(n, a);
    hide Good;
    hide AllSound;
    hide Follows;
    hide Moves;
    hide Acceptable;
    match e {
      case AddPublisher(_, _) => RegisteringSendsOnce(a, e);
      case AddSubscriber(_, _, _, _) => RegisteringSendsOnce(a, e);
      case Fire(k) => FiringSendsOnce(a, k);
      case Receive(_, _) => ReceivingSendsNothing(n, m, e, ref);
    }
    if !e.Receive? {
      OneMoreTime(n.log, m.log, ByTimer(ref));
    }
  }

  ghost predicate InMainPhaseUnseen(n: Node, ref: Ref) {
    ref in n.states && n.states[ref].phase.MainPhase? && !IsSubscriptionAndServiceSeen(n.states[ref])
  }

  lemma MainPhaseSends(n: Node, ref: Ref)
    requires Good(n) && InMainPhaseUnseen(n, ref)
    ensures Repetitions(n.params) + 1 <= |ViewOf(n, ref).sent|
  {
    StateOfView(n, ref);
    assert Sound(n.params, n.now, ref, ViewOf(n, ref));
    hide ViewOf;
  }

  lemma NotYetMain(n: Node, m: Node, ref: Ref)
    requires Good(n) && Moves(n, m) && !InMainPhaseUnseen(n, ref) && InMainPhaseUnseen(m, ref)
    ensures |ViewOf(n, ref).sent| <= Repetitions(n.params) && m.params == n.params
  {
    StateOfView(n, ref);
    StateOfView(m, ref);
    assert Sound(n.params, n.now, ref, ViewOf(n, ref));
    assert Advances(ViewOf(n, ref), ViewOf(m, ref));
    hide ViewOf;
  }

  /** The event that brings a key into the main phase, its service not seen, makes the key's (R+1)-th
      send: exactly R+1 sends precede the main phase. */
  lemma MainPhaseStartsAfter(n: Node, at: real, e: Event, ref: Ref)
    requires Reachable(n) && Enabled(n, at, e) && Step(n, at, e).Ok?
    requires !InMainPhaseUnseen(n, ref) && InMainPhaseUnseen(Step(n, at, e).value, ref)
    ensures |ViewOf(Step(n, at, e).value, ref).sent| == Repetitions(n.params) + 1
    ensures |ViewOf(n, ref).sent| == Repetitions(n.params)
  {
    hide Good;
    hide Step;
    hide ViewOf;
    hide InMainPhaseUnseen;
    hide Moves;
    hide Follows;
    hide Acceptable;
    ReachableIsGood(n);
    EventKeepsGood(n, at, e);
    EventSendsOnce(n, at, e, ref);
    var m := Step(n, at, e).value;
    MainPhaseSends(m, ref);
    NotYetMain(n, m, ref);
  }

  lemma {:induction false} OffsetIsMonotone(p: Params, i: nat, j: nat)
    requires 0.0 <= p.baseDelay && i <= j && (j <= Repetitions(p) || 0.0 <= p.cyclicOfferDelay)
    ensures Offset(p, i) <= Offset(p, j)
  {
    if i < j {
      OffsetIsMonotone(p, i, j - 1);
      DelayIsNatural(p, j - 1);
    }
  }

  lemma NextTimerIsAhead(n: Node, ref: Ref)
    requires Good(n) && ref in n.states && !IsSubscriptionAndServiceSeen(n.states[ref])
    requires OffersCyclically(n.params, n.states[ref]) || |ViewOf(n, ref).sent| <= Repetitions(n.params)
    ensures n.now <= n.states[ref].waitOver + Offset(n.params, |ViewOf(n, ref).sent|)
  {
    StateOfView(n, ref);
    var v := ViewOf(n, ref);
    assert Sound(n.params, n.now, ref, v);
    assert Offset(n.params, 0) == 0.0;
    assert |v.timers| == 1 && v.timers[0].due == n.states[ref].waitOver + Offset(n.params, |v.sent|);
    TimersForIsListed(n.timers, ref, v.timers[0]);
  }

  lemma {:induction false} TimersForIsListed(timers: seq<Timer>, ref: Ref, t: Timer)
    requires t in TimersFor(timers, ref)
    ensures t in timers
  {
    if timers != [] && t in TimersFor(timers[..|timers| - 1], ref) {
      TimersForIsListed(timers[..|timers| - 1], ref, t);
    }
  }

  /** No scheduled send is skipped: a key that has not seen its service has made the i-th of its
      sends, on time, as soon as its instant has passed. */
  lemma EveryDueSendIsMade(n: Node, ref: Ref, i: nat)
    requires Reachable(n) && ref in n.states && !IsSubscriptionAndServiceSeen(n.states[ref])
    requires i <= Repetitions(n.params) || OffersCyclically(n.params, n.states[ref])
    requires n.states[ref].waitOver + DueAfter(n.params, i) < n.now
    ensures i < |ViewOf(n, ref).sent|
  {
    ReachableIsGood(n);
    var k := |ViewOf(n, ref).sent|;
    if k <= i {
      DueIsOffset(n.params, i);
      OffsetIsMonotone(n.params, k, i);
      NextTimerIsAhead(n, ref);
      assert false;
    }
  }

  // ------------------------------------------------------------------ flags, requests and acknowledgements

  /** At most one request is outstanding: requests are acknowledgements accepted, plus one exactly
      while `requested`; a subscription is active exactly once one was accepted. */
  lemma RequestsAreConserved(n: Node, ref: Ref)
    requires Reachable(n) && ref in n.states && ref.SubRef?
    ensures var v, st := ViewOf(n, ref), n.states[ref];
            && st.SubscriptionState?
            && v.requests == v.accepts + (if st.requested then 1 else 0)
            && (st.active <==> 0 < v.accepts)
            && (st.requested || st.active ==> st.seen)
            && (st.seen ==> st.phase.MainPhase?)
  {
    ReachableIsSound(n, ref);
  }

  /** Whatever happens next: phases and flags only go forward, sends are only added, and a
      subscription that has seen its service never sends a Find again. */
  lemma {:induction false} OnlyForward(n: Node, more: seq<Input>, ref: Ref)
    requires Reachable(n) && Feasible(n, more) && ref in n.states
    ensures var m := Final(n, more);
            && ref in m.states
            && StateAdvances(n.states[ref], m.states[ref])
            && ViewOf(n, ref).sent <= ViewOf(m, ref).sent
            && (IsSubscriptionAndServiceSeen(n.states[ref]) ==> ViewOf(m, ref).sent == ViewOf(n, ref).sent)
  {
    ReachableIsGood(n);
    RunKeepsGood(n, more);
    var m := Final(n, more);
    assert Advances(ViewOf(n, ref), ViewOf(m, ref));
    StateOfView(n, ref);
    StateOfView(m, ref);
  }

  /** No Offer of an instance has left the host before the instance's initial delay was over. */
  lemma NoEarlyOffer(n: Node, e: LogEntry)
    requires Reachable(n) && e in n.log && e.message.Some? && e.message.value.kind.Offer?
    ensures var o := e.message.value.notification;
            var ref := OfferRef(o.serviceId, o.instanceId);
            ref in n.states && n.states[ref].waitOver <= e.time
  {
    ReachableIsGood(n);
  }

  // ------------------------------------------------------------------ uniqueness

  /** One instance per subscribed service and group, and one offered instance per service, the one
      its publisher names. */
  lemma InstancesAreUnique(n: Node)
    requires Reachable(n)
    ensures forall s, g, i, j :: SubRef(s, g, i) in n.states && SubRef(s, g, j) in n.states ==> i == j
    ensures forall s, i :: OfferRef(s, i) in n.states ==> s in n.registry.pubs && n.registry.pubs[s].app.instanceId == i
    ensures Sane(n.registry)
  {
    ReachableIsGood(n);
    forall s, i | OfferRef(s, i) in n.states
      ensures s in n.registry.pubs && n.registry.pubs[s].app.instanceId == i
    {
      assert LinkedRef(n.registry, OfferRef(s, i), n.states[OfferRef(s, i)]);
    }
  }

  /** What the manager itself throws: a registration is refused exactly for a service published already, an
      application connected already, or incomplete static multicast data; a Subscribe exactly for an
      offered group that is not a SOME/IP one; a timer, a Find, an Offer, and an acknowledgement of
      SOME/IP groups never throw. So the tables never hold a new key before, no connector is empty,
      and no cyclic offer is for a subscription. What the discovery module throws when the manager
      sends is in SomeIpHost. */
  lemma ManagerThrowsExactlyWhen(n: Node, at: real, e: Event)
    requires Reachable(n) && Enabled(n, at, e)
    requires e.Receive? && e.kind.SubscribeAck? ==> e.notification.qosGroups <= SOMEIP_GROUPS
    ensures Step(n, at, e).Ok? <==> Acceptable(n, e)
  {
    ReachableIsGood(n);
    EventKeepsGood(n, at, e);
  }

  /** A further subscriber of a service and group joins the connector there is, whatever instance
      it names: nothing is discovered for it and no subscription is kept for its instance. */
  lemma SecondInstanceOnlyJoins(n: Node, s: int, instance: int, app: Subscriber, delay: real)
    requires Reachable(n) && 0.0 <= delay && HasConnector(n.registry, s, app.group)
    ensures RegisterSubscriberService(n, s, instance, app, delay).Ok? <==> !IsConnected(n, s, app)
    ensures !IsConnected(n, s, app) ==>
              var m := RegisterSubscriberService(n, s, instance, app, delay).value;
              && m.states == n.states && m.timers == n.timers && m.log == n.log
              && m.registry.pubs == n.registry.pubs && IsConnected(m, s, app)
  {
    ReachableIsGood(n);
    CreatedExactlyWithout(n, s, app);
    if !IsConnected(n, s, app) {
      SubscriberGrows(n.registry, s, app);
      SubscriberKeepsPublishers(n.registry, s, app);
    }
    hide RegisterSubscriber;
  }

  lemma SubscriberKeepsPublishers(r: Registry, s: int, app: Subscriber)
    requires RegisterSubscriber(r, s, app).Ok?
    ensures RegisterSubscriber(r, s, app).value.registry.pubs == r.pubs
  {
    hide Search;
  }

  // ------------------------------------------------------------------ a lost acknowledgement

  /** The offer is for this key: it names the key's group, and the key is there and asks for the
      offered instance or for any. */
  ghost predicate IsOffered(n: Node, o: Notification, ref: Ref) {
    ref.SubRef? && ref.group in o.qosGroups && IsKeyFor(o, ref.group, ref) && ref in n.states
  }

  lemma OfferCounts(n: Node, o: Notification, ref: Ref)
    requires Linked(n) && ref.SubRef?
    ensures SubscribeIfPending(n, o).Ok?
    ensures ViewOf(SubscribeIfPending(n, o).value, ref).requests
         == ViewOf(n, ref).requests + OneIf(IsOffered(n, o, ref) && !IsRequested(n, ref))
  {
    hide Linked;
    hide ViewOf;
    hide OfferForGroups;
    InEnumOrderVisitsTheSet(o.qosGroups);
    GroupsCount(n, o, InEnumOrder(o.qosGroups), ref);
    if ref in n.states {
      KeyIsSubscription(n, ref);
    }
  }

  lemma CountedIsRequested(n: Node, m: Node, ref: Ref)
    requires Good(n) && Good(m) && ref in n.states && ref in m.states && ref.SubRef?
    requires IsRequested(n, ref) ==> IsRequested(m, ref)
    requires Times(m.log, AcceptFor(ref)) == Times(n.log, AcceptFor(ref))
    requires !IsRequested(n, ref) ==> ViewOf(m, ref).requests == ViewOf(n, ref).requests + 1
    ensures IsRequested(m, ref)
  {
    StateOfView(n, ref);
    StateOfView(m, ref);
    assert Sound(n.params, n.now, ref, ViewOf(n, ref));
    assert Sound(m.params, m.now, ref, ViewOf(m, ref));
    hide Good;
  }

  lemma OfferCountsAt(n: Node, at: real, o: Notification, ref: Ref)
    requires Good(n) && ref.SubRef?
    ensures Step(n, at, Receive(Offer, o)).Ok?
    ensures ViewOf(Step(n, at, Receive(Offer, o)).value, ref).requests
         == ViewOf(n, ref).requests + OneIf(IsOffered(n, o, ref) && !IsRequested(n, ref))
  {
    var a := n.(now := at);
    assert Linked(a) && ViewOf(a, ref) == ViewOf(n, ref);
    assert IsOffered(a, o, ref) == IsOffered(n, o, ref) && IsRequested(a, ref) == IsRequested(n, ref);
    hide SubscribeIfPending;
    hide Good;
    hide Linked;
    hide ViewOf;
    hide IsOffered;
    hide IsRequested;
    OfferCounts(a, o, ref);
  }

  lemma OfferedStays(n: Node, m: Node, o: Notification, ref: Ref, e: Event)
    requires IsOffered(n, o, ref) && Follows(n, m, e)
    ensures ref in n.states && ref in m.states
  {
    hide Linked;
    hide Grows;
    hide OnlyAcksActivate;
    hide Emits;
  }

  /** An offer makes the host subscribe for a key exactly when the offer is for it and no request of
      it is unanswered, and then once. A request that is unanswered, however long, keeps every
      further offer from triggering a subscription. */
  lemma OfferTriggersExactlyWhen(n: Node, at: real, o: Notification, ref: Ref)
    requires Reachable(n) && Enabled(n, at, Receive(Offer, o)) && ref.SubRef?
    ensures Step(n, at, Receive(Offer, o)).Ok?
    ensures var m := Step(n, at, Receive(Offer, o)).value;
            && ViewOf(n, ref).requests <= ViewOf(m, ref).requests <= ViewOf(n, ref).requests + 1
            && (ViewOf(m, ref).requests == ViewOf(n, ref).requests + 1
                <==> IsOffered(n, o, ref) && !IsRequested(n, ref))
            && (IsOffered(n, o, ref) ==> IsRequested(m, ref))
  {
    hide SubscribeIfPending;
    hide Good;
    hide Step;
    hide Enabled;
    hide Linked;
    hide ViewOf;
    hide IsOffered;
    hide IsRequested;
    hide Moves;
    hide Follows;
    hide Acceptable;
    ReachableIsGood(n);
    var e := Receive(Offer, o);
    OfferCountsAt(n, at, o, ref);
    EventKeepsGood(n, at, e);
    var m := Step(n, at, e).value;
    WithoutAckNothingIsAccepted(n, m, ref, e);
    if IsOffered(n, o, ref) {
      OfferedStays(n, m, o, ref, e);
      CountedIsRequested(n, m, ref);
    }
  }

  /** A host that waits for a service it has subscribed to a second ago at most. */
  lemma FreshSubscription(address: Address, params: Params, s: int, instance: int, app: Subscriber)
    requires !app.isStatic
    ensures var e, ref := AddSubscriber(s, instance, app, 1.0), SubRef(s, app.group, instance);
            var m := Step(NewNode(address, params), 0.0, e);
            && Enabled(NewNode(address, params), 0.0, e) && m.Ok?
            && m.value.now == 0.0 && m.value.timers == [Timer(WaitOver, ref, 1.0)]
            && m.value.log == [] && ref in m.value.states && !IsRequested(m.value, ref)
  {
    var r := RegisterSubscriber(NOTHING, s, app);
    assert r.Ok? && r.value.created;
  }

  lemma {:induction false} FeasibleOn(n: Node, run: seq<Input>, x: Input)
    requires Feasible(n, run) && Enabled(Final(n, run), x.at, x.event) && Step(Final(n, run), x.at, x.event).Ok?
    ensures Feasible(n, run + [x]) && Final(n, run + [x]) == Step(Final(n, run), x.at, x.event).value
    decreases |run|
  {
    if run == [] {
      assert run + [x] == [x] && [x][1..] == [];
    } else {
      assert (run + [x])[0] == run[0] && (run + [x])[1..] == run[1..] + [x];
      FeasibleOn(Step(n, run[0].at, run[0].event).value, run[1..], x);
    }
  }

  lemma OfferedOnceMore(address: Address, params: Params, run: seq<Input>, at: real, o: Notification, ref: Ref)
    requires 0.0 <= params.baseDelay && Feasible(NewNode(address, params), run)
    requires var n := Final(NewNode(address, params), run);
             ref in n.states && n.now <= at && forall t :: t in n.timers ==> at <= t.due
    requires ref.SubRef? && ref == SubRef(o.serviceId, ref.group, o.instanceId) && ref.group in o.qosGroups
    ensures var again := run + [Input(at, Receive(Offer, o))];
            && Feasible(NewNode(address, params), again)
            && var n, m := Final(NewNode(address, params), run), Final(NewNode(address, params), again);
            && m.now == at && m.timers == n.timers && IsOffered(n, o, ref) && IsRequested(m, ref)
            && ViewOf(m, ref).requests == ViewOf(n, ref).requests + OneIf(!IsRequested(n, ref))
  {
    var n := Final(NewNode(address, params), run);
    assert Reachable(n);
    OfferTriggersExactlyWhen(n, at, o, ref);
    FeasibleOn(NewNode(address, params), run, Input(at, Receive(Offer, o)));
    OffersKeepTimers(n.(now := at), o, InEnumOrder(o.qosGroups));
    hide OfferForGroups;
    hide Feasible;
    hide Final;
    hide ViewOf;
    hide IsRequested;
  }

  /** A wedged host: it registers a subscriber, is offered what it waits for and asks; the answer is
      lost; and when it is offered the same again it does not ask. */
  lemma OfferedTwiceAsksOnce(address: Address, params: Params, app: Subscriber, o: Notification)
    requires 0.0 <= params.baseDelay && !app.isStatic && o.qosGroups == {app.group}
    ensures var ref := SubRef(o.serviceId, app.group, o.instanceId);
            var once := [Input(0.0, AddSubscriber(o.serviceId, o.instanceId, app, 1.0)), Input(0.5, Receive(Offer, o))];
            var twice := once + [Input(0.75, Receive(Offer, o))];
            && Feasible(NewNode(address, params), once) && Feasible(NewNode(address, params), twice)
            && var n, m := Final(NewNode(address, params), once), Final(NewNode(address, params), twice);
            && IsOffered(n, o, ref) && IsRequested(n, ref) && IsRequested(m, ref)
            && ViewOf(n, ref).requests == 1 && ViewOf(m, ref).requests == 1
  {
    var n0, ref, e := NewNode(address, params), SubRef(o.serviceId, app.group, o.instanceId), Receive(Offer, o);
    var register := Input(0.0, AddSubscriber(o.serviceId, o.instanceId, app, 1.0));
    FreshSubscription(address, params, o.serviceId, o.instanceId, app);
    FeasibleOn(n0, [], register);
    assert [] + [register] == [register];
    var once := [register] + [Input(0.5, e)];
    var n1 := Final(n0, [register]);
    assert ViewOf(n1, ref).requests == 0;
    hide Feasible;
    hide Final;
    hide ViewOf;
    hide IsRequested;
    hide IsOffered;
    OfferedOnceMore(address, params, [register], 0.5, o, ref);
    assert ref in Final(n0, once).states by { RequestedHasState(Final(n0, once), ref); }
    OfferedOnceMore(address, params, once, 0.75, o, ref);
    assert once == [register, Input(0.5, e)];
  }

  lemma RequestedHasState(n: Node, ref: Ref)
    requires IsRequested(n, ref)
    ensures ref in n.states
  {
  }

  lemma WithoutAckNothingIsAccepted(n: Node, m: Node, ref: Ref, e: Event)
    requires Follows(n, m, e) && ref.SubRef? && !ByAck(e, ref)
    ensures Times(m.log, AcceptFor(ref)) == Times(n.log, AcceptFor(ref))
    ensures IsRequested(n, ref) ==> IsRequested(m, ref)
  {
    hide Linked;
    hide Grows;
    hide Times;
    forall k | |n.log| <= k < |m.log|
      ensures m.log[k].cause != AcceptFor(ref)
    {
      assert Justified(m, e, m.log[k]);
    }
    NoNewTimes(n.log, m.log, AcceptFor(ref));
  }

  lemma WedgedStep(n: Node, at: real, e: Event, ref: Ref)
    requires Good(n) && Enabled(n, at, e) && Step(n, at, e).Ok?
    requires ref.SubRef? && !ByAck(e, ref)
    ensures var m := Step(n, at, e).value;
            && Good(m)
            && Times(m.log, AcceptFor(ref)) == Times(n.log, AcceptFor(ref))
            && (IsRequested(n, ref) ==> IsRequested(m, ref))
  {
    EventKeepsGood(n, at, e);
    hide Good;
    hide Enabled;
    hide Step;
    hide Follows;
    hide Moves;
    hide Acceptable;
    WithoutAckNothingIsAccepted(n, Step(n, at, e).value, ref, e);
  }

  lemma {:induction false} WedgedThroughout(n: Node, more: seq<Input>, ref: Ref)
    requires Good(n) && Feasible(n, more) && ref.SubRef? && IsRequested(n, ref)
    requires forall i :: 0 <= i < |more| ==> !ByAck(more[i].event, ref)
    ensures IsRequested(Final(n, more), ref)
    ensures Times(Final(n, more).log, AcceptFor(ref)) == Times(n.log, AcceptFor(ref))
    decreases |more|
  {
    hide Good;
    hide Step;
    hide Times;
    hide IsRequested;
    hide ByAck;
    if more != [] {
      assert !ByAck(more[0].event, ref);
      WedgedStep(n, more[0].at, more[0].event, ref);
      WedgedThroughout(Step(n, more[0].at, more[0].event).value, more[1..], ref);
    }
  }

  lemma RequestsBalance(n: Node, ref: Ref)
    requires Good(n) && IsRequested(n, ref) && ref.SubRef?
    ensures ViewOf(n, ref).requests == |Times(n.log, AcceptFor(ref))| + 1
  {
    StateOfView(n, ref);
    assert Sound(n.params, n.now, ref, ViewOf(n, ref));
  }

  /** Once requested, a subscription that gets no acknowledgement never asks again, however many
      offers arrive: losing one Subscribe or one SubscribeAck wedges it. */
  lemma {:induction false} LostAckWedges(n: Node, more: seq<Input>, ref: Ref)
    requires Reachable(n) && Feasible(n, more) && ref.SubRef? && IsRequested(n, ref)
    requires forall i :: 0 <= i < |more| ==> !ByAck(more[i].event, ref)
    ensures IsRequested(Final(n, more), ref)
    ensures ViewOf(Final(n, more), ref).requests == ViewOf(n, ref).requests
  {
    hide Good;
    hide Feasible;
    hide Final;
    hide ViewOf;
    hide Reachable;
    hide ByAck;
    hide IsRequested;
    hide Leads;
    ReachableIsGood(n);
    RunKeepsGood(n, more);
    WedgedThroughout(n, more, ref);
    RequestsBalance(n, ref);
    RequestsBalance(Final(n, more), ref);
  }

  /** A subscriber endpoint, once created, stays the connector's endpoint for good. */
  lemma {:induction false} SubscriberEndpointIsForGood(n: Node, more: seq<Input>, s: int, i: nat)
    requires Reachable(n) && Feasible(n, more)
    requires IsPlace(n.registry.subs, s, i) && n.registry.subs[s][i].endpoint.Some?
    ensures var r := Final(n, more).registry;
            IsPlace(r.subs, s, i) && r.subs[s][i].endpoint == n.registry.subs[s][i].endpoint
  {
    ReachableIsGood(n);
    RunKeepsGood(n, more);
  }
}
