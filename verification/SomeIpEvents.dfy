/** Every event a host handles keeps its subscriptions and offers sound and moves them forward. */
module SomeIpEvents {
  import opened Base
  import opened SdHeader
  import opened SdCodec
  import opened Connectors
  import opened SomeIpNode
  import opened SomeIpHistory
  import opened SomeIpSchedule

  // ------------------------------------------------------------------ a key is created

  lemma KeptAfter(n: Node, m: Node, k: Node, ref: Ref)
    requires m.params == n.params && m.now == n.now
    requires Others(n, m, ref) && Advances(ViewOf(n, ref), ViewOf(m, ref)) && Kept(m, k, ref)
    ensures Kept(n, k, ref)
  {
    hide ViewOf;
    hide Sound;
    forall r: Ref | r != ref
      ensures ViewOf(k, r) == ViewOf(n, r)
    {
      assert ViewOf(k, r) == ViewOf(m, r);
    }
    AdvancesOnAndOn(ViewOf(n, ref), ViewOf(m, ref), ViewOf(k, ref));
  }

  ghost predicate Pristine(ref: Ref, st: SdState) {
    && st.numRepetitions == 0
    && (ref.SubRef? <==> st.SubscriptionState?)
    && (st.SubscriptionState? ==> !st.seen && !st.requested && !st.active)
  }

  function Waiting(n: Node, st: SdState, delay: real): SdState {
    st.(phase := InitialWait, initialDelay := delay, waitOver := n.now + delay)
  }

  lemma WaitingViews(n: Node, ref: Ref, st: SdState, delay: real)
    requires AllSound(n) && ref !in n.states && Pristine(ref, st)
    ensures var m := Put(n, ref, Waiting(n, st, delay));
            && Others(n, m, ref) && Unused(ViewOf(n, ref))
            && ViewOf(m, ref) == View(Some(Waiting(n, st, delay)), [], [], 0, 0)
            && Advances(ViewOf(n, ref), ViewOf(m, ref))
  {
    var st' := Waiting(n, st, delay);
    StateOfView(n, ref);
    forall r: Ref
      ensures ViewOf(Put(n, ref, st'), r) == if r == ref then ViewOf(n, r).(state := Some(st')) else ViewOf(n, r)
    {
      PutView(n, ref, st', r);
    }
    assert Sound(n.params, n.now, ref, ViewOf(n, ref));
  }

  lemma FirstSendIsDue(m: Node, ref: Ref, st: SdState)
    requires Pristine(ref, st) && st.phase.InitialWait? && st.waitOver == m.now
    requires ViewOf(m, ref) == View(Some(st), [], [], 0, 0)
    ensures FirstSendDue(ref, ViewOf(m, ref), m.now)
  {
    hide ViewOf;
  }

  lemma WaitingKeeps(n: Node, ref: Ref, st: SdState, delay: real)
    requires AllSound(n) && ref !in n.states && Pristine(ref, st) && 0.0 <= delay
    ensures Kept(n, Schedule(Put(n, ref, Waiting(n, st, delay)), WaitOver, ref, delay), ref)
  {
    hide ViewOf;
    hide AllSound;
    hide Put;
    var m := Put(n, ref, Waiting(n, st, delay));
    PutChangesOneState(n, ref, Waiting(n, st, delay));
    WaitingViews(n, ref, st, delay);
    forall r: Ref
      ensures ViewOf(Schedule(m, WaitOver, ref, delay), r)
           == if r == ref then ViewOf(m, r).(timers := [Timer(WaitOver, ref, n.now + delay)]) else ViewOf(m, r)
    {
      ScheduleView(m, WaitOver, ref, delay, r);
    }
  }

  lemma PutChangesOneState(n: Node, ref: Ref, st: SdState)
    ensures Put(n, ref, st) == n.(states := Put(n, ref, st).states)
  {
  }

  /** A new subscription or offer waits for its initial delay, or sends at once without one. */
  lemma StartingKeeps(n: Node, ref: Ref, st: SdState, delay: real)
    requires AllSound(n) && ref !in n.states && Pristine(ref, st) && 0.0 <= delay
    ensures Kept(n, StartInitialWait(n, ref, st, delay), ref)
  {
    hide ViewOf;
    hide Kept;
    hide HandleWaitOver;
    var m := Put(n, ref, Waiting(n, st, delay));
    WaitingViews(n, ref, st, delay);
    if delay == 0.0 {
      hide Waiting;
      FirstSendIsDue(m, ref, Waiting(n, st, delay));
      WaitOverKeeps(m, ref);
      KeptAfter(n, m, HandleWaitOver(m, ref), ref);
    } else {
      WaitingKeeps(n, ref, st, delay);
    }
  }

  // ------------------------------------------------------------------ a key is asked for or accepted

  function Requested(v: View): View
    requires v.state.Some? && v.state.value.SubscriptionState?
  {
    v.(state := Some(v.state.value.(phase := MainPhase, seen := true, requested := true)), requests := v.requests + 1)
  }

  lemma RequestedIsSound(p: Params, now: real, ref: Ref, v: View)
    requires Sound(p, now, ref, v)
    requires v.state.Some? && v.state.value.SubscriptionState? && !v.state.value.requested
    ensures Sound(p, now, ref, Requested(v)) && Advances(v, Requested(v))
  {
  }

  lemma RequestView(n: Node, ref: Ref, o: Notification, g: QoSGroup, c: SubConnector, r: Ref)
    requires c.apps != [] && ref in n.states && n.states[ref].SubscriptionState?
    ensures ViewOf(n, ref).state == Some(n.states[ref])
    ensures ViewOf(RequestSubscription(n, ref, o, g, c), r)
         == if r == ref then Requested(ViewOf(n, r)) else ViewOf(n, r)
  {
    var st := n.states[ref].(phase := MainPhase, seen := true, requested := true);
    StateOfView(n, ref);
    hide ViewOf;
    hide Put;
    PutView(n, ref, st, r);
    SendView(Put(n, ref, st), RequestFor(ref), Subscribe, Subscription(o, g, c), r);
  }

  lemma RequestKeeps(n: Node, ref: Ref, o: Notification, g: QoSGroup, c: SubConnector)
    requires AllSound(n) && c.apps != []
    requires ref in n.states && n.states[ref].SubscriptionState? && !n.states[ref].requested
    ensures Kept(n, RequestSubscription(n, ref, o, g, c), ref)
  {
    var m := RequestSubscription(n, ref, o, g, c);
    assert m.params == n.params && m.now == n.now;
    StateOfView(n, ref);
    assert Sound(n.params, n.now, ref, ViewOf(n, ref));
    hide RequestSubscription;
    hide ViewOf;
    hide Requested;
    forall r: Ref
      ensures ViewOf(m, r) == if r == ref then Requested(ViewOf(n, r)) else ViewOf(n, r)
    {
      RequestView(n, ref, o, g, c, r);
    }
    RequestedIsSound(n.params, n.now, ref, ViewOf(n, ref));
    hide Sound;
  }

  function Accepted(v: View): View
    requires v.state.Some? && v.state.value.SubscriptionState?
  {
    v.(state := Some(v.state.value.(active := true, requested := false)), accepts := v.accepts + 1)
  }

  lemma AcceptedIsSound(p: Params, now: real, ref: Ref, v: View)
    requires Sound(p, now, ref, v)
    requires v.state.Some? && v.state.value.SubscriptionState? && v.state.value.requested
    ensures Sound(p, now, ref, Accepted(v)) && Advances(v, Accepted(v))
  {
  }

  lemma SoundAt(n: Node, ref: Ref)
    requires AllSound(n)
    ensures Sound(n.params, n.now, ref, ViewOf(n, ref))
  {
  }

  lemma AcceptView(n: Node, ref: Ref, r: Ref)
    requires ref.SubRef? && ref in n.states && n.states[ref].SubscriptionState? && n.states[ref].requested
    requires AcceptAck(n, ref).Ok?
    ensures var k := AcceptAck(n, ref).value;
            && k.params == n.params && k.now == n.now && ViewOf(n, ref).state == Some(n.states[ref])
            && ViewOf(k, r) == if r == ref then Accepted(ViewOf(n, r)) else ViewOf(n, r)
  {
    var st := n.states[ref].(active := true, requested := false);
    var m := if n.states[ref].active then n else CreateSubscriberEndpoint(n, ref.service, ref.group).value;
    var e := LogEntry(m.now, AcceptFor(ref), None);
    StateOfView(n, ref);
    assert ViewOf(m, r) == ViewOf(n, r);
    hide ViewOf;
    PutView(m, ref, st, r);
    LogView(Put(m, ref, st), e, r);
  }

  lemma AcceptKeeps(n: Node, ref: Ref)
    requires AllSound(n) && ref.SubRef?
    requires AcceptAck(n, ref).Ok?
    ensures Moves(n, AcceptAck(n, ref).value)
  {
    hide AllSound;
    hide Sound;
    hide ViewOf;
    var k := AcceptAck(n, ref).value;
    if ref !in n.states || !n.states[ref].SubscriptionState? || !n.states[ref].requested {
      NothingMoves(n, n);
    } else {
      AcceptView(n, ref, ref);
      forall r: Ref
        ensures ViewOf(k, r) == if r == ref then Accepted(ViewOf(n, r)) else ViewOf(n, r)
      {
        AcceptView(n, ref, r);
      }
      SoundAt(n, ref);
      hide AcceptAck;
      AcceptedIsSound(n.params, n.now, ref, ViewOf(n, ref));
      KeptMoves(n, k, ref);
    }
  }

  // ------------------------------------------------------------------ messages arrive

  lemma SameViewsMove(n: Node, m: Node)
    requires AllSound(n) && m.params == n.params && m.now == n.now
    requires forall r: Ref :: ViewOf(m, r) == ViewOf(n, r)
    ensures Moves(n, m)
  {
    hide ViewOf;
    hide Sound;
    forall r: Ref
      ensures Sound(m.params, m.now, r, ViewOf(m, r)) && Advances(ViewOf(n, r), ViewOf(m, r))
    {
      assert Sound(n.params, n.now, r, ViewOf(n, r)) && ViewOf(m, r) == ViewOf(n, r);
    }
  }

  lemma ReplyMoves(n: Node, kind: EntryType, note: Notification)
    requires AllSound(n)
    ensures Moves(n, Send(n, Reply, kind, note))
  {
    var m := Send(n, Reply, kind, note);
    hide AllSound;
    hide ViewOf;
    forall r: Ref
      ensures ViewOf(m, r) == ViewOf(n, r)
    {
      SendView(n, Reply, kind, note, r);
    }
    SameViewsMove(n, m);
  }

  lemma AnswerMoves(n: Node, ref: Ref, to: Address)
    requires AllSound(n)
    ensures Moves(n, AnswerFind(n, ref, to))
  {
    hide Moves;
    hide AllSound;
    NothingMoves(n, n);
    if ref in n.states && n.states[ref].OfferState? {
      ReplyMoves(n, Offer, n.states[ref].offering.(address := to));
    }
  }

  lemma {:induction false} AnswerAllMoves(n: Node, s: int, instance: nat, to: Address)
    requires AllSound(n)
    ensures Moves(n, AnswerFindAll(n, s, instance, to))
    decreases 0x1_0000 - instance
  {
    if 0xFFFF < instance {
      NothingMoves(n, n);
    } else {
      var m := AnswerFind(n, OfferRef(s, instance), to);
      AnswerMoves(n, OfferRef(s, instance), to);
      hide AnswerFind;
      assert AllSound(m);
      AnswerAllMoves(m, s, instance + 1, to);
      MovesOn(n, m, AnswerFindAll(m, s, instance + 1, to));
    }
  }

  lemma FindMoves(n: Node, q: Notification)
    requires AllSound(n)
    ensures Moves(n, LookForService(n, q))
  {
    hide Moves;
    hide AllSound;
    NothingMoves(n, n);
    AnswerMoves(n, OfferRef(q.serviceId, q.instanceId), q.address);
    AnswerAllMoves(n, q.serviceId, 0, q.address);
  }

  lemma OfferForGroupMoves(n: Node, o: Notification, g: QoSGroup)
    requires AllSound(n) && OfferForGroup(n, o, g).Ok?
    ensures Moves(n, OfferForGroup(n, o, g).value)
  {
    var m := OfferForGroup(n, o, g).value;
    if m == n {
      NothingMoves(n, n);
    } else {
      var ref := PendingSubscription(n, o.serviceId, g, o.instanceId).value;
      var conns := SubsOf(n.registry, o.serviceId);
      var c := conns[Search(conns, g).value.value];
      assert m == RequestSubscription(n, ref, o, g, c);
      hide RequestSubscription;
      RequestKeeps(n, ref, o, g, c);
      KeptMoves(n, m, ref);
    }
  }

  lemma {:induction false} OfferForGroupsMoves(n: Node, o: Notification, groups: seq<QoSGroup>)
    requires AllSound(n) && OfferForGroups(n, o, groups).Ok?
    ensures Moves(n, OfferForGroups(n, o, groups).value)
    decreases |groups|
  {
    if groups == [] {
      NothingMoves(n, n);
    } else {
      var m := OfferForGroup(n, o, groups[0]).value;
      OfferForGroupMoves(n, o, groups[0]);
      assert AllSound(m);
      OfferForGroupsMoves(m, o, groups[1..]);
      MovesOn(n, m, OfferForGroups(m, o, groups[1..]).value);
    }
  }

  lemma MarkingMoves(n: Node, ref: Ref)
    requires AllSound(n)
    ensures Moves(n, MarkSubscribed(n, ref))
  {
    var m := MarkSubscribed(n, ref);
    if m == n {
      NothingMoves(n, n);
    } else {
      var st := n.states[ref].(hasSubscription := true);
      StateOfView(n, ref);
      assert Sound(n.params, n.now, ref, ViewOf(n, ref));
      forall r: Ref
        ensures ViewOf(m, r) == if r == ref then ViewOf(n, r).(state := Some(st)) else ViewOf(n, r)
      {
        PutView(n, ref, st, r);
      }
      hide ViewOf;
      KeptMoves(n, m, ref);
    }
  }

  lemma AcknowledgingMoves(n: Node, q: Notification)
    requires AllSound(n) && AcknowledgeSubscription(n, q).Ok?
    ensures Moves(n, AcknowledgeSubscription(n, q).value)
  {
    hide AllSound;
    hide Moves;
    var k := AcknowledgeSubscription(n, q).value;
    NothingMoves(n, n);
    if k != n {
      var p := n.registry.pubs[q.serviceId].app;
      var a := n.(registry := ServeSubscription(n.registry, q).value);
      var b := MarkSubscribed(a, OfferRef(p.serviceId, p.instanceId));
      NothingMoves(n, a);
      MovesSound(n, a);
      MarkingMoves(a, OfferRef(p.serviceId, p.instanceId));
      MovesSound(a, b);
      ReplyMoves(b, SubscribeAck, Acknowledgement(q, p));
      MovesOn(n, a, b);
      MovesOn(n, b, k);
    }
  }

  lemma MovesSound(n: Node, m: Node)
    requires Moves(n, m)
    ensures AllSound(m)
  {
  }

  lemma {:induction false} AckForGroupsMoves(n: Node, a: Notification, groups: seq<QoSGroup>)
    requires AllSound(n) && AckForGroups(n, a, groups).Ok?
    ensures Moves(n, AckForGroups(n, a, groups).value)
    decreases |groups|
  {
    hide AllSound;
    hide Moves;
    hide AcceptAck;
    if groups == [] {
      NothingMoves(n, n);
    } else {
      var one, any := SubRef(a.serviceId, groups[0], a.instanceId), SubRef(a.serviceId, groups[0], ANY_INSTANCE);
      var m := AcceptAck(n, one).value;
      var k := AcceptAck(m, any).value;
      AcceptKeeps(n, one);
      MovesSound(n, m);
      AcceptKeeps(m, any);
      MovesSound(m, k);
      AckForGroupsMoves(k, a, groups[1..]);
      MovesOn(n, m, k);
      MovesOn(n, k, AckForGroups(k, a, groups[1..]).value);
    }
  }

  // ------------------------------------------------------------------ applications register

  lemma PublisherMoves(n: Node, p: Publisher, delay: real)
    requires AllSound(n) && 0.0 <= delay && RegisterPublisherService(n, p, delay).Ok?
    ensures Moves(n, RegisterPublisherService(n, p, delay).value)
  {
    var m := RegisterPublisherService(n, p, delay).value;
    hide StartInitialWait;
    if p.isStatic {
      NothingMoves(n, m);
    } else {
      var a, ref := n.(registry := RegisterPublisher(n.registry, p).value), OfferRef(p.serviceId, p.instanceId);
      NothingMoves(n, a);
      StartingKeeps(a, ref, NewOffer(p), delay);
      KeptMoves(a, m, ref);
      MovesOn(n, a, m);
    }
  }

  lemma SubscriberMoves(n: Node, s: int, instance: int, app: Subscriber, delay: real)
    requires AllSound(n) && 0.0 <= delay && RegisterSubscriberService(n, s, instance, app, delay).Ok?
    ensures Moves(n, RegisterSubscriberService(n, s, instance, app, delay).value)
  {
    var m := RegisterSubscriberService(n, s, instance, app, delay).value;
    var reg := RegisterSubscriber(n.registry, s, app).value;
    var a, ref := n.(registry := reg.registry), SubRef(s, app.group, instance);
    hide StartInitialWait;
    hide RegisterSubscriber;
    NothingMoves(n, a);
    if reg.created {
      if app.isStatic {
        NothingMoves(n, m);
      } else {
        StartingKeeps(a, ref, NEW_SUBSCRIPTION, delay);
        KeptMoves(a, m, ref);
        MovesOn(n, a, m);
      }
    }
  }

  // ------------------------------------------------------------------ any event

  lemma EventMoves(n: Node, at: real, e: Event)
    requires AllSound(n) && Enabled(n, at, e) && Step(n, at, e).Ok?
    ensures Moves(n, Step(n, at, e).value)
  {
    var a, m := n.(now := at), Step(n, at, e).value;
    NothingMoves(n, a);
    MovesSound(n, a);
    assert Handle(a, e) == Ok(m);
    HandlingMoves(a, e);
    hide Moves;
    MovesOn(n, a, m);
  }

  lemma HandlingMoves(n: Node, e: Event)
    requires AllSound(n) && Enabled(n, n.now, e) && Handle(n, e).Ok?
    ensures Moves(n, Handle(n, e).value)
  {
    hide AllSound;
    hide Moves;
    match e {
      case AddPublisher(p, delay) => PublisherMoves(n, p, delay);
      case AddSubscriber(s, i, app, delay) => SubscriberMoves(n, s, i, app, delay);
      case Fire(k) => FiringMoves(n, k);
      case Receive(Find, q) => FindMoves(n, q);
      case Receive(Offer, q) => OfferForGroupsMoves(n, q, InEnumOrder(q.qosGroups));
      case Receive(Subscribe, q) => AcknowledgingMoves(n, q);
      case Receive(SubscribeAck, q) => AckForGroupsMoves(n, q, InEnumOrder(q.qosGroups));
    }
  }
}
