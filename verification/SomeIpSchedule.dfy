/** The three phases of a subscription or offer: when it sends, and when it stops. */
module SomeIpSchedule {
  import opened Base
  import opened SdHeader
  import opened SdCodec
  import opened SomeIpNode
  import opened SomeIpHistory

  /** How long after the first send the i-th following one is due: the delay doubles with every
      repetition, and then is the cyclic delay. */
  function Offset(p: Params, i: nat): real {
    if i == 0 then 0.0
    else if i <= p.repetitionsMax then Offset(p, i - 1) + RepetitionDelay(p, i - 1)
    else Offset(p, i - 1) + p.cyclicOfferDelay
  }

  function Repetitions(p: Params): nat {
    if p.repetitionsMax < 0 then 0 else p.repetitionsMax
  }

  lemma DoublingSum(b: real, x: real)
    ensures b * (x - 1.0) + b * x == b * (2.0 * x - 1.0)
  {
  }

  lemma OneMoreCycle(c: real, k: int)
    ensures k as real * c + c == (k + 1) as real * c
  {
    assert (k + 1) as real == k as real + 1.0;
  }

  lemma {:induction false} RepeatingOffset(p: Params, i: nat)
    requires i <= Repetitions(p)
    ensures Offset(p, i) == p.baseDelay * (Pow2(i) as real - 1.0)
  {
    if i == 0 {
      assert p.baseDelay * 0.0 == 0.0;
    } else {
      RepeatingOffset(p, i - 1);
      var x := Pow2(i - 1) as real;
      DoublingSum(p.baseDelay, x);
      assert Pow2(i) as real == 2.0 * x;
      assert Offset(p, i) == p.baseDelay * (x - 1.0) + p.baseDelay * x;
    }
  }

  lemma {:induction false} CyclicOffset(p: Params, k: nat)
    ensures Offset(p, Repetitions(p) + k) == Offset(p, Repetitions(p)) + k as real * p.cyclicOfferDelay
  {
    if k == 0 {
      assert 0 as real * p.cyclicOfferDelay == 0.0;
    } else {
      CyclicOffset(p, k - 1);
      OneMoreCycle(p.cyclicOfferDelay, k - 1);
    }
  }

  /** The i-th send after the first comes after `baseDelay * (2^i - 1)` while repeating, and then
      once per cyclic delay. */
  lemma OffsetClosedForm(p: Params, i: nat)
    ensures i <= Repetitions(p) ==> Offset(p, i) == p.baseDelay * (Pow2(i) as real - 1.0)
    ensures Repetitions(p) <= i ==>
              Offset(p, i) == p.baseDelay * (Pow2(Repetitions(p)) as real - 1.0)
                            + (i - Repetitions(p)) as real * p.cyclicOfferDelay
  {
    hide Offset;
    hide Pow2;
    if i <= Repetitions(p) {
      RepeatingOffset(p, i);
    }
    if Repetitions(p) <= i {
      RepeatingOffset(p, Repetitions(p));
      CyclicOffset(p, i - Repetitions(p));
    }
  }

  // ------------------------------------------------------------------ being on schedule

  ghost predicate SentOnTime(p: Params, st: SdState, sent: seq<real>) {
    forall i :: 0 <= i < |sent| ==> sent[i] == st.waitOver + Offset(p, i)
  }

  /** The single pending timer, or its absence, that each phase calls for. */
  ghost predicate InPhase(p: Params, ref: Ref, st: SdState, sends: nat, timers: seq<Timer>) {
    if IsSubscriptionAndServiceSeen(st) then
      && st.phase.MainPhase?
      && sends <= Repetitions(p) + 1
      && |timers| <= 1
      && forall t :: t in timers ==> !t.kind.CyclicOffer?
    else
      match st.phase
      case InitialWait =>
        sends == 0 && st.numRepetitions == 0 && timers == [Timer(WaitOver, ref, st.waitOver)]
      case Repetition =>
        && sends == st.numRepetitions
        && 1 <= st.numRepetitions <= Repetitions(p)
        && timers == [Timer(NextRepetition, ref, st.waitOver + Offset(p, sends))]
      case MainPhase =>
        if st.OfferState? && 0.0 < p.cyclicOfferDelay then
          && Repetitions(p) + 1 <= sends
          && timers == [Timer(CyclicOffer, ref, st.waitOver + Offset(p, sends))]
        else
          sends == Repetitions(p) + 1 && timers == []
  }

  ghost predicate Flags(ref: Ref, st: SdState, requests: nat, accepts: nat) {
    && (ref.SubRef? <==> st.SubscriptionState?)
    && (st.SubscriptionState? ==>
          && (st.requested ==> st.seen)
          && (st.active ==> st.seen)
          && (st.active <==> 0 < accepts)
          && requests == accepts + if st.requested then 1 else 0)
  }

  ghost predicate Unused(v: View) {
    v.sent == [] && v.timers == [] && v.requests == 0 && v.accepts == 0
  }

  ghost predicate Sound(p: Params, now: real, ref: Ref, v: View) {
    match v.state
    case None => Unused(v)
    case Some(st) =>
      && Flags(ref, st, v.requests, v.accepts)
      && SentOnTime(p, st, v.sent)
      && InPhase(p, ref, st, |v.sent|, v.timers)
      && (!st.phase.InitialWait? && !IsSubscriptionAndServiceSeen(st) ==> st.waitOver <= now)
  }

  // ------------------------------------------------------------------ sending

  function AfterSend(v: View, now: real): View {
    v.(sent := v.sent + [now])
  }

  lemma ExecuteSdView(n: Node, ref: Ref, r: Ref)
    requires ref in n.states
    ensures ViewOf(ExecuteSd(n, ref), r) == if r == ref then AfterSend(ViewOf(n, r), n.now) else ViewOf(n, r)
    ensures ExecuteSd(n, ref) == n.(log := ExecuteSd(n, ref).log)
  {
    match n.states[ref]
    case SubscriptionState(_, _, _, _, _, _, _) =>
      SendView(n, ByTimer(ref), Find, BLANK.(serviceId := ref.service, instanceId := ref.instance), r);
    case OfferState(_, _, _, _, offering, _) =>
      SendView(n, ByTimer(ref), Offer, offering, r);
  }

  /** A send that is due now keeps every send on time. */
  lemma SentOneMore(p: Params, st: SdState, sent: seq<real>, now: real)
    requires SentOnTime(p, st, sent) && now == st.waitOver + Offset(p, |sent|)
    ensures SentOnTime(p, st, sent + [now])
  {
  }

  // ------------------------------------------------------------------ entering the main phase

  function MainView(p: Params, ref: Ref, v: View, now: real): View
    requires v.state.Some?
  {
    var st := v.state.value;
    v.(state := Some(st.(phase := MainPhase)),
       timers := if st.OfferState? && 0.0 < p.cyclicOfferDelay
                 then v.timers + [Timer(CyclicOffer, ref, now + p.cyclicOfferDelay)] else v.timers)
  }

  lemma StartMainPhaseView(n: Node, ref: Ref, r: Ref)
    requires ref in n.states
    ensures ViewOf(StartMainPhase(n, ref), r)
         == if r == ref then MainView(n.params, ref, ViewOf(n, r), n.now) else ViewOf(n, r)
  {
    var st := n.states[ref];
    var m := Put(n, ref, st.(phase := MainPhase));
    PutView(n, ref, st.(phase := MainPhase), r);
    ScheduleView(m, CyclicOffer, ref, n.params.cyclicOfferDelay, r);
  }

  // ------------------------------------------------------------------ the next repetition

  function RepeatView(p: Params, ref: Ref, v: View, now: real): View
    requires v.state.Some?
  {
    var st := v.state.value;
    var w := if 0 < st.numRepetitions then AfterSend(v, now) else v;
    if st.numRepetitions < p.repetitionsMax then
      w.(state := Some(st.(phase := Repetition, numRepetitions := st.numRepetitions + 1)),
         timers := w.timers + [Timer(NextRepetition, ref, now + RepetitionDelay(p, st.numRepetitions))])
    else MainView(p, ref, w, now)
  }

  lemma PutAndScheduleView(n: Node, ref: Ref, st: SdState, delay: real, r: Ref)
    ensures ViewOf(Schedule(Put(n, ref, st), NextRepetition, ref, delay), r)
         == if r == ref then
              ViewOf(n, r).(state := Some(st),
                            timers := ViewOf(n, r).timers + [Timer(NextRepetition, ref, n.now + delay)])
            else ViewOf(n, r)
  {
    PutView(n, ref, st, r);
    ScheduleView(Put(n, ref, st), NextRepetition, ref, delay, r);
  }

  /** The send a repetition makes, unless it is the first operation. */
  function Resent(n: Node, ref: Ref): Node
    requires ref in n.states
  {
    if 0 < n.states[ref].numRepetitions then ExecuteSd(n, ref) else n
  }

  lemma ResentView(n: Node, ref: Ref, r: Ref)
    requires ref in n.states
    ensures var v := ViewOf(n, r);
            ViewOf(Resent(n, ref), r) == if r == ref && 0 < n.states[ref].numRepetitions then AfterSend(v, n.now) else v
    ensures Resent(n, ref) == n.(log := Resent(n, ref).log)
  {
    ExecuteSdView(n, ref, r);
  }

  function Repeating(st: SdState): SdState {
    st.(phase := Repetition, numRepetitions := st.numRepetitions + 1)
  }

  lemma RepeatViewIs(p: Params, ref: Ref, v: View, now: real)
    requires v.state.Some? && v.state.value.numRepetitions < p.repetitionsMax
    ensures var st := v.state.value;
            var w := if 0 < st.numRepetitions then AfterSend(v, now) else v;
            RepeatView(p, ref, v, now)
            == w.(state := Some(Repeating(st)),
                  timers := w.timers + [Timer(NextRepetition, ref, now + RepetitionDelay(p, st.numRepetitions))])
  {
    hide RepetitionDelay;
    hide AfterSend;
  }

  lemma OneMoreRepetitionView(n: Node, ref: Ref, r: Ref)
    requires ref in n.states && n.states[ref].numRepetitions < n.params.repetitionsMax
    ensures var st := n.states[ref];
            var m := Schedule(Put(Resent(n, ref), ref, Repeating(st)),
                              NextRepetition, ref, RepetitionDelay(n.params, st.numRepetitions));
            && ViewOf(n, ref).state.Some?
            && ViewOf(m, r) == if r == ref then RepeatView(n.params, ref, ViewOf(n, r), n.now) else ViewOf(n, r)
  {
    hide ViewOf;
    hide Resent;
    hide Repeating;
    hide RepetitionDelay;
    hide RepeatView;
    hide Put;
    hide Schedule;
    var st := n.states[ref];
    StateOfView(n, ref);
    ResentView(n, ref, r);
    RepeatViewIs(n.params, ref, ViewOf(n, ref), n.now);
    hide AfterSend;
    PutAndScheduleView(Resent(n, ref), ref, Repeating(st), RepetitionDelay(n.params, st.numRepetitions), r);
  }

  lemma NoMoreRepetitionsView(n: Node, ref: Ref, r: Ref)
    requires ref in n.states && n.params.repetitionsMax <= n.states[ref].numRepetitions
    ensures ViewOf(n, ref).state.Some?
    ensures ViewOf(StartMainPhase(Resent(n, ref), ref), r)
         == if r == ref then RepeatView(n.params, ref, ViewOf(n, r), n.now) else ViewOf(n, r)
  {
    StateOfView(n, ref);
    ResentView(n, ref, r);
    hide ViewOf;
    hide Resent;
    hide MainView;
    hide StartMainPhase;
    StartMainPhaseView(Resent(n, ref), ref, r);
  }

  lemma NextRepetitionView(n: Node, ref: Ref, r: Ref)
    requires ref in n.states && !IsSubscriptionAndServiceSeen(n.states[ref])
    ensures ViewOf(n, ref).state.Some?
    ensures ViewOf(HandleNextRepetition(n, ref), r)
         == if r == ref then RepeatView(n.params, ref, ViewOf(n, r), n.now) else ViewOf(n, r)
  {
    StateOfView(n, ref);
    hide ViewOf;
    hide RepeatView;
    hide ExecuteSd;
    hide Put;
    hide Schedule;
    hide StartMainPhase;
    if n.states[ref].numRepetitions < n.params.repetitionsMax {
      OneMoreRepetitionView(n, ref, r);
    } else {
      NoMoreRepetitionsView(n, ref, r);
    }
  }

  lemma NextOffset(p: Params, k: nat)
    ensures k < p.repetitionsMax ==> Offset(p, k + 1) == Offset(p, k) + RepetitionDelay(p, k)
    ensures p.repetitionsMax <= k ==> Offset(p, k + 1) == Offset(p, k) + p.cyclicOfferDelay
  {
    hide RepetitionDelay;
  }

  lemma SentOnTimeAs(p: Params, st: SdState, sent: seq<real>)
    requires SentOnTime(p, st, sent)
    ensures forall later: SdState :: later.waitOver == st.waitOver ==> SentOnTime(p, later, sent)
  {
  }

  lemma RepeatKeepsSound(p: Params, ref: Ref, v: View, now: real)
    requires v.state.Some? && !IsSubscriptionAndServiceSeen(v.state.value)
    requires var st := v.state.value;
             && Flags(ref, st, v.requests, v.accepts)
             && SentOnTime(p, st, v.sent)
             && st.numRepetitions <= Repetitions(p)
             && |v.sent| == (if st.numRepetitions == 0 then 1 else st.numRepetitions)
             && now == st.waitOver + Offset(p, st.numRepetitions)
    requires v.timers == [] && v.state.value.waitOver <= now
    ensures Sound(p, now, ref, RepeatView(p, ref, v, now))
  {
    hide SentOnTime;
    hide Offset;
    hide RepetitionDelay;
    var st := v.state.value;
    NextOffset(p, st.numRepetitions);
    if 0 < st.numRepetitions {
      SentOneMore(p, st, v.sent, now);
      SentOnTimeAs(p, st, AfterSend(v, now).sent);
    } else {
      SentOnTimeAs(p, st, v.sent);
    }
  }

  // ------------------------------------------------------------------ moving forward

  function Rank(p: Phase): nat {
    match p
    case InitialWait => 0
    case Repetition => 1
    case MainPhase => 2
  }

  ghost predicate StateAdvances(a: SdState, b: SdState) {
    && Rank(a.phase) <= Rank(b.phase)
    && a.numRepetitions <= b.numRepetitions
    && a.waitOver == b.waitOver
    && (a.SubscriptionState? <==> b.SubscriptionState?)
    && (a.SubscriptionState? ==> (a.seen ==> b.seen) && (a.active ==> b.active))
    && (a.OfferState? ==> a.offering == b.offering && (a.hasSubscription ==> b.hasSubscription))
  }

  /** Phases, flags and histories only go forward, and a subscription that has seen its service
      never makes the host send again by timer. */
  ghost predicate Advances(v: View, w: View) {
    && v.sent <= w.sent && v.requests <= w.requests && v.accepts <= w.accepts
    && (v.state.Some? ==>
          && w.state.Some?
          && StateAdvances(v.state.value, w.state.value)
          && (IsSubscriptionAndServiceSeen(v.state.value) ==> w.sent == v.sent))
  }

  lemma AdvancesOnAndOn(u: View, v: View, w: View)
    requires Advances(u, v) && Advances(v, w)
    ensures Advances(u, w)
  {
  }

  lemma RepeatAdvances(p: Params, ref: Ref, v: View, now: real)
    requires v.state.Some? && !IsSubscriptionAndServiceSeen(v.state.value) && !v.state.value.phase.MainPhase?
    ensures Advances(v, RepeatView(p, ref, v, now))
  {
  }

  /** One key may change, and then soundly and forward; nothing else about the host's keys does. */
  ghost predicate Kept(n: Node, m: Node, ref: Ref) {
    && m.params == n.params && m.now == n.now
    && Others(n, m, ref)
    && Sound(m.params, m.now, ref, ViewOf(m, ref))
    && Advances(ViewOf(n, ref), ViewOf(m, ref))
  }

  ghost predicate AllSound(n: Node) {
    forall r: Ref :: Sound(n.params, n.now, r, ViewOf(n, r))
  }

  ghost predicate AllAdvance(n: Node, m: Node) {
    forall r: Ref :: Advances(ViewOf(n, r), ViewOf(m, r))
  }

  /** What every event does to a host whose keys are sound. */
  ghost predicate Moves(n: Node, m: Node) {
    m.params == n.params && n.now <= m.now && AllSound(m) && AllAdvance(n, m)
  }

  lemma KeptMoves(n: Node, m: Node, ref: Ref)
    requires AllSound(n) && Kept(n, m, ref)
    ensures Moves(n, m)
  {
    hide Sound;
    forall r: Ref
      ensures Sound(m.params, m.now, r, ViewOf(m, r)) && Advances(ViewOf(n, r), ViewOf(m, r))
    {
      assert Sound(n.params, n.now, r, ViewOf(n, r));
    }
  }

  lemma MovesOn(n: Node, m: Node, k: Node)
    requires Moves(n, m) && Moves(m, k)
    ensures Moves(n, k)
  {
    forall r: Ref
      ensures Advances(ViewOf(n, r), ViewOf(k, r))
    {
      assert Advances(ViewOf(n, r), ViewOf(m, r)) && Advances(ViewOf(m, r), ViewOf(k, r));
      AdvancesOnAndOn(ViewOf(n, r), ViewOf(m, r), ViewOf(k, r));
    }
  }

  /** Changing no state, timer or log entry changes no view. */
  lemma NothingMoves(n: Node, m: Node)
    requires AllSound(n) && m.params == n.params && n.now <= m.now
    requires m.states == n.states && m.timers == n.timers && m.log == n.log
    ensures Moves(n, m)
  {
    forall r: Ref
      ensures Sound(m.params, m.now, r, ViewOf(m, r)) && Advances(ViewOf(n, r), ViewOf(m, r))
    {
      assert ViewOf(m, r) == ViewOf(n, r);
      assert Sound(n.params, n.now, r, ViewOf(n, r));
      SoundLater(n.params, n.now, m.now, r, ViewOf(n, r));
    }
  }

  lemma SoundLater(p: Params, now: real, later: real, ref: Ref, v: View)
    requires Sound(p, now, ref, v) && now <= later
    ensures Sound(p, later, ref, v)
  {
  }

  // ------------------------------------------------------------------ a timer fires

  /** A key that is about to send for the first time. */
  ghost predicate FirstSendDue(ref: Ref, v: View, now: real) {
    && v.state.Some? && !IsSubscriptionAndServiceSeen(v.state.value)
    && v.state.value.phase.InitialWait?
    && v.state.value.numRepetitions == 0
    && v.state.value.waitOver == now
    && Flags(ref, v.state.value, v.requests, v.accepts)
    && v.sent == [] && v.timers == []
  }

  lemma FirstSendIsSound(p: Params, ref: Ref, v: View, now: real)
    requires FirstSendDue(ref, v, now)
    ensures Sound(p, now, ref, RepeatView(p, ref, AfterSend(v, now), now))
    ensures Advances(v, RepeatView(p, ref, AfterSend(v, now), now))
  {
    RepeatKeepsSound(p, ref, AfterSend(v, now), now);
    RepeatAdvances(p, ref, AfterSend(v, now), now);
    hide Sound;
    hide RepeatView;
  }

  lemma WaitOverView(n: Node, ref: Ref, r: Ref)
    requires ref in n.states && !IsSubscriptionAndServiceSeen(n.states[ref])
    ensures ViewOf(n, ref).state.Some?
    ensures var m := HandleWaitOver(n, ref);
            && m.params == n.params && m.now == n.now
            && ViewOf(m, r) == if r == ref then RepeatView(n.params, ref, AfterSend(ViewOf(n, r), n.now), n.now)
                               else ViewOf(n, r)
  {
    StateOfView(n, ref);
    ExecuteSdView(n, ref, r);
    NextRepetitionView(ExecuteSd(n, ref), ref, r);
    hide ViewOf;
    hide RepeatView;
  }

  lemma WaitOverKeeps(n: Node, ref: Ref)
    requires ref in n.states && FirstSendDue(ref, ViewOf(n, ref), n.now)
    ensures Kept(n, HandleWaitOver(n, ref), ref)
  {
    StateOfView(n, ref);
    WaitOverView(n, ref, ref);
    FirstSendIsSound(n.params, ref, ViewOf(n, ref), n.now);
    hide FirstSendDue;
    hide ViewOf;
    hide RepeatView;
    hide Sound;
    hide Advances;
    hide HandleWaitOver;
    forall r: Ref | r != ref
      ensures ViewOf(HandleWaitOver(n, ref), r) == ViewOf(n, r)
    {
      WaitOverView(n, ref, r);
    }
  }

  lemma RepetitionKeeps(n: Node, ref: Ref)
    requires ref in n.states && !IsSubscriptionAndServiceSeen(n.states[ref]) && n.states[ref].phase.Repetition?
    requires ViewOf(n, ref).timers == []
    requires var t := Timer(NextRepetition, ref, n.now);
             Sound(n.params, n.now, ref, ViewOf(n, ref).(timers := [t]))
    ensures Kept(n, HandleNextRepetition(n, ref), ref)
  {
    StateOfView(n, ref);
    NextRepetitionView(n, ref, ref);
    RepeatKeepsSound(n.params, ref, ViewOf(n, ref), n.now);
    RepeatAdvances(n.params, ref, ViewOf(n, ref), n.now);
    hide ViewOf;
    hide RepeatView;
    hide Sound;
    hide Advances;
    forall r: Ref | r != ref
      ensures ViewOf(HandleNextRepetition(n, ref), r) == ViewOf(n, r)
    {
      NextRepetitionView(n, ref, r);
    }
  }

  function CyclicView(p: Params, ref: Ref, v: View, now: real): View {
    AfterSend(v, now).(timers := v.timers + [Timer(CyclicOffer, ref, now + p.cyclicOfferDelay)])
  }

  lemma CyclicOfferView(n: Node, ref: Ref, r: Ref)
    requires ref in n.states && n.states[ref].OfferState?
    ensures HandleCyclicOffer(n, ref).Ok?
    ensures var m := HandleCyclicOffer(n, ref).value;
            && m.params == n.params && m.now == n.now
            && ViewOf(m, r) == if r == ref then CyclicView(n.params, ref, ViewOf(n, r), n.now) else ViewOf(n, r)
  {
    ExecuteSdView(n, ref, r);
    hide ViewOf;
    ScheduleView(ExecuteSd(n, ref), CyclicOffer, ref, n.params.cyclicOfferDelay, r);
  }

  lemma CyclicKeepsSound(p: Params, ref: Ref, v: View, now: real)
    requires v.timers == [] && v.state.Some? && v.state.value.OfferState? && v.state.value.phase.MainPhase?
    requires 0.0 < p.cyclicOfferDelay
    requires Sound(p, now, ref, v.(timers := [Timer(CyclicOffer, ref, now)]))
    ensures Sound(p, now, ref, CyclicView(p, ref, v, now))
    ensures Advances(v, CyclicView(p, ref, v, now))
  {
    SentOneMore(p, v.state.value, v.sent, now);
    hide SentOnTime;
    assert Offset(p, |v.sent| + 1) == Offset(p, |v.sent|) + p.cyclicOfferDelay;
  }

  lemma CyclicKeeps(n: Node, ref: Ref)
    requires ref in n.states && n.states[ref].OfferState? && n.states[ref].phase.MainPhase?
    requires 0.0 < n.params.cyclicOfferDelay
    requires ViewOf(n, ref).timers == []
    requires var t := Timer(CyclicOffer, ref, n.now);
             Sound(n.params, n.now, ref, ViewOf(n, ref).(timers := [t]))
    ensures HandleCyclicOffer(n, ref).Ok? && Kept(n, HandleCyclicOffer(n, ref).value, ref)
  {
    StateOfView(n, ref);
    CyclicOfferView(n, ref, ref);
    CyclicKeepsSound(n.params, ref, ViewOf(n, ref), n.now);
    var m := HandleCyclicOffer(n, ref).value;
    hide ViewOf;
    hide Sound;
    hide CyclicView;
    hide Advances;
    hide HandleCyclicOffer;
    forall r: Ref | r != ref
      ensures ViewOf(m, r) == ViewOf(n, r)
    {
      CyclicOfferView(n, ref, r);
    }
  }

  function Unscheduled(n: Node, k: nat): Node
    requires k < |n.timers|
  {
    n.(timers := n.timers[..k] + n.timers[k + 1..])
  }

  /** A pending timer is the only one of its key, whose state exists. */
  lemma RemoveTimerView(n: Node, k: nat, r: Ref)
    requires AllSound(n) && k < |n.timers|
    ensures var m, ref := Unscheduled(n, k), n.timers[k].ref;
            && ViewOf(m, r) == (if r == ref then ViewOf(n, r).(timers := []) else ViewOf(n, r))
            && (r == ref ==> ViewOf(n, r).timers == [n.timers[k]])
  {
    TimersRemove(n.timers, k, r);
    assert Sound(n.params, n.now, r, ViewOf(n, r));
    assert |TimersFor(n.timers, r)| <= 1;
  }

  lemma TimersHaveStates(n: Node, k: nat)
    requires AllSound(n) && k < |n.timers|
    ensures n.timers[k].ref in n.states
  {
    var ref := n.timers[k].ref;
    RemoveTimerView(n, k, ref);
    StateOfView(n, ref);
    assert Sound(n.params, n.now, ref, ViewOf(n, ref));
  }

  /** A key whose timer has just gone off. */
  ghost predicate Fired(n: Node, t: Timer) {
    && t.due == n.now && ViewOf(n, t.ref).timers == []
    && Sound(n.params, n.now, t.ref, ViewOf(n, t.ref).(timers := [t]))
  }

  function HandleTimer(n: Node, t: Timer): Result<Node>
    requires t.ref in n.states
  {
    match t.kind
    case WaitOver => Ok(HandleWaitOver(n, t.ref))
    case NextRepetition => Ok(HandleNextRepetition(n, t.ref))
    case CyclicOffer => HandleCyclicOffer(n, t.ref)
  }

  lemma StaleTimerKeeps(n: Node, t: Timer)
    requires t.ref in n.states && Fired(n, t) && IsSubscriptionAndServiceSeen(n.states[t.ref])
    ensures HandleTimer(n, t) == Ok(n) && Kept(n, n, t.ref)
  {
    StateOfView(n, t.ref);
  }

  lemma LiveTimerKeeps(n: Node, t: Timer)
    requires t.ref in n.states && Fired(n, t) && !IsSubscriptionAndServiceSeen(n.states[t.ref])
    ensures HandleTimer(n, t).Ok? && Kept(n, HandleTimer(n, t).value, t.ref)
  {
    StateOfView(n, t.ref);
    var v, st := ViewOf(n, t.ref), n.states[t.ref];
    match st.phase {
      case InitialWait =>
        assert t.kind == WaitOver && FirstSendDue(t.ref, v, n.now);
        WaitOverKeeps(n, t.ref);
      case Repetition =>
        assert t == Timer(NextRepetition, t.ref, n.now);
        RepetitionKeeps(n, t.ref);
      case MainPhase =>
        assert t == Timer(CyclicOffer, t.ref, n.now) && st.OfferState? && 0.0 < n.params.cyclicOfferDelay;
        CyclicKeeps(n, t.ref);
    }
  }

  /** Whichever due timer fires, stale or not, the manager handles it without an error of its own and
      every subscription and offer stays on schedule. */
  lemma FiringMoves(n: Node, k: nat)
    requires AllSound(n) && k < |n.timers| && n.timers[k].due == n.now && n.timers[k].ref in n.states
    ensures FireTimer(n, k).Ok? && Moves(n, FireTimer(n, k).value)
  {
    var t, m := n.timers[k], Unscheduled(n, k);
    forall r: Ref
      ensures ViewOf(m, r) == if r == t.ref then ViewOf(n, r).(timers := []) else ViewOf(n, r)
      ensures r == t.ref ==> ViewOf(n, r).timers == [t]
    {
      RemoveTimerView(n, k, r);
    }
    assert Sound(n.params, n.now, t.ref, ViewOf(n, t.ref));
    assert ViewOf(m, t.ref).(timers := [t]) == ViewOf(n, t.ref);
    hide ViewOf;
    hide Sound;
    assert Fired(m, t);
    if IsSubscriptionAndServiceSeen(m.states[t.ref]) {
      StaleTimerKeeps(m, t);
    } else {
      LiveTimerKeeps(m, t);
    }
    assert FireTimer(n, k) == HandleTimer(m, t);
    KeptMoves(n, FireTimer(n, k).value, t.ref);
  }
}
