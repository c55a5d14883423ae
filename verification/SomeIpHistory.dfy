/** What the log and the timers of a host say about one subscription or offer, and how the three
    primitive changes (put a state, schedule a timer, append to the log) affect it. */
module SomeIpHistory {
  import opened Base
  import opened SdHeader
  import opened SdCodec
  import opened SomeIpNode

  function Times(log: seq<LogEntry>, c: Cause): seq<real> {
    if log == [] then []
    else
      var last := log[|log| - 1];
      Times(log[..|log| - 1], c) + if last.cause == c then [last.time] else []
  }

  function TimersFor(timers: seq<Timer>, ref: Ref): seq<Timer> {
    if timers == [] then []
    else
      var last := timers[|timers| - 1];
      TimersFor(timers[..|timers| - 1], ref) + if last.ref == ref then [last] else []
  }

  /** All there is to know about one key: its state, when its timers made it send, its pending
      timers, how many subscriptions were requested for it and how many acknowledgements accepted. */
  datatype View = View(
    state: Option<SdState>,
    sent: seq<real>,
    timers: seq<Timer>,
    requests: nat,
    accepts: nat)

  function ViewOf(n: Node, ref: Ref): View {
    View(if ref in n.states then Some(n.states[ref]) else None,
         Times(n.log, ByTimer(ref)),
         TimersFor(n.timers, ref),
         |Times(n.log, RequestFor(ref))|,
         |Times(n.log, AcceptFor(ref))|)
  }

  lemma TimesAppend(log: seq<LogEntry>, e: LogEntry, c: Cause)
    ensures Times(log + [e], c) == Times(log, c) + if e.cause == c then [e.time] else []
  {
    assert (log + [e])[..|log|] == log;
  }

  lemma TimersAppend(timers: seq<Timer>, t: Timer, ref: Ref)
    ensures TimersFor(timers + [t], ref) == TimersFor(timers, ref) + if t.ref == ref then [t] else []
  {
    assert (timers + [t])[..|timers|] == timers;
  }

  lemma {:induction false} TimersConcat(a: seq<Timer>, b: seq<Timer>, ref: Ref)
    ensures TimersFor(a + b, ref) == TimersFor(a, ref) + TimersFor(b, ref)
  {
    if b == [] {
      assert a + b == a;
    } else {
      var init, last := b[..|b| - 1], b[|b| - 1];
      TimersConcat(a, init, ref);
      assert a + b == (a + init) + [last] && b == init + [last];
      TimersAppend(a + init, last, ref);
      TimersAppend(init, last, ref);
    }
  }

  lemma TimersRemove(timers: seq<Timer>, k: nat, ref: Ref)
    requires k < |timers|
    ensures var rest := timers[..k] + timers[k + 1..];
            TimersFor(timers, ref)
            == TimersFor(timers[..k], ref) + (if timers[k].ref == ref then [timers[k]] else [])
             + TimersFor(timers[k + 1..], ref)
            && TimersFor(rest, ref) == TimersFor(timers[..k], ref) + TimersFor(timers[k + 1..], ref)
  {
    assert timers == timers[..k] + [timers[k]] + timers[k + 1..];
    TimersConcat(timers[..k] + [timers[k]], timers[k + 1..], ref);
    TimersAppend(timers[..k], timers[k], ref);
    TimersConcat(timers[..k], timers[k + 1..], ref);
  }

  // ------------------------------------------------------------------ primitive changes

  lemma StateOfView(n: Node, r: Ref)
    ensures ViewOf(n, r).state == if r in n.states then Some(n.states[r]) else None
  {
  }

  lemma PutView(n: Node, ref: Ref, st: SdState, r: Ref)
    ensures ViewOf(Put(n, ref, st), r) == if r == ref then ViewOf(n, r).(state := Some(st)) else ViewOf(n, r)
  {
  }

  lemma ScheduleView(n: Node, kind: TimerKind, ref: Ref, delay: real, r: Ref)
    ensures ViewOf(Schedule(n, kind, ref, delay), r)
         == if r == ref then ViewOf(n, r).(timers := ViewOf(n, r).timers + [Timer(kind, ref, n.now + delay)])
            else ViewOf(n, r)
  {
    hide Times;
    hide TimersFor;
    TimersAppend(n.timers, Timer(kind, ref, n.now + delay), r);
  }

  /** The view after an entry with the given cause is appended to the log. */
  function Noted(v: View, r: Ref, cause: Cause, now: real): View {
    match cause
    case ByTimer(ref) => if ref == r then v.(sent := v.sent + [now]) else v
    case RequestFor(ref) => if ref == r then v.(requests := v.requests + 1) else v
    case AcceptFor(ref) => if ref == r then v.(accepts := v.accepts + 1) else v
    case Reply => v
  }

  lemma LogView(n: Node, e: LogEntry, r: Ref)
    ensures ViewOf(n.(log := n.log + [e]), r) == Noted(ViewOf(n, r), r, e.cause, e.time)
  {
    TimesAppend(n.log, e, ByTimer(r));
    TimesAppend(n.log, e, RequestFor(r));
    TimesAppend(n.log, e, AcceptFor(r));
  }

  lemma SendView(n: Node, cause: Cause, kind: EntryType, note: Notification, r: Ref)
    ensures ViewOf(Send(n, cause, kind, note), r) == Noted(ViewOf(n, r), r, cause, n.now)
  {
    LogView(n, LogEntry(n.now, cause, Some(Message(kind, note))), r);
  }

  /** Nothing but the key in question changes. */
  ghost predicate Others(n: Node, m: Node, ref: Ref) {
    forall r :: r != ref ==> ViewOf(m, r) == ViewOf(n, r)
  }
}
