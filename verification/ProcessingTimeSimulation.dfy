/** The processing time queue: an event-driven server in front of every endpoint and of the
    negotiation protocol. Times are exact reals. */
module ProcessingTimeSimulation {

  datatype Message = Message(id: nat, arrivalTime: real)

  /** A scheduled self message of kind "service time" and the message it carries. */
  datatype ServiceEvent = ServiceEvent(due: real, message: Message)

  /** A message handed to the application, when, and the waiting time emitted for it. */
  datatype Processed = Processed(message: Message, at: real, waitingTime: real)

  /** `pending` is the simulator's list of scheduled service events in scheduling order;
      `accepted` and `processed` are the history of the run. */
  datatype State = State(
    now: real,
    processingTime: real,
    allowParallel: bool,
    busy: bool,
    waiting: seq<Message>,
    pending: seq<ServiceEvent>,
    accepted: seq<Message>,
    processed: seq<Processed>)

  datatype Input =
    | Arrival(message: Message)
    | Completion(event: nat)
    | ParameterChange(newProcessingTime: real, newAllowParallel: bool)

  function Initial(processingTime: real, allowParallel: bool): State {
    State(0.0, processingTime, allowParallel, false, [], [], [], [])
  }

  // ------------------------------------------------------------------ one event

  /** The event the simulator delivers next: the earliest, ties by scheduling order. */
  ghost predicate IsNext(pending: seq<ServiceEvent>, k: nat) {
    && k < |pending|
    && (forall j :: 0 <= j < |pending| ==> pending[k].due <= pending[j].due)
    && (forall j :: 0 <= j < k ==> pending[k].due < pending[j].due)
  }

  function Schedule(s: State, m: Message): State {
    s.(busy := true, pending := s.pending + [ServiceEvent(s.now + s.processingTime, m)])
  }

  function SimulateProcessingTime(s: State, m: Message): State {
    if s.busy && !s.allowParallel then s.(waiting := s.waiting + [m]) else Schedule(s, m)
  }

  function TriggerNextProcessingTime(s: State): State {
    if s.waiting == [] then s.(busy := false)
    else s.(waiting := s.waiting[1..],
            pending := s.pending + [ServiceEvent(s.now + s.processingTime, s.waiting[0])])
  }

  function Complete(s: State, k: nat): State
    requires k < |s.pending|
  {
    var e := s.pending[k];
    TriggerNextProcessingTime(s.(
      now := e.due,
      pending := s.pending[..k] + s.pending[k + 1..],
      processed := s.processed + [Processed(e.message, e.due, e.due - e.message.arrivalTime - s.processingTime)]))
  }

  function Arrive(s: State, m: Message): State {
    SimulateProcessingTime(s.(now := m.arrivalTime, accepted := s.accepted + [m]), m)
  }

  /** An arrival may share its time with a completion; the two may then come in either order. */
  ghost predicate Enabled(s: State, input: Input) {
    match input
    case Arrival(m) => s.now <= m.arrivalTime && forall j :: 0 <= j < |s.pending| ==> m.arrivalTime <= s.pending[j].due
    case Completion(k) => IsNext(s.pending, k)
    case ParameterChange(p, _) => 0.0 <= p
  }

  ghost function Step(s: State, input: Input): State
    requires Enabled(s, input)
  {
    match input
    case Arrival(m) => Arrive(s, m)
    case Completion(k) => Complete(s, k)
    case ParameterChange(p, par) => s.(processingTime := p, allowParallel := par)
  }

  ghost predicate Feasible(s: State, inputs: seq<Input>)
    decreases |inputs|
  {
    inputs == [] || (Enabled(s, inputs[0]) && Feasible(Step(s, inputs[0]), inputs[1..]))
  }

  ghost function Final(s: State, inputs: seq<Input>): State
    requires Feasible(s, inputs)
    decreases |inputs|
  {
    if inputs == [] then s else Final(Step(s, inputs[0]), inputs[1..])
  }

  // ------------------------------------------------------------------ the module

  class ProcessingTimeSimulation {
    var processingTime: real
    var allowParallelProcessing: bool
    var msgList: seq<Message>
    var busy: bool
    var simTime: real
    var scheduled: seq<ServiceEvent>
    ghost var accepted: seq<Message>
    ghost var processed: seq<Processed>

    ghost function Abstract(): State
      reads this
    {
      State(simTime, processingTime, allowParallelProcessing, busy, msgList, scheduled, accepted, processed)
    }

    constructor (p: real, parallel: bool)
      ensures Abstract() == Initial(p, parallel)
    {
      processingTime, allowParallelProcessing, busy := p, parallel, false;
      msgList, scheduled, simTime := [], [], 0.0;
      accepted, processed := [], [];
    }

    method HandleParameterChange(p: real, parallel: bool)
      modifies this
      ensures Abstract() == old(Abstract()).(processingTime := p, allowParallel := parallel)
    {
      processingTime := p;
      allowParallelProcessing := parallel;
    }

    method TriggerNext()
      modifies this
      ensures Abstract() == TriggerNextProcessingTime(old(Abstract()))
    {
      if |msgList| == 0 {
        busy := false;
      } else {
        var msgFromList := msgList[0];
        msgList := msgList[1..];
        scheduled := scheduled + [ServiceEvent(simTime + processingTime, msgFromList)];
      }
    }

    method Simulate(msg: Message)
      modifies this
      ensures Abstract() == SimulateProcessingTime(old(Abstract()), msg)
    {
      if busy && !allowParallelProcessing {
        msgList := msgList + [msg];
      } else {
        busy := true;
        scheduled := scheduled + [ServiceEvent(simTime + processingTime, msg)];
      }
    }

    /** handleMessage for a message that is not a service event. */
    method HandleArrival(msg: Message)
      modifies this
      ensures Abstract() == Arrive(old(Abstract()), msg)
    {
      simTime := msg.arrivalTime;
      accepted := accepted + [msg];
      Simulate(msg);
    }

    /** handleMessage for the next service event the simulator delivers. */
    method HandleServiceEvent(k: nat)
      requires IsNext(scheduled, k)
      modifies this
      ensures Abstract() == Complete(old(Abstract()), k)
    {
      var event := scheduled[k];
      scheduled := scheduled[..k] + scheduled[k + 1..];
      simTime := event.due;
      var waitingTime := simTime - event.message.arrivalTime - processingTime;
      processed := processed + [Processed(event.message, simTime, waitingTime)];
      TriggerNext();
    }
  }

  // ------------------------------------------------------------------ the recurrence

  function Max(x: real, y: real): real {
    if x < y then y else x
  }

  /** When a server that takes `p` per message, in arrival order, completes message i. */
  function CompletionTime(arrived: seq<Message>, p: real, i: nat): real
    requires i < |arrived|
  {
    if i == 0 then arrived[0].arrivalTime + p
    else Max(arrived[i].arrivalTime, CompletionTime(arrived, p, i - 1)) + p
  }

  /** How long message i waits before its own processing starts. */
  function WaitingTime(arrived: seq<Message>, p: real, i: nat): real
    requires i < |arrived|
  {
    if i == 0 then 0.0 else Max(0.0, CompletionTime(arrived, p, i - 1) - arrived[i].arrivalTime)
  }

  lemma {:induction false} LaterArrivalsDoNotMatter(arrived: seq<Message>, m: Message, p: real, i: nat)
    requires i < |arrived|
    ensures CompletionTime(arrived + [m], p, i) == CompletionTime(arrived, p, i)
  {
    if i > 0 {
      LaterArrivalsDoNotMatter(arrived, m, p, i - 1);
    }
  }

  ghost predicate FixedParameters(inputs: seq<Input>) {
    forall i :: 0 <= i < |inputs| ==> !inputs[i].ParameterChange?
  }

  ghost predicate ServedInOrder(accepted: seq<Message>, processed: seq<Processed>, p: real) {
    && |processed| <= |accepted|
    && forall i :: 0 <= i < |processed| ==>
         processed[i] == Processed(accepted[i], CompletionTime(accepted, p, i), WaitingTime(accepted, p, i))
  }

  /** The single message in service is number k, and those after it wait in order. */
  ghost predicate Serving(s: State, k: nat) {
    && k < |s.accepted|
    && s.pending == [ServiceEvent(CompletionTime(s.accepted, s.processingTime, k), s.accepted[k])]
    && s.now <= CompletionTime(s.accepted, s.processingTime, k)
    && s.waiting == s.accepted[k + 1..]
  }

  ghost predicate Idle(s: State, k: nat) {
    && s.pending == [] && s.waiting == []
    && k == |s.accepted|
    && (0 < k ==> CompletionTime(s.accepted, s.processingTime, k - 1) <= s.now)
  }

  ghost predicate SerialInvariant(s: State) {
    && 0.0 <= s.processingTime && !s.allowParallel
    && ServedInOrder(s.accepted, s.processed, s.processingTime)
    && (forall i :: 0 <= i < |s.accepted| ==> s.accepted[i].arrivalTime <= s.now)
    && (if s.busy then Serving(s, |s.processed|) else Idle(s, |s.processed|))
  }

  lemma ServedStaysServed(accepted: seq<Message>, m: Message, processed: seq<Processed>, p: real)
    requires ServedInOrder(accepted, processed, p)
    ensures ServedInOrder(accepted + [m], processed, p)
  {
    forall i | 0 <= i < |processed|
      ensures CompletionTime(accepted + [m], p, i) == CompletionTime(accepted, p, i)
      ensures WaitingTime(accepted + [m], p, i) == WaitingTime(accepted, p, i)
    {
      LaterArrivalsDoNotMatter(accepted, m, p, i);
      if 0 < i {
        LaterArrivalsDoNotMatter(accepted, m, p, i - 1);
      }
    }
  }

  lemma SerialArrival(s: State, m: Message)
    requires SerialInvariant(s) && Enabled(s, Arrival(m))
    ensures SerialInvariant(Arrive(s, m))
  {
    hide ServedInOrder;
    var k, t := |s.processed|, Arrive(s, m);
    ServedStaysServed(s.accepted, m, s.processed, s.processingTime);
    if s.busy {
      LaterArrivalsDoNotMatter(s.accepted, m, s.processingTime, k);
      assert m.arrivalTime <= s.pending[0].due;
      assert t.waiting == t.accepted[k + 1..];
      assert Serving(t, k);
    } else {
      if 0 < k {
        LaterArrivalsDoNotMatter(s.accepted, m, s.processingTime, k - 1);
      }
      assert CompletionTime(t.accepted, s.processingTime, k) == m.arrivalTime + s.processingTime;
      assert Serving(t, k);
    }
  }

  lemma WaitIsDelayBeforeProcessing(arrived: seq<Message>, p: real, i: nat)
    requires i < |arrived|
    ensures WaitingTime(arrived, p, i) == CompletionTime(arrived, p, i) - arrived[i].arrivalTime - p
  {
  }

  lemma ServedOneMore(accepted: seq<Message>, processed: seq<Processed>, p: real)
    requires ServedInOrder(accepted, processed, p) && |processed| < |accepted|
    ensures var k := |processed|;
            ServedInOrder(accepted, processed + [Processed(accepted[k], CompletionTime(accepted, p, k),
                                                           WaitingTime(accepted, p, k))], p)
  {
    hide CompletionTime;
    hide WaitingTime;
  }

  lemma SerialCompletion(s: State)
    requires SerialInvariant(s) && s.pending != []
    ensures SerialInvariant(Complete(s, 0))
  {
    hide ServedInOrder;
    var k, e, p, t := |s.processed|, s.pending[0], s.processingTime, Complete(s, 0);
    assert s.pending[..0] + s.pending[1..] == [];
    var d := Processed(e.message, e.due, e.due - e.message.arrivalTime - p);
    WaitIsDelayBeforeProcessing(s.accepted, p, k);
    ServedOneMore(s.accepted, s.processed, p);
    assert t.processed == s.processed + [d];
    if s.waiting != [] {
      assert s.waiting[0] == s.accepted[k + 1];
      assert CompletionTime(s.accepted, p, k + 1) == e.due + p;
      assert t.waiting == s.accepted[k + 2..];
      assert Serving(t, k + 1);
    } else {
      assert Idle(t, k + 1);
    }
  }

  lemma {:induction false} SerialRun(s: State, inputs: seq<Input>)
    requires SerialInvariant(s) && FixedParameters(inputs) && Feasible(s, inputs)
    ensures SerialInvariant(Final(s, inputs))
    ensures Final(s, inputs).processingTime == s.processingTime
    decreases |inputs|
  {
    if inputs != [] {
      assert !inputs[0].ParameterChange?;
      if inputs[0].Arrival? {
        SerialArrival(s, inputs[0].message);
      } else {
        SerialCompletion(s);
      }
      SerialRun(Step(s, inputs[0]), inputs[1..]);
    }
  }

  /** One message at a time: whatever the arrivals, and whichever of an arrival and a completion
      at the same instant comes first, the i-th message accepted is the i-th processed, at the
      time and after the wait the recurrence gives, and nothing is left over at quiescence. */
  lemma SerialQueueFollowsTheRecurrence(p: real, inputs: seq<Input>)
    requires 0.0 <= p && FixedParameters(inputs) && Feasible(Initial(p, false), inputs)
    ensures var s := Final(Initial(p, false), inputs);
            && s.processingTime == p
            && ServedInOrder(s.accepted, s.processed, p)
            && |s.pending| <= 1
            && (s.pending == [] ==> |s.processed| == |s.accepted|)
  {
    SerialRun(Initial(p, false), inputs);
  }

  // ------------------------------------------------------------------ parallel processing

  /** The scheduled events are those of the accepted messages from number `done` on. */
  ghost predicate Scheduled(accepted: seq<Message>, done: nat, pending: seq<ServiceEvent>, p: real) {
    && |accepted| == done + |pending|
    && forall j :: 0 <= j < |pending| ==>
         pending[j] == ServiceEvent(accepted[done + j].arrivalTime + p, accepted[done + j])
  }

  ghost predicate OutAfter(accepted: seq<Message>, processed: seq<Processed>, p: real) {
    && |processed| <= |accepted|
    && forall i :: 0 <= i < |processed| ==>
         processed[i] == Processed(accepted[i], accepted[i].arrivalTime + p, 0.0)
  }

  ghost predicate InOrderUpTo(accepted: seq<Message>, now: real) {
    && (forall i, j :: 0 <= i < j < |accepted| ==> accepted[i].arrivalTime <= accepted[j].arrivalTime)
    && (forall i :: 0 <= i < |accepted| ==> accepted[i].arrivalTime <= now)
  }

  ghost predicate NoneOverdue(pending: seq<ServiceEvent>, now: real) {
    forall j :: 0 <= j < |pending| ==> now <= pending[j].due
  }

  ghost predicate ParallelInvariant(s: State) {
    && 0.0 <= s.processingTime && s.allowParallel
    && s.waiting == []
    && Scheduled(s.accepted, |s.processed|, s.pending, s.processingTime)
    && OutAfter(s.accepted, s.processed, s.processingTime)
    && InOrderUpTo(s.accepted, s.now)
    && NoneOverdue(s.pending, s.now)
  }

  lemma ParallelArrival(s: State, m: Message)
    requires ParallelInvariant(s) && Enabled(s, Arrival(m))
    ensures ParallelInvariant(Arrive(s, m))
  {
    var t := Arrive(s, m);
    assert t.pending == s.pending + [ServiceEvent(m.arrivalTime + s.processingTime, m)];
    assert Scheduled(t.accepted, |t.processed|, t.pending, t.processingTime);
    assert NoneOverdue(t.pending, t.now);
  }

  lemma FirstIsEarliest(accepted: seq<Message>, done: nat, pending: seq<ServiceEvent>, p: real, now: real)
    requires Scheduled(accepted, done, pending, p) && InOrderUpTo(accepted, now) && pending != []
    ensures NoneOverdue(pending, pending[0].due)
  {
    forall j | 0 <= j < |pending|
      ensures pending[0].due <= pending[j].due
    {
      assert pending[0].due == accepted[done + 0].arrivalTime + p;
      assert 0 < j ==> accepted[done + 0].arrivalTime <= accepted[done + j].arrivalTime;
    }
  }

  lemma ScheduledTail(accepted: seq<Message>, done: nat, pending: seq<ServiceEvent>, p: real)
    requires Scheduled(accepted, done, pending, p) && pending != []
    ensures Scheduled(accepted, done + 1, pending[1..], p)
    ensures pending[0] == ServiceEvent(accepted[done].arrivalTime + p, accepted[done])
  {
    assert pending[0].message == accepted[done + 0];
    forall j | 0 <= j < |pending[1..]|
      ensures pending[1..][j] == ServiceEvent(accepted[done + 1 + j].arrivalTime + p, accepted[done + 1 + j])
    {
      assert pending[1..][j] == pending[j + 1];
    }
  }

  lemma OutOneMore(accepted: seq<Message>, processed: seq<Processed>, p: real, d: Processed)
    requires OutAfter(accepted, processed, p) && |processed| < |accepted|
    requires d == Processed(accepted[|processed|], accepted[|processed|].arrivalTime + p, 0.0)
    ensures OutAfter(accepted, processed + [d], p)
  {
  }

  lemma ParallelCompletion(s: State, k: nat)
    requires ParallelInvariant(s) && IsNext(s.pending, k)
    ensures ParallelInvariant(Complete(s, k))
  {
    hide OutAfter;
    hide Scheduled;
    var done, t := |s.processed|, Complete(s, k);
    FirstIsEarliest(s.accepted, done, s.pending, s.processingTime, s.now);
    ScheduledTail(s.accepted, done, s.pending, s.processingTime);
    var d := Processed(s.accepted[done], s.pending[0].due, 0.0);
    assert k == 0;
    assert t.pending == s.pending[1..] && t.processed == s.processed + [d];
    OutOneMore(s.accepted, s.processed, s.processingTime, d);
    assert InOrderUpTo(t.accepted, t.now);
    assert NoneOverdue(t.pending, t.now) by {
      assert forall j :: 0 <= j < |t.pending| ==> t.pending[j] == s.pending[j + 1];
    }
  }

  lemma {:induction false} ParallelRun(s: State, inputs: seq<Input>)
    requires ParallelInvariant(s) && FixedParameters(inputs) && Feasible(s, inputs)
    ensures ParallelInvariant(Final(s, inputs))
    ensures Final(s, inputs).processingTime == s.processingTime
    decreases |inputs|
  {
    if inputs != [] {
      assert !inputs[0].ParameterChange?;
      if inputs[0].Arrival? {
        ParallelArrival(s, inputs[0].message);
      } else {
        ParallelCompletion(s, inputs[0].event);
      }
      ParallelRun(Step(s, inputs[0]), inputs[1..]);
    }
  }

  /** With parallel processing allowed every message takes exactly the processing time. */
  lemma ParallelQueueAddsAConstant(p: real, inputs: seq<Input>)
    requires 0.0 <= p && FixedParameters(inputs) && Feasible(Initial(p, true), inputs)
    ensures var s := Final(Initial(p, true), inputs);
            && |s.processed| + |s.pending| == |s.accepted|
            && forall i :: 0 <= i < |s.processed| ==>
                 s.processed[i] == Processed(s.accepted[i], s.accepted[i].arrivalTime + p, 0.0)
  {
    ParallelRun(Initial(p, true), inputs);
  }

  // ------------------------------------------------------------------ no message is stranded

  ghost function InService(pending: seq<ServiceEvent>): multiset<Message> {
    multiset(seq(|pending|, i requires 0 <= i < |pending| => pending[i].message))
  }

  ghost function Handled(processed: seq<Processed>): multiset<Message> {
    multiset(seq(|processed|, i requires 0 <= i < |processed| => processed[i].message))
  }

  /** Every accepted message is waiting, in service or processed, and waiting messages always
      have a service event ahead of them. */
  ghost predicate NothingStranded(s: State) {
    && (s.busy ==> s.pending != [])
    && (s.waiting != [] ==> s.busy)
    && multiset(s.accepted) == multiset(s.waiting) + InService(s.pending) + Handled(s.processed)
  }

  lemma InServiceAppend(pending: seq<ServiceEvent>, e: ServiceEvent)
    ensures InService(pending + [e]) == InService(pending) + multiset{e.message}
  {
    var f := seq(|pending|, i requires 0 <= i < |pending| => pending[i].message);
    var q := pending + [e];
    assert seq(|q|, i requires 0 <= i < |q| => q[i].message) == f + [e.message];
  }

  lemma InServiceRemove(pending: seq<ServiceEvent>, k: nat)
    requires k < |pending|
    ensures InService(pending) == InService(pending[..k] + pending[k + 1..]) + multiset{pending[k].message}
  {
    var f := seq(|pending|, i requires 0 <= i < |pending| => pending[i].message);
    var q := pending[..k] + pending[k + 1..];
    assert seq(|q|, i requires 0 <= i < |q| => q[i].message) == f[..k] + f[k + 1..];
    assert f == f[..k] + [f[k]] + f[k + 1..];
  }

  lemma HandledAppend(processed: seq<Processed>, d: Processed)
    ensures Handled(processed + [d]) == Handled(processed) + multiset{d.message}
  {
    var f := seq(|processed|, i requires 0 <= i < |processed| => processed[i].message);
    var q := processed + [d];
    assert seq(|q|, i requires 0 <= i < |q| => q[i].message) == f + [d.message];
  }

  ghost function Unprocessed(s: State): multiset<Message> {
    multiset(s.waiting) + InService(s.pending)
  }

  lemma TriggeringKeepsMessages(s: State)
    ensures var t := TriggerNextProcessingTime(s);
            && Unprocessed(t) == Unprocessed(s)
            && (t.busy ==> s.waiting == [] || t.pending != [])
            && (s.waiting != [] ==> t.busy == s.busy && t.pending != [])
            && (s.waiting == [] ==> !t.busy && t.waiting == [])
  {
    if s.waiting != [] {
      InServiceAppend(s.pending, ServiceEvent(s.now + s.processingTime, s.waiting[0]));
      assert s.waiting == [s.waiting[0]] + s.waiting[1..];
    }
  }

  lemma NothingStrandedAfterCompletion(s: State, k: nat)
    requires NothingStranded(s) && k < |s.pending|
    ensures NothingStranded(Complete(s, k))
  {
    hide InService;
    hide Handled;
    var d := Processed(s.pending[k].message, s.pending[k].due,
                       s.pending[k].due - s.pending[k].message.arrivalTime - s.processingTime);
    InServiceRemove(s.pending, k);
    HandledAppend(s.processed, d);
    TriggeringKeepsMessages(s.(now := s.pending[k].due,
                               pending := s.pending[..k] + s.pending[k + 1..],
                               processed := s.processed + [d]));
  }

  lemma NothingStrandedStep(s: State, input: Input)
    requires NothingStranded(s) && Enabled(s, input)
    ensures NothingStranded(Step(s, input))
  {
    hide InService;
    hide Handled;
    match input
    case Arrival(m) =>
      InServiceAppend(s.pending, ServiceEvent(m.arrivalTime + s.processingTime, m));
    case Completion(k) => NothingStrandedAfterCompletion(s, k);
    case ParameterChange(_, _) =>
  }

  /** Over every run, however often the processing time and the parallel flag are changed. */
  lemma {:induction false} NothingStrandedEver(s: State, inputs: seq<Input>)
    requires NothingStranded(s) && Feasible(s, inputs)
    ensures NothingStranded(Final(s, inputs))
    decreases |inputs|
  {
    if inputs != [] {
      NothingStrandedStep(s, inputs[0]);
      NothingStrandedEver(Step(s, inputs[0]), inputs[1..]);
    }
  }

  lemma NoMessageIsStranded(p: real, parallel: bool, inputs: seq<Input>)
    requires Feasible(Initial(p, parallel), inputs)
    ensures NothingStranded(Final(Initial(p, parallel), inputs))
  {
    NothingStrandedEver(Initial(p, parallel), inputs);
  }
}
