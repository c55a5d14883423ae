/** One host's SOME/IP manager as a state machine: what every handler does to the host's state.
    Subscriptions and offers are kept in one map under keys that tell them apart; the log records
    everything the manager has sent and every acknowledgement it has accepted. */
module SomeIpNode {
  import opened Base
  import opened SdHeader
  import opened SdCodec
  import opened Connectors
  import opened UdpPublisher

  datatype Phase = InitialWait | Repetition | MainPhase

  /** Which subscription or offer: the keys of `_subscriptions` and `_offers`. */
  datatype Ref =
    | SubRef(service: int, group: QoSGroup, instance: int)
    | OfferRef(service: int, instance: int)

  /** `waitOver` is the time of registration plus the initial delay. */
  datatype SdState =
    | SubscriptionState(phase: Phase, initialDelay: real, numRepetitions: nat, waitOver: real,
                        seen: bool, requested: bool, active: bool)
    | OfferState(phase: Phase, initialDelay: real, numRepetitions: nat, waitOver: real,
                 offering: Notification, hasSubscription: bool)

  datatype TimerKind = WaitOver | NextRepetition | CyclicOffer

  /** A scheduled self message, for the state of a key. */
  datatype Timer = Timer(kind: TimerKind, ref: Ref, due: real)

  datatype Params = Params(repetitionsMax: int, baseDelay: real, cyclicOfferDelay: real)

  datatype Cause = ByTimer(ref: Ref) | RequestFor(ref: Ref) | AcceptFor(ref: Ref) | Reply

  datatype Message = Message(kind: EntryType, notification: Notification)

  datatype LogEntry = LogEntry(time: real, cause: Cause, message: Option<Message>)

  datatype Node = Node(
    address: Address,
    params: Params,
    registry: Registry,
    states: map<Ref, SdState>,
    timers: seq<Timer>,
    now: real,
    log: seq<LogEntry>)

  function NewNode(address: Address, params: Params): Node {
    Node(address, params, NOTHING, map[], [], 0.0, [])
  }

  function Pow2(k: nat): nat {
    if k == 0 then 1 else 2 * Pow2(k - 1)
  }

  /** The wait before the next repetition, doubled with each one. */
  function RepetitionDelay(p: Params, numRepetitions: nat): real {
    p.baseDelay * Pow2(numRepetitions) as real
  }

  function Put(n: Node, ref: Ref, st: SdState): Node {
    n.(states := n.states[ref := st])
  }

  function Schedule(n: Node, kind: TimerKind, ref: Ref, delay: real): Node {
    n.(timers := n.timers + [Timer(kind, ref, n.now + delay)])
  }

  function Send(n: Node, cause: Cause, kind: EntryType, notification: Notification): Node {
    n.(log := n.log + [LogEntry(n.now, cause, Some(Message(kind, notification)))])
  }

  predicate IsSubscriptionAndServiceSeen(st: SdState) {
    st.SubscriptionState? && st.seen
  }

  // ------------------------------------------------------------------ phases and timers

  function ExecuteSd(n: Node, ref: Ref): Node
    requires ref in n.states
  {
    match n.states[ref]
    case SubscriptionState(_, _, _, _, _, _, _) =>
      Send(n, ByTimer(ref), Find, BLANK.(serviceId := ref.service, instanceId := ref.instance))
    case OfferState(_, _, _, _, offering, _) =>
      Send(n, ByTimer(ref), Offer, offering)
  }

  function StartMainPhase(n: Node, ref: Ref): Node
    requires ref in n.states
  {
    var st := n.states[ref];
    var m := Put(n, ref, st.(phase := MainPhase));
    if st.OfferState? && 0.0 < n.params.cyclicOfferDelay
    then Schedule(m, CyclicOffer, ref, n.params.cyclicOfferDelay)
    else m
  }

  function HandleNextRepetition(n: Node, ref: Ref): Node
    requires ref in n.states
  {
    var st := n.states[ref];
    if IsSubscriptionAndServiceSeen(st) then n
    else
      var m := if 0 < st.numRepetitions then ExecuteSd(n, ref) else n;
      if st.numRepetitions < n.params.repetitionsMax then
        Schedule(Put(m, ref, st.(phase := Repetition, numRepetitions := st.numRepetitions + 1)),
                 NextRepetition, ref, RepetitionDelay(n.params, st.numRepetitions))
      else
        StartMainPhase(m, ref)
  }

  function HandleWaitOver(n: Node, ref: Ref): Node
    requires ref in n.states
  {
    if IsSubscriptionAndServiceSeen(n.states[ref]) then n
    else HandleNextRepetition(ExecuteSd(n, ref), ref)
  }

  function HandleCyclicOffer(n: Node, ref: Ref): Result<Node>
    requires ref in n.states
  {
    if n.states[ref].OfferState? then
      Ok(Schedule(ExecuteSd(n, ref), CyclicOffer, ref, n.params.cyclicOfferDelay))
    else
      Err(NotAnOffer)
  }

  function StartInitialWait(n: Node, ref: Ref, st: SdState, delay: real): Node {
    var m := Put(n, ref, st.(phase := InitialWait, initialDelay := delay, waitOver := n.now + delay));
    if delay == 0.0 then HandleWaitOver(m, ref) else Schedule(m, WaitOver, ref, delay)
  }

  function FireTimer(n: Node, k: nat): Result<Node>
    requires k < |n.timers| && n.timers[k].ref in n.states
  {
    var t := n.timers[k];
    var m := n.(timers := n.timers[..k] + n.timers[k + 1..]);
    match t.kind
    case WaitOver => Ok(HandleWaitOver(m, t.ref))
    case NextRepetition => Ok(HandleNextRepetition(m, t.ref))
    case CyclicOffer => HandleCyclicOffer(m, t.ref)
  }

  // ------------------------------------------------------------------ registration

  predicate ProperMulticast(address: Address, port: int) {
    0 < port && IsMulticast(address)
  }

  function Offering(p: Publisher): Notification {
    BLANK.(serviceId := p.serviceId, instanceId := p.instanceId, qosGroups := p.groups,
           tcpPort := p.tcpPort, udpPort := p.udpPort, mcastAddr := p.mcastAddr, mcastPort := p.mcastPort)
  }

  const NEW_SUBSCRIPTION := SubscriptionState(InitialWait, 0.0, 0, 0.0, false, false, false)

  function NewOffer(p: Publisher): SdState {
    OfferState(InitialWait, 0.0, 0, 0.0, Offering(p), false)
  }

  function RegisterStaticPublisher(r: Registry, p: Publisher): Result<Registry> {
    if SomeIpUdpMcast !in p.groups then Err(StaticNeedsMulticast)
    else
      var r' :- CreateOrFindPublisherEndpoint(r, p.serviceId, SomeIpUdpMcast, SOMEIP_GROUPS);
      if !ProperMulticast(p.mcastAddr, p.mcastPort) then Err(MissingMulticastInfo)
      else Ok(AddPublisherRemote(r', p.serviceId, SomeIpUdpMcast, Remote(p.mcastAddr, p.mcastPort)))
  }

  function RegisterPublisherService(n: Node, p: Publisher, delay: real): Result<Node> {
    var r :- RegisterPublisher(n.registry, p);
    if p.isStatic then
      var r' :- RegisterStaticPublisher(r, p);
      Ok(n.(registry := r'))
    else
      var ref := OfferRef(p.serviceId, p.instanceId);
      if ref in n.states then Err(DuplicateOffer)
      else Ok(StartInitialWait(n.(registry := r), ref, NewOffer(p), delay))
  }

  function DiscoverService(n: Node, s: int, instance: int, app: Subscriber, delay: real): Result<Node> {
    if app.isStatic then
      if app.group != SomeIpUdpMcast then Err(StaticNeedsMulticast)
      else if !ProperMulticast(app.mcastAddr, app.mcastPort) then Err(MissingMulticastInfo)
      else
        var r :- CreateOrFindSubscriberEndpoint(n.registry, s, SomeIpUdpMcast, SOMEIP_GROUPS);
        Ok(n.(registry := r))
    else if SubRef(s, app.group, instance) in n.states || SubRef(s, app.group, ANY_INSTANCE) in n.states then
      Err(DuplicateSubscription)
    else
      Ok(StartInitialWait(n, SubRef(s, app.group, instance), NEW_SUBSCRIPTION, delay))
  }

  function RegisterSubscriberService(n: Node, s: int, instance: int, app: Subscriber, delay: real): Result<Node> {
    var reg :- RegisterSubscriber(n.registry, s, app);
    var m := n.(registry := reg.registry);
    if reg.created then DiscoverService(m, s, instance, app, delay) else Ok(m)
  }

  // ------------------------------------------------------------------ a Find arrives

  function AnswerFind(n: Node, ref: Ref, to: Address): Node {
    if ref !in n.states || !n.states[ref].OfferState? || n.states[ref].phase.InitialWait? then n
    else Send(n, Reply, Offer, n.states[ref].offering.(address := to))
  }

  /** Every offered instance of the service from `instance` up, in ascending order. */
  function AnswerFindAll(n: Node, s: int, instance: nat, to: Address): Node
    decreases 0x1_0000 - instance
  {
    if 0xFFFF < instance then n
    else AnswerFindAll(AnswerFind(n, OfferRef(s, instance), to), s, instance + 1, to)
  }

  function LookForService(n: Node, q: Notification): Node {
    if OfferRef(q.serviceId, q.instanceId) in n.states then
      AnswerFind(n, OfferRef(q.serviceId, q.instanceId), q.address)
    else if q.instanceId == ANY_INSTANCE then
      AnswerFindAll(n, q.serviceId, 0, q.address)
    else n
  }

  // ------------------------------------------------------------------ an Offer arrives

  function PendingSubscription(n: Node, s: int, g: QoSGroup, instance: int): Option<Ref> {
    if SubRef(s, g, instance) in n.states then Some(SubRef(s, g, instance))
    else if SubRef(s, g, ANY_INSTANCE) in n.states then Some(SubRef(s, g, ANY_INSTANCE))
    else None
  }

  function Subscription(o: Notification, g: QoSGroup, c: SubConnector): Notification
    requires c.apps != []
  {
    BLANK.(serviceId := o.serviceId, address := o.address, instanceId := o.instanceId, qosGroup := g,
           tcpPort := c.tcpPort, udpPort := c.udpPort, mcastAddr := o.mcastAddr, mcastPort := o.mcastPort,
           deadline := c.apps[0].deadline)
  }

  function RequestSubscription(n: Node, ref: Ref, o: Notification, g: QoSGroup, c: SubConnector): Node
    requires ref in n.states && n.states[ref].SubscriptionState? && c.apps != []
  {
    var st := n.states[ref].(phase := MainPhase, seen := true, requested := true);
    Send(Put(n, ref, st), RequestFor(ref), Subscribe, Subscription(o, g, c))
  }

  /** Subscribes from the connector of the group, if there is one. */
  function RequestFromConnector(n: Node, ref: Ref, o: Notification, g: QoSGroup): Result<Node>
    requires ref in n.states && n.states[ref].SubscriptionState?
  {
    var conns := SubsOf(n.registry, o.serviceId);
    var found :- Search(conns, g);
    if found.None? then Ok(n)
    else if conns[found.value].apps == [] then Err(EmptyConnector)
    else Ok(RequestSubscription(n, ref, o, g, conns[found.value]))
  }

  function OfferForGroup(n: Node, o: Notification, g: QoSGroup): Result<Node> {
    var pending := PendingSubscription(n, o.serviceId, g, o.instanceId);
    if pending.None? then Ok(n)
    else
      var st := n.states[pending.value];
      if !st.SubscriptionState? || st.requested then Ok(n) else RequestFromConnector(n, pending.value, o, g)
  }

  function OfferForGroups(n: Node, o: Notification, groups: seq<QoSGroup>): Result<Node>
    decreases |groups|
  {
    if groups == [] then Ok(n)
    else
      var m :- OfferForGroup(n, o, groups[0]);
      OfferForGroups(m, o, groups[1..])
  }

  function SubscribeIfPending(n: Node, o: Notification): Result<Node> {
    OfferForGroups(n, o, InEnumOrder(o.qosGroups))
  }

  // ------------------------------------------------------------------ a Subscribe arrives

  function Acknowledgement(q: Notification, p: Publisher): Notification {
    BLANK.(serviceId := q.serviceId, address := q.address, instanceId := p.instanceId, qosGroup := q.qosGroup,
           tcpPort := p.tcpPort, udpPort := p.udpPort, mcastAddr := q.mcastAddr, mcastPort := q.mcastPort)
  }

  function MarkSubscribed(n: Node, ref: Ref): Node {
    if ref in n.states && n.states[ref].OfferState? then Put(n, ref, n.states[ref].(hasSubscription := true)) else n
  }

  function ServeSubscription(r: Registry, q: Notification): Result<Registry> {
    var r' :- CreateOrFindPublisherEndpoint(r, q.serviceId, q.qosGroup, SOMEIP_GROUPS);
    Ok(if q.qosGroup.SomeIpTcp? then r'
       else AddPublisherRemote(r', q.serviceId, q.qosGroup, Remote(q.address, q.udpPort)))
  }

  function AcknowledgeSubscription(n: Node, q: Notification): Result<Node> {
    if q.serviceId !in n.registry.pubs then Ok(n)
    else
      var p := n.registry.pubs[q.serviceId].app;
      if q.qosGroup !in p.groups then Ok(n)
      else if q.qosGroup !in SOMEIP_GROUPS then Err(UnknownGroup)
      else
        var r :- ServeSubscription(n.registry, q);
        var m := MarkSubscribed(n.(registry := r), OfferRef(p.serviceId, p.instanceId));
        Ok(Send(m, Reply, SubscribeAck, Acknowledgement(q, p)))
  }

  // ------------------------------------------------------------------ an acknowledgement arrives

  function CreateSubscriberEndpoint(n: Node, s: int, g: QoSGroup): Result<Node> {
    if g !in SOMEIP_GROUPS then Err(UnknownGroup)
    else
      var r :- CreateOrFindSubscriberEndpoint(n.registry, s, g, SOMEIP_GROUPS);
      Ok(n.(registry := r))
  }

  function AcceptAck(n: Node, ref: Ref): Result<Node>
    requires ref.SubRef?
  {
    if ref !in n.states || !n.states[ref].SubscriptionState? || !n.states[ref].requested then Ok(n)
    else
      var st := n.states[ref];
      var m :- if st.active then Ok(n) else CreateSubscriberEndpoint(n, ref.service, ref.group);
      Ok(Put(m, ref, st.(active := true, requested := false))
           .(log := m.log + [LogEntry(m.now, AcceptFor(ref), None)]))
  }

  function AckForGroup(n: Node, a: Notification, g: QoSGroup): Result<Node> {
    var m :- AcceptAck(n, SubRef(a.serviceId, g, a.instanceId));
    AcceptAck(m, SubRef(a.serviceId, g, ANY_INSTANCE))
  }

  function AckForGroups(n: Node, a: Notification, groups: seq<QoSGroup>): Result<Node>
    decreases |groups|
  {
    if groups == [] then Ok(n)
    else
      var m :- AckForGroup(n, a, groups[0]);
      AckForGroups(m, a, groups[1..])
  }

  function ProcessAcknowledged(n: Node, a: Notification): Result<Node> {
    AckForGroups(n, a, InEnumOrder(a.qosGroups))
  }

  // ------------------------------------------------------------------ events

  datatype Event =
    | AddPublisher(publisher: Publisher, delay: real)
    | AddSubscriber(service: int, instance: int, app: Subscriber, delay: real)
    | Fire(timer: nat)
    | Receive(kind: EntryType, notification: Notification)

  function Handle(n: Node, e: Event): Result<Node>
    requires e.Fire? ==> e.timer < |n.timers| && n.timers[e.timer].ref in n.states
  {
    match e
    case AddPublisher(p, delay) => RegisterPublisherService(n, p, delay)
    case AddSubscriber(s, i, app, delay) => RegisterSubscriberService(n, s, i, app, delay)
    case Fire(k) => FireTimer(n, k)
    case Receive(Find, q) => Ok(LookForService(n, q))
    case Receive(Offer, q) => SubscribeIfPending(n, q)
    case Receive(Subscribe, q) => AcknowledgeSubscription(n, q)
    case Receive(SubscribeAck, q) => ProcessAcknowledged(n, q)
  }

  /** Time does not pass a due timer, and timers due together fire in any order. */
  ghost predicate Enabled(n: Node, at: real, e: Event) {
    && n.now <= at
    && (forall t :: t in n.timers ==> at <= t.due)
    && match e
       case AddPublisher(_, delay) => 0.0 <= delay
       case AddSubscriber(_, _, _, delay) => 0.0 <= delay
       case Fire(k) => k < |n.timers| && n.timers[k].due == at && n.timers[k].ref in n.states
       case Receive(_, _) => true
  }

  function Step(n: Node, at: real, e: Event): Result<Node>
    requires e.Fire? ==> e.timer < |n.timers| && n.timers[e.timer].ref in n.states
  {
    Handle(n.(now := at), e)
  }
}
