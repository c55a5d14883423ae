/** The QoS negotiation: one broker per negotiation and side, a dispatcher that owns a host's
    brokers, and what each does with a message. */
module QosBroker {
  import opened Base
  import opened UdpPublisher
  import opened Connectors

  datatype EndpointDescription = EndpointDescription(serviceId: int, address: Address, port: int)

  datatype ConnectionType =
    | CtTcp
    | CtUdp
    | CtUdpMcast
    | CtHttp
    | CtAvb
    | CtSomeIpTcp
    | CtSomeIpUdp
    | CtSomeIpUdpMcast

  datatype Csi = Csi(connectionType: ConnectionType, address: Address, port: int)

  datatype Payload =
    | Request
    | Response(success: bool)
    | Establish(subscriberCsi: Option<Csi>)
    | Finalise(success: bool, publisherCsi: Option<Csi>)

  datatype Msg = Msg(payload: Payload, qosClass: QoSGroup, sender: EndpointDescription, receiver: EndpointDescription)

  datatype RequestStatus =
    | Created
    | RequestSend
    | AcknowledgedFailure
    | EstablishSend
    | FinalisedSuccess
    | FinalisedFailure
    | Invalid

  datatype BrokerState =
    | ServerNoSession
    | ServerPendingAccept
    | ServerSessionEstablished
    | ClientStartup
    | ClientPendingRequest
    | ClientPendingConnection
    | ClientFailure
    | ClientSuccess

  datatype NegotiationRequest = NegotiationRequest(
    id: nat,
    subscriber: EndpointDescription,
    publisher: EndpointDescription,
    group: QoSGroup)

  datatype Broker = Broker(
    local: EndpointDescription,
    remote: EndpointDescription,
    state: BrokerState,
    request: Option<NegotiationRequest>,
    finished: bool)

  /** A client that finished successfully, and the Finalise that made it. */
  datatype Success = Success(request: NegotiationRequest, finalise: Msg)

  /** The manager's registry, the status of every request, and everything sent and achieved. */
  datatype Site = Site(
    registry: Registry,
    statuses: map<nat, RequestStatus>,
    sent: seq<Msg>,
    successes: seq<Success>)

  const QOS_GROUPS: set<QoSGroup> := {Rt, IpTcp, IpUdp, IpUdpMcast}

  function QoSGroupFor(t: ConnectionType): Result<QoSGroup> {
    match t
    case CtAvb => Ok(Rt)
    case CtTcp => Ok(IpTcp)
    case CtUdp => Ok(IpUdp)
    case CtUdpMcast => Ok(IpUdpMcast)
    case CtHttp => Ok(Web)
    case _ => Err(UnknownConnectionType)
  }

  /** The connection type of a publisher endpoint of a group. */
  function ConnectionOf(g: QoSGroup): ConnectionType
    requires g in QOS_GROUPS
  {
    match g
    case Rt => CtAvb
    case IpTcp => CtTcp
    case IpUdp => CtUdp
    case IpUdpMcast => CtUdpMcast
  }

  function NewBroker(local: EndpointDescription, remote: EndpointDescription,
                     request: Option<NegotiationRequest>): Broker {
    Broker(local, remote, if request.Some? then ClientStartup else ServerNoSession, request, false)
  }

  predicate IsResponsibleFor(b: Broker, local: EndpointDescription, remote: EndpointDescription) {
    local == b.local && remote == b.remote
  }

  // ------------------------------------------------------------------ one broker

  /** What handling does to the broker and its site, and whether the message was handled. */
  datatype Outcome = Outcome(broker: Broker, site: Site, handled: bool)

  function Reply(b: Broker, payload: Payload, g: QoSGroup): Msg {
    Msg(payload, g, b.local, b.remote)
  }

  function Emit(s: Site, m: Msg): Site {
    s.(sent := s.sent + [m])
  }

  function WithStatus(s: Site, b: Broker, status: RequestStatus): Site {
    match b.request
    case None => s
    case Some(r) => s.(statuses := s.statuses[r.id := status])
  }

  function StartNegotiation(b: Broker, s: Site): Outcome
    requires b.request.Some?
  {
    if b.state.ClientStartup? then
      Outcome(b.(state := ClientPendingRequest),
              WithStatus(Emit(s, Reply(b, Request, b.request.value.group)), b, RequestSend), true)
    else
      Outcome(b.(finished := true), WithStatus(s, b, Invalid), false)
  }

  function HandleRequest(b: Broker, s: Site, m: Msg): Outcome {
    if b.state.ServerNoSession? then
      Outcome(b.(state := ServerPendingAccept), Emit(s, Reply(b, Response(true), m.qosClass)), true)
    else Outcome(b, s, false)
  }

  /** The connection information of the endpoint of a subscriber's connector. */
  function SubscriberCsi(r: Registry, s: int): Option<Csi> {
    var conns := SubsOf(r, s);
    var found := Search(conns, IpUdp);
    if found.Ok? && found.value.Some?
    then Some(Csi(CtUdp, conns[found.value.value].address, conns[found.value.value].udpPort))
    else None
  }

  /** Connectionless groups have their subscriber endpoint created before the Establish. */
  function PrepareEstablish(s: Site, service: int, g: QoSGroup): Result<(Registry, Option<Csi>)> {
    match g
    case IpUdp =>
      var r :- CreateOrFindSubscriberEndpoint(s.registry, service, IpUdp, QOS_GROUPS);
      Ok((r, SubscriberCsi(r, service)))
    case SomeIpUdp => Err(UnknownConnectionType)
    case _ => Ok((s.registry, None))
  }

  function HandleResponse(b: Broker, s: Site, m: Msg): Result<Outcome>
    requires m.payload.Response?
  {
    if !b.state.ClientPendingRequest? then Ok(Outcome(b, s, false))
    else if m.payload.success then
      var prepared :- PrepareEstablish(s, b.remote.serviceId, m.qosClass);
      Ok(Outcome(b.(state := ClientPendingConnection),
                 WithStatus(Emit(s.(registry := prepared.0), Reply(b, Establish(prepared.1), m.qosClass)),
                            b, EstablishSend),
                 true))
    else
      Ok(Outcome(b.(finished := true), WithStatus(s, b, AcknowledgedFailure), true))
  }

  function PublisherCsi(r: Registry, local: EndpointDescription, g: QoSGroup): Csi
    requires g in QOS_GROUPS && local.serviceId in r.pubs
  {
    var app := r.pubs[local.serviceId].app;
    Csi(ConnectionOf(g), local.address, if g.IpTcp? then app.tcpPort else app.udpPort)
  }

  predicate IsUdp(t: ConnectionType) {
    t.CtUdp? || t.CtUdpMcast? || t.CtSomeIpUdp? || t.CtSomeIpUdpMcast?
  }

  /** The registry after an Establish: the endpoint is there, and a connectionless one has the
      subscriber's address and port among its remotes. */
  function Accept(s: Site, local: EndpointDescription, m: Msg): (r: Result<Registry>)
    requires m.payload.Establish?
    ensures r.Ok? ==> local.serviceId in r.value.pubs
  {
    var r :- CreateOrFindPublisherEndpoint(s.registry, local.serviceId, m.qosClass, QOS_GROUPS);
    match m.payload.subscriberCsi
    case Some(csi) =>
      Ok(if m.qosClass.IpUdp? && IsUdp(csi.connectionType)
         then AddPublisherRemote(r, local.serviceId, IpUdp, Remote(csi.address, csi.port)) else r)
    case None => Ok(r)
  }

  function HandleEstablish(b: Broker, s: Site, m: Msg): Result<Outcome>
    requires m.payload.Establish?
  {
    if !b.state.ServerPendingAccept? then Ok(Outcome(b, s, false))
    else
      var r :- Accept(s, b.local, m);
      if m.qosClass !in QOS_GROUPS then Err(UnknownGroup)
      else
        var info := PublisherCsi(r, b.local, m.qosClass);
        Ok(Outcome(b.(state := ServerSessionEstablished, finished := true),
                   Emit(s.(registry := r), Reply(b, Finalise(true, Some(info)), m.qosClass)),
                   true))
  }

  /** A connectionless subscriber endpoint exists already; any other is created now. */
  function Conclude(r: Registry, service: int, csi: Option<Csi>): Result<Registry> {
    match csi
    case None => Ok(r)
    case Some(info) =>
      if info.connectionType.CtUdp? || info.connectionType.CtSomeIpUdp? then Ok(r)
      else
        var g :- QoSGroupFor(info.connectionType);
        CreateOrFindSubscriberEndpoint(r, service, g, QOS_GROUPS)
  }

  function WithSuccess(s: Site, b: Broker, m: Msg): Site {
    match b.request
    case None => s
    case Some(r) => s.(successes := s.successes + [Success(r, m)])
  }

  function HandleFinalise(b: Broker, s: Site, m: Msg): Result<Outcome>
    requires m.payload.Finalise?
  {
    if !b.state.ClientPendingConnection? then Ok(Outcome(b, s, false))
    else if m.payload.success then
      var r :- Conclude(s.registry, b.remote.serviceId, m.payload.publisherCsi);
      Ok(Outcome(b.(state := ClientSuccess, finished := true),
                 WithSuccess(WithStatus(s.(registry := r), b, FinalisedSuccess), b, m), true))
    else
      Ok(Outcome(b.(state := ClientFailure, finished := true), WithStatus(s, b, FinalisedFailure), true))
  }

  function HandleMessage(b: Broker, s: Site, m: Msg): Result<Outcome> {
    if !IsResponsibleFor(b, m.receiver, m.sender) then Ok(Outcome(b, s, false))
    else
      match m.payload
      case Request => Ok(HandleRequest(b, s, m))
      case Response(_) => HandleResponse(b, s, m)
      case Establish(_) => HandleEstablish(b, s, m)
      case Finalise(_, _) => HandleFinalise(b, s, m)
  }

  // ------------------------------------------------------------------ the dispatcher

  /** A host's brokers and its site. */
  datatype Desk = Desk(brokers: seq<Broker>, site: Site)

  /** The first broker for the endpoint pair; the group plays no part. */
  function Responsible(brokers: seq<Broker>, local: EndpointDescription, remote: EndpointDescription)
      : (found: Option<nat>)
    ensures found.Some? ==> found.value < |brokers| && IsResponsibleFor(brokers[found.value], local, remote)
    ensures found.Some? ==> forall i :: 0 <= i < found.value ==> !IsResponsibleFor(brokers[i], local, remote)
    ensures found.None? <==> forall b :: b in brokers ==> !IsResponsibleFor(b, local, remote)
  {
    if brokers == [] then None
    else if IsResponsibleFor(brokers[0], local, remote) then Some(0)
    else
      var rest := Responsible(brokers[1..], local, remote);
      if rest.None? then None else Some(rest.value + 1)
  }

  function CreateBroker(d: Desk, r: NegotiationRequest): Desk {
    var o := StartNegotiation(NewBroker(r.subscriber, r.publisher, Some(r)), d.site);
    Desk(d.brokers + [o.broker], o.site)
  }

  /** A message no broker handled may open a session at a new one. */
  function OfferToNewBroker(d: Desk, m: Msg): Result<Desk> {
    var o :- HandleMessage(NewBroker(m.receiver, m.sender, None), d.site, m);
    Ok(if o.handled then Desk(d.brokers + [o.broker], o.site) else Desk(d.brokers, o.site))
  }

  function Settle(brokers: seq<Broker>, k: nat, b: Broker): seq<Broker>
    requires k < |brokers|
  {
    if b.finished then brokers[..k] + brokers[k + 1..] else brokers[k := b]
  }

  function Dispatch(d: Desk, m: Msg): Result<Desk> {
    match Responsible(d.brokers, m.receiver, m.sender)
    case None => OfferToNewBroker(d, m)
    case Some(k) =>
      var o :- HandleMessage(d.brokers[k], d.site, m);
      var after := Desk(Settle(d.brokers, k, o.broker), o.site);
      if o.handled then Ok(after) else OfferToNewBroker(after, m)
  }
}
