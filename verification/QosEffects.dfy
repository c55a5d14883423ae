/** What each negotiation message does to the host whose broker waits for it, failures included, and
    that any other message is dropped or opens a session. */
module QosEffects {
  import opened Base
  import opened UdpPublisher
  import opened Connectors
  import opened ConnectorGrowth
  import opened QosBroker
  import opened QosSafety
  import opened QosAgreement

  /** The broker at that position is the first of the message's endpoint pair. */
  ghost predicate IsFirst(brokers: seq<Broker>, k: nat, m: Msg) {
    && k < |brokers| && brokers[k].local == m.receiver && brokers[k].remote == m.sender
    && forall i :: 0 <= i < k ==> brokers[i].local != m.receiver || brokers[i].remote != m.sender
  }

  ghost predicate WaitsFor(b: Broker, m: Msg) {
    match m.payload
    case Request => b.state.ServerNoSession?
    case Response(_) => b.state.ClientPendingRequest?
    case Establish(_) => b.state.ServerPendingAccept?
    case Finalise(_, _) => b.state.ClientPendingConnection?
  }

  // ------------------------------------------------------------------ parts of an effect

  ghost predicate Ends(d: Desk, e: Desk, k: nat) {
    k < |d.brokers| && e.brokers == d.brokers[..k] + d.brokers[k + 1..]
  }

  ghost predicate GoesOn(d: Desk, e: Desk, k: nat, state: BrokerState) {
    k < |d.brokers| && e.brokers == d.brokers[k := d.brokers[k].(state := state)]
  }

  ghost predicate Answers(d: Desk, e: Desk, m: Msg, x: Msg) {
    && e.site.sent == d.site.sent + [x]
    && x.sender == m.receiver && x.receiver == m.sender && x.qosClass == m.qosClass
  }

  ghost predicate HasStatus(d: Desk, e: Desk, k: nat, status: RequestStatus) {
    && k < |d.brokers|
    && match d.brokers[k].request
       case None => e.site.statuses == d.site.statuses
       case Some(r) => e.site.statuses == d.site.statuses[r.id := status]
  }

  /** A connector of the service has the endpoint of the group, and nothing else has changed. */
  ghost predicate Listens(a: Registry, b: Registry, s: int, g: QoSGroup) {
    && b.pubs == a.pubs && SameConnectors(a, b)
    && forall t, h :: HasSubEndpoint(b, t, h) <==> HasSubEndpoint(a, t, h) || (t == s && h == g)
  }

  /** The service has the publisher endpoint of the group, with the remote if there is one, and
      nothing else has changed. */
  ghost predicate Serves(a: Registry, b: Registry, s: int, g: QoSGroup, remote: Option<Remote>) {
    && b.subs == a.subs && SamePublishers(a, b)
    && (forall t, h :: HasPubEndpoint(b, t, h) <==> HasPubEndpoint(a, t, h) || (t == s && h == g))
    && (forall t, h, x ::
          HasRemote(b, t, h, x) <==> HasRemote(a, t, h, x) || (t == s && h == g && remote == Some(x)))
  }

  ghost predicate Fails(d: Desk, e: Desk, k: nat, status: RequestStatus) {
    && Ends(d, e, k) && HasStatus(d, e, k, status)
    && e.site == d.site.(statuses := e.site.statuses)
  }

  // ------------------------------------------------------------------ dispatching

  lemma FirstIsTaken(d: Desk, m: Msg, k: nat)
    requires IsFirst(d.brokers, k, m) && WaitsFor(d.brokers[k], m)
    requires HandleMessage(d.brokers[k], d.site, m).Ok? ==> HandleMessage(d.brokers[k], d.site, m).value.handled
    ensures match HandleMessage(d.brokers[k], d.site, m)
            case Err(error) => Dispatch(d, m) == Err(error)
            case Ok(o) =>
              && Dispatch(d, m).Ok?
              && var e := Dispatch(d, m).value;
                 e.site == o.site
                 && e.brokers == if o.broker.finished then d.brokers[..k] + d.brokers[k + 1..]
                                 else d.brokers[k := o.broker]
  {
    hide HandleMessage;
    assert d.brokers[k] in d.brokers;
    var found := Responsible(d.brokers, m.receiver, m.sender);
    assert found.Some? && found.value == k;
  }

  /** Failure ends a negotiation: the client's broker goes, and its request has failed. Nothing is sent
      and no endpoint changes. */
  lemma FailureEnds(d: Desk, m: Msg, k: nat)
    requires IsFirst(d.brokers, k, m) && WaitsFor(d.brokers[k], m)
    requires (m.payload.Response? || m.payload.Finalise?) && !m.payload.success
    ensures Dispatch(d, m).Ok?
    ensures Fails(d, Dispatch(d, m).value, k, if m.payload.Response? then AcknowledgedFailure else FinalisedFailure)
  {
    FirstIsTaken(d, m, k);
    hide Dispatch;
  }

  lemma Prepared(s: Site, service: int, g: QoSGroup)
    requires Sane(s.registry) && PrepareEstablish(s, service, g).Ok?
    ensures var p := PrepareEstablish(s, service, g).value;
            && (g.IpUdp? ==>
                  Listens(s.registry, p.0, service, g) && p.1.Some? && NamesConnector(p.0, service, p.1.value))
            && (!g.IpUdp? ==> p.0 == s.registry && p.1.None?)
  {
    hide SubscriberCsi;
    hide CreateOrFindSubscriberEndpoint;
    hide SameConnectors;
    hide HasSubEndpoint;
    hide NamesConnector;
    hide Sane;
    if g.IpUdp? {
      SaneIsValid(s.registry);
      SubscriberEndpointChanges(s.registry, service, g, QOS_GROUPS);
      SubscriberEndpointIsMade(s.registry, service, g);
      SubscriberCsiExists(PrepareEstablish(s, service, g).value.0, service);
    }
  }

  lemma SaneIsValid(r: Registry)
    requires Sane(r)
    ensures Valid(r)
  {
  }

  /** A response that is waited for makes the client prepare its connectionless endpoint, and no other,
      and send the Establish that tells where it is. */
  lemma ResponseEstablishes(d: Desk, m: Msg, k: nat)
    requires IsFirst(d.brokers, k, m) && WaitsFor(d.brokers[k], m) && !d.brokers[k].finished
    requires m.payload == Response(true) && Sane(d.site.registry) && Dispatch(d, m).Ok?
    ensures var e, s, g := Dispatch(d, m).value, m.sender.serviceId, m.qosClass;
            && GoesOn(d, e, k, ClientPendingConnection) && HasStatus(d, e, k, EstablishSend)
            && e.site.successes == d.site.successes
            && (if g.IpUdp? then Listens(d.site.registry, e.site.registry, s, g)
                else e.site.registry == d.site.registry)
            && exists x :: Answers(d, e, m, x) && x.payload.Establish?
                           && (if g.IpUdp? then
                                 x.payload.subscriberCsi.Some?
                                 && NamesConnector(e.site.registry, s, x.payload.subscriberCsi.value)
                               else x.payload.subscriberCsi.None?)
  {
    hide Sane;
    hide Listens;
    hide NamesConnector;
    hide PrepareEstablish;
    hide Dispatch;
    FirstIsTaken(d, m, k);
    Prepared(d.site, m.sender.serviceId, m.qosClass);
    var e := Dispatch(d, m).value;
    assert Answers(d, e, m, e.site.sent[|d.site.sent|]);
  }

  /** Where the publisher is to send for an Establish: only the UDP group has a remote. */
  function RemoteOf(m: Msg): Option<Remote>
    requires m.payload.Establish?
  {
    match m.payload.subscriberCsi
    case Some(csi) =>
      if m.qosClass.IpUdp? && !csi.connectionType.CtTcp? && !csi.connectionType.CtSomeIpTcp?
         && !csi.connectionType.CtHttp? && !csi.connectionType.CtAvb?
      then Some(Remote(csi.address, csi.port)) else None
    case None => None
  }

  lemma SamePublishersOn(a: Registry, b: Registry, c: Registry)
    requires SamePublishers(a, b) && SamePublishers(b, c)
    ensures SamePublishers(a, c)
  {
    assert forall s :: s in a.pubs ==> s in b.pubs.Keys;
  }

  lemma Accepted(s: Site, local: EndpointDescription, m: Msg)
    requires m.payload.Establish? && m.qosClass in QOS_GROUPS && Accept(s, local, m).Ok?
    ensures Serves(s.registry, Accept(s, local, m).value, local.serviceId, m.qosClass, RemoteOf(m))
  {
    hide CreateOrFindPublisherEndpoint;
    hide AddPublisherRemote;
    hide HasPubEndpoint;
    hide HasRemote;
    PublisherEndpointChanges(s.registry, local.serviceId, m.qosClass, QOS_GROUPS);
    if RemoteOf(m).Some? {
      var r := CreateOrFindPublisherEndpoint(s.registry, local.serviceId, m.qosClass, QOS_GROUPS).value;
      RemoteChanges(r, local.serviceId, IpUdp, RemoteOf(m).value);
      SamePublishersOn(s.registry, r, AddPublisherRemote(r, local.serviceId, IpUdp, RemoteOf(m).value));
    }
  }

  /** An Establish that is waited for makes the publisher serve the group, and for UDP the subscriber
      that it carries and nobody else, and send the Finalise that tells where the publisher is. */
  lemma EstablishFinalises(d: Desk, m: Msg, k: nat)
    requires IsFirst(d.brokers, k, m) && WaitsFor(d.brokers[k], m)
    requires m.payload.Establish? && m.qosClass in QOS_GROUPS && Dispatch(d, m).Ok?
    ensures var e := Dispatch(d, m).value;
            && Ends(d, e, k) && e.site.statuses == d.site.statuses && e.site.successes == d.site.successes
            && Serves(d.site.registry, e.site.registry, m.receiver.serviceId, m.qosClass, RemoteOf(m))
            && exists x :: Answers(d, e, m, x) && WellFormed(x) && x.payload.Finalise?
                           && NamesPublisher(e.site.registry, x, x.payload.publisherCsi.value)
  {
    hide Serves;
    hide Accept;
    hide Dispatch;
    FirstIsTaken(d, m, k);
    Accepted(d.site, m.receiver, m);
    var e := Dispatch(d, m).value;
    assert Answers(d, e, m, e.site.sent[|d.site.sent|]);
  }

  lemma Concluded(r: Registry, service: int, csi: Csi, g: QoSGroup)
    requires Valid(r) && g in QOS_GROUPS && csi.connectionType == ConnectionOf(g) && Conclude(r, service, Some(csi)).Ok?
    ensures var r' := Conclude(r, service, Some(csi)).value;
            if g.IpUdp? then r' == r else Listens(r, r', service, g)
  {
    hide Valid;
    hide SameConnectors;
    hide HasSubEndpoint;
    hide CreateOrFindSubscriberEndpoint;
    if !g.IpUdp? {
      SubscriberEndpointChanges(r, service, g, QOS_GROUPS);
    }
  }

  /** A Finalise that is waited for makes the client get its connection-oriented endpoint, and no
      other; its request has succeeded. */
  lemma FinaliseSucceeds(d: Desk, m: Msg, k: nat)
    requires IsFirst(d.brokers, k, m) && WaitsFor(d.brokers[k], m)
    requires m.payload.Finalise? && WellFormed(m) && Valid(d.site.registry) && Dispatch(d, m).Ok?
    ensures var e := Dispatch(d, m).value;
            && Ends(d, e, k) && HasStatus(d, e, k, FinalisedSuccess) && e.site.sent == d.site.sent
            && e.site.successes
               == d.site.successes
                + (match d.brokers[k].request case None => [] case Some(r) => [Success(r, m)])
            && (if m.qosClass.IpUdp? then e.site.registry == d.site.registry
                else Listens(d.site.registry, e.site.registry, m.sender.serviceId, m.qosClass))
  {
    hide Valid;
    hide Listens;
    hide Conclude;
    hide Dispatch;
    FirstIsTaken(d, m, k);
    Concluded(d.site.registry, m.sender.serviceId, m.payload.publisherCsi.value, m.qosClass);
    assert d.site.successes + [] == d.site.successes;
  }

  /** Nobody waits for the message. A request opens a session all the same; any other is dropped. */
  lemma UnawaitedOpensOrIsDropped(d: Desk, m: Msg)
    requires forall b :: b in d.brokers ==> !b.finished
    requires forall k: nat :: IsFirst(d.brokers, k, m) ==> !WaitsFor(d.brokers[k], m)
    ensures m.payload.Request? ==>
              Dispatch(d, m) == Ok(Desk(d.brokers + [Broker(m.receiver, m.sender, ServerPendingAccept, None, false)],
                                        d.site.(sent := d.site.sent + [Msg(Response(true), m.qosClass,
                                                                           m.receiver, m.sender)])))
    ensures !m.payload.Request? ==> Dispatch(d, m) == Ok(d)
  {
    OneBrokerActs(d, m);
    NewBrokerOnlyTakesRequests(d, m);
    var found := Responsible(d.brokers, m.receiver, m.sender);
    hide Dispatch;
    hide OfferToNewBroker;
    if found.Some? {
      assert IsFirst(d.brokers, found.value, m);
    }
  }

  /** A request of the manager's is sent to its publisher by a broker of its own. */
  lemma BeginningAsks(d: Desk, r: NegotiationRequest)
    ensures CreateBroker(d, r)
         == Desk(d.brokers + [Broker(r.subscriber, r.publisher, ClientPendingRequest, Some(r), false)],
                 d.site.(statuses := d.site.statuses[r.id := RequestSend],
                         sent := d.site.sent + [Msg(Request, r.group, r.subscriber, r.publisher)]))
  {
  }
}
