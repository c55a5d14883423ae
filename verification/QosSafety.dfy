/** Negotiation agreement: a client only succeeds with both endpoints in place, whatever the
    network loses, duplicates or reorders and however many brokers there are. */
module QosSafety {
  import opened Base
  import opened UdpPublisher
  import opened Connectors
  import opened ConnectorGrowth
  import opened QosBroker

  // ------------------------------------------------------------------ what one site does

  /** Every message sent has this form. */
  predicate WellFormed(m: Msg) {
    match m.payload
    case Request => true
    case Response(success) => success
    case Establish(csi) => m.qosClass.IpUdp? ==> csi.Some? && csi.value.connectionType.CtUdp?
    case Finalise(success, csi) =>
      success && m.qosClass in QOS_GROUPS && csi.Some? && csi.value.connectionType == ConnectionOf(m.qosClass)
  }

  /** The address and port are those of the subscriber's connector, which has its endpoint. */
  ghost predicate NamesConnector(r: Registry, s: int, csi: Csi) {
    exists c :: c in SubsOf(r, s) && c.apps != [] && GroupOf(c) == IpUdp && c.endpoint.Some?
                && csi.address == c.address && csi.port == c.udpPort
  }

  /** The connection information is that of the publisher application. */
  ghost predicate NamesPublisher(r: Registry, m: Msg, csi: Csi) {
    && m.sender.serviceId in r.pubs
    && csi.address == m.sender.address
    && var app := r.pubs[m.sender.serviceId].app;
       csi.port == if m.qosClass.IpTcp? then app.tcpPort else app.udpPort
  }

  /** What a message says about the registry of its sender, who sent it in answer to `cause`. */
  ghost predicate Justified(r: Registry, cause: Option<Msg>, m: Msg) {
    && WellFormed(m)
    && (m.payload.Establish? && m.qosClass.IpUdp? ==>
          NamesConnector(r, m.receiver.serviceId, m.payload.subscriberCsi.value))
    && (m.payload.Finalise? ==>
          && HasPubEndpoint(r, m.sender.serviceId, m.qosClass)
          && NamesPublisher(r, m, m.payload.publisherCsi.value)
          && (m.qosClass.IpUdp? ==> cause.Some? && Carries(r, m, cause.value)))
  }

  /** The Establish that a Finalise answers, with the remote that is now served. */
  ghost predicate Carries(r: Registry, finalise: Msg, e: Msg) {
    && e.payload.Establish? && e.payload.subscriberCsi.Some?
    && e.sender == finalise.receiver && e.receiver == finalise.sender && e.qosClass == finalise.qosClass
    && HasRemote(r, finalise.sender.serviceId, IpUdp,
                 Remote(e.payload.subscriberCsi.value.address, e.payload.subscriberCsi.value.port))
  }

  /** One more message at most, and one more success at most, of the broker's own request. */
  ghost predicate SiteFollows(b: Broker, s: Site, m: Msg, t: Site) {
    && Sane(t.registry) && Grows(s.registry, t.registry)
    && (t.sent == s.sent
        || exists x :: t.sent == s.sent + [x] && x.sender == b.local && x.receiver == b.remote
                       && Justified(t.registry, Some(m), x))
    && (t.successes == s.successes
        || (&& b.request.Some? && t.successes == s.successes + [Success(b.request.value, m)]
            && m.payload.Finalise?
            && (!m.qosClass.IpUdp? ==> HasSubEndpoint(t.registry, b.remote.serviceId, m.qosClass))))
  }

  ghost predicate BrokerFollows(b: Broker, c: Broker) {
    c.local == b.local && c.remote == b.remote && c.request == b.request
  }

  ghost predicate Follows(b: Broker, s: Site, m: Msg, o: Outcome) {
    BrokerFollows(b, o.broker) && SiteFollows(b, s, m, o.site)
  }

  lemma RequestFollows(b: Broker, s: Site, m: Msg)
    requires Sane(s.registry) && m.payload.Request?
    ensures Follows(b, s, m, HandleRequest(b, s, m))
  {
    GrowsNot(s.registry);
    hide Grows;
    hide Sane;
    var x := Reply(b, Response(true), m.qosClass);
    assert Justified(s.registry, Some(m), x);
  }

  lemma SubscriberEndpointIsMade(r: Registry, s: int, g: QoSGroup)
    requires Sane(r) && g in QOS_GROUPS && CreateOrFindSubscriberEndpoint(r, s, g, QOS_GROUPS).Ok?
    ensures var r' := CreateOrFindSubscriberEndpoint(r, s, g, QOS_GROUPS).value;
            Sane(r') && Grows(r, r') && HasSubEndpoint(r', s, g)
  {
    SubscriberEndpointOnce(r, s, g, QOS_GROUPS);
    SubscriberEndpointGrows(r, s, g, QOS_GROUPS);
  }

  lemma SubscriberCsiExists(r: Registry, s: int)
    requires Sane(r) && HasSubEndpoint(r, s, IpUdp)
    ensures SubscriberCsi(r, s).Some? && NamesConnector(r, s, SubscriberCsi(r, s).value)
  {
    var conns := SubsOf(r, s);
    assert Homogeneous(conns);
    SearchIsExact(conns, IpUdp);
    var c :| c in conns && c.apps != [] && GroupOf(c) == IpUdp && c.endpoint.Some?;
    var i :| 0 <= i < |conns| && conns[i] == c;
    HomogeneousSearch(conns, IpUdp, i);
  }

  lemma ResponseFollows(b: Broker, s: Site, m: Msg)
    requires Sane(s.registry) && m.payload.Response? && HandleResponse(b, s, m).Ok?
    ensures Follows(b, s, m, HandleResponse(b, s, m).value)
  {
    GrowsNot(s.registry);
    if b.state.ClientPendingRequest? && m.payload.success {
      var prepared := PrepareEstablish(s, b.remote.serviceId, m.qosClass).value;
      if m.qosClass.IpUdp? {
        SubscriberEndpointIsMade(s.registry, b.remote.serviceId, IpUdp);
        SubscriberCsiExists(prepared.0, b.remote.serviceId);
      }
      hide Grows;
      hide Sane;
      hide HasSubEndpoint;
      hide NamesConnector;
      hide SubscriberCsi;
      hide CreateOrFindSubscriberEndpoint;
      var x := Reply(b, Establish(prepared.1), m.qosClass);
      CsiIsUdp(prepared.0, b.remote.serviceId);
      assert prepared.1.Some? ==> prepared.1.value.connectionType.CtUdp?;
      assert Justified(prepared.0, Some(m), x);
    }
  }

  lemma CsiIsUdp(r: Registry, s: int)
    ensures SubscriberCsi(r, s).Some? ==> SubscriberCsi(r, s).value.connectionType.CtUdp?
  {
  }

  lemma AcceptGrows(s: Site, local: EndpointDescription, m: Msg)
    requires Sane(s.registry) && m.payload.Establish? && m.qosClass in QOS_GROUPS && WellFormed(m)
    requires Accept(s, local, m).Ok?
    ensures var r := Accept(s, local, m).value;
            && Sane(r) && Grows(s.registry, r) && HasPubEndpoint(r, local.serviceId, m.qosClass)
            && (m.qosClass.IpUdp? ==>
                  var csi := m.payload.subscriberCsi.value;
                  HasRemote(r, local.serviceId, IpUdp, Remote(csi.address, csi.port)))
  {
    hide Grows;
    hide Sane;
    hide HasPubEndpoint;
    hide HasRemote;
    hide CreateOrFindPublisherEndpoint;
    hide AddPublisherRemote;
    PublisherEndpointGrows(s.registry, local.serviceId, m.qosClass, QOS_GROUPS);
    var k := CreateOrFindPublisherEndpoint(s.registry, local.serviceId, m.qosClass, QOS_GROUPS).value;
    if m.qosClass.IpUdp? {
      var csi := m.payload.subscriberCsi.value;
      RemoteAdded(k, local.serviceId, IpUdp, Remote(csi.address, csi.port));
      GrowsOn(s.registry, k, AddPublisherRemote(k, local.serviceId, IpUdp, Remote(csi.address, csi.port)));
    }
  }

  lemma EstablishFollows(b: Broker, s: Site, m: Msg)
    requires Sane(s.registry) && m.payload.Establish? && WellFormed(m) && HandleEstablish(b, s, m).Ok?
    requires b.local == m.receiver && b.remote == m.sender
    ensures Follows(b, s, m, HandleEstablish(b, s, m).value)
  {
    hide Grows;
    hide Sane;
    hide Accept;
    hide HasPubEndpoint;
    hide HasRemote;
    GrowsNot(s.registry);
    if b.state.ServerPendingAccept? {
      AcceptGrows(s, b.local, m);
      var r := Accept(s, b.local, m).value;
      var x := Reply(b, Finalise(true, Some(PublisherCsi(r, b.local, m.qosClass))), m.qosClass);
      assert Justified(r, Some(m), x);
    }
  }

  lemma ConcludingGrows(r: Registry, service: int, m: Msg)
    requires Sane(r) && m.payload.Finalise? && WellFormed(m) && Conclude(r, service, m.payload.publisherCsi).Ok?
    ensures var r' := Conclude(r, service, m.payload.publisherCsi).value;
            Sane(r') && Grows(r, r') && (!m.qosClass.IpUdp? ==> HasSubEndpoint(r', service, m.qosClass))
  {
    GrowsNot(r);
    if !m.qosClass.IpUdp? {
      SubscriberEndpointIsMade(r, service, m.qosClass);
    }
  }

  lemma FinaliseFollows(b: Broker, s: Site, m: Msg)
    requires Sane(s.registry) && m.payload.Finalise? && WellFormed(m) && HandleFinalise(b, s, m).Ok?
    ensures Follows(b, s, m, HandleFinalise(b, s, m).value)
  {
    GrowsNot(s.registry);
    if b.state.ClientPendingConnection? {
      ConcludingGrows(s.registry, b.remote.serviceId, m);
      hide Grows;
      hide Sane;
      hide HasSubEndpoint;
      hide Conclude;
      hide Justified;
    }
  }

  lemma HandlingFollows(b: Broker, s: Site, m: Msg)
    requires Sane(s.registry) && WellFormed(m) && HandleMessage(b, s, m).Ok?
    ensures Follows(b, s, m, HandleMessage(b, s, m).value)
  {
    GrowsNot(s.registry);
    if IsResponsibleFor(b, m.receiver, m.sender) {
      match m.payload {
        case Request => RequestFollows(b, s, m);
        case Response(_) => ResponseFollows(b, s, m);
        case Establish(_) => EstablishFollows(b, s, m);
        case Finalise(_, _) => FinaliseFollows(b, s, m);
      }
    }
  }
}
