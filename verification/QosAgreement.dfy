/** Whole runs of the negotiation between any number of hosts, over a network in which every
    message ever sent may arrive at its receiver at any time, any number of times, or never. */
module QosAgreement {
  import opened Base
  import opened UdpPublisher
  import opened Connectors
  import opened ConnectorGrowth
  import opened QosBroker
  import opened QosSafety

  // ------------------------------------------------------------------ one host

  /** Brokers that are still negotiating, for endpoints on this host. */
  ghost predicate BrokersOk(brokers: seq<Broker>, host: Address) {
    forall b :: b in brokers ==>
      && !b.finished && b.local.address == host
      && (b.request.Some? ==> b.request.value.subscriber == b.local && b.request.value.publisher == b.remote)
  }

  lemma UnhandledChangesNothing(b: Broker, s: Site, m: Msg)
    requires HandleMessage(b, s, m).Ok? && !HandleMessage(b, s, m).value.handled
    ensures HandleMessage(b, s, m).value == Outcome(b, s, false)
  {
  }

  lemma NewBrokerOnlyTakesRequests(d: Desk, m: Msg)
    ensures var b := NewBroker(m.receiver, m.sender, None);
            OfferToNewBroker(d, m)
            == if m.payload.Request?
               then Ok(Desk(d.brokers + [b.(state := ServerPendingAccept)],
                            Emit(d.site, Msg(Response(true), m.qosClass, m.receiver, m.sender))))
               else Ok(d)
  {
  }

  /** At most one broker acts on a message: the first of its endpoint pair, or else a new one that
      opens a session for a request. */
  lemma OneBrokerActs(d: Desk, m: Msg)
    requires forall b :: b in d.brokers ==> !b.finished
    ensures match Responsible(d.brokers, m.receiver, m.sender)
            case None => Dispatch(d, m) == OfferToNewBroker(d, m)
            case Some(k) =>
              var o := HandleMessage(d.brokers[k], d.site, m);
              && (o.Err? ==> Dispatch(d, m) == Err(o.error))
              && (o.Ok? && o.value.handled ==>
                    Dispatch(d, m) == Ok(Desk(Settle(d.brokers, k, o.value.broker), o.value.site)))
              && (o.Ok? && !o.value.handled ==> Dispatch(d, m) == OfferToNewBroker(d, m))
  {
    var found := Responsible(d.brokers, m.receiver, m.sender);
    if found.Some? {
      var b := d.brokers[found.value];
      if HandleMessage(b, d.site, m).Ok? && !HandleMessage(b, d.site, m).value.handled {
        UnhandledChangesNothing(b, d.site, m);
        assert Settle(d.brokers, found.value, b) == d.brokers;
      }
    }
  }

  /** What a host has done since: endpoints grew, and every new message and success is justified. */
  ghost predicate DeskFollows(d: Desk, m: Msg, e: Desk) {
    && Sane(e.site.registry) && Grows(d.site.registry, e.site.registry)
    && d.site.sent <= e.site.sent
    && (forall i :: |d.site.sent| <= i < |e.site.sent| ==>
          && e.site.sent[i].sender == m.receiver && e.site.sent[i].receiver == m.sender
          && Justified(e.site.registry, Some(m), e.site.sent[i]))
    && d.site.successes <= e.site.successes
    && (forall i :: |d.site.successes| <= i < |e.site.successes| ==> WonBy(e.site, e.site.successes[i], m))
  }

  ghost predicate WonBy(s: Site, x: Success, m: Msg) {
    && x.finalise == m && m.payload.Finalise?
    && x.request.subscriber == m.receiver && x.request.publisher == m.sender
    && (!m.qosClass.IpUdp? ==> HasSubEndpoint(s.registry, m.sender.serviceId, m.qosClass))
  }

  lemma SettledBrokersOk(brokers: seq<Broker>, k: nat, b: Broker, host: Address)
    requires BrokersOk(brokers, host) && k < |brokers| && BrokerFollows(brokers[k], b)
    ensures BrokersOk(Settle(brokers, k, b), host)
  {
    assert brokers[k] in brokers;
    var after := Settle(brokers, k, b);
    forall c | c in after
      ensures c in brokers || (c == b && !b.finished)
    {
    }
  }

  lemma ActingFollows(d: Desk, k: nat, m: Msg, host: Address)
    requires BrokersOk(d.brokers, host) && Sane(d.site.registry) && WellFormed(m)
    requires k < |d.brokers| && IsResponsibleFor(d.brokers[k], m.receiver, m.sender)
    requires HandleMessage(d.brokers[k], d.site, m).Ok?
    ensures var o := HandleMessage(d.brokers[k], d.site, m).value;
            var e := Desk(Settle(d.brokers, k, o.broker), o.site);
            BrokersOk(e.brokers, host) && DeskFollows(d, m, e)
  {
    hide HandleMessage;
    hide Sane;
    hide Grows;
    hide Settle;
    hide Justified;
    hide HasSubEndpoint;
    var b := d.brokers[k];
    HandlingFollows(b, d.site, m);
    var o := HandleMessage(b, d.site, m).value;
    SettledBrokersOk(d.brokers, k, o.broker, host);
    assert b in d.brokers;
  }

  lemma OpeningFollows(d: Desk, m: Msg, host: Address)
    requires BrokersOk(d.brokers, host) && Sane(d.site.registry) && m.receiver.address == host
    ensures var e := OfferToNewBroker(d, m);
            e.Ok? && BrokersOk(e.value.brokers, host) && DeskFollows(d, m, e.value)
  {
    NewBrokerOnlyTakesRequests(d, m);
    GrowsNot(d.site.registry);
    hide OfferToNewBroker;
    hide Sane;
    hide Grows;
  }

  lemma DispatchFollows(d: Desk, m: Msg, host: Address)
    requires BrokersOk(d.brokers, host) && Sane(d.site.registry) && WellFormed(m)
    requires m.receiver.address == host && Dispatch(d, m).Ok?
    ensures BrokersOk(Dispatch(d, m).value.brokers, host) && DeskFollows(d, m, Dispatch(d, m).value)
  {
    OneBrokerActs(d, m);
    OpeningFollows(d, m, host);
    var found := Responsible(d.brokers, m.receiver, m.sender);
    hide Dispatch;
    hide OfferToNewBroker;
    hide DeskFollows;
    hide Sane;
    hide HandleMessage;
    if found.Some? && HandleMessage(d.brokers[found.value], d.site, m).Ok? {
      ActingFollows(d, found.value, m, host);
    }
  }

  // ------------------------------------------------------------------ hosts and network

  type Net = map<Address, Desk>

  /** `Register` stands for whatever applications do to a registry: it only grows. */
  datatype Action =
    | Start(host: Address, request: NegotiationRequest)
    | Arrive(to: Address, src: Address, sent: nat)
    | Register(host: Address, registry: Registry)

  ghost predicate CanHappen(y: Net, x: Action) {
    match x
    case Start(a, r) => a in y && r.subscriber.address == a && r.id !in y[a].site.statuses
    case Arrive(to, src, k) =>
      to in y && src in y && k < |y[src].site.sent| && y[src].site.sent[k].receiver.address == to
    case Register(a, r) => a in y && Grows(y[a].site.registry, r) && Sane(r)
  }

  function Act(y: Net, x: Action): Result<Net>
    requires CanHappen(y, x)
  {
    match x
    case Start(a, r) => Ok(y[a := CreateBroker(y[a], r)])
    case Arrive(to, src, k) =>
      var d :- Dispatch(y[to], y[src].site.sent[k]);
      Ok(y[to := d])
    case Register(a, r) => Ok(y[a := y[a].(site := y[a].site.(registry := r))])
  }

  ghost predicate RunsTo(y: Net, run: seq<Action>, z: Net)
    decreases |run|
  {
    if run == [] then y == z
    else CanHappen(y, run[0]) && Act(y, run[0]).Ok? && RunsTo(Act(y, run[0]).value, run[1..], z)
  }

  // ------------------------------------------------------------------ the invariant

  /** The publisher at `p` serves the address and port that an Establish of the receiver carried. */
  ghost predicate ServesAnEstablish(y: Net, p: Address, finalise: Msg) {
    var a := finalise.receiver.address;
    && a in y && p in y
    && exists i :: 0 <= i < |y[a].site.sent| && Carries(y[p].site.registry, finalise, y[a].site.sent[i])
  }

  ghost predicate SentOk(y: Net, a: Address, m: Msg) {
    && a in y && WellFormed(m) && m.sender.address == a
    && (m.payload.Establish? && m.qosClass.IpUdp? ==>
          NamesConnector(y[a].site.registry, m.receiver.serviceId, m.payload.subscriberCsi.value))
    && (m.payload.Finalise? ==>
          && HasPubEndpoint(y[a].site.registry, m.sender.serviceId, m.qosClass)
          && NamesPublisher(y[a].site.registry, m, m.payload.publisherCsi.value)
          && (m.qosClass.IpUdp? ==> ServesAnEstablish(y, a, m)))
  }

  ghost predicate SuccessOk(y: Net, a: Address, x: Success) {
    var p, g := x.request.publisher, x.finalise.qosClass;
    && a in y && p.address in y
    && x.request.subscriber.address == a
    && x.finalise.receiver.address == a && x.finalise.sender == p
    && WellFormed(x.finalise) && x.finalise.payload.Finalise?
    && HasPubEndpoint(y[p.address].site.registry, p.serviceId, g)
    && NamesPublisher(y[p.address].site.registry, x.finalise, x.finalise.payload.publisherCsi.value)
    && HasSubEndpoint(y[a].site.registry, p.serviceId, g)
    && (g.IpUdp? ==> ServesAnEstablish(y, p.address, x.finalise))
  }

  ghost predicate DeskOk(y: Net, a: Address) {
    && a in y && Sane(y[a].site.registry) && BrokersOk(y[a].brokers, a)
  }

  ghost predicate AllSentOk(y: Net) {
    forall a, i :: a in y && 0 <= i < |y[a].site.sent| ==> SentOk(y, a, y[a].site.sent[i])
  }

  ghost predicate AllSuccessesOk(y: Net) {
    forall a, i :: a in y && 0 <= i < |y[a].site.successes| ==> SuccessOk(y, a, y[a].site.successes[i])
  }

  ghost predicate AllDesksOk(y: Net) {
    forall a :: a in y ==> DeskOk(y, a)
  }

  ghost predicate Inv(y: Net) {
    AllDesksOk(y) && AllSentOk(y) && AllSuccessesOk(y)
  }

  ghost predicate NetGrows(y: Net, z: Net) {
    && z.Keys == y.Keys
    && forall a :: a in y ==> Grows(y[a].site.registry, z[a].site.registry) && y[a].site.sent <= z[a].site.sent
  }

  lemma CarriesGrows(a: Registry, b: Registry, finalise: Msg, e: Msg)
    requires Grows(a, b) && Carries(a, finalise, e)
    ensures Carries(b, finalise, e)
  {
    HasRemoteGrows(a, b, finalise.sender.serviceId, IpUdp,
                   Remote(e.payload.subscriberCsi.value.address, e.payload.subscriberCsi.value.port));
    hide Grows;
    hide HasRemote;
  }

  lemma NamesConnectorGrows(a: Registry, b: Registry, s: int, csi: Csi)
    requires Grows(a, b) && NamesConnector(a, s, csi)
    ensures NamesConnector(b, s, csi)
  {
    var c :| c in SubsOf(a, s) && c.apps != [] && GroupOf(c) == IpUdp && c.endpoint.Some?
             && csi.address == c.address && csi.port == c.udpPort;
    var d := ConnectorStays(a, b, s, c);
  }

  lemma ServesGrows(y: Net, z: Net, p: Address, f: Msg)
    requires NetGrows(y, z) && ServesAnEstablish(y, p, f)
    ensures ServesAnEstablish(z, p, f)
  {
    hide Carries;
    hide Grows;
    var a := f.receiver.address;
    assert a in z.Keys && p in z.Keys;
    var i :| 0 <= i < |y[a].site.sent| && Carries(y[p].site.registry, f, y[a].site.sent[i]);
    CarriesGrows(y[p].site.registry, z[p].site.registry, f, y[a].site.sent[i]);
    assert z[a].site.sent[i] == y[a].site.sent[i];
  }

  lemma NamesPublisherGrows(a: Registry, b: Registry, m: Msg, csi: Csi)
    requires Grows(a, b) && NamesPublisher(a, m, csi)
    ensures NamesPublisher(b, m, csi)
  {
  }

  lemma SentOkGrows(y: Net, z: Net, a: Address, m: Msg)
    requires NetGrows(y, z) && SentOk(y, a, m)
    ensures SentOk(z, a, m)
  {
    hide Grows;
    hide HasSubEndpoint;
    hide HasPubEndpoint;
    hide NamesPublisher;
    hide ServesAnEstablish;
    hide NamesConnector;
    assert a in z.Keys;
    if m.payload.Establish? && m.qosClass.IpUdp? {
      NamesConnectorGrows(y[a].site.registry, z[a].site.registry, m.receiver.serviceId, m.payload.subscriberCsi.value);
    }
    if m.payload.Finalise? {
      HasPubEndpointGrows(y[a].site.registry, z[a].site.registry, m.sender.serviceId, m.qosClass);
      NamesPublisherGrows(y[a].site.registry, z[a].site.registry, m, m.payload.publisherCsi.value);
      if m.qosClass.IpUdp? {
        ServesGrows(y, z, a, m);
      }
    }
  }

  lemma SuccessOkGrows(y: Net, z: Net, a: Address, x: Success)
    requires NetGrows(y, z) && SuccessOk(y, a, x)
    ensures SuccessOk(z, a, x)
  {
    hide Grows;
    hide HasSubEndpoint;
    hide HasPubEndpoint;
    hide NamesPublisher;
    hide ServesAnEstablish;
    var p, g := x.request.publisher, x.finalise.qosClass;
    assert a in z.Keys && p.address in z.Keys;
    HasPubEndpointGrows(y[p.address].site.registry, z[p.address].site.registry, p.serviceId, g);
    NamesPublisherGrows(y[p.address].site.registry, z[p.address].site.registry, x.finalise,
                        x.finalise.payload.publisherCsi.value);
    HasSubEndpointGrows(y[a].site.registry, z[a].site.registry, p.serviceId, g);
    if g.IpUdp? {
      ServesGrows(y, z, p.address, x.finalise);
    }
  }

  // ------------------------------------------------------------------ a message arrives

  /** The message is one that some host has sent to this one. */
  ghost predicate Arriving(y: Net, a: Address, m: Msg) {
    && m.receiver.address == a && m.sender.address in y
    && SentOk(y, m.sender.address, m)
    && exists i :: 0 <= i < |y[m.sender.address].site.sent| && y[m.sender.address].site.sent[i] == m
  }

  lemma ReplacingGrows(y: Net, a: Address, d: Desk)
    requires a in y && Grows(y[a].site.registry, d.site.registry) && y[a].site.sent <= d.site.sent
    ensures NetGrows(y, y[a := d])
  {
    var z := y[a := d];
    assert z.Keys == y.Keys;
    forall b | b in y
      ensures Grows(y[b].site.registry, z[b].site.registry) && y[b].site.sent <= z[b].site.sent
    {
      GrowsNot(y[b].site.registry);
      hide Grows;
    }
  }

  lemma NewMessageOk(y: Net, a: Address, m: Msg, d: Desk, i: nat)
    requires a in y && Arriving(y, a, m) && DeskFollows(y[a], m, d) && NetGrows(y, y[a := d])
    requires |y[a].site.sent| <= i < |d.site.sent|
    ensures SentOk(y[a := d], a, d.site.sent[i])
  {
    var z, x := y[a := d], d.site.sent[i];
    var p := m.sender.address;
    assert Justified(d.site.registry, Some(m), x) && x.sender == m.receiver && x.receiver == m.sender;
    hide DeskFollows;
    hide Grows;
    hide HasPubEndpoint;
    hide NamesPublisher;
    hide NamesConnector;
    hide HasRemote;
    assert p in z.Keys;
    if x.payload.Finalise? && x.qosClass.IpUdp? {
      var k :| 0 <= k < |y[p].site.sent| && y[p].site.sent[k] == m;
      assert z[p].site.sent[k] == m;
      assert Carries(z[a].site.registry, x, z[p].site.sent[k]);
    }
  }

  lemma EstablishLeftAnEndpoint(y: Net, a: Address, f: Msg)
    requires a in y && AllSentOk(y) && SentOk(y, f.sender.address, f)
    requires f.payload.Finalise? && f.qosClass.IpUdp? && f.receiver.address == a
    ensures HasSubEndpoint(y[a].site.registry, f.sender.serviceId, IpUdp)
  {
    hide HasPubEndpoint;
    hide NamesPublisher;
    hide HasRemote;
    var p := f.sender.address;
    var i :| 0 <= i < |y[a].site.sent| && Carries(y[p].site.registry, f, y[a].site.sent[i]);
    assert SentOk(y, a, y[a].site.sent[i]);
    NamedHasEndpoint(y[a].site.registry, f.sender.serviceId, y[a].site.sent[i].payload.subscriberCsi.value);
    hide HasSubEndpoint;
    hide NamesConnector;
  }

  lemma NamedHasEndpoint(r: Registry, s: int, csi: Csi)
    requires NamesConnector(r, s, csi)
    ensures HasSubEndpoint(r, s, IpUdp)
  {
  }

  lemma NewSuccessOk(y: Net, a: Address, m: Msg, d: Desk, i: nat)
    requires a in y && AllSentOk(y) && Arriving(y, a, m) && DeskFollows(y[a], m, d) && NetGrows(y, y[a := d])
    requires |y[a].site.successes| <= i < |d.site.successes|
    ensures SuccessOk(y[a := d], a, d.site.successes[i])
  {
    var z, x := y[a := d], d.site.successes[i];
    assert WonBy(d.site, x, m) && Grows(y[a].site.registry, d.site.registry);
    hide DeskFollows;
    hide Grows;
    hide HasSubEndpoint;
    hide HasPubEndpoint;
    hide NamesPublisher;
    hide ServesAnEstablish;
    SentOkGrows(y, z, m.sender.address, m);
    if m.qosClass.IpUdp? {
      EstablishLeftAnEndpoint(y, a, m);
      HasSubEndpointGrows(y[a].site.registry, d.site.registry, m.sender.serviceId, IpUdp);
    }
  }

  lemma SentStaysOk(y: Net, a: Address, d: Desk)
    requires a in y && AllSentOk(y) && y[a].site.sent <= d.site.sent && NetGrows(y, y[a := d])
    requires forall i :: |y[a].site.sent| <= i < |d.site.sent| ==> SentOk(y[a := d], a, d.site.sent[i])
    ensures AllSentOk(y[a := d])
  {
    var z := y[a := d];
    hide NetGrows;
    hide SentOk;
    forall b, i | b in z && 0 <= i < |z[b].site.sent|
      ensures SentOk(z, b, z[b].site.sent[i])
    {
      if b != a || i < |y[a].site.sent| {
        assert z[b].site.sent[i] == y[b].site.sent[i];
        SentOkGrows(y, z, b, y[b].site.sent[i]);
      }
    }
  }

  lemma SuccessesStayOk(y: Net, a: Address, d: Desk)
    requires a in y && AllSuccessesOk(y) && y[a].site.successes <= d.site.successes && NetGrows(y, y[a := d])
    requires forall i :: |y[a].site.successes| <= i < |d.site.successes| ==>
               SuccessOk(y[a := d], a, d.site.successes[i])
    ensures AllSuccessesOk(y[a := d])
  {
    var z := y[a := d];
    hide NetGrows;
    hide SuccessOk;
    forall b, i | b in z && 0 <= i < |z[b].site.successes|
      ensures SuccessOk(z, b, z[b].site.successes[i])
    {
      if b != a || i < |y[a].site.successes| {
        assert z[b].site.successes[i] == y[b].site.successes[i];
        SuccessOkGrows(y, z, b, y[b].site.successes[i]);
      }
    }
  }

  lemma DesksStayOk(y: Net, a: Address, d: Desk)
    requires a in y && AllDesksOk(y) && Sane(d.site.registry) && BrokersOk(d.brokers, a)
    ensures AllDesksOk(y[a := d])
  {
    hide Sane;
    hide BrokersOk;
    var z := y[a := d];
    forall b | b in z
      ensures DeskOk(z, b)
    {
      assert b in y && DeskOk(y, b);
    }
  }

  lemma FollowingKeepsInv(y: Net, a: Address, m: Msg, d: Desk)
    requires Inv(y) && a in y && Arriving(y, a, m)
    requires DeskFollows(y[a], m, d) && BrokersOk(d.brokers, a)
    ensures Inv(y[a := d])
  {
    ReplacingGrows(y, a, d);
    DesksStayOk(y, a, d);
    assert y[a].site.sent <= d.site.sent && y[a].site.successes <= d.site.successes;
    hide AllDesksOk;
    hide NetGrows;
    hide SentOk;
    hide SuccessOk;
    hide Arriving;
    hide DeskFollows;
    hide AllSentOk;
    hide AllSuccessesOk;
    forall i | |y[a].site.sent| <= i < |d.site.sent|
      ensures SentOk(y[a := d], a, d.site.sent[i])
    {
      NewMessageOk(y, a, m, d, i);
    }
    SentStaysOk(y, a, d);
    forall i | |y[a].site.successes| <= i < |d.site.successes|
      ensures SuccessOk(y[a := d], a, d.site.successes[i])
    {
      NewSuccessOk(y, a, m, d, i);
    }
    SuccessesStayOk(y, a, d);
  }

  // ------------------------------------------------------------------ every action

  lemma ArrivalKeepsInv(y: Net, to: Address, src: Address, k: nat)
    requires Inv(y) && CanHappen(y, Arrive(to, src, k)) && Dispatch(y[to], y[src].site.sent[k]).Ok?
    ensures Inv(y[to := Dispatch(y[to], y[src].site.sent[k]).value])
  {
    var m := y[src].site.sent[k];
    assert SentOk(y, src, m) && DeskOk(y, to);
    assert Arriving(y, to, m);
    DispatchFollows(y[to], m, to);
    hide Inv;
    hide DeskFollows;
    hide Dispatch;
    hide BrokersOk;
    hide Arriving;
    FollowingKeepsInv(y, to, m, Dispatch(y[to], m).value);
  }

  /** What a host does of its own accord: its registry grows, or it sends a request. */
  ghost predicate Quiet(d: Desk, e: Desk, host: Address) {
    && Sane(e.site.registry) && Grows(d.site.registry, e.site.registry)
    && e.site.successes == d.site.successes
    && d.site.sent <= e.site.sent
    && forall i :: |d.site.sent| <= i < |e.site.sent| ==>
         e.site.sent[i].payload.Request? && e.site.sent[i].sender.address == host
  }

  lemma RequestsAreOk(y: Net, a: Address, m: Msg)
    requires a in y && m.payload.Request? && m.sender.address == a
    ensures SentOk(y, a, m)
  {
  }

  lemma QuietKeepsInv(y: Net, a: Address, d: Desk)
    requires Inv(y) && a in y && Quiet(y[a], d, a) && BrokersOk(d.brokers, a)
    ensures Inv(y[a := d])
  {
    ReplacingGrows(y, a, d);
    DesksStayOk(y, a, d);
    hide Grows;
    hide Sane;
    hide BrokersOk;
    hide AllDesksOk;
    hide AllSentOk;
    hide AllSuccessesOk;
    hide NetGrows;
    hide SuccessOk;
    hide SentOk;
    forall i | |y[a].site.sent| <= i < |d.site.sent|
      ensures SentOk(y[a := d], a, d.site.sent[i])
    {
      RequestsAreOk(y[a := d], a, d.site.sent[i]);
    }
    SentStaysOk(y, a, d);
    SuccessesStayOk(y, a, d);
  }

  lemma StartIsQuiet(d: Desk, r: NegotiationRequest, host: Address)
    requires Sane(d.site.registry) && BrokersOk(d.brokers, host) && r.subscriber.address == host
    ensures Quiet(d, CreateBroker(d, r), host) && BrokersOk(CreateBroker(d, r).brokers, host)
  {
    GrowsNot(d.site.registry);
    hide Grows;
    hide Sane;
  }

  lemma StartKeepsInv(y: Net, a: Address, r: NegotiationRequest)
    requires Inv(y) && CanHappen(y, Start(a, r))
    ensures Inv(y[a := CreateBroker(y[a], r)])
  {
    assert DeskOk(y, a);
    hide Inv;
    hide Quiet;
    hide BrokersOk;
    hide Sane;
    hide CreateBroker;
    StartIsQuiet(y[a], r, a);
    QuietKeepsInv(y, a, CreateBroker(y[a], r));
  }

  lemma RegisterKeepsInv(y: Net, a: Address, r: Registry)
    requires Inv(y) && CanHappen(y, Register(a, r))
    ensures Inv(y[a := y[a].(site := y[a].site.(registry := r))])
  {
    assert DeskOk(y, a);
    hide Inv;
    hide BrokersOk;
    hide Sane;
    hide Grows;
    QuietKeepsInv(y, a, y[a].(site := y[a].site.(registry := r)));
  }

  lemma ActionKeepsInv(y: Net, x: Action)
    requires Inv(y) && CanHappen(y, x) && Act(y, x).Ok?
    ensures Inv(Act(y, x).value)
  {
    hide Inv;
    hide CreateBroker;
    hide Dispatch;
    match x {
      case Start(a, r) => StartKeepsInv(y, a, r);
      case Arrive(to, src, k) => ArrivalKeepsInv(y, to, src, k);
      case Register(a, r) => RegisterKeepsInv(y, a, r);
    }
  }

  lemma {:induction false} RunKeepsInv(y: Net, run: seq<Action>, z: Net)
    requires Inv(y) && RunsTo(y, run, z)
    ensures Inv(z)
    decreases |run|
  {
    if run != [] {
      ActionKeepsInv(y, run[0]);
      RunKeepsInv(Act(y, run[0]).value, run[1..], z);
    }
  }

  ghost predicate Initially(y: Net) {
    forall a :: a in y ==> y[a] == Desk([], Site(NOTHING, map[], [], []))
  }

  /** A Finalise that was answered for: what its Establish carried was the connector's. */
  lemma ServedConnector(y: Net, p: Address, f: Msg)
    requires Inv(y) && p in y && ServesAnEstablish(y, p, f) && f.qosClass.IpUdp? && f.sender.address == p
    ensures var a := f.receiver.address;
            && a in y
            && exists c :: c in SubsOf(y[a].site.registry, f.sender.serviceId) && c.apps != [] && GroupOf(c) == IpUdp
                 && HasRemote(y[p].site.registry, f.sender.serviceId, IpUdp,
                              Remote(c.apps[0].address, c.apps[0].udpPort))
  {
    var a := f.receiver.address;
    assert DeskOk(y, a) && Sane(y[a].site.registry);
    assert Homogeneous(SubsOf(y[a].site.registry, f.sender.serviceId));
    hide Sane;
    hide HasRemote;
    hide NamesPublisher;
    hide HasPubEndpoint;
    var i :| 0 <= i < |y[a].site.sent| && Carries(y[p].site.registry, f, y[a].site.sent[i]);
    var e := y[a].site.sent[i];
    assert SentOk(y, a, e);
    var csi := e.payload.subscriberCsi.value;
    var c :| c in SubsOf(y[a].site.registry, f.sender.serviceId) && c.apps != [] && GroupOf(c) == IpUdp
             && c.endpoint.Some? && csi.address == c.address && csi.port == c.udpPort;
    assert OneGroup(c);
    assert Remote(csi.address, csi.port) == Remote(c.apps[0].address, c.apps[0].udpPort);
  }

  /** Agreement. However many brokers run on however many hosts, and whatever the network loses,
      duplicates or reorders: a client succeeds, through a Finalise for some group, only if the
      publisher's host has an endpoint of the service and group, the Finalise names the publisher
      application's address and port, and the subscriber's host has an endpoint too; for the UDP
      group the publisher's remotes contain the subscriber application's address and UDP port,
      which an Establish carried there. */
  lemma {:induction false} SuccessMeansEndpoints(y: Net, run: seq<Action>, z: Net, a: Address, i: nat)
    requires Initially(y) && RunsTo(y, run, z)
    requires a in z && i < |z[a].site.successes|
    ensures var x := z[a].site.successes[i];
            var p, g := x.request.publisher, x.finalise.qosClass;
            && x.request.subscriber.address == a && x.finalise.sender == p
            && p.address in z
            && HasPubEndpoint(z[p.address].site.registry, p.serviceId, g)
            && x.finalise.payload.Finalise? && x.finalise.payload.publisherCsi.Some?
            && NamesPublisher(z[p.address].site.registry, x.finalise, x.finalise.payload.publisherCsi.value)
            && HasSubEndpoint(z[a].site.registry, p.serviceId, g)
            && (g.IpUdp? ==>
                  && ServesAnEstablish(z, p.address, x.finalise)
                  && exists c :: c in SubsOf(z[a].site.registry, p.serviceId) && c.apps != [] && GroupOf(c) == IpUdp
                       && HasRemote(z[p.address].site.registry, p.serviceId, IpUdp,
                                    Remote(c.apps[0].address, c.apps[0].udpPort)))
  {
    InitiallyInv(y);
    RunKeepsInv(y, run, z);
    var x := z[a].site.successes[i];
    assert SuccessOk(z, a, x);
    hide Inv;
    hide NamesPublisher;
    hide HasPubEndpoint;
    hide HasSubEndpoint;
    hide HasRemote;
    hide ServesAnEstablish;
    if x.finalise.qosClass.IpUdp? {
      ServedConnector(z, x.request.publisher.address, x.finalise);
    }
  }

  lemma InitiallyInv(y: Net)
    requires Initially(y)
    ensures Inv(y)
  {
    forall b | b in y
      ensures DeskOk(y, b)
    {
      NothingIsSane();
    }
  }
}
