/** Why completion asks for one open negotiation per endpoint pair: with two, the response to the
    second is dropped, and its client waits for good. */
module QosStuck {
  import opened Base
  import opened Connectors
  import opened ConnectorGrowth
  import opened QosBroker
  import opened QosSafety
  import opened QosAgreement
  import opened QosHandshake
  import opened QosCompletion

  // ------------------------------------------------------------------ the first broker of the pair

  lemma FirstIsResponsible(b: Broker, rest: seq<Broker>, m: Msg)
    requires IsResponsibleFor(b, m.receiver, m.sender)
    ensures Responsible([b] + rest, m.receiver, m.sender) == Some(0)
  {
  }

  ghost predicate Unfinished(brokers: seq<Broker>) {
    forall b :: b in brokers ==> !b.finished
  }

  lemma FirstHandles(s: Site, b: Broker, rest: seq<Broker>, m: Msg, o: Outcome)
    requires IsResponsibleFor(b, m.receiver, m.sender) && Unfinished([b] + rest)
    requires HandleMessage(b, s, m) == Ok(o) && o.handled
    ensures Dispatch(Desk([b] + rest, s), m)
         == Ok(Desk(if o.broker.finished then rest else [o.broker] + rest, o.site))
  {
    hide HandleMessage;
    hide Dispatch;
    hide OfferToNewBroker;
    FirstIsResponsible(b, rest, m);
    OneBrokerActs(Desk([b] + rest, s), m);
    assert ([b] + rest)[0] == b;
    assert Settle([b] + rest, 0, o.broker) == if o.broker.finished then rest else [o.broker] + rest;
  }

  lemma FirstPassesOn(s: Site, b: Broker, rest: seq<Broker>, m: Msg)
    requires IsResponsibleFor(b, m.receiver, m.sender) && Unfinished([b] + rest)
    requires HandleMessage(b, s, m) == Ok(Outcome(b, s, false))
    ensures Dispatch(Desk([b] + rest, s), m) == OfferToNewBroker(Desk([b] + rest, s), m)
  {
    hide HandleMessage;
    hide Dispatch;
    hide OfferToNewBroker;
    FirstIsResponsible(b, rest, m);
    OneBrokerActs(Desk([b] + rest, s), m);
    assert ([b] + rest)[0] == b;
  }

  // ------------------------------------------------------------------ the brokers of the two sides

  function Client(r: NegotiationRequest, state: BrokerState): Broker {
    Broker(r.subscriber, r.publisher, state, Some(r), false)
  }

  function Server(r: NegotiationRequest): Broker {
    Broker(r.publisher, r.subscriber, ServerPendingAccept, None, false)
  }

  function Ask(r: NegotiationRequest): Msg {
    Msg(Request, r.group, r.subscriber, r.publisher)
  }

  function Agree(r: NegotiationRequest): Msg {
    Msg(Response(true), r.group, r.publisher, r.subscriber)
  }

  ghost predicate SamePair(r1: NegotiationRequest, r2: NegotiationRequest) {
    r1.subscriber == r2.subscriber && r1.publisher == r2.publisher
  }

  /** A request opens a session even when the pair has one already. */
  lemma AskedOnceMore(s: Site, brokers: seq<Broker>, r: NegotiationRequest)
    requires brokers == [] || brokers == [Server(r)]
    ensures Dispatch(Desk(brokers, s), Ask(r)) == Ok(Desk(brokers + [Server(r)], Emit(s, Agree(r))))
  {
    NewBrokerOnlyTakesRequests(Desk(brokers, s), Ask(r));
    hide OfferToNewBroker;
    if brokers != [] {
      FirstPassesOn(s, Server(r), [], Ask(r));
      assert [Server(r)] + [] == brokers;
    }
  }

  /** What one side sends next, in the same session. */
  ghost predicate FollowsUp(m: Msg, e: Msg) {
    WellFormed(e) && e.qosClass == m.qosClass && e.sender == m.receiver && e.receiver == m.sender
  }

  lemma ResponseIsTaken(s: Site, r: NegotiationRequest) returns (t: Site, e: Msg)
    requires Sane(s.registry) && r.group in QOS_GROUPS && HasConnector(s.registry, r.publisher.serviceId, r.group)
    ensures HandleMessage(Client(r, ClientPendingRequest), s, Agree(r))
         == Ok(Outcome(Client(r, ClientPendingConnection), t, true))
    ensures t.sent == s.sent + [e] && Sane(t.registry) && Grows(s.registry, t.registry)
    ensures t.statuses == s.statuses[r.id := EstablishSend]
    ensures e.payload.Establish? && FollowsUp(Agree(r), e)
  {
    hide Sane;
    hide Grows;
    hide HasConnector;
    PreparedGrows(s, r.publisher.serviceId, r.group);
    var p := PrepareEstablish(s, r.publisher.serviceId, r.group).value;
    hide PrepareEstablish;
    e := Msg(Establish(p.1), r.group, r.subscriber, r.publisher);
    t := WithStatus(Emit(s.(registry := p.0), e), Client(r, ClientPendingRequest), EstablishSend);
  }

  /** The first client takes the response to its request. */
  lemma FirstResponse(s: Site, r1: NegotiationRequest, r2: NegotiationRequest) returns (t: Site, e: Msg)
    requires Sane(s.registry) && r1.group in QOS_GROUPS && HasConnector(s.registry, r1.publisher.serviceId, r1.group)
    ensures var c := Client(r2, ClientPendingRequest);
            Dispatch(Desk([Client(r1, ClientPendingRequest), c], s), Agree(r1))
            == Ok(Desk([Client(r1, ClientPendingConnection), c], t))
    ensures t.sent == s.sent + [e] && Sane(t.registry) && Grows(s.registry, t.registry)
    ensures t.statuses == s.statuses[r1.id := EstablishSend]
    ensures e.payload.Establish? && FollowsUp(Agree(r1), e)
  {
    hide HandleMessage;
    hide Dispatch;
    hide Sane;
    hide Grows;
    hide HasConnector;
    t, e := ResponseIsTaken(s, r1);
    var b, c := Client(r1, ClientPendingRequest), Client(r2, ClientPendingRequest);
    var b' := Client(r1, ClientPendingConnection);
    FirstHandles(s, b, [c], Agree(r1), Outcome(b', t, true));
    assert [b] + [c] == [b, c] && [b'] + [c] == [b', c];
  }

  /** The response to the second request meets the first client, who does not wait for one. */
  lemma SecondResponse(s: Site, r1: NegotiationRequest, r2: NegotiationRequest)
    requires SamePair(r1, r2)
    ensures var d := Desk([Client(r1, ClientPendingConnection), Client(r2, ClientPendingRequest)], s);
            Dispatch(d, Agree(r2)) == Ok(d)
  {
    var b, c := Client(r1, ClientPendingConnection), Client(r2, ClientPendingRequest);
    NewBrokerOnlyTakesRequests(Desk([b, c], s), Agree(r2));
    hide OfferToNewBroker;
    FirstPassesOn(s, b, [c], Agree(r2));
    assert [b] + [c] == [b, c];
  }

  lemma EstablishIsTaken(s: Site, r: NegotiationRequest, e: Msg) returns (t: Site, f: Msg)
    requires Sane(s.registry) && r.group in QOS_GROUPS && r.publisher.serviceId in s.registry.pubs
    requires e.payload.Establish? && FollowsUp(Agree(r), e)
    ensures HandleMessage(Server(r), s, e)
         == Ok(Outcome(Server(r).(state := ServerSessionEstablished, finished := true), t, true))
    ensures t.sent == s.sent + [f] && f.payload.Finalise? && FollowsUp(e, f)
  {
    hide Sane;
    hide Grows;
    hide HasPubEndpoint;
    hide HasRemote;
    PublisherEndpointGrows(s.registry, r.publisher.serviceId, r.group, QOS_GROUPS);
    assert Accept(s, r.publisher, e).Ok?;
    hide CreateOrFindPublisherEndpoint;
    var k := Accept(s, r.publisher, e).value;
    hide Accept;
    f := Msg(Finalise(true, Some(PublisherCsi(k, r.publisher, r.group))), r.group, r.publisher, r.subscriber);
    t := Emit(s.(registry := k), f);
  }

  /** The first of the two sessions takes the Establish. */
  lemma FirstEstablish(s: Site, r1: NegotiationRequest, e: Msg) returns (t: Site, f: Msg)
    requires Sane(s.registry) && r1.group in QOS_GROUPS && r1.publisher.serviceId in s.registry.pubs
    requires e.payload.Establish? && FollowsUp(Agree(r1), e)
    ensures Dispatch(Desk([Server(r1), Server(r1)], s), e) == Ok(Desk([Server(r1)], t))
    ensures t.sent == s.sent + [f] && f.payload.Finalise? && FollowsUp(e, f)
  {
    hide HandleMessage;
    hide Dispatch;
    hide Sane;
    t, f := EstablishIsTaken(s, r1, e);
    var b := Server(r1);
    FirstHandles(s, b, [b], e, Outcome(b.(state := ServerSessionEstablished, finished := true), t, true));
    assert [b] + [b] == [b, b];
  }

  lemma FinaliseIsTaken(s: Site, r: NegotiationRequest, f: Msg) returns (t: Site)
    requires Sane(s.registry) && HasConnector(s.registry, r.publisher.serviceId, r.group)
    requires f.payload.Finalise? && FollowsUp(Ask(r), f)
    ensures HandleMessage(Client(r, ClientPendingConnection), s, f)
         == Ok(Outcome(Client(r, ClientSuccess).(finished := true), t, true))
    ensures t.sent == s.sent && t.statuses == s.statuses[r.id := FinalisedSuccess]
  {
    hide Sane;
    hide Grows;
    hide HasConnector;
    ConcludedGrows(s.registry, r.publisher.serviceId, f);
    var b, k := Client(r, ClientPendingConnection), Conclude(s.registry, r.publisher.serviceId, f.payload.publisherCsi);
    hide Conclude;
    t := WithSuccess(WithStatus(s.(registry := k.value), b, FinalisedSuccess), b, f);
  }

  /** The first client succeeds; the second is all that is left. */
  lemma FirstFinalise(s: Site, r1: NegotiationRequest, r2: NegotiationRequest, f: Msg) returns (t: Site)
    requires Sane(s.registry) && HasConnector(s.registry, r1.publisher.serviceId, r1.group)
    requires f.payload.Finalise? && FollowsUp(Ask(r1), f)
    ensures var c := Client(r2, ClientPendingRequest);
            Dispatch(Desk([Client(r1, ClientPendingConnection), c], s), f) == Ok(Desk([c], t))
    ensures t.sent == s.sent && t.statuses == s.statuses[r1.id := FinalisedSuccess]
  {
    hide HandleMessage;
    hide Dispatch;
    hide Sane;
    hide HasConnector;
    t := FinaliseIsTaken(s, r1, f);
    var b, c := Client(r1, ClientPendingConnection), Client(r2, ClientPendingRequest);
    FirstHandles(s, b, [c], f, Outcome(Client(r1, ClientSuccess).(finished := true), t, true));
    assert [b] + [c] == [b, c];
  }

  // ------------------------------------------------------------------ the run

  function Deliveries(n: nat): seq<Step> {
    if n == 0 then [] else [Deliver(0)] + Deliveries(n - 1)
  }

  /** The first message in flight is delivered; what the receiver sends goes to the end. */
  lemma OneDelivery(f: Flow, m: Msg, rest: seq<Msg>, e: Desk, reply: seq<Msg>) returns (z: Flow)
    requires f.flight == [m] + rest && m.receiver.address in f.net
    requires Dispatch(f.net[m.receiver.address], m) == Ok(e)
    requires e.site.sent == f.net[m.receiver.address].site.sent + reply
    ensures Possible(f, Deliver(0)) && Take(f, Deliver(0)) == Ok(z)
    ensures z == Flow(f.net[m.receiver.address := e], rest + reply, f.begun, f.deliveries + 1)
  {
    hide Dispatch;
    z := Flow(f.net[m.receiver.address := e], rest + reply, f.begun, f.deliveries + 1);
    assert Without(f.flight, 0) == rest;
    assert NewlySent(f.net[m.receiver.address], e) == reply;
  }

  lemma DeliverFirst(f: Flow, g: Flow, n: nat, z: Flow)
    requires Possible(f, Deliver(0)) && Take(f, Deliver(0)) == Ok(g)
    requires QosCompletion.RunsTo(g, Deliveries(n), z)
    ensures QosCompletion.RunsTo(f, Deliveries(n + 1), z)
  {
    hide Possible;
    hide Take;
    assert Deliveries(n + 1)[1..] == Deliveries(n);
  }

  /** Both negotiations are begun. */
  lemma BothBegun(f: Flow, r1: NegotiationRequest, r2: NegotiationRequest) returns (g: Flow, t: Site)
    requires SamePair(r1, r2) && r1.subscriber.address in f.net
    requires f.flight == [] && f.net[r1.subscriber.address].brokers == []
    ensures var a := r1.subscriber.address;
            && g == Begun(Begun(f, a, r1), a, r2)
            && g.net == f.net[a := Desk([Client(r1, ClientPendingRequest), Client(r2, ClientPendingRequest)], t)]
            && g.flight == [Ask(r1), Ask(r2)]
            && t.registry == f.net[a].site.registry
            && t.statuses == f.net[a].site.statuses[r1.id := RequestSend][r2.id := RequestSend]
  {
    var a := r1.subscriber.address;
    var s := f.net[a].site;
    var f1 := Begun(f, a, r1);
    var c1, c2 := Client(r1, ClientPendingRequest), Client(r2, ClientPendingRequest);
    g := Begun(f1, a, r2);
    var s1 := s.(sent := s.sent + [Ask(r1)], statuses := s.statuses[r1.id := RequestSend]);
    t := s1.(sent := s1.sent + [Ask(r2)], statuses := s1.statuses[r2.id := RequestSend]);
    assert f1.net[a] == Desk([c1], s1);
    assert f1.flight == [Ask(r1)];
    assert [c1] + [c2] == [c1, c2];
    assert g.net[a] == Desk([c1, c2], t);
    assert g.flight == [Ask(r1), Ask(r2)];
    assert g.net == f.net[a := Desk([c1, c2], t)];
  }

  ghost predicate Steps(f: Flow, g: Flow, h: Flow) {
    && Possible(f, Deliver(0)) && Take(f, Deliver(0)) == Ok(g)
    && Possible(g, Deliver(0)) && Take(g, Deliver(0)) == Ok(h)
  }

  lemma TwoSteps(f: Flow, g: Flow, h: Flow, n: nat, z: Flow)
    requires Steps(f, g, h) && QosCompletion.RunsTo(h, Deliveries(n), z)
    ensures QosCompletion.RunsTo(f, Deliveries(n + 2), z)
  {
    hide Possible;
    hide Take;
    hide QosCompletion.RunsTo;
    DeliverFirst(g, h, n, z);
    DeliverFirst(f, g, n + 1, z);
  }

  /** Both requests arrive: each opens a session. */
  lemma TwoSessions(f: Flow, r1: NegotiationRequest, r2: NegotiationRequest, u: Site)
      returns (g: Flow, h: Flow, v: Site)
    requires SamePair(r1, r2) && r1.publisher.address in f.net && f.net[r1.publisher.address] == Desk([], u)
    requires f.flight == [Ask(r1), Ask(r2)]
    ensures Steps(f, g, h) && h.flight == [Agree(r1), Agree(r2)] && v.registry == u.registry
    ensures h.net == f.net[r1.publisher.address := Desk([Server(r1), Server(r1)], v)]
  {
    hide Possible;
    hide Take;
    hide Dispatch;
    var b := r1.publisher.address;
    var u1 := Emit(u, Agree(r1));
    AskedOnceMore(u, [], r1);
    assert [] + [Server(r1)] == [Server(r1)] && [Ask(r1)] + [Ask(r2)] == [Ask(r1), Ask(r2)];
    g := OneDelivery(f, Ask(r1), [Ask(r2)], Desk([Server(r1)], u1), [Agree(r1)]);
    v := Emit(u1, Agree(r2));
    AskedOnceMore(u1, [Server(r1)], r2);
    assert [Server(r1)] + [Server(r1)] == [Server(r1), Server(r1)];
    assert g.net[b] == Desk([Server(r1)], u1);
    assert g.flight == [Ask(r2)] + [Agree(r1)];
    h := OneDelivery(g, Ask(r2), [Agree(r1)], Desk([Server(r1), Server(r1)], v), [Agree(r2)]);
    assert h.net == f.net[b := Desk([Server(r1), Server(r1)], v)];
  }

  /** Both responses arrive: the first client takes its own, and the other is dropped. */
  lemma TwoResponses(f: Flow, r1: NegotiationRequest, r2: NegotiationRequest, s: Site)
      returns (g: Flow, h: Flow, t: Site, e: Msg)
    requires SamePair(r1, r2) && r1.subscriber.address in f.net && f.flight == [Agree(r1), Agree(r2)]
    requires f.net[r1.subscriber.address]
          == Desk([Client(r1, ClientPendingRequest), Client(r2, ClientPendingRequest)], s)
    requires Sane(s.registry) && r1.group in QOS_GROUPS && HasConnector(s.registry, r1.publisher.serviceId, r1.group)
    ensures Steps(f, g, h) && h.flight == [e] && e.payload.Establish? && FollowsUp(Agree(r1), e)
    ensures h.net == f.net[r1.subscriber.address := Desk([Client(r1, ClientPendingConnection),
                                                          Client(r2, ClientPendingRequest)], t)]
    ensures Sane(t.registry) && Grows(s.registry, t.registry) && t.statuses == s.statuses[r1.id := EstablishSend]
  {
    hide Possible;
    hide Take;
    hide Dispatch;
    hide Sane;
    hide Grows;
    hide HasConnector;
    hide FollowsUp;
    var a := r1.subscriber.address;
    t, e := FirstResponse(s, r1, r2);
    var d := Desk([Client(r1, ClientPendingConnection), Client(r2, ClientPendingRequest)], t);
    assert [Agree(r1)] + [Agree(r2)] == [Agree(r1), Agree(r2)];
    g := OneDelivery(f, Agree(r1), [Agree(r2)], d, [e]);
    SecondResponse(t, r1, r2);
    assert g.net[a] == d && t.sent + [] == t.sent && [e] + [] == [e];
    h := OneDelivery(g, Agree(r2), [e], d, []);
    assert h.net == f.net[a := d];
  }

  /** The Establish and the Finalise arrive: the first negotiation succeeds. */
  lemma FirstConcludes(f: Flow, r1: NegotiationRequest, r2: NegotiationRequest, s: Site, u: Site, e: Msg)
      returns (g: Flow, h: Flow, t: Site, v: Site)
    requires SamePair(r1, r2) && r1.subscriber.address != r1.publisher.address && f.flight == [e]
    requires r1.subscriber.address in f.net && r1.publisher.address in f.net && r1.group in QOS_GROUPS
    requires f.net[r1.subscriber.address]
          == Desk([Client(r1, ClientPendingConnection), Client(r2, ClientPendingRequest)], s)
    requires f.net[r1.publisher.address] == Desk([Server(r1), Server(r1)], u)
    requires e.payload.Establish? && FollowsUp(Agree(r1), e)
    requires Sane(s.registry) && HasConnector(s.registry, r1.publisher.serviceId, r1.group)
    requires Sane(u.registry) && r1.publisher.serviceId in u.registry.pubs
    ensures Steps(f, g, h) && h.flight == []
    ensures r1.subscriber.address in h.net
    ensures h.net[r1.subscriber.address] == Desk([Client(r2, ClientPendingRequest)], t)
    ensures r1.publisher.address in h.net && h.net[r1.publisher.address] == Desk([Server(r1)], v)
    ensures t.statuses == s.statuses[r1.id := FinalisedSuccess]
  {
    hide Possible;
    hide Take;
    hide Dispatch;
    hide Sane;
    hide Grows;
    hide HasConnector;
    hide WellFormed;
    var x;
    v, x := FirstEstablish(u, r1, e);
    assert [e] + [] == [e] && [] + [x] == [x] + [];
    g := OneDelivery(f, e, [], Desk([Server(r1)], v), [x]);
    t := FirstFinalise(s, r1, r2, x);
    assert t.sent == s.sent + [];
    h := OneDelivery(g, x, [], Desk([Client(r2, ClientPendingRequest)], t), []);
  }

  /** Two negotiations for one pair of endpoints, whatever groups they ask for: when the messages are
      delivered in the order in which they were sent, the first succeeds and the second is stuck. Nothing
      is in flight any more, its client still waits for the response that was dropped, its status is that
      its request was sent, and the publisher keeps a session for it. */
  lemma SecondNegotiationIsStuck(f: Flow, r1: NegotiationRequest, r2: NegotiationRequest) returns (z: Flow)
    requires f.flight == [] && SamePair(r1, r2) && r1.id != r2.id
    requires Ready(f.net, r1.subscriber, r1.publisher, r1.group) && Ready(f.net, r2.subscriber, r2.publisher, r2.group)
    requires f.net[r1.subscriber.address].brokers == [] && Sane(f.net[r1.subscriber.address].site.registry)
    requires f.net[r1.publisher.address].brokers == [] && Sane(f.net[r1.publisher.address].site.registry)
    ensures var a := r1.subscriber.address;
            QosCompletion.RunsTo(Begun(Begun(f, a, r1), a, r2), Deliveries(6), z)
    ensures z.flight == []
    ensures var a, b := r1.subscriber.address, r1.publisher.address;
            && a in z.net && z.net[a].brokers == [Client(r2, ClientPendingRequest)]
            && r1.id in z.net[a].site.statuses && z.net[a].site.statuses[r1.id] == FinalisedSuccess
            && r2.id in z.net[a].site.statuses && z.net[a].site.statuses[r2.id] == RequestSend
            && b in z.net && z.net[b].brokers == [Server(r2)]
  {
    hide QosCompletion.RunsTo;
    hide Steps;
    hide Sane;
    hide HasConnector;
    hide Grows;
    hide FollowsUp;
    hide Deliveries;
    var a, b := r1.subscriber.address, r1.publisher.address;
    var g, s := BothBegun(f, r1, r2);
    hide Begun;
    assert f.net[b] == Desk([], f.net[b].site);
    var g1, g2, v := TwoSessions(g, r1, r2, f.net[b].site);
    var g3, g4, t, e := TwoResponses(g2, r1, r2, s);
    HasConnectorGrows(s.registry, t.registry, r1.publisher.serviceId, r1.group);
    var g5, g6, t', v' := FirstConcludes(g4, r1, r2, t, v, e);
    z := g6;
    NoDeliveries(g6);
    TwoSteps(g4, g5, g6, 0, z);
    TwoSteps(g2, g3, g4, 2, z);
    TwoSteps(g, g1, g2, 4, z);
  }

  lemma NoDeliveries(f: Flow)
    ensures QosCompletion.RunsTo(f, Deliveries(0), f)
  {
  }

  // ------------------------------------------------------------------ an ordinary input

  lemma FirstConnector(s: int, app: Subscriber)
    ensures var first := RegisterSubscriber(NOTHING, s, app);
            first.Ok? && SubsOf(first.value.registry, s) == [NewSubConnector(CountSubs(map[]), app)]
  {
  }

  lemma OtherGroupRegisters(r: Registry, s: int, c: SubConnector, app: Subscriber)
    requires SubsOf(r, s) == [c] && c.apps != [] && c.apps[0].group != app.group
    ensures RegisterSubscriber(r, s, app).Ok?
  {
    hide SubsOf;
    assert [c][1..] == [];
    assert Search([], app.group) == Ok(None);
    assert Search([c], app.group) == Ok(None);
  }

  /** Two applications of one host that subscribe to one service with different groups. */
  lemma TwoConnectors(s: int, tcp: Subscriber, rt: Subscriber) returns (r: Registry)
    requires tcp.group == IpTcp && rt.group == Rt
    ensures var first := RegisterSubscriber(NOTHING, s, tcp);
            first.Ok? && var second := RegisterSubscriber(first.value.registry, s, rt);
                         second.Ok? && r == second.value.registry
    ensures Sane(r) && HasConnector(r, s, IpTcp) && HasConnector(r, s, Rt)
  {
    hide Sane;
    hide Grows;
    hide HasConnector;
    hide RegisterSubscriber;
    NothingIsSane();
    FirstConnector(s, tcp);
    SubscriberGrows(NOTHING, s, tcp);
    var first := RegisterSubscriber(NOTHING, s, tcp).value.registry;
    OtherGroupRegisters(first, s, NewSubConnector(CountSubs(map[]), tcp), rt);
    SubscriberGrows(first, s, rt);
    r := RegisterSubscriber(first, s, rt).value.registry;
    HasConnectorGrows(first, r, s, IpTcp);
  }

  /** Their two requests to the publisher of the service, which one offer makes, are such a pair. */
  lemma TwoSubscribersOfOneService(a: Address, b: Address, tcp: Subscriber, rt: Subscriber, p: Publisher)
      returns (f: Flow, r1: NegotiationRequest, r2: NegotiationRequest, z: Flow)
    requires a != b && tcp.group == IpTcp && rt.group == Rt
    ensures f.net.Keys == {a, b} && r1.group == IpTcp && r2.group == Rt
    ensures QosCompletion.RunsTo(Begun(Begun(f, a, r1), a, r2), Deliveries(6), z)
    ensures z.flight == [] && a in z.net && z.net[a].brokers == [Client(r2, ClientPendingRequest)]
  {
    hide Sane;
    hide Grows;
    hide HasConnector;
    hide QosCompletion.RunsTo;
    hide Begun;
    hide Deliveries;
    NothingIsSane();
    PublisherGrows(NOTHING, p);
    var ra := TwoConnectors(p.serviceId, tcp, rt);
    var rb := RegisterPublisher(NOTHING, p).value;
    f := Flow(map[a := Desk([], Site(ra, map[], [], [])), b := Desk([], Site(rb, map[], [], []))], [], [], 0);
    var c, d := EndpointDescription(p.serviceId, a, 0), EndpointDescription(p.serviceId, b, 0);
    r1, r2 := NegotiationRequest(0, c, d, IpTcp), NegotiationRequest(1, c, d, Rt);
    z := SecondNegotiationIsStuck(f, r1, r2);
  }
}
