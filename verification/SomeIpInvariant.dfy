/** Every event keeps the links between a host's keys and its registry, and which events throw. */
module SomeIpInvariant {
  import opened Base
  import opened SdHeader
  import opened SdCodec
  import opened UdpPublisher
  import opened Connectors
  import opened ConnectorGrowth
  import opened SomeIpNode
  import opened SomeIpHistory
  import opened SomeIpSchedule
  import opened SomeIpEvents
  import opened SomeIpLinks

  // ------------------------------------------------------------------ timers and finds

  /** Past its initial wait, or when that wait is over, an offer may be sent. */
  lemma OfferIsDue(n: Node, ref: Ref)
    requires AllSound(n) && ref in n.states && !n.states[ref].phase.InitialWait?
    ensures MayOffer(n, ref)
  {
    StateOfView(n, ref);
    assert Sound(n.params, n.now, ref, ViewOf(n, ref));
  }

  lemma FiredMayOffer(n: Node, k: nat)
    requires AllSound(n) && k < |n.timers| && n.timers[k].due == n.now && n.timers[k].ref in n.states
    ensures MayOffer(n, n.timers[k].ref)
  {
    var ref := n.timers[k].ref;
    if n.states[ref].phase.InitialWait? {
      StateOfView(n, ref);
      RemoveTimerView(n, k, ref);
      assert Sound(n.params, n.now, ref, ViewOf(n, ref));
    } else {
      OfferIsDue(n, ref);
    }
  }

  lemma FiringFollows(n: Node, k: nat, ev: Event)
    requires Linked(n) && AllSound(n) && !ev.Receive?
    requires k < |n.timers| && n.timers[k].due == n.now && n.timers[k].ref in n.states
    ensures FireTimer(n, k).Ok? && Follows(n, FireTimer(n, k).value, ev)
  {
    var t, m := n.timers[k], Unscheduled(n, k);
    FiringMoves(n, k);
    FiredMayOffer(n, k);
    hide AllSound;
    QuietFollows(n, m, ev);
    hide Linked;
    hide HandleWaitOver;
    hide HandleNextRepetition;
    assert Linked(m) by { FollowsLinked(n, m, ev); }
    match t.kind {
      case WaitOver => WaitOverFollows(m, t.ref, ev);
      case NextRepetition => NextRepetitionFollows(m, t.ref, ev);
      case CyclicOffer => CyclicFollows(m, t.ref, ev);
    }
    FollowsOn(n, m, FireTimer(n, k).value, ev);
  }

  /** The key is one that the Find asks for. */
  predicate Asks(q: Notification, ref: Ref) {
    ref.OfferRef? && ref.service == q.serviceId && (ref.instance == q.instanceId || q.instanceId == ANY_INSTANCE)
  }

  lemma AnswerFollows(n: Node, ref: Ref, to: Address, ev: Event)
    requires Linked(n) && AllSound(n)
    requires ev.Receive? && ev.kind.Find? && Asks(ev.notification, ref) && to == ev.notification.address
    ensures Follows(n, AnswerFind(n, ref, to), ev)
  {
    var m := AnswerFind(n, ref, to);
    if m == n {
      QuietFollows(n, n, ev);
    } else {
      OfferIsDue(n, ref);
      OfferingNamesItsRef(n, ref);
      hide Linked;
      LogFollows(n, LogEntry(n.now, Reply, Some(Message(Offer, n.states[ref].offering.(address := to)))), ev);
    }
  }

  lemma {:induction false} AnswerAllFollows(n: Node, s: int, instance: nat, to: Address, ev: Event)
    requires Linked(n) && AllSound(n)
    requires ev.Receive? && ev.kind.Find? && ev.notification.serviceId == s && to == ev.notification.address
    requires ev.notification.instanceId == ANY_INSTANCE
    ensures Follows(n, AnswerFindAll(n, s, instance, to), ev)
    decreases 0x1_0000 - instance
  {
    if 0xFFFF < instance {
      QuietFollows(n, n, ev);
    } else {
      var m := AnswerFind(n, OfferRef(s, instance), to);
      AnswerFollows(n, OfferRef(s, instance), to, ev);
      AnswerMoves(n, OfferRef(s, instance), to);
      MovesSound(n, m);
      FollowsLinked(n, m, ev);
      hide AnswerFind;
      hide Follows;
      AnswerAllFollows(m, s, instance + 1, to, ev);
      FollowsOn(n, m, AnswerFindAll(m, s, instance + 1, to), ev);
    }
  }

  lemma FindFollows(n: Node, q: Notification, ev: Event)
    requires Linked(n) && AllSound(n) && ev == Receive(Find, q)
    ensures Follows(n, LookForService(n, q), ev)
  {
    hide Linked;
    hide AllSound;
    hide Follows;
    hide AnswerFind;
    hide AnswerFindAll;
    QuietFollows(n, n, ev);
    AnswerFollows(n, OfferRef(q.serviceId, q.instanceId), q.address, ev);
    if q.instanceId == ANY_INSTANCE {
      AnswerAllFollows(n, q.serviceId, 0, q.address, ev);
    }
  }

  // ------------------------------------------------------------------ offers

  lemma RequestIsJustified(n: Node, ref: Ref, o: Notification, g: QoSGroup, c: SubConnector)
    requires c in SubsOf(n.registry, o.serviceId) && c.apps != [] && GroupOf(c) == g
    requires IsKeyFor(o, g, ref) && g in o.qosGroups
    ensures Justified(n, Receive(Offer, o),
                      LogEntry(n.now, RequestFor(ref), Some(Message(Subscribe, Subscription(o, g, c)))))
  {
  }

  lemma RequestFollows(n: Node, ref: Ref, o: Notification, g: QoSGroup, c: SubConnector, ev: Event)
    requires Linked(n) && ref in n.states && ref.SubRef? && n.states[ref].SubscriptionState?
    requires ev == Receive(Offer, o) && c in SubsOf(n.registry, o.serviceId) && c.apps != [] && GroupOf(c) == g
    requires IsKeyFor(o, g, ref) && g in o.qosGroups
    ensures Follows(n, RequestSubscription(n, ref, o, g, c), ev)
  {
    var st := n.states[ref].(phase := MainPhase, seen := true, requested := true);
    var m := Put(n, ref, st);
    assert LinkedRef(n.registry, ref, n.states[ref]);
    PutFollows(n, ref, st, ev);
    FollowsLinked(n, m, ev);
    RequestIsJustified(m, ref, o, g, c);
    hide Linked;
    hide LinkedRef;
    hide Justified;
    hide Follows;
    LogFollows(m, LogEntry(m.now, RequestFor(ref), Some(Message(Subscribe, Subscription(o, g, c)))), ev);
    FollowsOn(n, m, RequestSubscription(n, ref, o, g, c), ev);
  }

  lemma FoundConnector(r: Registry, s: int, g: QoSGroup)
    requires Valid(r)
    ensures Search(SubsOf(r, s), g).Ok?
    ensures var found := Search(SubsOf(r, s), g).value;
            found.Some? ==>
              var c := SubsOf(r, s)[found.value];
              c in SubsOf(r, s) && c.apps != [] && GroupOf(c) == g
  {
    assert Homogeneous(SubsOf(r, s));
    SearchIsExact(SubsOf(r, s), g);
  }

  lemma OfferForGroupRequests(n: Node, o: Notification, g: QoSGroup) returns (ref: Ref, c: Option<SubConnector>)
    requires Valid(n.registry)
    ensures c.None? ==> OfferForGroup(n, o, g) == Ok(n)
    ensures c.Some? ==>
              && PendingSubscription(n, o.serviceId, g, o.instanceId) == Some(ref)
              && ref in n.states && IsKeyFor(o, g, ref) && n.states[ref].SubscriptionState?
              && c.value in SubsOf(n.registry, o.serviceId) && c.value.apps != [] && GroupOf(c.value) == g
              && OfferForGroup(n, o, g) == Ok(RequestSubscription(n, ref, o, g, c.value))
  {
    FoundConnector(n.registry, o.serviceId, g);
    hide Valid;
    hide RequestSubscription;
    hide Search;
    var conns, pending := SubsOf(n.registry, o.serviceId), PendingSubscription(n, o.serviceId, g, o.instanceId);
    ref, c := SubRef(o.serviceId, g, o.instanceId), None;
    if pending.Some? {
      ref := pending.value;
      var found := Search(conns, g).value;
      if n.states[ref].SubscriptionState? && !n.states[ref].requested && found.Some? {
        c := Some(conns[found.value]);
      }
    }
  }

  lemma OfferForGroupFollows(n: Node, o: Notification, g: QoSGroup)
    requires Linked(n) && g in o.qosGroups
    ensures OfferForGroup(n, o, g).Ok?
    ensures Follows(n, OfferForGroup(n, o, g).value, Receive(Offer, o))
  {
    var ref, c := OfferForGroupRequests(n, o, g);
    hide OfferForGroup;
    hide Linked;
    hide Follows;
    if c.Some? {
      RequestFollows(n, ref, o, g, c.value, Receive(Offer, o));
    } else {
      QuietFollows(n, n, Receive(Offer, o));
    }
  }

  /** An offer, whatever it says, never makes the manager throw. */
  lemma {:induction false} OfferForGroupsFollows(n: Node, o: Notification, groups: seq<QoSGroup>)
    requires Linked(n) && AreOffered(o, groups)
    ensures OfferForGroups(n, o, groups).Ok?
    ensures Follows(n, OfferForGroups(n, o, groups).value, Receive(Offer, o))
    decreases |groups|
  {
    var ev := Receive(Offer, o);
    if groups == [] {
      QuietFollows(n, n, ev);
    } else {
      OfferForGroupFollows(n, o, groups[0]);
      var m := OfferForGroup(n, o, groups[0]).value;
      FollowsLinked(n, m, ev);
      hide Follows;
      hide OfferForGroup;
      OfferForGroupsFollows(m, o, groups[1..]);
      FollowsOn(n, m, OfferForGroups(m, o, groups[1..]).value, ev);
    }
  }

  // ------------------------------------------------------------------ subscriptions

  lemma ServingGrows(r: Registry, q: Notification)
    requires Sane(r) && q.serviceId in r.pubs && q.qosGroup in SOMEIP_GROUPS
    ensures var r' := ServeSubscription(r, q);
            && r'.Ok? && Grows(r, r'.value) && Sane(r'.value)
            && HasPubEndpoint(r'.value, q.serviceId, q.qosGroup)
            && (!q.qosGroup.SomeIpTcp? ==>
                  HasRemote(r'.value, q.serviceId, q.qosGroup, Remote(q.address, q.udpPort)))
  {
    PublisherEndpointGrows(r, q.serviceId, q.qosGroup, SOMEIP_GROUPS);
    var k := CreateOrFindPublisherEndpoint(r, q.serviceId, q.qosGroup, SOMEIP_GROUPS).value;
    RemoteAdded(k, q.serviceId, q.qosGroup, Remote(q.address, q.udpPort));
    GrowsOn(r, k, AddPublisherRemote(k, q.serviceId, q.qosGroup, Remote(q.address, q.udpPort)));
    hide Grows;
    hide Sane;
    hide HasPubEndpoint;
    hide HasRemote;
    hide CreateOrFindPublisherEndpoint;
    hide AddPublisherRemote;
  }

  lemma MarkingFollows(n: Node, ref: Ref, ev: Event)
    requires Linked(n) && ref.OfferRef?
    ensures Follows(n, MarkSubscribed(n, ref), ev)
  {
    QuietFollows(n, n, ev);
    if ref in n.states && n.states[ref].OfferState? {
      assert LinkedRef(n.registry, ref, n.states[ref]);
      hide Linked;
      PutFollows(n, ref, n.states[ref].(hasSubscription := true), ev);
    }
  }

  predicate Refused(n: Node, q: Notification) {
    q.serviceId in n.registry.pubs && q.qosGroup in n.registry.pubs[q.serviceId].app.groups
    && q.qosGroup !in SOMEIP_GROUPS
  }

  lemma AnswerIsJustified(n: Node, q: Notification, p: Publisher)
    requires q.qosGroup in SOMEIP_GROUPS && HasPubEndpoint(n.registry, q.serviceId, q.qosGroup)
    requires q.serviceId in n.registry.pubs && p.instanceId == n.registry.pubs[q.serviceId].app.instanceId
    requires !q.qosGroup.SomeIpTcp? ==> HasRemote(n.registry, q.serviceId, q.qosGroup, Remote(q.address, q.udpPort))
    ensures Justified(n, Receive(Subscribe, q),
                      LogEntry(n.now, Reply, Some(Message(SubscribeAck, Acknowledgement(q, p)))))
  {
    hide HasPubEndpoint;
    hide HasRemote;
  }

  lemma AnsweringFollows(n: Node, q: Notification, p: Publisher)
    requires Linked(n) && q.qosGroup in SOMEIP_GROUPS
    requires q.serviceId in n.registry.pubs && p == n.registry.pubs[q.serviceId].app && q.qosGroup in p.groups
    ensures AcknowledgeSubscription(n, q).Ok?
    ensures Follows(n, AcknowledgeSubscription(n, q).value, Receive(Subscribe, q))
  {
    var ev := Receive(Subscribe, q);
    ServingGrows(n.registry, q);
    var a := n.(registry := ServeSubscription(n.registry, q).value);
    RegistryFollows(n, a.registry, ev);
    FollowsLinked(n, a, ev);
    ApplicationStays(n.registry, a.registry, q.serviceId);
    hide Linked;
    hide HasPubEndpoint;
    hide HasRemote;
    hide Grows;
    hide ServeSubscription;
    hide Follows;
    var b := MarkSubscribed(a, OfferRef(p.serviceId, p.instanceId));
    MarkingFollows(a, OfferRef(p.serviceId, p.instanceId), ev);
    FollowsLinked(a, b, ev);
    assert b.registry == a.registry;
    AnswerIsJustified(b, q, p);
    hide Justified;
    hide Acknowledgement;
    LogFollows(b, LogEntry(b.now, Reply, Some(Message(SubscribeAck, Acknowledgement(q, p)))), ev);
    FollowsOn(n, a, b, ev);
    FollowsOn(n, b, AcknowledgeSubscription(n, q).value, ev);
  }

  /** A subscription makes the manager throw exactly when it asks for an offered group that is not a
      SOME/IP one. */
  lemma AcknowledgingFollows(n: Node, q: Notification)
    requires Linked(n)
    ensures AcknowledgeSubscription(n, q).Ok? <==> !Refused(n, q)
    ensures AcknowledgeSubscription(n, q).Ok? ==>
              Follows(n, AcknowledgeSubscription(n, q).value, Receive(Subscribe, q))
  {
    QuietFollows(n, n, Receive(Subscribe, q));
    if q.serviceId in n.registry.pubs {
      var p := n.registry.pubs[q.serviceId].app;
      if q.qosGroup in p.groups && q.qosGroup in SOMEIP_GROUPS {
        AnsweringFollows(n, q, p);
      }
    }
  }

  // ------------------------------------------------------------------ acknowledgements

  lemma EndpointFollows(n: Node, s: int, g: QoSGroup, ev: Event)
    requires Linked(n) && g in SOMEIP_GROUPS && HasConnector(n.registry, s, g)
    ensures var m := CreateSubscriberEndpoint(n, s, g);
            && m.Ok? && m.value == n.(registry := m.value.registry)
            && Follows(n, m.value, ev) && HasSubEndpoint(m.value.registry, s, g)
  {
    SubscriberEndpointGrows(n.registry, s, g, SOMEIP_GROUPS);
    hide CreateOrFindSubscriberEndpoint;
    hide HasSubEndpoint;
    RegistryFollows(n, CreateSubscriberEndpoint(n, s, g).value.registry, ev);
  }

  lemma ActivationFollows(n: Node, ref: Ref, ev: Event)
    requires Linked(n) && ref.SubRef? && ref in n.states && n.states[ref].SubscriptionState?
    requires HasSubEndpoint(n.registry, ref.service, ref.group) && ByAck(ev, ref)
    ensures Follows(n, Put(n, ref, n.states[ref].(active := true, requested := false))
                         .(log := n.log + [LogEntry(n.now, AcceptFor(ref), None)]), ev)
  {
    var st := n.states[ref].(active := true, requested := false);
    var m, e := Put(n, ref, st), LogEntry(n.now, AcceptFor(ref), None);
    assert LinkedRef(n.registry, ref, n.states[ref]);
    assert LinkedRef(n.registry, ref, st);
    PutFollows(n, ref, st, ev);
    FollowsLinked(n, m, ev);
    hide Linked;
    LogFollows(m, e, ev);
    FollowsOn(n, m, m.(log := m.log + [e]), ev);
  }

  lemma KeyIsLinked(n: Node, ref: Ref)
    requires Linked(n) && ref.SubRef? && ref in n.states
    ensures n.states[ref].SubscriptionState? && HasConnector(n.registry, ref.service, ref.group)
    ensures n.states[ref].active ==> HasSubEndpoint(n.registry, ref.service, ref.group)
  {
    assert LinkedRef(n.registry, ref, n.states[ref]);
  }

  lemma UnknownGroupRefused(n: Node, s: int, g: QoSGroup)
    requires g !in SOMEIP_GROUPS
    ensures CreateSubscriberEndpoint(n, s, g).Err?
  {
  }

  lemma AcceptFollows(n: Node, ref: Ref, ev: Event)
    requires Linked(n) && ref.SubRef? && ByAck(ev, ref)
    ensures ref.group in SOMEIP_GROUPS ==> AcceptAck(n, ref).Ok?
    ensures AcceptAck(n, ref).Ok? ==> Follows(n, AcceptAck(n, ref).value, ev)
  {
    hide Linked;
    hide Follows;
    hide HasSubEndpoint;
    hide HasConnector;
    hide CreateSubscriberEndpoint;
    QuietFollows(n, n, ev);
    if IsRequested(n, ref) {
      KeyIsLinked(n, ref);
      if n.states[ref].active {
        ActivationFollows(n, ref, ev);
      } else if ref.group in SOMEIP_GROUPS {
        EndpointFollows(n, ref.service, ref.group, ev);
        var m := CreateSubscriberEndpoint(n, ref.service, ref.group).value;
        FollowsLinked(n, m, ev);
        ActivationFollows(m, ref, ev);
        FollowsOn(n, m, AcceptAck(n, ref).value, ev);
      } else {
        UnknownGroupRefused(n, ref.service, ref.group);
      }
    }
  }

  lemma AckForGroupFollows(n: Node, a: Notification, g: QoSGroup)
    requires Linked(n) && g in a.qosGroups
    ensures g in SOMEIP_GROUPS ==> AckForGroup(n, a, g).Ok?
    ensures AckForGroup(n, a, g).Ok? ==> Follows(n, AckForGroup(n, a, g).value, Receive(SubscribeAck, a))
  {
    var ev := Receive(SubscribeAck, a);
    var one, any := SubRef(a.serviceId, g, a.instanceId), SubRef(a.serviceId, g, ANY_INSTANCE);
    hide Linked;
    hide Follows;
    hide AcceptAck;
    AcceptFollows(n, one, ev);
    if AcceptAck(n, one).Ok? {
      var m := AcceptAck(n, one).value;
      FollowsLinked(n, m, ev);
      AcceptFollows(m, any, ev);
      if AcceptAck(m, any).Ok? {
        FollowsOn(n, m, AcceptAck(m, any).value, ev);
      }
    }
  }

  lemma {:induction false} AckForGroupsFollows(n: Node, a: Notification, groups: seq<QoSGroup>)
    requires Linked(n) && forall g :: g in groups ==> g in a.qosGroups
    ensures (forall g :: g in groups ==> g in SOMEIP_GROUPS) ==> AckForGroups(n, a, groups).Ok?
    ensures AckForGroups(n, a, groups).Ok? ==>
              Follows(n, AckForGroups(n, a, groups).value, Receive(SubscribeAck, a))
    decreases |groups|
  {
    var ev := Receive(SubscribeAck, a);
    if groups == [] {
      QuietFollows(n, n, ev);
    } else {
      hide Linked;
      hide Follows;
      hide AckForGroup;
      AckForGroupFollows(n, a, groups[0]);
      if AckForGroup(n, a, groups[0]).Ok? {
        var m := AckForGroup(n, a, groups[0]).value;
        FollowsLinked(n, m, ev);
        AckForGroupsFollows(m, a, groups[1..]);
        if AckForGroups(m, a, groups[1..]).Ok? {
          FollowsOn(n, m, AckForGroups(m, a, groups[1..]).value, ev);
        }
      }
    }
  }

  /** An acknowledgement of SOME/IP groups never throws. */
  lemma AckFollows(n: Node, a: Notification)
    requires Linked(n)
    ensures a.qosGroups <= SOMEIP_GROUPS ==> ProcessAcknowledged(n, a).Ok?
    ensures ProcessAcknowledged(n, a).Ok? ==>
              Follows(n, ProcessAcknowledged(n, a).value, Receive(SubscribeAck, a))
  {
    InEnumOrderVisitsTheSet(a.qosGroups);
    AckForGroupsFollows(n, a, InEnumOrder(a.qosGroups));
  }

  // ------------------------------------------------------------------ registration

  predicate PublisherAccepted(n: Node, p: Publisher) {
    && p.serviceId !in n.registry.pubs
    && (p.isStatic ==> SomeIpUdpMcast in p.groups && 0 < p.mcastPort && 0xE000_0000 <= p.mcastAddr < 0xF000_0000)
  }

  lemma StaticPublisherGrows(r: Registry, p: Publisher)
    requires Sane(r) && p.serviceId in r.pubs
    ensures RegisterStaticPublisher(r, p).Ok?
            <==> SomeIpUdpMcast in p.groups && ProperMulticast(p.mcastAddr, p.mcastPort)
    ensures RegisterStaticPublisher(r, p).Ok? ==>
              Sane(RegisterStaticPublisher(r, p).value) && Grows(r, RegisterStaticPublisher(r, p).value)
  {
    PublisherEndpointGrows(r, p.serviceId, SomeIpUdpMcast, SOMEIP_GROUPS);
    var k := CreateOrFindPublisherEndpoint(r, p.serviceId, SomeIpUdpMcast, SOMEIP_GROUPS).value;
    var remote := Remote(p.mcastAddr, p.mcastPort);
    RemoteAdded(k, p.serviceId, SomeIpUdpMcast, remote);
    GrowsOn(r, k, AddPublisherRemote(k, p.serviceId, SomeIpUdpMcast, remote));
    hide Grows;
    hide Sane;
    hide CreateOrFindPublisherEndpoint;
    hide AddPublisherRemote;
  }

  /** The manager refuses a publisher exactly when its service is published here already or its
      static multicast data is incomplete: the offer table never holds its instance before. */
  lemma PublisherFollows(n: Node, p: Publisher, delay: real, ev: Event)
    requires Linked(n) && 0.0 <= delay && !ev.Receive?
    ensures RegisterPublisherService(n, p, delay).Ok? <==> PublisherAccepted(n, p)
    ensures PublisherAccepted(n, p) ==> Follows(n, RegisterPublisherService(n, p, delay).value, ev)
  {
    if p.serviceId !in n.registry.pubs {
      var a := n.(registry := RegisterPublisher(n.registry, p).value);
      PublisherGrows(n.registry, p);
      RegistryFollows(n, a.registry, ev);
      FollowsLinked(n, a, ev);
      var ref := OfferRef(p.serviceId, p.instanceId);
      assert ref in n.states ==> LinkedRef(n.registry, ref, n.states[ref]);
      StaticPublisherGrows(a.registry, p);
      hide RegisterStaticPublisher;
      hide StartInitialWait;
      if p.isStatic {
        if PublisherAccepted(n, p) {
          var r' := RegisterStaticPublisher(a.registry, p).value;
          RegistryFollows(a, r', ev);
          FollowsOn(n, a, a.(registry := r'), ev);
        }
      } else {
        StartingFollows(a, ref, NewOffer(p), delay, ev);
        FollowsOn(n, a, StartInitialWait(a, ref, NewOffer(p), delay), ev);
      }
    }
  }

  ghost predicate IsConnected(n: Node, s: int, app: Subscriber) {
    HasApp(n.registry, s, app)
  }

  ghost predicate SubscriberAccepted(n: Node, s: int, app: Subscriber) {
    && !IsConnected(n, s, app)
    && (app.isStatic && !HasConnector(n.registry, s, app.group) ==>
          app.group.SomeIpUdpMcast? && 0 < app.mcastPort && 0xE000_0000 <= app.mcastAddr < 0xF000_0000)
  }

  lemma KeyHasConnector(n: Node, s: int, g: QoSGroup, i: int)
    requires Linked(n) && SubRef(s, g, i) in n.states
    ensures HasConnector(n.registry, s, g)
  {
    assert LinkedRef(n.registry, SubRef(s, g, i), n.states[SubRef(s, g, i)]);
  }

  lemma NoKeyWithoutConnector(n: Node, s: int, g: QoSGroup)
    requires Linked(n)
    ensures !HasConnector(n.registry, s, g) ==> forall i :: SubRef(s, g, i) !in n.states
  {
    forall i
      ensures SubRef(s, g, i) in n.states ==> HasConnector(n.registry, s, g)
    {
      if SubRef(s, g, i) in n.states {
        KeyHasConnector(n, s, g, i);
      }
    }
  }

  lemma DiscoveringFollows(n: Node, s: int, instance: int, app: Subscriber, delay: real, ev: Event)
    requires Linked(n) && HasConnector(n.registry, s, app.group)
    requires !ev.Receive? && forall i :: SubRef(s, app.group, i) !in n.states
    ensures DiscoverService(n, s, instance, app, delay).Ok?
            <==> (app.isStatic ==> app.group.SomeIpUdpMcast? && ProperMulticast(app.mcastAddr, app.mcastPort))
    ensures DiscoverService(n, s, instance, app, delay).Ok? ==>
              Follows(n, DiscoverService(n, s, instance, app, delay).value, ev)
  {
    var ref := SubRef(s, app.group, instance);
    hide StartInitialWait;
    if app.isStatic {
      if app.group.SomeIpUdpMcast? {
        SubscriberEndpointGrows(n.registry, s, SomeIpUdpMcast, SOMEIP_GROUPS);
        RegistryFollows(n, CreateOrFindSubscriberEndpoint(n.registry, s, SomeIpUdpMcast, SOMEIP_GROUPS).value, ev);
      }
    } else {
      assert LinkedRef(n.registry, ref, NEW_SUBSCRIPTION);
      hide Linked;
      StartingFollows(n, ref, NEW_SUBSCRIPTION, delay, ev);
    }
  }

  lemma CreatedExactlyWithout(n: Node, s: int, app: Subscriber)
    requires Linked(n)
    ensures RegisterSubscriber(n.registry, s, app).Ok? <==> !IsConnected(n, s, app)
    ensures RegisterSubscriber(n.registry, s, app).Ok? ==>
              (RegisterSubscriber(n.registry, s, app).value.created <==> !HasConnector(n.registry, s, app.group))
  {
    RegisteringKeepsValid(n.registry, s, app);
    hide RegisterSubscriber;
    assert Homogeneous(SubsOf(n.registry, s));
    assert forall c :: c in SubsOf(n.registry, s) ==> OneGroup(c);
  }

  /** A subscriber is refused exactly when it is connected already or its static multicast data is
      incomplete: the subscription table never holds its service and group before. */
  lemma SubscriberFollows(n: Node, s: int, instance: int, app: Subscriber, delay: real, ev: Event)
    requires Linked(n) && 0.0 <= delay && !ev.Receive?
    ensures RegisterSubscriberService(n, s, instance, app, delay).Ok? <==> SubscriberAccepted(n, s, app)
    ensures SubscriberAccepted(n, s, app) ==>
              Follows(n, RegisterSubscriberService(n, s, instance, app, delay).value, ev)
  {
    CreatedExactlyWithout(n, s, app);
    NoKeyWithoutConnector(n, s, app.group);
    hide IsConnected;
    if RegisterSubscriber(n.registry, s, app).Ok? {
      var reg := RegisterSubscriber(n.registry, s, app).value;
      var a := n.(registry := reg.registry);
      SubscriberGrows(n.registry, s, app);
      RegistryFollows(n, a.registry, ev);
      FollowsLinked(n, a, ev);
      hide RegisterSubscriber;
      hide Linked;
      hide HasConnector;
      hide Grows;
      hide DiscoverService;
      hide Follows;
      if reg.created {
        DiscoveringFollows(a, s, instance, app, delay, ev);
        var m := DiscoverService(a, s, instance, app, delay);
        if m.Ok? {
          FollowsOn(n, a, m.value, ev);
        }
      }
    }
  }
}
