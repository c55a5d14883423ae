/** What a host has after each event, in full: applications, endpoints, remotes and discovery states,
    and that nothing else has changed. */
module SomeIpEffects {
  import opened Base
  import opened SdHeader
  import opened SdCodec
  import opened UdpPublisher
  import opened Connectors
  import opened ConnectorGrowth
  import opened SomeIpNode
  import opened SomeIpLinks
  import opened SomeIpInvariant
  import opened SomeIpRuns
  import opened SomeIpOffers
  import opened SomeIpTheorems
  import opened SomeIpHost
  import opened SomeIpMessages

  // ------------------------------------------------------------------ what does not change

  ghost predicate SameAllBut(a: map<Ref, SdState>, b: map<Ref, SdState>, ref: Ref) {
    forall r :: r != ref ==> (r in b <==> r in a) && (r in a ==> b[r] == a[r])
  }

  /** Sending moves a key on in its phases and changes nothing else about it or the host. */
  ghost predicate OnlyProceeds(n: Node, m: Node, ref: Ref) {
    && m.registry == n.registry && m.now == n.now && SameAllBut(n.states, m.states, ref)
    && ref in n.states && ref in m.states
    && var a, b := n.states[ref], m.states[ref];
       b == a.(phase := b.phase, numRepetitions := b.numRepetitions)
  }

  lemma NextRepetitionProceeds(n: Node, ref: Ref)
    requires ref in n.states
    ensures OnlyProceeds(n, HandleNextRepetition(n, ref), ref)
  {
  }

  lemma WaitOverProceeds(n: Node, ref: Ref)
    requires ref in n.states
    ensures OnlyProceeds(n, HandleWaitOver(n, ref), ref)
  {
    NextRepetitionProceeds(ExecuteSd(n, ref), ref);
    hide HandleNextRepetition;
  }

  /** A key that the host did not have waits for its initial delay, counted from now. */
  ghost predicate IsNewKey(n: Node, m: Node, ref: Ref, delay: real) {
    && SameAllBut(n.states, m.states, ref) && ref in m.states
    && m.states[ref].initialDelay == delay && m.states[ref].waitOver == m.now + delay
  }

  ghost predicate IsUnanswered(st: SdState) {
    st.SubscriptionState? && !st.seen && !st.requested && !st.active
  }

  ghost predicate OffersFor(st: SdState, p: Publisher) {
    st.OfferState? && TellsPublisher(st.offering, p) && st.offering.address == UNSPECIFIED && !st.hasSubscription
  }

  lemma StartingProceeds(n: Node, ref: Ref, st: SdState, delay: real)
    ensures var m := StartInitialWait(n, ref, st, delay);
            && m.registry == n.registry && m.now == n.now && IsNewKey(n, m, ref, delay)
            && (IsUnanswered(st) ==> IsUnanswered(m.states[ref]))
            && forall p :: OffersFor(st, p) ==> OffersFor(m.states[ref], p)
  {
    hide HandleWaitOver;
    hide TellsPublisher;
    var k := Put(n, ref, st.(phase := InitialWait, initialDelay := delay, waitOver := n.now + delay));
    assert IsNewKey(n, k, ref, delay);
    if delay == 0.0 {
      WaitOverProceeds(k, ref);
    }
  }

  lemma FiringProceeds(n: Node, k: nat)
    requires k < |n.timers| && n.timers[k].ref in n.states && FireTimer(n, k).Ok?
    ensures OnlyProceeds(n, FireTimer(n, k).value, n.timers[k].ref)
  {
    var t, m := n.timers[k], n.(timers := n.timers[..k] + n.timers[k + 1..]);
    WaitOverProceeds(m, t.ref);
    NextRepetitionProceeds(m, t.ref);
    hide HandleWaitOver;
    hide HandleNextRepetition;
  }

  ghost predicate SameDiscovery(n: Node, m: Node) {
    m.states == n.states && m.timers == n.timers && m.log == n.log
  }

  // ------------------------------------------------------------------ a publisher

  /** The application is published, and everything else is as before. */
  ghost predicate Publishes(a: Registry, b: Registry, p: Publisher) {
    && b.subs == a.subs && b.pubs.Keys == a.pubs.Keys + {p.serviceId}
    && b.pubs[p.serviceId].app == p && b.pubs[p.serviceId].index == |a.pubs|
    && forall s :: s in a.pubs && s != p.serviceId ==> b.pubs[s] == a.pubs[s]
  }

  /** A static publisher sends to its multicast group from the start; there is nothing to discover. */
  ghost predicate SendsToItsGroup(n: Node, m: Node, p: Publisher) {
    && SameDiscovery(n, m)
    && (forall g :: HasPubEndpoint(m.registry, p.serviceId, g) <==> g == SomeIpUdpMcast)
    && (forall g, x :: HasRemote(m.registry, p.serviceId, g, x)
          <==> g == SomeIpUdpMcast && x == Remote(p.mcastAddr, p.mcastPort))
  }

  /** Any other publisher is offered, and has no endpoint until somebody subscribes. */
  ghost predicate IsOfferedFrom(n: Node, m: Node, p: Publisher, delay: real) {
    var ref := OfferRef(p.serviceId, p.instanceId);
    && ref !in n.states && IsNewKey(n, m, ref, delay) && OffersFor(m.states[ref], p)
    && forall g :: !HasPubEndpoint(m.registry, p.serviceId, g)
  }

  lemma EndpointKeepsPublished(a: Registry, r: Registry, p: Publisher, g: QoSGroup)
    requires Publishes(a, r, p) && CreateOrFindPublisherEndpoint(r, p.serviceId, g, SOMEIP_GROUPS).Ok?
    ensures Publishes(a, CreateOrFindPublisherEndpoint(r, p.serviceId, g, SOMEIP_GROUPS).value, p)
  {
    hide SearchPubEndpoint;
  }

  lemma RemoteKeepsPublished(a: Registry, r: Registry, p: Publisher, g: QoSGroup, x: Remote)
    requires Publishes(a, r, p)
    ensures Publishes(a, AddPublisherRemote(r, p.serviceId, g, x), p)
  {
    hide AddTo;
  }

  lemma StaticPublisherSends(a: Registry, r: Registry, p: Publisher)
    requires Publishes(a, r, p) && r.pubs[p.serviceId].endpoints == [] && RegisterStaticPublisher(r, p).Ok?
    ensures var k := RegisterStaticPublisher(r, p).value;
            && Publishes(a, k, p)
            && (forall g :: HasPubEndpoint(k, p.serviceId, g) <==> g == SomeIpUdpMcast)
            && (forall g, x :: HasRemote(k, p.serviceId, g, x)
                  <==> g == SomeIpUdpMcast && x == Remote(p.mcastAddr, p.mcastPort))
  {
    hide Publishes;
    hide CreateOrFindPublisherEndpoint;
    hide AddPublisherRemote;
    var s, remote := p.serviceId, Remote(p.mcastAddr, p.mcastPort);
    var k := CreateOrFindPublisherEndpoint(r, s, SomeIpUdpMcast, SOMEIP_GROUPS).value;
    PublisherEndpointChanges(r, s, SomeIpUdpMcast, SOMEIP_GROUPS);
    EndpointKeepsPublished(a, r, p, SomeIpUdpMcast);
    RemoteChanges(k, s, SomeIpUdpMcast, remote);
    RemoteKeepsPublished(a, k, p, SomeIpUdpMcast, remote);
  }

  lemma PublisherOffered(n: Node, r: Registry, p: Publisher, delay: real)
    requires OfferRef(p.serviceId, p.instanceId) !in n.states
    requires p.serviceId in r.pubs && r.pubs[p.serviceId].endpoints == []
    ensures var m := StartInitialWait(n.(registry := r), OfferRef(p.serviceId, p.instanceId), NewOffer(p), delay);
            m.now == n.now && m.registry == r && IsOfferedFrom(n, m, p, delay)
  {
    hide StartInitialWait;
    hide HasPubEndpoint;
    assert OffersFor(NewOffer(p), p);
    StartingProceeds(n.(registry := r), OfferRef(p.serviceId, p.instanceId), NewOffer(p), delay);
    NotServing(r, p.serviceId);
  }

  lemma NewPublisher(r: Registry, p: Publisher)
    requires RegisterPublisher(r, p).Ok?
    ensures var r' := RegisterPublisher(r, p).value;
            Publishes(r, r', p) && r'.pubs[p.serviceId].endpoints == []
  {
  }

  lemma PublisherServes(n: Node, r: Registry, p: Publisher)
    requires Publishes(n.registry, r, p) && r.pubs[p.serviceId].endpoints == [] && RegisterStaticPublisher(r, p).Ok?
    ensures var m := n.(registry := RegisterStaticPublisher(r, p).value);
            Publishes(n.registry, m.registry, p) && SendsToItsGroup(n, m, p)
  {
    hide Publishes;
    hide RegisterStaticPublisher;
    hide HasPubEndpoint;
    hide HasRemote;
    StaticPublisherSends(n.registry, r, p);
  }

  lemma PublisherRegistered(n: Node, p: Publisher, delay: real)
    requires RegisterPublisherService(n, p, delay).Ok?
    ensures var m := RegisterPublisherService(n, p, delay).value;
            && m.now == n.now && Publishes(n.registry, m.registry, p)
            && (if p.isStatic then SendsToItsGroup(n, m, p) else IsOfferedFrom(n, m, p, delay))
  {
    hide RegisterPublisher;
    hide RegisterStaticPublisher;
    hide StartInitialWait;
    hide Publishes;
    hide SendsToItsGroup;
    hide IsOfferedFrom;
    NewPublisher(n.registry, p);
    var r := RegisterPublisher(n.registry, p).value;
    if p.isStatic {
      PublisherServes(n, r, p);
    } else {
      PublishedHere(n.registry, r, p);
      PublisherOffered(n, r, p, delay);
    }
  }

  lemma PublishedHere(a: Registry, b: Registry, p: Publisher)
    requires Publishes(a, b, p)
    ensures p.serviceId in b.pubs
  {
  }

  lemma NotServing(r: Registry, s: int)
    requires s in r.pubs ==> r.pubs[s].endpoints == []
    ensures forall g :: !HasPubEndpoint(r, s, g)
  {
  }

  /** A publisher that is accepted. */
  lemma PublisherIsRegistered(n: Node, at: real, p: Publisher, delay: real)
    requires Reachable(n) && Enabled(n, at, AddPublisher(p, delay)) && PublisherAccepted(n, p)
    ensures Step(n, at, AddPublisher(p, delay)).Ok?
    ensures var m := Step(n, at, AddPublisher(p, delay)).value;
            && m.now == at && Publishes(n.registry, m.registry, p)
            && (if p.isStatic then SendsToItsGroup(n, m, p) else IsOfferedFrom(n, m, p, delay))
  {
    hide Reachable;
    hide Good;
    hide Linked;
    hide RegisterPublisherService;
    hide Publishes;
    hide Follows;
    hide OffersFor;
    hide HasPubEndpoint;
    hide HasRemote;
    ReachableIsGood(n);
    GoodIsLinked(n, at);
    PublisherFollows(n.(now := at), p, delay, AddPublisher(p, delay));
    PublisherRegistered(n.(now := at), p, delay);
  }

  // ------------------------------------------------------------------ a subscriber

  /** The application is connected, and everything else is as before. */
  ghost predicate Connects(a: Registry, b: Registry, s: int, app: Subscriber) {
    && b.pubs == a.pubs
    && (forall t, x :: HasApp(b, t, x) <==> HasApp(a, t, x) || (t == s && x == app))
    && (forall t, g :: HasConnector(b, t, g) <==> HasConnector(a, t, g) || (t == s && g == app.group))
  }

  ghost predicate SameSubEndpoints(a: Registry, b: Registry) {
    forall t, g :: HasSubEndpoint(b, t, g) <==> HasSubEndpoint(a, t, g)
  }

  /** The registry has changed in one connector of a service: it is new, or it has one application more. */
  ghost predicate OneMoreApp(before: seq<SubConnector>, after: seq<SubConnector>, k: nat, app: Subscriber) {
    && k < |after| && after[k].apps != [] && GroupOf(after[k]) == app.group
    && (forall i :: 0 <= i < |before| && i != k ==> i < |after| && after[i] == before[i])
    && (if k < |before| then
          |after| == |before| && before[k].apps != [] && GroupOf(before[k]) == app.group
          && after[k].apps == before[k].apps + [app] && after[k].endpoint == before[k].endpoint
        else k == |before| && |after| == |before| + 1 && after[k].apps == [app] && after[k].endpoint.None?)
  }

  lemma OneMoreAppIsThere(before: seq<SubConnector>, after: seq<SubConnector>, k: nat, app: Subscriber, x: Subscriber)
    requires OneMoreApp(before, after, k, app)
    ensures (exists c :: c in after && x in c.apps) <==> (exists c :: c in before && x in c.apps) || x == app
  {
    assert after[k] in after;
    if c :| c in before && x in c.apps {
      var i :| 0 <= i < |before| && before[i] == c;
      assert after[i] in after;
    }
    if c :| c in after && x in c.apps {
      var i :| 0 <= i < |after| && after[i] == c;
      assert i < |before| ==> before[i] in before;
    }
  }

  lemma OneMoreAppKeepsGroups(before: seq<SubConnector>, after: seq<SubConnector>, k: nat, app: Subscriber, g: QoSGroup)
    requires OneMoreApp(before, after, k, app)
    ensures (exists c :: c in after && c.apps != [] && GroupOf(c) == g)
            <==> (exists c :: c in before && c.apps != [] && GroupOf(c) == g) || g == app.group
  {
    assert after[k] in after;
    if c :| c in before && c.apps != [] && GroupOf(c) == g {
      var i :| 0 <= i < |before| && before[i] == c;
      assert after[i] in after && GroupOf(after[i]) == g;
    }
    if d :| d in after && d.apps != [] && GroupOf(d) == g && g != app.group {
      var i :| 0 <= i < |after| && after[i] == d;
      assert before[i] in before;
    }
  }

  lemma OneMoreAppKeepsEndpoints(before: seq<SubConnector>, after: seq<SubConnector>, k: nat, app: Subscriber,
                                 g: QoSGroup)
    requires OneMoreApp(before, after, k, app)
    ensures HasEndpointIn(after, g) <==> HasEndpointIn(before, g)
  {
    if HasEndpointIn(before, g) {
      var i :| 0 <= i < |before| && before[i].apps != [] && GroupOf(before[i]) == g && before[i].endpoint.Some?;
      assert after[i] in after && GroupOf(after[i]) == g;
    }
    if HasEndpointIn(after, g) {
      var i :| 0 <= i < |after| && after[i].apps != [] && GroupOf(after[i]) == g && after[i].endpoint.Some?;
      assert before[i] in before;
    }
  }

  /** Registering an application connects it, and changes nothing else. */
  lemma SubscriberConnects(r: Registry, s: int, app: Subscriber)
    requires Valid(r) && RegisterSubscriber(r, s, app).Ok?
    ensures var r' := RegisterSubscriber(r, s, app).value.registry;
            Connects(r, r', s, app) && SameSubEndpoints(r, r')
  {
    hide Valid;
    hide OneMoreApp;
    hide HasEndpointIn;
    var k := OneAppRegistered(r, s, app);
    hide RegisterSubscriber;
    var r' := RegisterSubscriber(r, s, app).value.registry;
    forall t, x
      ensures HasApp(r', t, x) <==> HasApp(r, t, x) || (t == s && x == app)
    {
      OneMoreAppIsThere(SubsOf(r, s), SubsOf(r', s), k, app, x);
    }
    forall t, g
      ensures HasConnector(r', t, g) <==> HasConnector(r, t, g) || (t == s && g == app.group)
      ensures HasSubEndpoint(r', t, g) <==> HasSubEndpoint(r, t, g)
    {
      OneMoreAppKeepsGroups(SubsOf(r, s), SubsOf(r', s), k, app, g);
      OneMoreAppKeepsEndpoints(SubsOf(r, s), SubsOf(r', s), k, app, g);
      assert HasSubEndpoint(r, s, g) <==> HasEndpointIn(SubsOf(r, s), g) by { EndpointIsIn(r, s, g); }
      assert HasSubEndpoint(r', s, g) <==> HasEndpointIn(SubsOf(r', s), g) by { EndpointIsIn(r', s, g); }
    }
  }

  lemma OneAppRegistered(r: Registry, s: int, app: Subscriber) returns (k: nat)
    requires Valid(r) && RegisterSubscriber(r, s, app).Ok?
    ensures var r' := RegisterSubscriber(r, s, app).value.registry;
            && r'.pubs == r.pubs && (forall t :: t != s ==> SubsOf(r', t) == SubsOf(r, t))
            && OneMoreApp(SubsOf(r, s), SubsOf(r', s), k, app)
  {
    k := RegisteringConnects(r, s, app);
    hide RegisterSubscriber;
    hide Valid;
  }

  lemma SameConnectorsConnect(a: Registry, b: Registry, t: int, x: Subscriber, g: QoSGroup)
    requires SameConnectors(a, b)
    ensures HasApp(b, t, x) <==> HasApp(a, t, x)
    ensures HasConnector(b, t, g) <==> HasConnector(a, t, g)
  {
    var before, after := SubsOf(a, t), SubsOf(b, t);
    hide SubsOf;
    assert forall i :: 0 <= i < |before| ==> after[i].apps == before[i].apps;
    hide SameConnectors;
    SameAppsSameMembers(before, after, x, g);
    SameAppsSameMembers(after, before, x, g);
  }

  lemma SameAppsSameMembers(before: seq<SubConnector>, after: seq<SubConnector>, x: Subscriber, g: QoSGroup)
    requires |after| == |before| && forall i :: 0 <= i < |before| ==> after[i].apps == before[i].apps
    ensures (exists c :: c in before && x in c.apps) ==> exists c :: c in after && x in c.apps
    ensures (exists c :: c in before && c.apps != [] && GroupOf(c) == g) ==>
              exists c :: c in after && c.apps != [] && GroupOf(c) == g
  {
    if c :| c in before && x in c.apps {
      var i :| 0 <= i < |before| && before[i] == c;
      assert after[i] in after;
    }
    if c :| c in before && c.apps != [] && GroupOf(c) == g {
      var i :| 0 <= i < |before| && before[i] == c;
      assert after[i] in after && GroupOf(after[i]) == g;
    }
  }

  lemma ConnectsOn(a: Registry, b: Registry, c: Registry, s: int, app: Subscriber)
    requires Connects(a, b, s, app) && SameConnectors(b, c) && c.pubs == b.pubs
    ensures Connects(a, c, s, app)
  {
    hide SameConnectors;
    hide HasApp;
    hide HasConnector;
    forall t, x
      ensures HasApp(c, t, x) <==> HasApp(b, t, x)
    {
      SameConnectorsConnect(b, c, t, x, app.group);
    }
    forall t, g
      ensures HasConnector(c, t, g) <==> HasConnector(b, t, g)
    {
      SameConnectorsConnect(b, c, t, app, g);
    }
  }

  /** A static subscriber gets its multicast endpoint at once; there is nothing to discover. */
  ghost predicate ListensToItsGroup(n: Node, m: Node, s: int) {
    && SameDiscovery(n, m)
    && forall t, g :: HasSubEndpoint(m.registry, t, g)
                      <==> HasSubEndpoint(n.registry, t, g) || (t == s && g == SomeIpUdpMcast)
  }

  /** Any other subscriber is searched for, from the end of its initial delay on. */
  ghost predicate IsSearchedFor(n: Node, m: Node, s: int, g: QoSGroup, instance: int, delay: real) {
    var ref := SubRef(s, g, instance);
    && ref !in n.states && IsNewKey(n, m, ref, delay) && IsUnanswered(m.states[ref])
    && SameSubEndpoints(n.registry, m.registry)
  }

  lemma StaticSubscriberListens(n: Node, k: Node, s: int, instance: int, app: Subscriber, delay: real)
    requires Connects(n.registry, k.registry, s, app) && SameSubEndpoints(n.registry, k.registry)
    requires SameDiscovery(n, k) && Valid(k.registry)
    requires app.isStatic && DiscoverService(k, s, instance, app, delay).Ok?
    ensures var m := DiscoverService(k, s, instance, app, delay).value;
            m.now == k.now && Connects(n.registry, m.registry, s, app) && ListensToItsGroup(n, m, s)
  {
    hide Valid;
    hide Connects;
    hide SameConnectors;
    hide HasSubEndpoint;
    hide CreateOrFindSubscriberEndpoint;
    SubscriberEndpointChanges(k.registry, s, SomeIpUdpMcast, SOMEIP_GROUPS);
    ConnectsOn(n.registry, k.registry, DiscoverService(k, s, instance, app, delay).value.registry, s, app);
  }

  lemma SubscriberSearches(n: Node, k: Node, s: int, instance: int, app: Subscriber, delay: real)
    requires SameSubEndpoints(n.registry, k.registry) && SameDiscovery(n, k)
    requires forall i :: SubRef(s, app.group, i) !in n.states
    requires !app.isStatic && DiscoverService(k, s, instance, app, delay).Ok?
    ensures var m := DiscoverService(k, s, instance, app, delay).value;
            m.now == k.now && m.registry == k.registry && IsSearchedFor(n, m, s, app.group, instance, delay)
  {
    hide StartInitialWait;
    hide HasSubEndpoint;
    StartingProceeds(k, SubRef(s, app.group, instance), NEW_SUBSCRIPTION, delay);
  }

  lemma SubscriberRegistered(n: Node, s: int, instance: int, app: Subscriber, delay: real)
    requires Linked(n) && RegisterSubscriberService(n, s, instance, app, delay).Ok?
    ensures var m := RegisterSubscriberService(n, s, instance, app, delay).value;
            && m.now == n.now && Connects(n.registry, m.registry, s, app)
            && (if HasConnector(n.registry, s, app.group) then
                  SameDiscovery(n, m) && SameSubEndpoints(n.registry, m.registry)
                else if app.isStatic then ListensToItsGroup(n, m, s)
                else IsSearchedFor(n, m, s, app.group, instance, delay))
  {
    CreatedExactlyWithout(n, s, app);
    NoKeyWithoutConnector(n, s, app.group);
    RegisteringKeepsValid(n.registry, s, app);
    SubscriberConnects(n.registry, s, app);
    hide Linked;
    hide Connects;
    hide SameSubEndpoints;
    hide HasConnector;
    hide RegisterSubscriber;
    hide DiscoverService;
    hide ListensToItsGroup;
    hide IsSearchedFor;
    var reg := RegisterSubscriber(n.registry, s, app).value;
    if reg.created {
      var k := n.(registry := reg.registry);
      if app.isStatic {
        StaticSubscriberListens(n, k, s, instance, app, delay);
      } else {
        SubscriberSearches(n, k, s, instance, app, delay);
      }
    }
  }

  /** A subscriber that is accepted. */
  lemma SubscriberIsRegistered(n: Node, at: real, s: int, instance: int, app: Subscriber, delay: real)
    requires Reachable(n) && Enabled(n, at, AddSubscriber(s, instance, app, delay)) && SubscriberAccepted(n, s, app)
    ensures Step(n, at, AddSubscriber(s, instance, app, delay)).Ok?
    ensures var m := Step(n, at, AddSubscriber(s, instance, app, delay)).value;
            && m.now == at && Connects(n.registry, m.registry, s, app)
            && (if HasConnector(n.registry, s, app.group) then
                  SameDiscovery(n, m) && SameSubEndpoints(n.registry, m.registry)
                else if app.isStatic then ListensToItsGroup(n, m, s)
                else IsSearchedFor(n, m, s, app.group, instance, delay))
  {
    hide Reachable;
    hide Good;
    hide Linked;
    hide RegisterSubscriberService;
    hide Connects;
    hide SameSubEndpoints;
    hide HasConnector;
    hide HasSubEndpoint;
    hide HasApp;
    hide Follows;
    ReachableIsGood(n);
    GoodIsLinked(n, at);
    SubscriberFollows(n.(now := at), s, instance, app, delay, AddSubscriber(s, instance, app, delay));
    SubscriberRegistered(n.(now := at), s, instance, app, delay);
  }

  // ------------------------------------------------------------------ a subscription arrives

  /** What the publisher's host answers a subscription with. */
  ghost predicate Acknowledges(q: Notification, p: Publisher, x: Notification) {
    && x.address == q.address && x.serviceId == q.serviceId && x.qosGroup == q.qosGroup
    && x.instanceId == p.instanceId && x.tcpPort == p.tcpPort && x.udpPort == p.udpPort
    && x.mcastAddr == q.mcastAddr && x.mcastPort == q.mcastPort
  }

  /** The service sends to the subscriber too, and everything else is as before. */
  ghost predicate ServesToo(a: Registry, b: Registry, q: Notification) {
    && b.subs == a.subs && SamePublishers(a, b)
    && (forall s, g :: HasPubEndpoint(b, s, g)
          <==> HasPubEndpoint(a, s, g) || (s == q.serviceId && g == q.qosGroup))
    && (forall s, g, x ::
          HasRemote(b, s, g, x) <==>
          (|| HasRemote(a, s, g, x)
           || (s == q.serviceId && g == q.qosGroup && !g.SomeIpTcp? && x == Remote(q.address, q.udpPort))))
  }

  /** The offer of the publisher has a subscription, and every other key is as before. */
  ghost predicate MarksItsOffer(n: Node, m: Node, ref: Ref) {
    && SameAllBut(n.states, m.states, ref) && (ref in m.states <==> ref in n.states)
    && (ref in n.states && n.states[ref].OfferState? ==> m.states[ref] == n.states[ref].(hasSubscription := true))
  }

  lemma SamePublishersOn(a: Registry, b: Registry, c: Registry)
    requires SamePublishers(a, b) && SamePublishers(b, c)
    ensures SamePublishers(a, c)
  {
    assert forall s :: s in a.pubs ==> s in b.pubs.Keys;
  }

  lemma ServingServes(r: Registry, q: Notification)
    requires q.serviceId in r.pubs && q.qosGroup in SOMEIP_GROUPS
    ensures ServeSubscription(r, q).Ok? && ServesToo(r, ServeSubscription(r, q).value, q)
  {
    hide AddPublisherRemote;
    hide HasPubEndpoint;
    hide HasRemote;
    var s, g := q.serviceId, q.qosGroup;
    assert CreateOrFindPublisherEndpoint(r, s, g, SOMEIP_GROUPS).Ok?;
    hide CreateOrFindPublisherEndpoint;
    PublisherEndpointChanges(r, s, g, SOMEIP_GROUPS);
    if !g.SomeIpTcp? {
      var k := CreateOrFindPublisherEndpoint(r, s, g, SOMEIP_GROUPS).value;
      RemoteChanges(k, s, g, Remote(q.address, q.udpPort));
      SamePublishersOn(r, k, AddPublisherRemote(k, s, g, Remote(q.address, q.udpPort)));
    }
  }

  lemma SubscriptionServed(n: Node, q: Notification)
    requires AcknowledgeSubscription(n, q).Ok?
    ensures var m := AcknowledgeSubscription(n, q).value;
            && (!IsServedHere(n, q) ==> m == n)
            && (IsServedHere(n, q) ==>
                  var p := n.registry.pubs[q.serviceId].app;
                  && m.timers == n.timers && m.now == n.now && ServesToo(n.registry, m.registry, q)
                  && MarksItsOffer(n, m, OfferRef(p.serviceId, p.instanceId))
                  && exists x :: SendsOne(n, m, SubscribeAck, x) && Acknowledges(q, p, x))
  {
    hide ServesToo;
    if IsServedHere(n, q) {
      ServingServes(n.registry, q);
      hide ServeSubscription;
      var m := AcknowledgeSubscription(n, q).value;
      assert SendsOne(n, m, SubscribeAck, m.log[|n.log|].message.value.notification);
    }
  }

  /** A subscription that asks for what the host publishes makes it send to the subscriber too and
      answer once; any other changes nothing. */
  lemma SubscriptionIsServedExactly(n: Node, at: real, q: Notification)
    requires Reachable(n) && Enabled(n, at, Receive(Subscribe, q)) && !Refused(n, q)
    ensures Step(n, at, Receive(Subscribe, q)).Ok?
    ensures var m := Step(n, at, Receive(Subscribe, q)).value;
            && (!IsServedHere(n, q) ==> m == n.(now := at))
            && (IsServedHere(n, q) ==>
                  var p := n.registry.pubs[q.serviceId].app;
                  && p.serviceId == q.serviceId && m.timers == n.timers && m.now == at
                  && ServesToo(n.registry, m.registry, q)
                  && MarksItsOffer(n, m, OfferRef(p.serviceId, p.instanceId))
                  && exists x :: SendsOne(n, m, SubscribeAck, x) && Acknowledges(q, p, x))
  {
    hide Reachable;
    hide Good;
    hide Linked;
    hide AcknowledgeSubscription;
    hide Follows;
    hide ServesToo;
    hide MarksItsOffer;
    hide Acknowledges;
    ReachableIsGood(n);
    GoodIsLinked(n, at);
    AcknowledgingFollows(n.(now := at), q);
    SubscriptionServed(n.(now := at), q);
    var a, m := n.(now := at), AcknowledgeSubscription(n.(now := at), q).value;
    if IsServedHere(n, q) {
      var p := n.registry.pubs[q.serviceId].app;
      PublishedUnderItsService(n, q.serviceId);
      var x :| SendsOne(a, m, SubscribeAck, x) && Acknowledges(q, p, x);
      assert SendsOne(n, m, SubscribeAck, x);
      SameMarks(n, at, m, OfferRef(p.serviceId, p.instanceId));
    }
  }

  lemma SameMarks(n: Node, at: real, m: Node, ref: Ref)
    requires MarksItsOffer(n.(now := at), m, ref)
    ensures MarksItsOffer(n, m, ref)
  {
  }

  // ------------------------------------------------------------------ refusals

  /** What a refused registration is told. */
  lemma RefusalsExplain(n: Node, at: real, e: Event)
    requires Reachable(n) && Enabled(n, at, e) && Step(n, at, e).Err? && !e.Receive?
    ensures !e.Fire?
    ensures var error := Step(n, at, e).error;
            match e
            case AddPublisher(p, _) =>
              error == if p.serviceId in n.registry.pubs then DuplicatePublisher
                       else if SomeIpUdpMcast !in p.groups then StaticNeedsMulticast
                       else MissingMulticastInfo
            case AddSubscriber(s, _, app, _) =>
              error == if IsConnected(n, s, app) then DuplicateSubscriber
                       else if !app.group.SomeIpUdpMcast? then StaticNeedsMulticast
                       else MissingMulticastInfo
            case _ => true
  {
    ReachableIsGood(n);
    EventKeepsGood(n, at, e);
    GoodIsLinked(n, at);
    hide Good;
    hide Linked;
    hide StartInitialWait;
    match e {
      case AddPublisher(p, delay) => PublisherRefused(n.(now := at), p, delay);
      case AddSubscriber(s, i, app, delay) => SubscriberRefused(n.(now := at), s, i, app, delay);
      case _ =>
    }
  }

  lemma PublisherRefused(n: Node, p: Publisher, delay: real)
    requires Linked(n) && RegisterPublisherService(n, p, delay).Err?
    ensures RegisterPublisherService(n, p, delay).error
         == if p.serviceId in n.registry.pubs then DuplicatePublisher
            else if SomeIpUdpMcast !in p.groups then StaticNeedsMulticast
            else MissingMulticastInfo
  {
    hide StartInitialWait;
    if OfferRef(p.serviceId, p.instanceId) in n.states {
      OneOfferPerService(n, p.serviceId, p.instanceId);
    }
  }

  lemma SubscriberRefused(n: Node, s: int, i: int, app: Subscriber, delay: real)
    requires Linked(n) && RegisterSubscriberService(n, s, i, app, delay).Err?
    ensures RegisterSubscriberService(n, s, i, app, delay).error
         == if IsConnected(n, s, app) then DuplicateSubscriber
            else if !app.group.SomeIpUdpMcast? then StaticNeedsMulticast
            else MissingMulticastInfo
  {
    CreatedExactlyWithout(n, s, app);
    NoKeyWithoutConnector(n, s, app.group);
    RegisteringKeepsValid(n.registry, s, app);
    hide Linked;
    hide StartInitialWait;
    if RegisterSubscriber(n.registry, s, app).Ok? {
      var r := RegisterSubscriber(n.registry, s, app).value.registry;
      SubscriberGrowsHere(n, s, app);
      hide RegisterSubscriber;
      SubscriberEndpointOnce(r, s, SomeIpUdpMcast, SOMEIP_GROUPS);
      hide CreateOrFindSubscriberEndpoint;
    }
  }

  lemma SubscriberGrowsHere(n: Node, s: int, app: Subscriber)
    requires Linked(n) && RegisterSubscriber(n.registry, s, app).Ok?
    ensures var r := RegisterSubscriber(n.registry, s, app).value.registry;
            Valid(r) && HasConnector(r, s, app.group)
  {
    SubscriberGrows(n.registry, s, app);
  }

  // ------------------------------------------------------------------ an acknowledgement arrives

  /** A key whose request is accepted is active and requested no longer. */
  ghost predicate StatesAccept(n: Node, m: Node, refs: set<Ref>) {
    && m.states.Keys == n.states.Keys
    && forall r :: r in n.states ==>
         m.states[r] == if r in refs && IsRequested(n, r) then n.states[r].(active := true, requested := false)
                        else n.states[r]
  }

  ghost predicate IsAccepted(n: Node, refs: set<Ref>, s: int, g: QoSGroup) {
    exists r :: r in refs && r.SubRef? && r.service == s && r.group == g && IsRequested(n, r)
  }

  /** Its connector has an endpoint. */
  ghost predicate EndpointsAccept(n: Node, m: Node, refs: set<Ref>) {
    forall s, g :: HasSubEndpoint(m.registry, s, g) <==> HasSubEndpoint(n.registry, s, g) || IsAccepted(n, refs, s, g)
  }

  ghost predicate NothingElse(n: Node, m: Node) {
    && m.registry.pubs == n.registry.pubs && SameConnectors(n.registry, m.registry)
    && m.timers == n.timers && m.now == n.now
    && n.log <= m.log && forall k :: |n.log| <= k < |m.log| ==> m.log[k].message.None?
  }

  ghost predicate Accepts(n: Node, m: Node, refs: set<Ref>) {
    StatesAccept(n, m, refs) && EndpointsAccept(n, m, refs) && NothingElse(n, m)
  }

  lemma StatesAcceptOn(n: Node, m: Node, k: Node, a: set<Ref>, b: set<Ref>)
    requires StatesAccept(n, m, a) && StatesAccept(m, k, b)
    ensures StatesAccept(n, k, a + b)
    ensures forall r :: IsRequested(m, r) <==> IsRequested(n, r) && r !in a
  {
    forall r
      ensures IsRequested(m, r) <==> IsRequested(n, r) && r !in a
    {
      assert r in m.states.Keys <==> r in n.states.Keys;
    }
    assert forall r :: r in n.states.Keys ==> r in m.states.Keys && r in k.states.Keys;
  }

  lemma NothingElseOn(n: Node, m: Node, k: Node)
    requires NothingElse(n, m) && NothingElse(m, k)
    ensures NothingElse(n, k)
  {
    SameConnectorsOn(n.registry, m.registry, k.registry);
    hide SameConnectors;
    forall j | |n.log| <= j < |k.log|
      ensures k.log[j].message.None?
    {
      assert j < |m.log| ==> k.log[j] == m.log[j];
    }
  }

  lemma SameConnectorsOn(a: Registry, b: Registry, c: Registry)
    requires SameConnectors(a, b) && SameConnectors(b, c)
    ensures SameConnectors(a, c)
  {
    hide SubsOf;
    forall s, i | 0 <= i < |SubsOf(a, s)|
      ensures |SubsOf(c, s)| == |SubsOf(a, s)|
      ensures SubsOf(c, s)[i].(endpoint := SubsOf(a, s)[i].endpoint) == SubsOf(a, s)[i]
    {
      var x, y, z := SubsOf(a, s)[i], SubsOf(b, s)[i], SubsOf(c, s)[i];
      assert y.(endpoint := x.endpoint) == x && z.(endpoint := y.endpoint) == y;
    }
  }

  lemma AcceptsOn(n: Node, m: Node, k: Node, a: set<Ref>, b: set<Ref>)
    requires Accepts(n, m, a) && Accepts(m, k, b)
    ensures Accepts(n, k, a + b)
  {
    StatesAcceptOn(n, m, k, a, b);
    NothingElseOn(n, m, k);
    hide StatesAccept;
    hide NothingElse;
    hide HasSubEndpoint;
    hide IsRequested;
    forall s, g
      ensures IsAccepted(n, a + b, s, g) <==> IsAccepted(n, a, s, g) || IsAccepted(m, b, s, g)
    {
    }
  }

  lemma NothingAccepted(n: Node, refs: set<Ref>)
    requires forall r :: r in refs ==> !IsRequested(n, r)
    ensures Accepts(n, n, refs)
  {
    hide HasSubEndpoint;
  }

  /** The endpoint of a connector is there, and nothing else has changed. */
  ghost predicate HasGotEndpoint(n: Node, a: Node, s: int, g: QoSGroup) {
    && a == n.(registry := a.registry) && a.registry.pubs == n.registry.pubs
    && SameConnectors(n.registry, a.registry)
    && forall t, h :: HasSubEndpoint(a.registry, t, h) <==> HasSubEndpoint(n.registry, t, h) || (t == s && h == g)
  }

  lemma EndpointGot(n: Node, ref: Ref) returns (a: Node)
    requires Valid(n.registry) && ref.SubRef? && IsRequested(n, ref) && AcceptAck(n, ref).Ok?
    requires n.states[ref].active ==> HasSubEndpoint(n.registry, ref.service, ref.group)
    ensures HasGotEndpoint(n, a, ref.service, ref.group)
    ensures var m := AcceptAck(n, ref).value;
            && m == a.(states := m.states, log := m.log)
            && m.states == n.states[ref := n.states[ref].(active := true, requested := false)]
            && m.log == n.log + [LogEntry(n.now, AcceptFor(ref), None)]
  {
    hide Valid;
    hide HasSubEndpoint;
    hide SameConnectors;
    hide CreateOrFindSubscriberEndpoint;
    a := n;
    if !n.states[ref].active {
      a := CreateSubscriberEndpoint(n, ref.service, ref.group).value;
      SubscriberEndpointChanges(n.registry, ref.service, ref.group, SOMEIP_GROUPS);
    } else {
      SameConnectorsNot(n.registry);
    }
  }

  lemma OneIsAccepted(n: Node, ref: Ref, s: int, g: QoSGroup)
    requires ref.SubRef? && IsRequested(n, ref)
    ensures IsAccepted(n, {ref}, s, g) <==> s == ref.service && g == ref.group
  {
    assert ref in {ref};
  }

  lemma RequestAccepted(n: Node, ref: Ref)
    requires Linked(n) && ref.SubRef? && IsRequested(n, ref) && AcceptAck(n, ref).Ok?
    ensures Accepts(n, AcceptAck(n, ref).value, {ref})
  {
    hide Linked;
    hide AcceptAck;
    hide HasSubEndpoint;
    hide SameConnectors;
    hide IsAccepted;
    KeyIsLinked(n, ref);
    LinkedIsValid(n);
    var a := EndpointGot(n, ref);
    var m := AcceptAck(n, ref).value;
    forall t, h
      ensures IsAccepted(n, {ref}, t, h) <==> t == ref.service && h == ref.group
    {
      OneIsAccepted(n, ref, t, h);
    }
    assert m.states.Keys == n.states.Keys;
  }

  lemma LinkedIsValid(n: Node)
    requires Linked(n)
    ensures Valid(n.registry)
  {
  }

  lemma SameConnectorsNot(r: Registry)
    ensures SameConnectors(r, r)
  {
  }

  /** The keys that an acknowledgement of these groups is for. */
  function AckedKeys(a: Notification, groups: seq<QoSGroup>): set<Ref> {
    if groups == [] then {}
    else {SubRef(a.serviceId, groups[0], a.instanceId), SubRef(a.serviceId, groups[0], ANY_INSTANCE)}
         + AckedKeys(a, groups[1..])
  }

  lemma {:induction false} AckedExactly(a: Notification, groups: seq<QoSGroup>, ref: Ref)
    ensures ref in AckedKeys(a, groups)
            <==> ref.SubRef? && ref.service == a.serviceId && ref.group in groups
                 && (ref.instance == a.instanceId || ref.instance == ANY_INSTANCE)
  {
    if groups != [] {
      AckedExactly(a, groups[1..], ref);
      assert ref.SubRef? ==> (ref.group in groups <==> ref.group == groups[0] || ref.group in groups[1..]);
    }
  }

  lemma KeyAccepted(n: Node, ref: Ref)
    requires Linked(n) && ref.SubRef? && AcceptAck(n, ref).Ok?
    ensures Accepts(n, AcceptAck(n, ref).value, {ref})
  {
    hide Linked;
    hide Accepts;
    if IsRequested(n, ref) {
      RequestAccepted(n, ref);
    } else {
      NothingAccepted(n, {ref});
    }
  }

  lemma GroupAccepted(n: Node, a: Notification, g: QoSGroup)
    requires Linked(n) && g in a.qosGroups && AckForGroup(n, a, g).Ok?
    ensures var one, any := SubRef(a.serviceId, g, a.instanceId), SubRef(a.serviceId, g, ANY_INSTANCE);
            Accepts(n, AckForGroup(n, a, g).value, {one, any})
  {
    hide Linked;
    hide Accepts;
    hide AcceptAck;
    hide Follows;
    var one, any := SubRef(a.serviceId, g, a.instanceId), SubRef(a.serviceId, g, ANY_INSTANCE);
    var m := AcceptAck(n, one).value;
    AcceptFollows(n, one, Receive(SubscribeAck, a));
    FollowsLinked(n, m, Receive(SubscribeAck, a));
    KeyAccepted(n, one);
    KeyAccepted(m, any);
    AcceptsOn(n, m, AcceptAck(m, any).value, {one}, {any});
    assert {one} + {any} == {one, any};
  }

  lemma {:induction false} GroupsAccepted(n: Node, a: Notification, groups: seq<QoSGroup>)
    requires Linked(n) && AreOffered(a, groups) && AckForGroups(n, a, groups).Ok?
    ensures Accepts(n, AckForGroups(n, a, groups).value, AckedKeys(a, groups))
    decreases |groups|
  {
    hide Linked;
    hide Accepts;
    hide AckForGroup;
    hide Follows;
    if groups == [] {
      NothingAccepted(n, {});
    } else {
      var m := AckForGroup(n, a, groups[0]).value;
      AckForGroupFollows(n, a, groups[0]);
      FollowsLinked(n, m, Receive(SubscribeAck, a));
      GroupAccepted(n, a, groups[0]);
      GroupsAccepted(m, a, groups[1..]);
      AcceptsOn(n, m, AckForGroups(m, a, groups[1..]).value,
                {SubRef(a.serviceId, groups[0], a.instanceId), SubRef(a.serviceId, groups[0], ANY_INSTANCE)},
                AckedKeys(a, groups[1..]));
    }
  }

  /** The subscription has asked, and the event is an acknowledgement that it may take. */
  ghost predicate Takes(n: Node, e: Event, ref: Ref) {
    IsRequested(n, ref) && ByAck(e, ref)
  }

  ghost predicate TakesAck(n: Node, m: Node, e: Event) {
    && m.states.Keys == n.states.Keys
    && (forall ref :: ref in n.states ==>
          m.states[ref] == if Takes(n, e, ref) then n.states[ref].(active := true, requested := false)
                           else n.states[ref])
    && (forall s, g :: HasSubEndpoint(m.registry, s, g) <==>
          (|| HasSubEndpoint(n.registry, s, g)
           || exists ref: Ref :: ref.SubRef? && ref.service == s && ref.group == g && Takes(n, e, ref)))
  }

  lemma AcceptingTakes(n: Node, m: Node, a: Notification, refs: set<Ref>)
    requires StatesAccept(n, m, refs) && EndpointsAccept(n, m, refs)
    requires forall ref :: ref in refs <==> ByAck(Receive(SubscribeAck, a), ref)
    ensures TakesAck(n, m, Receive(SubscribeAck, a))
  {
    hide HasSubEndpoint;
    hide ByAck;
    hide IsRequested;
    var e := Receive(SubscribeAck, a);
    forall s, g
      ensures IsAccepted(n, refs, s, g)
              <==> exists ref: Ref :: ref.SubRef? && ref.service == s && ref.group == g && Takes(n, e, ref)
    {
      if IsAccepted(n, refs, s, g) {
        var r :| r in refs && r.SubRef? && r.service == s && r.group == g && IsRequested(n, r);
        assert Takes(n, e, r);
      }
    }
  }

  lemma AckedByExactly(a: Notification, ref: Ref)
    ensures ref in AckedKeys(a, InEnumOrder(a.qosGroups)) <==> ByAck(Receive(SubscribeAck, a), ref)
  {
    InEnumOrderVisitsTheSet(a.qosGroups);
    AckedExactly(a, InEnumOrder(a.qosGroups), ref);
  }

  lemma AckTaken(n: Node, a: Notification)
    requires Linked(n) && ProcessAcknowledged(n, a).Ok?
    ensures var m := ProcessAcknowledged(n, a).value;
            TakesAck(n, m, Receive(SubscribeAck, a)) && NothingElse(n, m)
  {
    hide Linked;
    hide StatesAccept;
    hide EndpointsAccept;
    hide NothingElse;
    hide ByAck;
    hide TakesAck;
    hide AckForGroups;
    var groups := InEnumOrder(a.qosGroups);
    InEnumOrderVisitsTheSet(a.qosGroups);
    hide InEnumOrder;
    GroupsAccepted(n, a, groups);
    forall ref
      ensures ref in AckedKeys(a, groups) <==> ByAck(Receive(SubscribeAck, a), ref)
    {
      AckedByExactly(a, ref);
    }
    AcceptingTakes(n, ProcessAcknowledged(n, a).value, a, AckedKeys(a, groups));
  }

  lemma TakenWhenever(n: Node, at: real, m: Node, e: Event)
    requires TakesAck(n.(now := at), m, e) && NothingElse(n.(now := at), m)
    ensures TakesAck(n, m, e) && NothingElse(n.(now := at), m)
  {
    hide HasSubEndpoint;
    hide ByAck;
    assert forall ref :: Takes(n.(now := at), e, ref) <==> Takes(n, e, ref);
  }

  /** An acknowledgement activates exactly the subscriptions that have asked and that it is for, gives
      their connectors an endpoint, and changes and sends nothing else. */
  lemma AckIsTakenExactly(n: Node, at: real, a: Notification)
    requires Reachable(n) && Enabled(n, at, Receive(SubscribeAck, a)) && a.qosGroups <= SOMEIP_GROUPS
    ensures Step(n, at, Receive(SubscribeAck, a)).Ok?
    ensures var m := Step(n, at, Receive(SubscribeAck, a)).value;
            TakesAck(n, m, Receive(SubscribeAck, a)) && NothingElse(n.(now := at), m)
  {
    hide Reachable;
    hide Good;
    hide Linked;
    hide ProcessAcknowledged;
    hide Follows;
    hide TakesAck;
    hide NothingElse;
    ReachableIsGood(n);
    GoodIsLinked(n, at);
    AckFollows(n.(now := at), a);
    AckTaken(n.(now := at), a);
    TakenWhenever(n, at, ProcessAcknowledged(n.(now := at), a).value, Receive(SubscribeAck, a));
  }

  // ------------------------------------------------------------------ an offer arrives

  /** What the program makes of a subscription that it asks for. */
  ghost predicate IsAsked(a: SdState, b: SdState) {
    a.SubscriptionState? && b == a.(phase := MainPhase, seen := true, requested := true)
  }

  /** Of these groups, exactly the keys that wait for them ask. */
  ghost predicate AsksFor(n: Node, m: Node, o: Notification, groups: seq<QoSGroup>) {
    && m.registry == n.registry && m.timers == n.timers && m.now == n.now && m.states.Keys == n.states.Keys
    && forall ref :: ref in n.states ==>
         if ref.SubRef? && ref.group in groups && Waits(n, o, ref.group, ref) then IsAsked(n.states[ref], m.states[ref])
         else m.states[ref] == n.states[ref]
  }

  lemma OneGroupAsks(n: Node, o: Notification, g: QoSGroup)
    requires Linked(n)
    ensures OfferForGroup(n, o, g).Ok? && AsksFor(n, OfferForGroup(n, o, g).value, o, [g])
  {
    hide Linked;
    hide OfferForGroup;
    hide IsAwaited;
    hide Waits;
    var r, c := OfferForOneGroup(n, o, g);
    assert forall h :: h in [g] <==> h == g;
    if c.Some? {
      forall ref | ref in n.states && ref.SubRef? && ref.group == g && Waits(n, o, g, ref)
        ensures ref == r
      {
        OnlyOneWaits(n, o, g, r, ref);
      }
      OnlyItsGroup(n, o, g, r);
    } else {
      forall ref
        ensures !Waits(n, o, g, ref)
      {
        NobodyWaits(n, o, g, ref);
      }
    }
  }

  lemma NobodyWaits(n: Node, o: Notification, g: QoSGroup, ref: Ref)
    requires !IsAwaited(n, o, g)
    ensures !Waits(n, o, g, ref)
  {
  }

  lemma {:induction false} GroupsAsk(n: Node, o: Notification, groups: seq<QoSGroup>)
    requires Linked(n) && Ascending(groups) && AreOffered(o, groups)
    ensures OfferForGroups(n, o, groups).Ok? && AsksFor(n, OfferForGroups(n, o, groups).value, o, groups)
    decreases |groups|
  {
    if groups != [] {
      var g := groups[0];
      OfferForGroupFollows(n, o, g);
      var m := OfferForGroup(n, o, g).value;
      FollowsLinked(n, m, Receive(Offer, o));
      OneGroupAsks(n, o, g);
      forall ref: Ref | ref.SubRef? && ref.group != g
        ensures Waits(m, o, ref.group, ref) <==> Waits(n, o, ref.group, ref)
      {
        OtherGroupsDoNotMatter(n, o, ref.group, g, ref);
      }
      hide Linked;
      hide Follows;
      hide OfferForGroup;
      hide Waits;
      GroupsAsk(m, o, groups[1..]);
      GroupsAskOn(n, m, OfferForGroups(m, o, groups[1..]).value, o, groups);
    }
  }

  lemma GroupsAskOn(n: Node, m: Node, k: Node, o: Notification, groups: seq<QoSGroup>)
    requires groups != [] && Ascending(groups)
    requires AsksFor(n, m, o, [groups[0]]) && AsksFor(m, k, o, groups[1..])
    requires forall ref: Ref | ref.SubRef? && ref.group != groups[0] ::
               Waits(m, o, ref.group, ref) <==> Waits(n, o, ref.group, ref)
    ensures AsksFor(n, k, o, groups)
  {
    hide Waits;
    hide IsAsked;
    assert groups[0] !in groups[1..];
    assert forall h :: h in groups <==> h == groups[0] || h in groups[1..];
    forall ref | ref in n.states
      ensures if ref.SubRef? && ref.group in groups && Waits(n, o, ref.group, ref) then
                IsAsked(n.states[ref], k.states[ref])
              else k.states[ref] == n.states[ref]
    {
      assert ref in m.states.Keys;
    }
  }

  /** An offer makes exactly those subscriptions ask that it is for and that have no request unanswered,
      and changes nothing else about the host's applications, endpoints, timers and keys. */
  lemma OfferAsksExactly(n: Node, at: real, o: Notification)
    requires Reachable(n) && Enabled(n, at, Receive(Offer, o))
    ensures Step(n, at, Receive(Offer, o)).Ok?
    ensures var m := Step(n, at, Receive(Offer, o)).value;
            && m.registry == n.registry && m.timers == n.timers && m.now == at && m.states.Keys == n.states.Keys
            && forall ref :: ref in n.states ==>
                 if IsOffered(n, o, ref) && !IsRequested(n, ref) then IsAsked(n.states[ref], m.states[ref])
                 else m.states[ref] == n.states[ref]
  {
    hide Reachable;
    hide Good;
    hide Linked;
    hide OfferForGroups;
    hide IsAsked;
    ReachableIsGood(n);
    GoodIsLinked(n, at);
    InEnumOrderVisitsTheSet(o.qosGroups);
    GroupsAsk(n.(now := at), o, InEnumOrder(o.qosGroups));
    forall ref | ref in n.states && ref.SubRef?
      ensures n.states[ref].SubscriptionState?
    {
      KeyIsSubscription(n, ref);
    }
  }

  // ------------------------------------------------------------------ over whole runs

  ghost predicate IsPublished(n: Node, p: Publisher) {
    p.serviceId in n.registry.pubs && n.registry.pubs[p.serviceId].app == p
  }

  ghost predicate Registers(e: Event, s: int, app: Subscriber) {
    e.AddSubscriber? && e.service == s && e.app == app
  }

  ghost predicate AddsPublisher(e: Event, p: Publisher) {
    e.AddPublisher? && e.publisher == p
  }

  /** Applications come by registering and in no other way, and none goes. */
  ghost predicate AddsItsApplication(n: Node, m: Node, e: Event) {
    && (forall p :: IsPublished(m, p) <==> IsPublished(n, p) || AddsPublisher(e, p))
    && (forall s, app :: IsConnected(m, s, app) <==> IsConnected(n, s, app) || Registers(e, s, app))
  }

  lemma SameApplications(n: Node, m: Node, e: Event)
    requires !e.AddPublisher? && !e.AddSubscriber?
    requires SamePublishers(n.registry, m.registry) && SameConnectors(n.registry, m.registry)
    ensures AddsItsApplication(n, m, e)
  {
    hide HasApp;
    forall s, app: Subscriber
      ensures IsConnected(m, s, app) <==> IsConnected(n, s, app)
    {
      SameConnectorsConnect(n.registry, m.registry, s, app, app.group);
    }
    hide SameConnectors;
    assert forall s :: s in m.registry.pubs <==> s in m.registry.pubs.Keys;
  }

  lemma SameRegistry(n: Node, m: Node, e: Event)
    requires !e.AddPublisher? && !e.AddSubscriber? && m.registry == n.registry
    ensures AddsItsApplication(n, m, e)
  {
  }

  lemma OnePublished(n: Node, m: Node, p: Publisher, q: Publisher)
    requires p.serviceId !in n.registry.pubs && Publishes(n.registry, m.registry, p)
    ensures IsPublished(m, q) <==> IsPublished(n, q) || q == p
  {
    assert q.serviceId in m.registry.pubs <==> q.serviceId in m.registry.pubs.Keys;
  }

  lemma NoneConnected(n: Node, m: Node, p: Publisher, s: int, app: Subscriber)
    requires Publishes(n.registry, m.registry, p)
    ensures IsConnected(m, s, app) <==> IsConnected(n, s, app)
  {
  }

  lemma PublishingAdds(n: Node, m: Node, e: Event)
    requires e.AddPublisher? && e.publisher.serviceId !in n.registry.pubs
    requires Publishes(n.registry, m.registry, e.publisher)
    ensures AddsItsApplication(n, m, e)
  {
    hide Publishes;
    hide IsPublished;
    hide IsConnected;
    forall q
      ensures IsPublished(m, q) <==> IsPublished(n, q) || AddsPublisher(e, q)
    {
      OnePublished(n, m, e.publisher, q);
    }
    forall s, app: Subscriber
      ensures IsConnected(m, s, app) <==> IsConnected(n, s, app)
    {
      NoneConnected(n, m, e.publisher, s, app);
    }
  }

  lemma ConnectingAdds(n: Node, m: Node, e: Event)
    requires e.AddSubscriber? && Connects(n.registry, m.registry, e.service, e.app)
    ensures AddsItsApplication(n, m, e)
  {
    hide HasApp;
  }

  lemma HandlingAddsApplications(n: Node, e: Event)
    requires Linked(n) && Enabled(n, n.now, e) && Handle(n, e).Ok?
    ensures AddsItsApplication(n, Handle(n, e).value, e)
  {
    hide Linked;
    hide AddsItsApplication;
    hide SameConnectors;
    hide SamePublishers;
    hide Publishes;
    hide Connects;
    hide RegisterSubscriberService;
    hide AcknowledgeSubscription;
    hide ProcessAcknowledged;
    hide OfferForGroups;
    hide FireTimer;
    hide LookForService;
    var m := Handle(n, e).value;
    match e {
      case AddPublisher(p, delay) =>
        PublisherRegistered(n, p, delay);
        PublishingAdds(n, m, e);
      case AddSubscriber(s, i, app, delay) =>
        SubscriberRegistered(n, s, i, app, delay);
        ConnectingAdds(n, m, e);
      case Fire(k) =>
        FiringProceeds(n, k);
        SameRegistry(n, m, e);
      case Receive(Find, q) =>
        FindActs(n, q);
        SameRegistry(n, m, e);
      case Receive(Offer, o) =>
        InEnumOrderVisitsTheSet(o.qosGroups);
        GroupsAsk(n, o, InEnumOrder(o.qosGroups));
        SameRegistry(n, m, e);
      case Receive(Subscribe, q) =>
        SubscriptionServed(n, q);
        ServedKeepsApplications(n, m, q);
        SameApplications(n, m, e);
      case Receive(SubscribeAck, a) =>
        AckTaken(n, a);
        SamePublishersNot(n.registry, m.registry);
        SameApplications(n, m, e);
    }
  }

  lemma ServedKeepsApplications(n: Node, m: Node, q: Notification)
    requires m == n || ServesToo(n.registry, m.registry, q)
    ensures SamePublishers(n.registry, m.registry) && SameConnectors(n.registry, m.registry)
  {
  }

  lemma SamePublishersNot(a: Registry, b: Registry)
    requires b.pubs == a.pubs
    ensures SamePublishers(a, b)
  {
  }

  lemma EventAddsApplications(n: Node, at: real, e: Event)
    requires Good(n) && Enabled(n, at, e) && Step(n, at, e).Ok?
    ensures AddsItsApplication(n, Step(n, at, e).value, e)
  {
    hide Good;
    hide Linked;
    hide Handle;
    hide HasApp;
    hide AddsItsApplication;
    GoodIsLinked(n, at);
    HandlingAddsApplications(n.(now := at), e);
    AddsWhenever(n, at, Step(n, at, e).value, e);
  }

  lemma AddsWhenever(n: Node, at: real, m: Node, e: Event)
    requires AddsItsApplication(n.(now := at), m, e)
    ensures AddsItsApplication(n, m, e)
  {
    hide HasApp;
    assert forall p :: IsPublished(n.(now := at), p) <==> IsPublished(n, p);
    assert forall s, app :: IsConnected(n.(now := at), s, app) <==> IsConnected(n, s, app);
  }

  ghost predicate PublishedIn(run: seq<Input>, p: Publisher) {
    exists k :: 0 <= k < |run| && AddsPublisher(run[k].event, p)
  }

  ghost predicate ConnectedIn(run: seq<Input>, s: int, app: Subscriber) {
    exists k :: 0 <= k < |run| && Registers(run[k].event, s, app)
  }

  lemma InTheFirstOrTheRest(run: seq<Input>, p: Publisher, s: int, app: Subscriber)
    requires run != []
    ensures PublishedIn(run, p) <==> AddsPublisher(run[0].event, p) || PublishedIn(run[1..], p)
    ensures ConnectedIn(run, s, app) <==> Registers(run[0].event, s, app) || ConnectedIn(run[1..], s, app)
  {
    hide AddsPublisher;
    hide Registers;
    assert forall k :: 0 < k < |run| ==> run[1..][k - 1] == run[k];
    assert forall k :: 0 <= k < |run[1..]| ==> run[1..][k] == run[k + 1];
  }

  lemma {:induction false} RunAddsApplications(n: Node, run: seq<Input>, p: Publisher, s: int, app: Subscriber)
    requires Good(n) && Feasible(n, run)
    ensures IsPublished(Final(n, run), p) <==> IsPublished(n, p) || PublishedIn(run, p)
    ensures IsConnected(Final(n, run), s, app) <==> IsConnected(n, s, app) || ConnectedIn(run, s, app)
    decreases |run|
  {
    hide Good;
    hide Step;
    hide IsPublished;
    hide IsConnected;
    hide PublishedIn;
    hide ConnectedIn;
    hide AddsPublisher;
    hide Registers;
    hide Follows;
    hide Acceptable;
    if run == [] {
      NothingInNothing(p, s, app);
    } else {
      EventKeepsGood(n, run[0].at, run[0].event);
      EventAddsApplications(n, run[0].at, run[0].event);
      InTheFirstOrTheRest(run, p, s, app);
      RunAddsApplications(Step(n, run[0].at, run[0].event).value, run[1..], p, s, app);
    }
  }

  lemma NothingInNothing(p: Publisher, s: int, app: Subscriber)
    ensures !PublishedIn([], p) && !ConnectedIn([], s, app)
  {
  }

  /** After any run, the host publishes and connects exactly the applications that have registered in
      it, whatever else has happened. */
  lemma {:induction false} ApplicationsAreThoseRegistered(address: Address, params: Params, run: seq<Input>,
                                                          p: Publisher, s: int, app: Subscriber)
    requires 0.0 <= params.baseDelay && Feasible(NewNode(address, params), run)
    ensures IsPublished(Final(NewNode(address, params), run), p) <==> PublishedIn(run, p)
    ensures IsConnected(Final(NewNode(address, params), run), s, app) <==> ConnectedIn(run, s, app)
  {
    NewNodeIsGood(address, params);
    RunAddsApplications(NewNode(address, params), run, p, s, app);
  }
}
