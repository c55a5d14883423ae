/** The handshake works: an offer that reaches a waiting subscriber, the subscription that reaches
    the publisher and the acknowledgement that reaches the subscriber make the subscription active. */
module SomeIpHandshake {
  import opened Base
  import opened SdHeader
  import opened SdCodec
  import opened SdRoundTrip
  import opened Connectors
  import opened ConnectorGrowth
  import opened SomeIpNode
  import opened SomeIpLinks
  import opened SomeIpInvariant
  import opened SomeIpRuns
  import opened SomeIpOffers
  import opened SomeIpHost
  import opened SomeIpSystem
  import opened SomeIpAgreement
  import opened SomeIpDelivery

  // ------------------------------------------------------------------ the offer arrives

  /** The host has sent a subscription for the offered group. */
  ghost predicate HasAsked(n: Node, o: Notification, g: QoSGroup) {
    exists k, c :: IsQuestion(n, o, g, k, c)
  }

  ghost predicate IsQuestion(n: Node, o: Notification, g: QoSGroup, k: nat, c: SubConnector) {
    && c.apps != [] && k < |n.log|
    && n.log[k].message == Some(Message(Subscribe, Subscription(o, g, c)))
  }

  lemma RequestAsks(n: Node, ref: Ref, o: Notification, g: QoSGroup, c: SubConnector)
    requires ref in n.states && n.states[ref].SubscriptionState? && c.apps != []
    ensures var m := RequestSubscription(n, ref, o, g, c);
            IsRequested(m, ref) && HasAsked(m, o, g)
  {
    hide Subscription;
    assert IsQuestion(RequestSubscription(n, ref, o, g, c), o, g, |n.log|, c);
  }

  lemma OfferIsAnswered(n: Node, o: Notification, g: QoSGroup, ref: Ref)
    requires Linked(n) && Waits(n, o, g, ref)
    ensures var m := OfferForGroup(n, o, g);
            m.Ok? && IsRequested(m.value, ref) && HasAsked(m.value, o, g)
  {
    hide Linked;
    hide Waits;
    hide IsAwaited;
    hide OfferForGroup;
    hide RequestSubscription;
    hide HasAsked;
    hide IsRequested;
    var r, c := OfferForOneGroup(n, o, g);
    OnlyOneWaits(n, o, g, ref, r);
    RequestAsks(n, ref, o, g, c.value);
  }

  lemma QuestionStays(n: Node, m: Node, o: Notification, g: QoSGroup, ref: Ref, ev: Event)
    requires Follows(n, m, ev) && ref.SubRef? && !ByAck(ev, ref)
    requires IsRequested(n, ref) && HasAsked(n, o, g)
    ensures IsRequested(m, ref) && HasAsked(m, o, g)
  {
    hide Linked;
    hide Grows;
    hide Justified;
    hide ByAck;
    hide IsRequested;
    var k: nat, c :| IsQuestion(n, o, g, k, c);
    assert m.log[k] == n.log[k];
    assert IsQuestion(m, o, g, k, c);
  }

  lemma AskedFirst(n: Node, o: Notification, groups: seq<QoSGroup>, ref: Ref)
    requires Linked(n) && groups != [] && AreOffered(o, groups) && Waits(n, o, groups[0], ref)
    requires OfferForGroups(n, o, groups).Ok?
    ensures var m := OfferForGroups(n, o, groups).value;
            IsRequested(m, ref) && HasAsked(m, o, groups[0])
  {
    var ev := Receive(Offer, o);
    OfferIsAnswered(n, o, groups[0], ref);
    OfferForGroupFollows(n, o, groups[0]);
    var m := OfferForGroup(n, o, groups[0]).value;
    FollowsLinked(n, m, ev);
    assert ref.SubRef? && !ByAck(ev, ref);
    hide Linked;
    hide Follows;
    hide OfferForGroup;
    hide Waits;
    hide IsRequested;
    hide HasAsked;
    OfferForGroupsFollows(m, o, groups[1..]);
    QuestionStays(m, OfferForGroups(m, o, groups[1..]).value, o, groups[0], ref, ev);
  }

  /** Among the groups of an offer, in whatever order, the awaited one is asked for. */
  lemma {:induction false} OfferedGroupIsAsked(n: Node, o: Notification, groups: seq<QoSGroup>, g: QoSGroup, ref: Ref)
    requires Linked(n) && AreOffered(o, groups) && Waits(n, o, g, ref) && g in groups
    ensures var m := OfferForGroups(n, o, groups);
            m.Ok? && IsRequested(m.value, ref) && HasAsked(m.value, o, g)
    decreases |groups|
  {
    OfferForGroupsFollows(n, o, groups);
    hide Linked;
    hide Follows;
    hide OfferForGroup;
    hide Waits;
    hide HasAsked;
    hide IsRequested;
    if groups[0] == g {
      AskedFirst(n, o, groups, ref);
    } else {
      OfferForGroupFollows(n, o, groups[0]);
      FollowsLinked(n, OfferForGroup(n, o, groups[0]).value, Receive(Offer, o));
      OtherGroupsDoNotMatter(n, o, g, groups[0], ref);
      OfferedGroupIsAsked(OfferForGroup(n, o, groups[0]).value, o, groups[1..], g, ref);
    }
  }

  // ------------------------------------------------------------------ the acknowledgement arrives

  lemma AcceptingActivates(n: Node, ref: Ref)
    requires ref.SubRef? && IsRequested(n, ref) && AcceptAck(n, ref).Ok?
    ensures IsActive(AcceptAck(n, ref).value, ref)
  {
  }

  lemma AcceptingKeepsOthers(n: Node, other: Ref, ref: Ref)
    requires other.SubRef? && AcceptAck(n, other).Ok? && other != ref
    ensures IsRequested(AcceptAck(n, other).value, ref) <==> IsRequested(n, ref)
    ensures IsActive(AcceptAck(n, other).value, ref) <==> IsActive(n, ref)
  {
  }

  lemma AcceptingStaysActive(n: Node, other: Ref, ref: Ref)
    requires other.SubRef? && AcceptAck(n, other).Ok? && IsActive(n, ref)
    ensures IsActive(AcceptAck(n, other).value, ref)
  {
  }

  lemma AckOfOneGroup(n: Node, a: Notification, g: QoSGroup)
    requires Linked(n) && g in SOMEIP_GROUPS && a.qosGroups == {g}
    ensures ProcessAcknowledged(n, a).Ok? && ProcessAcknowledged(n, a) == AckForGroup(n, a, g)
  {
    hide Linked;
    hide InEnumOrder;
    hide AckForGroup;
    hide Follows;
    AckFollows(n, a);
    OneGroupWalk(g);
    assert [g][1..] == [];
    assert AckForGroups(n, a, [g]).Ok?;
    var m := AckForGroup(n, a, g).value;
    assert AckForGroups(m, a, []) == Ok(m);
  }

  /** An acknowledgement of the subscribed group, from the instance asked for or to whoever asked
      for any, activates the subscription. */
  lemma AckActivates(n: Node, a: Notification, ref: Ref)
    requires Linked(n) && IsRequested(n, ref) && ref.SubRef? && ref.group in SOMEIP_GROUPS
    requires a.serviceId == ref.service && a.qosGroups == {ref.group}
    requires ref.instance == a.instanceId || ref.instance == ANY_INSTANCE
    ensures ProcessAcknowledged(n, a).Ok? && IsActive(ProcessAcknowledged(n, a).value, ref)
  {
    hide AcceptAck;
    hide Linked;
    hide ProcessAcknowledged;
    hide IsRequested;
    hide IsActive;
    var g := ref.group;
    var one, any := SubRef(a.serviceId, g, a.instanceId), SubRef(a.serviceId, g, ANY_INSTANCE);
    AckOfOneGroup(n, a, g);
    var k := AcceptAck(n, one).value;
    if ref == one {
      AcceptingActivates(n, one);
      AcceptingStaysActive(k, any, ref);
    } else {
      AcceptingKeepsOthers(n, one, ref);
      AcceptingActivates(k, any);
    }
  }

  // ------------------------------------------------------------------ what the messages say

  /** What a subscriber reads in an offer are the publisher application's own groups, ports and
      multicast address. */
  lemma {:induction false} OfferTellsThePublishersPorts(y: System, run: seq<Action>, z: System,
                                                        to: Address, src: Address, k: nat)
      returns (seen: Notification)
    requires Initially(y) && RunsTo(y, run, z) && to in z.nodes && IsSent(z, src, k) && Sent(z, src, k).kind.Offer?
    requires Sent(z, src, k).notification.qosGroups != {}
    ensures to in z.configs && src in z.configs && Arrival(z, to, src, Sent(z, src, k)) == Ok([seen])
    ensures Sent(z, src, k).notification.serviceId in z.nodes[src].registry.pubs
    ensures var p := z.nodes[src].registry.pubs[Sent(z, src, k).notification.serviceId].app;
            && seen.serviceId == U16(p.serviceId) && seen.instanceId == p.instanceId && seen.qosGroups == p.groups
            && seen.address == src
            && (SomeIpTcp in p.groups ==> seen.tcpPort == U16(p.tcpPort))
            && (SomeIpUdp in p.groups ==> seen.udpPort == U16(p.udpPort))
            && (SomeIpUdpMcast in p.groups ==> seen.mcastAddr == p.mcastAddr && seen.mcastPort == U16(p.mcastPort))
  {
    hide Initially;
    hide RunsTo;
    hide Inv;
    hide Arrival;
    InitiallyInv(y);
    RunKeepsInv(y, run, z);
    SentOffer(z, src, k);
    SentPasses(z, src, k);
    OfferComes(z, to, src, k);
    seen := OfferAsSeen(z.configs[src], Sent(z, src, k).notification, src);
  }

  lemma SubscriptionIsServed(b: Node, q: Notification)
    requires Linked(b) && q.serviceId in b.registry.pubs && q.qosGroup in SOMEIP_GROUPS
    requires q.qosGroup in b.registry.pubs[q.serviceId].app.groups
    ensures var m := AcknowledgeSubscription(b, q);
            && m.Ok? && |m.value.log| == |b.log| + 1
            && m.value.log[|b.log|].message
               == Some(Message(SubscribeAck, Acknowledgement(q, b.registry.pubs[q.serviceId].app)))
  {
    AcknowledgingFollows(b, q);
  }

  /** How a subscription for an offered group reaches the publisher: with the subscriber's address
      and the connector's port of the group. */
  lemma QuestionArrives(ca: Config, cb: Config, o: Notification, g: QoSGroup, c: SubConnector)
      returns (q: Notification)
    requires ca.localAddress != UNSPECIFIED && cb.localAddress != UNSPECIFIED
    requires OffersAreEncodable(o) && g in o.qosGroups && Fits16(o.serviceId) && c.apps != []
    ensures var x := Subscription(OfferAsSeen(cb, o, cb.localAddress), g, c);
            EncodeSubscribe(ca, x).Ok? && Decode(cb, EncodeSubscribe(ca, x).value, ca.localAddress) == Ok([q])
    ensures q.serviceId == o.serviceId && q.qosGroup == g && g in SOMEIP_GROUPS
    ensures q.instanceId == U16(o.instanceId) && q.address == ca.localAddress
    ensures g.SomeIpUdp? ==> q.udpPort == U16(c.udpPort)
    ensures g.SomeIpTcp? ==> q.tcpPort == U16(c.tcpPort)
    ensures g.SomeIpUdpMcast? ==> HasMulticastInfo(q) && q.mcastAddr == o.mcastAddr && q.mcastPort == U16(o.mcastPort)
  {
    var x := Subscription(OfferAsSeen(cb, o, cb.localAddress), g, c);
    assert Encodable(o, g);
    assert Encodable(x, g);
    SubscribeRoundTrip(ca, cb, x, ca.localAddress);
    hide EncodeSubscribe;
    hide Decode;
    q := EndpointAsSeen(ca, x, ca.localAddress).(qosGroup := x.qosGroup);
  }

  /** How its acknowledgement reaches the subscriber: with the publisher's address and the port of
      the group. */
  lemma AnswerArrives(ca: Config, cb: Config, q: Notification, p: Publisher) returns (r: Notification)
    requires cb.localAddress != UNSPECIFIED && Fits16(q.serviceId)
    requires q.qosGroup in SOMEIP_GROUPS && (q.qosGroup.SomeIpUdpMcast? ==> HasMulticastInfo(q))
    ensures var k := Acknowledgement(q, p);
            EncodeAck(cb, k).Ok? && Decode(ca, EncodeAck(cb, k).value, cb.localAddress) == Ok([r])
    ensures r.serviceId == q.serviceId && r.instanceId == p.instanceId && r.qosGroups == {q.qosGroup}
    ensures r.address == cb.localAddress
    ensures q.qosGroup.SomeIpTcp? ==> r.tcpPort == U16(p.tcpPort)
    ensures q.qosGroup.SomeIpUdp? ==> r.udpPort == U16(p.udpPort)
    ensures q.qosGroup.SomeIpUdpMcast? ==> r.mcastAddr == q.mcastAddr && r.mcastPort == U16(q.mcastPort)
  {
    var k := Acknowledgement(q, p);
    assert Encodable(k, k.qosGroup);
    AckRoundTrip(cb, ca, k, cb.localAddress);
    hide EncodeAck;
    hide Decode;
    r := EndpointAsSeen(cb, k, cb.localAddress);
  }

  lemma SeenOfferIsAsked(a: Node, seen: Notification, g: QoSGroup, ref: Ref) returns (c: SubConnector)
    requires Linked(a) && Waits(a, seen, g, ref) && g in seen.qosGroups
    ensures var m := SubscribeIfPending(a, seen);
            && m.Ok? && Linked(m.value) && IsRequested(m.value, ref)
            && c.apps != [] && exists k :: IsQuestion(m.value, seen, g, k, c)
  {
    InEnumOrderVisitsTheSet(seen.qosGroups);
    var groups := InEnumOrder(seen.qosGroups);
    hide Waits;
    hide InEnumOrder;
    OfferedGroupIsAsked(a, seen, groups, g, ref);
    OfferForGroupsFollows(a, seen, groups);
    var a' := OfferForGroups(a, seen, groups).value;
    FollowsLinked(a, a', Receive(Offer, seen));
    hide Linked;
    hide Follows;
    hide OfferForGroups;
    hide IsRequested;
    var k: nat, d :| IsQuestion(a', seen, g, k, d);
    c := d;
  }

  // ------------------------------------------------------------------ the three deliveries

  lemma SameWait(n: Node, m: Node, o: Notification, seen: Notification, g: QoSGroup, ref: Ref)
    requires Waits(n, o, g, ref) && m.states == n.states
    requires seen.serviceId == o.serviceId && seen.instanceId == o.instanceId
    ensures Waits(m, seen, g, ref)
  {
  }

  lemma SeenIsAwaited(n: Node, at: real, c: Config, o: Notification, src: Address, g: QoSGroup, ref: Ref)
    requires Linked(n) && Waits(n, o, g, ref) && g in o.qosGroups
    requires Fits16(o.serviceId) && Fits16(o.instanceId)
    ensures var a, seen := n.(now := at), OfferAsSeen(c, o, src);
            Linked(a) && Waits(a, seen, g, ref) && g in seen.qosGroups
  {
    hide Waits;
    LinkedLater(n, at);
    hide Linked;
    SameWait(n, n.(now := at), o, OfferAsSeen(c, o, src), g, ref);
  }

  lemma LinkedLater(n: Node, t: real)
    requires Linked(n)
    ensures Linked(n.(now := t))
  {
  }

  lemma OfferInstanceFits(y: System, src: Address, k: nat)
    requires Inv(y) && IsSent(y, src, k) && Sent(y, src, k).kind.Offer?
    ensures Fits16(Sent(y, src, k).notification.instanceId)
  {
    SentOffer(y, src, k);
    hide Inv;
  }

  lemma GoodIsLinked(n: Node)
    requires Good(n)
    ensures Linked(n)
  {
  }

  /** The offer is delivered: the subscriber asks. */
  lemma OfferDelivered(z: System, a: Address, b: Address, t: real, k: nat, g: QoSGroup, ref: Ref)
      returns (m: Node, j: nat, c: SubConnector)
    requires Inv(z) && CanHappen(z, Deliver(a, t, b, k)) && Sent(z, b, k).kind.Offer?
    requires var o := Sent(z, b, k).notification;
             g in o.qosGroups && Fits16(o.serviceId) && Waits(z.nodes[a], o, g, ref)
    ensures Configured(z) && Act(z, Deliver(a, t, b, k)) == Ok(Replace(z, a, m))
    ensures m.now == t && m.timers == z.nodes[a].timers && IsRequested(m, ref)
    ensures c.apps != [] && IsQuestion(m, OfferAsSeen(z.configs[b], Sent(z, b, k).notification, b), g, j, c)
  {
    hide Inv;
    hide CanHappen;
    hide Act;
    hide Arrival;
    hide HandleAll;
    hide HostStep;
    hide Waits;
    hide OfferAsSeen;
    hide OffersAreEncodable;
    hide IsRequested;
    hide IsQuestion;
    hide Linked;
    InvConfigured(z);
    DeliveryCan(z, a, t, b, k);
    OfferInstanceFits(z, b, k);
    OfferComes(z, a, b, k);
    ReceiverConfig(z, a);
    GoodIsLinked(z.nodes[a]);
    var o, n := Sent(z, b, k).notification, z.nodes[a];
    var seen := OfferAsSeen(z.configs[b], o, b);
    SeenOfferIsProper(z.configs[b], o, b);
    SeenIsAwaited(n, t, z.configs[b], o, b, g, ref);
    ProperIsHandled(z.configs[a], n, t, Offer, seen);
    Delivering(z, a, t, b, k, seen);
    HostStepIs(z.configs[a], n, t, Receive(Offer, seen));
    ReceivingTakesNoTime(z.configs[a], n, t, Offer, seen);
    c := SeenOfferIsAsked(n.(now := t), seen, g, ref);
    m := HostStep(z.configs[a], n, t, Receive(Offer, seen)).value;
    j :| IsQuestion(m, seen, g, j, c);
  }

  /** The subscription is delivered: the publisher acknowledges. */
  lemma QuestionDelivered(z: System, a: Address, b: Address, t: real, j: nat, o: Notification, g: QoSGroup,
                          c: SubConnector)
      returns (m: Node, l: nat)
    requires Inv(z) && CanHappen(z, Deliver(b, t, a, j)) && b in z.configs
    requires OffersAreEncodable(o) && g in o.qosGroups && Fits16(o.serviceId) && c.apps != []
    requires o.serviceId in z.nodes[b].registry.pubs
    requires o == Offering(z.nodes[b].registry.pubs[o.serviceId].app).(address := o.address)
    requires Sent(z, a, j) == Message(Subscribe, Subscription(OfferAsSeen(z.configs[b], o, b), g, c))
    ensures Configured(z) && Act(z, Deliver(b, t, a, j)) == Ok(Replace(z, b, m))
    ensures l < |m.log| && m.log[l].message.Some? && IsAnswer(m.log[l].message.value, a, o, g)
  {
    hide Inv;
    hide CanHappen;
    hide Act;
    hide HandleAll;
    hide HostStep;
    hide Linked;
    hide Good;
    hide LogPasses;
    hide EncodeSubscribe;
    hide Decode;
    hide OfferAsSeen;
    hide OffersAreEncodable;
    hide AcknowledgeSubscription;
    hide Timely;
    InvConfigured(z);
    DeliveryCan(z, b, t, a, j);
    ReceiverConfig(z, b);
    SentPasses(z, a, j);
    GoodIsLinked(z.nodes[b]);
    var n, p := z.nodes[b], z.nodes[b].registry.pubs[o.serviceId].app;
    var q := QuestionArrives(z.configs[a], z.configs[b], o, g, c);
    ProperIsHandled(z.configs[b], n, t, Subscribe, q);
    Delivering(z, b, t, a, j, q);
    HostStepIs(z.configs[b], n, t, Receive(Subscribe, q));
    LinkedLater(n, t);
    SubscriptionIsServed(n.(now := t), q);
    m, l := AcknowledgeSubscription(n.(now := t), q).value, |n.log|;
  }

  /** The acknowledgement is delivered: the subscription is active. */
  lemma AnswerDelivered(z: System, a: Address, b: Address, t: real, l: nat, o: Notification, g: QoSGroup, ref: Ref)
      returns (m: Node)
    requires Inv(z) && CanHappen(z, Deliver(a, t, b, l)) && Fits16(o.serviceId) && Fits16(o.instanceId)
    requires IsAnswer(Sent(z, b, l), a, o, g)
    requires IsRequested(z.nodes[a], ref) && ref.SubRef? && ref.service == o.serviceId && ref.group == g
    requires ref.instance == o.instanceId || ref.instance == ANY_INSTANCE
    ensures Configured(z) && Act(z, Deliver(a, t, b, l)) == Ok(Replace(z, a, m))
    ensures IsActive(m, ref)
  {
    hide Inv;
    hide CanHappen;
    hide Act;
    hide HandleAll;
    hide HostStep;
    hide Linked;
    hide Good;
    hide LogPasses;
    hide EncodeAck;
    hide Decode;
    hide ProcessAcknowledged;
    hide Timely;
    hide IsActive;
    InvConfigured(z);
    DeliveryCan(z, a, t, b, l);
    ReceiverConfig(z, a);
    SentPasses(z, b, l);
    GoodIsLinked(z.nodes[a]);
    var n, x := z.nodes[a], Sent(z, b, l).notification;
    AckRoundTrip(z.configs[b], z.configs[a], x, b);
    var r := EndpointAsSeen(z.configs[b], x, b);
    ProperIsHandled(z.configs[a], n, t, SubscribeAck, r);
    Delivering(z, a, t, b, l, r);
    HostStepIs(z.configs[a], n, t, Receive(SubscribeAck, r));
    LinkedLater(n, t);
    AckActivates(n.(now := t), r, ref);
    m := ProcessAcknowledged(n.(now := t), r).value;
  }

  /** The message is the acknowledgement, to that address, of the group of the offer. */
  ghost predicate IsAnswer(m: Message, a: Address, o: Notification, g: QoSGroup) {
    && m.kind.SubscribeAck? && m.notification.address == a
    && m.notification.serviceId == o.serviceId && m.notification.instanceId == o.instanceId
    && m.notification.qosGroup == g
  }

  // ------------------------------------------------------------------ the whole handshake

  lemma ThreeActions(z: System, x1: Action, z1: System, x2: Action, z2: System, x3: Action, w: System)
    requires Configured(z) && Configured(z1) && Configured(z2)
    requires CanHappen(z, x1) && Act(z, x1) == Ok(z1)
    requires CanHappen(z1, x2) && Act(z1, x2) == Ok(z2)
    requires CanHappen(z2, x3) && Act(z2, x3) == Ok(w)
    ensures RunsTo(z, [x1, x2, x3], w)
  {
    hide CanHappen;
    hide Act;
    hide Configured;
    assert [x1, x2, x3][1..] == [x2, x3] && [x2, x3][1..] == [x3] && [x3][1..] == [];
    assert RunsTo(z2, [x3], w);
    assert RunsTo(z1, [x2, x3], w);
  }

  /** After the offer, the subscription can be delivered to the publisher. */
  lemma QuestionCanArrive(z: System, a: Address, b: Address, t1: real, k: nat, m: Node, j: nat,
                          g: QoSGroup, c: SubConnector, t2: real)
    requires Inv(z) && CanHappen(z, Deliver(a, t1, b, k)) && b in z.configs && Timely(z.nodes[b], t2)
    requires IsQuestion(m, OfferAsSeen(z.configs[b], Sent(z, b, k).notification, b), g, j, c)
    ensures CanHappen(Replace(z, a, m), Deliver(b, t2, a, j))
    ensures Sent(Replace(z, a, m), a, j)
         == Message(Subscribe, Subscription(OfferAsSeen(z.configs[b], Sent(z, b, k).notification, b), g, c))
  {
    hide Inv;
    hide Timely;
    DeliveryCan(z, a, t1, b, k);
    SentPasses(z, b, k);
  }

  /** After the subscription, the acknowledgement can be delivered to the subscriber. */
  lemma AnswerCanArrive(z: System, a: Address, b: Address, t2: real, j: nat, m: Node, l: nat,
                        o: Notification, g: QoSGroup, t3: real)
    requires CanHappen(z, Deliver(b, t2, a, j)) && Timely(z.nodes[a], t3)
    requires l < |m.log| && m.log[l].message.Some? && IsAnswer(m.log[l].message.value, a, o, g)
    ensures CanHappen(Replace(z, b, m), Deliver(a, t3, b, l))
    ensures IsAnswer(Sent(Replace(z, b, m), b, l), a, o, g) && Replace(z, b, m).nodes[a] == z.nodes[a]
  {
  }

  lemma TimelyLater(n: Node, m: Node, t: real)
    requires Timely(n, t) && m.timers == n.timers && m.now <= t
    ensures Timely(m, t)
  {
  }

  /** The second half: the subscription and then the acknowledgement are delivered. */
  lemma AnswerFollowsQuestion(z: System, a: Address, b: Address, t2: real, t3: real, j: nat, o: Notification,
                              g: QoSGroup, c: SubConnector, ref: Ref)
      returns (l: nat, m: Node, m': Node)
    requires Inv(z) && CanHappen(z, Deliver(b, t2, a, j)) && b in z.configs && Timely(z.nodes[a], t3)
    requires OffersAreEncodable(o) && g in o.qosGroups && Fits16(o.serviceId) && Fits16(o.instanceId) && c.apps != []
    requires o.serviceId in z.nodes[b].registry.pubs
    requires o == Offering(z.nodes[b].registry.pubs[o.serviceId].app).(address := o.address)
    requires Sent(z, a, j) == Message(Subscribe, Subscription(OfferAsSeen(z.configs[b], o, b), g, c))
    requires IsRequested(z.nodes[a], ref) && ref.SubRef? && ref.service == o.serviceId && ref.group == g
    requires ref.instance == o.instanceId || ref.instance == ANY_INSTANCE
    ensures var z2, w := Replace(z, b, m), Replace(Replace(z, b, m), a, m');
            && Configured(z) && Configured(z2) && Act(z, Deliver(b, t2, a, j)) == Ok(z2)
            && CanHappen(z2, Deliver(a, t3, b, l)) && Act(z2, Deliver(a, t3, b, l)) == Ok(w)
    ensures IsActive(m', ref)
  {
    hide Inv;
    hide CanHappen;
    hide Act;
    hide IsAnswer;
    hide IsRequested;
    hide IsActive;
    hide OfferAsSeen;
    hide OffersAreEncodable;
    hide Replace;
    hide Timely;
    m, l := QuestionDelivered(z, a, b, t2, j, o, g, c);
    ActionKeepsInv(z, Deliver(b, t2, a, j));
    AnswerCanArrive(z, a, b, t2, j, m, l, o, g, t3);
    m' := AnswerDelivered(Replace(z, b, m), a, b, t3, l, o, g, ref);
  }

  /** The handshake. In any state that any number of hosts can reach, when an offer that one host has
      sent is for what another waits for: delivering it, then the subscription that the other sends,
      then the acknowledgement that the first sends, can happen, throws nothing, and makes the
      subscription active. Each delivery takes place at any time its receiver's timers allow. */
  lemma {:induction false} HandshakeActivates(y: System, run: seq<Action>, z: System, a: Address, b: Address, k: nat,
                                              g: QoSGroup, ref: Ref, t1: real, t2: real, t3: real)
      returns (j: nat, l: nat, w: System)
    requires Initially(y) && RunsTo(y, run, z)
    requires CanHappen(z, Deliver(a, t1, b, k)) && Sent(z, b, k).kind.Offer?
    requires var o := Sent(z, b, k).notification;
             g in o.qosGroups && Fits16(o.serviceId) && Waits(z.nodes[a], o, g, ref)
    requires Timely(z.nodes[b], t2) && Timely(z.nodes[a], t3) && t1 <= t3
    ensures Configured(z) && RunsTo(z, [Deliver(a, t1, b, k), Deliver(b, t2, a, j), Deliver(a, t3, b, l)], w)
    ensures a in w.nodes && IsActive(w.nodes[a], ref)
  {
    hide Initially;
    hide RunsTo;
    hide Inv;
    hide CanHappen;
    hide Act;
    hide IsQuestion;
    hide IsAnswer;
    hide IsRequested;
    hide IsActive;
    hide OfferAsSeen;
    hide OffersAreEncodable;
    hide Timely;
    InitiallyInv(y);
    RunKeepsInv(y, run, z);
    DeliveryCan(z, a, t1, b, k);
    var o := Sent(z, b, k).notification;
    SentOffer(z, b, k);
    OfferInstanceFits(z, b, k);
    OfferComes(z, a, b, k);
    assert IsKeyFor(o, g, ref);
    hide Waits;
    var m1, j', c := OfferDelivered(z, a, b, t1, k, g, ref);
    var z1 := Replace(z, a, m1);
    ActionKeepsInv(z, Deliver(a, t1, b, k));
    QuestionCanArrive(z, a, b, t1, k, m1, j', g, c, t2);
    TimelyLater(z.nodes[a], m1, t3);
    assert z1.nodes[a] == m1 && z1.nodes[b] == z.nodes[b];
    var l', m2, m3 := AnswerFollowsQuestion(z1, a, b, t2, t3, j', o, g, c, ref);
    j, l := j', l';
    w := Replace(Replace(z1, b, m2), a, m3);
    ThreeActions(z, Deliver(a, t1, b, k), z1, Deliver(b, t2, a, j), Replace(z1, b, m2), Deliver(a, t3, b, l), w);
  }
}
