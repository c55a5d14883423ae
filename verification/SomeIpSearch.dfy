/** A search works: a Find that reaches a host that offers what it asks for brings the offer back, and
    from there the handshake makes the subscription active. */
module SomeIpSearch {
  import opened Base
  import opened SdHeader
  import opened SdCodec
  import opened SdRoundTrip
  import opened Connectors
  import opened SomeIpNode
  import opened SomeIpLinks
  import opened SomeIpInvariant
  import opened SomeIpRuns
  import opened SomeIpOffers
  import opened SomeIpHost
  import opened SomeIpSystem
  import opened SomeIpAgreement
  import opened SomeIpDelivery
  import opened SomeIpHandshake
  import opened SomeIpMessages

  /** Host b offers, past its initial wait, what the Find that host a has sent asks for. */
  ghost predicate CanBeFound(z: System, b: Address, a: Address, f: nat, ref: Ref) {
    && IsSent(z, a, f) && Sent(z, a, f).kind.Find? && Fits16(Sent(z, a, f).notification.serviceId)
    && Asks(Sent(z, a, f).notification, ref) && b in z.nodes && IsOpenOffer(z.nodes[b], ref)
  }

  lemma OpenOfferIsPublished(n: Node, ref: Ref)
    requires Good(n) && ref.OfferRef? && IsOpenOffer(n, ref)
    ensures ref.service in n.registry.pubs && n.registry.pubs[ref.service].app.instanceId == ref.instance
    ensures Fits16(ref.instance)
  {
    OneOfferPerService(n, ref.service, ref.instance);
  }

  lemma AskedOnTheWire(x: Notification, q: Notification, ref: Ref)
    requires Asks(x, ref) && Fits16(x.serviceId) && Fits16(ref.instance)
    requires q.serviceId == x.serviceId % 0x1_0000 && q.instanceId == x.instanceId % 0x1_0000
    ensures Asks(q, ref)
  {
  }

  /** The Find is delivered: the host that offers answers to the address it came from. */
  lemma FindDelivered(z: System, a: Address, b: Address, t: real, f: nat, ref: Ref) returns (m: Node, o: Notification)
    requires Inv(z) && CanHappen(z, Deliver(b, t, a, f)) && CanBeFound(z, b, a, f, ref)
    ensures Configured(z) && Act(z, Deliver(b, t, a, f)) == Ok(Replace(z, b, m))
    ensures m == z.nodes[b].(log := m.log, now := t) && SendsOne(z.nodes[b], m, Offer, o)
    ensures ref.service in z.nodes[b].registry.pubs && o.address == a
    ensures TellsPublisher(o, z.nodes[b].registry.pubs[ref.service].app)
  {
    hide Inv;
    hide CanHappen;
    hide Act;
    hide HandleAll;
    hide HostStep;
    hide Step;
    hide Good;
    hide LogPasses;
    hide SendsOne;
    hide TellsPublisher;
    hide Timely;
    InvConfigured(z);
    DeliveryCan(z, b, t, a, f);
    ReceiverConfig(z, b);
    SentPasses(z, a, f);
    var n, x := z.nodes[b], Sent(z, a, f).notification;
    var q := FindRoundTrip(z.configs[a], z.configs[b], x, a);
    OpenOfferIsPublished(n, ref);
    AskedOnTheWire(x, q, ref);
    ProperIsHandled(z.configs[b], n, t, Find, q);
    Delivering(z, b, t, a, f, q);
    HostStepIs(z.configs[b], n, t, Receive(Find, q));
    ReceivingTakesNoTime(z.configs[b], n, t, Find, q);
    TimelyReceive(n, t, Find, q);
    FindIsHandled(n, t, q);
    m := Step(n, t, Receive(Find, q)).value;
    o :| SendsOne(n, m, Offer, o) && o.address == q.address && TellsPublisher(o, n.registry.pubs[q.serviceId].app);
  }

  lemma AnswerCanBeDelivered(z: System, a: Address, b: Address, t: real, f: nat, m: Node, o: Notification, t1: real)
    requires CanHappen(z, Deliver(b, t, a, f)) && SendsOne(z.nodes[b], m, Offer, o) && o.address == a
    requires a in z.nodes && Timely(z.nodes[a], t1)
    ensures var z', k := Replace(z, b, m), |z.nodes[b].log|;
            IsSent(z', b, k) && Sent(z', b, k) == Message(Offer, o) && CanHappen(z', Deliver(a, t1, b, k))
  {
    hide Timely;
  }

  lemma {:induction false} OneMoreAction(y: System, run: seq<Action>, z: System, x: Action, z': System)
    requires Configured(y) && RunsTo(y, run, z) && Configured(z) && CanHappen(z, x) && Act(z, x) == Ok(z')
    ensures RunsTo(y, run + [x], z')
    decreases |run|
  {
    hide CanHappen;
    hide Act;
    hide Configured;
    if run == [] {
      assert [] + [x] == [x] && [x][1..] == [];
    } else {
      assert (run + [x])[0] == run[0] && (run + [x])[1..] == run[1..] + [x];
      OneMoreAction(Act(y, run[0]).value, run[1..], z, x, z');
    }
  }

  /** In any state that any number of hosts can reach, a Find that is delivered to a host that offers
      what it asks for throws nothing and makes that host send one offer and nothing else. The offer
      can be delivered to the host that asked, which reads in it the publisher's groups, ports and
      multicast address. */
  lemma {:induction false} FindBringsTheOffer(y: System, run: seq<Action>, z: System, a: Address, b: Address,
                                              t: real, f: nat, ref: Ref, t1: real)
      returns (z': System, k: nat, seen: Notification)
    requires Initially(y) && RunsTo(y, run, z) && CanHappen(z, Deliver(b, t, a, f)) && CanBeFound(z, b, a, f, ref)
    requires Timely(z.nodes[a], t1)
    ensures Configured(z) && Act(z, Deliver(b, t, a, f)) == Ok(z') && b in z'.nodes
    ensures z' == Replace(z, b, z.nodes[b].(log := z'.nodes[b].log, now := t))
    ensures k == |z.nodes[b].log| && |z'.nodes[b].log| == k + 1 && z.nodes[b].log <= z'.nodes[b].log
    ensures IsSent(z', b, k) && Sent(z', b, k).kind.Offer? && CanHappen(z', Deliver(a, t1, b, k))
    ensures ref.service in z.nodes[b].registry.pubs
    ensures var p, o := z.nodes[b].registry.pubs[ref.service].app, Sent(z', b, k).notification;
            && TellsPublisher(o, p) && o.address == a
            && a in z'.configs && b in z'.configs
            && (p.groups == {} ==> Arrival(z', a, b, Sent(z', b, k)) == Err(NoAddress))
            && (p.groups != {} ==>
                  && Arrival(z', a, b, Sent(z', b, k)) == Ok([seen])
                  && seen.serviceId == ref.service && seen.instanceId == ref.instance && seen.qosGroups == p.groups
                  && seen.address == b
                  && (SomeIpTcp in p.groups ==> seen.tcpPort == U16(p.tcpPort))
                  && (SomeIpUdp in p.groups ==> seen.udpPort == U16(p.udpPort))
                  && (SomeIpUdpMcast in p.groups ==>
                        seen.mcastAddr == p.mcastAddr && seen.mcastPort == U16(p.mcastPort)))
  {
    hide Initially;
    hide RunsTo;
    hide Inv;
    hide CanHappen;
    hide Act;
    hide Arrival;
    hide Timely;
    hide OffersAreEncodable;
    InitiallyInv(y);
    RunKeepsInv(y, run, z);
    DeliveryCan(z, b, t, a, f);
    ReceiverConfig(z, b);
    OpenOfferIsPublished(z.nodes[b], ref);
    var m, o := FindDelivered(z, a, b, t, f, ref);
    AnswerCanBeDelivered(z, a, b, t, f, m, o, t1);
    z', k := Replace(z, b, m), |z.nodes[b].log|;
    ActionKeepsInv(z, Deliver(b, t, a, f));
    SentPasses(z', b, k);
    OfferComes(z', a, b, k);
    seen := OfferAsSeen(z'.configs[b], o, b);
  }

  lemma WaitsForTheAnswer(n: Node, o: Notification, p: Publisher, g: QoSGroup, r: Ref)
    requires Good(n) && TellsPublisher(o, p) && r in n.states && !IsRequested(n, r)
    requires r.SubRef? && r.service == p.serviceId && r.group == g
    requires r.instance == p.instanceId || r.instance == ANY_INSTANCE
    ensures Waits(n, o, g, r)
  {
    KeyIsSubscription(n, r);
  }

  lemma FirstThenTheRest(z: System, x: Action, z': System, rest: seq<Action>, w: System)
    requires Configured(z) && CanHappen(z, x) && Act(z, x) == Ok(z') && Configured(z') && RunsTo(z', rest, w)
    ensures RunsTo(z, [x] + rest, w)
  {
    hide CanHappen;
    hide Act;
    hide Configured;
    assert ([x] + rest)[1..] == rest;
  }

  /** Host a waits for a group of what host b offers with this key. */
  ghost predicate WaitsFor(z: System, a: Address, b: Address, ref: Ref, g: QoSGroup, r: Ref) {
    && b in z.nodes && ref.OfferRef? && ref.service in z.nodes[b].registry.pubs
    && g in z.nodes[b].registry.pubs[ref.service].app.groups
    && a in z.nodes && r in z.nodes[a].states && !IsRequested(z.nodes[a], r)
    && r.SubRef? && r.service == ref.service && r.group == g
    && (r.instance == ref.instance || r.instance == ANY_INSTANCE)
  }

  lemma AnswerIsAwaited(z: System, a: Address, b: Address, ref: Ref, g: QoSGroup, r: Ref, o: Notification)
    requires Inv(z) && WaitsFor(z, a, b, ref, g, r) && IsOpenOffer(z.nodes[b], ref)
    requires TellsPublisher(o, z.nodes[b].registry.pubs[ref.service].app)
    ensures Waits(z.nodes[a], o, g, r) && g in o.qosGroups && o.serviceId == ref.service
  {
    hide Inv;
    hide Waits;
    hide Good;
    ReceiverConfig(z, a);
    ReceiverConfig(z, b);
    OpenOfferIsPublished(z.nodes[b], ref);
    PublishedUnderItsService(z.nodes[b], ref.service);
    WaitsForTheAnswer(z.nodes[a], o, z.nodes[b].registry.pubs[ref.service].app, g, r);
  }

  /** After the Find has been answered. */
  lemma {:induction false} FoundFirst(y: System, run: seq<Action>, z: System, a: Address, b: Address, f: nat,
                                      ref: Ref, g: QoSGroup, r: Ref, t: real, t1: real, t2: real)
      returns (z': System, k: nat)
    requires Initially(y) && RunsTo(y, run, z) && CanHappen(z, Deliver(b, t, a, f)) && CanBeFound(z, b, a, f, ref)
    requires WaitsFor(z, a, b, ref, g, r) && Timely(z.nodes[a], t1) && Timely(z.nodes[b], t2) && t <= t2
    ensures Configured(z) && Configured(z') && Act(z, Deliver(b, t, a, f)) == Ok(z')
    ensures RunsTo(y, run + [Deliver(b, t, a, f)], z')
    ensures CanHappen(z', Deliver(a, t1, b, k)) && IsSent(z', b, k) && Sent(z', b, k).kind.Offer?
    ensures var o := Sent(z', b, k).notification;
            Fits16(o.serviceId) && Waits(z.nodes[a], o, g, r) && g in o.qosGroups
    ensures a in z'.nodes && z'.nodes[a] == z.nodes[a] && b in z'.nodes && Timely(z'.nodes[b], t2)
  {
    hide Initially;
    hide RunsTo;
    hide Inv;
    hide CanHappen;
    hide Act;
    hide Arrival;
    hide Timely;
    hide IsRequested;
    hide TellsPublisher;
    hide Waits;
    InitiallyInv(y);
    RunKeepsInv(y, run, z);
    DeliveryCan(z, b, t, a, f);
    var seen;
    z', k, seen := FindBringsTheOffer(y, run, z, a, b, t, f, ref, t1);
    OneMoreAction(y, run, z, Deliver(b, t, a, f), z');
    AnswerIsAwaited(z, a, b, ref, g, r, Sent(z', b, k).notification);
    TimelyLater(z.nodes[b], z'.nodes[b], t2);
  }

  /** From the search to the subscription. In any state that any number of hosts can reach: when a
      host waits for a group of a service, and its Find can be delivered to a host that offers the
      service with that group, then delivering the Find, the Offer that answers it, the subscription
      that this brings about and its acknowledgement can happen, throws nothing, and makes the
      subscription active. */
  lemma {:induction false} SearchActivates(y: System, run: seq<Action>, z: System, a: Address, b: Address, f: nat,
                                           ref: Ref, g: QoSGroup, r: Ref, t: real, t1: real, t2: real, t3: real)
      returns (k: nat, j: nat, l: nat, w: System)
    requires Initially(y) && RunsTo(y, run, z) && CanHappen(z, Deliver(b, t, a, f)) && CanBeFound(z, b, a, f, ref)
    requires WaitsFor(z, a, b, ref, g, r) && Timely(z.nodes[a], t1) && Timely(z.nodes[b], t2) && t <= t2
    requires Timely(z.nodes[a], t3) && t1 <= t3
    ensures Configured(z)
    ensures RunsTo(z, [Deliver(b, t, a, f), Deliver(a, t1, b, k), Deliver(b, t2, a, j), Deliver(a, t3, b, l)], w)
    ensures a in w.nodes && IsActive(w.nodes[a], r)
  {
    hide Initially;
    hide RunsTo;
    hide CanHappen;
    hide CanBeFound;
    hide Act;
    hide Configured;
    hide Timely;
    hide IsActive;
    hide Waits;
    var z', k' := FoundFirst(y, run, z, a, b, f, ref, g, r, t, t1, t2);
    k := k';
    j, l, w := HandshakeActivates(y, run + [Deliver(b, t, a, f)], z', a, b, k', g, r, t1, t2, t3);
    var rest := [Deliver(a, t1, b, k), Deliver(b, t2, a, j), Deliver(a, t3, b, l)];
    FirstThenTheRest(z, Deliver(b, t, a, f), z', rest, w);
    assert [Deliver(b, t, a, f)] + rest
        == [Deliver(b, t, a, f), Deliver(a, t1, b, k), Deliver(b, t2, a, j), Deliver(a, t3, b, l)];
  }
}
