/** Which deliveries make their receiver throw, in any state that any number of hosts can reach: those
    of an offer of no group, and no others. */
module SomeIpDelivery {
  import opened Base
  import opened SdHeader
  import opened SdCodec
  import opened SdRoundTrip
  import opened Connectors
  import opened SomeIpNode
  import opened SomeIpRuns
  import opened SomeIpHost
  import opened SomeIpSystem
  import opened SomeIpAgreement

  // ------------------------------------------------------------------ what arrives

  ghost predicate IsEmptyOffer(m: Message) {
    m.kind.Offer? && m.notification.qosGroups == {}
  }

  /** What decoding makes of a message that its sender could encode. */
  ghost predicate IsProper(kind: EntryType, q: Notification) {
    && (kind.Offer? ==> OffersAreEncodable(q))
    && (kind.Subscribe? ==> Encodable(q, q.qosGroup))
    && (kind.SubscribeAck? ==> q.qosGroups <= SOMEIP_GROUPS)
  }

  /** An offer in a host's log is its publisher's. */
  lemma SentOffer(y: System, src: Address, k: nat)
    requires Inv(y) && IsSent(y, src, k) && Sent(y, src, k).kind.Offer?
    ensures var o := Sent(y, src, k).notification;
            && o.serviceId in y.nodes[src].registry.pubs
            && o == Offering(y.nodes[src].registry.pubs[o.serviceId].app).(address := o.address)
  {
    var e := y.nodes[src].log[k];
    assert Good(y.nodes[src]) && e in y.nodes[src].log;
    assert Told(y.nodes[src], e);
  }

  lemma SentPasses(y: System, src: Address, k: nat)
    requires Inv(y) && IsSent(y, src, k)
    ensures src in y.configs && !y.configs[src].hasQoSNP && y.configs[src].localAddress == src != UNSPECIFIED
    ensures Encode(y.configs[src], Sent(y, src, k).kind, Sent(y, src, k).notification).Ok?
  {
    assert EntryOk(y, src, y.nodes[src].log[k]);
    hide Good;
    hide Encode;
  }

  lemma OfferComes(y: System, to: Address, src: Address, k: nat)
    requires Inv(y) && to in y.nodes && IsSent(y, src, k) && Sent(y, src, k).kind.Offer?
    ensures to in y.configs && src in y.configs
    ensures var m, o := Sent(y, src, k), Sent(y, src, k).notification;
            && OffersAreEncodable(o)
            && Arrival(y, to, src, m)
               == if o.qosGroups == {} then Err(NoAddress) else Ok([OfferAsSeen(y.configs[src], o, src)])
  {
    hide Inv;
    hide EncodeOffer;
    hide Decode;
    hide OfferAsSeen;
    hide OffersAreEncodable;
    SentOffer(y, src, k);
    SentPasses(y, src, k);
    ReceiverConfig(y, to);
    var o := Sent(y, src, k).notification;
    OfferEncodesExactlyWhen(y.configs[src], o);
    OfferRoundTrip(y.configs[src], y.configs[to], o, src);
  }

  lemma ReceiverConfig(y: System, to: Address)
    requires Inv(y) && to in y.nodes
    ensures to in y.configs && !y.configs[to].hasQoSNP && y.configs[to].localAddress == to != UNSPECIFIED
    ensures Good(y.nodes[to]) && LogPasses(y.configs[to], y.nodes[to])
  {
    forall k | 0 <= k < |y.nodes[to].log|
      ensures Passes(y.configs[to], y.nodes[to].log[k])
    {
      assert EntryOk(y, to, y.nodes[to].log[k]);
    }
  }

  lemma SeenOfferIsProper(c: Config, o: Notification, src: Address)
    requires OffersAreEncodable(o)
    ensures OffersAreEncodable(OfferAsSeen(c, o, src))
  {
    forall g | g in OfferAsSeen(c, o, src).qosGroups
      ensures Encodable(OfferAsSeen(c, o, src), g)
    {
      assert Encodable(o, g);
    }
  }

  lemma MessageComes(y: System, to: Address, src: Address, k: nat) returns (q: Notification)
    requires Inv(y) && to in y.nodes && IsSent(y, src, k)
    ensures to in y.configs && src in y.configs
    ensures var m := Sent(y, src, k);
            && (if IsEmptyOffer(m) then Arrival(y, to, src, m) == Err(NoAddress)
                else Arrival(y, to, src, m) == Ok([q]) && IsProper(m.kind, q))
  {
    hide Inv;
    hide EncodeOffer;
    hide EncodeSubscribe;
    hide EncodeAck;
    hide OffersAreEncodable;
    SentPasses(y, src, k);
    ReceiverConfig(y, to);
    var c, m := y.configs[src], Sent(y, src, k);
    var x := m.notification;
    q := x;
    match m.kind {
      case Find =>
        q := DecodeFind(EncodeFind(x), src);
      case Offer =>
        hide OfferAsSeen;
        OfferComes(y, to, src, k);
        SeenOfferIsProper(c, x, src);
        q := OfferAsSeen(c, x, src);
      case Subscribe =>
        hide Decode;
        SubscribeRoundTrip(c, y.configs[to], x, src);
        q := EndpointAsSeen(c, x, src).(qosGroup := x.qosGroup);
      case SubscribeAck =>
        hide Decode;
        AckRoundTrip(c, y.configs[to], x, src);
        q := EndpointAsSeen(c, x, src);
    }
  }

  // ------------------------------------------------------------------ what it does

  lemma ProperIsHandled(c: Config, n: Node, at: real, kind: EntryType, q: Notification)
    requires Good(n) && LogPasses(c, n) && Timely(n, at) && IsProper(kind, q)
    ensures HostStep(c, n, at, Receive(kind, q)).Ok?
  {
    var e := Receive(kind, q);
    assert Enabled(n, at, e);
    HostThrowsExactlyWhen(c, n, at, e);
    match kind {
      case Find => FindsNeverThrow(c, n, at, q);
      case Offer =>
      case Subscribe =>
      case SubscribeAck =>
    }
  }

  lemma OneIsHandled(c: Config, n: Node, at: real, kind: EntryType, q: Notification)
    ensures HandleAll(c, n, at, kind, [q]) == HostStep(c, n, at, Receive(kind, q))
  {
    hide HostStep;
    assert [q][1..] == [];
  }

  /** A delivery hands its receiver the one notification that the message decodes to. */
  lemma Delivering(y: System, to: Address, at: real, src: Address, k: nat, q: Notification)
    requires Configured(y) && CanHappen(y, Deliver(to, at, src, k))
    requires Arrival(y, to, src, Sent(y, src, k)) == Ok([q])
    ensures var r := HostStep(y.configs[to], y.nodes[to], at, Receive(Sent(y, src, k).kind, q));
            Act(y, Deliver(to, at, src, k)) == if r.Ok? then Ok(Replace(y, to, r.value)) else Err(r.error)
  {
    hide Arrival;
    hide HandleAll;
    hide HostStep;
    OneIsHandled(y.configs[to], y.nodes[to], at, Sent(y, src, k).kind, q);
  }

  lemma DeliveryActs(y: System, to: Address, at: real, src: Address, k: nat)
    requires Inv(y) && CanHappen(y, Deliver(to, at, src, k))
    ensures Configured(y)
    ensures var x := Deliver(to, at, src, k);
            if IsEmptyOffer(Sent(y, src, k)) then Act(y, x) == Err(NoAddress) else Act(y, x).Ok?
  {
    hide Inv;
    hide Arrival;
    hide HandleAll;
    hide HostStep;
    hide IsEmptyOffer;
    hide IsProper;
    hide Timely;
    InvConfigured(y);
    DeliveryCan(y, to, at, src, k);
    var q := MessageComes(y, to, src, k);
    if !IsEmptyOffer(Sent(y, src, k)) {
      ReceiverConfig(y, to);
      ProperIsHandled(y.configs[to], y.nodes[to], at, Sent(y, src, k).kind, q);
      Delivering(y, to, at, src, k, q);
    }
  }

  lemma InvConfigured(y: System)
    requires Inv(y)
    ensures Configured(y)
  {
  }

  lemma DeliveryCan(y: System, to: Address, at: real, src: Address, k: nat)
    requires CanHappen(y, Deliver(to, at, src, k))
    ensures to in y.nodes && src != to && Timely(y.nodes[to], at) && IsSent(y, src, k)
  {
  }

  /** In every state that any run reaches, a delivery throws exactly when it is of an offer of no group,
      that is, of a publisher without one; every Find, every subscription, every acknowledgement and
      every other offer is handled without an error. */
  lemma {:induction false} DeliveriesThrowExactlyWhen(y: System, run: seq<Action>, z: System,
                                                      to: Address, at: real, src: Address, k: nat)
    requires Initially(y) && RunsTo(y, run, z) && CanHappen(z, Deliver(to, at, src, k))
    ensures Configured(z)
    ensures var m, x := Sent(z, src, k), Deliver(to, at, src, k);
            if IsEmptyOffer(m) then Act(z, x) == Err(NoAddress) else Act(z, x).Ok?
    ensures var m := Sent(z, src, k);
            m.kind.Offer? ==>
              && m.notification.serviceId in z.nodes[src].registry.pubs
              && m.notification.qosGroups == z.nodes[src].registry.pubs[m.notification.serviceId].app.groups
              && OffersAreEncodable(m.notification)
  {
    hide Initially;
    hide RunsTo;
    hide Inv;
    hide Act;
    hide OffersAreEncodable;
    InitiallyInv(y);
    RunKeepsInv(y, run, z);
    DeliveryActs(z, to, at, src, k);
    if Sent(z, src, k).kind.Offer? {
      SentOffer(z, src, k);
      OfferComes(z, to, src, k);
    }
  }

  // ------------------------------------------------------------------ such a publisher

  lemma FirstOfferIsSent(c: Config, a: Address, params: Params, p: Publisher)
    requires p.groups == {} && !p.isStatic
    ensures var n, e := NewNode(a, params), AddPublisher(p, 0.0);
            && Enabled(n, 0.0, e) && HostStep(c, n, 0.0, e).Ok?
            && HostStep(c, n, 0.0, e).value.log
               == [LogEntry(0.0, ByTimer(OfferRef(p.serviceId, p.instanceId)), Some(Message(Offer, Offering(p))))]
  {
    var n, e := NewNode(a, params), AddPublisher(p, 0.0);
    FirstOffer(a, params, p);
    HostStepIs(c, n, 0.0, e);
    assert OffersAreEncodable(Offering(p));
    OfferPassesExactlyWhen(c, Step(n, 0.0, e).value.log[0]);
    hide Step;
    hide HostStep;
  }

  lemma OfferedFirst(y: System, a: Address, p: Publisher) returns (m: Node)
    requires Initially(y) && a in y.nodes && p.groups == {} && !p.isStatic
    ensures var x := Local(a, 0.0, AddPublisher(p, 0.0));
            Configured(y) && CanHappen(y, x) && Act(y, x) == Ok(Replace(y, a, m))
    ensures m.log == [LogEntry(0.0, ByTimer(OfferRef(p.serviceId, p.instanceId)), Some(Message(Offer, Offering(p))))]
  {
    hide HostStep;
    hide Offering;
    var n := y.nodes[a];
    assert n == NewNode(a, n.params);
    FirstOfferIsSent(y.configs[a], a, n.params, p);
    m := HostStep(y.configs[a], n, 0.0, AddPublisher(p, 0.0)).value;
  }

  lemma FirstOfferCanArrive(y: System, a: Address, b: Address, m: Node, p: Publisher)
    requires Initially(y) && a in y.nodes && b in y.nodes && a != b && p.groups == {}
    requires |m.log| == 1 && m.log[0].message == Some(Message(Offer, Offering(p)))
    ensures CanHappen(Replace(y, a, m), Deliver(b, 0.0, a, 0)) && IsEmptyOffer(Sent(Replace(y, a, m), a, 0))
  {
    assert y.nodes[b] == NewNode(b, y.nodes[b].params);
    assert Replace(y, a, m).nodes[b] == y.nodes[b];
  }

  lemma OneAction(y: System, x: Action, z: System)
    requires Configured(y) && CanHappen(y, x) && Act(y, x) == Ok(z)
    ensures RunsTo(y, [x], z)
  {
    hide CanHappen;
    hide Act;
    hide Configured;
    assert [x][1..] == [];
  }

  /** A host may offer a publisher without groups; the first host that the offer reaches throws. */
  lemma EmptyOfferThrows(y: System, a: Address, b: Address, p: Publisher)
    requires Initially(y) && a in y.nodes && b in y.nodes && a != b
    requires p.groups == {} && !p.isStatic
    ensures var x := Local(a, 0.0, AddPublisher(p, 0.0));
            && CanHappen(y, x) && Act(y, x).Ok?
            && var z := Act(y, x).value;
               CanHappen(z, Deliver(b, 0.0, a, 0)) && Act(z, Deliver(b, 0.0, a, 0)) == Err(NoAddress)
  {
    hide Initially;
    hide HostStep;
    hide Act;
    hide CanHappen;
    hide IsEmptyOffer;
    hide Offering;
    hide Replace;
    hide RunsTo;
    var m := OfferedFirst(y, a, p);
    var x, z := Local(a, 0.0, AddPublisher(p, 0.0)), Replace(y, a, m);
    FirstOfferCanArrive(y, a, b, m, p);
    OneAction(y, x, z);
    DeliveriesThrowExactlyWhen(y, [x], z, b, 0.0, a, 0);
  }
}
