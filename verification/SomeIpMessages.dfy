/** What every event makes a host send, field by field, and that it makes it send nothing else. */
module SomeIpMessages {
  import opened Base
  import opened SdHeader
  import opened SdCodec
  import opened Connectors
  import opened ConnectorGrowth
  import opened SomeIpNode
  import opened SomeIpSchedule
  import opened SomeIpLinks
  import opened SomeIpInvariant
  import opened SomeIpRuns
  import opened SomeIpOffers
  import opened SomeIpHost

  /** The notification says what the publisher application offers. */
  predicate TellsPublisher(o: Notification, p: Publisher) {
    && o.serviceId == p.serviceId && o.instanceId == p.instanceId && o.qosGroups == p.groups
    && o.tcpPort == p.tcpPort && o.udpPort == p.udpPort && o.mcastAddr == p.mcastAddr && o.mcastPort == p.mcastPort
  }

  /** The log has got one more entry, for the message. */
  ghost predicate SendsOne(n: Node, m: Node, kind: EntryType, x: Notification) {
    && n.log <= m.log && |m.log| == |n.log| + 1
    && m.log[|n.log|].message == Some(Message(kind, x))
  }

  // ------------------------------------------------------------------ timers

  lemma OfferTells(n: Node, o: Notification, time: real)
    requires Linked(n) && OfferedInTime(n, o, time)
    ensures o.serviceId in n.registry.pubs && TellsPublisher(o, n.registry.pubs[o.serviceId].app)
  {
  }

  /** What the timers of a key make the host send goes to everyone: for a subscription a Find that
      names its service and instance, for an offer all that its publisher offers. */
  lemma TimersSendTheirOwn(n: Node, e: LogEntry)
    requires Reachable(n) && e in n.log && e.cause.ByTimer?
    ensures e.message.Some?
    ensures var x, ref := e.message.value.notification, e.cause.ref;
            && x.address == UNSPECIFIED && x.serviceId == ref.service && x.instanceId == ref.instance
            && (ref.SubRef? ==> e.message.value.kind.Find?)
            && (ref.OfferRef? ==>
                  && e.message.value.kind.Offer?
                  && ref.service in n.registry.pubs && TellsPublisher(x, n.registry.pubs[ref.service].app))
  {
    ReachableIsGood(n);
    assert Told(n, e);
    if e.cause.ref.OfferRef? {
      OfferTells(n, e.message.value.notification, e.time);
    }
  }

  // ------------------------------------------------------------------ a Find

  lemma OneOfferPerService(n: Node, s: int, i: int)
    requires Linked(n) && OfferRef(s, i) in n.states
    ensures s in n.registry.pubs && n.registry.pubs[s].app.instanceId == i
    ensures n.states[OfferRef(s, i)].OfferState?
    ensures TellsPublisher(n.states[OfferRef(s, i)].offering, n.registry.pubs[s].app)
  {
    OfferingNamesItsRef(n, OfferRef(s, i));
  }

  lemma NoOtherAnswer(n: Node, ref: Ref, to: Address)
    requires ref !in n.states
    ensures AnswerFind(n, ref, to) == n
  {
  }

  lemma {:induction false} AnswersOnce(n: Node, s: int, instance: nat, to: Address, i: nat)
    requires i <= 0xFFFF && forall j :: OfferRef(s, j) in n.states ==> j == i
    ensures AnswerFindAll(n, s, instance, to) == if instance <= i then AnswerFind(n, OfferRef(s, i), to) else n
    decreases 0x1_0000 - instance
  {
    if instance <= 0xFFFF {
      var m := AnswerFind(n, OfferRef(s, instance), to);
      assert m.states == n.states;
      hide AnswerFind;
      if instance != i {
        NoOtherAnswer(n, OfferRef(s, instance), to);
      }
      AnswersOnce(m, s, instance + 1, to, i);
    }
  }

  lemma AskedIsAnswered(n: Node, q: Notification, ref: Ref)
    requires Linked(n) && Asks(q, ref) && ref in n.states
    ensures LookForService(n, q) == AnswerFind(n, ref, q.address)
  {
    forall j | OfferRef(q.serviceId, j) in n.states
      ensures j == ref.instance
    {
      OneOfferPerService(n, q.serviceId, j);
      OneOfferPerService(n, ref.service, ref.instance);
    }
    OneOfferPerService(n, ref.service, ref.instance);
    hide Linked;
    hide AnswerFind;
    if q.instanceId == ANY_INSTANCE {
      AnswersOnce(n, q.serviceId, 0, q.address, ref.instance);
    }
  }

  lemma {:induction false} NobodyAnswers(n: Node, s: int, instance: nat, to: Address)
    requires forall j :: OfferRef(s, j) !in n.states
    ensures AnswerFindAll(n, s, instance, to) == n
    decreases 0x1_0000 - instance
  {
    if instance <= 0xFFFF {
      NoOtherAnswer(n, OfferRef(s, instance), to);
      NobodyAnswers(n, s, instance + 1, to);
    }
  }

  lemma NotAskedIsSilent(n: Node, q: Notification)
    requires forall ref :: Asks(q, ref) ==> ref !in n.states
    ensures LookForService(n, q) == n
  {
    assert Asks(q, OfferRef(q.serviceId, q.instanceId));
    if q.instanceId == ANY_INSTANCE {
      forall j
        ensures OfferRef(q.serviceId, j) !in n.states
      {
        assert Asks(q, OfferRef(q.serviceId, j));
      }
      NobodyAnswers(n, q.serviceId, 0, q.address);
    }
  }

  lemma AnswerTells(n: Node, ref: Ref, to: Address)
    requires Linked(n) && ref.OfferRef? && ref in n.states
    ensures var m := AnswerFind(n, ref, to);
            && m.(log := n.log) == n
            && (!IsOpenOffer(n, ref) ==> m == n)
            && (IsOpenOffer(n, ref) ==>
                  exists o :: SendsOne(n, m, Offer, o) && o.address == to
                              && TellsPublisher(o, n.registry.pubs[ref.service].app))
  {
    OneOfferPerService(n, ref.service, ref.instance);
    hide Linked;
    if IsOpenOffer(n, ref) {
      var o := n.states[ref].offering.(address := to);
      assert SendsOne(n, AnswerFind(n, ref, to), Offer, o);
    }
  }

  /** One Offer, to whoever asked and with all that the publisher offers, if the Find asks for what the
      host offers past its initial wait, and otherwise nothing. */
  ghost predicate IsAnsweredBy(n: Node, q: Notification, m: Node) {
    && (forall ref :: Asks(q, ref) && IsOpenOffer(n, ref) ==>
          && q.serviceId in n.registry.pubs
          && exists o :: SendsOne(n, m, Offer, o) && o.address == q.address
                         && TellsPublisher(o, n.registry.pubs[q.serviceId].app))
    && ((forall ref :: Asks(q, ref) ==> !IsOpenOffer(n, ref)) ==> m.log == n.log)
  }

  lemma FindActs(n: Node, q: Notification)
    requires Linked(n)
    ensures LookForService(n, q).(log := n.log) == n && IsAnsweredBy(n, q, LookForService(n, q))
  {
    hide Linked;
    hide LookForService;
    hide AnswerFind;
    hide SendsOne;
    hide TellsPublisher;
    if r :| Asks(q, r) && r in n.states {
      AskedIsAnswered(n, q, r);
      AnswerTells(n, r, q.address);
      OneOfferPerService(n, r.service, r.instance);
      forall ref | Asks(q, ref) && ref in n.states
        ensures ref == r
      {
        OneOfferPerService(n, ref.service, ref.instance);
      }
    } else {
      NotAskedIsSilent(n, q);
    }
  }

  lemma AnsweredWhenever(n: Node, at: real, q: Notification, m: Node)
    requires IsAnsweredBy(n.(now := at), q, m)
    ensures IsAnsweredBy(n, q, m)
  {
    hide TellsPublisher;
    hide Asks;
    var a := n.(now := at);
    assert forall ref :: IsOpenOffer(a, ref) <==> IsOpenOffer(n, ref);
    assert forall o :: SendsOne(a, m, Offer, o) <==> SendsOne(n, m, Offer, o);
  }

  lemma GoodIsLinked(n: Node, at: real)
    requires Good(n)
    ensures Linked(n) && Linked(n.(now := at))
  {
  }

  lemma PublishedUnderItsService(n: Node, s: int)
    requires Good(n) && s in n.registry.pubs
    ensures n.registry.pubs[s].app.serviceId == s
  {
  }

  lemma FindIsHandled(n: Node, at: real, q: Notification)
    requires Good(n) && Enabled(n, at, Receive(Find, q))
    ensures Step(n, at, Receive(Find, q)).Ok?
    ensures var m := Step(n, at, Receive(Find, q)).value;
            m.(log := n.log, now := n.now) == n && IsAnsweredBy(n, q, m)
  {
    hide IsAnsweredBy;
    hide LookForService;
    hide Good;
    hide Linked;
    GoodIsLinked(n, at);
    FindActs(n.(now := at), q);
    AnsweredWhenever(n, at, q, LookForService(n.(now := at), q));
  }

  /** A Find makes the host send the Offer that answers it and nothing else, and changes nothing else. */
  lemma FindIsAnswered(n: Node, at: real, q: Notification)
    requires Reachable(n) && Enabled(n, at, Receive(Find, q))
    ensures Step(n, at, Receive(Find, q)).Ok?
    ensures var m := Step(n, at, Receive(Find, q)).value;
            m.(log := n.log, now := n.now) == n && IsAnsweredBy(n, q, m)
  {
    hide IsAnsweredBy;
    hide Reachable;
    hide Good;
    ReachableIsGood(n);
    FindIsHandled(n, at, q);
  }

  // ------------------------------------------------------------------ an Offer

  /** A subscription for a group of the offer and a key that the offer is for: it names the offered
      service and instance, goes to the address of the offer, and carries the ports of a connector of
      the group and the deadline of that connector's first application. */
  ghost predicate AsksForTheOffer(m: Node, o: Notification, e: LogEntry) {
    && e.message.Some? && e.message.value.kind.Subscribe?
    && var x := e.message.value.notification;
       && x.serviceId == o.serviceId && x.instanceId == o.instanceId && x.address == o.address
       && x.qosGroup in o.qosGroups && x.mcastAddr == o.mcastAddr && x.mcastPort == o.mcastPort
       && HasConnectorLike(m.registry, x.serviceId, x.qosGroup, x.tcpPort, x.udpPort, x.deadline)
       && e.cause.RequestFor? && IsKeyFor(o, x.qosGroup, e.cause.ref)
  }

  lemma SentForAnOffer(m: Node, o: Notification, e: LogEntry)
    requires Justified(m, Receive(Offer, o), e)
    ensures AsksForTheOffer(m, o, e)
  {
    hide HasConnectorLike;
    hide OfferedInTime;
    hide Answers;
  }

  /** All that an offer makes the host send are subscriptions for it. */
  lemma SubscriptionsNameTheOffer(n: Node, at: real, o: Notification, k: nat)
    requires Reachable(n) && Enabled(n, at, Receive(Offer, o))
    ensures Step(n, at, Receive(Offer, o)).Ok?
    ensures var m := Step(n, at, Receive(Offer, o)).value;
            n.log <= m.log && (|n.log| <= k < |m.log| ==> AsksForTheOffer(m, o, m.log[k]))
  {
    hide Good;
    hide Step;
    hide Enabled;
    hide Moves;
    hide Linked;
    hide Grows;
    hide StatesStay;
    hide OnlyAcksActivate;
    hide Justified;
    hide Reachable;
    hide AsksForTheOffer;
    ReachableIsGood(n);
    EventKeepsGood(n, at, Receive(Offer, o));
    var m := Step(n, at, Receive(Offer, o)).value;
    if |n.log| <= k < |m.log| {
      SentForAnOffer(m, o, m.log[k]);
    }
  }

  ghost predicate SentFor(n: Node, m: Node, groups: seq<QoSGroup>) {
    && n.log <= m.log
    && forall k :: |n.log| <= k < |m.log| ==>
         m.log[k].message.Some? && m.log[k].message.value.notification.qosGroup in groups
  }

  /** What was sent since is messages, one per group at most and in the order of the enumeration. */
  ghost predicate SentInOrder(n: Node, m: Node) {
    && n.log <= m.log
    && (forall k :: |n.log| <= k < |m.log| ==> m.log[k].message.Some?)
    && (forall k, l :: |n.log| <= k < l < |m.log| ==>
          m.log[k].message.value.notification.qosGroup.Code() < m.log[l].message.value.notification.qosGroup.Code())
  }

  lemma OneGroupSends(n: Node, o: Notification, g: QoSGroup)
    requires Linked(n)
    ensures OfferForGroup(n, o, g).Ok?
    ensures var m := OfferForGroup(n, o, g).value;
            && n.log <= m.log && |m.log| <= |n.log| + 1
            && (forall k :: |n.log| <= k < |m.log| ==>
                  m.log[k].message.Some? && m.log[k].message.value.notification.qosGroup == g)
  {
    hide Linked;
    hide OfferForGroup;
    hide Waits;
    var ref, c := OfferForOneGroup(n, o, g);
  }

  lemma {:induction false} GroupsSendInOrder(n: Node, o: Notification, groups: seq<QoSGroup>)
    requires Linked(n) && Ascending(groups) && AreOffered(o, groups)
    ensures OfferForGroups(n, o, groups).Ok?
    ensures var m := OfferForGroups(n, o, groups).value;
            SentInOrder(n, m) && SentFor(n, m, groups)
    decreases |groups|
  {
    hide Linked;
    hide Follows;
    hide OfferForGroup;
    if groups != [] {
      var g := groups[0];
      OfferForGroupFollows(n, o, g);
      var m := OfferForGroup(n, o, g).value;
      FollowsLinked(n, m, Receive(Offer, o));
      OneGroupSends(n, o, g);
      GroupsSendInOrder(m, o, groups[1..]);
      var z := OfferForGroups(m, o, groups[1..]).value;
      assert forall k :: 0 <= k < |m.log| ==> z.log[k] == m.log[k];
      assert forall h :: h in groups[1..] ==> h in groups && g.Code() < h.Code();
    }
  }

  /** The subscriptions that an offer brings about are sent in the order of the groups' enumeration. */
  lemma SubscriptionsAreOrdered(n: Node, at: real, o: Notification)
    requires Reachable(n) && Enabled(n, at, Receive(Offer, o))
    ensures Step(n, at, Receive(Offer, o)).Ok? && SentInOrder(n, Step(n, at, Receive(Offer, o)).value)
  {
    hide Reachable;
    hide Good;
    hide Linked;
    hide OfferForGroups;
    ReachableIsGood(n);
    GoodIsLinked(n, at);
    InEnumOrderVisitsTheSet(o.qosGroups);
    GroupsSendInOrder(n.(now := at), o, InEnumOrder(o.qosGroups));
  }
}
