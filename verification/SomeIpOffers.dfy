/** What an arriving offer makes a host ask for: a subscription for exactly the offered groups that
    it waits for, one each. */
module SomeIpOffers {
  import opened Base
  import opened SdHeader
  import opened SdCodec
  import opened Connectors
  import opened SomeIpNode
  import opened SomeIpHistory
  import opened SomeIpEvents
  import opened SomeIpLinks
  import opened SomeIpInvariant

  /** The key that the offer is for, no request of which is unanswered. */
  ghost predicate Waits(n: Node, o: Notification, g: QoSGroup, ref: Ref) {
    && IsKeyFor(o, g, ref) && ref in n.states
    && n.states[ref].SubscriptionState? && !n.states[ref].requested
  }

  ghost predicate IsAwaited(n: Node, o: Notification, g: QoSGroup) {
    exists ref :: Waits(n, o, g, ref)
  }

  /** The program looks for the offered instance first and then for any; there is one key at most. */
  lemma PendingExactly(n: Node, o: Notification, g: QoSGroup, ref: Ref)
    requires Linked(n)
    ensures PendingSubscription(n, o.serviceId, g, o.instanceId) == Some(ref)
            <==> IsKeyFor(o, g, ref) && ref in n.states
  {
    hide AllLinked;
  }

  lemma KeyIsSubscription(n: Node, ref: Ref)
    requires Linked(n) && ref in n.states && ref.SubRef?
    ensures n.states[ref].SubscriptionState?
  {
    assert LinkedRef(n.registry, ref, n.states[ref]);
  }

  lemma OnlyOneWaits(n: Node, o: Notification, g: QoSGroup, ref: Ref, r: Ref)
    requires Linked(n) && Waits(n, o, g, ref)
    ensures IsAwaited(n, o, g) && (Waits(n, o, g, r) ==> r == ref)
  {
    hide AllLinked;
  }

  lemma KeyFindsItsConnector(n: Node, ref: Ref)
    requires Linked(n) && ref in n.states && ref.SubRef?
    ensures var found := Search(SubsOf(n.registry, ref.service), ref.group);
            && found.Ok? && found.value.Some?
            && var c := SubsOf(n.registry, ref.service)[found.value.value];
               c in SubsOf(n.registry, ref.service) && c.apps != [] && GroupOf(c) == ref.group
  {
    assert LinkedRef(n.registry, ref, n.states[ref]);
    assert Homogeneous(SubsOf(n.registry, ref.service));
    SearchIsExact(SubsOf(n.registry, ref.service), ref.group);
    FoundConnector(n.registry, ref.service, ref.group);
  }

  /** One offered group: a subscription for the key that waits for it, from the connector of the
      group, or nothing at all. */
  lemma OfferForOneGroup(n: Node, o: Notification, g: QoSGroup) returns (ref: Ref, c: Option<SubConnector>)
    requires Linked(n)
    ensures c.Some? <==> IsAwaited(n, o, g)
    ensures c.None? ==> OfferForGroup(n, o, g) == Ok(n)
    ensures c.Some? ==>
              && Waits(n, o, g, ref) && ref in n.states && n.states[ref].SubscriptionState?
              && c.value in SubsOf(n.registry, o.serviceId) && c.value.apps != [] && GroupOf(c.value) == g
              && OfferForGroup(n, o, g) == Ok(RequestSubscription(n, ref, o, g, c.value))
  {
    hide Linked;
    hide PendingSubscription;
    hide RequestSubscription;
    hide Search;
    hide SubsOf;
    var pending := PendingSubscription(n, o.serviceId, g, o.instanceId);
    ref, c := SubRef(o.serviceId, g, o.instanceId), None;
    forall r
      ensures pending == Some(r) <==> IsKeyFor(o, g, r) && r in n.states
    {
      PendingExactly(n, o, g, r);
    }
    if pending.Some? {
      assert pending == Some(pending.value);
      KeyIsSubscription(n, pending.value);
      if !n.states[pending.value].requested {
        ref := pending.value;
        KeyFindsItsConnector(n, ref);
        var conns := SubsOf(n.registry, o.serviceId);
        c := Some(conns[Search(conns, g).value.value]);
        assert Waits(n, o, g, ref);
      }
    }
  }

  lemma RequestLeavesTheOthers(n: Node, r: Ref, o: Notification, other: QoSGroup, c: SubConnector,
                               g: QoSGroup, ref: Ref)
    requires r in n.states && r.SubRef? && n.states[r].SubscriptionState? && r.group != g && c.apps != []
    ensures Waits(RequestSubscription(n, r, o, other, c), o, g, ref) <==> Waits(n, o, g, ref)
  {
    hide Subscription;
    var m := RequestSubscription(n, r, o, other, c);
    assert forall k: Ref :: k != r ==> (k in m.states <==> k in n.states);
    assert forall k: Ref :: k != r && k in n.states ==> m.states[k] == n.states[k];
  }

  lemma OtherGroupsDoNotMatter(n: Node, o: Notification, g: QoSGroup, other: QoSGroup, ref: Ref)
    requires Linked(n) && other != g
    ensures OfferForGroup(n, o, other).Ok?
    ensures Waits(OfferForGroup(n, o, other).value, o, g, ref) <==> Waits(n, o, g, ref)
  {
    hide Linked;
    hide OfferForGroup;
    hide RequestSubscription;
    hide IsAwaited;
    var r, c := OfferForOneGroup(n, o, other);
    if c.Some? {
      RequestLeavesTheOthers(n, r, o, other, c.value, g, ref);
    }
  }

  // ------------------------------------------------------------------ counting requests

  function OneIf(b: bool): nat {
    if b then 1 else 0
  }

  lemma GroupCounts(n: Node, o: Notification, g: QoSGroup, ref: Ref)
    requires Linked(n)
    ensures OfferForGroup(n, o, g).Ok?
    ensures ViewOf(OfferForGroup(n, o, g).value, ref).requests
         == ViewOf(n, ref).requests + OneIf(Waits(n, o, g, ref))
  {
    hide Linked;
    hide OfferForGroup;
    hide RequestSubscription;
    hide ViewOf;
    hide Waits;
    var r, c := OfferForOneGroup(n, o, g);
    if c.Some? {
      RequestView(n, r, o, g, c.value, ref);
      OnlyOneWaits(n, o, g, r, ref);
    }
  }

  lemma {:induction false} GroupsCount(n: Node, o: Notification, groups: seq<QoSGroup>, ref: Ref)
    requires Linked(n) && Ascending(groups) && AreOffered(o, groups) && ref.SubRef?
    ensures OfferForGroups(n, o, groups).Ok?
    ensures ViewOf(OfferForGroups(n, o, groups).value, ref).requests
         == ViewOf(n, ref).requests + OneIf(ref.group in groups && Waits(n, o, ref.group, ref))
    decreases |groups|
  {
    if groups != [] {
      var g := groups[0];
      OfferForGroupFollows(n, o, g);
      var m := OfferForGroup(n, o, g).value;
      FollowsLinked(n, m, Receive(Offer, o));
      GroupCounts(n, o, g, ref);
      if g != ref.group {
        OtherGroupsDoNotMatter(n, o, ref.group, g, ref);
        OnlyItsGroup(n, o, g, ref);
      }
      hide Linked;
      hide Follows;
      hide OfferForGroup;
      hide ViewOf;
      hide Waits;
      GroupsCount(m, o, groups[1..], ref);
      assert ref.group in groups <==> ref.group == g || ref.group in groups[1..];
      assert ref.group in groups[1..] ==> ref.group != g;
    }
  }

  lemma OnlyItsGroup(n: Node, o: Notification, g: QoSGroup, ref: Ref)
    ensures Waits(n, o, g, ref) ==> ref.SubRef? && ref.group == g
  {
  }
}
