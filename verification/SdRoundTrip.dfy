/** What a receiver rebuilds from an encoded discovery message. */
module SdRoundTrip {
  import opened Base
  import opened SdHeader
  import opened SdCodec

  /** The notifications the encoder accepts. */
  predicate Encodable(n: Notification, g: QoSGroup) {
    g in SOMEIP_GROUPS && (g.SomeIpUdpMcast? ==> n.mcastAddr != UNSPECIFIED && 0 <= n.mcastPort)
  }

  function Part(b: bool, o: SdOption): seq<SdOption> {
    if b then [o] else []
  }

  function TcpOption(c: Config, n: Notification): SdOption {
    Ipv4Endpoint(c.localAddress, Tcp, U16(n.tcpPort))
  }

  function UdpOption(c: Config, n: Notification): SdOption {
    Ipv4Endpoint(c.localAddress, Udp, U16(n.udpPort))
  }

  function McastOption(n: Notification): SdOption {
    Ipv4Multicast(n.mcastAddr, Udp, U16(n.mcastPort))
  }

  // ------------------------------------------------------------------ the offer's options

  const SOMEIP_ORDER: seq<QoSGroup> := [SomeIpTcp, SomeIpUdp, SomeIpUdpMcast]

  lemma WalkSkips(order: seq<QoSGroup>, groups: set<QoSGroup>)
    requires order != [] && order[0] !in groups
    ensures Walk(order, groups) == Walk(order[1..], groups)
  {
  }

  const OTHER_ORDER: seq<QoSGroup> := [Undefined, Rt, IpTcp, IpUdp, IpUdpMcast, Web]

  lemma {:induction false} OthersAreSkipped(others: seq<QoSGroup>, groups: set<QoSGroup>)
    requires groups <= SOMEIP_GROUPS && forall g :: g in others ==> g !in SOMEIP_GROUPS
    ensures Walk(others + SOMEIP_ORDER, groups) == Walk(SOMEIP_ORDER, groups)
  {
    hide Walk;
    if others == [] {
      assert others + SOMEIP_ORDER == SOMEIP_ORDER;
    } else {
      assert others[0] in others;
      WalkSkips(others + SOMEIP_ORDER, groups);
      assert (others + SOMEIP_ORDER)[1..] == others[1..] + SOMEIP_ORDER;
      OthersAreSkipped(others[1..], groups);
    }
  }

  lemma SomeIpGroupsComeLast(groups: set<QoSGroup>)
    requires groups <= SOMEIP_GROUPS
    ensures InEnumOrder(groups) == Walk(SOMEIP_ORDER, groups)
  {
    hide Walk;
    assert ENUM_ORDER == OTHER_ORDER + SOMEIP_ORDER;
    OthersAreSkipped(OTHER_ORDER, groups);
  }

  lemma WalkIsParts(groups: set<QoSGroup>)
    ensures Walk(SOMEIP_ORDER, groups)
         == (if SomeIpTcp in groups then [SomeIpTcp] else [])
          + (if SomeIpUdp in groups then [SomeIpUdp] else [])
          + (if SomeIpUdpMcast in groups then [SomeIpUdpMcast] else [])
  {
    assert SOMEIP_ORDER[1..] == [SomeIpUdp, SomeIpUdpMcast];
    assert [SomeIpUdp, SomeIpUdpMcast][1..] == [SomeIpUdpMcast];
    assert [SomeIpUdpMcast][1..] == [];
    assert Walk([], groups) == [];
    assert Walk([SomeIpUdpMcast], groups) == (if SomeIpUdpMcast in groups then [SomeIpUdpMcast] else []) + [];
  }

  lemma OneGroupWalk(g: QoSGroup)
    requires g in SOMEIP_GROUPS
    ensures InEnumOrder({g}) == [g]
  {
    SomeIpGroupsComeLast({g});
    WalkIsParts({g});
  }

  lemma {:induction false} EndpointOptionsConcat(c: Config, n: Notification, a: seq<QoSGroup>, b: seq<QoSGroup>)
    requires EndpointOptions(c, n, a).Ok?
    ensures EndpointOptions(c, n, a + b) == Prepend(EndpointOptions(c, n, a).value, EndpointOptions(c, n, b))
  {
    if a == [] {
      assert a + b == b;
      PrependNothing(EndpointOptions(c, n, b));
    } else {
      var first := CreateIpv4Endpoint(c, n, a[0]).value;
      EndpointOptionsConcat(c, n, a[1..], b);
      assert (a + b)[1..] == a[1..] + b;
      PrependStep([first], EndpointOptions(c, n, a[1..]).value, EndpointOptions(c, n, b));
    }
  }

  ghost predicate OffersAreEncodable(n: Notification) {
    forall g :: g in n.qosGroups ==> Encodable(n, g)
  }

  function OfferedEndpoints(c: Config, n: Notification): seq<SdOption> {
    Part(SomeIpTcp in n.qosGroups, TcpOption(c, n))
    + Part(SomeIpUdp in n.qosGroups, UdpOption(c, n))
    + Part(SomeIpUdpMcast in n.qosGroups, McastOption(n))
  }

  lemma SingleEndpoint(c: Config, n: Notification, g: QoSGroup)
    requires Encodable(n, g)
    ensures EndpointOptions(c, n, [g]) == Ok([CreateIpv4Endpoint(c, n, g).value])
  {
    assert [g][1..] == [];
    assert EndpointOptions(c, n, []) == Ok([]);
    assert [CreateIpv4Endpoint(c, n, g).value] + [] == [CreateIpv4Endpoint(c, n, g).value];
  }

  lemma OfferEmitsOneEndpointPerGroup(c: Config, n: Notification)
    requires OffersAreEncodable(n)
    ensures EndpointOptions(c, n, InEnumOrder(n.qosGroups)) == Ok(OfferedEndpoints(c, n))
    ensures |OfferedEndpoints(c, n)| == |n.qosGroups|
  {
    var groups := n.qosGroups;
    assert groups <= SOMEIP_GROUPS by {
      forall g | g in groups
        ensures g in SOMEIP_GROUPS
      {
        assert Encodable(n, g);
      }
    }
    SomeIpGroupsComeLast(groups);
    WalkIsParts(groups);
    var t := if SomeIpTcp in groups then [SomeIpTcp] else [];
    var u := if SomeIpUdp in groups then [SomeIpUdp] else [];
    var m := if SomeIpUdpMcast in groups then [SomeIpUdpMcast] else [];
    if SomeIpTcp in groups { SingleEndpoint(c, n, SomeIpTcp); }
    if SomeIpUdp in groups { SingleEndpoint(c, n, SomeIpUdp); }
    if SomeIpUdpMcast in groups { SingleEndpoint(c, n, SomeIpUdpMcast); }
    EndpointOptionsConcat(c, n, t, u);
    EndpointOptionsConcat(c, n, t + u, m);
    CountGroups(groups);
  }

  lemma CountGroups(groups: set<QoSGroup>)
    requires groups <= SOMEIP_GROUPS
    ensures |groups| == (if SomeIpTcp in groups then 1 else 0) + (if SomeIpUdp in groups then 1 else 0)
                      + (if SomeIpUdpMcast in groups then 1 else 0)
  {
    var a := groups - {SomeIpTcp};
    var b := a - {SomeIpUdp};
    assert groups == if SomeIpTcp in groups then a + {SomeIpTcp} else a;
    assert a == if SomeIpUdp in groups then b + {SomeIpUdp} else b;
    assert b == if SomeIpUdpMcast in groups then {SomeIpUdpMcast} else {};
  }

  // ------------------------------------------------------------------ reading an offer

  /** Endpoint options taken one after the other. */
  function ReadAll(n: Notification, options: seq<SdOption>): Result<Notification>
    decreases |options|
  {
    if options == [] then Ok(n)
    else
      var m :- UpdateFromEndpointOption(n, options[0]);
      ReadAll(m, options[1..])
  }

  ghost predicate Endpoints(options: seq<SdOption>) {
    forall o :: o in options ==> !o.IsConfiguration()
  }

  ghost predicate Configurations(options: seq<SdOption>) {
    forall o :: o in options ==> o.IsConfiguration()
  }

  lemma {:induction false} ConfigurationsAreSkipped(c: Config, n: Notification, options: seq<SdOption>, from: nat)
    requires from <= |options| && Configurations(options[from..])
    ensures ReadOffer(c, n, options, from, |options| - from) == Ok(n)
    decreases |options| - from
  {
    if from < |options| {
      assert options[from] in options[from..];
      ConfigurationsAreSkipped(c, n, options, from + 1);
    }
  }

  /** Reading stays inside the list and amounts to taking the endpoint options in order. */
  lemma {:induction false} ReadingTakesTheEndpoints(c: Config, n: Notification, endpoints: seq<SdOption>,
                                                    configs: seq<SdOption>, from: nat)
    requires !c.hasQoSNP && Endpoints(endpoints) && Configurations(configs) && from <= |endpoints|
    ensures var options := endpoints + configs;
            ReadOffer(c, n, options, from, |options| - from) == ReadAll(n, endpoints[from..])
    decreases |endpoints| - from
  {
    var options := endpoints + configs;
    if from == |endpoints| {
      assert options[from..] == configs;
      ConfigurationsAreSkipped(c, n, options, from);
    } else {
      assert options[from] == endpoints[from] && endpoints[from] in endpoints;
      assert endpoints[from..][0] == endpoints[from] && endpoints[from..][1..] == endpoints[from + 1..];
      var m := UpdateFromEndpointOption(n, options[from]);
      if m.Ok? {
        ReadingTakesTheEndpoints(c, m.value, endpoints, configs, from + 1);
      }
    }
  }

  lemma {:induction false} ReadAllConcat(n: Notification, a: seq<SdOption>, b: seq<SdOption>)
    requires ReadAll(n, a).Ok?
    ensures ReadAll(n, a + b) == ReadAll(ReadAll(n, a).value, b)
    decreases |a|
  {
    if a == [] {
      assert a + b == b;
    } else {
      assert (a + b)[1..] == a[1..] + b;
      ReadAllConcat(UpdateFromEndpointOption(n, a[0]).value, a[1..], b);
    }
  }

  lemma ReadPart(n: Notification, o: SdOption, present: bool)
    ensures ReadAll(n, Part(present, o)) == if present then UpdateFromEndpointOption(n, o) else Ok(n)
  {
    assert [o][1..] == [];
    if present && UpdateFromEndpointOption(n, o).Ok? {
      assert ReadAll(UpdateFromEndpointOption(n, o).value, []) == UpdateFromEndpointOption(n, o);
    }
  }

  /** The notification a receiver sees for an offer sent from `src`. */
  function OfferAsSeen(c: Config, n: Notification, src: Address): Notification {
    var tcp, udp, mcast := SomeIpTcp in n.qosGroups, SomeIpUdp in n.qosGroups, SomeIpUdpMcast in n.qosGroups;
    BLANK.(
      serviceId := U16(n.serviceId),
      instanceId := U16(n.instanceId),
      qosGroups := n.qosGroups,
      address := if tcp || udp then c.localAddress else src,
      tcpPort := if tcp then U16(n.tcpPort) else -1,
      udpPort := if udp then U16(n.udpPort) else if tcp then U16(n.tcpPort) else -1,
      mcastAddr := if mcast then n.mcastAddr else UNSPECIFIED,
      mcastPort := if mcast then U16(n.mcastPort) else -1)
  }

  lemma ReadOfferedEndpoints(c: Config, n: Notification, base: Notification)
    requires OffersAreEncodable(n)
    requires base == BLANK.(serviceId := U16(n.serviceId), instanceId := U16(n.instanceId))
    ensures ReadAll(base, OfferedEndpoints(c, n)) == Ok(OfferAsSeen(c, n, UNSPECIFIED))
  {
    var tcp, udp, mcast := SomeIpTcp in n.qosGroups, SomeIpUdp in n.qosGroups, SomeIpUdpMcast in n.qosGroups;
    ReadPart(base, TcpOption(c, n), tcp);
    var n1 := ReadAll(base, Part(tcp, TcpOption(c, n))).value;
    ReadPart(n1, UdpOption(c, n), udp);
    var n2 := ReadAll(n1, Part(udp, UdpOption(c, n))).value;
    ReadPart(n2, McastOption(n), mcast);
    var n3 := ReadAll(n2, Part(mcast, McastOption(n))).value;
    ReadAllConcat(base, Part(tcp, TcpOption(c, n)), Part(udp, UdpOption(c, n)));
    ReadAllConcat(base, Part(tcp, TcpOption(c, n)) + Part(udp, UdpOption(c, n)), Part(mcast, McastOption(n)));
    forall g | g in n.qosGroups
      ensures g in n3.qosGroups
    {
      assert Encodable(n, g);
    }
    assert n3.qosGroups == n.qosGroups;
  }

  // ------------------------------------------------------------------ round trips

  /** An offer names its groups in its group set only: for the undefined group the encoder would take
      the single group instead. */
  predicate NamesNoOtherGroup(n: Notification) {
    Undefined in n.qosGroups ==> n.qosGroup.Undefined?
  }

  /** Encoding an offer succeeds exactly for SOME/IP groups with the multicast information they
      need, and the entry counts exactly the options that are sent. */
  lemma OfferEncodesExactlyWhen(c: Config, n: Notification)
    requires !c.hasQoSNP && NamesNoOtherGroup(n)
    ensures EncodeOffer(c, n).Ok? <==> OffersAreEncodable(n)
    ensures OffersAreEncodable(n) ==>
              EncodeOffer(c, n).value == Wire(
                EntryFor(Offer, n, |OfferedEndpoints(c, n) + ConfigurationOptions(c, n)|),
                OfferedEndpoints(c, n) + ConfigurationOptions(c, n))
  {
    if OffersAreEncodable(n) {
      OfferEmitsOneEndpointPerGroup(c, n);
    } else {
      var g :| g in n.qosGroups && !Encodable(n, g);
      InEnumOrderVisitsTheSet(n.qosGroups);
      UnencodableGroupFails(c, n, InEnumOrder(n.qosGroups), g);
    }
  }

  lemma {:induction false} UnencodableGroupFails(c: Config, n: Notification, groups: seq<QoSGroup>, g: QoSGroup)
    requires g in groups && (g.Undefined? ==> n.qosGroup.Undefined?) && !Encodable(n, g)
    ensures EndpointOptions(c, n, groups).Err?
  {
    if groups[0] != g {
      UnencodableGroupFails(c, n, groups[1..], g);
    }
  }

  lemma OfferPartsAreOfTheirKind(c: Config, n: Notification)
    ensures Endpoints(OfferedEndpoints(c, n)) && Configurations(ConfigurationOptions(c, n))
  {
  }

  lemma DecodeOfOffer(r: Config, w: Wire, m: Notification, src: Address)
    requires w.entry.entryType.Offer?
    requires ReadOffer(r, Named(w.entry), w.options, w.entry.index1stOptions, w.entry.num1stOptions) == Ok(m)
    ensures Decode(r, w, src)
         == if m.address == UNSPECIFIED && m.mcastAddr == UNSPECIFIED then Err(NoAddress)
            else Ok([WithSource(m, src)])
  {
  }

  lemma SourceFillsIn(c: Config, n: Notification, src: Address)
    requires c.localAddress != UNSPECIFIED && OffersAreEncodable(n)
    ensures var m := OfferAsSeen(c, n, UNSPECIFIED);
            && (m.address == UNSPECIFIED && m.mcastAddr == UNSPECIFIED <==> n.qosGroups == {})
            && WithSource(m, src) == OfferAsSeen(c, n, src)
  {
    if n.qosGroups != {} {
      var g :| g in n.qosGroups;
      assert Encodable(n, g);
      if SomeIpUdpMcast in n.qosGroups {
        assert Encodable(n, SomeIpUdpMcast);
      }
    }
  }

  lemma OfferIsRead(c: Config, r: Config, n: Notification)
    requires !c.hasQoSNP && !r.hasQoSNP && OffersAreEncodable(n)
    ensures var options := OfferedEndpoints(c, n) + ConfigurationOptions(c, n);
            var e := EntryFor(Offer, n, |options|);
            ReadOffer(r, Named(e), options, 0, |options|) == Ok(OfferAsSeen(c, n, UNSPECIFIED))
  {
    OfferPartsAreOfTheirKind(c, n);
    hide OfferedEndpoints;
    hide ConfigurationOptions;
    hide ReadOffer;
    hide ReadAll;
    var endpoints, configs := OfferedEndpoints(c, n), ConfigurationOptions(c, n);
    var e := EntryFor(Offer, n, |endpoints + configs|);
    ReadingTakesTheEndpoints(r, Named(e), endpoints, configs, 0);
    assert endpoints[0..] == endpoints;
    ReadOfferedEndpoints(c, n, Named(e));
  }

  /** An encoded offer is decoded without an error exactly when it offers some group (an offer of none
      gives the receiver no address), and then to the same service, instance and groups, with every
      offered group's own address and port. */
  lemma OfferRoundTrip(c: Config, r: Config, n: Notification, src: Address)
    requires !c.hasQoSNP && !r.hasQoSNP && NamesNoOtherGroup(n) && EncodeOffer(c, n).Ok?
    requires c.localAddress != UNSPECIFIED
    ensures var decoded := Decode(r, EncodeOffer(c, n).value, src);
            && (decoded.Ok? <==> n.qosGroups != {})
            && (decoded.Err? ==> decoded == Err(NoAddress))
            && (decoded.Ok? ==> decoded == Ok([OfferAsSeen(c, n, src)]))
  {
    OfferEncodesExactlyWhen(c, n);
    hide EncodeOffer;
    hide Decode;
    hide OfferAsSeen;
    hide OfferedEndpoints;
    hide ConfigurationOptions;
    OfferIsRead(c, r, n);
    SourceFillsIn(c, n, src);
    DecodeOfOffer(r, EncodeOffer(c, n).value, OfferAsSeen(c, n, UNSPECIFIED), src);
  }

  /** With QoS negotiation on both sides an offer carries just the publisher's address. */
  lemma OfferRoundTripWithNegotiation(c: Config, r: Config, n: Notification, src: Address)
    requires c.hasQoSNP && r.hasQoSNP && c.localAddress != UNSPECIFIED
    ensures EncodeOffer(c, n).Ok?
    ensures Decode(r, EncodeOffer(c, n).value, src)
         == Ok([BLANK.(serviceId := U16(n.serviceId), instanceId := U16(n.instanceId), address := c.localAddress)])
  {
    var w := EncodeOffer(c, n).value;
    var m := ReadOfferOption(r, Named(w.entry), w.options[0]).value;
    assert ReadOffer(r, m, w.options, 1, 0) == Ok(m);
  }

  /** The UDP port of an offer of both TCP and UDP is read back only because TCP is emitted first:
      in the other order it survives just when the ports are equal. */
  lemma UdpPortDependsOnTheOrder(n: Notification, address: Address, tcpPort: nat, udpPort: nat)
    requires SomeIpTcp !in n.qosGroups && SomeIpUdp !in n.qosGroups
    ensures var t, u := Ipv4Endpoint(address, Tcp, tcpPort), Ipv4Endpoint(address, Udp, udpPort);
            && ReadAll(n, [t, u]).Ok? && ReadAll(n, [u, t]).Ok?
            && ReadAll(n, [t, u]).value.udpPort == udpPort
            && (ReadAll(n, [u, t]).value.udpPort == udpPort <==> tcpPort == udpPort)
            && ReadAll(n, [t, u]).value.tcpPort == ReadAll(n, [u, t]).value.tcpPort == tcpPort
  {
    var t, u := Ipv4Endpoint(address, Tcp, tcpPort), Ipv4Endpoint(address, Udp, udpPort);
    ReadPart(n, t, true);
    ReadPart(n, u, true);
    ReadAllConcat(n, [t], [u]);
    ReadAllConcat(n, [u], [t]);
    ReadPart(ReadAll(n, [t]).value, u, true);
    ReadPart(ReadAll(n, [u]).value, t, true);
    assert [t] + [u] == [t, u] && [u] + [t] == [u, t];
  }

  /** The part of a subscription or acknowledgement that its single endpoint option restores. */
  function EndpointAsSeen(c: Config, n: Notification, src: Address): Notification {
    var g := n.qosGroup;
    BLANK.(
      serviceId := U16(n.serviceId),
      instanceId := U16(n.instanceId),
      qosGroups := {g},
      address := if g.SomeIpUdpMcast? then src else c.localAddress,
      tcpPort := if g.SomeIpTcp? then U16(n.tcpPort) else -1,
      udpPort := if g.SomeIpTcp? then U16(n.tcpPort) else if g.SomeIpUdp? then U16(n.udpPort) else -1,
      mcastAddr := if g.SomeIpUdpMcast? then n.mcastAddr else UNSPECIFIED,
      mcastPort := if g.SomeIpUdpMcast? then U16(n.mcastPort) else -1)
  }

  lemma SingleGroupWalk(g: QoSGroup)
    ensures OnlyMember({g}) == g
  {
    InEnumOrderVisitsTheSet({g});
    assert g in InEnumOrder({g});
    assert InEnumOrder({g})[0] in InEnumOrder({g});
  }

  lemma OneEndpointRead(c: Config, n: Notification, kind: EntryType, count: nat)
    requires Encodable(n, n.qosGroup)
    ensures var o := CreateIpv4Endpoint(c, n, Undefined).value;
            && !o.IsConfiguration()
            && UpdateFromEndpointOption(Named(EntryFor(kind, n, count)), o) == Ok(EndpointAsSeen(c, n, UNSPECIFIED))
  {
    assert BLANK.qosGroups + {n.qosGroup} == {n.qosGroup};
  }

  /** A subscription is encoded exactly for an encodable group, and decodes to one notification. */
  lemma SubscribeRoundTrip(c: Config, r: Config, n: Notification, src: Address)
    requires c.localAddress != UNSPECIFIED
    ensures EncodeSubscribe(c, n).Ok? <==> Encodable(n, n.qosGroup)
    ensures EncodeSubscribe(c, n).Ok? ==>
              Decode(r, EncodeSubscribe(c, n).value, src)
              == Ok([EndpointAsSeen(c, n, src).(qosGroup := n.qosGroup)])
  {
    if Encodable(n, n.qosGroup) {
      var w := EncodeSubscribe(c, n).value;
      var seen := EndpointAsSeen(c, n, src).(qosGroup := n.qosGroup);
      OneEndpointRead(c, n, Subscribe, |w.options|);
      SingleGroupWalk(n.qosGroup);
      assert DecodeSubscribeOption(w.entry, w.options[0], src) == Ok([seen]);
      ReadSubscribeTail(w.entry, w.options, src);
      assert [seen] + [] == [seen];
    }
  }

  lemma ReadSubscribeTail(e: Entry, options: seq<SdOption>, src: Address)
    requires 1 <= |options| <= 2 && (|options| == 2 ==> options[1].IsConfiguration())
    ensures ReadSubscribe(e, options, 1, |options| - 1, src) == Ok([])
  {
    var none: seq<Notification> := [];
    assert none + none == none;
    if |options| == 2 {
      assert DecodeSubscribeOption(e, options[1], src) == Ok([]);
      assert ReadSubscribe(e, options, 1 + 1, 1 - 1, src) == Ok([]);
    }
  }

  /** What one endpoint option of a subscription asks for. */
  ghost predicate AsksAt(e: Entry, o: SdOption, n: Notification) {
    && o.Ipv4Endpoint? && n.address == o.address && n.udpPort == o.port
    && n.serviceId == e.serviceId && n.instanceId == e.instanceId
    && n.qosGroup == (if o.protocol.Tcp? then SomeIpTcp else SomeIpUdp)
    && (o.protocol.Tcp? ==> n.tcpPort == o.port)
  }

  predicate IsUnicast(o: SdOption) {
    o.Ipv4Endpoint? && !o.protocol.OtherProtocol? && o.address != UNSPECIFIED
  }

  lemma UnicastAsks(e: Entry, o: SdOption, src: Address) returns (n: Notification)
    requires IsUnicast(o)
    ensures DecodeSubscribeOption(e, o, src) == Ok([n]) && AsksAt(e, o, n)
  {
    n := DecodeSubscribeOption(e, o, src).value[0];
    var g := if o.protocol.Tcp? then SomeIpTcp else SomeIpUdp;
    assert BLANK.qosGroups + {g} == {g};
    SingleGroupWalk(g);
  }

  /** A subscription of several endpoint options is as many subscriptions, in the order of the options. */
  lemma {:induction false} OneSubscriptionPerOption(e: Entry, options: seq<SdOption>, from: nat, src: Address)
    requires from <= |options| && forall k :: from <= k < |options| ==> IsUnicast(options[k])
    ensures var read := ReadSubscribe(e, options, from, |options| - from, src);
            && read.Ok? && |read.value| == |options| - from
            && forall k :: from <= k < |options| ==> AsksAt(e, options[k], read.value[k - from])
    decreases |options| - from
  {
    if from < |options| {
      var n := UnicastAsks(e, options[from], src);
      hide DecodeSubscribeOption;
      hide AsksAt;
      OneSubscriptionPerOption(e, options, from + 1, src);
      var rest := ReadSubscribe(e, options, from + 1, |options| - (from + 1), src).value;
      assert ReadSubscribe(e, options, from, |options| - from, src).value == [n] + rest;
    }
  }

  /** An acknowledgement likewise, except that it names its group only in the group set. */
  lemma AckRoundTrip(c: Config, r: Config, n: Notification, src: Address)
    requires c.localAddress != UNSPECIFIED
    ensures EncodeAck(c, n).Ok? <==> Encodable(n, n.qosGroup)
    ensures EncodeAck(c, n).Ok? ==>
              Decode(r, EncodeAck(c, n).value, src) == Ok([EndpointAsSeen(c, n, src)])
  {
    if Encodable(n, n.qosGroup) {
      var w := EncodeAck(c, n).value;
      OneEndpointRead(c, n, SubscribeAck, 1);
      var m := EndpointAsSeen(c, n, UNSPECIFIED);
      assert ReadAck(m, w.options, 1, 0) == Ok(m);
    }
  }

  /** A Find encodes always, and carries its service and its instance and nothing else; the receiver
      sees whom to answer. */
  lemma FindRoundTrip(c: Config, r: Config, n: Notification, src: Address) returns (q: Notification)
    ensures Encode(c, Find, n).Ok? && Decode(r, Encode(c, Find, n).value, src) == Ok([q])
    ensures q.serviceId == n.serviceId % 0x1_0000 && q.instanceId == n.instanceId % 0x1_0000 && q.address == src
    ensures q == BLANK.(serviceId := q.serviceId, instanceId := q.instanceId, address := src)
  {
    q := DecodeFind(EncodeFind(n), src);
  }

  // ------------------------------------------------------------------ configuration options

  function Rank(o: SdOption): nat {
    match o
    case Ieee8021Q(_, _) => 1
    case Ressource(_, _) => 2
    case RealTime(_) => 3
    case _ => 0
  }

  /** Endpoint options first; then configuration options, one of a kind at most, in this order. */
  ghost predicate Ranked(options: seq<SdOption>) {
    forall i, j :: 0 <= i < j < |options| ==>
      Rank(options[i]) <= Rank(options[j]) && (Rank(options[i]) == Rank(options[j]) ==> Rank(options[i]) == 0)
  }

  /** The configuration options that a notification has values for and that the module includes. */
  ghost predicate Configures(c: Config, n: Notification, options: seq<SdOption>) {
    && (forall pcp, vlanId :: Ieee8021Q(pcp, vlanId) in options
          <==> c.includeIEEE8021QConfig && 0 <= n.pcp == pcp && 0 <= n.vlanId == vlanId)
    && (forall size, interval :: Ressource(size, interval) in options
          <==> c.includeRessourceConfig && 0.0 < n.intervalMin == interval && n.payloadMax == size)
    && (forall deadline :: RealTime(deadline) in options
          <==> c.includeRealTimeConfig && 0.0 < n.deadline == deadline)
  }

  lemma ConfigurationOptionsAreRanked(c: Config, n: Notification)
    ensures Ranked(ConfigurationOptions(c, n))
  {
  }

  lemma ConfigurationOptionsConfigure(c: Config, n: Notification)
    ensures n.preventReservation ==> ConfigurationOptions(c, n) == []
    ensures !n.preventReservation ==> Configures(c, n, ConfigurationOptions(c, n))
  {
    var a := if c.includeIEEE8021QConfig && 0 <= n.pcp && 0 <= n.vlanId then [Ieee8021Q(n.pcp, n.vlanId)] else [];
    var b := if c.includeRessourceConfig && 0.0 < n.intervalMin then [Ressource(n.payloadMax, n.intervalMin)] else [];
    assert !n.preventReservation ==> ConfigurationOptions(c, n) == a + b + RealTimeOption(c, n);
    assert forall o :: o in a + b + RealTimeOption(c, n) <==> o in a || o in b || o in RealTimeOption(c, n);
  }

  lemma RankedAfterEndpoints(endpoints: seq<SdOption>, configs: seq<SdOption>)
    requires Endpoints(endpoints) && Ranked(configs)
    ensures Ranked(endpoints + configs)
  {
    assert forall i :: 0 <= i < |endpoints| ==> endpoints[i] in endpoints;
  }

  lemma EndpointsDoNotConfigure(c: Config, n: Notification, endpoints: seq<SdOption>, configs: seq<SdOption>)
    requires Endpoints(endpoints) && Configures(c, n, configs)
    ensures Configures(c, n, endpoints + configs)
  {
    assert forall o: SdOption :: o.IsConfiguration() ==> (o in endpoints + configs <==> o in configs);
  }

  /** The configuration options of an offer: none if reservation is prevented or QoS is negotiated, and
      otherwise exactly what the module is told to include and the notification has values for. */
  lemma ConfigurationOptionsAreSent(c: Config, n: Notification)
    requires NamesNoOtherGroup(n) && EncodeOffer(c, n).Ok?
    ensures var options := EncodeOffer(c, n).value.options;
            && Ranked(options)
            && (if c.hasQoSNP || n.preventReservation then Endpoints(options) else Configures(c, n, options))
  {
    if !c.hasQoSNP {
      OfferEncodesExactlyWhen(c, n);
      OfferPartsAreOfTheirKind(c, n);
      ConfigurationOptionsAreRanked(c, n);
      ConfigurationOptionsConfigure(c, n);
      hide *;
      var endpoints, configs := OfferedEndpoints(c, n), ConfigurationOptions(c, n);
      RankedAfterEndpoints(endpoints, configs);
      assert n.preventReservation ==> endpoints + configs == endpoints;
      if !n.preventReservation {
        EndpointsDoNotConfigure(c, n, endpoints, configs);
      }
    }
  }

  /** A subscription has one endpoint option, and a deadline option exactly when it has a deadline to
      tell and the module is told to include it. */
  lemma SubscriptionTellsItsDeadline(c: Config, n: Notification)
    requires EncodeSubscribe(c, n).Ok?
    ensures var options := EncodeSubscribe(c, n).value.options;
            && options != [] && !options[0].IsConfiguration()
            && options[1..] == if c.includeRealTimeConfig && 0.0 < n.deadline then [RealTime(n.deadline)] else []
  {
  }
}
