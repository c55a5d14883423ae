/** SOME/IP service discovery messages: how a notification becomes an entry with options, and how
    the receiver rebuilds a notification from them. */
module SdCodec {
  import opened Base
  import opened SdHeader

  datatype Notification = Notification(
    serviceId: int,
    address: Address,
    instanceId: int,
    qosGroups: set<QoSGroup>,
    qosGroup: QoSGroup,
    tcpPort: int,
    udpPort: int,
    mcastAddr: Address,
    mcastPort: int,
    payloadMax: nat,
    intervalMin: real,
    vlanId: int,
    pcp: int,
    deadline: real,
    preventReservation: bool)

  /** A default-constructed notification. */
  const BLANK := Notification(0xFFFF, UNSPECIFIED, 0xFFFF, {}, Undefined, -1, -1, UNSPECIFIED, -1,
                              0, 0.0, -1, -1, 0.0, false)

  /** The service discovery module's parameters. */
  datatype Config = Config(
    localAddress: Address,
    hasQoSNP: bool,
    includeIEEE8021QConfig: bool,
    includeRessourceConfig: bool,
    includeRealTimeConfig: bool)

  /** The one entry and the options that a message carries. */
  datatype Wire = Wire(entry: Entry, options: seq<SdOption>)

  // ------------------------------------------------------------------ encoding

  predicate HasMulticastInfo(n: Notification) {
    n.mcastAddr != UNSPECIFIED && 0 <= n.mcastPort
  }

  function CreateIpv4Endpoint(c: Config, n: Notification, group: QoSGroup): Result<SdOption> {
    var g := if group.Undefined? then n.qosGroup else group;
    match g
    case SomeIpTcp => Ok(Ipv4Endpoint(c.localAddress, Tcp, U16(n.tcpPort)))
    case SomeIpUdp => Ok(Ipv4Endpoint(c.localAddress, Udp, U16(n.udpPort)))
    case SomeIpUdpMcast =>
      if !HasMulticastInfo(n) then Err(MissingMulticastInfo)
      else Ok(Ipv4Multicast(n.mcastAddr, Udp, U16(n.mcastPort)))
    case _ => Err(UnknownGroup)
  }

  function EndpointOptions(c: Config, n: Notification, groups: seq<QoSGroup>): Result<seq<SdOption>> {
    if groups == [] then Ok([])
    else
      var first :- CreateIpv4Endpoint(c, n, groups[0]);
      var rest :- EndpointOptions(c, n, groups[1..]);
      Ok([first] + rest)
  }

  function RealTimeOption(c: Config, n: Notification): seq<SdOption> {
    if c.includeRealTimeConfig && 0.0 < n.deadline then [RealTime(n.deadline)] else []
  }

  function ConfigurationOptions(c: Config, n: Notification): seq<SdOption> {
    if n.preventReservation then []
    else
      (if c.includeIEEE8021QConfig && 0 <= n.pcp && 0 <= n.vlanId then [Ieee8021Q(n.pcp, n.vlanId)] else [])
      + (if c.includeRessourceConfig && 0.0 < n.intervalMin then [Ressource(n.payloadMax, n.intervalMin)] else [])
      + RealTimeOption(c, n)
  }

  function EntryFor(kind: EntryType, n: Notification, count: nat): Entry {
    Entry(kind, 0, count, U16(n.serviceId), U16(n.instanceId))
  }

  function EncodeFind(n: Notification): Wire {
    Wire(EntryFor(Find, n, 0), [])
  }

  function EncodeOffer(c: Config, n: Notification): Result<Wire> {
    if c.hasQoSNP then
      Ok(Wire(EntryFor(Offer, n, 1), [Ipv4Endpoint(c.localAddress, OtherProtocol, 0)]))
    else
      var endpoints :- EndpointOptions(c, n, InEnumOrder(n.qosGroups));
      var configs := ConfigurationOptions(c, n);
      Ok(Wire(EntryFor(Offer, n, |n.qosGroups| + |configs|), endpoints + configs))
  }

  function EncodeSubscribe(c: Config, n: Notification): Result<Wire> {
    var endpoint :- CreateIpv4Endpoint(c, n, Undefined);
    var options := [endpoint] + RealTimeOption(c, n);
    Ok(Wire(EntryFor(Subscribe, n, |options|), options))
  }

  function EncodeAck(c: Config, n: Notification): Result<Wire> {
    var endpoint :- CreateIpv4Endpoint(c, n, Undefined);
    Ok(Wire(EntryFor(SubscribeAck, n, 1), [endpoint]))
  }

  function Encode(c: Config, kind: EntryType, n: Notification): Result<Wire> {
    match kind
    case Find => Ok(EncodeFind(n))
    case Offer => EncodeOffer(c, n)
    case Subscribe => EncodeSubscribe(c, n)
    case SubscribeAck => EncodeAck(c, n)
  }

  // ------------------------------------------------------------------ decoding

  function AddGroup(n: Notification, g: QoSGroup): Result<Notification> {
    if g in n.qosGroups then Err(RepeatedEndpointOption) else Ok(n.(qosGroups := n.qosGroups + {g}))
  }

  function UpdateFromEndpointOption(n: Notification, o: SdOption): Result<Notification> {
    if o.IsConfiguration() then Err(NotAnEndpointOption)
    else
      var m := if o.Ipv4Multicast? then n else n.(address := o.address);
      match o.protocol
      case Udp =>
        if o.Ipv4Multicast? then
          var k :- AddGroup(m, SomeIpUdpMcast);
          Ok(k.(mcastAddr := o.address, mcastPort := o.port))
        else
          var k :- AddGroup(m, SomeIpUdp);
          Ok(k.(udpPort := o.port))
      case Tcp =>
        var k :- AddGroup(m, SomeIpTcp);
        Ok(k.(udpPort := o.port, tcpPort := o.port))
      case OtherProtocol => Err(UnknownProtocol)
  }

  function ReadOfferOption(c: Config, n: Notification, o: SdOption): Result<Notification> {
    if o.IsConfiguration() then Ok(n)
    else if c.hasQoSNP then Ok(if o.Ipv4Multicast? then n else n.(address := o.address))
    else UpdateFromEndpointOption(n, o)
  }

  /** Reads `count` options from position `from` on; moving past the end of the list is an error. */
  function ReadOffer(c: Config, n: Notification, options: seq<SdOption>, from: nat, count: nat): Result<Notification>
    decreases count
  {
    if count == 0 then Ok(n)
    else if |options| <= from then Err(OptionListExhausted)
    else
      var m :- ReadOfferOption(c, n, options[from]);
      ReadOffer(c, m, options, from + 1, count - 1)
  }

  function Named(e: Entry): Notification {
    BLANK.(serviceId := e.serviceId, instanceId := e.instanceId)
  }

  function WithSource(n: Notification, src: Address): Notification {
    if n.address == UNSPECIFIED then n.(address := src) else n
  }

  function DecodeFind(w: Wire, src: Address): Notification {
    Named(w.entry).(address := src)
  }

  function DecodeOffer(c: Config, w: Wire, src: Address): Result<Notification> {
    var n :- ReadOffer(c, Named(w.entry), w.options, w.entry.index1stOptions, w.entry.num1stOptions);
    if n.address == UNSPECIFIED && n.mcastAddr == UNSPECIFIED then Err(NoAddress)
    else Ok(WithSource(n, src))
  }

  function OnlyMember(groups: set<QoSGroup>): QoSGroup {
    var walk := InEnumOrder(groups);
    if walk == [] then Undefined else walk[0]
  }

  function DecodeSubscribeOption(e: Entry, o: SdOption, src: Address): Result<seq<Notification>> {
    if o.IsConfiguration() then Ok([])
    else
      var n :- UpdateFromEndpointOption(Named(e), o);
      Ok([WithSource(n.(qosGroup := OnlyMember(n.qosGroups)), src)])
  }

  function ReadSubscribe(e: Entry, options: seq<SdOption>, from: nat, count: nat, src: Address)
      : Result<seq<Notification>>
    decreases count
  {
    if count == 0 then Ok([])
    else if |options| <= from then Err(OptionListExhausted)
    else
      var first :- DecodeSubscribeOption(e, options[from], src);
      var rest :- ReadSubscribe(e, options, from + 1, count - 1, src);
      Ok(first + rest)
  }

  function ReadAck(n: Notification, options: seq<SdOption>, from: nat, count: nat): Result<Notification>
    decreases count
  {
    if count == 0 then Ok(n)
    else if |options| <= from then Err(OptionListExhausted)
    else
      var m :- UpdateFromEndpointOption(n, options[from]);
      ReadAck(m, options, from + 1, count - 1)
  }

  function DecodeSubscribe(w: Wire, src: Address): Result<seq<Notification>> {
    ReadSubscribe(w.entry, w.options, w.entry.index1stOptions, w.entry.num1stOptions, src)
  }

  function DecodeAck(w: Wire, src: Address): Result<Notification> {
    var n :- ReadAck(Named(w.entry), w.options, w.entry.index1stOptions, w.entry.num1stOptions);
    Ok(WithSource(n, src))
  }

  /** The notifications a received message gives rise to. */
  function Decode(c: Config, w: Wire, src: Address): Result<seq<Notification>> {
    match w.entry.entryType
    case Find => Ok([DecodeFind(w, src)])
    case Offer =>
      var n :- DecodeOffer(c, w, src);
      Ok([n])
    case Subscribe => DecodeSubscribe(w, src)
    case SubscribeAck =>
      var n :- DecodeAck(w, src);
      Ok([n])
  }

  // ------------------------------------------------------------------ the module's loops

  class SomeIpSD {
    const config: Config

    constructor (config: Config)
      ensures this.config == config
    {
      this.config := config;
    }

    method BuildOffer(n: Notification) returns (h: SomeIpSDHeader?, thrown: Option<Error>)
      ensures match EncodeOffer(config, n)
              case Err(e) => thrown == Some(e)
              case Ok(w) =>
                && thrown == None && h != null && fresh(h)
                && h.entryList == [w.entry] && h.optionList == w.options
                && LengthsAgree(h.Abstract())
    {
      thrown := None;
      var header := new SomeIpSDHeader();
      h := header;
      header.EncapEntry(EntryFor(Offer, n, |n.qosGroups|));
      if config.hasQoSNP {
        header.SetNum1stOptions(1);
        OptionsBytesAppend([], Ipv4Endpoint(config.localAddress, OtherProtocol, 0));
        header.EncapOption(Ipv4Endpoint(config.localAddress, OtherProtocol, 0));
      } else {
        thrown := AppendEndpoints(header, n);
        if thrown == None {
          AppendConfigurations(header, n);
        }
      }
    }

    method AppendEndpoints(h: SomeIpSDHeader, n: Notification) returns (thrown: Option<Error>)
      requires |h.entryList| == 1 && h.optionList == [] && LengthsAgree(h.Abstract())
      modifies h
      ensures h.entryList == old(h.entryList)
      ensures match EndpointOptions(config, n, InEnumOrder(n.qosGroups))
              case Err(e) => thrown == Some(e)
              case Ok(options) => thrown == None && h.optionList == options && LengthsAgree(h.Abstract())
    {
      var groups := InEnumOrder(n.qosGroups);
      ghost var target := EndpointOptions(config, n, groups);
      assert target == Prepend([], target) by {
        PrependNothing(target);
      }
      assert groups[0..] == groups;
      for i := 0 to |groups|
        invariant h.entryList == old(h.entryList) && LengthsAgree(h.Abstract())
        invariant target == Prepend(h.optionList, EndpointOptions(config, n, groups[i..]))
      {
        assert groups[i..][0] == groups[i] && groups[i..][1..] == groups[i + 1..];
        var created := CreateIpv4Endpoint(config, n, groups[i]);
        if created.Err? {
          return Some(created.error);
        }
        PrependStep(h.optionList, [created.value], EndpointOptions(config, n, groups[i + 1..]));
        OptionsBytesAppend(h.optionList, created.value);
        h.EncapOption(created.value);
      }
      assert groups[|groups|..] == [] && h.optionList + [] == h.optionList;
      thrown := None;
    }

    /** Encapsulates a configuration option and counts it in the entry. */
    method AppendConfiguration(h: SomeIpSDHeader, o: SdOption)
      requires |h.entryList| == 1 && LengthsAgree(h.Abstract())
      modifies h
      ensures h.entryList == [old(h.entryList[0]).(num1stOptions := old(h.entryList[0]).num1stOptions + 1)]
      ensures h.optionList == old(h.optionList) + [o]
      ensures LengthsAgree(h.Abstract())
    {
      OptionsBytesAppend(h.optionList, o);
      h.EncapOption(o);
      h.SetNum1stOptions(h.entryList[0].num1stOptions + 1);
    }

    method AppendConfigurations(h: SomeIpSDHeader, n: Notification)
      requires |h.entryList| == 1 && LengthsAgree(h.Abstract())
      modifies h
      ensures var configs := ConfigurationOptions(config, n);
              && h.entryList == [old(h.entryList[0]).(num1stOptions := old(h.entryList[0]).num1stOptions + |configs|)]
              && h.optionList == old(h.optionList) + configs
              && LengthsAgree(h.Abstract())
    {
      hide LengthsAgree;
      ghost var options, entry := h.optionList, h.entryList[0];
      if n.preventReservation {
        return;
      }
      ghost var configs: seq<SdOption> := [];
      if config.includeIEEE8021QConfig && 0 <= n.pcp && 0 <= n.vlanId {
        AppendConfiguration(h, Ieee8021Q(n.pcp, n.vlanId));
        configs := configs + [Ieee8021Q(n.pcp, n.vlanId)];
      }
      assert h.optionList == options + configs
          && h.entryList == [entry.(num1stOptions := entry.num1stOptions + |configs|)];
      if config.includeRessourceConfig && 0.0 < n.intervalMin {
        AppendConfiguration(h, Ressource(n.payloadMax, n.intervalMin));
        configs := configs + [Ressource(n.payloadMax, n.intervalMin)];
      }
      assert h.optionList == options + configs
          && h.entryList == [entry.(num1stOptions := entry.num1stOptions + |configs|)];
      if config.includeRealTimeConfig && 0.0 < n.deadline {
        AppendConfiguration(h, RealTime(n.deadline));
        configs := configs + [RealTime(n.deadline)];
      }
      assert h.optionList == options + configs
          && h.entryList == [entry.(num1stOptions := entry.num1stOptions + |configs|)];
      assert configs == ConfigurationOptions(config, n);
    }

    method ProcessOfferEntry(w: Wire, src: Address) returns (r: Result<Notification>)
      ensures r == DecodeOffer(config, w, src)
    {
      var n := Named(w.entry);
      var it := w.entry.index1stOptions;
      ghost var target := ReadOffer(config, n, w.options, it, w.entry.num1stOptions);
      for k := 0 to w.entry.num1stOptions
        invariant it == w.entry.index1stOptions + k
        invariant target == ReadOffer(config, n, w.options, it, w.entry.num1stOptions - k)
      {
        if |w.options| <= it {
          return Err(OptionListExhausted);
        }
        var option := w.options[it];
        if !option.IsConfiguration() {
          if config.hasQoSNP {
            if !option.Ipv4Multicast? {
              n := n.(address := option.address);
            }
          } else {
            var updated := UpdateFromEndpointOption(n, option);
            if updated.Err? {
              return updated;
            }
            n := updated.value;
          }
        }
        it := it + 1;
      }
      if n.address == UNSPECIFIED {
        if n.mcastAddr == UNSPECIFIED {
          return Err(NoAddress);
        }
        n := n.(address := src);
      }
      return Ok(n);
    }

    method ProcessSubscribeEventGroupEntry(w: Wire, src: Address) returns (r: Result<seq<Notification>>)
      ensures r == DecodeSubscribe(w, src)
    {
      var emitted: seq<Notification> := [];
      var it := w.entry.index1stOptions;
      ghost var target := DecodeSubscribe(w, src);
      PrependNothing(target);
      for k := 0 to w.entry.num1stOptions
        invariant it == w.entry.index1stOptions + k
        invariant target == Prepend(emitted, ReadSubscribe(w.entry, w.options, it, w.entry.num1stOptions - k, src))
      {
        if |w.options| <= it {
          return Err(OptionListExhausted);
        }
        var option := w.options[it];
        ghost var rest := ReadSubscribe(w.entry, w.options, it + 1, w.entry.num1stOptions - k - 1, src);
        if !option.IsConfiguration() {
          var updated := UpdateFromEndpointOption(Named(w.entry), option);
          if updated.Err? {
            return Err(updated.error);
          }
          var n := updated.value.(qosGroup := OnlyMember(updated.value.qosGroups));
          if n.address == UNSPECIFIED {
            n := n.(address := src);
          }
          PrependStep(emitted, [n], rest);
          emitted := emitted + [n];
        } else {
          PrependStep(emitted, [], rest);
          assert emitted + [] == emitted;
        }
        it := it + 1;
      }
      assert emitted + [] == emitted;
      return Ok(emitted);
    }

    /** A subscription's entry counts its endpoint option and, when there is one, its deadline. */
    method BuildSubscribe(n: Notification) returns (h: SomeIpSDHeader?, thrown: Option<Error>)
      ensures match EncodeSubscribe(config, n)
              case Err(e) => thrown == Some(e)
              case Ok(w) =>
                && thrown == None && h != null && fresh(h)
                && h.entryList == [w.entry] && h.optionList == w.options
                && LengthsAgree(h.Abstract())
    {
      thrown := None;
      var header := new SomeIpSDHeader();
      h := header;
      header.EncapEntry(EntryFor(Subscribe, n, 1));
      var created := CreateIpv4Endpoint(config, n, Undefined);
      if created.Err? {
        return h, Some(created.error);
      }
      OptionsBytesAppend(header.optionList, created.value);
      header.EncapOption(created.value);
      if config.includeRealTimeConfig && 0.0 < n.deadline {
        AppendConfiguration(header, RealTime(n.deadline));
      }
      assert header.optionList == [created.value] + RealTimeOption(config, n);
    }

    method ProcessSubscribeEventGroupAckEntry(w: Wire, src: Address) returns (r: Result<Notification>)
      ensures r == DecodeAck(w, src)
    {
      var n := Named(w.entry);
      var it := w.entry.index1stOptions;
      ghost var target := ReadAck(n, w.options, it, w.entry.num1stOptions);
      for k := 0 to w.entry.num1stOptions
        invariant it == w.entry.index1stOptions + k
        invariant target == ReadAck(n, w.options, it, w.entry.num1stOptions - k)
      {
        if |w.options| <= it {
          return Err(OptionListExhausted);
        }
        var updated := UpdateFromEndpointOption(n, w.options[it]);
        if updated.Err? {
          return updated;
        }
        n := updated.value;
        it := it + 1;
      }
      if n.address == UNSPECIFIED {
        n := n.(address := src);
      }
      return Ok(n);
    }
  }

  ghost function Prepend<T>(done: seq<T>, rest: Result<seq<T>>): Result<seq<T>> {
    match rest
    case Err(e) => Err(e)
    case Ok(more) => Ok(done + more)
  }

  lemma PrependNothing<T>(rest: Result<seq<T>>)
    ensures Prepend([], rest) == rest
  {
    if rest.Ok? {
      assert [] + rest.value == rest.value;
    }
  }

  lemma PrependStep<T>(done: seq<T>, some: seq<T>, rest: Result<seq<T>>)
    ensures Prepend(done, Prepend(some, rest)) == Prepend(done + some, rest)
  {
    if rest.Ok? {
      assert done + (some + rest.value) == (done + some) + rest.value;
    }
  }
}
