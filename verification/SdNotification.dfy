/** The notification object that a receiver fills in, option by option. */
module SdNotification {
  import opened Base
  import opened SdHeader
  import opened SdCodec

  class SomeIpDiscoveryNotification {
    const serviceId: int
    const instanceId: int
    var address: Address
    var qosGroups: set<QoSGroup>
    var qosGroup: QoSGroup
    var tcpPort: int
    var udpPort: int
    var mcastDestAddr: Address
    var mcastDestPort: int

    ghost function Abstract(): Notification
      reads this
    {
      BLANK.(serviceId := serviceId, instanceId := instanceId, address := address,
             qosGroups := qosGroups, qosGroup := qosGroup, tcpPort := tcpPort, udpPort := udpPort,
             mcastAddr := mcastDestAddr, mcastPort := mcastDestPort)
    }

    constructor (serviceId: int, instanceId: int)
      ensures Abstract() == BLANK.(serviceId := serviceId, instanceId := instanceId)
    {
      this.serviceId, this.instanceId := serviceId, instanceId;
      address, mcastDestAddr, mcastDestPort := UNSPECIFIED, UNSPECIFIED, -1;
      qosGroups, qosGroup, tcpPort, udpPort := {}, Undefined, -1, -1;
    }

    /** Whether the group was new. */
    method AddQoSGroup(g: QoSGroup) returns (added: bool)
      modifies this`qosGroups
      ensures added <==> g !in old(qosGroups)
      ensures qosGroups == old(qosGroups) + {g}
    {
      added := g !in qosGroups;
      qosGroups := qosGroups + {g};
    }

    /** Unless it throws, the notification has changed. */
    method UpdateFromOption(o: SdOption) returns (changed: bool, thrown: Option<Error>)
      modifies this
      ensures match UpdateFromEndpointOption(old(Abstract()), o)
              case Err(e) => thrown == Some(e)
              case Ok(n) => thrown == None && changed && Abstract() == n
    {
      changed, thrown := false, None;
      if o.IsConfiguration() {
        return false, Some(NotAnEndpointOption);
      }
      var isMcast := o.Ipv4Multicast?;
      if !isMcast {
        if address == UNSPECIFIED || address != o.address {
          changed := true;
          address := o.address;
        }
      }
      match o.protocol {
        case Udp =>
          var added := AddQoSGroup(if isMcast then SomeIpUdpMcast else SomeIpUdp);
          if !added {
            return changed, Some(RepeatedEndpointOption);
          }
          changed := true;
          if isMcast {
            mcastDestAddr, mcastDestPort := o.address, o.port;
          } else {
            udpPort := o.port;
          }
        case Tcp =>
          var added := AddQoSGroup(SomeIpTcp);
          if !added {
            return changed, Some(RepeatedEndpointOption);
          }
          changed := true;
          udpPort := o.port;
          tcpPort := o.port;
        case OtherProtocol =>
          return changed, Some(UnknownProtocol);
      }
    }
  }

  /** An option is refused exactly when it is a configuration option, of an unknown protocol, or of a
      group that an earlier option named; otherwise it adds exactly one SOME/IP group. */
  lemma UpdateThrowsExactlyWhen(n: Notification, o: SdOption)
    ensures UpdateFromEndpointOption(n, o).Err?
            <==> o.IsConfiguration() || o.protocol.OtherProtocol? || GroupNamed(o) in n.qosGroups
    ensures UpdateFromEndpointOption(n, o).Ok? ==>
              && GroupNamed(o) in SOMEIP_GROUPS
              && UpdateFromEndpointOption(n, o).value.qosGroups == n.qosGroups + {GroupNamed(o)}
  {
  }

  function GroupNamed(o: SdOption): QoSGroup {
    if o.Ipv4Multicast? then if o.protocol.Udp? then SomeIpUdpMcast else SomeIpTcp
    else if o.Ipv4Endpoint? then if o.protocol.Udp? then SomeIpUdp else SomeIpTcp
    else Undefined
  }

  lemma {:induction false} OfferReadsSomeIpGroups(c: Config, n: Notification, options: seq<SdOption>,
                                                  from: nat, count: nat)
    requires n.qosGroups <= SOMEIP_GROUPS && ReadOffer(c, n, options, from, count).Ok?
    ensures ReadOffer(c, n, options, from, count).value.qosGroups <= SOMEIP_GROUPS
    decreases count
  {
    if count != 0 {
      if !options[from].IsConfiguration() {
        UpdateThrowsExactlyWhen(n, options[from]);
      }
      OfferReadsSomeIpGroups(c, ReadOfferOption(c, n, options[from]).value, options, from + 1, count - 1);
    }
  }

  lemma {:induction false} AckReadsSomeIpGroups(n: Notification, options: seq<SdOption>, from: nat, count: nat)
    requires n.qosGroups <= SOMEIP_GROUPS && ReadAck(n, options, from, count).Ok?
    ensures ReadAck(n, options, from, count).value.qosGroups <= SOMEIP_GROUPS
    decreases count
  {
    if count != 0 {
      UpdateThrowsExactlyWhen(n, options[from]);
      AckReadsSomeIpGroups(UpdateFromEndpointOption(n, options[from]).value, options, from + 1, count - 1);
    }
  }

  lemma {:induction false} SubscribeReadsSomeIpGroups(e: Entry, options: seq<SdOption>,
                                                      from: nat, count: nat, src: Address)
    requires ReadSubscribe(e, options, from, count, src).Ok?
    ensures forall n :: n in ReadSubscribe(e, options, from, count, src).value ==> n.qosGroups <= SOMEIP_GROUPS
    decreases count
  {
    if count != 0 {
      SubscribeReadsSomeIpGroups(e, options, from + 1, count - 1, src);
      if !options[from].IsConfiguration() {
        UpdateThrowsExactlyWhen(Named(e), options[from]);
      }
      hide UpdateFromEndpointOption;
    }
  }

  /** Whatever arrives on the wire, a decoded notification names only SOME/IP groups. */
  lemma DecodedGroupsAreSomeIp(c: Config, w: Wire, src: Address, n: Notification)
    requires Decode(c, w, src).Ok? && n in Decode(c, w, src).value
    ensures n.qosGroups <= SOMEIP_GROUPS
  {
    var e := w.entry;
    match e.entryType {
      case Find =>
      case Offer => OfferReadsSomeIpGroups(c, Named(e), w.options, e.index1stOptions, e.num1stOptions);
      case Subscribe => SubscribeReadsSomeIpGroups(e, w.options, e.index1stOptions, e.num1stOptions, src);
      case SubscribeAck => AckReadsSomeIpGroups(Named(e), w.options, e.index1stOptions, e.num1stOptions);
    }
  }
}
