/** Vocabulary shared by the models: optional values, results, QoS groups and network addresses. */
module Base {

  datatype Option<+T> = None | Some(value: T)

  /** What the program reports by throwing a runtime error; a throw ends the simulation. */
  datatype Error =
    | DuplicatePublisher
    | DuplicateSubscriber
    | DuplicateOffer
    | DuplicateSubscription
    | EmptyConnector
    | NoConnector
    | StaticNeedsMulticast
    | MissingMulticastInfo
    | UnknownGroup
    | NotAnEndpointOption
    | RepeatedEndpointOption
    | UnknownProtocol
    | NoAddress
    | OptionListExhausted
    | NotAnOffer
    | UnknownConnectionType
    | NegativeFramesize

  datatype Result<+T> = Ok(value: T) | Err(error: Error) {
    predicate IsFailure() {
      Err?
    }

    function PropagateFailure<U>(): Result<U>
      requires Err?
    {
      Err(error)
    }

    function Extract(): T
      requires Ok?
    {
      value
    }
  }

  /** The QoS groups, declared in the order of their enumeration values. */
  datatype QoSGroup =
    | Undefined
    | Rt
    | IpTcp
    | IpUdp
    | IpUdpMcast
    | Web
    | SomeIpTcp
    | SomeIpUdp
    | SomeIpUdpMcast
  {
    function Code(): int {
      match this
      case Undefined => -1
      case Rt => 0
      case IpTcp => 1
      case IpUdp => 2
      case IpUdpMcast => 3
      case Web => 4
      case SomeIpTcp => 5
      case SomeIpUdp => 6
      case SomeIpUdpMcast => 7
    }
  }

  const SOMEIP_GROUPS: set<QoSGroup> := {SomeIpTcp, SomeIpUdp, SomeIpUdpMcast}

  const ENUM_ORDER: seq<QoSGroup> :=
    [Undefined, Rt, IpTcp, IpUdp, IpUdpMcast, Web, SomeIpTcp, SomeIpUdp, SomeIpUdpMcast]

  function Walk(order: seq<QoSGroup>, groups: set<QoSGroup>): seq<QoSGroup> {
    if order == [] then []
    else (if order[0] in groups then [order[0]] else []) + Walk(order[1..], groups)
  }

  /** The order in which a `std::set<QoSGroup>` is walked. */
  function InEnumOrder(groups: set<QoSGroup>): seq<QoSGroup> {
    Walk(ENUM_ORDER, groups)
  }

  ghost predicate Ascending(s: seq<QoSGroup>) {
    forall i, j :: 0 <= i < j < |s| ==> s[i].Code() < s[j].Code()
  }

  lemma {:induction false} WalkVisits(order: seq<QoSGroup>, groups: set<QoSGroup>)
    requires Ascending(order)
    ensures forall g :: g in Walk(order, groups) <==> g in order && g in groups
    ensures Ascending(Walk(order, groups))
  {
    if order != [] {
      var rest := Walk(order[1..], groups);
      WalkVisits(order[1..], groups);
      assert order == [order[0]] + order[1..];
      forall a | a in rest
        ensures order[0].Code() < a.Code()
      {
        var k :| 0 <= k < |order[1..]| && order[1..][k] == a;
        assert a == order[k + 1];
      }
    }
  }

  /** The walk visits exactly the members, each once, by ascending enumeration value. */
  lemma InEnumOrderVisitsTheSet(groups: set<QoSGroup>)
    ensures forall g :: g in InEnumOrder(groups) <==> g in groups
    ensures Ascending(InEnumOrder(groups))
  {
    forall i, j | 0 <= i < j < |ENUM_ORDER|
      ensures ENUM_ORDER[i].Code() < ENUM_ORDER[j].Code()
    {
      assert ENUM_ORDER[i].Code() == i - 1 && ENUM_ORDER[j].Code() == j - 1;
    }
    WalkVisits(ENUM_ORDER, groups);
    forall g: QoSGroup
      ensures g in ENUM_ORDER
    {
      assert g == ENUM_ORDER[g.Code() + 1];
    }
  }

  /** IPv4 addresses as numbers; 0 is the unspecified address. */
  type Address = a: nat | a < 0x1_0000_0000

  const UNSPECIFIED: Address := 0

  predicate IsMulticast(a: Address) {
    0xE000_0000 <= a < 0xF000_0000
  }

  /** The instance id that stands for any instance. */
  const ANY_INSTANCE: int := 0xFFFF

  /** Publisher instances are unsigned 16 bit numbers. */
  type InstanceId = i: nat | i < 0x1_0000

  /** Storing an integer in an unsigned 16 bit field. */
  function U16(x: int): nat {
    x % 0x1_0000
  }
}
