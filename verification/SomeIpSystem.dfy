/** Any number of hosts and the network between them. Every message a host has ever sent may reach
    any host it is addressed to, at any time and any number of times, or never: the network loses,
    duplicates and reorders. Messages travel encoded; what a host cannot encode or decode makes it
    throw. */
module SomeIpSystem {
  import opened Base
  import opened SdHeader
  import opened SdCodec
  import opened SomeIpNode
  import opened SomeIpHost

  /** Hosts and their discovery modules, by address. */
  datatype System = System(nodes: map<Address, Node>, configs: map<Address, Config>)

  datatype Action =
    | Local(host: Address, at: real, event: Event)
    | Deliver(to: Address, at: real, src: Address, sent: nat)

  ghost predicate Configured(y: System) {
    && y.configs.Keys == y.nodes.Keys
    && forall a :: a in y.nodes ==> a != UNSPECIFIED && y.configs[a].localAddress == a && !y.configs[a].hasQoSNP
  }

  ghost predicate IsSent(y: System, src: Address, k: nat) {
    src in y.nodes && k < |y.nodes[src].log| && y.nodes[src].log[k].message.Some?
  }

  function Sent(y: System, src: Address, k: nat): Message
    requires src in y.nodes && k < |y.nodes[src].log| && y.nodes[src].log[k].message.Some?
  {
    y.nodes[src].log[k].message.value
  }

  /** What the receiver's discovery module makes of a message. */
  function Arrival(y: System, to: Address, src: Address, m: Message): Result<seq<Notification>>
    requires to in y.configs && src in y.configs
  {
    var w :- Encode(y.configs[src], m.kind, m.notification);
    Decode(y.configs[to], w, src)
  }

  function HandleAll(c: Config, n: Node, at: real, kind: EntryType, notes: seq<Notification>): Result<Node>
    decreases |notes|
  {
    if notes == [] then Ok(n)
    else
      var m :- HostStep(c, n, at, Receive(kind, notes[0]));
      HandleAll(c, m, at, kind, notes[1..])
  }

  ghost predicate Timely(n: Node, at: real) {
    n.now <= at && forall t :: t in n.timers ==> at <= t.due
  }

  /** A host does not receive its own messages; unicast reaches only its addressee. */
  ghost predicate CanHappen(y: System, x: Action) {
    match x
    case Local(a, at, e) => a in y.nodes && !e.Receive? && Enabled(y.nodes[a], at, e)
    case Deliver(to, at, src, k) =>
      && to in y.nodes && src != to && Timely(y.nodes[to], at)
      && IsSent(y, src, k)
      && Sent(y, src, k).notification.address in {UNSPECIFIED, to}
  }

  function Act(y: System, x: Action): (r: Result<System>)
    requires Configured(y) && CanHappen(y, x)
    ensures r.Ok? ==> Configured(r.value)
  {
    match x
    case Local(a, at, e) =>
      var m :- HostStep(y.configs[a], y.nodes[a], at, e);
      Ok(y.(nodes := y.nodes[a := m]))
    case Deliver(to, at, src, k) =>
      var notes :- Arrival(y, to, src, Sent(y, src, k));
      var m :- HandleAll(y.configs[to], y.nodes[to], at, Sent(y, src, k).kind, notes);
      Ok(y.(nodes := y.nodes[to := m]))
  }
}
