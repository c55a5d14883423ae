/** UDP publisher endpoints: the remotes they send to and the traffic filters they install. */
module UdpPublisher {
  import opened Base

  datatype Remote = Remote(address: Address, port: int)

  /** `group` is the multicast destination of a multicast endpoint. */
  datatype Config = Config(group: Option<Remote>, has8021Q: bool, requiresReservation: bool)

  datatype State = State(remotes: seq<Remote>, ipFilterCreated: bool, filters: seq<Remote>, talkers: seq<Remote>)

  const FRESH := State([], false, [], [])

  function AddTo(remotes: seq<Remote>, r: Remote): seq<Remote> {
    if r in remotes then remotes else remotes + [r]
  }

  function Install(c: Config, s: State, destination: Remote): State {
    if !c.has8021Q then s
    else s.(filters := s.filters + [destination],
            talkers := if c.requiresReservation then s.talkers + [destination] else s.talkers)
  }

  function WithFilter(c: Config, s: State, r: Remote): State {
    match c.group
    case None => Install(c, s, r)
    case Some(destination) =>
      if s.ipFilterCreated then s else Install(c, s, destination).(ipFilterCreated := true)
  }

  function WithRemote(c: Config, s: State, r: Remote): State {
    if r in s.remotes then s
    else WithFilter(c, s.(remotes := AddTo(s.remotes, r)), r)
  }

  function AddAll(c: Config, calls: seq<Remote>): State {
    if calls == [] then FRESH
    else WithRemote(c, AddAll(c, calls[..|calls| - 1]), calls[|calls| - 1])
  }

  // ------------------------------------------------------------------ the endpoint

  class UDPPublisherEndpoint {
    const config: Config
    var isConnected: bool
    var remotes: seq<Remote>
    var ipFilterCreated: bool
    var filters: seq<Remote>
    var talkers: seq<Remote>

    ghost function Abstract(): State
      reads this
    {
      State(remotes, ipFilterCreated, filters, talkers)
    }

    constructor (config: Config)
      ensures this.config == config && Abstract() == FRESH && !isConnected
    {
      this.config := config;
      isConnected, ipFilterCreated := false, false;
      remotes, filters, talkers := [], [], [];
    }

    method AddRemote(r: Remote)
      modifies this
      ensures Abstract() == WithRemote(config, old(Abstract()), r)
      ensures isConnected == old(isConnected)
    {
      for i := 0 to |remotes|
        invariant r !in remotes[..i]
      {
        if remotes[i] == r {
          return;
        }
      }
      remotes := remotes + [r];
      CheckAndCreateFilter(r);
    }

    method CheckAndCreateFilter(r: Remote)
      modifies this
      ensures Abstract() == WithFilter(config, old(Abstract()), r)
      ensures isConnected == old(isConnected)
    {
      var destination := r;
      if config.group.Some? {
        if ipFilterCreated {
          return;
        }
        destination := config.group.value;
        ipFilterCreated := true;
      }
      if config.has8021Q {
        filters := filters + [destination];
        if config.requiresReservation {
          talkers := talkers + [destination];
        }
      }
    }

    /** The destinations a copy of the message is sent to, in order. */
    method Publish() returns (sentTo: seq<Remote>)
      ensures !isConnected ==> sentTo == []
      ensures isConnected && config.group.None? ==> sentTo == remotes
      ensures isConnected && config.group.Some? ==> sentTo == [config.group.value]
    {
      sentTo := [];
      if isConnected {
        if config.group.Some? {
          sentTo := [config.group.value];
        } else {
          for i := 0 to |remotes|
            invariant sentTo == remotes[..i]
          {
            sentTo := sentTo + [remotes[i]];
          }
        }
      }
    }
  }

  // ------------------------------------------------------------------ whole runs

  /** The position of the first of the calls that named r. */
  function FirstCall(calls: seq<Remote>, r: Remote): (k: nat)
    requires r in calls
    ensures k < |calls| && calls[k] == r && r !in calls[..k]
  {
    if calls[0] == r then 0 else 1 + FirstCall(calls[1..], r)
  }

  lemma {:induction false} FirstCallOfPrefix(calls: seq<Remote>, r: Remote, r': Remote)
    requires r in calls
    ensures FirstCall(calls + [r'], r) == FirstCall(calls, r)
  {
    if calls[0] != r {
      assert (calls + [r'])[1..] == calls[1..] + [r'];
      FirstCallOfPrefix(calls[1..], r, r');
    }
  }

  ghost predicate NoDuplicates(s: seq<Remote>) {
    forall i, j :: 0 <= i < j < |s| ==> s[i] != s[j]
  }

  ghost predicate FirstSeenOrder(remotes: seq<Remote>, calls: seq<Remote>) {
    && (forall r :: r in remotes <==> r in calls)
    && forall i, j :: 0 <= i < j < |remotes| ==> FirstCall(calls, remotes[i]) < FirstCall(calls, remotes[j])
  }

  lemma FirstSeenOrderStep(remotes: seq<Remote>, calls: seq<Remote>, r: Remote)
    requires NoDuplicates(remotes) && FirstSeenOrder(remotes, calls)
    ensures NoDuplicates(AddTo(remotes, r)) && FirstSeenOrder(AddTo(remotes, r), calls + [r])
  {
    var t, more := AddTo(remotes, r), calls + [r];
    forall x | x in remotes
      ensures FirstCall(more, x) == FirstCall(calls, x) < |calls|
    {
      FirstCallOfPrefix(calls, x, r);
    }
    if r !in remotes {
      assert FirstCall(more, r) == |calls|;
    }
  }

  ghost predicate FiltersMatch(c: Config, s: State) {
    && s.talkers == (if c.requiresReservation then s.filters else [])
    && match c.group
       case None => s.filters == if c.has8021Q then s.remotes else []
       case Some(destination) =>
         && s.ipFilterCreated == (s.remotes != [])
         && s.filters == if c.has8021Q && s.remotes != [] then [destination] else []
  }

  ghost predicate Reflects(c: Config, s: State, calls: seq<Remote>) {
    NoDuplicates(s.remotes) && FirstSeenOrder(s.remotes, calls) && FiltersMatch(c, s)
  }

  lemma ReflectsOneMore(c: Config, s: State, calls: seq<Remote>, r: Remote)
    requires Reflects(c, s, calls)
    ensures Reflects(c, WithRemote(c, s, r), calls + [r])
  {
    FirstSeenOrderStep(s.remotes, calls, r);
    hide NoDuplicates;
    hide FirstSeenOrder;
  }

  /** After any calls of addRemote: the remotes are the calls without repetition, in the order in
      which each was first seen; a unicast endpoint has installed one filter per distinct remote
      and a multicast endpoint one in all; and talkers are registered for the same destinations. */
  lemma {:induction false} RemotesAreTheDistinctCalls(c: Config, calls: seq<Remote>)
    ensures Reflects(c, AddAll(c, calls), calls)
  {
    if calls != [] {
      hide Reflects;
      hide WithRemote;
      var before, r := calls[..|calls| - 1], calls[|calls| - 1];
      RemotesAreTheDistinctCalls(c, before);
      ReflectsOneMore(c, AddAll(c, before), before, r);
      assert calls == before + [r];
    }
  }
}
