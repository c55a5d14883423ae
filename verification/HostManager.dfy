/** The registry and the base manager as the program runs them: tables changed in place and search
    loops that stop at the first hit. */
module HostManager {
  import opened Base
  import opened UdpPublisher
  import opened Connectors

  // ------------------------------------------------------------------ counting over some services

  function PlacesOf(subs: map<int, seq<SubConnector>>, services: set<int>): set<(int, int)> {
    set s, i | s in services && s in subs && 0 <= i < |subs[s]| :: (s, i)
  }

  lemma {:induction false} RowSize(s: int, n: nat)
    ensures |set i | 0 <= i < n :: (s, i)| == n
  {
    var row := set i | 0 <= i < n :: (s, i);
    if n == 0 {
      assert row == {};
    } else {
      RowSize(s, n - 1);
      assert row == (set i | 0 <= i < n - 1 :: (s, i)) + {(s, n - 1)};
    }
  }

  lemma OneMoreService(subs: map<int, seq<SubConnector>>, services: set<int>, s: int)
    requires s in subs && s !in services
    ensures |PlacesOf(subs, services + {s})| == |PlacesOf(subs, services)| + |subs[s]|
  {
    var row := set i | 0 <= i < |subs[s]| :: (s, i);
    RowSize(s, |subs[s]|);
    assert PlacesOf(subs, services + {s}) == PlacesOf(subs, services) + row;
    assert PlacesOf(subs, services) !! row;
  }

  lemma NoMember(services: set<int>)
    requires forall s :: s !in services
    ensures services == {}
  {
    assert forall s :: s in services ==> s in {};
  }

  lemma SomeMember(services: set<int>)
    requires services != {}
    ensures exists s :: s in services
  {
    if forall s :: s !in services {
      NoMember(services);
      assert false;
    }
  }

  lemma AllServices(subs: map<int, seq<SubConnector>>)
    ensures |PlacesOf(subs, subs.Keys)| == CountSubs(subs)
  {
    assert PlacesOf(subs, subs.Keys) == Places(subs);
  }

  // ------------------------------------------------------------------ the registry

  class ServiceRegistry {
    var publisherConnectors: map<int, PubConnector>
    var subscriberConnectors: map<int, seq<SubConnector>>

    constructor ()
      ensures publisherConnectors == map[] && subscriberConnectors == map[]
    {
      publisherConnectors, subscriberConnectors := map[], map[];
    }

    method AddSubscriberServiceConnector(s: int, c: SubConnector)
      modifies this`subscriberConnectors
      ensures subscriberConnectors
           == old(subscriberConnectors)[
                s := (if s in old(subscriberConnectors) then old(subscriberConnectors)[s] else []) + [c]]
    {
      if s !in subscriberConnectors {
        subscriberConnectors := subscriberConnectors[s := []];
      }
      subscriberConnectors := subscriberConnectors[s := subscriberConnectors[s] + [c]];
    }

    method GetSubscriberConnectors(s: int) returns (conns: seq<SubConnector>)
      ensures conns == if s in subscriberConnectors then subscriberConnectors[s] else []
    {
      conns := [];
      if s in subscriberConnectors {
        conns := subscriberConnectors[s];
      }
    }

    /** Sums the lengths of all lists; whichever order they are visited in, every connector counts
        once. */
    method GetSubscriberConnectorsCount() returns (count: nat)
      ensures count == CountSubs(subscriberConnectors)
    {
      count := 0;
      var rest: set<int> := subscriberConnectors.Keys;
      ghost var done: set<int> := {};
      assert PlacesOf(subscriberConnectors, {}) == {};
      while rest != {}
        invariant done !! rest && done + rest == subscriberConnectors.Keys
        invariant count == |PlacesOf(subscriberConnectors, done)|
        decreases rest
      {
        SomeMember(rest);
        var s :| s in rest;
        OneMoreService(subscriberConnectors, done, s);
        count := count + |subscriberConnectors[s]|;
        rest, done := rest - {s}, done + {s};
      }
      assert done == subscriberConnectors.Keys;
      AllServices(subscriberConnectors);
    }
  }

  // ------------------------------------------------------------------ searching

  ghost predicate Passed(conns: seq<SubConnector>, g: QoSGroup, i: nat) {
    i <= |conns| && forall j :: 0 <= j < i ==> conns[j].apps != [] && conns[j].apps[0].group != g
  }

  lemma PassedRest(conns: seq<SubConnector>, g: QoSGroup, i: nat)
    requires Passed(conns, g, i) && 0 < i
    ensures conns != [] && conns[0].apps != [] && conns[0].apps[0].group != g
    ensures Passed(conns[1..], g, i - 1)
  {
    forall j | 0 <= j < i - 1
      ensures conns[1..][j] == conns[j + 1]
    {
    }
  }

  /** Connectors that do not match are passed over. */
  lemma {:induction false} SearchSkips(conns: seq<SubConnector>, g: QoSGroup, i: nat)
    requires Passed(conns, g, i)
    ensures i == |conns| ==> Search(conns, g) == Ok(None)
    ensures i < |conns| && conns[i].apps == [] ==> Search(conns, g) == Err(EmptyConnector)
    ensures i < |conns| && conns[i].apps != [] && conns[i].apps[0].group == g ==> Search(conns, g) == Ok(Some(i))
    decreases i
  {
    hide Passed;
    if 0 < i {
      PassedRest(conns, g, i);
      assert i < |conns| ==> conns[1..][i - 1] == conns[i];
      SearchSkips(conns[1..], g, i - 1);
    }
  }

  lemma {:induction false} SearchPubSkips(endpoints: seq<PubEndpoint>, g: QoSGroup, i: nat)
    requires i <= |endpoints| && forall j :: 0 <= j < i ==> endpoints[j].qos != g
    ensures i == |endpoints| ==> SearchPubEndpoint(endpoints, g) == None
    ensures i < |endpoints| && endpoints[i].qos == g ==> SearchPubEndpoint(endpoints, g) == Some(i)
    decreases i
  {
    if 0 < i {
      assert forall j :: 0 <= j < |endpoints[1..]| ==> endpoints[1..][j] == endpoints[j + 1];
      SearchPubSkips(endpoints[1..], g, i - 1);
    }
  }

  // ------------------------------------------------------------------ the manager

  class Manager {
    const lsr: ServiceRegistry
    const supported: set<QoSGroup>
    var publisherEndpointCount: nat
    var subscriberEndpointCount: nat

    ghost function Abstract(): Registry
      reads this, lsr
    {
      Registry(lsr.publisherConnectors, lsr.subscriberConnectors, publisherEndpointCount, subscriberEndpointCount)
    }

    constructor (supported: set<QoSGroup>)
      ensures this.supported == supported && Abstract() == NOTHING && fresh(lsr)
    {
      this.supported := supported;
      lsr := new ServiceRegistry();
      publisherEndpointCount, subscriberEndpointCount := 0, 0;
    }

    method FindSubscriberConnector(s: int, g: QoSGroup) returns (found: Result<Option<nat>>)
      ensures found == Search(SubsOf(Abstract(), s), g)
    {
      var conns := lsr.GetSubscriberConnectors(s);
      for i := 0 to |conns|
        invariant Passed(conns, g, i)
      {
        SearchSkips(conns, g, i);
        if |conns[i].apps| == 0 {
          return Err(EmptyConnector);
        }
        if conns[i].apps[0].group == g {
          return Ok(Some(i));
        }
      }
      SearchSkips(conns, g, |conns|);
      return Ok(None);
    }

    method FindSubscriberEndpoint(s: int, g: QoSGroup) returns (found: Result<bool>)
      ensures found == SearchEndpoint(SubsOf(Abstract(), s), g)
    {
      var conns := lsr.GetSubscriberConnectors(s);
      found := Ok(false);
      assert conns[0..] == conns;
      for i := 0 to |conns|
        invariant SearchEndpoint(conns, g) == SearchEndpoint(conns[i..], g)
      {
        assert conns[i..][0] == conns[i] && conns[i..][1..] == conns[i + 1..];
        if |conns[i].apps| == 0 {
          return Err(EmptyConnector);
        }
        if conns[i].apps[0].group == g && conns[i].endpoint.Some? {
          return Ok(true);
        }
      }
    }

    method FindPublisherEndpoint(s: int, g: QoSGroup) returns (found: Option<nat>)
      ensures found == if s in lsr.publisherConnectors
                       then SearchPubEndpoint(lsr.publisherConnectors[s].endpoints, g) else None
    {
      found := None;
      if s in lsr.publisherConnectors {
        var endpoints := lsr.publisherConnectors[s].endpoints;
        for i := 0 to |endpoints|
          invariant forall j :: 0 <= j < i ==> endpoints[j].qos != g
        {
          SearchPubSkips(endpoints, g, i);
          if endpoints[i].qos == g {
            return Some(i);
          }
        }
        SearchPubSkips(endpoints, g, |endpoints|);
      }
    }

    method RegisterPublisherService(p: Publisher) returns (thrown: Option<Error>)
      modifies lsr
      ensures match RegisterPublisher(old(Abstract()), p)
              case Err(e) => thrown == Some(e)
              case Ok(r) => thrown == None && Abstract() == r
    {
      if p.serviceId in lsr.publisherConnectors {
        return Some(DuplicatePublisher);
      }
      lsr.publisherConnectors := lsr.publisherConnectors[p.serviceId := PubConnector(|lsr.publisherConnectors|, p, [])];
      return None;
    }

    /** The part of registering a subscriber that does not depend on the kind of manager. */
    method RegisterSubscriberService(s: int, app: Subscriber) returns (created: bool, thrown: Option<Error>)
      modifies lsr
      ensures match RegisterSubscriber(old(Abstract()), s, app)
              case Err(e) => thrown == Some(e)
              case Ok(reg) => thrown == None && Abstract() == reg.registry && created == reg.created
    {
      created, thrown := false, None;
      var found := FindSubscriberConnector(s, app.group);
      if found.Err? {
        return false, Some(found.error);
      }
      match found.value {
        case None =>
          var index := lsr.GetSubscriberConnectorsCount();
          lsr.AddSubscriberServiceConnector(s, NewSubConnector(index, app));
          created := true;
        case Some(k) =>
          var conns := lsr.GetSubscriberConnectors(s);
          if app in conns[k].apps {
            return false, Some(DuplicateSubscriber);
          }
          lsr.subscriberConnectors :=
            lsr.subscriberConnectors[s := conns[k := conns[k].(apps := conns[k].apps + [app])]];
      }
    }

    method FindOrCreatePublisherEndpoint(s: int, g: QoSGroup) returns (thrown: Option<Error>)
      modifies this, lsr
      ensures match CreateOrFindPublisherEndpoint(old(Abstract()), s, g, supported)
              case Err(e) => thrown == Some(e)
              case Ok(r) => thrown == None && Abstract() == r
    {
      thrown := None;
      var found := FindPublisherEndpoint(s, g);
      if found.None? {
        if s !in lsr.publisherConnectors {
          return Some(NoConnector);
        }
        if g !in supported {
          return Some(UnknownGroup);
        }
        var c := lsr.publisherConnectors[s];
        lsr.publisherConnectors :=
          lsr.publisherConnectors[s := c.(endpoints := c.endpoints + [PubEndpoint(g, publisherEndpointCount, [])])];
        publisherEndpointCount := publisherEndpointCount + 1;
      }
    }

    method FindOrCreateSubscriberEndpoint(s: int, g: QoSGroup) returns (thrown: Option<Error>)
      modifies this, lsr
      ensures match CreateOrFindSubscriberEndpoint(old(Abstract()), s, g, supported)
              case Err(e) => thrown == Some(e)
              case Ok(r) => thrown == None && Abstract() == r
    {
      thrown := None;
      var have := FindSubscriberEndpoint(s, g);
      if have.Err? {
        return Some(have.error);
      }
      if !have.value {
        var found := FindSubscriberConnector(s, g);
        if found.Err? {
          return Some(found.error);
        }
        if found.value.None? {
          return Some(NoConnector);
        }
        if g !in supported {
          return Some(UnknownConnectionType);
        }
        var conns := lsr.GetSubscriberConnectors(s);
        var k := found.value.value;
        lsr.subscriberConnectors :=
          lsr.subscriberConnectors[
            s := conns[k := conns[k].(endpoint := Some(SubEndpoint(g, subscriberEndpointCount)))]];
        subscriberEndpointCount := subscriberEndpointCount + 1;
      }
    }

    method AddRemote(s: int, g: QoSGroup, remote: Remote)
      modifies lsr
      ensures Abstract() == AddPublisherRemote(old(Abstract()), s, g, remote)
    {
      var k := FindPublisherEndpoint(s, g);
      if k.Some? {
        var c := lsr.publisherConnectors[s];
        var e := c.endpoints[k.value];
        lsr.publisherConnectors :=
          lsr.publisherConnectors[
            s := c.(endpoints := c.endpoints[k.value := e.(remotes := AddTo(e.remotes, remote))])];
      }
    }
  }
}
