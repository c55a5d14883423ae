/** The SOME/IP manager as the program runs it: one object whose handlers update its tables, its
    timers and the registry, proved to do what the state machine says. */
module SomeIpManager {
  import opened Base
  import opened SdHeader
  import opened SdCodec
  import opened UdpPublisher
  import opened Connectors
  import opened SomeIpNode
  import opened HostManager

  /** What the search for the connector of a group means for the request, at each place it may end. */
  lemma RequestOutcome(n: Node, ref: Ref, o: Notification, g: QoSGroup, i: nat)
    requires ref in n.states && n.states[ref].SubscriptionState? && Passed(SubsOf(n.registry, o.serviceId), g, i)
    ensures var conns, r := SubsOf(n.registry, o.serviceId), RequestFromConnector(n, ref, o, g);
            && (i == |conns| ==> r == Ok(n))
            && (i < |conns| && conns[i].apps == [] ==> r == Err(EmptyConnector))
            && (i < |conns| && conns[i].apps != [] && conns[i].apps[0].group == g ==>
                  r == Ok(RequestSubscription(n, ref, o, g, conns[i])))
  {
    hide Search;
    hide Subscription;
    SearchSkips(SubsOf(n.registry, o.serviceId), g, i);
  }

  class SomeIpManager {
    const address: Address
    const params: Params
    const manager: Manager
    var states: map<Ref, SdState>
    var timers: seq<Timer>
    var simTime: real
    var log: seq<LogEntry>

    ghost function Abstract(): Node
      reads this, manager, manager.lsr
    {
      Node(address, params, manager.Abstract(), states, timers, simTime, log)
    }

    ghost predicate Valid() {
      manager.supported == SOMEIP_GROUPS
    }

    constructor (address: Address, params: Params)
      ensures Valid() && Abstract() == NewNode(address, params)
      ensures fresh(manager) && fresh(manager.lsr)
    {
      this.address, this.params := address, params;
      manager := new Manager(SOMEIP_GROUPS);
      states, timers, simTime, log := map[], [], 0.0, [];
    }

    method ScheduleAt(kind: TimerKind, ref: Ref, delay: real)
      modifies this`timers
      ensures Abstract() == Schedule(old(Abstract()), kind, ref, delay)
    {
      timers := timers + [Timer(kind, ref, simTime + delay)];
    }

    method Emit(cause: Cause, kind: EntryType, notification: Notification)
      modifies this`log
      ensures Abstract() == Send(old(Abstract()), cause, kind, notification)
    {
      log := log + [LogEntry(simTime, cause, Some(Message(kind, notification)))];
    }

    // ---------------------------------------------------------------- phases

    method ExecuteSdForServiceState(ref: Ref)
      requires ref in states
      modifies this`log
      ensures Abstract() == ExecuteSd(old(Abstract()), ref)
    {
      match states[ref] {
        case SubscriptionState(_, _, _, _, _, _, _) =>
          Emit(ByTimer(ref), Find, BLANK.(serviceId := ref.service, instanceId := ref.instance));
        case OfferState(_, _, _, _, offering, _) =>
          Emit(ByTimer(ref), Offer, offering);
      }
    }

    method EnterMainPhase(ref: Ref)
      requires ref in states
      modifies this
      ensures Abstract() == StartMainPhase(old(Abstract()), ref)
    {
      states := states[ref := states[ref].(phase := MainPhase)];
      if states[ref].OfferState? {
        if params.cyclicOfferDelay > 0.0 {
          ScheduleAt(CyclicOffer, ref, params.cyclicOfferDelay);
        }
      }
    }

    method HandleNextRepetitionPhase(ref: Ref)
      requires ref in states
      modifies this
      ensures Abstract() == HandleNextRepetition(old(Abstract()), ref)
    {
      if IsSubscriptionAndServiceSeen(states[ref]) {
        return;
      }
      if states[ref].numRepetitions > 0 {
        ExecuteSdForServiceState(ref);
      }
      var st := states[ref];
      if params.repetitionsMax > st.numRepetitions {
        states := states[ref := st.(phase := Repetition, numRepetitions := st.numRepetitions + 1)];
        ScheduleAt(NextRepetition, ref, RepetitionDelay(params, st.numRepetitions));
      } else {
        EnterMainPhase(ref);
      }
    }

    method HandleInitialWaitPhaseOver(ref: Ref)
      requires ref in states
      modifies this
      ensures Abstract() == HandleWaitOver(old(Abstract()), ref)
    {
      if IsSubscriptionAndServiceSeen(states[ref]) {
        return;
      }
      ExecuteSdForServiceState(ref);
      HandleNextRepetitionPhase(ref);
    }

    method OnCyclicOffer(ref: Ref) returns (thrown: Option<Error>)
      requires ref in states
      modifies this
      ensures match HandleCyclicOffer(old(Abstract()), ref)
              case Err(e) => thrown == Some(e)
              case Ok(n) => thrown == None && Abstract() == n
    {
      if states[ref].OfferState? {
        ExecuteSdForServiceState(ref);
        ScheduleAt(CyclicOffer, ref, params.cyclicOfferDelay);
        return None;
      } else {
        return Some(NotAnOffer);
      }
    }

    method StartInitialWaitPhase(ref: Ref, st: SdState, delay: real)
      modifies this
      ensures Abstract() == StartInitialWait(old(Abstract()), ref, st, delay)
    {
      states := states[ref := st.(phase := InitialWait, initialDelay := delay, waitOver := simTime + delay)];
      if delay == 0.0 {
        HandleInitialWaitPhaseOver(ref);
      } else {
        ScheduleAt(WaitOver, ref, delay);
      }
    }

    /** handleMessage for a self message. */
    method OnTimer(k: nat) returns (thrown: Option<Error>)
      requires k < |timers| && timers[k].ref in states
      modifies this
      ensures match FireTimer(old(Abstract()), k)
              case Err(e) => thrown == Some(e)
              case Ok(n) => thrown == None && Abstract() == n
    {
      var t := timers[k];
      timers := timers[..k] + timers[k + 1..];
      thrown := None;
      match t.kind {
        case WaitOver => HandleInitialWaitPhaseOver(t.ref);
        case NextRepetition => HandleNextRepetitionPhase(t.ref);
        case CyclicOffer => thrown := OnCyclicOffer(t.ref);
      }
    }

    // ---------------------------------------------------------------- registration

    method RegisterPublisher(p: Publisher, delay: real) returns (thrown: Option<Error>)
      requires Valid()
      modifies this, manager, manager.lsr
      ensures match RegisterPublisherService(old(Abstract()), p, delay)
              case Err(e) => thrown == Some(e)
              case Ok(n) => thrown == None && Abstract() == n
    {
      thrown := manager.RegisterPublisherService(p);
      if thrown != None {
        return;
      }
      if p.isStatic {
        if SomeIpUdpMcast !in p.groups {
          return Some(StaticNeedsMulticast);
        }
        thrown := manager.FindOrCreatePublisherEndpoint(p.serviceId, SomeIpUdpMcast);
        if thrown != None {
          return;
        }
        if !(p.mcastPort > 0 && IsMulticast(p.mcastAddr)) {
          return Some(MissingMulticastInfo);
        }
        manager.AddRemote(p.serviceId, SomeIpUdpMcast, Remote(p.mcastAddr, p.mcastPort));
      } else {
        var ref := OfferRef(p.serviceId, p.instanceId);
        if ref in states {
          return Some(DuplicateOffer);
        }
        StartInitialWaitPhase(ref, NewOffer(p), delay);
      }
    }

    method OnDiscoverService(s: int, instance: int, app: Subscriber, delay: real) returns (thrown: Option<Error>)
      requires Valid()
      modifies this, manager, manager.lsr
      ensures match DiscoverService(old(Abstract()), s, instance, app, delay)
              case Err(e) => thrown == Some(e)
              case Ok(n) => thrown == None && Abstract() == n
    {
      thrown := None;
      if app.isStatic {
        if app.group != SomeIpUdpMcast {
          return Some(StaticNeedsMulticast);
        }
        if !(app.mcastPort > 0 && IsMulticast(app.mcastAddr)) {
          return Some(MissingMulticastInfo);
        }
        thrown := manager.FindOrCreateSubscriberEndpoint(s, SomeIpUdpMcast);
        return;
      }
      if SubRef(s, app.group, instance) in states {
        return Some(DuplicateSubscription);
      } else if SubRef(s, app.group, ANY_INSTANCE) in states {
        return Some(DuplicateSubscription);
      }
      StartInitialWaitPhase(SubRef(s, app.group, instance), NEW_SUBSCRIPTION, delay);
    }

    method RegisterSubscriber(s: int, instance: int, app: Subscriber, delay: real) returns (thrown: Option<Error>)
      requires Valid()
      modifies this, manager, manager.lsr
      ensures match RegisterSubscriberService(old(Abstract()), s, instance, app, delay)
              case Err(e) => thrown == Some(e)
              case Ok(n) => thrown == None && Abstract() == n
    {
      var created;
      created, thrown := manager.RegisterSubscriberService(s, app);
      if thrown == None && created {
        thrown := OnDiscoverService(s, instance, app, delay);
      }
    }

    // ---------------------------------------------------------------- messages

    method Answer(ref: Ref, to: Address)
      modifies this`log
      ensures Abstract() == AnswerFind(old(Abstract()), ref, to)
    {
      if ref in states && states[ref].OfferState? && !states[ref].phase.InitialWait? {
        Emit(Reply, Offer, states[ref].offering.(address := to));
      }
    }

    method OnFind(q: Notification)
      modifies this`log
      ensures Abstract() == LookForService(old(Abstract()), q)
    {
      if OfferRef(q.serviceId, q.instanceId) in states {
        Answer(OfferRef(q.serviceId, q.instanceId), q.address);
      } else if q.instanceId == ANY_INSTANCE {
        // all local instances of the service, in the order of the instance map
        ghost var target := AnswerFindAll(Abstract(), q.serviceId, 0, q.address);
        for instance := 0 to 0x1_0000
          invariant target == AnswerFindAll(Abstract(), q.serviceId, instance, q.address)
        {
          Answer(OfferRef(q.serviceId, instance), q.address);
        }
      }
    }

    /** Subscribes from the first connector of the group; there can be only one. */
    method RequestFrom(ref: Ref, o: Notification, g: QoSGroup) returns (thrown: Option<Error>)
      requires ref in states && states[ref].SubscriptionState?
      modifies this
      ensures match RequestFromConnector(old(Abstract()), ref, o, g)
              case Err(e) => thrown == Some(e)
              case Ok(n) => thrown == None && Abstract() == n
    {
      hide RequestFromConnector;
      hide Subscription;
      var conns := manager.lsr.GetSubscriberConnectors(o.serviceId);
      for i := 0 to |conns|
        invariant Passed(conns, g, i) && Abstract() == old(Abstract())
      {
        RequestOutcome(Abstract(), ref, o, g, i);
        if |conns[i].apps| == 0 {
          return Some(EmptyConnector);
        }
        if conns[i].apps[0].group == g {
          states := states[ref := states[ref].(phase := MainPhase, seen := true, requested := true)];
          Emit(RequestFor(ref), Subscribe, Subscription(o, g, conns[i]));
          return None;
        }
      }
      RequestOutcome(Abstract(), ref, o, g, |conns|);
      return None;
    }

    /** What one offered group means to this host. */
    method SubscribeGroupIfPending(o: Notification, g: QoSGroup) returns (thrown: Option<Error>)
      modifies this
      ensures match OfferForGroup(old(Abstract()), o, g)
              case Err(e) => thrown == Some(e)
              case Ok(n) => thrown == None && Abstract() == n
    {
      hide RequestFromConnector;
      thrown := None;
      var pending: Option<Ref> := None;
      if SubRef(o.serviceId, g, o.instanceId) in states {
        pending := Some(SubRef(o.serviceId, g, o.instanceId));
      } else if SubRef(o.serviceId, g, ANY_INSTANCE) in states {
        pending := Some(SubRef(o.serviceId, g, ANY_INSTANCE));
      }
      if pending.Some? && states[pending.value].SubscriptionState? && !states[pending.value].requested {
        thrown := RequestFrom(pending.value, o, g);
      }
    }

    method SubscribeServiceIfThereIsAPendingRequest(o: Notification) returns (thrown: Option<Error>)
      modifies this
      ensures match SubscribeIfPending(old(Abstract()), o)
              case Err(e) => thrown == Some(e)
              case Ok(n) => thrown == None && Abstract() == n
    {
      var groups := InEnumOrder(o.qosGroups);
      ghost var target := SubscribeIfPending(Abstract(), o);
      assert groups[0..] == groups;
      for i := 0 to |groups|
        invariant target == OfferForGroups(Abstract(), o, groups[i..])
      {
        assert groups[i..][0] == groups[i] && groups[i..][1..] == groups[i + 1..];
        thrown := SubscribeGroupIfPending(o, groups[i]);
        if thrown != None {
          return;
        }
      }
      thrown := None;
    }

    method OnSubscribe(q: Notification) returns (thrown: Option<Error>)
      requires Valid()
      modifies this, manager, manager.lsr
      ensures match AcknowledgeSubscription(old(Abstract()), q)
              case Err(e) => thrown == Some(e)
              case Ok(n) => thrown == None && Abstract() == n
    {
      hide CreateOrFindPublisherEndpoint;
      hide AddPublisherRemote;
      hide Acknowledgement;
      thrown := None;
      if q.serviceId in manager.lsr.publisherConnectors {
        var p := manager.lsr.publisherConnectors[q.serviceId].app;
        if q.qosGroup in p.groups {
          match q.qosGroup {
            case SomeIpTcp =>
              thrown := manager.FindOrCreatePublisherEndpoint(q.serviceId, SomeIpTcp);
              if thrown != None {
                return;
              }
            case SomeIpUdp =>
              thrown := manager.FindOrCreatePublisherEndpoint(q.serviceId, SomeIpUdp);
              if thrown != None {
                return;
              }
              manager.AddRemote(q.serviceId, SomeIpUdp, Remote(q.address, q.udpPort));
            case SomeIpUdpMcast =>
              thrown := manager.FindOrCreatePublisherEndpoint(q.serviceId, SomeIpUdpMcast);
              if thrown != None {
                return;
              }
              manager.AddRemote(q.serviceId, SomeIpUdpMcast, Remote(q.address, q.udpPort));
            case _ =>
              return Some(UnknownGroup);
          }
          var ref := OfferRef(p.serviceId, p.instanceId);
          if ref in states && states[ref].OfferState? {
            states := states[ref := states[ref].(hasSubscription := true)];
          }
          Emit(Reply, SubscribeAck, Acknowledgement(q, p));
        }
      }
    }

    method AcceptFrom(ref: Ref) returns (thrown: Option<Error>)
      requires Valid() && ref.SubRef?
      modifies this, manager, manager.lsr
      ensures match AcceptAck(old(Abstract()), ref)
              case Err(e) => thrown == Some(e)
              case Ok(n) => thrown == None && Abstract() == n
    {
      thrown := None;
      if ref in states && states[ref].SubscriptionState? && states[ref].requested {
        if !states[ref].active {
          if ref.group !in SOMEIP_GROUPS {
            return Some(UnknownGroup);
          }
          thrown := manager.FindOrCreateSubscriberEndpoint(ref.service, ref.group);
          if thrown != None {
            return;
          }
        }
        states := states[ref := states[ref].(active := true, requested := false)];
        log := log + [LogEntry(simTime, AcceptFor(ref), None)];
      }
    }

    method ProcessAcknowledgedSubscription(a: Notification) returns (thrown: Option<Error>)
      requires Valid()
      modifies this, manager, manager.lsr
      ensures match ProcessAcknowledged(old(Abstract()), a)
              case Err(e) => thrown == Some(e)
              case Ok(n) => thrown == None && Abstract() == n
    {
      var groups := InEnumOrder(a.qosGroups);
      ghost var target := ProcessAcknowledged(Abstract(), a);
      assert groups[0..] == groups;
      for i := 0 to |groups|
        invariant target == AckForGroups(Abstract(), a, groups[i..])
      {
        hide AcceptAck;
        assert groups[i..][0] == groups[i] && groups[i..][1..] == groups[i + 1..];
        thrown := AcceptFrom(SubRef(a.serviceId, groups[i], a.instanceId));
        if thrown != None {
          return;
        }
        thrown := AcceptFrom(SubRef(a.serviceId, groups[i], ANY_INSTANCE));
        if thrown != None {
          return;
        }
      }
      thrown := None;
    }
  }
}
