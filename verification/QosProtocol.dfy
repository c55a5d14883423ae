/** The negotiation as the program runs it: broker objects whose handlers change them, and the
    protocol module that walks its list of brokers, erases finished ones and appends new ones. */
module QosProtocol {
  import opened Base
  import opened UdpPublisher
  import opened Connectors
  import opened QosBroker

  /** What brokers share on a host: the manager and the socket. */
  class NegotiationSite {
    var registry: Registry
    var statuses: map<nat, RequestStatus>
    var sent: seq<Msg>
    var successes: seq<Success>

    ghost function Abstract(): Site
      reads this
    {
      Site(registry, statuses, sent, successes)
    }

    constructor ()
      ensures Abstract() == Site(NOTHING, map[], [], [])
    {
      registry, statuses, sent, successes := NOTHING, map[], [], [];
    }
  }

  class QoSBroker {
    const site: NegotiationSite
    const local: EndpointDescription
    const remote: EndpointDescription
    const request: Option<NegotiationRequest>
    var state: BrokerState
    var negotiationFinished: bool

    ghost function Abstract(): Broker
      reads this
    {
      Broker(local, remote, state, request, negotiationFinished)
    }

    constructor (site: NegotiationSite, local: EndpointDescription, remote: EndpointDescription,
                 request: Option<NegotiationRequest>)
      ensures this.site == site && Abstract() == NewBroker(local, remote, request)
    {
      this.site, this.local, this.remote, this.request := site, local, remote, request;
      state := if request.Some? then ClientStartup else ServerNoSession;
      negotiationFinished := false;
    }

    method SetStatus(status: RequestStatus)
      modifies site
      ensures site.Abstract() == WithStatus(old(site.Abstract()), Abstract(), status)
    {
      if request.Some? {
        site.statuses := site.statuses[request.value.id := status];
      }
    }

    method SendMessage(payload: Payload, g: QoSGroup)
      modifies site
      ensures site.Abstract() == Emit(old(site.Abstract()), Reply(Abstract(), payload, g))
    {
      site.sent := site.sent + [Msg(payload, g, local, remote)];
    }

    method Begin() returns (handled: bool)
      requires request.Some?
      modifies this, site
      ensures Outcome(Abstract(), site.Abstract(), handled)
           == StartNegotiation(old(Abstract()), old(site.Abstract()))
    {
      if state.ClientStartup? {
        SendMessage(Request, request.value.group);
        state := ClientPendingRequest;
        SetStatus(RequestSend);
        handled := true;
      } else {
        SetStatus(Invalid);
        negotiationFinished := true;
        handled := false;
      }
    }

    method OnRequest(m: Msg) returns (handled: bool)
      modifies this, site
      ensures Outcome(Abstract(), site.Abstract(), handled)
           == HandleRequest(old(Abstract()), old(site.Abstract()), m)
    {
      handled := false;
      if state.ServerNoSession? {
        SendMessage(Response(true), m.qosClass);
        state := ServerPendingAccept;
        handled := true;
      }
    }

    method OnResponse(m: Msg) returns (handled: bool, thrown: Option<Error>)
      requires m.payload.Response?
      modifies this, site
      ensures match HandleResponse(old(Abstract()), old(site.Abstract()), m)
              case Err(e) => thrown == Some(e)
              case Ok(o) => thrown == None && Outcome(Abstract(), site.Abstract(), handled) == o
    {
      handled, thrown := false, None;
      if state.ClientPendingRequest? {
        if m.payload.success {
          var info: Option<Csi> := None;
          match m.qosClass {
            case IpUdp =>
              var created := CreateOrFindSubscriberEndpoint(site.registry, remote.serviceId, IpUdp, QOS_GROUPS);
              if created.Err? {
                return false, Some(created.error);
              }
              site.registry := created.value;
              info := SubscriberCsi(site.registry, remote.serviceId);
            case SomeIpUdp =>
              return false, Some(UnknownConnectionType);
            case _ =>
          }
          SendMessage(Establish(info), m.qosClass);
          SetStatus(EstablishSend);
          state := ClientPendingConnection;
        } else {
          SetStatus(AcknowledgedFailure);
          negotiationFinished := true;
        }
        handled := true;
      }
    }

    method OnEstablish(m: Msg) returns (handled: bool, thrown: Option<Error>)
      requires m.payload.Establish?
      modifies this, site
      ensures match HandleEstablish(old(Abstract()), old(site.Abstract()), m)
              case Err(e) => thrown == Some(e)
              case Ok(o) => thrown == None && Outcome(Abstract(), site.Abstract(), handled) == o
    {
      handled, thrown := false, None;
      if state.ServerPendingAccept? {
        ghost var before := site.Abstract();
        var created := CreateOrFindPublisherEndpoint(site.registry, local.serviceId, m.qosClass, QOS_GROUPS);
        if created.Err? {
          return false, Some(created.error);
        }
        if m.qosClass !in QOS_GROUPS {
          return false, Some(UnknownGroup);
        }
        site.registry := created.value;
        if m.payload.subscriberCsi.Some? {
          var csi := m.payload.subscriberCsi.value;
          if m.qosClass.IpUdp? && IsUdp(csi.connectionType) {
            site.registry := AddPublisherRemote(site.registry, local.serviceId, IpUdp, Remote(csi.address, csi.port));
          }
        }
        assert Accept(before, local, m) == Ok(site.registry);
        hide Accept;
        state := ServerSessionEstablished;
        negotiationFinished := true;
        SendMessage(Finalise(true, Some(PublisherCsi(site.registry, local, m.qosClass))), m.qosClass);
        handled := true;
      }
    }

    method OnFinalise(m: Msg) returns (handled: bool, thrown: Option<Error>)
      requires m.payload.Finalise?
      modifies this, site
      ensures match HandleFinalise(old(Abstract()), old(site.Abstract()), m)
              case Err(e) => thrown == Some(e)
              case Ok(o) => thrown == None && Outcome(Abstract(), site.Abstract(), handled) == o
    {
      handled, thrown := false, None;
      if state.ClientPendingConnection? {
        if m.payload.success {
          if m.payload.publisherCsi.Some? {
            var info := m.payload.publisherCsi.value;
            if !info.connectionType.CtUdp? && !info.connectionType.CtSomeIpUdp? {
              var g := QoSGroupFor(info.connectionType);
              if g.Err? {
                return false, Some(g.error);
              }
              var created := CreateOrFindSubscriberEndpoint(site.registry, remote.serviceId, g.value, QOS_GROUPS);
              if created.Err? {
                return false, Some(created.error);
              }
              site.registry := created.value;
            }
          }
          state := ClientSuccess;
          SetStatus(FinalisedSuccess);
          if request.Some? {
            site.successes := site.successes + [Success(request.value, m)];
          }
        } else {
          state := ClientFailure;
          SetStatus(FinalisedFailure);
        }
        negotiationFinished := true;
        handled := true;
      }
    }

    method Handle(m: Msg) returns (handled: bool, thrown: Option<Error>)
      modifies this, site
      ensures match HandleMessage(old(Abstract()), old(site.Abstract()), m)
              case Err(e) => thrown == Some(e)
              case Ok(o) => thrown == None && Outcome(Abstract(), site.Abstract(), handled) == o
    {
      handled, thrown := false, None;
      if m.receiver == local && m.sender == remote {
        match m.payload {
          case Request => handled := OnRequest(m);
          case Response(_) => handled, thrown := OnResponse(m);
          case Establish(_) => handled, thrown := OnEstablish(m);
          case Finalise(_, _) => handled, thrown := OnFinalise(m);
        }
      }
    }
  }

  // ------------------------------------------------------------------ the protocol module

  ghost function Values(brokers: seq<QoSBroker>): seq<Broker>
    reads brokers
  {
    seq(|brokers|, i requires 0 <= i < |brokers| reads brokers => brokers[i].Abstract())
  }

  class QoSNegotiationProtocol {
    const site: NegotiationSite
    var brokers: seq<QoSBroker>

    ghost predicate Valid()
      reads this, brokers
    {
      && (forall b :: b in brokers ==> b.site == site)
      && (forall i, j :: 0 <= i < j < |brokers| ==> brokers[i] != brokers[j])
    }

    ghost function Abstract(): Desk
      reads this, brokers, site
    {
      Desk(Values(brokers), site.Abstract())
    }

    constructor (site: NegotiationSite)
      ensures this.site == site && Valid() && Values(brokers) == []
    {
      this.site := site;
      brokers := [];
    }

    /** A create-broker self message has been processed. */
    method OnCreateBroker(r: NegotiationRequest)
      requires Valid()
      modifies this, site
      ensures Valid() && Abstract() == CreateBroker(old(Abstract()), r)
    {
      var broker := new QoSBroker(site, r.subscriber, r.publisher, Some(r));
      var handled := broker.Begin();
      if handled {
        brokers := brokers + [broker];
      }
    }

    method OpenSession(m: Msg) returns (thrown: Option<Error>)
      requires Valid()
      modifies this, site
      ensures match OfferToNewBroker(old(Abstract()), m)
              case Err(e) => thrown == Some(e)
              case Ok(d) => thrown == None && Valid() && Abstract() == d
    {
      var broker := new QoSBroker(site, m.receiver, m.sender, None);
      var handled;
      handled, thrown := broker.Handle(m);
      if thrown == None && handled {
        brokers := brokers + [broker];
      }
    }

    /** The responsible broker handles the message and is erased when it has finished. */
    method Serve(k: nat, m: Msg) returns (handled: bool, thrown: Option<Error>)
      requires Valid() && k < |brokers|
      modifies this, brokers, site
      ensures match HandleMessage(old(Values(brokers)[k]), old(site.Abstract()), m)
              case Err(e) => thrown == Some(e)
              case Ok(o) =>
                && thrown == None && Valid() && handled == o.handled
                && Abstract() == Desk(Settle(old(Values(brokers)), k, o.broker), o.site)
    {
      ghost var before := Values(brokers);
      handled, thrown := brokers[k].Handle(m);
      if thrown == None {
        assert Values(brokers) == before[k := brokers[k].Abstract()];
        if brokers[k].negotiationFinished {
          ghost var values := Values(brokers);
          brokers := brokers[..k] + brokers[k + 1..];
          assert Values(brokers) == values[..k] + values[k + 1..];
        }
      }
    }

    /** A negotiation message has been processed: the first responsible broker handles it; a message
        nobody handled may open a session. */
    method OnMessage(m: Msg) returns (thrown: Option<Error>)
      requires Valid()
      modifies this, brokers, site
      ensures match Dispatch(old(Abstract()), m)
              case Err(e) => thrown == Some(e)
              case Ok(d) => thrown == None && Valid() && Abstract() == d
    {
      thrown := None;
      var handled := false;
      var k := 0;
      ghost var found := Responsible(Values(brokers), m.receiver, m.sender);
      while k < |brokers|
        invariant k <= |brokers| && !handled && thrown == None
        invariant forall i :: 0 <= i < k ==> !IsResponsibleFor(Values(brokers)[i], m.receiver, m.sender)
        invariant Valid() && Abstract() == old(Abstract()) && brokers == old(brokers)
      {
        if m.receiver == brokers[k].local && m.sender == brokers[k].remote {
          assert Values(brokers)[k] in Values(brokers);
          assert found == Some(k);
          handled, thrown := Serve(k, m);
          break;
        }
        k := k + 1;
      }
      if thrown == None && !handled {
        thrown := OpenSession(m);
      }
    }
  }
}
