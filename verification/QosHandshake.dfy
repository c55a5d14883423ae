/** The four steps of one negotiation, seen from the host that takes them: what each message finds
    at its receiver, and what it leaves there. */
module QosHandshake {
  import opened Base
  import opened Connectors
  import opened ConnectorGrowth
  import opened QosBroker
  import opened QosSafety
  import opened QosAgreement

  // ------------------------------------------------------------------ looking up a broker

  function Find(brokers: seq<Broker>, local: EndpointDescription, remote: EndpointDescription): Option<Broker> {
    var found := Responsible(brokers, local, remote);
    if found.Some? then Some(brokers[found.value]) else None
  }

  ghost predicate Unique(brokers: seq<Broker>) {
    forall i, j :: 0 <= i < j < |brokers| ==>
      brokers[i].local != brokers[j].local || brokers[i].remote != brokers[j].remote
  }

  lemma FindIs(brokers: seq<Broker>, i: nat)
    requires Unique(brokers) && i < |brokers|
    ensures Find(brokers, brokers[i].local, brokers[i].remote) == Some(brokers[i])
  {
    var found := Responsible(brokers, brokers[i].local, brokers[i].remote);
    assert brokers[i] in brokers;
  }

  lemma FindNone(brokers: seq<Broker>, local: EndpointDescription, remote: EndpointDescription)
    ensures Find(brokers, local, remote).None? <==> forall b :: b in brokers ==> b.local != local || b.remote != remote
  {
  }

  lemma SettledFind(brokers: seq<Broker>, k: nat, b: Broker, local: EndpointDescription, remote: EndpointDescription)
    requires Unique(brokers) && k < |brokers| && b.local == brokers[k].local && b.remote == brokers[k].remote
    ensures var after := Settle(brokers, k, b);
            && Unique(after)
            && Find(after, local, remote)
               == if local == b.local && remote == b.remote then (if b.finished then None else Some(b))
                  else Find(brokers, local, remote)
  {
    var after := Settle(brokers, k, b);
    assert Unique(after);
    if local == b.local && remote == b.remote {
      if b.finished {
        forall c | c in after
          ensures c.local != local || c.remote != remote
        {
        }
        FindNone(after, local, remote);
      } else {
        assert after[k] == b;
        FindIs(after, k);
      }
    } else {
      OthersFound(brokers, k, b, local, remote);
    }
  }

  lemma OthersFound(brokers: seq<Broker>, k: nat, b: Broker, local: EndpointDescription, remote: EndpointDescription)
    requires Unique(brokers) && k < |brokers| && b.local == brokers[k].local && b.remote == brokers[k].remote
    requires Unique(Settle(brokers, k, b))
    requires local != b.local || remote != b.remote
    ensures Find(Settle(brokers, k, b), local, remote) == Find(brokers, local, remote)
  {
    hide Find;
    var after := Settle(brokers, k, b);
    if i :| 0 <= i < |brokers| && brokers[i].local == local && brokers[i].remote == remote {
      var j := if b.finished && k < i then i - 1 else i;
      assert after[j] == brokers[i];
      FindIs(after, j);
      FindIs(brokers, i);
    } else {
      FindNone(brokers, local, remote);
      FindNone(after, local, remote);
      forall c | c in after
        ensures c.local != local || c.remote != remote
      {
        assert c == b || c in brokers;
      }
    }
  }

  lemma AppendedFind(brokers: seq<Broker>, b: Broker, local: EndpointDescription, remote: EndpointDescription)
    requires Unique(brokers) && Find(brokers, b.local, b.remote).None?
    ensures Unique(brokers + [b])
    ensures Find(brokers + [b], local, remote)
         == if local == b.local && remote == b.remote then Some(b) else Find(brokers, local, remote)
  {
    var after := brokers + [b];
    FindNone(brokers, b.local, b.remote);
    assert Unique(after) by {
      forall i, j | 0 <= i < j < |after|
        ensures after[i].local != after[j].local || after[i].remote != after[j].remote
      {
        assert i < |brokers| && brokers[i] in brokers;
      }
    }
    if local == b.local && remote == b.remote {
      assert after[|brokers|] == b;
      FindIs(after, |brokers|);
    } else {
      var found := Responsible(brokers, local, remote);
      FindNone(after, local, remote);
      if found.Some? {
        assert after[found.value] == brokers[found.value];
        FindIs(after, found.value);
      }
    }
  }

  // ------------------------------------------------------------------ one step at the receiver

  /** The receiver's broker for the pair becomes `next`, `reply` is sent, every other broker stays;
      a request whose broker is gone is finalised. */
  ghost predicate Acts(d: Desk, m: Msg, e: Desk, next: Option<Broker>, reply: seq<Msg>) {
    && Unique(e.brokers)
    && Find(e.brokers, m.receiver, m.sender) == next
    && (forall x, y :: x != m.receiver || y != m.sender ==> Find(e.brokers, x, y) == Find(d.brokers, x, y))
    && e.site.sent == d.site.sent + reply
    && Sane(e.site.registry) && Grows(d.site.registry, e.site.registry)
    && StatusesFollow(d, m, e, next) && SuccessesFollow(d, m, e)
  }

  /** A Finalise that a client's broker takes is a success of its request; nothing else is one. */
  ghost predicate SuccessesFollow(d: Desk, m: Msg, e: Desk) {
    var b := Find(d.brokers, m.receiver, m.sender);
    e.site.successes
    == if m.payload.Finalise? && b.Some? && b.value.request.Some?
       then d.site.successes + [Success(b.value.request.value, m)] else d.site.successes
  }

  ghost predicate StatusesFollow(d: Desk, m: Msg, e: Desk, next: Option<Broker>) {
    var b := Find(d.brokers, m.receiver, m.sender);
    if b.Some? && b.value.request.Some? then
      var id := b.value.request.value.id;
      && id in e.site.statuses
      && e.site.statuses == d.site.statuses[id := e.site.statuses[id]]
      && (if next.Some? then next.value.request == b.value.request else e.site.statuses[id] == FinalisedSuccess)
    else
      e.site.statuses == d.site.statuses
  }

  lemma RequestActs(d: Desk, m: Msg)
    requires Unique(d.brokers) && Sane(d.site.registry) && m.payload.Request?
    requires Find(d.brokers, m.receiver, m.sender).None?
    ensures Dispatch(d, m).Ok?
    ensures Acts(d, m, Dispatch(d, m).value,
                 Some(Broker(m.receiver, m.sender, ServerPendingAccept, None, false)),
                 [Msg(Response(true), m.qosClass, m.receiver, m.sender)])
  {
    var b := Broker(m.receiver, m.sender, ServerPendingAccept, None, false);
    NewBrokerOnlyTakesRequests(d, m);
    GrowsNot(d.site.registry);
    hide Grows;
    hide Sane;
    hide OfferToNewBroker;
    AppendedFind(d.brokers, b, m.receiver, m.sender);
    forall x, y | x != m.receiver || y != m.sender
      ensures Find(d.brokers + [b], x, y) == Find(d.brokers, x, y)
    {
      AppendedFind(d.brokers, b, x, y);
    }
  }

  /** The broker that is there handles the message. */
  lemma HandledActs(d: Desk, m: Msg, o: Outcome, reply: seq<Msg>)
    requires Unique(d.brokers) && Find(d.brokers, m.receiver, m.sender).Some?
    requires var b := Find(d.brokers, m.receiver, m.sender).value;
             && HandleMessage(b, d.site, m) == Ok(o) && o.handled
             && o.broker.local == b.local && o.broker.remote == b.remote && o.broker.request == b.request
             && o.site.sent == d.site.sent + reply
             && Sane(o.site.registry) && Grows(d.site.registry, o.site.registry)
             && o.site.statuses
                == (match b.request
                    case None => d.site.statuses
                    case Some(r) =>
                      d.site.statuses[r.id := if o.broker.finished then FinalisedSuccess else EstablishSend])
             && o.site.successes
                == (if m.payload.Finalise? && b.request.Some?
                    then d.site.successes + [Success(b.request.value, m)] else d.site.successes)
    ensures Dispatch(d, m).Ok?
    ensures Acts(d, m, Dispatch(d, m).value, if o.broker.finished then None else Some(o.broker), reply)
  {
    var k := Responsible(d.brokers, m.receiver, m.sender).value;
    assert Dispatch(d, m) == Ok(Desk(Settle(d.brokers, k, o.broker), o.site));
    hide Dispatch;
    hide HandleMessage;
    hide Sane;
    hide Grows;
    SettledFind(d.brokers, k, o.broker, m.receiver, m.sender);
    forall x, y | x != m.receiver || y != m.sender
      ensures Find(Settle(d.brokers, k, o.broker), x, y) == Find(d.brokers, x, y)
    {
      SettledFind(d.brokers, k, o.broker, x, y);
    }
    hide Settle;
  }

  lemma SubscriberEndpointOk(r: Registry, s: int, g: QoSGroup)
    requires Sane(r) && g in QOS_GROUPS && HasConnector(r, s, g)
    ensures var r' := CreateOrFindSubscriberEndpoint(r, s, g, QOS_GROUPS);
            r'.Ok? && Sane(r'.value) && Grows(r, r'.value) && HasSubEndpoint(r'.value, s, g)
  {
    assert Valid(r);
    hide Sane;
    hide Grows;
    hide HasSubEndpoint;
    hide CreateOrFindSubscriberEndpoint;
    SubscriberEndpointOnce(r, s, g, QOS_GROUPS);
    SubscriberEndpointIsMade(r, s, g);
  }

  lemma PreparedGrows(s: Site, service: int, g: QoSGroup)
    requires Sane(s.registry) && g in QOS_GROUPS && HasConnector(s.registry, service, g)
    ensures var p := PrepareEstablish(s, service, g);
            && p.Ok? && Sane(p.value.0) && Grows(s.registry, p.value.0)
            && (g.IpUdp? ==> p.value.1.Some? && p.value.1.value.connectionType.CtUdp?)
  {
    hide Sane;
    hide Grows;
    hide HasConnector;
    hide HasSubEndpoint;
    hide NamesConnector;
    hide SubscriberCsi;
    hide CreateOrFindSubscriberEndpoint;
    GrowsNot(s.registry);
    if g.IpUdp? {
      SubscriberEndpointOk(s.registry, service, g);
      SubscriberCsiExists(PrepareEstablish(s, service, g).value.0, service);
      CsiIsUdp(PrepareEstablish(s, service, g).value.0, service);
    }
  }

  lemma ResponseActs(d: Desk, m: Msg, b: Broker) returns (reply: Msg)
    requires Unique(d.brokers) && Sane(d.site.registry) && m.payload == Response(true) && m.qosClass in QOS_GROUPS
    requires Find(d.brokers, m.receiver, m.sender) == Some(b)
    requires b.state.ClientPendingRequest? && b.request.Some? && !b.finished
    requires HasConnector(d.site.registry, m.sender.serviceId, m.qosClass)
    ensures Dispatch(d, m).Ok?
    ensures Acts(d, m, Dispatch(d, m).value, Some(b.(state := ClientPendingConnection)), [reply])
    ensures reply.payload.Establish? && reply.qosClass == m.qosClass && WellFormed(reply)
    ensures reply.sender == m.receiver && reply.receiver == m.sender
  {
    hide PrepareEstablish;
    hide Sane;
    hide Grows;
    hide HasConnector;
    hide Unique;
    PreparedGrows(d.site, m.sender.serviceId, m.qosClass);
    var p := PrepareEstablish(d.site, m.sender.serviceId, m.qosClass).value;
    reply := Msg(Establish(p.1), m.qosClass, m.receiver, m.sender);
    assert b.local == m.receiver && b.remote == m.sender;
    var o := HandleMessage(b, d.site, m).value;
    assert o == Outcome(b.(state := ClientPendingConnection),
                        WithStatus(Emit(d.site.(registry := p.0), reply), b, EstablishSend), true);
    HandledActs(d, m, o, [reply]);
  }

  lemma EstablishActs(d: Desk, m: Msg, b: Broker) returns (reply: Msg)
    requires Unique(d.brokers) && Sane(d.site.registry)
    requires m.payload.Establish? && WellFormed(m) && m.qosClass in QOS_GROUPS
    requires Find(d.brokers, m.receiver, m.sender) == Some(b)
    requires b.state.ServerPendingAccept? && b.request.None?
    requires m.receiver.serviceId in d.site.registry.pubs
    ensures Dispatch(d, m).Ok?
    ensures Acts(d, m, Dispatch(d, m).value, None, [reply])
    ensures reply.payload.Finalise? && reply.qosClass == m.qosClass && WellFormed(reply)
    ensures reply.sender == m.receiver && reply.receiver == m.sender
  {
    hide Sane;
    hide Grows;
    hide Unique;
    hide HasPubEndpoint;
    hide HasRemote;
    hide CreateOrFindPublisherEndpoint;
    hide Acts;
    hide Dispatch;
    PublisherEndpointGrows(d.site.registry, m.receiver.serviceId, m.qosClass, QOS_GROUPS);
    assert Accept(d.site, m.receiver, m).Ok?;
    AcceptGrows(d.site, m.receiver, m);
    var r := Accept(d.site, m.receiver, m).value;
    hide Accept;
    reply := Msg(Finalise(true, Some(PublisherCsi(r, m.receiver, m.qosClass))), m.qosClass, m.receiver, m.sender);
    assert b.local == m.receiver && b.remote == m.sender;
    var o := HandleMessage(b, d.site, m).value;
    assert o == Outcome(b.(state := ServerSessionEstablished, finished := true),
                        Emit(d.site.(registry := r), reply), true);
    HandledActs(d, m, o, [reply]);
  }

  lemma ConcludedGrows(r: Registry, service: int, m: Msg)
    requires Sane(r) && m.payload.Finalise? && WellFormed(m) && HasConnector(r, service, m.qosClass)
    ensures var c := Conclude(r, service, m.payload.publisherCsi);
            c.Ok? && Sane(c.value) && Grows(r, c.value)
  {
    hide Sane;
    hide Grows;
    hide HasConnector;
    hide HasSubEndpoint;
    hide CreateOrFindSubscriberEndpoint;
    GrowsNot(r);
    if !m.qosClass.IpUdp? {
      SubscriberEndpointOk(r, service, m.qosClass);
    }
  }

  lemma FinaliseActs(d: Desk, m: Msg, b: Broker)
    requires Unique(d.brokers) && Sane(d.site.registry) && m.payload.Finalise? && WellFormed(m)
    requires Find(d.brokers, m.receiver, m.sender) == Some(b)
    requires b.state.ClientPendingConnection? && b.request.Some?
    requires HasConnector(d.site.registry, m.sender.serviceId, m.qosClass)
    ensures Dispatch(d, m).Ok?
    ensures Acts(d, m, Dispatch(d, m).value, None, [])
  {
    hide Conclude;
    hide Sane;
    hide Grows;
    hide HasConnector;
    hide Unique;
    ConcludedGrows(d.site.registry, m.sender.serviceId, m);
    var r := Conclude(d.site.registry, m.sender.serviceId, m.payload.publisherCsi).value;
    assert b.local == m.receiver && b.remote == m.sender;
    var o := HandleMessage(b, d.site, m).value;
    assert o == Outcome(b.(state := ClientSuccess, finished := true),
                        WithSuccess(WithStatus(d.site.(registry := r), b, FinalisedSuccess), b, m), true);
    assert d.site.sent + [] == d.site.sent;
    HandledActs(d, m, o, []);
  }

  // ------------------------------------------------------------------ when a response gets lost

  /** Brokers are chosen by endpoint pair alone: a response is dropped exactly when the first broker of
      the pair is not waiting for one. QosStuck shows what then becomes of its negotiation. */
  lemma ResponseIsDroppedExactlyWhen(d: Desk, m: Msg)
    requires (forall b :: b in d.brokers ==> !b.finished) && m.payload.Response?
    ensures Dispatch(d, m) == Ok(d)
            <==> !(exists b :: Find(d.brokers, m.receiver, m.sender) == Some(b) && b.state.ClientPendingRequest?)
  {
    OneBrokerActs(d, m);
    NewBrokerOnlyTakesRequests(d, m);
    var found := Responsible(d.brokers, m.receiver, m.sender);
    hide Dispatch;
    hide OfferToNewBroker;
    if found.Some? {
      var k := found.value;
      var b := d.brokers[k];
      assert b in d.brokers;
      var o := HandleResponse(b, d.site, m);
      assert HandleMessage(b, d.site, m) == o;
      if b.state.ClientPendingRequest? && o.Ok? {
        assert o.value.broker != b;
        SettlingChanges(d.brokers, k, o.value.broker);
      }
    }
  }

  lemma SettlingChanges(brokers: seq<Broker>, k: nat, b: Broker)
    requires k < |brokers| && b != brokers[k]
    ensures Settle(brokers, k, b) != brokers
  {
    if b.finished {
      assert |Settle(brokers, k, b)| < |brokers|;
    } else {
      assert Settle(brokers, k, b)[k] == b;
    }
  }
}
