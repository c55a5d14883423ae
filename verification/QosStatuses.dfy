/** What the status of a request says: in every state that a host can reach, whatever arrives, it is
    that of the broker that negotiates the request, or of its end. */
module QosStatuses {
  import opened Base
  import opened Connectors
  import opened QosBroker
  import opened QosAgreement

  // ------------------------------------------------------------------ statuses and brokers

  /** A client's broker, and the status of the request it negotiates. */
  ghost predicate IsNegotiating(b: Broker, status: RequestStatus) {
    && b.request.Some? && !b.finished
    && match status
       case RequestSend => b.state.ClientPendingRequest?
       case EstablishSend => b.state.ClientPendingConnection?
       case _ => false
  }

  ghost predicate BrokersTell(brokers: seq<Broker>, statuses: map<nat, RequestStatus>) {
    forall i :: 0 <= i < |brokers| && brokers[i].request.Some? ==>
      && brokers[i].request.value.id in statuses
      && IsNegotiating(brokers[i], statuses[brokers[i].request.value.id])
  }

  ghost predicate HasId(b: Broker, id: nat) {
    b.request.Some? && b.request.value.id == id
  }

  /** No request is negotiated by two brokers. */
  ghost predicate IdsDiffer(brokers: seq<Broker>) {
    forall i, j :: 0 <= i < j < |brokers| && brokers[j].request.Some? ==>
      !HasId(brokers[i], brokers[j].request.value.id)
  }

  ghost predicate HasEnded(status: RequestStatus) {
    status.AcknowledgedFailure? || status.FinalisedSuccess? || status.FinalisedFailure?
  }

  ghost predicate IsNegotiated(brokers: seq<Broker>, id: nat) {
    exists b :: b in brokers && HasId(b, id)
  }

  ghost predicate Succeeded(successes: seq<Success>, id: nat) {
    exists x :: x in successes && x.request.id == id
  }

  /** Every request is negotiated by a broker or has ended, and has succeeded exactly if its status
      says so. */
  ghost predicate StatusesTell(d: Desk) {
    forall id :: id in d.site.statuses ==>
      && (IsNegotiated(d.brokers, id) || HasEnded(d.site.statuses[id]))
      && (d.site.statuses[id].FinalisedSuccess? <==> Succeeded(d.site.successes, id))
  }

  ghost predicate SuccessesDiffer(s: Site) {
    && (forall x :: x in s.successes ==> x.request.id in s.statuses)
    && (forall i, j :: 0 <= i < j < |s.successes| ==> s.successes[i].request.id != s.successes[j].request.id)
  }

  ghost predicate Tells(d: Desk) {
    && BrokersTell(d.brokers, d.site.statuses) && IdsDiffer(d.brokers)
    && StatusesTell(d) && SuccessesDiffer(d.site)
  }

  // ------------------------------------------------------------------ one broker

  /** A client's broker goes on or ends, and the status of its request with it; a server's has none. */
  ghost predicate StatusFollows(b: Broker, s: Site, c: Broker, t: Site, m: Msg) {
    && c.request == b.request
    && (b.request.None? ==> t.statuses == s.statuses && t.successes == s.successes)
    && (b.request.Some? ==>
          var id := b.request.value.id;
          && id in t.statuses && t.statuses == s.statuses[id := t.statuses[id]]
          && (if c.finished then HasEnded(t.statuses[id]) else IsNegotiating(c, t.statuses[id]))
          && t.successes
             == s.successes + if t.statuses[id].FinalisedSuccess? then [Success(b.request.value, m)] else [])
  }

  lemma HandlingTells(b: Broker, s: Site, m: Msg)
    requires HandleMessage(b, s, m).Ok? && HandleMessage(b, s, m).value.handled
    requires b.request.Some? ==> b.request.value.id in s.statuses && IsNegotiating(b, s.statuses[b.request.value.id])
    ensures var o := HandleMessage(b, s, m).value;
            StatusFollows(b, s, o.broker, o.site, m)
  {
    hide PrepareEstablish;
    hide Accept;
    hide Conclude;
    hide PublisherCsi;
    assert s.successes + [] == s.successes;
  }

  // ------------------------------------------------------------------ one host

  /** Where a broker stood before another one was settled. */
  function Before(k: nat, finished: bool, i: nat): nat {
    if finished && k <= i then i + 1 else i
  }

  lemma SettledAt(brokers: seq<Broker>, k: nat, c: Broker, i: nat)
    requires k < |brokers| && i < |Settle(brokers, k, c)|
    ensures Before(k, c.finished, i) < |brokers|
    ensures if !c.finished && i == k then Settle(brokers, k, c)[i] == c
            else Before(k, c.finished, i) != k && Settle(brokers, k, c)[i] == brokers[Before(k, c.finished, i)]
  {
  }

  lemma OthersStay(brokers: seq<Broker>, k: nat, c: Broker, j: nat)
    requires k < |brokers| && j < |brokers| && j != k
    ensures brokers[j] in Settle(brokers, k, c)
  {
    var after := Settle(brokers, k, c);
    var i := if c.finished && k < j then j - 1 else j;
    assert after[i] == brokers[j];
  }

  lemma SettledIdsDiffer(brokers: seq<Broker>, k: nat, c: Broker)
    requires k < |brokers| && IdsDiffer(brokers) && c.request == brokers[k].request
    ensures IdsDiffer(Settle(brokers, k, c))
  {
    var after := Settle(brokers, k, c);
    forall i, j | 0 <= i < j < |after| && after[j].request.Some?
      ensures !HasId(after[i], after[j].request.value.id)
    {
      SettledAt(brokers, k, c, i);
      SettledAt(brokers, k, c, j);
      assert !HasId(brokers[Before(k, c.finished, i)], brokers[Before(k, c.finished, j)].request.value.id);
    }
  }

  lemma OtherId(brokers: seq<Broker>, i: nat, j: nat)
    requires IdsDiffer(brokers) && i < |brokers| && j < |brokers| && i != j
    requires brokers[i].request.Some? && brokers[j].request.Some?
    ensures brokers[i].request.value.id != brokers[j].request.value.id
  {
    assert HasId(brokers[i], brokers[i].request.value.id);
    if i < j {
      assert !HasId(brokers[i], brokers[j].request.value.id);
    } else {
      assert !HasId(brokers[j], brokers[i].request.value.id);
    }
  }

  lemma SettledBrokersTell(d: Desk, k: nat, c: Broker, t: Site, m: Msg)
    requires Tells(d) && k < |d.brokers| && StatusFollows(d.brokers[k], d.site, c, t, m)
    ensures BrokersTell(Settle(d.brokers, k, c), t.statuses)
  {
    hide StatusesTell;
    hide SuccessesDiffer;
    hide HasEnded;
    hide IsNegotiating;
    hide Settle;
    var after := Settle(d.brokers, k, c);
    forall i | 0 <= i < |after| && after[i].request.Some?
      ensures after[i].request.value.id in t.statuses
      ensures IsNegotiating(after[i], t.statuses[after[i].request.value.id])
    {
      SettledAt(d.brokers, k, c, i);
      var j := Before(k, c.finished, i);
      if j != k && d.brokers[k].request.Some? {
        OtherId(d.brokers, j, k);
      }
    }
  }

  lemma NegotiatedStays(brokers: seq<Broker>, k: nat, c: Broker, id: nat)
    requires k < |brokers| && c.request == brokers[k].request && IsNegotiated(brokers, id)
    requires c.finished ==> !HasId(c, id)
    ensures IsNegotiated(Settle(brokers, k, c), id)
  {
    var j :| 0 <= j < |brokers| && HasId(brokers[j], id);
    if j == k {
      assert Settle(brokers, k, c)[k] == c && HasId(c, id);
    } else {
      OthersStay(brokers, k, c, j);
    }
  }

  lemma SettledStatusesTell(d: Desk, k: nat, c: Broker, t: Site, m: Msg)
    requires Tells(d) && k < |d.brokers| && StatusFollows(d.brokers[k], d.site, c, t, m)
    ensures StatusesTell(Desk(Settle(d.brokers, k, c), t)) && SuccessesDiffer(t)
  {
    hide Settle;
    hide IdsDiffer;
    var b := d.brokers[k];
    forall id | id in t.statuses
      ensures IsNegotiated(Settle(d.brokers, k, c), id) || HasEnded(t.statuses[id])
    {
      if b.request.Some? && id == b.request.value.id {
        if !c.finished {
          assert b in d.brokers && HasId(b, id);
          NegotiatedStays(d.brokers, k, c, id);
        }
      } else if IsNegotiated(d.brokers, id) {
        NegotiatedStays(d.brokers, k, c, id);
      }
    }
    hide BrokersTell;
    SuccessesFollow(d, b, c, t, m);
  }

  lemma SuccessesFollow(d: Desk, b: Broker, c: Broker, t: Site, m: Msg)
    requires StatusesTell(d) && SuccessesDiffer(d.site) && StatusFollows(b, d.site, c, t, m)
    requires b.request.Some? ==>
               b.request.value.id in d.site.statuses && IsNegotiating(b, d.site.statuses[b.request.value.id])
    ensures SuccessesDiffer(t)
    ensures forall id :: id in t.statuses ==> (t.statuses[id].FinalisedSuccess? <==> Succeeded(t.successes, id))
  {
  }

  lemma SettlingTells(d: Desk, k: nat, m: Msg)
    requires Tells(d) && k < |d.brokers|
    requires HandleMessage(d.brokers[k], d.site, m).Ok? && HandleMessage(d.brokers[k], d.site, m).value.handled
    ensures var o := HandleMessage(d.brokers[k], d.site, m).value;
            Tells(Desk(Settle(d.brokers, k, o.broker), o.site))
  {
    hide HandleMessage;
    hide Settle;
    hide StatusFollows;
    hide StatusesTell;
    hide SuccessesDiffer;
    hide IsNegotiating;
    var b, o := d.brokers[k], HandleMessage(d.brokers[k], d.site, m).value;
    HandlingTells(b, d.site, m);
    assert o.broker.request == b.request by { SameRequest(b, d.site, o.broker, o.site, m); }
    SettledIdsDiffer(d.brokers, k, o.broker);
    SettledBrokersTell(d, k, o.broker, o.site, m);
    SettledStatusesTell(d, k, o.broker, o.site, m);
  }

  lemma SameRequest(b: Broker, s: Site, c: Broker, t: Site, m: Msg)
    requires StatusFollows(b, s, c, t, m)
    ensures c.request == b.request
  {
  }

  /** One more broker, for a request that the host did not have or for none. */
  lemma AppendingTells(d: Desk, b: Broker, t: Site)
    requires Tells(d) && t.successes == d.site.successes
    requires b.request.None? ==> t.statuses == d.site.statuses
    requires b.request.Some? ==>
               var id := b.request.value.id;
               && id !in d.site.statuses && id in t.statuses && t.statuses == d.site.statuses[id := t.statuses[id]]
               && IsNegotiating(b, t.statuses[id])
    ensures Tells(Desk(d.brokers + [b], t))
  {
    var after := d.brokers + [b];
    assert after[|d.brokers|] == b && b in after;
    forall c | c in d.brokers
      ensures c in after
    {
    }
    forall i | 0 <= i < |d.brokers| && d.brokers[i].request.Some?
      ensures b.request.Some? ==> d.brokers[i].request.value.id != b.request.value.id
    {
      assert d.brokers[i].request.value.id in d.site.statuses;
    }
    assert b.request.Some? ==> HasId(b, b.request.value.id);
    forall id | id in d.site.statuses && IsNegotiated(d.brokers, id)
      ensures IsNegotiated(after, id)
    {
      var c :| c in d.brokers && HasId(c, id);
      assert c in after;
    }
  }

  /** Whatever arrives, well-formed or not: statuses go on telling. */
  lemma DispatchTells(d: Desk, m: Msg)
    requires Tells(d) && (forall b :: b in d.brokers ==> !b.finished) && Dispatch(d, m).Ok?
    ensures Tells(Dispatch(d, m).value)
  {
    OneBrokerActs(d, m);
    NewBrokerOnlyTakesRequests(d, m);
    if m.payload.Request? {
      AppendingTells(d, NewBroker(m.receiver, m.sender, None).(state := ServerPendingAccept),
                     Emit(d.site, Msg(Response(true), m.qosClass, m.receiver, m.sender)));
    }
    hide Dispatch;
    hide Tells;
    hide OfferToNewBroker;
    hide HandleMessage;
    var found := Responsible(d.brokers, m.receiver, m.sender);
    if found.Some? {
      var o := HandleMessage(d.brokers[found.value], d.site, m);
      if o.Ok? && o.value.handled {
        SettlingTells(d, found.value, m);
      }
    }
  }

  lemma CreatingTells(d: Desk, r: NegotiationRequest)
    requires Tells(d) && r.id !in d.site.statuses
    ensures Tells(CreateBroker(d, r))
  {
    hide Tells;
    var o := StartNegotiation(NewBroker(r.subscriber, r.publisher, Some(r)), d.site);
    AppendingTells(d, o.broker, o.site);
  }

  // ------------------------------------------------------------------ any number of hosts

  ghost predicate AllTell(y: Net) {
    forall a :: a in y ==> Tells(y[a])
  }

  lemma OneMoreTells(y: Net, a: Address, d: Desk)
    requires AllTell(y) && Tells(d)
    ensures AllTell(y[a := d])
  {
    hide Tells;
  }

  lemma HostTells(y: Net, a: Address)
    requires AllTell(y) && Inv(y) && a in y
    ensures Tells(y[a]) && forall b :: b in y[a].brokers ==> !b.finished
  {
    hide Tells;
    assert DeskOk(y, a);
  }

  lemma ActionTells(y: Net, x: Action)
    requires AllTell(y) && Inv(y) && CanHappen(y, x) && Act(y, x).Ok?
    ensures AllTell(Act(y, x).value)
  {
    hide Tells;
    hide AllTell;
    hide Inv;
    hide Dispatch;
    hide CreateBroker;
    match x {
      case Start(a, r) =>
        HostTells(y, a);
        CreatingTells(y[a], r);
        OneMoreTells(y, a, CreateBroker(y[a], r));
      case Arrive(to, src, k) =>
        HostTells(y, to);
        DispatchTells(y[to], y[src].site.sent[k]);
        OneMoreTells(y, to, Dispatch(y[to], y[src].site.sent[k]).value);
      case Register(a, r) =>
        HostTells(y, a);
        RegistryDoesNotMatter(y[a], r);
        OneMoreTells(y, a, y[a].(site := y[a].site.(registry := r)));
    }
  }

  lemma RegistryDoesNotMatter(d: Desk, r: Registry)
    requires Tells(d)
    ensures Tells(d.(site := d.site.(registry := r)))
  {
  }

  lemma {:induction false} RunTells(y: Net, run: seq<Action>, z: Net)
    requires AllTell(y) && Inv(y) && RunsTo(y, run, z)
    ensures AllTell(z)
    decreases |run|
  {
    hide AllTell;
    hide Inv;
    hide CanHappen;
    hide Act;
    if run != [] {
      ActionKeepsInv(y, run[0]);
      ActionTells(y, run[0]);
      RunTells(Act(y, run[0]).value, run[1..], z);
    }
  }

  lemma NothingToTell(y: Net)
    requires Initially(y)
    ensures AllTell(y)
  {
  }

  /** Over any network, whatever it loses, duplicates or reorders: a request's status is RequestSend
      exactly while its one broker waits for the response, EstablishSend exactly while it waits for
      the Finalise, and FinalisedSuccess exactly if it has succeeded, which it does once at most. */
  lemma {:induction false} StatusTellsTheState(y: Net, run: seq<Action>, z: Net, a: Address, id: nat)
    requires Initially(y) && RunsTo(y, run, z) && a in z && id in z[a].site.statuses
    ensures var d, status := z[a], z[a].site.statuses[id];
            && (status.RequestSend? <==> exists b :: b in d.brokers && HasId(b, id) && b.state.ClientPendingRequest?)
            && (status.EstablishSend? <==>
                  exists b :: b in d.brokers && HasId(b, id) && b.state.ClientPendingConnection?)
            && (status.FinalisedSuccess? <==> exists x :: x in d.site.successes && x.request.id == id)
            && (forall i, j :: 0 <= i < j < |d.site.successes| ==>
                  d.site.successes[i].request.id != d.site.successes[j].request.id)
            && !status.Created? && !status.Invalid?
  {
    hide Initially;
    hide RunsTo;
    hide Inv;
    InitiallyHolds(y);
    RunTells(y, run, z);
    TellsStates(z[a], id);
  }

  lemma InitiallyHolds(y: Net)
    requires Initially(y)
    ensures Inv(y) && AllTell(y)
  {
    InitiallyInv(y);
    NothingToTell(y);
  }

  lemma TellsStates(d: Desk, id: nat)
    requires Tells(d) && id in d.site.statuses
    ensures var status := d.site.statuses[id];
            && (status.RequestSend? <==> exists b :: b in d.brokers && HasId(b, id) && b.state.ClientPendingRequest?)
            && (status.EstablishSend? <==>
                  exists b :: b in d.brokers && HasId(b, id) && b.state.ClientPendingConnection?)
            && !status.Created? && !status.Invalid?
  {
    if IsNegotiated(d.brokers, id) {
      var b :| b in d.brokers && HasId(b, id);
      var i :| 0 <= i < |d.brokers| && d.brokers[i] == b;
      forall c | c in d.brokers && HasId(c, id)
        ensures c == b
      {
        var j :| 0 <= j < |d.brokers| && d.brokers[j] == c;
        assert i == j;
      }
    }
  }
}
