/** The QoS manager's pending requests: what a subscriber discovers waits for an offer, and an
    offer turns everything pending for its service into negotiation requests. */
module QosPending {
  import opened Base
  import opened QosBroker

  datatype Pending = Pending(service: int, group: QoSGroup)

  /** The manager's list and counter, and the requests handed to the negotiation protocol so far. */
  datatype Book = Book(
    address: Address,
    port: int,
    pending: seq<Pending>,
    requestID: nat,
    requests: seq<NegotiationRequest>)

  // ------------------------------------------------------------------ what an offer does

  function Matching(pending: seq<Pending>, s: int): seq<Pending> {
    if pending == [] then []
    else
      var last := pending[|pending| - 1];
      Matching(pending[..|pending| - 1], s) + if last.service == s then [last] else []
  }

  function Others(pending: seq<Pending>, s: int): seq<Pending> {
    if pending == [] then []
    else
      var last := pending[|pending| - 1];
      Others(pending[..|pending| - 1], s) + if last.service != s then [last] else []
  }

  function NegotiationFor(b: Book, publisher: Address, x: Pending, id: nat): NegotiationRequest {
    NegotiationRequest(id, EndpointDescription(x.service, b.address, b.port),
                       EndpointDescription(x.service, publisher, b.port), x.group)
  }

  /** One request per pending entry, with consecutive ids. */
  function Requests(b: Book, publisher: Address, matching: seq<Pending>): seq<NegotiationRequest> {
    seq(|matching|, i requires 0 <= i < |matching| => NegotiationFor(b, publisher, matching[i], b.requestID + i))
  }

  function Discovered(b: Book, s: int, g: QoSGroup): Book {
    b.(pending := b.pending + [Pending(s, g)])
  }

  function Offered(b: Book, s: int, publisher: Address): Book {
    var matching := Matching(b.pending, s);
    b.(pending := Others(b.pending, s),
       requestID := b.requestID + |matching|,
       requests := b.requests + Requests(b, publisher, matching))
  }

  // ------------------------------------------------------------------ removing from the list

  /** Removing every element equal to x. */
  function Removed(pending: seq<Pending>, x: Pending): seq<Pending> {
    if pending == [] then []
    else
      var last := pending[|pending| - 1];
      Removed(pending[..|pending| - 1], x) + if last != x then [last] else []
  }

  function RemovedAll(pending: seq<Pending>, xs: seq<Pending>): seq<Pending> {
    if xs == [] then pending else Removed(RemovedAll(pending, xs[..|xs| - 1]), xs[|xs| - 1])
  }

  lemma {:induction false} RemovedMembers(pending: seq<Pending>, x: Pending)
    ensures forall y :: y in Removed(pending, x) <==> y in pending && y != x
  {
    if pending != [] {
      RemovedMembers(pending[..|pending| - 1], x);
      assert pending == pending[..|pending| - 1] + [pending[|pending| - 1]];
    }
  }

  lemma OthersAppend(a: seq<Pending>, x: Pending, s: int)
    ensures Others(a + [x], s) == Others(a, s) + if x.service != s then [x] else []
  {
    assert (a + [x])[..|a|] == a;
  }

  lemma {:induction false} RemovedOthers(pending: seq<Pending>, x: Pending, s: int)
    requires x.service == s
    ensures Others(Removed(pending, x), s) == Others(pending, s)
  {
    if pending != [] {
      var init, last := pending[..|pending| - 1], pending[|pending| - 1];
      RemovedOthers(init, x, s);
      OthersAppend(Removed(init, x), last, s);
      assert Removed(init, x) + [] == Removed(init, x);
      assert Others(init, s) + [] == Others(init, s);
    }
  }

  lemma {:induction false} NothingToDrop(pending: seq<Pending>, s: int)
    requires forall y :: y in pending ==> y.service != s
    ensures Others(pending, s) == pending
  {
    if pending != [] {
      var init, last := pending[..|pending| - 1], pending[|pending| - 1];
      assert pending == init + [last];
      assert last in pending;
      NothingToDrop(init, s);
    }
  }

  lemma {:induction false} MatchingMembers(pending: seq<Pending>, s: int)
    ensures forall y :: y in Matching(pending, s) <==> y in pending && y.service == s
  {
    if pending != [] {
      MatchingMembers(pending[..|pending| - 1], s);
      assert pending == pending[..|pending| - 1] + [pending[|pending| - 1]];
    }
  }

  lemma {:induction false} RemovedAllFacts(pending: seq<Pending>, xs: seq<Pending>, s: int)
    requires forall x :: x in xs ==> x.service == s
    ensures Others(RemovedAll(pending, xs), s) == Others(pending, s)
    ensures forall y :: y in RemovedAll(pending, xs) <==> y in pending && y !in xs
  {
    if xs != [] {
      var init, last := xs[..|xs| - 1], xs[|xs| - 1];
      assert xs == init + [last];
      RemovedAllFacts(pending, init, s);
      RemovedOthers(RemovedAll(pending, init), last, s);
      RemovedMembers(RemovedAll(pending, init), last);
    }
  }

  /** Removing everything that was requested, duplicates included, leaves the others in order. */
  lemma RemovingTheRequested(pending: seq<Pending>, s: int)
    ensures RemovedAll(pending, Matching(pending, s)) == Others(pending, s)
  {
    MatchingMembers(pending, s);
    RemovedAllFacts(pending, Matching(pending, s), s);
    NothingToDrop(RemovedAll(pending, Matching(pending, s)), s);
  }

  // ------------------------------------------------------------------ the manager

  class QoSManager {
    const localAddress: Address
    const protocolPort: int
    var pendingRequests: seq<Pending>
    var requestID: nat
    var createdBrokers: seq<NegotiationRequest>

    ghost function Abstract(): Book
      reads this
    {
      Book(localAddress, protocolPort, pendingRequests, requestID, createdBrokers)
    }

    constructor (address: Address, port: int)
      ensures Abstract() == Book(address, port, [], 0, [])
    {
      localAddress, protocolPort := address, port;
      pendingRequests, requestID, createdBrokers := [], 0, [];
    }

    method DiscoverService(s: int, g: QoSGroup)
      modifies this
      ensures Abstract() == Discovered(old(Abstract()), s, g)
    {
      pendingRequests := pendingRequests + [Pending(s, g)];
    }

    method CreateNegotiationRequest(x: Pending, publisher: Address) returns (r: NegotiationRequest)
      modifies this`requestID
      ensures r == NegotiationFor(old(Abstract()), publisher, x, old(requestID))
      ensures requestID == old(requestID) + 1
    {
      r := NegotiationRequest(requestID, EndpointDescription(x.service, localAddress, protocolPort),
                              EndpointDescription(x.service, publisher, protocolPort), x.group);
      requestID := requestID + 1;
    }

    /** `list::remove` of one value. */
    method RemovePending(x: Pending)
      modifies this`pendingRequests
      ensures pendingRequests == Removed(old(pendingRequests), x)
    {
      var kept: seq<Pending> := [];
      for i := 0 to |pendingRequests|
        invariant kept == Removed(pendingRequests[..i], x)
        invariant pendingRequests == old(pendingRequests)
      {
        assert pendingRequests[..i + 1][..i] == pendingRequests[..i];
        if pendingRequests[i] != x {
          kept := kept + [pendingRequests[i]];
        }
      }
      assert pendingRequests[..|pendingRequests|] == pendingRequests;
      pendingRequests := kept;
    }

    method SubscribeOfferedService(s: int, publisher: Address)
      modifies this
      ensures Abstract() == Offered(old(Abstract()), s, publisher)
    {
      ghost var b := Abstract();
      var toBeRemoved: seq<Pending> := [];
      for i := 0 to |pendingRequests|
        invariant pendingRequests == b.pending
        invariant toBeRemoved == Matching(b.pending[..i], s)
        invariant Abstract() == b.(requestID := b.requestID + |toBeRemoved|,
                                   requests := b.requests + Requests(b, publisher, toBeRemoved))
      {
        assert b.pending[..i + 1][..i] == b.pending[..i];
        if s == pendingRequests[i].service {
          var request := CreateNegotiationRequest(pendingRequests[i], publisher);
          createdBrokers := createdBrokers + [request];
          assert Requests(b, publisher, toBeRemoved + [pendingRequests[i]])
              == Requests(b, publisher, toBeRemoved) + [request];
          toBeRemoved := toBeRemoved + [pendingRequests[i]];
        }
      }
      assert b.pending[..|b.pending|] == b.pending;
      for i := 0 to |toBeRemoved|
        invariant pendingRequests == RemovedAll(b.pending, toBeRemoved[..i])
        invariant Abstract() == b.(pending := pendingRequests, requestID := b.requestID + |toBeRemoved|,
                                   requests := b.requests + Requests(b, publisher, toBeRemoved))
      {
        assert toBeRemoved[..i + 1][..i] == toBeRemoved[..i];
        RemovePending(toBeRemoved[i]);
      }
      assert toBeRemoved[..|toBeRemoved|] == toBeRemoved;
      RemovingTheRequested(b.pending, s);
    }
  }

  // ------------------------------------------------------------------ whole runs

  datatype Event = Discover(service: int, group: QoSGroup) | Offer(service: int, publisher: Address)

  function Apply(b: Book, e: Event): Book {
    match e
    case Discover(s, g) => Discovered(b, s, g)
    case Offer(s, a) => Offered(b, s, a)
  }

  function After(b: Book, events: seq<Event>): Book {
    if events == [] then b else Apply(After(b, events[..|events| - 1]), events[|events| - 1])
  }

  function EverDiscovered(events: seq<Event>): multiset<Pending> {
    if events == [] then multiset{}
    else
      var e := events[|events| - 1];
      EverDiscovered(events[..|events| - 1]) + if e.Discover? then multiset{Pending(e.service, e.group)} else multiset{}
  }

  /** What a request asks for. */
  function AskedFor(requests: seq<NegotiationRequest>): multiset<Pending> {
    if requests == [] then multiset{}
    else
      var r := requests[|requests| - 1];
      AskedFor(requests[..|requests| - 1]) + multiset{Pending(r.publisher.serviceId, r.group)}
  }

  lemma {:induction false} AskedForConcat(a: seq<NegotiationRequest>, c: seq<NegotiationRequest>)
    ensures AskedFor(a + c) == AskedFor(a) + AskedFor(c)
  {
    if c == [] {
      assert a + c == a;
    } else {
      assert (a + c)[..|a + c| - 1] == a + c[..|c| - 1];
      AskedForConcat(a, c[..|c| - 1]);
    }
  }

  lemma {:induction false} RequestsAskForTheMatching(b: Book, publisher: Address, matching: seq<Pending>)
    ensures AskedFor(Requests(b, publisher, matching)) == multiset(matching)
  {
    if matching != [] {
      var init, last := matching[..|matching| - 1], matching[|matching| - 1];
      RequestsAskForTheMatching(b, publisher, init);
      assert Requests(b, publisher, matching)[..|matching| - 1] == Requests(b, publisher, init);
      assert matching == init + [last];
    }
  }

  lemma NothingPending(s: int)
    ensures Matching([], s) == [] && Others([], s) == []
  {
  }

  lemma OneMorePending(pending: seq<Pending>, x: Pending, s: int)
    ensures Matching(pending + [x], s) == Matching(pending, s) + if x.service == s then [x] else []
    ensures Others(pending + [x], s) == Others(pending, s) + if x.service != s then [x] else []
  {
    assert (pending + [x])[..|pending|] == pending;
  }

  lemma {:induction false} MatchingAndOthers(pending: seq<Pending>, s: int)
    ensures multiset(pending) == multiset(Matching(pending, s)) + multiset(Others(pending, s))
  {
    hide Matching;
    hide Others;
    if pending != [] {
      var init, last := pending[..|pending| - 1], pending[|pending| - 1];
      MatchingAndOthers(init, s);
      OneMorePending(init, last, s);
      assert pending == init + [last];
    } else {
      NothingPending(s);
    }
  }

  /** Requests so far are numbered 0, 1, 2, ... in the order they were created. */
  ghost predicate Numbered(b: Book) {
    b.requestID == |b.requests| && forall i :: 0 <= i < |b.requests| ==> b.requests[i].id == i
  }

  lemma OfferNumbers(b: Book, s: int, publisher: Address)
    requires Numbered(b)
    ensures Numbered(Offered(b, s, publisher))
  {
    hide Matching;
    hide Others;
  }

  lemma OfferConserves(b: Book, s: int, publisher: Address)
    ensures var c := Offered(b, s, publisher);
            multiset(c.pending) + AskedFor(c.requests) == multiset(b.pending) + AskedFor(b.requests)
  {
    var matching := Matching(b.pending, s);
    AskedForConcat(b.requests, Requests(b, publisher, matching));
    RequestsAskForTheMatching(b, publisher, matching);
    MatchingAndOthers(b.pending, s);
    hide Matching;
    hide Others;
    hide AskedFor;
    hide Requests;
  }

  /** Over all runs: what was ever discovered is what is still pending and what has been requested,
      each as often, and every request has its own number. */
  lemma {:induction false} DiscoveredIsPendingOrRequested(address: Address, port: int, events: seq<Event>)
    ensures var b := After(Book(address, port, [], 0, []), events);
            && EverDiscovered(events) == multiset(b.pending) + AskedFor(b.requests)
            && Numbered(b)
  {
    if events != [] {
      DiscoveredIsPendingOrRequested(address, port, events[..|events| - 1]);
      var b := After(Book(address, port, [], 0, []), events[..|events| - 1]);
      match events[|events| - 1] {
        case Discover(_, _) =>
        case Offer(s, a) =>
          OfferConserves(b, s, a);
          OfferNumbers(b, s, a);
      }
    }
  }

  /** An offer leaves nothing of its service pending and keeps the others. */
  lemma OfferLeavesTheOthers(b: Book, s: int, publisher: Address)
    ensures var c := Offered(b, s, publisher);
            && c.pending == RemovedAll(b.pending, Matching(b.pending, s))
            && forall x :: x in c.pending <==> x in b.pending && x.service != s
  {
    var matching := Matching(b.pending, s);
    RemovingTheRequested(b.pending, s);
    MatchingMembers(b.pending, s);
    RemovedAllFacts(b.pending, matching, s);
    hide Matching;
    hide Others;
    hide RemovedAll;
    hide Requests;
  }

  /** Each pending entry of the service, in order, becomes one request to the offering publisher. */
  lemma OfferAsksThePublisher(b: Book, s: int, publisher: Address, i: nat)
    requires i < |Matching(b.pending, s)|
    ensures var c, x := Offered(b, s, publisher), Matching(b.pending, s)[i];
            && x in b.pending && x.service == s
            && c.requests[..|b.requests|] == b.requests
            && |c.requests| == |b.requests| + |Matching(b.pending, s)|
            && c.requests[|b.requests| + i]
               == NegotiationRequest(b.requestID + i, EndpointDescription(s, b.address, b.port),
                                     EndpointDescription(s, publisher, b.port), x.group)
  {
    MatchingMembers(b.pending, s);
    assert Matching(b.pending, s)[i] in Matching(b.pending, s);
    hide Matching;
    hide Others;
  }

  // ------------------------------------------------------------------ in the order of discovery

  /** Picking commutes with appending, so it keeps the order and how often an entry is there. */
  lemma {:induction false} PickingKeepsTheOrder(a: seq<Pending>, b: seq<Pending>, s: int)
    ensures Matching(a + b, s) == Matching(a, s) + Matching(b, s)
    ensures Others(a + b, s) == Others(a, s) + Others(b, s)
  {
    hide Matching;
    hide Others;
    NothingPending(s);
    if b == [] {
      assert a + b == a && Matching(a, s) + [] == Matching(a, s) && Others(a, s) + [] == Others(a, s);
    } else {
      var init, last := b[..|b| - 1], b[|b| - 1];
      PickingKeepsTheOrder(a, init, s);
      assert a + b == (a + init) + [last] && b == init + [last];
      OneMorePending(a + init, last, s);
      OneMorePending(init, last, s);
    }
  }

  predicate IsOffered(events: seq<Event>, s: int) {
    exists i :: 0 <= i < |events| && events[i].Offer? && events[i].service == s
  }

  /** What was discovered and not offered since, in the order of discovery. */
  function NotYetOffered(events: seq<Event>): seq<Pending> {
    if events == [] then []
    else
      var e := events[0];
      (if e.Discover? && !IsOffered(events[1..], e.service) then [Pending(e.service, e.group)] else [])
      + NotYetOffered(events[1..])
  }

  lemma OneMoreOffers(events: seq<Event>, e: Event, s: int)
    ensures IsOffered(events + [e], s) <==> IsOffered(events, s) || (e.Offer? && e.service == s)
  {
    var more := events + [e];
    assert more[|events|] == e;
    assert forall i :: 0 <= i < |events| ==> more[i] == events[i];
  }

  lemma OnePicked(x: Pending, rest: seq<Pending>, s: int)
    ensures Others([x] + rest, s) == (if x.service != s then [x] else []) + Others(rest, s)
  {
    PickingKeepsTheOrder([x], rest, s);
    NothingPending(s);
    OneMorePending([], x, s);
    assert [] + [x] == [x];
  }

  lemma {:induction false} OneMoreEvent(events: seq<Event>, e: Event)
    ensures NotYetOffered(events + [e])
         == match e
            case Discover(s, g) => NotYetOffered(events) + [Pending(s, g)]
            case Offer(s, _) => Others(NotYetOffered(events), s)
  {
    if events == [] {
      assert events + [e] == [e] && [e][1..] == [];
      assert NotYetOffered([]) == [] && !IsOffered([], e.service);
    } else {
      var first, rest, more := events[0], events[1..], events + [e];
      assert more[0] == first && more[1..] == rest + [e];
      OneMoreEvent(rest, e);
      OneMoreOffers(rest, e, first.service);
      hide Others;
      hide IsOffered;
      var r := NotYetOffered(rest);
      if first.Discover? && !IsOffered(rest, first.service) {
        var x := Pending(first.service, first.group);
        assert NotYetOffered(events) == [x] + r;
        match e {
          case Discover(s, g) => assert ([x] + r) + [Pending(s, g)] == [x] + (r + [Pending(s, g)]);
          case Offer(s, _) => OnePicked(x, r, s);
        }
      } else {
        assert NotYetOffered(events) == r && NotYetOffered(more) == NotYetOffered(rest + [e]);
      }
    }
  }

  lemma OneEventApplied(b: Book, events: seq<Event>, e: Event)
    ensures After(b, events + [e]) == Apply(After(b, events), e)
  {
    assert (events + [e])[..|events|] == events;
  }

  lemma PendingAfter(b: Book, e: Event)
    ensures Apply(b, e).pending
         == match e
            case Discover(s, g) => b.pending + [Pending(s, g)]
            case Offer(s, _) => Others(b.pending, s)
  {
    hide Others;
    hide Matching;
  }

  lemma NothingYet(b: Book)
    ensures After(b, []) == b && NotYetOffered([]) == []
  {
  }

  /** After any run, what is pending is what was discovered and not offered since, in that order and as
      often. */
  lemma {:induction false} PendingIsNotYetOffered(address: Address, port: int, events: seq<Event>)
    ensures After(Book(address, port, [], 0, []), events).pending == NotYetOffered(events)
  {
    hide *;
    var b := Book(address, port, [], 0, []);
    if events == [] {
      NothingYet(b);
    } else {
      var init, e := events[..|events| - 1], events[|events| - 1];
      PendingIsNotYetOffered(address, port, init);
      OneEventApplied(b, init, e);
      PendingAfter(After(b, init), e);
      OneMoreEvent(init, e);
      assert events == init + [e];
    }
  }
}
