/**
 The wrapper that hands out multisigned hashes in the order in which they were started (aggregator.rs).
 Reliable multicast itself is outside the model: what it and the network deliver is a list of events.
 */
module Aggregator {
  import opened BlockTree
  import opened Justification
  import opened Lists

  datatype Multisigned = Multisigned(hash: Hash, signature: Multisignature)

  datatype RmcEvent =
    | Arrived(item: Multisigned) // reliable multicast completed a multisignature
    | Relayed                    // a message passed between multicast and network
    | NetworkClosed

  /** `signing` lists the hashes given to `start_rmc`, that is, those this node signs. */
  datatype Agg = Agg(
    signatures: map<Hash, Multisignature>,
    queue: seq<Hash>,
    lastPlaced: bool,
    started: set<Hash>,
    signing: seq<Hash>)

  /** What one poll of `next_multisigned_hash` comes to; `Pending` when the events run out while it waits. */
  datatype Outcome = Next(item: Multisigned) | AllSigned | NetworkDown | Pending

  datatype Polled = Polled(agg: Agg, outcome: Outcome)

  const EMPTY := Agg(map[], [], false, {}, [])

  function Start(a: Agg, hash: Hash): Agg
  {
    if hash in a.started then a
    else a.(started := a.started + {hash}, queue := a.queue + [hash], signing := a.signing + [hash])
  }

  function Notify(a: Agg): Agg
  {
    a.(lastPlaced := true)
  }

  /** The outer loop: look at the front of the queue, and wait if it is not signed yet. */
  function Poll(a: Agg, events: seq<RmcEvent>): Polled
    decreases |events|, 1
  {
    if a.queue != [] && a.queue[0] in a.signatures then
      Polled(a.(queue := a.queue[1..], signatures := a.signatures - {a.queue[0]}),
             Next(Multisigned(a.queue[0], a.signatures[a.queue[0]])))
    else if a.queue == [] && a.lastPlaced then Polled(a, AllSigned)
    else Await(a, events)
  }

  /** The inner loop: only a completed multisignature leads back to the outer one. */
  function Await(a: Agg, events: seq<RmcEvent>): Polled
    decreases |events|, 0
  {
    if events == [] then Polled(a, Pending)
    else match events[0]
      case Arrived(item) => Poll(a.(signatures := a.signatures[item.hash := item.signature]), events[1..])
      case Relayed => Await(a, events[1..])
      case NetworkClosed => Polled(a, NetworkDown)
  }

  class BlockSignatureAggregator {
    var signatures: map<Hash, Multisignature>
    var hashQueue: seq<Hash>
    var lastHashPlaced: bool
    var startedHashes: set<Hash>
    var rmcStarted: seq<Hash>
    ghost var calls: seq<Call> // all calls made on the object

    /** The object is what its calls have made of it. */
    ghost predicate Valid()
      reads this
    {
      State() == After(calls).agg
    }

    function State(): Agg
      reads this
    {
      Agg(signatures, hashQueue, lastHashPlaced, startedHashes, rmcStarted)
    }

    constructor ()
      ensures State() == EMPTY && Valid() && calls == []
    {
      signatures, hashQueue, lastHashPlaced, startedHashes := map[], [], false, {};
      rmcStarted, calls := [], [];
    }

    method StartAggregation(hash: Hash)
      modifies this
      ensures State() == Start(old(State()), hash)
      ensures calls == old(calls) + [StartCall(hash)] && (old(Valid()) ==> Valid())
    {
      OneMore(calls, StartCall(hash));
      calls := calls + [StartCall(hash)];
      if hash in startedHashes {
        return;
      }
      startedHashes := startedHashes + {hash};
      hashQueue := hashQueue + [hash];
      rmcStarted := rmcStarted + [hash];
    }

    method NotifyLastHash()
      modifies this
      ensures State() == Notify(old(State()))
      ensures calls == old(calls) + [NotifyCall] && (old(Valid()) ==> Valid())
    {
      OneMore(calls, NotifyCall);
      calls := calls + [NotifyCall];
      lastHashPlaced := true;
    }

    method NextMultisignedHash(events: seq<RmcEvent>) returns (outcome: Outcome)
      modifies this
      ensures Polled(State(), outcome) == Poll(old(State()), events)
      ensures exists k :: Answers(old(State()), events, k, Polled(State(), outcome))
      ensures calls == old(calls) + [PollCall(events)] && (old(Valid()) ==> Valid())
    {
      ghost var before := State();
      outcome := WaitForFront(events);
      PollIsAnswered(before, events);
      PolledAfter(calls, events);
      calls := calls + [PollCall(events)];
    }

    /** The nested loops. */
    method WaitForFront(events: seq<RmcEvent>) returns (outcome: Outcome)
      modifies `signatures, `hashQueue
      ensures Polled(State(), outcome) == Poll(old(State()), events)
    {
      var i := 0;
      while true
        invariant i <= |events|
        invariant Poll(State(), events[i..]) == Poll(old(State()), events)
        decreases |events| - i
      {
        if hashQueue != [] {
          var hash := hashQueue[0];
          if hash in signatures {
            var multisignature := signatures[hash];
            signatures := signatures - {hash};
            hashQueue := hashQueue[1..];
            return Next(Multisigned(hash, multisignature));
          }
        } else if lastHashPlaced {
          return AllSigned;
        }
        var waiting := true;
        ghost var here := i;
        while waiting
          invariant here <= i <= |events|
          invariant waiting ==> Await(State(), events[i..]) == Poll(old(State()), events)
          invariant !waiting ==> here < i && Poll(State(), events[i..]) == Poll(old(State()), events)
          decreases waiting, |events| - i
        {
          if i == |events| {
            return Pending;
          }
          assert events[i..][1..] == events[i + 1..];
          match events[i] {
            case Arrived(item) =>
              signatures := signatures[item.hash := item.signature];
              waiting := false;
            case Relayed =>
            case NetworkClosed =>
              return NetworkDown;
          }
          i := i + 1;
        }
      }
    }
  }

  // ---- Whole runs ----

  /** One call made on the aggregator. */
  datatype Call = StartCall(hash: Hash) | NotifyCall | PollCall(events: seq<RmcEvent>)

  datatype History = History(agg: Agg, emitted: seq<Multisigned>)

  function After(calls: seq<Call>): History
  {
    if calls == [] then History(EMPTY, [])
    else
      var h := After(calls[..|calls| - 1]);
      match calls[|calls| - 1]
      case StartCall(hash) => h.(agg := Start(h.agg, hash))
      case NotifyCall => h.(agg := Notify(h.agg))
      case PollCall(events) =>
        var p := Poll(h.agg, events);
        History(p.agg, if p.outcome.Next? then h.emitted + [p.outcome.item] else h.emitted)
  }

  function HashesOf(items: seq<Multisigned>): seq<Hash>
  {
    Map((item: Multisigned) => item.hash, items)
  }

  /** The hashes passed to `start_aggregation`, in order and each kept at its first call only. */
  function FirstStarts(calls: seq<Call>): seq<Hash>
  {
    if calls == [] then []
    else
      var hs := FirstStarts(calls[..|calls| - 1]);
      match calls[|calls| - 1]
      case StartCall(hash) => if hash in hs then hs else hs + [hash]
      case _ => hs
  }

  lemma OneMore(calls: seq<Call>, c: Call)
    ensures After(calls + [c]) ==
            var h := After(calls);
            match c
            case StartCall(hash) => h.(agg := Start(h.agg, hash))
            case NotifyCall => h.(agg := Notify(h.agg))
            case PollCall(events) =>
              var p := Poll(h.agg, events);
              History(p.agg, if p.outcome.Next? then h.emitted + [p.outcome.item] else h.emitted)
  {
    assert (calls + [c])[..|calls|] == calls;
  }

  lemma PolledAfter(calls: seq<Call>, events: seq<RmcEvent>)
    ensures After(calls + [PollCall(events)]).agg == Poll(After(calls).agg, events).agg
  {
    OneMore(calls, PollCall(events));
  }

  // ---- What a poll answers, said of the events it reads ----

  function Keep(signatures: map<Hash, Multisignature>, event: RmcEvent): map<Hash, Multisignature>
  {
    if event.Arrived? then signatures[event.item.hash := event.item.signature] else signatures
  }

  /** The signatures at hand once these events have been read: nothing that arrives is lost. */
  function Kept(signatures: map<Hash, Multisignature>, events: seq<RmcEvent>): map<Hash, Multisignature>
    decreases |events|
  {
    if events == [] then signatures else Kept(Keep(signatures, events[0]), events[1..])
  }

  predicate Arrives(events: seq<RmcEvent>, hash: Hash)
  {
    exists j :: 0 <= j < |events| && events[j].Arrived? && events[j].item.hash == hash
  }

  /** At hand are exactly the hashes held before and those that arrived. */
  lemma {:induction false} KeptMeans(signatures: map<Hash, Multisignature>, events: seq<RmcEvent>, hash: Hash)
    ensures hash in Kept(signatures, events) <==> hash in signatures || Arrives(events, hash)
    ensures hash in signatures && !Arrives(events, hash) ==> Kept(signatures, events)[hash] == signatures[hash]
    decreases |events|
  {
    if events != [] {
      KeptMeans(Keep(signatures, events[0]), events[1..], hash);
      if Arrives(events[1..], hash) {
        var j :| 0 <= j < |events[1..]| && events[1..][j].Arrived? && events[1..][j].item.hash == hash;
        assert events[j + 1] == events[1..][j];
      }
      if Arrives(events, hash) && !(events[0].Arrived? && events[0].item.hash == hash) {
        var j :| 0 <= j < |events| && events[j].Arrived? && events[j].item.hash == hash;
        assert events[1..][j - 1] == events[j];
      }
    }
  }

  /** The front's signature is at hand before event `j`. */
  predicate FrontSigned(a: Agg, events: seq<RmcEvent>, j: nat)
    requires j <= |events|
  {
    a.queue != [] && (a.queue[0] in a.signatures || Arrives(events[..j], a.queue[0]))
  }

  predicate NothingToWaitFor(a: Agg)
  {
    a.queue == [] && a.lastPlaced
  }

  /** The poll stops before event `j`. */
  predicate Stops(a: Agg, events: seq<RmcEvent>, j: nat)
    requires j <= |events|
  {
    NothingToWaitFor(a) || FrontSigned(a, events, j) || (j < |events| && events[j].NetworkClosed?)
  }

  /**
   The poll reads `k` events, up to the first at which it has to stop. It hands out the front if signed, and says that
   all is signed exactly when nothing is queued or to come; everything else that arrived stays at hand.
   */
  ghost predicate Answers(a: Agg, events: seq<RmcEvent>, k: nat, p: Polled) {
    && k <= |events|
    && (forall j | 0 <= j < k :: !Stops(a, events, j))
    && (k < |events| ==> Stops(a, events, k))
    && var signatures := Kept(a.signatures, events[..k]);
       if NothingToWaitFor(a) then p == Polled(a, AllSigned)
       else if FrontSigned(a, events, k) then
         && a.queue[0] in signatures
         && p == Polled(a.(queue := a.queue[1..], signatures := signatures - {a.queue[0]}),
                        Next(Multisigned(a.queue[0], signatures[a.queue[0]])))
       else p == Polled(a.(signatures := signatures), if k < |events| then NetworkDown else Pending)
  }

  lemma ShiftStops(a: Agg, events: seq<RmcEvent>, j: nat)
    requires events != [] && j < |events|
    ensures var b := a.(signatures := Keep(a.signatures, events[0]));
            Stops(b, events[1..], j) <==> Stops(a, events, j + 1)
  {
    assert events[..j + 1] == [events[0]] + events[1..][..j];
    if a.queue != [] {
      var front := a.queue[0];
      if Arrives(events[1..][..j], front) {
        var i :| 0 <= i < j && events[1..][..j][i].Arrived? && events[1..][..j][i].item.hash == front;
        assert events[..j + 1][i + 1] == events[1..][..j][i];
      }
      if Arrives(events[..j + 1], front) && !(events[0].Arrived? && events[0].item.hash == front) {
        var i :| 0 <= i < j + 1 && events[..j + 1][i].Arrived? && events[..j + 1][i].item.hash == front;
        assert events[1..][..j][i - 1] == events[..j + 1][i];
      }
      if events[0].Arrived? && events[0].item.hash == front {
        assert events[..j + 1][0] == events[0];
        assert Arrives(events[..j + 1], front);
      }
    }
  }

  lemma ShiftAnswers(a: Agg, events: seq<RmcEvent>, k: nat, p: Polled)
    requires events != [] && !Stops(a, events, 0)
    requires Answers(a.(signatures := Keep(a.signatures, events[0])), events[1..], k, p)
    ensures Answers(a, events, k + 1, p)
  {
    var b := a.(signatures := Keep(a.signatures, events[0]));
    forall j | 0 <= j < k + 1 ensures !Stops(a, events, j) {
      if j > 0 {
        ShiftStops(a, events, j - 1);
      }
    }
    ShiftStops(a, events, k);
    assert events[..k + 1][0] == events[0] && events[..k + 1][1..] == events[1..][..k];
    if FrontSigned(a, events, k + 1) {
      KeptMeans(a.signatures, events[..k + 1], a.queue[0]);
    }
  }

  /** The recursive poll answers so: nothing that arrives is lost, and no signed front is kept waiting. */
  lemma {:induction false} PollAnswers(a: Agg, events: seq<RmcEvent>, waiting: bool) returns (k: nat)
    requires waiting ==> FrontUnsigned(a) && !NothingToWaitFor(a)
    ensures Answers(a, events, k, if waiting then Await(a, events) else Poll(a, events))
    decreases |events|, if waiting then 0 else 1
  {
    if !waiting && FrontUnsigned(a) && !NothingToWaitFor(a) {
      k := PollAnswers(a, events, true);
    } else if !waiting || events == [] || events[0].NetworkClosed? {
      k := 0;
      assert events[..0] == [];
    } else {
      k := PollAnswers(a.(signatures := Keep(a.signatures, events[0])), events[1..], events[0].Relayed?);
      assert events[..0] == [];
      ShiftAnswers(a, events, k, Await(a, events));
      k := k + 1;
    }
  }

  lemma PollIsAnswered(a: Agg, events: seq<RmcEvent>)
    ensures exists k :: Answers(a, events, k, Poll(a, events))
  {
    var k := PollAnswers(a, events, false);
  }

  /** The signature arrived in a poll that had not stopped before. */
  ghost predicate ReadIn(calls: seq<Call>, item: Multisigned) {
    exists i, j {:trigger ReadAt(calls, i, j, item)} :: ReadAt(calls, i, j, item)
  }

  ghost predicate ReadAt(calls: seq<Call>, i: int, j: int, item: Multisigned) {
    && 0 <= i < |calls| && calls[i].PollCall? && 0 <= j < |calls[i].events| && calls[i].events[j] == Arrived(item)
    && forall m | 0 <= m <= j :: !Stops(After(calls[..i]).agg, calls[i].events, m)
  }

  ghost predicate Emitted(calls: seq<Call>, hash: Hash) {
    hash in HashesOf(After(calls).emitted)
  }

  lemma PollLosesNothing(a: Agg, events: seq<RmcEvent>, hash: Hash, j: nat)
    requires hash in a.signatures
             || (j < |events| && events[j].Arrived? && events[j].item.hash == hash
                 && forall m | 0 <= m <= j :: !Stops(a, events, m))
    ensures var p := Poll(a, events);
            hash in p.agg.signatures || (p.outcome.Next? && p.outcome.item.hash == hash)
  {
    var k := PollAnswers(a, events, false);
    if hash !in a.signatures {
      assert !Stops(a, events, 0) && k > j;
      assert events[..k][j] == events[j];
      assert Arrives(events[..k], hash);
    }
    KeptMeans(a.signatures, events[..k], hash);
    var p := Poll(a, events);
    assert Answers(a, events, k, p);
    if !NothingToWaitFor(a) && FrontSigned(a, events, k) {
      assert p.agg.signatures == Kept(a.signatures, events[..k]) - {a.queue[0]};
    }
  }

  /** In any run, a signature that was read is at hand until its hash is emitted. */
  lemma {:induction false} NothingLost(calls: seq<Call>, item: Multisigned)
    requires ReadIn(calls, item)
    ensures item.hash in After(calls).agg.signatures || Emitted(calls, item.hash)
  {
    var i, j :| ReadAt(calls, i, j, item);
    var before, call := calls[..|calls| - 1], calls[|calls| - 1];
    if i < |before| {
      assert before[..i] == calls[..i];
      assert ReadAt(before, i, j, item);
      NothingLost(before, item);
    } else {
      assert calls[..i] == before;
    }
    var h := After(before);
    if call.PollCall? && !Emitted(before, item.hash) {
      PollLosesNothing(h.agg, call.events, item.hash, if i < |before| then 0 else j);
      var p := Poll(h.agg, call.events);
      if p.outcome.Next? {
        assert HashesOf(After(calls).emitted)[|h.emitted|] == p.outcome.item.hash;
      }
    }
    if Emitted(before, item.hash) {
      var k :| 0 <= k < |h.emitted| && HashesOf(h.emitted)[k] == item.hash;
      assert HashesOf(After(calls).emitted)[k] == item.hash;
    }
  }

  /** So a poll that ends waiting, or for want of network, waited for a signature that had not been read. */
  lemma WaitsForMissing(calls: seq<Call>, events: seq<RmcEvent>, item: Multisigned)
    requires var a := After(calls).agg;
             a.queue != [] && a.queue[0] == item.hash
               && (Poll(a, events).outcome.Pending? || Poll(a, events).outcome.NetworkDown?)
    ensures !ReadIn(calls + [PollCall(events)], item)
  {
    var h, more := After(calls), calls + [PollCall(events)];
    var p := Poll(h.agg, events);
    OneMore(calls, PollCall(events));
    var k := PollAnswers(h.agg, events, false);
    KeptMeans(h.agg.signatures, events[..k], item.hash);
    FirstInFirstOut(calls);
    StartedOnce(calls);
    DistinctParts(HashesOf(h.emitted), h.agg.queue);
    if ReadIn(more, item) {
      NothingLost(more, item);
    }
  }

  ghost predicate ArrivedIn(calls: seq<Call>, item: Multisigned) {
    exists i, j ::
      0 <= i < |calls| && calls[i].PollCall? && 0 <= j < |calls[i].events| && calls[i].events[j] == Arrived(item)
  }

  /** Every signature at hand or handed out is one of `items`. */
  ghost predicate SignaturesFrom(p: Polled, items: iset<Multisigned>) {
    && (forall h | h in p.agg.signatures :: Multisigned(h, p.agg.signatures[h]) in items)
    && (p.outcome.Next? ==> p.outcome.item in items)
  }

  ghost predicate FrontUnsigned(a: Agg) {
    a.queue == [] || a.queue[0] !in a.signatures
  }

  /** A poll takes nothing but the front of the queue, and never leaves its caller waiting on a signed front. */
  lemma {:induction false} PollTakesFront(a: Agg, events: seq<RmcEvent>, waiting: bool)
    requires waiting ==> FrontUnsigned(a)
    ensures var p := if waiting then Await(a, events) else Poll(a, events);
            && a.queue == (if p.outcome.Next? then [p.outcome.item.hash] else []) + p.agg.queue
            && p.agg == a.(queue := p.agg.queue, signatures := p.agg.signatures)
            && (p.outcome.AllSigned? ==> p.agg.queue == [] && p.agg.lastPlaced)
            && (p.outcome.NetworkDown? ==> NetworkClosed in events)
            && (p.outcome.Pending? ==> FrontUnsigned(p.agg))
    decreases |events|, if waiting then 0 else 1
  {
    if !waiting {
      if FrontUnsigned(a) && !(a.queue == [] && a.lastPlaced) {
        PollTakesFront(a, events, true);
      }
    } else if events != [] {
      match events[0]
      case Arrived(item) =>
        PollTakesFront(a.(signatures := a.signatures[item.hash := item.signature]), events[1..], false);
      case Relayed => PollTakesFront(a, events[1..], true);
      case NetworkClosed =>
    }
  }

  lemma {:induction false} PollUsesArrivals(a: Agg, events: seq<RmcEvent>, waiting: bool, items: iset<Multisigned>)
    requires SignaturesFrom(Polled(a, Pending), items)
    requires forall i | 0 <= i < |events| && events[i].Arrived? :: events[i].item in items
    ensures SignaturesFrom(if waiting then Await(a, events) else Poll(a, events), items)
    decreases |events|, if waiting then 0 else 1
  {
    if !waiting {
      if FrontUnsigned(a) && !(a.queue == [] && a.lastPlaced) {
        PollUsesArrivals(a, events, true, items);
      }
    } else if events != [] {
      match events[0]
      case Arrived(item) =>
        assert events[0].item in items;
        PollUsesArrivals(a.(signatures := a.signatures[item.hash := item.signature]), events[1..], false, items);
      case Relayed => PollUsesArrivals(a, events[1..], true, items);
      case NetworkClosed =>
    }
  }

  lemma ArrivedEarlier(calls: seq<Call>, before: seq<Call>, item: Multisigned)
    requires before <= calls && ArrivedIn(before, item)
    ensures ArrivedIn(calls, item)
  {
    var i, j :|
      0 <= i < |before| && before[i].PollCall? && 0 <= j < |before[i].events| && before[i].events[j] == Arrived(item);
    assert calls[i] == before[i];
  }

  /** Signatures are neither made up nor moved between hashes: every emission's signature arrived for its hash. */
  lemma {:induction false} EmissionsArrived(calls: seq<Call>)
    ensures forall m | m in After(calls).emitted :: ArrivedIn(calls, m)
    ensures SignaturesFrom(Polled(After(calls).agg, Pending), iset m | ArrivedIn(calls, m))
  {
    if calls != [] {
      var before, call := calls[..|calls| - 1], calls[|calls| - 1];
      EmissionsArrived(before);
      forall m | ArrivedIn(before, m) ensures ArrivedIn(calls, m) {
        ArrivedEarlier(calls, before, m);
      }
      if call.PollCall? {
        forall j | 0 <= j < |call.events| && call.events[j].Arrived? ensures ArrivedIn(calls, call.events[j].item) {
          assert calls[|calls| - 1] == call;
        }
        PollUsesArrivals(After(before).agg, call.events, false, iset m | ArrivedIn(calls, m));
      }
    }
  }

  /**
   First in, first out, whatever the order in which signatures arrive: what was emitted followed by what is
   queued is exactly the started hashes in starting order, which is also what this node signs.
   */
  lemma {:induction false} FirstInFirstOut(calls: seq<Call>)
    ensures HashesOf(After(calls).emitted) + After(calls).agg.queue == FirstStarts(calls)
    ensures After(calls).agg.signing == FirstStarts(calls)
    ensures forall x :: x in After(calls).agg.started <==> x in FirstStarts(calls)
  {
    if calls != [] {
      var before, call := calls[..|calls| - 1], calls[|calls| - 1];
      var h := After(before);
      FirstInFirstOut(before);
      match call
      case StartCall(hash) =>
        assert HashesOf(h.emitted) + (h.agg.queue + [hash]) == FirstStarts(before) + [hash];
      case NotifyCall =>
      case PollCall(events) =>
        PollTakesFront(h.agg, events, false);
        var p := Poll(h.agg, events);
        assert HashesOf(After(calls).emitted) + p.agg.queue == HashesOf(h.emitted) + h.agg.queue;
    }
  }

  /** So no hash is queued, or emitted, twice. */
  lemma {:induction false} StartedOnce(calls: seq<Call>)
    ensures Distinct(FirstStarts(calls))
  {
    if calls != [] {
      StartedOnce(calls[..|calls| - 1]);
    }
  }
}
