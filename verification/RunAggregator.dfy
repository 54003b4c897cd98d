/** The aggregator task of one session (`run_aggregator`, party.rs). */
module RunAggregator {
  import opened BlockTree
  import opened Finalization
  import opened SessionChain
  import opened PartialViews
  import opened Aggregator
  import opened Justification
  import opened Lists

  /** The headers a client may hold. */
  type Store = hs: Headers | Closed(hs) witness map[]

  /** One turn of the task's select loop, with the headers the client knows at that moment. */
  datatype Event =
    | Batch(headers: Store, items: seq<AlephData>)
    | BatchesEnded
    | Multisigning(headers: Store, rmc: seq<RmcEvent>)
    | Exit
  {
    predicate AsksClient() { Batch? || Multisigning? }
  }

  datatype End = StillRunning | OutOfBatches | OutOfHashes | Exited

  /** From event `k` on, the client knows `h`. */
  ghost predicate KnownFrom(events: seq<Event>, k: nat, h: Hash) {
    forall i {:trigger events[i]} | k <= i < |events| && events[i].AsksClient() :: h in events[i].headers
  }

  /** What the client knows at event `k` is part of the tree, and is never forgotten. */
  ghost predicate KnowsMore(all: Headers, events: seq<Event>, k: nat)
    requires k < |events|
  {
    events[k].AsksClient() ==>
      && events[k].headers.Items <= all.Items
      && forall h | h in events[k].headers :: KnownFrom(events, k, h)
  }

  /** The client only ever gains headers of the tree, and knows the block it starts from. */
  ghost predicate ClientGrows(all: Headers, start: Hash, events: seq<Event>) {
    && Closed(all) && start in all && KnownFrom(events, 0, start)
    && forall k {:trigger KnowsMore(all, events, k)} | 0 <= k < |events| :: KnowsMore(all, events, k)
  }

  /** `last_finalized` after the items of all batches, read one by one and with no regard to what was seen before. */
  function TipAfter(stop: nat, start: Hash, events: seq<Event>): Hash
  {
    if events == [] then start
    else
      var before := TipAfter(stop, start, events[..|events| - 1]);
      var last := events[|events| - 1];
      if last.Batch? then Tip(last.headers, stop, before, last.items) else before
  }

  ghost predicate NetworkStaysOpen(events: seq<Event>) {
    forall i {:trigger events[i]} | 0 <= i < |events| && events[i].Multisigning? :: NetworkClosed !in events[i].rmc
  }

  function SentHashes(sent: seq<JustificationNotification>): seq<Hash>
  {
    Map((n: JustificationNotification) => n.hash, sent)
  }

  function HeaderHashes(p: seq<Header>): seq<Hash>
  {
    Map((h: Header) => h.hash, p)
  }

  // ---- The calls made on the aggregator ----

  /** Calls were added, and none of them a poll. */
  ghost predicate Quiet(before: seq<Call>, after: seq<Call>) {
    before <= after && forall i | |before| <= i < |after| :: !after[i].PollCall?
  }

  /** The lists of events that the polls met. */
  function PollsOf(calls: seq<Call>): seq<seq<RmcEvent>>
  {
    if calls == [] then []
    else
      var last := calls[|calls| - 1];
      PollsOf(calls[..|calls| - 1]) + if last.PollCall? then [last.events] else []
  }

  function RmcOf(events: seq<Event>): seq<seq<RmcEvent>>
  {
    if events == [] then []
    else
      var last := events[|events| - 1];
      RmcOf(events[..|events| - 1]) + if last.Multisigning? then [last.rmc] else []
  }

  /** Every justification carries the hash and the signature that the aggregator emitted for it. */
  ghost predicate Carries(sent: seq<JustificationNotification>, emitted: seq<Multisigned>) {
    |sent| == |emitted| && forall i | 0 <= i < |sent| :: Multisigned(sent[i].hash, sent[i].signature) == emitted[i]
  }

  /** The signature arrived for the very hash, in one of the events. */
  ghost predicate SignedIn(events: seq<Event>, n: JustificationNotification) {
    exists i, j {:trigger SignedAt(events, i, j, n)} :: SignedAt(events, i, j, n)
  }

  ghost predicate SignedAt(events: seq<Event>, i: int, j: int, n: JustificationNotification) {
    && 0 <= i < |events| && events[i].Multisigning?
    && 0 <= j < |events[i].rmc| && events[i].rmc[j] == Arrived(Multisigned(n.hash, n.signature))
  }

  lemma {:induction false} QuietKeeps(before: seq<Call>, after: seq<Call>)
    requires Quiet(before, after)
    ensures PollsOf(after) == PollsOf(before) && After(after).emitted == After(before).emitted
  {
    if |before| < |after| {
      QuietKeeps(before, after[..|after| - 1]);
    } else {
      assert before == after;
    }
  }

  lemma OnePoll(calls: seq<Call>, rmc: seq<RmcEvent>)
    ensures PollsOf(calls + [PollCall(rmc)]) == PollsOf(calls) + [rmc]
  {
    assert (calls + [PollCall(rmc)])[..|calls|] == calls;
  }

  lemma {:induction false} PollsHold(calls: seq<Call>, i: nat)
    requires i < |calls| && calls[i].PollCall?
    ensures calls[i].events in PollsOf(calls)
  {
    if i < |calls| - 1 {
      PollsHold(calls[..|calls| - 1], i);
    }
  }

  lemma {:induction false} RmcFrom(events: seq<Event>, rmc: seq<RmcEvent>)
    requires rmc in RmcOf(events)
    ensures exists i :: 0 <= i < |events| && events[i].Multisigning? && events[i].rmc == rmc
  {
    var before, last := events[..|events| - 1], events[|events| - 1];
    if !(last.Multisigning? && last.rmc == rmc) {
      RmcFrom(before, rmc);
      var i :| 0 <= i < |before| && before[i].Multisigning? && before[i].rmc == rmc;
      assert events[i] == before[i];
    } else {
      assert events[|events| - 1].rmc == rmc;
    }
  }

  /** What the polls met is what the events brought, so signatures sent are signatures that arrived. */
  lemma SentWasSigned(calls: seq<Call>, events: seq<Event>, sent: seq<JustificationNotification>,
    n: JustificationNotification)
    requires PollsOf(calls) == RmcOf(events) && Carries(sent, After(calls).emitted) && n in sent
    ensures SignedIn(events, n)
  {
    var m := Multisigned(n.hash, n.signature);
    EmissionsArrived(calls);
    assert m in After(calls).emitted;
    var i, j :| 0 <= i < |calls| && calls[i].PollCall? && 0 <= j < |calls[i].events| && calls[i].events[j] ==
      Arrived(m);
    PollsHold(calls, i);
    RmcFrom(events, calls[i].events);
    var k :| 0 <= k < |events| && events[k].Multisigning? && events[k].rmc == calls[i].events;
    assert SignedAt(events, k, j, n);
  }

  lemma SentWereSigned(calls: seq<Call>, events: seq<Event>, sent: seq<JustificationNotification>)
    requires PollsOf(calls) == RmcOf(events) && Carries(sent, After(calls).emitted)
    ensures forall n | n in sent :: SignedIn(events, n)
  {
    forall n | n in sent ensures SignedIn(events, n) {
      SentWasSigned(calls, events, sent, n);
    }
  }

  // ---- The inner loop ----

  /** Some header of the extension is at the session's last block or beyond. */
  predicate Reaches(ext: seq<Header>, stop: nat)
  {
    ext != [] && (ext[0].number >= stop || Reaches(ext[1..], stop))
  }

  function StartAll(a: Agg, headers: seq<Header>): Agg
  {
    if headers == [] then a else Start(StartAll(a, headers[..|headers| - 1]), headers[|headers| - 1].hash)
  }

  /** What the inner loop has still to do from header number `i` on. */
  ghost predicate Rest(ext: seq<Header>, stop: nat, i: nat)
    requires i <= |ext|
  {
    && Taken(ext, stop) == ext[..i] + Taken(ext[i..], stop)
    && Reaches(ext, stop) == Reaches(ext[i..], stop)
  }

  lemma RestStep(ext: seq<Header>, stop: nat, i: nat)
    requires i < |ext| && Rest(ext, stop, i)
    ensures ext[i].number < stop ==> Rest(ext, stop, i + 1)
    ensures ext[i].number >= stop ==>
              Reaches(ext, stop) && Taken(ext, stop) == if ext[i].number == stop then ext[..i + 1] else ext[..i]
  {
    assert ext[i..][1..] == ext[i + 1..];
    assert ext[..i] + [ext[i]] == ext[..i + 1];
  }

  lemma RestEnds(ext: seq<Header>, stop: nat)
    ensures Rest(ext, stop, 0)
    ensures Rest(ext, stop, |ext|) ==> Taken(ext, stop) == ext[..|ext|] && !Reaches(ext, stop)
  {
  }

  lemma StartOne(a: Agg, ext: seq<Header>, i: nat)
    requires i < |ext|
    ensures StartAll(a, ext[..i + 1]) == Start(StartAll(a, ext[..i]), ext[i].hash)
  {
    assert ext[..i + 1][..i] == ext[..i];
  }

  function LastOf(headers: seq<Header>, tip: Hash): Hash
  {
    if headers == [] then tip else headers[|headers| - 1].hash
  }

  /** The header at the end or beyond is the last one looked at. */
  lemma RestStops(a: Agg, ext: seq<Header>, stop: nat, i: nat, tip: Hash)
    requires i < |ext| && Rest(ext, stop, i) && ext[i].number >= stop
    ensures Reaches(ext, stop)
    ensures var b := StartAll(a, ext[..i]);
            StartAll(a, Taken(ext, stop)) == if ext[i].number == stop then Start(b, ext[i].hash) else b
    ensures LastOf(Taken(ext, stop), tip) == if ext[i].number == stop then ext[i].hash else LastOf(ext[..i], tip)
  {
    RestStep(ext, stop, i);
    StartOne(a, ext, i);
  }

  /** The inner loop's body. */
  method StartHeader(aggregator: BlockSignatureAggregator, header: Header, stop: nat, tip: Hash)
    returns (newTip: Hash, last: bool)
    modifies aggregator
    ensures newTip == (if header.number <= stop then header.hash else tip) && last == (header.number >= stop)
    ensures var a := if header.number <= stop then Start(old(aggregator.State()), header.hash)
            else old(aggregator.State());
            aggregator.State() == if header.number >= stop then Notify(a) else a
    ensures Quiet(old(aggregator.calls), aggregator.calls) && (old(aggregator.Valid()) ==> aggregator.Valid())
  {
    newTip := tip;
    if header.number <= stop {
      aggregator.StartAggregation(header.hash);
      newTip := header.hash;
    }
    last := header.number >= stop;
    if last {
      aggregator.NotifyLastHash();
    }
  }

  /** The inner loop of `run_aggregator`. */
  method StartHeaders(aggregator: BlockSignatureAggregator, ext: seq<Header>, stop: nat, tip: Hash, seen: bool)
    returns (newTip: Hash, newSeen: bool)
    modifies aggregator
    ensures newTip == LastOf(Taken(ext, stop), tip)
    ensures newSeen == (seen || Reaches(ext, stop))
    ensures var a := StartAll(old(aggregator.State()), Taken(ext, stop));
            aggregator.State() == if Reaches(ext, stop) then Notify(a) else a
    ensures Quiet(old(aggregator.calls), aggregator.calls) && (old(aggregator.Valid()) ==> aggregator.Valid())
  {
    newTip, newSeen := tip, seen;
    ghost var before := aggregator.State();
    var i := 0;
    RestEnds(ext, stop);
    while i < |ext|
      invariant i <= |ext| && Rest(ext, stop, i)
      invariant newTip == LastOf(ext[..i], tip) && newSeen == seen
      invariant aggregator.State() == StartAll(before, ext[..i])
      invariant Quiet(old(aggregator.calls), aggregator.calls) && (old(aggregator.Valid()) ==> aggregator.Valid())
    {
      var last: bool;
      newTip, last := StartHeader(aggregator, ext[i], stop, newTip);
      if last {
        RestStops(before, ext, stop, i, tip);
        newSeen := true;
        return;
      }
      RestStep(ext, stop, i);
      StartOne(before, ext, i);
      i := i + 1;
    }
  }

  // ---- What the loops keep ----

  /** The aggregator has started, and signs, exactly the hashes `hs`; they are what was sent, then what is queued. */
  ghost predicate Follows(a: Agg, sent: seq<Hash>, hs: seq<Hash>) {
    && a.signing == hs
    && sent + a.queue == hs
    && forall h :: h in a.started <==> h in hs
  }

  /** `last_finalized` is on top of the starting block and within the session. */
  ghost predicate TipOk(all: Headers, start: Hash, stop: nat, tip: Hash)
    requires Closed(all)
  {
    Descends(all, start, tip) && (all[tip].number <= stop || tip == start)
  }

  /** The last hash is announced at the session's end, and whenever the tip has come to it. */
  ghost predicate EndSeen(all: Headers, start: Hash, stop: nat, a: Agg, tip: Hash, seen: bool)
    requires tip in all
  {
    a.lastPlaced == seen && (seen ==> all[tip].number >= stop) && (all[tip].number >= stop && tip != start ==> seen)
  }

  /** Everything started is the path from the starting block to `last_finalized`. */
  ghost predicate InStep(all: Headers, start: Hash, stop: nat, a: Agg, sent: seq<Hash>, tip: Hash, seen: bool)
    requires Closed(all)
  {
    && TipOk(all, start, stop, tip)
    && Follows(a, sent, HeaderHashes(Path(all, start, tip)))
    && EndSeen(all, start, stop, a, tip, seen)
  }

  lemma {:induction false} StartAllFresh(a: Agg, p: seq<Header>)
    requires forall h :: h in a.started <==> h in a.signing
    requires forall i | 0 <= i < |p| :: p[i].hash !in a.signing
    requires forall i, j | 0 <= i < j < |p| :: p[i].hash != p[j].hash
    ensures var b := StartAll(a, p);
            && b == a.(queue := a.queue + HeaderHashes(p), signing := a.signing + HeaderHashes(p), started := b.started)
            && forall h :: h in b.started <==> h in b.signing
  {
    if p == [] {
      assert HeaderHashes(p) == [];
    } else {
      var q := p[..|p| - 1];
      StartAllFresh(a, q);
      var h := p[|p| - 1].hash;
      assert HeaderHashes(p) == HeaderHashes(q) + [h];
      assert h !in HeaderHashes(q);
      assert a.queue + HeaderHashes(p) == (a.queue + HeaderHashes(q)) + [h];
      assert a.signing + HeaderHashes(p) == (a.signing + HeaderHashes(q)) + [h];
    }
  }

  lemma PathHashes(all: Headers, a: Hash, b: Hash)
    requires Closed(all) && Descends(all, a, b)
    ensures forall k {:trigger Path(all, a, b)[k]} | 0 <= k < |Path(all, a, b)| ::
              var h := Path(all, a, b)[k]; h.hash in all && h == all[h.hash] && h.number == all[a].number + 1 + k
  {
    forall k | 0 <= k < |Path(all, a, b)|
      ensures var h := Path(all, a, b)[k]; h.hash in all && h == all[h.hash] && h.number == all[a].number + 1 + k
    {
      PathAt(all, a, b, k);
    }
  }

  /** Nothing on the path above `tip` was met on the way to it, and nothing on it repeats. */
  lemma PathIsFresh(all: Headers, start: Hash, tip: Hash, next: Hash)
    requires Closed(all) && Descends(all, start, tip) && Descends(all, tip, next)
    ensures forall i | 0 <= i < |Path(all, tip, next)| ::
            Path(all, tip, next)[i].hash !in HeaderHashes(Path(all, start, tip))
    ensures forall i, j | 0 <= i < j < |Path(all, tip, next)| ::
            Path(all, tip, next)[i].hash != Path(all, tip, next)[j].hash
  {
    var p, q := Path(all, tip, next), Path(all, start, tip);
    PathHashes(all, start, tip);
    PathHashes(all, tip, next);
    forall i | 0 <= i < |p| ensures p[i].hash !in HeaderHashes(q) {
      forall k | 0 <= k < |q| ensures q[k].hash != p[i].hash {
        assert q[k].number < p[i].number;
      }
    }
  }

  lemma HashesJoin(p: seq<Header>, q: seq<Header>)
    ensures HeaderHashes(p + q) == HeaderHashes(p) + HeaderHashes(q)
  {
  }

  lemma StartMore(a: Agg, sent: seq<Hash>, hs: seq<Hash>, p: seq<Header>)
    requires Follows(a, sent, hs)
    requires forall i | 0 <= i < |p| :: p[i].hash !in hs
    requires forall i, j | 0 <= i < j < |p| :: p[i].hash != p[j].hash
    ensures Follows(StartAll(a, p), sent, hs + HeaderHashes(p))
    ensures StartAll(a, p).lastPlaced == a.lastPlaced && StartAll(a, p).signatures == a.signatures
  {
    StartAllFresh(a, p);
    assert sent + (a.queue + HeaderHashes(p)) == (sent + a.queue) + HeaderHashes(p);
  }

  /** Starting the path from `tip` to `next` keeps everything in step: nothing on it was started before. */
  lemma StartPath(all: Headers, start: Hash, stop: nat, a: Agg, sent: seq<Hash>, tip: Hash, next: Hash)
    requires Closed(all) && TipOk(all, start, stop, tip) && Descends(all, tip, next)
    requires all[next].number <= stop || next == tip
    requires Follows(a, sent, HeaderHashes(Path(all, start, tip)))
    ensures TipOk(all, start, stop, next)
    ensures Follows(StartAll(a, Path(all, tip, next)), sent, HeaderHashes(Path(all, start, next)))
    ensures StartAll(a, Path(all, tip, next)).lastPlaced == a.lastPlaced
    ensures StartAll(a, Path(all, tip, next)).signatures == a.signatures
  {
    PathsJoin(all, start, tip, next);
    PathIsFresh(all, start, tip, next);
    HashesJoin(Path(all, start, tip), Path(all, tip, next));
    StartMore(a, sent, HeaderHashes(Path(all, start, tip)), Path(all, tip, next));
  }

  lemma {:induction false} ReachesMeans(ext: seq<Header>, stop: nat)
    ensures Reaches(ext, stop) <==> exists h :: h in ext && h.number >= stop
  {
    if ext != [] {
      ReachesMeans(ext[1..], stop);
      assert ext == [ext[0]] + ext[1..];
    }
  }

  /** A header at the end or beyond is met only on the way that leads the tip there. */
  lemma ReachesTheEnd(hs: Headers, stop: nat, tip: Hash, item: AlephData)
    requires Closed(hs) && tip in hs
    ensures Reaches(ChainExtension(hs, tip, item), stop) ==>
              NextTip(hs, stop, tip, item) in hs && hs[NextTip(hs, stop, tip, item)].number >= stop
    ensures NextTip(hs, stop, tip, item) in hs
    ensures NextTip(hs, stop, tip, item) != tip && hs[NextTip(hs, stop, tip, item)].number >= stop ==>
              Reaches(ChainExtension(hs, tip, item), stop)
  {
    StepInTree(hs, stop, tip, item);
    ChainExtensionInTree(hs, tip, item);
    ReachesMeans(ChainExtension(hs, tip, item), stop);
    if h :| h in ChainExtension(hs, tip, item) && h.number >= stop {
      var path := Path(hs, tip, item.hash);
      var k :| 0 <= k < |path| && path[k] == h;
      PathAt(hs, tip, item.hash, k);
    }
  }

  /** One item of a batch, as the inner loop leaves the aggregator. */
  lemma ItemKeepsStep(all: Headers, start: Hash, stop: nat, a: Agg, sent: seq<Hash>, tip: Hash, seen: bool,
                      headers: Headers, item: AlephData)
    requires Closed(all) && Closed(headers) && headers.Items <= all.Items && tip in headers
    requires InStep(all, start, stop, a, sent, tip, seen)
    ensures var ext := ChainExtension(headers, tip, item);
            var b := StartAll(a, Taken(ext, stop));
            var c := if Reaches(ext, stop) then Notify(b) else b;
            var next := NextTip(headers, stop, tip, item);
            next in headers && c.signatures == a.signatures
            && InStep(all, start, stop, c, sent, next, seen || Reaches(ext, stop))
  {
    var next := NextTip(headers, stop, tip, item);
    StepInTree(headers, stop, tip, item);
    ReachesTheEnd(headers, stop, tip, item);
    PathInPart(headers, all, tip, next);
    InPart(headers, all, next);
    StartPath(all, start, stop, a, sent, tip, next);
  }

  /** The loop over one batch. */
  method ReadBatch(aggregator: BlockSignatureAggregator, headers: Headers, items: seq<AlephData>, stop: nat, tip: Hash,
                   seen: bool,
                   ghost all: Headers, ghost start: Hash, ghost sent: seq<Hash>)
    returns (newTip: Hash, newSeen: bool)
    requires Closed(all) && Closed(headers) && headers.Items <= all.Items && tip in headers
    requires InStep(all, start, stop, aggregator.State(), sent, tip, seen)
    modifies aggregator
    ensures newTip == Tip(headers, stop, tip, items) && newTip in headers
    ensures InStep(all, start, stop, aggregator.State(), sent, newTip, newSeen)
    ensures Quiet(old(aggregator.calls), aggregator.calls) && (old(aggregator.Valid()) ==> aggregator.Valid())
  {
    newTip, newSeen := tip, seen;
    var i := 0;
    while i < |items|
      invariant i <= |items| && newTip in headers
      invariant newTip == Tip(headers, stop, tip, items[..i])
      invariant InStep(all, start, stop, aggregator.State(), sent, newTip, newSeen)
      invariant Quiet(old(aggregator.calls), aggregator.calls) && (old(aggregator.Valid()) ==> aggregator.Valid())
    {
      var toFinalizeHeaders := ChainExtensionStep(newTip, items[i], headers);
      ItemKeepsStep(all, start, stop, aggregator.State(), sent, newTip, newSeen, headers, items[i]);
      newTip, newSeen := StartHeaders(aggregator, toFinalizeHeaders, stop, newTip, newSeen);
      assert items[..i + 1][..i] == items[..i];
      i := i + 1;
    }
    assert items[..|items|] == items;
  }

  /** A poll hands out the next hash of the path, whose number the client knows: the source's `unwrap`s cannot fail. */
  lemma PollKeepsStep(all: Headers, start: Hash, stop: nat, a: Agg, sent: seq<Hash>, tip: Hash, seen: bool,
                      headers: Headers, rmc: seq<RmcEvent>)
    requires Closed(all) && Closed(headers) && headers.Items <= all.Items && tip in headers
    requires InStep(all, start, stop, a, sent, tip, seen)
    ensures var p := Poll(a, rmc);
            match p.outcome
            case Next(item) =>
              && InStep(all, start, stop, p.agg, sent + [item.hash], tip, seen)
              && item.hash in headers && headers[item.hash].number == all[start].number + 1 + |sent|
            case AllSigned => InStep(all, start, stop, p.agg, sent, tip, seen) && p.agg.queue == [] && seen
            case NetworkDown => InStep(all, start, stop, p.agg, sent, tip, seen) && NetworkClosed in rmc
            case Pending => InStep(all, start, stop, p.agg, sent, tip, seen)
  {
    PollTakesFront(a, rmc, false);
    var p := Poll(a, rmc);
    if p.outcome.Next? {
      var k := |sent|;
      assert a.signing[k] == p.outcome.item.hash;
      assert sent + a.queue == (sent + [a.queue[0]]) + p.agg.queue;
      PathHashes(all, start, tip);
      assert Path(all, start, tip)[k].hash == p.outcome.item.hash;
      InPart(headers, all, tip);
      PathAt(all, start, tip, k);
      AtInPart(headers, all, tip, all[start].number + 1 + k);
    }
  }

  /** Justifications sent so far carry the numbers of the path, one by one. */
  ghost predicate Numbered(all: Headers, start: Hash, sent: seq<JustificationNotification>)
    requires start in all
  {
    forall i | 0 <= i < |sent| :: sent[i].number == all[start].number + 1 + i
  }

  /** The branch of the select loop that waits for a multisigned hash. */
  method SendNext(aggregator: BlockSignatureAggregator, headers: Headers, rmc: seq<RmcEvent>,
                  sent: seq<JustificationNotification>,
                  ghost all: Headers, ghost start: Hash, ghost stop: nat, ghost tip: Hash, ghost seen: bool)
    returns (newSent: seq<JustificationNotification>, ended: bool)
    requires Closed(all) && Closed(headers) && headers.Items <= all.Items && tip in headers
    requires InStep(all, start, stop, aggregator.State(), SentHashes(sent), tip, seen) && Numbered(all, start, sent)
    requires aggregator.Valid() && Carries(sent, After(aggregator.calls).emitted)
    modifies aggregator
    ensures InStep(all, start, stop, aggregator.State(), SentHashes(newSent), tip, seen)
            && Numbered(all, start, newSent)
    ensures aggregator.Valid() && aggregator.calls == old(aggregator.calls) + [PollCall(rmc)]
    ensures Carries(newSent, After(aggregator.calls).emitted)
    ensures ended && NetworkClosed !in rmc ==> aggregator.hashQueue == [] && seen
    ensures old(aggregator.hashQueue) == [] && seen ==> ended
  {
    PollKeepsStep(all, start, stop, aggregator.State(), SentHashes(sent), tip, seen, headers, rmc);
    ghost var calls := aggregator.calls;
    var outcome := aggregator.NextMultisignedHash(rmc);
    newSent, ended := sent, outcome.AllSigned? || outcome.NetworkDown?;
    ghost var emitted := After(calls).emitted;
    OneMore(calls, PollCall(rmc));
    if outcome.Next? {
      var number := headers[outcome.item.hash].number;
      newSent := sent + [JustificationNotification(outcome.item.signature, outcome.item.hash, number)];
      assert SentHashes(newSent) == SentHashes(sent) + [outcome.item.hash];
    }
  }

  /** Why the loop goes on or stops after an event. */
  ghost predicate EndFits(end: End, event: Event) {
    match end
    case StillRunning => event.Batch? || event.Multisigning?
    case OutOfBatches => event.BatchesEnded?
    case OutOfHashes => event.Multisigning?
    case Exited => event.Exit?
  }

  /** One turn of the select loop. */
  method Turn(aggregator: BlockSignatureAggregator, event: Event, stop: nat, tip: Hash, seen: bool,
              sent: seq<JustificationNotification>,
              ghost all: Headers, ghost start: Hash)
    returns (newTip: Hash, newSeen: bool, newSent: seq<JustificationNotification>, end: End)
    requires Closed(all) && (event.AsksClient() ==> event.headers.Items <= all.Items && tip in event.headers)
    requires InStep(all, start, stop, aggregator.State(), SentHashes(sent), tip, seen) && Numbered(all, start, sent)
    requires aggregator.Valid() && Carries(sent, After(aggregator.calls).emitted)
    modifies aggregator
    ensures InStep(all, start, stop, aggregator.State(), SentHashes(newSent), newTip, newSeen)
            && Numbered(all, start, newSent)
    ensures aggregator.Valid() && Carries(newSent, After(aggregator.calls).emitted)
    ensures PollsOf(aggregator.calls) ==
            PollsOf(old(aggregator.calls)) + if event.Multisigning? then [event.rmc] else []
    ensures event.Multisigning? && old(aggregator.hashQueue) == [] && seen ==> end.OutOfHashes?
    ensures newTip == (if event.Batch? then Tip(event.headers, stop, tip, event.items) else tip)
    ensures event.Batch? ==> newTip in event.headers
    ensures EndFits(end, event)
    ensures end.OutOfHashes? && NetworkClosed !in event.rmc ==> aggregator.hashQueue == [] && newSeen
  {
    newTip, newSeen, newSent, end := tip, seen, sent, StillRunning;
    match event {
      case Batch(headers, items) =>
        if seen {
          InPart(headers, all, tip);
          TipStaysAtEnd(headers, stop, tip, items);
        } else {
          ghost var calls := aggregator.calls;
          newTip, newSeen := ReadBatch(aggregator, headers, items, stop, tip, seen, all, start, SentHashes(sent));
          QuietKeeps(calls, aggregator.calls);
        }
      case BatchesEnded =>
        end := OutOfBatches;
      case Multisigning(headers, rmc) =>
        var ended: bool;
        OnePoll(aggregator.calls, rmc);
        newSent, ended := SendNext(aggregator, headers, rmc, sent, all, start, stop, tip, seen);
        end := if ended then OutOfHashes else StillRunning;
      case Exit =>
        end := Exited;
    }
  }

  /** What holds after `handled` events. */
  ghost predicate LoopOk(all: Headers, start: Hash, stop: nat, events: seq<Event>, handled: nat,
                         a: Agg, sent: seq<JustificationNotification>, tip: Hash, seen: bool, end: End)
    requires Closed(all) && start in all && handled <= |events|
  {
    && tip == TipAfter(stop, start, events[..handled]) && KnownFrom(events, handled, tip)
    && InStep(all, start, stop, a, SentHashes(sent), tip, seen) && Numbered(all, start, sent)
    && (end.OutOfHashes? && NetworkStaysOpen(events) ==> a.queue == [] && seen)
    && if handled > 0 then EndFits(end, events[handled - 1]) else end.StillRunning?
  }

  /** The polls met what the events brought, and what was sent is what they emitted. */
  ghost predicate Traced(aggregator: BlockSignatureAggregator, events: seq<Event>, sent: seq<JustificationNotification>)
    reads aggregator
  {
    && aggregator.Valid() && PollsOf(aggregator.calls) == RmcOf(events)
    && Carries(sent, After(aggregator.calls).emitted)
  }

  method HandleNext(aggregator: BlockSignatureAggregator, start: Hash, stop: nat, events: seq<Event>, handled: nat,
                    tip: Hash, seen: bool, sent: seq<JustificationNotification>, ghost all: Headers)
    returns (newTip: Hash, newSeen: bool, newSent: seq<JustificationNotification>, end: End, next: nat)
    requires ClientGrows(all, start, events) && handled < |events|
    requires LoopOk(all, start, stop, events, handled, aggregator.State(), sent, tip, seen, StillRunning)
    requires Traced(aggregator, events[..handled], sent)
    modifies aggregator
    ensures next == handled + 1
    ensures LoopOk(all, start, stop, events, next, aggregator.State(), newSent, newTip, newSeen, end)
    ensures Traced(aggregator, events[..next], newSent)
  {
    next := handled + 1;
    assert events[..next][..handled] == events[..handled];
    assert KnowsMore(all, events, handled);
    newTip, newSeen, newSent, end := Turn(aggregator, events[handled], stop, tip, seen, sent, all, start);
  }

  /**
   The task itself. Whatever batches, signatures and imports it meets: `last_finalized` is what reading every
   item alone would give, so neither the split into batches nor the `last_block_seen` skip matters; the node signs
   exactly the path up to there; justifications go out for a prefix of that path, numbered without gaps, each with a
   signature that arrived for its hash; and if the hashes run out while the network stays open, that prefix is the
   whole path and the session's end is reached. `calls` are the calls made on the aggregator: one poll for each event
   that waits for signatures, with what that event brings.
   */
  method RunAggregator(start: Hash, stop: nat, events: seq<Event>, ghost all: Headers)
    returns (sent: seq<JustificationNotification>, signed: seq<Hash>, lastFinalized: Hash, end: End, handled: nat,
             ghost calls: seq<Call>)
    requires ClientGrows(all, start, events)
    ensures handled <= |events| && lastFinalized == TipAfter(stop, start, events[..handled])
    ensures Descends(all, start, lastFinalized) && (all[lastFinalized].number <= stop || lastFinalized == start)
    ensures signed == HeaderHashes(Path(all, start, lastFinalized))
    ensures SentHashes(sent) <= signed && Numbered(all, start, sent)
    ensures forall n | n in sent :: SignedIn(events[..handled], n)
    ensures PollsOf(calls) == RmcOf(events[..handled]) && Carries(sent, After(calls).emitted)
    ensures end.OutOfHashes? && NetworkStaysOpen(events) ==>
              SentHashes(sent) == signed && all[lastFinalized].number >= stop
    ensures if handled > 0 then EndFits(end, events[handled - 1]) else end.StillRunning?
    ensures end.StillRunning? ==> handled == |events|
  {
    var aggregator, lastBlockSeen;
    aggregator, sent, lastFinalized, lastBlockSeen, end, handled := SelectLoop(start, stop, events, all);
    signed, calls := aggregator.rmcStarted, aggregator.calls;
    SentWereSigned(calls, events[..handled], sent);
    LoopOkMeans(all, start, stop, events, handled, aggregator.State(), sent, lastFinalized, lastBlockSeen, end);
  }

  /** The select loop, until it ends or the events do. */
  method SelectLoop(start: Hash, stop: nat, events: seq<Event>, ghost all: Headers)
    returns (aggregator: BlockSignatureAggregator, sent: seq<JustificationNotification>, lastFinalized: Hash,
             lastBlockSeen: bool, end: End, handled: nat)
    requires ClientGrows(all, start, events)
    ensures handled <= |events| && (end.StillRunning? ==> handled == |events|)
    ensures Traced(aggregator, events[..handled], sent)
    ensures LoopOk(all, start, stop, events, handled, aggregator.State(), sent, lastFinalized, lastBlockSeen, end)
  {
    aggregator := new BlockSignatureAggregator();
    lastFinalized, lastBlockSeen := start, false;
    sent, end, handled := [], StillRunning, 0;
    StartIsOk(all, start, stop, events);
    while handled < |events| && end.StillRunning?
      invariant handled <= |events| && fresh(aggregator)
      invariant Traced(aggregator, events[..handled], sent)
      invariant LoopOk(all, start, stop, events, handled, aggregator.State(), sent, lastFinalized, lastBlockSeen, end)
      decreases |events| - handled
    {
      lastFinalized, lastBlockSeen, sent, end, handled :=
        HandleNext(aggregator, start, stop, events, handled, lastFinalized, lastBlockSeen, sent, all);
    }
  }

  lemma LoopOkMeans(all: Headers, start: Hash, stop: nat, events: seq<Event>, handled: nat,
                    a: Agg, sent: seq<JustificationNotification>, tip: Hash, seen: bool, end: End)
    requires Closed(all) && start in all && handled <= |events|
    requires LoopOk(all, start, stop, events, handled, a, sent, tip, seen, end)
    ensures tip == TipAfter(stop, start, events[..handled])
    ensures Descends(all, start, tip) && (all[tip].number <= stop || tip == start)
    ensures a.signing == HeaderHashes(Path(all, start, tip)) && SentHashes(sent) <= a.signing
            && Numbered(all, start, sent)
    ensures end.OutOfHashes? && NetworkStaysOpen(events) ==> SentHashes(sent) == a.signing && all[tip].number >= stop
    ensures if handled > 0 then EndFits(end, events[handled - 1]) else end.StillRunning?
  {
  }

  lemma StartIsOk(all: Headers, start: Hash, stop: nat, events: seq<Event>)
    requires ClientGrows(all, start, events)
    ensures LoopOk(all, start, stop, events, 0, EMPTY, [], start, false, StillRunning)
  {
    assert LinkOk(all, start);
  }

  // ---- Batches do not matter ----

  function ItemsOf(events: seq<Event>): seq<AlephData>
  {
    if events == [] then []
    else ItemsOf(events[..|events| - 1]) + if events[|events| - 1].Batch? then events[|events| - 1].items else []
  }

  /** The views describe a run: item by item, the headers known when its batch was read. */
  ghost predicate Describes(views: seq<View>, events: seq<Event>)
    decreases |events|
  {
    if events == [] then views == []
    else
      var before, last := events[..|events| - 1], events[|events| - 1];
      var n := |ItemsOf(before)|;
      && |views| == |ItemsOf(events)|
      && Describes(views[..n], before)
      && forall i | n <= i < |views| :: views[i].headers == last.headers
  }

  lemma LastApart<T>(a: seq<T>, b: seq<T>, k: nat)
    requires |b| == k + 1
    ensures a + b == (a + b[..k]) + [b[k]]
  {
  }

  lemma {:induction false} BatchOnViews(stop: nat, start: Hash, views: seq<View>, items: seq<AlephData>,
                                        more: seq<View>, batch: seq<AlephData>, headers: Headers)
    requires |views| == |items| && AllNumbered(views) && WellNumbered(headers)
    requires |more| == |batch| && forall i | 0 <= i < |more| :: more[i].headers == headers
    ensures AllNumbered(views + more)
    ensures TipOnViews(views + more, stop, start, items + batch) ==
            Tip(headers, stop, TipOnViews(views, stop, start, items), batch)
    decreases |batch|
  {
    if batch == [] {
      assert views + more == views && items + batch == items;
    } else {
      var k := |batch| - 1;
      BatchOnViews(stop, start, views, items, more[..k], batch[..k], headers);
      OneOnViews(stop, start, views + more[..k], items + batch[..k], more[k], batch[k]);
      LastApart(views, more, k);
      LastApart(items, batch, k);
    }
  }

  /** Only the items in their order, and what was known at each, decide where a run ends: not how they were split. */
  lemma {:induction false} BatchingIsNeutral(stop: nat, start: Hash, events: seq<Event>, views: seq<View>)
    requires Describes(views, events)
    ensures |views| == |ItemsOf(events)| && AllNumbered(views)
    ensures TipAfter(stop, start, events) == TipOnViews(views, stop, start, ItemsOf(events))
  {
    if events != [] {
      var before, last := events[..|events| - 1], events[|events| - 1];
      var n := |ItemsOf(before)|;
      BatchingIsNeutral(stop, start, before, views[..n]);
      if last.Batch? {
        BatchOnViews(stop, start, views[..n], ItemsOf(before), views[n..], last.items, last.headers);
        assert views[..n] + views[n..] == views;
      } else {
        assert views[..n] == views && ItemsOf(before) == ItemsOf(events);
      }
    }
  }

  /**
   So a node that starts at a block `g` of the session's chain and reads its items in batches, with a client that
   knows only part of the tree, ends where a reader of the whole tree ends.
   */
  lemma RunFollowsTheTree(all: Headers, stop: nat, root: Hash, g: Hash, events: seq<Event>, views: seq<View>)
    requires Closed(all) && root in all && OnChain(all, stop, root, ItemsOf(events), g)
    requires Describes(views, events) && |views| == |ItemsOf(events)|
    requires GoodViews(all, stop, root, views, ItemsOf(events), g)
    ensures TipAfter(stop, g, events) == Tip(all, stop, g, ItemsOf(events))
    ensures TipAfter(stop, g, events) == Later(all, g, Tip(all, stop, root, ItemsOf(events)))
  {
    var n := |views|;
    BatchingIsNeutral(stop, g, events, views);
    PartialViewAgrees(all, stop, root, g, views, ItemsOf(events), n);
    LateStarterAgrees(all, stop, root, g, ItemsOf(events), n);
    assert views[..n] == views && ItemsOf(events)[..n] == ItemsOf(events);
  }
}
