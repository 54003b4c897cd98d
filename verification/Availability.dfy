/** What the plain store promises over whole runs: nothing lost, a bounded window, and release when blocks arrive. */
module Availability {
  import opened BlockTree
  import opened NaiveStore
  import opened Lists
  import opened Ranges

  // ---- The invariant of runs ----

  /** An entry waits for blocks of its message, and has slack only if the message repeats a block. */
  ghost predicate EntryOk(e: Entry) {
    && Waits(e)
    && e.missing <= Elements(e.message.blocks)
    && (Distinct(e.message.blocks) ==> e.extra == 0)
  }

  ghost predicate StoreOk(s: Store) {
    InWindow(s) && forall id | id in s.pending :: EntryOk(s.pending[id])
  }

  lemma {:induction false} LackingIsPart(client: Client, bs: seq<AlephData>)
    ensures forall b :: b in Lacking(client, bs) <==> b in bs && !Available(client, b)
    ensures Distinct(bs) ==> Distinct(Lacking(client, bs))
  {
    if bs != [] {
      var rest, b := bs[..|bs| - 1], bs[|bs| - 1];
      assert bs == rest + [b];
      LackingIsPart(client, rest);
      DistinctPrefix(bs, rest, b);
      DistinctPrefix(Lacking(client, rest) + [b], Lacking(client, rest), b);
    }
  }

  lemma NewEntryOk(message: Message, client: Client)
    requires Lacking(client, message.blocks) != []
    ensures EntryOk(NewEntry(message, Lacking(client, message.blocks)))
  {
    var lacking := Lacking(client, message.blocks);
    LackingIsPart(client, message.blocks);
    ElementsBound(lacking);
    assert lacking[0] in Elements(lacking);
  }

  lemma SomeLeft(missing: set<AlephData>, bs: set<AlephData>)
    ensures missing <= bs <==> missing - bs == {}
  {
    forall b | b in missing && b !in bs ensures b in missing - bs {
    }
  }

  lemma NextOk(s: Store, e: Event)
    requires StoreOk(s)
    ensures StoreOk(Next(s, e))
  {
    var bs := Supplied(s, e);
    var t := Supply(s, bs);
    forall id | id in t.pending ensures EntryOk(t.pending[id]) {
      assert EntryOk(s.pending[id]);
      SomeLeft(s.pending[id].missing, bs);
    }
    if e.Received? && Lacking(e.client, e.message.blocks) != [] {
      NewEntryOk(e.message, e.client);
      OneExpires(t, NewEntry(e.message, Lacking(e.client, e.message.blocks)), t.next - MESSAGE_ID_BOUNDARY);
    }
  }

  lemma {:induction false} RunOk(events: seq<Event>)
    ensures StoreOk(After(events))
  {
    if events != [] {
      RunOk(events[..|events| - 1]);
      NextOk(After(events[..|events| - 1]), events[|events| - 1]);
    }
  }

  // ---- The window ----

  /** At most `MESSAGE_ID_BOUNDARY` messages wait, and their ids are the latest. */
  lemma WindowBounds(events: seq<Event>)
    ensures |After(events).pending| <= 100_000
    ensures forall id | id in After(events).pending :: After(events).next - 100_000 <= id < After(events).next
  {
    RunOk(events);
    var s := After(events);
    var from := if s.next >= MESSAGE_ID_BOUNDARY then s.next - MESSAGE_ID_BOUNDARY else 0;
    IntervalBound(s.pending.Keys, from, MESSAGE_ID_BOUNDARY);
  }

  // ---- Conservation ----

  /** The messages that wait. */
  function Content(s: Store): map<MessageId, Message>
  {
    map id | id in s.pending :: s.pending[id].message
  }

  function Incoming(e: Event): multiset<Message>
  {
    if e.Received? then multiset{e.message} else multiset{}
  }

  /** The message that leaves the window when another one is inserted, if it still waits. */
  function Expelled(s: Store): multiset<Message>
  {
    var expired: int := s.next - MESSAGE_ID_BOUNDARY;
    if expired >= 0 && expired in s.pending then multiset{s.pending[expired].message} else multiset{}
  }

  /** The message that the window gives up, if any. */
  function GivenUp(s: Store, e: Event): multiset<Message>
  {
    if e.Received? && Lacking(e.client, e.message.blocks) != [] then Expelled(Supply(s, Supplied(s, e))) else multiset{}
  }

  function AllIncoming(events: seq<Event>): multiset<Message>
  {
    if events == [] then multiset{} else AllIncoming(events[..|events| - 1]) + Incoming(events[|events| - 1])
  }

  function AllEmitted(events: seq<Event>): multiset<Message>
  {
    if events == [] then multiset{}
    else AllEmitted(events[..|events| - 1]) + Emitted(After(events[..|events| - 1]), events[|events| - 1])
  }

  function AllGivenUp(events: seq<Event>): multiset<Message>
  {
    if events == [] then multiset{}
    else AllGivenUp(events[..|events| - 1]) + GivenUp(After(events[..|events| - 1]), events[|events| - 1])
  }

  lemma SupplySplits(s: Store, bs: set<AlephData>)
    ensures Messages(Content(s), s.next) == Messages(Content(Supply(s, bs)), s.next) + Messages(Freed(s, bs), s.next)
  {
    assert Content(s) == Content(Supply(s, bs)) + Freed(s, bs);
    MessagesUnion(Content(Supply(s, bs)), Freed(s, bs), s.next);
  }

  lemma GrownKeeps(s: Store, e: Entry, bound: nat)
    requires InWindow(s) && bound == s.next + 1
    ensures Messages(Content(Store(bound, s.pending[s.next := e])), bound) ==
            Messages(Content(s), s.next) + multiset{e.message}
  {
    assert Content(Store(bound, s.pending[s.next := e])) == Content(s)[s.next := e.message];
    MessagesOne(Content(s), s.next, e.message, bound);
    assert Messages(Content(s), bound) == Messages(Content(s), s.next);
  }

  lemma ForgottenContent(s: Store, id: MessageId)
    ensures id !in Content(Forget(s, id))
    ensures Content(s) == if id in s.pending then Content(Forget(s, id))[id := s.pending[id].message]
            else Content(Forget(s, id))
  {
  }

  lemma ForgetKeeps(s: Store, id: MessageId, bound: nat)
    requires id < bound
    ensures Messages(Content(Forget(s, id)), bound) +
            (if id in s.pending then multiset{s.pending[id].message} else multiset{}) == Messages(Content(s), bound)
  {
    ForgottenContent(s, id);
    if id in s.pending {
      MessagesOne(Content(Forget(s, id)), id, s.pending[id].message, bound);
    }
  }

  lemma ExpiryKeeps(s: Store, e: Entry, grown: Store, expired: nat)
    requires InWindow(s) && grown == Store(s.next + 1, s.pending[s.next := e])
    requires expired + MESSAGE_ID_BOUNDARY == s.next
    ensures Messages(Content(Forget(grown, expired)), grown.next) + Expelled(s) ==
            Messages(Content(s), s.next) + multiset{e.message}
  {
    GrownKeeps(s, e, grown.next);
    ForgetKeeps(grown, expired, grown.next);
  }

  lemma InsertKeeps(s: Store, e: Entry)
    requires InWindow(s)
    ensures Messages(Content(Insert(s, e)), Insert(s, e).next) + Expelled(s) ==
            Messages(Content(s), s.next) + multiset{e.message}
  {
    var expired: int := s.next - MESSAGE_ID_BOUNDARY;
    var grown := Store(s.next + 1, s.pending[s.next := e]);
    OneExpires(s, e, expired);
    if expired >= 0 {
      assert Insert(s, e) == Forget(grown, expired);
      ExpiryKeeps(s, e, grown, expired);
    } else {
      assert Insert(s, e) == grown;
      GrownKeeps(s, e, grown.next);
    }
  }

  /** A message that has to wait takes the place of the one the window gives up. */
  lemma WaitingConserves(s: Store, e: Event)
    requires StoreOk(s) && e.Received? && Lacking(e.client, e.message.blocks) != []
    ensures var t := Supply(s, Supplied(s, e));
            Messages(Content(Next(s, e)), Next(s, e).next) + GivenUp(s, e) == Messages(Content(t), t.next) + Incoming(e)
  {
    InsertKeeps(Supply(s, Supplied(s, e)), NewEntry(e.message, Lacking(e.client, e.message.blocks)));
  }

  lemma WaitingBalances(s: Store, e: Event)
    requires StoreOk(s) && e.Received? && Lacking(e.client, e.message.blocks) != []
    ensures Messages(Content(s), s.next) + Incoming(e) ==
            Messages(Content(Next(s, e)), Next(s, e).next) + Emitted(s, e) + GivenUp(s, e)
  {
    var t := Supply(s, Supplied(s, e));
    var freed := Messages(Freed(s, Supplied(s, e)), s.next);
    SupplySplits(s, Supplied(s, e));
    WaitingConserves(s, e);
    assert Emitted(s, e) == freed;
    Reorder(Messages(Content(t), t.next), freed, Incoming(e), Messages(Content(Next(s, e)), Next(s, e).next),
      GivenUp(s, e));
  }

  lemma NextConserves(s: Store, e: Event)
    requires StoreOk(s)
    ensures Messages(Content(s), s.next) + Incoming(e) ==
            Messages(Content(Next(s, e)), Next(s, e).next) + Emitted(s, e) + GivenUp(s, e)
  {
    if e.Received? && Lacking(e.client, e.message.blocks) != [] {
      WaitingBalances(s, e);
    } else {
      SupplySplits(s, Supplied(s, e));
    }
  }

  lemma Reorder(waiting: multiset<Message>, freed: multiset<Message>, incoming: multiset<Message>,
                there: multiset<Message>, dropped: multiset<Message>)
    requires there + dropped == waiting + incoming
    ensures waiting + freed + incoming == there + freed + dropped
  {
    forall m: Message ensures (waiting + freed + incoming)[m] == (there + freed + dropped)[m] {
      assert (there + dropped)[m] == (waiting + incoming)[m];
    }
  }

  /** Every message received is emitted once, still waits, or was given up: nothing is lost, made up or doubled. */
  lemma {:induction false} Conservation(events: seq<Event>)
    ensures AllIncoming(events) ==
            AllEmitted(events) + Messages(Content(After(events)), After(events).next) + AllGivenUp(events)
  {
    if events != [] {
      var before, e := events[..|events| - 1], events[|events| - 1];
      Conservation(before);
      RunOk(before);
      NextConserves(After(before), e);
      Balance(AllIncoming(before), AllEmitted(before), AllGivenUp(before),
              Messages(Content(After(before)), After(before).next), Incoming(e), Emitted(After(before), e),
                GivenUp(After(before), e),
              Messages(Content(After(events)), After(events).next));
    }
  }

  lemma Balance(received: multiset<Message>, sent: multiset<Message>, dropped: multiset<Message>,
                here: multiset<Message>,
                incoming: multiset<Message>, emitted: multiset<Message>, given: multiset<Message>,
                  there: multiset<Message>)
    requires received == sent + here + dropped
    requires here + incoming == there + emitted + given
    ensures received + incoming == (sent + emitted) + there + (dropped + given)
  {
    forall m: Message ensures (received + incoming)[m] == ((sent + emitted) + there + (dropped + given))[m] {
      assert (here + incoming)[m] == (there + emitted + given)[m];
    }
  }

  // ---- Release ----

  /** After maintenance no waiting message with distinct blocks has all its blocks available. */
  lemma MaintenanceReleases(events: seq<Event>, client: Client, id: MessageId)
    requires id in After(events + [Maintenance(client)]).pending
    ensures var m := After(events + [Maintenance(client)]).pending[id].message;
            Distinct(m.blocks) ==> exists b :: b in m.blocks && !Available(client, b)
  {
    RunOk(events);
    assert (events + [Maintenance(client)])[..|events|] == events;
    var s := After(events);
    var e := s.pending[id];
    assert EntryOk(e);
    if e.extra == 0 {
      var b :| b in e.missing && b !in AvailableWanted(s, client);
      assert b in Wanted(s);
    }
  }

  /** The message with this id goes out at event `j`. */
  ghost predicate GoesOut(events: seq<Event>, j: nat, id: MessageId)
    requires j < |events|
  {
    id in Freed(After(events[..j]), Supplied(After(events[..j]), events[j]))
  }

  ghost predicate GoneOut(events: seq<Event>, i: nat, id: MessageId) {
    exists j {:trigger GoesOut(events, j, id)} :: i < j < |events| && GoesOut(events, j, id)
  }

  /** Event `i` brings a message that has to wait, and gives it this id. */
  ghost predicate Begins(events: seq<Event>, i: nat, id: MessageId) {
    && i < |events| && events[i].Received? && Lacking(events[i].client, events[i].message.blocks) != []
    && id == After(events[..i]).next
  }

  /** What an event does to a waiting message: it goes out, is pushed out of the window, or waits on. */
  lemma NextFate(s: Store, e: Event, id: MessageId)
    requires InWindow(s)
    ensures id in s.pending ==>
              var t := Next(s, e);
              (id in t.pending <==> id !in Freed(s, Supplied(s, e)) && t.next <= id + MESSAGE_ID_BOUNDARY)
              && (id in t.pending ==>
                    t.pending[id] == s.pending[id].(missing := s.pending[id].missing - Supplied(s, e)))
    ensures id < s.next && id !in s.pending ==> id !in Next(s, e).pending && id !in Freed(s, Supplied(s, e))
    ensures s.next <= Next(s, e).next
  {
  }

  lemma GoneOutLater(events: seq<Event>, i: nat, id: MessageId)
    requires |events| > 0 && i < |events| - 1
    ensures GoneOut(events, i, id) <==>
              GoneOut(events[..|events| - 1], i, id) || GoesOut(events, |events| - 1, id)
  {
    var before := events[..|events| - 1];
    forall j | 0 <= j < |before| ensures GoesOut(before, j, id) <==> GoesOut(events, j, id) {
      assert before[..j] == events[..j];
    }
  }

  /** In any run, a message still waits exactly as long as it has neither gone out nor left the window. */
  lemma {:induction false} Fate(events: seq<Event>, i: nat, id: MessageId)
    requires Begins(events, i, id)
    ensures var s, e := After(events), NewEntry(events[i].message, Lacking(events[i].client, events[i].message.blocks));
            && id < s.next
            && (id in s.pending <==> !GoneOut(events, i, id) && s.next <= id + MESSAGE_ID_BOUNDARY)
            && (id in s.pending ==>
                  s.pending[id].message == e.message && s.pending[id].extra == e.extra
                  && s.pending[id].missing <= e.missing)
  {
    var before, last := events[..|events| - 1], events[|events| - 1];
    RunOk(before);
    if i == |events| - 1 {
      assert events[..i] == before;
      assert !GoneOut(events, i, id);
    } else {
      assert before[..i] == events[..i];
      Fate(before, i, id);
      NextFate(After(before), last, id);
      GoneOutLater(events, i, id);
    }
  }

  lemma NothingExtra(blocks: seq<AlephData>)
    ensures |blocks| - |Elements(blocks)| == 0 <==> Distinct(blocks)
  {
    ElementsBound(blocks);
  }

  /** A message that had a block missing twice never goes out in any run: it waits until the window leaves it behind. */
  lemma RepeatsHoldForEver(events: seq<Event>, i: nat, id: MessageId)
    requires Begins(events, i, id) && !Distinct(Lacking(events[i].client, events[i].message.blocks))
    ensures !GoneOut(events, i, id)
    ensures id in After(events).pending <==> After(events).next <= id + MESSAGE_ID_BOUNDARY
  {
    forall j | i < j < |events| ensures !GoesOut(events, j, id) {
      assert events[..j][..i] == events[..i];
      Fate(events[..j], i, id);
      NothingExtra(Lacking(events[i].client, events[i].message.blocks));
    }
    Fate(events, i, id);
  }

  /** After maintenance, what is still missing of a waiting message without slack is not available. */
  lemma MaintenanceSupplies(s: Store, client: Client, id: MessageId)
    requires StoreOk(s) && id in Next(s, Maintenance(client)).pending && s.pending[id].extra == 0
    ensures exists b :: b in s.pending[id].missing && !Available(client, b)
  {
    var b :| b in s.pending[id].missing && b !in AvailableWanted(s, client);
    assert b in Wanted(s);
  }

  /**
   In any run, once all its blocks are available and maintenance has run, a message that had to wait has gone out
   exactly when none of the blocks it lacked was named twice, provided the window has not left it behind.
   */
  lemma ReleasedIffNoRepeats(events: seq<Event>, i: nat, id: MessageId, later: Client)
    requires Begins(events, i, id)
    requires i < |events| - 1 && events[|events| - 1] == Maintenance(later)
    requires forall b | b in events[i].message.blocks :: Available(later, b)
    requires After(events).next <= id + MESSAGE_ID_BOUNDARY
    ensures GoneOut(events, i, id) <==> Distinct(Lacking(events[i].client, events[i].message.blocks))
  {
    var before, lacking := events[..|events| - 1], Lacking(events[i].client, events[i].message.blocks);
    Fate(events, i, id);
    NothingExtra(lacking);
    LackingIsPart(events[i].client, events[i].message.blocks);
    if id in After(events).pending && Distinct(lacking) {
      RunOk(before);
      assert before[..i] == events[..i];
      Fate(before, i, id);
      NextFate(After(before), Maintenance(later), id);
      MaintenanceSupplies(After(before), later, id);
    } else if id !in After(events).pending && !Distinct(lacking) {
      RepeatsHoldForEver(events, i, id);
    }
  }

  // ---- When a message goes out ----

  /** The event tells the store that the block is there. */
  predicate Brings(e: Event, b: AlephData)
  {
    match e
    case Received(message, client) => b in message.blocks && Available(client, b)
    case Imported(block, _) => b == block
    case Maintenance(client) => Available(client, b)
  }

  ghost predicate BroughtSince(events: seq<Event>, i: nat, b: AlephData) {
    exists j {:trigger events[j]} :: i < j < |events| && Brings(events[j], b)
  }

  /** Of what a message misses, an event supplies exactly what it brings. */
  lemma SuppliedIsBrought(s: Store, e: Event, id: MessageId, b: AlephData)
    requires id in s.pending && b in s.pending[id].missing
    ensures b in Supplied(s, e) <==> Brings(e, b)
  {
    assert b in Wanted(s);
  }

  /** Whatever kind the event is: no message misses what it brings, and one that misses nothing else goes out. */
  lemma EventReleases(events: seq<Event>, e: Event, id: MessageId)
    requires var s := After(events); id in s.pending || id in After(events + [e]).pending
    ensures var s, t := After(events), After(events + [e]);
            && (id in t.pending ==> forall b | b in t.pending[id].missing :: !Brings(e, b))
            && (id in s.pending && s.pending[id].extra == 0 && (forall b | b in s.pending[id].missing :: Brings(e, b))
                ==> id !in t.pending && s.pending[id].message in Outs(events + [e])[|events|])
  {
    var s, more := After(events), events + [e];
    assert more[..|events|] == events;
    RunOk(events);
    if e.Received? {
      LackingIsPart(e.client, e.message.blocks);
    }
    if id in s.pending {
      forall b | b in s.pending[id].missing ensures b in Supplied(s, e) <==> Brings(e, b) {
        SuppliedIsBrought(s, e, id, b);
      }
      NextFate(s, e, id);
      if Completed(s.pending[id], Supplied(s, e)) {
        MessagesHave(Freed(s, Supplied(s, e)), s.next, id);
      }
      OutsAt(more, |events|);
    }
  }

  lemma {:induction false} MessagesHave(f: map<MessageId, Message>, bound: nat, id: MessageId)
    requires id in f && id < bound
    ensures f[id] in Messages(f, bound)
  {
    if id < bound - 1 {
      MessagesHave(f, bound - 1, id);
    }
  }

  lemma BroughtLater(events: seq<Event>, i: nat, b: AlephData)
    requires |events| > 0 && i < |events| - 1
    ensures BroughtSince(events, i, b) <==>
              BroughtSince(events[..|events| - 1], i, b) || Brings(events[|events| - 1], b)
  {
    var before := events[..|events| - 1];
    forall j | i < j < |before| ensures before[j] == events[j] {
    }
    if BroughtSince(before, i, b) {
      var j :| i < j < |before| && Brings(before[j], b);
      assert Brings(events[j], b);
    }
    if BroughtSince(events, i, b) && !Brings(events[|events| - 1], b) {
      var j :| i < j < |events| && Brings(events[j], b);
      assert Brings(before[j], b);
    }
  }

  /** What a waiting message still misses is what it lacked when it came and no event has brought since. */
  lemma {:induction false} MissingSince(events: seq<Event>, i: nat, id: MessageId, b: AlephData)
    requires Begins(events, i, id) && id in After(events).pending
    ensures b in After(events).pending[id].missing <==>
              b in Lacking(events[i].client, events[i].message.blocks) && !BroughtSince(events, i, b)
  {
    var before, last := events[..|events| - 1], events[|events| - 1];
    RunOk(before);
    if i == |events| - 1 {
      assert events[..i] == before;
    } else {
      assert before[..i] == events[..i] && before[i] == events[i];
      Fate(before, i, id);
      NextFate(After(before), last, id);
      MissingSince(before, i, id, b);
      BroughtLater(events, i, b);
      if b in After(before).pending[id].missing {
        SuppliedIsBrought(After(before), last, id, b);
      }
    }
  }

  lemma LackedIsBrought(events: seq<Event>, i: nat, id: MessageId, j: nat, b: AlephData)
    requires Begins(events, i, id) && i < j < |events| && GoesOut(events, j, id)
    requires b in Lacking(events[i].client, events[i].message.blocks)
    ensures BroughtSince(events, i, b)
  {
    var before := events[..j];
    assert before[..i] == events[..i] && before[i] == events[i];
    MissingSince(before, i, id, b);
    if b in After(before).pending[id].missing {
      SuppliedIsBrought(After(before), events[j], id, b);
    } else {
      var k :| i < k < |before| && Brings(before[k], b);
      assert events[k] == before[k];
    }
  }

  /**
   In any run, a message that had to wait and that the window has not left behind has gone out exactly when none of the
   blocks it lacked was named twice and each of them has been brought since: imported, named by a message when it was
   available, or available at a maintenance pass.
   */
  lemma GoneOutIff(events: seq<Event>, i: nat, id: MessageId)
    requires Begins(events, i, id) && After(events).next <= id + MESSAGE_ID_BOUNDARY
    ensures var lacking := Lacking(events[i].client, events[i].message.blocks);
            GoneOut(events, i, id) <==> Distinct(lacking) && forall b | b in lacking :: BroughtSince(events, i, b)
  {
    var s, lacking := After(events), Lacking(events[i].client, events[i].message.blocks);
    Fate(events, i, id);
    NothingExtra(lacking);
    if id in s.pending {
      RunOk(events);
      assert EntryOk(s.pending[id]);
      if s.pending[id].missing != {} {
        var b :| b in s.pending[id].missing;
        MissingSince(events, i, id, b);
      }
    } else {
      var j :| i < j < |events| && GoesOut(events, j, id);
      if !Distinct(lacking) {
        RepeatsHoldForEver(events, i, id);
      }
      forall b | b in lacking ensures BroughtSince(events, i, b) {
        LackedIsBrought(events, i, id, j, b);
      }
    }
  }

  /** And what goes out is in the output of that event. */
  lemma GoesOutIsSent(events: seq<Event>, i: nat, id: MessageId, j: nat)
    requires Begins(events, i, id) && i < j < |events| && GoesOut(events, j, id)
    ensures events[i].message in Outs(events)[j]
  {
    var before := events[..j];
    assert before[..i] == events[..i] && before[i] == events[i];
    Fate(before, i, id);
    OutsAt(events, j);
    MessagesHave(Freed(After(before), Supplied(After(before), events[j])), After(before).next, id);
  }

  lemma LackingNothing(client: Client, blocks: seq<AlephData>)
    ensures Lacking(client, blocks) == [] <==> forall b | b in blocks :: Available(client, b)
  {
    LackingIsPart(client, blocks);
    if Lacking(client, blocks) != [] {
      assert Lacking(client, blocks)[0] in blocks;
    }
  }

  /** A message goes out as it comes exactly when all its blocks are available; otherwise it begins to wait. */
  lemma AtOnceIff(events: seq<Event>, message: Message, client: Client)
    ensures var e, s := Received(message, client), After(events);
            var available := forall b | b in message.blocks :: Available(client, b);
            && Outs(events + [e])[|events|] ==
               Messages(Freed(s, Supplied(s, e)), s.next) + (if available then multiset{message} else multiset{})
            && (Begins(events + [e], |events|, s.next) <==> !available)
  {
    var e := Received(message, client);
    var more := events + [e];
    assert more[..|events|] == events && more[|events|] == e;
    LackingNothing(client, message.blocks);
    OutsAt(more, |events|);
  }

  // ---- What goes out is available ----

  /** All blocks of a waiting message but the missing ones are available. */
  ghost predicate RestAvailable(e: Entry, client: Client) {
    forall b | b in e.message.blocks && b !in e.missing :: Available(client, b)
  }

  ghost predicate RestsAvailable(s: Store, client: Client) {
    forall id | id in s.pending :: RestAvailable(s.pending[id], client)
  }

  /** What an event supplies is available, in the client's view at that event. */
  lemma SuppliedIsAvailable(s: Store, e: Event)
    requires Announced(e)
    ensures forall b | b in Supplied(s, e) :: Available(e.client, b)
  {
  }

  lemma {:induction false} MessagesFrom(f: map<MessageId, Message>, bound: nat)
    ensures forall m | m in Messages(f, bound) :: exists id :: id in f && f[id] == m
  {
    if bound > 0 {
      MessagesFrom(f, bound - 1);
    }
  }

  lemma FreedIsAvailable(s: Store, e: Event, m: Message)
    requires RestsAvailable(s, e.client) && Announced(e) && m in Messages(Freed(s, Supplied(s, e)), s.next)
    ensures forall b | b in m.blocks :: Available(e.client, b)
  {
    var freed := Freed(s, Supplied(s, e));
    MessagesFrom(freed, s.next);
    SuppliedIsAvailable(s, e);
    var id :| id in freed && freed[id] == m;
    assert RestAvailable(s.pending[id], e.client);
  }

  lemma NextEmitsAvailable(s: Store, e: Event, m: Message)
    requires RestsAvailable(s, e.client) && Announced(e) && m in Emitted(s, e)
    ensures forall b | b in m.blocks :: Available(e.client, b)
  {
    if m in Messages(Freed(s, Supplied(s, e)), s.next) {
      FreedIsAvailable(s, e, m);
    } else {
      LackingIsPart(e.client, e.message.blocks);
    }
  }

  lemma NextRestsAvailable(s: Store, e: Event)
    requires RestsAvailable(s, e.client) && Announced(e)
    ensures RestsAvailable(Next(s, e), e.client)
  {
    SuppliedIsAvailable(s, e);
    if e.Received? {
      LackingIsPart(e.client, e.message.blocks);
    }
    forall id | id in Next(s, e).pending ensures RestAvailable(Next(s, e).pending[id], e.client) {
      if id in s.pending {
        assert RestAvailable(s.pending[id], e.client);
      }
    }
  }

  lemma {:induction false} RestsStayAvailable(events: seq<Event>, client: Client)
    requires ClientGrows(events) && (events != [] ==> Grows(events[|events| - 1].client, client))
    ensures RestsAvailable(After(events), client)
  {
    if events != [] {
      var before, last := events[..|events| - 1], events[|events| - 1];
      ClientGrowsBefore(events, |events| - 1);
      RestsStayAvailable(before, last.client);
      NextRestsAvailable(After(before), last);
      forall id | id in After(events).pending ensures RestAvailable(After(events).pending[id], client) {
        assert RestAvailable(After(events).pending[id], last.client);
      }
    }
  }

  lemma ClientGrowsBefore(events: seq<Event>, k: nat)
    requires ClientGrows(events) && k < |events|
    ensures ClientGrows(events[..k]) && Announced(events[k])
    ensures k > 0 ==> Grows(events[..k][k - 1].client, events[k].client)
  {
    var before := events[..k];
    forall i | 0 <= i < k ensures Announced(before[i]) {
      assert before[i] == events[i] && Announced(events[i]);
    }
    forall i | 0 < i < k ensures Grows(before[i - 1].client, before[i].client) {
      assert Grows(events[i - 1].client, events[i].client);
    }
    assert Announced(events[k]);
    assert k > 0 ==> Grows(events[k - 1].client, events[k].client);
  }

  lemma {:induction false} OutsAt(events: seq<Event>, k: nat)
    requires k < |events|
    ensures Outs(events)[k] == Emitted(After(events[..k]), events[k])
  {
    var before, last := events[..|events| - 1], events[|events| - 1];
    assert Outs(events) == Outs(before) + [Emitted(After(before), last)];
    if k < |before| {
      OutsAt(before, k);
      assert before[..k] == events[..k] && before[k] == events[k];
    } else {
      assert events[..k] == before;
    }
  }

  /** Whatever a run sends on, all its blocks are available to the client at that event. */
  lemma EmittedIsAvailable(events: seq<Event>, k: nat, m: Message, b: AlephData)
    requires ClientGrows(events) && k < |events|
    requires m in Outs(events)[k] && b in m.blocks
    ensures Available(events[k].client, b)
  {
    OutsAt(events, k);
    ClientGrowsBefore(events, k);
    RestsStayAvailable(events[..k], events[k].client);
    NextEmitsAvailable(After(events[..k]), events[k], m);
  }

  // ---- When what goes out is imported ----

  /** Some run whose last event sees this client sends, at that event, a message that names the block. */
  ghost predicate CanSend(client: Client, b: AlephData) {
    exists events: seq<Event>, m: Message {:trigger Sends(events, client, m, b)} :: Sends(events, client, m, b)
  }

  ghost predicate Sends(events: seq<Event>, client: Client, m: Message, b: AlephData) {
    && events != [] && ClientGrows(events) && events[|events| - 1].client == client
    && m in Outs(events)[|events| - 1] && b in m.blocks
  }

  /** A message that names one available block goes out as it comes. */
  lemma SentAtOnce(b: AlephData, content: nat, client: Client)
    requires Available(client, b)
    ensures Sends([Received(Message(content, [b]), client)], client, Message(content, [b]), b)
  {
    var m := Message(content, [b]);
    var e := Received(m, client);
    assert [e][..0] == [] && [b][..0] == [];
    assert Lacking(client, [b]) == [];
    assert m in Emitted(After([]), e);
    assert Outs([e]) == Outs([]) + [Emitted(After([]), e)];
    assert ClientGrows([e]);
  }

  /** What a client's data store can send on is exactly what is available to the client. */
  lemma SentIffAvailable(client: Client, b: AlephData)
    ensures CanSend(client, b) <==> Available(client, b)
  {
    if events, m :| Sends(events, client, m, b) {
      EmittedIsAvailable(events, |events| - 1, m, b);
    }
    if Available(client, b) {
      SentAtOnce(b, 0, client);
    }
  }

  /** A block in a message sent on is sure to be imported exactly when it is imported or above the finalized number. */
  lemma ImportedIff(client: Client, b: AlephData)
    ensures (CanSend(client, b) ==> b.hash in client.known) <==> b.hash in client.known || b.number > client.finalized
  {
    SentIffAvailable(client, b);
  }

  /** In any run: all blocks of a message sent on are imported exactly when none is unknown but low enough. */
  lemma SentIsImported(events: seq<Event>, k: nat, m: Message)
    requires ClientGrows(events) && k < |events| && m in Outs(events)[k]
    ensures (forall b | b in m.blocks :: b.hash in events[k].client.known)
            <==> forall b | b in m.blocks && b.hash !in events[k].client.known :: b.number > events[k].client.finalized
  {
    forall b | b in m.blocks ensures Available(events[k].client, b) {
      EmittedIsAvailable(events, k, m, b);
    }
  }

  /** One that is unknown, and not above the finalized number: the message goes out all the same. */
  lemma UnknownBlockIsSent(x: AlephData, content: nat, client: Client)
    requires x.hash !in client.known && x.number <= client.finalized
    ensures Outs([Received(Message(content, [x]), client)]) == [multiset{Message(content, [x])}]
  {
    var m := Message(content, [x]);
    var e := Received(m, client);
    assert [e][..0] == [] && [x][..0] == [];
    assert Lacking(client, [x]) == [];
    assert After([]) == EMPTY && Outs([]) == [];
    assert Emitted(EMPTY, e) == multiset{m};
    assert Outs([e]) == Outs([]) + [Emitted(After([]), e)];
  }

  // ---- A run that is stuck ----

  lemma StuckArrives(x: AlephData, m: Message, c: Client)
    requires m.blocks == [x, x] && !Available(c, x)
    ensures Next(EMPTY, Received(m, c)) == Store(1, map[0 := Entry(m, {x}, 1)])
    ensures Emitted(EMPTY, Received(m, c)) == multiset{}
  {
    assert [x, x][..1] == [x] && [x][..0] == [];
    assert Lacking(c, [x]) == [x];
    assert Lacking(c, [x, x]) == [x, x];
    assert Elements([x, x]) == {x};
    assert Supply(EMPTY, Supplied(EMPTY, Received(m, c))) == EMPTY;
    assert Insert(EMPTY, Entry(m, {x}, 1)).pending == map[0 := Entry(m, {x}, 1)];
  }

  lemma StuckStays(s: Store, m: Message, missing: set<AlephData>, e: Event)
    requires s == Store(1, map[0 := Entry(m, missing, 1)]) && !e.Received?
    ensures Next(s, e) == Store(1, map[0 := Entry(m, missing - Supplied(s, e), 1)])
    ensures Emitted(s, e) == multiset{}
  {
    assert Next(s, e).pending == map[0 := Entry(m, missing - Supplied(s, e), 1)];
    assert Freed(s, Supplied(s, e)) == map[];
    MessagesNone(1);
  }

  /** A message that names one unknown block twice: the block comes, maintenance runs, and it still waits. */
  lemma RepeatedBlockIsStuck(x: AlephData, content: nat, known: set<Hash>)
    requires x.hash !in known && x.number > 0
    ensures var m := Message(content, [x, x]);
            var c, d := Client(known, 0), Client(known + {x.hash}, 0);
            var events := [Received(m, c), Imported(x, d), Maintenance(d)];
            && AllEmitted(events) == multiset{}
            && Content(After(events)) == map[0 := m]
            && forall b | b in m.blocks :: Available(d, b)
  {
    var m := Message(content, [x, x]);
    var c, d := Client(known, 0), Client(known + {x.hash}, 0);
    var e0, e1, e2 := Received(m, c), Imported(x, d), Maintenance(d);
    var events := [e0, e1, e2];
    assert events[..2] == [e0, e1] && [e0, e1][..1] == [e0] && [e0][..0] == [];
    StuckArrives(x, m, c);
    assert After([e0]) == Next(EMPTY, e0) && AllEmitted([e0]) == multiset{};
    StuckStays(After([e0]), m, {x}, e1);
    assert After([e0, e1]) == Next(After([e0]), e1) && AllEmitted([e0, e1]) == multiset{};
    StuckStays(After([e0, e1]), m, {x} - {x}, e2);
    assert After(events) == Next(After([e0, e1]), e2);
  }
}
