/**
 The counting index inside `DataStore` (data_io.rs): a reverse index from blocks to waiting messages, and a counter
 for each message. What its changes mean for the plain store it stands for.
 */
module DataIndex {
  import opened BlockTree
  import opened NaiveStore

  datatype Index = Index(
    next: MessageId,
    dependents: map<AlephData, set<MessageId>>,
    requirements: map<MessageId, nat>,
    pending: map<MessageId, Message>)

  /** The blocks under which the index still lists a message. */
  function Missing(dependents: map<AlephData, set<MessageId>>, id: MessageId): set<AlephData>
  {
    set b | b in dependents && id in dependents[b]
  }

  /**
   The counting invariant for one message: its counter is positive, and is the number of blocks that still list it,
   all of them its own, plus the slack left by repeats.
   */
  ghost predicate Tracks(ix: Index, s: Store, id: MessageId) {
    && id in ix.pending && id in ix.requirements && id in s.pending
    && id < ix.next
    && s.pending[id].message == ix.pending[id]
    && s.pending[id].missing == Missing(ix.dependents, id)
    && s.pending[id].missing <= Elements(ix.pending[id].blocks)
    && ix.requirements[id] == |s.pending[id].missing| + s.pending[id].extra
    && ix.requirements[id] > 0
  }

  /** A listed set is not empty and lists pending messages only. */
  predicate ListsPending(ix: Index, b: AlephData)
  {
    b in ix.dependents ==> ix.dependents[b] != {} && ix.dependents[b] <= ix.pending.Keys
  }

  /** The index stands for the plain store `s`. */
  ghost predicate Represents(ix: Index, s: Store)
  {
    && s.next == ix.next
    && s.pending.Keys == ix.pending.Keys && ix.requirements.Keys == ix.pending.Keys
    && (forall b {:trigger ListsPending(ix, b)} :: ListsPending(ix, b))
    && (forall id {:trigger Tracks(ix, s, id)} | id in ix.pending :: Tracks(ix, s, id))
  }

  // ---- Taking a block out of the index ----

  /** The message is there and its counter can be decremented. */
  predicate Positive(ix: Index, id: MessageId)
  {
    id < ix.next && id in ix.pending && id in ix.requirements && ix.requirements[id] > 0
  }

  lemma ListedArePositive(ix: Index, s: Store, b: AlephData)
    requires Represents(ix, s) && b in ix.dependents
    ensures forall id | id in ix.dependents[b] :: Positive(ix, id)
  {
    assert ListsPending(ix, b);
    forall id | id in ix.dependents[b] ensures Positive(ix, id) {
      assert Tracks(ix, s, id);
    }
  }

  /** Of `ids`, those whose counter stands at one. */
  function AtOne(ix: Index, ids: set<MessageId>): set<MessageId>
  {
    set id | id in ids && id in ix.requirements && ix.requirements[id] == 1
  }

  /** The messages in `ids` count down by one, and those that reach zero go. */
  function CountedDown(ix: Index, ids: set<MessageId>): Index
  {
    ix.(requirements := map id | id in ix.requirements && id !in AtOne(ix, ids) ::
                          if id in ids && ix.requirements[id] > 0 then ix.requirements[id] - 1 else ix.requirements[id],
        pending := ix.pending - AtOne(ix, ids))
  }

  function Done(ix: Index, ids: set<MessageId>): map<MessageId, Message>
  {
    map id | id in AtOne(ix, ids) && id in ix.pending :: ix.pending[id]
  }

  lemma CountedDownStep(ix: Index, ids: set<MessageId>, id: MessageId)
    requires id !in ids && Positive(ix, id)
    ensures var t, u := CountedDown(ix, ids), CountedDown(ix, ids + {id});
            && id in t.requirements && t.requirements[id] == ix.requirements[id]
            && id in t.pending && t.pending[id] == ix.pending[id]
            && (if ix.requirements[id] == 1 then
                  && u.requirements == t.requirements - {id} && u.pending == t.pending - {id}
                  && id !in Done(ix, ids) && Done(ix, ids + {id}) == Done(ix, ids)[id := ix.pending[id]]
                else
                  && u.requirements == t.requirements[id := ix.requirements[id] - 1] && u.pending == t.pending
                  && Done(ix, ids + {id}) == Done(ix, ids))
  {
    if ix.requirements[id] == 1 {
      assert AtOne(ix, ids + {id}) == AtOne(ix, ids) + {id};
    } else {
      assert AtOne(ix, ids + {id}) == AtOne(ix, ids);
    }
  }

  function Pushed(ix: Index, b: AlephData): Index
    requires b in ix.dependents
  {
    CountedDown(ix, ix.dependents[b]).(dependents := ix.dependents - {b})
  }

  lemma PushedCount(missing: set<AlephData>, count: nat, b: AlephData)
    requires 0 < count && |missing| <= count
    ensures missing <= {b} && |missing| == count <==> b in missing && count == 1
    ensures b in missing ==> |missing - {b}| == |missing| - 1
  {
    if missing <= {b} && count == |missing| {
      assert missing == {b};
    }
    if b in missing && count == 1 {
      assert |missing - {b}| == 0;
      assert missing == {b};
    }
  }

  lemma PushedTracks(ix: Index, s: Store, b: AlephData, id: MessageId)
    requires Represents(ix, s) && b in ix.dependents && id in ix.pending
    ensures id in s.pending && (id in AtOne(ix, ix.dependents[b]) <==> Completed(s.pending[id], {b}))
    ensures id !in AtOne(ix, ix.dependents[b]) ==> Tracks(Pushed(ix, b), Supply(s, {b}), id)
  {
    assert Tracks(ix, s, id);
    var missing := Missing(ix.dependents, id);
    PushedCount(missing, ix.requirements[id], b);
    assert Missing(ix.dependents - {b}, id) == missing - {b};
    if id !in ix.dependents[b] {
      assert missing - {b} == missing;
    }
  }

  lemma PushedLists(ix: Index, s: Store, b: AlephData, c: AlephData)
    requires Represents(ix, s) && b in ix.dependents
    ensures ListsPending(Pushed(ix, b), c)
  {
    assert ListsPending(ix, c);
    if c != b && c in ix.dependents {
      forall id | id in ix.dependents[c] ensures id !in AtOne(ix, ix.dependents[b]) {
        assert Tracks(ix, s, id);
        var missing := Missing(ix.dependents, id);
        assert id in ix.dependents[b] ==> |missing - {b} - {c}| == |missing| - 2;
      }
    }
  }

  /** Counting down the messages listed under a block is supplying that block. */
  lemma PushedRepresents(ix: Index, s: Store, b: AlephData)
    requires Represents(ix, s) && b in ix.dependents
    ensures Represents(Pushed(ix, b), Supply(s, {b}))
  {
    var t, u := Pushed(ix, b), Supply(s, {b});
    forall c ensures ListsPending(t, c) {
      PushedLists(ix, s, b, c);
    }
    forall id | id in ix.pending
      ensures id in t.pending <==> id in u.pending
      ensures id in t.pending ==> Tracks(t, u, id)
    {
      PushedTracks(ix, s, b, id);
    }
    assert u.pending.Keys == t.pending.Keys;
    assert t.requirements.Keys == t.pending.Keys;
  }

  lemma PushedFreed(ix: Index, s: Store, b: AlephData)
    requires Represents(ix, s) && b in ix.dependents
    ensures Freed(s, {b}) == Done(ix, ix.dependents[b])
  {
    forall id | id in ix.pending
      ensures id in AtOne(ix, ix.dependents[b]) <==> Completed(s.pending[id], {b})
      ensures s.pending[id].message == ix.pending[id]
    {
      PushedTracks(ix, s, b, id);
      assert Tracks(ix, s, id);
    }
  }

  lemma UnlistedBlock(ix: Index, s: Store, b: AlephData)
    requires Represents(ix, s) && b !in ix.dependents
    ensures Supply(s, {b}) == s && Freed(s, {b}) == map[]
  {
    forall id | id in s.pending ensures Waits(s.pending[id]) && s.pending[id].missing !! {b} {
      assert Tracks(ix, s, id);
    }
    SupplyUnwanted(s, {b});
  }

  // ---- Forgetting a message ----

  /** Every trace of `id` is gone, and no empty set stays behind. */
  function Forgotten(ix: Index, id: MessageId): Index
  {
    Index(ix.next,
          map b | b in ix.dependents && ix.dependents[b] - {id} != {} :: ix.dependents[b] - {id},
          ix.requirements - {id},
          ix.pending - {id})
  }

  lemma ForgottenRepresents(ix: Index, s: Store, id: MessageId)
    requires Represents(ix, s)
    ensures Represents(Forgotten(ix, id), Forget(s, id))
  {
    var t, u := Forgotten(ix, id), Forget(s, id);
    forall b ensures ListsPending(t, b) {
      assert ListsPending(ix, b);
    }
    forall k | k in t.pending ensures Tracks(t, u, k) {
      assert Tracks(ix, s, k);
      assert Missing(t.dependents, k) == Missing(ix.dependents, k);
    }
  }

  // ---- Adding a message ----

  /** Listing `id` under each of `bs`. */
  function Listed(dependents: map<AlephData, set<MessageId>>, bs: set<AlephData>, id: MessageId)
    : map<AlephData, set<MessageId>>
  {
    map b | b in dependents.Keys + bs ::
      (if b in dependents then dependents[b] else {}) + (if b in bs then {id} else {})
  }

  function Inserted(ix: Index, message: Message, required: seq<AlephData>): Index
  {
    Index(ix.next + 1,
          Listed(ix.dependents, Elements(required), ix.next),
          ix.requirements[ix.next := |required|],
          ix.pending[ix.next := message])
  }

  lemma InsertedMissing(ix: Index, s: Store, bs: set<AlephData>, k: MessageId)
    requires Represents(ix, s) && k <= ix.next
    ensures ix.next !in ix.pending
    ensures Missing(Listed(ix.dependents, bs, ix.next), k) == if k == ix.next then bs else Missing(ix.dependents, k)
  {
    assert ix.next in ix.pending ==> Tracks(ix, s, ix.next);
    forall b | b in ix.dependents ensures ix.next !in ix.dependents[b] {
      assert ListsPending(ix, b);
    }
  }

  lemma InsertedTracks(ix: Index, s: Store, message: Message, required: seq<AlephData>, e: Entry, k: MessageId)
    requires Represents(ix, s) && required != [] && Elements(required) <= Elements(message.blocks)
    requires e.message == message && e.missing == Elements(required) && |required| == |e.missing| + e.extra
    requires k == ix.next || k in ix.pending
    ensures Tracks(Inserted(ix, message, required), Store(ix.next + 1, s.pending[ix.next := e]), k)
  {
    assert k in ix.pending ==> Tracks(ix, s, k);
    InsertedMissing(ix, s, Elements(required), k);
  }

  lemma InsertedTracksAll(ix: Index, s: Store, message: Message, required: seq<AlephData>, e: Entry)
    requires Represents(ix, s) && required != [] && Elements(required) <= Elements(message.blocks)
    requires e.message == message && e.missing == Elements(required) && |required| == |e.missing| + e.extra
    ensures var t, u := Inserted(ix, message, required), Store(ix.next + 1, s.pending[ix.next := e]);
            forall k {:trigger Tracks(t, u, k)} | k in t.pending :: Tracks(t, u, k)
  {
    var t, u := Inserted(ix, message, required), Store(ix.next + 1, s.pending[ix.next := e]);
    forall k | k in t.pending ensures Tracks(t, u, k) {
      InsertedTracks(ix, s, message, required, e, k);
    }
  }

  lemma InsertedLists(ix: Index, s: Store, message: Message, required: seq<AlephData>)
    requires Represents(ix, s)
    ensures var t := Inserted(ix, message, required);
            forall b {:trigger ListsPending(t, b)} :: ListsPending(t, b)
  {
    var t := Inserted(ix, message, required);
    forall b ensures ListsPending(t, b) {
      assert ListsPending(ix, b);
    }
  }

  lemma InsertedKeys(ix: Index, s: Store, message: Message, required: seq<AlephData>, e: Entry)
    requires Represents(ix, s)
    ensures var t, u := Inserted(ix, message, required), Store(ix.next + 1, s.pending[ix.next := e]);
            u.pending.Keys == t.pending.Keys && t.requirements.Keys == t.pending.Keys
  {
    assert Inserted(ix, message, required).pending.Keys == ix.pending.Keys + {ix.next};
    assert Inserted(ix, message, required).requirements.Keys == ix.requirements.Keys + {ix.next};
  }

  lemma PartsRepresent(ix: Index, s: Store)
    requires s.next == ix.next && s.pending.Keys == ix.pending.Keys && ix.requirements.Keys == ix.pending.Keys
    requires forall b {:trigger ListsPending(ix, b)} :: ListsPending(ix, b)
    requires forall id {:trigger Tracks(ix, s, id)} | id in ix.pending :: Tracks(ix, s, id)
    ensures Represents(ix, s)
  {
  }

  /** A new message stands for an entry that misses the required blocks, with the repeats as its slack. */
  lemma InsertedRepresents(ix: Index, s: Store, message: Message, required: seq<AlephData>, e: Entry)
    requires Represents(ix, s) && required != [] && Elements(required) <= Elements(message.blocks)
    requires e.message == message && e.missing == Elements(required) && |required| == |e.missing| + e.extra
    ensures Represents(Inserted(ix, message, required), Store(ix.next + 1, s.pending[ix.next := e]))
  {
    InsertedKeys(ix, s, message, required, e);
    InsertedLists(ix, s, message, required);
    InsertedTracksAll(ix, s, message, required, e);
    PartsRepresent(Inserted(ix, message, required), Store(ix.next + 1, s.pending[ix.next := e]));
  }

  lemma ListedKeys(dependents: map<AlephData, set<MessageId>>, bs: set<AlephData>, id: MessageId)
    ensures Listed(dependents, bs, id).Keys == dependents.Keys + bs
  {
  }

  lemma ListedNone(dependents: map<AlephData, set<MessageId>>, id: MessageId)
    ensures Listed(dependents, Elements([]), id) == dependents
  {
    assert Elements([]) == {};
    var t := Listed(dependents, {}, id);
    assert t.Keys == dependents.Keys;
    assert forall b | b in t :: t[b] == dependents[b];
    assert t == dependents;
  }

  lemma ListedStep(dependents: map<AlephData, set<MessageId>>, bs: seq<AlephData>, i: nat, id: MessageId)
    requires i < |bs|
    ensures var t := Listed(dependents, Elements(bs[..i]), id);
            Listed(dependents, Elements(bs[..i + 1]), id) ==
            t[bs[i] := (if bs[i] in t then t[bs[i]] else {}) + {id}]
  {
    assert Elements(bs[..i + 1]) == Elements(bs[..i]) + {bs[i]};
    ListedOne(dependents, Elements(bs[..i]), bs[i], id);
  }

  lemma ListedOne(dependents: map<AlephData, set<MessageId>>, bs: set<AlephData>, b: AlephData, id: MessageId)
    ensures var t := Listed(dependents, bs, id);
            Listed(dependents, bs + {b}, id) == t[b := (if b in t then t[b] else {}) + {id}]
  {
    var t, u := Listed(dependents, bs, id), Listed(dependents, bs + {b}, id);
    assert u.Keys == t.Keys + {b};
    assert u[b] == (if b in t then t[b] else {}) + {id};
  }

  lemma NothingDone(ix: Index)
    ensures CountedDown(ix, {}) == ix && Done(ix, {}) == map[]
    ensures Messages(map[], ix.next) == multiset{}
  {
    assert AtOne(ix, {}) == {};
    assert CountedDown(ix, {}).requirements == ix.requirements;
    MessagesNone(ix.next);
  }

  /** Taking `id` out from under the given blocks, and dropping the sets this leaves empty. */
  function UnlistedFrom(dependents: map<AlephData, set<MessageId>>, bs: seq<AlephData>, id: MessageId)
    : map<AlephData, set<MessageId>>
  {
    map b | b in dependents && !(b in bs && dependents[b] - {id} == {}) ::
      if b in bs then dependents[b] - {id} else dependents[b]
  }

  lemma UnlistedStep(dependents: map<AlephData, set<MessageId>>, bs: seq<AlephData>, i: nat, id: MessageId)
    requires i < |bs|
    ensures var t, u := UnlistedFrom(dependents, bs[..i], id), UnlistedFrom(dependents, bs[..i + 1], id);
            if bs[i] !in t then u == t
            else if t[bs[i]] - {id} == {} then u == t - {bs[i]}
            else u == t[bs[i] := t[bs[i]] - {id}]
  {
    var t, u := UnlistedFrom(dependents, bs[..i], id), UnlistedFrom(dependents, bs[..i + 1], id);
    assert forall b :: b in bs[..i + 1] <==> b in bs[..i] || b == bs[i];
    if bs[i] in t {
      assert t[bs[i]] - {id} == dependents[bs[i]] - {id};
      if t[bs[i]] - {id} != {} {
        assert u.Keys == t.Keys;
        assert u == t[bs[i] := t[bs[i]] - {id}];
      }
    }
  }

  /** No block but a message's own lists it, so forgetting walks over all there is to take out. */
  lemma UnlistedEverywhere(ix: Index, s: Store, id: MessageId)
    requires Represents(ix, s)
    ensures id in ix.pending ==> UnlistedFrom(ix.dependents, ix.pending[id].blocks, id) == Forgotten(ix, id).dependents
    ensures id !in ix.pending ==> Forgotten(ix, id) == ix
  {
    forall b | b in ix.dependents
      ensures ix.dependents[b] != {}
      ensures id in ix.dependents[b] ==> id in ix.pending && b in ix.pending[id].blocks
    {
      assert ListsPending(ix, b);
      if id in ix.dependents[b] {
        assert Tracks(ix, s, id) && b in Missing(ix.dependents, id);
      }
    }
    if id !in ix.pending {
      assert forall b | b in ix.dependents :: ix.dependents[b] - {id} == ix.dependents[b];
      assert Forgotten(ix, id).dependents == ix.dependents;
    } else {
      assert forall b | b in ix.dependents && b !in ix.pending[id].blocks ::
             ix.dependents[b] - {id} == ix.dependents[b];
    }
  }
}
