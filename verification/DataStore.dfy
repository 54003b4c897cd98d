/**
 The data-availability component (`DataStore`, data_io.rs): the counting index, a bounded cache of blocks seen,
 and a window of message ids. `waiting` is the plain store that the fields stand for.
 */
module DataStore {
  import opened BlockTree
  import opened NaiveStore
  import opened DataIndex
  import opened Lists
  import Availability

  // ---- The cache ----

  function Without(cache: seq<AlephData>, b: AlephData): (r: seq<AlephData>)
    ensures forall c :: c in r <==> c in cache && c != b
  {
    if cache == [] then []
    else if cache[0] == b then Without(cache[1..], b)
    else [cache[0]] + Without(cache[1..], b)
  }

  /** Puts `b` in front, and drops the least recently used blocks for which there is no room. */
  function Put(cache: seq<AlephData>, b: AlephData, capacity: nat): (r: seq<AlephData>)
    ensures forall c | c in r :: c == b || c in cache
    ensures |r| <= capacity
    ensures capacity > 0 ==> b in r
  {
    var rest := Without(cache, b);
    if capacity == 0 then []
    else if |rest| < capacity then [b] + rest
    else [b] + rest[..capacity - 1]
  }

  lemma {:induction false} WithoutAt(cache: seq<AlephData>, b: AlephData, i: nat)
    requires Distinct(cache) && i < |cache| && cache[i] != b
    ensures var p := if b in cache[..i] then i - 1 else i;
            p < |Without(cache, b)| && Without(cache, b)[p] == cache[i]
  {
    var rest := cache[1..];
    assert cache == [cache[0]] + rest;
    DistinctParts([cache[0]], rest);
    DistinctRest(cache);
    if cache[0] == b {
      WithoutNothing(rest, b);
      assert cache[..i][0] == b;
    } else if i > 0 {
      WithoutAt(rest, b, i - 1);
      assert cache[..i] == [cache[0]] + rest[..i - 1];
    }
  }

  lemma DistinctRest(cache: seq<AlephData>)
    requires Distinct(cache) && cache != []
    ensures Distinct(cache[1..])
  {
    forall i, j | 0 <= i < j < |cache[1..]| ensures cache[1..][i] != cache[1..][j] {
      assert cache[i + 1] != cache[j + 1];
    }
  }

  lemma {:induction false} WithoutNothing(cache: seq<AlephData>, b: AlephData)
    requires b !in cache
    ensures Without(cache, b) == cache
  {
    if cache != [] {
      WithoutNothing(cache[1..], b);
    }
  }

  lemma {:induction false} WithoutDistinct(cache: seq<AlephData>, b: AlephData)
    requires Distinct(cache)
    ensures Distinct(Without(cache, b))
    ensures |Without(cache, b)| == if b in cache then |cache| - 1 else |cache|
  {
    if cache != [] {
      var rest := cache[1..];
      assert cache == [cache[0]] + rest;
      DistinctParts([cache[0]], rest);
      DistinctRest(cache);
      if cache[0] == b {
        WithoutNothing(rest, b);
      } else {
        WithoutDistinct(rest, b);
      }
    }
  }

  /**
   Least recently used: the block put comes first, every other one keeps its rank behind it, and those that the
   capacity leaves no room for, counted from the front, are dropped.
   */
  lemma PutKeepsRank(cache: seq<AlephData>, b: AlephData, capacity: nat, i: nat)
    requires Distinct(cache) && capacity > 0 && i < |cache| && cache[i] != b
    ensures var r, rank := Put(cache, b, capacity), if b in cache[..i] then i else i + 1;
            && r[0] == b && Distinct(r)
            && (if rank < capacity then rank < |r| && r[rank] == cache[i] else cache[i] !in r)
  {
    var rest, r := Without(cache, b), Put(cache, b, capacity);
    WithoutAt(cache, b, i);
    WithoutDistinct(cache, b);
    assert forall k | 0 < k < |r| :: r[k] == rest[k - 1];
    forall j, k | 0 <= j < k < |r| ensures r[j] != r[k] {
      assert rest[k - 1] in rest;
    }
  }

  /** Every block of the cache is one the client holds. */
  ghost predicate Held(cache: seq<AlephData>, client: Client) {
    forall b | b in cache :: Available(client, b)
  }

  class DataStore {
    var nextMessageId: MessageId
    var readyMessages: seq<Message> // what was sent on `ready_messages_tx`
    var dependentMessages: map<AlephData, set<MessageId>>
    var availableBlocks: seq<AlephData>
    var messageRequirements: map<MessageId, nat>
    var pendingMessages: map<MessageId, Message>
    const capacity: nat
    ghost var waiting: Store

    function Ix(): Index
      reads this
    {
      Index(nextMessageId, dependentMessages, messageRequirements, pendingMessages)
    }

    /** Holds before and after every event, whatever the client answers. */
    ghost predicate Valid()
      reads this
    {
      && Represents(Ix(), waiting) && InWindow(waiting)
      && |availableBlocks| <= capacity
      && forall b | b in availableBlocks :: b !in dependentMessages
    }

    constructor (capacity: nat)
      ensures Valid() && this.capacity == capacity
      ensures waiting == EMPTY && readyMessages == [] && availableBlocks == []
    {
      this.capacity := capacity;
      nextMessageId, readyMessages, availableBlocks := 0, [], [];
      dependentMessages, messageRequirements, pendingMessages := map[], map[], map[];
      waiting := EMPTY;
    }

    /** The loop of `forget_message`. */
    method Unlist(blocks: seq<AlephData>, messageId: MessageId)
      modifies `dependentMessages
      ensures dependentMessages == UnlistedFrom(old(dependentMessages), blocks, messageId)
    {
      var i := 0;
      while i < |blocks|
        invariant i <= |blocks|
        invariant dependentMessages == UnlistedFrom(old(dependentMessages), blocks[..i], messageId)
      {
        var block := blocks[i];
        UnlistedStep(old(dependentMessages), blocks, i, messageId);
        if block in dependentMessages {
          dependentMessages := dependentMessages[block := dependentMessages[block] - {messageId}];
          if dependentMessages[block] == {} {
            dependentMessages := dependentMessages - {block};
          }
        }
        i := i + 1;
      }
      assert blocks[..|blocks|] == blocks;
    }

    method ForgetMessage(messageId: MessageId)
      requires Represents(Ix(), waiting)
      modifies `dependentMessages, `messageRequirements, `pendingMessages, `waiting
      ensures Ix() == Forgotten(old(Ix()), messageId)
      ensures Represents(Ix(), waiting) && waiting == Forget(old(waiting), messageId)
    {
      ghost var ix := Ix();
      ForgottenRepresents(ix, waiting, messageId);
      UnlistedEverywhere(ix, waiting, messageId);
      waiting := Forget(waiting, messageId);
      messageRequirements := messageRequirements - {messageId};
      if messageId in pendingMessages {
        var blocks := pendingMessages[messageId].blocks;
        pendingMessages := pendingMessages - {messageId};
        Unlist(blocks, messageId);
      }
      assert dependentMessages == Forgotten(ix, messageId).dependents;
      assert pendingMessages == ix.pending - {messageId};
    }

    /** The loop body of `push_messages`: one message has one block less to wait for. */
    method CountDown(id: MessageId, ghost ix: Index, ghost done: set<MessageId>)
      requires id !in done && Positive(ix, id)
      requires messageRequirements == CountedDown(ix, done).requirements
      requires pendingMessages == CountedDown(ix, done).pending
      modifies `readyMessages, `messageRequirements, `pendingMessages
      ensures messageRequirements == CountedDown(ix, done + {id}).requirements
      ensures pendingMessages == CountedDown(ix, done + {id}).pending
      ensures old(readyMessages) <= readyMessages
      ensures multiset(readyMessages) + Messages(Done(ix, done), ix.next) ==
              multiset(old(readyMessages)) + Messages(Done(ix, done + {id}), ix.next)
    {
      CountedDownStep(ix, done, id);
      // The entry is there and positive: the source's `expect` holds and its decrement does not underflow.
      assert id in messageRequirements && messageRequirements[id] > 0;
      messageRequirements := messageRequirements[id := messageRequirements[id] - 1];
      if messageRequirements[id] == 0 {
        MessagesOne(Done(ix, done), id, pendingMessages[id], ix.next);
        readyMessages := readyMessages + [pendingMessages[id]];
        pendingMessages := pendingMessages - {id};
        messageRequirements := messageRequirements - {id};
      }
    }

    /** The loop of `push_messages`; the order in which it meets the ids is left open. */
    method CountDownAll(ids: set<MessageId>, ghost ix: Index)
      requires forall id | id in ids :: Positive(ix, id)
      requires messageRequirements == ix.requirements && pendingMessages == ix.pending
      modifies `readyMessages, `messageRequirements, `pendingMessages
      ensures messageRequirements == CountedDown(ix, ids).requirements
      ensures pendingMessages == CountedDown(ix, ids).pending
      ensures old(readyMessages) <= readyMessages
      ensures multiset(readyMessages) == multiset(old(readyMessages)) + Messages(Done(ix, ids), ix.next)
    {
      var todo := ids;
      ghost var done := {};
      NothingDone(ix);
      while todo != {}
        invariant todo !! done && todo + done == ids
        invariant messageRequirements == CountedDown(ix, done).requirements
        invariant pendingMessages == CountedDown(ix, done).pending
        invariant old(readyMessages) <= readyMessages
        invariant multiset(readyMessages) == multiset(old(readyMessages)) + Messages(Done(ix, done), ix.next)
      {
        var id :| id in todo;
        ghost var sent := multiset(readyMessages);
        CountDown(id, ix, done);
        Carry(multiset(readyMessages), sent, multiset(old(readyMessages)),
              Messages(Done(ix, done), ix.next), Messages(Done(ix, done + {id}), ix.next));
        todo := todo - {id};
        done := done + {id};
      }
      assert done == ids;
    }

    method PushMessages(block: AlephData)
      requires Represents(Ix(), waiting)
      modifies `readyMessages, `dependentMessages, `messageRequirements, `pendingMessages, `waiting
      ensures Represents(Ix(), waiting)
      ensures waiting == Supply(old(waiting), {block})
      ensures old(readyMessages) <= readyMessages
      ensures multiset(readyMessages) ==
              multiset(old(readyMessages)) + Messages(Freed(old(waiting), {block}), nextMessageId)
      ensures dependentMessages == old(dependentMessages) - {block}
    {
      ghost var ix, s := Ix(), waiting;
      if block in dependentMessages {
        PushedRepresents(ix, s, block);
        PushedFreed(ix, s, block);
        ListedArePositive(ix, s, block);
        var ids := dependentMessages[block];
        dependentMessages := dependentMessages - {block};
        CountDownAll(ids, ix);
        assert Ix() == Pushed(ix, block);
        waiting := Supply(s, {block});
      } else {
        UnlistedBlock(ix, s, block);
        MessagesNone(ix.next);
        assert dependentMessages - {block} == dependentMessages;
      }
    }

    method AddBlock(block: AlephData)
      requires Valid()
      modifies this
      ensures Valid() && waiting == Supply(old(waiting), {block})
      ensures old(readyMessages) <= readyMessages
      ensures multiset(readyMessages) ==
              multiset(old(readyMessages)) + Messages(Freed(old(waiting), {block}), nextMessageId)
      ensures availableBlocks == Put(old(availableBlocks), block, capacity)
    {
      availableBlocks := Put(availableBlocks, block, capacity);
      PushMessages(block);
    }

    /** The loop of `add_pending_message`. */
    method ListRequirements(requirements: seq<AlephData>)
      modifies `dependentMessages
      ensures dependentMessages == Listed(old(dependentMessages), Elements(requirements), nextMessageId)
    {
      var i := 0;
      ListedNone(dependentMessages, nextMessageId);
      while i < |requirements|
        invariant i <= |requirements|
        invariant dependentMessages == Listed(old(dependentMessages), Elements(requirements[..i]), nextMessageId)
      {
        ListedStep(old(dependentMessages), requirements, i, nextMessageId);
        var block := requirements[i];
        var ids := if block in dependentMessages then dependentMessages[block] else {};
        dependentMessages := dependentMessages[block := ids + {nextMessageId}];
        i := i + 1;
      }
      assert requirements[..|requirements|] == requirements;
    }

    /** `add_pending_message` up to the forgetting. */
    method InsertMessage(message: Message, requirements: seq<AlephData>)
      modifies `nextMessageId, `dependentMessages, `messageRequirements, `pendingMessages
      ensures Ix() == Inserted(old(Ix()), message, requirements)
    {
      var messageId := nextMessageId;
      ListRequirements(requirements);
      nextMessageId := nextMessageId + 1;
      messageRequirements := messageRequirements[messageId := |requirements|];
      pendingMessages := pendingMessages[messageId := message];
    }

    /** The same, with the plain store at its side. */
    method InsertPending(message: Message, requirements: seq<AlephData>, ghost e: Entry)
      requires Represents(Ix(), waiting) && requirements != [] && Elements(requirements) <= Elements(message.blocks)
      requires e.message == message && e.missing == Elements(requirements) && |requirements| == |e.missing| + e.extra
      modifies `nextMessageId, `dependentMessages, `messageRequirements, `pendingMessages, `waiting
      ensures Represents(Ix(), waiting)
      ensures waiting == Store(old(nextMessageId) + 1, old(waiting).pending[old(nextMessageId) := e])
      ensures dependentMessages.Keys == old(dependentMessages).Keys + Elements(requirements)
    {
      InsertedRepresents(Ix(), waiting, message, requirements, e);
      ListedKeys(dependentMessages, Elements(requirements), nextMessageId);
      waiting := Store(nextMessageId + 1, waiting.pending[nextMessageId := e]);
      InsertMessage(message, requirements);
    }

    method AddPendingMessage(message: Message, requirements: seq<AlephData>, ghost e: Entry)
      requires Valid()
      requires requirements != [] && Elements(requirements) <= Elements(message.blocks)
      requires forall b | b in requirements :: b !in availableBlocks
      requires e.message == message && e.missing == Elements(requirements) && |requirements| == |e.missing| + e.extra
      modifies `nextMessageId, `dependentMessages, `messageRequirements, `pendingMessages, `waiting
      ensures Valid() && waiting == Insert(old(waiting), e)
    {
      var messageId := nextMessageId;
      var expired: int := messageId - MESSAGE_ID_BOUNDARY;
      OneExpires(waiting, e, expired);
      InsertPending(message, requirements, e);
      if messageId >= MESSAGE_ID_BOUNDARY {
        ForgetMessage(expired);
      }
    }

    /** Since the store was `before` and the channel held `was`, the blocks `bs` have been supplied. */
    ghost predicate Supplying(before: Store, was: seq<Message>, bs: set<AlephData>)
      reads this
    {
      && waiting == Supply(before, bs) && nextMessageId == before.next
      && was <= readyMessages
      && multiset(readyMessages) == multiset(was) + Messages(Freed(before, bs), nextMessageId)
    }

    lemma SupplyingNothing()
      requires Valid()
      ensures Supplying(waiting, readyMessages, {})
    {
      NothingSupplied(Ix(), waiting);
    }

    /** A block that no message waits for counts as supplied. */
    lemma SupplyingUnlisted(before: Store, was: seq<Message>, bs: set<AlephData>, block: AlephData)
      requires Valid() && Supplying(before, was, bs) && block !in dependentMessages
      ensures Supplying(before, was, bs + {block})
    {
      SupplyTwice(before, bs, {block});
      UnlistedBlock(Ix(), waiting, block);
      MessagesNone(nextMessageId);
    }

    /** `add_block`, seen as one more block on top of those supplied since `before`. */
    method SupplyBlock(block: AlephData, ghost before: Store, ghost was: seq<Message>, ghost bs: set<AlephData>)
      requires Valid() && Supplying(before, was, bs)
      modifies this
      ensures Valid() && Supplying(before, was, bs + {block})
      ensures availableBlocks == Put(old(availableBlocks), block, capacity)
    {
      SupplyTwice(before, bs, {block});
      AddBlock(block);
    }

    /** The filtering loop of `add_message`: what is available is supplied on the way, the rest is returned. */
    method FilterBlocks(blocks: seq<AlephData>, client: Client)
      returns (requirements: seq<AlephData>, ghost supplied: set<AlephData>)
      requires Valid()
      modifies this
      ensures Valid() && Supplying(old(waiting), old(readyMessages), supplied)
      ensures Elements(requirements) <= Elements(blocks)
      ensures forall b | b in requirements :: b !in availableBlocks
      ensures old(Held(availableBlocks, client)) ==>
                && Held(availableBlocks, client)
                && requirements == Lacking(client, blocks)
                && supplied == AvailableOf(client, blocks)
    {
      requirements, supplied := [], {};
      var i := 0;
      SupplyingNothing();
      while i < |blocks|
        invariant i <= |blocks| && Valid() && Supplying(old(waiting), old(readyMessages), supplied)
        invariant forall b | b in requirements :: b in blocks && b !in availableBlocks && !Available(client, b)
        invariant old(Held(availableBlocks, client)) ==>
                    && Held(availableBlocks, client)
                    && requirements == Lacking(client, blocks[..i])
                    && supplied == AvailableOf(client, blocks[..i])
      {
        var block := blocks[i];
        FilterStep(blocks, i, client);
        if block in availableBlocks {
          SupplyingUnlisted(old(waiting), old(readyMessages), supplied, block);
          supplied := supplied + {block};
        } else if block.hash in client.known {
          SupplyBlock(block, old(waiting), old(readyMessages), supplied);
          supplied := supplied + {block};
        } else if client.finalized >= block.number {
          SupplyBlock(block, old(waiting), old(readyMessages), supplied);
          supplied := supplied + {block};
        } else {
          requirements := requirements + [block];
        }
        i := i + 1;
      }
      assert blocks[..|blocks|] == blocks;
    }

    /** The end of `add_message`: the message goes out or waits. */
    method Dispatch(message: Message, requirements: seq<AlephData>)
      requires Valid() && Elements(requirements) <= Elements(message.blocks)
      requires forall b | b in requirements :: b !in availableBlocks
      modifies this
      ensures Valid() && availableBlocks == old(availableBlocks)
      ensures waiting == if requirements == [] then old(waiting)
                         else Insert(old(waiting), NewEntry(message, requirements))
      ensures readyMessages == old(readyMessages) + if requirements == [] then [message] else []
    {
      if requirements == [] {
        readyMessages := readyMessages + [message];
      } else {
        AddPendingMessage(message, requirements, NewEntry(message, requirements));
      }
    }

    method AddMessage(message: Message, client: Client)
      requires Valid()
      modifies this
      ensures Valid() && old(readyMessages) <= readyMessages
      ensures old(Held(availableBlocks, client)) ==>
                && Held(availableBlocks, client)
                && waiting == Next(old(waiting), Received(message, client))
                && multiset(readyMessages) ==
                  multiset(old(readyMessages)) + Emitted(old(waiting), Received(message, client))
    {
      var requirements;
      ghost var supplied;
      requirements, supplied := FilterBlocks(message.blocks, client);
      Dispatch(message, requirements);
    }

    /** The maintenance branch of `run`: the keys are collected first, and visited in any order. */
    method Maintain(client: Client)
      requires Valid()
      modifies this
      ensures Valid() && old(readyMessages) <= readyMessages
      ensures old(Held(availableBlocks, client)) ==> Held(availableBlocks, client)
      ensures waiting == Next(old(waiting), Maintenance(client))
      ensures multiset(readyMessages) == multiset(old(readyMessages)) + Emitted(old(waiting), Maintenance(client))
    {
      var keys := dependentMessages.Keys;
      WantedIsListed(Ix(), waiting);
      SupplyingNothing();
      ghost var done: set<AlephData> := {};
      while keys != {}
        invariant Valid() && Supplying(old(waiting), old(readyMessages), done)
        invariant old(Held(availableBlocks, client)) ==> Held(availableBlocks, client)
        invariant keys <= Wanted(old(waiting))
        invariant forall b :: b in done <==> b in Wanted(old(waiting)) && b !in keys && Available(client, b)
      {
        var blockData :| blockData in keys;
        if blockData.hash in client.known {
          SupplyBlock(blockData, old(waiting), old(readyMessages), done);
          done := done + {blockData};
        } else if client.finalized >= blockData.number {
          SupplyBlock(blockData, old(waiting), old(readyMessages), done);
          done := done + {blockData};
        }
        keys := keys - {blockData};
      }
      assert done == AvailableWanted(old(waiting), client);
    }
  }

  /** One turn of `run`'s select loop. */
  method Turn(store: DataStore, event: Event) returns (out: multiset<Message>)
    requires store.Valid()
    modifies store
    ensures store.Valid()
    ensures old(Held(store.availableBlocks, event.client)) && Announced(event) ==>
              && Held(store.availableBlocks, event.client)
              && store.waiting == Next(old(store.waiting), event)
              && out == Emitted(old(store.waiting), event)
  {
    var n := |store.readyMessages|;
    ghost var was := store.readyMessages;
    match event {
      case Received(message, client) => store.AddMessage(message, client);
      case Imported(block, client) => store.AddBlock(block);
      case Maintenance(client) => store.Maintain(client);
    }
    out := multiset(store.readyMessages[n..]);
    assert store.readyMessages == was + store.readyMessages[n..];
    ghost var more := Emitted(old(store.waiting), event);
    assert multiset(was + store.readyMessages[n..]) == multiset(was) + out;
    if multiset(store.readyMessages) == multiset(was) + more {
      Cancel(multiset(was), out, more);
    }
  }

  /** After `k` events the store stands for the plain one, has sent what that one emits, and caches held blocks only. */
  ghost predicate Agrees(store: DataStore, events: seq<Event>, k: nat, outs: seq<multiset<Message>>)
    requires k <= |events|
    reads store
  {
    && outs == Outs(events[..k]) && store.waiting == After(events[..k])
    && (if k == 0 then store.availableBlocks == [] else Held(store.availableBlocks, events[k - 1].client))
  }

  method RunOne(store: DataStore, events: seq<Event>, k: nat,
                outs: seq<multiset<Message>>) returns (newOuts: seq<multiset<Message>>)
    requires store.Valid() && k < |events|
    modifies store
    ensures store.Valid() && |newOuts| == |outs| + 1
    ensures ClientGrows(events) && old(Agrees(store, events, k, outs)) ==> Agrees(store, events, k + 1, newOuts)
  {
    assert events[..k + 1][..k] == events[..k];
    assert ClientGrows(events) ==> Announced(events[k]) && (k > 0 ==> Grows(events[k - 1].client, events[k].client));
    var out := Turn(store, events[k]);
    newOuts := outs + [out];
  }

  /**
   `run` on any list of events: as long as the client only grows, every event sends exactly the messages the plain
   store would. The cache capacity does not occur in what is sent, so the cache is transparent.
   */
  method Run(capacity: nat, events: seq<Event>) returns (outs: seq<multiset<Message>>)
    ensures |outs| == |events|
    ensures ClientGrows(events) ==> outs == Outs(events)
    ensures ClientGrows(events) ==>
              forall j, m, b | 0 <= j < |outs| && m in outs[j] && b in m.blocks :: Available(events[j].client, b)
  {
    var store := new DataStore(capacity);
    outs := [];
    var k := 0;
    while k < |events|
      invariant k <= |events| && |outs| == k && fresh(store) && store.Valid()
      invariant ClientGrows(events) ==> Agrees(store, events, k, outs)
    {
      outs := RunOne(store, events, k, outs);
      k := k + 1;
    }
    assert events[..k] == events;
    forall j, m, b | ClientGrows(events) && 0 <= j < |outs| && m in outs[j] && b in m.blocks
      ensures Available(events[j].client, b)
    {
      Availability.EmittedIsAvailable(events, j, m, b);
    }
  }

  lemma WantedIsListed(ix: Index, s: Store)
    requires Represents(ix, s)
    ensures Wanted(s) == ix.dependents.Keys
  {
    forall b ensures b in Wanted(s) <==> b in ix.dependents {
      if b in ix.dependents {
        assert ListsPending(ix, b);
        var id :| id in ix.dependents[b];
        assert Tracks(ix, s, id) && b in Missing(ix.dependents, id);
      }
      if b in Wanted(s) {
        var id :| id in s.pending && b in s.pending[id].missing;
        assert Tracks(ix, s, id);
      }
    }
  }

  lemma NothingSupplied(ix: Index, s: Store)
    requires Represents(ix, s)
    ensures Supply(s, {}) == s && Messages(Freed(s, {}), ix.next) == multiset{}
  {
    forall id | id in s.pending ensures Waits(s.pending[id]) && s.pending[id].missing !! {} {
      assert Tracks(ix, s, id);
    }
    SupplyUnwanted(s, {});
    MessagesNone(ix.next);
  }

  lemma FilterStep(blocks: seq<AlephData>, i: nat, client: Client)
    requires i < |blocks|
    ensures var block := blocks[i];
            && blocks[..i + 1][..i] == blocks[..i]
            && AvailableOf(client, blocks[..i + 1]) ==
               AvailableOf(client, blocks[..i]) + (if Available(client, block) then {block} else {})
            && Lacking(client, blocks[..i + 1]) ==
               Lacking(client, blocks[..i]) + (if Available(client, block) then [] else [block])
  {
    assert blocks[..i + 1][..i] == blocks[..i];
    assert forall b :: b in blocks[..i + 1] <==> b in blocks[..i] || b == blocks[i];
  }

  lemma Cancel(a: multiset<Message>, b: multiset<Message>, c: multiset<Message>)
    requires a + b == a + c
    ensures b == c
  {
    forall m: Message ensures b[m] == c[m] {
      assert (a + b)[m] == (a + c)[m];
    }
  }

  /** Multisets cancel: what a step adds on one side it adds on the other. */
  lemma Carry(a: multiset<Message>, b: multiset<Message>, o: multiset<Message>, d: multiset<Message>,
              e: multiset<Message>)
    requires a + d == b + e && b == o + d
    ensures a == o + e
  {
    forall m: Message ensures a[m] == (o + e)[m] {
      assert (a + d)[m] == (b + e)[m];
    }
  }
}
