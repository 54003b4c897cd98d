/**
 The plain store that the counting index of `DataStore` (data_io.rs) stands for: each pending message is kept
 with the set of blocks it still misses. No cache, no counters, no reverse index.
 */
module NaiveStore {
  import opened BlockTree
  import opened Lists

  type MessageId = nat

  const MESSAGE_ID_BOUNDARY: nat := 100_000

  /** A network message; `content` stands for all of it but the blocks it includes. */
  datatype Message = Message(content: nat, blocks: seq<AlephData>)

  /** `extra` counts the repeats among the blocks that were missing when the message came. */
  datatype Entry = Entry(message: Message, missing: set<AlephData>, extra: nat)

  datatype Store = Store(next: MessageId, pending: map<MessageId, Entry>)

  const EMPTY := Store(0, map[])

  /** The entry goes out once the blocks `bs` are supplied. */
  predicate Completed(e: Entry, bs: set<AlephData>)
  {
    e.missing <= bs && e.extra == 0
  }

  function Supply(s: Store, bs: set<AlephData>): Store
  {
    s.(pending := map id | id in s.pending && !Completed(s.pending[id], bs) ::
                    s.pending[id].(missing := s.pending[id].missing - bs))
  }

  function Freed(s: Store, bs: set<AlephData>): map<MessageId, Message>
  {
    map id | id in s.pending && Completed(s.pending[id], bs) :: s.pending[id].message
  }

  function Forget(s: Store, id: MessageId): Store
  {
    s.(pending := s.pending - {id})
  }

  /** The message gets the next id, and only the latest ids are remembered. */
  function Insert(s: Store, e: Entry): Store
  {
    var grown := s.pending[s.next := e];
    Store(s.next + 1, map id | id in grown && s.next < id + MESSAGE_ID_BOUNDARY :: grown[id])
  }

  ghost predicate InWindow(s: Store) {
    forall id | id in s.pending :: s.next - MESSAGE_ID_BOUNDARY <= id < s.next
  }

  /** In a store that keeps to the window, at most one id leaves it. */
  lemma OneExpires(s: Store, e: Entry, expired: int)
    requires InWindow(s) && expired == s.next - MESSAGE_ID_BOUNDARY
    ensures InWindow(Insert(s, e))
    ensures var grown := Store(s.next + 1, s.pending[s.next := e]);
            Insert(s, e) == if expired >= 0 then Forget(grown, expired) else grown
  {
    var grown := Store(s.next + 1, s.pending[s.next := e]);
    if expired >= 0 {
      assert Insert(s, e).pending == Forget(grown, expired).pending;
    } else {
      assert Insert(s, e).pending == grown.pending;
    }
  }

  function AvailableOf(client: Client, bs: seq<AlephData>): set<AlephData>
  {
    set b | b in bs && Available(client, b)
  }

  /** The unavailable blocks, repeats included. */
  function Lacking(client: Client, bs: seq<AlephData>): seq<AlephData>
  {
    if bs == [] then []
    else
      var rest := Lacking(client, bs[..|bs| - 1]);
      if Available(client, bs[|bs| - 1]) then rest else rest + [bs[|bs| - 1]]
  }

  function Elements(bs: seq<AlephData>): set<AlephData>
  {
    set b | b in bs
  }

  lemma {:induction false} ElementsBound(bs: seq<AlephData>)
    ensures |Elements(bs)| <= |bs|
    ensures |Elements(bs)| == |bs| <==> Distinct(bs)
  {
    if bs != [] {
      var rest, b := bs[..|bs| - 1], bs[|bs| - 1];
      assert bs == rest + [b];
      ElementsBound(rest);
      DistinctPrefix(bs, rest, b);
      assert Elements(bs) == Elements(rest) + {b};
      assert b in rest ==> Elements(bs) == Elements(rest);
    }
  }

  function NewEntry(message: Message, lacking: seq<AlephData>): Entry
  {
    ElementsBound(lacking);
    Entry(message, Elements(lacking), |lacking| - |Elements(lacking)|)
  }

  /** The blocks that pending messages miss. */
  function Wanted(s: Store): set<AlephData>
  {
    set id, b | id in s.pending && b in s.pending[id].missing :: b
  }

  function AvailableWanted(s: Store, client: Client): set<AlephData>
  {
    set b | b in Wanted(s) && Available(client, b)
  }

  // ---- Runs ----

  datatype Event =
    | Received(message: Message, client: Client)
    | Imported(block: AlephData, client: Client)
    | Maintenance(client: Client)

  ghost predicate Grows(c: Client, d: Client) {
    c.known <= d.known && c.finalized <= d.finalized
  }

  /** An import is announced only for a block the client holds. */
  ghost predicate Announced(e: Event) {
    e.Imported? ==> e.block.hash in e.client.known
  }

  /** What a client can do between events: gain blocks and finalize. */
  ghost predicate ClientGrows(events: seq<Event>) {
    && (forall i {:trigger Announced(events[i])} | 0 <= i < |events| :: Announced(events[i]))
    && (forall i {:trigger Grows(events[i - 1].client, events[i].client)} | 0 < i < |events| ::
          Grows(events[i - 1].client, events[i].client))
  }

  /** The messages in a map, as a multiset, for ids below `bound`: the order they go out in is left open. */
  function Messages(m: map<MessageId, Message>, bound: nat): multiset<Message>
  {
    if bound == 0 then multiset{}
    else Messages(m, bound - 1) + if bound - 1 in m then multiset{m[bound - 1]} else multiset{}
  }

  /** The blocks an event supplies to the messages that wait. */
  function Supplied(s: Store, e: Event): set<AlephData>
  {
    match e
    case Received(message, client) => AvailableOf(client, message.blocks)
    case Imported(block, _) => {block}
    case Maintenance(client) => AvailableWanted(s, client)
  }

  function Next(s: Store, e: Event): Store
  {
    var t := Supply(s, Supplied(s, e));
    if e.Received? && Lacking(e.client, e.message.blocks) != [] then
      Insert(t, NewEntry(e.message, Lacking(e.client, e.message.blocks)))
    else t
  }

  function Emitted(s: Store, e: Event): multiset<Message>
  {
    Messages(Freed(s, Supplied(s, e)), s.next) +
    if e.Received? && Lacking(e.client, e.message.blocks) == [] then multiset{e.message} else multiset{}
  }

  function After(events: seq<Event>): Store
  {
    if events == [] then EMPTY else Next(After(events[..|events| - 1]), events[|events| - 1])
  }

  /** What each event of a run emits. */
  function Outs(events: seq<Event>): (outs: seq<multiset<Message>>)
    ensures |outs| == |events|
  {
    if events == [] then []
    else
      var before := events[..|events| - 1];
      Outs(before) + [Emitted(After(before), events[|events| - 1])]
  }

  // ---- Sums of messages ----

  lemma {:induction false} MessagesNone(bound: nat)
    ensures Messages(map[], bound) == multiset{}
  {
    if bound > 0 {
      MessagesNone(bound - 1);
    }
  }

  lemma {:induction false} MessagesUnion(m: map<MessageId, Message>, n: map<MessageId, Message>, bound: nat)
    requires m.Keys !! n.Keys
    ensures Messages(m + n, bound) == Messages(m, bound) + Messages(n, bound)
  {
    if bound > 0 {
      var id := bound - 1;
      MessagesUnion(m, n, id);
      UnionStep(m, n, id, Messages(m, id), Messages(n, id));
    }
  }

  lemma UnionStep(m: map<MessageId, Message>, n: map<MessageId, Message>, id: MessageId, a: multiset<Message>,
                  b: multiset<Message>)
    requires m.Keys !! n.Keys
    ensures (a + b) + (if id in m + n then multiset{(m + n)[id]} else multiset{}) ==
            (a + (if id in m then multiset{m[id]} else multiset{})) +
              (b + (if id in n then multiset{n[id]} else multiset{}))
  {
  }

  lemma {:induction false} MessagesOne(m: map<MessageId, Message>, id: MessageId, message: Message, bound: nat)
    requires id !in m
    ensures Messages(m[id := message], bound) ==
            Messages(m, bound) + if id < bound then multiset{message} else multiset{}
  {
    if bound > 0 {
      MessagesOne(m, id, message, bound - 1);
    }
  }

  // ---- Supplying blocks ----

  /** Supplying blocks in two goes is supplying them at once. */
  lemma SupplyTwice(s: Store, bs: set<AlephData>, cs: set<AlephData>)
    ensures Supply(Supply(s, bs), cs) == Supply(s, bs + cs)
    ensures Messages(Freed(s, bs), s.next) + Messages(Freed(Supply(s, bs), cs), s.next) ==
            Messages(Freed(s, bs + cs), s.next)
  {
    var t := Supply(s, bs);
    forall id | id in s.pending
      ensures Completed(s.pending[id], bs + cs) <==>
              Completed(s.pending[id], bs) || (id in t.pending && Completed(t.pending[id], cs))
      ensures id in t.pending ==> t.pending[id].missing - cs == s.pending[id].missing - (bs + cs)
    {
    }
    assert Supply(t, cs).pending == Supply(s, bs + cs).pending;
    assert Freed(s, bs + cs) == Freed(s, bs) + Freed(t, cs);
    MessagesUnion(Freed(s, bs), Freed(t, cs), s.next);
  }

  /** An entry still waits for something: a block, or for ever. */
  predicate Waits(e: Entry)
  {
    e.missing != {} || e.extra > 0
  }

  lemma SupplyUnwanted(s: Store, bs: set<AlephData>)
    requires forall id | id in s.pending :: Waits(s.pending[id]) && s.pending[id].missing !! bs
    ensures Supply(s, bs) == s && Freed(s, bs) == map[]
  {
    forall id | id in s.pending
      ensures !Completed(s.pending[id], bs) && s.pending[id].missing - bs == s.pending[id].missing
    {
      assert s.pending[id].missing * bs == {};
      assert s.pending[id].missing <= bs ==> s.pending[id].missing == s.pending[id].missing * bs;
    }
    assert Supply(s, bs).pending == s.pending;
  }
}
