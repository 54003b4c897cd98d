# The finality layer of aleph-node, modelled and proved in Dafny

AlephBFT orders block references (`AlephData`: a hash and a claimed number) into one list for each session. A node turns
that list into finalized blocks: a data store holds network messages back until the blocks they name are available, a
chain walk turns each ordered item into the headers above the block finalized last, an aggregator collects a
multisignature for each of those headers, and a justification handler checks the result against the session's
authorities and finalizes it. This project models those components and proves what they promise, alone and together.

| file | what it holds |
|---|---|
| `BlockTree.dfy` | headers as a tree of parent links: ancestors, paths, ancestor-closed parts |
| `Finalization.dfy` | the walk from new data back to the last finalized block |
| `SessionChain.dfy` | how a session's items move `last_finalized`; late starters |
| `PartialViews.dfy` | nodes that know only part of the tree: which items keep them in step |
| `Aggregator.dfy` | `BlockSignatureAggregator`, a queue over signatures that come in any order |
| `RunAggregator.dfy` | the aggregator task of one session, over whole runs |
| `OneBranch.dfy` | many nodes, one session's common list, certified blocks on one branch |
| `ManySessions.dfy` | many nodes through all sessions: whatever honest nodes finalize lies on one branch |
| `NaiveStore.dfy` | the plain store: for each message the set of blocks it misses |
| `DataIndex.dfy`, `DataStore.dfy` | the counting index with cache and window, proved to refine the plain store |
| `Availability.dfy` | what the plain store, and so the real one, promises over whole runs |
| `Sessions.dfy` | session arithmetic |
| `Justification.dfy` | the justification handler and the party as objects |
| `Coupling.dfy`, `Node.dfy` | their interleaved runs, and the objects driven through such runs |
| `Peers.dfy`, `Network.dfy` | the two-way peer index, the consensus network and its authentication history |
| `Ranges.dfy`, `Lists.dfy` | sizes of sets of consecutive numbers; sequences without repeats |

`dafny verify dfyconfig.toml` checks all of it.

## How the parts fit

Every object that the program changes in place (`BlockSignatureAggregator`, `DataStore`, `JustificationHandler`,
`ConsensusParty`, `Peers`, `ConsensusNetwork`) is a class. Its methods are proved against functions on values, and what
is promised over whole runs is proved about those functions. Drivers take the objects through whole runs:
`RunAggregator.RunAggregator`, `DataStore.Run`, and `Node.RunNode`, which steps the handler and the party on their
shared state and ensures that they go through a run of `Coupling`.

`ManySessions` puts the parts together. Each honest node steps as in `Coupling` and reads each session's list as in
`OneBranch`. The party only signals a session's reader to exit and enters the next session at once (party.rs:502-505,
443-445), so readers of sessions gone by may live on beside the new one, start late, and read while the handler
finalizes blocks of later sessions. A signature covers the block's hash alone (aggregator.rs:73-80,
justification.rs:41), so certificates are not tied to a session; safety holds all the same.

Assumptions, each visible in a `requires` or in a configuration predicate:

- The block tree is finite, a header's number is its parent's plus one, and a client that knows a block knows its
  ancestors. The walk itself is proved exact without the last of these.
- Honest nodes read prefixes of one list; a complete multisignature holds at least one honest signature
  (`OneBranch.ConfigOk`); verification of signatures is an arbitrary predicate.
- The client's answers are fixed within one event and only grow between events (`NaiveStore.ClientGrows`,
  `RunAggregator.ClientGrows`); an import notification names a block the client holds.
- In `ManySessions` an item is read when it is known to the node or not above the session's last block
  (`PartialViews.KeepsStep`). Until the next session is entered this is no assumption: the data store's admission and
  the coupling of the two tasks give it (`ManySessions.CurrentKeepsStep`). Only a reader that lives on past its session
  could meet another item, unknown, numbered above the session's end and let through by that number;
  `ManySessions.ReaderFollowsIff` says exactly when that puts it off the common list.
- In `ManySessions` all nodes start from the genesis block, may stop and start again at any time, and are told the same
  authorities for a session; the runtime answers without an error. An item is read once the data store has sent it on,
  which `ManySessions.ReleasedIsAdmitted` derives from the store's promise.
- The products `(session + 1) * period` stay within `u32` (`Sessions.Fits`), and a session has at least one block.

## What does not hold without a condition

- A message that names a missing block twice is never released, in any run. The requirement count at
  data_io.rs:167-168 counts repeats, the set of dependents does not. `Availability.ReleasedIffNoRepeats` gives the exact condition and
  `Availability.RepeatedBlockIsStuck` a run; no panic and no underflow follows from it.
- The peer index is a pair of inverse maps exactly as long as no known, bound peer connects again and no
  authentication rebinds a peer or a node within a session (`Peers.MirroredIffWellBehaved`).
  `Peers.ReconnectLeavesAReference` shows the stale entry that stays otherwise.
- A session that the party skips because the runtime answers with an error stalls finalization if its last block is not
  finalized at that moment, until the node is started anew (`Coupling.SkipStalls`, `Coupling.StalledForEver`).
- The data store's comment promises that all blocks of a message it sends are imported (data_io.rs:51-53). The code also
  lets an unknown block through when its number is not above the finalized one (data_io.rs:189-192), as
  `Availability.UnknownBlockIsSent` shows. What can be sent is exactly what is available in this wider sense
  (`Availability.SentIffAvailable`), and the promise holds for a block exactly when it is imported or above the
  finalized number (`Availability.ImportedIff`, and `Availability.SentIsImported` for a message of a run).
- An item let through by its number alone is harmless, whatever the tree, exactly when its number is not above the
  session's last block, unless that is the genesis (`PartialViews.KeepsStepExact`); a node can check this before it reads the item. It holds as long
  as the node's finalized block is not above that block. `PartialViews.PartialViewNeedsTheBound` is an input for which
  it fails, and leads to a fork.

## Model

| member | source | states |
|---|---|---|
| Finalization.ChainExtensionStep | finality-aleph/src/finalization.rs:44-101 | the loop that pushes headers to the front computes the recursive walk; its early return for `new_data.hash == last_finalized` changes nothing, and it terminates |
| Finalization.ChainExtensionExact | finality-aleph/src/finalization.rs:40-101 | a non-empty result is the parent-linked, consecutively numbered run of known headers from just above `last_finalized` to the data, and any such run is the result |
| Finalization.ChainExtensionInTree | finality-aleph/src/finalization.rs:67-100 | in an ancestor-closed store the result is the path to the data when the data names a descendant by its right number, and empty otherwise |
| SessionChain.StepInTree | finality-aleph/src/party.rs:212-223 | one item moves `last_finalized` to the named descendant or to its ancestor at the session's end, and starts aggregation of exactly the headers in between |
| SessionChain.TipDescends | finality-aleph/src/party.rs:211-224 | `last_finalized` only ever moves to descendants and never above the session's last block |
| SessionChain.LateStarterStep | finality-aleph/src/party.rs:212-223 | one item keeps a node that started later at the later of its start and the other node's block |
| SessionChain.LateStarterAgrees | finality-aleph/src/party.rs:200-224 | after every prefix of the list a node that started at a block of the chain stands at the later of its start and the first node's block, and has started exactly the first node's headers above its start |
| PartialViews.AdmittedExact | finality-aleph/src/data_io.rs:185-193 | an item the data store lets through puts a node with a partial view out of step exactly when it is unknown, numbered above the session's last block, and would move the tip |
| PartialViews.PartialViewStep | finality-aleph/src/data_io.rs:185-193 | an item let through that is known or not above the session's last block moves a partial, ancestor-closed view as it moves the whole tree, whatever the node has finalized on that branch |
| PartialViews.KeepsStepExact | finality-aleph/src/data_io.rs:189-192 | over all trees and tips, an item let through never puts a view out of step exactly when it is known or not above the session's last block, or that block is the genesis |
| PartialViews.PartialViewExact | finality-aleph/src/finalization.rs:67-75 | with no assumption on admission, a partial view falls out of step on an item exactly when it misses a block that would move the tip |
| PartialViews.PartialViewAgrees | finality-aleph/src/party.rs:211-217 | over a whole list of such items, with views that grow, a node that started anywhere on the chain stays with the reader of the whole tree |
| PartialViews.PartialViewNeedsTheBound | finality-aleph/src/data_io.rs:189-192 | a tree, a view and two items for which a finalized block above the session's end leads the node to a fork |
| Aggregator.BlockSignatureAggregator.constructor | finality-aleph/src/aggregator.rs:61-70 | starts empty |
| Aggregator.BlockSignatureAggregator.StartAggregation | finality-aleph/src/aggregator.rs:73-80 | a new hash is queued, remembered and signed; a known one changes nothing |
| Aggregator.BlockSignatureAggregator.NotifyLastHash | finality-aleph/src/aggregator.rs:82-84 | only the flag changes |
| Aggregator.BlockSignatureAggregator.NextMultisignedHash | finality-aleph/src/aggregator.rs:86-138 | the nested loops read events up to the first at which they have to stop, keep every signature that arrives, and hand out the front of the queue exactly when its signature is at hand |
| Aggregator.PollTakesFront | finality-aleph/src/aggregator.rs:86-138 | a poll removes at most the front of the queue and hands out that hash; it ends without one only when all is signed or the network closed, and never waits on a signed front |
| Aggregator.PollAnswers | finality-aleph/src/aggregator.rs:86-138 | for every state and list of events: which events a poll reads, which signatures are at hand afterwards, and when it answers with the front, with the end, with a closed network, or keeps waiting |
| Aggregator.KeptMeans | finality-aleph/src/aggregator.rs:110-116 | at hand after some events are exactly the hashes held before and those that arrived |
| Aggregator.NothingLost | finality-aleph/src/aggregator.rs:93-116 | in any run a signature that was read is at hand until its hash is emitted, in whatever order signatures come |
| Aggregator.WaitsForMissing | finality-aleph/src/aggregator.rs:91-107 | in any run a poll that ends without a hash while one is queued waited for a signature that had not been read |
| Aggregator.EmissionsArrived | finality-aleph/src/aggregator.rs:93-116 | in every run each emitted signature arrived for the very hash it is emitted with |
| Aggregator.FirstInFirstOut | finality-aleph/src/aggregator.rs:73-116 | in every run emitted hashes followed by the queue are the distinct started hashes in starting order, which are what the node signs and what `started_hashes` holds |
| Aggregator.StartedOnce | finality-aleph/src/aggregator.rs:75-78 | no hash is queued or emitted twice |
| RunAggregator.StartHeaders | finality-aleph/src/party.rs:213-223 | the inner loop starts the headers up to the session's last block, moves `last_finalized` to the last of them, and announces the end when one reaches it |
| RunAggregator.ReachesTheEnd | finality-aleph/src/party.rs:218-222 | the end is announced only when `last_finalized` has come to the session's end |
| RunAggregator.ReadBatch | finality-aleph/src/party.rs:211-224 | one batch moves `last_finalized` as its items one by one do, and everything started stays the path from the start to there |
| RunAggregator.PollKeepsStep | finality-aleph/src/party.rs:230-246 | a multisigned hash is the next header of the path, and the client knows its number: the `unwrap`s cannot fail |
| RunAggregator.SendNext | finality-aleph/src/party.rs:230-246 | one poll with all that the event brings; a justification goes out with the hash and the signature emitted and the number of its header; the stream ends when the last hash was announced and the queue is drained, and with the network open only then |
| RunAggregator.SentWasSigned | finality-aleph/src/party.rs:231-238 | every justification sent carries a signature that arrived for its hash |
| RunAggregator.Turn | finality-aleph/src/party.rs:203-251 | one turn of the select loop keeps all of this; batches skipped after the last block would not have moved `last_finalized`; the last hash is announced whenever the tip has come to the session's end |
| RunAggregator.RunAggregator | finality-aleph/src/party.rs:185-257 | for every run: `last_finalized` is what reading all items gives; the hashes signed are the path from the start to it; justifications are a prefix of that path, numbered without gaps, not above the session's end, each with a signature that arrived for its hash; the aggregator is polled once for each event; if the hashes end with the network open, the whole path was sent and the session's end reached |
| RunAggregator.BatchingIsNeutral | finality-aleph/src/party.rs:204-224 | where a run ends depends on the items in order and on what was known at each, not on their split into batches |
| RunAggregator.RunFollowsTheTree | finality-aleph/src/party.rs:199-224 | a node that starts on the chain, reads in batches and knows only part of the tree ends where a reader of the whole tree ends |
| OneBranch.NextFollowsList | finality-aleph/src/party.rs:211-217 | a reader's next item leaves it at the block the common list gives from its start, if what the node has finalized is on one branch with where the list leads |
| OneBranch.ReadFollowsList | finality-aleph/src/party.rs:211-217 | in the multi-node system an honest node's next item leaves it at the block the common list gives from its start |
| OneBranch.ReadSignsGood | finality-aleph/src/party.rs:213-217 | all an honest node signs for an item lies on the common chain, within the session |
| OneBranch.ReadSignsPath | finality-aleph/src/party.rs:213-217 | an honest node signs all of the path that an item takes it along |
| OneBranch.RunKeepsInv | finality-aleph/src/party.rs:199-224 | in every reachable state, blocks finalized, signed or certified by honest nodes lie on the chain of the items ordered so far |
| OneBranch.OneBranchSafety | finality-aleph/src/party.rs:199-224 | in every reachable state any two certified blocks of a session are ancestor-related, above the session's root and not above its end |
| OneBranch.OneBlockPerHeight | finality-aleph/src/justification.rs:115-127 | a session certifies at most one block at each height, its last one included |
| ManySessions.TrunkIsOrdered | finality-aleph/src/party.rs:199-224 | blocks that the lists of any two sessions lead to are ancestor-related |
| ManySessions.TrunkInSession | finality-aleph/src/lib.rs:230-239 | a block that any session's list leads to belongs to the session its number falls in, so a certificate needs no session |
| ManySessions.TrunkStays | finality-aleph/src/party.rs:211-224 | newly ordered items, of any session, leave all blocks led to before in place |
| ManySessions.FinInSession | finality-aleph/src/party.rs:443-501 | between two insertions of authorities a node's finalized block is on the chain of the session entered last |
| ManySessions.CurrentKeepsStep | finality-aleph/src/party.rs:443-501 | until the next insertion every item the data store lets through keeps the session's reader in step |
| ManySessions.TrunkBesideEnd | finality-aleph/src/party.rs:199-224 | whatever is finalized in any session is on one branch with where a given session's list leads |
| ManySessions.LateReader | finality-aleph/src/party.rs:200-224 | a reader that first runs when its session is over never moves and never signs |
| ManySessions.ReaderFollowsIff | finality-aleph/src/party.rs:502-505 | a reader, of a session gone by too, stays with the common list on an item let through exactly when the item is known or not above the session's end, or would not move it |
| ManySessions.ReadKeepsNode | finality-aleph/src/party.rs:211-217 | a reader of the current or an earlier session stays with its list and signs only what that leads to, whatever the node has finalized since |
| ManySessions.StepKeepsNode | finality-aleph/src/justification.rs:196-217 | each step of the handler and the party keeps the node's invariant, finalizations included |
| ManySessions.RunKeepsInv | finality-aleph/src/party.rs:517-528 | in every reachable state, with any number of old readers alive, all that honest nodes signed or finalized is where the lists lead |
| ManySessions.CertifiedOnOneBranch | finality-aleph/src/justification.rs:33-46 | in every reachable state blocks certified under the authorities of any two sessions are ancestor-related |
| ManySessions.FinalizedOnOneBranch | finality-aleph/src/justification.rs:106-143 | any two blocks that honest nodes ever finalized, in any sessions and at any times, are ancestor-related |
| ManySessions.FinalizationExtends | finality-aleph/src/justification.rs:120-131 | along every run each node's finalized block moves to descendants only, through sessions and restarts |
| ManySessions.SignsThePath | finality-aleph/src/party.rs:213-217 | an item makes a reader sign exactly the blocks from its `last_finalized` up to its next one |
| ManySessions.RunSigns | finality-aleph/src/party.rs:199-224 | in every reachable state honest nodes have signed the whole of the paths that their readers came along |
| ManySessions.CertifiedOncePassed | finality-aleph/src/party.rs:199-224 | in every reachable state a block is certified once readers of all honest members of a quorum have passed it |
| ManySessions.CertifiedOnceRead | finality-aleph/src/party.rs:199-224 | in every reachable state what a session's list leads to is certified once all honest members of a quorum have read the list |
| ManySessions.ReleasedIsAdmitted | finality-aleph/src/data_io.rs:51-53 | a block named in a message the data store has sent on passes the availability test of every later view |
| NaiveStore.OneExpires | finality-aleph/src/data_io.rs:171-173 | in a store within its window, forgetting the one id `message_id - MESSAGE_ID_BOUNDARY` is keeping the window |
| DataIndex.ListedArePositive | finality-aleph/src/data_io.rs:209-218 | every id found in a dependent set has a positive counter and a pending message: both `expect`s hold and the decrement does not underflow |
| DataIndex.PushedRepresents | finality-aleph/src/data_io.rs:207-226 | counting down the messages under a block is, for the plain store, supplying that block; the counting invariant holds again |
| DataIndex.PushedFreed | finality-aleph/src/data_io.rs:214-222 | the messages whose counters reach zero are exactly those that missed only this block |
| DataIndex.ForgottenRepresents | finality-aleph/src/data_io.rs:144-156 | removing every trace of an id from the three maps is forgetting one message, and leaves no empty set |
| DataIndex.UnlistedEverywhere | finality-aleph/src/data_io.rs:146-154 | walking over the message's own blocks removes the id from every set that holds it |
| DataIndex.InsertedRepresents | finality-aleph/src/data_io.rs:158-169 | a new message stands for an entry that misses its required blocks, with repeats as slack of the counter |
| DataStore.DataStore.constructor | finality-aleph/src/data_io.rs:79-95 | starts empty, for any cache capacity |
| DataStore.DataStore.ForgetMessage | finality-aleph/src/data_io.rs:144-156 | the three maps lose every trace of the id; the plain store forgets one message |
| DataStore.DataStore.CountDown | finality-aleph/src/data_io.rs:210-223 | one listed message counts down by one, and goes out exactly when it reaches zero |
| DataStore.DataStore.PushMessages | finality-aleph/src/data_io.rs:207-226 | in whatever order the ids come, exactly the messages that missed only this block go out |
| DataStore.DataStore.AddBlock | finality-aleph/src/data_io.rs:228-232 | the block is cached and supplied; cached blocks and keys of `dependent_messages` stay disjoint |
| DataStore.PutKeepsRank | finality-aleph/src/data_io.rs:228-230 | the cache drops the least recently used: the block put comes first, every other keeps its rank behind it, and those beyond the capacity go |
| DataStore.DataStore.AddPendingMessage | finality-aleph/src/data_io.rs:158-174 | the message is inserted under the next id and the window moves on |
| DataStore.DataStore.FilterBlocks | finality-aleph/src/data_io.rs:177-195 | the filter returns the unavailable blocks, repeats kept, and on the way supplies the available ones to waiting messages, cached or not |
| DataStore.DataStore.AddMessage | finality-aleph/src/data_io.rs:176-205 | new state and messages sent are those of the plain store on receipt |
| DataStore.DataStore.Maintain | finality-aleph/src/data_io.rs:124-136 | new state and messages sent are those of a plain store that is supplied every wanted block now available |
| DataStore.Turn | finality-aleph/src/data_io.rs:110-141 | each event keeps the invariant and sends, as a multiset, what the plain store emits, which `Availability.EventReleases`, `GoneOutIff` and `AtOnceIff` state by the blocks that an event brings |
| DataStore.Run | finality-aleph/src/data_io.rs:107-142 | for every run with a growing client, each event sends exactly what the plain store emits, whatever the capacity of the cache, and all blocks of a message sent are available at that event |
| Availability.WindowBounds | finality-aleph/src/data_io.rs:171-173 | in every run pending ids lie in the last 100000 and at most 100000 messages wait |
| Availability.Conservation | finality-aleph/src/data_io.rs:144-226 | in every run the messages received are, as a multiset, those emitted, those waiting and those given up by the window |
| Availability.MaintenanceReleases | finality-aleph/src/data_io.rs:124-136 | after a maintenance pass no waiting message with distinct blocks has all its blocks available |
| Availability.EventReleases | finality-aleph/src/data_io.rs:112-136 | after any event, import, message or maintenance, no waiting message misses a block that the event brings, and one without repeats that missed nothing else has been sent by it |
| Availability.MissingSince | finality-aleph/src/data_io.rs:207-226 | in any run a waiting message misses exactly the blocks that it lacked when it came and that no event has brought since |
| Availability.GoneOutIff | finality-aleph/src/data_io.rs:112-136 | in any run a message within the window has gone out exactly when none of the blocks it lacked was named twice and each has been brought since, by import, by another message or by maintenance |
| Availability.GoesOutIsSent | finality-aleph/src/data_io.rs:214-222 | what goes out at an event is among the messages sent at that event |
| Availability.AtOnceIff | finality-aleph/src/data_io.rs:197-204 | a message is sent as it comes exactly when all its blocks are available, and begins to wait otherwise |
| Availability.ReleasedIffNoRepeats | finality-aleph/src/data_io.rs:124-136 | in any run, at a maintenance pass with all its blocks available, a message that had to wait and is within the window has gone out exactly when the blocks it lacked had no repeat |
| Availability.RepeatsHoldForEver | finality-aleph/src/data_io.rs:161-168 | in any run a message that lacked a block twice is never sent on, and waits exactly as long as it is within the window |
| Availability.Fate | finality-aleph/src/data_io.rs:144-226 | in any run a message that had to wait is still pending exactly when it has neither gone out nor left the window |
| Availability.EmittedIsAvailable | finality-aleph/src/data_io.rs:176-232 | in every run with a growing client all blocks of a message sent on are available to the client at that event: known, or not above the finalized number |
| Availability.SentIffAvailable | finality-aleph/src/data_io.rs:181-194 | what some run can send on, for a given client at that event, is exactly what is available to the client |
| Availability.ImportedIff | finality-aleph/src/data_io.rs:51-53 | that all blocks sent on are imported holds of a block exactly when it is imported or above the finalized number |
| Availability.SentIsImported | finality-aleph/src/data_io.rs:51-53 | in any run all blocks of a message sent on are imported exactly when no unknown one is as low as the finalized number |
| Availability.UnknownBlockIsSent | finality-aleph/src/data_io.rs:189-192 | a message that names an unknown block not above the finalized number goes out as it comes |
| Availability.RepeatedBlockIsStuck | finality-aleph/src/data_io.rs:161-168 | a run in which a block named twice arrives, maintenance passes, and the message still waits |
| Sessions.SessionRange | finality-aleph/src/lib.rs:230-239 | a number belongs to a session exactly when it lies from its first to its last block, saturation included |
| Sessions.LastBlockRoundTrip | finality-aleph/src/lib.rs:230-239 | a session's last block belongs to it and the next number to the next session |
| Sessions.EarlierFits | finality-aleph/src/lib.rs:230-235 | sessions do not overlap: the last block of an earlier one is at least a period lower and below the later one's first |
| Justification.JustificationHandler.Look | finality-aleph/src/justification.rs:196-207 | the handler goes on only with the authorities stored for the session of the next height, that session's last block and the finalized number it read |
| Justification.JustificationHandler.HandleJustificationNotification | finality-aleph/src/justification.rs:106-143 | the finalized block becomes the notified one exactly when it gets through the handler's test and the client accepts it; `Coupling.FinalizesIff` states that test on runs |
| Justification.JustificationHandler.RequestJustification | finality-aleph/src/justification.rs:145-167 | a request goes out only when both timers ran out and the client has the block, and restarts one timer |
| Justification.ConsensusParty.EnterSession | finality-aleph/src/party.rs:417-445 | the session's authorities are inserted, unless the runtime fails |
| Justification.ConsensusParty.SessionOver | finality-aleph/src/party.rs:493-501 | the party's test of the finalized number tells exactly when the handler wants a later session |
| Justification.ConsensusParty.PruneSessionData | finality-aleph/src/party.rs:508-515 | keeps exactly the sessions not below the bound |
| Justification.ConsensusParty.AfterSession | finality-aleph/src/party.rs:524-526 | pruning happens every ten sessions, from the tenth on, and keeps exactly those not more than ten below the one just ended |
| Node.StepParty | finality-aleph/src/party.rs:417-528 | on the shared state a step of the party object is the step system's |
| Node.StepHandler | finality-aleph/src/justification.rs:196-228 | on the shared state a turn of the handler object, its request included, is the step system's |
| Node.RunNode | finality-aleph/src/justification.rs:169-229 | for any list of actions the two objects go through a run of the step system, up to the first action that cannot happen |
| Coupling.RunIsSafe | finality-aleph/src/justification.rs:196-217 | in every run, skipped sessions included, each finalization rises above the last one and stays in the session wanted at that moment |
| Coupling.FinalizedUnderOwnSession | finality-aleph/src/justification.rs:115-127 | in every run each finalized block was verified under the authorities of the session its own number falls in |
| Coupling.NoBoundaryJumped | finality-aleph/src/justification.rs:120-131 | every session's last block between the first and the current finalized number was finalized by a step of its own |
| Coupling.FinalizedNumberRises | finality-aleph/src/justification.rs:120-131 | the finalized number rises strictly with each finalization |
| Coupling.FinalizesIff | finality-aleph/src/justification.rs:106-143 | in any run a notification is finalized exactly when it verifies under the authorities of the session of the next height, its number is above the finalized one and not above that session's last block, and the client accepts it; after that last block the next session is wanted |
| Coupling.OnlyNotifyFinalizes | finality-aleph/src/justification.rs:209-217 | no other step of either task changes the finalized block |
| Coupling.AsksIff | finality-aleph/src/justification.rs:145-167 | in any run a turn of the handler asks for the justification of the wanted session's last block exactly when the client has that block, the last finalization is more than a cadence ago and the last request more than two |
| Coupling.RequestsAreSpaced | finality-aleph/src/justification.rs:145-167 | in every run each justification asked for is for a session's last block, more than two cadences after the one before |
| Coupling.StepKeepsCoupled | finality-aleph/src/party.rs:417-528 | every step of either task keeps the invariant that couples party, handler and map of authorities |
| Coupling.PrunedHolds | finality-aleph/src/party.rs:524-526 | pruning leaves the sessions of an interval that ends at the current one |
| Coupling.TwoTaskCoupling | finality-aleph/src/party.rs:443-528 | from one insertion of authorities to the next: the finalized number lies between the two sessions' last blocks, the handler wants this session or the next, this session's authorities are there, and the map holds only the last 21 sessions |
| Coupling.LooksIff | finality-aleph/src/justification.rs:196-207 | in any run the handler goes on exactly when the party is in the session of the next height, with the finalized number, that session's last block and its authorities |
| Coupling.LeavesIff | finality-aleph/src/party.rs:493-501 | in any run the party leaves a session exactly when its last block is finalized |
| Coupling.GoesOn | finality-aleph/src/party.rs:493-528 | from a coupled state a verified notification of the session's last block, looked for, handled and checked, takes the node into the next session with its authorities |
| Coupling.RunGoesOn | finality-aleph/src/party.rs:493-528 | so no reachable node is stuck in a session whose last block can still be certified |
| Coupling.SkipStalls | finality-aleph/src/party.rs:436-439 | a skipped session leaves the handler wanting authorities that never come unless its last block is final already |
| Coupling.StalledForEver | finality-aleph/src/party.rs:436-439 | no sequence of the two tasks' steps makes a stalled node finalize again |
| Peers.Peers.Insert | finality-aleph/src/network.rs:178-180 | a connecting peer gets an empty record, whatever it had |
| Peers.Peers.Authenticate | finality-aleph/src/network.rs:189-201 | the peer's record and the session's table each gain one entry, and nothing else changes |
| Peers.Peers.Remove | finality-aleph/src/network.rs:203-212 | the record goes, each node it names leaves its session's table, and empty tables go |
| Peers.BindsAfter | finality-aleph/src/network.rs:178-212 | what a connect, an authentication and a removal do to every peer's record, mirrored or not |
| Peers.PointsAfter | finality-aleph/src/network.rs:178-212 | and to every entry of the sessions' tables: only an authentication adds one, only the leaving of a peer bound to the node clears one |
| Peers.KnownAfter | finality-aleph/src/network.rs:178-212 | a peer is known from its connect or first authentication until it leaves |
| Peers.VerifyMirrors | finality-aleph/src/network.rs:189-201 | an authentication keeps the maps inverse exactly when it rebinds neither peer nor node in the session |
| Peers.ConnectMirrors | finality-aleph/src/network.rs:178-180 | a connect keeps the maps inverse exactly when the peer has no bindings |
| Peers.DisconnectMirrors | finality-aleph/src/network.rs:203-212 | a removal keeps the maps inverse, leaves no reference to the peer and all others to the rest |
| Peers.MirroredIffWellBehaved | finality-aleph/src/network.rs:165-212 | over every run the two maps stay exact inverses with no empty table if and only if every change is well behaved |
| Peers.ReconnectLeavesAReference | finality-aleph/src/network.rs:178-212 | a bound peer that connects again and leaves is still in its session's table |
| Network.ConsensusNetwork.AuthenticateTo | finality-aleph/src/network.rs:405-415 | queues this node's signed claim for one peer |
| Network.ConsensusNetwork.OnIncomingAuthentication | finality-aleph/src/network.rs:448-465 | a claim is recorded exactly when its session is known and its signature verifies |
| Network.ConsensusNetwork.OnIncomingMeta | finality-aleph/src/network.rs:417-437 | a claim counts only from the peer it names; a request is answered if the session is known |
| Network.ConsensusNetwork.OnIncomingData | finality-aleph/src/network.rs:395-446 | data reaches the user of a session in progress; a user that is gone terminates it |
| Network.ConsensusNetwork.OnIncomingMessage | finality-aleph/src/network.rs:467-494 | data from a peer not authenticated for the session is dropped and answered by a request |
| Network.ConsensusNetwork.OnCommand | finality-aleph/src/network.rs:496-531 | what goes out for each command and recipient, in any order of the hash map; `Network.SentForCommand` states it entry by entry |
| Network.ConsensusNetwork.OnPeerConnected | finality-aleph/src/network.rs:533-538 | a record for the peer and one claim queued for each session |
| Network.ConsensusNetwork.OnPeerDisconnected | finality-aleph/src/network.rs:540-542 | the peer is removed from the index |
| Network.DataGoesToVerified | finality-aleph/src/network.rs:510-528 | in every run each data message goes out for a node of its session to a peer that itself presented a verified claim to be that node |
| Network.DeliveredCameFromVerified | finality-aleph/src/network.rs:467-476 | in every run data delivered to a session's user came from a peer verified for that session since it last connected or disconnected |
| Network.BindsIff | finality-aleph/src/network.rs:448-465 | in any run a peer is bound to a node of a session exactly when that is its last valid claim for the session since it last connected or left |
| Network.PointsIff | finality-aleph/src/network.rs:189-212 | in any run a node's messages go to a peer exactly when it was the last to prove to be that node and no peer bound to the node has left since |
| Network.KnownIff | finality-aleph/src/network.rs:178-212 | in any run a peer is known exactly from a connect or valid claim until it leaves |
| Network.InProgressIff | finality-aleph/src/network.rs:395-446 | in any run a session is in progress exactly from its last start until data for it finds its user gone |
| Network.TurnEndsDrops | finality-aleph/src/network.rs:604-606 | the sessions left at the end of a turn are exactly those in progress |
| Network.DeliveredIff | finality-aleph/src/network.rs:467-476 | in any run data reaches the user exactly when the session is in progress, the user listens and the peer is bound for the session |
| Network.Answered | finality-aleph/src/network.rs:417-494 | what each event queues: the claim for its asker, a request to an unauthenticated sender, the announcement of a session, a user's data; and only commands send |
| Network.GreetedForEach | finality-aleph/src/network.rs:533-538 | a peer that connects is queued this node's claim for every session, each once |
| Network.SentForCommand | finality-aleph/src/network.rs:496-531 | in any run a data broadcast sends one message for every node of the session's table, to its peer; data for a node is sent exactly when the table has it; a broadcast claim goes once to every known peer; the command leaves the queue |
| Network.IndexFollowsChanges | finality-aleph/src/network.rs:417-542 | the peer index of a run is the result of its connects, verified claims and disconnects in order |
| Network.WellBehavedRunIsMirrored | finality-aleph/src/network.rs:178-228 | in a well-behaved run the index is a pair of inverses, and a message for a node goes to a peer verified as that node since it last connected |

## Left out

- AlephBFT, reliable multicast and signature cryptography: a common list, arriving multisignatures and an arbitrary verification predicate stand for them.
- The Substrate client, its backend and runtime: a header map, a set of known hashes, a finalized block and an accept-or-fail outcome stand for them. A header lookup that fails with an error counts as an unknown block; the notified number is taken to be the block's own.
- A client that gains blocks inside one event, that is, between two lookups of one walk or one batch: answers are fixed within an event.
- Ordering within one event of the data store: `HashMap` and `HashSet` iteration order is left open, so what an event sends is compared as a multiset.
- Overflow of `(session + 1) * period` in `u32` and of the `u64` message id: sessions are taken to fit and ids not to wrap.
- tokio tasks, timers, channels that fail, `split_network` and the ordered shutdown in `run_session_as_authority`.
- The early-skip attempts of `run_session`: they leave the session under the same test as its waiting loop. That a runtime answering without an error may lack the authorities (a panic in the source) is left out too.
- Skipped sessions in `ManySessions`: a node that skips one stalls (`Coupling.StalledForEver`) and is not followed further there.
- Progress in time: `ManySessions.CertifiedOnceRead`, `Coupling.RunGoesOn` and `Availability.GoneOutIff` say what steps lead to, not that they are taken or that timers fire.
- Messages that cannot be decoded, `SyncConnected` and `SyncDisconnected` (reserved peers), metrics, logging, block import, the pallet, configuration and the command line.
