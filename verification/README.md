# Glade's replication, modelled and proved

Glade replicates append-only chains of ops, one for each origin in each zone, between clients and
nodes, and nodes replicate a directory of signed records the same way. This project models the
machinery that has to stay right while both sides run, and proves what it is for.

- **Conversations** (`Framing`, `Conversation`, `FrameLog`, `TwoEnds`, `Delivery`). Two ends share one
  FIFO link. Each has a table of routes, a number allocator and END and RESET rules, with a writer, a
  reader and callers as separate actions. Their tables and both queues are one transition system, and
  the theorems are about every run of it.
- **The client** (`Text`, `Ops`, `Sessions`, `SessionLaws`, `Answers`, `AnswerLaws`, `Subscribes`,
  `SubscribeLaws`, `Client`, `ClientLaws`, `ClientRuns`, `ClientHistory`). The session and its folds,
  the table of sends, the table of subscribes, and the client that steps all three for each frame,
  send, connection and timer.
- **The browser's store** (`Stores`, `StoreLaws`, `Folds`). Chains in a map, a sync by heads, a dump
  and its load, and the folds.
- **The directory** (`Claims`, `Compaction`, `CompactionLaws`, `CheckpointRegister`, `Bindings`,
  `BindingLaws`, `Exchanges`, `ExchangeLaws`). Claims folded into checkpoints, the register that keeps
  a node's newest checkpoint, app files registered against the binding fold, and the calls handed to
  providers.
- **Bytes** (`Cbors`, `CborLaws`, `Streams`, `Envelope`, `WebSockets`, `Bitwise`, `Sha256`, `Sha256Js`). The bounded CBOR
  reader and the envelopes it opens, WebSocket frames, and SHA-256 over typed arrays.

Each component is given twice where the source updates it in place: as functions on values, about which
the laws are proved, and as a class or a method with a loop whose contract equates it with those
functions. A system is a deterministic step over a list of actions; a run is any list.

## What was found

- A repeat of a slot under another lamport is not an equivocation to the browser's folds, so which copy
  is seen first decides a value and a log (`Folds.RepeatsUnderAnotherLamport`), where
  `client-ts/src/fold.ts:1-2` calls them functions of the op-set. `Folds.ValueIsOfTheSet` and
  `Folds.LogIsOfTheSet` say exactly, for every list of ops, when each is one. Such a list reaches only a
  direct caller of the exported folds: in what a store lists for a zone, named without NULs, every slot is
  one op's (`StoreLaws.ZoneAgrees`), and there the log always is a function of the set and the value is
  where the highest ops carry one payload.
- A frame a client could not take abandons every waiting subscribe, but the node still acks them, so a
  node that acks in order can have a late ack abandon a later subscribe (`ClientHistory.LateAckAbandons`).
  An ack is its own subscribe's exactly while the node, since each such frame, has once had every subscribe
  asked acked (`ClientHistory.AckFindsItsOwn`); out of that it is met by a later one, and abandons those
  waiting exactly when it names a zone and that one's is another (`ClientHistory.AckTakenBy`).
- A chain's lamports need not rise with its seqs: an op that a refusal dropped may come back once the
  chain has gone on (`SessionLaws.RiseBreaks`). They rise exactly while each op a batch stores is above the
  chain's last (`SessionLaws.ChainRises`). The folds need only that an origin's lamports are distinct, which
  they are through refusals, replays and restarts (`SessionLaws.OwnLamportsDiffer`).
- A retraction takes down its own origin's declaration alone, so registering an app's file makes its
  live bindings the file's, and leaves nothing to append, exactly when no other origin has one live that
  the file does not list (`BindingLaws.RegisterMakesTheFile`, `BindingLaws.SecondAppendsNothing`). A
  node's own registry holds one origin, and there it always does (`BindingLaws.StartRegisters`).

## Model

| member | source | states |
|---|---|---|
| Framing.HeaderInvertsEncode | node/src/conversation.rs:360-366 | Reading a frame's header undoes writing it, and a frame is the only encoding of its number, kind and body. |
| Conversation.Linked.Put | node/src/conversation.rs:218-238 | A frame is queued on its conversation's number; the first takes this end's next number and a route first; an ended link and spent numbers are errors. |
| Conversation.Linked.Finish | node/src/conversation.rs:244-260 | An END or a RESET is queued once, and its route goes, or stays until the peer's END. |
| Conversation.Linked.RouteFrame | node/src/conversation.rs:264-308 | Where the reader puts a frame: delivered, opened, or dropped, with a RESET for want of room. |
| Conversation.Linked.Held | node/src/conversation.rs:290-300 | How many of the peer's conversations are open. |
| Conversation.Linked.End | node/src/conversation.rs:197-200 | Ending the link queues nothing more but its close. |
| Conversation.Linked.LinkEnded | node/src/conversation.rs:204-212 | The reader's end of the link takes every route. |
| TwoEnds.StepKeeps | node/src/conversation.rs:197-366 | Every action of either end, its writer or its reader keeps the invariant over both tables, both histories and both queues. |
| TwoEnds.RunKeeps | node/src/conversation.rs:152-366 | Every reachable pair of ends meets that invariant. |
| TwoEnds.TakenFrame | node/src/conversation.rs:264-308 | An honest peer's first frame on a number is a FRAME above every earlier one, so the gate on its numbers never drops it: it opens, or is reset for want of room. |
| Delivery.ReadsAreAPrefix | node/src/conversation.rs:421-449 | In every run, what has been read on a conversation is a prefix, in order and without repeats, of what the far end put on it. |
| Delivery.ErrorsSayWhatHappened | node/src/conversation.rs:421-449 | A clean end is read only once the far end has put END and every frame before it was read; a reset or the link's end never reads as clean. |
| Delivery.NothingIsLost | node/src/conversation.rs:264-358 | While both ends run, what the far end put on a held conversation is read, queued, in hand, in transit or waiting to be written. |
| Delivery.NumbersRise | node/src/conversation.rs:218-238 | Each end's numbers have its own parity and rise: a later frame is on a number in use, or on a higher one, which it opens with a FRAME. |
| Delivery.EachNumberOpensOnce | node/src/conversation.rs:286-308 | The peer opens a number at most once, whatever the run. |
| Delivery.PeerHoldsAtMost | node/src/conversation.rs:290-300 | At most `PEER_OPEN` of the peer's conversations are in either table in every run. |
| Delivery.StepQueues | node/src/conversation.rs:218-260 | A step queues at most one frame, an END only by `end`, a RESET only by a drop or for want of room. |
| Delivery.EndsAreCalled | node/src/conversation.rs:453-466 | An END on a conversation is the far caller's own `end` of it. |
| SessionLog.Session.Store | client-rs/src/session.rs:83-96 | An op that is its chain's next is stored; a repeat or a gap changes nothing. |
| SessionLog.Session.Append | client-rs/src/session.rs:154-189 | A local op takes its chain's next seq, links to its tip and moves the clock by one; an unsupported shape and a stopped chain change nothing. |
| SessionLog.Session.Refused | client-rs/src/session.rs:194-207 | A refused op the session holds goes with its tail, and its chain stops. |
| SessionLog.Session.Resumed | client-rs/src/session.rs:211-213 | The zone's chain goes on. |
| SessionLog.Session.ApplyRemote | client-rs/src/session.rs:223-236 | A batch with one unsupported op changes nothing; any other is taken op by op. |
| SessionLog.Session.OpsFor | client-rs/src/session.rs:108-117 | A zone's ops, its chains in whatever order the map lists them. |
| SessionLog.Dedup | client-rs/src/session.rs:251-257 | One op a slot, the first seen, in whatever order the slots are iterated. |
| SessionLog.FoldValue | client-rs/src/session.rs:259-273 | The payload of a winner by (lamport, origin). |
| SessionLog.FoldLog | client-rs/src/session.rs:275-285 | The payloads by (lamport, origin, seq). |
| SessionLog.Session.FoldedValue | client-rs/src/session.rs:238-241 | A zone's value, over its listing in whatever order. |
| SessionLog.Session.FoldedLog | client-rs/src/session.rs:243-246 | A zone's log, over its listing in whatever order. |
| Text.KeysNameChains | client-rs/src/session.rs:78-80 | With no NUL in a share or stream, a key names its chain and no other, and a zone's prefix begins its own chains' keys and no other's. |
| SessionLaws.RunKeeps | client-rs/src/session.rs:154-236 | Over every run every chain stays contiguous and the clock is at least every op's lamport. |
| SessionLaws.ListingIsTheZone | client-rs/src/session.rs:108-117 | A zone's fold sees exactly that zone's ops. |
| SessionLaws.ValueFoldsAgree | client-rs/src/session.rs:259-273 | The value fold answers alike whatever the order the logs are listed and deduped in, when one origin's lamports differ. |
| SessionLaws.LogFoldsAgree | client-rs/src/session.rs:275-285 | The log fold answers alike whatever that order. |
| SessionLaws.Converges | client-rs/src/session.rs:83-96 | A session holding a prefix of each chain, given the rest op by op in any interleaving, with repeats, each op first after the one before it, holds exactly the chains. |
| SessionLaws.ConvergesInRuns | client-rs/src/session.rs:154-236 | From any session holding a prefix of each chain, through any appends and remote batches, some refused whole: once the ops made and taken deliver the rest, its logs are the chains. |
| SessionLaws.OwnLamportsDiffer | client-rs/src/session.rs:154-236 | In every run whose batches bring an origin's chain no op but those it made, in the run, held or dropped by a refusal, or before a restart and below the clock when the run adds its own: the chain's lamports are distinct. |
| SessionLaws.ChainRises | client-rs/src/session.rs:83-236 | A chain's lamports rise all through a run exactly when each op a batch stores on it is above its last. |
| SessionLaws.RiseBreaks | client-rs/src/session.rs:194-213 | A run of an origin's own ops where a dropped op comes back after the chain went on: its lamports are 1, 4, 3. |
| SessionLaws.DistinctDiffers | client-rs/src/session.rs:259-273 | Where each chain's lamports are distinct, no two ops of an origin in a zone rank alike. |
| SessionLaws.ReplicasFoldAlike | client-rs/src/session.rs:154-285 | Two sessions, each appending its own and given batches until both hold the chains, fold each zone to one value and one log, when no two of an origin's values have one lamport. |
| SessionLaws.LocalValueWins | client-rs/src/session.rs:154-189 | A local value append is what its zone folds to next. |
| SessionLaws.RefusalStopsTheChain | client-rs/src/session.rs:154-213 | From a refusal, through any remote batches, appends, other refusals and resumes of other chains, every append of its zone fails and changes nothing and only batches bring its chain ops, until it is resumed; the append then takes its next seq. |
| AnswerTable.Table.ToSend | client-rs/src/answers.rs:113-141 | Ops offered in order: each goes, or is held and answered at once. |
| AnswerTable.Table.Sent | client-rs/src/answers.rs:145-152 | A sent op waits for its status; one more than the bound drops the first, and says so. |
| AnswerTable.Table.Status | client-rs/src/answers.rs:158-199 | A status settles the oldest send of the op it names, and the session with it. |
| AnswerTable.Table.Ended | client-rs/src/answers.rs:204-207 | Every send's fate is unknown, and no timer runs. |
| AnswerTable.Table.Unplaced | client-rs/src/answers.rs:211-220 | A zone's ops not placed and not in flight, in their chains' order. |
| AnswerTable.Table.StartResending | client-rs/src/answers.rs:224-231 | One timer a zone, and only while it has ops not placed. |
| AnswerTable.Table.NextResend | client-rs/src/answers.rs:234-239 | The zone's backoff, and its count one further. |
| AnswerTable.Table.ResendTick | client-rs/src/answers.rs:243-248 | A timer still the zone's has its ops to send again; any other stops. |
| AnswerLaws.NoOvertaking | client-rs/src/answers.rs:113-141 | An op goes exactly when every op of its chain before it, not placed, is in flight at that moment; held, it joins the ops not placed. |
| AnswerLaws.ResendGoesWhole | client-rs/src/answers.rs:113-141 | While the table has room, `to_send` of a zone's ops not placed sends them all, in chain order, none held; then none of the zone's is left. |
| AnswerLaws.SendsTellOrHold | client-rs/src/answers.rs:113-152 | Of the waiters a send is given, each is held or told at once: as multisets, none lost and none doubled. |
| AnswerLaws.StatusTells | client-rs/src/answers.rs:158-199 | A status moves one waiter from held to told, or none. |
| AnswerLaws.StatusAnswersTheOldest | client-rs/src/answers.rs:158-199 | The send a status settles is the first waiting under its hash; none other moves. |
| AnswerLaws.StatusSettles | client-rs/src/answers.rs:158-199 | What each outcome leaves not placed: a refusal takes its op and the tail; a gap past an op not placed is not placed. |
| AnswerLaws.StatusKeepsTimers | client-rs/src/answers.rs:158-199 | A zone's timer runs only while it has ops not placed. |
| SubscribeTable.Table.Acked | client-rs/src/answers.rs:351-372 | The ack of the oldest subscribe: a refusal, a replay to wait for, or, naming another zone, every subscribe abandoned. |
| SubscribeTable.Table.Reason | client-rs/src/answers.rs:376-385 | An error naming no op is the reason of the oldest refused subscribe it names. |
| SubscribeTable.Table.RefusedAfterAck | client-rs/src/answers.rs:392-424 | Otherwise it refuses each live zone it names, and each subscribe of one still catching up. |
| SubscribeTable.Table.Received | client-rs/src/answers.rs:433-443 | Received ops raise what was seen, and return the subscribes of their zones then caught up. |
| SubscribeTable.Table.Answered | client-rs/src/answers.rs:447-453 | An op answered `Ok` counts to a replay; any other does not. |
| SubscribeTable.Table.Failed | client-rs/src/answers.rs:457-463 | A refused frame fails the catching subscribes of its zones, and only those. |
| SubscribeTable.Table.NotTaken | client-rs/src/answers.rs:468-470 | Every waiting subscribe is abandoned; what the connection saw stays. |
| SubscribeTable.Table.Ended | client-rs/src/answers.rs:474-478 | All that waited is abandoned, and nothing is seen or live. |
| SubscribeTable.Table.CaughtUp | client-rs/src/answers.rs:496-510 | Exactly the looked-at subscribes whose heads are reached leave, in order. |
| SubscribeLaws.AckDropsNone | client-rs/src/answers.rs:351-372 | No subscribe waits for a replay already in, so what an ack catches up is its own subscribe or none, and taking the last of it drops no waiter. |
| SubscribeLaws.RefusalNamesAZone | client-rs/src/client.rs:180-185 | A subscribe refused after its ack has a live zone refused with it, so the test for no zones drops none; and no zone named stays live. |
| SubscribeLaws.OthersSettle | client-rs/src/answers.rs:376-487 | Every other operation keeps both of those. |
| SubscribeLaws.AckTells | client-rs/src/answers.rs:351-372 | An ack tells or holds its subscribe's waiter, or tells every one. |
| SubscribeLaws.RefusalTells | client-rs/src/answers.rs:392-424 | A refusal after the ack tells those it takes. |
| SubscribeLaws.CatchUpTells | client-rs/src/answers.rs:496-510 | Catching up tells exactly those it takes. |
| SubscribeLaws.AbandonTells | client-rs/src/answers.rs:480-487 | An abandonment tells every waiter held. |
| ClientInner.Inner.Take | client-rs/src/client.rs:140-214 | The dispatch of one frame over the session and the two tables. |
| ClientInner.Inner.TakeError | client-rs/src/client.rs:173-196 | An error: a refused subscribe's reason, else zones refused after their ack, else an op's status, and the catching up it brings. |
| ClientInner.Inner.CaughtUp | client-rs/src/client.rs:260-274 | For each subscribe: the zone's chain resumed, its ops not placed sent again, then its waiter told. |
| ClientInner.Inner.Ship | client-rs/src/client.rs:303-312 | Ops go in one frame when every one is supported and the client is connected, else nothing changes. |
| ClientInner.Inner.AppendOp | client-rs/src/client.rs:511-531 | An append is refused before the chain moves, or made and offered at once. |
| ClientInner.Inner.EndWaiting | client-rs/src/client.rs:292-298 | Each waiting op's fate is unknown, each waiting subscribe abandoned. |
| ClientInner.Inner.Establish | client-rs/src/client.rs:430-442 | A new connection first ends all that waited on the one before. |
| ClientInner.Inner.OnConnectionEnd | client-rs/src/client.rs:279-287 | A connection that ends leaves the client unconnected and ends all that waited on it. |
| ClientInner.Inner.ResendTurn | client-rs/src/client.rs:339-362 | One turn of a zone's resend loop. |
| ClientLaws.TakeErrorCounts | client-rs/src/client.rs:173-196 | The early returns of the error path lose no waiter of either table. |
| ClientRuns.RunKeeps | client-rs/src/client.rs:140-362 | Over every run: the session sound, no replay already in left waiting, every zone being caught up live, timers only where needed, every op sent or kept supported, and nothing waiting off a connection. |
| ClientRuns.EachWaiterHearsOnce | client-rs/src/client.rs:140-531 | In every run each waiter given to the client has been told once or is still held; off a connection none is held. |
| ClientRuns.ReturnPlaces | client-rs/src/client.rs:260-274 | When a subscribe returns, its zone's chain is not stopped and, with room in the table, its ops not placed are all on their way, in order, in one frame. |
| ClientHistory.AcceptedWhenReached | client-rs/src/answers.rs:351-510 | `Accepted` is told exactly when the ops the connection received, or had answered `Ok`, reach every acked head: told by then, and not reached while it waits. |
| ClientHistory.LiveMeansAckedSince | client-rs/src/answers.rs:357-430 | A zone is live exactly when an ack on this connection named it and nothing has refused it since. |
| ClientHistory.UnackedAreTheLastAsked | client-rs/src/answers.rs:341-372 | In every run the subscribes not acked are the last ones asked on the connection. |
| ClientHistory.AcksBehind | client-rs/src/answers.rs:341-470 | Against a node that acks in the order asked, in every run the acks and the subscribes not acked are together no more than those asked, and fall short exactly while a frame not taken has left some subscribe unacked ever since. |
| ClientHistory.AckFindsItsOwn | client-rs/src/answers.rs:351-470 | Against a node that acks in the order asked, in every run: the subscribes not acked are those past the acks exactly while, since each frame not taken, every subscribe asked was once acked; and then an ack meets its own subscribe and abandons none. |
| ClientHistory.AckTakenBy | client-rs/src/answers.rs:351-470 | In any such run an ack meets the first subscribe not acked, never one before its own, and its own exactly on that condition; it abandons those waiting exactly when it names a zone and the one it meets is not of its own subscribe's zone. |
| ClientHistory.LateAckAbandons | client-rs/src/answers.rs:468-470 | A run against such a node where a frame not taken makes a later ack abandon another subscribe. |
| ClientHistory.AckedIsNotEnough | client-rs/src/answers.rs:351-470 | A run where every subscribe asked before the frame not taken has been acked, and the next ack is still met by a later subscribe than its own. |
| Compaction.FindSuperseded | node/src/checkpoint.rs:157-174 | One backward pass against the standing claims finds exactly the claims some later one supersedes. |
| ClaimsDirectory.Directory.Due | node/src/checkpoint.rs:238-261 | What a tick folds: nothing, or the floor at the tip and the claims to carry. |
| ClaimsDirectory.Directory.Tick | node/src/checkpoint.rs:203-232 | The appends of a tick, and what its checkpoint leaves of the chain. |
| ClaimsDirectory.Directory.RenewLeases | node/src/claims.rs:469-496 | Each served share's lease renewed at its epoch. |
| ClaimsDirectory.Directory.ServeWorkspace | node/src/claims.rs:298-347 | A share is followed where another node last owned it, else claimed one epoch past any known. |
| ClaimsDirectory.Directory.Place | node/src/registry.rs:574-608 | A placed checkpoint leaves no op at or below its base. |
| Claims.FoldBest | node/src/claims.rs:540-557 | The highest claim by the fold's own rank, as the served store reads them. |
| Claims.FoldLastBest | node/src/registry.rs:769-776 | The same as the registry reads them. |
| Claims.BestIsHighest | node/src/registry.rs:757-776 | Both folds answer a claim nothing counted outranks, or none when there is none. |
| Claims.HoldersAgree | node/src/registry.rs:753-776 | The two readings of the claims, each in its own order, give one holder. |
| Claims.FoldsAgree | node/src/claims.rs:524-557 | Claims that stand for others fold alike with anyone else's, at every clock. |
| Compaction.CarriedAreHeld | node/src/checkpoint.rs:203-232 | A fold carries no more claims than it covers ops, though some may not decode, so what it counts as dropped never underflows. |
| CompactionLaws.TickLeaves | node/src/checkpoint.rs:203-232 | Without a fold the renewals follow the chain; with one every op left is past the old tip: the claims carried, then the renewals. |
| CompactionLaws.TickKeepsMeaning | node/src/checkpoint.rs:152-261 | After a tick, `who_serves` at every instant, the highest epoch, `home_epoch` and whether a share is known are as over the held claims and renewals, with any other nodes' claims. |
| CompactionLaws.FoldingChangesNothing | node/src/claims.rs:298-557 | Over any run of serves and renewals, a node that folds serves the same shares at the same epochs as one that never folds, and every fold answers alike over the two. |
| CompactionLaws.ChainStaysShort | node/src/checkpoint.rs:203-261 | On a clock that never goes back, with one served set of K shares, the chain never holds more than `after` ops, those no claim supersedes at the start, and 2K. |
| CheckpointRegister.NeverFalls | node/src/registry.rs:523-608 | Over any arrivals, checkpoints and ops: the held seq and base only rise, a base keeps its hash, the chain stays contiguous and linked from its floor to its tip, and an op goes only under a floor that agrees with it. |
| CheckpointRegister.HoldsTheNewest | node/src/registry.rs:523-608 | Given one node's checkpoints and ops in any order, with repeats and gaps, the register holds the newest checkpoint that came, and none is told a fork, a break or a rewrite. |
| CheckpointRegister.TakesHonest | node/src/checkpoint.rs:90-150 | Such an arrival leaves all held the node's own; a checkpoint newer than the held one replaces it, and nothing else does. |
| CheckpointHolder.Holder.Place | node/src/registry.rs:574-608 | A checkpoint placed is held, cuts the chain and moves a tip at or under its base; any other changes nothing. |
| CheckpointHolder.Holder.Link | node/src/registry.rs:523-563 | An op is under the floor, a fork at it, a repeat, a fork, a gap, a break, or the next of the tip. |
| StoreLog.Store.Append | client-ts/src/store.ts:55-76 | An op is stored as its chain's next, or told a repeat, an equivocation, a gap or a chain break, and then nothing changes. |
| StoreLog.Store.DropFrom | client-ts/src/store.ts:80-91 | A chain's ops go from a seq on, and the chain with its last op. |
| StoreLog.Store.Heads | client-ts/src/store.ts:100-106 | The last seq of each of a share's chains. |
| StoreLog.Store.OpsFor | client-ts/src/store.ts:110-117 | A zone's ops, its chains as they were first stored. |
| StoreLog.Store.MissingFor | client-ts/src/store.ts:133-141 | The ops past a peer's heads, chain by chain. |
| StoreLog.Store.Dump | client-ts/src/store.ts:144-146 | Every op, chain by chain. |
| StoreLog.Store.ApplyRemote | client-ts/src/session.ts:64-80 | Ops appended one by one, those not taken passed over. |
| StoreLog.LoadStore | client-ts/src/store.ts:149-153 | A store rebuilt from a dump, or the failure of an append that throws. |
| StoreLaws.RunKeeps | client-ts/src/store.ts:55-91 | Whatever is appended and dropped, every chain stays linked and in seq order, and the map lists its own chains. |
| StoreLaws.ForkIsRefused | client-ts/src/store.ts:55-76 | At a seq a chain holds, the same op is a repeat and one of another hash an equivocation. |
| StoreLaws.SyncAgrees | client-ts/src/store.ts:100-141 | Each applying the other's missing ops, two stores that fork no chain of the share end with the same chains of it, each the longer, and keep the rest. |
| StoreLaws.SyncedOps | client-ts/src/store.ts:100-141 | With no NUL in names, they end with the same ops of the share, and no other share's change. |
| StoreLaws.ZoneAgrees | client-ts/src/store.ts:110-117 | In what a store lists for a zone, with no NUL in names, each slot is one op. |
| StoreLaws.SyncedFolds | client-ts/src/store.ts:110-141 | Each zone of the share then folds alike: its log always, its value where the highest ops carry one payload. |
| StoreLaws.LoadRebuilds | client-ts/src/store.ts:144-153 | A dump loads back to the store it was taken of. |
| Folds.Value | client-ts/src/fold.ts:41-51 | The first of the highest by (lamport, origin), or the equivocation. |
| Folds.Log | client-ts/src/fold.ts:53-62 | The payloads by (lamport, origin, seq), or the equivocation. |
| Folds.EquivocationIsAFork | client-ts/src/fold.ts:64-72 | A fold throws exactly when two ops of one slot differ in payload or predecessor. |
| Folds.AgreeingIsSimple | client-ts/src/fold.ts:22-62 | Where each slot is one op, nothing forks, no log depends on the order, and the ops that can win are the highest. |
| Folds.LogIsOfTheSet | client-ts/src/fold.ts:53-62 | For any ops: every order and repetition gives one log exactly when two of them fork, or none of another slot and payload sorts between two copies of one slot. |
| Folds.ValueIsOfTheSet | client-ts/src/fold.ts:41-51 | For any ops: every order and repetition gives one value exactly when two of them fork, or all the ops that can win, each slot having a copy not above them, carry one payload. |
| Folds.RepeatsUnderAnotherLamport | client-ts/src/fold.ts:22-34 | A slot repeated under another lamport is no equivocation, and which comes first decides the value and the log. |
| CborReader.ParseBytes | node/src/envelope.rs:308-312 | The cursor's parse is the reader's function, total on every input. |
| CborReader.Reader.NextItem | node/src/envelope.rs:315-350 | One item at the cursor, containers only while depth allows. |
| CborReader.Reader.NextHead | node/src/envelope.rs:355-372 | One head at the cursor. |
| CborLaws.ParseInverts | node/src/envelope.rs:308-372 | Every value with containers at most two deep parses back from its encoding. |
| CborLaws.EncodingIsShortest | node/src/envelope.rs:308-372 | Bytes that parse are no shorter than their value's encoding, and as short only when they are it. |
| Envelope.OpensOnlySealed | node/src/envelope.rs:82-91 | A payload opens to an envelope exactly when it is that envelope's one encoding. |
| Envelope.KindIsOneEncoding | node/src/envelope.rs:281-301 | Bytes are a record of a kind exactly when they are the one encoding of a map of its fields. |
| Envelope.BareRecordsStayBare | node/src/envelope.rs:82-131 | No bare record of any directory kind opens as an envelope, and each is told for what it is. |
| Envelope.VerifiedIsSealed | node/src/envelope.rs:112-131 | An op an ingest accepts is of this build's format on disk. |
| Envelope.AcceptsExactlySealed | node/src/envelope.rs:218-244 | An ingest accepts exactly the one envelope of a record of its stream's kind, in form, signed with its chain position, a checkpoint naming its origin. |
| PendingCalls.Pending.File | node/src/exchange.rs:136-146 | A call is filed under the next minted correlation. |
| PendingCalls.Pending.Answered | node/src/exchange.rs:151-158 | The call a provider's reply answers, or nothing for another session's or an unknown one. |
| PendingCalls.Pending.Expired | node/src/exchange.rs:163-166 | The call whose bound passed, if still filed. |
| PendingCalls.Pending.Ended | node/src/exchange.rs:170-179 | A session's calls forgotten, and those pending on it returned. |
| ExchangeLaws.RunKeeps | node/src/exchange.rs:117-285 | Every step of filings, replies, bounds and departures keeps the account of calls. |
| ExchangeLaws.MintedOnce | node/src/exchange.rs:136-146 | No correlation is minted twice. |
| ExchangeLaws.EachCallLeavesOnce | node/src/exchange.rs:136-191 | In every run a filed call is pending or has left, not both, and left at most once. |
| ExchangeLaws.CallersHearTheirOwn | node/src/exchange.rs:136-285 | What callers are told of filed calls is one message for each that left, none for one its caller left. |
| ExchangeLaws.RepliesAreTheirs | node/src/exchange.rs:361-367 | A reply a caller gets is to its own call, under its own correlation, from the session it was handed to. |
| ExchangeLaws.NoneWaitsOnTheGone | node/src/server.rs:437-441 | Once a session's end is taken, no call waits on it or for it, then or after. |
| BindingRegistry.Registry.Register | node/src/appdecl.rs:782-843 | A registration's appends, and how many were appended and how many were there. |
| BindingLaws.RegisterMakesTheFile | node/src/appdecl.rs:782-843 | After it, the app's live bindings are exactly the file's if and only if no other origin has one live that the file does not list. |
| BindingLaws.SecondAppendsNothing | node/src/appdecl.rs:782-843 | A second registration appends nothing on the same condition, and only then. |
| BindingLaws.OthersDeclarationStays | node/src/registry.rs:876-890 | A registry where another node's declaration stands: the file does not take it down, and retracts it at every start. |
| BindingLaws.OtherAppsKept | node/src/appdecl.rs:768-781 | Every other app's declarations stay as they were. |
| BindingLaws.StartRegisters | node/src/appdecl.rs:665-683 | In a node's own registry, each app declared by one file ends with just its file's bindings. |
| BindingLaws.RestartAppendsNothing | node/src/appdecl.rs:665-683 | A second start of the same files changes nothing. |
| BindingLaws.PushLives | node/src/registry.rs:687-700 | An append is its pair's newest record of its origin, above every other, and touches no other pair. |
| BindingLaws.GrantsAfter | node/src/registry.rs:795-820 | A pair revoked before, or by the file, is granted nothing after; any other keeps its grants and gains the file's. |
| WebSocketPair.WsWriter.SendBinary | client-rs/src/ws.rs:115-133 | One masked binary frame is written after what was, and the wire stays the frames of all that was sent, in order. |
| WebSocketPair.WsReader.Read | client-rs/src/ws.rs:76-110 | The next data message, other frames passed over, a close, a frame over the limit or a torn stream. |
| WebSocketLaws.SentReadBack | client-rs/src/ws.rs:76-133 | What a client sends for any payloads within the limit reads back as them, in order. |
| WebSocketLaws.StreamReads | client-rs/src/ws.rs:76-110 | Any stream of frames within the limit, masked or not, reads as its data frames' payloads up to its close or end. |
| WebSocketLaws.LengthIsShortest | client-rs/src/ws.rs:117-125 | No header that reads as a length is shorter than the one written for it. |
| WebSocketLaws.OverLimitIsRefused | client-rs/src/ws.rs:70-94 | A header over the limit is refused with no byte of its payload there. |
| Sha256Js.Sha | client-ts/src/sha256.ts:21-74 | For every input of less than 2^31 - 72 bytes, the typed-array computation is the digest of sections 5.1.1 and 6.2.2 of FIPS 180-4. |
| Sha256Js.Pad | client-ts/src/sha256.ts:25-35 | The padded buffer is the standard's padding. |
| Sha256Js.FillSchedule | client-ts/src/sha256.ts:39-44 | The schedule's words are the standard's. |
| Sha256Js.Work | client-ts/src/sha256.ts:45-62 | The eight variables, signed as they are, hold the standard's after its 64 rounds. |
| Sha256Js.SumsAre | client-ts/src/sha256.ts:46-53 | Sums of numbers cut to 32 bits are the standard's additions mod 2^32, in its order. |
| Sha256Js.PaddingIsLeast | client-ts/src/sha256.ts:28-35 | The padding is the message, a one bit, zeros and the 64-bit length, on the fewest blocks that hold them. |

## Left out

- Sockets, asynchronous workers, locks and channels: each worker's turn under its locks is one atomic step, and a link is a sequence. What can interleave inside one turn is not modelled.
- Backpressure: a caller that waits for room in a full queue is an action that is not yet possible; that the wait ends is not stated.
- The frames themselves beyond their bytes (`node/src/conversation.rs:421-449` decodes them): a conversation carries bodies.
- `ClientInner.Inner.Take`: the fan-out of received ops, welcomes, exchange answers and drops to listeners.
- `ClientInner.Inner.AppendOp`: an op made and kept whose frame then fails on a broken socket returns an error in the source, its op still kept; here the send does not fail.
- `ClientInner.Inner.OnConnectionEnd`: the welcomes and exchange answers waited for, and the drop's listeners.
- `ClientInner.Inner.Ship`: a send that fails on a broken socket is not told apart from one that goes; its waiters stay held until the connection's end is read, as in the source.
- `AnswerTable.Table.ResendTick`: when a timer fires is any moment of a run; the clock that waits for it is not modelled.
- `SessionLog.Session.Append`: the frontier a CRDT op refers to (`stream_heads`) is a parameter; so are the op hash and whether a SWMR payload decodes.
- `client-ts/src/answers.ts` and the rest of `client-ts/src/session.ts`: the browser's counterparts of the client's tables and session.
- `Folds.Log`: the library's sort is an insertion into an ordered list; the slot's key is the pair it is made of.
- `StoreLog.Store.ApplyRemote`: the shapes it refuses before any op is stored, and the session's lamport.
- `SessionLaws.OwnLamportsDiffer`: a session restarted with nothing that appends before it is given its earlier ops makes their slots again, a fork of its own chain that the node refuses; such runs are outside it.
- `SessionLaws.ConvergesInRuns`: a refusal inside the run; one leaves its chain a prefix of what it was and the others whole, as `SessionLaws.RefusalKeepsTheRest` states, and a run may start from there.
- `Folds.Value`: origins compare by character; TypeScript compares UTF-16 code units and Rust UTF-8 bytes, which order characters past U+FFFF differently.
- `StoreLog.Store.Append`: the schema the hash is taken under.
- `ClaimsDirectory.Directory.Tick`: signing, saving and publishing; a save that fails leaves the chain as it was, so a tick is one step that succeeds. The floor's hash is modelled in `CheckpointRegister` alone.
- `ClaimsDirectory.Directory.Place`: the checkpoint's own check is in `Envelope`; where it lands, the fork at a base and the tip are in `CheckpointRegister`.
- `ClaimsDirectory.Directory.ServeWorkspace`: the workspace entry it mints beside the claim, and an epoch past the word's end.
- Renewal's timing (`node/src/claims.rs:430-462`) and the `--lease-ms` flag: short clock arithmetic.
- `CheckpointRegister.HoldsTheNewest`: of the checkpoint's own check only its base is here; the rest, and the signatures, come before it, in `Envelope`.
- `Envelope.AcceptsExactlySealed`: Ed25519 is a predicate over the op, its record as payload, and the signature; the order of the refusals is in `Verify`.
- `CborLaws.ParseInverts`: floats, tags, booleans and null, which the reader refuses, have no value here. The wire codec's encoder is not part of this model: it is taken as the shortest definite-length encoding of RFC 8949, map entries in the order given.
- `BindingRegistry.Registry.Register`: parsing an app file, its warnings and its refusals; the records of services, seeds, revocations and workspaces are compared whole. An append a sealed registry refuses for another node's origin.
- `ExchangeLaws.RunKeeps`: routing a request to this node, a peer or nowhere; `workspace.create`; and forwarded calls, whose own session files them as any other's.
- `WebSocketPair.WsReader.Read`: fragments. As in the source, the FIN bit is not read, and a continuation is passed over. The HTTP upgrade and its base64 key.
- Seqs, lamports, epochs, counters and times are mathematical integers; conversation numbers, CBOR's 64-bit words and SHA-256's 32-bit words are not.
- Directory kinds, roles, grants' checks, routing between nodes, the carriers, the demo interface and the start-up wiring.
