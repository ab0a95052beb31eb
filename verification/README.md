# Verified models of five lnd components

This project models five parts of lnd, the Lightning Network daemon, and proves
what their callers rely on. `dafny verify dfyconfig.toml` checks all of it.

* **The actor runtime** (`actor/actor.go`, `actor/mailbox.go`).
  `ActorRuntime` is a small-step protocol: the bounded channel, the `closed`
  flag, the reader/writer lock with a queued writer, the actor's context, the
  program counter of every `Tell` and `Ask` call, the phase of the processing
  loop and the promises. A `select` is a free choice among its ready branches.
  `ActorInvariant` proves an inductive invariant, `ActorTheorems` the guarantees
  over all runs, `ActorAnswers` what calls are answered and by what.
  `ActorService` is the code on mutable fields, which `ActorRuns` and
  `ActorCalls` prove to be runs of the protocol. `Futures` and `FutureTheorems`
  do the same for `actor/future.go`; `Receptionist` and `Router` model service
  discovery and round-robin routing.
* **The peer access manager** (`accessman.go`). `AccessMan` is the class with
  its two maps and the counter, `AccessProofs` what its events keep over runs,
  `AccessVerdicts` what it answers and does event by event, `AccessPending` how
  its pending counts cover what is outstanding.
* **The aezeed codec** (`aezeed/cipherseed.go`). `Aezeed` is the layered
  printer and parser, `SeedLoops` its loops, `SeedTheorems` the round trips,
  `SeedAnswers` what phrases are made of and how each is answered.
  `Crc32c` is the Castagnoli checksum of section 12.1 of RFC 3720 on 32-bit
  vectors (`CrcCheckValue` ties it to the published check value);
  `SeedErrors`, `WordErrors` and `ThreeWords` prove what it detects.
* **The preimage beacon** (`witness_beacon.go`). `Beacon` is the
  publish/subscribe protocol, `BeaconTheorems` its guarantees, `BeaconRefused`
  what becomes of refused subscriptions, `BeaconService` the methods on mutable
  fields.
* **Weighted choice** (`autopilot/choice.go`), in `Choice`, over exact reals.

`Bits`, `Folds`, `Sums` and `Options` are shared helpers.

## Findings

Where a plausible claim about the code is false, the code is kept, a lemma gives
the input, and another one says exactly when the claim holds.

* The bound on restricted slots holds in every run exactly when no start-up
  entry is without channels (`AccessProofs.SlotBound`): such an entry makes its
  owner an existing peer, and existing peers skip the slot check. The excess is
  then without limit (`AccessProofs.IdleEntryUnbounded`), since a demotion is
  refused only when the count equals the limit. The bound takes permission query
  and admission as one step. The server's mutex keeps two admissions apart, but
  not a channel event from the middle of one: a demotion there makes the verdict
  stale (`AccessProofs.StaleVerdict`). However admissions are split, the bound
  holds throughout a run exactly when no peer is added to a slot that is gone
  (`AccessProofs.SplitAdmissions`).
* accessman.go:39-41 says the counter could be derived from the channel counts.
  No function of these and of the connected peers does
  (`AccessProofs.NoFormula`). The number of connected peers without an entry is
  the counter exactly while no demotion stands refused
  (`AccessProofs.CounterFromMapsInRuns`), and a run of four events refuses one
  (`AccessProofs.RefusalHappens`).
* Disconnects too run outside the server's mutex (server.go:4999-5018), so a
  verdict can be stale in other ways. A recorded channel is lost
  (`AccessProofs.RecordLost`), while admissions fit, exactly when an absent peer
  is added as a restricted outbound one (`AccessProofs.ProtectedForGood`). The
  maps fit together throughout exactly when no added access contradicts the
  record (`AccessProofs.RunConsistent`).
* The pending count of a peer can fall short of its outstanding channels in the
  same way (`AccessPending.PendingForgotten`), or by wrapping at 2^64
  (`AccessPending.WrapHappens`); while admissions fit, in these two ways exactly
  (`AccessPending.CoveredByFits`).
* The checksum catches every change of two neighbouring words wherever they are
  (`WordErrors.NeighboursDetected`). A change of three neighbouring words is
  always caught exactly when they are the first three, where the version byte
  takes eight of their bits; anywhere else every valid phrase has a valid twin
  (`ThreeWords.ThreeNeighbours`).
* A subscription that the interceptor refuses stays registered
  (witness_beacon.go:75, witness_beacon.go:114-117). Once delivery can go no
  further, the deliveries to a client have ended exactly when its subscription
  was not refused or the batches announced to it hold at most ten preimages
  (`BeaconRefused.IdleEnded`); any batch of more leads to a delivery that never
  ends (`BeaconRefused.RefusedNeverEnds`).
* `LookupPreimage` answers "none" for an unreadable cache too. What that answer
  promises holds in all runs exactly if the cache was readable
  (`BeaconTheorems.NoneIsPromise`).
* A draw of exactly 0 picks index 0 whatever its weight
  (`Choice.ZeroWeightPicked`). All sequences of draws with k positive ones bring
  `chooseN` to its end exactly when k is at least min(n, number of positive
  scores) (`Choice.EndsExactly`), and its result is positive exactly unless the
  first node has no score and a zero is used (`Choice.ChooseNMeans`).
* Round-robin selection stays fair across the wrap of its 64-bit index exactly
  when the number of actors divides 2^64 (`Router.FairAcrossWrap`).

## Model

| member | source | states |
|---|---|---|
| `ActorInvariant.StepKeepsInv` | actor/actor.go:128-252 | every step of every caller and of the processing loop keeps the joint invariant of lock, flags, queue, places and promises |
| `ActorInvariant.RunKeepsInv` | actor/actor.go:128-252 | so does every run |
| `ActorTheorems.Conservation` | actor/mailbox.go:70-176 | in every reachable state the accepted envelopes in enqueue order are the received ones, then the drained ones, then the queue, none twice; nothing is drained before the receive loop ends; at the end nothing is left |
| `ActorTheorems.DoneForGood` | actor/actor.go:141-157 | once `process` has returned the queue is empty and nothing is accepted in any later run |
| `ActorTheorems.SenderOrder` | actor/mailbox.go:70-89 | a message accepted before another call began is taken before that call's message |
| `ActorTheorems.RunExtends` | actor/actor.go:128-252 | over any run the histories, the dead letters and the completed promises only grow |
| `ActorTheorems.AskOutcome` | actor/actor.go:206-241 | no Complete call of the actor code loses; the answer of an Ask follows from what happened to its envelope: the loop's reply, ErrActorTerminated or the caller's own context error, never a nil error |
| `ActorAnswers.AnswerIsReturned` | actor/actor.go:131-138 | whatever the behaviour returns for each message, over every run from the start: an answered Ask that reached it holds just that |
| `ActorAnswers.AskIsServed` | actor/actor.go:128-157 | an Ask of a started actor that is not stopped can be brought to hold what the behaviour returns for it |
| `ActorAnswers.ServedAtRest` | actor/actor.go:128-157 | when a started actor that is not stopped can do nothing more, its queue is empty, all calls have returned and all Asks are answered |
| `ActorAnswers.ProgramFinishes` | actor/actor.go:128-241 | from every state the program can run as far as it can, whatever the behaviour returns |
| `ActorAnswers.FromInit` | actor/mailbox.go:57-67 | the mailbox has the size asked for, or one, and the actor its dead letter office; it is started and stopped, and contexts are cancelled, exactly by the steps that say so |
| `ActorAnswers.AtAnyTime` | actor/actor.go:118-168 | calls can begin, contexts end and the actor be started and stopped at any time |
| `ActorAnswers.AfterStop` | actor/actor.go:182-216 | a call that begins after Stop is never sent: an Ask fails with ErrActorTerminated, a Tell is a dead letter exactly if there is an office |
| `ActorAnswers.StoppedOnTheWay` | actor/actor.go:192-236 | a call on its way when the actor's context is done is sent or ends so too, also when its own context is cancelled |
| `ActorAnswers.CancelledBefore` | actor/actor.go:218-224 | an Ask whose context is cancelled before it looks at it is never sent |
| `ActorAnswers.DeadLetters` | actor/actor.go:144-149 | the office gets messages of a stopped actor only: every drained one, Asks among them, and none that reached the behaviour |
| `ActorAnswers.SelectsAreFree` | actor/mailbox.go:80-128 | every select may take any branch that is ready, the loop a message after Stop among them |
| `ActorAnswers.CloseNotStarved` | actor/mailbox.go:134-143 | while Close waits for the lock no other call gets hold of it |
| `ActorTheorems.AskResolved` | actor/actor.go:136-155 | after `process` and the Ask call have returned the promise is completed |
| `ActorTheorems.PromiseIsStable` | actor/future.go:44-54 | a completed promise keeps its result in every later run |
| `ActorTheorems.TellFate` | actor/actor.go:144-199 | a Tell is processed or a dead letter, never both and neither twice; neither only if its caller cancelled or there is no dead letter office |
| `ActorTheorems.NeverPanics` | actor/mailbox.go:70-143 | no run sends on or closes a closed channel; no sender is in its select once the channel is closed |
| `ActorTheorems.Progress` | actor/mailbox.go:70-143 | after Stop, some step of the program is possible until all calls and `process` have returned |
| `ActorTheorems.StepCost` | actor/actor.go:128-241 | every program step lowers a measure over callers, queue and phase; only a new call raises it |
| `ActorTheorems.RunCost` | actor/actor.go:128-241 | any run has at most as many program steps as the measure and its new calls pay for |
| `ActorTheorems.ShutdownCompletes` | actor/actor.go:141-168 | after Stop of a started actor boundedly many program steps remain, and when none is possible `process` and all calls have returned and every Ask is answered |
| `ActorService.Actor.Tell` | actor/actor.go:181-199 | on its own a Tell of a stopped actor becomes a dead letter; otherwise it is enqueued or, only if its context is cancelled, dropped; each by a run of the protocol |
| `ActorService.Actor.Ask` | actor/actor.go:206-241 | on its own an Ask of a stopped actor fails with ErrActorTerminated, one with a cancelled context with that context's error, and any other is enqueued with its promise open; each by a run of the protocol |
| `ActorService.Actor.Send` | actor/mailbox.go:70-89 | Send enqueues at the end of an open channel with room, or changes nothing and then the mailbox is closed or one of the contexts is done; the read lock is given back |
| `ActorCalls.SendSucceeds` | actor/mailbox.go:70-89 | the protocol can take a call from the lock to an enqueued envelope when the mailbox is open and has room |
| `ActorCalls.SendFails` | actor/mailbox.go:83-88 | and to a failed send when a context is done |
| `ActorService.Actor.HandleNext` | actor/actor.go:130-139 | one round of the receive loop does what the protocol's steps do, and answers an Ask with the behaviour's reply |
| `ActorService.Actor.Close` | actor/mailbox.go:134-143 | Close does what the protocol's five closing steps do |
| `ActorService.Actor.DrainNext` | actor/actor.go:144-156 | one round of the drain loop does what the protocol's steps do |
| `ActorService.Actor.Run` | actor/actor.go:128-157 | after Stop the loops end with the mailbox closed and empty, by a run of the protocol |
| `ActorService.Actor.Drain` | actor/mailbox.go:151-176 | the drain loop empties the closed mailbox, by a run of the protocol |
| `ActorService.Actor.Stop` | actor/actor.go:162-168 | Stop cancels the actor's context and changes nothing else |
| `ActorService.Actor.constructor` | actor/mailbox.go:57-67 | a new mailbox has a positive capacity and the actor is in a reachable state |
| `ActorService.HandledProceeds` | actor/actor.go:130-139 | a round of the receive loop is a run of the processing loop alone |
| `ActorService.ShutProceeds` | actor/actor.go:141-142 | leaving the receive loop and closing is such a run when no sender holds the lock |
| `ActorService.DrainedProceeds` | actor/actor.go:144-156 | a round of the drain loop is such a run |
| `Futures.StepKeepsInv` | actor/future.go:44-140 | every operation on guard, result and `done` keeps the invariant of futures, completers, waiters and ThenApply goroutines |
| `Futures.DoneHasResult` | actor/future.go:46-49 | a future that is done holds the result of the caller inside the guard |
| `FutureTheorems.NeverPanics` | actor/future.go:44-94 | `done` is never closed twice and the load after `done` is never nil |
| `FutureTheorems.OneWinner` | actor/future.go:44-54 | at most one Complete returns true, its result is the future's, and one that returns false has lost to another that returned true |
| `FutureTheorems.ResultIsStable` | actor/future.go:46-49 | a stored result never changes |
| `FutureTheorems.AwaitsAgree` | actor/future.go:77-100 | all Await calls that observe a completion return the same result, at any two times of a run |
| `FutureTheorems.TargetCompletedOnce` | actor/future.go:114-140 | the future of a ThenApply gets at most one Complete call and that call does not lose |
| `FutureTheorems.TargetResult` | actor/future.go:116-137 | it holds the function's value at its source's value, its source's error, or the context's error if its wait was abandoned for a cancelled context |
| `FutureTheorems.ChainResult` | actor/future.go:110-140 | the end of a chain without cancelled contexts holds the composed functions at the value at its head, or the error at its head |
| `FutureTheorems.ThenApplyGives` | actor/future.go:110-140 | of a call of ThenApply with any function, future and context, after any run: what its future holds if it is completed |
| `FutureTheorems.ThenApplyCompletes` | actor/future.go:110-140 | on a completed future it can be brought to hold the function's value |
| `FutureTheorems.CompleteGives` | actor/future.go:44-54 | a call of Complete that has returned true has stored the result it was given |
| `FutureTheorems.AwaitGives` | actor/future.go:77-100 | a call of Await that has returned gives the future's result, or the error of its cancelled context |
| `FutureTheorems.AwaitOfCompleted` | actor/future.go:78-82 | on a completed future it gives the result, cancelled context or not |
| `FutureTheorems.CallsAreFree` | actor/future.go:84-99 | calls can be made at any time, and a waiting Await may take either branch that is ready |
| `FutureTheorems.IdleMeansComplete` | actor/future.go:44-100 | when no step inside a call is possible, exactly the futures that Complete was called on are done and exactly the waits on done futures or cancelled contexts have returned |
| `FutureTheorems.IdleChain` | actor/future.go:110-140 | then a chain whose head is complete is complete at its end |
| `FutureTheorems.CallsEnd` | actor/future.go:44-140 | without new calls the calls under way take boundedly many steps |
| `Receptionist.Receptionist.RegisterWithReceptionist` | actor/system.go:381-393 | appends the reference under the key's name |
| `Receptionist.Receptionist.UnregisterFromReceptionist` | actor/system.go:238-282 | removes all copies of the reference, drops an emptied name, and says whether there was one |
| `Receptionist.Receptionist.FindInReceptionist` | actor/system.go:400-421 | returns the registrations of the key's types in order |
| `Receptionist.ListedAfterOps` | actor/system.go:238-393 | after any operations a name lists the old references that no operation removes and then the registrations that no later operation removes |
| `Receptionist.FindsSurvivors` | actor/system.go:400-421 | from an empty receptionist a lookup returns exactly those survivors of the key's types, in order of registration |
| `Receptionist.FindExactly` | actor/system.go:400-421 | a lookup finds a reference if and only if it is listed under the name and of the key's types |
| `Receptionist.KindsAreApart` | actor/system.go:400-421 | a lookup depends only on the operations with the key's types, also when others share its name |
| `Receptionist.NoEmptyLists` | actor/system.go:273-279 | no name is kept with an empty list |
| `Router.RoundRobinStrategy.Select` | actor/router.go:47-62 | picks the position of the index before the increment; no actors, no pick and no increment |
| `Router.Router.GetActor` | actor/router.go:94-103 | selects among the registrations found for the key |
| `Router.Router.GetActors` | actor/router.go:94-103 | consecutive selections pick consecutive positions, modulo 2^64 and then modulo the number of actors |
| `Router.PickedExactly` | actor/router.go:47-62 | how often a position is picked, exactly, while positions count on |
| `Router.FairWithoutWrap` | actor/router.go:47-62 | while the index does not wrap any m selections pick each of n positions m/n times, rounded down or up |
| `Router.UnfairAcrossWrap` | actor/router.go:58-59 | otherwise, when n does not divide 2^64, at most n selections around the wrap pick position 0 twice |
| `Router.FairAcrossWrap` | actor/router.go:58-59 | fair from every index and for every number of selections if and only if n divides 2^64 |
| `AccessMan.AccessManager.constructor` | accessman.go:62-82 | starts with the counts read from disk, no scores and no restricted peer |
| `AccessMan.AccessManager.FindPeer` | accessman.go:84-124 | the access and presence of a peer, from the two maps |
| `AccessMan.AccessManager.AssignPeerPerms` | accessman.go:126-190 | the verdict for a peer, with the error cases in their order |
| `AccessMan.AccessManager.CheckAcceptIncomingConn` | accessman.go:492-545 | the inbound filter |
| `AccessMan.AccessManager.AddPeerAccess` | accessman.go:549-610 | the whole new state, with the outbound upgrade |
| `AccessMan.AccessManager.RemovePeerAccess` | accessman.go:614-664 | the whole new state, keeping peers with channels |
| `AccessMan.AccessManager.NewPendingOpenChan` | accessman.go:195-280 | the whole new state and the error |
| `AccessMan.AccessManager.NewPendingCloseChan` | accessman.go:286-396 | the whole new state and the error, also for a refused demotion |
| `AccessMan.AccessManager.NewOpenChan` | accessman.go:401-482 | the whole new state and the error |
| `AccessProofs.RunCounts` | accessman.go:44-46 | every run of events with any arguments keeps the counter equal to the number of restricted peers |
| `AccessProofs.CounterIsExact` | accessman.go:44-46 | so it is exact, and not negative, from start-up on |
| `AccessProofs.RunConsistent` | accessman.go:93-112 | over all runs of all events, with admissions split in any way: a connected peer is protected if and only if it has a recorded channel, and a restricted one has no channels, throughout, if and only if no peer is added with an access that its recorded channels do not bear out |
| `AccessProofs.WholeFits` | accessman.go:93-112 | whole admissions never are such additions |
| `AccessProofs.RunWithinBound` | accessman.go:171-187 | where restricted peers have no entry and entries without channels belong to connected peers, no run exceeds the slots |
| `AccessProofs.SlotBound` | accessman.go:171-187 | the slot bound holds in all runs if and only if no start-up entry is without channels |
| `AccessProofs.IdleEntryBreaksBound` | accessman.go:171-175 | one such entry and enough strangers exceed it |
| `AccessProofs.IdleEntryUnbounded` | accessman.go:338-359 | with one such entry some run exceeds it by any number |
| `AccessProofs.PastTheBound` | accessman.go:338-359 | once the count is above the limit a further demotion raises it by one |
| `AccessProofs.AddWithinBound` | accessman.go:564-594 | adding a peer on its own keeps the bound if and only if it does not take a slot that is gone |
| `AccessProofs.SplitAdmissions` | accessman.go:177-187 | over all runs of all events, with admissions split in any way, the bound holds throughout if and only if no peer is added to a slot that is gone |
| `AccessProofs.StaleVerdict` | accessman.go:177-189 | a demotion between verdict and admission exceeds it |
| `AccessProofs.RefusalHappens` | accessman.go:331-349 | a run of whole admissions that ends with a refused demotion |
| `AccessProofs.RecordIsKept` | accessman.go:648-652 | from any state, over all runs of all events: a recorded channel stays recorded throughout if and only if no event loses it, and then every query answers protected |
| `AccessProofs.OnlyResetsLose` | accessman.go:599-607 | while admissions fit, the only such event is adding the absent peer as a restricted outbound one |
| `AccessProofs.ProtectedForGood` | accessman.go:442-455 | from start-up, with admissions that fit: a recorded channel protects its peer throughout if and only if that does not happen |
| `AccessProofs.ProtectedByWhole` | accessman.go:442-455 | and with whole admissions always, with the score of the peer |
| `AccessProofs.RecordLost` | accessman.go:599-607 | a run in which a verdict grown stale loses a recorded channel |
| `AccessProofs.RefusedStays` | accessman.go:228-235 | until it is removed such a peer is unchanged by every event and all its channel events fail |
| `AccessProofs.CounterFromMaps` | accessman.go:39-41 | the counter is the number of scored peers without an entry if and only if no demotion stands refused |
| `AccessProofs.CounterFromMapsInRuns` | accessman.go:39-41 | the same in every run from start-up |
| `AccessProofs.NoFormula` | accessman.go:39-41 | no function of the channel counts and the connected peers gives the counter in all runs |
| `AccessProofs.FilterAgrees` | accessman.go:506-544 | the filter accepts if and only if assignment would not fail for slots, and if and only if admission then scores the peer |
| `AccessVerdicts.VerdictExactly` | accessman.go:128-190 | the access and each error of the verdict, and exactly when: a failed ban check, a ban and full slots, in this order, and none for a peer with standing |
| `AccessVerdicts.InboundExactly` | server.go:4377-4542 | what a whole inbound admission does: whom it lets in, with which access, and whether it takes a slot |
| `AccessVerdicts.OutboundExactly` | server.go:4377-4542 | and an outbound one, which no ban and no limit keeps out and which takes no slot |
| `AccessVerdicts.BannedKeptOut` | accessman.go:147-164 | a peer without standing whose ban check says so, or fails, is answered that error and leaves the state as it was |
| `AccessVerdicts.BannedStaysOut` | accessman.go:147-164 | over any run a stranger that is banned whenever it tries gets no score, entry or slot |
| `AccessVerdicts.OthersUntouched` | accessman.go:195-664 | an event leaves all peers alone but its own |
| `AccessVerdicts.ChannelErrors` | accessman.go:195-482 | each error of the three channel events, and exactly when; all but a refusal leave the state as it was |
| `AccessVerdicts.Promotion` | accessman.go:430-455 | a confirmed channel protects its temporary peer and is recorded |
| `AccessVerdicts.PendingCounts` | accessman.go:224-263 | a first pending channel frees the restricted peer's slot; each further one counts one more |
| `AccessVerdicts.LeavesNothing` | accessman.go:549-664 | a stranger that connects and leaves, leaves the state as it was |
| `AccessVerdicts.ComesBack` | accessman.go:549-664 | so does a peer with channels that leaves and comes back |
| `AccessVerdicts.PendingLeavesNothing` | accessman.go:224-368 | and a pending channel that opens and closes, if the slot it freed can be taken again |
| `AccessPending.PendingCovered` | accessman.go:224-255 | over all runs of all events whose closes and opens match accepted pending channels: the count of an unprotected peer covers what is outstanding in every state, across disconnects, if and only if no event makes it fall short; and while admissions fit none is then decremented below zero |
| `AccessPending.CoveredByFits` | accessman.go:224-255 | while admissions fit, if and only if no count is incremented past 2^64 - 1 and no outbound upgrade writes over a pending channel |
| `AccessPending.TooFewToWrap` | accessman.go:238-239 | the first of these is excluded while for each peer its count and the channels opened with it stay below 2^64 |
| `AccessPending.PendingFromStart` | accessman.go:62-82 | the same from start-up with the pending channels read from disk; whole admissions never write over one |
| `AccessPending.WrapHappens` | accessman.go:238-239 | a run of two events that wraps a count to zero |
| `AccessPending.PendingForgotten` | accessman.go:599-607 | a run in which a verdict grown stale writes over a pending channel |
| `Aezeed.FirstUnknown` | aezeed/cipherseed.go:553-567 | the first word that is not in the list, if there is one |
| `SeedLoops.BitReader.ReadBits` | aezeed/cipherseed.go:379-390 | reads the next bits of the stream as a number, or reports its end |
| `SeedLoops.BitWriter.WriteBits` | aezeed/cipherseed.go:444-453 | appends the low bits of a number |
| `SeedLoops.CipherTextToMnemonic` | aezeed/cipherseed.go:372-393 | the loop yields the phrase of the 33 bytes |
| `SeedLoops.MnemonicToCipherText` | aezeed/cipherseed.go:438-458 | the loop yields the 33 bytes of the phrase |
| `SeedLoops.CheckWords` | aezeed/cipherseed.go:550-567 | the dictionary check finds the first unknown word |
| `SeedLoops.EncipherSeed` | aezeed/cipherseed.go:311-368 | the array is filled with version, text, salt and checksum |
| `SeedTheorems.BytesThroughIndices` | aezeed/cipherseed.go:372-393 | 33 bytes come back from their 24 indices |
| `SeedTheorems.IndicesThroughBytes` | aezeed/cipherseed.go:438-458 | 24 indices come back from their 33 bytes |
| `SeedTheorems.SeedThroughMnemonic` | aezeed/cipherseed.go:372-458 | 33 bytes come back from their phrase, all of whose words are known |
| `SeedTheorems.MnemonicThroughSeed` | aezeed/cipherseed.go:372-458 | a phrase of list words comes back from its bytes |
| `SeedTheorems.DecodeEncode` | aezeed/cipherseed.go:249-283 | decoding undoes encoding |
| `SeedTheorems.EncodeDecode` | aezeed/cipherseed.go:249-283 | encoding undoes decoding |
| `SeedTheorems.Uint32OfPut` | aezeed/cipherseed.go:364-365 | the checksum field is read back as written |
| `SeedTheorems.PutOfUint32` | aezeed/cipherseed.go:514 | and written back as read |
| `SeedTheorems.DecipherEncipher` | aezeed/cipherseed.go:311-542 | deciphering what was enciphered gives plaintext and salt back |
| `SeedTheorems.EncipherDecipher` | aezeed/cipherseed.go:311-542 | enciphering what was deciphered gives the same 33 bytes |
| `SeedTheorems.SeedRoundTrip` | aezeed/cipherseed.go:398-482 | ToCipherSeed after ToMnemonic returns the same version, birthday, entropy and salt for every seed and passphrase, the empty one meaning the default |
| `SeedTheorems.PhraseOfSeed` | aezeed/cipherseed.go:398-482 | a phrase deciphers to a seed if and only if it is the phrase of that seed under that passphrase |
| `SeedTheorems.ChangePassKeepsSeed` | aezeed/cipherseed.go:590-603 | a changed phrase deciphers under the new passphrase to the old seed; a failed decipherment is the error returned |
| `SeedTheorems.BirthdayWithinDay` | aezeed/cipherseed.go:206-245 | the recovered birthday is at most the creation time and less than a day before it if and only if that time is within 65536 days of genesis |
| `SeedTheorems.BirthdayExactly` | aezeed/cipherseed.go:230 | the stored birthday of every creation time: whole days, truncated toward genesis, modulo 2^16, saturating some 292 years away |
| `SeedAnswers.NewSeedComesBack` | aezeed/cipherseed.go:206-245 | a seed made from given entropy, salt and time, written as a phrase and read back, has the same version, entropy and salt, and a birthday within a day exactly in the 65536 days from genesis |
| `SeedAnswers.PhraseMadeOf` | aezeed/cipherseed.go:311-368 | what the 33 bytes of a seed's phrase are: version, the text under the key of passphrase and salt with version and salt as associated data, salt, and checksum |
| `SeedAnswers.PhraseErrors` | aezeed/cipherseed.go:487-585 | the error of every phrase and exactly when: the first unknown word with its index, then version, checksum, key and passphrase |
| `SeedAnswers.PhraseHolds` | aezeed/cipherseed.go:464-542 | and otherwise the seed whose plaintext the phrase decrypts to |
| `SeedAnswers.ChangeExactly` | aezeed/cipherseed.go:590-603 | when a change of passphrase succeeds, with which phrase, and with which error it fails |
| `SeedAnswers.DefaultPassphrase` | aezeed/cipherseed.go:117-120 | no passphrase and the passphrase "aezeed" are one |
| `Crc32c.ShiftSum` | aezeed/cipherseed.go:113-115 | shifting the register is linear over exclusive or |
| `Crc32c.UpdateInjective` | aezeed/cipherseed.go:359 | registers that differ stay different after the same byte |
| `Crc32c.WindowInjective` | aezeed/cipherseed.go:359 | different windows of four bytes leave different registers |
| `Crc32c.LastTwelve` | aezeed/cipherseed.go:359 | data that differ in their last twelve bits leave registers that differ in their low 22 bits |
| `Crc32c.LastBit` | aezeed/cipherseed.go:359 | a change of the last data bit shows in the low eleven bits |
| `SeedErrors.DataWindow` | aezeed/cipherseed.go:511-516 | two valid seeds that agree but for four bytes of data are one |
| `SeedErrors.TwelveAndTen` | aezeed/cipherseed.go:511-516 | so are two that differ in the last twelve data bits and the first ten checksum bits only |
| `SeedErrors.OneAndTwentyOne` | aezeed/cipherseed.go:511-516 | and two that differ in the last data bit and the first 21 checksum bits only |
| `WordErrors.NeighboursDetected` | aezeed/cipherseed.go:438-516 | a phrase of list words that differs from a valid one in some of two neighbouring words, any two, is rejected with the version or the checksum error under every passphrase |
| `WordErrors.ReplacedWordDetected` | aezeed/cipherseed.go:438-516 | so is a valid phrase with any one word replaced by another list word |
| `WordErrors.ExchangedWordsDetected` | aezeed/cipherseed.go:438-516 | and one with two different neighbouring words exchanged |
| `ThreeWords.ThreeNeighbours` | aezeed/cipherseed.go:438-516 | for every valid phrase, all changes within three neighbouring words are caught if and only if these are the first three |
| `ThreeWords.ThreeMissed` | aezeed/cipherseed.go:498-516 | anywhere but at its head, every valid phrase has a valid twin that differs in three neighbouring words only |
| `ThreeWords.HeadCaught` | aezeed/cipherseed.go:498-516 | two valid phrases that differ in their first three words only are one |
| `ThreeWords.RegistersSum` | aezeed/cipherseed.go:359 | the checksum register is linear in its state and its input together |
| `ThreeWords.FieldsMarked` | aezeed/cipherseed.go:359-365 | which bits of the checksum field a change of the data turns depends on the change alone |
| `ThreeWords.MissedExactly` | aezeed/cipherseed.go:498-516 | of every valid seed and every change of it that leaves the version: it is missed if and only if what it turns in the checksum is the image of what it turns in the data, whatever the seed |
| `Beacon.StepKeepsInv` | witness_beacon.go:61-190 | every request, delivery, receipt and cancellation keeps the joint invariant of cache, subscribers, tasks and channels |
| `BeaconTheorems.NoLostPreimage` | witness_beacon.go:66-184 | after a lookup that found a hash absent, every preimage of it in any batch stored is, in every later state and until cancellation, awaiting announcement, held by a running task, in the client's channel or received |
| `BeaconTheorems.EachBatchOnce` | witness_beacon.go:172-184 | a client in a batch's audience has exactly one task for it, which has delivered an in-order prefix, all of it once ended unless cancelled; others have none |
| `BeaconTheorems.OnlyItsTasks` | witness_beacon.go:172-184 | nothing but the deliveries of its own tasks is on a client's stream |
| `BeaconTheorems.AudienceOfRun` | witness_beacon.go:163-174 | a client gets a batch if it subscribed before the announcement, and not if it came after |
| `BeaconTheorems.StoredBySteps` | witness_beacon.go:163-167 | over any run exactly the batches that were written are stored, in order |
| `BeaconTheorems.CancelledBySteps` | witness_beacon.go:84-91 | a subscriber has cancelled exactly if it took that step, which it can take once |
| `BeaconTheorems.CancelledUnreached` | witness_beacon.go:88 | batches announced later do not reach it |
| `BeaconTheorems.DeliveryEnds` | witness_beacon.go:172-184 | without new requests delivery takes boundedly many steps |
| `BeaconTheorems.DeliveryFinishes` | witness_beacon.go:172-184 | from every state delivery can go as far as it can |
| `BeaconTheorems.IdleMeansDelivered` | witness_beacon.go:172-184 | when it can go no further all batches are announced, clients that did not cancel have received all of theirs, and a delivery still runs only on the full channel of a refused subscription |
| `BeaconRefused.IdleEnded` | witness_beacon.go:66-117 | then the deliveries to a client have ended if and only if its subscription was not refused or the batches announced to it hold no more preimages than its channel |
| `BeaconRefused.StreamIsGiven` | witness_beacon.go:172-184 | a client's stream is exactly as long as what its tasks have sent |
| `BeaconRefused.RefusedNeverEnds` | witness_beacon.go:66-117 | every batch of more preimages than a channel holds leads, after a refused subscription, to a reachable state from which its delivery runs in all later states |
| `BeaconTheorems.StuckForGood` | witness_beacon.go:114-117 | a delivery on the full channel of a refused subscription runs in all later states |
| `BeaconTheorems.LookupIsSound` | witness_beacon.go:124-143 | a preimage found has the hash and was added; none is found if and only if the cache was unreadable or none was added |
| `BeaconTheorems.NoneIsPromise` | witness_beacon.go:124-143 | after the answer none every preimage of the hash is on its way until cancellation, in all runs, if and only if the cache was readable |
| `BeaconService.PreimageBeacon.constructor` | witness_beacon.go:49-57 | a new beacon has no subscribers and satisfies the invariant |
| `BeaconService.PreimageBeacon.SubscribeUpdates` | witness_beacon.go:61-120 | registers a new subscriber, also when the interceptor refuses, and hands it out only when it does not |
| `BeaconService.PreimageBeacon.CancelSubscription` | witness_beacon.go:84-91 | removes the subscriber and closes its quit channel |
| `BeaconService.PreimageBeacon.LookupPreimage` | witness_beacon.go:124-143 | the cached preimage, or none |
| `BeaconService.PreimageBeacon.AddPreimages` | witness_beacon.go:147-190 | stores the batch, then announces it; an empty batch or a failed write changes nothing |
| `BeaconService.PreimageBeacon.Notify` | witness_beacon.go:172-184 | starts exactly one task for each subscriber, in some order |
| `Choice.WeightedChoice` | autopilot/choice.go:15-47 | the two loops compute the specified choice |
| `Choice.PickMeans` | autopilot/choice.go:22-46 | for any weights and any draw u below one: no choice if and only if the sum is not positive, otherwise the first index whose running sum reaches u times the sum, never the error exit |
| `Choice.PickInterval` | autopilot/choice.go:26-44 | for non-negative weights and u in (0, 1) an index is picked if and only if u times the sum lies in its interval, and its weight is positive |
| `Choice.ZeroWeightPicked` | autopilot/choice.go:38-43 | a zero weight is picked if and only if the draw and the first weight are zero |
| `Choice.Collect` | autopilot/choice.go:57-64 | the slices list each entry of the map once, with its score |
| `Choice.ChooseN` | autopilot/choice.go:51-87 | the loop computes the specified rounds |
| `Choice.ChooseNMeans` | autopilot/choice.go:51-87 | with non-negative scores and all draws of rand.Float64, zeros among them: entries of the map only, unchanged; all positive if and only if not (first node without score and a zero used); done once min(n, number of positive scores) draws are positive and not before there are as many draws; then n entries or all there are to choose; never the error exit |
| `Choice.ChooseNPositive` | autopilot/choice.go:51-87 | with draws in (0, 1) done after exactly min(n, number of positive scores) draws, with that many distinct positive entries |
| `Choice.EndsExactly` | autopilot/choice.go:69-84 | every sequence of draws with k positive ones ends the loop if and only if k is at least min(n, number of positive scores) |
| `Choice.RoundsMean` | autopilot/choice.go:69-84 | the same from any state of the loop, by what is left to choose |
| `Choice.ZerosNeverEnd` | autopilot/choice.go:69-84 | with draws of zero only and a positive score behind the first node, choosing two or more uses up any number of draws and keeps a first node of any score |

## Left out

- `ChannelMailbox.TrySend` and `IsClosed` as entry points: the actor does not call them.
- ActorService.Actor.Run: is run without interleaved callers, after Stop and with the lock free; the interleavings are the protocol's.
- ActorService.Actor.Tell: is run on its own too, in a state in which it need not wait, since a Dafny method cannot block; waiting for room or for the lock is the protocol's.
- ActorService.Actor.Ask: the same as Tell.
- ActorService.Actor.Send: the same as Tell.
- ActorService.Actor.Close: is run on its own too, with no reader in the lock; waiting for readers to leave is the protocol's.
- Handing a message to the dead letter office is one step that returns; behaviours return. The dead letter office's own mailbox, and a behaviour that panics or never returns, are not modelled.
- Start of an actor that has been stopped before, message payloads and actor identifiers: envelopes are known by the call that made them.
- `OnComplete` (actor/future.go:147-158): an Await followed by a callback. The function given to ThenApply returns.
- The whole-system `Shutdown`, spawning, and the router's own `Tell` and `Ask` (one branch around `getActor`).
- Router.FairWithoutWrap: is about positions; actors registered twice hold two of them. Selections are consecutive steps of the atomic counter, and the registrations do not change in between.
- AccessMan.AccessManager.AddPeerAccess: does not model the wrap of `numRestricted` as a 64-bit integer, because no run has 2^63 connected peers.
- AccessProofs.SlotBound: takes the permission query (server.go:4390) and the admission after it (server.go:4542) as one step; an outbound peer is added whatever the verdict, as server.go:4391 does. Without this, `SplitAdmissions` says exactly what is left.
- Reading the start-up counts from disk, the ban check and logging: a parameter, a parameter, and nothing.
- scrypt, aez and the word list: a partial function, a pair in which decryption inverts encryption under the same key and associated data, and 2048 distinct words. Nothing is claimed about wrong passphrases.
- SeedTheorems.EncipherDecipher: assumes moreover that a text that decrypts is the encryption of what it decrypts to, since the 4-byte expansion makes aez a bijection onto valid texts; so does `PhraseOfSeed`.
- A mnemonic of other than 24 words is not a value of the Go type. Randomness for entropy and salt is a parameter; errors of the randomness source are not modelled.
- Beacon.StepKeepsInv: counts clients without the wrap of the 64-bit client counter. Cancelling a subscription twice panics in the source and is excluded; its one caller cancels once.
- BeaconService.PreimageBeacon.CancelSubscription: excludes a second cancellation, which panics in the source.
- BeaconService.PreimageBeacon.AddPreimages: runs its two halves in a row; what other goroutines do between them is the protocol's, where storing and announcing are two steps.
- The interceptor call inside `SubscribeUpdates`: a yes or no. The cache's own storage: a map that a batch is added to as a whole or not at all.
- Choice.PickMeans: is about exact reals; with rounding the error exit of `weightedChoice` is possible.
- Choice.ChooseN: takes the draws as a finite sequence and reports when the loop would need more; the number of map entries fits an int.
