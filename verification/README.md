# A model of sw-axi

`sw-axi` lets software masters and slaves talk to each other, and to simulated
hardware, over a router.  Each client process links a *bridge* (C++,
`src/lib` and `src/common`); the *router* is a Go program
(`src/router/sw_axi`).  Bridges connect to the router over a UNIX socket,
register their IP blocks, read back the list of peers and blocks, and then
exchange read and write transactions until all masters have terminated.

This project models that system in Dafny and proves what it guarantees:

- **The address map** (`AddressMap.dfy`, `Router.dfy`): registration with its two
  overlap tests, the map index, and decoding, over 64-bit numbers that wrap.
- **The started system** (`System.dfy`): every bridge has a writer and a reader
  thread around a synchronized queue; the router has a reader and a writer
  goroutine per client and one `route()` loop.  Each has a program counter;
  sockets are bounded FIFOs of messages and Go channels are rendezvous.  A run is
  any interleaving of their steps.
- **The traffic machine** (`Traffic.dfy`): the same traffic without the hops
  between processes.  `Refinement.dfy` proves that every step of the started
  system is one step of it or none, and the `Flow*.dfy` files prove what it
  keeps: where messages can be, conservation of requests, issue order, and that
  the slaves together are one flat memory.  `Guarantees.dfy` states the results
  for every reachable state of the started system; `Outcomes.dfy` says what becomes
  of a request in terms of the blocks, what they start with, and earlier writes.
- **Progress and shutdown** (`Progress.dfy`, `Termination.dfy`, `Closing.dfy`,
  `Shutdown.dfy`, `CleanShutdown.dfy`, `Stranding.dfy`, `Unanswered.dfy`): deadlock
  freedom, a measure that bounds every run in which the application does nothing, the
  exact condition under which shutdown is clean, and which open promises are still
  set when it is not.
- **Delivery** (`Ownership.dfy`): transactions reach the client that owns the
  block exactly when the router's record of owners is right.
- **The synchronized queue and the bridge's threads** (`Monitor.dfy`,
  `BridgeThreads.dfy`): classes whose methods are what one thread does between
  two points at which others can come in.
- **Framing** (`Framing.dfy`): the two writers and the two readers over a socket
  that splits reads and writes as it likes.
- **The client protocol and the handshake** (`RouterClient.dfy`,
  `Handshake.dfy`, `Phases.dfy`, `TrafficPassing.dfy`): the client's state machine,
  the messages that the router's `commit` prints and the bridge's `start` parses, the
  two sides run against each other, and the traffic that passes between them.
- **From the handshake to the started system** (`Enrolment.dfy`,
  `HandshakeProgress.dfy`, `Launch.dfy`, `EarlyTraffic.dfy`): the handshake gets
  through exactly when no registration is rejected, within a bounded number of steps,
  and what it leaves in the registry and in the bridges' maps is a start state of the
  started system, early traffic included.

`dafny verify dfyconfig.toml` checks everything.

## Where the code departs from its intent

Four such places are modelled twice, as they stand (`AsWritten`) and with a repair
(`Repaired`), and the results say exactly which of the two they need: the second
overlap test, the id that `newClient` does not store, the TERMINATE that is not the
last, and `Queue::pop`.  The others are modelled as they stand, and the results say
exactly when they matter.

- The second overlap test compares with the registered block's size instead of
  its end (src/router/sw_axi/router.go:108).  As written, two ordinary blocks
  overlap in exactly one situation (`OverlapsAsWritten`); repaired, they never do.
- A master is counted before its registration can be rejected
  (src/router/sw_axi/router.go:100-111), see `MasterCountIsExact`.  And it can be
  rejected although it occupies nothing: `registerMaster` gives it address 0, and a
  non-empty block that starts there turns it away, see
  `MasterIsTurnedAwayExactlyWhen` and `MasterCanBeTurnedAway`.
- A block that ends at 2^64 or beyond is accepted unless it starts inside a registered
  one, whatever it runs over, see `WrappingBlockAcceptance`; and it is then never
  found, because its end wraps around (src/router/sw_axi/router.go:105, 137), see
  `CoversSomething`.
- `newClient` does not store its `id` (src/router/sw_axi/client.go:318-326), so
  the router has client 0 on record for every block, see `WhenRoutable` and
  `DeliveryIsRightExactlyWhenRoutable`.
- A TERMINATE that is not the last runs into the fatal branch for unexpected
  messages (src/router/sw_axi/router.go:158-171), see
  `CrashExactlyWithSeveralMasters`.
- A session whose clients register no master never ends: only a TERMINATE makes
  `route()` begin its farewell (src/router/sw_axi/router.go:158-166), see
  `NoMasterNoEnd`.
- `Queue::pop` looks at `done` only after a wake-up (src/lib/Queue.hh:42-47): it
  can wait for ever after `finish`, which promises to wake it, and it can return
  false with items queued; see `FinishCanBeMissed`, `FinishCanDropItems`,
  `FinishIsRightExactlyWhen` and `CleanExactlyWhenRepaired`.
- A registration leaves out the interrupt fields
  (src/common/RouterClient.cc:137-140), see `InterruptsAreLost`.
- `readFromSocket` does not stop at the end of the stream
  (src/common/Utils.cc:41-48); the model calls this outcome `Spinning`.  And it
  fails when the eight bytes of a length come in two pieces, although the message is
  all there (src/common/Utils.cc:34-36), which the router's reader does not mind, see
  `CutLength`.
- A transaction whose range leaves the 64-bit address space is taken for one that
  fits its block (src/router/sw_axi/router.go:146-148), see
  `DecodeIsExactUnlessWrapping`.
- The interface says that a terminated master allows no further operation
  (src/lib/SwAxi.hh:90-93), but nothing in `Master` enforces it, nor that its
  promises are set before it terminates.  The model allows both.  Once `route()` has
  stopped, exactly the promises that are set or whose response is on its way down
  are ever set (`SetExactlyWhenComing`), and in both cases a promise can stay open
  for ever (`OutlivedOperation`, `OpenAtTerminate`).  The results on clean shutdown
  speak of *polite* runs, in which the application terminates each master once, after
  all its promises are set, and issues nothing afterwards.

## Model

| member | source | states |
|---|---|---|
| `AddressMap.MissedOverlap` | src/router/sw_axi/router.go:104-110 | for a pair of ordinary blocks, the written tests miss exactly a newcomer that starts below the registered block but not below its size; the repaired tests are the overlap relation |
| `AddressMap.NoFalseRejection` | src/router/sw_axi/router.go:104-110 | a rejected ordinary block shares an address with a registered one (repaired: in a registry whose empty blocks are at address 0) |
| `AddressMap.EmptyBlockRejection` | src/router/sw_axi/router.go:104-110 | an empty block is rejected iff it is placed inside a registered block |
| `AddressMap.MasterIsTurnedAwayExactlyWhen` | src/router/sw_axi/router.go:100-110 | a master, which has no address and no size, is rejected iff a non-empty block starts at address 0 |
| `AddressMap.RegistryInvariant` | src/router/sw_axi/router.go:99-119 | over any mix of accepted and rejected registrations: ids are positions, the counter is the length, every ordinary block is its own entry in the map, every entry is a block of the list; every attempt of a master is counted |
| `AddressMap.MasterCountIsExact` | src/router/sw_axi/router.go:100-111 | the count of masters is that of the registered ones iff no master was ever turned away, and is never below it |
| `AddressMap.MasterCanBeTurnedAway` | src/router/sw_axi/router.go:100-111 | a slave at address 0 and then a master: the master is rejected, and the count is wrong |
| `AddressMap.OverlapsAsWritten` | src/router/sw_axi/router.go:99-119 | as written, two registered ordinary blocks i before j overlap iff Size_i <= Address_j < Address_i < End_j |
| `AddressMap.AscendingOrderIsDisjoint` | src/router/sw_axi/router.go:99-119 | as written, blocks that arrive in ascending address order are disjoint |
| `AddressMap.AcceptedOverlap` | src/router/sw_axi/router.go:108 | as written, two overlapping blocks can both be registered |
| `AddressMap.RepairedIsDisjoint` | src/router/sw_axi/router.go:99-119 | repaired, all registered non-wrapping blocks are disjoint, over all sequences of registrations |
| `AddressMap.RepairedAcceptance` | src/router/sw_axi/router.go:104-110 | repaired, an ordinary block is accepted iff it overlaps none |
| `AddressMap.AcceptanceAsWritten` | src/router/sw_axi/router.go:104-110 | as written, in unbounded arithmetic: exactly which newcomers below 2^64 are accepted into a registry of blocks below 2^64 |
| `AddressMap.WrappingBlockAcceptance` | src/router/sw_axi/router.go:104-110 | a newcomer that ends at 2^64 or beyond is accepted iff no registered block contains its start |
| `AddressMap.WrappingBlockRejects` | src/router/sw_axi/router.go:104-110 | exactly which newcomers a registered block that ends at 2^64 or beyond turns away |
| `AddressMap.CoversSomething` | src/router/sw_axi/router.go:133-140 | some address passes the search test of a block iff the block is not empty and ends below 2^64 |
| `AddressMap.CoveringBlockIsUnique` | src/router/sw_axi/router.go:133-140 | over disjoint blocks at most one passes the search test for an address, so the order of the search does not matter |
| `AddressMap.OrderMattersExactlyWhen` | src/router/sw_axi/router.go:133-140 | over all sequences of registrations of non-wrapping blocks: some address is covered by two entries of the map, so that its order decides, iff registered blocks overlap |
| `AddressMap.DecodeIsContainment` | src/router/sw_axi/router.go:133-151 | for a range inside the address space, decoding gives block i iff block i holds the whole range |
| `AddressMap.DecodeIsExactUnlessWrapping` | src/router/sw_axi/router.go:146-148 | for a start address in block i, decoding is containment iff the range does not wrap around |
| `Router.Router.RegisterIp` | src/router/sw_axi/router.go:99-119 | the loop over the list computes the registration function; a rejection changes nothing but the count of masters, an acceptance appends the block under the next id and indexes it by its address |
| `Router.Router.FindTarget` | src/router/sw_axi/router.go:133-151 | a search of the map in arbitrary key order: no block is found iff none covers the address; a hit covers it and passes the end test, a boundary error comes from a block that covers it and fails the end test; over disjoint blocks the answer is that of a scan of the list |
| `Router.Router.Turn` | src/router/sw_axi/router.go:153-207 | one turn of the loop: where a TERMINATE, a response, a decoded request and a miss leave it, with which message for which client, and the count of masters; a message that names no block ends the router |
| `Router.NothingCovers` | src/router/sw_axi/router.go:134-144 | an address that no map entry covers is covered by no block of the list, although zero-size masters overwrite one another in the map |
| `FlatMemory.HitIsSlave` | src/router/sw_axi/router.go:133-151 | a decoded target is a slave that contains the address |
| `FlatMemory.ContentIsFlat` | src/lib/SwAxi.cc:238-252 | a slave that has executed the operations decoding to it holds, byte by byte, what the last write over each address put there |
| `FlatMemory.SlaveAnswersAsFlat` | src/lib/SwAxi.cc:238-265 | the response that the bridge builds around such a slave is the answer of the flat memory |
| `FlatMemory.DecodedIsNotRefused` | src/router/sw_axi/router.go:133-151 | a request that decodes and stays in the address space is in range for its slave, and refused only as a write to a read-only one |
| `BridgeThreads.ReadRequest` | src/lib/SwAxi.cc:27-40 | a read request as its master pushes it: type, initiator, address and size; no target, id or payload yet |
| `BridgeThreads.WriteRequest` | src/lib/SwAxi.cc:42-56 | a write request as its master pushes it: type, initiator, address, size and the payload; no target or id yet |
| `BridgeThreads.Bridge.constructor` | src/lib/SwAxi.hh:185-210 | a started bridge: registered masters with no ids given out, its slaves, an empty queue |
| `BridgeThreads.Bridge.Push` | src/lib/SwAxi.cc:27-63 | an operation of a master appends its entry to the queue |
| `BridgeThreads.Bridge.Writer` | src/lib/SwAxi.cc:275-303 | the writer from pop to the send: a request gets the next id and is recorded, a response and a termination pass, the end of the queue is a logout |
| `BridgeThreads.Bridge.WriterWakes` | src/lib/SwAxi.cc:277-282 | the writer after a wait |
| `BridgeThreads.Bridge.Receive` | src/lib/SwAxi.cc:189-202 | a transaction is taken in hand; DONE or anything else finishes the queue |
| `BridgeThreads.Bridge.Handle` | src/lib/SwAxi.cc:204-271 | a response is matched, fills the buffer and fulfils its promise; a request runs its slave and queues a response of the right type with the slave's verdict; which of the three errors ends the reader, when, and that it then has changed nothing but the queue's end |
| `Monitor.Queue.Push` | src/lib/Queue.hh:57-62 | appends, with a notification to come |
| `Monitor.Queue.Finish` | src/lib/Queue.hh:67-72 | sets done, with a notification to come |
| `Monitor.Queue.NotifyOne` | src/lib/Queue.hh:61-71 | wakes the consumer if it waits; lost otherwise |
| `Monitor.Queue.PopTest` | src/lib/Queue.hh:39-52 | takes the first item, if any, off the queue, or begins to wait |
| `Monitor.Queue.PopWake` | src/lib/Queue.hh:43-46 | after a wake-up, as written: ends if done, or tests again |
| `Monitor.DoInv` | src/lib/Queue.hh:39-72 | every step of producers, consumer and spurious wake-ups keeps the monitor invariant |
| `Monitor.QueueMonitor` | src/lib/Queue.hh:39-72 | in every interleaving: popped items then queued items are the pushed items in order; pop returns false only after finish; no consumer waits un-notified with items queued and no notification to come; repaired, none waits so after finish |
| `Monitor.FinishCanBeMissed` | src/lib/Queue.hh:42-47 | as written, a finish before the wait leaves the consumer waiting for ever |
| `Monitor.FinishCanDropItems` | src/lib/Queue.hh:44-46 | as written, pop can return false with an item queued |
| `Monitor.DropsExactlyWhen` | src/lib/Queue.hh:39-52 | after finish, over all further runs without a push: pop can return false with items queued iff the queue is unrepaired and the consumer waits while items are queued |
| `Monitor.StrandsExactlyWhen` | src/lib/Queue.hh:39-52 | after finish, over all such runs: the consumer can be left waiting for ever iff the queue is unrepaired and it does not wait yet, or it already waits with no notification to come |
| `Monitor.FinishIsRightExactlyWhen` | src/lib/Queue.hh:67-72 | the finish that nothing follows can lose items iff it meets a waiting consumer and items, and can be missed iff it meets one that does not wait; repaired, neither |
| `FlowPlacement.RouteReachesHolder` | src/router/sw_axi/router.go:183-203 | with a right record of owners, every transaction goes to the client that holds its target, or its initiator |
| `FlowConservation.DispatchConserved` | src/lib/SwAxi.cc:294-300 | numbering and recording a request keeps: in flight once iff awaited |
| `FlowConservation.TakeConserved` | src/router/sw_axi/router.go:153-203 | so does route() taking a transaction, including when it makes up an error response |
| `FlowConservation.HandleConserved` | src/lib/SwAxi.cc:204-271 | so does serving a request or fulfilling a promise |
| `FlowConservation.NothingIsUnknown` | src/lib/SwAxi.cc:204-236 | the branches for unknown masters, requests and slaves are unreachable |
| `FlowOrder.DispatchOrdered` | src/lib/SwAxi.cc:294-298 | a numbered request is the next one that its master issued |
| `FlowOrder.TakeOrdered` | src/router/sw_axi/router.go:153-155 | route() takes each master's requests in issue order |
| `FlowMemory.HandleAnswers` | src/lib/SwAxi.cc:238-270 | the response of a slave is the flat memory's answer after the requests that route() took before |
| `FlowSafety.NextInv` | src/router/sw_axi/router.go:153-207 | every step of the traffic machine keeps placement, conservation, order and memory together |
| `FlowSafety.TakenKeysAreDistinct` | src/lib/SwAxi.cc:205-219 | no two requests that route() takes carry the same master and id |
| `FlowSafety.WhatSucceeds` | src/router/sw_axi/router.go:133-151 | a request succeeds iff it decodes and its slave allows it; otherwise it fails with the reason |
| `FlowSafety.PromisesStay` | src/lib/SwAxi.cc:218-230 | a promise that has been set is never set again |
| `Outcomes.FlatByteIsLatest` | src/lib/SwAxi.cc:238-252 | a byte of the flat memory is that of the last write over its address that lies in a block which allows it, and the block's own if there is none |
| `Outcomes.AnswerIsRight` | src/router/sw_axi/router.go:44-68 | the verdict on a request in terms of blocks and unbounded ends: success iff some block holds it and allows it; no block contains its start; it crosses an end; or its slave refuses it; with type, ids, address, size and bytes of the response |
| `Outcomes.ResponsesAreRight` | src/lib/SwAxi.cc:254-265 | in every reachable state every response that a bridge has queued or route() has made up, wherever it is, answers a request that its master has issued: READ_RESP iff READ_REQ, with the right verdict, reason and bytes |
| `Outcomes.WhatAMasterIsTold` | src/lib/SwAxi.cc:218-230 | in every reachable state a set promise reports success iff some block holds the whole request and allows it, and else the reason that applies; the buffer of a successful read holds byte j of the range at index j, from the flat memory at the request's place in the order of route(); no other buffer is touched |
| `Outcomes.ReadsSeeTheLastWrite` | src/lib/SwAxi.cc:226-228 | in every reachable state each byte that a read has brought is the data byte of the last earlier successful write over its address, or the one its slave started with |
| `Refinement.IssueRefines` | src/lib/SwAxi.cc:27-56 | issuing is one step of the traffic machine |
| `Refinement.PopRefines` | src/lib/SwAxi.cc:277-298 | the writer's pop is one step of it or none |
| `Refinement.TakeRefines` | src/router/sw_axi/router.go:153-203 | route() taking a message is one step of it or none |
| `Refinement.GiveRefines` | src/router/sw_axi/router.go:186-203 | handing a transaction to a client's writer is one step of it |
| `Refinement.HandleRefines` | src/lib/SwAxi.cc:204-271 | the reader serving a transaction is one step of it, and it goes on receiving |
| `Refinement.HopIsNoStep` | src/router/sw_axi/client.go:278-311 | every other step of a thread or goroutine is none |
| `Refinement.StepRefines` | src/router/sw_axi/router.go:153-207 | every step of the started system is one step of the traffic machine, or none |
| `Refinement.RunSafe` | src/router/sw_axi/router.go:153-207 | every reachable state of the started system satisfies the traffic machine's invariants |
| `Guarantees.RequestsAreConserved` | src/lib/SwAxi.cc:204-236 | in every reachable state a master awaits a request iff exactly one message carrying its key is in any queue, hand, socket or channel; otherwise none is |
| `Guarantees.IdsAreAccountedFor` | src/lib/SwAxi.cc:205-219 | in every reachable state the ids 0, 1, ... given out are exactly those awaited or fulfilled, and none is both |
| `Guarantees.PromisesAreSetOnce` | src/lib/SwAxi.cc:218-230 | a promise that is set keeps its outcome in every continuation of the run |
| `Guarantees.MemoryIsFlat` | src/lib/SwAxi.cc:226-264 | in every reachable state each set promise holds what one flat memory answers to its request after executing, one at a time, the requests that route() took before; that request is the one issued under this id |
| `Guarantees.IssueOrderIsKept` | src/lib/SwAxi.cc:294-298 | that order keeps each master's issue order, with ids 0, 1, 2, ... |
| `Guarantees.BuffersFitExactly` | src/lib/SwAxi.cc:226-228 | a buffer is filled iff its read succeeds, and then with exactly the bytes asked for |
| `Guarantees.WhatSucceeds` | src/router/sw_axi/router.go:133-151 | a request with its promise set has succeeded iff it decodes and its slave allows it; a miss fails with the reason |
| `Guarantees.RealTimeOrder` | src/lib/SwAxi.cc:218-230 | a request answered before another is issued precedes it in the order of the flat memory |
| `Guarantees.SocketsAreBounded` | src/router/sw_axi/client.go:278-311 | in every reachable state no thread or goroutine holds more than one message and no direction of a socket more than its capacity |
| `Guarantees.EnvironmentIsFree` | src/lib/SwAxi.cc:27-63 | in every reachable state every master can issue every request as long as its ids last, and terminate; and a waiting writer can wake up spuriously |
| `Guarantees.NothingBlocks` | src/lib/SwAxi.cc:267-300 | in every reachable state before DONE: with route() at the incoming channel, every connection with a message on it can step for that message; otherwise the transaction that route() holds can move on |
| `Guarantees.StepsAreBounded` | src/router/sw_axi/router.go:153-207 | from every reachable state, with no new operation, there are at most Measure(s) steps, and two more for each spurious wake-up |
| `Guarantees.AnswersCome` | src/lib/SwAxi.cc:189-306 | a reachable state in which nothing can step before DONE has every promise set |
| `Guarantees.DoneComesLast` | src/router/sw_axi/router.go:121-130 | in polite runs: from sendDone on every promise is set and only DONE is on any path; the wait group is zero iff route() and all readers and writers have returned |
| `Progress.DeadlockFree` | src/lib/SwAxi.cc:267-300 | no cycle of full sockets and busy hands: the next step of each connection with a message, or of the transaction that route() holds, is enabled |
| `Progress.QuietMeansDone` | src/lib/SwAxi.cc:204-230 | when nothing is on its way every issued request has its promise set |
| `Progress.StuckMeansDone` | src/router/sw_axi/router.go:153-207 | a running system that cannot step has nothing on its way and every promise set |
| `Termination.ApplyLowers` | src/router/sw_axi/router.go:153-207 | every step of the system's own lowers the measure |
| `Termination.RunsAreBounded` | src/router/sw_axi/router.go:153-207 | a run in which the application does nothing is no longer than what the measure has gone down by, and two for each spurious wake-up in it |
| `Termination.ComesToRest` | src/router/sw_axi/router.go:153-207 | from every such state the system comes to rest |
| `Termination.EveryPromiseIsSet` | src/lib/SwAxi.cc:218-230 | every run in which the application does nothing and that comes to rest before sendDone has set every promise, within that many steps |
| `Closing.ApplyOrderly` | src/router/sw_axi/client.go:278-311 | every step keeps: at most one DONE per direction, behind everything else; the wait group counts what still runs; no writer with work waits for a notification that will not come |
| `Closing.WaitGroupIsExact` | src/router/sw_axi/router.go:221-221 | the wait group is never negative and is zero iff route() and every reader and writer have returned |
| `Shutdown.MastersCounted` | src/router/sw_axi/router.go:99-102 | the initial count of masters is their number |
| `Shutdown.RetireStep` | src/router/sw_axi/router.go:158-171 | taking a termination counts one master down; DONE starts iff it was the last, and the unrepaired router ends iff it was not |
| `Shutdown.ApplyCounted` | src/router/sw_axi/router.go:158-167 | every polite step keeps: masters counted are those not retired, each open termination is on its way exactly once, and a master that has asked has no open promise |
| `CleanShutdown.DrainedAtDone` | src/router/sw_axi/router.go:121-130 | once every master has retired no transaction and no termination is in any queue, hand, channel or socket |
| `CleanShutdown.DoneCanBeSent` | src/router/sw_axi/router.go:121-130 | sendDone is never blocked for good |
| `CleanShutdown.OneDoneAndLast` | src/router/sw_axi/router.go:121-130 | each client gets exactly one DONE, as its last message |
| `CleanShutdown.SessionEnds` | src/router/sw_axi/router.go:153-207 | when all masters have terminated and nothing can step, everything has returned, except a writer that missed finish in the unrepaired queue |
| `CleanShutdown.ShutdownIsClean` | src/router/sw_axi/router.go:221-275 | with the repaired queue, and one master or the repaired router: every polite run that comes to rest after all masters have terminated has everything returned and the wait group at zero |
| `CleanShutdown.SeveralMastersCanCrash` | src/router/sw_axi/router.go:158-171 | as written, with several masters the first termination can end the router |
| `CleanShutdown.CrashExactlyWithSeveralMasters` | src/router/sw_axi/router.go:158-171 | polite masters can bring the router down iff it is unrepaired and there are several |
| `Stranding.StaysStranded` | src/lib/Queue.hh:42-47 | a writer that began to wait after finish stays there, whatever the system does by itself |
| `Stranding.WriterCanBeStranded` | src/lib/Queue.hh:42-47 | with the queue as written, a polite session can come to rest with a writer waiting for ever and the wait group above zero |
| `Stranding.NoMasterNoEnd` | src/router/sw_axi/router.go:153-167 | a session without masters goes on for ever: nobody sends the TERMINATE that route() waits for |
| `Stranding.CleanExactlyWhenRepaired` | src/router/sw_axi/router.go:153-167 | for sessions with a right record of owners: shutdown is clean in every polite run iff there is a master, the queue is repaired, and the router is or has only one master |
| `Unanswered.SetExactlyWhenComing` | src/lib/SwAxi.cc:204-230 | once route() has stopped, by sendDone or a fatal error, every run to its end, polite or not, sets exactly the promises that are set already or whose response is on its way down |
| `Unanswered.TooLateIsNeverAnswered` | src/lib/SwAxi.cc:27-63 | a request issued after route() has stopped has its promise set in no continuation |
| `Unanswered.OutlivedOperation` | src/lib/SwAxi.cc:27-63 | in every system with a master: a run in which a master issues after its terminate and the promise stays open for ever |
| `Unanswered.OpenAtTerminate` | src/lib/SwAxi.cc:58-63 | with one master and a non-empty slave: a run in which a master terminates with a promise open and it stays open for ever |
| `Ownership.WhenRoutable` | src/router/sw_axi/client.go:318-326 | as written the record of owners is right iff the first client alone has masters and non-empty blocks; repaired it always is |
| `Ownership.NeverLost` | src/lib/SwAxi.cc:204-236 | with a right record no bridge gives up on a transaction, in any run |
| `Ownership.WrongRecordMisroutes` | src/router/sw_axi/router.go:183-203 | with a wrong record there is a request that goes to a client that does not hold its target or initiator |
| `Ownership.WrongRecordLoses` | src/lib/SwAxi.cc:204-236 | and a run in which a bridge gives up on it |
| `Ownership.DeliveryIsRightExactlyWhenRoutable` | src/router/sw_axi/router.go:183-203 | some run loses a transaction iff the record of owners is wrong |
| `Framing.LittleEndianInverse` | src/router/sw_axi/client.go:47-64 | the little-endian bytes of a number give it back |
| `Framing.LengthInverse` | src/router/sw_axi/client.go:52-63 | in particular for every 64-bit length |
| `Framing.DigitAt` | src/router/sw_axi/client.go:64-70 | byte j of a number is its digit j to the base 256 |
| `Framing.FrameLayout` | src/common/Utils.cc:53-74 | a frame byte by byte: eight digits of the length, the lowest first, and the message |
| `Framing.ParseInverse` | src/router/sw_axi/client.go:47-59 | a frame is read back whole, whatever follows it |
| `Framing.ParseExactlyWhen` | src/router/sw_axi/client.go:47-59 | a stream gives a message iff it begins with the frame of that message: an incomplete frame gives none |
| `Framing.FramesInverse` | src/router/sw_axi/client.go:47-72 | a list of frames is read back in order, and the stream is left at a frame boundary |
| `Framing.WriteToSocket` | src/common/Utils.cc:53-74 | without other faults: writes the frame, for any splitting of the body, iff the length goes out in one piece; otherwise fails inside it |
| `Framing.Copy` | src/router/sw_axi/client.go:64-70 | writes the whole buffer for any splitting, or a prefix and fails |
| `Framing.WriteMsg` | src/router/sw_axi/client.go:61-72 | writes the frame for any splitting, or fails inside it |
| `Framing.ReadFromSocket` | src/common/Utils.cc:28-51 | fails iff the length does not come in one piece; otherwise returns the next message iff it is all there, for any splitting of the body, and makes no progress at the end of the stream inside it |
| `Framing.ReadFull` | src/router/sw_axi/client.go:47-58 | fills the buffer for any splitting, or fails |
| `Framing.ReadMsg` | src/router/sw_axi/client.go:47-59 | returns the next message iff it is all there, and fails otherwise |
| `Framing.CutLength` | src/common/Utils.cc:33-36 | a message that is all there: the bridge's reader fails iff its length comes in two pieces, and the router's reader gets it |
| `Framing.BridgeReceivesAll` | src/common/Utils.cc:28-51 | where lengths come in one piece the bridge's reader recovers every list of messages, for any splitting of the bodies, and stops at the boundary |
| `Framing.RouterReceivesAll` | src/router/sw_axi/client.go:47-59 | so does the router's reader |
| `RouterClient.RouterClient.constructor` | src/common/RouterClient.hh:131-134 | a fresh client is disconnected and has no socket |
| `RouterClient.RouterClient.Connect` | src/common/RouterClient.cc:38-127 | every outcome of connect: refused calls change nothing, failures disconnect, success is CONNECTED |
| `RouterClient.RouterClient.RegisterIp` | src/common/RouterClient.cc:129-207 | sends IP_INFO without interrupts; an id, a rejection or a failure |
| `RouterClient.RouterClient.CommitIp` | src/common/RouterClient.cc:209-248 | sends COMMIT and waits for ACK |
| `RouterClient.RouterClient.RetrievePeerInfo` | src/common/RouterClient.cc:250-292 | one peer, or ACK and the next state |
| `RouterClient.RouterClient.RetrieveIpConfig` | src/common/RouterClient.cc:294-366 | one block, or ACK and STARTED; a block of unknown type is an error that does not disconnect |
| `RouterClient.RouterClient.ReceiveTransaction` | src/common/RouterClient.cc:368-428 | a transaction, DONE, or failure; a transaction of unknown type is an error that does not disconnect |
| `RouterClient.RouterClient.SendTransaction` | src/common/RouterClient.cc:430-477 | sends in STARTED only |
| `RouterClient.RouterClient.SendTermination` | src/common/RouterClient.cc:479-495 | sends in STARTED only |
| `RouterClient.RouterClient.SendLogout` | src/common/RouterClient.cc:497-514 | sends DONE and is LOGGED_OUT |
| `RouterClient.RouterClient.Disconnect` | src/common/RouterClient.cc:516-525 | closes an open socket and is DISCONNECTED; otherwise does nothing |
| `RouterClient.OutOfTurn` | src/common/RouterClient.cc:38-525 | in any state but the one it asks for a call reports a wrong state and changes nothing, and only then |
| `RouterClient.ConnectOutcome` | src/common/RouterClient.cc:38-127 | the router's description iff everything works and the reply is a SYSTEM_INFO, and then CONNECTED with the own description sent; any failure leaves no connection |
| `RouterClient.RegisterOutcome` | src/common/RouterClient.cc:137-207 | in CONNECTED: an id iff IP_ACK carries it, a rejection iff ERROR carries its text; anything but an id disconnects; what was sent is the block with its interrupt fields zero |
| `RouterClient.CommitOutcome` | src/common/RouterClient.cc:209-248 | success and COMMITTED iff the reply is ACK; a rejection iff it is ERROR; anything but ACK disconnects |
| `RouterClient.PeerOutcome` | src/common/RouterClient.cc:250-292 | the peer iff SYSTEM_INFO carries it, the end of the list and the next state iff ACK; anything else disconnects |
| `RouterClient.ConfigOutcome` | src/common/RouterClient.cc:294-366 | the block iff IP_INFO carries it, the end of the list and STARTED iff ACK, an error without disconnection iff its type is unknown; anything else disconnects |
| `RouterClient.ReceiveOutcome` | src/common/RouterClient.cc:368-428 | in STARTED: the transaction as it came iff one came, the end iff DONE came, an error without disconnection iff its type is unknown; anything else disconnects |
| `RouterClient.SendOutcome` | src/common/RouterClient.cc:430-514 | the three calls send exactly their message, or disconnect if the write fails; a sent DONE is the logout |
| `RouterClient.AfterValid` | src/common/RouterClient.cc:38-525 | every call with every I/O outcome keeps: the state tells how far the wire language has come, and a socket is open iff not DISCONNECTED |
| `RouterClient.WireLanguage` | src/common/RouterClient.cc:38-525 | for every sequence of calls the messages sent on a connection are a prefix of SYSTEM_INFO IP_INFO* COMMIT (TRANSACTION or TERMINATE)* DONE |
| `RouterClient.LanguageIsOrdered` | src/common/RouterClient.cc:209-525 | what a word of that language with a COMMIT looks like, message by message |
| `Handshake.InterruptsAreLost` | src/common/RouterClient.cc:137-140 | a block comes back as configured with its interrupt fields zero, and so unchanged iff it has none |
| `Handshake.BlocksStayTheSame` | src/router/sw_axi/client.go:215-262 | neither the router's reading nor its printing of a block loses or mixes up a field |
| `Handshake.RouterEnd.Commit` | src/router/sw_axi/client.go:188-276 | writes ACK, the clients, ACK, the blocks, ACK, in order; succeeds iff all writes do, and otherwise has written just the messages before the one that failed |
| `Handshake.PeersReadBack` | src/lib/SwAxi.cc:110-122 | the first loop of start reads back the client list and stops after its ACK |
| `Handshake.BlocksReadBack` | src/lib/SwAxi.cc:124-135 | the second loop reads back the block list and stops after its ACK |
| `Handshake.PeersStopAt` | src/lib/SwAxi.cc:110-122 | on any input the first loop reads the clients up to the first other message, and ends as that message says: ACK, rejection, end of the stream, or an unexpected one |
| `Handshake.BlocksStopAt` | src/lib/SwAxi.cc:124-135 | likewise the second loop, which a block of unknown type ends without a disconnection |
| `Handshake.RoundTrip` | src/router/sw_axi/client.go:188-276 | what commit writes, commitIp and start read back: both lists in order, STARTED, and exactly those messages consumed |
| `Handshake.StartingBridge.ReadPeers` | src/lib/SwAxi.cc:111-122 | the loop appends what the protocol delivers, for any client state and any input |
| `Handshake.StartingBridge.ReadBlocks` | src/lib/SwAxi.cc:124-135 | likewise for blocks |
| `Handshake.StartingBridge.Start` | src/lib/SwAxi.cc:110-140 | both loops, in any client state; an error in either disconnects and clears the blocks |
| `Phases.HearList` | src/common/RouterClient.cc:209-366 | a client that hears the next message of the lists has learnt exactly a prefix of them |
| `Phases.RegisterOk` | src/router/sw_axi/router.go:241-260 | an accepted registration gives the client the id of its own block |
| `Phases.RegistrationAnswered` | src/router/sw_axi/router.go:241-260 | the router answers a registration with the place of the new entry iff it accepts the block, and with ERROR otherwise, leaving the list as it was; a master is counted either way |
| `Phases.CommitOk` | src/router/sw_axi/router.go:249-264 | COMMIT ends a client's turn; after the last one the lists begin |
| `Phases.ApplyOk` | src/router/sw_axi/router.go:233-275 | every step of router and clients keeps the phases apart |
| `Phases.NothingIsUnexpected` | src/router/sw_axi/router.go:233-275 | in every run, with a rejection or without: the router meets no message that it does not expect; no client does, except that one whose registration is rejected learns so and is disconnected; and every id that a client got names its own block |
| `Phases.ConnectBringsTheHost` | src/common/RouterClient.cc:38-127 | in every run connect gives each client the router's own description, and leaves it CONNECTED with its own description sent |
| `Phases.TrafficComesAfterTheLists` | src/router/sw_axi/router.go:266-275 | no traffic is the next thing to read for a client that has not read the last ACK of its lists, though others already send |
| `Phases.StartedKnowsAll` | src/router/sw_axi/client.go:188-276 | a STARTED client knows all clients in order and all blocks in order of their ids, its own among them under the ids it got, field by field as registered but for the interrupts |
| `TrafficPassing.ClientReceivesWhatWasDelivered` | src/common/RouterClient.cc:368-428 | in every run of the composed handshake, for every client: what its receive calls have returned is, item by item and in order, what the router's goroutine was given for it, and the rest is still on the socket |
| `TrafficPassing.RouterCollectsWhatWasSaid` | src/common/RouterClient.cc:430-514 | and what the goroutine has read is traffic only: in order what the client was asked to send, and the rest is still on the socket |
| `Enrolment.AttemptAt` | src/router/sw_axi/router.go:233-264 | the j-th block of client c is registration number Offset(c) + j |
| `Enrolment.RegistryGrows` | src/router/sw_axi/router.go:99-119 | an accepted registration extends the registry that the earlier ones have made |
| `Enrolment.ApplyEnrolled` | src/router/sw_axi/router.go:233-264 | every step of the composed handshake keeps: the registry is what the registrations so far make of it, and ids are their numbers |
| `Enrolment.IdsAreDistinct` | src/router/sw_axi/router.go:112-118 | in every run without a rejection no two registrations, of one client or of two, get the same id |
| `Enrolment.EverythingIsRegistered` | src/router/sw_axi/router.go:233-270 | when the router serves, its registry is that of all clients' blocks, one client after the other; each client's ids are the positions of its blocks |
| `Enrolment.RegisteredAsPlanned` | src/router/sw_axi/router.go:233-264 | field by field: when the router serves, the entry under the j-th id of client c is the j-th block of its plan without interrupts, marked with the id that newClient left for c; and there are no other entries |
| `Enrolment.EveryBlockIsTold` | src/router/sw_axi/client.go:188-276 | a STARTED client has been told every registered block of every client, at the place that its id names |
| `HandshakeProgress.RestIsServing` | src/router/sw_axi/router.go:225-275 | nothing is left to do for the handshake iff the router serves and every client has started |
| `HandshakeProgress.ApplyCosts` | src/router/sw_axi/router.go:233-264 | every step of the handshake lowers a cost, and traffic does not raise it |
| `HandshakeProgress.HandshakeIsBounded` | src/router/sw_axi/router.go:225-275 | every run without a rejection has at most a number of handshake steps that the plans determine, whatever traffic goes on |
| `HandshakeProgress.AcceptedCount` | src/router/sw_axi/router.go:99-119 | all registrations are in the registry iff each is accepted in its turn |
| `HandshakeProgress.ServesExactlyWhen` | src/router/sw_axi/router.go:225-275 | the handshake can get to where the router serves iff no registration is rejected |
| `Launch.BlockComesFrom` | src/router/sw_axi/router.go:99-119 | every block of the registry is one registration of the client on record as its holder |
| `Launch.BooksAreRight` | src/lib/SwAxi.cc:85-104 | a bridge's maps hold exactly the masters and slaves that the router lists for it |
| `Launch.HandshakeLaunchesSystem` | src/router/sw_axi/router.go:225-275 | every handshake without a rejection ends in a valid configuration and a start state of the started system, with the record of owners that newClient leaves; what early clients have sent is EarlyTrafficIsReached |
| `EarlyTraffic.EarlyTrafficIsReached` | src/router/sw_axi/router.go:266-275 | if clients have already sent what their bridges make of operations on their masters, the started system comes from that start state to where exactly these messages are on the way up |

## Left out

- The FlatBuffers encoding: messages are records that follow `src/common/IpcStructs.fbs`, and setting the target in place is a field update; that the library does this for default-valued fields too is an assumption.
- Unknown enumeration values that the router receives: it reads an unknown block type as a slave and drops a transaction of unknown type.  What a client makes of them is modelled.
- Socket set-up, host and process information, logging, command-line flags, printing.
- `RouterClient::connect` builds an error for a path that is too long and does not return it (src/common/RouterClient.cc:51-53); path lengths are not modelled.
- SystemVerilog sources and the DPI wrappers; stream and lite interfaces have no behaviour of their own.
- Heap ownership, data races on `Status` and on the fields of `RouterClient`; the existing locks are atomic blocks, and the writer's pop, numbering and recording of one request are one step, because only the writer touches that request in between.
- A request of a master that its bridge does not have: the source would make up an empty entry for it (src/lib/SwAxi.cc:296), the model sends it unnumbered; it cannot be issued.
- Blocks of a master type registered with `registerSlave`: a master of the model has size zero, as `registerMaster` gives it.
- Slaves other than byte-array RAMs: a slave refuses accesses outside its bytes, and writes if it is read-only.
- Recovery after an I/O failure: in the started system sockets do not fail; in the client protocol and in framing every failure is modelled.
- Sockets of the started system are bounded in messages, not bytes.
- A rejected registration ends the composed handshake of `Phases`, since the client disconnects and the router then fails to read from it.
- `Launch` asks that no planned block reaches the end of the address space and that masters have no size; that the registered blocks are disjoint follows from the repaired overlap test and is asked for otherwise.
- CleanExactlyWhenRepaired: speaks of sessions with a right record of owners; with a wrong one a bridge can give up on a transaction, which `DeliveryIsRightExactlyWhenRoutable` says exactly.
- HandshakeLaunchesSystem: the start state has empty sockets; `EarlyTrafficIsReached` adds what clients have sent by then, and what the router has delivered by then is left aside.
- The composed handshake of `Phases` has no I/O errors, its sockets are unbounded, and the goroutines that start last are one step per message.
- More than 2^64 requests of one master: ids are then reused, and the model does not issue them.
