# Verified model of the voce engine, gateway and machine

voce runs voice agents: clients talk to a gateway, the gateway multiplexes their sessions over pooled
connections to machines, and a machine runs each session as a workflow of plugins that exchange signals,
payloads, audio and video. This project models the parts of voce where the state is easiest to get wrong
and proves what they promise, over every input, every run and every interleaving.

`dafny verify dfyconfig.toml` checks everything.

## What is modelled

**Session allocation.** `IndexedHeap` is the binary heap with back pointers that both pools keep;
`Allocation` is the group of tables (records, connections, routes, session sets, loads) that must agree.
`GatewayPool` is the gateway's connection pool as a state machine: its mutex-protected operations are
steps, and the state word of every connection moves on its own between and during them, along the
transitions a connection allows (`Network`). `GatewayPoolSafety` proves what every run keeps, and
`GatewayPoolAnswers` what each operation answers and does, in terms of the records' loads and of the states
their connections were last seen in.
`ConnectionPool` is the pool as the code writes it, a class that mutates maps, gauges and the heap; each
of its operations is proved to be a step of the state machine, so every theorem about runs is a theorem
about the class. `MachinePool` is the machine's least-loaded router, on the same heap and tables.

**Graphs.** `Topology` is Kahn's algorithm with duplicate edges and cycles; `WorkflowGraph` is validation,
numbering and the wiring of route tables.

**The event runtime.** `NodeLoop`, `WorkerLoop` and `Track` are the node loop, the worker loop and one
track of a multi-track plugin, as steps that interleave freely. `Overtaking` is the argument the first two
share. `LoopWorkflow` is starting, rolling back and stopping a workflow of loop nodes, the default, with any
number of Stop calls at any time; every node in it is a `NodeLoop` machine. `Lifecycle` is the same for
nodes that run on the worker pool, where a node's `OnStop` is part of the call. `RefCount` is the manual reference
count of media objects across all of them; `MediaFlow` is the counted object and the sending loops, run
by one thread to the end.

**Streams and wire format.** `AudioStreaming`, `VoiceActivity`, `MarkdownFilter` and `Sentences` are the
four streaming transducers, each against a definition that sees the whole stream at once (`Cutting`).
`Codec` is the packet format and the session framing.

## Where the code falls short of what one would expect

- Two overlapping `Stop` calls on a loop node: the second can return while the loop is still blocked, because
  the first has not sent its message yet. `NodeLoop.OverlappingStops` gives the run, and
  `NodeLoop.BlockedIffPoised` says exactly when it can happen: while a call is between clearing the flag and
  sending, if and only if the loop is past its check of the flag with nothing queued and its context live. A
  workflow never gets there, because its Stop cancels the context first (`LoopWorkflow.RefusalStops`,
  `LoopWorkflow.StopStops`).
- A track's epoch is a 32-bit counter: an item passes the stale check exactly when the interrupts since its
  stamping are a multiple of 2^32 (`Track.StaleCheck`), and that many can happen (`Track.InterruptsBetween`).
- Drop-oldest decides to evict on a full queue, but by the time it evicts the reader may have made room; an item
  is dropped all the same. `Track.EvictsWithRoom` gives the run, and `Track.EvictsFromFull` shows that the queue
  is still full at the eviction if and only if the reader took nothing in between.
- A payload of 2^32 bytes or more marshals to a packet that does not unmarshal (`Codec.DecodeEncoded`), and
  the gateway's check on client packets lets exactly those through (`Codec.ClientCheck`).
- `BuildGraph` accepts repeated node names (`WorkflowGraph.RepeatedNameAccepted`); the workflow then fails to
  build (`WorkflowGraph.NewWorkflow`).
  The contract check has no prefix for video, so it refuses every video edge.

## Model

| member | source | states |
|---|---|---|
| `IndexedHeap.RootIsLeast` | internal/gateway/pool.go:542-576 | in a heap-ordered queue no slot has a smaller priority than the root, none of its priority a smaller load, and none of its priority and load a smaller id |
| `IndexedHeap.SmallerChild` | internal/gateway/pool.go:546-554 | picks a child of the slot that no other child precedes |
| `IndexedHeap.Heap.constructor` | internal/gateway/pool.go:153-169 | an empty heap is valid |
| `IndexedHeap.Heap.Get` | internal/gateway/pool.go:411-411 | a back pointer leads to the item it belongs to |
| `IndexedHeap.Heap.Root` | internal/gateway/pool.go:388-393 | the root is the item a linear scan over (priority, load, id) finds, and there is none only when the heap is empty |
| `IndexedHeap.Heap.Swap` | internal/gateway/pool.go:556-560 | two slots change places and every back pointer still finds its item |
| `IndexedHeap.Heap.Up` | internal/gateway/pool.go:379-379 | sifting up restores the order around one slot that is out of order |
| `IndexedHeap.Heap.Down` | internal/gateway/pool.go:411-411 | sifting down either restores the order or moves nothing and leaves the slot's children in order |
| `IndexedHeap.Heap.Push` | internal/gateway/pool.go:562-566 | the order and the back pointers survive a push, and the contents gain exactly that item |
| `IndexedHeap.Heap.Put` | internal/gateway/pool.go:441-441 | fields the order does not read may be written in place |
| `IndexedHeap.Heap.Fix` | internal/gateway/pool.go:409-412 | after any change of one item the order is restored, and no other item changes |
| `IndexedHeap.Heap.Pop` | internal/gateway/pool.go:568-576 | the last slot leaves the queue and its item gets index -1 |
| `IndexedHeap.Heap.Remove` | internal/gateway/pool.go:487-489 | the contents lose exactly that item, wherever it sits, and the order holds |
| `Allocation.InsertAgrees` | internal/gateway/pool.go:364-379 | a new empty record keeps records, connection map, routes, session sets and loads in agreement |
| `Allocation.DropAgrees` | internal/gateway/pool.go:482-501 | removing a record with its routes keeps the agreement and takes exactly its own routes |
| `Allocation.AttachAgrees` | internal/gateway/pool.go:459-467 | routing an unrouted key keeps the agreement |
| `Allocation.DetachAgrees` | internal/gateway/pool.go:243-254 | unrouting keeps the agreement, and the guard on the load never bites |
| `Network.StateWords.State` | internal/gateway/connection.go:133-169 | a state may change at any read, Closed is final, and the read is on record |
| `GatewayPoolSafety.StepInv` | internal/gateway/pool.go:180-540 | every operation keeps the pool invariant: table agreement, the session cap, handles that point at the route's connection or nowhere, exact gauges, nobody waiting while capacity is free, the dial budget; and no session loses its route except by its own Unbind, the removal of its closed connection, or Shutdown |
| `GatewayPoolSafety.BindInv` | internal/gateway/pool.go:180-205 | Bind keeps the invariant and every route |
| `GatewayPoolSafety.TryBindInv` | internal/gateway/pool.go:210-237 | TryBind keeps the invariant and every route, bound, refused or scaled up |
| `GatewayPoolSafety.UnbindInv` | internal/gateway/pool.go:239-259 | Unbind keeps the invariant, frees only its own route, and gives the capacity to whoever waits |
| `GatewayPoolSafety.SyncInv` | internal/gateway/pool.go:416-449 | following a connection's state keeps the invariant; only a closed connection's sessions lose their routes |
| `GatewayPoolSafety.DialInv` | internal/gateway/pool.go:346-386 | a finished dial keeps the invariant and the budget, and assigns whoever waits |
| `GatewayPoolSafety.CleanupInv` | internal/gateway/pool.go:526-540 | idle cleanup keeps the invariant and every route, and never takes a pool at or above the minimum below it |
| `GatewayPoolSafety.EveryRun` | internal/gateway/pool.go:180-540 | the invariant holds in every state of every run, however connection states move in between |
| `GatewayPoolSafety.NobodyWaits` | internal/gateway/pool.go:388-480 | in every reachable state, a bound key without a route means that every pooled record is Unavailable |
| `GatewayPoolSafety.RouteHolds` | internal/gateway/pool.go:239-290 | over any stretch of a run, a route stays the same until its own Unbind, its connection's removal after Closed, or Shutdown |
| `GatewayPoolSafety.ClosedStep` | internal/gateway/pool.go:356-363 | a closed pool stays closed and takes in no connection, dials in flight included |
| `GatewayPoolSafety.ShutdownIsFinal` | internal/gateway/pool.go:261-290 | once Shutdown has emptied the pool there is never again a connection or a routed key |
| `GatewayPoolAnswers.SelectsIsBest` | internal/gateway/pool.go:388-407 | the record selected is the best one: with room and last seen Active if there is any such, otherwise Connecting; of those the least loaded; of those the oldest |
| `GatewayPoolAnswers.BindAnswers` | internal/gateway/pool.go:180-205 | a new key is bound and goes to the best record, or waits iff no record is open; a dial is started iff none is pending, the pool is open and below its maximum, and the key waits or its record and the best one are Active and crowded; a bound key changes nothing |
| `GatewayPoolAnswers.TryBindAnswers` | internal/gateway/pool.go:210-237 | a new key is answered true iff the best record was last seen Active and its connection reads Active, and only then is it bound and routed there; a bound key is answered whether its route reads Active; the same exact condition for starting a dial |
| `GatewayPoolAnswers.UnbindAnswers` | internal/gateway/pool.go:239-259 | exactly the key's binding and route go; a record left without sessions is marked with the time; beyond that sessions are only attached |
| `GatewayPoolAnswers.SyncAnswers` | internal/gateway/pool.go:416-449 | a state read as Closed takes exactly that record out; any other is recorded and nothing else changes |
| `GatewayPoolAnswers.DialAnswers` | internal/gateway/pool.go:356-381 | an open pool gains exactly that connection, under a new id and unloaded before the waiting are attached |
| `GatewayPoolAnswers.CleanupAnswers` | internal/gateway/pool.go:526-535 | only records without sessions and marked for at least the timeout go, and it stops only at the minimum or with none left |
| `GatewayPoolAnswers.StartMinAnswers` | internal/gateway/pool.go:312-324 | connections and pending dials end at the minimum, or stay where they were above it |
| `GatewayPoolAnswers.EmptyAnswers` | internal/gateway/pool.go:267-285 | no connection, route or binding is left, and every handle of a bound session points nowhere |
| `GatewayPoolAnswers.NewRouteIsBest` | internal/gateway/pool.go:459-480 | in every run, whichever step routes a session, it goes to the record that is best at that moment: never to a Connecting one while an Active one has room, never past a less loaded one of its kind |
| `GatewayPoolAnswers.MarkedSince` | internal/gateway/pool.go:250-257 | in every run, a record marked idle with a time lost its last session in an Unbind at that time and has had none since |
| `GatewayPoolAnswers.ReapedWasIdle` | internal/gateway/pool.go:526-535 | in every run, a record that cleanup takes out has been without sessions for at least the timeout |
| `ConnectionPool.Pool.constructor` | internal/gateway/pool.go:144-178 | a new pool is valid and in the initial state of the machine |
| `ConnectionPool.Pool.SelectLocked` | internal/gateway/pool.go:388-393 | the record selected has the smallest priority, of those the smallest load, of those the smallest id, and none is selected only if all are Unavailable |
| `ConnectionPool.Pool.AttachLocked` | internal/gateway/pool.go:459-467 | route, session set, load, handle, gauge and priority change together, with the state that was read |
| `ConnectionPool.Pool.AssignPendingLocked` | internal/gateway/pool.go:469-480 | in whatever order the waiting keys are visited, each goes to the record selected then, and nobody waits at the end while there is capacity |
| `ConnectionPool.Pool.UnrouteLocked` | internal/gateway/pool.go:491-500 | exactly the given sessions lose route and handle |
| `ConnectionPool.Pool.RemoveLocked` | internal/gateway/pool.go:482-501 | the record leaves heap, maps and gauges with all its routes |
| `ConnectionPool.Pool.ReserveDialLocked` | internal/gateway/pool.go:337-344 | reserves exactly when no dial is pending, the pool is open and the maximum is not reached |
| `ConnectionPool.Pool.ReserveScaleLocked` | internal/gateway/pool.go:326-335 | reserves exactly when moreover the best record is active and at its target load |
| `ConnectionPool.Pool.DetachLocked` | internal/gateway/pool.go:239-257 | binding, route, session, load, priority and idle mark of one key change together |
| `ConnectionPool.Pool.SetStateLocked` | internal/gateway/pool.go:424-442 | the gauges follow the recorded state |
| `ConnectionPool.Pool.RefreshLocked` | internal/gateway/pool.go:409-412 | the priority is recomputed from the load and the state that was read, and only that |
| `ConnectionPool.Pool.InsertLocked` | internal/gateway/pool.go:364-379 | the new record has a fresh id, no load, and the states read |
| `ConnectionPool.Pool.CleanupLocked` | internal/gateway/pool.go:526-535 | in whatever order, reaps idle records until the minimum is reached or none is left idle |
| `ConnectionPool.Pool.EmptyLocked` | internal/gateway/pool.go:267-285 | all tables are empty, all handles cleared, all gauges taken back |
| `ConnectionPool.Pool.PlaceLocked` | internal/gateway/pool.go:228-231 | a new key is bound and attached with the state that was read, and scaling is decided after that |
| `ConnectionPool.Pool.Bind` | internal/gateway/pool.go:180-205 | is the machine's Bind step, with the state on record for the chosen connection, and keeps the invariant; the key is bound to the returned handle |
| `ConnectionPool.Pool.TryBind` | internal/gateway/pool.go:210-237 | is the machine's TryBind step and keeps the invariant; the answer is what the read of the best record's connection, or of the bound key's, returned |
| `ConnectionPool.Pool.Unbind` | internal/gateway/pool.go:239-259 | is the machine's Unbind step and keeps the invariant |
| `ConnectionPool.Pool.SyncConnectionState` | internal/gateway/pool.go:416-449 | is the machine's Sync step and keeps the invariant; the record goes iff the read returned Closed, and otherwise records what was read |
| `ConnectionPool.Pool.DialEnds` | internal/gateway/pool.go:356-386 | is the machine's DialEnds step and keeps the invariant |
| `ConnectionPool.Pool.DialFails` | internal/gateway/pool.go:346-354 | gives back one reservation and keeps the invariant |
| `ConnectionPool.Pool.StartMinConnections` | internal/gateway/pool.go:312-324 | starts exactly the dials missing to the minimum and keeps the invariant |
| `ConnectionPool.Pool.CleanupIdle` | internal/gateway/pool.go:526-540 | is the machine's Cleanup step and keeps the invariant |
| `ConnectionPool.Pool.MarkClosed` | internal/gateway/pool.go:261-264 | only the first call goes on; the invariant holds |
| `ConnectionPool.Pool.EmptyPool` | internal/gateway/pool.go:267-290 | is the machine's Empty step, keeps the invariant, and returns all connections to close |
| `MachinePool.DropKept` | internal/machine/pool.go:168-185 | evictions one by one leave the tables restricted to what is kept |
| `MachinePool.StableCompose` | internal/machine/pool.go:187-214 | operations that leave other sessions' routes alone compose |
| `MachinePool.TakesLightest` | internal/machine/pool.go:93-105 | the record that takes a new key has no more sessions than any kept one, and among equals it is the oldest |
| `MachinePool.ConnectionManager.Store` | internal/machine/pool.go:57-78 | a new connection enters unloaded; storing nil or a known one changes nothing |
| `MachinePool.ConnectionManager.RemoveConnectionLocked` | internal/machine/pool.go:168-185 | the record leaves heap, maps and gauges with all its routes |
| `MachinePool.ConnectionManager.AllocateLocked` | internal/machine/pool.go:93-107 | evicts roots that were read and not active, each time shrinking the heap, and gives the key to the least of what is left, which was read as active; nothing is returned only when nothing is left |
| `MachinePool.ConnectionManager.Select` | internal/machine/pool.go:82-108 | returns the key's route if it reads active, else a new one to the least loaded connection kept, which reads active; evicts only what reads not active; nil only with no connection left; no other session's route moves |
| `MachinePool.ConnectionManager.Lookup` | internal/machine/pool.go:111-124 | returns a route that reads active and changes nothing, or nil only for a key without a route or whose connection read not active, and then leaves it unrouted |
| `MachinePool.ConnectionManager.Release` | internal/machine/pool.go:128-166 | the key ends unrouted, its record loses one load, nothing else changes, and a second call changes nothing |
| `MachinePool.ConnectionManager.Remove` | internal/machine/pool.go:141-153 | exactly that connection goes, with exactly its routes |
| `MachinePool.ConnectionManager.OnSessionDelete` | internal/machine/pool.go:187-214 | a failed write is followed by a second attempt unless no connection is left; whichever writes fail, the key ends unrouted and other sessions keep every route whose connection stays |
| `Topology.SortNodes` | internal/engine/graph.go:136-188 | each node exactly once; a prefix in which every edge into a node comes from an earlier one; the rest are exactly the nodes on or downstream of a cycle; and the prefix is everything iff the graph is acyclic |
| `Topology.CountDegrees` | internal/engine/graph.go:137-147 | successor lists and in-degrees count duplicate edges as often as they occur |
| `Topology.Relax` | internal/engine/graph.go:164-169 | taking a node keeps each in-degree equal to the edges from nodes not yet taken |
| `Topology.OrderedNotFed` | internal/engine/graph.go:136-188 | a node in a topologically ordered prefix is on no cycle and downstream of none |
| `Topology.LeftoverFed` | internal/engine/graph.go:136-188 | when every leftover node has a leftover predecessor, each of them is on or downstream of a cycle |
| `Topology.AcyclicIffAllSorted` | internal/engine/graph.go:172-180 | nothing is left over iff there is no cycle |
| `WorkflowGraph.ParseNodes` | internal/engine/graph.go:80-92 | succeeds exactly on distinct ids that all have builders, and names the offender otherwise |
| `WorkflowGraph.CheckSelfLoops` | internal/engine/graph.go:94-101 | fails exactly when some edge leads from a node to itself |
| `WorkflowGraph.ValidateEdgeContracts` | internal/engine/graph.go:103-134 | passes iff every edge has both endpoints, is a signal, payload or audio edge, and its contract fits; an error names the first condition the first bad edge breaks |
| `WorkflowGraph.Validate` | internal/engine/graph.go:24-50 | the checks pass iff the head is given and present, ids are distinct and built, no edge is a self-loop, and every edge stands; an error says what is broken |
| `WorkflowGraph.BuildGraph` | internal/engine/graph.go:24-57 | succeeds exactly on those configurations, and then lists every configured node once in the order above |
| `WorkflowGraph.BaseNode.AddNextNode` | internal/engine/node.go:86-105 | the target is added to one list, once |
| `WorkflowGraph.BaseNode.AddNextPortNode` | internal/engine/node.go:107-141 | the target is added to the port's list and to the broadcast list, once each; a port out of range changes nothing |
| `WorkflowGraph.WiringIsExact` | internal/engine/workflow.go:104-125 | a target is in the broadcast list for a kind exactly once iff some edge of that kind with a port in 0..11 leads to it, and in the list of port p iff p is not 0 and an edge names p |
| `WorkflowGraph.Workflow.InitNodes` | internal/engine/workflow.go:70-102 | fails exactly on a repeated id or name or a plugin that cannot be built; otherwise ids and names map to positions |
| `WorkflowGraph.Workflow.WireNodes` | internal/engine/workflow.go:104-125 | fails exactly on a missing endpoint; otherwise every node has the tables of all edges |
| `WorkflowGraph.NewWorkflow` | internal/engine/workflow.go:33-68 | an accepted configuration is built iff its names are distinct and its plugins can be built: wiring never fails on an endpoint; there is one node for each configured one, and different ids lead to different nodes |
| `WorkflowGraph.RepeatedNameAccepted` | internal/engine/graph.go:24-57 | a configuration with a repeated name is accepted |
| `Overtaking.AtMostOne` | internal/engine/node_loop.go:111-152 | a loop that looks at urgent work before waiting on everything starts at most one ordinary event while urgent work stays queued |
| `NodeLoop.BoundedOvertaking` | internal/engine/node_loop.go:111-152 | over every interleaving, while a signal or control message is queued at most one payload or media event starts |
| `NodeLoop.HandledFromTheHead` | internal/engine/node_loop.go:111-171 | what the loop starts to handle is the head of one queue and only that leaves; senders only append; when draining ends no audio or video is left |
| `NodeLoop.EveryRun` | internal/engine/node_loop.go:40-171 | the protocol invariant of Start, Stop and loop holds in every reachable state |
| `NodeLoop.StopUnblocks` | internal/engine/node_loop.go:49-60 | after the Stop that cleared the flag has returned the loop is never blocked, even if the control queue was full |
| `NodeLoop.OnlyOverlapBlocks` | internal/engine/node_loop.go:49-60 | without overlapping Stop calls, no loop is blocked after any Stop made after Start has returned |
| `NodeLoop.NeverPoised` | internal/engine/node_loop.go:111-152 | once the flag is cleared, a loop that is not past its check with nothing to wake it never will be |
| `NodeLoop.BlockedIffPoised` | internal/engine/node_loop.go:49-60 | in every reachable state in which a Stop has cleared the flag and not sent, another Stop can come back to a blocked loop iff the loop is past its check with all queues empty and the context live; once it has sent, none can |
| `NodeLoop.OverlappingStops` | internal/engine/node_loop.go:50-53 | with overlapping Stop calls one can be |
| `NodeLoop.OneOnStop` | internal/engine/node_loop.go:105-110 | OnStop runs at most once, exactly when the loop leaves, and never for a node that was not started |
| `NodeLoop.StopLeadsToOnStop` | internal/engine/node_loop.go:105-153 | once the flag is down or the context cancelled, every step of the loop brings it nearer to OnStop, nobody takes it back, and it is stuck only while the stopping call has still to send |
| `WorkerLoop.BoundedOvertaking` | internal/engine/scheduler.go:41-63 | while a high-priority task is queued at most one normal task starts |
| `WorkerLoop.ExecutedFromTheHead` | internal/engine/scheduler.go:41-96 | a worker executes the head of one queue, drains only when cancelled, and stops draining only when both are empty |
| `LoopWorkflow.OwnStep` | internal/engine/workflow.go:156-220 | in every step of the workflow each loop node makes a step of its own machine or none |
| `LoopWorkflow.StepInv` | internal/engine/workflow.go:156-220 | every step of Start, of any Stop call, of the loops and of the senders keeps the workflow's invariant |
| `LoopWorkflow.EveryRun` | internal/engine/workflow.go:156-220 | the invariant holds in every state of every interleaving |
| `LoopWorkflow.RefusalStops` | internal/engine/workflow.go:164-168 | once Start has returned the refusal of node k, every node before k is launched with its flag down, not blocked, and has had at most one OnStop; node k and those after it were never launched and have had none |
| `LoopWorkflow.StopStops` | internal/engine/workflow.go:205-220 | once a Stop has returned, every launched node is to end, is not blocked and has had at most one OnStop, even one that a Start under way launches later; if Start had returned before, all flags are down |
| `LoopWorkflow.WordFollows` | internal/engine/workflow.go:156-249 | the state word is Running only after every node has started, and a refused start leaves it Stopped for good |
| `LoopWorkflow.OnStopWithinSix` | internal/engine/node_loop.go:105-153 | from the moment a node is to end, it has called OnStop exactly once when its loop has made six steps of its own, and it can make the next one unless it is blocked |
| `LoopWorkflow.DriversGoOn` | internal/engine/workflow.go:156-220 | neither Start nor any Stop call ever waits for anyone |
| `Lifecycle.SchedulerNode.Start` | internal/engine/node_scheduler.go:24-30 | the node runs only if OnStart accepts |
| `Lifecycle.SchedulerNode.Stop` | internal/engine/node_scheduler.go:32-36 | OnStop runs only for a running node, so once |
| `Lifecycle.Workflow.ClearStartError` | internal/engine/workflow.go:195-201 | on worker-pool nodes, rollback stops exactly the nodes up to the index, each once |
| `Lifecycle.Workflow.Start` | internal/engine/workflow.go:156-193 | on worker-pool nodes, all run or, at the first refusal, exactly the accepted ones have had one OnStop and the workflow is stopped; a second start changes nothing |
| `Lifecycle.Workflow.Stop` | internal/engine/workflow.go:204-220 | on worker-pool nodes, every accepted node has had exactly one OnStop; stopping again changes nothing |
| `Track.StepInv` | internal/engine/multi.go:40-163 | every step of pusher, reader and interrupters keeps the track's invariant |
| `Track.EveryRun` | internal/engine/multi.go:40-163 | the track's invariant holds in every reachable state |
| `Track.HandledInOrder` | internal/engine/multi.go:108-163 | the handled items are the pushed ones at increasing positions, none newer than what is queued; queued epochs never decrease |
| `Track.PauseCheck` | internal/engine/multi.go:136-148 | at the pause check an item goes on iff the track is not paused |
| `Track.PausedHandlesNothing` | internal/engine/multi.go:136-148 | while a track is paused nothing is handled but the one item that had already passed the pause check |
| `Track.ReaderSteps` | internal/engine/multi.go:116-135 | the reader takes the head, and gives up only an empty queue |
| `Track.DrainsWhenCancelled` | internal/engine/multi.go:129-134 | it starts draining only after its context was cancelled |
| `Track.OnlyTheCheckHandles` | internal/engine/multi.go:136-156 | items are handled at the stale check and nowhere else, and stamped with the interrupts so far |
| `Track.NothingLostUnseen` | internal/engine/multi.go:40-106 | every pushed item was turned away, entered, or is being pushed, and no evicted item is ever handled |
| `Track.DropOldestKeepsNewest` | internal/engine/multi.go:79-106 | drop-oldest turns a push away only when that push's own context has ended; the queue is always the newest stretch of what entered, so from its head on every pushed item is queued, was turned away for that reason, or is being pushed; with no context ended there is no gap |
| `Track.EvictsFromFull` | internal/engine/multi.go:81-95 | between finding the queue full and evicting, the queue stays full iff the reader takes nothing |
| `Track.EvictsWithRoom` | internal/engine/multi.go:81-95 | the reader can make room in between, and an item is dropped all the same |
| `Track.OneEvictionPerPush` | internal/engine/multi.go:80-105 | with one pusher, a push evicts at most once: the retried send goes through unless its own context has ended |
| `Track.DropNewestKeepsOldest` | internal/engine/multi.go:57-77 | accepted items leave only to the reader, from the head; a push is turned away only when its own context has ended or when the queue is full of older items |
| `Track.StaleCheck` | internal/engine/multi.go:136-136 | an item passes iff the interrupts since its stamping are a multiple of 2^32; short of that many, iff there was none |
| `Track.InterruptsBetween` | internal/engine/multi.go:270-278 | any number of interrupts can fall between stamping and check, so an item does pass after 2^32 |
| `RefCount.StepInv` | internal/schema/audio.go:82-91 | every retain, release, delivery, eviction, receipt and return keeps the count of every object equal to its holders |
| `RefCount.FanoutFunded` | internal/engine/node.go:179-207 | a fan-out never delivers a reference it has not retained, and ends owing none |
| `RefCount.BroadcastFunded` | internal/engine/workflow.go:299-315 | a broadcast always holds at least the caller's reference until it releases it last |
| `RefCount.EachReached` | internal/engine/node.go:179-207 | a fan-out and a broadcast deliver once to each receiver, in order |
| `RefCount.EveryRun` | internal/engine/node.go:263-312 | the count equals the holders in every state of every run, through fan-out, drop, panic, drain, discard and eviction |
| `RefCount.CountIsHolders` | internal/schema/audio.go:82-112 | an object has been recycled at most once, and exactly once precisely when nobody holds it |
| `RefCount.NeverWhileHeld` | internal/engine/multi.go:57-163 | what is queued, being handled, being evicted, in the middle of a send, or owned by plugin code is not recycled |
| `RefCount.RecycledIsFinal` | internal/schema/audio.go:86-91 | no later step touches the count of a recycled object |
| `RefCount.QuietMeansRecycled` | internal/engine/node_loop.go:155-171 | when every queue is empty and every thread has given back what it held, every object created has been recycled exactly once |
| `MediaFlow.Audio.Retain` | internal/schema/audio.go:82-84 | one reference more |
| `MediaFlow.Audio.Release` | internal/schema/audio.go:86-91 | one reference less; the last one recycles the object and leaves it blank, any other leaves its contents |
| `MediaFlow.Audio.Recycle` | internal/schema/audio.go:93-112 | the object is blank again, and only buffers over the caps are let go |
| `MediaFlow.MediaNode.Input` | internal/engine/node_loop.go:76-103 | one reference is consumed: queued iff the context is live, the node runs and there is room, and otherwise released |
| `MediaFlow.SendAudio` | internal/engine/node.go:179-190 | each downstream that accepts gets exactly one reference, the others are released, the caller's is untouched, and the object is not recycled on the way |
| `MediaFlow.Broadcast` | internal/engine/workflow.go:299-315 | each node that accepts gets one reference and the caller's is consumed; the object is recycled iff no reference is left; a workflow that is not running changes nothing |
| `Cutting.BlocksConserve` | internal/plugins/base/tts/base.go:84-99 | fixed-size blocks and the remainder make up the stream |
| `Cutting.CutInTwo` | internal/plugins/ten_vad/plugin.go:101-123 | cutting may stop anywhere and go on with the remainder |
| `AudioStreaming.AudioStreamer.constructor` | internal/plugins/base/tts/base.go:38-52 | a new streamer is closed and holds nothing |
| `AudioStreaming.AudioStreamer.Reset` | internal/plugins/base/tts/base.go:112-115 | after a reset the streamer is closed and holds nothing |
| `AudioStreaming.AudioStreamer.Fill` | internal/plugins/base/tts/base.go:87-89 | the buffer takes as much as it has room for, after what it held |
| `AudioStreaming.AudioStreamer.Cut` | internal/plugins/base/tts/base.go:84-99 | what is sent is the fixed-size cut of carry and data together, the buffer holds the remainder, and cancellation only ends it early |
| `AudioStreaming.AudioStreamer.Write` | internal/plugins/base/tts/base.go:79-109 | uncancelled, the events of a call are opening, cut and closing of the utterance so far; cancelled, those of the bytes taken; in both cases the trace since the last reset is (Start, audio, End) repeated, the last possibly open |
| `AudioStreaming.SplitDoesNotMatter` | internal/plugins/base/tts/base.go:79-109 | however an utterance is split over calls, its events are those of cutting it at once |
| `AudioStreaming.WholeUtterance` | internal/plugins/base/tts/base.go:79-109 | the calls of one utterance produce one start, the fixed-size blocks, one remainder if any, one end |
| `AudioStreaming.UtteranceConserves` | internal/plugins/base/tts/base.go:101-108 | an utterance carries every byte written, in order |
| `AudioStreaming.UtteranceSizes` | internal/plugins/base/tts/base.go:84-108 | every audio event but the last is of the full size, and the last is neither empty nor larger |
| `VoiceActivity.Normalized` | internal/plugins/ten_vad/plugin.go:161-178 | each setting is kept iff it is in range and otherwise 0.5, 150 ms, 600 ms or 512 bytes |
| `VoiceActivity.DurationToFrames` | internal/plugins/ten_vad/plugin.go:180-186 | the least number of 16 ms frames, at least one, that covers the duration |
| `VoiceActivity.RunMeaning` | internal/plugins/ten_vad/plugin.go:131-148 | a counter at or above k says that the last k classified frames were all alike |
| `VoiceActivity.Alternates` | internal/plugins/ten_vad/plugin.go:125-152 | starts and ends alternate, beginning with a start, and the detector speaks exactly in between |
| `VoiceActivity.LastFrameLaw` | internal/plugins/ten_vad/plugin.go:131-152 | for every history, its last frame sends a start iff the detector is between utterances and the last frames needed are all speech, an end iff it is in one and the last frames needed are all silence |
| `VoiceActivity.HistoryOfVerdicts` | internal/plugins/ten_vad/plugin.go:125-130 | the history has one entry for each frame whose classification did not fail, in order, saying whether it was speech |
| `VoiceActivity.Detector.constructor` | internal/plugins/ten_vad/plugin.go:64-73 | the thresholds come from the normalised durations |
| `VoiceActivity.Detector.Reset` | internal/plugins/ten_vad/plugin.go:154-159 | a reset forgets carry, counters and mode |
| `VoiceActivity.Detector.Judge` | internal/plugins/ten_vad/plugin.go:131-152 | start fires exactly when not speaking and the last frames needed are all speech, end exactly when speaking and the last frames needed are all silence |
| `VoiceActivity.Detector.ProcessFrame` | internal/plugins/ten_vad/plugin.go:125-152 | each frame is classified once, and after a failed classification signals, mode and counters are what they were |
| `VoiceActivity.Detector.ProcessAudio` | internal/plugins/ten_vad/plugin.go:101-123 | however the bytes arrive, the frames processed are the whole frames of the stream, less than one frame is kept, and the signals are those of the stream |
| `MarkdownFilter.Filter.constructor` | internal/plugins/md_filter/plugin.go:24-26 | a new filter starts in plain text |
| `MarkdownFilter.Filter.Interrupt` | internal/plugins/md_filter/plugin.go:28-35 | an interrupt starts afresh |
| `MarkdownFilter.Filter.Apply` | internal/plugins/md_filter/plugin.go:58-117 | the loop ends although it looks at some characters twice, and computes the character-by-character filter |
| `MarkdownFilter.ChunkInvariant` | internal/plugins/md_filter/plugin.go:58-117 | filtering two pieces with the state carried over is filtering the whole |
| `MarkdownFilter.SubsequenceOfPlain` | internal/plugins/md_filter/plugin.go:96-113 | the output is the input at increasing positions and holds no markup character |
| `MarkdownFilter.InCodeBlockIsParity` | internal/plugins/md_filter/plugin.go:65-87 | the filter is inside a code block iff an odd number of completed runs of three or more backticks has gone by |
| `MarkdownFilter.LinkTargets` | internal/plugins/md_filter/plugin.go:89-111 | a link target begins exactly at a parenthesis right after a closing bracket in plain text and ends exactly at the next closing parenthesis |
| `MarkdownFilter.CharacterStays` | internal/plugins/md_filter/plugin.go:85-113 | a character stays iff it is no markup, opens no link target, and stands neither in a code block nor in a link target |
| `MarkdownFilter.PlainPasses` | internal/plugins/md_filter/plugin.go:96-113 | text without markup passes unchanged |
| `MarkdownFilter.LinkKeepsText` | internal/plugins/md_filter/plugin.go:89-111 | a link becomes its text and leaves no trace in the state |
| `MarkdownFilter.FencedBlockVanishes` | internal/plugins/md_filter/plugin.go:71-87 | a fenced block vanishes and the text after it passes |
| `Sentences.FindAlphaNum` | internal/plugins/base/llm/base.go:170-177 | finds a letter or digit iff there is one |
| `Sentences.IsStop` | internal/plugins/base/llm/base.go:162-165 | the characters that end a sentence at once |
| `Sentences.IsBoundary` | internal/plugins/base/llm/base.go:150-154 | the characters after which a sentence may end |
| `Sentences.TrimLeaves` | internal/plugins/base/llm/base.go:157-157 | trimming leaves the stretch from the first to the last character that is not a space |
| `Sentences.ShouldSplit` | internal/plugins/base/llm/base.go:156-168 | splits iff the text says something and ends in a full stop or has 20 characters once trimmed |
| `Sentences.Splitter.ParseSentences` | internal/plugins/base/llm/base.go:134-148 | all text is kept in order, and the sentences are those of the greedy shortest-prefix segmentation of everything received |
| `Sentences.Splitter.Last` | internal/plugins/base/llm/base.go:87-93 | at the end what is left goes out unless it is blank, and it is no missed sentence |
| `Sentences.OneSegmentation` | internal/plugins/base/llm/base.go:134-168 | a text has only one greedy segmentation |
| `Sentences.SegmentsAppend` | internal/plugins/base/llm/base.go:134-148 | segmenting may stop anywhere and go on with the fragment |
| `Sentences.SameTextSameSentences` | internal/plugins/base/llm/base.go:134-148 | two splitters that received the same text, however chunked, cut the same sentences |
| `Codec.SizeBytes` | internal/protocol/packet.go:146-146 | four bytes, the most significant first |
| `Codec.SizeOf` | internal/protocol/packet.go:168-168 | reads them the same way |
| `Codec.HeaderBytes` | internal/protocol/packet.go:141-148 | 0x56, 0x43, type, encoding, size |
| `Codec.Refusals` | internal/protocol/packet.go:159-172 | a content is refused as too short, for its magic, or for its size, in this order and for no other reason |
| `Codec.SizeRoundTrip` | internal/protocol/packet.go:146-146 | a 32-bit size survives its big-endian bytes |
| `Codec.BytesRoundTrip` | internal/protocol/packet.go:168-168 | four bytes survive being read as a size |
| `Codec.DecodeEncoded` | internal/protocol/packet.go:150-175 | unmarshalling undoes marshalling iff the payload is under 2^32 bytes; a longer one is refused for its size |
| `Codec.EncodeDecoded` | internal/protocol/packet.go:150-175 | marshalling undoes a successful unmarshalling |
| `Codec.Packet.Recycle` | internal/protocol/packet.go:112-124 | the packet is blank again; its buffer is kept iff it is within 64 KiB |
| `Codec.Packet.SetPayload` | internal/protocol/packet.go:126-139 | the payload is the data, whatever the reused buffer held; the size is cut to 32 bits |
| `Codec.Packet.Header` | internal/protocol/packet.go:141-148 | the header is magic, type, encoding and size |
| `Codec.Packet.Marshal` | internal/protocol/packet.go:150-157 | the content is the message's encoding when the size is that of the payload |
| `Codec.Packet.Unmarshal` | internal/protocol/packet.go:159-175 | succeeds iff the content decodes, with the errors in the order of the checks, and a failure leaves the payload alone |
| `Codec.Packet.UnmarshalHeader` | internal/protocol/packet.go:180-195 | reports the same errors as unmarshalling and never touches the payload |
| `Codec.Transfer` | internal/protocol/packet.go:150-175 | a packet marshalled into any reused packet arrives as it was, iff it is under 2^32 bytes |
| `Codec.Frame` | internal/gateway/connection.go:188-202 | the frame is key and parts in order, whatever the pooled buffer held |
| `Codec.Write` | internal/gateway/connection.go:179-210 | an inactive connection refuses; no parts write nothing; otherwise the frame goes to the socket, whose error is passed on |
| `Codec.FrameArrives` | internal/machine/connection.go:68-88 | a packet framed for a session arrives at the machine under the same key as the same message, and at the gateway as the same bytes |
| `Codec.ArrivedWasFramed` | internal/machine/connection.go:80-87 | what the machine accepts was framed from that key and that message |
| `Codec.ClientAcceptsEncodings` | internal/gateway/session.go:175-186 | the gateway's check passes exactly the encodings of messages |
| `Codec.ClientCheck` | internal/gateway/session.go:175-186 | the check accepts exactly what unmarshalling accepts, plus exactly the encodings of 2^32 bytes or more |
| `Codec.OversizedPassesCheck` | internal/gateway/session.go:183-186 | such an encoding exists |

## Left out

- Transports, HTTP handlers, the reverse proxy, stores and telemetry export: input and output around libraries. The pools' gauges are kept as integers.
- Provider plugins, the resampler and the native voice classifier: network clients and foreign calls. A verdict is an arbitrary function of the frames seen.
- The web editor, the terminal client, logging, configuration loading and the defaults of the pool configuration.
- Wall-clock time: idle timeouts compare arbitrary clock values; leases, heartbeats, backoff and session expiry are not modelled.
- The gateway session's own state word and the states of machines.
- Lifecycle.Workflow.Stop: worker-pool workflows have no paused state here; `LoopWorkflow` has one, and a track's pause flag is modelled. Closing and emptying the output channel is left out of both.
- WorkflowGraph.ValidateEdgeContracts: whether the outputs of one plugin meet the inputs of another is a parameter, because the property tables are outside this model.
- VoiceActivity.Normalized: the threshold is a real number, so a NaN, which the code keeps, is left out.
- Records the code reaches through pointers (pool records, bindings) are entries of maps here, so aliasing between them is not modelled.
- Track.EveryRun: an unbuffered track is not modelled, because with capacity zero drop-oldest can retry for ever.
- Track.HandledInOrder: one pusher per track, as one node loop feeds it.
- RefCount.EveryRun: the count is an unbounded integer; the 32-bit width of the counter is not modelled. References that plugin code never releases stay counted as its own, and passing one from thread to thread inside a plugin is not modelled.
- AudioStreaming.AudioStreamer.constructor: the buffer size must be positive, because with zero the copying loop never ends.
- Sentences.ShouldSplit: text is a sequence of characters; decoding of malformed UTF-8 is not modelled, and the Unicode tables are parameters.
- The contents and properties of audio objects, their copying and the read-only check: easy members. Video objects follow the same code as audio.
- The sharded map, plugin store, property builder and observer slots: easy members.
