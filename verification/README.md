# The JACK1 engine, modelled in Dafny

JACK's server keeps a graph of clients, ports and connections, orders the clients,
splits the order into chains of processes joined by FIFOs, and moves data between them
through shared buffers.  This project models those cores and proves what they are meant
to guarantee over every graph, every run of requests and every interleaving.  Where the
code does not meet the guarantee, there is a concrete example and the exact condition
under which it does.

| file | part of the system |
|---|---|
| `Digraph.dfy` | feed lists as a multigraph: paths, cycles, the recursive reachability test |
| `MergeSort.dfy`, `JSList.dfy` | the list merge sort on values, and in place on linked nodes |
| `FeedGraph.dfy`, `Lifecycle.dfy`, `GraphSteps.dfy` | the state of the graph, its invariants, and what each request does to it |
| `ClientOrder.dfy` | the client comparator and what sorting with it achieves |
| `AcyclicCheck.dfy` | the peeling pass that looks for leftover feedback |
| `Engine.dfy` | the engine as an object: one method per request, and whole runs |
| `DriverDebt.dfy`, `EngineRuns.dfy` | connections into a driver and the count they leave behind; runs of the engine that end against the rules |
| `Chain.dfy`, `Token.dfy`, `TokenFailure.dfy` | FIFO numbering, the server's walk, the token protocol of a cycle, and when it fails |
| `EngineChain.dfy` | the chain of the clients as the engine lists them |
| `Latency.dfy`, `TotalLatency.dfy` | latency hulls and the older total latency |
| `MidiLayout.dfy`, `MidiBuffer.dfy`, `MidiMixdown.dfy` | MIDI port buffers, byte by byte, and the merge of several |
| `Bits.dfy`, `RingBuffer.dfy`, `RingThreads.dfy` | the ring buffer as a queue, and under one reader and one writer |
| `PortBuffers.dfy` | port slots and the pools of port buffers |
| `Names.dfy` | client names and reservations |
| `Collections.dfy` | cardinality, permutation and list removal facts |

`dafny verify dfyconfig.toml` checks everything.

## What the code guarantees, and when it does not

- **Feed order.**  Over every run of requests and failures `sortfeeds` stays acyclic, no
  edge enters a driver, feed lists and the counts of all clients but drivers match the live
  connections, only inputs with a mixdown have several connections, and the count of a driver
  never rises (`Engine.Engine.Serve`).
- **Client order.**  The sort is given a partial order.  Whatever list it starts from, the
  result is topological if and only if there are at most three clients or the clients fall
  into layers (`ClientOrder.SortMeetsConstraintsIff`).  A run of the engine with four clients
  and one connection ends with the feeding client behind the fed one
  (`EngineRuns.SortMissesConstraint`).
- **Feedback.**  The acyclicity pass turns feedback around if and only if the true feeds
  are acyclic and no driver count is off zero (`AcyclicCheck.SortPossible`).  Every connect
  and disconnect keeps the law that feedback is present only while it cannot be turned
  around; the one event that can break it is the removal of a driver whose count is off
  zero (`GraphSteps.ConnectTight`, `GraphSteps.DisconnectTight`, `Engine.Engine.Serve`).  So
  without driver debt there is feedback only while the true feeds have a cycle.  Disconnecting
  from a driver takes its count below zero, where it stays as long as the driver does,
  whatever is asked of the server (`EngineRuns.DebtIsForGood`); a run of the engine then ends
  with a feedback connection and no cycle (`EngineRuns.FeedbackOutlivesCycle`).
- **Chain and cycle.**  The server's walk starts exactly the planned subgraphs if and only if
  no internal client outside the chain stands between two members of a subgraph
  (`Chain.WalkAgreesIff`).  Under exactly that condition every run of the token protocol is
  safe, each client running once per cycle in order and one at a time, and no state is
  stuck (`TokenFailure.ProtocolHoldsIff`).  It holds of every list the engine sorts as long
  as no internal client is loaded (`EngineChain.SortedEngineRuns`).
- **Latency.**  One pass reaches the hull equations from every starting state if and only if
  the client list is in feed order, for connections without a cycle
  (`Latency.PassAlwaysReachesIff`); the sort does not always deliver that order.
- **MIDI.**  The space test forgets the spare byte at the end of the buffer, and time and
  size are cut to 16 bits.  An accepted write loses nothing, whatever its data, if and only
  if time and size are below 65536 and it leaves the spare byte or is of a harmless size
  (`MidiLayout.WriteLosesNothingIff`).
- **Ring buffer.**  It holds the requested number of bytes if and only if that number is
  below two or not a power of two (`RingBuffer.FillNew`); the comment at
  libjack/ringbuffer.c:32 says it always does.
- **Names.**  A session client gets the name reserved for it if and only if the name was
  reserved once (`Names.ReservationHonouredIff`).
- **Total latency.**  A comment in server/engine.c:3312-3314 speaks of bottoming out in cyclic
  graphs; the recursion never goes past one hop and ends without the limit, which is never
  reached (`TotalLatency.PortTotal`).

## Conventions and assumptions

- Requests are atomic, as under the request and graph locks, and are read only from clients
  that are not dead (server/engine.c:1612-1620); they carry the identity of their sender.
- Every port is exactly one of input and output.  Ports are named by their slot number; the
  lookup by name is not part of the model.
- `fedcount` starts at 0, which server/clientengine.c:542-551 leaves unset.  Counters of the
  graph are unbounded integers.
- A zombie's ports are gone when it is marked dead, and a released port leaves its client's
  list at once.
- Memory is sequentially consistent; a cycle runs without failures or time-outs and the
  plan does not change within a run.
- Ring buffer sizes and latencies in `Latency.dfy` do not overflow; `TotalLatency.dfy` wraps at 32 bits.
- MIDI tables are little-endian, with a 20-byte header and 8-byte entries, in buffers below
  2 GiB, the range of the 32-bit offset.
- A write to a FIFO that was never assigned is lost; the server then waits where its poll
  would time out.
- The rest of a client's set-up (shared memory, loading code) is one yes-or-no parameter.

## Model

| member | source | states |
|---|---|---|
| `Digraph.FeedsTransitive` | server/engine.c:3536-3556 | the recursion without a visited set ends on every acyclic graph and answers whether a non-empty path exists |
| `Digraph.AddEdgeAcyclic` | server/engine.c:3473-3498 | adding an edge keeps a graph acyclic when there was no path back |
| `Digraph.AcyclicHasSource` | server/engine.c:3585-3610 | every non-empty set of nodes of an acyclic graph has a node nobody in the set feeds, so peeling cannot get stuck |
| `Digraph.RankedIsAcyclic` | server/engine.c:3585-3610 | a graph whose edges all go up in rank, as a peeling order gives, has no cycle |
| `MergeSort.SortPermutes` | jack/jslist.h:246-301 | the sort keeps exactly the elements it was given |
| `MergeSort.SortNoInversion` | jack/jslist.h:246-301 | for any asymmetric comparator no adjacent pair of the result is inverted |
| `MergeSort.ClassComesFirst` | jack/jslist.h:246-301 | a class that precedes all others ends up as a prefix |
| `MergeSort.WeakSorts` | jack/jslist.h:246-301 | for a strict weak order the result is fully ordered |
| `MergeSort.ShortListsSort` | jack/jslist.h:246-301 | up to three elements are fully ordered for any strict partial order |
| `MergeSort.FourElementsFail` | jack/jslist.h:258-267 | a pair, an element incomparable to both and any fourth one form a list that comes out of order |
| `MergeSort.SortsEveryListIff` | jack/jslist.h:246-301 | every list over a set is fully ordered if and only if the set has at most three elements or the order is weak on it |
| `JSList.SortMerge` | jack/jslist.h:246-273 | relinking two disjoint lists in place gives one well-formed list, the merge of their nodes |
| `JSList.CutInHalf` | jack/jslist.h:276-301 | the two-speed walk and the cut leave two lists, the first of half the length |
| `JSList.SortValues` | jack/jslist.h:275-301 | sorting the nodes by their data sorts the data |
| `JSList.SortedValues` | jack/jslist.h:275-301 | so the order results on values hold of the data along the sorted nodes |
| `JSList.SortNodes` | jack/jslist.h:275-301 | the in-place recursion gives a well-formed list, the sort of the nodes by their data |
| `JSList.SortList` | jack/jslist.h:275-301 | the list that results has the same nodes, their data in the order of the sort on values: no adjacent inversion for asymmetric comparators, full order for weak ones and for up to three nodes |
| `JSList.Remove` | jack/jslist.h:134-166 | unlinks the first node with the data, and only it, and clears its link |
| `JSList.RemoveIsRemoveFirst` | jack/jslist.h:134-166 | cutting that position is removal of the first occurrence as used by the graph |
| `FeedGraph.ConnectSound` | server/engine.c:3830-3907 | linking a connection with the direction chosen by the code keeps all invariants: wiring, counts, acyclic feeds, unfed drivers |
| `FeedGraph.ConnectAcyclic` | server/engine.c:3830-3902 | the chosen direction never closes a cycle and never puts an edge into a driver |
| `FeedGraph.DisconnectSound` | server/engine.c:3945-4028 | unlinking any connection keeps all invariants |
| `FeedGraph.DisconnectUndoesConnect` | server/engine.c:3830-4028 | disconnecting a connection just made restores every list and count, except that a driver at the far end is left one short |
| `FeedGraph.TurnedSound` | server/engine.c:3619-3660 | turning all feedback around keeps the invariants when the true feeds are acyclic |
| `FeedGraph.NoFeedbackMeansTrue` | server/engine.c:3619-3660 | without feedback connections the two feed relations are the same multigraph |
| `FeedGraph.IsolatedLeavesFeeds` | server/clientengine.c:44-66 | a client without connections is in no feed list, has empty ones and, if no driver, a count of zero |
| `Lifecycle.PortAddedSound` | server/engine.c:4282-4413 | a new port keeps all invariants |
| `Lifecycle.PortDroppedSound` | server/engine.c:4416-4459 | releasing a port without connections keeps all invariants |
| `Lifecycle.ClientAddedSound` | server/clientengine.c:542-551 | a new client keeps all invariants |
| `Lifecycle.ClientRemovedSound` | server/clientengine.c:204-214 | deleting a client without ports keeps all invariants |
| `Lifecycle.FlaggedSound` | server/clientengine.c:68-90 | changing the active and dead flags keeps all invariants when a client that stops being active is isolated |
| `ClientOrder.ClientSortAnswers` | server/engine.c:3516-3532 | under the invariants the comparator answers -1, 1 exactly for "must precede" and its converse, and is antisymmetric |
| `ClientOrder.ClientSortIsPartialOrder` | server/engine.c:3516-3532 | "answers -1" is a strict partial order, so the feed and driver-first rules never conflict |
| `ClientOrder.SortedClients` | server/engine.c:3501-3513 | the sorted list holds the same clients, drivers first, no adjacent pair against the rules |
| `ClientOrder.SortMeetsConstraintsIff` | server/engine.c:3501-3513 | every list over a set of clients comes out topological if and only if there are at most three or they are layered |
| `ClientOrder.FourReversed` | jack/jslist.h:258-267 | four clients without rules between them come out reversed, and also when the first must precede the third |
| `EngineRuns.StartTied` | server/clientengine.c:914-962 | activating one of four unconnected clients reverses the client list |
| `EngineRuns.SortMissesConstraint` | server/engine.c:3501-3513 | a run of the engine: four clients are created, three activated, 1 is connected to 3, and the list ends as 4, 3, 2, 1 |
| `AcyclicCheck.Decrement` | server/engine.c:3601-3607 | each client loses as many counts as it is listed |
| `AcyclicCheck.Peel` | server/engine.c:3595-3608 | peeling a client keeps the counters equal to the feeds from those not yet peeled and extends the rank |
| `AcyclicCheck.Pass` | server/engine.c:3588-3609 | one pass peels or reports being stuck, keeping both relations |
| `AcyclicCheck.NobodyPeelable` | server/engine.c:3585-3614 | when nobody left has a zero counter, the true feeds are cyclic or a driver count is off zero |
| `AcyclicCheck.AllPeeled` | server/engine.c:3585-3617 | when everybody is peeled, the true feeds are acyclic and driver counts are zero |
| `AcyclicCheck.SortPossible` | server/engine.c:3575-3612 | the pass ends, and succeeds if and only if the true feeds are acyclic and all driver counts are zero |
| `Engine.Engine.constructor` | server/engine.c:1840-1880 | the empty graph satisfies the invariants |
| `Engine.Engine.SortGraph` | server/engine.c:3501-3513 | the client list becomes its sort, drivers first |
| `Engine.Engine.TurnConnection` | server/engine.c:3636-3656 | turning one feedback connection moves its one entry of the sort feeds and no other |
| `Engine.Engine.TurnPort` | server/engine.c:3630-3657 | no connection of the port is left as feedback |
| `Engine.Engine.TurnClient` | server/engine.c:3625-3658 | no connection of the client's outputs is left as feedback |
| `Engine.Engine.TurnAll` | server/engine.c:3619-3660 | no connection at all is left as feedback, and all else stays counted |
| `Engine.Engine.TurnAround` | server/engine.c:3619-3660 | afterwards sort feeds and true feeds are the same multigraph, the feedback count is 0, and the invariants hold |
| `Engine.Engine.CheckAcyclic` | server/engine.c:3564-3662 | turns everything around if and only if that is possible, and otherwise changes nothing |
| `GraphSteps.ConnectAnswers` | server/engine.c:3741-3829 | two ports are connected if and only if they match, their clients are active, they are not joined yet and the input has a mixdown or no connection; joined already if and only if so |
| `Engine.Engine.CheckConnect` | server/engine.c:3741-3829 | the refusals, in the order they are tested |
| `Engine.Engine.Feed` | server/engine.c:3830-3902 | classifies the edge as forward, feedback, self or into a driver and updates both relations and both counts accordingly |
| `Engine.Engine.Link` | server/engine.c:3812-3907 | the new state is the old one with the connection added |
| `GraphSteps.ConnectTight` | server/engine.c:3855-3875 | a connection is marked as feedback only when it closes a cycle of the true feeds, or feedback was there that could not and cannot be turned around |
| `Engine.Engine.Connect` | server/engine.c:3731-3930 | the answer and the new state in both directions: refused requests change nothing; an accepted one adds one connection of the pair, keeps the invariants and the law of feedback, and re-sorts |
| `Engine.Engine.FindConnection` | server/engine.c:3945-3951 | finds the connection of the pair if and only if there is one |
| `Engine.Engine.Unlink` | server/engine.c:3953-4022 | the new state is the old one with the connection removed from lists, feeds and counts |
| `GraphSteps.DisconnectTight` | server/engine.c:3942-4030 | whatever was the case before, after a disconnect feedback is present only while it cannot be turned around |
| `GraphSteps.DisconnectBalanced` | server/engine.c:4004 | a driver's count loses exactly the number of connections into it that go |
| `Engine.Engine.DisconnectInternal` | server/engine.c:3933-4037 | drops the connection of the pair if there is one; feedback is turned around exactly when there was feedback before and it can be; the list is re-sorted |
| `Engine.Engine.ClearConnections` | server/engine.c:2636-2654 | exactly the connections touching the port go, drivers lose exactly their share of counts, and the law of feedback is kept; the loop over the changing list ends |
| `Engine.Engine.DropHead` | server/engine.c:2642-2650 | one round drops the head of the port's list and nothing else, the look for leftover feedback included |
| `Engine.Engine.RegisterPort` | server/engine.c:4282-4413 | takes the lowest free slot; fails if and only if the owner is unknown or all slots are taken |
| `Engine.Engine.UnregisterPort` | server/engine.c:4416-4459 | accepted if and only if the slot carries the client's id; a port in use goes with exactly its connections, a slot released before is left as it is |
| `Engine.Engine.DropPort` | server/engine.c:4447-4453 | the port and exactly its connections go, everything else stays |
| `Engine.Engine.StripClient` | server/clientengine.c:44-66 | all ports of the client go with exactly their connections, and no feed list mentions the client afterwards |
| `Engine.Engine.AddClient` | server/clientengine.c:711-713 | a fresh client with empty lists is put at the front |
| `Engine.Engine.Activate` | server/clientengine.c:914-962 | the client becomes active, or the request fails and changes nothing |
| `Engine.Engine.ClearClient` | server/clientengine.c:965-996 | exactly the connections of the client's ports go |
| `Engine.Engine.SwitchOff` | server/clientengine.c:68-90 | an isolated client becomes inactive and the list is sorted |
| `Engine.Engine.Deactivate` | server/clientengine.c:965-996 | the client becomes inactive and loses exactly its connections |
| `Engine.Engine.Zombify` | server/clientengine.c:144-158 | the client is stripped, inactive and dead |
| `Engine.Engine.Forget` | server/clientengine.c:204-214 | the client's records go and the rest of the list stays |
| `Engine.Engine.Remove` | server/clientengine.c:160-237 | the client, its ports and exactly its connections are gone; the law of feedback is kept unless the client is a driver that leaves with its count off zero |
| `Engine.Engine.DisconnectAll` | server/engine.c:4039-4058 | any slot number in range is accepted; exactly the connections of the port go |
| `Engine.Engine.Handle` | server/engine.c:1288-1345 | request by request, the status and the state before and after: what is added, what goes, and that nothing else does; dead senders are refused; no driver's count rises and the law of feedback is kept, unless an indebted driver is unloaded |
| `Engine.Engine.Serve` | server/engine.c:3473-3498 | every run of requests, arrivals, failures and departures is a trace of such steps; throughout, the sort feeds are acyclic, no edge enters a driver, feed lists and non-driver counts match the live connections, only inputs with a mixdown have several; no count of a driver that stays has risen; and feedback is present only while it cannot be turned around, as long as no driver leaves with its count off zero |
| `DriverDebt.DisconnectingDriverOwes` | server/engine.c:4004 | disconnecting a connection into a driver leaves its count negative |
| `DriverDebt.DebtStays` | server/engine.c:3585-3614 | a negative driver count that does not rise stays negative, and the pass cannot succeed |
| `DriverDebt.AfterDebt` | server/engine.c:3990-4032 | with a driver in debt, closing a loop and breaking its forward half leaves feedback in a graph without a cycle |
| `EngineRuns.OwingDriver` | server/engine.c:4004 | a run of the engine after which a driver's count is negative and nothing is connected |
| `EngineRuns.FeedbackOutlivesCycle` | server/engine.c:3990-4032 | a run of the engine that ends with one connection, marked as feedback, and acyclic true feeds |
| `EngineRuns.DebtIsForGood` | server/engine.c:3564-3618 | after any further run a driver in debt is still in debt and the acyclicity pass turns nothing |
| `Chain.Chain.Rechain` | server/engine.c:3127-3286 | position k waits on FIFO k and signals k+1, a head is started on its own FIFO and awaited on the one after the last; nothing else is written |
| `Chain.Chain.RechainOne` | server/engine.c:3146-3271 | one round extends the plan by one client |
| `Chain.HasHead` | server/engine.c:3213-3270 | every eligible external client belongs to a subgraph |
| `Chain.OneHead` | server/engine.c:3213-3270 | it belongs to only one |
| `Chain.RangesDisjoint` | server/engine.c:3127-3286 | the FIFOs of different subgraphs do not overlap |
| `Chain.NextFifo` | server/engine.c:3261-3269 | the next member waits on the FIFO this one signals |
| `Chain.OrderAndUpstream` | server/engine.c:3264-3268 | a client is told the number of the FIFO it listens on, and that the server wakes it exactly when a subgraph is started on that FIFO |
| `Chain.Process` | server/engine.c:829-866 | the walk of the server visits the heads given by the recursion over the list |
| `Chain.WalkAgreesIff` | server/engine.c:814-866 | the walk starts exactly the planned heads if and only if no internal client outside the chain stands between two members |
| `Chain.WalkGoesAstray` | server/engine.c:814-823 | with an inactive internal client between two externals the walk starts the second as well |
| `Token.StepKeeps` | libjack/client.c:1911-2263 | every step of server or client keeps the place of the token, the FIFO contents and the record of who ran |
| `Token.EveryRunIsSafe` | libjack/client.c:1911-2263 | for every chain without a stranded client, every interleaving and number of cycles: everyone runs once per cycle in order, nobody beside another, no FIFO holds more than two bytes |
| `Token.NeverStuck` | server/engine.c:664-824 | some step is always possible within a cycle |
| `Token.CyclesEnd` | server/engine.c:664-824 | every step but starting a cycle gets nearer to the end of the cycle |
| `Token.CycleIsBounded` | server/engine.c:664-824 | a run takes at most a computed number of steps, cubic in the number of clients, without starting a new cycle |
| `TokenFailure.PlannedRecordsOk` | server/engine.c:3223-3276 | rechaining never leaves a client with the same start and wait FIFO |
| `TokenFailure.SubgraphRuns` | server/engine.c:664-824 | a run in which a whole subgraph runs and the server resumes at the next internal client of any kind |
| `TokenFailure.SecondStart` | server/engine.c:692-824 | starting a member that is no head leads to a client out of turn or to a state in which nobody can move |
| `TokenFailure.StrandedFails` | server/engine.c:814-823 | every list with a stranded client has a run that ends so |
| `TokenFailure.ProtocolHoldsIff` | server/engine.c:664-866 | every reachable state is safe and not stuck if and only if no client is stranded |
| `TokenFailure.LeftoverPlan` | server/engine.c:3127-3286 | when an internal client between two externals goes inactive, the second keeps the start and wait FIFOs it had as a head, and listens on another |
| `TokenFailure.StrandedWedgesServer` | server/engine.c:814-823 | a run of that list which ends with the server and both clients waiting |
| `EngineChain.SortedStrandsNone` | server/engine.c:3501-3513 | drivers come first, so without loaded internal clients no client is stranded |
| `EngineChain.SortedEngineRuns` | server/engine.c:3501-3513 | every list the engine sorts is then run safely and without getting stuck |
| `Latency.HullIsHull` | libjack/client.c:559-583 | the running minimum and maximum are bounds that are attained; without ports, or with all minima at the top, the minimum is 0 |
| `Latency.LatencyEngine.SetRange` | libjack/port.c:835-855 | writes one port's range of one direction |
| `Latency.LatencyEngine.FindHull` | libjack/client.c:559-581 | the loop computes the hull of the ports |
| `Latency.LatencyEngine.Recalculate` | libjack/client.c:559-583 | a port takes the hull of its peers |
| `Latency.LatencyEngine.HandleLatency` | libjack/client.c:586-686 | a client's fed ports take the hulls of their peers, the others the hull of the fed ones unless it is the driver |
| `Latency.LatencyEngine.DeliverAll` | server/engine.c:3437-3470 | delivery in list order |
| `Latency.LatencyEngine.ComputeNewLatency` | server/engine.c:3437-3470 | the capture pass in list order and the playback pass in reverse, each ending with the driver |
| `Latency.PassReachesFixpoint` | server/engine.c:3437-3470 | with one driver and connections going forward, one pass satisfies every hull equation |
| `Latency.PassAlwaysReachesIff` | server/engine.c:3437-3470 | for connections without a cycle, one pass settles every starting state if and only if the list is in feed order |
| `Latency.BackwardMisses` | server/engine.c:3437-3470 | one backward connection leaves some starting state unsettled |
| `Latency.OnlyZero` | libjack/client.c:586-686 | where the driver supplies nothing, only zero maxima solve the equations |
| `Latency.SecondPassIdle` | server/engine.c:3437-3470 | a second pass changes nothing |
| `Latency.SolutionUnique` | libjack/client.c:586-686 | the driver's values determine the solution |
| `Latency.BothPasses` | server/engine.c:3437-3470 | both directions reach their fixpoints, the playback pass in reverse order |
| `TotalLatency.PortTotal` | server/engine.c:3288-3399 | for every connection graph the result is the port's latency plus the largest of its peers', in 32 bits; the recursion ends by itself after one hop and the limit is never reached |
| `TotalLatency.TotalUnique` | server/engine.c:3288-3399 | that value is unique |
| `TotalLatency.ComputeAll` | server/engine.c:3412-3434 | every port in use gets its total, no other is written |
| `MidiLayout.RegionsApart` | libjack/midiport.c:142-186 | out-of-line data regions are in bounds, disjoint and, while the spare byte is free, above the table |
| `MidiLayout.AppendKeeps` | libjack/midiport.c:142-203 | a write that leaves the spare byte, or of up to three bytes, or of four before any out-of-line data, keeps every event readable as written |
| `MidiLayout.FullIsFinal` | libjack/midiport.c:118-139 | a buffer filled to the last byte takes nothing more |
| `MidiLayout.OneShortEvent` | libjack/midiport.c:118-139 | a buffer of 28 bytes takes one event of up to four bytes and then no more |
| `MidiLayout.IntactIsSmall` | libjack/midiport.c:38-44 | an event whose time or size does not fit 16 bits never reads back |
| `MidiLayout.LargeFillBreaks` | libjack/midiport.c:175-177 | an out-of-line event that fills the buffer overwrites its own table entry |
| `MidiLayout.InlineFillBreaks` | libjack/midiport.c:175-177 | a four-byte event that fills the buffer overwrites the last out-of-line event |
| `MidiLayout.WriteLosesNothingIff` | libjack/midiport.c:118-203 | an accepted write leaves every event readable, itself included, for all data, if and only if its time and size fit 16 bits and it leaves the spare byte or is of a harmless size |
| `MidiBuffer.MidiBuffer.constructor` | libjack/midiport.c:66-79 | an initialised buffer is empty and laid out correctly |
| `MidiBuffer.MidiBuffer.Clear` | libjack/midiport.c:211-221 | clearing empties the buffer and its loss count |
| `MidiBuffer.MidiBuffer.MaxEventSize` | libjack/midiport.c:117-139 | the answer bounds exactly the events that can be held |
| `MidiBuffer.MidiBuffer.Get` | libjack/midiport.c:91-114 | fails exactly past the end; every intact event reads back as written, and all are intact while the spare byte is free or the last event did not need it |
| `MidiBuffer.MidiBuffer.Admits` | libjack/midiport.c:156-166 | the tests accept exactly non-empty, in-range, in-order events that can be held |
| `MidiBuffer.MidiBuffer.Enter` | libjack/midiport.c:168-178 | writes the bytes of one table entry |
| `MidiBuffer.MidiBuffer.Reserve` | libjack/midiport.c:141-186 | on success one more event, in order, at its place; on failure one more lost and nothing else |
| `MidiBuffer.MidiBuffer.Write` | libjack/midiport.c:188-203 | on success the log grows by exactly the event, on failure only the loss count changes |
| `MidiBuffer.MidiBuffer.Run` | libjack/midiport.c:31-203 | any run of writes, reservations and clears accepts or loses one event at a time; afterwards the layout fits, regions are apart, times are in order and in range, and every event reads back while the spare byte is free or was not needed |
| `MidiMixdown.IntactTable` | libjack/midiport.c:91-114 | an intact buffer's table reads back as its log |
| `MidiMixdown.EarliestIsLeast` | libjack/midiport.c:270-290 | the choice is the least next time, the first connection winning ties |
| `MidiMixdown.MergeTakesAll` | libjack/midiport.c:264-309 | the merge holds every event of every input |
| `MidiMixdown.MergeLength` | libjack/midiport.c:264-309 | and each of them once |
| `MidiMixdown.MergeIsStable` | libjack/midiport.c:264-309 | for sorted inputs the merge is ordered by time, then connection, then position |
| `MidiMixdown.OnlySpaceRefuses` | libjack/midiport.c:292-308 | for sorted in-range inputs the output refuses an event only for lack of space |
| `MidiMixdown.Begin` | libjack/midiport.c:253-262 | events and losses of all inputs are summed and the cursors reset |
| `MidiMixdown.FindEarliest` | libjack/midiport.c:266-290 | the inner loop finds that choice |
| `MidiMixdown.MixOne` | libjack/midiport.c:292-302 | copies one event and moves one cursor |
| `MidiMixdown.MixAll` | libjack/midiport.c:264-310 | the output is the longest prefix of the merge it takes; what is left is counted as lost |
| `MidiMixdown.Mixdown` | libjack/midiport.c:225-314 | the same for the whole operation, and events and losses of the output add up to those of the inputs |
| `RingBuffer.RingBuffer.constructor` | libjack/ringbuffer.c:36-59 | the size is the least power of two that is at least 2 and the request |
| `RingBuffer.RingBuffer.ReadSpace` | libjack/ringbuffer.c:104-118 | the masked difference is the number of bytes queued |
| `RingBuffer.RingBuffer.WriteSpace` | libjack/ringbuffer.c:123-138 | read space and write space add up to the size less one |
| `RingBuffer.RingBuffer.Read` | libjack/ringbuffer.c:143-175 | takes the longest available prefix of the queue across the wrap |
| `RingBuffer.RingBuffer.Peek` | libjack/ringbuffer.c:182-217 | copies the same prefix and leaves the queue |
| `RingBuffer.RingBuffer.Write` | libjack/ringbuffer.c:223-255 | appends as much as fits |
| `RingBuffer.RingBuffer.AdvanceRead` | libjack/ringbuffer.c:260-264 | drops bytes from the front |
| `RingBuffer.RingBuffer.AdvanceWrite` | libjack/ringbuffer.c:269-273 | appends the bytes already in the buffer |
| `RingBuffer.RingBuffer.GetReadVector` | libjack/ringbuffer.c:281-320 | the two parts put together are the queue |
| `RingBuffer.RingBuffer.GetWriteVector` | libjack/ringbuffer.c:325-359 | the two parts are exactly the free cells, in order |
| `RingBuffer.FillNew` | libjack/ringbuffer.c:32-59 | writing the requested number of bytes to a new buffer stores them all if and only if that number is below two or no power of two |
| `RingThreads.StepKeeps` | libjack/ringbuffer.c:143-255 | every load, copied byte and published index keeps the invariant |
| `RingThreads.NeverStuck` | libjack/ringbuffer.c:143-255 | a transfer under way can always go on |
| `RingThreads.EveryRunIsSafe` | libjack/ringbuffer.c:143-255 | under every interleaving the bytes read are a prefix of those published and no unread byte is overwritten, also between the two halves of a wrapped transfer |
| `RingThreads.SentIsWritten` | libjack/ringbuffer.c:223-255 | the bytes copied in, with those a write under way has still to copy, are the first bytes each call offered, as many as there was room for when it began |
| `RingThreads.GotIsPromised` | libjack/ringbuffer.c:143-175 | the bytes copied out, with those a read under way has still to copy, are as many as each call asked for and there were |
| `RingThreads.EveryRunDelivers` | libjack/ringbuffer.c:143-255 | so in every interleaving the reads deliver, in order, what the writes accepted |
| `PortBuffers.BufferInside` | server/engine.c:343-429 | an output's buffer lies in the segment and clear of the zero buffer |
| `PortBuffers.BuffersApart` | server/engine.c:343-429 | no two outputs of a type overlap |
| `PortBuffers.FreeAndHeld` | server/engine.c:4238-4257 | free buffers and registered outputs add up to all buffers but the zero buffer |
| `PortBuffers.TakeConsistent` | server/engine.c:4628-4659 | taking the head of the free list keeps the partition |
| `PortBuffers.GiveConsistent` | server/engine.c:4238-4257 | releasing a slot, even twice, keeps the partition |
| `PortBuffers.MovedConsistent` | server/engine.c:359-386 | a resize keeps the partition while every output moves with its buffer |
| `PortBuffers.FirstConsistent` | server/engine.c:388-415 | the first placement leaves all buffers but the zero buffer free |
| `PortBuffers.PlaceOffsets` | server/engine.c:367-372 | the loop places exactly one offset per buffer, a buffer apart |
| `PortBuffers.PortTable.PlaceBuffers` | server/engine.c:343-429 | first placement and resize; holders and free list survive a resize |
| `PortBuffers.PortTable.MovePorts` | server/engine.c:374-386 | exactly the outputs of the type are moved to their buffers' new offsets |
| `PortBuffers.PortTable.GetFreePort` | server/engine.c:4214-4236 | the lowest slot not in use |
| `PortBuffers.PortTable.AssignBuffer` | server/engine.c:4628-4659 | an input gets offset 0, an output the head of the free list or nothing |
| `PortBuffers.PortTable.Release` | server/engine.c:4238-4257 | the slot is free and its buffer, if any, heads the free list |
| `PortBuffers.PortTable.Register` | server/engine.c:4313-4402 | succeeds if and only if a slot is free and, for an output, fewer outputs of the type are registered than it has buffers; a failure changes nothing in use |
| `PortBuffers.PortTable.Run` | server/engine.c:343-429 | any run of placements, registrations and releases is a trace of such steps, after which outputs are apart and buffers add up |
| `Names.VariantsDiffer` | server/clientengine.c:477-495 | the 99 variants of a name are different names |
| `Names.VariantsFit` | server/clientengine.c:471-474 | a variant fits the field exactly when the name has at most 29 characters |
| `Names.ChosenMeans` | server/clientengine.c:499-529 | a free name is given as wanted, the name given is free and fits, an exact request gets no other name, and nothing is given only when the name is taken |
| `Names.Registry.HasClient` | server/clientengine.c:385-404 | whether a live client has the name |
| `Names.Registry.HasReservation` | server/clientengine.c:449-459 | whether the name is reserved |
| `Names.Registry.GenerateUnique` | server/clientengine.c:465-497 | ends with the first free variant, which fits the field; fails if and only if the name is over 29 characters or all 99 are taken |
| `Names.Registry.ChooseName` | server/clientengine.c:499-529 | the wanted name if free, else a variant unless the exact name was asked for |
| `Names.Registry.TakeReservation` | server/clientengine.c:791-806 | gives and removes the first reservation of the session |
| `Names.Registry.CreateClient` | server/clientengine.c:853-864 | the new live name is neither live nor reserved; a failure, of the name or of the set-up, adds none but still uses up the reservation |
| `Names.Registry.ReserveName` | server/engine.c:2696-2720 | refused if and only if a live client has the name |
| `Names.Registry.RemoveName` | server/clientengine.c:204-214 | the name is free of the live list |
| `Names.Registry.Run` | server/clientengine.c:449-529 | any run is a trace of creations, reservations and removals, after which live names are distinct and none is reserved |
| `Names.ReservationHonouredIff` | server/clientengine.c:853-864 | a session client gets its reserved name if and only if no other reservation has it |
| `Names.ReservationMissed` | server/engine.c:2699-2717 | with a name reserved twice, the first client comes out with the suffix -01 |

## Left out

- Transport, timebase and freewheeling.
- The frame timer and CPU load estimates: floating-point heuristics without an exact contract.
- Sockets, polling, time-outs, the watchdog, threads, shared memory and loading of code; events sent to clients are no-ops on the graph.
- Failed and late clients within a cycle; a cycle of the token protocol runs to its end.
- The D-Bus controller, settings and patchbay files.
- Session notification and reply.
- Port names and aliases, and the lookup of ports by name.
- Client latency callbacks and the older per-port latency field in `Latency.dfy`.
- Audio mixing and the port monitor counters: easy members.
- Latency.PassReachesFixpoint: assumes connections between non-driver clients go forward in the list, which `Latency.PassAlwaysReachesIff` shows to be needed; connections with a cycle may settle in another order and are not characterised.
- Latency.PassAlwaysReachesIff: for connections without a cycle.
- Latency.LatencyEngine.SetRange: does not write the older latency field of physical ports.
- Latency.LatencyEngine.HandleLatency: for clients without a latency callback of their own.
- Lifecycle.ClientAddedSound: starts the feed count at 0, which the source leaves unset.
- MidiMixdown.Mixdown: assumes the inputs' tables can be read; an input filled to the last byte may not be.
- Engine.Engine.SortGraph: the client list only; total latencies, rechaining and latency passes are in their own files.
- Engine.Engine.RegisterPort: the graph side only; types and names are not looked up, and the buffer a port needs is in `PortBuffers.dfy`.
- Engine.Engine.UnregisterPort: the slot number equal to the number of slots, which the source lets through to the record after the last, is refused.
- Engine.Engine.Activate: for clients that are not dead; a dead client's requests are not read, and requests carry their sender's id.
- Engine.Engine.Remove: a client marked dead has lost its ports; the source also marks an internal client dead when the reply to its loader cannot be written, and leaves the ports it has registered.
- Engine.Engine.Handle: acts for the client the request was read from; the id in the request is taken to be the same.
- PortBuffers.PortTable.PlaceBuffers: asks for a positive buffer size, without which the server would have no zero buffer.
- RingBuffer.RingBuffer.AdvanceRead: an advance past the queue is allowed, as in the code, and only then says nothing about the contents.
