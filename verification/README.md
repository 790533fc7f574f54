# Trellis: models and proofs

A Dafny model of the parts of Trellis that carry state over many steps, with proofs about whole runs. Every module
follows one component of the repository; classes keep the fields the original updates in place, and each of their methods
is proved against a function on values about which the main results are then proved.

- **Karst memory fabric** (`karst_*.dfy`). Eight hosts, two dies, per die a ten-port crossbar, four retiming pipes and
  four memory channels, joined by registered valid/ready links. `KarstTransport` runs the whole machine under any
  sequence of posts, pops and cycles with a history of what was posted, served, received and popped. Nothing is lost,
  repeated or reordered between a host and a channel; the machine refines a plain memory (`KarstMemory`); it drains
  (`KarstDrain`). `KarstMachine.KarstFabric` is the object that steps hosts and dies in place.
- **Heist job scheduler** (`heist_*.dfy`). `HeistAtelier` compiles chore trees into job tables in place. `HeistLoop` is
  the worker loop as a transition system in which every counter update, queue operation and steal is a step of its own and
  any worker may move next, or waits for a queue that its owner holds locked. `HeistRuns` states what holds for every tree,
  thread count and schedule, `HeistFinish` that every run can be completed, `HeistBound` that every fair one is within a
  bound, and `HeistHome`, `HeistForks`, `HeistWhere` and `HeistSolo` which workers can run which chore.
- **Rube circuits** (`rube_*.dfy`). Union-find nets, hierarchy-checked connections, incremental sealing, freezing,
  compilation into lanes and the double-buffered engine. `RubeBuild` builds gates, half adders, full adders and ripple
  adders of any width on a real layout; `RubeRipple` proves what they compute in a running engine; `RubeChip` goes from
  an empty layout to a sum. `RubeShared` is a layout whose lanes are not independent; `RubeSettle`, `RubeUnknown`
  and `RubeDrive` treat settling and four-state values, the last in the drives of a running engine.
- **Explorer walk** (`xplr_walk.dfy`). The traversal with three explicit stacks against the recursive walk.
- **VM link** (`vm_*.dfy`). The adaptor coroutine, two connected adaptors as a pair, the pair inside a running Rube engine
  with any other coroutines, and the way there from an empty layout with two guests.
- **Fresco terms** (`fresco_repos.dfy`). Lowering a term tree into shared n-ary expressions, and when it keeps the value.

Conventions. Machine words that wrap are bounded integer types or bit-vectors; counters are unbounded. A stop of the
original (a failed assertion or a panic) is a `false` result. `Prelude` in `karst_link.dfy` holds the shared `Option`.
Ghost histories exist only to state properties. `Freeze` and `SealModule` stop exactly where the original stops.

What is assumed of code outside the model: buffer calls on a memory channel succeed; a leaf's work and a
coroutine's body do not touch the scheduler's tables; coroutine kernels are arbitrary functions from a state and inputs to
a state and outputs.

## Model

| member | source | states |
|---|---|---|
| KarstAddress.DecodeAcceptsMapped | src/karst/address.rs:51-74 | Decoding accepts exactly the 4-aligned addresses below 0x8000, and what it yields is an aligned word inside one channel. |
| KarstAddress.DecodeRefuses | src/karst/address.rs:51-74 | Every other address is refused for its width if it has more than 24 bits, else for its alignment, else for its size. |
| KarstAddress.StripesDoNotAlias | src/karst/address.rs:51-74 | Two mapped addresses with the same channel and local offset are the same address. |
| KarstAddress.StripesCoverEveryWord | src/karst/address.rs:51-74 | Every word of every channel of every die has an address that decodes to it, so the striping is a bijection. |
| KarstAddress.ChanIsDieAndMc | src/karst/noc.rs:200-202 | The three channel bits are the die bit above the two controller bits that the crossbar reads separately. |
| KarstLink.UnpackPack | src/karst/link.rs:49-66 | What a flit carries survives packing, with the address cut to its wire width. |
| KarstLink.PackUnpack | src/karst/link.rs:49-66 | Every raw word is the packing of its own fields, so queues of raw words and queues of flits are the same. |
| KarstLink.FaultSurvivesTheWire | src/karst/link.rs:21-37 | A fault response unpacks to the fault it was made from. |
| KarstQueue.HandshakeMovesOnce | src/karst/noc.rs:172-194 | Two ends that decide a transfer independently from last cycle's signals neither drop nor repeat a word, and the push never fails. |
| KarstPipes.PipeIsFifo | src/karst/pipe.rs:64-82 | What leaves a retiming stage followed by what stays is what was there followed by what entered. |
| KarstPipes.KarstPipe.Step | src/karst/pipe.rs:64-82 | The in-place stage does one step of the pipe function. |
| KarstSwitch.KarstNoc.Step | src/karst/noc.rs:165-232 | Retirement, both captures, both routings and the output registers together are one step of the crossbar function. |
| KarstSwitch.KarstNoc.RouteIngress | src/karst/noc.rs:196-212 | Routing the ingress heads port by port, each to its controller queue if that has room. |
| KarstSwitch.RoutesHead | src/karst/noc.rs:196-212 | The head of an ingress port leaves for the queue of its controller, or of the other die, exactly if that queue holds fewer than 16, and nothing else changes. |
| KarstSwitch.KarstNoc.RouteMcResponses | src/karst/noc.rs:213-229 | Routing the response heads controller by controller, each to the link of its host if that has room. |
| KarstDie.KarstFabricNode.Step | src/karst/fabric_node.rs:98-177 | Retiring accepted staging heads, serving requests, stepping pipes and crossbar in place is one step of the die function. |
| KarstDie.KarstFabricNode.ServeChannel | src/karst/fabric_node.rs:109-150 | One request against one channel: a write is absorbed, a read or a bad address waits for room in the staging queue. |
| KarstDie.ServeRefuses | src/karst/fabric_node.rs:109-150 | A request outside the mapped words changes no memory and is answered to its sender with the reason, as soon as there is room. |
| KarstEndpoint.KarstHostNode.Post | src/karst/host_node.rs:136-163 | Accepted if and only if the address is mapped and fewer than 32 transactions wait, and then the queue grows by exactly this one; a full queue and each kind of bad address get their own reply, and change nothing. |
| KarstEndpoint.KarstHostNode.PostWrite | src/karst/host_node.rs:136-149 | The same for a write. |
| KarstEndpoint.KarstHostNode.PostRead | src/karst/host_node.rs:150-163 | The same for a read. |
| KarstEndpoint.PostIsAnswered | src/karst/host_node.rs:136-163 | For every host state and transaction, the reply and the new queue follow from the address and the number that wait, and from nothing else. |
| KarstEndpoint.FaultsReachHosts | src/karst/host_node.rs:202-232 | A fault response reaches the host as that fault without data, a read response as its data without a fault. |
| KarstEndpoint.KarstHostNode.PopResponse | src/karst/host_node.rs:168-177 | The oldest response, or nothing. |
| KarstEndpoint.KarstHostNode.Step | src/karst/host_node.rs:178-248 | Completion, sampling of both links, fetch and presentation are one step of the host function. |
| KarstRouting.ResponseFindsItsHost | src/karst/noc.rs:217-223 | On either die the source id of a response selects the port wired to that host. |
| KarstRouting.ServeKeeps | src/karst/fabric_node.rs:109-150 | A mapped request is never answered with a fault. |
| KarstRouting.NocStepKeeps | src/karst/noc.rs:165-232 | Every flit stays in a queue where it belongs and the inter-die queues stay empty. |
| KarstRouting.CycleKeepsRouting | src/karst/fabric.rs:398-518 | The routing invariant of the whole fabric survives every cycle, for every state that has it. |
| KarstRouting.NewFabricIsRouted | src/karst/fabric.rs:128-156 | A new fabric has the routing invariant. |
| KarstTransport.HostConserves | src/karst/host_node.rs:183-247 | What a host completes, then its active request, then its queue, is its program order. |
| KarstTransport.HostHandshake | src/karst/fabric.rs:434-508 | What a host considers sent on a link is exactly what the die considers received from it. |
| KarstTransport.NocConserves | src/karst/noc.rs:172-229 | The crossbar keeps the traffic of one host with one controller, in both directions and in order. |
| KarstTransport.MemoryReplays | src/karst/fabric_node.rs:109-150 | A channel's memory and its answers are a function of the requests it has served, in order. |
| KarstTransport.RequestsConserved | src/karst/fabric.rs:398-518 | Over one cycle, requests served followed by requests still on the way are unchanged, per host and channel. |
| KarstTransport.ResponsesConserved | src/karst/fabric.rs:398-518 | Over one cycle, responses received followed by responses on the way grow by exactly the new answers; an accepted staging head counts as moved. |
| KarstTransport.TickKeepsInv | src/karst/fabric.rs:613-628 | A cycle of the whole machine keeps all conservation and routing invariants. |
| KarstTransport.PostKeepsInv | src/karst/host_node.rs:136-163 | So does a post, accepted or refused, to any host number. |
| KarstTransport.TakeKeepsInv | src/karst/host_node.rs:168-177 | So does taking a response, also between cycles. |
| KarstTransport.RunHasInv | src/karst/fabric.rs:613-662 | In every run from a new fabric, for every host and channel: requests posted equal requests served plus requests in flight, answers equal responses received plus responses in flight, in order; every queue is within its bound. |
| KarstMemory.ReplayWord | src/karst/fabric_node.rs:109-150 | A word of a channel holds the last value written to its address; no other address touches it. |
| KarstMemory.AnswersRead | src/karst/fabric_node.rs:109-150 | The answers to reads of an address are the values last written before them. |
| KarstMemory.NoFaults | src/karst/fabric.rs:326-369 | In every run, whatever addresses the hosts share, no response that any host has taken or could take is a fault. |
| KarstMemory.ReadYourWrites | src/karst/fabric.rs:326-369 | In every run, if only host h uses address a, the reads of a it has taken returned, in order, the last value it posted before each, else the initial contents. |
| KarstMemory.DrainedReadsAreComplete | src/karst/fabric.rs:326-369 | Once the fabric has drained and the host has taken its responses, that list is complete. |
| KarstMemory.SharedReadsAreSerial | src/karst/fabric.rs:326-369 | In every run, whoever shares addresses, the requests a channel has served are one interleaving of the hosts' programs, and what each host has read at each address of the channel is, in order, what that interleaving gives; once drained and collected, all of it. |
| KarstDrain.NocHops | src/karst/noc.rs:172-229 | What a crossbar gains, gives away and routes in a cycle never raises the hops left. |
| KarstDrain.Progress | src/karst/fabric.rs:398-518 | With every host ready and anything in flight, some host-channel pair strictly loses hops. |
| KarstDrain.CycleDrains | src/karst/fabric.rs:613-628 | Without posts the hops left never rise, and with all hosts ready and anything in flight they strictly fall: no deadlock. |
| KarstDrain.EmptyIffZero | src/karst/fabric.rs:398-518 | The measure is zero exactly when nothing is in flight. |
| KarstDrain.PumpDrains | src/karst/fabric.rs:613-662 | Collecting responses and advancing drains the fabric from any routed state within as many cycles as hops are left. |
| KarstDrain.QuietRunDrains | src/karst/fabric.rs:613-662 | Under any schedule of cycles and pops without posts, that many ready cycles suffice. |
| KarstMachine.KarstFabric.constructor | src/karst/fabric.rs:128-156 | The new object is in the initial state of the runs. |
| KarstMachine.KarstFabric.TryPost | src/karst/fabric.rs:326-359 | A post to an existing host is answered as the host does; if accepted, its queue and the history of posts grow by exactly this transaction, else nothing changes; it is the Post step of a run. An unknown host is reported. |
| KarstMachine.KarstFabric.TryPostHostWrite | src/karst/fabric.rs:326-340 | The same for a write, with its reply. |
| KarstMachine.KarstFabric.TryPostHostRead | src/karst/fabric.rs:345-354 | The same for a read, with its reply. |
| KarstMachine.PostIsAccepted | src/karst/fabric.rs:326-359 | In every state of a run a post is accepted if and only if the host exists, the address is mapped and fewer than 32 wait. |
| KarstMachine.KarstFabric.PopHostResponse | src/karst/fabric.rs:360-371 | Taking a response is the corresponding step of a run, and what is returned is what the history gains. |
| KarstMachine.KarstFabric.PrepareCycleInputs | src/karst/fabric.rs:398-518 | Hosts are stepped from sampled signals and the dies' inputs are those registered before the cycle. |
| KarstMachine.KarstFabric.StepDies | src/karst/fabric.rs:600-652 | Either die may be stepped first. |
| KarstMachine.KarstFabric.StepCycle | src/karst/fabric.rs:613-628 | One call is one Tick step of a run, and the object stays in a state all run theorems cover. |
| KarstMachine.KarstFabric.Advance | src/karst/fabric.rs:653-661 | Advancing by n is n ticks. |
| HeistPlacement.PackingRoundTrip | src/heist/placement.rs:52-75 | Packing keeps the policy always, and the placement exactly when the worker fits in fourteen bits. |
| HeistPlan.EdgesGiveOrder | src/heist/choretree.rs:336-346 | Respecting the successor edges alone is enough to respect every sequence of the tree. |
| HeistPlan.TailsCloseThePlan | src/heist/choretree.rs:336-360 | When every tail of a compiled subtree is over, all of the subtree is. |
| HeistPlan.RestIsComplete | src/heist/choretree.rs:332-360 | If nothing that may run is left to run, everything has run. |
| HeistCore.PostedInv | src/heist/choretree.rs:332-360 | The tables of a freshly posted tree satisfy the invariant of the job graph. |
| HeistCore.BeginKeeps | src/heist/atelier.rs:233-240 | Taking a due job's work keeps the job graph invariant; the hold on the successor passes to the worker. |
| HeistCore.FinishKeeps | src/heist/atelier.rs:188-200 | Ending a body, and for a fork making both heads due, keeps it. |
| HeistCore.YieldKeeps | src/heist/corochore.rs:91-100 | A yield hands the hold to the continuation's new job and keeps it. |
| HeistCore.ReleaseKeeps | src/heist/atelier.rs:243-263 | Letting go of the successor, which becomes due at the last predecessor, keeps it. |
| HeistCore.DropKeeps | src/heist/atelier.rs:145-157 | Recycling a job id after its work was taken keeps it. |
| HeistLoop.StepKeepsInv | src/heist/atelier.rs:221-280 | Every step of every worker keeps the coupling of counters, queues, program counters and job graph, whatever worker moves and whatever it steals; a worker waits while the owner of a queue it wants holds it locked. |
| HeistLoop.PopsPreferred | src/heist/maestro.rs:82-108 | Of two tops a worker takes the one of the preferred queue; a lone required job only when nothing runnable is left. |
| HeistLoop.StealTakesLast | src/heist/atelier.rs:201-220 | A thief takes the last job of the run queue it robs, and the rest stays. |
| HeistLoop.QueuedWherePlaced | src/heist/atelier.rs:127-144 | A job that is published or handed on joins the required or the run queue of the worker its placement names, or of worker 0 if that does not exist, and no other queue changes. |
| HeistLoop.KeptUnlessRequired | src/heist/atelier.rs:241-262 | A successor that becomes due stays with the worker that released it, unless it requires another one. |
| HeistRuns.LaunchInv | src/heist/atelier.rs:383-393 | The state after all temporary queues were flushed satisfies the invariant. |
| HeistRuns.RunKeepsInv | src/heist/atelier.rs:221-280 | So does every state of every run. |
| HeistRuns.RunsAreOrdered | src/heist/choretree.rs:332-360 | For every tree, thread count and schedule, at every moment: if anything right of a sequence has started, all of its left has finished. |
| HeistRuns.CounterCoversAllWork | src/heist/atelier.rs:231-279 | The scheduled-job counter, with one for every worker that has enqueued a continuation and not counted it yet, never falls below queued plus running jobs, and is never negative; each counter and queue operation is a step of its own. |
| HeistRuns.ZeroStaysUnless | src/heist/maestro.rs:314-341 | The counter stays at zero if and only if the step is not one that counts a posted continuation. |
| HeistCounter.CounterFlickers | src/heist/maestro.rs:314-341 | A concrete run of one coroutine posted as a tree, with two workers, in which it reads zero and then one: the continuation was robbed and finished before it was counted. |
| HeistRuns.ZeroMeansComplete | src/heist/atelier.rs:231-279 | Reading zero means every chore has run and nothing is due or in hand, in that state and in every later one, whatever the counter does then. |
| HeistRuns.LeavingMeansComplete | src/heist/atelier.rs:231-280 | As soon as any worker has left the loop, every leaf and fork has run exactly once. |
| HeistRuns.NoLeafRunsTwice | src/heist/atelier.rs:236-240 | In no state of any run has a leaf run twice. |
| HeistRuns.SomeoneCanPop | src/heist/maestro.rs:82-108 | No stuck state: with work counted and nobody running, some worker's own queues yield a job, whichever top is older. |
| HeistRuns.PredecessorCountIsExact | src/heist/corochore.rs:81-107 | In every state, with coroutines suspended any number of times, a job's predecessor count equals the live jobs that hold it as successor plus the workers about to release it. |
| HeistRuns.ReleasedOnce | src/heist/corochore.rs:101-106 | A chore that has let go of its successor is done and never holds it again. |
| HeistFinish.CompletionIsReachable | src/heist/atelier.rs:221-280 | Nothing that a schedule has done so far can prevent the end: every state of every run goes on to one in which everything has run, all workers are idle and the counter is zero. |
| HeistBound.TurnsAreBounded | src/heist/atelier.rs:221-280 | In every schedule the turns that are not idle are at most 25 for every chore and fork of the plan, 3 more, and 20 for every suspension. |
| HeistBound.FairTurn | src/heist/atelier.rs:221-280 | In any state in which the counter is not zero, a stretch in which every worker gets three turns has one that is not idle, whatever is robbed and whoever waits for a lock. |
| HeistBound.FairRunsComplete | src/heist/atelier.rs:221-280 | Every schedule with more such stretches than that bound has run everything at its end, and nothing is due or left to do. |
| HeistHome.StepKeepsHome | src/heist/atelier.rs:127-280 | For any set of chores settled at some workers, and any chores assumed to be run there, no step brings a job of the set to another worker, except to hand it over. |
| HeistHome.HomeSetRunsAtHome | src/heist/atelier.rs:241-262 | Chores that require a worker, entries that stay with a fork of the set, and chores kept inline after predecessors of the set that are no coroutines, are only ever run at home, in every schedule. |
| HeistHome.RequiredRunsAtHome | src/heist/atelier.rs:246-257 | In particular, a chore that requires a worker and that no fork starts is only ever run by that worker, or by worker 0 if there is no such worker, in every schedule; a coroutine also after every suspension. |
| HeistForks.HeldIsRun | src/heist/atelier.rs:235-272 | Whatever waits in a queue of a worker, or is next in its hands, in a state of any run, can still be run by that worker. |
| HeistForks.EntryRunsWhereForkRuns | src/heist/maestro.rs:114-133 | A required entry of a side of a parallel node, unless it is a coroutine at the worker it requires, can be run by exactly the workers that can run the fork, whatever it requires. |
| HeistForks.QueuedAnywhere | src/heist/atelier.rs:201-220 | Whatever waits in a run queue in a state of any run can still be run by every worker, which may rob it. |
| HeistForks.ForkedAnywhere | src/heist/maestro.rs:114-133 | Whatever forks alone lead to from the head of the plan can be run by every worker. |
| HeistForks.RequirementIsKeptWhen | src/heist/atelier.rs:188-200 | So its requirement is kept in all runs if and only if there is one worker. |
| HeistForks.RequirementIsLost | src/heist/atelier.rs:188-200 | A concrete plan, one parallel node with its terminal job and two workers, with a run in which the chore that requires worker 0 is run by worker 1. |
| HeistWhere.NodeIsRun | src/heist/atelier.rs:221-280 | Every chore and fork of a tree is run by some worker in some run, for any number of workers. |
| HeistWhere.CoroRunsAt | src/heist/corochore.rs:81-107 | A coroutine can be run by the worker it requires, and by every worker if it requires nobody, wherever in the tree it is: a suspended one waits where its placement says. |
| HeistWhere.EntryRunsExactlyWhere | src/heist/maestro.rs:114-133 | So a worker can run a required entry of a side of a parallel node if and only if it can run the fork, or the entry is a coroutine that requires it. |
| HeistWhere.RequiredRunsExactlyAtHome | src/heist/atelier.rs:246-257 | A chore that requires a worker and that no fork starts can be run by a worker if and only if it is the one required, or worker 0 if there is none such. |
| HeistWhere.FreeEntryAnywhere | src/heist/maestro.rs:114-133 | An entry of a side of a parallel node that requires nobody can be run by every worker. |
| HeistWhere.PublishedAnywhere | src/heist/corochore.rs:101-106 | The sole successor of a coroutine, if it requires nobody, can be run by every worker. |
| HeistWhere.SuccessorRunsWhereSomePredecessorRuns | src/heist/atelier.rs:241-262 | After chores that are no coroutines, a chore that requires nobody can be run only by workers that can run one of them. |
| HeistWhere.SuccessorRunsWherePredecessorRuns | src/heist/atelier.rs:241-262 | After a single such predecessor, it can be run by exactly the workers that can run that one. |
| HeistSolo.EveryChore | src/heist/atelier.rs:201-280 | A worker can run every chore of a tree if and only if every chore that requires a worker, and that no fork starts, requires that one. |
| HeistSolo.SoloFinishes | src/heist/atelier.rs:201-280 | Such a worker can run all of them in one run in which nobody else takes a turn. |
| HeistAtelier.TableIsPosted | src/heist/choretree.rs:332-360 | The rows in the arrays are the rows from which the scheduler's runs start. |
| HeistAtelier.AtelierState.AllocJob | src/heist/atelier.rs:70-88 | The last id of the worker's cache, which is refilled with the last 64 of the shared stash when empty, or 0 when both are empty; it is fresh, and never 0 while there are more spare ids than the caches of other workers can hold back. |
| HeistAtelier.AtelierState.FreeJob | src/heist/atelier.rs:145-157 | The row is blanked, the worker's temporary queue flushed, and the id goes to the worker's cache while that holds fewer than 256, else to the stash; the stamps of the other jobs stay. |
| HeistAtelier.AtelierState.SetSucc | src/heist/atelier.rs:158-162 | One row gets its successor and the successor one predecessor more; no other row changes. |
| HeistAtelier.AtelierState.ConstructJob | src/heist/atelier.rs:163-176 | A fresh blank row with the given work, linked to the given successor, which counts one predecessor more, and stamped as the youngest; or 0 and no change. |
| HeistAtelier.AtelierState.PostLeaf | src/heist/choretree.rs:76-91 | A chore gets a job from the cache of the worker it is placed on, with its placement and its work. |
| HeistAtelier.AtelierState.PostChoreNode | src/heist/choretree.rs:332-438 | Compiling a tree yields fresh distinct jobs, the entry and the tails of the plan, exactly that plan's rows, and stamps in posting order; all other rows and stamps are untouched. It takes one spare id for every job. |
| HeistAtelier.AtelierState.PostSeq | src/heist/choretree.rs:336-346 | Every tail of the left side gets the head of the right side as successor. |
| HeistAtelier.AtelierState.PostPar | src/heist/choretree.rs:347-360 | One fork job enqueues both heads; the tails are those of both sides. |
| HeistAtelier.AtelierState.PostChoreTree | src/heist/maestro.rs:225-243 | Fresh jobs with the rows of the tree, each tail linked to the terminal job, which counts them; trees posted before keep their rows; the first tree and the terminal job form one plan. The head waits at the worker it is placed on, and all jobs in use have stamps of their own. |
| HeistAtelier.PlanKeepsStamps | src/heist/atelier.rs:104-109 | A plan that is stamped in posting order leaves all jobs in use with different stamps, and is younger than all jobs before it. |
| HeistAtelier.AtelierState.EnqueueByPlacement | src/heist/atelier.rs:127-144 | The job is counted, stamped as the youngest, and pushed to the required or the run queue of the worker its placement names, or of worker 0. |
| HeistAtelier.AtelierState.FlushTempQueue | src/heist/maestro.rs:114-133 | Every waiting job is counted, stamped unless it has a stamp, and pushed where its placement says. |
| HeistAtelier.FlushSorts | src/heist/maestro.rs:114-133 | The required jobs that waited end up behind the required queue and the others behind the run queue, last first in both. |
| HeistAtelier.FlushesAsInRuns | src/heist/maestro.rs:114-133 | Flushing in the tables is what a worker does in the runs, one counter and one queue operation at a time. |
| HeistAtelier.AtelierState.PopLocalJob | src/heist/maestro.rs:82-108 | Of two tops the required one if its stamp is not younger, else the other; a lone top of the run queue; a lone required job once nothing runnable is scheduled; else none. Exactly the queue it came from is shortened. |
| HeistAtelier.AtelierState.FlushForLaunch | src/heist/atelier.rs:383-393 | What the workers find at launch is exactly the initial state of the runs. |
| HeistAtelier.AtelierState.PostAndFlush | src/heist/maestro.rs:225-243 | Posting a tree to an idle scheduler and flushing gives exactly the initial state of the runs of that tree with its terminal job. |
| SiloDisjointSet.MergeJoins | src/silo/dset.rs:72-92 | A union joins exactly the two classes, whichever representative wins. |
| SiloDisjointSet.DisjointSet.Find | src/silo/dset.rs:55-71 | Path compression returns the root and changes no root. |
| SiloDisjointSet.DisjointSet.Union | src/silo/dset.rs:72-92 | Union by rank is the merge of two classes under one of their roots. |
| RubeNetlist.Netlist.Connect | src/rube/netlist.rs:56-66 | A second driver is refused without a change; otherwise driver and net are updated. |
| RubeNetlist.Netlist.AssignTrigger | src/rube/netlist.rs:73-86 | The first caller gives a net the next trigger id, later callers change nothing. |
| RubeNetlist.Netlist.BuildPortToTrigger | src/rube/netlist.rs:104-118 | It succeeds if and only if every port's net has a trigger. |
| RubeLayout.PendingClimbs | src/rube/layout.rs:188-258 | A port whose sealing is pending lies on a net that some still open module will give a trigger. |
| RubeLayout.SealKeepsCovered | src/rube/layout.rs:188-258 | Sealing keeps the inductive fact: a net without a trigger contains a pending port. |
| RubeLayout.ConnectKeepsCovered | src/rube/layout.rs:121-187 | So does connecting, whichever root the union keeps. |
| RubeLayout.ConnectKeepsSingleDriver | src/rube/layout.rs:121-187 | An accepted connection joins two different nets, or repeats an existing driver. |
| RubeLayout.NetsAreDriverTrees | src/rube/netlist.rs:56-66 | Two ports share a net if and only if following drivers from them ends at the same undriven port. |
| RubeLayout.KernelOutputsAreSeparate | src/rube/layout.rs:121-187 | Outputs of childless modules never share a net. |
| RubeLayout.Layout.AddModule | src/rube/layout.rs:62-81 | A module with fresh, unconnected ports, registered with its parent. |
| RubeLayout.Layout.Connect | src/rube/layout.rs:121-187 | A connection is accepted if and only if the rules for hierarchy, direction, types and the sink's driver permit it; a refusal changes nothing. |
| RubeLayout.AcceptedIffPermitted | src/rube/layout.rs:121-187 | For all layouts and ports: side by side from an output to an input, one level down between inputs, or one level up between outputs, with equal types and no other driver. |
| RubeLayout.Layout.SealModule | src/rube/layout.rs:188-258 | It succeeds if and only if every child is sealed, and gives a trigger to exactly the inner nets that do not leave the module, and at the top to the boundary. |
| RubeLayout.Layout.Freeze | src/rube/layout.rs:318-329 | It succeeds if and only if every net has a trigger or some open module will give it one; then two ports have the same trigger if and only if they share a net. |
| RubeHistory.HistoryIsSound | src/rube/layout.rs:62-258 | Any interleaving of adding, connecting and sealing, with no module added below a sealed one, keeps both invariants. |
| RubeHistory.FreezeWillSucceed | src/rube/layout.rs:318-329 | After any such interleaving freezing gives every port a trigger. |
| RubeHistory.NetsAreTrees | src/rube/layout.rs:121-187 | After any such interleaving nets are exactly the driver trees. |
| RubeHistory.LateModuleIsForgotten | src/rube/layout.rs:188-258 | Without the restriction it fails: ports of a module added below a sealed parent get no trigger and nothing left will give them one. |
| RubeHistory.LateModuleStopsFreeze | src/rube/layout.rs:318-329 | A concrete layout of that kind on which freezing fails. |
| RubeLanes.LanesCommute | src/rube/engine.rs:185-265 | Two lanes that write different triggers and have private state may be evaluated in either order, whatever the kernels compute. |
| RubeLanes.OrderDoesNotMatter | src/rube/engine.rs:266-331 | Any permutation of independent lanes gives the same next state as the serial loop. |
| RubeLanes.AddCounts | src/rube/module.rs:33-52 | Addition counts up from its first operand, modulo 2^64. |
| RubeLanes.SubCounts | src/rube/module.rs:33-52 | Subtraction counts down from it. |
| RubeLanes.ShiftsAre | src/rube/module.rs:33-52 | A shift uses six bits of its second operand. |
| RubeLanes.KernelIsMasked | src/rube/module.rs:33-52 | For every operation the mask drops the bits outside it, and only those. |
| RubeUnknown.BitTable | src/rube/module.rs:33-52 | The truth table of every operation on one-bit operands. |
| RubeLanes.InputsAreCurrent | src/rube/engine.rs:185-200 | A coroutine is shown the current values of its first 64 inputs, in order. |
| RubeEngine.CompileWarps | src/rube/layout.rs:373-427 | Every fast module ends up in exactly one lane, which reads and writes the triggers of its own ports; one without inputs or outputs uses the port where they would begin. |
| RubeEngine.LanesAreModules | src/rube/layout.rs:373-427 | Lane for lane, the warps are the fast modules in order. |
| RubeEngine.WorkersPartitionLanes | src/rube/coro_kernel.rs:209-218 | The workers' lane ranges are adjacent and cover a warp from end to end. |
| RubeSim.SimEngine.EvalFast | src/rube/engine.rs:222-251 | The clear-flags shortcut and the four-state path write what the lane function says. |
| RubeSim.SimEngine.EvalCoroInstance | src/rube/engine.rs:185-214 | Resuming one coroutine on at most 64 inputs and writing its outputs, or nothing once it is done. |
| RubeSim.SimEngine.Drive | src/rube/engine.rs:318-331 | The serial cycle over all warps, then the advance of every trigger. |
| RubeSim.SimEngine.DriveInAnyOrder | src/rube/engine.rs:272-331 | The parallel cycle in whatever order lanes ran has the serial result. |
| RubeSim.SimEngine.SetImmediate | src/rube/trigger.rs:248-260 | A value set from outside shows at once, now and next, with its unknown and inactive bits, and no other trigger changes. |
| RubeDrive.DriveIsSound | src/rube/engine.rs:222-251 | On one-bit ports, whatever is unknown or inactive: an output that a drive leaves clear shows what the kernel gives for all values its inputs may stand for; one that it leaves unknown shows 0; none becomes inactive. |
| RubeDrive.DriveIsOpen | src/rube/engine.rs:222-251 | A drive leaves the output of a one-bit gate unknown if and only if its inputs leave it open, except for a shift of a clear 0 or by a clear 1, where it is unknown if and only if an input is not clear. |
| RubeDrive.DriveIsTrusted | src/rube/engine.rs:222-251 | For every mask: clear inputs give a clear output with the kernel's value, and beside an unclear input a clear output is right for all values if and only if the test on the clear operand and the mask holds. |
| RubeDrive.DrivenCoro | src/rube/engine.rs:185-214 | What a drive does for one coroutine, if no other lane has its cell or writes its outputs: it is resumed once unless it is done, is done when it yields nothing more, and its outputs show what it yielded, clear, or what was to come. |
| RubeBuild.LinkAll | src/rube/layout.rs:121-187 | A run of permitted connections to distinct undriven sinks is never refused, joins each pair, drives nothing else and unjoins nothing. |
| RubeBuild.CreateGate2 | src/rube/gates.rs:7-27 | A sealed gate module with two inputs left free. |
| RubeBuild.HalfAdder | src/rube/adder.rs:30-60 | Two gates and six connections; the result is complete, sealed, and leaves both inputs free. |
| RubeBuild.FullAdder | src/rube/adder.rs:130-174 | Two half adders, an or gate and eight connections, likewise. |
| RubeBuild.RippleAdder | src/rube/adder.rs:256-327 | For every width, every bit is wired to its operands, its neighbour's carry and its sum port, everything inside is sealed, and the 2N + 1 inputs stay free. |
| RubeBuild.KeepsAdder | src/rube/layout.rs:62-258 | An adder stays correct whatever is added, connected or sealed around it. |
| RubeCompile.CompileCoroWarps | src/rube/layout.rs:436-471 | Every coroutine module ends up in exactly one lane with a cell of its own. |
| RubeCompile.CompiledLanesAreIndependent | src/rube/layout.rs:318-471 | For every frozen layout, in whatever order the modules were left, the compiled lanes are independent if and only if no two modules write the same net. |
| RubeCompile.UndrivenAreApart | src/rube/layout.rs:121-187 | No two modules write the same net if no output of a module with a kernel has a driver. |
| RubeCompile.LeavesAreUndriven | src/rube/layout.rs:121-187 | No output of a module with a kernel has a driver if no such module has children. |
| RubeShared.ParentKernelShares | src/rube/layout.rs:62-187 | A concrete layout, an and gate with an or gate below it whose output is passed up: connecting and freezing are accepted, both lanes write one trigger, and in some state their order matters. |
| RubeCompile.GateLane | src/rube/layout.rs:373-427 | In every frozen layout a gate has exactly one lane; no other lane writes its output trigger if and only if no other module writes that net. |
| RubeCompile.FastModuleLane | src/rube/layout.rs:373-427 | Every fast module has a lane with its operation, the mask of its first output, and the triggers of its first two inputs, or twice of its first, and of its first output. |
| RubeCompile.CoroModuleLane | src/rube/layout.rs:436-471 | Every coroutine module has a lane with the triggers of all its ports in order, and a cell that no other lane has. |
| RubeCompile.FreeInputIsUnwritten | src/rube/layout.rs:373-471 | In every frozen layout, a port that nothing drives and that is no output is written by no lane. |
| RubeCompile.Create | src/rube/engine.rs:58-73 | A new engine has clear zero triggers and one lane for every kernel. |
| RubeRipple.DrivenGate | src/rube/engine.rs:215-252 | With clear flags, the next value of a gate's output is its operation on the current inputs. |
| RubeRipple.CarrySettles | src/rube/adder.rs:300-316 | The carry into bit i is right from drive 2i + 1 on, whatever the triggers held at the start. |
| RubeRipple.PaperSum | src/rube/adder.rs:361-371 | Sum bits and carry out make up both numbers and the carry in. |
| RubeRipple.AdderAdds | src/rube/adder.rs:256-371 | For every width N, in any circuit in which nothing else writes what the gates of the adder write, from every internal state with clear flags and inputs held, sum plus 2^N times carry is a + b + carry in after every number of drives from 2N + 1 on. |
| RubeRipple.SteadyAdderAdds | src/rube/engine.rs:332-353 | The same at every state whose next drive changes no port. |
| RubeSettle.QuietIsFixed | src/rube/engine.rs:332-353 | If no coroutine has an output, a drive after which no trigger has an edge has reached triggers that no further drive changes, unknown and inactive values included; without coroutines, the whole state. |
| RubeSettle.QuietIsFixedWhen | src/rube/engine.rs:332-353 | For any independent lanes, a quiet drive means fixed triggers for all kernels and all states if and only if no coroutine has an output. |
| RubeSettle.CoroutineMayWake | src/rube/engine.rs:332-353 | A concrete coroutine with an output that waits a cycle: the drive is quiet first, and the next one changes the output. |
| RubeSettle.Settle | src/rube/engine.rs:332-353 | It drives until the first cycle without an edge, or to the limit. |
| RubeSettle.SettledSumIsRight | src/rube/engine.rs:332-353 | When a circuit has settled, an adder in it shows the sum of its inputs, whatever runs beside it, if nothing else writes what its gates write. |
| RubeSettle.AddAndSettle | src/rube/engine.rs:332-353 | Setting operands, settling and reading back gives the sum whenever the engine settles within the limit, in an engine with any other lanes. |
| RubeUnknown.OneBitIsSound | src/rube/module.rs:116-244 | On one-bit ports, for every operation, a clear result is what the kernel gives whatever the unknown or inactive operands stand for. |
| RubeUnknown.UnclearIsOpen | src/rube/module.rs:116-244 | An unclear result on one-bit operands is one that they really leave open, for every operation, except exactly for a shift of a clear 0 or by a clear 1. |
| RubeUnknown.WideAndIsNotSound | src/rube/module.rs:122-127 | On wider ports it fails: 2 and an unknown value give a clear 0, in either order. |
| RubeUnknown.WideNotIsNotSound | src/rube/module.rs:158-174 | So does the inverse of a clear 0 next to an unknown second input, for every mask above 1. |
| RubeUnknown.TrustIsExact | src/rube/module.rs:116-244 | For every operation, all operands of which one is unclear and every mask, the result can be trusted if and only if a test on the clear operand and the mask holds. |
| RubeRipple.PrimedIsHeld | src/rube/engine.rs:134-147 | Operands set once at free inputs are held for the whole run. |
| RubeRipple.NumberOfBits | src/rube/adder.rs:337-350 | The bits SetA and SetB put on the ports make up the number modulo 2^N. |
| RubeRipple.GetSum | src/rube/adder.rs:361-371 | Reading the sum ports gives the number their bits make up. |
| RubeRipple.AddOn | src/rube/adder.rs:337-371 | Setting operands, driving 2N + 1 times and reading back gives the sum, in an engine with any other lanes. |
| RubeChip.Assemble | src/rube/engine.rs:58-73 | Freezing and compiling a sound layout cannot fail and yields an engine for it, with zero triggers and every coroutine in the initial state of its module; no two modules write the same net if and only if that was so before, and each port keeps its sole writer. |
| RubeChip.AddFromScratch | src/rube/adder.rs:256-371 | An adder of any width, built on an empty layout, frozen, compiled and driven, adds. |
| XplrWalk.TraverseDepthRoots | src/fenst/xplr.rs:170-247 | For every finite forest and every history-dependent visitor, the loop over three stacks makes exactly the calls of the recursive walk, stops where it stops, and ends. |
| XplrWalk.WalkIsDisciplined | src/fenst/xplr.rs:156-161 | Every call gets a real path from a root; a node is left only after it was entered, accepted and found to have children; the walk stops at once, and only, at a refused exit. |
| XplrWalk.AcceptingWalkIsComplete | src/fenst/xplr.rs:156-161 | A visitor that never refuses enters all nodes in preorder and leaves all inner nodes in postorder. |
| XplrWalk.RefusingWalkIsShallow | src/fenst/xplr.rs:156-161 | A visitor that refuses every entry is shown the roots and nothing else. |
| VmAdaptor.VMAdaptor.Resume | src/crew/vm_adaptor.rs:71-152 | One turn of the endless loop is one step of the adaptor function, with queues inside their 128 bytes, and serves the ports as the next row says. |
| VmAdaptor.TurnServes | src/crew/vm_adaptor.rs:71-152 | For every state and all inputs, in terms of ports and queues alone: a request is served once, when it rises; a write to the data register appends its byte if there is room; a read shows the register, and takes the byte out; the link is offered the oldest byte to send. |
| VmAdaptor.AnswerStays | src/crew/vm_adaptor.rs:131-140 | While a request is held high, over any number of turns, the acknowledge and the answer given when it rose stay on the ports. |
| VmAdaptor.VMAdaptor.ReadRegister | src/crew/vm_adaptor.rs:103-131 | The node's number, three status bits by the state of the queues, the oldest byte received, which leaves the queue, or how many wait. |
| VmLink.TransferAgrees | src/crew/vm_adaptor.rs:72-84 | The sender drops its head exactly when the receiver takes it, and it is the same byte. |
| VmLink.TakenIsShown | src/crew/vm_adaptor.rs:103-131 | The byte that a read takes out of the queue is the value the guest is shown. |
| VmLink.LinkIsLossless | src/crew/vm_adaptor.rs:71-152 | Whatever the two guests do, in both directions and at every cycle boundary: bytes accepted are bytes delivered followed by the send queue, bytes delivered are bytes that the other guest was shown when it read, followed by the receive queue, and sent and received counts equal the bytes delivered. |
| VmLink.QueuedByteCrosses | src/crew/vm_adaptor.rs:136-147 | After the first cycle, a queued byte with room on the other side crosses in the very next cycle. |
| VmEngine.DriveIsPairCycle | src/crew/vm_adaptor.rs:201-211 | A drive of an engine that contains both adaptors is one cycle of the pair, whatever other coroutines, guests among them, and lanes it has. |
| VmEngine.EngineLinkIsLossless | src/crew/vm_adaptor.rs:201-211 | Losslessness over every run of such an engine, with coroutines of any kind and the outside free to change any trigger but the link's. |
| VmLayout.New | src/crew/vm_adaptor.rs:46-63 | A coroutine module with seven inputs and five outputs of the right types, the outputs undriven. |
| VmLayout.PlacedTypes | src/crew/vm_adaptor.rs:46-63 | Which of the twelve ports are one bit wide, and which have 32. |
| VmLayout.Connect | src/crew/vm_adaptor.rs:201-211 | The six connections between two adaptors side by side are never refused, join the six pairs, and drive no output. |
| VmLayout.ConnectedLanesAreJoined | src/crew/vm_adaptor.rs:201-211 | After freezing, if nothing drives the outputs of the two adaptors and no other module writes them, they have lanes of their own, wired to each other as the engine theorem needs. |
| VmLayout.NewGuest | src/crew/vm_runner.rs:59-95 | A guest is a coroutine module of its own, with two inputs and four outputs of the right types. |
| VmLayout.ConnectVm | src/crew/vm_adaptor.rs:192-200 | The six connections between a guest and the adaptor beside it are never refused, join the six pairs, and drive nothing else. |
| VmChip.AssembleLink | src/crew/vm_adaptor.rs:201-211 | A sound layout that holds two connected adaptors freezes and compiles into an engine that carries the pair in its first state, whatever else the layout holds. |
| VmChip.LinkOfChipIsLossless | src/crew/vm_adaptor.rs:201-211 | After any number of drives of such an engine both directions are lossless. |
| VmChip.BuildParty | src/crew/_tests.rs:372-475 | Two guests, each connected to its adaptor, and the link between the adaptors can be built in any sound layout in which no output of a kernel is driven. |
| VmChip.Exchange | src/crew/_tests.rs:372-490 | From an empty layout to any number of drives, for guests that do whatever they like: the bytes a guest got accepted are those delivered and those that still wait, in order. |
| FrescoRepos.EvalStays | src/fresco/exprrepos.rs:57-63 | Storing more never changes the value of what is stored. |
| FrescoRepos.ExprRepos.CollectTree | src/fresco/exprrepos.rs:132-140 | It pushes the operands of a run of equal operations, in order, above an untouched stack. |
| FrescoRepos.ExprRepos.TraverseTree | src/fresco/exprrepos.rs:141-168 | It pushes exactly one entry, which is stored as the tree is built: a leaf as its variable or number, a run of equal operations as one expression over all its operands in order, all of them common for a sum or product and one for a difference, quotient or power. It means what the flattened tree means under every assignment; every child index is below its parent's; it stops exactly at an empty leaf or an unsupported operation. |
| FrescoRepos.ExprRepos.PostTermTree | src/fresco/exprrepos.rs:119-124 | The last stored expression is the tree's, in structure and in meaning. |
| FrescoMeaning.FlatIsValue | src/fresco/exprrepos.rs:132-168 | For every tree with no subtraction or division as right child of its own kind, no nested powers and no zero divisors, the flattened meaning is the tree's value over the reals. |
| FrescoMeaning.LoweringKeepsValue | src/fresco/exprrepos.rs:119-168 | So the stored expression evaluates to the tree's value. |
| FrescoMeaning.SubtractionIsKeptWhen | src/fresco/exprrepos.rs:132-140 | For subtractions nested in any way, with operands that keep their own values, the stored expression has the tree's value if and only if the operands after the first that an even number of right turns leads to add up to zero. |
| FrescoMeaning.DivisionIsKeptWhen | src/fresco/exprrepos.rs:132-140 | For divisions nested in any way without zero divisors, the stored expression has the tree's value if and only if the first operand is zero or the product of the others that an even number of right turns leads to has square one. |
| FrescoMeaning.RightNestedSubtraction | src/fresco/exprrepos.rs:132-168 | A concrete tree, 1 - (1 - 1), whose stored value is -1 instead of 1. |

## Left out

- Karst: cycle traces, stall statistics and high-water marks; raw byte serialization of flits; vector units and dispatch; the
  two-thread stepping of dies beyond the fact that their order does not matter; `AdvanceIndependent` and chunked advancing.
- Karst: a memory channel is an array of words whose buffer calls succeed, so the read and write failures are not reached.
- Heist: `SpawnQuell` nodes; posting from inside a leaf's body; runs of several trees or launches on one scheduler; the random
  order in which a thief visits victims (any victim may be chosen); thread and memory ordering below atomic steps; posting
  helpers for closures. Counter overflow is a precondition, and so is that a tree to be posted finds a spare id for each of
  its jobs besides those that the caches of other workers can hold back: 63 in each of them in a new scheduler.
- Heist: which of two queue tops is older is an arbitrary choice in the runs; the stamps are modelled in the job tables only.
- HeistHome.HomeSetRunsAtHome: the converse is proved for required chores, coroutines, entries of forks, what forks alone
  lead to from the head, and chores with one predecessor (HeistForks and HeistWhere), and exactly for which workers it holds
  of all chores at once (HeistSolo). Open: exactly which workers can run a chore, no coroutine, that requires nobody and has
  several predecessors, in a tree in which others require somebody else; which one is last may be forced by the queues.
- Rube: self-parenting modules, connections through a module with itself as both ends (that branch is never reached: equal owners
  have equal parents), port names and subscriber lists, `SortModules` beyond the fact that it permutes modules, and clocks.
  Port ids are taken as the layout hands them out; a forged direction bit is excluded.
- Rube: the rank of the union-find is unbounded where the original stores a byte; a fast module whose first input or output
  number is no port is excluded where the original would read past the table.
- RubeRipple.AdderAdds: circuits in which another module writes the net of one of the adder's gates are excluded, because
  there the result may depend on the order of the lanes; this holds for all results about adders in a running engine.
- RubeRipple.GetSum: the sum is a natural number; the original builds it in 64 bits, so it covers widths up to 64.
- Explorer: names, sizes and chunked reading of leaves. Listing a node's children gives the same list each time.
- VM link: the hub, message protocol, sockets and guest machines; a coroutine resumed with fewer than seven inputs.
- Fresco: powers have no fixed meaning (lowering is proved to keep their bases and exponents); reals stand for floating point; the
  creation helpers other than those lowering uses; lookup by type.
- FrescoMeaning.SubtractionIsKeptWhen: operands of the run that do not keep their own values are excluded; their errors might
  cancel out.
- User interface, drawing, GPU entry points, parsers, hash kernels, stream plumbing, foreign runtimes and test running.
