# Block-layer and crypto models of the scrubber kernel

This project models the request queue of a Linux 2.6.35 block layer that carries a disk scrubber, the
scrubber itself, and the part of the crypto API it ships with, and proves what their protocols and
loops keep.

| part | files |
|---|---|
| ordered (barrier) request sequences | `BarrierModel`, `BarrierStructure`, `BarrierColors`, `BarrierUsers`, `BarrierDrain`, `BarrierLog`, `BarrierRuns`, `BarrierSafety`, `BarrierProgress`, `BarrierSetups`, `BarrierLimits`, `BarrierStalls`, `BarrierQueue` |
| CFQ queue merging and choice of requests | `CfqChains`, `CfqChoose` |
| segment counts and scatter lists | `Segments`, `SegmentMerges` |
| partial completion and failing fast | `Completion`, `CompletionLoops` |
| the deadline scheduler | `Deadline`, `DeadlineSteps`, `DeadlineRuns`, `DeadlineQueue` |
| tagged queueing | `Tags`, `TagQueue` |
| the merge hash | `MergeHash`, `MergeTable` |
| scrub plans, commands and workers | `ScrubPlan`, `ScrubCommands`, `ScrubWorkers` |
| removal of crypto instances, CBC mode | `Spawns`, `Cbc`, `CbcLoops` |

Each part follows one pattern. A value model gives the state and its steps; lemmas show what every
step keeps, and theorems speak about all runs, all histories or all inputs. Where the source works by
updating objects and buffers in place, a class or a method with loops does the same, and its contract
equates the new state with the model's step. Environment choices (memory, clocks, what the driver
completes, which request the scheduler dispatches) are parameters or arbitrary steps.

Where code and comments differ the code is followed:

- A hard-barrier flag on a request that is not a filesystem request toggles the queue colour although
  such requests take no part in the ordering (`block/elevator.c`, lines 727 to 729).
- A verify command of the scrubber is dispatched without a barrier flag, so a later write may be sorted
  before it; while an empty barrier drains with no proxy on the list, that leaves the queue with nothing
  to issue and nothing to complete (`block/elevator.c`, lines 428 to 446 and 647 to 651).
- A grow of a tag map is clipped to twice the number of requests, which may be less than the old real
  depth (`block/blk-tag.c`, lines 115 to 119).
- A read-ahead request carries all failfast bits although its bio does not (`block/blk-core.c`, lines
  1150 to 1153), so only mixed requests have bios as eager as the request.
- The promise that reporting all bytes of a request finishes it (`block/blk-core.c`, lines 1965 and 1966)
  needs that no bio without data ends a chain of several.
- A segment larger than the end of the range is cut to the size of the whole device even when it does
  not start at sector 0 (`block/scrub_core.c`, lines 375 to 378).
- A bound on the number of scrub requests is noticed one request late (`block/scrub_core.c`, line 385).

## Model

| member | source | states |
|---|---|---|
| `BarrierSafety.BarrierSequences` | linux-2.6.35/block/blk-barrier.c:92-280 | In every run and every ordering mode: a barrier is never issued itself, only through its stages; each stage completes at most once, the barrier ends at most once, only after all its stages and with the first error they reported; a barrier a stage was issued for is in progress or has ended; `ordseq` is 0 exactly while no barrier is in progress, and a barrier in progress always has a stage left; the double-completion assertion and the out-of-turn warning never trigger. Only the draining modes, and ordering by tag once a barrier is empty, need hard barriers to be filesystem requests |
| `BarrierSafety.EarlierRequestsFirst` | linux-2.6.35/block/blk-barrier.c:154-280 | In every run under drain ordering whose hard barriers are filesystem requests, a filesystem request submitted before a barrier has completed before any pre-flush, body or post-flush of that barrier is issued, and before the barrier ends |
| `BarrierSafety.LaterRequestsWait` | linux-2.6.35/block/blk-barrier.c:63-90 | In every such run, a filesystem request submitted after a barrier is not issued before that barrier has ended, in spite of colours reused by later barriers, sorted dispatch and requeues |
| `BarrierSafety.StagesInOrder` | linux-2.6.35/block/blk-barrier.c:154-280 | In every such run the body of a barrier is issued only after its pre-flush completed (where the mode has one), the post-flush only after the body completed |
| `BarrierSafety.StepSafe` | linux-2.6.35/block/elevator.c:612-752 | Every step (submit, dispatch, peek, start, complete, requeue), but the submission of a hard barrier that is no filesystem request, keeps the invariant behind the ordering theorems, event log included |
| `BarrierSafety.NoDoubleCompletion` | linux-2.6.35/block/blk-barrier.c:99-100 | From a consistent state no step sets a stage bit that is already set |
| `BarrierSafety.InTurnDrain` | linux-2.6.35/block/blk-barrier.c:268-277 | Under drain ordering the request at the head is never one whose turn has passed |
| `BarrierSafety.InTurnTag` | linux-2.6.35/block/blk-barrier.c:268-277 | The same under tag ordering, where only barriers without a command drain |
| `BarrierLimits.ColorConfusion` | linux-2.6.35/block/elevator.c:717-752 | The condition that only filesystem requests carry the hard-barrier flag is exact for ordering by draining: for every drain mode, every other request with that flag and every insertion point there is a run that submits just this one, triggers the warning, and issues a later write before the barrier has ended |
| `BarrierLimits.TagConfusion` | linux-2.6.35/block/blk-barrier.c:236-280 | So is it for ordering by tag once a barrier is empty: for every such request and insertion point and any two barriers, the first of them empty, there is a run that submits just these and issues the second barrier itself, outside any sequence |
| `BarrierProgress.NeverStalls` | linux-2.6.35/block/blk-barrier.c:236-280 | In every run whose hard barriers are filesystem requests, and in every run without ordering: while a barrier is in progress, something is at the driver or the head of the list may be issued, so no sequence that has begun is left with nothing to issue and nothing to complete; except, in the modes without a pre-flush, where an empty barrier meets a command that others may overtake, or (tags only) a request put back out of tag order |
| `BarrierProgress.StepUnstuck` | linux-2.6.35/block/elevator.c:845-875 | While a barrier waits for the drain, every step leaves something at the driver or something that has to drain at the head, so the test made on completions is not missed |
| `BarrierProgress.StepLined` | linux-2.6.35/block/elevator.c:612-714 | In every mode every step keeps proxies and older requests before each listed barrier and younger requests behind it |
| `BarrierStalls.StuckByPassing` | linux-2.6.35/block/elevator.c:413-449 | The first exception is needed: for every empty barrier and every verify command without a barrier flag, and both modes without a pre-flush, a run that submits just these ends with nothing at the driver and a head that is held back; its last step is what the sorted dispatch does exactly when barrier and command are at different sectors |
| `BarrierStalls.PassesCommand` | linux-2.6.35/block/elevator.c:426-446 | From the boundary that the empty barrier sets, a write at its sector goes before the command exactly when the command is at another sector |
| `BarrierStalls.StuckByRequeue` | linux-2.6.35/block/elevator.c:672-700 | So is the second: under ordering by tag, a write that is put back while an empty barrier drains, after a barrier submitted behind it has ended, leaves the queue stuck, whatever the requests |
| `BarrierStalls.StuckByFlag` | linux-2.6.35/block/elevator.c:672-700 | The condition on hard barriers is needed too: for every drain mode, every request with the flag that is no filesystem request, every insertion point and every barrier there is a run that submits just these and gets stuck when a write is put back |
| `BarrierStalls.StuckByTagFlag` | linux-2.6.35/block/elevator.c:672-700 | The same for every mode that orders by tag, when a stage of the barrier before is put back |
| `BarrierColors.StepAllModes` | linux-2.6.35/block/elevator.c:717-752 | Every step, but the submission of a hard barrier that is no filesystem request, keeps the colouring invariant: a request has the parity of the number of barriers submitted before it, and every barrier not yet ended is still in the queue |
| `BarrierColors.StepStructure` | linux-2.6.35/block/elevator.c:612-752 | Whatever is submitted, every step keeps the queue consistent as long as colours are right or nothing drains |
| `BarrierDrain.StepDrains` | linux-2.6.35/block/blk-barrier.c:236-280 | Every step keeps the drain invariant: listed requests stay in submission order around the barriers and only the stage whose turn it is can be at the driver |
| `BarrierDrain.DrainedIsQuiet` | linux-2.6.35/block/elevator.c:862-873 | When the drain condition of `elv_completed_request` holds, no request submitted before the barrier is left anywhere |
| `BarrierRuns.StepLogged` | linux-2.6.35/block/blk-barrier.c:92-112 | Every step that keeps the colouring also keeps the agreement between the event log and the queue: which stages completed, with which errors, and which barriers ended |
| `BarrierRuns.StepSteady` | linux-2.6.35/block/blk-barrier.c:92-112 | So does every step, whatever is submitted, as long as colours are right or nothing drains; and a barrier is never started itself |
| `BarrierStructure.CompleteSeqStructure` | linux-2.6.35/block/blk-barrier.c:92-112 | Completing stages keeps the queue consistent, whether or not the sequence ends with it |
| `BarrierStructure.StartOrderedStructure` | linux-2.6.35/block/blk-barrier.c:154-234 | Expanding a barrier into its proxies keeps the queue consistent, also when the sequence ends at once |
| `BarrierQueue.RequestQueue.constructor` | linux-2.6.35/block/blk-barrier.c:25-53 | A new queue starts in the initial state of the model |
| `BarrierQueue.RequestQueue.DispatchSort` | linux-2.6.35/block/elevator.c:413-449 | The backward scan inserts at a place the model allows, after passing exactly the requests it may pass |
| `BarrierQueue.RequestQueue.DispatchTail` | linux-2.6.35/block/elevator.c:457-469 | Tail insertion is a dispatch step of the model and moves the scheduling boundary |
| `BarrierQueue.RequestQueue.RequeueRequest` | linux-2.6.35/block/elevator.c:553-568 | Requeueing is the model step: at the front, or in stage order while a sequence is active |
| `BarrierQueue.RequestQueue.FindSpot` | linux-2.6.35/block/elevator.c:691-700 | The scan stops at the first request whose stage is not below the requeued one |
| `BarrierQueue.RequestQueue.DrainElevator` | linux-2.6.35/block/elevator.c:570-582 | Forced dispatch is a sequence of model steps and leaves nothing in the scheduler |
| `BarrierQueue.RequestQueue.InsertNew` | linux-2.6.35/block/elevator.c:717-752 | Colouring, colour toggling and placement give the state of the model's submit step |
| `BarrierQueue.RequestQueue.AddRequest` | linux-2.6.35/block/elevator.c:717-752 | Submitting any request, drain of the scheduler included, is a sequence of model steps that keeps the queue consistent; also the colouring, unless a hard barrier is no filesystem request |
| `BarrierQueue.RequestQueue.CompleteStages` | linux-2.6.35/block/blk-barrier.c:92-112 | Sets the bits, records the first error, and ends the barrier when nothing is left |
| `BarrierQueue.RequestQueue.ChooseOrder` | linux-2.6.35/block/blk-barrier.c:164-180 | The flags in force for a barrier: an empty one has no body and no post-flush and falls back to draining when it has no command for a tag |
| `BarrierQueue.RequestQueue.ExpandBarrier` | linux-2.6.35/block/blk-barrier.c:182-222 | The barrier is stashed, counted as started, and its wanted proxies stand in front in reverse order of placement |
| `BarrierQueue.RequestQueue.StartOrderedSequence` | linux-2.6.35/block/blk-barrier.c:154-234 | Starting a sequence is the model step, with its verdict: issue, hold or gone |
| `BarrierQueue.RequestQueue.DoOrderedHead` | linux-2.6.35/block/blk-barrier.c:236-280 | The decision about the head of the list is the model's |
| `BarrierQueue.RequestQueue.StartRequest` | linux-2.6.35/block/blk-core.c:1874-1922 | Handing a request to the driver is the model step, in-flight count included |
| `BarrierQueue.RequestQueue.CompletedRequest` | linux-2.6.35/block/elevator.c:845-875 | Accounting a completion and completing the drain stage is the model step |
| `BarrierQueue.RequestQueue.EndRequest` | linux-2.6.35/block/blk-barrier.c:114-130 | Completion through the end_io handlers is the model step and keeps the invariant |
| `BarrierQueue.RequestQueue.NextRequest` | linux-2.6.35/block/blk.h:54-68 | The loop ends, every turn of it is a model step, and a returned request is the marked head of the list |
| `CfqChains.Conservation` | linux-2.6.35/block/cfq-iosched.c:1974-2024 | Over every interleaving of allocation, setup, merge, split, release and exit: the process references of each queue equal the number of io contexts whose merge chain passes through it; every queue on such a chain is live; chains end; the pointers among all live queues form no cycle; and every operation that walks a chain finds one |
| `CfqChains.AlwaysAcyclic` | linux-2.6.35/block/cfq-iosched.c:1984-2024 | No walk along `new_cfqq` through live queues ever returns to its start, even among queues that only requests hold and after identities were reused |
| `CfqChains.StepRank` | linux-2.6.35/block/cfq-iosched.c:2005-2023 | Every operation keeps a ranking of the live queues that all pointers descend |
| `CfqChains.StepInv` | linux-2.6.35/block/cfq-iosched.c:3527-3558 | Every operation keeps the assignment of chains to contexts and the reference equation |
| `CfqChains.ChainUnique` | linux-2.6.35/block/cfq-iosched.c:2572-2590 | The chain from a queue is unique, so the walking loops have one outcome |
| `CfqChains.AlwaysWalkable` | linux-2.6.35/block/cfq-iosched.c:1984-2003 | Whenever an operation walks a chain, the chain is finite and within live queues |
| `CfqChains.CfqData.constructor` | linux-2.6.35/block/cfq-iosched.c:1974-1982 | An empty system satisfies the invariant |
| `CfqChains.CfqData.PutQueue` | linux-2.6.35/block/cfq-iosched.c:2458-2484 | Dropping a reference frees the queue with the last one |
| `CfqChains.CfqData.SetupMergeWith` | linux-2.6.35/block/cfq-iosched.c:1984-2024 | Scheduling a merge walks to the end of the other chain, joins the one with fewer process references to the other, and adds that many references; or does nothing |
| `CfqChains.CfqData.PutChain` | linux-2.6.35/block/cfq-iosched.c:2572-2590 | The loop drops one reference of each queue of the chain, in order, ends, and never takes its loop-detected exit |
| `CfqChains.CfqData.LeaveQueue` | linux-2.6.35/block/cfq-iosched.c:2593-2603 | A leaving context drops its whole chain |
| `CfqChains.CfqData.SplitQueue` | linux-2.6.35/block/cfq-iosched.c:3543-3558 | The last process keeps its queue, another one leaves it with its chain |
| `CfqChains.CfqData.MergeQueue` | linux-2.6.35/block/cfq-iosched.c:3528-3541 | The context moves one step along its chain |
| `CfqChains.CfqData.SetRequest` | linux-2.6.35/block/cfq-iosched.c:3563-3625 | A new request is a sequence of model steps ending in exactly one allocation |
| `CfqChains.CfqData.FreshQueue` | linux-2.6.35/block/cfq-iosched.c:3582-3587 | A context without a queue gets one with one reference |
| `CfqChains.CfqData.AllocRequest` | linux-2.6.35/block/cfq-iosched.c:3607-3616 | A request takes one reference and one allocation of its queue |
| `CfqChains.CfqData.PutRequest` | linux-2.6.35/block/cfq-iosched.c:3504-3525 | A request returns its allocation and its reference |
| `Segments.GreedyIsOptimal` | linux-2.6.35/block/blk-merge.c:118-170 | The greedy cut into scatter-list entries never makes more entries than any valid segmentation |
| `Segments.OpensMonotone` | linux-2.6.35/block/blk-merge.c:118-170 | Greedy stays ahead: starting from a smaller open segment it never needs more entries |
| `Segments.ExplainedBoundsMapping` | linux-2.6.35/block/blk-merge.c:118-170 | If some valid segmentation explains the recorded count and end sizes, the mapping has at most that many entries |
| `Segments.Beside` | linux-2.6.35/block/blk-merge.c:203-221 | Explanations of two stretches put side by side explain the sum of the counts |
| `Segments.Across` | linux-2.6.35/block/blk-merge.c:88-112 | Explanations joined across a contiguous seam explain one segment fewer, with the end sizes adjusted |
| `Segments.CountExplained` | linux-2.6.35/block/blk-merge.c:12-70 | A recount is explained by a valid segmentation with the recorded front and back sizes |
| `Segments.CutCovers` | linux-2.6.35/block/blk-merge.c:12-70 | Counting cuts the data into valid segments that cover it in order |
| `Segments.CutMeasures` | linux-2.6.35/block/blk-merge.c:12-70 | The number of segments counted and the sizes of the first and last are those of that cut |
| `Segments.Recalc` | linux-2.6.35/block/blk-merge.c:12-70 | The loop returns the count and the first and last segment sizes of the cut |
| `SegmentMerges.MappingFits` | linux-2.6.35/block/blk-merge.c:224-308 | For a request built by any history of back, front and request merges, accepted or refused, of bios with or without data, the mapping has at most `nr_phys_segments` entries, which is at most the queue limit, as long as no seam between requests is taken to be contiguous on behalf of a bio without data |
| `SegmentMerges.MergeFits` | linux-2.6.35/block/blk-merge.c:273-308 | Exactly when an accepted merge of two soundly counted requests fits: the seam is judged by data, or the counts had a segment to spare, or there is no data and the count that wrapped around to 65535 is within the limit |
| `SegmentMerges.JoinFits` | linux-2.6.35/block/blk-merge.c:359-430 | The same condition for the next merge of any two histories |
| `SegmentMerges.DatalessUndercounts` | linux-2.6.35/block/blk-merge.c:88-112 | Where a request without data is merged in front, the result fits exactly when the other one had a segment to spare, or there is no data at all and the limit is 65535 |
| `SegmentMerges.BuildOk` | linux-2.6.35/block/blk-merge.c:359-430 | Every such history keeps the explanation of the recorded counts |
| `SegmentMerges.BackMergeOk` | linux-2.6.35/block/blk-merge.c:224-246 | A back merge keeps it, and appends the bio's vectors exactly when it succeeds |
| `SegmentMerges.FrontMergeOk` | linux-2.6.35/block/blk-merge.c:248-271 | A front merge keeps it, and prepends the bio's vectors exactly when it succeeds |
| `SegmentMerges.MergedOk` | linux-2.6.35/block/blk-merge.c:273-308 | A merge of two requests at a seam judged by data keeps it and concatenates their vectors |
| `SegmentMerges.RefusedOk` | linux-2.6.35/block/blk-merge.c:273-308 | A merge refused there leaves both requests explained although it may have adjusted their end sizes |
| `SegmentMerges.MapSg` | linux-2.6.35/block/blk-merge.c:118-170 | The loop makes exactly the entries of the greedy cut |
| `SegmentMerges.Request.constructor` | linux-2.6.35/block/blk-core.c:2365-2380 | A request made from a bio records its count and sizes |
| `SegmentMerges.Request.NewSegments` | linux-2.6.35/block/blk-merge.c:203-221 | Segments are added only within the queue limit |
| `SegmentMerges.Request.BackMergeBio` | linux-2.6.35/block/blk-merge.c:224-246 | On the object: the back merge whose effect `SegmentMerges.BackMergeOk` states, accepted or refused |
| `SegmentMerges.Request.FrontMergeBio` | linux-2.6.35/block/blk-merge.c:248-271 | On the object: the front merge whose effect `SegmentMerges.FrontMergeOk` states, accepted or refused |
| `SegmentMerges.Request.MergeWith` | linux-2.6.35/block/blk-merge.c:273-308 | On the two objects: the merge whose effects `SegmentMerges.MergedOk` and `RefusedOk` state; a request merged away keeps no bio |
| `Completion.DropBytes` | linux-2.6.35/block/blk-core.c:2007-2055 | Completing n bytes leaves exactly the old byte stream without its first n bytes |
| `Completion.EndedInOrder` | linux-2.6.35/block/blk-core.c:134-162 | The bios ended are a prefix of the chain, in order and once each, told the error of this completion or that an earlier one failed; the rest of the chain stays |
| `Completion.EndedCovered` | linux-2.6.35/block/blk-core.c:2007-2055 | They are the bios wholly covered, and the first one left is not, unless it is empty |
| `Completion.SplitExactly` | linux-2.6.35/block/blk-core.c:1972-2102 | Completing in parts equals completing at once, for every split, exactly when no bio but the first is empty |
| `Completion.RequestSplit` | linux-2.6.35/block/blk-core.c:2056-2087 | For a request: same bios, length, endings and failfast bits, and a start sector that agrees exactly when the two remainders modulo 512 add up to less than a sector; for every split, exactly when no bio but the first is empty |
| `Completion.UpdateFinishes` | linux-2.6.35/block/blk-core.c:1960-1971 | When nothing is left: exactly when more bytes than remain were reported, or all of them and no bio without data ends a chain of several |
| `Completion.DropFinishes` | linux-2.6.35/block/blk-core.c:2007-2055 | The same for a chain of bios; an empty bio further in front is harmless |
| `Completion.EmptyTailStays` | linux-2.6.35/block/blk-core.c:1960-1971 | The documented promise fails for every bio with data followed by one without: reporting all bytes leaves the empty bio |
| `Completion.UpdateInv` | linux-2.6.35/block/blk-core.c:2056-2087 | A partial completion keeps the length equal to the bytes left and the failfast invariant |
| `Completion.BackMergeInv` | linux-2.6.35/block/blk-core.c:1209-1232 | A back merge appends the bytes and keeps the length and the failfast invariant, with or without data |
| `Completion.FrontMergeInv` | linux-2.6.35/block/blk-core.c:1234-1263 | A front merge prepends the bytes and keeps the length and the failfast invariant, with or without data |
| `Completion.MergeWithInv` | linux-2.6.35/block/blk-merge.c:388-415 | A merge of requests concatenates the bytes and keeps the length and the failfast invariant, with or without data |
| `Completion.BuildInv` | linux-2.6.35/block/blk-merge.c:319-338 | After every history of merges and partial completions the length is the sum of the bio sizes, and the first bio of a mixed request carries all failfast bits of the request |
| `Completion.EagerPrefix` | linux-2.6.35/block/blk-core.c:1722-1726 | What may fail together is the longest prefix of bios at least as eager to fail as the request |
| `Completion.ErrBytesPositive` | linux-2.6.35/block/blk-core.c:1728-1729 | While bytes remain there is something to fail, so the assertion holds, exactly when no less eager bio comes before the first one with data; so always when all bios carry data |
| `Completion.FailsWholeBios` | linux-2.6.35/block/blk-core.c:1707-1732 | Failing that much ends whole bios and stops exactly at the first less eager one |
| `Completion.FailLog` | linux-2.6.35/block/blk-core.c:2279-2284 | Each such failure tells the bios it ends about the error and makes the request strictly shorter |
| `CompletionLoops.Request.EndBio` | linux-2.6.35/block/blk-core.c:134-162 | Takes the bytes off the bio, clears its up-to-date flag on error, and tells its owner when none are left |
| `CompletionLoops.Request.Consume` | linux-2.6.35/block/blk-core.c:2007-2055 | The loop over bios and vectors stops at the place the byte-stream view prescribes |
| `CompletionLoops.Request.Update` | linux-2.6.35/block/blk-core.c:1972-2102 | Working on vectors, indices and counters has the effect of dropping bytes from the stream; the botched-request check never fires |
| `CompletionLoops.Request.ErrBytes` | linux-2.6.35/block/blk-core.c:1707-1732 | The loop sums the longest eager prefix; positive while bytes remain, under the same condition |
| `CompletionLoops.Request.SetMixed` | linux-2.6.35/block/blk-merge.c:319-338 | The loop gives every bio the request's failfast bits |
| `CompletionLoops.Request.BackMergeBio` | linux-2.6.35/block/blk-core.c:1219-1225 | On the object: the back merge that `Completion.BackMergeInv` shows to append the bytes |
| `CompletionLoops.Request.FrontMergeBio` | linux-2.6.35/block/blk-core.c:1242-1260 | On the object: the front merge that `Completion.FrontMergeInv` shows to prepend the bytes, taking the front bio's failfast bits as the request's |
| `CompletionLoops.Request.Absorb` | linux-2.6.35/block/blk-merge.c:388-430 | On the two objects: the merge that `Completion.MergeWithInv` shows to concatenate the bytes; the absorbed request keeps no bio |
| `CompletionLoops.Request.FailAll` | linux-2.6.35/block/blk-core.c:2279-2284 | Failing a request over and over ends, and every bio is told about the error once, in order |
| `DeadlineRuns.WritesNotStarved` | linux-2.6.35/block/deadline-iosched.c:228-327 | An expired write with k writes in front of it in its FIFO is dispatched within (k + 1) * ((writes_starved + 1) * max(1, fifo_batch) + 1) dispatch calls, whatever is added, merged or served meanwhile, unless a merge absorbs it |
| `DeadlineRuns.ServeWaits` | linux-2.6.35/block/deadline-iosched.c:245-327 | Each dispatch call serves an expired write at the head of its FIFO or uses up credit |
| `DeadlineRuns.ServeAdvances` | linux-2.6.35/block/deadline-iosched.c:245-327 | Each dispatch call takes an expired write out, moves it forward in its FIFO, or uses up credit |
| `DeadlineRuns.StepWaits` | linux-2.6.35/block/deadline-iosched.c:101-222 | No addition and no merge moves an expired write back or uses up credit |
| `DeadlineRuns.RunInv` | linux-2.6.35/block/deadline-iosched.c:77-222 | In every reachable state each direction's FIFO and sort order hold the same requests, the FIFO is ordered by expiry, `next_rq` is queued in its own direction with at most one set, `nr_sorted` is the total queued, and a dispatched request is dispatched once and queued nowhere |
| `DeadlineRuns.DrainEmpties` | linux-2.6.35/block/elevator.c:570-582 | Forced draining empties the scheduler and dispatches each queued request exactly once |
| `DeadlineRuns.DispatchMoves` | linux-2.6.35/block/deadline-iosched.c:245-327 | A dispatch call moves one queued request, unless none is queued |
| `DeadlineSteps.AddInv` | linux-2.6.35/block/deadline-iosched.c:101-113 | Adding a request keeps the invariant, also when an alias at the same sector is dispatched first |
| `DeadlineSteps.FrontMergedInv` | linux-2.6.35/block/deadline-iosched.c:156-168 | Repositioning after a front merge keeps it |
| `DeadlineSteps.MergedInv` | linux-2.6.35/block/deadline-iosched.c:171-189 | Merging two queued requests keeps it, expiry inherited with its place |
| `DeadlineSteps.FrontAbsorbedInv` | linux-2.6.35/block/deadline-iosched.c:171-189 | The same when the absorbed request had just been moved down by a bio in front of it |
| `DeadlineSteps.MoveInv` | linux-2.6.35/block/deadline-iosched.c:207-222 | Moving a request to the dispatch queue keeps it |
| `DeadlineSteps.DispatchInv` | linux-2.6.35/block/deadline-iosched.c:245-327 | A dispatch call keeps it |
| `DeadlineQueue.DeadlineData.constructor` | linux-2.6.35/block/deadline-iosched.c:350-370 | A new scheduler is empty and satisfies the invariant |
| `DeadlineQueue.DeadlineData.RbAdd` | linux-2.6.35/block/elevator.c:356-377 | Finds the request at the same sector, or inserts at the sorted place |
| `DeadlineQueue.DeadlineData.AddRqRb` | linux-2.6.35/block/deadline-iosched.c:77-84 | The loop ends after at most one alias, which goes to the dispatch queue |
| `DeadlineQueue.DeadlineData.MoveRequest` | linux-2.6.35/block/deadline-iosched.c:207-222 | On the object: the request leaves FIFO and sort order for the dispatch queue, and the batch goes on behind it |
| `DeadlineQueue.DeadlineData.AddRequest` | linux-2.6.35/block/deadline-iosched.c:101-113 | On the object: the add of `DeadlineSteps.AddInv`, expiring `fifo_expire` from now |
| `DeadlineQueue.DeadlineData.MergedRequest` | linux-2.6.35/block/deadline-iosched.c:156-168 | On the object: the repositioning of `DeadlineSteps.FrontMergedInv` |
| `DeadlineQueue.DeadlineData.MergedRequests` | linux-2.6.35/block/deadline-iosched.c:171-189 | On the object: the merge of `DeadlineSteps.FrontAbsorbedInv`, with the count of `elv_merge_requests` |
| `DeadlineQueue.DeadlineData.DispatchRequests` | linux-2.6.35/block/deadline-iosched.c:245-327 | On the object: batches, expiry and starvation limit as in `DeadlineRuns.ServeWaits`; it reports a move exactly when something was queued |
| `DeadlineQueue.DeadlineData.DrainElevator` | linux-2.6.35/block/elevator.c:570-582 | The loop ends with `nr_sorted` 0, so the complaint about broken forced dispatching is never made |
| `Tags.TagsAgree` | linux-2.6.35/block/blk-tag.c:282-384 | Over any run of start, end, requeue, resize and invalidate: a tag bit is set exactly when a request carries that tag, live tags are distinct and below the real depth |
| `Tags.ResizeInv` | linux-2.6.35/block/blk-tag.c:220-265 | A resize keeps all tags in flight; a grow of an unshared map with memory available cannot do so exactly when twice the number of requests is below the old real depth |
| `Tags.ChoiceIs` | linux-2.6.35/block/blk-tag.c:350-374 | A request is refused exactly when asynchronous requests flood the queue or all tags open to it are taken; otherwise it gets the lowest free one |
| `Tags.StartInv` | linux-2.6.35/block/blk-tag.c:337-384 | Starting a request keeps bitmap, table and busy list in agreement |
| `Tags.EndInv` | linux-2.6.35/block/blk-tag.c:282-316 | Ending a tag finds it set and in its slot, so none of the complaints is printed, and keeps the agreement |
| `Tags.RequeueInv` | linux-2.6.35/block/blk-core.c:978-990 | Requeueing a tagged request keeps the agreement |
| `Tags.InvalidateIs` | linux-2.6.35/block/blk-tag.c:399-405 | With no ordered sequence active, exactly the tags of the queue are freed, and its dispatch list is the formerly tagged requests followed by the old list |
| `Tags.StartOrder` | linux-2.6.35/block/blk-tag.c:381-382 | Those requests come back in the order they were started |
| `TagQueue.TagMap.constructor` | linux-2.6.35/block/blk-tag.c:108-138 | A new map has the requested depth, clipped to twice the number of requests, and no tag |
| `TagQueue.TagMap.FindFirstZero` | linux-2.6.35/block/blk-tag.c:366-370 | The search returns the lowest free tag below the limit |
| `TagQueue.TagMap.PickTag` | linux-2.6.35/block/blk-tag.c:350-374 | The limit for asynchronous requests and the search give the model's choice |
| `TagQueue.TagMap.StartTag` | linux-2.6.35/block/blk-tag.c:337-384 | On the arrays: bit, slot and busy list are set for the tag of `Tags.ChoiceIs`; a refusal changes nothing |
| `TagQueue.TagMap.EndTag` | linux-2.6.35/block/blk-tag.c:282-316 | On the arrays: bit, slot and busy list forget the request, and no complaint is printed |
| `TagQueue.TagMap.ResizeTags` | linux-2.6.35/block/blk-tag.c:220-265 | Replaces the arrays as `Tags.ResizeInv` states, with the error codes for a shared map and for missing memory, and stops exactly where the copy would overrun the clipped arrays |
| `TagQueue.TagMap.Enlarge` | linux-2.6.35/block/blk-tag.c:255-262 | The new arrays begin with the old contents and are free after them |
| `TagQueue.TagMap.RequeueRequest` | linux-2.6.35/block/blk-core.c:978-990 | On the arrays: the tag is freed and the request leads the dispatch list |
| `TagQueue.TagMap.InvalidateTags` | linux-2.6.35/block/blk-tag.c:399-405 | The loop over the busy list has the effect stated by `Tags.InvalidateIs` |
| `ScrubPlan.StaggeredExactly` | linux-2.6.35/block/scrub_core.c:425-484 | The staggered plan verifies exactly the sectors of the range if and only if a segment is no larger than the end of the range, or the range starts at 0 and fits one region |
| `ScrubPlan.StaggeredOnce` | linux-2.6.35/block/scrub_core.c:425-484 | With such segments every sector is verified once if and only if the segment size divides the region size or there is one region |
| `ScrubPlan.SequentialExactly` | linux-2.6.35/block/scrub_core.c:346-403 | The sequential plan verifies exactly the range, each sector once, if and only if a segment is no larger than the end of the range or the range starts at 0 |
| `ScrubPlan.SameSectors` | linux-2.6.35/block/scrub_core.c:346-484 | Whenever a segment is no larger than the end of the range, both plans verify the same sectors |
| `ScrubPlan.PosIs` | linux-2.6.35/block/scrub_core.c:462-463 | No segment position wraps around in 64 bits |
| `ScrubPlan.CeilIs` | linux-2.6.35/block/scrub_core.c:328-344 | The rounded-up quotient counts the parts needed to fill the whole |
| `ScrubPlan.Twice` | linux-2.6.35/block/scrub_core.c:425-484 | Where segments do not tile the regions the first sector of the second region is verified at least twice |
| `ScrubCommands.ScrubVerifies` | linux-2.6.35/block/scrub_core.c:154-206 | With such segments and 32-bit addresses, the sector ranges decoded from the commands of a staggered scrub cover exactly the range, the same as those of a sequential scrub, and each sector once where segments tile the regions |
| `ScrubCommands.CommandsCover` | linux-2.6.35/block/scrub_core.c:154-206 | Splitting, encoding and decoding neither lose nor add a sector, for every plan within 32-bit addresses |
| `ScrubCommands.DecodeEncode` | linux-2.6.35/block/scsi_ioctl.c:511-519 | Decoding an encoded VERIFY (10) command gives back address and length up to their width |
| `ScrubCommands.PiecesCover` | linux-2.6.35/block/scrub_core.c:154-206 | The pieces of a job cover it once and are at most 65535 sectors each |
| `ScrubCommands.SeqScrub` | linux-2.6.35/block/scrub_core.c:346-403 | The loop hands out the sequential plan, or its first bound + 1 jobs |
| `ScrubCommands.StgScrub` | linux-2.6.35/block/scrub_core.c:425-484 | The nested loops hand out the staggered plan, or its first bound + 1 jobs |
| `ScrubCommands.SegmentLength` | linux-2.6.35/block/scrub_core.c:375-382 | How much to verify at a position; never nothing |
| `ScrubCommands.CeilDiv` | linux-2.6.35/block/scrub_core.c:328-344 | The least number of parts that fill the whole |
| `ScrubCommands.RunJob` | linux-2.6.35/block/scrub_core.c:154-206 | The worker's loop issues the commands of the pieces in order |
| `ScrubCommands.Setup` | linux-2.6.35/block/scrub_core.c:549-557 | The range never passes the device, has the requested size where that fits, and kilobytes become sectors |
| `ScrubWorkers.IdleWorkers` | linux-2.6.35/block/scrub_core.c:110-113 | In every interleaving of the dispatcher with any number of workers: idle workers = available + reserved by the dispatcher + marked idle but not counted; so `available` is never negative and a looking dispatcher has an idle worker to find |
| `ScrubWorkers.StepInv` | linux-2.6.35/block/scrub_core.c:215-219 | Every step of dispatcher or worker keeps that equation |
| `ScrubWorkers.SearchEnds` | linux-2.6.35/block/scrub_core.c:300-302 | Whatever the workers do meanwhile, a ring search passes fewer workers than there are before it picks one |
| `ScrubWorkers.RingSearch` | linux-2.6.35/block/scrub_core.c:300-302 | The loop ends at the first idle worker |
| `CfqChoose.StrictOrder` | linux-2.6.35/block/cfq-iosched.c:631-717 | The order behind the choice is strict, transitive and total on requests that differ in class or sector |
| `CfqChoose.ChooseIsLeast` | linux-2.6.35/block/cfq-iosched.c:631-717 | The choice is the smaller of the two in that order |
| `CfqChoose.FindNextIsScan` | linux-2.6.35/block/cfq-iosched.c:765-787 | Looking at successor (or first, on wrap) and predecessor finds what a scan of the whole queue would, exactly when nothing else is of a better class than two neighbours of one class, or comes before the neighbour of the better class; so always within one class |
| `CfqChoose.BetterClassMissed` | linux-2.6.35/block/cfq-iosched.c:765-787 | A queue in which a sync request further away is missed |
| `MergeHash.HashAgrees` | linux-2.6.35/block/elevator.c:305-350 | After any history of insertions, merges, refusals, dispatches and lookups every hashed request is in the bucket of its current end sector, every mergeable one is hashed, and `last_merge` is null or in the elevator |
| `MergeHash.FindIsScan` | linux-2.6.35/block/elevator.c:330-350 | The lookup finds a mergeable request ending at a sector exactly when a scan would, and drops only what can no longer be merged |
| `MergeHash.InsertInv` | linux-2.6.35/block/elevator.c:654-670 | Insertion keeps the agreement |
| `MergeHash.RepositionInv` | linux-2.6.35/block/elevator.c:516-527 | A back merge keeps it |
| `MergeHash.FrontMergeInv` | linux-2.6.35/block/elevator.c:516-527 | A front merge keeps it without rehashing |
| `MergeHash.AbsorbInv` | linux-2.6.35/block/elevator.c:529-542 | A merge of requests keeps it |
| `MergeHash.NoMergeInv` | linux-2.6.35/block/blk-merge.c:208-213 | Refusing further merges keeps it |
| `MergeHash.DropInv` | linux-2.6.35/block/elevator.c:457-469 | Dispatch keeps it |
| `MergeTable.Elevator.constructor` | linux-2.6.35/block/elevator.c:201-229 | A new elevator has empty lists and satisfies the invariant |
| `MergeTable.Elevator.RqhashDel` | linux-2.6.35/block/elevator.c:305-314 | Unlinks the request from whichever list it is on |
| `MergeTable.Elevator.RqhashAdd` | linux-2.6.35/block/elevator.c:316-322 | Links an unhashed request at the head of the list of its end sector |
| `MergeTable.Elevator.InsertSort` | linux-2.6.35/block/elevator.c:654-670 | On the table: the insertion of `MergeHash.InsertInv` |
| `MergeTable.Elevator.BackMerged` | linux-2.6.35/block/elevator.c:516-527 | On the table: the request moves to the bucket of its new end |
| `MergeTable.Elevator.FrontMerged` | linux-2.6.35/block/elevator.c:516-527 | No bucket changes, because the end sector does not |
| `MergeTable.Elevator.MergeRequests` | linux-2.6.35/block/elevator.c:529-542 | On the table: one request moves to the bucket of its new end, the other leaves, `last_merge` is the first |
| `MergeTable.Elevator.DispatchRequest` | linux-2.6.35/block/elevator.c:457-469 | On the table: the request leaves and `last_merge` does not name it afterwards |
| `MergeTable.Elevator.RqhashFind` | linux-2.6.35/block/elevator.c:330-350 | The loop, unlinking on the way, has the result and effect of the model's lookup |
| `Spawns.Registry.RemoveSpawns` | linux-2.6.35/crypto/algapi.c:132-179 | Exactly the instances transitively built on the selected users, except the replacement, those on the path to it and those built on it, lose their pointer, die and (if registered) leave; all other pointers and lists are as before, a kept spawn in front of its list; and lists and pointers agree again |
| `Spawns.StillWellFormed` | linux-2.6.35/crypto/algapi.c:132-179 | What is left is again a consistent dependency tree, whatever is replaced next |
| `Spawns.SettledMembers` | linux-2.6.35/crypto/algapi.c:173-178 | Which users end on the list of each algorithm |
| `Spawns.PushInv` | linux-2.6.35/crypto/algapi.c:154-169 | Detaching the next spawn keeps the walk invariant |
| `Spawns.PopInv` | linux-2.6.35/crypto/algapi.c:85-106 | Finishing a spawn keeps it, restoring the pointer below when the finished one is kept |
| `Spawns.NextSpawn` | linux-2.6.35/crypto/algapi.c:158-163 | What the walk finds next is unvisited, below the cursor, and never the replaced algorithm itself |
| `Spawns.AllVisited` | linux-2.6.35/crypto/algapi.c:151-171 | When the walk ends every instance below the selected users has been visited |
| `Spawns.RemovedIsUnused` | linux-2.6.35/crypto/algapi.c:129-129 | A removed instance has no user left, so the assertion holds |
| `Spawns.Registry.constructor` | linux-2.6.35/crypto/algapi.c:181-230 | Algorithms built on nothing form a consistent tree |
| `Spawns.Registry.InitSpawn` | linux-2.6.35/crypto/algapi.c:521-538 | A new instance goes in front of the users of a live algorithm, and the dependencies stay a consistent tree; a dead one is refused |
| `Spawns.SpawnTree` | linux-2.6.35/crypto/algapi.c:521-538 | Putting a new instance on top of any algorithm keeps the tree consistent |
| `Spawns.Registry.SelectUsers` | linux-2.6.35/crypto/algapi.c:143-149 | The loop moves exactly the users whose mask matches and leaves the others in order |
| `Spawns.Registry.MoreSpawns` | linux-2.6.35/crypto/algapi.c:85-106 | Finishes the top of the stack, and the list it names is that of the cursor: never below the replacement, none when the walk is over |
| `Spawns.Registry.WalkTree` | linux-2.6.35/crypto/algapi.c:151-171 | The nested loops end, keeping the walk invariant |
| `Spawns.Registry.RemoveSpawn` | linux-2.6.35/crypto/algapi.c:108-130 | A live instance dies; a registered one with a pinned template moves to the removal list |
| `Spawns.Registry.Finish` | linux-2.6.35/crypto/algapi.c:173-178 | The loop restores what is kept and removes the rest |
| `Cbc.RoundTrip` | linux-2.6.35/crypto/cbc.c:42-167 | For any inverse pair of block functions decryption inverts encryption at every length of whole blocks |
| `Cbc.EncChunks` | linux-2.6.35/crypto/cbc.c:90-112 | Encrypting a block-aligned part and then the rest with the carried chaining value equals one pass |
| `Cbc.DecChunks` | linux-2.6.35/crypto/cbc.c:169-191 | The same for decryption |
| `CbcLoops.XorInto` | linux-2.6.35/crypto/algapi.c:898-907 | Words and then bytes: the bytewise exclusive or of the two ranges, nothing else changed |
| `CbcLoops.XorBytes` | linux-2.6.35/crypto/algapi.c:892-896 | Each byte of the first range is the exclusive or of the two old bytes, nothing else changed |
| `CbcLoops.EncryptSegment` | linux-2.6.35/crypto/cbc.c:42-64 | Writes the CBC encryption of all whole blocks, returns the bytes left over, leaves the chaining value for the next call |
| `CbcLoops.EncryptInPlace` | linux-2.6.35/crypto/cbc.c:66-88 | The same result in place |
| `CbcLoops.DecryptSegment` | linux-2.6.35/crypto/cbc.c:114-138 | Writes the CBC decryption of all whole blocks, returns the bytes left over, leaves the last cipher block as chaining value |
| `CbcLoops.DecryptInPlace` | linux-2.6.35/crypto/cbc.c:140-167 | The same result in place, running backwards |
| `CbcLoops.EncWhole` | linux-2.6.35/crypto/cbc.c:60-63 | Bytes behind the last whole block have no influence on what a call encrypts |
| `CbcLoops.DecWhole` | linux-2.6.35/crypto/cbc.c:134-137 | The same for decryption |
| `CbcLoops.CbcEncrypt` | linux-2.6.35/crypto/cbc.c:90-112 | Whatever chunks of a block or more the walk offers, the bytes that fill no block being offered again, in place or not: the message is encrypted as in one pass and its last cipher block is left as chaining value |
| `CbcLoops.CbcDecrypt` | linux-2.6.35/crypto/cbc.c:169-191 | The same for decryption, leaving the last cipher block of the message |

## Left out

- Timers, plugging, statistics, RCU, sysfs and the memory model: locks are taken as given, so each model step is one critical section.
- Merging inside the barrier model: requests are only merged within the scheduler, never across a barrier; merging is modelled in `SegmentMerges`, `Completion`, `Deadline` and `MergeHash`.
- The red-black trees: the sort order of a scheduler is a strictly ascending list; `rb_next`, `rb_prev` and `rb_first` are its neighbours.
- Queue abort and the error returns of `blk_peek_request` (preparation functions of drivers).
- CFQ group moves, asynchronous and out-of-memory queues, service trees and time slices: the chain model covers the sync queue of each io context.
- Jiffies wrap-around: expiry times are unbounded integers. `writes_starved` and `fifo_batch` are non-negative, as the unsigned comparisons need.
- Abort of a scrub by state 2, `fixedscrub`, response times, and exactly-once execution of jobs by workers.
- A start beyond the end of the device, where the staggered plan computes a negative size, and sizes so large that 64-bit arithmetic wraps; `ScrubPlan.Fits` states the bounds.
- Discard bios whose size is not backed by vectors, whose partial completion takes the error exit of the loop, and the start sector kept in each bio.
- The barrier proxy `bar_rq` in `req_bio_endio`, which records errors instead of ending bios.
- Bidirectional requests and the freeing of finished requests.
- Padding and drain entries of scatter lists, and the integrity and bounce paths of merging.
- Tag maps without a queue (`blk_init_tags`) and the release of maps.
- Instances with several spawns, for which the dependencies are no tree.
- AES tables, key setup, and the scatter-list walk of the cipher API; chunk sizes are a parameter. Block sizes are any positive number, where the code masks with the block size less one and takes powers of two only (`crypto/cbc.c`, line 230).
- The rest of the repository (other schedulers, cgroups, tools, user-space scripts): it would only add easy members.
- TagQueue.TagMap.ResizeTags: says nothing about the memory a copy overruns; it stops there.
- SegmentMerges.MappingFits: needs seams judged by data, a condition that `SegmentMerges.JoinFits` shows to be exact for the next merge; what later merges make of a request that is already miscounted is not followed.
- ScrubCommands.ScrubVerifies: is about segments no larger than the end of the range; `ScrubPlan.StaggeredExactly` and `ScrubPlan.SequentialExactly` give the exact conditions.
- BarrierSafety.BarrierSequences: has a condition on submissions for the draining modes and, once a barrier is empty, for ordering by tag; `BarrierLimits.ColorConfusion` and `BarrierLimits.TagConfusion` show it to be needed for every submission it excludes.
- BarrierProgress.NeverStalls: has conditions on submissions and requeues, each shown to be needed in `BarrierStalls`; that the driver goes on asking and completing, so that the barrier does end, is up to the driver.
