# FLIME guest transport: a verified model

This project models the guest side of the FLIME Vulkan transport and proves what it is for: that
packing calls into batches is invisible to the host, that no command slips past the recorded stream
while descriptor updates are suppressed, that the submission gate never lets two submissions or a
submission and a descriptor lifecycle hold a device at once, that the indexes over devices, queues
and command buffers never disagree, and that the serialized-size calculator adds what it should. For each
operation it also proves exactly when it takes which way, in the program's own numbers.

## How the model is organised

| file | what it holds |
|---|---|
| `GuestTypes.dfy` | handles, frozen calls, function-number classes, the fate of a physical request |
| `ClusterCodec.dfy`, `ClusterProofs.dfy` | the clustered-call envelope as packed by the guest, as checked and unpacked by the host, and the round trip between them |
| `Wire.dfy` | the cluster, the wire, the log of calls the transport took responsibility for, and the ordering law that ties the three together |
| `GuestState.dfy`, `CommandOps.dfy`, `RegistryOps.dfy`, `SubmitOps.dfy` | the state behind the guest mutex and the specification of every critical section, as functions from world to world |
| `Evolution.dfy`, `RegistryProofs.dfy`, `SubmitProofs.dfy` | what each critical section keeps |
| `Machine.dfy` | runs: any sequence of critical sections, by any threads, over any network |
| `Batching.dfy` | the side-by-side run with a transport that never batches, and exactly when the two part |
| `Marks.dfy`, `Ledger.dfy`, `LedgerRun.dfy` | the one-shot write marks; the recorded stream in step with what is sent, write by write and over whole runs |
| `Lifecycle.dfy`, `History.dfy` | one command buffer over a whole run: flags and generation as functions of its history |
| `SubmitGate.dfy`, `GateSystem.dfy` | the gate as a protocol between threads, with waiting, waking and notifications |
| `TeardownOnce.dfy` | how often a device's teardown packet goes out, over any run and under the gate |
| `Guest.dfy` | class `Transport`: the same critical sections in the program's own form, with its loops, field by field, each proved equal to its specification |
| `Fates.dfy` | what becomes of a request and of a device with it, in terms of the network's answers |
| `BatchExactly.dfy`, `SubmitExactly.dfy`, `CompletionExactly.dfy`, `RegistryExactly.dfy` | exactly when each operation batches, records, routes, drains, blocks or fails, and exactly what it leaves, in the program's own numbers |
| `BindWords.dfy` | the words recorded for a descriptor bind |
| `Counting.dfy`, `NestedCount.dfy`, `CountExactly.dfy` | the size counters as accumulating methods, their pure sizes, what extensions nested anywhere add to them, and the totals in bytes |
| `Encoding.dfy` | how far encoding moves its pointer and how far its writes reach, compared with what the counters reserve |

The network decides the fate of every physical request: refused locally, lost, delivered but not
acknowledged, or delivered and acknowledged. `wire` is what reached the host; `log` is what an
unbatched transport would have issued. What the transport learns from the route planner, the learning
protocol, the descriptor shadow and the host's replies enters as a parameter (`RouteView`,
`SubmitView`, `AfterView`): a reply to a capability, interval, period or report request may ask for
Legacy, and the theorems hold whether it does or not. "Left out" names what a reply can say besides.

## What was found

- A flush that reaches the host but is not acknowledged keeps the cluster, and the next flush sends
  it again. `Wire.ExactIffAcknowledged` says exactly when the host has run more than the log,
  `Batching.ReplayedExactly` which two flushes make it run a cluster twice, and `Batching.Replayed`
  is the shortest such run.
- The first call of a cluster may come with a negative descriptor (`Batching.StuckReached`), and such
  a cluster can never be flushed (`Batching.FlushExactly`, `Batching.Wedged`). A call like that, or
  one the batch rejects, is where batching becomes visible, and nowhere else:
  `Batching.BatchingInvisible`.
- A teardown packet that is delivered but not acknowledged goes out again when the driver asks again
  (`TeardownOnce.SentAgain`, `TeardownOnce.TornTwice`), and a submission after an acknowledged one
  opens a session that is torn down again (`TeardownOnce.TornRevived`). Otherwise there is one.
- A stale specialized token clears whatever submission is active on its device. The gate never
  produces one (`GateSystem.StepsOk`); `SubmitProofs.StaleTokenExactly` says which tokens are safe.
- The byte limit of a recorded stream is checked by a subtraction that wraps, so it holds exactly
  for calls within the limit: `Ledger.LimitHoldsExactly`, with an accepted oversized call in
  `Ledger.LimitMissed`.
- A handle that is freed and registered again starts at generation 1, so a pair captured before
  matches again after as many begins and resets as it had seen: `History.MatchesExactly`,
  `History.StaleReturns`.
- Handle arrays are sized with 32-bit products, and the encoder moves by the same ones, so count and
  pointer agree for every length (`Encoding.EncodeSubmit`, `Encoding.WriteExactWithBit`). What is
  written can still reach past them from 2^29 handles on; `Encoding.SubmitContained` and
  `Encoding.WriteContained` say exactly when, and `Encoding.SubmitSpills` is the shortest case.
- The length of a shader entry point is 64-bit when counted and 32-bit when encoded; the two agree
  exactly for names that fit: `Encoding.PipelineExactly`.
- The comments around the dispatch hooks describe planning boundaries, but the predicate that finds
  them always answers no (`code/guest/express_vk_flime_guest_core.cpp:4916-4929`). The model takes
  its answer as a parameter, so the handoff is proved for both.

## Model

| member | source | states |
|---|---|---|
| ClusterProofs.ParamRoundTrip | code/guest/express_vk_flime_guest_core.cpp:5986-6002 | the length and payload offset written for a parameter are in bounds and canonical, and the host reads the same parameter back from them |
| ClusterProofs.RecordRoundTrip | code/host/hw/teleport-express/express_cluster_preflight.c:54-233 | a packed record passes every host check and decodes to the call that was packed, null pointers and empty parameter lists included |
| ClusterProofs.StreamKept | code/host/hw/teleport-express/express_device_ctrl.c:90-322 | appending to a valid stream over a longer payload leaves every earlier call as it was, in front of what was added |
| ClusterProofs.ExtendAppends | code/guest/express_vk_flime_guest_core.cpp:5980-6015 | appending a call to a cluster keeps all its limits and adds exactly that call, last, to what the host will run |
| ClusterProofs.EnvelopeAccepted | code/host/hw/teleport-express/express_cluster_preflight.c:54-233 | corollary of the cluster invariant: every cluster of clusterable calls passes the whole host preflight |
| Wire.FlushKeeps | code/guest/express_vk_flime_guest_core.cpp:478-498 | a flush keeps the ordering law on any network; it empties the cluster if it succeeds and leaves it as it was if it fails |
| Wire.AppendKeeps | code/guest/express_vk_flime_guest_core.cpp:5821-6015 | an append, including the drain or direct send it may need, keeps the ordering law and on success makes its call the newest of the history; when it needs one is BatchExactly.AppendExactly |
| Wire.DrainThenSingleKeeps | code/guest/express_vk_flime_guest.cpp:85-100 | a direct write goes out over an empty cluster only, so it never overtakes a pending call |
| BatchExactly.AppendExactly | code/guest/express_vk_flime_guest_core.cpp:5945-6015 | a well-formed call makes no request exactly if nothing is pending or the pending calls are on its descriptor, fewer than 64, and its record and payload stay within 65536 and 1048576 bytes; then the pending calls grow by it, and otherwise one flush decides whether it is alone in the batch or refused with nothing lost |
| BatchExactly.AppendOtherwise | code/guest/express_vk_flime_guest_core.cpp:5830-5943 | any other call is refused unchanged exactly if it is unframed, not the GPU's, numbered beyond 24 bits or of an impossible length, and else goes out on its own |
| BatchExactly.PreflightMeans | code/host/hw/teleport-express/express_cluster_preflight.c:54-233 | an envelope the host lets in is within 1 MiB, holds only unflagged GPU calls of at most 32 parameters that are no control functions, and a route neither next to a submit nor beyond the guest's limits |
| BatchExactly.RecordMeans | code/host/hw/teleport-express/express_cluster_preflight.c:54-233 | the fields, the end and the place of each parameter that the host demands of one record |
| Wire.ExactIffAcknowledged | code/guest/express_vk_flime_guest_core.cpp:478-492 | the host ran the history and nothing more, pending calls aside, if and only if every envelope that reached it was acknowledged |
| Evolution.AppendLaid | code/guest/express_vk_flime_guest_core.cpp:620-651 | a recorded call lies right behind the earlier ones, and the stream's byte and dispatch totals stay those of its calls |
| Evolution.WriteQuiet | code/guest/express_vk_flime_guest.cpp:19-101 | an ordinary write, however it fails, keeps the ordering law, every index, every buffer and every reservation |
| Evolution.WriteCommandQuiet | code/guest/express_vk_flime_guest.cpp:103-230 | the same for a command write, including its drains and its fallback |
| Evolution.DrainUpToQuiet | code/guest/express_vk_flime_guest_core.cpp:6060-6078 | draining the early routes of all devices, stopped at any failure, keeps them too |
| RegistryProofs.EnlistCoherent | code/guest/express_vk_flime_guest.cpp:338-369 | registering a batch, duplicates or bad handles included, keeps the three command indexes in agreement |
| RegistryProofs.RemoveCoherent | code/guest/express_vk_flime_guest.cpp:371-413 | removing any set of a device's buffers removes them from every index and disturbs no other entry |
| RegistryProofs.DestroyCoherent | code/guest/express_vk_flime_guest_core.cpp:5700-5734 | destroying a device removes exactly its entries from the global indexes and leaves no orphan |
| RegistryProofs.RenewCoherent | code/guest/express_vk_flime_guest.cpp:415-513 | a begin or reset changes a buffer's generation and its stream's together, never to zero |
| RegistryExactly.RegisterExactly | code/guest/express_vk_flime_guest.cpp:241-265 | the whole device after a registration on every branch and every answer to the capability request |
| RegistryExactly.QueueExactly | code/guest/express_vk_flime_guest.cpp:314-336 | a queue joins its device exactly if it is no other's, which fails the device |
| RegistryExactly.SecondQueue | code/guest/express_vk_flime_guest.cpp:314-336 | a second queue has a route that is out drained, or does not join |
| RegistryExactly.BatchFails | code/guest/express_vk_flime_guest.cpp:347-368 | a batch fails its device exactly on a null or registered handle, and else every buffer in it starts at generation 1 |
| RegistryExactly.FreeFails | code/guest/express_vk_flime_guest.cpp:371-395 | a free fails a specialized device exactly on a handle not in the pool or named twice |
| RegistryExactly.FreeFlushes | code/guest/express_vk_flime_guest.cpp:371-413 | freeing and pool destruction send what is pending first |
| RegistryExactly.EndWithoutBegin | code/guest/express_vk_flime_guest.cpp:463-475 | an end without a begin fails a specialized device and does nothing else |
| RegistryExactly.EndExactly | code/guest/express_vk_flime_guest.cpp:463-486 | one that closes a begin makes the buffer executable and fails the device only if advancing its route does |
| RegistryExactly.TeardownExactly | code/guest/express_vk_flime_guest.cpp:267-297 | with no route out, a teardown goes through exactly if the flush and the packet of an open session are acknowledged; the whole device afterwards |
| Machine.RunGood | code/guest/express_vk_flime_guest.cpp:19-513 | after every run on any network: what the host ran, replays aside, followed by what is pending is the history; every envelope passes the host preflight; all indexes agree; every recorded stream is laid out; every reservation is in a proper mode, every early route still guarded, and every negotiated device exposed |
| Machine.EarlyRouteGuarded | code/guest/express_vk_flime_guest_core.cpp:4931-5057 | in every run the guard under which a route was sent ahead of its submission still holds until the route is completed or drained, or the device has failed |
| Fates.FlimeFate | code/guest/express_vk_flime_guest_core.cpp:500-526 | the outcome, log and request count of a request behind its drain, from the network's answers |
| Fates.FallbackExactly | code/guest/express_vk_flime_guest_core.cpp:4492-4549 | specialization is left exactly if the device is suppressing (negotiated, and in Learn, Match, Fast or Recover), unreserved and has a number and both drain and request are acknowledged; the whole device afterwards |
| Fates.AdvanceReleases | code/guest/express_vk_flime_guest_core.cpp:4931-5057 | a route is sent ahead exactly if the device is unfailed and unreserved in Fast with its one queue, the buffer is executable and not recording, the planner is ready, a number is left, and announcement and records are acknowledged and taken; the whole device and log afterwards |
| Fates.AdvanceOtherwise | code/guest/express_vk_flime_guest_core.cpp:4931-5057 | and if not: nothing at all without guard, plan or number; Legacy or failure, and no route on the log, for an unclassified command; Legacy or failure for a request gone wrong |
| Machine.OneOwner | code/guest/express_vk_flime_guest.cpp:314-413 | corollary of RunGood: a handle is in the global index exactly when it has a stream and exactly when some device owns it, and no handle has two owners; queues likewise |
| Machine.OnlyClusterableBatched | code/guest/express_vk_flime_guest.cpp:208-225 | in every run nothing but clusterable commands is ever batched; BatchExactly.RunNumbers says which numbers these are |
| Batching.BatchingInvisible | code/guest/express_vk_flime_guest.cpp:28-100 | over a network that acknowledges everything, from the start: after every one of the first n events the guest's state is the one it would have without batching, what the host ran plus what is pending is what an unbatched host would have run, and so is what it ran once drained, if and only if none of these events hands the batch a call it rejects or, to be batched, one on a negative descriptor |
| Batching.StepDiffers | code/guest/express_vk_flime_guest_core.cpp:5830-5943 | right after an event that does, the batched host, even when drained, has run less than the unbatched one |
| Batching.CanonicInvisible | code/guest/express_vk_flime_guest.cpp:28-100 | well-formed clusterable calls on usable descriptors never show |
| Batching.FlushExactly | code/guest/express_vk_flime_guest_core.cpp:478-498 | over a network that acknowledges everything a flush succeeds exactly unless something is pending on a negative descriptor |
| Batching.StuckReached | code/guest/express_vk_flime_guest_core.cpp:5945-5981 | the first call batched gets the cluster stuck exactly if its descriptor is negative, and the append answers that all is well |
| Batching.ReplayedExactly | code/guest/express_vk_flime_guest_core.cpp:478-492 | two flushes make the host run the pending calls twice exactly if the first was delivered without an acknowledgement and the second was delivered |
| Batching.Replayed | code/guest/express_vk_flime_guest_core.cpp:478-492 | any call batched first, flushed in doubt and flushed again is run twice and logged once |
| Batching.RejectedExactly | code/guest/express_vk_flime_guest_core.cpp:5830-5943 | corollary for one append: with nothing failing it answers for its call exactly when the call is not one it rejects, while an unbatched transport would have sent it |
| Batching.Wedged | code/guest/express_vk_flime_guest_core.cpp:494-498 | a cluster on a negative descriptor makes every later flush, send and append fail with nothing changed |
| Ledger.WriteCommandLockstep | code/guest/express_vk_flime_guest.cpp:103-230 | every exit of a command write leaves its device in Legacy, or failed, or has added exactly that command's entry, rightly classified and placed, to its buffer's stream and exactly that command to the history |
| LedgerRun.RunIssues | code/guest/express_vk_flime_guest.cpp:157-198 | in every run during which its device stays out of Legacy and unfailed, a buffer's stream is, entry for entry and offset for offset, the commands issued on it since it was last begun or reset, whatever happens to other buffers and devices; and those of them that were written stand in the history in the same order |
| LedgerRun.WriteIssues | code/guest/express_vk_flime_guest.cpp:157-229 | a command write that leaves its device live has put exactly that command's entry at the end of the stream and that command at the end of the history |
| Ledger.OpaqueBoundary | code/guest/express_vk_flime_guest.cpp:139-198 | an unclassified command succeeds only with its device out of specialization and the cluster empty; if the device is still specialized nothing but control requests was sent; BatchExactly.UnclassifiedNumbers says which commands these are |
| BatchExactly.UnclassifiedNumbers | code/guest/express_vk_flime_guest_core.cpp:6530-6538 | a command write of 1047 to 1052, of any number outside 1021 to 1099, or of 1025, 1027, 1044 to 1046 or 1057 that succeeds leaves its device unspecialized and nothing pending |
| BatchExactly.RunNumbers | code/guest/express_vk_flime_guest.cpp:139-225 | in every run no pending call and no call in an envelope is numbered 1047 to 1052 or outside 1021 to 1099 |
| BatchExactly.CommandExactly | code/guest/express_vk_flime_guest.cpp:103-230 | with room, a well-formed command of a buffer joins the batch exactly if its device is negotiated in Learn, Match, Fast or Recover, unfailed and with no route out, the write is asynchronous, the number is one of 67 listed, and the recording buffer's stream takes its entry; then it is recorded and nothing is sent |
| BatchExactly.EntryExactly | code/guest/express_vk_flime_guest.cpp:134-181 | the entry of a command write: 16 bytes, 16 for every parameter and its payload, opaque exactly if its number is not listed |
| BatchExactly.CommandRefused | code/guest/express_vk_flime_guest.cpp:106-138 | no buffer or another device: nothing happens; a malformed command only fails its device |
| BatchExactly.CommandUnflushed | code/guest/express_vk_flime_guest.cpp:139-150 | a command that may not be batched is neither recorded nor sent, and its device fails, if what is pending cannot be flushed first |
| BatchExactly.CommandUnowned | code/guest/express_vk_flime_guest.cpp:103-230 | on an unregistered buffer it goes out on its own |
| BatchExactly.StepExactly | code/guest/express_vk_flime_guest.cpp:157-207 | the semantic step: a command that may not be batched or cannot be recorded drains a suppressing device, and any other device records it or gives up to Legacy; the devices, streams and requests afterwards |
| BatchExactly.OpaqueExactly | code/guest/express_vk_flime_guest.cpp:139-225 | on a suppressing device a command that may not be batched goes out exactly if flush, drain and its own request are acknowledged, and the history gains drain and command in that order |
| BatchExactly.UnsuppressedExactly | code/guest/express_vk_flime_guest.cpp:103-230 | on a device that suppresses nothing a command goes out exactly if flush and its own request are acknowledged |
| BatchExactly.HinderedExactly | code/guest/express_vk_flime_guest.cpp:145-225 | on a device with a route out the route is drained first, and the command goes out unrecorded exactly if flush, drain and its own request are acknowledged |
| Ledger.HookFailsClosed | code/guest/express_vk_flime_guest_core.cpp:6080-6124 | after a recording hook its device is in Legacy, or the next write of that function by that thread is blocked and the device failed, or the command joined its stream |
| BatchExactly.HookExactly | code/guest/express_vk_flime_guest_core.cpp:6080-6124 | a hook records exactly if its device is out of Legacy, unfailed and with no route out, its arrays are complete, the buffer is being recorded and its stream has room; the write may then be batched exactly if the device suppresses and the function is one of six |
| BatchExactly.HookOtherwise | code/guest/express_vk_flime_guest_core.cpp:6080-6124 | otherwise the whole mark: plain in Legacy or after a drain, and else blocked with the device failed |
| BatchExactly.WriteExactly | code/guest/express_vk_flime_guest.cpp:28-100 | with room, an unmarked-for-route write joins the batch exactly if the mark is for this function, allows and does not block it, the write is asynchronous and the function is one of six; then nothing is sent |
| BatchExactly.MarkedExactly | code/guest/express_vk_flime_guest.cpp:56-84 | a batched write answers for the flush and the route its mark asks for, and the device of whatever failed is failed |
| BatchExactly.DirectExactly | code/guest/express_vk_flime_guest.cpp:85-100 | a direct write succeeds exactly if the flush before it and its own request are acknowledged, and else fails its command's device |
| BatchExactly.DispatchExactly | code/guest/express_vk_flime_guest_command.cpp:77-161 | a dispatch asks for flush and route exactly if it went through at a boundary on a registered buffer with a stream |
| BatchExactly.BadBindExactly | code/guest/express_vk_flime_guest_command.cpp:19-36 | a bind with missing arrays leaves exactly a blocking mark and its device failed |
| Ledger.RecordedWriteAnswers | code/guest/express_vk_flime_guest.cpp:56-100 | the write of a recorded command succeeds only with the command in the history, followed by nothing but control requests, and if it fails the command's device has failed |
| Ledger.BarrierDrainsAll | code/guest/express_vk_flime_guest_core.cpp:6027-6078 | a raw call that must not overtake a released route goes ahead only when no device has one left |
| BatchExactly.BarrierExactly | code/guest/express_vk_flime_guest_core.cpp:6027-6078 | 25 function numbers wait for every route to be drained, and no other is held up |
| Ledger.LimitHoldsExactly | code/guest/express_vk_flime_guest_core.cpp:620-651 | an accepted call keeps the stream's true size within the limit if and only if the call alone is within it |
| Ledger.LimitMissed | code/guest/express_vk_flime_guest_core.cpp:620-651 | an empty stream accepts a call larger than the whole limit |
| Marks.MarksApart | code/guest/express_vk_flime_guest_core.cpp:228-233 | no step of another thread, whatever it does, touches a thread's mark |
| Marks.WriteSpends | code/guest/express_vk_flime_guest.cpp:34-55 | a write that gets past the drain gate clears every field of the mark on every path, and one that does not keeps it |
| Marks.SpentStaysSpent | code/guest/express_vk_flime_guest.cpp:34-55 | in any run without new hooks of the thread a spent mark stays spent, so a mark affects at most one write |
| Marks.MarkOnlyForItsFunction | code/guest/express_vk_flime_guest.cpp:34-55 | replacing a mark for one function by any mark for another changes neither the answer nor the requests of a write of a third, nor past the gate the world |
| Marks.BlockedWriteSendsNothing | code/guest/express_vk_flime_guest.cpp:51-55 | a write its hook blocked fails and reaches neither cluster nor wire |
| Marks.MarksOkAlways | code/guest/express_vk_flime_guest_command.cpp:77-161 | in every run a pending route comes with a pending flush and names the recorded command, and a block comes alone |
| Marks.DispatchBeforeRoute | code/guest/express_vk_flime_guest.cpp:56-84 | a route is attempted only after the host ran the marked dispatch and everything before it; otherwise nothing further is sent |
| Lifecycle.StepChanges | code/guest/express_vk_flime_guest.cpp:338-513 | every event changes a buffer exactly as its projection on that buffer says, and no other event changes it |
| Lifecycle.AddCommandsChange | code/guest/express_vk_flime_guest.cpp:347-368 | one bad handle and no buffer changes; otherwise exactly the batch is born |
| Lifecycle.DropCommandsChange | code/guest/express_vk_flime_guest.cpp:371-395 | a free removes exactly the named buffers that live in the named pool |
| Lifecycle.ClearPoolChange | code/guest/express_vk_flime_guest.cpp:415-434 | a pool reset renews exactly the buffers of that pool |
| Lifecycle.DropPoolChange | code/guest/express_vk_flime_guest.cpp:397-413 | a pool's destruction removes exactly the buffers of that pool |
| History.HistoryDecides | code/guest/express_vk_flime_guest.cpp:338-513 | after any run a buffer is the fold of its own history, and that history is proper |
| History.FlagsLaw | code/guest/express_vk_flime_guest.cpp:436-513 | a buffer is recording exactly after a begin and executable exactly after an end, so never both |
| History.ExecutableLaw | code/guest/express_vk_flime_guest.cpp:463-486 | the end that made a buffer executable closed a begin |
| History.GenerationLaw | code/guest/express_vk_flime_guest.cpp:454-460 | the generation is one plus the begins and resets since registration modulo 2^64 - 1 |
| History.MatchesExactly | code/guest/express_vk_flime_guest.cpp:355-512 | between any two points of a history, removals and registrations included, a captured generation matches exactly if the begins and resets since the registration current at each point agree modulo 2^64 - 1 |
| History.PairMatches | code/guest/express_vk_flime_guest.cpp:338-513 | the same between any two points of any run |
| History.MatchesWithoutRebirth | code/guest/express_vk_flime_guest.cpp:426-512 | while the buffer stays registered that is exactly after a multiple of 2^64 - 1 begins and resets |
| History.RebornMatches | code/guest/express_vk_flime_guest.cpp:355-368 | a buffer just registered again matches exactly the pairs captured after a multiple of 2^64 - 1 begins and resets of an earlier life |
| History.StaleReturns | code/guest/express_vk_flime_guest.cpp:355-368 | any captured pair comes back when the buffer is freed, registered again and reset r times, exactly for those r that agree with the begins and resets before the capture |
| History.RebirthMatches | code/guest/express_vk_flime_guest.cpp:355-368 | the shortest case: a buffer never begun, freed and registered again |
| SubmitProofs.BeforeSubmitReserves | code/guest/express_vk_flime_guest_command.cpp:201-273 | a submission past its wait reserves its device, under its token's number, exactly when its token releases something; the token is of one kind at most, given out only in that mode; a blocked answer leaves the device failed and free |
| SubmitProofs.RouteSubmissionPrepares | code/guest/express_vk_flime_guest_core.cpp:5232-5367 | however the announcement, report and route of a submission fare, the answer matches the reservation |
| SubmitExactly.BeforeSubmitExactly | code/guest/express_vk_flime_guest_command.cpp:201-273 | exactly when a submission past its wait gets the ready gate and a specialized token, a fallback token, or goes out as it is, in terms of the device before the call, every field of the view and the answers to its requests; a routed one leaves its device reserved under its number and exactly its own requests on the log |
| SubmitExactly.OpaqueNeverRouted | code/guest/express_vk_flime_guest_core.cpp:5214-5226 | a submission with an unclassified command or without a dispatch never gets a specialized token, and no announcement or route joins the log |
| SubmitExactly.RouteSubmissionExactly | code/guest/express_vk_flime_guest_core.cpp:5232-5367 | a whole submission is taken exactly if it has number, plan and checkpoint, and announcement, report and route are acknowledged, not withdrawn, accepted and verified; it is drained exactly in the recovery cases |
| SubmitExactly.CompleteEarlyExactly | code/guest/express_vk_flime_guest_core.cpp:5059-5159 | the last chunk of a submission sent ahead is taken exactly if it matches, is acknowledged and accepted |
| SubmitExactly.UnannouncedExactly | code/guest/express_vk_flime_guest_core.cpp:5290-5327 | the whole device after an announcement or report that went wrong |
| SubmitExactly.PromotedExactly | code/guest/express_vk_flime_guest_core.cpp:3839-3864 | a device starts learning exactly if it has seen enough and both announcements are acknowledged and not withdrawn |
| SubmitProofs.AfterSubmitFrees | code/guest/express_vk_flime_guest_command.cpp:349-373 | the After step of the token a device is reserved under always frees the device, recovery and fallback failures included |
| CompletionExactly.RefusedExactly | code/guest/express_vk_flime_guest_core.cpp:5492-5524 | a specialized completion whose native submit failed, or that is not for the submission in progress, sends nothing and leaves the device failed and free in its stage |
| CompletionExactly.PeriodExactly | code/guest/express_vk_flime_guest_core.cpp:5559-5648 | the whole device, and the one or two reports sent, after an ordinary routed submission |
| CompletionExactly.PeriodMovesOn | code/guest/express_vk_flime_guest_core.cpp:5559-5648 | its stage moves on exactly if both reports are acknowledged and not answered by a withdrawal, and it is unfailed exactly if moreover it was before and its records were retired |
| CompletionExactly.RecoveryExactly | code/guest/express_vk_flime_guest_core.cpp:5526-5558 | a recovery ends in Detect exactly if its checkpoint holds and its report is acknowledged, failed in Legacy if withdrawn, and else unfailed in Legacy exactly if the device can be drained |
| CompletionExactly.DrainedCompletionExactly | code/guest/express_vk_flime_guest_command.cpp:355-371 | a submission that went out under a drain's number gives its reservation back and fails the device exactly if its native submit failed |
| CompletionExactly.LifecycleExactly | code/guest/express_vk_flime_guest_descriptor.cpp:46-99 | a lifecycle counts up over a drained route and down to zero, and a failed one fails the device |
| CompletionExactly.RetirementExactly | code/guest/express_vk_flime_guest_descriptor.cpp:60-82 | descriptors may be retired exactly if nothing is owed or the unfailed device can be drained first |
| SubmitProofs.StaleTokenExactly | code/guest/express_vk_flime_guest_core.cpp:5517-5524 | an After step of a token that is not the active one leaves the active submission alone if and only if it is not a specialized token |
| SubmitGate.AcquireOk | code/guest/express_vk_flime_guest_command.cpp:211-218 | letting a submission through keeps one holder per device and loses no wakeup |
| SubmitGate.ReleaseOk | code/guest/express_vk_flime_guest_command.cpp:349-373 | releasing a device leaves a notification owed to every thread it may have unblocked |
| SubmitGate.UnreserveOk | code/guest/express_vk_flime_guest_descriptor.cpp:84-99 | so does ending a descriptor lifecycle, whose count stays that of its holders |
| SubmitGate.TearOk | code/guest/express_vk_flime_guest.cpp:275-277 | a teardown goes ahead only with neither a submission nor a lifecycle, and nobody else on the device |
| GateSystem.StepsOk | code/guest/express_vk_flime_guest_command.cpp:201-373 | in every reachable state of any number of threads and devices: at most one submission holds a device and its token is the active one; submissions and lifecycles exclude each other; a destroyed device is nobody's; no wakeup is lost |
| GateSystem.WaitsAgree | code/guest/express_vk_flime_guest_command.cpp:211-218 | the waits of the thread protocol are those of the critical sections: no active submission, and but for a reservation no lifecycle |
| GateSystem.GateGuarantees | code/guest/express_vk_flime_guest_command.cpp:201-373 | the same for any two threads of any reachable state: a holder's device is active under its number and in its token's mode, nobody else holds or reserves it, a destroyed device is used by nobody else, and a thread parked on a false condition has a notification coming |
| GateSystem.HolderHolds | code/guest/express_vk_flime_guest_command.cpp:355-371 | every outstanding releasing token is the one its device is reserved under, in that token's mode, so none is stale |
| GateSystem.ElsewhereSteady | code/guest/express_vk_flime_guest.cpp:19-513 | no operation outside the gate touches a reservation, a lifecycle count or a queue's owner |
| GateSystem.TeardownClean | code/guest/express_vk_flime_guest.cpp:267-297 | a teardown packet follows a complete drain, with no early route left and everything before it run by the host |
| TeardownOnce.TeardownOnce | code/guest/express_vk_flime_guest.cpp:267-297 | in any run, on any network, while a device stays registered and no submission on it follows an acknowledged teardown: its teardown packets are exactly the deliveries not acknowledged and at most one more, that one exactly if some teardown was acknowledged, and none follows it |
| TeardownOnce.TeardownAcked | code/guest/express_vk_flime_guest.cpp:289-296 | so a host that acknowledges gets at most one |
| TeardownOnce.TeardownsCounted | code/guest/express_vk_flime_guest.cpp:267-297 | no event but a teardown of the device puts its teardown packet in the history |
| TeardownOnce.SentAgain | code/guest/express_vk_flime_guest.cpp:283-296 | after a packet went out, asking again sends another exactly if the first was not acknowledged and the next request is delivered |
| TeardownOnce.TornTwice | code/guest/express_vk_flime_guest.cpp:289-292 | a run with two packets, the first delivered in doubt |
| TeardownOnce.TornRevived | code/guest/express_vk_flime_guest_core.cpp:5759-5769 | a run with two packets on an acknowledging network, with a submission in between |
| TeardownOnce.TeardownsUnderGate | code/guest/express_vk_flime_guest.cpp:267-297 | with any threads and devices going through the gate, a device's teardown packet goes out at most once while the device stays registered, on any network |
| Guest.Transport.Flush | code/guest/express_vk_flime_guest_core.cpp:478-498 | the cluster, wire and request count after a flush, on every network answer |
| Guest.Transport.EncodeParams | code/guest/express_vk_flime_guest_core.cpp:5981-6003 | the packing loop produces the descriptors and payload the codec's round trip is about |
| Guest.Transport.FallbackOrFail | code/guest/express_vk_flime_guest_core.cpp:4492-4549 | the new state and answer of leaving specialization, on every answer to the drain request |
| Guest.Transport.AdvanceRoute | code/guest/express_vk_flime_guest_core.cpp:4931-5057 | the new state and answer of sending a route ahead, with its two requests and its fallback |
| Guest.Transport.ProtocolBefore | code/guest/express_vk_flime_guest_core.cpp:5161-5367 | the classification of a submission field by field: flush, withdrawal, Detect, fallback, early completion, routing; its outcome is SubmitExactly.BeforeSubmitExactly |
| Guest.Transport.ProtocolAfter | code/guest/express_vk_flime_guest_core.cpp:5492-5648 | the completion of a specialized submission field by field: reports, recovery, withdrawal, failure; its outcome is CompletionExactly.RefusedExactly, PeriodExactly and RecoveryExactly |
| Guest.Transport.Write | code/guest/express_vk_flime_guest.cpp:19-101 | the whole new state and answer of an ordinary write |
| Guest.Transport.WriteCommand | code/guest/express_vk_flime_guest.cpp:103-230 | the whole new state and answer of a command write, of which BatchExactly.CommandExactly and UnclassifiedNumbers say what they are |
| Guest.Transport.FlushTransport | code/guest/express_vk_flime_guest.cpp:232-239 | whatever descriptor is named, the cluster is drained, and success means it is empty |
| Guest.Transport.RegisterDevice | code/guest/express_vk_flime_guest.cpp:241-265 | the new state of a registration, repeated, without a control page, or with a failed negotiation |
| Guest.Transport.BeforeDestroyDevice | code/guest/express_vk_flime_guest.cpp:267-297 | the new state and answer of a teardown |
| Guest.Transport.DestroyDevice | code/guest/express_vk_flime_guest.cpp:299-312 | the new state after a device and all its mappings are gone |
| Guest.Transport.RemoveDeviceMappings | code/guest/express_vk_flime_guest_core.cpp:5700-5734 | erasing while walking removes exactly the device's entries from three maps |
| Guest.Transport.RegisterQueue | code/guest/express_vk_flime_guest.cpp:314-336 | the new state of a queue registration |
| Guest.Transport.RegisterCommandBuffers | code/guest/express_vk_flime_guest.cpp:338-369 | checking loop, then entering loop: all of the batch or none |
| Guest.Transport.FreeCommandBuffers | code/guest/express_vk_flime_guest.cpp:371-395 | the loop removes the buffers of the pool and fails a specialized device on a foreign or repeated handle |
| Guest.Transport.FreedAll | code/guest/express_vk_flime_guest.cpp:380-394 | freeing one by one removes the set of named buffers of the pool, and misses exactly on a foreign or repeated handle |
| Guest.Transport.DestroyCommandPool | code/guest/express_vk_flime_guest.cpp:397-413 | erasing while walking removes exactly the pool's buffers |
| Guest.Transport.ResetCommandPool | code/guest/express_vk_flime_guest.cpp:415-434 | the walk renews exactly the pool's buffers and their streams |
| Guest.Transport.BeginCommandBuffer | code/guest/express_vk_flime_guest.cpp:436-461 | the new generation, flags and stream of a begun buffer |
| Guest.Transport.EndCommandBuffer | code/guest/express_vk_flime_guest.cpp:463-486 | the new flags of an ended buffer and the route it may advance |
| Guest.Transport.ResetCommandBuffer | code/guest/express_vk_flime_guest.cpp:488-513 | the new generation, flags and stream of a reset buffer |
| Guest.Transport.RecordCommandCall | code/guest/express_vk_flime_guest_core.cpp:6080-6124 | the stream and mark a recording hook leaves |
| Guest.Transport.CmdDispatch | code/guest/express_vk_flime_guest_command.cpp:77-102 | the same for a dispatch, with the flush and route marks of a boundary |
| Guest.Transport.CmdBindDescriptorSets | code/guest/express_vk_flime_guest_command.cpp:19-58 | a bind records its words, or blocks the write that follows when a counted array is missing |
| Guest.Transport.BeforeQueueSubmit | code/guest/express_vk_flime_guest_command.cpp:201-273 | the new state, gate and token of a submission past its wait; a device nobody held is held afterwards exactly if the token will release it, and in the token's mode |
| Guest.Transport.AfterQueueSubmit | code/guest/express_vk_flime_guest_command.cpp:349-373 | the new state of a completion; it notifies exactly if its token releases something, and then nobody holds the device that token held |
| Guest.Transport.DoAll | code/guest/express_vk_flime_guest.cpp:19-513 | any sequence of critical sections leaves the object in the state of that run, and safe |
| BindWords.Build | code/guest/express_vk_flime_guest_command.cpp:37-52 | the words pushed for a bind, from which the bind can be read back |
| BindWords.BindRoundTrip | code/guest/express_vk_flime_guest_command.cpp:37-57 | bind point, first set, set list and dynamic offsets are read back for any list lengths |
| BindWords.BindsDistinct | code/guest/express_vk_flime_guest_command.cpp:37-57 | two binds record the same pair exactly if they are the same bind |
| BindWords.DecodedWasBuilt | code/guest/express_vk_flime_guest_command.cpp:37-57 | a pair decodes exactly if some bind records it, and then to that bind |
| Counting.CountChain | code/guest/express_vk_counting_guest.cpp:7414-7436 | counting a chain adds its size, from any starting value |
| Counting.ChainClosedForm | code/guest/express_vk_counting_guest.cpp:7414-7436 | a chain adds four, and twelve plus its fields for every known node |
| Counting.UnknownAnywhere | code/guest/express_vk_counting_guest.cpp:7419-7422 | taking a node out of a chain anywhere leaves the count alone exactly if the node is unknown |
| Counting.PermutedChain | code/guest/express_vk_counting_guest.cpp:7414-7436 | the order of a chain does not matter |
| Counting.HandleBytesExact | code/guest/express_vk_counting_guest.cpp:733-746 | a 32-bit handle product is the real size exactly below 2^29 handles |
| Counting.CountSubmit | code/guest/express_vk_counting_guest.cpp:721-747 | the accumulator grows by exactly the submission's size |
| Counting.CountWrite | code/guest/express_vk_counting_guest.cpp:1895-1958 | the accumulator grows by exactly the write's size |
| Counting.UnselectedIgnored | code/guest/express_vk_counting_guest.cpp:1912-1957 | with the feature bit only the array the type selects matters |
| Counting.CountPipeline | code/guest/express_vk_counting_guest.cpp:1551-1685 | the accumulator grows by exactly the pipeline's size, all sub-states included |
| Counting.IrrelevantTessellation | code/guest/express_vk_counting_guest.cpp:1571-1579 | corollary of the size: with the bit and no tessellating stage the tessellation state may be anything |
| Counting.IrrelevantRasterized | code/guest/express_vk_counting_guest.cpp:1557-1570 | corollary of the size: with the bit and rasterizer discard the four rasterization states may be anything |
| Counting.TessellationCountsExactly | code/guest/express_vk_counting_guest.cpp:1571-1579 | and only then is a tessellation state left out |
| Counting.RasterizedCountsExactly | code/guest/express_vk_counting_guest.cpp:1557-1570 | and only then are the rasterization states left out |
| Counting.CountSubpass | code/guest/express_vk_counting_guest.cpp:3767-3819 | the accumulator grows by exactly the subpass's size, references and their chains included; that size is CountExactly.SubpassTotal |
| Counting.CountRenderPass | code/guest/express_vk_counting_guest.cpp:3842-3882 | the accumulator grows by exactly the render pass's size, nested chains included; that size is CountExactly.RenderPassTotal |
| NestedCount.RenderPassWeight | code/guest/express_vk_counting_guest.cpp:3751-3882 | a render pass counts what it would count without extensions plus the known nodes of all its nested chains |
| NestedCount.RenderPassAlike | code/guest/express_vk_counting_guest.cpp:3751-3882 | render passes alike but for extensions count the same if their known extensions are the same, in any order, in any nested chains, with any unknown ones among them |
| NestedCount.RenderPassInserted | code/guest/express_vk_counting_guest.cpp:3751-3882 | one extension more, in whichever attachment, subpass, reference, resolve, depth or dependency chain, leaves the count alone exactly if it is unknown |
| NestedCount.PipelineWeight | code/guest/express_vk_counting_guest.cpp:1551-1685 | a pipeline counts what it would count without extensions plus the known nodes of the states that are counted under its feature bits |
| NestedCount.PipelineAlike | code/guest/express_vk_counting_guest.cpp:1551-1685 | pipelines alike but for extensions count the same if the known extensions of their counted states agree |
| NestedCount.PipelineInserted | code/guest/express_vk_counting_guest.cpp:1551-1685 | one extension more in a counted state leaves the count alone exactly if it is unknown |
| CountExactly.SubmitTotal | code/guest/express_vk_counting_guest.cpp:721-747 | a submission is 20 bytes, 4 for every wait, three wrapping handle products, and its known extensions |
| CountExactly.WriteTotal | code/guest/express_vk_counting_guest.cpp:1895-1958 | a write is 56 bytes, its known extensions, and each array that is there and, under the bit, of a listed descriptor type |
| CountExactly.SubpassTotal | code/guest/express_vk_counting_guest.cpp:3751-3819 | a subpass is 48 bytes, 20 for every input, colour, resolve and depth reference, 4 for every preserved index, and its known extensions |
| CountExactly.RenderPassTotal | code/guest/express_vk_counting_guest.cpp:3842-3882 | a render pass is 28 bytes, 44 for every attachment, 40 for every dependency, 4 for every mask, its subpasses, and the known extensions of all nested chains |
| CountExactly.PipelineTotal | code/guest/express_vk_counting_guest.cpp:1216-1685 | a pipeline in bytes: base, stages with names and specialization constants, every counted state, and their known extensions |
| CountExactly.FeatureBits | code/guest/express_vk_private_defs.h:17-20 | which bit of the features leaves ignored handles out and which makes the 16-bit float structure known |
| Encoding.Encoder.PutHandles | code/guest/express_vk_encode_to_stream.cpp:1005-1014 | an array of handles moves the pointer by the wrapping product and reaches to the end of its furthest element |
| Encoding.HandlesCovered | code/guest/express_vk_encode_to_stream.cpp:1005-1014 | the pointer moves as far as the array reaches exactly below 2^29 handles |
| Encoding.EncodeChain | code/guest/express_vk_encode_to_stream.cpp:8838-8862 | encoding a chain moves the pointer by what counting it without feature bits adds |
| Encoding.EncodeSubmit | code/guest/express_vk_encode_to_stream.cpp:993-1041 | encoding a submission moves the pointer by exactly its count, for arrays of any length, and reaches to the end of its furthest array |
| Encoding.SubmitContained | code/guest/express_vk_encode_to_stream.cpp:993-1041 | the reserved bytes contain everything written if and only if the signals are below 2^29 and what follows a longer array of waits or commands makes up for it |
| Encoding.SubmitSpills | code/guest/express_vk_encode_to_stream.cpp:1028-1040 | a submission of 2^29 signals reserves twenty bytes |
| Encoding.EncodeWrite | code/guest/express_vk_encode_to_stream.cpp:2439-2541 | encoding a write moves by and reaches over the one array its type selects |
| Encoding.WriteReserved | code/guest/express_vk_encode_to_stream.cpp:2439-2541 | without the bit the count of a write of any length is what encoding moves by plus exactly the unselected arrays |
| Encoding.WriteExactWithBit | code/guest/express_vk_encode_to_stream.cpp:2439-2541 | with the bit the two agree for every write |
| Encoding.WriteContained | code/guest/express_vk_encode_to_stream.cpp:2439-2541 | the reserved bytes contain everything written except for a selected array of 2^29 views or more with nothing unselected counted beside it |
| Encoding.PipelineExactly | code/guest/express_vk_encode_to_stream.cpp:1559-1594 | without the bit the count of a pipeline is what encoding moves by exactly if every entry-point name is shorter than 2^32 |

## Left out

- The route planner, the learning protocol, EWMA and dynamic programming: their answers are parameters, and nothing is claimed about them.
- The contents of FLIME's own packets and of the host's replies: a request is its kind, its device and its fate; the reply enters as part of a view.
- The descriptor shadow, descriptor records and their retirement: only whether a checkpoint holds or records are live is known, as part of a view.
- Descriptor-set, pool and update-template hooks: the waits of the bulk update hooks are those of a lifecycle reservation, which is modelled.
- Hashes, timestamps, occurrence and serial numbers, period ids and plan epochs: they feed the planner only.
- Error numbers, logging, control-page mapping and memory allocation failure: an operation fails or it does not.
- The mutex and condition variable themselves: a critical section is one step, and waiting, waking, spurious wakeups and notifications are steps of `GateSystem`.
- Guest.Transport.BeforeQueueSubmit: starts when its wait is over; the waiting loop is the parked phase of the thread in `GateSystem`.
- Guest.Transport.BeforeDestroyDevice: the disjunct `session_invalidated` of its test is not modelled, because the program only ever clears that flag (it starts false; `code/guest/express_vk_flime_guest_core.cpp:614`, `:4157`, `:5755`); nor is the reinitialisation that the same flag guards at `:5761`.
- TeardownOnce.TeardownOnce: is about the teardown in `FlimeGuestBeforeDestroyDevice`; the other sender, `DisableDeviceFlimeLocked` (`code/guest/express_vk_flime_guest_descriptor.cpp:21-42`), belongs to the descriptor hooks and is not modelled, and the reply to a teardown that asks for Legacy is not either.
- TeardownOnce.NoSessionAfter: every control request sets the exposed flag in the program and only the capability request does in the model; on a negotiated device the flag is set already (part of what `Machine.RunGood` keeps). A caller that completed a drained submission with a token marked specialized would set it by a report; the gate hands out no such token (`GateSystem.HolderHolds`).
- The requests a routed submission is cut into: a route of several packets is one request with one fate.
- Devices as heap objects: a device is a value in the device map, replaced when a field changes, so sharing of one device object between a waiting thread and the map is not captured; the gate proves a device is not destroyed while a thread waits on it.
- Threads that break external synchronisation of a device's destruction (section 3.6 of the Vulkan 1.3 specification): a thread does not start on a device another thread is destroying.
- The synchronous variant of the call id, whose middle byte carries flags: synchronous calls are never batched, so it does not reach the codec.
- Host-side execution of a decoded call and host status codes: what the host runs is the list of calls it decodes.
- Counting.CountChain: the fields of an extension structure enter as a number, and the set of listed structures as a parameter, so the straight-line counters of single extensions are not modelled.
- The root structure type that the counters pass along: it never changes a result.
- Encoding.EncodeSubmit: encoding is modelled by where it writes, not by what it writes there.
- Encoding.PipelineExactly: the encoder of a pipeline is a function of its size, not a walk with a pointer; it differs from the counter without the feature bit in the length of a name only.
- Counting of a pipeline without the feature bit whose vertex-input, input-assembly or rasterization state is absent: the counter follows a null pointer there, so these are required to be present.
- Generated name tables, deep copies and the remaining counters: they would add members without adding difficulty.
