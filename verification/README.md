# MicroMachines in Dafny

A Dafny model, with proofs, of the core of MicroMachines, a microVM manager. It covers six parts of the system:

* the **checkpoint barrier and the live branch**: vCPU threads and device workers park at a barrier of three atomics while an orchestrator captures them; a branch arms dirty logging at a first barrier, copies RAM while the guest runs, and at a second barrier captures state and copies the dirtied pages again;
* the **virtio-vsock muxer and the exec channel** on top of it: u32 credit counters, a bounded receive backlog, byte bridging to host sockets, and a length-prefixed frame protocol read from a stream;
* the **control plane**: a pure decision, a reconcile pass that schedules and sends assignments, FIFO channels, agents that boot, stop and report, and a retry budget;
* the **token-bucket rate limiter**;
* **RAM image layouts, the CPU fingerprint and the boot command line**: encoders and decoders that must agree;
* **snapshot retention and address allocation**.

Concurrent protocols are transition systems on values: every atomic access, channel operation or clock read is one step, and theorems range over every sequence of steps. Code that updates objects is a class or a method with loops, and its `ensures` ties it to the specification function the theorems are about.

## Main results

* `BranchCoherence.ResultIsTheMachineAtTheBarrier`: in every interleaving of guest writes, dirty-bit updates, the live copy and the barrier, what a successful operation returns is the machine as it stood at one moment of the run: the state of every participant, or of exactly the vCPUs if only they are checkpointed, and, for a branch or a snapshot, every byte of RAM. Until the release no participant could have moved.
* `BranchLiveness.EveryOperationEnds`: in every fair infinite run the operation under way comes to an end; `BranchCoherence.BarrierIsReusable` and `BranchCoherence.NobodyFreezes`: the barrier is then clean again and no woken worker leaves for good. `BranchSchedule.OperationsSucceed`: from every booted machine with a vCPU there is such a run in which the operation asked for succeeds.
* `BranchCoherence.LoggingIsExact`: in every run dirty logging is on if and only if the last branch that armed it has not yet switched it off successfully. The code ignores the error of switching it off, and `BranchSchedule.StopFailureOutlivesTheBranch` gives, for every booted machine with a vCPU, a run that ends idle after a successful branch with logging still on.
* `Cluster.EveryRunIsSimulated`: seen from any one machine, every run of a whole cluster, with stale passes that break off, lost reports, reconnecting agents and dying workers, is a run of the one-machine protocol. Hence `Cluster.ClusterSinglePlacement`: never two workers of one machine.
* `ControlLoop.Controller.ReconcileOnce` and `Cluster.PlacementWasBest`: a machine is only ever placed on a healthy host with room that has most free memory, and its start goes there.
* `Convergence.EveryFairRunConverges` and `Convergence.ConvergesExactlyWhen`: from a point where controller and agent agree, every fair run converges and stays converged; after lost reports or dead workers, with nothing under way, it does so if and only if stored state, record and worker agree, or disagree in the one way the controller acts on. `Convergence.LostReportNeverConverges` is a fair run that loses one report and never converges. `ClusterConvergence.EveryMachineConverges` and `ClusterConvergence.MachineConvergesExactlyWhen` say the same of every machine of a whole cluster, whatever happens to the others.
* `VsockGuarantees.EveryByteIsAccountedFor`: over any packets of the guest and any answers of the sockets, for every live connection the bytes its socket gave are the payloads pushed for it, the payloads the guest sent it are the bytes its socket took then those still buffered, and the guest was last told their number. `VsockPackets.RunSays` and `VsockPackets.EveryPacketIsRightful`: when each packet is sent and what every field of it holds. `VsockTransfers.RunTransfers`: no flush or pump stops early. `VsockMuxer.VsockWorker.React` is the running device and takes exactly such runs.
* `VsockGuarantees.StreamReachesGuest`: those payloads reach the guest's buffers in order if and only if the bounded backlog dropped none of them, and `VsockFlood.FloodBreaksTheStream` is a run of a fresh device, within the credit window, that loses one. `VsockWindow.BufferIsBounded`: a guest that goes by the counts and the buffer size in the packets it got never makes the host buffer more than it advertised.
* `ExecChannel.RunExecStreaming`: the events do not depend on how the byte stream is cut into reads. `ExecResults.EventsTellTheFrames` and `ExecResults.RunExec`: they are this request's frames, each once, in order and on its own stream, and the collected bytes and code are those of its frames.
* `RateLimit.ThroughputBound`, `RateLimit.AdmittedOnceCredited`, `RxBacklog.RunIsFifo`, `Cpuid.HashInputIsExact`, `Cmdline.BootConfigRoundTrip`, `DirtyPages.CollectDirtyPages`, `GuestMemory.DumpThenLoad`, `SnapshotStore.SnapshotDir.Gc`, `Addresses.Store.Session`.

## Where the code and its comments differ

The model follows the code.

* `wait_admit` (crates/mm-vmm/src/ratelimit.rs:99-103) is documented to return whether it was admitted; it returns nothing, and on giving up it charges what is there.
* `cpuid_hash` (crates/mm-vmm/src/machine.rs:1799-1881) is described as order-sensitive and as sorting by function and index; it sorts whole seven-word leaves, which is what makes the fingerprint independent of order even among leaves that share function and index.
* `place` (services/mm-controller/src/scheduler.rs:21-33) calls itself first-fit; it takes the fitting host with most free memory and, of equals, the last listed.
* `no_guest_buffer_backlogs_without_dropping` (crates/mm-vmm/src/devices/vsock.rs:1084) names what holds up to 256 waiting packets; past that `enqueue_backlog` drops the oldest, data included, and the guest's stream has a gap (`VsockFlood.FloodBreaksTheStream`).
* The reconcile loop (services/mm-controller/src/loop.rs:1-9) is described as driving observed state toward desired state; after a lost report it may rest in a state that never converges (`Convergence.LostReportNeverConverges`, `Convergence.ConvergesExactlyWhen`), for an agent skips a start it believes done and reports nothing.
* `decode` (crates/mm-sandbox/src/exec/protocol.rs:40-59) answers "read more" for a complete frame whose body does not parse, so such a frame ends the usable part of a stream. `ExecChannel.Events` is defined on those streams too.

## Model

| member | source | states |
|---|---|---|
| BranchProofs.OrderKeepsBarrier | crates/mm-vmm/src/machine.rs:880-940 | Every orchestrator step (request, wake, wait, body, release, wait) keeps the barrier invariant: flags match the phase, `parked` counts exactly the threads inside, and each participant is where the phase allows it |
| BranchProofs.ParticipantKeepsBarrier | crates/mm-vmm/src/checkpoint.rs:59-65 | Every step of a vCPU or worker keeps the same invariant, for every interleaving |
| BranchProofs.ActKeepsPart | crates/mm-vmm/src/vcpu.rs:156-184 | A single participant's step keeps its own part of the invariant: captured this cycle before it counts itself in, and never past the barrier early |
| BranchProofs.AllCounted | crates/mm-vmm/src/checkpoint.rs:69-71 | The counter reaches the awaited number only when every awaited participant is inside |
| BranchProofs.OrderKeepsControl | crates/mm-vmm/src/machine.rs:1009-1063 | Dirty logging is on from arming to the end of the second barrier, a failed body still releases, and an image exists only after a successful body |
| BranchProofs.FreshSlotsCollect | crates/mm-vmm/src/machine.rs:946-980 | Reading the slots of freshly captured participants yields exactly their present states, in order |
| BranchCoherence.EveryRunKeepsInv | crates/mm-vmm/src/machine.rs:795-1070 | All invariants hold after every executable sequence of steps from a booted machine |
| BranchCoherence.AllParkedMeansAllCaptured | crates/mm-vmm/src/checkpoint.rs:59-71 | When `wait_until_parked` may return, every vCPU and, unless only vCPUs are checkpointed, every device spins, its slot holds the state it is in now, captured in this cycle, and it owes no dirty bit |
| BranchCoherence.QuiescentWhileClosed | crates/mm-vmm/src/checkpoint.rs:59-85 | From then until the release no participant at all has an enabled step; a checkpoint of the vCPUs alone stops exactly them |
| BranchCoherence.DevicesGoOn | crates/mm-vmm/src/machine.rs:880-899 | A checkpoint of the vCPUs alone never wakes or parks a device |
| BranchCoherence.CollectNeverFails | crates/mm-vmm/src/machine.rs:946-980 | Collecting at a barrier never finds an empty slot, although a branch does not drain the slots filled at its first barrier |
| BranchCoherence.NobodyFreezes | crates/mm-vmm/src/devices/block.rs:195-212 | A worker woken for a checkpoint still sees the request: nobody takes the freeze-and-exit branch |
| BranchCoherence.BarrierIsReusable | crates/mm-vmm/src/machine.rs:795-1070 | However an operation ends, the request is clear, nobody is parked and everyone runs freely; dirty logging is on if and only if it was left on, and off if no attempt to switch it off failed |
| BranchCoherence.LoggingIsExact | crates/mm-vmm/src/machine.rs:1009-1063 | In every run dirty logging is on if and only if a branch switched it on and no attempt to switch it off has succeeded since |
| BranchCoherence.LoggingFollowsTheBranch | crates/mm-vmm/src/machine.rs:1009-1063 | In every run without a failed attempt it is on exactly from arming to the end of the second barrier |
| BranchCoherence.RecopyIsCoherent | crates/mm-vmm/src/machine.rs:1041-1063 | At the final barrier the file, after copying the union of both dirty sources again, is RAM, byte for byte |
| BranchCoherence.RecopiedPagesAreTheWrittenOnes | crates/mm-vmm/src/machine.rs:1017-1056 | The pages copied again are exactly those written since the first barrier |
| BranchCoherence.ParticipantKeepsTracking | crates/mm-vmm/src/machine.rs:1013-1030 | Between the barriers a page is marked, or about to be, if and only if it was written, although a write and its dirty bit are separate steps |
| BranchCoherence.ResultIsTheMachineAtTheBarrier | crates/mm-vmm/src/machine.rs:795-1070 | Whatever an operation returns is the machine at one closed barrier of the run: for a full checkpoint, a snapshot and a branch the state of every participant, for a checkpoint of the vCPUs the states of exactly those, in order, and for a branch or snapshot all of RAM |
| BranchCoherence.SuccessHasAnImage | crates/mm-vmm/src/machine.rs:1009-1070 | An operation that ends without failure has such a result |
| BranchCoherence.CapturesAreTakenOnce | crates/mm-vmm/src/machine.rs:946-980 | Collecting empties the slot of everybody awaited |
| BranchCoherence.CopyGoesStale | crates/mm-vmm/src/machine.rs:1022-1030 | Why pages are copied again: during the live copy a vCPU can, within three steps, come into any state and change any byte already in the file |
| BranchCoherence.LogsStartClean | crates/mm-vmm/src/machine.rs:1017-1020 | After every collection both dirty sources are empty, and the kernel's log is whenever it is switched on |
| BranchCoherence.SourcesAreSeparate | crates/mm-vmm/src/machine.rs:1151-1191 | Neither dirty source sees the other's writers |
| BranchCoherence.AnythingCanFail | crates/mm-vmm/src/machine.rs:1016-1070 | A body may fail at either of its steps and the copy at any moment; then there is no image and the barrier is released or taken once more |
| BranchCoherence.WithoutVcpusNothingStarts | crates/mm-vmm/src/machine.rs:880-884 | A machine without a vCPU refuses every operation, in every run |
| BranchProgress.WaitShrinks | crates/mm-vmm/src/checkpoint.rs:59-65 | During either wait no step takes a participant further from where it is awaited, and each of its own protocol steps brings it closer |
| BranchProgress.WaitIsOver | crates/mm-vmm/src/checkpoint.rs:69-85 | Either wait is over exactly when that distance is zero |
| BranchProgress.NeverStuck | crates/mm-vmm/src/machine.rs:880-1070 | In every reachable state outside idle there is an enabled step towards success that is not new guest work |
| BranchLiveness.EveryOperationEnds | crates/mm-vmm/src/machine.rs:880-1070 | In every infinite run in which no thread stops for good, whatever operation is under way ends and the orchestrator is idle again |
| BranchLiveness.OrderLowers | crates/mm-vmm/src/machine.rs:880-1070 | Every orchestrator step brings an operation nearer to its end, through both barriers of a branch and its copy |
| BranchLiveness.AwaitedCanMove | crates/mm-vmm/src/checkpoint.rs:59-85 | Whoever is waited for is itself not waiting: no deadlock between orchestrator and participants |
| BranchSchedule.ScheduleIsFair | crates/mm-vmm/src/machine.rs:880-1070 | From every booted machine, whatever its participants, taking turns is a fair infinite run |
| BranchSchedule.OperationsSucceed | crates/mm-vmm/src/machine.rs:795-1070 | In it, if the machine has a vCPU, the operation asked for is under way at one point and has succeeded at a later one |
| BranchSchedule.StopFailureOutlivesTheBranch | crates/mm-vmm/src/machine.rs:1061 | The ignored error of `set_dirty_logging(false)`: from every booted machine with a vCPU a run in which a branch succeeds, the barrier is idle again, and logging is still on |
| DirtyPages.CollectDirtyPages | crates/mm-vmm/src/machine.rs:1151-1191 | Exactly the in-range pages set in either bitmap, each once, in file order, with the file offset of the region base plus the page offset, for bitmaps of any two lengths |
| DirtyPages.PagesFit | crates/mm-vmm/src/machine.rs:1151-1191 | A collected page starts inside its region, and lies wholly inside region and file whenever the region is whole pages |
| DirtyPages.PagesAreTheSetBits | crates/mm-vmm/src/machine.rs:1151-1191 | Bit by bit: a page of 4096 bytes is listed, with its region and file offset, if and only if it starts inside its region and bit `p % 64` of word `p / 64` of either bitmap is set |
| DirtyPages.PagesAreWhole | crates/mm-vmm/src/machine.rs:1151-1191 | Every listed page starts at a multiple of 4096 in its region, and its file offset is the region's base plus that |
| DirtyPages.RecopyBranchPages | crates/mm-vmm/src/machine.rs:242-257 | Exactly the bytes of the listed pages are replaced by RAM, every other byte is kept |
| DirtyPages.WriteBranchImage | crates/mm-vmm/src/machine.rs:217-237 | On RAM that does not change, the image is all regions concatenated: byte-identical to a dump |
| DirtyPages.RecopyDirty | crates/mm-vmm/src/machine.rs:1046-1055 | Collecting and then copying again equals the pointwise image used in the coherence proof |
| DirtyPages.CoverIsDirty | crates/mm-vmm/src/machine.rs:1151-1191 | A file position is covered by a collected page if and only if its page is dirty |
| GuestMemory.LayoutAvoidsTheHole | crates/mm-vmm/src/machine.rs:1267-1286 | For every memory size the regions ascend, are whole pages, add up to it and avoid the 3 to 4 GiB hole; failure exactly on overflow |
| GuestMemory.RamIsWhere | crates/mm-vmm/src/machine.rs:1267-1286 | RAM is exactly the addresses below 3 GiB up to the memory size, and from 4 GiB on the rest of it |
| GuestMemory.GuestMemoryMmap.DumpGuestMemory | crates/mm-vmm/src/machine.rs:1390-1411 | The chunked dump is all regions back to back and never fails |
| GuestMemory.GuestMemoryMmap.LoadGuestMemory | crates/mm-vmm/src/machine.rs:1415-1435 | Succeeds exactly when the file is long enough; then RAM is the file's prefix; on a short file the regions before the failing one are loaded and those after it untouched |
| GuestMemory.GuestMemoryMmap.ReadSlice | crates/mm-vmm/src/machine.rs:1390-1411 | A guest read returns the bytes of the one region that holds the range, else an error |
| GuestMemory.GuestMemoryMmap.WriteSlice | crates/mm-vmm/src/machine.rs:1415-1435 | A guest write changes exactly the addressed bytes of one region, else nothing |
| GuestMemory.DumpThenLoad | crates/mm-vmm/src/machine.rs:1390-1435 | Dumping one guest and loading another of the same shape makes their RAM equal |
| GuestMemory.FlatIsInjective | crates/mm-vmm/src/machine.rs:1390-1435 | Region lengths and the flat file determine RAM |
| GuestMemory.CowSeesTheDump | crates/mm-vmm/src/machine.rs:1545-1586 | Every guest address of a copy-on-write child reads the byte dumped from that address |
| GuestMemory.CowByteIs | crates/mm-vmm/src/machine.rs:1545-1586 | An address below 3 GiB reads its own file offset, one above 4 GiB the offset 1 GiB lower, any other nothing |
| GuestMemory.CowHoleIsUnmapped | crates/mm-vmm/src/machine.rs:1545-1586 | No address in the hole is mapped |
| VsockProto.HeaderRoundTrip | crates/mm-vmm/src/vsock_proto.rs:44-81 | Parsing the wire form of any header, with any payload behind it, gives the header back |
| VsockProto.ParseToBytes | crates/mm-vmm/src/vsock_proto.rs:44-81 | Writing a parsed header gives the 44 bytes back: the fields cover the header with no gap |
| VsockProto.HeaderLayout | crates/mm-vmm/src/vsock_proto.rs:44-81 | Which bytes hold which field, in little-endian order, as section 5.10.6 of VIRTIO 1.1 has it |
| VsockProto.AvailableIsTheWindow | crates/mm-vmm/src/vsock_proto.rs:119-124 | Under any number of wraps `available` is the true remaining window |
| VsockProto.CreditIsSafe | crates/mm-vmm/src/vsock_proto.rs:98-125 | Over every account whose sends keep to `available` and whose reports are monotone and truthful, `available` is exact in every state |
| VsockProto.EverySendFits | crates/mm-vmm/src/vsock_proto.rs:98-125 | At each send of such an account, what is sent and not consumed fits the buffer advertised by then |
| VsockRuns.EveryRunIsGood | crates/mm-vmm/src/devices/vsock.rs:374-457 | Over every run of a fresh device, for any packets and any answers of the sockets: sends of the credit account are the data packets pushed, its reports those received, counts and streams agree, the last count advertised is the number consumed, and a connection is live exactly when neither end has ended it |
| VsockGuarantees.EveryByteIsAccountedFor | crates/mm-vmm/src/devices/vsock.rs:374-457 | After any run, per live connection: socket bytes read are the payloads pushed, payloads addressed to it in the inputs are the bytes its socket took (the greeting aside) then those buffered, and the last count advertised is their number |
| VsockRuns.RunHears | crates/mm-vmm/src/devices/vsock.rs:472-500 | The packets a run has handled are those on the transmit queue, in order, too short ones ignored and payloads clipped to the header's length |
| VsockRuns.RunOpens | crates/mm-vmm/src/devices/vsock.rs:630-643 | Every completed handshake opened a connection, in order, while ports lasted |
| VsockRuns.HandleKeepsGood | crates/mm-vmm/src/devices/vsock.rs:503-569 | Handling any packet keeps all of this: data, credit, responses, requests, resets, shutdowns and strays |
| VsockSteps.PumpAllKeepsGood | crates/mm-vmm/src/devices/vsock.rs:647-688 | So does pumping a socket, read by read, up to the window, an end of file or an error |
| VsockSteps.FlushToUdsKeepsGood | crates/mm-vmm/src/devices/vsock.rs:693-738 | So does flushing to it for any short writes, after which the guest has been told of all bytes taken |
| VsockPackets.RunSays | crates/mm-vmm/src/devices/vsock.rs:503-569 | What every step of every run sends: a request or shutdown is answered by one reset to the sender with the ports swapped, a credit request by one credit update, data by at most one packet, a handshake by one request to the guest port asked for, a socket's readiness by its own connection's packets, anything else by nothing |
| VsockPackets.EveryPacketIsRightful | crates/mm-vmm/src/devices/vsock.rs:242-255 | Every packet of a run, field by field, is a connection's (CID 2 to the guest's CID and port, its own length, type 1, 262144 bytes of buffer), the reset of one, or the reset that answers a message heard |
| VsockPackets.EveryConnectionSpeaks | crates/mm-vmm/src/devices/vsock.rs:630-643 | What was pushed from a live connection's port since its handshake, resets aside, went to the guest port that handshake asked for |
| VsockPackets.ReadyExactlyWhenPinged | crates/mm-vmm/src/devices/vsock.rs:508-514 | A device reports its guest ready if and only if the guest has sent a request to port 1024 |
| VsockTransfers.RunTransfers | crates/mm-vmm/src/devices/vsock.rs:647-738 | Every flush moves exactly the bytes the socket took and stops only when all is written or it takes no more; every pump reads exactly what the socket gave and stops only when it is dry or the guest has no room |
| VsockGuarantees.NoOverrun | crates/mm-vmm/src/devices/vsock.rs:756-766 | To a guest with monotone truthful reports every data packet pushed fitted the buffer it had advertised at that moment |
| VsockWindow.BufferIsBounded | crates/mm-vmm/src/devices/vsock.rs:532-542 | After any run of a fresh device, a connection on which the guest went by the counts and the buffer size in packets it got, and kept within the window they left it, has at most 256 KiB buffered |
| VsockWindow.AdvertisedIsTheBuffer | crates/mm-vmm/src/devices/vsock.rs:242-255 | The room the packets a guest got advertise is 256 KiB, or none if it got none |
| VsockWindow.LearnsNoMore | crates/mm-vmm/src/devices/vsock.rs:742-766 | The counts in any of the packets pushed, unwrapped in order, tell no more than all of them together |
| VsockWindow.SeenIsConsumed | crates/mm-vmm/src/devices/vsock.rs:693-738 | So a guest never knows of a byte consumed that its socket has not taken |
| VsockGuarantees.StreamReachesGuest | crates/mm-vmm/src/devices/vsock.rs:788-848 | Delivered and waiting packets carry exactly the bytes read from the socket, in order, if and only if the backlog dropped none that carry any |
| VsockFlood.FloodBreaksTheStream | crates/mm-vmm/src/devices/vsock.rs:842-848 | A run of a fresh device from its start: a connection accepted with a window of 257 bytes, one buffer posted in all, and a socket that gives the bytes one at a time; a data packet is dropped and the guest's stream is not the socket's |
| VsockFlood.AnyFloodLoses | crates/mm-vmm/src/devices/vsock.rs:842-848 | The failing family: in every state with such a window, an empty backlog and no posted buffer, a dripping socket loses the guest a byte |
| VsockMuxer.VsockWorker.SendControl | crates/mm-vmm/src/devices/vsock.rs:742-752 | One header-only packet with every field right and the current count goes out; only a credit update moves `last_credit_sent`; an unknown port changes nothing |
| VsockMuxer.VsockWorker.SendRw | crates/mm-vmm/src/devices/vsock.rs:756-766 | Exactly one data packet, every field of its header right, is pushed and charged against the credit |
| VsockMuxer.VsockWorker.SendRst | crates/mm-vmm/src/devices/vsock.rs:769-783 | A reset with source and destination swapped |
| VsockMuxer.VsockWorker.PumpToGuest | crates/mm-vmm/src/devices/vsock.rs:647-688 | What the socket gave, read by read, is what is pushed, and the loop ends for any guest |
| VsockMuxer.VsockWorker.FlushToUds | crates/mm-vmm/src/devices/vsock.rs:693-738 | What leaves the buffer is what the socket took, for any short writes; then the credit update, if anything was taken |
| VsockMuxer.VsockWorker.HandleGuestPacket | crates/mm-vmm/src/devices/vsock.rs:503-569 | The whole effect of one packet, replies, credit and all, is the step the invariant is proved about |
| VsockMuxer.VsockWorker.Dispatch | crates/mm-vmm/src/devices/vsock.rs:472-500 | A packet too short for a header is ignored; otherwise its clipped payload is handled |
| VsockMuxer.VsockWorker.Open | crates/mm-vmm/src/devices/vsock.rs:630-643 | A new socket and connection under the first free port, with one OP_REQUEST pushed |
| VsockMuxer.VsockWorker.AllocPort | crates/mm-vmm/src/devices/vsock.rs:851-859 | The first free port from `next_port` on, across wrap-around; the search ends unless every port is taken |
| VsockMuxer.VsockWorker.CloseConn | crates/mm-vmm/src/devices/vsock.rs:863-882 | Exactly that connection is removed, with a reset pushed if asked for |
| VsockMuxer.VsockWorker.Serve | crates/mm-vmm/src/devices/vsock.rs:414-434 | Flush, pump and hang-up of one socket, in that order, as the step the invariant is proved about |
| VsockMuxer.VsockWorker.ProcessTx | crates/mm-vmm/src/devices/vsock.rs:472-500 | The transmit queue is a run over its packets, in order |
| VsockMuxer.VsockWorker.React | crates/mm-vmm/src/devices/vsock.rs:374-457 | Over any events the device takes a run whose inputs are those events, and its receive ring sees exactly the posts and notifications among them |
| RxBacklog.RunIsFifo | crates/mm-vmm/src/devices/vsock.rs:788-848 | Over every run delivered items then the backlog are an order-preserving subsequence of the pushed ones, with one loss per push that met a full backlog, so equal when none did; the backlog is the newest items and within its bound |
| RxBacklog.DeliveredGrows | crates/mm-vmm/src/devices/vsock.rs:828-839 | What was delivered stays delivered, in place: nothing overtakes |
| RxBacklog.BuffersBalance | crates/mm-vmm/src/devices/vsock.rs:804-824 | Every buffer posted is still free or holds one item delivered |
| RxBacklog.FramedAt | crates/mm-vmm/src/devices/net.rs:262-296 | Every frame goes out behind ten zero bytes and a buffer count of one |
| RxBacklog.LosslessIsExact | crates/mm-vmm/src/devices/vsock.rs:788-848 | Losing nothing means equality, not just equal length |
| RxBacklog.StreamSurvives | crates/mm-vmm/src/devices/vsock.rs:788-848 | For any measure of what an item carries, the kept items carry what was pushed if and only if the dropped ones carry nothing |
| RxBacklog.OverflowLosesTheFirst | crates/mm-vmm/src/devices/vsock.rs:842-848 | With no buffer posted, one push more than the backlog holds drops exactly the first |
| RxBacklog.RxRing.PushToGuest | crates/mm-vmm/src/devices/vsock.rs:788-800 | Placed directly only when the backlog is empty and a buffer is posted, else appended |
| RxBacklog.RxRing.DrainRxBacklog | crates/mm-vmm/src/devices/vsock.rs:828-839 | Delivers the longest prefix of the backlog that fits the posted buffers |
| RxBacklog.RxRing.EnqueueBacklog | crates/mm-vmm/src/devices/vsock.rs:842-848 | Appends, dropping the oldest item when full |
| RxBacklog.RxRing.WriteRx | crates/mm-vmm/src/devices/vsock.rs:804-824 | Takes one posted buffer if there is one |
| RxBacklog.NetWorker.ProcessRx | crates/mm-vmm/src/devices/net.rs:262-296 | Backlog first, then every frame behind its 12-byte header, in order; an interrupt exactly when something was delivered; a loss only with a full backlog |
| ExecChannel.RoundTrip | crates/mm-sandbox/src/exec/protocol.rs:40-59 | A frame decodes from the front of anything that starts with its encoding, consuming exactly it |
| ExecChannel.LengthComesFirst | crates/mm-sandbox/src/exec/protocol.rs:40-46 | The length is the first four bytes, highest first |
| ExecChannel.DecodeIsStable | crates/mm-sandbox/src/exec/protocol.rs:40-59 | More bytes never change a frame that already decodes |
| ExecChannel.RunExecStreaming | crates/mm-sandbox/src/exec/client.rs:226-274 | For any bytes and any cut into reads the events are those of decoding the whole stream at once; read errors and a consumer that stops are exact prefixes |
| ExecChannel.ReceivedIsAllParts | crates/mm-sandbox/src/exec/client.rs:260-272 | The stream is the reads put together, up to the end or a failure |
| ExecResults.EventsTellTheFrames | crates/mm-sandbox/src/exec/client.rs:226-274 | Over every stream the events are this request's output frames in front of its first exit, each once, in order, on the stream they name and with their bytes, and then one exit with that frame's code, or -1 |
| ExecChannel.StreamEndsInOneExit | crates/mm-sandbox/src/exec/client.rs:226-274 | A finished stream has exactly one exit event and it is last |
| ExecResults.EventsOfEncodedFrames | crates/mm-sandbox/src/exec/client.rs:226-274 | The same of the frames that were encoded |
| ExecResults.StreamsOfEncodedFrames | crates/mm-sandbox/src/exec/client.rs:252-256 | The events of either stream carry together what this request's frames wrote to it before its first exit |
| ExecResults.FramesRoundTrip | crates/mm-sandbox/src/exec/protocol.rs:40-59 | Frames written one after another are read back |
| ExecResults.RunExec | crates/mm-sandbox/src/exec/client.rs:196-218 | Returns exactly the bytes this request's frames wrote to stdout and to stderr before its first exit and that exit's code, or -1; fails exactly if a read fails before any exit |
| ExecResults.ExitCodeIsTheTerminalOne | crates/mm-sandbox/src/exec/client.rs:196-218 | The collected exit code is the terminal event's |
| ExecChannel.VsockConnect | crates/mm-sandbox/src/exec/client.rs:51-91 | Consumes exactly through the first newline, accepts exactly lines starting with OK, and tells a closed stream from an overlong line |
| Greeting.OkLineSaysThePort | crates/mm-vmm/src/devices/vsock.rs:527 | The muxer's greeting is OK, a space, the port in decimal and a newline |
| Greeting.MeetTheMuxer | crates/mm-sandbox/src/exec/client.rs:51-91 | Whatever follows that line, the client's handshake accepts it and consumes exactly it |
| ControlPlane.Place | services/mm-controller/src/scheduler.rs:28-33 | None exactly when no host fits; otherwise a fitting host with the most free memory |
| ControlPlane.PlaceIsLastBest | services/mm-controller/src/scheduler.rs:28-33 | Of equally free hosts the last listed |
| ControlPlane.RunKeepsInv | services/mm-controller/src/loop.rs:39-102 | After every run: one host at most and written once, only a recorded machine has a worker, at most one, and the loaded copy is stale only in what others write |
| ControlPlane.SinglePlacement | services/mm-agent/src/main.rs:308-347 | In every run, with assignments and reports duplicated, lost or late, passes that break off after some of their writes, reconnecting agents, workers that end by themselves and any changes of the spec: the host is written at most once, at most one worker lives and only on that host, at most three retries are taken |
| ControlPlane.PlacementIsPermanent | services/mm-controller/src/loop.rs:57-75 | A written host never changes |
| ControlPlane.ObservedIsExact | services/mm-controller/src/grpc.rs:325-340 | If no report was lost and none is under way, the stored state is `Running` exactly when the agent's record says so, and, if no worker ended by itself, exactly when a worker lives |
| ControlPlane.ObservedMisleads | services/mm-agent/src/main.rs:351-371 | Both conditions matter: a run with one lost report, and one with a worker that ended unseen |
| ControlPlane.StepKeepsSync | services/mm-agent/src/main.rs:298-371 | Every step but the loss of a report keeps the newest report in agreement with the record |
| ControlPlane.HandledKeepsLink | services/mm-agent/src/main.rs:298-349 | One assignment, handled in any state, keeps workers recorded and reports possible |
| ControlLoop.Controller.ReconcileOnce | services/mm-controller/src/loop.rs:39-102 | One pass, in any table order: an unplaced machine to be started gets the healthy host with room and most free memory, none exactly if there is no such host, the start goes to that host, a stop to the machine's, and nothing else of the row or of another machine changes but a retry charged |
| ControlLoop.Controller.Reconcile | services/mm-controller/src/loop.rs:43-99 | The same of one entry of a possibly stale list: its changes are made to the stored row, its orders sent, and other machines see nothing |
| ControlLoop.Controller.Serve | services/mm-controller/src/loop.rs:27-35 | Over any ticks, connections and reports the controller's table goes through exactly their steps, a tick through a list of the table as it then was |
| ControlLoop.ReconciledIsAStep | services/mm-controller/src/loop.rs:43-99 | What the pass does to a machine is a step of the protocol the run theorems are about |
| ControlLoop.ReconciledIsRight | services/mm-controller/src/loop.rs:43-99 | The specification of a pass, stated in terms of the hosts' free vCPUs and memory, is what load-and-act does |
| ControlLoop.Controller.Send | services/mm-controller/src/grpc.rs:47-53 | Appends to a connected agent's channel, reports failure otherwise |
| ControlLoop.Agent.HandleAssignment | services/mm-agent/src/main.rs:298-349 | The agent's branches are the protocol step on the machine concerned and nothing to the others, and it never holds two workers of one machine |
| Cluster.EveryRunIsSimulated | services/mm-controller/src/loop.rs:27-102 | Whatever a cluster goes through, each of its machines goes through a run of the one-machine protocol |
| Cluster.ClusterSinglePlacement | services/mm-agent/src/main.rs:298-349 | In every run of a cluster no machine has workers on two hosts or two on one, and only where it is placed |
| Cluster.ActIsAnAct | services/mm-controller/src/loop.rs:43-99 | Acting on a stale entry is the machine's act on its loaded copy, and adds nothing to other machines' orders |
| Cluster.EveryActIsRight | services/mm-controller/src/loop.rs:57-85 | The same in every state of every cluster run |
| Cluster.PlacementWasBest | services/mm-controller/src/scheduler.rs:28-33 | Wherever a machine is placed in any run, that host was healthy, had room and had most free memory when a pass placed the machine there |
| Cluster.AbortIsAnAbort | services/mm-controller/src/loop.rs:39-54 | A pass that breaks off may have made some writes for the machine it was at and none for the rest |
| Cluster.TakeIsAReceive | services/mm-agent/src/main.rs:298-349 | An agent that handles its first assignment takes that machine's step and none of another's |
| Cluster.IngestIsADelivery | services/mm-controller/src/grpc.rs:325-340 | Storing a report is its machine's delivery and nothing to the others |
| Cluster.LossIsALoss | services/mm-agent/src/main.rs:351-371 | A report that fails to arrive is lost to its machine only |
| Cluster.ConnectIsAReconnect | services/mm-controller/src/grpc.rs:39-43 | A new connection drops what was queued for that host, for every machine, and nothing for other hosts |
| Cluster.PassIsARun | services/mm-controller/src/loop.rs:39-102 | The controller's uninterrupted pass is such steps in a row |
| Cluster.HappeningIsARun | services/mm-controller/src/grpc.rs:325-340 | Each tick, connection or report of the running controller is steps of the cluster |
| Convergence.EveryFairRunConverges | services/mm-controller/src/reconcile.rs:44-70 | From any point where reports agree with the record and the wanted worker lives, in any fair run with a fixed spec, a feasible host and a connected agent, there is a point after which the decision is `None` forever, with the wish met or failed with all retries spent |
| Convergence.ConvergesExactlyWhen | services/mm-controller/src/reconcile.rs:44-70 | After any losses, with nothing under way: such a run converges if and only if a wanted machine's stored state, record and worker agree, and an unwanted one is not running unseen |
| Convergence.UndisturbedIsSound | services/mm-agent/src/main.rs:351-371 | Every point before which no report was lost and no worker ended by itself is one to converge from |
| Convergence.StepProgress | services/mm-controller/src/loop.rs:43-99 | Every step keeps or lowers a well-founded rank, the currently helpful kind of step lowers it, and rest is never left |
| Convergence.RestedIsConverged | services/mm-controller/src/reconcile.rs:57-69 | At rest the observed state, the record and the live worker match the wish, or the budget is spent with no worker |
| Convergence.FairRunsExist | services/mm-controller/src/loop.rs:27-35 | Such fair runs exist from every initial state |
| Convergence.LostReportNeverConverges | services/mm-agent/src/main.rs:351-371 | From every initial state of a wanted machine, a fair run that loses its first report, keeps its spec, host and agent, and never converges |
| ClusterConvergence.EveryMachineConverges | services/mm-controller/src/loop.rs:27-102 | In every fair run of a cluster each machine, from any point from which its spec is fixed, a host fits and nothing of its own fails, converges and stays converged, whatever happens to the others |
| ClusterConvergence.MachineConvergesExactlyWhen | services/mm-controller/src/reconcile.rs:44-70 | After losses of its own, with nothing of its under way, it does so if and only if its row, its host's record and its worker agree or the controller acts on the difference |
| ClusterConvergence.FairClustersExist | services/mm-controller/src/loop.rs:27-102 | For every machine and host there is such a fair run of a cluster, and in it the machine converges |
| RateLimit.TokenBucket.Refill | crates/mm-vmm/src/ratelimit.rs:25-28 | Saturation never shows: the bucket holds the exact refill capped at capacity |
| RateLimit.TokenBucket.Consume | crates/mm-vmm/src/ratelimit.rs:32-39 | All or nothing |
| RateLimit.DeviceRateLimiter.TryAdmit | crates/mm-vmm/src/ratelimit.rs:80-97 | Both buckets are refilled for the whole milliseconds passed; the request is admitted exactly when, clamped, it fits both, each then drops by exactly that, and on refusal by nothing |
| RateLimit.DeviceRateLimiter.TakeWhatIsThere | crates/mm-vmm/src/ratelimit.rs:107-111 | Giving up takes what is there, up to the clamped request |
| RateLimit.DeviceRateLimiter.Serve | crates/mm-vmm/src/ratelimit.rs:80-116 | Any calls, one after another, are such a metered run |
| RateLimit.DeviceRateLimiter.WaitAdmit | crates/mm-vmm/src/ratelimit.rs:103-116 | Refused polls a millisecond apart, then one admission, or past the deadline a charge of what is there, and that only if the milliseconds credited by the last poll do not cover the clamped request |
| RateLimit.ThroughputBound | crates/mm-vmm/src/ratelimit.rs:80-116 | Over every metered run and clock the admitted requests, each clamped, and what giving up took come to at most capacity plus rate times the whole milliseconds elapsed, in either dimension |
| RateLimit.RunIsMetered | crates/mm-vmm/src/ratelimit.rs:80-116 | The runs the waiting theorems are about are metered runs |
| RateLimit.PollsAccumulate | crates/mm-vmm/src/ratelimit.rs:80-97 | After any refused calls the gate holds the refill of all milliseconds they credited: refusals lose no credit |
| RateLimit.AdmittedOnceCredited | crates/mm-vmm/src/ratelimit.rs:80-97 | After any refused calls, a call for a request of any size is admitted exactly when the milliseconds credited by then cover its clamped need |
| RateLimit.SpacedPollsCredit | crates/mm-vmm/src/ratelimit.rs:103-116 | Polls a millisecond apart credit a millisecond each, but for the first |
| RateLimit.RefusalsAreFew | crates/mm-vmm/src/ratelimit.rs:103-116 | So a waiting request is refused no more often than it takes milliseconds to refill it |
| Cpuid.CanonicalForm | crates/mm-vmm/src/machine.rs:1821-1850 | Sorting the masked leaves identifies exactly the lists with the same multiset of them |
| Cpuid.MaskHidesTheVolatile | crates/mm-vmm/src/machine.rs:1826-1846 | Two leaves are masked alike exactly when they differ in volatile fields only |
| Cpuid.CpuidHash | crates/mm-vmm/src/machine.rs:1852-1861 | The nested byte loops compute FNV-1a of the concatenated canonical bytes |
| Cpuid.KnownAnswers | crates/mm-vmm/src/machine.rs:1852-1861 | The published FNV-1a hashes of nothing and of the letter a |
| LittleEndian.LowestFirst | crates/mm-vmm/src/vsock_proto.rs:44-81 | Four bytes are a number with the lowest byte first |
| Cpuid.LeafLayout | crates/mm-vmm/src/machine.rs:1849-1861 | A leaf is hashed as its seven masked words in order, each lowest byte first |
| Cpuid.FingerprintIsStable | crates/mm-vmm/src/machine.rs:1802-1881 | Any reordering and any change of volatile fields leaves the fingerprint |
| Cpuid.HashInputIsExact | crates/mm-vmm/src/machine.rs:1821-1861 | The hashed bytes are equal if and only if the masked leaves are the same multiset |
| Cmdline.HexEncode | crates/mm-host/src/launch.rs:552-558 | Two lowercase digits per byte, in order |
| Cmdline.DecodeHex | crates/mm-init/src/cmdline.rs:85-103 | The pair loop with early exit equals the specification |
| Cmdline.UnHexDomain | crates/mm-init/src/cmdline.rs:85-103 | Decodes exactly even-length strings of hex digits |
| Cmdline.UnHexIgnoresCase | crates/mm-init/src/cmdline.rs:89-94 | Upper and lower case decode alike |
| Cmdline.HexRoundTrip | crates/mm-host/src/launch.rs:552-558 | Decoding the encoding gives the bytes back |
| Cmdline.ArgvRoundTrip | crates/mm-host/src/launch.rs:37-39 | The argv channel returns a list unchanged if and only if its strings are nonempty and NUL-free |
| Cmdline.ArgsRoundTrip | crates/mm-init/src/cmdline.rs:46-52 | The comma form carries nonempty comma-free arguments |
| Cmdline.PortRoundTrip | crates/mm-init/src/cmdline.rs:68 | A decimal port is read back exactly when it fits 32 bits |
| Cmdline.WordsOfJoin | crates/mm-init/src/cmdline.rs:43 | Splitting a line of whitespace-free words gives the words |
| Cmdline.Parse | crates/mm-init/src/cmdline.rs:41-80 | The token loop applies each token in order |
| Cmdline.BuildCmdline | crates/mm-host/src/config.rs:29-52 | The appended line is its tokens joined by spaces |
| BootParams.FixedText | crates/mm-host/src/config.rs:41-44 | The words every guest boots with |
| BootParams.IpParamFields | crates/mm-net/src/bootparam.rs:6-14 | The fields of `ip=` are client, empty, gateway, mask, host name, eth0, off, in that order, and seven exactly if the host name has no colon |
| BootParams.DottedRoundTrip | crates/mm-net/src/bootparam.rs:6-14 | A dotted address reads back as itself |
| BootParams.WorkloadDirective | crates/mm-init/src/cmdline.rs:45 | After any tokens, `mm.workload=` sets the workload and nothing else |
| BootParams.ArgsDirective | crates/mm-init/src/cmdline.rs:46-52 | So does `mm.args=` the arguments |
| BootParams.PortDirective | crates/mm-init/src/cmdline.rs:68 | And `mm.vsock_boot_port=` the port, if it fits 32 bits |
| BootParams.ModeDirective | crates/mm-init/src/cmdline.rs:67 | And `mm.mode=sandbox` the mode; another value changes nothing |
| Cmdline.BootConfigRoundTrip | crates/mm-host/src/config.rs:14-69 | For a whitespace-free hostname the guest parses exactly the workload, arguments, mode, key and nonempty seed the host was given |
| Cmdline.Boot | crates/mm-host/src/launch.rs:98-129 | The host's encoders followed by the guest's parser, end to end |
| Utf8.DecodeEncode | crates/mm-init/src/cmdline.rs:58 | `from_utf8` undoes the encoding of every string |
| Utf8.Layout | crates/mm-init/src/cmdline.rs:58 | The bit patterns of UTF-8 |
| Utf8.EncodeDecode | crates/mm-init/src/cmdline.rs:58 | What `from_utf8` accepts is the encoding of its result: no overlong forms, no surrogates |
| SnapshotStore.PaddedOrder | crates/mm-vmm/src/snapshot/store.rs:69-86 | Below 10^20 the order of padded ids is the order of the numbers |
| SnapshotStore.IdNames | crates/mm-vmm/src/snapshot/store.rs:69-86 | An id is the time, plus one for every name already taken, in at least twenty digits |
| SnapshotStore.SnapshotDir.NewSnapshotDir | crates/mm-vmm/src/snapshot/store.rs:69-86 | The directory is fresh and its id the first free one from now on; fails exactly when a million are taken |
| SnapshotStore.SnapshotDir.List | crates/mm-vmm/src/snapshot/store.rs:91-119 | Exactly the complete snapshots, each once, newest first, for any enumeration order |
| SnapshotStore.ListingIsUnique | crates/mm-vmm/src/snapshot/store.rs:91-119 | A directory has one such listing |
| SnapshotStore.SnapshotDir.Gc | crates/mm-vmm/src/snapshot/store.rs:129-138 | Leaves the first `keep` of the prior list, reports the rest oldest first, touches nothing partial |
| SnapshotStore.GcKeepsTheNewest | crates/mm-vmm/src/snapshot/store.rs:129-138 | Every removed timestamp is older than every kept one |
| SnapshotStore.ReportIsOldestFirst | crates/mm-vmm/src/snapshot/store.rs:129-138 | The report ascends in time |
| SnapshotStore.SnapshotDir.Remove | crates/mm-vmm/src/snapshot/store.rs:141-147 | Removes that entry only; a missing one is no error, something that is not a directory is |
| SnapshotStore.Sanitize | crates/mm-vmm/src/snapshot/store.rs:162-178 | A nonempty component of safe characters that is neither `.` nor `..` |
| SnapshotStore.SanitizeExactly | crates/mm-vmm/src/snapshot/store.rs:162-178 | Letters, digits, `-`, `_` and `.` stay in place, anything else becomes `_`; only the empty name, `.` and `..` become `_` as a whole |
| SnapshotStore.IdsAreSafe | crates/mm-vmm/src/snapshot/store.rs:152-178 | Every allocated id is its own component |
| Addresses.Ipam.Allocate | crates/mm-net/src/ipam.rs:32-46 | The lowest free usable address; fails exactly when all are taken |
| Addresses.Ipam.Reserve | crates/mm-net/src/ipam.rs:55-57 | Marks exactly that host |
| Addresses.Ipam.Serve | crates/mm-net/src/ipam.rs:32-57 | Over any allocations, reservations and releases the pool gives the addresses and holds the hosts of the specification |
| Addresses.GivenOnce | crates/mm-net/src/ipam.rs:32-57 | Over any such use, an address given twice was released in between |
| Addresses.ReleasedIsNext | crates/mm-net/src/ipam.rs:48-50 | A released host is the next one allocated, unless a lower one was free already |
| Addresses.ReleasedComesBack | crates/mm-net/src/ipam.rs:32-50 | A released host is allocated again after exactly as many requests as there are free hosts below it |
| Addresses.PoolExhausts | crates/mm-net/src/ipam.rs:32-46 | A fresh pool meets exactly 253 requests |
| Addresses.UsableCount | crates/mm-net/src/ipam.rs:32-46 | 253 usable hosts, whatever the gateway |
| Addresses.LinkBlock | crates/mm-net/src/clone_net.rs:37-50 | A slot below 16384 owns the four addresses from 10.201.0.0 plus four times the slot, its ends inside them without overflow; any other slot has none |
| Addresses.BlocksAreDisjoint | crates/mm-net/src/clone_net.rs:323-331 | Blocks of different slots share no address, and none reaches 10.0.0.0/24 |
| Addresses.Store.NextAddress | crates/mm-host/src/launch.rs:57-61 | A pool seeded from all records gives the lowest address no record has, failing exactly when all 253 are recorded |
| Addresses.Store.Launch | apps/mm/src/commands/run.rs:72-106 | A new record with the lowest free address, or an exact reason and no change |
| Addresses.Store.FreeSlot | apps/mm/src/commands/branch.rs:55-58 | The lowest free slot |
| Addresses.Store.Branch | apps/mm/src/commands/branch.rs:44-133 | A new record with the lowest free address and slot, or one exact reason, decided by the records and the launch, and no change; the slot never overflows |
| Addresses.Store.Rm | apps/mm/src/commands/rm.rs:13-34 | Removes exactly that record when permitted |
| Addresses.Store.Session | apps/mm/src/commands/branch.rs:44-133 | Over any sequence of commands addresses and slots stay usable and pairwise distinct, and a machine nobody removes keeps its record |
| Addresses.ClonesDoNotCollide | apps/mm/src/commands/branch.rs:52-72 | Two live clones share no slot, no address and no address of their link blocks |
| Addresses.ClonesAreFew | apps/mm/src/commands/branch.rs:55-58 | Every clone holds an address of its own, so at most 253 slots are in use |

## Left out

- Barrier timeouts and eventfd failures: runs without them; the liveness theorem says that without timeouts the waits still end. After an eventfd failure `quiesce_at_barrier` returns with the request still set, so the reusability theorem does not cover it.
- Dirty logging is one flag for all memory slots: `set_dirty_logging` goes slot by slot and may fail after switching some of them, which the model does not tell apart from failing before the first.
- Weak memory ordering: atomics are sequentially consistent steps.
- The barrier, its participants and the orchestrator are values stepped by a transition relation; the in-place update of the atomics and slots is one step each. Slots, clock and interrupt-controller captures beyond an abstract local state are not modelled.
- CreditTracker and the connections of the muxer are values held in the worker's map; aliasing between them does not arise in the code.
- Virtio queues are a number of posted buffers; a chain is large enough for its packet and guest-memory access does not fail. Packets are header and payload; their bytes are covered by the header round trip.
- Parsing the `CONNECT` line of a host socket: the model accepts a socket at its completed handshake.
- The assignment channel's capacity of 64 is unbounded in the model; a full channel would delay the pass, not lose an assignment.
- A failing write of the agent's own records, and a stop whose worker takes a while to die: a record is written with the boot or stop it records.
- Deletion of a spec, and the decision's destroy branch beyond `Decide` itself.
- `sort_unstable`, `sort_by` and set or map iteration are library calls: an insertion sort proved correct, and an arbitrary order.
- The JSON body of an exec frame is any function from bytes to an optional frame.
- The FNV-1a hash may collide; only its input is proved exact.
- Addresses.Store.Launch: does not model that a restored guest keeps using the address captured in its RAM, because the registry records the newly allocated one.
- SnapshotStore.SnapshotDir.Gc: does not model a removal that fails half-way.
- KVM, mmap, poll, signals, the jailer, NAT and bridge set-up, OCI images, PID 1 beyond its command line, the balloon device, e820 and boot tables, REST, gRPC and TLS plumbing: input and output, or code whose properties follow from reading it.
