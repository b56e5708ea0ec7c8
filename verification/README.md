# Verification of the service map, the socket tracer, the Kubernetes cache and the program manager

The agent watches the network traffic of a Kubernetes node from eBPF probes. This project models
the parts of it that keep state across events, and proves what holds over every run of them.

* **The service map's byte ledger.** The `conn-tracer` probes record, per connection, the bytes a
  socket has sent (`ConnTracer`). The agent polls that map from two places at once, adds the bytes
  up per pair of workloads, and moves finished connections into a running total (`ServiceMap`).
  `PollProtocol` lets kernel events and the single map calls of any number of polls interleave;
  `Ledger` proves, over those runs, how the running total relates to what was recorded; `TornPolls`
  has the runs in which it goes wrong; `Answers` bounds what a poll returns meanwhile;
  `Pipeline` follows a connection from its handshake to the answer; and `Export` proves that nothing
  is lost between the totals and the exported metric.
* **The socket tracer's data events.** `DataEvents` cuts a buffer or an iovec list into bounded
  events; `ConnRegistry` keeps connection records under a packed key; `AcceptProbes` and
  `SocketGate` are the protocols by which entry, hook and return probes of one system call find
  each other.
* **The Kubernetes cache.** `OwnerCache` is the walk up a pod's chain of controllers, its memo table,
  and the IP index three watchers write.
* **The program lifecycle.** `Lifecycle` is load, unload, the spawned task and the program's own
  state as one state machine.

Each stateful component is a class whose methods follow the program step by step. Every method is
proved against a function that says what one step does to the state (`After`, `Next`, `Updated`,
`Credit`, `Chunks`, `Gather`); the theorems are about those functions, over all runs.

`dafny verify dfyconfig.toml` checks everything. `Common`, `Sums`, `Traces` and `Decimal` hold
shared types, sums over finite maps, runs of a state machine, and decimal printing.

## What turned out not to hold

* *A server-side key may be counted twice, or its bytes lost.* SYN_RECV stores its entry as inactive,
  so a poll can carry a key that is still live. If it folds the key after the first data has arrived,
  the key is folded again after its close (`TornPolls.CountsTwice`: 250 bytes booked for 150). If the
  data arrives between the poll's `get` and its `remove`, it is booked nowhere
  (`TornPolls.LosesBytes`: 0 for 100). `Ledger.Identity` has the exact difference for every run.
  `Ledger.AccountedExactly` has the exact condition: the program accounts for what was recorded, at
  every moment, if and only if no event records a key after bytes were folded from it and every
  `remove` finds the bytes its `get` found. The condition speaks of every moment because a loss can
  hide an earlier excess (`TornPolls.LossHidesExcess`); with `get` and `remove` undivided by events it
  is also exact for the end of the run alone (`Ledger.ConservedExactly`). Pairs seen from the client
  side always meet it (`Ledger.ClientSideExact`).
* *An exported total can fall.* A poll leaves out the connections it folds, so a connection that closes
  vanishes from the next answer and is back in the one after (`ServiceMap.CloseVanishes`).
  `ServiceMap.AnswersFall` has the exact condition for two successive answers.
* *Local traffic is counted after all.* The filters for connections to itself and to loopback are for
  active entries; once inactive such an entry is folded like any other
  (`ServiceMap.LocalCountsOnceInactive`).
* *The chunks of a plain buffer do not advance `position`.* The field is documented as the byte
  position of the event on the connection
  (`ebpf/socket-tracer/socket-tracer-common/src/lib.rs:169-172`). `DataEvents.PlainPositions`: the
  positions are right if and only if the buffer fits one chunk.
* *Connection records never count.* `process_data` counts in a copy that is not stored back, so the
  stored counters stay zero, every call starts at position zero again, and a report is sent if and
  only if one call moves 65536 bytes by itself (`ConnRegistry.ReportsNeedOneLargeCall`).
* *A failed `writev` leaves its slot behind.* `SocketGate.SlotSurvives` has the exact condition for
  every trace, and `SocketGate.OrphanReturn` when a later return without an entry of its own then
  processes data; `SocketGate.StaleSlotProcesses` is such a trace. Calls whose entry probe
  fires are not affected (`SocketGate.GateExact`).
* *Two loads in quick succession spawn two tasks* (`Lifecycle.TwoLoadsTwoTasks`), since the state
  changes only when a task first runs. `Lifecycle.OneTaskExactly` has the exact condition. After them
  an unload can return with the forgotten task still alive (`Lifecycle.UnloadMisses`), which may then
  make the program refuse the next load (`Lifecycle.LateTaskBlocks`). `Lifecycle.UnloadLeaves` says
  for every run which tasks an unload leaves, and `Lifecycle.LoadSpawns` when a load is refused.
* *A cyclic chain of owners is walked forever* (`OwnerCache.SelfOwnedNeverEnds`).
  `OwnerCache.WalkEnds` has the exact condition.
* *Connection ids recur.* An id is the low half of a nanosecond clock (`ConnTracer.IdsCollide`), so
  that ids are fresh is an assumption below and not a theorem.

## Assumptions

They are stated as predicates, and theorems name them in `requires`.

* `ConnTracer.Legal`: ids drawn from the clock are new; a handshake (SYN_SENT or SYN_RECV) starts
  only on a socket that has no active entry, which leaves simultaneous open possible; a socket
  closes with the address tuple its active entries were recorded under.
* `Ledger.Orderly`: legal events that record no bytes at SYN_RECV and happen while no poll is under
  way. Polls may still overlap each other.
* A fixed `Resolver` from keys to pairs: the IP index does not change during a ledger run. A single
  poll is proved with an index that may change between any two lookups (`ServiceMap.Lookups`).
* `Lifecycle.Unhurried`: every task takes its first step before the next load.
* `OwnerCache.AllWalkable`: when a pod is first applied, its chain of controllers does not come back to
  itself; afterwards it may.
* `Answers.CountersRise`: a socket's sent-bytes counter does not fall between two recordings.
* `ServiceMap.NoneShrinks`: the same between two polls, for connections open at both.
* `ConnRegistry.Rising`: the clock rises strictly from call to call.

## Model

| member | source | states |
|---|---|---|
| `ConnTracer.Tracer.TrySockConnTracer` | ebpf/conn-tracer/conn-tracer-ebpf/src/main.rs:41-90 | The data probe does `After` with a `Data` event to both maps, and fails exactly for an unreadable socket or an inactive socket record |
| `ConnTracer.Tracer.HandleTcpSynSent` | ebpf/conn-tracer/conn-tracer-ebpf/src/main.rs:171-186 | SYN_SENT tracks the socket as an active client under a new id and touches no connection |
| `ConnTracer.Tracer.HandleTcpSynRecv` | ebpf/conn-tracer/conn-tracer-ebpf/src/main.rs:188-218 | SYN_RECV tracks the socket as an active server, and stores its entry as inactive unless it has no peer address |
| `ConnTracer.Tracer.HandleTcpClose` | ebpf/conn-tracer/conn-tracer-ebpf/src/main.rs:220-245 | CLOSE forgets the socket and stores the final bytes as inactive under the tracked key, or under a made-up one |
| `ConnTracer.Tracer.TryStateTracer` | ebpf/conn-tracer/conn-tracer-ebpf/src/main.rs:159-169 | The state-change tracepoint acts on three TCP states, ignores the others, and fails exactly when the handler it picks cannot read the socket |
| `ConnTracer.ClosedUntouched` | ebpf/conn-tracer/conn-tracer-ebpf/src/main.rs:41-90 | No legal event ever writes a key again once its socket has closed |
| `ConnTracer.InvStep` | ebpf/conn-tracer/conn-tracer-ebpf/src/main.rs:41-245 | Every legal event keeps: socket records are active with distinct ids; active entries have an owner; closed keys are final; inactive entries are closed or stem from SYN_RECV |
| `ConnTracer.InvRemove` | agent/src/progs/service_map/program.rs:193-193 | Deleting any entries from user space keeps that invariant |
| `ConnTracer.IdsCollide` | ebpf/conn-tracer/conn-tracer-ebpf/src/main.rs:144-146 | Two clock readings give the same id if and only if they lie a multiple of 2^32 nanoseconds apart |
| `ConnTracer.StatesPicked` | ebpf/conn-tracer/conn-tracer-ebpf/src/main.rs:159-169 | State 2 is handled as SYN_SENT, 3 as SYN_RECV, 7 as CLOSE, and no other state at all |
| `Pipeline.RecordedExactly` | ebpf/conn-tracer/conn-tracer-ebpf/src/main.rs:47-63 | In a sound state an event writes an entry if and only if its socket can be read and, for data and SYN_RECV, has a peer; the entry then has the addresses and counters read, active for data only |
| `Pipeline.EntryShowsLastEvent` | ebpf/conn-tracer/conn-tracer-ebpf/src/main.rs:41-245 | In every legal run each stored entry shows exactly what the last event that recorded it read, and is active if and only if that was data |
| `Pipeline.TrackedExactly` | ebpf/conn-tracer/conn-tracer-ebpf/src/main.rs:53-90 | In every run a socket is tracked if and only if the last event with an effect on it was not a close |
| `Pipeline.IdsTellOrigin` | ebpf/conn-tracer/conn-tracer-ebpf/src/main.rs:130-198 | In every legal run, all sockets and keys under an id drawn at SYN_SENT have role 1 and the process drawn for, at SYN_RECV role 2 and process 0, elsewhere the role the backlog tells |
| `Pipeline.ClientAnswered` | agent/src/progs/service_map/program.rs:151-181 | A connection tracked from SYN_SENT is answered, with its bytes, under its own workload as client, its peer's as server, role 1 and the peer's port |
| `Pipeline.ServerAnswered` | agent/src/progs/service_map/program.rs:151-181 | A connection tracked from SYN_RECV is answered under its peer's workload as client, its own as server, role 2 and its own port |
| `ServiceMap.EndsAgree` | agent/src/progs/service_map/program.rs:151-181 | Both ends of one TCP connection resolve to the same client, server and server port, or neither resolves |
| `ServiceMap.PairOfKey` | agent/src/progs/service_map/program.rs:151-181 | The client, server and port of every key of role 1 and of role 2, and nothing for any other role or an unknown address |
| `ServiceMap.LoopbackText` | agent/src/progs/service_map/program.rs:203-206 | The addresses left out as loopback are exactly those whose dotted form starts with 127 |
| `ServiceMap.CreditTotal` | agent/src/progs/service_map/program.rs:101-130 | In the reference `Credit`, each pair's total is its base plus the bytes of the entries that resolve to it, whatever the iteration order |
| `ServiceMap.CreditInsert` | agent/src/progs/service_map/program.rs:117-122 | One more entry is one more `entry().and_modify().or_insert()`, so the loop's running map refines the reference sum |
| `ServiceMap.FoldOneMore` | agent/src/progs/service_map/program.rs:183-201 | Folding a key that is still there adds its bytes once; folding it again changes nothing |
| `ServiceMap.PollSpelledOut` | agent/src/progs/service_map/program.rs:101-138 | An answer is the running total plus the bytes of entries that are active, not to themselves, not to 127.x and of known role; a fold adds those of all other than active entries; exactly the active ones stay |
| `ServiceMap.LocalCountsOnceInactive` | agent/src/progs/service_map/program.rs:105-111 | A connection to itself or to 127.x adds nothing to an answer while active, and all its bytes to the running total once inactive |
| `ServiceMap.QuietPolls` | agent/src/progs/service_map/program.rs:88-141 | On a quiet map the second poll exceeds the first by exactly the pending inactive bytes, and the third equals the second |
| `ServiceMap.AnswerDrops` | agent/src/progs/service_map/program.rs:103-108 | When an open connection goes inactive, the next answer for its pair drops by exactly the bytes it showed |
| `ServiceMap.AnswersFall` | agent/src/progs/service_map/program.rs:88-141 | Of two successive answers for a pair the second is smaller if and only if the connections no longer open had shown more than the first poll folded and the open ones gained |
| `ServiceMap.CloseVanishes` | agent/src/progs/service_map/program.rs:103-106 | A lone connection that closes is missing from the next answer and back in the one after |
| `ServiceMap.ServiceMap.Reset` | agent/src/progs/service_map/program.rs:80-86 | Reset clears the maps, metadata and totals, and keeps the state and the cache manager |
| `ServiceMap.ServiceMap.Init` | agent/src/progs/service_map/program.rs:211-241 | Init fills three fields in any case, succeeds if and only if the map is named and can be opened, and then holds it |
| `ServiceMap.ServiceMap.OpenAndLook` | agent/src/progs/service_map/program.rs:211-260 | A program that opens answers its first poll from the map it opened |
| `ServiceMap.ServiceMap.TakeSnapshot` | agent/src/progs/service_map/program.rs:88-130 | The answer is old past plus eligible active bytes under whatever the shared index holds at each lookup, the stale list is the inactive keys, and any failing read, missing map or missing cache manager is an error |
| `ServiceMap.ServiceMap.MergePast` | agent/src/progs/service_map/program.rs:125-130 | Merging adds the running total pair by pair |
| `ServiceMap.ServiceMap.HandleInactiveConnection` | agent/src/progs/service_map/program.rs:183-201 | A key still stored is removed and its bytes booked if it resolves; an absent key is an error and books nothing; an absent map is a panic |
| `ServiceMap.ServiceMap.FoldInactive` | agent/src/progs/service_map/program.rs:132-138 | The fold books exactly the listed keys still stored, each once, and panics exactly when the map was reset in between and there is something to fold |
| `ServiceMap.ServiceMap.Poll` | agent/src/progs/service_map/program.rs:88-141 | A poll with no step of others between its halves answers old past plus eligible active bytes, makes past old past plus resolvable inactive bytes, keeps exactly the active entries, and changes nothing when it fails, with an index that may change at each lookup |
| `Ledger.BalancedStep` | agent/src/progs/service_map/program.rs:183-201 | Every event, see, get and remove keeps the books: per key, folded plus stored plus lost is last recorded plus folded early plus extra; per pair, past is what was folded |
| `Ledger.KeyIdentity` | agent/src/progs/service_map/program.rs:189-199 | For every run and key: bytes folded, stored and lost add up to bytes last recorded, folded before that recording, and folded without being stored |
| `Ledger.Identity` | agent/src/progs/service_map/program.rs:88-201 | The same for every run and pair, with the running total and the stored entries on the left: the exact amount by which the program is off |
| `Ledger.AccountedExactly` | agent/src/progs/service_map/program.rs:88-201 | For every run and pair: accounted equals recorded at every moment if and only if no event records a key of the pair after bytes were folded from it and every remove finds the bytes its get found |
| `Ledger.KeyAccountedExactly` | agent/src/progs/service_map/program.rs:189-193 | The same if-and-only-if for every single key |
| `Ledger.ConservedExactly` | agent/src/progs/service_map/program.rs:189-193 | With no event on a key between its get and its remove, accounted is recorded plus early, and they agree at the end of the run if and only if no event recorded a key of the pair after bytes were folded from it |
| `Ledger.OnlyRecvDisturbed` | ebpf/conn-tracer/conn-tracer-ebpf/src/main.rs:188-218 | In every reachable state a legal step disturbs only keys whose id was drawn at SYN_RECV |
| `Ledger.ClientSideExact` | agent/src/progs/service_map/program.rs:101-199 | In every legal interleaving of single steps, each pair seen from its client side is accounted for exactly at every moment |
| `Ledger.ClientSideOfProgram` | agent/src/progs/service_map/program.rs:151-181 | The same under the program's own resolution of keys |
| `Ledger.SettledStep` | ebpf/conn-tracer/conn-tracer-ebpf/src/main.rs:188-245 | Over orderly steps only closed keys ever have bytes to fold, polls hold what the map holds, and no step disturbs a key |
| `Ledger.Conservation` | agent/src/progs/service_map/program.rs:101-199 | Over every orderly run, each pair's past plus the bytes of its stored entries is, at every moment, the sum over all its keys ever recorded of the socket's own sent-bytes counter at the last recording |
| `Ledger.NoOverflow` | agent/src/progs/service_map/program.rs:117-130 | In every run, as long as a pair's recorded, early and extra bytes are below 2^64, so are its running total, every answer and the next running total |
| `PollProtocol.GetRemoveIsHandle` | agent/src/progs/service_map/program.rs:183-201 | A get and a remove with nothing in between do what `HandleInactiveConnection` does |
| `PollProtocol.SoundStep` | agent/src/progs/service_map/program.rs:88-201 | Every single step of any poll, and every legal kernel event, keeps: what polls carry and what was folded is closed, with its closing bytes, and gone from the map once folded |
| `PollProtocol.ExactlyOnceFold` | agent/src/progs/service_map/program.rs:183-201 | In every interleaving of legal events with any number of overlapping polls, a key whose id was not drawn at SYN_RECV is folded exactly once, with the socket's own sent-bytes counter at close, if it is closed and gone from the map, and otherwise not at all |
| `PollProtocol.TrackerInvariant` | ebpf/conn-tracer/conn-tracer-ebpf/src/main.rs:53-60 | In every reachable state socket records are active, so the early error is out of reach; ids are distinct; every active entry belongs to exactly one tracked socket |
| `PollProtocol.PastIsFolds` | agent/src/progs/service_map/program.rs:195-199 | Over every run each pair's running total is the sum of its folds and nothing else |
| `PollProtocol.PollIsRun` | agent/src/progs/service_map/program.rs:88-141 | What `Poll` does to the map and the running total is a run of single steps of one poll |
| `TornPolls.TornResolves` | agent/src/progs/service_map/program.rs:151-181 | The key of the runs below resolves under an index that holds its two addresses |
| `TornPolls.CountsTwice` | ebpf/conn-tracer/conn-tracer-ebpf/src/main.rs:188-218 | A legal run in which one SYN_RECV key is folded twice and 250 bytes are booked for 150 |
| `TornPolls.LosesBytes` | agent/src/progs/service_map/program.rs:189-193 | A legal run in which data arrives between get and remove and 0 bytes are booked for 100 |
| `TornPolls.LossHidesExcess` | agent/src/progs/service_map/program.rs:189-193 | A legal run that disturbs a key twice and yet ends with exactly the recorded bytes booked |
| `PollProtocol.OverlappingPolls` | agent/src/progs/service_map/program.rs:132-141 | Any number of overlapping polls of a quiet map leave past and map exactly as one poll does |
| `Answers.QuietAnswer` | agent/src/progs/service_map/program.rs:101-130 | With nothing going on meanwhile, an answer put together key by key is that of `Poll` |
| `Answers.AnswerBound` | agent/src/progs/service_map/program.rs:93-130 | In every run that does not disturb the pair, whatever happens while a poll walks the map, it answers at most what has been recorded when the walk ends |
| `Answers.ClientAnswerBound` | agent/src/progs/service_map/program.rs:93-130 | That holds in every legal interleaving for each pair seen from its client side |
| `Export.LabelsInjective` | agent/src/progs/service_map/program.rs:284-317 | Distinct pairs have distinct label sets, whatever the hash does |
| `Export.LabelsNamePair` | agent/src/progs/service_map/program.rs:287-315 | The label set of a pair names its client, server, port and role each in its own field, and the three ids are hashes of those names |
| `Export.BuildFamily` | agent/src/progs/service_map/program.rs:284-317 | The family has one sample per polled pair, with its value, and no other sample |
| `Export.SampleIsValue` | agent/src/progs/service_map/program.rs:316-316 | A sample shows the polled value if and only if the value is below 2^63 |
| `Export.CastKeepsBits` | agent/src/progs/service_map/program.rs:316-316 | A sample is the value up to a multiple of 2^64, within the signed range |
| `Decimal.RoundTrip` | agent/src/progs/service_map/program.rs:313-314 | Reading a printed number back gives the number, and only digits are printed |
| `Decimal.Ipv4Injective` | agent/src/progs/service_map/program.rs:143-149 | Distinct addresses have distinct dotted forms, so the index never mixes up two addresses |
| `DataEvents.Chunking` | ebpf/socket-tracer/socket-tracer-ebpf/src/lib.rs:331-352 | A buffer of n bytes gives min(84, ceil(n/30720)) events with sizes adding up to n if and only if n is at most 83*30720 + 0x7fffffff; payloads are at most 30720 bytes and concatenate to the leading min(n, 84*30720) bytes for every n up to 0x7fffffff |
| `DataEvents.PlainPositions` | ebpf/socket-tracer/socket-tracer-ebpf/src/lib.rs:331-352 | The events of a plain buffer of any size tile its interval if and only if the buffer fits one chunk |
| `DataEvents.GatherTiles` | ebpf/socket-tracer/socket-tracer-ebpf/src/lib.rs:354-383 | The events of an iovec list tile the transferred interval, without gap or overlap, if and only if no slice exceeds 0x7fffffff bytes |
| `DataEvents.SmallTotalFits` | ebpf/socket-tracer/socket-tracer-ebpf/src/lib.rs:374-377 | With a total up to 0x7fffffff no slice is oversized |
| `DataEvents.GatherPayloads` | ebpf/socket-tracer/socket-tracer-ebpf/src/lib.rs:372-379 | Each payload is the first min(msg_size, 30720) bytes of its own slice of the concatenated data |
| `DataEvents.Gathering` | ebpf/socket-tracer/socket-tracer-ebpf/src/lib.rs:354-383 | For every list of up to 882 iovecs and every total up to 0x7fffffff, the events tile [base, base + min(total, sum of the lengths)) and carry their own slices; of a longer list the first 882 count |
| `DataEvents.Submitter.PerfSubmitBuf` | ebpf/socket-tracer/socket-tracer-ebpf/src/lib.rs:287-329 | One event with at most 30720 bytes for a readable piece of 1 to 0x7fffffff bytes, none for an empty or oversized one, an error for an unreadable one |
| `DataEvents.Submitter.SubmitDataEvent` | ebpf/socket-tracer/socket-tracer-ebpf/src/lib.rs:331-352 | The loop outputs exactly `Chunks`, and fails if and only if a byte it copies is unreadable, after a leading part of them |
| `DataEvents.Submitter.SubmitDataEventIovecs` | ebpf/socket-tracer/socket-tracer-ebpf/src/lib.rs:354-383 | The loop outputs exactly `Gather` of the first 882 iovecs and moves the position behind it; it fails if and only if an iovec or its data is unreadable, after a leading part |
| `ConnRegistry.ShiftOr` | ebpf/socket-tracer/socket-tracer-ebpf/src/lib.rs:583-585 | The number the model uses as key is the shifted process id or-ed, bit by bit, with the sign-extended descriptor |
| `ConnRegistry.PackingCollides` | ebpf/socket-tracer/socket-tracer-ebpf/src/lib.rs:583-585 | Two (process, descriptor) pairs share a key if and only if the descriptors agree and the processes do too or the descriptor is negative |
| `ConnRegistry.Record.UpdateConnStats` | ebpf/socket-tracer/socket-tracer-ebpf/src/lib.rs:404-431 | One update counts in its direction and reports the new total when it is 65536 above the last reported one |
| `ConnRegistry.ReportingLag` | ebpf/socket-tracer/socket-tracer-ebpf/src/lib.rs:404-431 | Over every sequence of positive counts on one record: write plus read is their sum, less than 65536 bytes stay unreported, reports rise by at least 65536 and number at most total/65536 |
| `ConnRegistry.CountedByDirection` | ebpf/socket-tracer/socket-tracer-ebpf/src/lib.rs:410-417 | Over every sequence of updates written bytes are the sum of those sent, read bytes of those received |
| `ConnRegistry.ConnTable.SubmitOpenEvent` | ebpf/socket-tracer/socket-tracer-ebpf/src/lib.rs:217-257 | Opening stores a new record under the packed key unless the address cannot be read |
| `ConnRegistry.ConnTable.ProcessSyscallOpen` | ebpf/socket-tracer/socket-tracer-ebpf/src/kprobes/connect.rs:49-81 | The accept and connect returns open a record only for a traced process, a successful call and a non-negative descriptor, and fail only when the address cannot be read |
| `ConnRegistry.ConnTable.GetOrCreateConnInfo` | ebpf/socket-tracer/socket-tracer-ebpf/src/lib.rs:608-622 | The stored record is returned unchanged; a missing one is created and stored |
| `ConnRegistry.ConnTable.ProcessData` | ebpf/socket-tracer/socket-tracer-ebpf/src/lib.rs:441-549 | A data call without a buffer or iovecs does nothing; any other leaves the stored records as they were except for creating a missing one, reports exactly when it counts and its copy is due, and fails exactly when the steps before counting or a due report do |
| `ConnRegistry.ConnTable.ProcessSyscallClose` | ebpf/socket-tracer/socket-tracer-ebpf/src/kprobes/close.rs:49-100 | Close removes the record, except for a failed or untraced call; a missing record or a report that cannot be built is an error that removes nothing |
| `ConnRegistry.KeyAgreement` | ebpf/socket-tracer/socket-tracer-ebpf/src/lib.rs:583-622 | In every reachable state the record found for a process and descriptor is that process' and descriptor's own |
| `ConnRegistry.OnlyTraced` | ebpf/socket-tracer/socket-tracer-ebpf/src/lib.rs:456-467 | A call of a process that is not traced, or on a negative descriptor, changes nothing |
| `ConnRegistry.OpenedStays` | ebpf/socket-tracer/socket-tracer-ebpf/src/lib.rs:217-231 | A record keeps the process, start time, descriptor, clock reading, role and address it was opened with, through any calls on other descriptors |
| `ConnRegistry.UnreadableOpensNothing` | ebpf/socket-tracer/socket-tracer-ebpf/src/lib.rs:222-231 | An open whose address cannot be read leaves the map as it was |
| `ConnRegistry.DataMakesUnknown` | ebpf/socket-tracer/socket-tracer-ebpf/src/lib.rs:602-622 | Data on a connection nobody opened makes a record of unknown role and family 0xff; an existing record is left alone |
| `ConnRegistry.CloseRemoves` | ebpf/socket-tracer/socket-tracer-ebpf/src/kprobes/close.rs:69-97 | In every reachable state a traced close removes its record unless the family is traced and the report cannot be built |
| `ConnRegistry.CountsExactly` | ebpf/socket-tracer/socket-tracer-ebpf/src/lib.rs:448-477 | A data call gets as far as counting exactly for a traced process, a buffer, a positive count and family 0xff, 2 or 10 |
| `ConnRegistry.ReportsNeedOneLargeCall` | ebpf/socket-tracer/socket-tracer-ebpf/src/lib.rs:474-546 | In every reachable state stored counters are zero, so a call is due for a report if and only if it moves 65536 bytes by itself |
| `ConnRegistry.IncarnationsDiffer` | ebpf/socket-tracer/socket-tracer-ebpf/src/lib.rs:587-600 | With a rising clock, two incarnations of a descriptor separated by a removing close never share a connection id |
| `AcceptProbes.AcceptMap.TryEntryAccept` | ebpf/socket-tracer/socket-tracer-ebpf/src/kprobes/accept.rs:21-35 | The entry opens the thread's slot with its address and no socket, over whatever was there |
| `AcceptProbes.AcceptMap.TryRetSockAlloc` | ebpf/socket-tracer/socket-tracer-ebpf/src/kprobes/sockalloc.rs:17-27 | The first non-null socket fills the thread's pending slot; without a slot it is an error |
| `AcceptProbes.AcceptMap.TryRetAccept` | ebpf/socket-tracer/socket-tracer-ebpf/src/kprobes/accept4.rs:42-52 | The return processes the slot's content and empties the slot even when processing fails |
| `AcceptProbes.AcceptMatching` | ebpf/socket-tracer/socket-tracer-ebpf/src/kprobes/accept.rs:21-52 | In every interleaving of threads a return finds its own entry's address and the first non-null socket its own thread allocated since, and leaves the slot empty |
| `SocketGate.DataMaps.TryEntry` | ebpf/socket-tracer/socket-tracer-ebpf/src/kprobes/read.rs:18-38 | The entry opens an unmarked slot for its call, over whatever was there |
| `SocketGate.DataMaps.TryHook` | ebpf/socket-tracer/socket-tracer-ebpf/src/kprobes/ssendmsg.rs:17-43 | The hook marks the thread's slot of its side and no other |
| `SocketGate.DataMaps.TryReturnRead` | ebpf/socket-tracer/socket-tracer-ebpf/src/kprobes/readv.rs:48-63 | A read or readv return frees the slot in any case and passes on the outcome of processing, if it processed |
| `SocketGate.DataMaps.TryReturnWritev` | ebpf/socket-tracer/socket-tracer-ebpf/src/kprobes/writev.rs:48-62 | A writev return keeps the slot and fails when processing fails |
| `SocketGate.GateExact` | ebpf/socket-tracer/socket-tracer-ebpf/src/kprobes/writev.rs:20-62 | In every interleaving a return processes data if and only if its own thread's hook fired since its own entry, and then with that entry's arguments, whatever stood in the slot before |
| `SocketGate.GateBySide` | ebpf/socket-tracer/socket-tracer-ebpf/src/kprobes/ssendmsg.rs:17-43 | A writev return processes data exactly if the sending hook fired since its entry, a read or readv return exactly if the receiving one did |
| `SocketGate.SlotSurvives` | ebpf/socket-tracer/socket-tracer-ebpf/src/kprobes/writev.rs:48-62 | For every trace: a return leaves its slot behind if and only if it is a writev whose hook fired and whose processing failed |
| `SocketGate.OrphanReturn` | ebpf/socket-tracer/socket-tracer-ebpf/src/kprobes/writev.rs:48-62 | For every trace: a later return without an entry of its own processes data, under the old call's arguments, if and only if the return before it left its slot behind |
| `SocketGate.StaleSlotProcesses` | ebpf/socket-tracer/socket-tracer-ebpf/src/kprobes/writev.rs:53-59 | A four-event trace in which that happens |
| `OwnerCache.FindController` | agent/src/managers/cache.rs:204-209 | The result is the first reference marked as controller, and none if and only if there is none |
| `OwnerCache.KindsWalked` | agent/src/managers/cache.rs:93-183 | The walk looks into the stores of ReplicaSet, Deployment, DaemonSet, StatefulSet, Job and CronJob, and of no other kind |
| `OwnerCache.TwoLinks` | agent/src/managers/cache.rs:200-224 | A pod owned by an object of one of those kinds that has a topmost controller belongs to that controller; with an owner of another kind it belongs to itself |
| `OwnerCache.WalkEnds` | agent/src/managers/cache.rs:211-218 | The walk ends if and only if the chain never comes back, and then within one link per stored object |
| `OwnerCache.SelfOwnedNeverEnds` | agent/src/managers/cache.rs:99-112 | From a ReplicaSet that is its own controller the walk never ends |
| `OwnerCache.Resolve` | agent/src/managers/cache.rs:200-224 | On an acyclic chain there is a workload: the last link of a chain of two links or more, else the pod itself |
| `OwnerCache.WorkloadUnique` | agent/src/managers/cache.rs:200-224 | That description fits one workload only |
| `OwnerCache.WalkOwners` | agent/src/managers/cache.rs:200-224 | The loop terminates and returns that workload |
| `OwnerCache.CacheManager.ResolvePodDescriptor` | agent/src/managers/cache.rs:185-228 | A remembered pod gets its remembered answer; any other gets the walk's, which is remembered |
| `OwnerCache.CacheManager.ApplyPod` | agent/src/managers/cache.rs:245-263 | A pod event writes every address the pod lists, skipping empty ones, and nothing else |
| `OwnerCache.CacheManager.ApplyNode` | agent/src/managers/cache.rs:284-300 | A node event writes every address the node lists, and nothing else |
| `OwnerCache.CacheManager.ApplyService` | agent/src/managers/cache.rs:320-347 | A service event writes every cluster address except "None", and nothing else |
| `OwnerCache.FirstAnswerForever` | agent/src/managers/cache.rs:185-228 | Over every run, owners changing as they may after a pod's first event, even into a cycle, a pod is remembered if and only if it was applied, under the workload its first event resolved to |
| `OwnerCache.MemoAgreement` | agent/src/managers/cache.rs:185-228 | With stable owners the remembered answer is what the uncached walk returns for each of the pod's events |
| `OwnerCache.EventWrites` | agent/src/managers/cache.rs:245-347 | One event makes known every address in its own fields, a pod's under the workload remembered for it, a node's and a service's under their own, and changes no other address |
| `OwnerCache.LastWriterWins` | agent/src/managers/cache.rs:245-347 | After every interleaving an address is known if and only if some event has it in its fields, and then under the remembered pod, the node or the service of the last event that does |
| `OwnerCache.IndexGrows` | agent/src/managers/cache.rs:245-347 | No address is ever forgotten |
| `OwnerCache.NoneIsNoAddress` | agent/src/managers/cache.rs:327-329 | Services never create the key "None" |
| `Lifecycle.ProgManager.DoPreLoad` | agent/src/managers/prog.rs:42-76 | An uninitialised program is initialised, any other passes as it is, and a failed init ends the request |
| `Lifecycle.ProgManager.DoLoad` | agent/src/managers/prog.rs:91-129 | Only an initialised program is spawned; the state stays, and an older handle is overwritten |
| `Lifecycle.ProgManager.DoUnloadStop` | agent/src/managers/prog.rs:140-140 | Unload first clears the program's data |
| `Lifecycle.ProgManager.DoUnloadSend` | agent/src/managers/prog.rs:142-150 | The signal reaches every live task; unload fails when nobody listens |
| `Lifecycle.ProgManager.DoUnloadTake` | agent/src/managers/prog.rs:152-155 | The handle is taken out and awaited |
| `Lifecycle.ProgManager.DoUnloadFinish` | agent/src/managers/prog.rs:156-170 | Once the awaited task is over the program is uninitialised |
| `Lifecycle.ProgManager.DoTaskStart` | agent/src/managers/prog.rs:96-98 | The task's first step makes the program running |
| `Lifecycle.ProgManager.DoTaskPoll` | agent/src/progs/service_map/program.rs:255-260 | A tick takes a snapshot; a failing one ends its task as failed |
| `Lifecycle.ProgManager.DoTaskFold` | agent/src/progs/service_map/program.rs:132-138 | The second half of the tick's poll; a reset since the first half panics and ends its task without a change of state |
| `Lifecycle.ProgManager.DoTaskShutdown` | agent/src/managers/prog.rs:98-102 | A signalled task stops |
| `Lifecycle.InvStep` | agent/src/managers/prog.rs:91-171 | Every step but a hasty load keeps: one live task, held or awaited, told by the program's state, and emptied data during an unload |
| `Lifecycle.HastySpawnsTwo` | agent/src/managers/prog.rs:92-97 | A load before the last task's first step leaves two tasks alive |
| `Lifecycle.OneTaskExactly` | agent/src/managers/prog.rs:91-112 | At most one task is alive throughout a run if and only if every task takes its first step before the next load |
| `Lifecycle.Lifecycle` | agent/src/managers/prog.rs:131-171 | In every unhurried run at most one task is ever alive; when unload returns successfully there is no task and no handle, and the program is as new except for its cache manager |
| `Lifecycle.TwoLoadsTwoTasks` | agent/src/managers/prog.rs:91-116 | Two quick loads from the start leave two tasks alive and one handle |
| `Lifecycle.UnloadLeaves` | agent/src/managers/prog.rs:114-171 | In every run, hasty or not, the tasks alive after a successful unload are exactly the live ones some load overwrote, so there are none if and only if all of those are over |
| `Lifecycle.LoadSpawns` | agent/src/managers/prog.rs:58-126 | From any idle state a load request spawns a task if and only if the program is uninitialised and opens, or is initialised |
| `Lifecycle.UnloadMisses` | agent/src/managers/prog.rs:131-171 | A run in which unload returns successfully while a forgotten task is alive |
| `Lifecycle.LateTaskBlocks` | agent/src/managers/prog.rs:96-126 | A run in which that task leaves the program refusing the next load with no task alive |
| `Lifecycle.LoadedStaysAlive` | agent/src/managers/prog.rs:91-112 | In every run, from a load that spawns until the next unload, the map and the cache manager are there and the spawned task stays alive as long as the reads of its own polls succeed |
| `Lifecycle.FailedPollEnds` | agent/src/managers/prog.rs:103-110 | A poll whose reads fail ends its task and leaves the program failed |
| `Lifecycle.RefusedUntilUnload` | agent/src/managers/prog.rs:117-125 | A program that runs, stopped or failed refuses every load until an unload is through |
| `Lifecycle.ResetMidPoll` | agent/src/progs/service_map/program.rs:189-189 | A reset between the halves of a poll ends its task if and only if there was something to fold |
| `Lifecycle.SignalReaches` | agent/src/managers/prog.rs:142-150 | The shutdown signal reaches every task if anybody listens; otherwise the unload ends there |

## Left out

- gRPC, HTTP and command-line code, the build scripts and the probe loaders: I/O and generated code.
- Kernel memory layout, byte order and address families in `parse_sock_data`: reading a socket yields a tuple and counters, or nothing.
- LRU eviction, failing map insertions and perf-buffer delivery: maps have room, and what is output arrives.
- Kubernetes watchers, stores, backoff: a stream of applied objects, each pod with the stores at its walk; a store that changes in the middle of one walk is not modelled.
- FNV hashing: an arbitrary function in `Export`.
- `agent/src/managers/registry.rs`, `ListFilter`, enum conversions, protocol inference and control events: they look up, filter, translate or announce, and none of them changes the state the theorems are about.
- The remaining send and receive probes: they appear in `SocketGate` as `Foreign` events that may put anything into a slot of their thread between calls.
- Wrap-around of 64-bit sums: totals are unbounded numbers, and `Ledger.NoOverflow` says when that is exact; the counters of `ConnRegistry` and the position of `DataEvents` are unbounded too.
- An IP index that changes during a ledger run: a key could then be booked under one pair and stored under another. `ServiceMap.Poll` and the `OwnerCache` theorems do cover changes.
- Ledger.Conservation: states conservation for polls that no kernel event interrupts, because a poll torn apart breaks it; `Ledger.AccountedExactly` says for all runs when.
- ServiceMap.ServiceMap.TakeSnapshot: the entries stand still during the walk; `Answers.AnswerBound` is about walks of a live map.
- ServiceMap.ServiceMap.FoldInactive: the entries stand still during the fold, and in `HandleInactiveConnection` between its get and its remove; `PollProtocol` and `Ledger` are about folds of a live map.
- ServiceMap.ServiceMap.Poll: as its two halves, and with nothing between them.
- OwnerCache.WalkOwners: requires an acyclic chain, because on any other the loop never ends, as `OwnerCache.WalkEnds` proves.
- ConnRegistry.ConnTable.ProcessData: takes the outcome of protocol inference and event output as one flag, since neither changes a record.
- Lifecycle.ProgManager.DoTaskStart: does not model an `interval` of zero, which panics in the timer, nor a broadcast receiver that lags behind.
- A reset between ledger steps: `Ledger` and `PollProtocol` run without one; `Lifecycle` and `FoldInactive` cover it.
- Locks as such: the steps of `PollProtocol` assume none, and the halves of a poll in `ServiceMap` and `Lifecycle` are the sections the lock makes atomic.
