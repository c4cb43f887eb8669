# BinderTracer: a verified model

BinderTracer watches Android binder transactions. Three BPF programs on `binder_transaction` submit records to a
ring buffer, a Go daemon glues the records of a transaction back together and sends events over a socket, and a
Kotlin viewer decodes, stores, pairs and searches them. This project models the parts where those pieces must agree
and proves what they promise, for all inputs and all runs.

`dafny verify dfyconfig.toml` checks everything.

## What is modelled

**Probes.** `ProbeModel.dfy` gives the three BPF programs as functions on the maps they share and as methods that
update them; `EndToEnd.dfy` runs them as a state machine over calls on threads, with record loss and LRU eviction
anywhere, and drives that machine through the in-place programs; `ProbeSubmits.dfy` says exactly what they submit;
`CrossPairing.dfy`, `CallPairing.dfy` and `OnewayCalls.dfy` join them to the daemon.

**Daemon.** `CollectorModel.dfy` is the event collector as a step function over chunks, cookie records, sidebands and
sweeps. One handler is one step. Only the sweeper works beside the reader, which is the sole caller of the handlers.
The state under `stateMu` is entered once per handler and chunk buffers belong to the reader, so a sweep of the
waiting maps that falls inside a handler can be moved before or after it. `handleEvent` can enter `pendingCookieMu`
twice, to adopt a cookie and to expire old ones; a cookie sweep between the two can be moved after the handler,
because two expiries leave the same map and list in either order (`KeyedList.ExpireCommutes`). `KeyedList.dfy` is the
map-with-LRU-list structure. `CollectorLists`, `CollectorCustody`, `CollectorLoss`, `CollectorHolding`,
`CollectorProvenance`, `ParcelOrigin`, `Reassembly`, `Pairing`, `SidebandOrder`, `Routing`, `OnewayPairing`,
`Housekeeping` and `CookieRing` prove the run properties. `EventCollector.dfy` is the collector as a class with its
maps, lists, ring and counters updated in place. Its invariant says that it is where the model's run over everything
it was fed is, with every loop over a map visiting all keys, so the run properties hold of the object.

**Wire formats.** `Wire.dfy` holds integers and frames, `EventCodec.dfy` the daemon's event and stack-trace codec,
`KotlinDecoder.dfy` the viewer's own decoder with JVM integers and the theorem that the two agree.

**Viewer store.** `EventStore.dfy` is the single writer and the FIFO it refines, `ColdEventStore.dfy` its loop,
`StoreReads.dfy` the paged export and keyset paging, `EventRepository.dfy` the in-memory window and the lookups
through window and table. `TransactionPairer.dfy` matches replies to requests.

**Symbolizer.** `Symbolizer.dfy` has the LRU cache and the binary searches.

## Where a promise does not hold as stated

Each of these has a concrete failing run or input, and the exact condition under which the promise holds.

- The direct SYNC branch parks a main under its cookie without looking whether one already waits there. The waiting
  event is then neither emitted nor counted. Conservation holds if and only if no step of the run does this
  (`CollectorLoss.ConservedIffCareful`, `CollectorLoss.SameCookieLoses`, `CollectorLoss.LostForGood`). Records of the
  probes never lead there while cookies are distinct and no chunk is handled twice (`Lossless.FedIsCareful`).
- The tracepoint program does not repeat the uid filter of the other two. A cookie left behind by a call that failed
  early can be taken by a later call of the same thread id under another uid. The cookie taken is the call's own if
  and only if the call passes the filter (`EndToEnd.TakesOwnCookie`, `CrossPairing.UidChangeCrossPairs`).
- The viewer adds 60 and 5 to declared lengths in 32 bits. It throws exactly when such a sum wraps, instead of
  rejecting as the daemon does (`KotlinDecoder.DecodersAgree`, `KotlinDecoder.WrapThrows`).
- Lengths and counts in a stack trace are cut to 16 and 32 bits. An event survives the round trip if and only if it
  fits (`EventCodec.RoundTripIffFits`, `EventCodec.LongNameLost`).
- A symbol whose end does not stay below 2^64 is never found (`Searches.ElfSymbolExact`, `Searches.TopSymbolMissed`).
- The lookup of a reply is documented to take the first of repeated replies. It does if and only if the window holds
  none or none has left it (`RepositoryModel.TieredPartnerIff`, `RepositoryModel.LaterReplyFound`).

The code is followed where its comments say otherwise: the main program writes `tid_to_txid_map` before the oversize
check, although comments describe the oversize path as not writing it; and a SYNC main does not look for a sideband
that came early, so such a sideband is not merged into it (`SidebandOrder.EarlySidebandUnused`; with
`SidebandOrder.PairedIffLast` the exact condition of pairing). A one-way main is handed out with its last chunk, so it is
paired only if its cookie record comes before that chunk (`OnewayCalls.OnewayCallPaired`); the cookie program runs after
the main program, so in the order of the ring it comes after.

## Assumptions

- Kernel and user memory reads are exact. The end-to-end results assume a fixed filter, transaction data present,
  distinct nonzero transaction ids, distinct (clock, cpu) readings below 2^56 and 256, and no loss from
  `tid_to_txid_map` between the main and the cookie program. All other losses are allowed. Updates of BPF maps
  succeed; a failed update of `pending_map` would leave an older cookie for the tracepoint.
- The clock, the ring buffer's room, the contents of reserved records, iteration order of Go maps, the outcome of
  each database call and what other threads send meanwhile are inputs.
- The order of `emitted` is the order in which handlers and sweeps enter the state lock. Events are handed to the
  callback after the lock is released, so those of the reader and of the sweeper can reach it interleaved otherwise.
- Export and paging read each page atomically; appended ids increase.

## Model

| member | source | states |
|---|---|---|
| `EndToEnd.NoCrossPairing` | daemon/raw_tp_binder_transaction.byte.c:51-97 | over every interleaving of threads, LRU evictions, record loss, reordering, duplication and sweeps, each emitted event is the event of one call that the uid filter asks for: every metadata field is what the probe read during that call, the parcel is its parcel byte for byte, and beyond that it is unchanged or, for a request, has exactly that call's debug id, receiver pid and receiver uid |
| `EndToEnd.TakesOwnCookie` | daemon/raw_tp_binder_transaction.byte.c:51-62 | exact condition behind it: in every run the cookie the tracepoint program takes was made for the call it runs in if and only if that call passes the uid filter, which the program does not check |
| `EndToEnd.SteadyFiltered` | daemon/raw_tp_binder_transaction.byte.c:26-62 | if the uid behind a thread id never changes, the filter condition holds at every tracepoint of the run |
| `EndToEnd.KernelRunOk` | daemon/cookie_kprobe_binder_transaction.byte.c:35-126 | invariant of every run of the three programs: a pending cookie was made for a call of its thread, each call gets at most one cookie, no chunk is submitted twice, each chunk has the metadata and its part of the parcel of one call that the uid filter asks for, cookie records bind a call's own cookie, and where tracepoints pass the filter so do sidebands |
| `ProbeSubmits.SubmittedExactly` | daemon/binder_transaction.byte.c:345-476 | in every run the chunks of a call are exactly these: none if it has no data, is not monitored (a request by its uid, a reply by the uid of whoever it answers) or needs more than 16 records, and otherwise every piece up to the first that found no room, each with its part of the parcel |
| `ProbeSubmits.RunSpent` | daemon/raw_tp_binder_transaction.byte.c:51-62 | in every run a cookie is taken once: what a sideband carries is pending no more and in no other sideband, and a request past its tracepoint leaves nothing pending |
| `ProbeSubmits.RunAccounted` | daemon/cookie_kprobe_binder_transaction.byte.c:102-120 | in every run each cookie made and each cookie taken gave a record or is in the overflow counter, once |
| `EndToEnd.CookieEffect` | daemon/cookie_kprobe_binder_transaction.byte.c:68-102 | for a request that passes the filter the cookie program binds a fresh nonzero cookie to its own call in pending_map and submits at most the record of that cookie and the call's transaction id; otherwise it changes nothing |
| `EndToEnd.CookieOk` | daemon/cookie_kprobe_binder_transaction.byte.c:35-126 | the cookie program keeps the invariant |
| `EndToEnd.ShrinksOk` | daemon/raw_tp_binder_transaction.byte.c:60-62 | dropping map entries, by a tracepoint or by LRU eviction, keeps the invariant |
| `EndToEnd.TraceHonest` | daemon/raw_tp_binder_transaction.byte.c:51-97 | a filtered tracepoint submits the debug id, the receiver pid and exactly the receiver uid, or zero and the flag where the uid cannot be read, of the call the consumed cookie was made for |
| `CallPairing.CallPaired` | daemon/event_collector.go:738-1097 | completeness through the probes: in any run of the three programs, a SYNC call that passed the filter, with room for its records, whose chunks are handled once each and whose cookie record is handled, in any order among any other records of the probes, within 5 s and below capacity, and then its sideband, is emitted exactly once: its own metadata, parcel, debug id, receiver pid and receiver uid |
| `CallPairing.FairRecord` | daemon/cookie_kprobe_binder_transaction.byte.c:68-102 | no other call's record can carry the call's cookie or transaction id, for SYNC and one-way calls |
| `CallPairing.RoomyShort` | daemon/event_collector.go:1235-1252 | a waiting list grows by at most one per record, so there is room for as long as fewer than 16384 records were handled |
| `CallPairing.OrdinaryCall` | daemon/event_collector.go:738-1097 | a concrete call and its records meet everything CallPaired asks |
| `OnewayCalls.OnewayCallPaired` | daemon/event_collector.go:738-940 | one-way calls through the probes: in any run of the three programs, a one-way call whose chunks found room and are handled once each is handed out with the last of them, once, as that call's own event; it has the call's debug id and receiver if its cookie record and sideband were handled before that chunk, and neither otherwise |
| `OnewayCalls.OrdinaryOneway` | daemon/event_collector.go:870-940 | a concrete one-way request and its records meet everything OnewayPaired asks, and come out paired |
| `Lossless.FedIsCareful` | daemon/event_collector.go:926-937 | end to end nothing is lost: if the daemon handles only records of the probes and no chunk twice, no waiting main is ever overwritten, whatever calls run and however other records are lost, repeated or reordered |
| `Lossless.FedConserves` | daemon/event_collector.go:885-940 | so every event built is waiting or emitted, once, and the parked counter balances without a loss term |
| `Lossless.FedOwn` | daemon/event_collector.go:738-1097 | in every run fed from the probes, whatever is handled and however often, an emitted event is the own event of some monitored call |
| `Lossless.FedOnce` | daemon/event_collector.go:738-1097 | and with no chunk handled twice no two emitted events belong to one transaction |
| `Lossless.CompletedOnce` | daemon/event_collector.go:793-810 | a transaction whose chunks are handled once each is completed at most once in any run |
| `CrossPairing.UidChangeCrossPairs` | daemon/raw_tp_binder_transaction.byte.c:26-62 | a concrete possible run where a thread id changes its uid and the daemon emits a request with another transaction's debug id |
| `CrossPairing.OrdinaryRunPairs` | daemon/event_collector.go:993-1001 | an ordinary concrete run meets everything NoCrossPairing asks and emits its request with its own debug id |
| `CrossPairing.ProbeCuts` | daemon/binder_transaction.byte.c:379-476 | with room in the ring, the chunk loop submits every piece of a parcel of 1 to 16384 bytes exactly once |
| `CrossPairing.AnyOrder` | daemon/event_collector.go:793-804 | completeness and distinctness of a set of pieces do not depend on the order they come in |
| `CrossPairing.ChunkRoundTrip` | daemon/binder_transaction.byte.c:431-476 | probe split then daemon reassembly: for every parcel of 1 to 16384 bytes, chunks handled once each in any order among anything else build exactly one event with the call's metadata and its parcel byte for byte, whatever the reserved records held before |
| `ProbeModel.CookieInjective` | daemon/cookie_kprobe_binder_transaction.byte.c:80-100 | cookies of different (clock, cpu) readings differ while the clock is below 2^56 and there are at most 256 CPUs |
| `Probes.SubmitChunks` | daemon/binder_transaction.byte.c:431-476 | the bounded chunk loop submits the chunks up to the last one or the first failed reservation |
| `Probes.ProbeMaps.KprobeMain` | daemon/binder_transaction.byte.c:244-476 | main program: filter, tid_to_txid_map write before the oversize check, chunk loop |
| `Probes.ProbeMaps.KprobeCookie` | daemon/cookie_kprobe_binder_transaction.byte.c:35-126 | cookie program: filter, txid lookup, cookie formation, pending_map write also when the record is lost |
| `Probes.ProbeMaps.RawTracepoint` | daemon/raw_tp_binder_transaction.byte.c:26-100 | tracepoint program: lookup and delete of pending_map, record with the debug id and receiver |
| `KernelMachine.Machine.Enter` | daemon/binder_transaction.byte.c:244-476 | running the main program on the maps in place is the Enter step of the state machine, and the chunks returned are the chunks submitted; which they are is ProbeSubmits.SubmittedExactly |
| `KernelMachine.Machine.Cookie` | daemon/cookie_kprobe_binder_transaction.byte.c:35-131 | the same for the cookie program and the Cookie step |
| `KernelMachine.Machine.Trace` | daemon/raw_tp_binder_transaction.byte.c:26-100 | the same for the tracepoint program and the Trace step |
| `KernelMachine.Machine.Promises` | daemon/raw_tp_binder_transaction.byte.c:26-100 | whatever calls were made, the machine's records satisfy the kernel invariant |
| `CollectorProvenance.RunProvenance` | daemon/event_collector.go:1158-1170 | in every run, with no assumption on order, loss or duplication, each metadata field of an emitted event is that of a received chunk of its own transaction, and at most the three fields that were zero come from one received sideband whose cookie its chunk carried or a received cookie record bound to its transaction |
| `CollectorProvenance.StepSound` | daemon/event_collector.go:738-1133 | each handler and sweep keeps the provenance invariant over buffers, the waiting maps, stashed cookies and emitted events |
| `ParcelOrigin.RunBytes` | daemon/event_collector.go:738-860 | in every run, with no assumption on order, loss or duplication, byte p of an emitted event's parcel is byte p mod 1024 of a received chunk of its own transaction with index p div 1024 |
| `ParcelOrigin.RunPieced` | daemon/event_collector.go:738-860 | invariant behind it, over chunk buffers and all events ever completed |
| `ParcelOrigin.CompletedLatest` | daemon/event_collector.go:784-792 | an event is built from the last chunk received for each index, in every run |
| `CollectorProvenance.RunSeen` | daemon/event_collector.go:467-530 | the records the invariant speaks of are exactly the records of the run |
| `Routing.HandedOutAtOnce` | daemon/event_collector.go:870-940 | replies, one-way mains and mains without any id are handed out in the step that completes them, alone, with no change to what waits; a one-way main takes the sideband waiting under its cookie, whose debug id, pid and uid then fill exactly the fields that were zero; a cookie among the last 4096 accepted is counted as repeated, any other accepted |
| `Routing.SidebandFate` | daemon/event_collector.go:987-1037 | what becomes of a sideband in every run, by what is known under its cookie: a waiting main is handed out with it, else a waiting sideband goes with it and one orphan is counted, else it is late, else it waits |
| `OnewayPairing.OnewayPaired` | daemon/event_collector.go:870-925 | exact condition for one-way requests: within 1 s and below capacity, the event handed out with the last chunk has the sideband's debug id, pid and uid if sideband and cookie record came before, in any order among any records, and is as built if either did not; nothing else is ever emitted for the transaction |
| `OnewayPairing.LateSideband` | daemon/event_collector.go:1012-1014 | a sideband that comes within the second after its one-way main was handed out, whatever came in between, is counted as late and changes nothing else |
| `OnewayPairing.RunAwaits` | daemon/event_collector.go:1015-1030 | until the last chunk comes the request's sideband waits for it |
| `Housekeeping.CleanupExact` | daemon/event_collector.go:1308-1334 | in every run every 256th chunk drops exactly the other transactions' buffers and stashed cookies that are more than 5 s old, and all other chunks keep everything |
| `Housekeeping.SweepExact` | daemon/event_collector.go:1185-1230 | a sweep ends the wait of exactly the mains older than 5 s and the sidebands older than 1 s, counts each once, and forgets one-way mains older than 1 s |
| `Housekeeping.CookieSweepExact` | daemon/event_collector.go:1138-1155 | the sweep of stashed cookies drops exactly those older than 5 s and changes nothing else |
| `Housekeeping.StashIsLatest` | daemon/event_collector.go:1052-1133 | in every run a stashed cookie is that of the last well-formed cookie record of its transaction, with that record's time |
| `CollectorCustody.RunKept` | daemon/event_collector.go:885-940 | conservation over every run: events built = waiting under a cookie + waiting by transaction id + emitted + overwritten, as multisets; parked = waiting + merged + entryEarlyReturn + overwritten; sidebands handled = merged SYNC + merged oneway + waiting + orphans + late + duplicate hits |
| `CollectorCustody.StepKept` | daemon/event_collector.go:1193-1285 | every step keeps conservation and both counter equations, through routing, activation, collisions, capacity eviction and expiry |
| `CollectorLoss.ConservedIffCareful` | daemon/event_collector.go:926-937 | conservation without loss, and the parked equation without a loss term, hold if and only if no step of the run overwrote a waiting main in the direct SYNC branch |
| `CollectorLoss.LosesIffOverwrites` | daemon/event_collector.go:929-934 | a step loses an event exactly when it completes a SYNC main whose cookie already waits |
| `CollectorLoss.SameCookieLoses` | daemon/event_collector.go:929-934 | every pair of one-chunk SYNC requests whose cookie records carry the same cookie, each record before its chunk: the event lost is the first request's, and the second waits in its place |
| `CollectorLoss.LostForGood` | daemon/event_collector.go:929-934 | after a sweep has emptied the waiting maps of that run, the second request is the only event emitted and the first never was |
| `Pairing.RequestPaired` | daemon/event_collector.go:870-1097 | pairing completeness: once all chunks and the cookie record of a SYNC request were handled, in any order and among any records, within 5 s and below capacity, its sideband emits its parcel with its debug id, no main and no chunk buffer of it is left, and nothing else is ever emitted for the transaction |
| `SidebandOrder.PairedIffLast` | daemon/event_collector.go:870-1097 | exact condition of pairing: around the one sideband of a SYNC request, within 5 s and below capacity, an event with the sideband's debug id is emitted for it if and only if all its chunks and its cookie record were handled before the sideband |
| `SidebandOrder.EarlySidebandUnused` | daemon/event_collector.go:926-1030 | in every run, if each sideband of a SYNC request comes before its chunks and its cookie record have all come, whatever is emitted for the request is as it was built |
| `SidebandOrder.MergedWaiting` | daemon/event_collector.go:993-1001 | in every run an emitted event that is not one-way is as built or is a main that a sideband found waiting under its cookie |
| `SidebandOrder.WaitingMerged` | daemon/event_collector.go:993-1001 | and every main a sideband finds waiting is emitted with it |
| `SidebandOrder.WaitsReady` | daemon/event_collector.go:870-1097 | in every run a SYNC request waits under a cookie only if all its chunks and its cookie record have been handled |
| `Pairing.RunTracks` | daemon/event_collector.go:738-1133 | where such a request is at every moment of the run, given which of its chunks and whether its cookie have come |
| `Pairing.EmittedOnce` | daemon/event_collector.go:1289-1295 | a transaction that completed once is emitted at most once in any run |
| `Pairing.StepEmits` | daemon/event_collector.go:1289-1295 | handling a record only ever appends to what was emitted |
| `CollectorHolding.BoundedHolding` | daemon/event_collector.go:1087-1091 | after a sweep at now, and while no main is completed with an older stamp, nothing in either waiting map was first routed before now - 5 s, also when it moved from one map to the other |
| `CollectorHolding.Drain` | daemon/event_collector.go:1185-1230 | a sweep more than 5 s after the last main was completed leaves nothing waiting, so emitted events are exactly the events built, as multisets, except those overwritten |
| `CollectorHolding.RunTimes` | daemon/event_collector.go:1087-1091 | the enqueue time of a waiting event is always the time it was first routed |
| `CollectorLists.RunLists` | daemon/event_collector.go:1235-1285 | after every step each LRU list is duplicate-free, lists every key of its map, each stored element belongs to its own key, within capacity; exactly the keys, unconditionally for four maps and for pendingMain while nothing was overwritten |
| `CollectorLists.RunBounded` | daemon/event_collector.go:1235-1252 | pendingMain, pendingMainByTxid and the cookie stash never hold more than 16384 entries, the two one-way maps never more than 4096, whatever arrives |
| `CollectorLists.EvictsOldest` | daemon/event_collector.go:1235-1285 | in every run what a full map gives up for a new key is the one entry inserted before all others, for pendingMain as long as no waiting main was overwritten |
| `CollectorLists.StepLists` | daemon/event_collector.go:965-1031 | each handler and sweep keeps the list invariant |
| `KeyedList.PushAgree` | daemon/event_collector.go:933-934 | pushing a key keeps list and map in agreement exactly when the key was free |
| `KeyedList.InsertExact` | daemon/event_collector.go:1235-1252 | inserting a free key keeps all entries while there is room, and gives up exactly the back element when there is none |
| `KeyedList.DeleteCovered` | daemon/event_collector.go:1193-1201 | removing an element together with its key keeps the list invariant, drops exactly that element and leaves the others in order |
| `KeyedList.TouchAgree` | daemon/event_collector.go:966-970 | moving an element to the front keeps list and map in agreement |
| `KeyedList.TrimCovered` | daemon/event_collector.go:1235-1252 | popping from the back until the capacity is met keeps the list invariant |
| `KeyedList.ExpireCovered` | daemon/event_collector.go:1193-1226 | deleting old entries in any iteration order keeps the list invariant |
| `KeyedList.ExpireIs` | daemon/event_collector.go:1138-1155 | a loop that visits every key, in whatever order, keeps exactly the entries that are not old, and their list elements in their order |
| `KeyedList.ExpireCommutes` | daemon/event_collector.go:1138-1155 | two such loops leave the same map and list in either order, so a cookie sweep between the two entries of handleEvent can be moved after it |
| `KeyedList.ValuesTrim` | daemon/event_collector.go:1256-1277 | capacity eviction hands out exactly the values it removes |
| `KeyedList.ValuesExpire` | daemon/event_collector.go:1193-1211 | expiry hands out exactly the values it removes, in any iteration order |
| `Reassembly.RunReassembles` | daemon/event_collector.go:747-843 | if a run brings each chunk of a parcel of 1 to 16384 bytes once within the buffer lifetime, exactly one event is built, with that parcel and the metadata of the chunk seen first, and the buffer is gone |
| `Reassembly.RunPartial` | daemon/event_collector.go:747-804 | until the last piece arrives nothing is built and the buffer holds what has come under its first-seen time |
| `Reassembly.MergeWhole` | daemon/event_collector.go:1299-1305 | merging a full set of chunks and cutting at the data size gives the parcel back |
| `Reassembly.CompleteIffWhole` | daemon/event_collector.go:798-804 | the buffer is complete exactly when every index has come |
| `CookieRing.RingPush` | daemon/event_collector.go:955-961 | overwriting the oldest slot keeps the set equal to the last 4096 accepted cookies, all distinct |
| `CookieRing.RingSet` | daemon/event_collector.go:949-953 | the set reports a cookie exactly when it is among the last 4096 accepted ones |
| `EventCollector.EvictIfFull` | daemon/event_collector.go:1235-1252 | the eviction loop equals trimming to capacity and returns what it evicted |
| `EventCollector.DeleteOlder` | daemon/event_collector.go:1193-1226 | a range loop that deletes old entries equals expiry in the order the range takes |
| `EventCollector.AllReceived` | daemon/event_collector.go:798-804 | true exactly when no chunk is missing |
| `EventCollector.MergeChunks` | daemon/event_collector.go:1299-1305 | concatenation in index order |
| `EventCollector.DropStaleBuffers` | daemon/event_collector.go:1308-1335 | removes exactly the buffers past their lifetime |
| `EventCollector.Collector.CheckCookieDuplicate` | daemon/event_collector.go:949-962 | ring, head and set refine the last 4096 accepted cookies; counts a violation exactly on a repeat among them |
| `EventCollector.Collector.RecordRecentOnewayEmit` | daemon/event_collector.go:965-980 | refines the recent-oneway step of the model |
| `EventCollector.Collector.ParkUnderTxid` | daemon/event_collector.go:885-903 | parks by transaction id, releasing a collision and evicting over capacity |
| `EventCollector.Collector.ParkUnderCookie` | daemon/event_collector.go:926-937 | parks under the cookie without looking for an entry already there |
| `EventCollector.Collector.EmitOneway` | daemon/event_collector.go:916-925 | merges a waiting sideband and emits |
| `EventCollector.Collector.RouteMainEvent` | daemon/event_collector.go:870-941 | routing of a completed main by reply, oneway, cookie and transaction id |
| `EventCollector.Collector.MergePendingMain` | daemon/event_collector.go:995-1001 | merges the sideband, frees the slot, emits |
| `EventCollector.Collector.DropDuplicateSideband` | daemon/event_collector.go:1002-1010 | drops both sidebands, counts one orphan |
| `EventCollector.Collector.StashSidebandRecord` | daemon/event_collector.go:1014-1031 | parks the sideband within capacity |
| `EventCollector.Collector.HandleSidebandRecord` | daemon/event_collector.go:987-1037 | the sideband step of the model |
| `EventCollector.Collector.HandleSidebandEvent` | daemon/event_collector.go:987-1037 | handleSideband keeps Valid: the collector is where the model's run over all its inputs is |
| `EventCollector.Collector.EvictStalePendingCookies` | daemon/event_collector.go:1138-1155 | the cookie expiry of the model, over an enumeration of all waiting cookies |
| `EventCollector.Collector.ActivateByTxid` | daemon/event_collector.go:1073-1097 | moves a parked main under its cookie with its original enqueue time, releasing a collision |
| `EventCollector.Collector.StashCookieRecord` | daemon/event_collector.go:1105-1131 | parks or refreshes a cookie by transaction id within capacity |
| `EventCollector.Collector.TakeCookieRecord` | daemon/event_collector.go:1052-1133 | the cookie step of the model; where the record is stashed, the expiry visits every waiting cookie |
| `EventCollector.Collector.HandleCookieSideband` | daemon/event_collector.go:1052-1133 | handleCookieSideband keeps Valid and adds its record to the inputs |
| `EventCollector.Collector.Cleanup` | daemon/event_collector.go:1308-1335 | the cleanup of the model; when it runs, its cookie expiry visits every waiting cookie |
| `EventCollector.Collector.StoreChunkRecord` | daemon/event_collector.go:747-795 | opens or extends a buffer, adopting a stashed cookie |
| `EventCollector.Collector.DeliverComplete` | daemon/event_collector.go:806-856 | size checks, event construction, routing |
| `EventCollector.Collector.TakeChunkEvent` | daemon/event_collector.go:738-859 | the chunk step of the model, with loops that visit all keys |
| `EventCollector.Collector.HandleEvent` | daemon/event_collector.go:738-859 | handleEvent keeps Valid and adds its chunk to the inputs |
| `EventCollector.Collector.Promises` | daemon/event_collector.go:175-262 | whatever a collector has been fed: its lists and maps agree within capacity, every event built is accounted for, the counters balance, emitted events have their provenance, and nothing is lost exactly when no step overwrote |
| `EventCollector.Collector.SweepMaps` | daemon/event_collector.go:1185-1230 | the sweep of the model over enumerations of all four maps |
| `EventCollector.Collector.RunSweep` | daemon/event_collector.go:1185-1230 | runSweep keeps Valid, and nothing that waits afterwards was first routed before now - 5 s |
| `EventCollector.Collector.SweepCookies` | daemon/event_collector.go:571-595 | the sweeper's cookie expiry keeps Valid |
| `Frames.ReadWritten` | daemon/protocol.go:70-127 | a frame written and read back is the same frame, and exactly its bytes are consumed |
| `Frames.FrameExact` | daemon/protocol.go:70-127 | byte layout of a frame, refusal above 2^20 bytes, and: a reader gets a frame off a stream if and only if the stream starts with its bytes |
| `Frames.ReadErrors` | daemon/protocol.go:96-127 | which streams make the reader fail on the first byte, fail on the length, or wait |
| `Wire.BeAt` | daemon/protocol.go:214-228 | numbers are written most significant byte first |
| `Frames.StreamRoundTrip` | daemon/protocol.go:70-127 | any list of frames written back to back is read back as the same list |
| `Frames.CutFrame` | daemon/protocol.go:96-127 | a frame cut short anywhere is reported as end of stream, never misread |
| `EventCodec.RoundTripIffFits` | daemon/protocol.go:199-359 | an event decodes back to itself if and only if its data size is the parcel length, frame counts and strings are below 65536 and its stack encoding is below 2^32 bytes |
| `EventCodec.EventRoundTrip` | daemon/protocol.go:199-359 | encoding then decoding gives the event back and no guard fires |
| `EventCodec.StackRoundTrip` | daemon/protocol.go:545-642 | the same for stack traces of any number of frames |
| `EventCodec.FramesRoundTrip` | daemon/protocol.go:605-630 | a list of frames is read back at any offset, and the offset advances over exactly its bytes |
| `EventCodec.HeaderRoundTrip` | daemon/protocol.go:199-230 | every number and byte of the header is at its documented offset, whatever follows |
| `EventCodec.GuardsExact` | daemon/protocol.go:289-362 | the guard chain: exactly which payloads lose the event, which lose only the stack and with which guard, and which bytes are then parcel and stack |
| `EventCodec.FailsOpen` | daemon/protocol.go:304-345 | whether it accepts, and the event without its stack, depend only on header and parcel, never on the bytes after the parcel |
| `EventCodec.DecodedStackFits` | daemon/protocol.go:587-642 | whatever the stack decoder accepts fits the format |
| `EventCodec.LongStackLost` | daemon/protocol.go:236-241 | a stack of 2^32 bytes or more does not come back, because its length field wraps |
| `EventCodec.LongNameLost` | daemon/protocol.go:560-572 | an event with a symbol name of 65536 bytes or more does not come back |
| `CodecMethods.Encode` | daemon/protocol.go:199-244 | filling the buffer in place produces the specified bytes |
| `CodecMethods.PutHeader` | daemon/protocol.go:213-230 | header fields are written at increasing offsets into a zeroed buffer |
| `CodecMethods.EncodeStack` | daemon/protocol.go:545-583 | appending frame by frame produces the specified bytes |
| `CodecMethods.ReadFrames` | daemon/protocol.go:600-622 | the offset-advancing loop equals the recursive parse, failing at the same frame |
| `CodecMethods.ReadStack` | daemon/protocol.go:587-642 | the decoder with its loops equals the specified one |
| `KotlinDecoder.DecodersAgree` | app/src/main/java/com/btrace/viewer/model/BinderEvent.kt:299-427 | on every byte array the viewer can hold: it throws exactly when one of its 32-bit sums wraps, and otherwise accepts and rejects with the daemon's decoder, counts the same guard and reads the same event up to its enum normalisation |
| `KotlinDecoder.NormShows` | app/src/main/java/com/btrace/viewer/model/BinderEvent.kt:16-42 | what the viewer keeps of the daemon's event: the same bits as signed numbers, the same bytes, and each enumeration by its wire value |
| `KotlinDecoder.WrapThrows` | app/src/main/java/com/btrace/viewer/model/BinderEvent.kt:343-354 | a concrete 60-byte header on which the viewer throws and the daemon rejects |
| `KotlinDecoder.StacksAgree` | app/src/main/java/com/btrace/viewer/model/StackTraceCodec.kt:34-94 | the two stack decoders accept the same byte strings and read the same frames |
| `KotlinDecoder.FramesAgree` | app/src/main/java/com/btrace/viewer/model/StackTraceCodec.kt:70-94 | frame by frame, from any offset |
| `KotlinDecoder.FramedPayloadAgrees` | app/src/main/java/com/btrace/viewer/model/BinderEvent.kt:343-351 | within the daemon's 1 MiB frame limit the two decoders differ exactly on a declared parcel size within 60 bytes below 2^31, which the daemon rejects as truncated while the viewer throws |
| `KotlinDecoder.EncodedIsRead` | app/src/main/java/com/btrace/viewer/model/BinderEvent.kt:299-388 | what the daemon encodes within the frame limit, the viewer reads, with no guard |
| `KotlinParsing.TakeFrames` | app/src/main/java/com/btrace/viewer/model/StackTraceCodec.kt:70-94 | the repeat loop over the buffer equals the specified parse and leaves the buffer after it |
| `KotlinParsing.DecodeStackTrace` | app/src/main/java/com/btrace/viewer/model/StackTraceCodec.kt:34-68 | the buffer-advancing decoder equals the specified one |
| `KotlinParsing.ReadHeader` | app/src/main/java/com/btrace/viewer/model/BinderEvent.kt:313-357 | the getters in sequence read every field from its offset |
| `KotlinParsing.Decoder.ParseStackTraceTlv` | app/src/main/java/com/btrace/viewer/model/BinderEvent.kt:397-427 | guards in order, counters bumped for exactly the failing one |
| `KotlinParsing.Decoder.Receive` | app/src/main/java/com/btrace/viewer/model/BinderEvent.kt:299-388 | an id is consumed exactly when an event is created, and one guard counter moves exactly when its guard fires |
| `StoreModel.RunRefines` | app/src/main/java/com/btrace/viewer/data/ColdEventStore.kt:276-321 | in every run, however sends interleave with tryReceive and whichever database calls fail, the batching writer is one-at-a-time FIFO application: table, failure flag and export answers are the FIFO's, and processed, held and queued requests are the requests sent, in order |
| `StoreModel.BatchIsFifo` | app/src/main/java/com/btrace/viewer/data/ColdEventStore.kt:453-468 | a transaction over a batch is its appends one by one, or none of them |
| `StoreModel.NoFailureExact` | app/src/main/java/com/btrace/viewer/data/ColdEventStore.kt:284-312 | no recorded failure implies the table is exactly the appends since the last Clear |
| `StoreModel.DrainedExact` | app/src/main/java/com/btrace/viewer/data/ColdEventStore.kt:276-321 | with the queue drained and no failure the table is exactly what was sent since the last Clear |
| `StoreModel.AnswersExact` | app/src/main/java/com/btrace/viewer/data/ColdEventStore.kt:308-319 | every export is answered in order; the answer is withheld exactly if its query failed or a failure is open, and otherwise is the boundary of exactly the appends since the last Clear before it |
| `StoreModel.FailedIff` | app/src/main/java/com/btrace/viewer/data/ColdEventStore.kt:296-306 | a failure is recorded exactly if some write or Clear failed and no later Clear succeeded |
| `StoreModel.RowIff` | app/src/main/java/com/btrace/viewer/data/ColdEventStore.kt:283-306 | failures or not, a row is in the table exactly if a successful write put it there that was neither overwritten nor cleared since, and it is that write's |
| `StoreModel.RunStaysWithin` | app/src/main/java/com/btrace/viewer/data/ColdEventStore.kt:329-366 | with increasing ids, no later table holds a row within the boundary that the boundary does not hold |
| `StoreReads.RunAllowed` | app/src/main/java/com/btrace/viewer/data/ColdEventStore.kt:329-366 | so every table an export can meet satisfies what the export relies on |
| `StoreReads.ForEachExportEvent` | app/src/main/java/com/btrace/viewer/data/ColdEventStore.kt:329-366 | success means exactly the boundary's rows were consumed, once each by increasing id, despite appends and clears between pages; without a Clear it always succeeds; every link handed out is a partner within the boundary, and if no Clear came by the last pair query every event has exactly the link the boundary gives it, the first partner by id or none |
| `StoreReads.ConsumePage` | app/src/main/java/com/btrace/viewer/data/ColdEventStore.kt:343-360 | each row is consumed in page order with a sound link, and with the boundary's exact link as long as no Clear came |
| `StoreReads.PagingExact` | app/src/main/java/com/btrace/viewer/data/ColdEventStore.kt:376-414 | keyset paging for any filter and page size: after k pages exactly the first k*pageSize matching rows of the first page's table were delivered, newest first, without gap or repeat, and the session has ended exactly when k*pageSize exceeds their number, despite appends in between |
| `StoreReads.AllRowsAre` | app/src/main/java/com/btrace/viewer/data/ColdEventStore.kt:382-402 | the rows paging is about: those that pass the filter and are not replies with a pair id, each once, by falling id |
| `StoreReads.BelowCursor` | app/src/main/java/com/btrace/viewer/data/ColdEventStore.kt:403-411 | below a cursor, a grown table offers exactly what the first table still has to offer |
| `ColdStore.ColdEventStore.WriterTurn` | app/src/main/java/com/btrace/viewer/data/ColdEventStore.kt:281-319 | one turn of the writer loop is a run of the writer's steps that starts by receiving the oldest request, makes one database call, processes at least that request, and takes in exactly what arrived meanwhile |
| `ColdStore.ColdEventStore.Gather` | app/src/main/java/com/btrace/viewer/data/ColdEventStore.kt:286-296 | the drain loop stops at a full batch, an empty queue or another kind of request, which it sets aside, and gathers nothing but what was queued |
| `ColdStore.ColdEventStore.Enqueue` | app/src/main/java/com/btrace/viewer/data/ColdEventStore.kt:324-326 | senders append to the one queue |
| `ColdStore.InsertRows` | app/src/main/java/com/btrace/viewer/data/ColdEventStore.kt:453-468 | row after row, replacing on conflict |
| `RepositoryModel.RepoRunOk` | app/src/main/java/com/btrace/viewer/data/EventRepository.kt:209-231 | in every run the window is the newest 5000 events added since clear, the counter their number, and with distinct ids the index is the window |
| `RepositoryModel.TieredGet` | app/src/main/java/com/btrace/viewer/data/EventRepository.kt:443-446 | with the queue drained and no failure, window-then-table lookup by id equals scanning everything added since clear |
| `RepositoryModel.TieredPartnerIff` | app/src/main/java/com/btrace/viewer/data/EventRepository.kt:466-494 | with ids in increasing order and any number of partners, the answer is the log's first partner if and only if the window holds no partner or the part of the log that has left the window holds none |
| `RepositoryModel.LaterReplyFound` | app/src/main/java/com/btrace/viewer/data/EventRepository.kt:449-474 | a concrete run where a repeated reply still in the window is returned instead of the first one |
| `RepositoryModel.TieredPartner` | app/src/main/java/com/btrace/viewer/data/EventRepository.kt:466-494 | the same for the partner of a request or reply, given at most one of each per nonzero pair id |
| `RepositoryModel.IndexIsScan` | app/src/main/java/com/btrace/viewer/data/BoundedEventBuffer.kt:80-80 | with distinct ids the index finds what a linear scan finds |
| `RepositoryModel.AddIndex` | app/src/main/java/com/btrace/viewer/data/BoundedEventBuffer.kt:35-43 | adding with eviction keeps the index equal to the window |
| `Buffer.BoundedEventBuffer.Add` | app/src/main/java/com/btrace/viewer/data/BoundedEventBuffer.kt:35-43 | the window becomes the newest events up to the capacity |
| `Buffer.BoundedEventBuffer.SetCapacity` | app/src/main/java/com/btrace/viewer/data/BoundedEventBuffer.kt:45-53 | shrinks to the newest events at once |
| `Buffer.BoundedEventBuffer.TrimToSize` | app/src/main/java/com/btrace/viewer/data/BoundedEventBuffer.kt:65-74 | drops from the old end and returns what it dropped, oldest first |
| `Buffer.BoundedEventBuffer.FindById` | app/src/main/java/com/btrace/viewer/data/BoundedEventBuffer.kt:80-80 | equals a linear scan |
| `Buffer.BoundedEventBuffer.FindFirst` | app/src/main/java/com/btrace/viewer/data/BoundedEventBuffer.kt:89-92 | the first event with the property, oldest first |
| `Repository.EventRepository.AddEvent` | app/src/main/java/com/btrace/viewer/data/EventRepository.kt:209-231 | queues and windows the event in one step |
| `Repository.EventRepository.ClearEvents` | app/src/main/java/com/btrace/viewer/data/EventRepository.kt:412-428 | queues the Clear and empties the window in one step |
| `Repository.EventRepository.WriterTurn` | app/src/main/java/com/btrace/viewer/data/ColdEventStore.kt:281-319 | a turn of the writer among concurrent adds, clears and exports keeps window, counter and queue in step and processes at least one request |
| `Repository.EventRepository.CatchUp` | app/src/main/java/com/btrace/viewer/data/ColdEventStore.kt:281-319 | left alone the writer empties its queue, and if no database call fails lookups are then exact |
| `Repository.EventRepository.GetEvent` | app/src/main/java/com/btrace/viewer/data/EventRepository.kt:443-446 | an event of the window is always found, what is found was added under that id, and the lookup equals a scan of the log once the writer has caught up without a failure |
| `PairerModel.MatchSound` | app/src/main/java/com/btrace/viewer/parser/TransactionPairer.kt:123-145 | in every run a match returns the answer of the request recorded last under its pair id in the right direction, written out by uids, no older than 5 s, with no call between them touching that pair id, hence at most once; the answer has the request's interface and method names, None exactly for the placeholders, and its code, candidates and decode source |
| `PairerModel.OutgoingMatched` | app/src/main/java/com/btrace/viewer/parser/TransactionPairer.kt:90-145 | with a monotone clock an outgoing request is always matched, with its own names, by a reply that the monitored uid receives or at least did not send, within 5 s, if its pair id was not touched in between and fewer than 4096 other client pair ids are as young |
| `PairerModel.IncomingMatched` | app/src/main/java/com/btrace/viewer/parser/TransactionPairer.kt:90-145 | the same for an incoming request, sent by another uid to the monitored one and answered by it |
| `PairerModel.DecimalExact` | app/src/main/java/com/btrace/viewer/parser/TransactionPairer.kt:104-104 | the placeholder of an undecoded method is the one string that reads as its code in decimal |
| `PairerModel.Bounded` | app/src/main/java/com/btrace/viewer/parser/TransactionPairer.kt:147-178 | both tables stay within 4096 and the table just inserted into holds nothing past the time limit |
| `PairerModel.EntriesPut` | app/src/main/java/com/btrace/viewer/parser/TransactionPairer.kt:112-116 | every entry of every reachable table was put by the last call that touched its pair id |
| `PairerModel.NotEvicted` | app/src/main/java/com/btrace/viewer/parser/TransactionPairer.kt:168-176 | an entry inside the time limit is lost only to at least 4096 others as young |
| `Pairer.RemoveExpired` | app/src/main/java/com/btrace/viewer/parser/TransactionPairer.kt:158-166 | removes exactly the entries past the time limit |
| `Pairer.EvictExcess` | app/src/main/java/com/btrace/viewer/parser/TransactionPairer.kt:168-176 | keeps the youngest entries up to the capacity |
| `Pairer.TransactionPairer.RecordRequest` | app/src/main/java/com/btrace/viewer/parser/TransactionPairer.kt:90-117 | direction, guards and insert with eviction |
| `Pairer.TransactionPairer.TryMatchReply` | app/src/main/java/com/btrace/viewer/parser/TransactionPairer.kt:123-145 | direction, removal and time limit |
| `LruModel.Recency` | daemon/symbolizer.go:112-181 | in every run of get, put and remove, a key put and not removed is still found with its latest value if fewer than capacity other keys were named since it was last put or hit |
| `LruModel.FoundIsLatest` | daemon/symbolizer.go:135-166 | what is found is the value of the last put |
| `LruModel.RunDistinct` | daemon/symbolizer.go:145-166 | no key twice, never more than the capacity |
| `LruCache.Cache.Get` | daemon/symbolizer.go:135-143 | refines the model with list elements and a key map kept in agreement |
| `LruCache.Cache.Put` | daemon/symbolizer.go:145-166 | updates in place or inserts and drops the oldest |
| `LruCache.Cache.Remove` | daemon/symbolizer.go:168-175 | removes list element and key together |
| `Searches.Search` | daemon/symbolizer.go:96-98 | binary search finds the first true value of a monotone predicate |
| `Searches.FindContaining` | daemon/symbolizer.go:91-106 | on any table what it returns contains pc; on disjoint mappings it equals a linear scan and returns nothing only if no mapping contains pc |
| `Searches.LastAtOrBelow` | daemon/symbolizer.go:274-281 | on sorted symbols equals a scan for the last one at or below the address |
| `Searches.SymbolizeKernel` | daemon/symbolizer.go:268-290 | name and offset of the last symbol at or below pc; only the module below the first symbol, nothing for pc 0 or without symbols |
| `Searches.LookupElfSymbol` | daemon/symbolizer.go:372-391 | the last symbol at or below the address, if it has no size or covers the address with its end below 2^64, and nothing otherwise |
| `Searches.ElfSymbolExact` | daemon/symbolizer.go:384-390 | the same of the specification: which symbol, and exactly when |
| `Searches.TopSymbolMissed` | daemon/symbolizer.go:384-390 | a concrete symbol that covers an address and is not found there |

## Left out

- Stack records: the collector model builds events without a stack. Pending-stack merging, symbolization of user stacks and quality aggregation happen before routing and do not influence it.
- The collector's test hook `legacyCookieZeroSyncEmit`, the unused cookie field of a parked entry, overflow syncing and logging.
- A chunk index of 2^63 or more, or an allocation too large to make, stops the daemon; the model ignores such an index and allocates.
- Counters of the collector do not wrap at 2^64 in the model.
- A missing configuration entry or a null transaction in the tracepoint program: both programs return at once, so nothing is shared.
- `sideband_orphan` staying below `ringbuf_overflow_main`: the main program no longer counts its overflow, so this is not claimed.
- Sockets, reconnects, commands other than events, daemon life cycle.
- SQL text, LIKE matching and the JSON column: the filter is any predicate and a row carries its event. The `LIKE` patterns are escaped without an `ESCAPE` clause, so SQL and in-memory filters differ on `%`, `_` and `\`.
- Cancelling an export, and completeness of its links when a Clear comes between its last page and its last pair query.
- Concurrent calls of the pairer: the insert happens before its lock, so a table can briefly exceed its limit between two racing inserts; calls are one at a time in the model.
- Eviction callbacks of the window: the repository attaches none.
- UTF-8 decoding: strings are compared as bytes.
- Parsing of /proc, kallsyms and ELF files, reloading of maps: the sorted tables are given.
- Parcel, reply and method-signature decoding, the signature cache, session control and the user interface.
- The fixed order of the sweeps within one tick: the model lets them happen separately, which allows more interleavings than the daemon has.
