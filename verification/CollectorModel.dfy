/** What each handler of the daemon's EventCollector does to its state, as functions.

    One step is one record taken from the ring buffer or one pass of the sweeper. The readings
    of the clock and the order in which Go happens to range over a map are inputs of the step.
    `History` and the first three fields of `MainEvent` are not in the program: they record
    what happened, so that properties of whole runs can be stated. */
module CollectorModel {
  import opened Types
  import opened KeyedList

  const CHUNK_SIZE: nat := 0x400
  const MAX_CHUNKS: nat := 16
  const TX_FLAG_ONE_WAY: nat := 1
  const SECOND: nat := 1_000_000_000
  const STALE_BUFFER_TTL: nat := 5 * SECOND
  const PENDING_MAIN_TTL: nat := 5 * SECOND
  const PENDING_ONEWAY_TTL: nat := SECOND
  const RECENT_ONEWAY_TTL: nat := SECOND
  const PENDING_COOKIE_TTL: nat := STALE_BUFFER_TTL
  const PENDING_MAIN_CAPACITY: nat := 16384
  const PENDING_ONEWAY_CAPACITY: nat := 4096
  const RECENT_ONEWAY_CAPACITY: nat := 4096
  const PENDING_COOKIE_CAPACITY: nat := 16384
  const RECENT_COOKIE_RING_SIZE: nat := 4096
  const CLEANUP_EVERY: nat := 256

  type ChunkData = d: Bytes | |d| == CHUNK_SIZE witness seq(CHUNK_SIZE, _ => 0)

  // Records read from the ring buffer

  datatype TxMeta = TxMeta(
    pid: u32, uid: u32, code: u32, flags: u32, dataSize: u64, isReply: u8, binderDev: u8, targetKind: u8,
    toPid: u32, toUid: u32, targetRef: u64, pairId: u64, cookie: u64)

  datatype Chunk = Chunk(txid: u64, index: u64, meta: TxMeta, data: ChunkData)

  datatype Sideband = Sideband(cookie: u64, debugId: u64, toPid: u32, toUid: u32, toUidUnsupported: u8)

  datatype CookieRecord = CookieRecord(cookie: u64, txid: u64)

  // State

  /** A complete main event: the transaction it came from, the metadata of its first-seen
      chunk, the event as built from its chunks, and the event as it is now. */
  datatype MainEvent = MainEvent(txid: u64, first: TxMeta, base: BinderEvent, event: BinderEvent)

  /** `first` is the metadata as the first chunk carried it; `meta` may gain a cookie later. */
  datatype TxBuffer = TxBuffer(firstSeen: int, chunks: seq<Option<ChunkData>>, meta: TxMeta, first: TxMeta)

  datatype Failures = Failures(entryEarlyReturn: nat, sidebandOrphan: nat, cookieViolation: nat, onewayLate: nat)

  datatype History = History(
    completed: seq<MainEvent>,       // every main event reassembled so far, as built
    parked: nat,                     // SYNC mains put into a waiting map
    lost: seq<MainEvent>,            // waiting mains overwritten by the direct SYNC branch
    mergedSync: nat,                 // mains emitted because their sideband came
    mergedOneway: nat,               // one-way mains that found their sideband waiting
    duplicates: nat,                 // sidebands that hit a waiting sideband of the same cookie
    handled: nat,                    // sidebands handled
    seen: Seen)

  /** The records received so far. */
  datatype Seen = Seen(chunks: set<Chunk>, sidebands: set<Sideband>, cookieRecords: set<CookieRecord>)

  datatype State = State(
    buffers: map<u64, TxBuffer>,
    eventCounter: u32,
    cookies: Lru<u64>,               // pendingCookieByTxid: transaction id to cookie
    main: Lru<MainEvent>,            // pendingMain: cookie to waiting SYNC main
    byTxid: Lru<MainEvent>,          // pendingMainByTxid: transaction id to waiting SYNC main
    oneway: Lru<Sideband>,           // pendingOneway: cookie to waiting sideband
    recent: Lru<()>,                 // recentOneway: cookies of one-way mains just emitted
    accepted: seq<u64>,              // cookies that passed the duplicate check
    failures: Failures,
    emitted: seq<MainEvent>,         // calls of onEvent
    hist: History)

  function Init(): State {
    State(map[], 0, Empty(), Empty(), Empty(), Empty(), Empty(), [], Failures(0, 0, 0, 0), [],
          History([], 0, [], 0, 0, 0, 0, Seen({}, {}, {})))
  }

  // Main events

  /** applySideband: fills only the fields the probe left at zero. */
  function ApplySideband(e: BinderEvent, sb: Sideband): BinderEvent {
    e.(pairId := if e.pairId == 0 && sb.debugId != 0 then sb.debugId else e.pairId,
       toPid := if e.toPid == 0 && sb.toPid != 0 then sb.toPid else e.toPid,
       toUid := if sb.toUidUnsupported == 0 && sb.toUid != 0 && e.toUid == 0 then sb.toUid else e.toUid)
  }

  /** `e` is `base` with a sideband: each of the three fields that was zero has the sideband's value, a receiver uid
      only where the kernel let it be read; nothing else differs. */
  ghost predicate FilledBy(base: BinderEvent, sb: Sideband, e: BinderEvent) {
    && e == base.(pairId := e.pairId, toPid := e.toPid, toUid := e.toUid)
    && e.pairId == (if base.pairId == 0 then sb.debugId else base.pairId)
    && e.toPid == (if base.toPid == 0 then sb.toPid else base.toPid)
    && (base.toUid != 0 || sb.toUidUnsupported != 0 ==> e.toUid == base.toUid)
    && (base.toUid == 0 && sb.toUidUnsupported == 0 ==> e.toUid == sb.toUid)
  }

  function Merged(m: MainEvent, sb: Sideband): (r: MainEvent)
    ensures Origin(r) == Origin(m) && FilledBy(m.event, sb, r.event)
  {
    m.(event := ApplySideband(m.event, sb))
  }

  /** The event as it was before any sideband was applied. */
  function Origin(m: MainEvent): MainEvent { m.(event := m.base) }

  predicate IsOneway(flags: u32) { flags % 2 == TX_FLAG_ONE_WAY }

  // The waiting maps

  function AddEarly(f: Failures, n: nat): Failures { f.(entryEarlyReturn := f.entryEarlyReturn + n) }

  function AddOrphans(f: Failures, n: nat): Failures { f.(sidebandOrphan := f.sidebandOrphan + n) }

  /** Evicts what exceeds the capacity of pendingMain and emits it unpaired. */
  function TrimMain(s: State): State {
    var out := Trimmed(s.main, PENDING_MAIN_CAPACITY);
    s.(main := Trim(s.main, PENDING_MAIN_CAPACITY),
       failures := AddEarly(s.failures, |out|), emitted := s.emitted + out)
  }

  function TrimByTxid(s: State): State {
    var out := Trimmed(s.byTxid, PENDING_MAIN_CAPACITY);
    s.(byTxid := Trim(s.byTxid, PENDING_MAIN_CAPACITY),
       failures := AddEarly(s.failures, |out|), emitted := s.emitted + out)
  }

  /** Gives up on the main waiting under a cookie: emitted unpaired and counted. */
  function ReleaseMain(s: State, cookie: u64): State
    requires cookie in s.main.items
  {
    s.(main := Delete(s.main, cookie), failures := AddEarly(s.failures, 1),
       emitted := s.emitted + [s.main.items[cookie].value])
  }

  function ReleaseByTxid(s: State, txid: u64): State
    requires txid in s.byTxid.items
  {
    s.(byTxid := Delete(s.byTxid, txid), failures := AddEarly(s.failures, 1),
       emitted := s.emitted + [s.byTxid.items[txid].value])
  }

  function NoteCompleted(h: History, m: MainEvent): History { h.(completed := h.completed + [Origin(m)]) }

  function NoteParked(h: History, m: MainEvent): History {
    NoteCompleted(h, m).(parked := h.parked + 1)
  }

  /** A main that does not wait. */
  function EmitNow(s: State, m: MainEvent): State {
    s.(emitted := s.emitted + [m], hist := NoteCompleted(s.hist, m))
  }

  /** SYNC main whose cookie is not known yet. */
  function ParkByTxid(s: State, m: MainEvent, txid: u64, now: int): State {
    var s1 := if txid in s.byTxid.items then ReleaseByTxid(s, txid) else s;
    TrimByTxid(s1.(byTxid := Push(s1.byTxid, txid, now, m), hist := NoteParked(s1.hist, m)))
  }

  /** SYNC main whose cookie is known: an entry already waiting under that cookie is overwritten. */
  function ParkByCookie(s: State, m: MainEvent, cookie: u64, now: int): State {
    var lost := if cookie in s.main.items then [s.main.items[cookie].value] else [];
    TrimMain(s.(main := Push(s.main, cookie, now, m),
                hist := NoteParked(s.hist, m).(lost := s.hist.lost + lost)))
  }

  /** The cookie of a main waiting by transaction id has come: it now waits under its cookie. */
  function Activate(s: State, txid: u64, cookie: u64): State
    requires txid in s.byTxid.items
  {
    var e := s.byTxid.items[txid];
    var s1 := s.(byTxid := Delete(s.byTxid, txid));
    var s2 := if cookie in s1.main.items then ReleaseMain(s1, cookie) else s1;
    TrimMain(s2.(main := Push(s2.main, cookie, e.at, e.value)))
  }

  /** The sideband of a waiting SYNC main has come. */
  function MergeMain(s: State, sb: Sideband): State
    requires sb.cookie in s.main.items
  {
    s.(main := Delete(s.main, sb.cookie),
       emitted := s.emitted + [Merged(s.main.items[sb.cookie].value, sb)],
       hist := s.hist.(mergedSync := s.hist.mergedSync + 1))
  }

  // routeMainEvent

  function LastCookies(a: seq<u64>): seq<u64> {
    if |a| <= RECENT_COOKIE_RING_SIZE then a else a[|a| - RECENT_COOKIE_RING_SIZE..]
  }

  /** checkCookieDuplicate: a cookie seen among the last 4096 accepted ones is a violation. */
  function CheckDuplicate(s: State, cookie: u64): State {
    if cookie in LastCookies(s.accepted)
    then s.(failures := s.failures.(cookieViolation := s.failures.cookieViolation + 1))
    else s.(accepted := s.accepted + [cookie])
  }

  function RecordRecent(s: State, cookie: u64, now: int): State {
    if cookie in s.recent.items
    then s.(recent := Touch(s.recent, cookie, now, ()))
    else s.(recent := Trim(Push(s.recent, cookie, now, ()), RECENT_ONEWAY_CAPACITY))
  }

  /** A one-way main with a cookie: takes a sideband that came early, and never waits. */
  function RouteOneway(s: State, m: MainEvent, cookie: u64, now: int): State {
    if cookie in s.oneway.items
    then EmitNow(RecordRecent(s.(oneway := Delete(s.oneway, cookie),
                                 hist := s.hist.(mergedOneway := s.hist.mergedOneway + 1)), cookie, now),
                 Merged(m, s.oneway.items[cookie].value))
    else EmitNow(RecordRecent(s, cookie, now), m)
  }

  function RouteMain(s: State, m: MainEvent, cookie: u64, txid: u64, now: int): State {
    if m.event.isReply != 0 then EmitNow(s, m)
    else if cookie == 0 then
      if IsOneway(m.event.flags) || txid == 0 then EmitNow(s, m) else ParkByTxid(s, m, txid, now)
    else if IsOneway(m.event.flags) then RouteOneway(CheckDuplicate(s, cookie), m, cookie, now)
    else ParkByCookie(CheckDuplicate(s, cookie), m, cookie, now)
  }

  // handleEvent

  /** The number of chunks a size needs, in 64-bit arithmetic. */
  function TotalChunks(dataSize: u64): nat {
    (dataSize + CHUNK_SIZE - 1) % 0x1_0000_0000_0000_0000 / CHUNK_SIZE
  }

  /** How many bytes of a parcel chunk `i` carries. */
  function PieceLength(size: nat, i: nat): nat
    requires i * CHUNK_SIZE <= size
  {
    if (i + 1) * CHUNK_SIZE > size then size - i * CHUNK_SIZE else CHUNK_SIZE
  }

  /** The chunk carries its part of the parcel; what follows that part in its last chunk is arbitrary. */
  predicate Holds(c: Chunk, parcel: Bytes) {
    && c.index * CHUNK_SIZE <= |parcel|
    && var n := PieceLength(|parcel|, c.index); c.data[..n] == parcel[c.index * CHUNK_SIZE..][..n]
  }

  lemma HoldsAt(c: Chunk, parcel: Bytes, k: nat)
    requires Holds(c, parcel) && k < |parcel| && k / CHUNK_SIZE == c.index
    ensures c.data[k % CHUNK_SIZE] == parcel[k]
  {
    var n, j := PieceLength(|parcel|, c.index), k % CHUNK_SIZE;
    assert k == c.index * CHUNK_SIZE + j && j < n;
    assert c.data[..n][j] == parcel[c.index * CHUNK_SIZE..][..n][j];
  }

  /** The first chunk of a transaction fixes its metadata and picks up a cookie that came early. */
  function OpenBuffer(s: State, c: Chunk, now: int): (r: State)
    ensures c.txid in r.buffers
  {
    if c.txid in s.buffers then s else
    var early := c.meta.cookie == 0 && c.txid in s.cookies.items;
    var meta := if early then c.meta.(cookie := s.cookies.items[c.txid].value) else c.meta;
    s.(buffers := s.buffers[c.txid := TxBuffer(now, seq(TotalChunks(c.meta.dataSize), _ => None), meta, c.meta)],
       cookies := if early then Delete(s.cookies, c.txid) else s.cookies)
  }

  function StoreChunk(b: TxBuffer, c: Chunk): TxBuffer {
    if c.index < |b.chunks| then b.(chunks := b.chunks[c.index := Some(c.data)]) else b
  }

  predicate Complete(chunks: seq<Option<ChunkData>>) {
    forall i :: 0 <= i < |chunks| ==> chunks[i].Some?
  }

  function Merge(chunks: seq<Option<ChunkData>>): Bytes
    requires Complete(chunks)
  {
    if chunks == [] then [] else Merge(chunks[..|chunks| - 1]) + chunks[|chunks| - 1].value
  }

  /** The event has the transaction's metadata, field by field. */
  ghost predicate MetaKept(e: BinderEvent, meta: TxMeta) {
    && e.pid == meta.pid && e.uid == meta.uid && e.code == meta.code && e.flags == meta.flags
    && e.isReply == meta.isReply && e.binderDev == meta.binderDev && e.targetKind == meta.targetKind
    && e.toPid == meta.toPid && e.toUid == meta.toUid && e.targetRef == meta.targetRef && e.pairId == meta.pairId
    && e.dataSize == |e.parcel| && e.stack == None
  }

  function BuildEvent(meta: TxMeta, parcel: Bytes, now: i64): BinderEvent
    requires |parcel| <= CHUNK_SIZE * MAX_CHUNKS
  {
    BinderEvent(now, meta.pid, meta.uid, meta.code, meta.flags, |parcel|, meta.isReply, meta.binderDev,
                meta.targetKind, meta.toPid, meta.toUid, meta.targetRef, meta.pairId, parcel, None)
  }

  function NewMain(txid: u64, b: TxBuffer, parcel: Bytes, now: i64): MainEvent
    requires |parcel| <= CHUNK_SIZE * MAX_CHUNKS
  {
    var e := BuildEvent(b.meta, parcel, now);
    MainEvent(txid, b.first, e, e)
  }

  /** All chunks are there: check the sizes, build the event and route it. */
  function Deliver(s: State, txid: u64, now: i64): State
    requires txid in s.buffers && Complete(s.buffers[txid].chunks)
  {
    var b := s.buffers[txid];
    var data := Merge(b.chunks);
    var s1 := s.(buffers := s.buffers - {txid});
    if |data| <= 16 || |data| > CHUNK_SIZE * MAX_CHUNKS then s1
    else if b.meta.dataSize == 0 || b.meta.dataSize > |data| then s1
    else RouteMain(s1, NewMain(txid, b, data[..b.meta.dataSize], now), b.meta.cookie, txid, now)
  }

  function ExpireCookies(s: State, now: int, order: seq<u64>): State {
    s.(cookies := Expire(s.cookies, order, now - PENDING_COOKIE_TTL))
  }

  function FreshBuffers(buffers: map<u64, TxBuffer>, cutoff: int): map<u64, TxBuffer> {
    map k | k in buffers && buffers[k].firstSeen >= cutoff :: buffers[k]
  }

  function MaybeCleanup(s: State, now: int, later: int, order: seq<u64>): State {
    var n := (s.eventCounter + 1) % 0x1_0000_0000;
    if n % CLEANUP_EVERY != 0 then s.(eventCounter := n)
    else
      ExpireCookies(
        s.(eventCounter := n,
           buffers := FreshBuffers(s.buffers, now - STALE_BUFFER_TTL)),
        later, order)
  }

  /** The buffer has the new chunk in it; nothing else has happened yet. */
  function TakeChunk(s: State, c: Chunk, now: int): (r: State)
    ensures c.txid in r.buffers
  {
    var s1 := OpenBuffer(s, c, now);
    s1.(buffers := s1.buffers[c.txid := StoreChunk(s1.buffers[c.txid], c)])
  }

  function NoteChunk(s: State, c: Chunk): State {
    s.(hist := s.hist.(seen := s.hist.seen.(chunks := s.hist.seen.chunks + {c})))
  }

  function HandleChunk(s: State, c: Chunk, now: i64, later: int, order: seq<u64>): State {
    var s1 := TakeChunk(NoteChunk(s, c), c, now);
    MaybeCleanup(if Complete(s1.buffers[c.txid].chunks) then Deliver(s1, c.txid, now) else s1, now, later, order)
  }

  // handleSideband

  function NoteSideband(s: State, sb: Sideband): State {
    s.(hist := s.hist.(handled := s.hist.handled + 1, seen := s.hist.seen.(sidebands := s.hist.seen.sidebands + {sb})))
  }

  function DropDuplicate(s: State, cookie: u64): State
    requires cookie in s.oneway.items
  {
    s.(oneway := Delete(s.oneway, cookie), failures := AddOrphans(s.failures, 1),
       hist := s.hist.(duplicates := s.hist.duplicates + 1))
  }

  function StashSideband(s: State, sb: Sideband, now: int): State {
    var l := Push(s.oneway, sb.cookie, now, sb);
    s.(oneway := Trim(l, PENDING_ONEWAY_CAPACITY),
       failures := AddOrphans(s.failures, |Trimmed(l, PENDING_ONEWAY_CAPACITY)|))
  }

  function HandleSideband(s0: State, sb: Sideband, now: int): State {
    var s := NoteSideband(s0, sb);
    if sb.cookie in s.main.items then MergeMain(s, sb)
    else if sb.cookie in s.oneway.items then DropDuplicate(s, sb.cookie)
    else if sb.cookie in s.recent.items then s.(failures := s.failures.(onewayLate := s.failures.onewayLate + 1))
    else StashSideband(s, sb, now)
  }

  // handleCookieSideband

  function NoteCookie(s: State, r: CookieRecord): State {
    s.(hist := s.hist.(seen := s.hist.seen.(cookieRecords := s.hist.seen.cookieRecords + {r})))
  }

  function StashCookie(s: State, r: CookieRecord, now: int): State {
    s.(cookies := Trim(if r.txid in s.cookies.items then Touch(s.cookies, r.txid, now, r.cookie)
                       else Push(s.cookies, r.txid, now, r.cookie), PENDING_COOKIE_CAPACITY))
  }

  function HandleCookie(s0: State, r: CookieRecord, now: int, later: int, order: seq<u64>): State {
    var s := NoteCookie(s0, r);
    if r.txid == 0 || r.cookie == 0 then s
    else if r.txid in s.buffers && s.buffers[r.txid].meta.cookie == 0 then
      var b := s.buffers[r.txid];
      s.(buffers := s.buffers[r.txid := b.(meta := b.meta.(cookie := r.cookie))])
    else if r.txid in s.byTxid.items then Activate(s, r.txid, r.cookie)
    else ExpireCookies(StashCookie(s, r, now), later, order)
  }

  // runSweep

  function SweepMain(s: State, now: int, order: seq<u64>): State {
    var out := Expired(s.main, order, now - PENDING_MAIN_TTL);
    s.(main := Expire(s.main, order, now - PENDING_MAIN_TTL),
       failures := AddEarly(s.failures, |out|), emitted := s.emitted + out)
  }

  function SweepByTxid(s: State, now: int, order: seq<u64>): State {
    var out := Expired(s.byTxid, order, now - PENDING_MAIN_TTL);
    s.(byTxid := Expire(s.byTxid, order, now - PENDING_MAIN_TTL),
       failures := AddEarly(s.failures, |out|), emitted := s.emitted + out)
  }

  function SweepOneway(s: State, now: int, order: seq<u64>): State {
    s.(oneway := Expire(s.oneway, order, now - PENDING_ONEWAY_TTL),
       failures := AddOrphans(s.failures, |Expired(s.oneway, order, now - PENDING_ONEWAY_TTL)|))
  }

  function SweepRecent(s: State, now: int, order: seq<u64>): State {
    s.(recent := Expire(s.recent, order, now - RECENT_ONEWAY_TTL))
  }

  /** The order in which a sweep ranges over the four maps. */
  datatype Orders = Orders(main: seq<u64>, byTxid: seq<u64>, oneway: seq<u64>, recent: seq<u64>)

  function Sweep(s: State, now: int, o: Orders): State {
    SweepRecent(SweepOneway(SweepByTxid(SweepMain(s, now, o.main), now, o.byTxid), now, o.oneway), now, o.recent)
  }

  // Runs

  datatype Input =
    | ChunkIn(chunk: Chunk, now: i64, later: i64, order: seq<u64>)
    | SidebandIn(sideband: Sideband, now: i64)
    | CookieIn(cookieRecord: CookieRecord, now: i64, later: i64, order: seq<u64>)
    | SweepIn(now: i64, orders: Orders)
    | SweepCookiesIn(now: i64, order: seq<u64>)

  function Step(s: State, i: Input): State {
    match i
    case ChunkIn(c, now, later, order) => HandleChunk(s, c, now, later, order)
    case SidebandIn(sb, now) => HandleSideband(s, sb, now)
    case CookieIn(r, now, later, order) => HandleCookie(s, r, now, later, order)
    case SweepIn(now, orders) => Sweep(s, now, orders)
    case SweepCookiesIn(now, order) => ExpireCookies(s, now, order)
  }

  function Run(s: State, inputs: seq<Input>): State {
    if inputs == [] then s else Step(Run(s, inputs[..|inputs| - 1]), inputs[|inputs| - 1])
  }

  // What the loops over maps visit

  predicate CleansUp(s: State) { (s.eventCounter + 1) % 0x1_0000_0000 % CLEANUP_EVERY == 0 }

  /** The cookie record is neither malformed nor needed by a buffer or a waiting main. */
  predicate Stashes(s: State, r: CookieRecord) {
    && r.txid != 0 && r.cookie != 0 && r.txid !in s.byTxid.items
    && (r.txid in s.buffers ==> s.buffers[r.txid].meta.cookie != 0)
  }

  /** Every loop of the step over a map visits each of its keys. */
  ghost predicate Ranged(s: State, i: Input) {
    match i
    case ChunkIn(c, now, _, order) =>
      CleansUp(s) ==> Enumerates(order, TakeChunk(NoteChunk(s, c), c, now).cookies.items)
    case SidebandIn(_, _) => true
    case CookieIn(r, now, _, order) =>
      Stashes(s, r) ==> Enumerates(order, StashCookie(NoteCookie(s, r), r, now).cookies.items)
    case SweepIn(_, o) =>
      && Enumerates(o.main, s.main.items) && Enumerates(o.byTxid, s.byTxid.items)
      && Enumerates(o.oneway, s.oneway.items) && Enumerates(o.recent, s.recent.items)
    case SweepCookiesIn(_, order) => Enumerates(order, s.cookies.items)
  }

  ghost predicate RangedRun(inputs: seq<Input>) {
    inputs == []
    || (RangedRun(inputs[..|inputs| - 1]) && Ranged(Run(Init(), inputs[..|inputs| - 1]), inputs[|inputs| - 1]))
  }

  lemma RangedLast(inputs: seq<Input>, last: Input)
    requires RangedRun(inputs) && Ranged(Run(Init(), inputs), last)
    ensures RangedRun(inputs + [last])
  {
    hide Run, Ranged;
    assert (inputs + [last])[..|inputs|] == inputs;
  }

  // Frames

  /** The states differ at most in chunk buffers, event counter and waiting cookies. */
  ghost predicate SameCore(a: State, b: State) {
    && a.main == b.main && a.byTxid == b.byTxid && a.oneway == b.oneway && a.recent == b.recent
    && a.accepted == b.accepted && a.failures == b.failures && a.emitted == b.emitted && a.hist == b.hist
  }

  lemma TakeChunkFrame(s: State, c: Chunk, now: int)
    ensures SameCore(s, TakeChunk(s, c, now)) && TakeChunk(s, c, now).eventCounter == s.eventCounter
    ensures TakeChunk(s, c, now).buffers.Keys == s.buffers.Keys + {c.txid}
    ensures forall k :: k in s.buffers && k != c.txid ==> TakeChunk(s, c, now).buffers[k] == s.buffers[k]
  {
  }

  lemma CleanupFrame(s: State, now: int, later: int, order: seq<u64>)
    ensures SameCore(s, MaybeCleanup(s, now, later, order))
    ensures forall k :: k in MaybeCleanup(s, now, later, order).buffers ==>
                          k in s.buffers && MaybeCleanup(s, now, later, order).buffers[k] == s.buffers[k]
  {
  }

  /** The main event a complete buffer gives, if its sizes are plausible. */
  function Assembled(s: State, txid: u64, now: i64): Option<MainEvent>
    requires txid in s.buffers && Complete(s.buffers[txid].chunks)
  {
    var b := s.buffers[txid];
    var data := Merge(b.chunks);
    if 16 < |data| <= CHUNK_SIZE * MAX_CHUNKS && 0 < b.meta.dataSize <= |data|
    then Some(NewMain(txid, b, data[..b.meta.dataSize], now)) else None
  }

  lemma DeliverCases(s: State, txid: u64, now: i64)
    requires txid in s.buffers && Complete(s.buffers[txid].chunks)
    ensures var s1, m := s.(buffers := s.buffers - {txid}), Assembled(s, txid, now);
            Deliver(s, txid, now) ==
            if m.None? then s1 else RouteMain(s1, m.value, s.buffers[txid].meta.cookie, txid, now)
  {
    hide RouteMain, Merge;
  }

  lemma HandleChunkIs(s: State, c: Chunk, now: i64, later: int, order: seq<u64>)
    ensures var t := TakeChunk(NoteChunk(s, c), c, now);
            HandleChunk(s, c, now, later, order) ==
            MaybeCleanup(if Complete(t.buffers[c.txid].chunks) then Deliver(t, c.txid, now) else t, now, later, order)
  {
    hide TakeChunk, Deliver, MaybeCleanup;
  }

  lemma StepChunk(s: State, i: Input)
    requires i.ChunkIn?
    ensures Step(s, i) == HandleChunk(s, i.chunk, i.now, i.later, i.order)
  {
    hide HandleChunk;
  }

  lemma RunLast(s: State, inputs: seq<Input>, last: Input)
    ensures Run(s, inputs + [last]) == Step(Run(s, inputs), last)
  {
    hide Step;
    assert (inputs + [last])[..|inputs|] == inputs;
  }

  lemma RunNone(s: State)
    ensures Run(s, []) == s
  {}

  /** One-way mains and the duplicate check leave both waiting maps alone. */
  lemma OnewayWaits(s: State, m: MainEvent, cookie: u64, now: int)
    ensures RouteOneway(s, m, cookie, now).main == s.main && RouteOneway(s, m, cookie, now).byTxid == s.byTxid
    ensures RouteOneway(s, m, cookie, now).hist.lost == s.hist.lost
  {
    hide Trim, Touch, Delete, Push;
  }

  lemma CheckFrame(s: State, cookie: u64)
    ensures var r := CheckDuplicate(s, cookie);
            r == s.(failures := r.failures, accepted := r.accepted)
            && r.failures == s.failures.(cookieViolation := r.failures.cookieViolation)
  {
    hide LastCookies;
  }
}
