/** The three BPF programs on binder_transaction, as functions on the two maps they share.

    A call of binder_transaction on a thread runs the main program, then the cookie program,
    and later, if the kernel gets that far, the raw tracepoint program. Reading kernel and user
    memory is exact; whether the ring buffer had room is an input. */
module ProbeModel {
  import opened Types
  import opened CollectorModel

  type Parcel = p: Bytes | |p| < 0x1_0000_0000_0000_0000

  /** What the programs can read during one call. `repliesTo` is the debug id and the sender uid of
      the transaction a reply answers, `debugId` the kernel's id for this transaction. */
  datatype Call = Call(
    tid: u32, pid: u32, uid: u32, reply: bool, trNull: bool, txid: u64, code: u32, flags: u32, parcel: Parcel,
    targetRef: u64, binderDev: u8, repliesTo: Option<(u64, u32)>,
    debugId: u64, toPid: u32, toUid: u32, toUidUnsupported: u8)

  /** tid_to_txid_map, pending_map and the sideband slot of ringbuf_overflow_map. */
  datatype Maps = Maps(txids: map<u32, u64>, pending: map<u32, u64>, overflow: nat)

  /** The uid a call is filtered by: for a reply, that of whoever sent the request. */
  function EffectiveUid(c: Call): u32 {
    if !c.reply then c.uid else if c.repliesTo.Some? then c.repliesTo.value.1 else 0
  }

  /** trace_config_map holds one uid; zero lets everything through. */
  predicate Passes(target: u32, uid: u32) { target == 0 || target == uid }

  // The main program

  /** Chunk counts are kept in 32 bits. */
  function ChunkCount(c: Call): nat { TotalChunks(|c.parcel|) % 0x1_0000_0000 }

  function MetaOf(c: Call): TxMeta {
    TxMeta(c.pid, c.uid, c.code, c.flags, |c.parcel|, if c.reply then 1 else 0, c.binderDev, 0, 0, 0, c.targetRef,
           if c.reply && c.repliesTo.Some? then c.repliesTo.value.0 else 0, 0)
  }

  /** A reserved record is not cleared: past the bytes copied it keeps what the ring held before. */
  function ChunkAt(c: Call, i: nat, before: ChunkData): Chunk
    requires i < MAX_CHUNKS && i * CHUNK_SIZE <= |c.parcel|
  {
    var size := PieceLength(|c.parcel|, i);
    Chunk(c.txid, i, MetaOf(c), c.parcel[i * CHUNK_SIZE..i * CHUNK_SIZE + size] + before[size..])
  }

  lemma ChunkHolds(c: Call, i: nat, before: ChunkData)
    requires i < MAX_CHUNKS && i * CHUNK_SIZE <= |c.parcel|
    ensures Holds(ChunkAt(c, i, before), c.parcel)
  {
    var n, x := PieceLength(|c.parcel|, i), ChunkAt(c, i, before);
    assert x.data[..n] == c.parcel[i * CHUNK_SIZE..i * CHUNK_SIZE + n];
    assert c.parcel[i * CHUNK_SIZE..][..n] == c.parcel[i * CHUNK_SIZE..i * CHUNK_SIZE + n];
  }

  /** The chunks submitted from index `i` on: `ring[i]` is what reserving record i gives, if there is room. */
  function ChunksFrom(c: Call, i: nat, ring: seq<Option<ChunkData>>): seq<Chunk>
    requires i <= MAX_CHUNKS && ChunkCount(c) <= MAX_CHUNKS
    decreases MAX_CHUNKS - i
  {
    if i >= ChunkCount(c) || i >= |ring| || ring[i].None? then []
    else
      CountBounds(c, i);
      [ChunkAt(c, i, ring[i].value)] + ChunksFrom(c, i + 1, ring)
  }

  lemma CountBounds(c: Call, i: nat)
    requires i < ChunkCount(c)
    ensures i * CHUNK_SIZE <= |c.parcel|
  {
    assert TotalChunks(|c.parcel|) * CHUNK_SIZE <= |c.parcel| + CHUNK_SIZE - 1;
  }

  /** `cs` are the chunks from index `i` on. */
  predicate CutFrom(c: Call, i: nat, ring: seq<Option<ChunkData>>, cs: seq<Chunk>) {
    forall k :: 0 <= k < |cs| ==> IsChunkAt(c, i + k, ring, cs[k])
  }

  predicate IsChunkAt(c: Call, i: nat, ring: seq<Option<ChunkData>>, x: Chunk) {
    && i < ChunkCount(c) && i < MAX_CHUNKS && i < |ring| && ring[i].Some? && i * CHUNK_SIZE <= |c.parcel|
    && x == ChunkAt(c, i, ring[i].value)
  }

  lemma {:induction false} ChunksFromIndices(c: Call, i: nat, ring: seq<Option<ChunkData>>)
    requires i <= MAX_CHUNKS && ChunkCount(c) <= MAX_CHUNKS
    ensures CutFrom(c, i, ring, ChunksFrom(c, i, ring))
    decreases MAX_CHUNKS - i
  {
    hide ChunkCount, ChunkAt;
    if i < ChunkCount(c) && i < |ring| && ring[i].Some? {
      CountBounds(c, i);
      ChunksFromIndices(c, i + 1, ring);
      var cs, rest := ChunksFrom(c, i, ring), ChunksFrom(c, i + 1, ring);
      forall k | 0 <= k < |cs| ensures IsChunkAt(c, i + k, ring, cs[k]) {
        if k > 0 { assert cs[k] == rest[k - 1] && IsChunkAt(c, i + 1 + (k - 1), ring, rest[k - 1]); }
      }
    }
  }

  function MainProgram(m: Maps, target: u32, c: Call, ring: seq<Option<ChunkData>>): (Maps, seq<Chunk>) {
    if c.trNull || !Passes(target, EffectiveUid(c)) then (m, []) else
    var m1 := if c.reply then m else m.(txids := m.txids[c.tid := c.txid]);
    (m1, if ChunkCount(c) > MAX_CHUNKS then [] else ChunksFrom(c, 0, ring))
  }

  // The cookie program

  /** Time in the upper 56 bits, CPU in the low 8, in 64-bit arithmetic. */
  function CookieOf(ts: u64, cpu: u32): u64 {
    ts * 0x100 % 0x1_0000_0000_0000_0000 + cpu % 0x100
  }

  /** Cookies of different readings differ while the clock stays below 2^56 ns and there are at
      most 256 CPUs. */
  lemma CookieInjective(ts: u64, cpu: u32, ts': u64, cpu': u32)
    requires ts < 0x100_0000_0000_0000 && ts' < 0x100_0000_0000_0000 && cpu < 0x100 && cpu' < 0x100
    ensures CookieOf(ts, cpu) == CookieOf(ts', cpu') ==> ts == ts' && cpu == cpu'
  {
    hide CookieOf;
    CookieFits(ts, cpu);
    CookieFits(ts', cpu');
  }

  lemma CookieFits(ts: u64, cpu: u32)
    requires ts < 0x100_0000_0000_0000 && cpu < 0x100
    ensures CookieOf(ts, cpu) == ts * 0x100 + cpu
  {
    var x := ts * 0x100;
    assert 0 <= x < 0x1_0000_0000_0000_0000;
    SmallMod(x, 0x1_0000_0000_0000_0000);
    SmallMod(cpu, 0x100);
  }

  lemma SmallMod(x: nat, m: nat)
    requires x < m
    ensures x % m == x
  {}

  function CookieProgram(m: Maps, target: u32, c: Call, ts: u64, cpu: u32, room: bool): (Maps, Option<CookieRecord>) {
    if c.reply || !Passes(target, c.uid) || c.tid !in m.txids || m.txids[c.tid] == 0 || CookieOf(ts, cpu) == 0
    then (m, None)
    else
      (m.(pending := m.pending[c.tid := CookieOf(ts, cpu)], overflow := m.overflow + if room then 0 else 1),
       if room then Some(CookieRecord(CookieOf(ts, cpu), m.txids[c.tid])) else None)
  }

  // The raw tracepoint program

  function TracepointProgram(m: Maps, c: Call, room: bool): (Maps, Option<Sideband>) {
    if c.reply || c.tid !in m.pending || m.pending[c.tid] == 0 then (m, None)
    else
      (m.(pending := m.pending - {c.tid}, overflow := m.overflow + if room then 0 else 1),
       if room then Some(Sideband(m.pending[c.tid], c.debugId, c.toPid,
                                  if c.toUidUnsupported == 0 then c.toUid else 0,
                                  if c.toUidUnsupported == 0 then 0 else 1)) else None)
  }
}

/** The programs as they update the maps in place. */
module Probes {
  import opened Types
  import opened CollectorModel
  import opened ProbeModel

  /** The chunk loop: at most 16 records, up to the last chunk or the first failed reservation. */
  method SubmitChunks(c: Call, ring: seq<Option<ChunkData>>) returns (submitted: seq<Chunk>)
    requires ChunkCount(c) <= MAX_CHUNKS
    ensures submitted == ChunksFrom(c, 0, ring)
  {
    hide ChunkCount, ChunkAt;
    submitted := [];
    var i := 0;
    while i < MAX_CHUNKS
      invariant 0 <= i <= MAX_CHUNKS
      invariant submitted + ChunksFrom(c, i, ring) == ChunksFrom(c, 0, ring)
    {
      if i >= ChunkCount(c) { return; }
      if i >= |ring| || ring[i].None? { return; }
      CountBounds(c, i);
      submitted := submitted + [ChunkAt(c, i, ring[i].value)];
      i := i + 1;
    }
  }

  class ProbeMaps {
    var tidToTxid: map<u32, u64>
    var pendingMap: map<u32, u64>
    var overflowSideband: nat

    ghost function View(): Maps
      reads this
    {
      Maps(tidToTxid, pendingMap, overflowSideband)
    }

    constructor ()
      ensures View() == Maps(map[], map[], 0)
    {
      tidToTxid, pendingMap, overflowSideband := map[], map[], 0;
    }

    method KprobeMain(target: u32, c: Call, ring: seq<Option<ChunkData>>) returns (submitted: seq<Chunk>)
      modifies this`tidToTxid
      ensures (View(), submitted) == MainProgram(old(View()), target, c, ring)
    {
      submitted := [];
      if c.trNull { return; }
      if target != 0 && target != EffectiveUid(c) { return; }
      if !c.reply { tidToTxid := tidToTxid[c.tid := c.txid]; }
      if ChunkCount(c) > MAX_CHUNKS { return; }
      submitted := SubmitChunks(c, ring);
    }

    method KprobeCookie(target: u32, c: Call, ts: u64, cpu: u32, room: bool) returns (record: Option<CookieRecord>)
      modifies this`pendingMap, this`overflowSideband
      ensures (View(), record) == CookieProgram(old(View()), target, c, ts, cpu, room)
    {
      record := None;
      if c.reply { return; }
      if target != 0 && target != c.uid { return; }
      if c.tid !in tidToTxid { return; }
      var txid := tidToTxid[c.tid];
      if txid == 0 { return; }
      var cookie := CookieOf(ts, cpu);
      if cookie == 0 { return; }
      pendingMap := pendingMap[c.tid := cookie];
      if !room { overflowSideband := overflowSideband + 1; return; }
      record := Some(CookieRecord(cookie, txid));
    }

    method RawTracepoint(c: Call, room: bool) returns (record: Option<Sideband>)
      modifies this`pendingMap, this`overflowSideband
      ensures (View(), record) == TracepointProgram(old(View()), c, room)
    {
      record := None;
      if c.reply { return; }
      if c.tid !in pendingMap { return; }
      var cookie := pendingMap[c.tid];
      if cookie == 0 { return; }
      pendingMap := pendingMap - {c.tid};
      var toUid, unsupported := 0, 0;
      if c.toUidUnsupported == 0 { toUid := c.toUid; } else { unsupported := 1; }
      if !room { overflowSideband := overflowSideband + 1; return; }
      record := Some(Sideband(cookie, c.debugId, c.toPid, toUid, unsupported));
    }
  }
}
