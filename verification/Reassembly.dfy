/** Reassembly: the chunks of a transaction, delivered once each in any order and interleaved
    with anything else, give back the parcel they were cut from, once. */
module Reassembly {
  import opened Types
  import opened KeyedList
  import opened CollectorModel

  // The cut

  /** Chunk `c` declares the parcel's size and carries its part of it. */
  predicate Piece(c: Chunk, parcel: Bytes) {
    c.meta.dataSize == |parcel| && c.index * CHUNK_SIZE < |parcel| && Holds(c, parcel)
  }

  predicate DistinctIndices(cs: seq<Chunk>) {
    forall i, j :: 0 <= i < j < |cs| ==> cs[i].index != cs[j].index
  }

  /** Some pieces of the parcel, none twice. */
  predicate Pieces(cs: seq<Chunk>, parcel: Bytes) {
    && 0 < |parcel| <= CHUNK_SIZE * MAX_CHUNKS
    && (forall c :: c in cs ==> Piece(c, parcel))
    && DistinctIndices(cs)
  }

  predicate HasIndex(cs: seq<Chunk>, i: int) { exists c :: c in cs && c.index == i }

  /** Every piece of the parcel is there. */
  ghost predicate Whole(cs: seq<Chunk>, parcel: Bytes)
    requires |parcel| <= CHUNK_SIZE * MAX_CHUNKS
  {
    forall i :: 0 <= i < TotalChunks(|parcel|) ==> HasIndex(cs, i)
  }

  lemma TotalChunksOf(parcel: Bytes)
    requires 0 < |parcel| <= CHUNK_SIZE * MAX_CHUNKS
    ensures var n := TotalChunks(|parcel|); 1 <= n <= MAX_CHUNKS && (n - 1) * CHUNK_SIZE < |parcel| <= n * CHUNK_SIZE
  {
  }

  // The buffer

  /** The buffer holds exactly the chunks received. */
  ghost predicate Filled(chunks: seq<Option<ChunkData>>, cs: seq<Chunk>) {
    && (forall c :: c in cs ==> c.index < |chunks| && chunks[c.index] == Some(c.data))
    && (forall i :: 0 <= i < |chunks| && chunks[i].Some? ==> HasIndex(cs, i))
  }

  ghost predicate Opened(b: TxBuffer, cs: seq<Chunk>, parcel: Bytes)
    requires cs != []
  {
    && b.first == cs[0].meta && b.meta == b.first.(cookie := b.meta.cookie)
    && |parcel| < 0x1_0000_0000 && |b.chunks| == TotalChunks(|parcel|)
    && Filled(b.chunks, cs)
  }

  lemma StoreFilled(chunks: seq<Option<ChunkData>>, cs: seq<Chunk>, c: Chunk)
    requires Filled(chunks, cs) && c.index < |chunks| && !HasIndex(cs, c.index)
    ensures Filled(chunks[c.index := Some(c.data)], cs + [c])
  {
    var r := chunks[c.index := Some(c.data)];
    forall i | 0 <= i < |r| && r[i].Some? ensures HasIndex(cs + [c], i) {
      if i == c.index {
        assert c in cs + [c];
      } else {
        assert HasIndex(cs, i);
        var d :| d in cs && d.index == i;
        assert d in cs + [c];
      }
    }
  }

  lemma FreshIndex(cs: seq<Chunk>, c: Chunk)
    requires DistinctIndices(cs + [c])
    ensures !HasIndex(cs, c.index)
  {
    forall d | d in cs ensures d.index != c.index {
      var i :| 0 <= i < |cs| && cs[i] == d;
      assert (cs + [c])[i] == d && (cs + [c])[|cs|] == c;
    }
  }

  /** One more chunk: the buffer holds it too, with the metadata of the first. */
  lemma TakeOpened(s: State, c: Chunk, now: int, cs: seq<Chunk>, parcel: Bytes)
    requires Pieces(cs + [c], parcel)
    requires if cs == [] then c.txid !in s.buffers else c.txid in s.buffers && Opened(s.buffers[c.txid], cs, parcel)
    ensures Opened(TakeChunk(s, c, now).buffers[c.txid], cs + [c], parcel)
    ensures TakeChunk(s, c, now).buffers[c.txid].firstSeen == if cs == [] then now else s.buffers[c.txid].firstSeen
  {
    hide Without;
    TotalChunksOf(parcel);
    assert c in cs + [c] && Piece(c, parcel);
    FreshIndex(cs, c);
    var b := OpenBuffer(s, c, now).buffers[c.txid];
    assert c.index < |b.chunks|;
    assert Filled(b.chunks, cs);
    StoreFilled(b.chunks, cs, c);
    assert (cs + [c])[0] == if cs == [] then c else cs[0];
  }

  /** The buffer is complete exactly when every piece has come. */
  lemma CompleteIffWhole(b: TxBuffer, cs: seq<Chunk>, parcel: Bytes)
    requires cs != [] && Pieces(cs, parcel) && Opened(b, cs, parcel)
    ensures Complete(b.chunks) <==> Whole(cs, parcel)
  {
    if Whole(cs, parcel) {
      forall i | 0 <= i < |b.chunks| ensures b.chunks[i].Some? {
        assert HasIndex(cs, i);
      }
    }
  }

  lemma {:induction false} MergeLength(chunks: seq<Option<ChunkData>>)
    requires Complete(chunks)
    ensures |Merge(chunks)| == |chunks| * CHUNK_SIZE
  {
    if chunks != [] { MergeLength(chunks[..|chunks| - 1]); }
  }

  /** Byte `k` of the merged data is byte k mod 1024 of chunk k div 1024. */
  lemma {:induction false} MergeAt(chunks: seq<Option<ChunkData>>, k: nat)
    requires Complete(chunks) && k < |chunks| * CHUNK_SIZE
    ensures k < |Merge(chunks)| && Merge(chunks)[k] == chunks[k / CHUNK_SIZE].value[k % CHUNK_SIZE]
  {
    MergeLength(chunks);
    var front := chunks[..|chunks| - 1];
    MergeLength(front);
    if k < |front| * CHUNK_SIZE { MergeAt(front, k); }
  }

  /** A complete buffer merges to the parcel. */
  lemma MergeWhole(b: TxBuffer, cs: seq<Chunk>, parcel: Bytes)
    requires cs != [] && Pieces(cs, parcel) && Opened(b, cs, parcel) && Complete(b.chunks)
    ensures |Merge(b.chunks)| == |b.chunks| * CHUNK_SIZE >= |parcel| && Merge(b.chunks)[..|parcel|] == parcel
  {
    TotalChunksOf(parcel);
    MergeLength(b.chunks);
    forall k | 0 <= k < |parcel| ensures Merge(b.chunks)[k] == parcel[k] {
      MergeAt(b.chunks, k);
      var i := k / CHUNK_SIZE;
      assert HasIndex(cs, i);
      var c :| c in cs && c.index == i;
      HoldsAt(c, parcel, k);
    }
  }

  // Runs

  predicate IsChunkOf(i: Input, txid: u64) { i.ChunkIn? && i.chunk.txid == txid }

  function ChunksOf(inputs: seq<Input>, txid: u64): seq<Chunk> {
    if inputs == [] then [] else
    var last := inputs[|inputs| - 1];
    ChunksOf(inputs[..|inputs| - 1], txid) + if IsChunkOf(last, txid) then [last.chunk] else []
  }

  function EventsOf(q: seq<MainEvent>, txid: u64): seq<MainEvent> {
    if q == [] then [] else
    EventsOf(q[..|q| - 1], txid) + if q[|q| - 1].txid == txid then [q[|q| - 1]] else []
  }

  lemma EventsOfLast(q: seq<MainEvent>, m: MainEvent, txid: u64)
    ensures EventsOf(q + [m], txid) == EventsOf(q, txid) + if m.txid == txid then [m] else []
  {
    assert (q + [m])[..|q|] == q;
  }

  /** When the first chunk of the transaction came. */
  function FirstTime(inputs: seq<Input>, txid: u64): int
    requires ChunksOf(inputs, txid) != []
  {
    var before := inputs[..|inputs| - 1];
    if ChunksOf(before, txid) != [] then FirstTime(before, txid) else inputs[|inputs| - 1].now
  }

  /** When the last chunk of the transaction came. */
  function LastTime(inputs: seq<Input>, txid: u64): i64
    requires ChunksOf(inputs, txid) != []
  {
    if IsChunkOf(inputs[|inputs| - 1], txid) then inputs[|inputs| - 1].now
    else LastTime(inputs[..|inputs| - 1], txid)
  }

  /** From the transaction's first chunk on, no chunk of any transaction is stamped more than 5 s after it. */
  predicate Timely(inputs: seq<Input>, txid: u64) {
    inputs == [] ||
    var before, last := inputs[..|inputs| - 1], inputs[|inputs| - 1];
    && Timely(before, txid)
    && (last.ChunkIn? && ChunksOf(before, txid) != [] ==> last.now <= FirstTime(before, txid) + STALE_BUFFER_TTL)
  }

  /** The run up to the last chunk of the transaction. */
  function UpToLast(inputs: seq<Input>, txid: u64): seq<Input> {
    if inputs == [] || IsChunkOf(inputs[|inputs| - 1], txid) then inputs
    else UpToLast(inputs[..|inputs| - 1], txid)
  }

  // Steps

  lemma RouteFrame(s: State, m: MainEvent, cookie: u64, txid: u64, now: int)
    ensures var r := RouteMain(s, m, cookie, txid, now);
            r.buffers == s.buffers && r.cookies == s.cookies && r.eventCounter == s.eventCounter
            && r.hist.completed == s.hist.completed + [Origin(m)]
  {
    hide Trim, Trimmed, Push, Delete, Touch, LastCookies;
  }

  /** What handling a chunk does to buffers and completed events, before the cleanup. */
  lemma DeliverFrame(s: State, txid: u64, now: i64)
    requires txid in s.buffers && Complete(s.buffers[txid].chunks)
    ensures var r, m := Deliver(s, txid, now), Assembled(s, txid, now);
            && r.buffers == s.buffers - {txid} && r.cookies == s.cookies && r.eventCounter == s.eventCounter
            && r.hist.completed == s.hist.completed + if m.Some? then [m.value] else []
  {
    hide RouteMain, Merge, Deliver;
    DeliverCases(s, txid, now);
    var s1, m := s.(buffers := s.buffers - {txid}), Assembled(s, txid, now);
    if m.Some? { RouteFrame(s1, m.value, s.buffers[txid].meta.cookie, txid, now); }
  }

  lemma CleanupKeeps(s: State, now: int, later: int, order: seq<u64>, txid: u64)
    requires txid in s.buffers && s.buffers[txid].firstSeen >= now - STALE_BUFFER_TTL
    ensures txid in MaybeCleanup(s, now, later, order).buffers
    ensures MaybeCleanup(s, now, later, order).buffers[txid] == s.buffers[txid]
  {
    hide Expire;
  }

  /** Handling another record leaves the transaction's buffer alone, except that its cookie may be filled in. */
  lemma OtherStep(s: State, i: Input, txid: u64)
    requires !IsChunkOf(i, txid)
    requires txid in s.buffers && i.ChunkIn? ==> s.buffers[txid].firstSeen >= i.now - STALE_BUFFER_TTL
    ensures txid in Step(s, i).buffers <==> txid in s.buffers
    ensures txid in s.buffers ==>
              var b, b' := s.buffers[txid], Step(s, i).buffers[txid];
              b' == b || (i.CookieIn? && i.cookieRecord.txid == txid
                          && b' == b.(meta := b.meta.(cookie := i.cookieRecord.cookie)))
    ensures EventsOf(Step(s, i).hist.completed, txid) == EventsOf(s.hist.completed, txid)
  {
    hide Trim, Trimmed, Push, Delete, Touch, Expire, Expired, EventsOf, HandleChunk;
    if i.ChunkIn? { OtherChunk(s, i.chunk, i.now, i.later, i.order, txid); }
  }

  lemma OtherChunk(s: State, c: Chunk, now: i64, later: int, order: seq<u64>, txid: u64)
    requires c.txid != txid
    requires txid in s.buffers ==> s.buffers[txid].firstSeen >= now - STALE_BUFFER_TTL
    ensures var r := HandleChunk(s, c, now, later, order);
            && (txid in r.buffers <==> txid in s.buffers)
            && (txid in s.buffers ==> r.buffers[txid] == s.buffers[txid])
            && EventsOf(r.hist.completed, txid) == EventsOf(s.hist.completed, txid)
  {
    hide TakeChunk, Deliver, MaybeCleanup, EventsOf, Merge;
    var n := NoteChunk(s, c);
    TakeChunkFrame(n, c, now);
    var t := TakeChunk(n, c, now);
    var full := Complete(t.buffers[c.txid].chunks);
    if full {
      DeliverFrame(t, c.txid, now);
      var m := Assembled(t, c.txid, now);
      assert t.hist.completed + [] == t.hist.completed;
      if m.Some? { EventsOfLast(t.hist.completed, m.value, txid); }
    }
    var d := if full then Deliver(t, c.txid, now) else t;
    CleanupFrame(d, now, later, order);
    if txid in s.buffers { CleanupKeeps(d, now, later, order, txid); }
  }

  /** A chunk of the transaction that is not the last one stays in the buffer. */
  lemma MoreStep(s: State, c: Chunk, now: i64, later: int, order: seq<u64>, cs: seq<Chunk>, parcel: Bytes)
    requires Pieces(cs + [c], parcel) && !Whole(cs + [c], parcel)
    requires if cs == [] then c.txid !in s.buffers else c.txid in s.buffers && Opened(s.buffers[c.txid], cs, parcel)
    requires cs != [] ==> s.buffers[c.txid].firstSeen >= now - STALE_BUFFER_TTL
    ensures var r := HandleChunk(s, c, now, later, order);
            && c.txid in r.buffers && Opened(r.buffers[c.txid], cs + [c], parcel)
            && r.buffers[c.txid] == TakeChunk(NoteChunk(s, c), c, now).buffers[c.txid]
            && r.hist.completed == s.hist.completed
  {
    hide TakeChunk, Deliver, MaybeCleanup, Opened, Whole, Pieces, Complete;
    var n := NoteChunk(s, c);
    TakeOpened(n, c, now, cs, parcel);
    TakeChunkFrame(n, c, now);
    var t := TakeChunk(n, c, now);
    CompleteIffWhole(t.buffers[c.txid], cs + [c], parcel);
    CleanupFrame(t, now, later, order);
    CleanupKeeps(t, now, later, order, c.txid);
  }

  /** The event that a transaction with these chunks gives. */
  function EventFrom(txid: u64, first: TxMeta, parcel: Bytes, now: i64): (m: MainEvent)
    requires |parcel| <= CHUNK_SIZE * MAX_CHUNKS
    ensures m.txid == txid && m.first == first && m.event == m.base && MetaKept(m.base, first)
    ensures m.base.parcel == parcel && m.base.timestamp == now
  {
    var e := BuildEvent(first, parcel, now);
    MainEvent(txid, first, e, e)
  }

  /** The last chunk of the transaction: the buffer goes and the event is built from the parcel. */
  lemma LastStep(s: State, c: Chunk, now: i64, later: int, order: seq<u64>, cs: seq<Chunk>, parcel: Bytes)
    requires Pieces(cs + [c], parcel) && Whole(cs + [c], parcel)
    requires if cs == [] then c.txid !in s.buffers else c.txid in s.buffers && Opened(s.buffers[c.txid], cs, parcel)
    ensures var t, m := TakeChunk(NoteChunk(s, c), c, now), EventFrom(c.txid, (cs + [c])[0].meta, parcel, now);
            && Opened(t.buffers[c.txid], cs + [c], parcel)
            && Complete(t.buffers[c.txid].chunks)
            && Assembled(t, c.txid, now) == Some(m)
            && c.txid !in HandleChunk(s, c, now, later, order).buffers
            && HandleChunk(s, c, now, later, order).hist.completed == s.hist.completed + [m]
  {
    hide TakeChunk, Deliver, MaybeCleanup, Whole, Pieces, Complete, Merge, Filled;
    var n := NoteChunk(s, c);
    TakeOpened(n, c, now, cs, parcel);
    TakeChunkFrame(n, c, now);
    var t := TakeChunk(n, c, now);
    CompleteIffWhole(t.buffers[c.txid], cs + [c], parcel);
    MergeWhole(t.buffers[c.txid], cs + [c], parcel);
    assert Assembled(t, c.txid, now) == Some(EventFrom(c.txid, (cs + [c])[0].meta, parcel, now)) by {
      PieceSizes(cs + [c], parcel);
    }
    DeliverFrame(t, c.txid, now);
    CleanupFrame(Deliver(t, c.txid, now), now, later, order);
  }

  lemma PieceSizes(cs: seq<Chunk>, parcel: Bytes)
    requires cs != [] && Pieces(cs, parcel)
    ensures cs[0].meta.dataSize == |parcel| && 0 < |parcel| <= CHUNK_SIZE * MAX_CHUNKS
    ensures 1 <= TotalChunks(|parcel|) <= MAX_CHUNKS
  {
    assert cs[0] in cs && Piece(cs[0], parcel);
    TotalChunksOf(parcel);
  }

  lemma PiecesFront(cs: seq<Chunk>, c: Chunk, parcel: Bytes)
    requires Pieces(cs + [c], parcel)
    ensures Pieces(cs, parcel) && !Whole(cs, parcel)
  {
    FreshIndex(cs, c);
    assert c in cs + [c] && Piece(c, parcel);
    TotalChunksOf(parcel);
    assert forall i, j :: 0 <= i < j < |cs| ==> (cs + [c])[i] == cs[i] && (cs + [c])[j] == cs[j];
    assert forall d :: d in cs ==> d in cs + [c];
    assert 0 <= c.index < TotalChunks(|parcel|);
  }

  // One record more

  lemma ChunksLast(front: seq<Input>, last: Input, txid: u64)
    ensures ChunksOf(front + [last], txid) ==
            ChunksOf(front, txid) + if IsChunkOf(last, txid) then [last.chunk] else []
  {
    assert (front + [last])[..|front|] == front;
  }

  lemma TimelyLast(front: seq<Input>, last: Input, txid: u64)
    requires Timely(front + [last], txid)
    ensures Timely(front, txid)
    ensures last.ChunkIn? && ChunksOf(front, txid) != [] ==> last.now <= FirstTime(front, txid) + STALE_BUFFER_TTL
  {
    hide ChunksOf, FirstTime;
    assert (front + [last])[..|front|] == front;
  }

  lemma FirstTimeLast(front: seq<Input>, last: Input, txid: u64)
    requires ChunksOf(front + [last], txid) != []
    ensures FirstTime(front + [last], txid) ==
            if ChunksOf(front, txid) != [] then FirstTime(front, txid) else last.now
  {
    hide ChunksOf;
    assert (front + [last])[..|front|] == front;
  }

  lemma LastTimeLast(front: seq<Input>, last: Input, txid: u64)
    requires ChunksOf(front + [last], txid) != []
    ensures IsChunkOf(last, txid) ==> LastTime(front + [last], txid) == last.now
    ensures !IsChunkOf(last, txid) ==>
              ChunksOf(front, txid) != [] && LastTime(front + [last], txid) == LastTime(front, txid)
  {
    ChunksLast(front, last, txid);
    hide ChunksOf;
    assert (front + [last])[..|front|] == front;
  }

  lemma UpToLastLast(front: seq<Input>, last: Input, txid: u64)
    ensures UpToLast(front + [last], txid) ==
            if IsChunkOf(last, txid) then front + [last] else UpToLast(front, txid)
  {
    assert (front + [last])[..|front|] == front;
  }

  /** What the state says while a piece is missing. */
  ghost predicate Partial(s: State, inputs: seq<Input>, txid: u64, parcel: Bytes) {
    var cs := ChunksOf(inputs, txid);
    && EventsOf(s.hist.completed, txid) == []
    && (if cs == [] then txid !in s.buffers
        else && txid in s.buffers && Opened(s.buffers[txid], cs, parcel)
             && s.buffers[txid].firstSeen == FirstTime(inputs, txid))
  }

  /** As long as a piece is missing, the buffer holds what has come and no event has been built. */
  lemma {:induction false} RunPartial(inputs: seq<Input>, txid: u64, parcel: Bytes)
    requires Timely(inputs, txid)
    requires Pieces(ChunksOf(inputs, txid), parcel) && !Whole(ChunksOf(inputs, txid), parcel)
    ensures Partial(Run(Init(), inputs), inputs, txid, parcel)
  {
    hide Run, Timely, Whole, Pieces, ChunksOf, Partial;
    if inputs == [] {
      NonePartial(txid, parcel);
    } else {
      var front, last := inputs[..|inputs| - 1], inputs[|inputs| - 1];
      assert inputs == front + [last];
      ChunksLast(front, last, txid);
      TimelyLast(front, last, txid);
      RunLast(Init(), front, last);
      if IsChunkOf(last, txid) {
        PiecesFront(ChunksOf(front, txid), last.chunk, parcel);
        RunPartial(front, txid, parcel);
        MorePartial(Run(Init(), front), front, last, txid, parcel);
      } else {
        assert ChunksOf(front, txid) + [] == ChunksOf(front, txid);
        RunPartial(front, txid, parcel);
        OtherPartial(Run(Init(), front), front, last, txid, parcel);
      }
    }
  }

  lemma NonePartial(txid: u64, parcel: Bytes)
    ensures Partial(Run(Init(), []), [], txid, parcel)
  {}

  lemma MorePartial(s: State, front: seq<Input>, last: Input, txid: u64, parcel: Bytes)
    requires IsChunkOf(last, txid) && Partial(s, front, txid, parcel)
    requires Pieces(ChunksOf(front + [last], txid), parcel) && !Whole(ChunksOf(front + [last], txid), parcel)
    requires ChunksOf(front, txid) != [] ==> last.now <= FirstTime(front, txid) + STALE_BUFFER_TTL
    ensures Partial(Step(s, last), front + [last], txid, parcel)
  {
    hide Step, Opened, Whole, Pieces, HandleChunk, TakeChunk, ChunksOf, FirstTime, EventsOf;
    var cs := ChunksOf(front, txid);
    ChunksLast(front, last, txid);
    FirstTimeLast(front, last, txid);
    MoreStep(s, last.chunk, last.now, last.later, last.order, cs, parcel);
    TakeOpened(NoteChunk(s, last.chunk), last.chunk, last.now, cs, parcel);
    StepChunk(s, last);
  }

  lemma OtherPartial(s: State, front: seq<Input>, last: Input, txid: u64, parcel: Bytes)
    requires !IsChunkOf(last, txid) && Partial(s, front, txid, parcel)
    requires last.ChunkIn? && ChunksOf(front, txid) != [] ==> last.now <= FirstTime(front, txid) + STALE_BUFFER_TTL
    ensures Partial(Step(s, last), front + [last], txid, parcel)
  {
    hide Step, Opened, ChunksOf, FirstTime, EventsOf;
    var cs := ChunksOf(front, txid);
    ChunksLast(front, last, txid);
    assert cs + [] == cs;
    OtherStep(s, last, txid);
    if cs != [] {
      FirstTimeLast(front, last, txid);
      OtherOpened(s, last, txid, cs, parcel);
    }
  }

  lemma OtherOpened(s: State, i: Input, txid: u64, cs: seq<Chunk>, parcel: Bytes)
    requires !IsChunkOf(i, txid) && cs != [] && txid in s.buffers && Opened(s.buffers[txid], cs, parcel)
    requires i.ChunkIn? ==> s.buffers[txid].firstSeen >= i.now - STALE_BUFFER_TTL
    ensures txid in Step(s, i).buffers && Opened(Step(s, i).buffers[txid], cs, parcel)
    ensures Step(s, i).buffers[txid].firstSeen == s.buffers[txid].firstSeen
  {
    hide Step;
    OtherStep(s, i, txid);
  }

  /** The transaction's event has been built, once. */
  ghost predicate Rebuilt(s: State, inputs: seq<Input>, txid: u64, parcel: Bytes)
    requires |parcel| <= CHUNK_SIZE * MAX_CHUNKS
  {
    var cs := ChunksOf(inputs, txid);
    && cs != [] && txid !in s.buffers
    && EventsOf(s.hist.completed, txid) == [EventFrom(txid, cs[0].meta, parcel, LastTime(inputs, txid))]
  }

  /** Reassembly: if the run brings each chunk of a parcel of 1 to 16384 bytes once, in any order
      and among any other records, with no chunk stamped more than 5 s after the transaction's
      first one before its last one, then exactly one event is built for the transaction. It
      carries exactly the parcel and the metadata of the chunk that came first. */
  lemma {:induction false} RunReassembles(inputs: seq<Input>, txid: u64, parcel: Bytes)
    requires Pieces(ChunksOf(inputs, txid), parcel) && Whole(ChunksOf(inputs, txid), parcel)
    requires Timely(UpToLast(inputs, txid), txid)
    ensures Rebuilt(Run(Init(), inputs), inputs, txid, parcel)
  {
    hide Run, Timely, Whole, ChunksOf, UpToLast, Rebuilt, Piece, DistinctIndices, Partial;
    WholeNotEmpty(ChunksOf(inputs, txid), parcel);
    NoChunks(txid);
    var front, last := inputs[..|inputs| - 1], inputs[|inputs| - 1];
    assert inputs == front + [last];
    ChunksLast(front, last, txid);
    UpToLastLast(front, last, txid);
    RunLast(Init(), front, last);
    if IsChunkOf(last, txid) {
      PiecesFront(ChunksOf(front, txid), last.chunk, parcel);
      TimelyLast(front, last, txid);
      RunPartial(front, txid, parcel);
      LastRebuilt(Run(Init(), front), front, last, txid, parcel);
    } else {
      assert ChunksOf(front, txid) + [] == ChunksOf(front, txid);
      RunReassembles(front, txid, parcel);
      OtherRebuilt(Run(Init(), front), front, last, txid, parcel);
    }
  }

  lemma NoChunks(txid: u64)
    ensures ChunksOf([], txid) == []
  {}

  lemma LastRebuilt(s: State, front: seq<Input>, last: Input, txid: u64, parcel: Bytes)
    requires IsChunkOf(last, txid) && Partial(s, front, txid, parcel)
    requires Pieces(ChunksOf(front + [last], txid), parcel) && Whole(ChunksOf(front + [last], txid), parcel)
    ensures Rebuilt(Step(s, last), front + [last], txid, parcel)
  {
    hide Step, Opened, Pieces, HandleChunk, TakeChunk, EventsOf, ChunksOf, FirstTime, Whole, LastTime;
    var cs := ChunksOf(front, txid);
    ChunksLast(front, last, txid);
    LastTimeLast(front, last, txid);
    StepChunk(s, last);
    LastStep(s, last.chunk, last.now, last.later, last.order, cs, parcel);
    EventsOfLast(s.hist.completed, EventFrom(txid, (cs + [last.chunk])[0].meta, parcel, last.now), txid);
  }

  lemma OtherRebuilt(s: State, front: seq<Input>, last: Input, txid: u64, parcel: Bytes)
    requires |parcel| <= CHUNK_SIZE * MAX_CHUNKS
    requires !IsChunkOf(last, txid) && Rebuilt(s, front, txid, parcel)
    ensures Rebuilt(Step(s, last), front + [last], txid, parcel)
  {
    hide Step, EventsOf, ChunksOf, LastTime;
    ChunksLast(front, last, txid);
    assert ChunksOf(front, txid) + [] == ChunksOf(front, txid);
    LastTimeLast(front, last, txid);
    OtherStep(s, last, txid);
  }

  lemma WholeNotEmpty(cs: seq<Chunk>, parcel: Bytes)
    requires Pieces(cs, parcel) && Whole(cs, parcel)
    ensures cs != []
  {
    TotalChunksOf(parcel);
    assert HasIndex(cs, 0);
  }
}
