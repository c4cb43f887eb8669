/** Where the bytes of an event come from, with no assumption on the order, loss or duplication of records. */
module ParcelOrigin {
  import opened Types
  import opened KeyedList
  import opened CollectorModel
  import opened CollectorProvenance
  import opened CollectorCustody
  import opened Reassembly

  ghost predicate SlotFrom(seen: Seen, txid: u64, i: nat, data: ChunkData) {
    exists c :: c in seen.chunks && c.txid == txid && c.index == i && c.data == data
  }

  /** A buffer has the slots its first chunk asked for, each empty or with the data of a chunk received for it. */
  ghost predicate SlotsSeen(seen: Seen, txid: u64, b: TxBuffer) {
    && |b.chunks| == TotalChunks(b.first.dataSize) && b.meta.dataSize == b.first.dataSize
    && forall i :: 0 <= i < |b.chunks| && b.chunks[i].Some? ==> SlotFrom(seen, txid, i, b.chunks[i].value)
  }

  ghost predicate ByteSeen(seen: Seen, m: MainEvent, p: nat)
    requires p < |m.base.parcel|
  {
    exists c :: c in seen.chunks && c.txid == m.txid && c.index == p / CHUNK_SIZE
                && c.data[p % CHUNK_SIZE] == m.base.parcel[p]
  }

  /** Byte p of the parcel is byte p mod 1024 of a received chunk p div 1024 of its own transaction. */
  ghost predicate BytesSeen(seen: Seen, m: MainEvent) {
    forall p :: 0 <= p < |m.base.parcel| ==> ByteSeen(seen, m, p)
  }

  ghost predicate AllSlots(seen: Seen, buffers: map<u64, TxBuffer>) {
    forall k :: k in buffers ==> SlotsSeen(seen, k, buffers[k])
  }

  ghost predicate AllBytes(seen: Seen, completed: seq<MainEvent>) {
    forall m :: m in completed ==> BytesSeen(seen, m)
  }

  ghost predicate Pieced(s: State) { AllSlots(s.hist.seen, s.buffers) && AllBytes(s.hist.seen, s.hist.completed) }

  lemma SlotsGrow(a: Seen, b: Seen, buffers: map<u64, TxBuffer>)
    requires Grows(a, b) && AllSlots(a, buffers)
    ensures AllSlots(b, buffers)
  {
    forall k | k in buffers ensures SlotsSeen(b, k, buffers[k]) {
      assert SlotsSeen(a, k, buffers[k]);
      forall i | 0 <= i < |buffers[k].chunks| && buffers[k].chunks[i].Some?
        ensures SlotFrom(b, k, i, buffers[k].chunks[i].value)
      {
        assert SlotFrom(a, k, i, buffers[k].chunks[i].value);
      }
    }
  }

  lemma BytesGrow(a: Seen, b: Seen, completed: seq<MainEvent>)
    requires Grows(a, b) && AllBytes(a, completed)
    ensures AllBytes(b, completed)
  {
    forall m | m in completed ensures BytesSeen(b, m) {
      forall p | 0 <= p < |m.base.parcel| ensures ByteSeen(b, m, p) { assert ByteSeen(a, m, p); }
    }
  }

  lemma TakeSeen(s: State, c: Chunk, now: int)
    requires AllSlots(s.hist.seen, s.buffers) && c in s.hist.seen.chunks
    ensures AllSlots(s.hist.seen, TakeChunk(s, c, now).buffers)
  {
    hide Delete, TotalChunks;
    var t := TakeChunk(s, c, now);
    if c.txid in s.buffers { assert SlotsSeen(s.hist.seen, c.txid, s.buffers[c.txid]); }
    forall k | k in t.buffers ensures SlotsSeen(s.hist.seen, k, t.buffers[k]) {
      if k == c.txid {
        assert SlotFrom(s.hist.seen, c.txid, c.index, c.data);
      } else {
        assert SlotsSeen(s.hist.seen, k, s.buffers[k]);
      }
    }
  }

  /** The event a complete buffer gives has its bytes from the buffer's slots. */
  lemma AssembledBytes(s: State, txid: u64, now: i64)
    requires txid in s.buffers && Complete(s.buffers[txid].chunks) && SlotsSeen(s.hist.seen, txid, s.buffers[txid])
    ensures var m := Assembled(s, txid, now); m.Some? ==> BytesSeen(s.hist.seen, m.value)
  {
    hide Merge, ByteSeen, TotalChunks;
    var m, chunks := Assembled(s, txid, now), s.buffers[txid].chunks;
    if m.Some? {
      MergeLength(chunks);
      forall p | 0 <= p < |m.value.base.parcel| ensures ByteSeen(s.hist.seen, m.value, p) {
        MergeAt(chunks, p);
        SlotByte(s.hist.seen, s.buffers[txid], m.value, p);
      }
    }
  }

  lemma SlotByte(seen: Seen, b: TxBuffer, m: MainEvent, p: nat)
    requires SlotsSeen(seen, m.txid, b) && p < |m.base.parcel| && p / CHUNK_SIZE < |b.chunks|
    requires b.chunks[p / CHUNK_SIZE].Some?
    requires m.base.parcel[p] == b.chunks[p / CHUNK_SIZE].value[p % CHUNK_SIZE]
    ensures ByteSeen(seen, m, p)
  {
    assert SlotFrom(seen, m.txid, p / CHUNK_SIZE, b.chunks[p / CHUNK_SIZE].value);
  }

  lemma ChunkPieced(s: State, c: Chunk, now: i64, later: int, order: seq<u64>)
    requires Pieced(s)
    ensures Pieced(HandleChunk(s, c, now, later, order))
  {
    hide HandleChunk, TakeChunk, Deliver, MaybeCleanup, Merge, SlotsSeen, BytesSeen;
    HandleChunkIs(s, c, now, later, order);
    ChunkSeen(s, c, now, later, order);
    var n := NoteChunk(s, c);
    SlotsGrow(s.hist.seen, n.hist.seen, s.buffers);
    BytesGrow(s.hist.seen, n.hist.seen, s.hist.completed);
    TakeSeen(n, c, now);
    TakeChunkFrame(n, c, now);
    var t := TakeChunk(n, c, now);
    var full := Complete(t.buffers[c.txid].chunks);
    if full {
      AssembledBytes(t, c.txid, now);
      DeliverFrame(t, c.txid, now);
    }
    CleanupFrame(if full then Deliver(t, c.txid, now) else t, now, later, order);
  }

  /** Any other record leaves chunks and completed events alone. */
  lemma OtherPieced(s: State, i: Input)
    requires Pieced(s) && !i.ChunkIn?
    ensures Pieced(Step(s, i))
  {
    hide Trim, Trimmed, Push, Delete, Touch, Expire, Expired, SlotFrom, BytesSeen, HandleChunk, SeenIn, TotalChunks;
    var r := Step(s, i);
    assert Grows(s.hist.seen, r.hist.seen) && r.hist.completed == s.hist.completed;
    SlotsGrow(s.hist.seen, r.hist.seen, s.buffers);
    BytesGrow(s.hist.seen, r.hist.seen, s.hist.completed);
  }

  lemma {:induction false} RunPieced(inputs: seq<Input>)
    ensures Pieced(Run(Init(), inputs))
  {
    hide Step, Pieced;
    if inputs == [] {
      StartPieced();
    } else {
      var s, last := Run(Init(), inputs[..|inputs| - 1]), inputs[|inputs| - 1];
      RunPieced(inputs[..|inputs| - 1]);
      if last.ChunkIn? {
        StepChunk(s, last);
        ChunkPieced(s, last.chunk, last.now, last.later, last.order);
      } else {
        OtherPieced(s, last);
      }
    }
  }

  lemma StartPieced()
    ensures Pieced(Init())
  {}

  lemma {:induction false} OriginIn(q: seq<MainEvent>, m: MainEvent)
    requires m in q
    ensures Origin(m) in Origins(q)
  {
    var front, last := q[..|q| - 1], q[|q| - 1];
    assert q == front + [last];
    if m != last { OriginIn(front, m); }
  }

  /** What was emitted had been completed. */
  lemma EmittedCompleted(s: State, m: MainEvent)
    requires Custody(s) && m in s.emitted
    ensures Origin(m) in s.hist.completed
  {
    hide Origins, Values, Unmerged;
    OriginIn(s.emitted, m);
    assert Origin(m) in multiset(Origins(s.emitted));
    assert Origin(m) in multiset(s.hist.completed);
  }

  /** The bytes of an emitted event come from the chunks received for its own transaction, each byte from its place
      in the chunk with its index, in every run. */
  lemma {:induction false} RunBytes(inputs: seq<Input>, m: MainEvent)
    requires m in Run(Init(), inputs).emitted
    ensures BytesSeen(SeenIn(inputs), m)
  {
    hide Run, BytesSeen, ByteSeen, AllSlots, Custody, SeenIn;
    RunPieced(inputs);
    RunSeen(inputs);
    RunKept(inputs);
    EmittedCompleted(Run(Init(), inputs), m);
    OriginBytes(SeenIn(inputs), m);
  }

  lemma OriginBytes(seen: Seen, m: MainEvent)
    requires BytesSeen(seen, Origin(m))
    ensures BytesSeen(seen, m)
  {
    forall p | 0 <= p < |m.base.parcel| ensures ByteSeen(seen, m, p) { assert ByteSeen(seen, Origin(m), p); }
  }

  // A piece that comes again replaces the one before

  /** The data of the last record with this transaction id and index. */
  function LatestData(inputs: seq<Input>, txid: u64, j: nat): Option<ChunkData> {
    if inputs == [] then None else
    var last := inputs[|inputs| - 1];
    if last.ChunkIn? && last.chunk.txid == txid && last.chunk.index == j then Some(last.chunk.data)
    else LatestData(inputs[..|inputs| - 1], txid, j)
  }

  lemma LatestLast(front: seq<Input>, last: Input, txid: u64, j: nat)
    ensures LatestData(front + [last], txid, j) ==
            if last.ChunkIn? && last.chunk.txid == txid && last.chunk.index == j then Some(last.chunk.data)
            else LatestData(front, txid, j)
  {
    assert (front + [last])[..|front|] == front;
  }

  /** What a buffer holds in a slot is what came last for it. */
  ghost predicate HoldsLatest(buffers: map<u64, TxBuffer>, inputs: seq<Input>, txid: u64) {
    txid in buffers ==>
      forall j :: 0 <= j < |buffers[txid].chunks| && buffers[txid].chunks[j].Some? ==>
        buffers[txid].chunks[j] == LatestData(inputs, txid, j)
  }

  lemma TakeLatest(s: State, front: seq<Input>, last: Input, txid: u64)
    requires HoldsLatest(s.buffers, front, txid) && last.ChunkIn?
    ensures HoldsLatest(TakeChunk(NoteChunk(s, last.chunk), last.chunk, last.now).buffers, front + [last], txid)
  {
    hide Delete, LatestData, TotalChunks;
    forall j: nat { LatestLast(front, last, txid, j); }
  }

  lemma StepLatest(s: State, front: seq<Input>, last: Input, txid: u64)
    requires HoldsLatest(s.buffers, front, txid)
    ensures HoldsLatest(Step(s, last).buffers, front + [last], txid)
  {
    hide LatestData;
    forall j: nat { LatestLast(front, last, txid, j); }
    if last.ChunkIn? {
      hide Step, HandleChunk, TakeChunk, Deliver, MaybeCleanup, Merge;
      var c, now := last.chunk, last.now;
      StepChunk(s, last);
      HandleChunkIs(s, c, now, last.later, last.order);
      TakeLatest(s, front, last, txid);
      var t := TakeChunk(NoteChunk(s, c), c, now);
      var full := Complete(t.buffers[c.txid].chunks);
      if full { DeliverFrame(t, c.txid, now); }
      CleanupFrame(if full then Deliver(t, c.txid, now) else t, now, last.later, last.order);
    } else {
      OtherBuffers(s, last, txid);
    }
  }

  lemma OtherBuffers(s: State, i: Input, txid: u64)
    requires !i.ChunkIn?
    ensures var r := Step(s, i);
            && (txid in r.buffers <==> txid in s.buffers)
            && (txid in s.buffers ==> r.buffers[txid].chunks == s.buffers[txid].chunks)
  {
    hide Trim, Trimmed, Push, Delete, Touch, Expire, Expired, HandleChunk;
  }

  lemma {:induction false} RunLatest(inputs: seq<Input>, txid: u64)
    ensures HoldsLatest(Run(Init(), inputs).buffers, inputs, txid)
  {
    hide Step, Run, HoldsLatest;
    if inputs == [] {
      RunNone(Init());
      NoBuffers(txid);
    } else {
      var front, last := inputs[..|inputs| - 1], inputs[|inputs| - 1];
      assert inputs == front + [last];
      RunLatest(front, txid);
      RunLast(Init(), front, last);
      StepLatest(Run(Init(), front), front, last, txid);
    }
  }

  lemma NoBuffers(txid: u64)
    ensures HoldsLatest(Init().buffers, [], txid)
  {}

  /** An event is built from the last record of each index, in every run: byte p of its parcel is the one that stood at
      its place in the last chunk p div 1024 of the transaction when the event was completed. */
  lemma CompletedLatest(inputs: seq<Input>, last: Input, m: MainEvent, p: nat)
    requires last.ChunkIn? && p < |m.base.parcel|
    requires Run(Init(), inputs + [last]).hist.completed == Run(Init(), inputs).hist.completed + [m]
    ensures var data := LatestData(inputs + [last], m.txid, p / CHUNK_SIZE);
            data.Some? && data.value[p % CHUNK_SIZE] == m.base.parcel[p]
  {
    hide Run, Step, HandleChunk, TakeChunk, Deliver, MaybeCleanup, Merge, LatestData;
    var s, c, now := Run(Init(), inputs), last.chunk, last.now;
    RunLast(Init(), inputs, last);
    RunLatest(inputs, c.txid);
    TakeLatest(s, inputs, last, c.txid);
    StepChunk(s, last);
    HandleChunkIs(s, c, now, last.later, last.order);
    TakeChunkFrame(NoteChunk(s, c), c, now);
    var t := TakeChunk(NoteChunk(s, c), c, now);
    var full := Complete(t.buffers[c.txid].chunks);
    CleanupFrame(if full then Deliver(t, c.txid, now) else t, now, last.later, last.order);
    assert full;
    DeliverFrame(t, c.txid, now);
    var built := Assembled(t, c.txid, now);
    assert (s.hist.completed + [m])[|s.hist.completed|] == m;
    assert built == Some(m);
    MergeLength(t.buffers[c.txid].chunks);
    MergeAt(t.buffers[c.txid].chunks, p);
  }
}
