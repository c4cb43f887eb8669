/** Fed from the probes, with no chunk handled twice, the daemon loses nothing. */
module Lossless {
  import opened Types
  import opened KeyedList
  import opened CollectorModel
  import opened CollectorCustody
  import opened CollectorProvenance
  import opened CollectorLoss
  import opened Reassembly
  import opened ParcelOrigin
  import opened Pairing
  import opened ProbeModel
  import opened EndToEnd

  // A transaction is completed once

  /** The slots filled so far come from the transaction's chunks; once its event has been built, its first slot
      stays empty. */
  ghost predicate OnceBuilt(s: State, cs: seq<Chunk>, txid: u64) {
    && (txid in s.buffers ==> FilledFrom(s.buffers[txid].chunks, cs))
    && |EventsOf(s.hist.completed, txid)| <= 1
    && (EventsOf(s.hist.completed, txid) != [] ==>
          HasIndex(cs, 0) && (txid in s.buffers ==> NoFirst(s.buffers[txid].chunks)))
  }

  ghost predicate FilledFrom(chunks: seq<Option<ChunkData>>, cs: seq<Chunk>) {
    forall i :: 0 <= i < |chunks| && chunks[i].Some? ==> HasIndex(cs, i)
  }

  predicate NoFirst(chunks: seq<Option<ChunkData>>) { chunks == [] || chunks[0].None? }

  lemma HasIndexMore(cs: seq<Chunk>, c: Chunk, i: int)
    ensures HasIndex(cs + [c], i) <==> HasIndex(cs, i) || c.index == i
  {
    if HasIndex(cs, i) {
      var d :| d in cs && d.index == i;
      assert d in cs + [c];
    }
    if c.index == i { assert c in cs + [c]; }
    assert forall d :: d in cs + [c] ==> d in cs || d == c;
  }

  /** The buffer after one more chunk: its slots, and its first slot if that one is not the chunk's. */
  lemma TakeSlots(s: State, c: Chunk, now: int, cs: seq<Chunk>)
    requires c.txid in s.buffers ==> FilledFrom(s.buffers[c.txid].chunks, cs)
    ensures var b := TakeChunk(s, c, now).buffers[c.txid].chunks;
            && FilledFrom(b, cs + [c])
            && (c.index != 0 && (c.txid in s.buffers ==> NoFirst(s.buffers[c.txid].chunks)) ==> NoFirst(b))
  {
    hide Delete, HasIndex;
    var b := TakeChunk(s, c, now).buffers[c.txid].chunks;
    forall i | 0 <= i < |b| && b[i].Some? ensures HasIndex(cs + [c], i) { HasIndexMore(cs, c, i); }
  }

  /** A buffer whose first slot is empty gives no event. */
  lemma NothingAssembled(s: State, txid: u64, now: i64)
    requires txid in s.buffers && Complete(s.buffers[txid].chunks) && NoFirst(s.buffers[txid].chunks)
    ensures Assembled(s, txid, now) == None
  {
  }

  lemma OwnChunk(s: State, i: Input, cs: seq<Chunk>)
    requires i.ChunkIn? && OnceBuilt(s, cs, i.chunk.txid) && DistinctIndices(cs + [i.chunk])
    ensures OnceBuilt(Step(s, i), cs + [i.chunk], i.chunk.txid)
  {
    hide Step, HandleChunk, TakeChunk, Deliver, MaybeCleanup, HasIndex, FilledFrom, DistinctIndices, EventsOf, Merge;
    var c, now := i.chunk, i.now;
    var n := NoteChunk(s, c);
    var t := TakeChunk(n, c, now);
    FreshIndex(cs, c);
    TakeSlots(n, c, now, cs);
    TakeChunkFrame(n, c, now);
    HasIndexMore(cs, c, 0);
    StepChunk(s, i);
    HandleChunkIs(s, c, now, i.later, i.order);
    var full := Complete(t.buffers[c.txid].chunks);
    if full {
      if NoFirst(t.buffers[c.txid].chunks) { NothingAssembled(t, c.txid, now); }
      FirstSlot(t.buffers[c.txid].chunks, cs + [c]);
      DeliverFrame(t, c.txid, now);
      var m := Assembled(t, c.txid, now);
      if m.Some? { EventsOfLast(t.hist.completed, m.value, c.txid); }
      assert t.hist.completed + [] == t.hist.completed;
    }
    CleanupFrame(if full then Deliver(t, c.txid, now) else t, now, i.later, i.order);
  }

  lemma FirstSlot(chunks: seq<Option<ChunkData>>, cs: seq<Chunk>)
    requires Complete(chunks) && FilledFrom(chunks, cs)
    ensures !NoFirst(chunks) ==> HasIndex(cs, 0)
  {
    hide HasIndex;
  }

  /** Another record drops the transaction's buffer or leaves its chunks alone. */
  lemma OtherRecord(s: State, i: Input, txid: u64)
    requires !IsChunkOf(i, txid)
    ensures txid in Step(s, i).buffers ==>
              txid in s.buffers && Step(s, i).buffers[txid].chunks == s.buffers[txid].chunks
    ensures EventsOf(Step(s, i).hist.completed, txid) == EventsOf(s.hist.completed, txid)
  {
    hide Trim, Trimmed, Push, Delete, Touch, Expire, Expired, EventsOf, HandleChunk;
    if i.ChunkIn? { OtherChunkRecord(s, i.chunk, i.now, i.later, i.order, txid); }
  }

  lemma OtherChunkRecord(s: State, c: Chunk, now: i64, later: int, order: seq<u64>, txid: u64)
    requires c.txid != txid
    ensures var r := HandleChunk(s, c, now, later, order);
            && (txid in r.buffers ==> txid in s.buffers && r.buffers[txid] == s.buffers[txid])
            && EventsOf(r.hist.completed, txid) == EventsOf(s.hist.completed, txid)
  {
    hide HandleChunk, TakeChunk, Deliver, MaybeCleanup, EventsOf, Merge;
    HandleChunkIs(s, c, now, later, order);
    var n := NoteChunk(s, c);
    TakeChunkFrame(n, c, now);
    var t := TakeChunk(n, c, now);
    var full := Complete(t.buffers[c.txid].chunks);
    if full {
      DeliverFrame(t, c.txid, now);
      var m := Assembled(t, c.txid, now);
      assert t.hist.completed + [] == t.hist.completed;
      if m.Some? { EventsOfLast(t.hist.completed, m.value, txid); }
    }
    CleanupFrame(if full then Deliver(t, c.txid, now) else t, now, later, order);
  }

  /** A transaction whose chunks are handled once each is completed at most once, in any run. */
  lemma {:induction false} CompletedOnce(inputs: seq<Input>, txid: u64)
    requires DistinctIndices(ChunksOf(inputs, txid))
    ensures OnceBuilt(Run(Init(), inputs), ChunksOf(inputs, txid), txid)
  {
    hide Run, ChunksOf, OnceBuilt, DistinctIndices;
    if inputs == [] {
      NoneBuilt(txid);
    } else {
      var front, last := inputs[..|inputs| - 1], inputs[|inputs| - 1];
      assert inputs == front + [last];
      RunLast(Init(), front, last);
      ChunksLast(front, last, txid);
      var s, cs := Run(Init(), front), ChunksOf(front, txid);
      if IsChunkOf(last, txid) {
        FrontIndices(cs, last.chunk);
        CompletedOnce(front, txid);
        OwnChunk(s, last, cs);
      } else {
        assert cs + [] == cs;
        CompletedOnce(front, txid);
        OtherOnce(s, last, cs, txid);
      }
    }
  }

  lemma NoneBuilt(txid: u64)
    ensures OnceBuilt(Run(Init(), []), ChunksOf([], txid), txid)
  {}

  lemma FrontIndices(cs: seq<Chunk>, c: Chunk)
    requires DistinctIndices(cs + [c])
    ensures DistinctIndices(cs)
  {
    assert forall i :: 0 <= i < |cs| ==> (cs + [c])[i] == cs[i];
  }

  lemma OtherOnce(s: State, i: Input, cs: seq<Chunk>, txid: u64)
    requires !IsChunkOf(i, txid) && OnceBuilt(s, cs, txid)
    ensures OnceBuilt(Step(s, i), cs, txid)
  {
    hide Step, EventsOf, FilledFrom, HasIndex;
    OtherRecord(s, i, txid);
  }

  // Runs fed from the probes

  /** No chunk record is handled twice. */
  ghost predicate HandledOnce(inputs: seq<Input>) {
    forall i, j :: 0 <= i < j < |inputs| && inputs[i].ChunkIn? && inputs[j].ChunkIn? ==>
      inputs[i].chunk != inputs[j].chunk
  }

  /** Every record handled was submitted by the probes. */
  ghost predicate FedFrom(inputs: seq<Input>, out: Seen) {
    forall i :: i in inputs ==> match i
      case ChunkIn(c, _, _, _) => c in out.chunks
      case CookieIn(r, _, _, _) => r in out.cookieRecords
      case SidebandIn(b, _) => b in out.sidebands
      case _ => true
  }

  lemma FedFront(front: seq<Input>, last: Input, out: Seen)
    requires FedFrom(front + [last], out) && HandledOnce(front + [last])
    ensures FedFrom(front, out) && HandledOnce(front)
  {
    var all := front + [last];
    assert forall i :: 0 <= i < |front| ==> all[i] == front[i];
    assert forall i :: i in front ==> i in all;
  }

  lemma FedSeen(inputs: seq<Input>, out: Seen)
    requires FedFrom(inputs, out)
    ensures Grows(SeenIn(inputs), out)
  {
  }

  lemma {:induction false} ChunkFrom(inputs: seq<Input>, txid: u64, c: Chunk)
    requires c in ChunksOf(inputs, txid)
    ensures exists i :: 0 <= i < |inputs| && inputs[i].ChunkIn? && inputs[i].chunk == c
    ensures c.txid == txid
  {
    var front, last := inputs[..|inputs| - 1], inputs[|inputs| - 1];
    if c in ChunksOf(front, txid) {
      ChunkFrom(front, txid, c);
      var i :| 0 <= i < |front| && front[i].ChunkIn? && front[i].chunk == c;
      assert inputs[i] == front[i];
    } else {
      assert inputs[|inputs| - 1].chunk == c;
    }
  }

  /** Each chunk once from the probes and once at the daemon: the indices of a transaction never repeat. */
  lemma {:induction false} FedDistinct(k: Kernel, inputs: seq<Input>, txid: u64)
    requires Once(k) && FedFrom(inputs, k.out) && HandledOnce(inputs)
    ensures DistinctIndices(ChunksOf(inputs, txid))
  {
    hide Once, ChunksOf;
    if inputs == [] {
      NoChunks(txid);
    } else {
      var front, last := inputs[..|inputs| - 1], inputs[|inputs| - 1];
      assert inputs == front + [last];
      FedFront(front, last, k.out);
      FedDistinct(k, front, txid);
      ChunksLast(front, last, txid);
      var cs := ChunksOf(front, txid);
      if IsChunkOf(last, txid) {
        forall c | c in cs ensures c.index != last.chunk.index { IndexApart(k, front, last, txid, c); }
        assert forall i :: 0 <= i < |cs| ==> cs[i] in cs;
      }
    }
  }

  lemma IndexApart(k: Kernel, front: seq<Input>, last: Input, txid: u64, c: Chunk)
    requires Once(k) && FedFrom(front + [last], k.out) && HandledOnce(front + [last])
    requires IsChunkOf(last, txid) && c in ChunksOf(front, txid)
    ensures c.index != last.chunk.index
  {
    hide ChunksOf;
    ChunkFrom(front, txid, c);
    var i :| 0 <= i < |front| && front[i].ChunkIn? && front[i].chunk == c;
    var all := front + [last];
    assert all[i] == front[i] && all[|front|] == last;
    assert all[i] in all && all[|front|] in all;
  }

  lemma HeldValue(m: map<u64, Entry<MainEvent>>, key: u64)
    requires key in m
    ensures m[key].value in Values(m)
  {
    hide Values;
    ValuesRemove(m, key);
  }

  /** A main that waits has been built. */
  lemma WaitingBuilt(s: State, cookie: u64)
    requires Custody(s) && cookie in s.main.items
    ensures EventsOf(s.hist.completed, s.main.items[cookie].value.txid) != []
  {
    hide Values, Origins, EventsOf, Unmerged;
    var m := s.main.items[cookie].value;
    HeldValue(s.main.items, cookie);
    EventsOfCount(s.hist.completed, m.txid, m);
    assert multiset(s.hist.completed)[m] >= 1;
  }

  /** The cookie a buffer or a waiting main has was issued to its own call. */
  lemma IssuedTo(k: Kernel, target: u32, seen: Seen, txid: u64, first: TxMeta, cookie: u64)
    requires Truthful(k, target) && Grows(seen, k.out) && FirstOf(seen, txid, first) && cookie != 0
    requires cookie == first.cookie || CookieRecord(cookie, txid) in seen.cookieRecords
    ensures cookie in k.issued && k.issued[cookie].txid == txid
  {
    var c :| c in seen.chunks && c.txid == txid && c.meta == first;
    assert FromCall(k.calls, target, c);
  }

  /** So a step never parks over another main. */
  lemma NeverOver(k: Kernel, target: u32, front: seq<Input>, last: Input)
    requires KernelOk(k, target) && FedFrom(front + [last], k.out) && HandledOnce(front + [last])
    ensures !Overwrites(Run(Init(), front), last)
  {
    hide Run, KernelOk, Overwrites, FedFrom, HandledOnce;
    var s := Run(Init(), front);
    if Overwrites(s, last) {
      Collides(k, target, front, last);
      Twice(front, last);
      assert last.ChunkIn? by { OverwritesChunk(s, last); }
      KernelParts(k, target);
      FedDistinct(k, front + [last], last.chunk.txid);
      CompletedOnce(front + [last], last.chunk.txid);
    }
  }

  lemma KernelParts(k: Kernel, target: u32)
    requires KernelOk(k, target)
    ensures Truthful(k, target) && Once(k)
  {
    hide Threads, Pending, Issued, Truthful, Once, Single;
  }

  lemma OverwritesChunk(s: State, i: Input)
    requires Overwrites(s, i)
    ensures i.ChunkIn?
  {}

  /** What is overwritten is the transaction's own event. */
  lemma Collides(k: Kernel, target: u32, front: seq<Input>, last: Input)
    requires KernelOk(k, target) && FedFrom(front + [last], k.out) && Overwrites(Run(Init(), front), last)
    ensures EventsOf(Run(Init(), front).hist.completed, last.chunk.txid) != []
  {
    hide Run, Threads, Pending, Issued, Once, Single, TakeChunk, FedFrom, Custody, Balanced, Built, FirstOf, Merge;
    hide SoundByTxid, SoundOneway, SoundCookies, SoundEmitted;
    var s, c := Run(Init(), front), last.chunk;
    RunSound(front);
    RunSeen(front);
    RunKept(front);
    var n := NoteChunk(s, c);
    SoundGrows(s, n.hist.seen);
    TakeChunkSound(n, c, last.now);
    TakeChunkFrame(n, c, last.now);
    var t := TakeChunk(n, c, last.now);
    FedNoted(front, last, k.out, n.hist.seen);
    var b := t.buffers[c.txid];
    assert SoundBuffer(n.hist.seen, c.txid, b);
    IssuedTo(k, target, n.hist.seen, c.txid, b.first, b.meta.cookie);
    var m := s.main.items[b.meta.cookie].value;
    assert Built(n.hist.seen, m) && Bound(n.hist.seen, m, b.meta.cookie) by {
      assert t.main == s.main;
    }
    BuiltFirst(n.hist.seen, m);
    IssuedTo(k, target, n.hist.seen, m.txid, m.first, b.meta.cookie);
    WaitingBuilt(s, b.meta.cookie);
  }

  lemma BuiltFirst(seen: Seen, m: MainEvent)
    requires Built(seen, m)
    ensures FirstOf(seen, m.txid, m.first)
  {}

  lemma FedNoted(front: seq<Input>, last: Input, out: Seen, seen: Seen)
    requires FedFrom(front + [last], out) && last.ChunkIn?
    requires seen == SeenIn(front).(chunks := SeenIn(front).chunks + {last.chunk})
    ensures Grows(seen, out)
  {
    var all := front + [last];
    assert forall i :: i in front ==> i in all;
    assert last in all;
  }

  /** The overwriting step completes the transaction once more. */
  lemma Twice(front: seq<Input>, last: Input)
    requires Overwrites(Run(Init(), front), last)
    ensures EventsOf(Run(Init(), front + [last]).hist.completed, last.chunk.txid) !=
            EventsOf(Run(Init(), front).hist.completed, last.chunk.txid)
    ensures |EventsOf(Run(Init(), front + [last]).hist.completed, last.chunk.txid)| ==
            |EventsOf(Run(Init(), front).hist.completed, last.chunk.txid)| + 1
  {
    hide Run, HandleChunk, TakeChunk, Deliver, MaybeCleanup, EventsOf, Merge, Step;
    RunLast(Init(), front, last);
    var s, c, now := Run(Init(), front), last.chunk, last.now;
    StepChunk(s, last);
    HandleChunkIs(s, c, now, last.later, last.order);
    var n := NoteChunk(s, c);
    var t := TakeChunk(n, c, now);
    TakeChunkFrame(n, c, now);
    DeliverFrame(t, c.txid, now);
    EventsOfLast(t.hist.completed, Assembled(t, c.txid, now).value, c.txid);
    CleanupFrame(Deliver(t, c.txid, now), now, last.later, last.order);
  }

  /** End to end nothing is lost: whatever calls run, if the daemon handles only records the probes submitted and
      no chunk twice, no waiting main is ever overwritten, so every event built is waiting or emitted, once, and
      counted. No other record need be handled once, and none need arrive. */
  lemma {:induction false} FedIsCareful(target: u32, es: seq<Event>, inputs: seq<Input>)
    requires Legal(target, es) && Sane(target, es)
    requires FedFrom(inputs, KernelRun(target, es).out) && HandledOnce(inputs)
    ensures Careful(inputs)
  {
    hide Run, KernelRun, Legal, Sane, KernelOk, Overwrites;
    if inputs != [] {
      var front, last := inputs[..|inputs| - 1], inputs[|inputs| - 1];
      assert inputs == front + [last];
      FedFront(front, last, KernelRun(target, es).out);
      FedIsCareful(target, es, front);
      KernelRunOk(target, es);
      NeverOver(KernelRun(target, es), target, front, last);
    }
  }

  lemma FedConserves(target: u32, es: seq<Event>, inputs: seq<Input>)
    requires Legal(target, es) && Sane(target, es)
    requires FedFrom(inputs, KernelRun(target, es).out) && HandledOnce(inputs)
    ensures var s := Run(Init(), inputs);
            && multiset(s.hist.completed) ==
               Values(s.main.items) + Values(s.byTxid.items) + multiset(Origins(s.emitted))
            && s.hist.parked == |s.main.items| + |s.byTxid.items| + s.hist.mergedSync + s.failures.entryEarlyReturn
  {
    hide Run, KernelRun, Legal, Sane, Values, Origins, Careful, FedFrom, HandledOnce;
    FedIsCareful(target, es, inputs);
    ConservedIffCareful(inputs);
  }

  /** Whatever records of the probes the daemon handles, what it emits is some call's own event. */
  lemma FedOwn(target: u32, es: seq<Event>, inputs: seq<Input>, m: MainEvent)
    requires Legal(target, es) && Sane(target, es) && AllFiltered(target, es)
    requires FedFrom(inputs, KernelRun(target, es).out) && m in Run(Init(), inputs).emitted
    ensures exists c :: c in KernelRun(target, es).calls && Monitored(target, c) && OwnEvent(m, c)
  {
    hide Run, KernelRun, Legal, Sane, AllFiltered, FedFrom, SeenIn, OwnEvent;
    FedSeen(inputs, KernelRun(target, es).out);
    NoCrossPairing(target, es, inputs, m);
  }

  /** And with no chunk handled twice, no two emitted events belong to one transaction: calls have distinct ids, so
      each call is emitted at most once. */
  lemma FedOnce(target: u32, es: seq<Event>, inputs: seq<Input>, i: nat, j: nat)
    requires Legal(target, es) && Sane(target, es)
    requires FedFrom(inputs, KernelRun(target, es).out) && HandledOnce(inputs)
    requires i < |Run(Init(), inputs).emitted| && j < |Run(Init(), inputs).emitted|
    requires Run(Init(), inputs).emitted[i].txid == Run(Init(), inputs).emitted[j].txid
    ensures i == j
  {
    hide Run, KernelRun, Legal, Sane, FedFrom, HandledOnce, KernelOk, Custody, ChunksOf, EventsOf, DistinctIndices;
    hide FilledFrom, NoFirst;
    var s, k := Run(Init(), inputs), KernelRun(target, es);
    var txid := s.emitted[i].txid;
    KernelRunOk(target, es);
    KernelParts(k, target);
    FedDistinct(k, inputs, txid);
    CompletedOnce(inputs, txid);
    RunKept(inputs);
    EmittedCompleted(s, s.emitted[i]);
    CompletedIn(s.hist.completed, Origin(s.emitted[i]));
    EmittedOnce(s, txid, Origin(s.emitted[i]), i);
  }

  /** The only event of its transaction. */
  lemma CompletedIn(q: seq<MainEvent>, m: MainEvent)
    requires m in q && |EventsOf(q, m.txid)| <= 1
    ensures EventsOf(q, m.txid) == [m]
  {
    hide EventsOf;
    EventsOfCount(q, m.txid, m);
    assert m in multiset(q);
    assert m in multiset(EventsOf(q, m.txid));
    assert m in EventsOf(q, m.txid);
  }
}

/** Pairing completeness from the probes to the emitted event. */
module CallPairing {
  import opened Types
  import opened KeyedList
  import opened CollectorModel
  import opened CollectorProvenance
  import opened Reassembly
  import opened Pairing
  import opened ProbeModel
  import opened EndToEnd
  import opened CrossPairing
  import opened Lossless

  /** The records handled up to the call's sideband: nothing of the call in `before`, all its chunks once and its
      cookie record in `during`, its sideband in neither, all within five seconds and with room in the maps. */
  ghost predicate Delivered(before: seq<Input>, during: seq<Input>, c: Call, ring: seq<Option<ChunkData>>,
                            cookie: u64, start: int)
    requires ChunkCount(c) <= MAX_CHUNKS
  {
    && (forall i :: i in before ==> !IsChunkOf(i, c.txid) && !(i.CookieIn? && i.cookieRecord.txid == c.txid))
    && (forall i :: i in before + during ==> !(i.SidebandIn? && i.sideband.cookie == cookie))
    && (forall i :: i in during ==> InWindow(i, start))
    && (forall n :: 0 <= n <= |during| ==> Roomy(Run(Init(), before + during[..n])))
    && multiset(ChunksOf(during, c.txid)) == multiset(ChunksFrom(c, 0, ring))
    && GotCookie(during, Request(c.txid, cookie, c.parcel))
  }

  /** The call's main program found room for all its chunks. */
  ghost predicate FullRing(c: Call, ring: seq<Option<ChunkData>>) {
    && ChunkCount(c) <= MAX_CHUNKS && ChunkCount(c) <= |ring|
    && forall k :: 0 <= k < ChunkCount(c) ==> ring[k].Some?
  }

  /** The call a cookie record speaks of: not a reply, past the filter, and the only one with that cookie. */
  lemma CookieCall(k: Kernel, target: u32, c: Call, cookie: u64)
    requires KernelOk(k, target) && c in k.calls && CookieRecord(cookie, c.txid) in k.out.cookieRecords
    ensures cookie != 0 && c.txid != 0 && cookie in k.issued && k.issued[cookie] == c && !c.reply
  {
    hide Threads, Pending, CookieOf, FromCall;
  }

  /** The call as the daemon gets to see it. */
  function RequestOf(c: Call, cookie: u64): Request { Request(c.txid, cookie, c.parcel, c.flags % 2 == 1) }

  /** Every record of the probes is fair to the call: its cookie is used for it only, its cookie records all say
      the same, and its chunks are those of a request of its kind. */
  lemma FairRecord(k: Kernel, target: u32, i: Input, c: Call, cookie: u64)
    requires KernelOk(k, target) && c in k.calls && CookieRecord(cookie, c.txid) in k.out.cookieRecords
    requires FedFrom([i], k.out)
    requires i.SidebandIn? && i.sideband.cookie == cookie ==> IsOneway(c.flags)
    ensures Fair(i, RequestOf(c, cookie))
  {
    hide Threads, Pending, CookieOf, KernelOk;
    CookieCall(k, target, c, cookie);
    KernelParts(k, target);
    assert i in [i];
    match i
    case ChunkIn(d, _, _, _) => FairChunk(k, target, d, c, cookie);
    case CookieIn(r, _, _, _) => FairCookie(k, target, r, c, cookie);
    case _ =>
  }

  lemma FairChunk(k: Kernel, target: u32, d: Chunk, c: Call, cookie: u64)
    requires KernelOk(k, target) && c in k.calls && d in k.out.chunks && !c.reply
    ensures d.meta.cookie == 0 && (d.txid == c.txid ==> d.meta == MetaOf(c) && RequestChunk(d, RequestOf(c, cookie)))
  {
    hide Threads, Pending, CookieOf, Once, Single;
    assert FromCall(k.calls, target, d);
  }

  lemma FairCookie(k: Kernel, target: u32, r: CookieRecord, c: Call, cookie: u64)
    requires KernelOk(k, target) && c in k.calls && r in k.out.cookieRecords
    requires cookie in k.issued && k.issued[cookie] == c
    ensures r.txid == c.txid || r.cookie == cookie ==> r == CookieRecord(cookie, c.txid)
  {
    hide Threads, Pending, CookieOf, Once, FromCall;
  }

  lemma AllFair(k: Kernel, target: u32, inputs: seq<Input>, c: Call, cookie: u64)
    requires KernelOk(k, target) && c in k.calls && CookieRecord(cookie, c.txid) in k.out.cookieRecords
    requires FedFrom(inputs, k.out)
    requires !IsOneway(c.flags) ==> forall i :: i in inputs ==> !(i.SidebandIn? && i.sideband.cookie == cookie)
    ensures forall i :: i in inputs ==> Fair(i, RequestOf(c, cookie))
  {
    hide KernelOk, Fair;
    forall i | i in inputs ensures Fair(i, RequestOf(c, cookie)) {
      FedOne(inputs, i, k.out);
      FairRecord(k, target, i, c, cookie);
    }
  }

  lemma FedOne(inputs: seq<Input>, i: Input, out: Seen)
    requires FedFrom(inputs, out) && i in inputs
    ensures FedFrom([i], out)
  {
    assert forall j :: j in [i] ==> j in inputs;
  }

  /** The daemon's pairing scenario holds for the call. */
  lemma CallScenario(k: Kernel, target: u32, before: seq<Input>, during: seq<Input>, c: Call,
                     ring: seq<Option<ChunkData>>, cookie: u64, start: int)
    requires KernelOk(k, target) && c in k.calls && CookieRecord(cookie, c.txid) in k.out.cookieRecords
    requires c.flags % 2 == 0 && 0 < |c.parcel| <= CHUNK_SIZE * MAX_CHUNKS && FullRing(c, ring)
    requires FedFrom(before + during, k.out) && Delivered(before, during, c, ring, cookie, start)
    ensures Scenario(before, during, Request(c.txid, cookie, c.parcel), start)
    ensures Whole(ChunksOf(during, c.txid), c.parcel)
  {
    hide KernelOk, Fair, FedFrom, Roomy, Run, ChunksOf, ChunksFrom, ChunkCount, Pieces, Whole, InWindow, GotCookie;
    var x := Request(c.txid, cookie, c.parcel);
    CookieCall(k, target, c, cookie);
    AllFair(k, target, before + during, c, cookie);
    assert forall i :: i in before ==> i in before + during;
    assert forall i :: i in during ==> i in before + during;
    ProbeCuts(c, ring);
    AnyOrder(ChunksOf(during, c.txid), ChunksFrom(c, 0, ring), c.parcel);
  }

  /** The event of a call, paired: its metadata and parcel, its kernel debug id, its receiver. */
  ghost predicate PairedEvent(m: MainEvent, c: Call) { BuiltFrom(m, c) && m.event == PairedWith(m.base, c) }

  /** Completeness through the probes: take any run of the three programs, and a SYNC call in it that passed the
      filter, whose chunks all found room and whose cookie record was submitted. If the daemon handles only records
      of the probes, among them the call's chunks once each and its cookie record, in any order, within five seconds
      and with room in its maps, and then a sideband with the call's cookie, it emits the call's event with the
      kernel's debug id of that very call, and emits nothing else for it, whatever follows. */
  lemma CallPaired(target: u32, es: seq<Event>, c: Call, ring: seq<Option<ChunkData>>, cookie: u64,
                   before: seq<Input>, during: seq<Input>, start: int, sb: Sideband, now: i64, after: seq<Input>)
    requires Legal(target, es) && Sane(target, es) && AllFiltered(target, es)
    requires Enter(c, ring) in es && FullRing(c, ring) && 0 < |c.parcel| <= CHUNK_SIZE * MAX_CHUNKS
    requires c.flags % 2 == 0 && CookieRecord(cookie, c.txid) in KernelRun(target, es).out.cookieRecords
    requires sb.cookie == cookie && FedFrom(before + during + [SidebandIn(sb, now)] + after, KernelRun(target, es).out)
    requires Delivered(before, during, c, ring, cookie, start)
    requires forall i :: i in after ==> !IsChunkOf(i, c.txid)
    ensures var at, r := |Run(Init(), before + during).emitted|,
                         Run(Init(), before + during + [SidebandIn(sb, now)] + after);
            && at < |r.emitted| && PairedEvent(r.emitted[at], c)
            && (forall j :: 0 <= j < |r.emitted| && r.emitted[j].txid == c.txid ==> j == at)
  {
    hide Legal, KernelRun, Sane, AllFiltered, KernelOk, Honest, FedFrom, Delivered, Run, ChunksOf, Whole, Scenario;
    hide FullRing, Fair;
    var k, x := KernelRun(target, es), Request(c.txid, cookie, c.parcel);
    KernelRunOk(target, es);
    EnteredCalls(target, es, Enter(c, ring));
    FedParts(before + during, sb, now, after, k.out);
    CallScenario(k, target, before, during, c, ring, cookie, start);
    GotIt(before, during, c, ring, cookie, start);
    RequestPaired(before, during, x, start, sb, now, after);
    var cs, at := ChunksOf(during, c.txid), |Run(Init(), before + during).emitted|;
    var r := Run(Init(), before + during + [SidebandIn(sb, now)] + after);
    var t: i64 :| r.emitted[at] == Merged(EventFrom(c.txid, cs[0].meta, c.parcel, t), sb);
    CookieCall(k, target, c, cookie);
    FirstMeta(before, during, c, ring, cookie, start);
    FromSideband(k, c, sb, cs[0].meta, t);
  }

  lemma FedParts(inputs: seq<Input>, sb: Sideband, now: i64, after: seq<Input>, out: Seen)
    requires FedFrom(inputs + [SidebandIn(sb, now)] + after, out)
    ensures FedFrom(inputs, out) && sb in out.sidebands
  {
    var all := inputs + [SidebandIn(sb, now)] + after;
    assert forall i :: i in inputs ==> i in all;
    assert SidebandIn(sb, now) in all;
  }

  lemma GotIt(before: seq<Input>, during: seq<Input>, c: Call, ring: seq<Option<ChunkData>>, cookie: u64, start: int)
    requires ChunkCount(c) <= MAX_CHUNKS && Delivered(before, during, c, ring, cookie, start)
    ensures GotCookie(during, Request(c.txid, cookie, c.parcel))
  {
    hide GotCookie, Run, ChunksOf, ChunksFrom, ChunkCount;
  }

  lemma FirstMeta(before: seq<Input>, during: seq<Input>, c: Call, ring: seq<Option<ChunkData>>, cookie: u64,
                  start: int)
    requires ChunkCount(c) <= MAX_CHUNKS && Delivered(before, during, c, ring, cookie, start)
    ensures ChunksOf(during, c.txid) != [] ==> ChunksOf(during, c.txid)[0].meta == MetaOf(c)
  {
    hide GotCookie, Run, ChunksOf, ChunksFrom, ChunkCount;
    ChunksAre(c, 0, ring);
    var cs := ChunksOf(during, c.txid);
    assert cs != [] ==> cs[0] in multiset(cs);
  }

  lemma FromSideband(k: Kernel, c: Call, sb: Sideband, first: TxMeta, t: i64)
    requires Honest(k) && sb in k.out.sidebands && sb.cookie in k.issued && k.issued[sb.cookie] == c
    requires !c.reply && first == MetaOf(c) && |c.parcel| <= CHUNK_SIZE * MAX_CHUNKS
    ensures PairedEvent(Merged(EventFrom(c.txid, first, c.parcel, t), sb), c)
  {
  }

  // Room in the maps

  /** No waiting list is longer by more than one. */
  ghost predicate OneLonger(s: State, t: State) {
    && |t.main.list.nodes| <= |s.main.list.nodes| + 1 && |t.byTxid.list.nodes| <= |s.byTxid.list.nodes| + 1
    && |t.cookies.list.nodes| <= |s.cookies.list.nodes| + 1
    && |t.oneway.list.nodes| <= |s.oneway.list.nodes| + 1 && |t.recent.list.nodes| <= |s.recent.list.nodes| + 1
  }

  lemma {:induction false} TrimShorter<V>(l: Lru<V>, cap: nat)
    ensures |Trim(l, cap).list.nodes| <= |l.list.nodes|
    decreases |l.list.nodes|
  {
    if |l.list.nodes| > cap { TrimShorter(PopBack(l), cap); }
  }

  lemma DeleteShorter<V>(l: Lru<V>, key: u64)
    requires key in l.items
    ensures |Delete(l, key).list.nodes| <= |l.list.nodes|
  {
    WithoutShorter(l.list.nodes, l.items[key].elem);
  }

  lemma {:induction false} ExpireShorter<V>(l: Lru<V>, keys: seq<u64>, cutoff: int)
    ensures |Expire(l, keys, cutoff).list.nodes| <= |l.list.nodes|
    decreases |keys|
  {
    hide Delete;
    if keys != [] {
      if Stale(l, keys[0], cutoff) { DeleteShorter(l, keys[0]); }
      ExpireShorter(if Stale(l, keys[0], cutoff) then Delete(l, keys[0]) else l, keys[1..], cutoff);
    }
  }

  lemma PushLonger<V>(l: Lru<V>, key: u64, at: int, v: V, cap: nat)
    ensures |Trim(Push(l, key, at, v), cap).list.nodes| <= |l.list.nodes| + 1
  {
    hide Trim;
    TrimShorter(Push(l, key, at, v), cap);
  }

  lemma ParkLonger(s: State, m: MainEvent, cookie: u64, txid: u64, now: int)
    ensures OneLonger(s, ParkByTxid(s, m, txid, now)) && OneLonger(s, ParkByCookie(s, m, cookie, now))
  {
    hide Trim, Trimmed, Push, Delete;
    if txid in s.byTxid.items { DeleteShorter(s.byTxid, txid); }
    PushLonger(if txid in s.byTxid.items then Delete(s.byTxid, txid) else s.byTxid,
      txid, now, m, PENDING_MAIN_CAPACITY);
    PushLonger(s.main, cookie, now, m, PENDING_MAIN_CAPACITY);
  }

  lemma OnewayLonger(s: State, m: MainEvent, cookie: u64, now: int)
    ensures var r := RouteOneway(s, m, cookie, now);
            && |r.oneway.list.nodes| <= |s.oneway.list.nodes| + 1 && |r.recent.list.nodes| <= |s.recent.list.nodes| + 1
  {
    hide Trim, Trimmed, Push, Without;
    if cookie in s.oneway.items { DeleteShorter(s.oneway, cookie); }
    if cookie in s.recent.items { WithoutShorter(s.recent.list.nodes, s.recent.items[cookie].elem); }
    PushLonger(s.recent, cookie, now, (), RECENT_ONEWAY_CAPACITY);
  }

  lemma RouteLonger(s: State, m: MainEvent, cookie: u64, txid: u64, now: int)
    ensures OneLonger(s, RouteMain(s, m, cookie, txid, now))
  {
    hide ParkByTxid, ParkByCookie, RouteOneway, CheckDuplicate, RouteMain;
    CheckFrame(s, cookie);
    RouteFrame(s, m, cookie, txid, now);
    var checked := CheckDuplicate(s, cookie);
    OnewayWaits(checked, m, cookie, now);
    OnewayLonger(checked, m, cookie, now);
    ParkLonger(s, m, cookie, txid, now);
    ParkLonger(checked, m, cookie, txid, now);
    RouteIs(s, m, cookie, txid, now);
  }

  lemma RouteIs(s: State, m: MainEvent, cookie: u64, txid: u64, now: int)
    ensures var r, checked := RouteMain(s, m, cookie, txid, now), CheckDuplicate(s, cookie);
            || r == EmitNow(s, m) || r == ParkByTxid(s, m, txid, now)
            || r == RouteOneway(checked, m, cookie, now) || r == ParkByCookie(checked, m, cookie, now)
  {
    hide ParkByTxid, ParkByCookie, RouteOneway, CheckDuplicate, EmitNow;
  }

  lemma ChunkLonger(s: State, i: Input)
    requires i.ChunkIn?
    ensures OneLonger(s, Step(s, i))
  {
    hide Step, HandleChunk, TakeChunk, Deliver, MaybeCleanup, RouteMain, Merge;
    var c, now := i.chunk, i.now;
    StepChunk(s, i);
    HandleChunkIs(s, c, now, i.later, i.order);
    var n := NoteChunk(s, c);
    var t := TakeChunk(n, c, now);
    TakeChunkFrame(n, c, now);
    TakeShorter(n, c, now);
    var full := Complete(t.buffers[c.txid].chunks);
    if full {
      DeliverCases(t, c.txid, now);
      DeliverFrame(t, c.txid, now);
      var m := Assembled(t, c.txid, now);
      if m.Some? {
        RouteLonger(t.(buffers := t.buffers - {c.txid}), m.value, t.buffers[c.txid].meta.cookie, c.txid, now);
      }
    }
    var d := if full then Deliver(t, c.txid, now) else t;
    CleanupFrame(d, now, i.later, i.order);
    CleanupShorter(d, now, i.later, i.order);
  }

  lemma TakeShorter(s: State, c: Chunk, now: int)
    ensures |TakeChunk(s, c, now).cookies.list.nodes| <= |s.cookies.list.nodes|
  {
    hide Delete;
    if c.txid in s.cookies.items { DeleteShorter(s.cookies, c.txid); }
  }

  lemma CleanupShorter(s: State, now: int, later: int, order: seq<u64>)
    ensures |MaybeCleanup(s, now, later, order).cookies.list.nodes| <= |s.cookies.list.nodes|
  {
    hide Expire;
    ExpireShorter(s.cookies, order, later - PENDING_COOKIE_TTL);
  }

  lemma CookieLonger(s: State, r: CookieRecord, now: int, later: int, order: seq<u64>)
    ensures OneLonger(s, HandleCookie(s, r, now, later, order))
  {
    hide Trim, Trimmed, Push, Delete, Touch, Expire;
    StashLonger(s.cookies, r.txid, now, r.cookie, order, later - PENDING_COOKIE_TTL);
    if r.txid in s.byTxid.items {
      var e := s.byTxid.items[r.txid];
      DeleteShorter(s.byTxid, r.txid);
      if r.cookie in s.main.items { DeleteShorter(s.main, r.cookie); }
      PushLonger(if r.cookie in s.main.items then Delete(s.main, r.cookie) else s.main,
                 r.cookie, e.at, e.value, PENDING_MAIN_CAPACITY);
    }
  }

  lemma StashLonger(l: Lru<u64>, txid: u64, now: int, cookie: u64, order: seq<u64>, cutoff: int)
    ensures var t := if txid in l.items then Touch(l, txid, now, cookie) else Push(l, txid, now, cookie);
            |Expire(Trim(t, PENDING_COOKIE_CAPACITY), order, cutoff).list.nodes| <= |l.list.nodes| + 1
  {
    hide Trim, Expire;
    var t := if txid in l.items then Touch(l, txid, now, cookie) else Push(l, txid, now, cookie);
    if txid in l.items { WithoutShorter(l.list.nodes, l.items[txid].elem); }
    TrimShorter(t, PENDING_COOKIE_CAPACITY);
    ExpireShorter(Trim(t, PENDING_COOKIE_CAPACITY), order, cutoff);
  }

  lemma StepLonger(s: State, i: Input)
    ensures OneLonger(s, Step(s, i))
  {
    hide HandleChunk, HandleCookie, Expire, Expired, Trim, Trimmed, Push, Delete;
    match i
    case ChunkIn(_, _, _, _) => ChunkLonger(s, i);
    case CookieIn(r, now, later, order) => CookieLonger(s, r, now, later, order);
    case SidebandIn(sb, now) =>
      if sb.cookie in s.main.items { DeleteShorter(s.main, sb.cookie); }
      if sb.cookie in s.oneway.items { DeleteShorter(s.oneway, sb.cookie); }
      PushLonger(s.oneway, sb.cookie, now, sb, PENDING_ONEWAY_CAPACITY);
    case SweepIn(now, o) =>
      ExpireShorter(s.oneway, o.oneway, now - PENDING_ONEWAY_TTL);
      ExpireShorter(s.recent, o.recent, now - RECENT_ONEWAY_TTL);
      ExpireShorter(s.main, o.main, now - PENDING_MAIN_TTL);
      ExpireShorter(s.byTxid, o.byTxid, now - PENDING_MAIN_TTL);
    case SweepCookiesIn(now, order) => ExpireShorter(s.cookies, order, now - PENDING_COOKIE_TTL);
  }

  /** A list grows by at most one per record, so fewer than 16384 records always leave room. */
  lemma {:induction false} RoomyShort(inputs: seq<Input>)
    ensures var s := Run(Init(), inputs);
            && |s.main.list.nodes| <= |inputs| && |s.byTxid.list.nodes| <= |inputs|
            && |s.cookies.list.nodes| <= |inputs|
            && |s.oneway.list.nodes| <= |inputs| && |s.recent.list.nodes| <= |inputs|
  {
    hide Step;
    if inputs != [] {
      RoomyShort(inputs[..|inputs| - 1]);
      StepLonger(Run(Init(), inputs[..|inputs| - 1]), inputs[|inputs| - 1]);
    }
  }

  /** An ordinary call meets everything CallPaired asks. */
  lemma OrdinaryCall()
    ensures var c, ring := SmallCall(TARGET, 100, 7), [Some(Zeros())];
            && Legal(TARGET, GoodEvents()) && Sane(TARGET, GoodEvents()) && AllFiltered(TARGET, GoodEvents())
            && Enter(c, ring) in GoodEvents() && FullRing(c, ring) && c.flags % 2 == 0
            && CookieRecord(0x500, c.txid) in KernelRun(TARGET, GoodEvents()).out.cookieRecords
            && FedFrom(GoodInputs(), KernelRun(TARGET, GoodEvents()).out)
            && Delivered([], GoodInputs()[..2], c, ring, 0x500, 0)
  {
    hide Legal, Sane, KernelRun, AllFiltered, ChunkAt, FullRing, Delivered;
    GoodKernel();
    BadSubmitted();
    GoodFed();
    assert GoodEvents()[0] in GoodEvents();
    GoodDelivered();
    GoodRing();
  }

  lemma GoodRing()
    ensures FullRing(SmallCall(TARGET, 100, 7), [Some(Zeros())])
  {
    BadSubmitted();
    hide ChunkCount;
  }

  lemma GoodFed()
    ensures FedFrom(GoodInputs(), KGood().out)
  {
    hide ChunkAt;
    assert forall i :: i in GoodInputs() <==> i == GoodInputs()[0] || i == GoodInputs()[1] || i == GoodInputs()[2];
  }

  lemma GoodDelivered()
    requires ChunkCount(SmallCall(TARGET, 100, 7)) <= MAX_CHUNKS
    ensures Delivered([], GoodInputs()[..2], SmallCall(TARGET, 100, 7), [Some(Zeros())], 0x500, 0)
  {
    hide Run, ChunksFrom, ChunkCount, ChunksOf, Roomy, GotCookie, SmallCall, Zeros, BadChunk, GoodInputs;
    GoodShape();
    var during := GoodInputs()[..2];
    GoodChunks();
    GoodRoom(during);
    GoodCookie();
    assert [] + during == during;
  }

  lemma GoodShape()
    ensures SmallCall(TARGET, 100, 7).txid == 100 && |GoodInputs()| == 3
    ensures var during := GoodInputs()[..2];
            forall i :: i in during ==> !i.SidebandIn? && InWindow(i, 0)
  {
    hide SmallCall, Zeros, BadChunk;
    assert SmallCall(TARGET, 100, 7).txid == 100 by { SentTxid(); }
    var during := GoodInputs()[..2];
    assert forall i :: i in during ==> i == during[0] || i == during[1];
  }

  lemma SentTxid()
    ensures SmallCall(TARGET, 100, 7).txid == 100
  {}

  lemma GoodChunks()
    requires ChunkCount(SmallCall(TARGET, 100, 7)) <= MAX_CHUNKS
    ensures ChunksOf(GoodInputs()[..2], 100) == ChunksFrom(SmallCall(TARGET, 100, 7), 0, [Some(Zeros())])
  {
    hide ChunkAt, ChunksFrom, ChunkCount, ChunksOf;
    BadSubmitted();
    var during := GoodInputs()[..2];
    assert during == ([] + [during[0]]) + [during[1]];
    NoChunks(100);
    ChunksLast([], during[0], 100);
    ChunksLast([] + [during[0]], during[1], 100);
    BadMeta();
  }

  lemma GoodCookie()
    ensures GotCookie(GoodInputs()[..2], Request(100, 0x500, SmallCall(TARGET, 100, 7).parcel))
  {
    hide ChunkAt;
    var during := GoodInputs()[..2];
    assert during[1] in during;
  }

  lemma GoodRoom(during: seq<Input>)
    requires |during| == 2
    ensures forall n :: 0 <= n <= |during| ==> Roomy(Run(Init(), [] + during[..n]))
  {
    hide Run;
    forall n | 0 <= n <= |during| ensures Roomy(Run(Init(), [] + during[..n])) {
      assert [] + during[..n] == during[..n];
      RoomyShort(during[..n]);
    }
  }
}
