/** When a request is paired: a sideband is merged into a main exactly when it finds that main waiting, so the sideband
    of a SYNC request has to come last. */
module SidebandOrder {
  import opened Types
  import opened KeyedList
  import opened CollectorModel
  import opened CollectorProvenance
  import opened CollectorCustody
  import opened CollectorHolding
  import opened Reassembly
  import opened ParcelOrigin
  import opened Pairing

  // What a step adds to the emitted events

  /** What is new came out as built, or is a one-way main. */
  ghost predicate AddsPlain(before: seq<MainEvent>, after: seq<MainEvent>) {
    forall m :: m in after ==> m in before || m.event == m.base || IsOneway(m.base.flags)
  }

  lemma PlainOut(before: seq<MainEvent>, out: seq<MainEvent>)
    requires AsBuilt(out)
    ensures AddsPlain(before, before + out)
  {}

  lemma PlainThen(a: seq<MainEvent>, b: seq<MainEvent>, c: seq<MainEvent>)
    requires AddsPlain(a, b) && AddsPlain(b, c)
    ensures AddsPlain(a, c)
  {}

  lemma TrimMainPlain(s: State)
    requires Unmerged(s.main.items)
    ensures AddsPlain(s.emitted, TrimMain(s).emitted)
  {
    hide Trim, Trimmed, AddsPlain;
    TrimPart(s.main, PENDING_MAIN_CAPACITY);
    PartAsBuilt(s.main.items, Trim(s.main, PENDING_MAIN_CAPACITY).items, Trimmed(s.main, PENDING_MAIN_CAPACITY));
    PlainOut(s.emitted, Trimmed(s.main, PENDING_MAIN_CAPACITY));
  }

  lemma TrimByTxidPlain(s: State)
    requires Unmerged(s.byTxid.items)
    ensures AddsPlain(s.emitted, TrimByTxid(s).emitted)
  {
    hide Trim, Trimmed, AddsPlain;
    TrimPart(s.byTxid, PENDING_MAIN_CAPACITY);
    PartAsBuilt(s.byTxid.items, Trim(s.byTxid, PENDING_MAIN_CAPACITY).items,
                Trimmed(s.byTxid, PENDING_MAIN_CAPACITY));
    PlainOut(s.emitted, Trimmed(s.byTxid, PENDING_MAIN_CAPACITY));
  }

  lemma ParkByTxidPlain(s: State, m: MainEvent, txid: u64, now: int)
    requires Unmerged(s.byTxid.items) && m == Origin(m)
    ensures AddsPlain(s.emitted, ParkByTxid(s, m, txid, now).emitted)
  {
    hide TrimByTxid;
    var s1 := if txid in s.byTxid.items then ReleaseByTxid(s, txid) else s;
    TrimByTxidPlain(s1.(byTxid := Push(s1.byTxid, txid, now, m), hist := NoteParked(s1.hist, m)));
  }

  lemma ParkByCookiePlain(s: State, m: MainEvent, cookie: u64, now: int)
    requires Unmerged(s.main.items) && m == Origin(m)
    ensures AddsPlain(s.emitted, ParkByCookie(s, m, cookie, now).emitted)
  {
    hide TrimMain, AddsPlain;
    var lost := if cookie in s.main.items then [s.main.items[cookie].value] else [];
    TrimMainPlain(s.(main := Push(s.main, cookie, now, m),
                     hist := NoteParked(s.hist, m).(lost := s.hist.lost + lost)));
  }

  lemma RoutePlain(s: State, m: MainEvent, cookie: u64, txid: u64, now: int)
    requires Unmerged(s.main.items) && Unmerged(s.byTxid.items) && m == Origin(m)
    ensures AddsPlain(s.emitted, RouteMain(s, m, cookie, txid, now).emitted)
  {
    hide ParkByTxid, ParkByCookie, Trim, Touch, Push, Delete, CheckDuplicate;
    CheckFrame(s, cookie);
    ParkByTxidPlain(s, m, txid, now);
    ParkByCookiePlain(CheckDuplicate(s, cookie), m, cookie, now);
  }

  lemma ChunkPlain(s: State, c: Chunk, now: i64, later: int, order: seq<u64>)
    requires Unmerged(s.main.items) && Unmerged(s.byTxid.items)
    ensures AddsPlain(s.emitted, HandleChunk(s, c, now, later, order).emitted)
  {
    hide HandleChunk, TakeChunk, Deliver, MaybeCleanup, RouteMain, Merge, Unmerged;
    HandleChunkIs(s, c, now, later, order);
    var n := NoteChunk(s, c);
    TakeChunkFrame(n, c, now);
    var t := TakeChunk(n, c, now);
    var full := Complete(t.buffers[c.txid].chunks);
    if full {
      DeliverCases(t, c.txid, now);
      var m := Assembled(t, c.txid, now);
      if m.Some? {
        RoutePlain(t.(buffers := t.buffers - {c.txid}), m.value, t.buffers[c.txid].meta.cookie, c.txid, now);
      }
    }
    CleanupFrame(if full then Deliver(t, c.txid, now) else t, now, later, order);
  }

  lemma ActivatePlain(s: State, txid: u64, cookie: u64)
    requires Unmerged(s.main.items) && Unmerged(s.byTxid.items) && txid in s.byTxid.items
    ensures AddsPlain(s.emitted, Activate(s, txid, cookie).emitted)
  {
    hide TrimMain;
    var e := s.byTxid.items[txid];
    var s1 := s.(byTxid := Delete(s.byTxid, txid));
    var s2 := if cookie in s1.main.items then ReleaseMain(s1, cookie) else s1;
    TrimMainPlain(s2.(main := Push(s2.main, cookie, e.at, e.value)));
  }

  lemma CookiePlain(s: State, r: CookieRecord, now: int, later: int, order: seq<u64>)
    requires Unmerged(s.main.items) && Unmerged(s.byTxid.items)
    ensures AddsPlain(s.emitted, HandleCookie(s, r, now, later, order).emitted)
  {
    hide Activate, Trim, Touch, Push, Expire, Unmerged;
    if r.txid in s.byTxid.items { ActivatePlain(NoteCookie(s, r), r.txid, r.cookie); }
  }

  lemma SweepPlain(s: State, now: int, o: Orders)
    requires Unmerged(s.main.items) && Unmerged(s.byTxid.items)
    ensures AddsPlain(s.emitted, Sweep(s, now, o).emitted)
  {
    hide Expire, Expired, AddsPlain;
    var cutoff := now - PENDING_MAIN_TTL;
    var a, b := Expired(s.main, o.main, cutoff), Expired(s.byTxid, o.byTxid, cutoff);
    ExpirePart(s.main, o.main, cutoff);
    PartAsBuilt(s.main.items, Expire(s.main, o.main, cutoff).items, a);
    ExpirePart(s.byTxid, o.byTxid, cutoff);
    PartAsBuilt(s.byTxid.items, Expire(s.byTxid, o.byTxid, cutoff).items, b);
    PlainOut(s.emitted, a);
    PlainOut(s.emitted + a, b);
    PlainThen(s.emitted, s.emitted + a, s.emitted + a + b);
  }

  /** Only a sideband that finds its main waiting changes an event. */
  lemma StepPlain(s: State, i: Input, m: MainEvent)
    requires Unmerged(s.main.items) && Unmerged(s.byTxid.items) && m in Step(s, i).emitted
    ensures || m in s.emitted || m.event == m.base || IsOneway(m.base.flags)
            || (i.SidebandIn? && i.sideband.cookie in s.main.items
                && m == Merged(s.main.items[i.sideband.cookie].value, i.sideband))
  {
    hide HandleChunk, HandleCookie, Sweep, Unmerged, Trim, Trimmed, Push, Delete, Expire;
    match i
    case ChunkIn(c, now, later, order) => ChunkPlain(s, c, now, later, order);
    case CookieIn(r, now, later, order) => CookiePlain(s, r, now, later, order);
    case SweepIn(now, o) => SweepPlain(s, now, o);
    case _ =>
  }

  // Over a run

  /** The k-th record is a sideband that finds a main waiting under its cookie, and `m` is that main with it. */
  ghost predicate MergedAt(inputs: seq<Input>, k: nat, m: MainEvent) {
    && k < |inputs| && inputs[k].SidebandIn?
    && var sb, s := inputs[k].sideband, Run(Init(), inputs[..k]);
       sb.cookie in s.main.items && m == Merged(s.main.items[sb.cookie].value, sb)
  }

  /** In every run an emitted event that is not one-way is as it was built, or is a main that a sideband found
      waiting. A sideband that came before its main waited has no part in it. */
  lemma {:induction false} MergedWaiting(inputs: seq<Input>, m: MainEvent)
    requires m in Run(Init(), inputs).emitted && !IsOneway(m.base.flags)
    ensures m.event == m.base || exists k: nat :: MergedAt(inputs, k, m)
  {
    hide Run, Custody, Step;
    if inputs == [] {
      RunNone(Init());
    } else {
      var front, last := inputs[..|inputs| - 1], inputs[|inputs| - 1];
      var s := Run(Init(), front);
      assert inputs == front + [last];
      RunLast(Init(), front, last);
      RunKept(front);
      WaitingUnmerged(s);
      StepPlain(s, last, m);
      if m in s.emitted {
        MergedWaiting(front, m);
        if k: nat :| MergedAt(front, k, m) {
          assert inputs[..k] == front[..k];
          assert MergedAt(inputs, k, m);
        }
      } else if m.event != m.base {
        assert MergedAt(inputs, |front|, m);
      }
    }
  }

  lemma WaitingUnmerged(s: State)
    requires Custody(s)
    ensures Unmerged(s.main.items) && Unmerged(s.byTxid.items)
  {}

  lemma {:induction false} RunEmits(s: State, after: seq<Input>)
    ensures s.emitted <= Run(s, after).emitted
  {
    hide Step;
    if after != [] {
      RunEmits(s, after[..|after| - 1]);
      StepEmits(Run(s, after[..|after| - 1]), after[|after| - 1]);
    }
  }

  /** And every main a sideband finds waiting is emitted with it. */
  lemma WaitingMerged(inputs: seq<Input>, k: nat, m: MainEvent)
    requires MergedAt(inputs, k, m)
    ensures m in Run(Init(), inputs).emitted
  {
    hide Run;
    var front, sb := inputs[..k], inputs[k].sideband;
    assert inputs == (front + [inputs[k]]) + inputs[k + 1..];
    RunSideband(front, sb, inputs[k].now);
    RunSplit(Init(), front + [inputs[k]], inputs[k + 1..]);
    RunEmits(Run(Init(), front + [inputs[k]]), inputs[k + 1..]);
    var s := Run(Init(), front + [inputs[k]]);
    assert s.emitted[|s.emitted| - 1] == m;
  }

  // In terms of the records

  /** No main waits under cookie 0. */
  lemma {:induction false} NoneUnderZero(inputs: seq<Input>)
    ensures 0 !in Run(Init(), inputs).main.items
  {
    hide Step;
    if inputs != [] {
      NoneUnderZero(inputs[..|inputs| - 1]);
      StepKeys(Run(Init(), inputs[..|inputs| - 1]), inputs[|inputs| - 1]);
    }
  }

  lemma StepKeys(s: State, i: Input)
    requires 0 !in s.main.items
    ensures 0 !in Step(s, i).main.items
  {
    hide HandleChunk, Trim, Trimmed, Expire, Expired, Without;
    match i
    case ChunkIn(c, now, later, order) => ChunkKeys(s, c, now, later, order);
    case CookieIn(r, _, _, _) =>
      if r.txid in s.byTxid.items && r.cookie != 0 {
        var e := s.byTxid.items[r.txid];
        TrimPart(Push(if r.cookie in s.main.items then Delete(s.main, r.cookie) else s.main,
                      r.cookie, e.at, e.value), PENDING_MAIN_CAPACITY);
      }
    case SweepIn(now, o) => ExpirePart(s.main, o.main, now - PENDING_MAIN_TTL);
    case _ =>
  }

  lemma ChunkKeys(s: State, c: Chunk, now: i64, later: int, order: seq<u64>)
    requires 0 !in s.main.items
    ensures 0 !in HandleChunk(s, c, now, later, order).main.items
  {
    hide HandleChunk, TakeChunk, Deliver, MaybeCleanup, RouteMain, Merge;
    HandleChunkIs(s, c, now, later, order);
    var n := NoteChunk(s, c);
    TakeChunkFrame(n, c, now);
    var t := TakeChunk(n, c, now);
    var full := Complete(t.buffers[c.txid].chunks);
    if full {
      DeliverCases(t, c.txid, now);
      var m := Assembled(t, c.txid, now);
      if m.Some? {
        RouteKeys(t.(buffers := t.buffers - {c.txid}), m.value, t.buffers[c.txid].meta.cookie, c.txid, now);
      }
    }
    CleanupFrame(if full then Deliver(t, c.txid, now) else t, now, later, order);
  }

  lemma RouteKeys(s: State, m: MainEvent, cookie: u64, txid: u64, now: int)
    requires 0 !in s.main.items
    ensures 0 !in RouteMain(s, m, cookie, txid, now).main.items
  {
    hide ParkByTxid, RouteOneway, CheckDuplicate, Trim, Trimmed;
    CheckFrame(s, cookie);
    OnewayWaits(CheckDuplicate(s, cookie), m, cookie, now);
    ByTxidKeys(s, m, txid, now);
    TrimPart(Push(s.main, cookie, now, m), PENDING_MAIN_CAPACITY);
  }

  lemma ByTxidKeys(s: State, m: MainEvent, txid: u64, now: int)
    ensures ParkByTxid(s, m, txid, now).main == s.main
  {
    hide Trim, Trimmed, Push, Delete;
  }

  /** Everything but the sideband of the request has been handled. */
  ghost predicate Ready(inputs: seq<Input>, x: Request)
    requires |x.parcel| <= CHUNK_SIZE * MAX_CHUNKS
  {
    Whole(ChunksOf(inputs, x.txid), x.parcel) && GotCookie(inputs, x)
  }

  /** The records of the transaction are those of this SYNC request. */
  ghost predicate Consistent(i: Input, x: Request) {
    match i
    case ChunkIn(c, _, _, _) => c.txid == x.txid ==> SyncChunk(c) && c.meta.dataSize == |x.parcel|
    case CookieIn(r, _, _, _) => r.txid == x.txid ==> r.cookie == x.cookie
    case _ => true
  }

  lemma {:induction false} SeenChunks(inputs: seq<Input>, c: Chunk)
    requires c in SeenIn(inputs).chunks
    ensures c in ChunksOf(inputs, c.txid)
  {
    var front, last := inputs[..|inputs| - 1], inputs[|inputs| - 1];
    assert inputs == front + [last];
    if !(last.ChunkIn? && last.chunk == c) { SeenChunks(front, c); }
  }

  /** A request's main waits under a cookie only when all its chunks and its cookie record have come. */
  lemma WaitsReady(inputs: seq<Input>, x: Request, cookie: u64)
    requires |x.parcel| <= CHUNK_SIZE * MAX_CHUNKS && forall i :: i in inputs ==> Consistent(i, x)
    requires var s := Run(Init(), inputs); cookie in s.main.items && s.main.items[cookie].value.txid == x.txid
    ensures Ready(inputs, x) && cookie == x.cookie
  {
    hide Run, Whole, GotCookie, Custody, Pieced, Sound, BytesSeen, SyncChunk, Built;
    var s := Run(Init(), inputs);
    var m := s.main.items[cookie].value;
    RunSound(inputs);
    RunSeen(inputs);
    SoundWaits(s, cookie);
    FirstConsistent(inputs, x, m);
    NoneUnderZero(inputs);
    CookieCame(inputs, x, m, cookie);
    RunKept(inputs);
    RunPieced(inputs);
    WaitingBytes(s, cookie);
    BytesWhole(inputs, x, m);
  }

  lemma SoundWaits(s: State, cookie: u64)
    requires Sound(s) && cookie in s.main.items
    ensures var m := s.main.items[cookie].value; Built(s.hist.seen, m) && Bound(s.hist.seen, m, cookie)
  {
    hide Built, Bound, SoundByTxid, SoundOneway, SoundCookies, SoundEmitted, SoundBuffer;
  }

  /** The metadata of the event is that of one of the request's chunks. */
  lemma FirstConsistent(inputs: seq<Input>, x: Request, m: MainEvent)
    requires m.txid == x.txid && Built(SeenIn(inputs), m) && forall i :: i in inputs ==> Consistent(i, x)
    ensures m.first.isReply == 0 && !IsOneway(m.first.flags) && m.first.cookie == 0
    ensures m.first.dataSize == |m.base.parcel| == |x.parcel|
    ensures m.base.flags == m.first.flags && m.base.pairId == m.first.pairId
  {
    var c :| c in SeenIn(inputs).chunks && c.txid == m.txid && c.meta == m.first;
    var i :| i in inputs && i.ChunkIn? && i.chunk == c;
    assert Consistent(i, x);
  }

  lemma CookieCame(inputs: seq<Input>, x: Request, m: MainEvent, cookie: u64)
    requires m.txid == x.txid && m.first.cookie == 0 && cookie != 0 && Bound(SeenIn(inputs), m, cookie)
    requires forall i :: i in inputs ==> Consistent(i, x)
    ensures GotCookie(inputs, x) && cookie == x.cookie
  {
    var i :| i in inputs && i.CookieIn? && i.cookieRecord == CookieRecord(cookie, m.txid);
    assert Consistent(i, x);
  }

  lemma WaitingBytes(s: State, cookie: u64)
    requires Custody(s) && Pieced(s) && cookie in s.main.items
    ensures BytesSeen(s.hist.seen, s.main.items[cookie].value)
  {
    hide Values, Origins, Unmerged, BytesSeen;
    var m := s.main.items[cookie].value;
    ValuesRemove(s.main.items, cookie);
    assert m in Values(s.main.items);
    assert m in multiset(s.hist.completed);
  }

  lemma BytesWhole(inputs: seq<Input>, x: Request, m: MainEvent)
    requires |m.base.parcel| == |x.parcel| <= CHUNK_SIZE * MAX_CHUNKS && m.txid == x.txid
    requires BytesSeen(SeenIn(inputs), m)
    ensures Whole(ChunksOf(inputs, x.txid), x.parcel)
  {
    hide SeenIn, ChunksOf;
    forall i | 0 <= i < TotalChunks(|x.parcel|) ensures HasIndex(ChunksOf(inputs, x.txid), i) {
      TotalChunksOf(x.parcel);
      assert ByteSeen(SeenIn(inputs), m, i * CHUNK_SIZE);
      var c :| c in SeenIn(inputs).chunks && c.txid == m.txid && c.index == i * CHUNK_SIZE / CHUNK_SIZE;
      SeenChunks(inputs, c);
    }
  }

  /** If every sideband of a SYNC request comes before all its chunks and its cookie record have come, the request
      is never paired: whatever is emitted for it is as it was built. */
  lemma EarlySidebandUnused(inputs: seq<Input>, x: Request, m: MainEvent)
    requires |x.parcel| <= CHUNK_SIZE * MAX_CHUNKS && forall i :: i in inputs ==> Consistent(i, x)
    requires forall k :: 0 <= k < |inputs| && inputs[k].SidebandIn? && inputs[k].sideband.cookie == x.cookie ==>
               !Ready(inputs[..k], x)
    requires m in Run(Init(), inputs).emitted && m.txid == x.txid
    ensures m.event == m.base
  {
    hide Run, Ready, Consistent, Built;
    RunProvenance(inputs, m);
    FirstConsistent(inputs, x, m);
    MergedWaiting(inputs, m);
    if k: nat :| MergedAt(inputs, k, m) { MergedReady(inputs, k, x, m); }
  }

  lemma MergedReady(inputs: seq<Input>, k: nat, x: Request, m: MainEvent)
    requires |x.parcel| <= CHUNK_SIZE * MAX_CHUNKS && forall i :: i in inputs ==> Consistent(i, x)
    requires MergedAt(inputs, k, m) && m.txid == x.txid
    ensures Ready(inputs[..k], x) && inputs[k].sideband.cookie == x.cookie
  {
    hide Run, Ready, Consistent;
    assert forall i :: i in inputs[..k] ==> i in inputs;
    WaitsReady(inputs[..k], x, inputs[k].sideband.cookie);
  }

  lemma FairConsistent(i: Input, x: Request)
    requires !x.oneway && (Fair(i, x) || (i.SidebandIn? && i.sideband.cookie == x.cookie))
    requires i.ChunkIn? && i.chunk.txid == x.txid ==> Piece(i.chunk, x.parcel)
    ensures Consistent(i, x)
  {}

  lemma {:induction false} ChunksJoin(a: seq<Input>, b: seq<Input>, txid: u64)
    ensures ChunksOf(a + b, txid) == ChunksOf(a, txid) + ChunksOf(b, txid)
  {
    if b == [] {
      assert a + b == a;
    } else {
      var front, last := b[..|b| - 1], b[|b| - 1];
      assert a + b == (a + front) + [last] && b == front + [last];
      ChunksJoin(a, front, txid);
      ChunksLast(a + front, last, txid);
      ChunksLast(front, last, txid);
    }
  }

  lemma {:induction false} NoChunksOf(inputs: seq<Input>, txid: u64)
    ensures ChunksOf(inputs, txid) == [] <==> forall i :: i in inputs ==> !IsChunkOf(i, txid)
  {
    if inputs != [] {
      var front, last := inputs[..|inputs| - 1], inputs[|inputs| - 1];
      assert inputs == front + [last];
      NoChunksOf(front, txid);
    }
  }

  /** With every piece there, one more would be there twice. */
  lemma PieceTwice(cs: seq<Chunk>, ds: seq<Chunk>, parcel: Bytes)
    requires 0 < |parcel| <= CHUNK_SIZE * MAX_CHUNKS && Whole(cs, parcel) && ds != [] && Piece(ds[0], parcel)
    ensures !DistinctIndices(cs + ds)
  {
    TotalChunksOf(parcel);
    assert HasIndex(cs, ds[0].index);
    var c :| c in cs && c.index == ds[0].index;
    var i :| 0 <= i < |cs| && cs[i] == c;
    assert (cs + ds)[i] == c && (cs + ds)[|cs|] == ds[0];
  }

  lemma WholeIsAll(cs: seq<Chunk>, ds: seq<Chunk>, parcel: Bytes)
    requires Pieces(cs + ds, parcel) && Whole(cs, parcel)
    ensures ds == []
  {
    hide Whole, Piece;
    assert ds != [] ==> ds[0] in cs + ds;
    if ds != [] { PieceTwice(cs, ds, parcel); }
  }

  /** The whole run around the request's one sideband. */
  function Around(before: seq<Input>, during: seq<Input>, sb: Sideband, now: i64, after: seq<Input>): seq<Input> {
    before + during + [SidebandIn(sb, now)] + after
  }

  lemma AroundChunks(before: seq<Input>, during: seq<Input>, x: Request, sb: Sideband, now: i64, after: seq<Input>)
    requires forall i :: i in before ==> !Mine(i, x)
    ensures ChunksOf(Around(before, during, sb, now, after), x.txid) ==
            ChunksOf(during, x.txid) + ChunksOf(after, x.txid)
  {
    hide ChunksOf;
    NoChunksOf(before, x.txid);
    ChunksJoin(before, during, x.txid);
    assert [] + ChunksOf(during, x.txid) == ChunksOf(during, x.txid);
    ChunksLast(before + during, SidebandIn(sb, now), x.txid);
    assert ChunksOf(during, x.txid) + [] == ChunksOf(during, x.txid);
    ChunksJoin(before + during + [SidebandIn(sb, now)], after, x.txid);
  }

  lemma AroundConsistent(before: seq<Input>, during: seq<Input>, x: Request, sb: Sideband, now: i64,
                         after: seq<Input>)
    requires sb.cookie == x.cookie && !x.oneway && forall i :: i in before + during + after ==> Fair(i, x)
    requires Pieces(ChunksOf(Around(before, during, sb, now, after), x.txid), x.parcel)
    ensures forall i :: i in Around(before, during, sb, now, after) ==> Consistent(i, x)
  {
    hide Fair, Consistent, Piece, ChunksOf, SeenIn;
    var all := Around(before, during, sb, now, after);
    forall i | i in all ensures Consistent(i, x) {
      assert i in before + during + after || i == SidebandIn(sb, now);
      if IsChunkOf(i, x.txid) {
        InChunks(all, i);
      }
      FairConsistent(i, x);
    }
  }

  lemma {:induction false} InChunks(inputs: seq<Input>, i: Input)
    requires i in inputs && i.ChunkIn?
    ensures i.chunk in ChunksOf(inputs, i.chunk.txid)
  {
    var front, last := inputs[..|inputs| - 1], inputs[|inputs| - 1];
    assert inputs == front + [last];
    if i != last { InChunks(front, i); }
  }

  /** The sideband has to come last, and that is enough: around the one sideband of a SYNC request, within five
      seconds and with room in the maps, an event of the request is emitted with the sideband's debug id if and only
      if all chunks and the cookie record were handled before the sideband. */
  lemma PairedIffLast(before: seq<Input>, during: seq<Input>, x: Request, start: int, sb: Sideband, now: i64,
                      after: seq<Input>)
    requires |x.parcel| <= CHUNK_SIZE * MAX_CHUNKS && Scenario(before, during, x, start)
    requires sb.cookie == x.cookie && sb.debugId != 0 && !x.oneway && forall i :: i in after ==> Fair(i, x)
    requires var cs := ChunksOf(Around(before, during, sb, now, after), x.txid);
             Pieces(cs, x.parcel) && forall c :: c in cs ==> c.meta.pairId == 0
    ensures (exists m :: m in Run(Init(), Around(before, during, sb, now, after)).emitted && m.txid == x.txid
                         && m.event.pairId == sb.debugId) <==>
            Ready(during, x)
  {
    hide Run, ChunksOf, Whole, GotCookie, Fair, Roomy, InWindow, Pieces, Consistent;
    var all, cs := Around(before, during, sb, now, after), ChunksOf(during, x.txid);
    AroundChunks(before, during, x, sb, now, after);
    if Ready(during, x) {
      WholeIsAll(cs, ChunksOf(after, x.txid), x.parcel);
      NoChunksOf(after, x.txid);
      RequestPaired(before, during, x, start, sb, now, after);
      FirstPairId(cs, ChunksOf(after, x.txid));
    } else {
      AroundConsistent(before, during, x, sb, now, after);
      SidebandEarly(before, during, x, sb, now, after);
      forall m | m in Run(Init(), all).emitted && m.txid == x.txid ensures m.event.pairId == 0 {
        EarlySidebandUnused(all, x, m);
        BasePairId(all, x, m);
      }
    }
  }

  lemma FirstPairId(cs: seq<Chunk>, ds: seq<Chunk>)
    requires cs != [] && forall c :: c in cs + ds ==> c.meta.pairId == 0
    ensures cs[0].meta.pairId == 0
  {
    assert cs[0] in cs + ds;
  }

  lemma BasePairId(inputs: seq<Input>, x: Request, m: MainEvent)
    requires m in Run(Init(), inputs).emitted && m.txid == x.txid
    requires forall c :: c in ChunksOf(inputs, x.txid) ==> c.meta.pairId == 0
    ensures m.base.pairId == 0
  {
    hide Run, ChunksOf;
    RunProvenance(inputs, m);
    var c :| c in SeenIn(inputs).chunks && c.txid == m.txid && c.meta == m.first;
    SeenChunks(inputs, c);
  }

  /** The only sideband of the request comes at a moment when the rest has not. */
  lemma SidebandEarly(before: seq<Input>, during: seq<Input>, x: Request, sb: Sideband, now: i64, after: seq<Input>)
    requires |x.parcel| <= CHUNK_SIZE * MAX_CHUNKS && !Ready(during, x)
    requires forall i :: i in before ==> !Mine(i, x)
    requires !x.oneway && forall i :: i in before + during + after ==> Fair(i, x)
    ensures var all := Around(before, during, sb, now, after);
            forall k :: 0 <= k < |all| && all[k].SidebandIn? && all[k].sideband.cookie == x.cookie ==>
              !Ready(all[..k], x)
  {
    hide ChunksOf, Whole, Ready;
    var all, n := Around(before, during, sb, now, after), |before + during|;
    forall k | 0 <= k < |all| && k != n ensures Fair(all[k], x) {
      assert all[k] == (before + during + after)[if k < n then k else k - 1];
      assert all[k] in before + during + after;
    }
    assert all[..n] == before + during;
    NotReadyBefore(before, during, x);
  }

  lemma NotReadyBefore(before: seq<Input>, during: seq<Input>, x: Request)
    requires |x.parcel| <= CHUNK_SIZE * MAX_CHUNKS && forall i :: i in before ==> !Mine(i, x)
    ensures Ready(before + during, x) == Ready(during, x)
  {
    hide ChunksOf, Whole;
    NoChunksOf(before, x.txid);
    ChunksJoin(before, during, x.txid);
    assert [] + ChunksOf(during, x.txid) == ChunksOf(during, x.txid);
    assert forall i :: i in before + during <==> i in before || i in during;
    assert forall i :: i in during ==> i in before + during;
  }
}
