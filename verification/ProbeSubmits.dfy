/** What the three programs submit, exactly: the chunks of monitored calls, and each cookie in one record of either
    kind or in the overflow counter. */
module ProbeSubmits {
  import opened Types
  import opened CollectorModel
  import opened ProbeModel
  import opened EndToEnd

  // Chunks

  /** Reservations up to record `i` all found room. */
  predicate RoomUpTo(ring: seq<Option<ChunkData>>, i: nat) {
    i < |ring| && forall j :: 0 <= j <= i ==> ring[j].Some?
  }

  lemma {:induction false} ChunksFromExact(c: Call, i: nat, ring: seq<Option<ChunkData>>, k: nat)
    requires i <= MAX_CHUNKS && ChunkCount(c) <= MAX_CHUNKS && (i == 0 || RoomUpTo(ring, i - 1))
    ensures (exists x :: x in ChunksFrom(c, i, ring) && x.index == k) <==> i <= k < ChunkCount(c) && RoomUpTo(ring, k)
    decreases MAX_CHUNKS - i
  {
    hide ChunkCount;
    if i < ChunkCount(c) && i < |ring| && ring[i].Some? {
      CountBounds(c, i);
      ChunksFromExact(c, i + 1, ring, k);
      var first, rest := ChunkAt(c, i, ring[i].value), ChunksFrom(c, i + 1, ring);
      assert ChunksFrom(c, i, ring) == [first] + rest;
      assert first in [first] + rest && first.index == i;
      assert forall x :: x in [first] + rest <==> x == first || x in rest;
    }
  }

  /** How many records the main program cuts the call into, in the program's arithmetic. */
  function RecordCount(c: Call): nat {
    (|c.parcel| + 1023) % 0x1_0000_0000_0000_0000 / 1024 % 0x1_0000_0000
  }

  /** The call has data, passes the filter, and needs at most sixteen records. */
  predicate Recorded(target: u32, c: Call) { !c.trNull && Monitored(target, c) && RecordCount(c) <= 16 }

  /** These are the chunks of the call: those up to the first that found no room, and no others. */
  ghost predicate ExactChunks(target: u32, c: Call, ring: seq<Option<ChunkData>>, chunks: set<Chunk>) {
    && (forall x :: x in chunks && x.txid == c.txid ==>
          Recorded(target, c) && x.index < RecordCount(c) && RoomUpTo(ring, x.index) && Holds(x, c.parcel))
    && (Recorded(target, c) ==> forall i :: 0 <= i < RecordCount(c) && RoomUpTo(ring, i) ==>
          exists x :: x in chunks && x.txid == c.txid && x.index == i)
  }

  lemma EnterExact(k: Kernel, target: u32, c: Call, ring: seq<Option<ChunkData>>)
    requires Possible(k, Enter(c, ring)) && forall x :: x in k.out.chunks ==> x.txid != c.txid
    ensures ExactChunks(target, c, ring, KernelStep(k, target, Enter(c, ring)).out.chunks)
  {
    hide ChunksFrom, Holds;
    var n := KernelStep(k, target, Enter(c, ring));
    assert RecordCount(c) == ChunkCount(c);
    hide ChunkCount, RecordCount;
    if Recorded(target, c) {
      ChunksAre(c, 0, ring);
      var cs := ChunksFrom(c, 0, ring);
      forall x | x in cs ensures x.index < RecordCount(c) && RoomUpTo(ring, x.index) {
        ChunksFromExact(c, 0, ring, x.index);
      }
      forall i | 0 <= i < RecordCount(c) && RoomUpTo(ring, i)
        ensures exists x :: x in n.out.chunks && x.txid == c.txid && x.index == i
      {
        ChunksFromExact(c, 0, ring, i);
        var x :| x in cs && x.index == i;
        assert x in n.out.chunks;
      }
    }
  }

  /** A step of another call adds no chunk with this transaction id. */
  lemma OtherEnter(k: Kernel, target: u32, e: Event, txid: u64)
    requires Possible(k, e) && (e.Enter? ==> e.call.txid != txid)
    ensures forall x: Chunk :: x.txid == txid ==> (x in KernelStep(k, target, e).out.chunks <==> x in k.out.chunks)
  {
    hide ChunksFrom, ChunkCount, CookieProgram, TracepointProgram;
    if e.Enter? && ChunkCount(e.call) <= MAX_CHUNKS { ChunksAre(e.call, 0, e.ring); }
  }

  /** In every run the records of a call are exactly these: none if the call has no data, is not monitored or is too
      long, and otherwise every piece up to the first that found no room, each with its part of the parcel. */
  lemma {:induction false} SubmittedExactly(target: u32, es: seq<Event>, c: Call, ring: seq<Option<ChunkData>>)
    requires Legal(target, es) && Sane(target, es) && Enter(c, ring) in es
    ensures ExactChunks(target, c, ring, KernelRun(target, es).out.chunks)
  {
    hide KernelStep, Assumed, KernelOk, RoomUpTo, Holds, Recorded;
    var front, e := es[..|es| - 1], es[|es| - 1];
    assert es == front + [e];
    var k := KernelRun(target, front);
    KernelRunOk(target, front);
    if Enter(c, ring) in front {
      SubmittedExactly(target, front, c, ring);
      EnteredCalls(target, front, Enter(c, ring));
      OtherEnter(k, target, e, c.txid);
      SameChunks(target, c, ring, k.out.chunks, KernelStep(k, target, e).out.chunks);
    } else {
      FreshTxid(k, target, c, ring);
      EnterExact(k, target, c, ring);
    }
  }

  lemma SameChunks(target: u32, c: Call, ring: seq<Option<ChunkData>>, a: set<Chunk>, b: set<Chunk>)
    requires ExactChunks(target, c, ring, a) && forall x: Chunk :: x.txid == c.txid ==> (x in b <==> x in a)
    ensures ExactChunks(target, c, ring, b)
  {
    hide RoomUpTo, Holds, Recorded, RecordCount;
    if Recorded(target, c) {
      forall i | 0 <= i < RecordCount(c) && RoomUpTo(ring, i)
        ensures exists x :: x in b && x.txid == c.txid && x.index == i
      {
        var x :| x in a && x.txid == c.txid && x.index == i;
        assert x in b;
      }
    }
  }

  lemma FreshTxid(k: Kernel, target: u32, c: Call, ring: seq<Option<ChunkData>>)
    requires KernelOk(k, target) && Possible(k, Enter(c, ring))
    ensures forall x :: x in k.out.chunks ==> x.txid != c.txid
  {
    hide Threads, Pending, CookieOf, Holds, Once, Single;
    forall x | x in k.out.chunks ensures x.txid != c.txid { assert FromCall(k.calls, target, x); }
  }

  // Cookies

  /** A cookie is taken once: what a sideband carries is pending no more and in no other sideband, and a request that
      has passed its tracepoint leaves nothing pending. */
  ghost predicate Spent(k: Kernel) {
    && (forall b :: b in k.out.sidebands ==> b.cookie in k.issued)
    && (forall b, t :: b in k.out.sidebands && t in k.maps.pending ==> k.maps.pending[t] != b.cookie)
    && (forall b, d :: b in k.out.sidebands && d in k.out.sidebands && b.cookie == d.cookie ==> b == d)
    && (forall t :: t in k.current && k.current[t].stage == Stage.Traced && !k.current[t].call.reply ==>
          t !in k.maps.pending)
  }

  lemma EnterSpent(k: Kernel, n: Kernel, target: u32, c: Call)
    requires Spent(k) && CallEntered(k, n, target, c)
    ensures Spent(n)
  {}

  lemma CookieSpent(k: Kernel, n: Kernel, target: u32, tid: u32, cookie: u64)
    requires Spent(k) && CookieMade(k, n, target, tid, cookie)
    ensures Spent(n)
  {}

  /** What a tracepoint does: a request takes the cookie of its thread, and submits it or counts it; nothing else
      happens but that the call has passed. */
  ghost predicate CookieTaken(k: Kernel, n: Kernel, tid: u32, c: Call) {
    && n.issued == k.issued && n.current == k.current[tid := Current(c, Stage.Traced)]
    && n.out.cookieRecords == k.out.cookieRecords
    && if c.reply || tid !in k.maps.pending then n.maps == k.maps && n.out.sidebands == k.out.sidebands
       else && n.maps.pending == k.maps.pending - {tid}
            && if n.out.sidebands == k.out.sidebands then n.maps.overflow == k.maps.overflow + 1
               else && n.maps.overflow == k.maps.overflow
                    && exists b: Sideband :: b.cookie == k.maps.pending[tid] && n.out.sidebands == k.out.sidebands + {b}
  }

  /** The cookie pending for a thread is not zero and in no sideband yet. */
  lemma PendingFresh(k: Kernel, target: u32, tid: u32)
    requires Pending(k, target) && Issued(k, target) && Spent(k) && tid in k.maps.pending
    ensures k.maps.pending[tid] != 0 && forall b :: b in k.out.sidebands ==> b.cookie != k.maps.pending[tid]
  {
    hide Monitored, CookieOf;
  }

  lemma TraceTakes(k: Kernel, target: u32, e: Event)
    requires Threads(k, target) && Pending(k, target) && Issued(k, target) && Spent(k) && e.Trace? && Possible(k, e)
    ensures CookieTaken(k, KernelStep(k, target, e), e.tid, k.current[e.tid].call)
  {
    hide Pending, Issued, Spent;
    var c := k.current[e.tid].call;
    assert c.tid == e.tid;
    hide Threads;
    if !c.reply && e.tid in k.maps.pending {
      PendingFresh(k, target, e.tid);
      var r := TracepointProgram(k.maps, c, e.room).1;
      if e.room { assert r.value.cookie == k.maps.pending[e.tid] && r.value !in k.out.sidebands; }
    }
  }

  /** Cookies pending for different threads differ. */
  lemma PendingApart(k: Kernel, target: u32, t: u32, u: u32)
    requires Pending(k, target) && t in k.maps.pending && u in k.maps.pending && t != u
    ensures k.maps.pending[t] != k.maps.pending[u]
  {
    hide Monitored;
  }

  lemma TraceSpent(k: Kernel, n: Kernel, target: u32, tid: u32, c: Call)
    requires Spent(k) && Pending(k, target) && CookieTaken(k, n, tid, c)
    ensures Spent(n)
  {
    forall t | t in k.maps.pending && tid in k.maps.pending && t != tid
      ensures k.maps.pending[t] != k.maps.pending[tid]
    {
      PendingApart(k, target, t, tid);
    }
    assert tid in k.maps.pending ==> k.maps.pending[tid] in k.issued;
    hide Pending;
  }

  lemma StepSpent(k: Kernel, target: u32, e: Event)
    requires KernelOk(k, target) && Spent(k) && Possible(k, e) && Assumed(k, e)
    ensures Spent(KernelStep(k, target, e))
  {
    hide KernelStep, Spent, CallEntered, CallCut, CookieMade, CookieTaken, Threads, Issued, Truthful, Once, Single;
    hide Pending, CookieOf;
    match e
    case Enter(c, _) =>
      EnterEffect(k, target, e);
      EnterSpent(k, KernelStep(k, target, e), target, c);
    case Cookie(tid, ts, cpu, _) =>
      CookieEffect(k, target, e);
      CookieSpent(k, KernelStep(k, target, e), target, tid, CookieOf(ts, cpu));
    case Trace(tid, _) =>
      TraceTakes(k, target, e);
      TraceSpent(k, KernelStep(k, target, e), target, tid, k.current[tid].call);
    case _ => EvictSpent(k, target, e);
  }

  lemma EvictSpent(k: Kernel, target: u32, e: Event)
    requires Spent(k) && (e.EvictTxid? || e.EvictPending?)
    ensures Spent(KernelStep(k, target, e))
  {}

  lemma {:induction false} RunSpent(target: u32, es: seq<Event>)
    requires Legal(target, es) && Sane(target, es)
    ensures Spent(KernelRun(target, es))
  {
    hide KernelStep, Possible, Assumed, KernelOk, Spent;
    if es == [] {
      BootSpent();
    } else {
      RunSpent(target, es[..|es| - 1]);
      KernelRunOk(target, es[..|es| - 1]);
      StepSpent(KernelRun(target, es[..|es| - 1]), target, es[|es| - 1]);
    }
  }

  lemma BootSpent()
    ensures Spent(Boot())
  {}

  /** The tracepoint of a request finds a cookie to take. */
  predicate Takes(k: Kernel, e: Event)
    requires Possible(k, e)
  {
    e.Trace? && !k.current[e.tid].call.reply && e.tid in k.maps.pending
  }

  function Taken(target: u32, es: seq<Event>): nat
    requires Legal(target, es)
  {
    if es == [] then 0 else
    Taken(target, es[..|es| - 1]) + if Takes(KernelRun(target, es[..|es| - 1]), es[|es| - 1]) then 1 else 0
  }

  /** Records submitted and records counted as lost. */
  function Accounted(k: Kernel): nat { |k.out.cookieRecords| + |k.out.sidebands| + k.maps.overflow }

  /** The cookie program submits the record of the cookie it makes, or counts it. */
  lemma CookieSubmits(k: Kernel, target: u32, e: Event)
    requires e.Cookie? && Possible(k, e) && CookieOf(e.ts, e.cpu) != 0
    requires var c := k.current[e.tid].call;
             !c.reply && Passes(target, c.uid) && c.tid in k.maps.txids && k.maps.txids[c.tid] != 0
    ensures var n, c := KernelStep(k, target, e), k.current[e.tid].call;
            && n.out.sidebands == k.out.sidebands
            && n.maps.overflow == k.maps.overflow + (if e.room then 0 else 1)
            && n.out.cookieRecords == k.out.cookieRecords +
                 if e.room then {CookieRecord(CookieOf(e.ts, e.cpu), k.maps.txids[c.tid])} else {}
  {
    hide CookieOf;
  }

  lemma CookieReady(k: Kernel, target: u32, tid: u32)
    requires Threads(k, target) && Issued(k, target) && tid in k.current && k.current[tid].stage == Entered
    requires !k.current[tid].call.reply && Monitored(target, k.current[tid].call)
    ensures var c := k.current[tid].call;
            Passes(target, c.uid) && c.tid in k.maps.txids && k.maps.txids[c.tid] != 0
  {
    hide CookieOf;
  }

  lemma CookieAccounted(k: Kernel, target: u32, e: Event)
    requires KernelOk(k, target) && e.Cookie? && Possible(k, e)
    ensures var n := KernelStep(k, target, e); Accounted(n) - Accounted(k) == |n.issued| - |k.issued|
  {
    hide CookieOf, Threads, Pending, Issued, Truthful, Once, Single, KernelStep, Monitored;
    CookieEffect(k, target, e);
    var n, cookie, c := KernelStep(k, target, e), CookieOf(e.ts, e.cpu), k.current[e.tid].call;
    if !c.reply && Monitored(target, c) {
      CookieReady(k, target, e.tid);
      CookieSubmits(k, target, e);
      OneMoreKey(k.issued, cookie, c);
      FreshRecord(k, target, CookieRecord(cookie, k.maps.txids[c.tid]));
    }
  }

  lemma OneMoreKey(issued: map<u64, Call>, cookie: u64, c: Call)
    requires cookie !in issued
    ensures |issued[cookie := c]| == |issued| + 1
  {
    assert issued[cookie := c].Keys == issued.Keys + {cookie};
    assert |issued[cookie := c]| == |issued[cookie := c].Keys| && |issued| == |issued.Keys|;
  }

  lemma FreshRecord(k: Kernel, target: u32, r: CookieRecord)
    requires Truthful(k, target) && r.cookie !in k.issued
    ensures |k.out.cookieRecords + {r}| == |k.out.cookieRecords| + 1
  {
    hide FromCall;
    assert r !in k.out.cookieRecords;
  }

  lemma TraceAccounted(k: Kernel, target: u32, e: Event)
    requires KernelOk(k, target) && Spent(k) && e.Trace? && Possible(k, e)
    ensures var n := KernelStep(k, target, e);
            Accounted(n) - Accounted(k) == (if Takes(k, e) then 1 else 0) && n.issued == k.issued
  {
    hide Threads, Truthful, Once, Single, Pending, Issued, KernelStep;
    TraceTakes(k, target, e);
    var n := KernelStep(k, target, e);
    if Takes(k, e) && n.out.sidebands != k.out.sidebands {
      var b: Sideband :| b.cookie == k.maps.pending[e.tid] && n.out.sidebands == k.out.sidebands + {b};
      assert b !in k.out.sidebands;
    }
  }

  lemma OtherAccounted(k: Kernel, target: u32, e: Event)
    requires Possible(k, e) && !e.Cookie? && !e.Trace?
    ensures var n := KernelStep(k, target, e); Accounted(n) == Accounted(k) && n.issued == k.issued
  {
    hide ChunksFrom, ChunkCount;
  }

  /** In every run each cookie made and each cookie taken gave a record or is in the overflow counter, once. */
  lemma {:induction false} RunAccounted(target: u32, es: seq<Event>)
    requires Legal(target, es) && Sane(target, es)
    ensures var k := KernelRun(target, es); Accounted(k) == |k.issued| + Taken(target, es)
  {
    hide KernelStep, Possible, Assumed, KernelOk, Spent, Takes, Accounted;
    if es == [] {
      BootAccounted();
    } else {
      var front, e := es[..|es| - 1], es[|es| - 1];
      var k := KernelRun(target, front);
      RunAccounted(target, front);
      RunSpent(target, front);
      KernelRunOk(target, front);
      if !e.Trace? { NotTaken(k, e); }
      match e
      case Cookie(_, _, _, _) => CookieAccounted(k, target, e);
      case Trace(_, _) => TraceAccounted(k, target, e);
      case _ => OtherAccounted(k, target, e);
    }
  }

  lemma NotTaken(k: Kernel, e: Event)
    requires Possible(k, e) && !e.Trace?
    ensures !Takes(k, e)
  {}

  lemma BootAccounted()
    ensures Accounted(Boot()) == 0
  {}
}
