/** Probes and daemon together: an emitted event never carries another transaction's debug id. */
module EndToEnd {
  import opened Types
  import opened CollectorModel
  import opened CollectorProvenance
  import opened Reassembly
  import opened ParcelOrigin
  import opened ProbeModel

  /** The call is one the filter asks for: a request by its own uid, a reply by that of whoever it answers. */
  predicate Monitored(target: u32, c: Call) {
    target == 0 || if c.reply then c.repliesTo.Some? && c.repliesTo.value.1 == target else c.uid == target
  }

  // The kernel side as a state machine over program executions

  datatype Stage = Entered | Cookied | Traced

  /** The call a thread is in, and which programs have run for it. */
  datatype Current = Current(call: Call, stage: Stage)

  /** `calls`, `stamps`, `issued` and `out` are history: the calls made, the clock readings used for
      cookies, the call each cookie was made for, and the records submitted. */
  datatype Kernel = Kernel(
    maps: Maps, current: map<u32, Current>,
    calls: set<Call>, stamps: set<(u64, u32)>, issued: map<u64, Call>, out: Seen)

  /** Evictions are those of the two LRU maps, which may drop an entry at any time. */
  datatype Event =
    | Enter(call: Call, ring: seq<Option<ChunkData>>)
    | Cookie(tid: u32, ts: u64, cpu: u32, room: bool)
    | Trace(tid: u32, room: bool)
    | EvictTxid(tid: u32)
    | EvictPending(tid: u32)

  function Boot(): Kernel { Kernel(Maps(map[], map[], 0), map[], {}, {}, map[], Seen({}, {}, {})) }

  /** What the machine guarantees: the programs of one call run in order on its thread, clock
      readings used as transaction ids are nonzero and distinct, and so are those used for cookies. */
  predicate Possible(k: Kernel, e: Event) {
    match e
    case Enter(c, _) =>
      && (c.tid in k.current ==> k.current[c.tid].stage != Entered)
      && c.txid != 0 && (forall d :: d in k.calls ==> d.txid != c.txid)
    case Cookie(tid, ts, cpu, _) =>
      && tid in k.current && k.current[tid].stage == Entered
      && 0 < ts < 0x100_0000_0000_0000 && cpu < 0x100 && (ts, cpu) !in k.stamps
    case Trace(tid, _) => tid in k.current && k.current[tid].stage == Cookied
    case _ => true
  }

  function Opt<T>(o: Option<T>): set<T> { if o.Some? then {o.value} else {} }

  function KernelStep(k: Kernel, target: u32, e: Event): Kernel
    requires Possible(k, e)
  {
    match e
    case Enter(c, ring) =>
      var (m, chunks) := MainProgram(k.maps, target, c, ring);
      k.(maps := m, current := k.current[c.tid := Current(c, Entered)], calls := k.calls + {c},
         out := k.out.(chunks := k.out.chunks + set x | x in chunks))
    case Cookie(tid, ts, cpu, room) =>
      var c := k.current[tid].call;
      var (m, r) := CookieProgram(k.maps, target, c, ts, cpu, room);
      k.(maps := m, current := k.current[tid := Current(c, Cookied)], stamps := k.stamps + {(ts, cpu)},
         issued := if m.pending == k.maps.pending then k.issued else k.issued[CookieOf(ts, cpu) := c],
         out := k.out.(cookieRecords := k.out.cookieRecords + Opt(r)))
    case Trace(tid, room) =>
      var c := k.current[tid].call;
      var (m, r) := TracepointProgram(k.maps, c, room);
      k.(maps := m, current := k.current[tid := Current(c, Traced)],
         out := k.out.(sidebands := k.out.sidebands + Opt(r)))
    case EvictTxid(tid) => k.(maps := k.maps.(txids := k.maps.txids - {tid}))
    case EvictPending(tid) => k.(maps := k.maps.(pending := k.maps.pending - {tid}))
  }

  predicate Legal(target: u32, es: seq<Event>)
    decreases |es|, 0
  {
    es == [] || (Legal(target, es[..|es| - 1]) && Possible(KernelRun(target, es[..|es| - 1]), es[|es| - 1]))
  }

  function KernelRun(target: u32, es: seq<Event>): Kernel
    requires Legal(target, es)
    decreases |es|, 1
  {
    if es == [] then Boot() else KernelStep(KernelRun(target, es[..|es| - 1]), target, es[|es| - 1])
  }

  lemma KernelLast(target: u32, es: seq<Event>, e: Event)
    requires Legal(target, es) && Possible(KernelRun(target, es), e)
    ensures Legal(target, es + [e]) && KernelRun(target, es + [e]) == KernelStep(KernelRun(target, es), target, e)
  {
    hide Possible, KernelStep;
    assert (es + [e])[..|es|] == es;
  }

  lemma {:induction false} EnteredCalls(target: u32, es: seq<Event>, e: Event)
    requires Legal(target, es) && e in es && e.Enter?
    ensures e.call in KernelRun(target, es).calls
  {
    hide Possible, MainProgram, CookieProgram, TracepointProgram;
    var front, last := es[..|es| - 1], es[|es| - 1];
    if e != last {
      assert es == front + [last];
      EnteredCalls(target, front, e);
    }
  }

  // Assumptions

  /** Calls have transaction data, and tid_to_txid_map does not drop an entry between the two
      programs that use it. */
  predicate Assumed(k: Kernel, e: Event) {
    && (e.Enter? ==> !e.call.trNull)
    && (e.EvictTxid? && e.tid in k.current ==> k.current[e.tid].stage != Entered)
  }

  /** When the tracepoint program finds a cookie, the call it runs in passes the uid filter.
      The program itself does not check this. */
  predicate Filtered(k: Kernel, target: u32, e: Event)
    requires Possible(k, e)
  {
    e.Trace? && e.tid in k.maps.pending && !k.current[e.tid].call.reply ==>
      Monitored(target, k.current[e.tid].call)
  }

  predicate Sane(target: u32, es: seq<Event>)
    requires Legal(target, es)
  {
    es == [] || (Sane(target, es[..|es| - 1]) && Assumed(KernelRun(target, es[..|es| - 1]), es[|es| - 1]))
  }

  predicate AllFiltered(target: u32, es: seq<Event>)
    requires Legal(target, es)
  {
    es == [] || (AllFiltered(target, es[..|es| - 1])
                 && Filtered(KernelRun(target, es[..|es| - 1]), target, es[|es| - 1]))
  }

  // Invariant

  ghost predicate Threads(k: Kernel, target: u32) {
    && (forall t :: t in k.current ==> k.current[t].call in k.calls && k.current[t].call.tid == t)
    && (forall t :: t in k.current && k.current[t].stage == Entered && !k.current[t].call.reply
                    && Monitored(target, k.current[t].call) ==>
          t in k.maps.txids && k.maps.txids[t] == k.current[t].call.txid)
  }

  /** A pending cookie was made for a call of its thread, and for the call in progress if that is
      a request that passes the filter and whose cookie program has run. */
  ghost predicate Pending(k: Kernel, target: u32) {
    forall t :: t in k.maps.pending ==>
      && k.maps.pending[t] in k.issued && k.issued[k.maps.pending[t]].tid == t
      && (t in k.current && k.current[t].stage == Cookied && !k.current[t].call.reply
          && Monitored(target, k.current[t].call) ==>
            k.issued[k.maps.pending[t]] == k.current[t].call)
  }

  ghost predicate Issued(k: Kernel, target: u32) {
    && (forall c :: c in k.issued ==>
          c != 0 && k.issued[c] in k.calls && !k.issued[c].reply && Monitored(target, k.issued[c]))
    && (forall c :: c in k.issued ==> exists s :: s in k.stamps && c == CookieOf(s.0, s.1))
    && (forall s :: s in k.stamps ==> s.0 < 0x100_0000_0000_0000 && s.1 < 0x100)
    && (forall a :: a in k.calls ==> a.txid != 0)
    && (forall a, b :: a in k.calls && b in k.calls && a.txid == b.txid ==> a == b)
  }

  ghost predicate FromCall(calls: set<Call>, target: u32, c: Chunk) {
    exists call :: call in calls && Monitored(target, call) && c.txid == call.txid && c.meta == MetaOf(call)
                   && Holds(c, call.parcel)
  }

  /** Every chunk has a monitored call's metadata and its part of that call's parcel, and every cookie record binds the
      cookie of its own call. */
  ghost predicate Truthful(k: Kernel, target: u32) {
    && (forall c :: c in k.out.chunks ==> FromCall(k.calls, target, c))
    && (forall r :: r in k.out.cookieRecords ==> r.cookie in k.issued && k.issued[r.cookie].txid == r.txid)
  }

  /** No chunk is submitted twice. */
  ghost predicate Once(k: Kernel) {
    forall c, d :: c in k.out.chunks && d in k.out.chunks && c.txid == d.txid && c.index == d.index ==> c == d
  }

  /** A call gets at most one cookie, and none before its cookie program runs. */
  ghost predicate Single(k: Kernel) {
    && (forall a, b :: a in k.issued && b in k.issued && k.issued[a] == k.issued[b] ==> a == b)
    && (forall t, a :: t in k.current && k.current[t].stage == Entered && a in k.issued ==>
          k.issued[a] != k.current[t].call)
  }

  /** The receiver's uid, where the kernel's layout lets the program read it. */
  function ReceiverUid(c: Call): u32 { if c.toUidUnsupported == 0 then c.toUid else 0 }

  /** Every sideband carries the debug id and the receiver of the call its cookie was made for. */
  ghost predicate Honest(k: Kernel) {
    forall b :: b in k.out.sidebands ==>
      && b.cookie in k.issued && b.debugId == k.issued[b.cookie].debugId && b.toPid == k.issued[b.cookie].toPid
      && b.toUid == ReceiverUid(k.issued[b.cookie])
      && (b.toUidUnsupported == 0 <==> k.issued[b.cookie].toUidUnsupported == 0)
  }

  ghost predicate KernelOk(k: Kernel, target: u32) {
    Threads(k, target) && Pending(k, target) && Issued(k, target) && Truthful(k, target) && Once(k) && Single(k)
  }

  lemma {:induction false} ChunksAre(c: Call, i: nat, ring: seq<Option<ChunkData>>)
    requires i <= MAX_CHUNKS && ChunkCount(c) <= MAX_CHUNKS
    ensures forall x :: x in ChunksFrom(c, i, ring) ==> x.txid == c.txid && x.meta == MetaOf(c) && Holds(x, c.parcel)
    decreases MAX_CHUNKS - i
  {
    hide ChunkCount, Holds;
    if i < ChunkCount(c) && i < |ring| && ring[i].Some? {
      CountBounds(c, i);
      ChunkHolds(c, i, ring[i].value);
      ChunksAre(c, i + 1, ring);
    }
  }

  /** What the main program does, given that the call has transaction data. */
  ghost predicate CallEntered(k: Kernel, n: Kernel, target: u32, c: Call) {
    && (forall d :: d in k.calls ==> d.txid != c.txid) && c.txid != 0
    && n.current == k.current[c.tid := Current(c, Entered)] && n.calls == k.calls + {c}
    && n.maps.pending == k.maps.pending && n.issued == k.issued && n.stamps == k.stamps
    && n.maps.txids == (if !c.reply && Monitored(target, c) then k.maps.txids[c.tid := c.txid] else k.maps.txids)
    && n.out.sidebands == k.out.sidebands && n.out.cookieRecords == k.out.cookieRecords
  }

  /** The chunks it submits. */
  ghost predicate CallCut(k: Kernel, n: Kernel, target: u32, c: Call) {
    && (forall x :: x in n.out.chunks ==>
          x in k.out.chunks
          || (x.txid == c.txid && x.meta == MetaOf(c) && Holds(x, c.parcel) && Monitored(target, c)))
    && (forall x, y :: x in n.out.chunks - k.out.chunks && y in n.out.chunks - k.out.chunks && x.index == y.index
          ==> x == y)
  }

  lemma EnterEffect(k: Kernel, target: u32, e: Event)
    requires e.Enter? && Possible(k, e) && !e.call.trNull
    ensures CallEntered(k, KernelStep(k, target, e), target, e.call)
    ensures CallCut(k, KernelStep(k, target, e), target, e.call)
  {
    hide ChunksFrom, ChunkCount, IsChunkAt, Holds;
    if ChunkCount(e.call) <= MAX_CHUNKS {
      ChunksAre(e.call, 0, e.ring);
      ChunksApart(e.call, e.ring);
    }
  }

  lemma ChunksApart(c: Call, ring: seq<Option<ChunkData>>)
    requires ChunkCount(c) <= MAX_CHUNKS
    ensures var cs := ChunksFrom(c, 0, ring); forall x, y :: x in cs && y in cs && x.index == y.index ==> x == y
  {
    hide ChunksFrom, ChunkCount;
    ChunksFromIndices(c, 0, ring);
    var cs := ChunksFrom(c, 0, ring);
    forall x, y | x in cs && y in cs && x.index == y.index ensures x == y {
      var i :| 0 <= i < |cs| && cs[i] == x;
      var j :| 0 <= j < |cs| && cs[j] == y;
      assert IsChunkAt(c, 0 + i, ring, cs[i]) && IsChunkAt(c, 0 + j, ring, cs[j]);
    }
  }

  lemma EnterThreads(k: Kernel, n: Kernel, target: u32, c: Call)
    requires CallEntered(k, n, target, c)
    requires Threads(k, target) && Pending(k, target)
    ensures Threads(n, target) && Pending(n, target)
  {
  }

  lemma EnterIssued(k: Kernel, n: Kernel, target: u32, c: Call)
    requires CallEntered(k, n, target, c) && Issued(k, target) && Single(k)
    ensures Issued(n, target) && Single(n)
  {
    hide CookieOf;
  }

  lemma EnterTruthful(k: Kernel, n: Kernel, target: u32, c: Call)
    requires CallEntered(k, n, target, c) && CallCut(k, n, target, c) && Truthful(k, target) && Once(k)
    ensures Truthful(n, target) && Once(n)
  {
    hide Holds;
    assert c in n.calls;
    forall x | x in n.out.chunks ensures FromCall(n.calls, target, x) {
      if x in k.out.chunks { assert FromCall(k.calls, target, x); }
    }
    assert forall x :: x in k.out.chunks ==> FromCall(k.calls, target, x) && x.txid != c.txid;
  }

  lemma EnterOk(k: Kernel, target: u32, e: Event)
    requires KernelOk(k, target) && e.Enter? && Possible(k, e) && Assumed(k, e)
    ensures var n := KernelStep(k, target, e); KernelOk(n, target) && (Honest(k) ==> Honest(n))
  {
    hide KernelStep, CallCut, Threads, Pending, Issued, Truthful, Once, Single;
    EnterEffect(k, target, e);
    var n := KernelStep(k, target, e);
    EnterThreads(k, n, target, e.call);
    EnterIssued(k, n, target, e.call);
    EnterTruthful(k, n, target, e.call);
  }

  lemma FreshCookie(k: Kernel, target: u32, ts: u64, cpu: u32)
    requires Issued(k, target) && 0 < ts < 0x100_0000_0000_0000 && cpu < 0x100 && (ts, cpu) !in k.stamps
    ensures CookieOf(ts, cpu) !in k.issued && CookieOf(ts, cpu) != 0
  {
    if CookieOf(ts, cpu) in k.issued {
      var s :| s in k.stamps && CookieOf(ts, cpu) == CookieOf(s.0, s.1);
      CookieInjective(ts, cpu, s.0, s.1);
      assert false;
    }
  }

  /** For a request that passes the filter, the cookie program binds a fresh cookie to its call;
      otherwise it does nothing. */
  ghost predicate CookieMade(k: Kernel, n: Kernel, target: u32, tid: u32, cookie: u64) {
    && tid in k.current && k.current[tid].stage == Entered && cookie != 0 && cookie !in k.issued
    && n.current == k.current[tid := Current(k.current[tid].call, Cookied)] && n.calls == k.calls
    && n.out.chunks == k.out.chunks && n.out.sidebands == k.out.sidebands
    && var c := k.current[tid].call;
       if !c.reply && Monitored(target, c) then
         && n.maps.txids == k.maps.txids && n.maps.pending == k.maps.pending[tid := cookie]
         && n.issued == k.issued[cookie := c]
         && n.out.cookieRecords <= k.out.cookieRecords + {CookieRecord(cookie, c.txid)}
       else n.maps == k.maps && n.issued == k.issued && n.out == k.out
  }

  lemma CookieEffect(k: Kernel, target: u32, e: Event)
    requires KernelOk(k, target) && e.Cookie? && Possible(k, e)
    ensures CookieMade(k, KernelStep(k, target, e), target, e.tid, CookieOf(e.ts, e.cpu))
  {
    hide CookieOf, Honest;
    FreshCookie(k, target, e.ts, e.cpu);
    var c, n, cookie := k.current[e.tid].call, KernelStep(k, target, e), CookieOf(e.ts, e.cpu);
    if !c.reply && Monitored(target, c) {
      assert k.maps.txids[e.tid] == c.txid && c.txid != 0;
      assert n.maps.pending == k.maps.pending[e.tid := cookie];
      assert n.maps.pending[e.tid] == cookie;
      assert k.maps.pending != n.maps.pending;
    }
  }

  lemma CookieThreads(k: Kernel, n: Kernel, target: u32, tid: u32, cookie: u64)
    requires CookieMade(k, n, target, tid, cookie) && Threads(k, target) && Pending(k, target)
    ensures Threads(n, target) && Pending(n, target)
  {
  }

  lemma CookieTruthful(k: Kernel, n: Kernel, target: u32, tid: u32, cookie: u64)
    requires CookieMade(k, n, target, tid, cookie) && Truthful(k, target) && Once(k)
    ensures Truthful(n, target) && Once(n) && (Honest(k) ==> Honest(n))
  {
    hide FromCall;
  }

  lemma CookieSingle(k: Kernel, n: Kernel, target: u32, tid: u32, cookie: u64)
    requires CookieMade(k, n, target, tid, cookie) && Threads(k, target) && Single(k)
    ensures Single(n)
  {
  }

  lemma CookieIssued(k: Kernel, n: Kernel, target: u32, tid: u32, cookie: u64, stamp: (u64, u32))
    requires CookieMade(k, n, target, tid, cookie) && Issued(k, target) && Threads(k, target)
    requires n.stamps == k.stamps + {stamp} && cookie == CookieOf(stamp.0, stamp.1)
    requires stamp.0 < 0x100_0000_0000_0000 && stamp.1 < 0x100
    ensures Issued(n, target)
  {
    hide CookieOf;
    assert stamp in n.stamps;
    forall c | c in n.issued ensures exists s :: s in n.stamps && c == CookieOf(s.0, s.1) {
      if c in k.issued {
        var s :| s in k.stamps && c == CookieOf(s.0, s.1);
        assert s in n.stamps;
      }
    }
  }

  lemma CookieOk(k: Kernel, target: u32, e: Event)
    requires KernelOk(k, target) && e.Cookie? && Possible(k, e)
    ensures var n := KernelStep(k, target, e); KernelOk(n, target) && (Honest(k) ==> Honest(n))
  {
    hide CookieOf, CookieProgram, CookieMade, Threads, Pending, Honest, Issued, Truthful, Once, Single;
    CookieEffect(k, target, e);
    var n, cookie := KernelStep(k, target, e), CookieOf(e.ts, e.cpu);
    CookieThreads(k, n, target, e.tid, cookie);
    CookieTruthful(k, n, target, e.tid, cookie);
    CookieSingle(k, n, target, e.tid, cookie);
    CookieIssued(k, n, target, e.tid, cookie, (e.ts, e.cpu));
  }

  /** What tracepoints and evictions may do to the rest of the state: drop map entries and end a call's stage. */
  ghost predicate Shrinks(k: Kernel, n: Kernel) {
    && n.calls == k.calls && n.issued == k.issued && n.stamps == k.stamps
    && n.out.chunks == k.out.chunks && n.out.cookieRecords == k.out.cookieRecords
    && (forall t :: t in n.maps.pending ==> t in k.maps.pending && n.maps.pending[t] == k.maps.pending[t])
    && (forall t :: t in n.current ==>
          && t in k.current && n.current[t].call == k.current[t].call
          && (n.current[t].stage == k.current[t].stage || n.current[t].stage == Traced))
    && (forall t :: t in n.current && n.current[t].stage == Entered && t in k.maps.txids ==>
          t in n.maps.txids && n.maps.txids[t] == k.maps.txids[t])
  }

  lemma ShrinksThreads(k: Kernel, n: Kernel, target: u32)
    requires Shrinks(k, n) && Threads(k, target) && Pending(k, target)
    ensures Threads(n, target) && Pending(n, target)
  {
  }

  lemma ShrinksOk(k: Kernel, n: Kernel, target: u32)
    requires Shrinks(k, n) && KernelOk(k, target)
    ensures KernelOk(n, target)
  {
    hide CookieOf, FromCall, Threads, Pending;
    ShrinksThreads(k, n, target);
  }

  lemma TraceShrinks(k: Kernel, target: u32, e: Event)
    requires (e.Trace? && Possible(k, e)) || ((e.EvictTxid? || e.EvictPending?) && Assumed(k, e))
    ensures Shrinks(k, KernelStep(k, target, e))
  {
  }

  /** A tracepoint whose call passes the filter submits the debug id and the receiver of the call the cookie
      it consumes was made for. */
  lemma TraceHonest(k: Kernel, target: u32, e: Event)
    requires Threads(k, target) && Pending(k, target) && Honest(k)
    requires e.Trace? && Possible(k, e) && Filtered(k, target, e)
    ensures Honest(KernelStep(k, target, e))
  {
  }

  lemma StepOk(k: Kernel, target: u32, e: Event)
    requires KernelOk(k, target) && Possible(k, e) && Assumed(k, e)
    ensures var n := KernelStep(k, target, e);
            KernelOk(n, target) && (Honest(k) && Filtered(k, target, e) ==> Honest(n))
  {
    hide Possible, Assumed, Filtered, Threads, Issued, Truthful, Once, Single, Pending, Shrinks;
    hide MainProgram, CookieProgram, TracepointProgram;
    match e
    case Enter(_, _) => EnterOk(k, target, e);
    case Cookie(_, _, _, _) => CookieOk(k, target, e);
    case Trace(_, _) =>
      TraceShrinks(k, target, e);
      ShrinksOk(k, KernelStep(k, target, e), target);
      if Honest(k) && Filtered(k, target, e) { TraceHonest(k, target, e); }
    case _ =>
      TraceShrinks(k, target, e);
      ShrinksOk(k, KernelStep(k, target, e), target);
  }

  lemma {:induction false} KernelRunOk(target: u32, es: seq<Event>)
    requires Legal(target, es) && Sane(target, es)
    ensures KernelOk(KernelRun(target, es), target)
    ensures AllFiltered(target, es) ==> Honest(KernelRun(target, es))
  {
    hide KernelOk, KernelStep, Possible, Assumed, Filtered, Honest;
    if es == [] {
      BootOk(target);
    } else {
      KernelRunOk(target, es[..|es| - 1]);
      StepOk(KernelRun(target, es[..|es| - 1]), target, es[|es| - 1]);
    }
  }

  lemma BootOk(target: u32)
    ensures KernelOk(Boot(), target) && Honest(Boot())
  {
  }

  // The theorem

  /** What a request's event becomes once it is paired: the kernel's debug id and the receiver. */
  function PairedWith(e: BinderEvent, c: Call): BinderEvent {
    e.(pairId := c.debugId, toPid := c.toPid, toUid := ReceiverUid(c))
  }

  /** The event was built from what the probe could read during the call, and from its parcel. */
  ghost predicate BuiltFrom(m: MainEvent, c: Call) {
    && m.txid == c.txid && m.base.parcel == c.parcel && |c.parcel| <= CHUNK_SIZE * MAX_CHUNKS
    && m.base.pid == c.pid && m.base.uid == c.uid && m.base.code == c.code && m.base.flags == c.flags
    && m.base.isReply == (if c.reply then 1 else 0) && m.base.binderDev == c.binderDev
    && m.base.targetRef == c.targetRef && m.base.targetKind == 0 && m.base.toPid == 0 && m.base.toUid == 0
    && m.base.pairId == (if c.reply && c.repliesTo.Some? then c.repliesTo.value.0 else 0)
    && MetaKept(m.base, m.first) && m.first.dataSize == |c.parcel| && m.first.cookie == 0
  }

  /** The event is its own call's: metadata and parcel, and beyond them nothing or, for a request, that call's
      debug id and receiver. */
  ghost predicate OwnEvent(m: MainEvent, c: Call) {
    BuiltFrom(m, c) && (m.event == m.base || (!c.reply && m.event == PairedWith(m.base, c)))
  }

  /** No cross-pairing: whatever calls run on whatever threads, and whichever of the submitted
      records the daemon handles, in any order and any number of times, with sweeps anywhere,
      every emitted event is the event of one call: its metadata, its parcel byte for byte, and, if it was paired,
      the kernel's debug id and the receiver of that very call. A reply keeps the id of the transaction it answers. */
  lemma NoCrossPairing(target: u32, es: seq<Event>, inputs: seq<Input>, m: MainEvent)
    requires Legal(target, es) && Sane(target, es) && AllFiltered(target, es)
    requires Grows(SeenIn(inputs), KernelRun(target, es).out)
    requires m in Run(Init(), inputs).emitted
    ensures exists c :: c in KernelRun(target, es).calls && Monitored(target, c) && OwnEvent(m, c)
  {
    hide Run, Legal, KernelRun, Sane, AllFiltered, Holds, BytesSeen;
    RunProvenance(inputs, m);
    RunBytes(inputs, m);
    KernelRunOk(target, es);
    var k, seen := KernelRun(target, es), SeenIn(inputs);
    var first :| first in seen.chunks && first.txid == m.txid && first.meta == m.first;
    assert FromCall(k.calls, target, first);
    var c :| c in k.calls && Monitored(target, c) && first.txid == c.txid && first.meta == MetaOf(c);
    OwnParcel(k, target, seen, m, c);
    OwnRecords(k, target, seen, m, c);
  }

  /** Every byte comes from a chunk of the call, and so from its place in the call's parcel. */
  lemma OwnParcel(k: Kernel, target: u32, seen: Seen, m: MainEvent, c: Call)
    requires Issued(k, target) && Truthful(k, target) && Grows(seen, k.out) && Built(seen, m) && BytesSeen(seen, m)
    requires c in k.calls && m.txid == c.txid && m.first == MetaOf(c)
    ensures BuiltFrom(m, c)
  {
    hide Holds, CookieOf;
    forall p | 0 <= p < |c.parcel| ensures m.base.parcel[p] == c.parcel[p] {
      assert ByteSeen(seen, m, p);
      var x :| x in seen.chunks && x.txid == m.txid && x.index == p / CHUNK_SIZE
        && x.data[p % CHUNK_SIZE] == m.base.parcel[p];
      assert FromCall(k.calls, target, x);
      HoldsAt(x, c.parcel, p);
    }
    assert m.base.parcel == c.parcel;
  }

  lemma OwnRecords(k: Kernel, target: u32, seen: Seen, m: MainEvent, c: Call)
    requires Issued(k, target) && Truthful(k, target) && Honest(k) && Grows(seen, k.out)
    requires Sourced(seen, m) && c in k.calls && m.first == MetaOf(c) && BuiltFrom(m, c)
    ensures OwnEvent(m, c)
  {
    hide CookieOf, FirstOf, FromCall;
    if m.event != m.base {
      var sb :| sb in seen.sidebands && Bound(seen, m, sb.cookie) && FilledBy(m.base, sb, m.event);
      assert sb.cookie in k.issued && sb.cookie != 0;
      var r := CookieRecord(sb.cookie, m.txid);
      assert r in k.out.cookieRecords;
      assert k.issued[sb.cookie] == c;
    }
  }

  /** The condition is exact: in any run, the cookie the tracepoint program takes was made for the
      call it runs in if and only if that call passes the uid filter. */
  lemma TakesOwnCookie(target: u32, es: seq<Event>, tid: u32)
    requires Legal(target, es) && Sane(target, es)
    requires var k := KernelRun(target, es);
             tid in k.current && k.current[tid].stage == Cookied && !k.current[tid].call.reply && tid in k.maps.pending
    ensures var k := KernelRun(target, es);
            && k.maps.pending[tid] in k.issued
            && (k.issued[k.maps.pending[tid]] == k.current[tid].call <==> Monitored(target, k.current[tid].call))
  {
    hide CookieOf, KernelRun, Legal, Sane;
    KernelRunOk(target, es);
  }

  // Threads whose uid never changes

  predicate SteadyUids(es: seq<Event>, uidOf: u32 -> u32) {
    forall e :: e in es && e.Enter? ==> e.call.uid == uidOf(e.call.tid)
  }

  /** If the uid behind a thread id never changes, every tracepoint that finds a cookie is on a
      call that passes the filter, so there is no cross-pairing. */
  lemma {:induction false} SteadyFiltered(target: u32, es: seq<Event>, uidOf: u32 -> u32)
    requires Legal(target, es) && Sane(target, es) && SteadyUids(es, uidOf)
    ensures AllFiltered(target, es)
    ensures forall c :: c in KernelRun(target, es).calls ==> c.uid == uidOf(c.tid)
  {
    hide CookieOf, MainProgram, CookieProgram, TracepointProgram;
    if es != [] {
      var front, e := es[..|es| - 1], es[|es| - 1];
      SteadyFiltered(target, front, uidOf);
      KernelRunOk(target, front);
      assert e in es;
    }
  }
}

/** The probes driven call by call: what the programs do to the maps in place is a run of the state machine. */
module KernelMachine {
  import opened Types
  import opened CollectorModel
  import opened ProbeModel
  import opened Probes
  import opened EndToEnd

  class Machine {
    const target: u32
    const maps: ProbeMaps
    ghost var events: seq<Event>
    ghost var kernel: Kernel

    ghost predicate Valid()
      reads this, maps
    {
      Legal(target, events) && kernel == KernelRun(target, events) && maps.View() == kernel.maps
    }

    constructor (target: u32)
      ensures Valid() && this.target == target && events == [] && fresh(maps)
    {
      this.target := target;
      maps := new ProbeMaps();
      events, kernel := [], Boot();
    }

    /** The main program on a call of binder_transaction. */
    method Enter(c: Call, ring: seq<Option<ChunkData>>) returns (submitted: seq<Chunk>)
      requires Valid() && Possible(kernel, Event.Enter(c, ring))
      modifies this, maps
      ensures Valid() && events == old(events) + [Event.Enter(c, ring)]
      ensures kernel.out == old(kernel.out).(chunks := old(kernel.out.chunks) + set x | x in submitted)
    {
      hide Legal, KernelRun, MainProgram;
      submitted := maps.KprobeMain(target, c, ring);
      Happened(Event.Enter(c, ring));
    }

    /** The cookie program of the call in progress on the thread. */
    method Cookie(c: Call, ts: u64, cpu: u32, room: bool) returns (record: Option<CookieRecord>)
      requires Valid() && Possible(kernel, Event.Cookie(c.tid, ts, cpu, room)) && kernel.current[c.tid].call == c
      modifies this, maps
      ensures Valid() && events == old(events) + [Event.Cookie(c.tid, ts, cpu, room)]
      ensures kernel.out == old(kernel.out).(cookieRecords := old(kernel.out.cookieRecords) + Opt(record))
    {
      hide Legal, KernelRun, CookieProgram;
      record := maps.KprobeCookie(target, c, ts, cpu, room);
      Happened(Event.Cookie(c.tid, ts, cpu, room));
    }

    /** The tracepoint of the call in progress on the thread. */
    method Trace(c: Call, room: bool) returns (record: Option<Sideband>)
      requires Valid() && Possible(kernel, Event.Trace(c.tid, room)) && kernel.current[c.tid].call == c
      modifies this, maps
      ensures Valid() && events == old(events) + [Event.Trace(c.tid, room)]
      ensures kernel.out == old(kernel.out).(sidebands := old(kernel.out.sidebands) + Opt(record))
    {
      hide Legal, KernelRun, TracepointProgram;
      record := maps.RawTracepoint(c, room);
      Happened(Event.Trace(c.tid, room));
    }

    /** The kernel's LRU maps drop an entry. */
    method Evict(tid: u32, fromPending: bool)
      requires Valid()
      modifies this, maps
      ensures Valid() && events == old(events) + [if fromPending then EvictPending(tid) else EvictTxid(tid)]
    {
      hide Legal, KernelRun;
      if fromPending {
        maps.pendingMap := maps.pendingMap - {tid};
      } else {
        maps.tidToTxid := maps.tidToTxid - {tid};
      }
      Happened(if fromPending then EvictPending(tid) else EvictTxid(tid));
    }

    ghost method Happened(e: Event)
      requires Legal(target, events) && kernel == KernelRun(target, events) && Possible(kernel, e)
      requires maps.View() == KernelStep(kernel, target, e).maps
      modifies this
      ensures Valid() && events == old(events) + [e] && kernel == KernelStep(old(kernel), target, e)
    {
      hide Legal, KernelRun, KernelStep, Possible;
      KernelLast(target, events, e);
      kernel := KernelStep(kernel, target, e);
      events := events + [e];
    }

    /** What holds of the records submitted so far. */
    lemma Promises()
      requires Valid() && Sane(target, events)
      ensures KernelOk(kernel, target) && (AllFiltered(target, events) ==> Honest(kernel))
    {
      hide Legal, KernelRun, Sane, AllFiltered, KernelOk, Honest;
      KernelRunOk(target, events);
    }
  }
}
