/** What the probes' chunks are to the daemon, and a run in which a thread id changes its uid. */
module CrossPairing {
  import opened Types
  import opened KeyedList
  import opened CollectorModel
  import opened CollectorProvenance
  import opened Reassembly
  import opened ProbeModel
  import opened EndToEnd

  // The probe's cut fits the daemon's reassembly

  lemma {:induction false} ChunksFromAll(c: Call, i: nat, ring: seq<Option<ChunkData>>)
    requires i <= ChunkCount(c) <= MAX_CHUNKS && ChunkCount(c) <= |ring|
    requires forall k :: 0 <= k < ChunkCount(c) ==> ring[k].Some?
    ensures |ChunksFrom(c, i, ring)| == ChunkCount(c) - i
    decreases MAX_CHUNKS - i
  {
    hide ChunkCount, ChunkAt;
    if i < ChunkCount(c) {
      CountBounds(c, i);
      ChunksFromAll(c, i + 1, ring);
    }
  }

  lemma ChunkIsPiece(c: Call, i: nat, before: ChunkData)
    requires 0 < |c.parcel| <= CHUNK_SIZE * MAX_CHUNKS && i < TotalChunks(|c.parcel|)
    requires i * CHUNK_SIZE <= |c.parcel|
    ensures i < MAX_CHUNKS && Piece(ChunkAt(c, i, before), c.parcel)
  {
    TotalChunksOf(c.parcel);
    ChunkHolds(c, i, before);
  }

  /** With room in the ring, the main program submits every piece of a parcel of 1 to 16384 bytes once. */
  lemma ProbeCuts(c: Call, ring: seq<Option<ChunkData>>)
    requires 0 < |c.parcel| <= CHUNK_SIZE * MAX_CHUNKS
    requires ChunkCount(c) <= |ring| && forall k :: 0 <= k < ChunkCount(c) ==> ring[k].Some?
    ensures ChunkCount(c) <= MAX_CHUNKS
    ensures Pieces(ChunksFrom(c, 0, ring), c.parcel) && Whole(ChunksFrom(c, 0, ring), c.parcel)
  {
    TotalChunksOf(c.parcel);
    assert ChunkCount(c) == TotalChunks(|c.parcel|);
    hide Piece, ChunkCount, ChunksFrom, TotalChunks;
    var cs := ChunksFrom(c, 0, ring);
    ChunksFromIndices(c, 0, ring);
    ChunksFromAll(c, 0, ring);
    forall x | x in cs ensures Piece(x, c.parcel) {
      var k :| 0 <= k < |cs| && cs[k] == x;
      assert IsChunkAt(c, 0 + k, ring, x);
      ChunkIsPiece(c, k, ring[k].value);
    }
    forall i | 0 <= i < TotalChunks(|c.parcel|) ensures HasIndex(cs, i) {
      assert cs[i] in cs && IsChunkAt(c, 0 + i, ring, cs[i]);
    }
    forall i, j | 0 <= i < j < |cs| ensures cs[i].index != cs[j].index {
      assert IsChunkAt(c, 0 + i, ring, cs[i]) && IsChunkAt(c, 0 + j, ring, cs[j]);
    }
  }

  lemma {:induction false} DistinctCount(cs: seq<Chunk>, x: Chunk)
    requires DistinctIndices(cs)
    ensures multiset(cs)[x] <= 1
  {
    if cs != [] {
      var front := cs[..|cs| - 1];
      assert cs == front + [cs[|cs| - 1]];
      DistinctCount(front, x);
      if x == cs[|cs| - 1] {
        assert x !in front;
        assert multiset(front)[x] == 0;
      }
    }
  }

  /** Pieces may come in any order. */
  lemma AnyOrder(cs: seq<Chunk>, ds: seq<Chunk>, parcel: Bytes)
    requires multiset(cs) == multiset(ds) && Pieces(ds, parcel) && Whole(ds, parcel)
    ensures Pieces(cs, parcel) && Whole(cs, parcel)
  {
    hide Piece, TotalChunks;
    assert forall c :: c in cs <==> c in multiset(cs);
    assert forall c :: c in ds <==> c in multiset(ds);
    forall i, j | 0 <= i < j < |cs| ensures cs[i].index != cs[j].index {
      assert cs[i] in ds && cs[j] in ds;
      DistinctCount(ds, cs[i]);
      if cs[i] == cs[j] { TwiceCounts(cs, i, j); }
    }
    forall i | 0 <= i < TotalChunks(|parcel|) ensures HasIndex(cs, i) {
      assert HasIndex(ds, i);
      var d :| d in ds && d.index == i;
      assert d in cs;
    }
  }

  /** Chunk round trip: the chunks the main program submits for a call, handled by the daemon once
      each in any order among anything else, build exactly one event; it has the call's metadata
      and its parcel, byte for byte, whatever the ring held before. */
  lemma ChunkRoundTrip(c: Call, ring: seq<Option<ChunkData>>, inputs: seq<Input>)
    requires 0 < |c.parcel| <= CHUNK_SIZE * MAX_CHUNKS
    requires ChunkCount(c) <= |ring| && (forall k :: 0 <= k < ChunkCount(c) ==> ring[k].Some?)
    requires ChunkCount(c) <= MAX_CHUNKS && multiset(ChunksOf(inputs, c.txid)) == multiset(ChunksFrom(c, 0, ring))
    requires Timely(UpToLast(inputs, c.txid), c.txid)
    ensures ChunksOf(inputs, c.txid) != []
    ensures EventsOf(Run(Init(), inputs).hist.completed, c.txid)
            == [EventFrom(c.txid, MetaOf(c), c.parcel, LastTime(inputs, c.txid))]
  {
    hide ChunkCount, ChunksFrom, Run, Pieces, Whole, EventsOf, Timely, UpToLast;
    ProbeCuts(c, ring);
    var cs := ChunksOf(inputs, c.txid);
    AnyOrder(cs, ChunksFrom(c, 0, ring), c.parcel);
    RunReassembles(inputs, c.txid, c.parcel);
    ChunksAre(c, 0, ring);
    assert cs[0] in multiset(cs);
  }

  // A run with cross-pairing

  const TARGET: u32 := 10000

  function Zeros(): ChunkData { seq(CHUNK_SIZE, _ => 0) }

  function SmallCall(uid: u32, txid: u64, debugId: u64): Call {
    Call(1, 1, uid, false, false, txid, 1, 0, seq(32, _ => 0), 0, 1, None, debugId, 0, 0, 0)
  }

  /** A monitored call on thread 1 fails before its tracepoint; then thread 1 runs a call under a uid
      that is not monitored. */
  function BadEvents(): seq<Event> {
    [Enter(SmallCall(TARGET, 100, 7), [Some(Zeros())]), Cookie(1, 5, 0, true),
     Enter(SmallCall(20000, 200, 8), []), Cookie(1, 6, 0, true), Trace(1, true)]
  }

  function BadChunk(): Chunk { ChunkAt(SmallCall(TARGET, 100, 7), 0, Zeros()) }

  function BadInputs(): seq<Input> {
    [ChunkIn(BadChunk(), 0, 0, []), CookieIn(CookieRecord(0x500, 100), 0, 0, []),
     SidebandIn(Sideband(0x500, 8, 0, 0, 0), 0)]
  }

  function BadCookies(): map<u64, Call> { map[0x500 := SmallCall(TARGET, 100, 7)] }

  function K1(): Kernel {
    Kernel(Maps(map[1 := 100], map[], 0), map[1 := Current(SmallCall(TARGET, 100, 7), Entered)],
           {SmallCall(TARGET, 100, 7)}, {}, map[], Seen({BadChunk()}, {}, {}))
  }

  function K2(): Kernel {
    K1().(maps := Maps(map[1 := 100], map[1 := 0x500], 0),
          current := map[1 := Current(SmallCall(TARGET, 100, 7), Cookied)],
          stamps := {(5, 0)}, issued := BadCookies(),
          out := Seen({BadChunk()}, {}, {CookieRecord(0x500, 100)}))
  }

  function K3(): Kernel {
    K2().(current := map[1 := Current(SmallCall(20000, 200, 8), Entered)],
          calls := {SmallCall(TARGET, 100, 7), SmallCall(20000, 200, 8)})
  }

  function K4(): Kernel {
    K3().(current := map[1 := Current(SmallCall(20000, 200, 8), Cookied)], stamps := {(5, 0), (6, 0)})
  }

  function K5(): Kernel {
    K4().(maps := Maps(map[1 := 100], map[], 0), current := map[1 := Current(SmallCall(20000, 200, 8), Traced)],
          out := Seen({BadChunk()}, {Sideband(0x500, 8, 0, 0, 0)}, {CookieRecord(0x500, 100)}))
  }

  lemma Bad1()
    ensures Possible(Boot(), BadEvents()[0]) && KernelStep(Boot(), TARGET, BadEvents()[0]) == K1()
  {
    BadSubmitted();
    hide ChunksFrom, ChunkCount, ChunkAt;
  }

  lemma Bad2()
    ensures Possible(K1(), BadEvents()[1]) && KernelStep(K1(), TARGET, BadEvents()[1]) == K2()
  {
    hide ChunkAt;
    assert 1 in K2().maps.pending;
  }

  lemma Bad3()
    ensures Possible(K2(), BadEvents()[2]) && KernelStep(K2(), TARGET, BadEvents()[2]) == K3()
  {
    hide ChunkAt, ChunksFrom;
  }

  lemma Bad4()
    ensures Possible(K3(), BadEvents()[3]) && KernelStep(K3(), TARGET, BadEvents()[3]) == K4()
  {
    hide ChunkAt;
  }

  lemma Bad5()
    ensures Possible(K4(), BadEvents()[4]) && KernelStep(K4(), TARGET, BadEvents()[4]) == K5()
  {
    hide ChunkAt;
  }

  lemma BadKernel()
    ensures Legal(TARGET, BadEvents()) && Sane(TARGET, BadEvents()) && KernelRun(TARGET, BadEvents()) == K5()
  {
    hide Legal, KernelRun, Possible, KernelStep, K1, K2, K3, K4, K5, Sane;
    var e := BadEvents();
    assert e[..1] == [] + [e[0]] && e[..2] == e[..1] + [e[1]] && e[..3] == e[..2] + [e[2]];
    assert e[..4] == e[..3] + [e[3]] && e == e[..4] + [e[4]];
    NoEvents();
    Bad1();
    KernelLast(TARGET, [], e[0]);
    Bad2();
    KernelLast(TARGET, e[..1], e[1]);
    Bad3();
    KernelLast(TARGET, e[..2], e[2]);
    Bad4();
    KernelLast(TARGET, e[..3], e[3]);
    Bad5();
    KernelLast(TARGET, e[..4], e[4]);
    BadSane();
  }

  lemma NoEvents()
    ensures Legal(TARGET, []) && KernelRun(TARGET, []) == Boot()
  {
  }

  lemma BadSubmitted()
    ensures ChunkCount(SmallCall(TARGET, 100, 7)) == 1
    ensures ChunksFrom(SmallCall(TARGET, 100, 7), 0, [Some(Zeros())]) == [BadChunk()]
  {
  }

  lemma {:induction false} SaneAll(target: u32, es: seq<Event>)
    requires Legal(target, es) && forall e :: e in es ==> !e.EvictTxid? && (e.Enter? ==> !e.call.trNull)
    ensures Sane(target, es)
  {
    hide Possible, KernelStep;
    if es != [] { SaneAll(target, es[..|es| - 1]); }
  }

  lemma BadSane()
    requires Legal(TARGET, BadEvents())
    ensures Sane(TARGET, BadEvents())
  {
    hide Legal, Sane;
    SaneAll(TARGET, BadEvents());
  }

  // The daemon on the records of that run

  lemma RunThree(a: Input, b: Input, c: Input)
    ensures Run(Init(), [a, b, c]) == Step(Step(Step(Init(), a), b), c)
  {
    hide Step;
    assert [a][..0] == [];
    assert Run(Init(), [a]) == Step(Init(), a);
    assert [a, b][..1] == [a];
    assert Run(Init(), [a, b]) == Step(Step(Init(), a), b);
    assert [a, b, c][..2] == [a, b];
  }

  function BadMain(): MainEvent {
    EventFrom(100, MetaOf(SmallCall(TARGET, 100, 7)), SmallCall(TARGET, 100, 7).parcel, 0)
  }

  lemma BadPiece()
    ensures Pieces([] + [BadChunk()], SmallCall(TARGET, 100, 7).parcel)
    ensures Whole([] + [BadChunk()], SmallCall(TARGET, 100, 7).parcel)
  {
    var c := SmallCall(TARGET, 100, 7);
    ChunkIsPiece(c, 0, Zeros());
    assert TotalChunks(|c.parcel|) == 1;
    assert BadChunk() in [BadChunk()] && HasIndex([BadChunk()], 0);
  }

  /** The chunk parks the monitored call's event under its transaction id. */
  lemma BadParked()
    ensures var s := Step(Init(), BadInputs()[0]);
            && 100 !in s.buffers && s.emitted == [] && s.main.items == map[]
            && 100 in s.byTxid.items && s.byTxid.items[100].value == BadMain()
            && |s.main.list.nodes| == 0
  {
    hide ChunkAt, TakeChunk, Deliver, MaybeCleanup, RouteMain, Pieces, Whole, Trim, Trimmed, Merge, Opened;
    var c := BadChunk();
    BadPiece();
    LastStep(Init(), c, 0, 0, [], [], SmallCall(TARGET, 100, 7).parcel);
    var n := NoteChunk(Init(), c);
    var t := TakeChunk(n, c, 0);
    TakeChunkFrame(n, c, 0);
    BadMeta();
    DeliverCases(t, 100, 0);
    BadRoute(t.(buffers := t.buffers - {100}));
    CleanupFrame(Deliver(t, 100, 0), 0, 0, []);
  }

  lemma BadMeta()
    ensures TakeChunk(NoteChunk(Init(), BadChunk()), BadChunk(), 0).buffers[100].meta.cookie == 0
    ensures BadChunk().txid == 100 && BadChunk().meta == MetaOf(SmallCall(TARGET, 100, 7))
  {
  }

  lemma BadRoute(s: State)
    requires s.byTxid == KeyedList.Empty() && s.main == KeyedList.Empty() && s.emitted == []
    ensures var r := RouteMain(s, BadMain(), 0, 100, 0);
            && r.emitted == [] && r.main == s.main && 100 in r.byTxid.items && r.byTxid.items[100].value == BadMain()
  {
  }

  /** A thread id that changes its uid can get a request paired with another transaction: the run is
      possible, all records come from the probes, and the event emitted is no call's own. */
  lemma UidChangeCrossPairs()
    ensures Legal(TARGET, BadEvents()) && Sane(TARGET, BadEvents())
    ensures Grows(SeenIn(BadInputs()), KernelRun(TARGET, BadEvents()).out)
    ensures exists m :: m in Run(Init(), BadInputs()).emitted
                        && forall c :: c in KernelRun(TARGET, BadEvents()).calls ==> !OwnEvent(m, c)
  {
    hide Legal, Sane, KernelRun, ChunkAt, Run, Step, OwnEvent, SmallCall, Grows;
    BadKernel();
    var i := BadInputs();
    RunThree(i[0], i[1], i[2]);
    BadPaired();
    var m := Merged(BadMain(), i[2].sideband);
    assert m in Run(Init(), i).emitted;
    NotOwn();
    BadSeen();
  }

  lemma NotOwn()
    ensures forall c :: c in {SmallCall(TARGET, 100, 7), SmallCall(20000, 200, 8)} ==>
              !OwnEvent(Merged(BadMain(), Sideband(0x500, 8, 0, 0, 0)), c)
  {
  }

  lemma BadSeen()
    ensures Grows(SeenIn(BadInputs()), K5().out)
  {
    hide ChunkAt;
    assert forall i :: i in BadInputs() <==> i == BadInputs()[0] || i == BadInputs()[1] || i == BadInputs()[2];
  }

  lemma BadPaired()
    ensures var i := BadInputs();
            Step(Step(Step(Init(), i[0]), i[1]), i[2]).emitted == [Merged(BadMain(), i[2].sideband)]
  {
    hide HandleChunk, ChunkAt, Without;
    BadParked();
    var s := Step(Init(), BadInputs()[0]);
    var t := Step(s, BadInputs()[1]);
    assert t == Activate(NoteCookie(s, CookieRecord(0x500, 100)), 100, 0x500);
    assert t.emitted == [] && 0x500 in t.main.items && t.main.items[0x500].value == BadMain();
  }

  // The same call when its tracepoint runs

  function GoodEvents(): seq<Event> { BadEvents()[..2] + [Trace(1, true)] }

  function GoodInputs(): seq<Input> { BadInputs()[..2] + [SidebandIn(Sideband(0x500, 7, 0, 0, 0), 0)] }

  function KGood(): Kernel {
    K2().(maps := Maps(map[1 := 100], map[], 0), current := map[1 := Current(SmallCall(TARGET, 100, 7), Traced)],
          out := Seen({BadChunk()}, {Sideband(0x500, 7, 0, 0, 0)}, {CookieRecord(0x500, 100)}))
  }

  lemma GoodTrace()
    ensures Possible(K2(), Trace(1, true)) && KernelStep(K2(), TARGET, Trace(1, true)) == KGood()
  {
    hide ChunkAt;
  }

  lemma GoodKernel()
    ensures Legal(TARGET, GoodEvents()) && Sane(TARGET, GoodEvents()) && AllFiltered(TARGET, GoodEvents())
    ensures KernelRun(TARGET, GoodEvents()) == KGood()
  {
    hide Legal, KernelRun, Possible, KernelStep, K1, K2, KGood, Sane, AllFiltered;
    var e := GoodEvents();
    assert e[..1] == [] + [e[0]] && e[..2] == e[..1] + [e[1]] && e == e[..2] + [e[2]];
    NoEvents();
    Bad1();
    KernelLast(TARGET, [], e[0]);
    Bad2();
    KernelLast(TARGET, e[..1], e[1]);
    GoodTrace();
    KernelLast(TARGET, e[..2], e[2]);
    GoodSane();
  }

  lemma GoodSane()
    requires Legal(TARGET, GoodEvents())
    ensures Sane(TARGET, GoodEvents()) && AllFiltered(TARGET, GoodEvents())
  {
    hide Legal, Sane, AllFiltered;
    SaneAll(TARGET, GoodEvents());
    SteadyFiltered(TARGET, GoodEvents(), _ => TARGET);
  }

  lemma GoodSeen()
    ensures Grows(SeenIn(GoodInputs()), KGood().out)
  {
    hide ChunkAt;
    assert forall i :: i in GoodInputs() <==> i == GoodInputs()[0] || i == GoodInputs()[1] || i == GoodInputs()[2];
  }

  lemma GoodPaired()
    ensures var i := GoodInputs();
            Step(Step(Step(Init(), i[0]), i[1]), i[2]).emitted == [Merged(BadMain(), i[2].sideband)]
  {
    hide HandleChunk, ChunkAt, Without;
    BadParked();
    var s := Step(Init(), GoodInputs()[0]);
    var t := Step(s, GoodInputs()[1]);
    assert t == Activate(NoteCookie(s, CookieRecord(0x500, 100)), 100, 0x500);
    assert t.emitted == [] && 0x500 in t.main.items && t.main.items[0x500].value == BadMain();
  }

  /** An ordinary run meets everything NoCrossPairing asks, and pairs its request with its own debug id. */
  lemma OrdinaryRunPairs()
    ensures Legal(TARGET, GoodEvents()) && Sane(TARGET, GoodEvents()) && AllFiltered(TARGET, GoodEvents())
    ensures Grows(SeenIn(GoodInputs()), KernelRun(TARGET, GoodEvents()).out)
    ensures var emitted := Run(Init(), GoodInputs()).emitted;
            |emitted| == 1 && emitted[0].txid == 100 && emitted[0].event.pairId == 7
  {
    hide Legal, Sane, KernelRun, ChunkAt, Run, Step, Grows, AllFiltered;
    GoodKernel();
    GoodSeen();
    var i := GoodInputs();
    assert i == [i[0], i[1], i[2]];
    RunThree(i[0], i[1], i[2]);
    GoodPaired();
  }
}
