/** One-way calls from the probes to the emitted event. */
module OnewayCalls {
  import opened Types
  import opened KeyedList
  import opened CollectorModel
  import opened CollectorProvenance
  import opened Reassembly
  import opened Pairing
  import opened OnewayPairing
  import opened ProbeModel
  import opened EndToEnd
  import opened CrossPairing
  import opened Lossless
  import opened CallPairing

  /** The records handled up to the call's last chunk: nothing of the call in `before`, all its chunks once in `during`
      and `last`, at most one sideband of its cookie, all within one second and with room in the maps. */
  ghost predicate DeliveredOneway(before: seq<Input>, during: seq<Input>, last: Input, c: Call,
                                  ring: seq<Option<ChunkData>>, cookie: u64, start: int)
    requires ChunkCount(c) <= MAX_CHUNKS
  {
    var x := RequestOf(c, cookie);
    && (forall i :: i in before ==>
          !IsChunkOf(i, c.txid) && !(i.CookieIn? && i.cookieRecord.txid == c.txid) && !IsSidebandOf(i, x))
    && IsChunkOf(last, c.txid)
    && (forall i :: i in during + [last] ==> InWindow(i, start))
    && (forall i :: i in during ==> InSecond(i, start))
    && (forall i, j :: 0 <= i < j < |during| && IsSidebandOf(during[i], x) ==> !IsSidebandOf(during[j], x))
    && (forall n :: 0 <= n <= |during + [last]| ==> Roomy(Run(Init(), before + (during + [last])[..n])))
    && (forall n :: 0 <= n <= |during| ==> OnewayRoom(Run(Init(), before + during[..n])))
    && multiset(ChunksOf(during + [last], c.txid)) == multiset(ChunksFrom(c, 0, ring))
  }

  lemma OnewayHolds(k: Kernel, target: u32, before: seq<Input>, during: seq<Input>, last: Input, c: Call,
                    ring: seq<Option<ChunkData>>, cookie: u64, start: int)
    requires KernelOk(k, target) && c in k.calls && CookieRecord(cookie, c.txid) in k.out.cookieRecords
    requires c.flags % 2 == 1 && 0 < |c.parcel| <= CHUNK_SIZE * MAX_CHUNKS && FullRing(c, ring)
    requires FedFrom(before + (during + [last]), k.out)
    requires DeliveredOneway(before, during, last, c, ring, cookie, start)
    ensures var x := RequestOf(c, cookie);
            && Scenario(before, during + [last], x, start) && OnewayScenario(before, during, x, start)
            && Whole(ChunksOf(during + [last], c.txid), c.parcel)
  {
    hide KernelOk, Fair, FedFrom, Roomy, Run, ChunksOf, ChunksFrom, ChunkCount, Pieces, Whole, InWindow, InSecond;
    hide OnewayRoom, IsSidebandOf;
    var x, all := RequestOf(c, cookie), during + [last];
    CookieCall(k, target, c, cookie);
    AllFair(k, target, before + all, c, cookie);
    assert forall i :: i in before ==> i in before + all;
    assert forall i :: i in all ==> i in before + all;
    ProbeCuts(c, ring);
    AnyOrder(ChunksOf(all, c.txid), ChunksFrom(c, 0, ring), c.parcel);
    assert Scenario(before, all, x, start);
    assert all[..|all| - 1] == during;
    ScenarioFront(before, all, x, start);
    ChunksLast(during, last, c.txid);
    PiecesFront(ChunksOf(during, c.txid), last.chunk, c.parcel);
  }

  /** The event handed out for a one-way call: paired if its cookie record and its sideband were handled in time. */
  ghost predicate OnewayCallEvent(e: MainEvent, c: Call, paired: bool) {
    BuiltFrom(e, c) && e.event == if paired then PairedWith(e.base, c) else e.base
  }

  lemma EventIsCalls(k: Kernel, c: Call, cookie: u64, e: MainEvent, got: bool, sb: Option<Sideband>, now: i64)
    requires Honest(k) && cookie in k.issued && k.issued[cookie] == c && !c.reply
    requires |c.parcel| <= CHUNK_SIZE * MAX_CHUNKS
    requires sb.Some? ==> sb.value in k.out.sidebands && sb.value.cookie == cookie
    requires OnewayEvent(e, RequestOf(c, cookie), MetaOf(c), got, sb, now)
    ensures OnewayCallEvent(e, c, got && sb.Some?)
  {}

  lemma {:induction false} SidebandCame(inputs: seq<Input>, x: Request)
    ensures SidebandOf(inputs, x).Some? <==> exists i :: i in inputs && IsSidebandOf(i, x)
    ensures SidebandOf(inputs, x).Some? ==>
              exists i :: i in inputs && IsSidebandOf(i, x) && i.sideband == SidebandOf(inputs, x).value
  {
    if inputs != [] {
      var front, last := inputs[..|inputs| - 1], inputs[|inputs| - 1];
      assert inputs == front + [last];
      SidebandCame(front, x);
    }
  }

  /** One-way calls through the probes: take any run of the three programs and a one-way call in it that passed the
      filter and whose chunks all found room. If the daemon handles only records of the probes, among them the call's
      chunks once each, it hands out the call's own event with the last of them, and never another for it. The event
      has that call's debug id and receiver if the cookie record and a sideband of the cookie came before that chunk,
      and neither if one of them did not. */
  lemma OnewayCallPaired(target: u32, es: seq<Event>, c: Call, ring: seq<Option<ChunkData>>, cookie: u64,
                         before: seq<Input>, during: seq<Input>, last: Input, start: int, after: seq<Input>)
    requires Legal(target, es) && Sane(target, es) && AllFiltered(target, es)
    requires Enter(c, ring) in es && FullRing(c, ring) && 0 < |c.parcel| <= CHUNK_SIZE * MAX_CHUNKS
    requires c.flags % 2 == 1 && CookieRecord(cookie, c.txid) in KernelRun(target, es).out.cookieRecords
    requires FedFrom(before + (during + [last]) + after, KernelRun(target, es).out)
    requires DeliveredOneway(before, during, last, c, ring, cookie, start)
    requires forall i :: i in after ==> !IsChunkOf(i, c.txid)
    ensures var at, r := |Run(Init(), before + during).emitted|, Run(Init(), before + (during + [last]) + after);
            && at < |r.emitted|
            && OnewayCallEvent(r.emitted[at], c,
                               GotCookie(during, RequestOf(c, cookie))
                               && exists i :: i in during && i.SidebandIn? && i.sideband.cookie == cookie)
            && (forall j :: 0 <= j < |r.emitted| && r.emitted[j].txid == c.txid ==> j == at)
  {
    hide Legal, KernelRun, Sane, AllFiltered, KernelOk, Honest, FedFrom, DeliveredOneway, Run, ChunksOf, Whole;
    hide Scenario, FullRing, Fair, OnewayScenario, GotCookie, SidebandOf, OnewayEvent, OnewayCallEvent;
    var k, x := KernelRun(target, es), RequestOf(c, cookie);
    KernelRunOk(target, es);
    EnteredCalls(target, es, Enter(c, ring));
    var all := during + [last];
    FedThrough(before + all, after, k.out);
    OnewayHolds(k, target, before, during, last, c, ring, cookie, start);
    assert before + during + [last] + after == before + all + after;
    IsLast(before, during, last, c, ring, cookie, start);
    OnewayPaired(before, during, last, x, start, after);
    CookieCall(k, target, c, cookie);
    SidebandCame(during, x);
    FedSideband(before, during, last, x, k.out);
    var at := |Run(Init(), before + during).emitted|;
    EventIsCalls(k, c, cookie, Run(Init(), before + all + after).emitted[at], GotCookie(during, x),
                 SidebandOf(during, x), last.now);
  }

  lemma FedThrough(inputs: seq<Input>, after: seq<Input>, out: Seen)
    requires FedFrom(inputs + after, out)
    ensures FedFrom(inputs, out)
  {
    assert forall i :: i in inputs ==> i in inputs + after;
  }

  lemma IsLast(before: seq<Input>, during: seq<Input>, last: Input, c: Call, ring: seq<Option<ChunkData>>, cookie: u64,
               start: int)
    requires ChunkCount(c) <= MAX_CHUNKS && DeliveredOneway(before, during, last, c, ring, cookie, start)
    ensures IsChunkOf(last, c.txid)
    ensures var cs := ChunksOf(during + [last], c.txid); cs != [] ==> cs[0].meta == MetaOf(c)
  {
    hide Run, ChunksOf, ChunksFrom, ChunkCount, Roomy, OnewayRoom;
    ChunksAre(c, 0, ring);
    var cs := ChunksOf(during + [last], c.txid);
    assert cs != [] ==> cs[0] in multiset(cs);
  }

  lemma FedSideband(before: seq<Input>, during: seq<Input>, last: Input, x: Request, out: Seen)
    requires FedFrom(before + (during + [last]), out)
    ensures forall i :: i in during && IsSidebandOf(i, x) ==> i.sideband in out.sidebands
  {
    assert forall i :: i in during ==> i in before + (during + [last]);
  }

  // A one-way request whose records come in the order that pairs it

  function SomeChunk(): Chunk {
    Chunk(100, 0, TxMeta(1, 10000, 1, 1, 32, 0, 1, 0, 0, 0, 0, 0, 0), Zeros())
  }

  function SomeRequest(): Request { Request(100, 0x500, seq(32, _ => 0), true) }

  function SomeInputs(): seq<Input> {
    [CookieIn(CookieRecord(0x500, 100), 0, 0, []), SidebandIn(Sideband(0x500, 7, 2, 3, 0), 0),
     ChunkIn(SomeChunk(), 0, 0, [])]
  }

  lemma ChunkOnly()
    ensures ChunksOf(SomeInputs()[..2], 100) == [] && ChunksOf(SomeInputs(), 100) == [SomeChunk()]
    ensures SidebandOf(SomeInputs()[..2], SomeRequest()) == Some(Sideband(0x500, 7, 2, 3, 0))
  {
    var i := SomeInputs();
    assert i == ([] + [i[0]] + [i[1]]) + [i[2]] && i[..2] == [] + [i[0]] + [i[1]];
    NoChunks(100);
    ChunksLast([], i[0], 100);
    ChunksLast([] + [i[0]], i[1], 100);
    ChunksLast([] + [i[0]] + [i[1]], i[2], 100);
    SidebandLast([] + [i[0]], i[1], SomeRequest());
  }

  lemma OnePiece()
    ensures var x := SomeRequest();
            Reassembly.Pieces([SomeChunk()], x.parcel) && Whole([SomeChunk()], x.parcel) && !Whole([], x.parcel)
  {
    var x := SomeRequest();
    assert TotalChunks(|x.parcel|) == 1;
    assert SomeChunk() in [SomeChunk()] && HasIndex([SomeChunk()], 0) && !HasIndex([], 0);
  }

  lemma RoomFor(inputs: seq<Input>)
    requires |inputs| <= 3
    ensures Roomy(Run(Init(), inputs)) && OnewayRoom(Run(Init(), inputs))
  {
    hide Run;
    RoomyShort(inputs);
  }

  lemma SomeFair()
    ensures var i, x := SomeInputs(), SomeRequest();
            && (forall j :: j in i ==> Fair(j, x) && InWindow(j, 0) && InSecond(j, 0)) && GotCookie(i[..2], x)
            && (forall m, n :: 0 <= m < n < 2 && IsSidebandOf(i[..2][m], x) ==> !IsSidebandOf(i[..2][n], x))
  {
    hide Zeros;
    var i := SomeInputs();
    assert forall j :: j in i ==> j == i[0] || j == i[1] || j == i[2];
    assert i[..2][0] in i[..2];
  }

  lemma SomeRoom()
    ensures var i := SomeInputs();
            forall n :: 0 <= n <= 3 ==> Roomy(Run(Init(), [] + i[..n])) && OnewayRoom(Run(Init(), [] + i[..n]))
  {
    hide Run, SomeChunk, Roomy, OnewayRoom;
    var i := SomeInputs();
    forall n | 0 <= n <= 3 ensures Roomy(Run(Init(), [] + i[..n])) && OnewayRoom(Run(Init(), [] + i[..n])) {
      assert [] + i[..n] == i[..n];
      RoomFor(i[..n]);
    }
  }

  lemma WholeScenario(i: seq<Input>, x: Request)
    requires x.txid != 0 && x.cookie != 0 && Reassembly.Pieces(ChunksOf(i, x.txid), x.parcel)
    requires forall j :: j in i ==> Fair(j, x) && InWindow(j, 0)
    requires forall n :: 0 <= n <= |i| ==> Roomy(Run(Init(), [] + i[..n]))
    ensures Scenario([], i, x, 0)
  {
    hide Run, ChunksOf, Reassembly.Pieces, Fair, InWindow, Roomy;
  }

  lemma FrontScenario(i: seq<Input>, x: Request)
    requires |i| == 3 && x.oneway && Scenario([], i, x, 0) && ChunksOf(i[..2], x.txid) == [] && !Whole([], x.parcel)
    requires forall j :: j in i ==> InSecond(j, 0)
    requires forall m, n :: 0 <= m < n < 2 && IsSidebandOf(i[..2][m], x) ==> !IsSidebandOf(i[..2][n], x)
    requires forall n :: 0 <= n <= 3 ==> OnewayRoom(Run(Init(), [] + i[..n]))
    ensures OnewayScenario([], i[..2], x, 0)
  {
    hide Run, ChunksOf, Whole, Scenario, InSecond, OnewayRoom, IsSidebandOf;
    var during := i[..2];
    assert forall n :: 0 <= n <= 2 ==> during[..n] == i[..n];
    assert forall j :: j in during ==> j in i;
    ScenarioFront([], i, x, 0);
  }

  lemma SomeScenario()
    ensures var i, x := SomeInputs(), SomeRequest();
            && OnewayScenario([], i[..2], x, 0) && Scenario([], i[..2] + [i[2]], x, 0)
            && Whole(ChunksOf(i[..2] + [i[2]], 100), x.parcel)
  {
    hide Run, ChunksOf, Whole, Reassembly.Pieces, Fair, InWindow, InSecond, Roomy, OnewayRoom, GotCookie, IsSidebandOf;
    hide Scenario, OnewayScenario, SomeChunk, SidebandOf;
    var i, x := SomeInputs(), SomeRequest();
    ChunkOnly();
    OnePiece();
    SomeFair();
    SomeRoom();
    assert i[..2] + [i[2]] == i;
    WholeScenario(i, x);
    FrontScenario(i, x);
  }

  /** Everything OnewayPaired asks can be met, and the event it then gives has the sideband's debug id, pid and uid. */
  lemma OrdinaryOneway()
    ensures var i, x := SomeInputs(), SomeRequest();
            && OnewayScenario([], i[..2], x, 0) && Scenario([], i[..2] + [i[2]], x, 0)
            && Whole(ChunksOf(i[..2] + [i[2]], 100), x.parcel) && GotCookie(i[..2], x)
    ensures var r := Run(Init(), SomeInputs()).emitted;
            |r| > 0 && r[0].txid == 100 && r[0].event.pairId == 7 && r[0].event.toPid == 2 && r[0].event.toUid == 3
  {
    hide Run, ChunksOf, Whole, SidebandOf, OnewayScenario, Scenario, GotCookie;
    var i, x := SomeInputs(), SomeRequest();
    var during := i[..2];
    SomeScenario();
    SomeFair();
    ChunkOnly();
    assert during + [i[2]] == i;
    OnewayPaired([], during, i[2], x, 0, []);
    assert [] + during + [i[2]] + [] == i && [] + during == during;
    NothingYet();
  }

  lemma NothingYet()
    ensures Run(Init(), SomeInputs()[..2]).emitted == []
  {
    hide Step;
    var i := SomeInputs();
    assert i[..2] == [] + [i[0]] + [i[1]];
    RunLast(Init(), [], i[0]);
    RunLast(Init(), [] + [i[0]], i[1]);
    TwoSteps();
  }

  lemma TwoSteps()
    ensures var i := SomeInputs(); Step(Step(Init(), i[0]), i[1]).emitted == []
  {
    hide HandleChunk, Trim, Trimmed, Push, Expire;
  }
}
