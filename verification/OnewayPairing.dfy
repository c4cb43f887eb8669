/** One-way requests: paired exactly when sideband and cookie record come before the last chunk; a sideband that
    comes after it is counted as late. */
module OnewayPairing {
  import opened Types
  import opened KeyedList
  import opened CollectorModel
  import opened CollectorProvenance
  import opened CollectorCustody
  import opened CollectorHolding
  import opened CollectorLists
  import opened Reassembly
  import opened Pairing
  import opened Routing

  predicate IsSidebandOf(i: Input, x: Request) { i.SidebandIn? && i.sideband.cookie == x.cookie }

  /** Sidebands wait, and one-way mains are remembered, for one second. */
  predicate InSecond(i: Input, start: int) { start <= i.now <= start + SECOND }

  /** The maps of waiting sidebands and of one-way mains just handed out have room for one more entry. */
  predicate OnewayRoom(s: State) {
    |s.oneway.list.nodes| < PENDING_ONEWAY_CAPACITY && |s.recent.list.nodes| < RECENT_ONEWAY_CAPACITY
  }

  /** The sideband of the request among these records, if it has come. */
  function SidebandOf(inputs: seq<Input>, x: Request): Option<Sideband> {
    if inputs == [] then None
    else if IsSidebandOf(inputs[|inputs| - 1], x) then Some(inputs[|inputs| - 1].sideband)
    else SidebandOf(inputs[..|inputs| - 1], x)
  }

  lemma SidebandLast(front: seq<Input>, last: Input, x: Request)
    ensures SidebandOf(front + [last], x) ==
            if IsSidebandOf(last, x) then Some(last.sideband) else SidebandOf(front, x)
  {
    assert (front + [last])[..|front|] == front;
  }

  /** The request's sideband waits if it has come, and no one-way main of its cookie has gone out. */
  ghost predicate Awaits(s: State, x: Request, sb: Option<Sideband>, start: int) {
    && x.cookie !in s.recent.items
    && (sb.Some? <==> x.cookie in s.oneway.items)
    && (sb.Some? ==> s.oneway.items[x.cookie].value == sb.value && s.oneway.items[x.cookie].at >= start)
  }

  /** Nothing is said about the request's cookie in either map by what another record does. */
  ghost predicate Undisturbed(s: State, r: State, x: Request) {
    Same(s.oneway.items, r.oneway.items, x.cookie) && Same(s.recent.items, r.recent.items, x.cookie)
  }

  lemma RecentOthers(s: State, cookie: u64, now: int, x: Request)
    requires cookie != x.cookie && OnewayRoom(s)
    ensures var r := RecordRecent(s, cookie, now);
            r.oneway == s.oneway && Same(s.recent.items, r.recent.items, x.cookie)
  {
    hide Trim, Trimmed, Without;
    TrimRoomy(s.recent, cookie, now, (), RECENT_ONEWAY_CAPACITY);
  }

  lemma RouteUndisturbed(s: State, m: MainEvent, cookie: u64, txid: u64, now: int, x: Request)
    requires cookie != x.cookie && OnewayRoom(s)
    ensures Undisturbed(s, RouteMain(s, m, cookie, txid, now), x)
  {
    hide RecordRecent, CheckDuplicate, Trim, Trimmed, Push, Without;
    var checked := CheckDuplicate(s, cookie);
    CheckFrame(s, cookie);
    RecentOthers(checked, cookie, now, x);
    if cookie in checked.oneway.items {
      WithoutShorter(checked.oneway.list.nodes, checked.oneway.items[cookie].elem);
      RecentOthers(checked.(oneway := Delete(checked.oneway, cookie),
                            hist := checked.hist.(mergedOneway := checked.hist.mergedOneway + 1)), cookie, now, x);
    }
  }

  /** A chunk whose transaction does not have the request's cookie. */
  lemma ChunkUndisturbed(s: State, i: Input, x: Request)
    requires i.ChunkIn? && OnewayRoom(s)
    requires TakeChunk(NoteChunk(s, i.chunk), i.chunk, i.now).buffers[i.chunk.txid].meta.cookie != x.cookie
    ensures Undisturbed(s, Step(s, i), x)
  {
    hide HandleChunk, TakeChunk, Deliver, MaybeCleanup, RouteMain, Merge;
    var c, now := i.chunk, i.now;
    StepChunk(s, i);
    HandleChunkIs(s, c, now, i.later, i.order);
    var n := NoteChunk(s, c);
    TakeChunkFrame(n, c, now);
    var t := TakeChunk(n, c, now);
    var full := Complete(t.buffers[c.txid].chunks);
    if full {
      DeliverCases(t, c.txid, now);
      var m := Assembled(t, c.txid, now);
      if m.Some? {
        RouteUndisturbed(t.(buffers := t.buffers - {c.txid}), m.value, t.buffers[c.txid].meta.cookie, c.txid, now, x);
      }
    }
    CleanupFrame(if full then Deliver(t, c.txid, now) else t, now, i.later, i.order);
  }

  /** A chunk that does not complete its transaction. */
  lemma PartUndisturbed(s: State, i: Input, x: Request)
    requires i.ChunkIn?
    requires !Complete(TakeChunk(NoteChunk(s, i.chunk), i.chunk, i.now).buffers[i.chunk.txid].chunks)
    ensures Undisturbed(s, Step(s, i), x)
  {
    hide HandleChunk, TakeChunk, Deliver, MaybeCleanup, Complete;
    StepChunk(s, i);
    HandleChunkIs(s, i.chunk, i.now, i.later, i.order);
    TakeChunkFrame(NoteChunk(s, i.chunk), i.chunk, i.now);
    CleanupFrame(TakeChunk(NoteChunk(s, i.chunk), i.chunk, i.now), i.now, i.later, i.order);
  }

  lemma OtherUndisturbed(s: State, i: Input, x: Request, start: int)
    requires !i.ChunkIn? && !IsSidebandOf(i, x) && InSecond(i, start) && OnewayRoom(s)
    requires x.cookie in s.oneway.items ==> s.oneway.items[x.cookie].at >= start
    requires x.cookie in s.recent.items ==> s.recent.items[x.cookie].at >= start
    ensures Undisturbed(s, Step(s, i), x)
  {
    hide Trim, Trimmed, Without, Expire, Expired, HandleChunk;
    match i
    case SidebandIn(sb, now) => TrimRoomy(s.oneway, sb.cookie, now, sb, PENDING_ONEWAY_CAPACITY);
    case CookieIn(r, now, later, order) => CookieUndisturbed(s, r, now, later, order, x);
    case SweepIn(now, o) =>
      ExpireSame(s.oneway, o.oneway, now - PENDING_ONEWAY_TTL, x.cookie);
      ExpireSame(s.recent, o.recent, now - RECENT_ONEWAY_TTL, x.cookie);
    case _ =>
  }

  lemma CookieUndisturbed(s: State, r: CookieRecord, now: int, later: int, order: seq<u64>, x: Request)
    ensures Undisturbed(s, HandleCookie(s, r, now, later, order), x)
  {
    hide Trim, Trimmed, Push, Delete, Touch, Expire;
  }

  /** The request's own sideband finds nothing and waits. */
  lemma OwnSidebandWaits(s: State, i: Input, x: Request, start: int)
    requires IsSidebandOf(i, x) && InSecond(i, start) && OnewayRoom(s) && Awaits(s, x, None, start)
    requires x.cookie !in s.main.items
    ensures Awaits(Step(s, i), x, Some(i.sideband), start)
  {
    hide Trim, Trimmed;
    TrimRoomy(s.oneway, x.cookie, i.now, i.sideband, PENDING_ONEWAY_CAPACITY);
  }

  // Up to the last chunk

  /** Everything before the request's last chunk: nothing of it in `before`; in `during` only fair records, at most
      one of them its sideband, within one second and with room in the maps; and not yet all its chunks. */
  ghost predicate OnewayScenario(before: seq<Input>, during: seq<Input>, x: Request, start: int) {
    && x.oneway && Scenario(before, during, x, start) && !Whole(ChunksOf(during, x.txid), x.parcel)
    && (forall i :: i in before ==> !IsSidebandOf(i, x))
    && (forall i :: i in during ==> InSecond(i, start))
    && (forall i, j :: 0 <= i < j < |during| && IsSidebandOf(during[i], x) ==> !IsSidebandOf(during[j], x))
    && (forall n :: 0 <= n <= |during| ==> OnewayRoom(Run(Init(), before + during[..n])))
  }

  lemma OnewayFront(before: seq<Input>, front: seq<Input>, last: Input, x: Request, start: int)
    requires OnewayScenario(before, front + [last], x, start)
    ensures OnewayScenario(before, front, x, start) && Scenario(before, front + [last], x, start)
    ensures IsSidebandOf(last, x) ==> SidebandOf(front, x) == None
    ensures OnewayRoom(Run(Init(), before + front)) && InSecond(last, start) && Fair(last, x) && InWindow(last, start)
  {
    hide Pieces, OnewayRoom, Run, InSecond, SidebandOf, ChunksOf, Roomy, Fair, InWindow;
    var during := front + [last];
    assert during[..|front|] == front && last in during;
    assert forall n :: 0 <= n <= |front| ==> front[..n] == during[..n];
    assert forall i :: 0 <= i < |front| ==> during[i] == front[i];
    assert front[..|front|] == front;
    ScenarioFront(before, during, x, start);
    ChunksLast(front, last, x.txid);
    if IsChunkOf(last, x.txid) {
      PiecesFront(ChunksOf(front, x.txid), last.chunk, x.parcel);
    } else {
      assert ChunksOf(front, x.txid) + [] == ChunksOf(front, x.txid);
    }
    if IsSidebandOf(last, x) {
      assert forall i :: 0 <= i < |front| ==> !IsSidebandOf(during[i], x) by {
        assert IsSidebandOf(during[|front|], x);
      }
      assert forall i :: i in front ==> !IsSidebandOf(i, x);
      NoSideband(front, x);
    }
  }

  lemma {:induction false} NoSideband(inputs: seq<Input>, x: Request)
    requires forall i :: i in inputs ==> !IsSidebandOf(i, x)
    ensures SidebandOf(inputs, x) == None
  {
    if inputs != [] { NoSideband(inputs[..|inputs| - 1], x); }
  }

  /** Every cookie remembered for a one-way main was carried by a chunk or a cookie record. */
  ghost predicate RecentSeen(s: State) {
    forall k :: k in s.recent.items ==>
      (exists c :: c in s.hist.seen.chunks && c.meta.cookie == k)
      || exists r :: r in s.hist.seen.cookieRecords && r.cookie == k
  }

  lemma RouteRecent(s: State, m: MainEvent, cookie: u64, txid: u64, now: int, k: u64)
    requires k in RouteMain(s, m, cookie, txid, now).recent.items
    ensures k == cookie || k in s.recent.items
  {
    hide CheckDuplicate, Trim, Trimmed, Without;
    CheckFrame(s, cookie);
    TrimPart(Push(s.recent, cookie, now, ()), RECENT_ONEWAY_CAPACITY);
  }

  lemma ChunkRecent(s: State, i: Input, k: u64)
    requires i.ChunkIn? && Sound(s) && k in Step(s, i).recent.items && k !in s.recent.items
    ensures (exists c :: c in Step(s, i).hist.seen.chunks && c.meta.cookie == k)
            || exists r :: r in Step(s, i).hist.seen.cookieRecords && r.cookie == k
  {
    hide HandleChunk, TakeChunk, Deliver, MaybeCleanup, RouteMain, Merge, SoundMain, SoundByTxid, SoundOneway;
    hide SoundEmitted, SoundCookies;
    var c, now := i.chunk, i.now;
    StepChunk(s, i);
    HandleChunkIs(s, c, now, i.later, i.order);
    CollectorProvenance.ChunkSeen(s, c, now, i.later, i.order);
    var n := NoteChunk(s, c);
    SoundGrows(s, n.hist.seen);
    TakeChunkSound(n, c, now);
    TakeChunkFrame(n, c, now);
    var t := TakeChunk(n, c, now);
    var full := Complete(t.buffers[c.txid].chunks);
    CleanupFrame(if full then Deliver(t, c.txid, now) else t, now, i.later, i.order);
    if full {
      DeliverCases(t, c.txid, now);
      var m := Assembled(t, c.txid, now);
      var b := t.buffers[c.txid];
      assert SoundBuffer(n.hist.seen, c.txid, b);
      var first :| first in n.hist.seen.chunks && first.txid == c.txid && first.meta == b.first;
      if m.Some? { RouteRecent(t.(buffers := t.buffers - {c.txid}), m.value, b.meta.cookie, c.txid, now, k); }
    }
  }

  lemma OtherRecent(s: State, i: Input)
    requires !i.ChunkIn?
    ensures forall k :: k in Step(s, i).recent.items ==> k in s.recent.items
  {
    hide HandleChunk, Trim, Trimmed, Push, Delete, Touch, Expire, Expired;
    if i.SweepIn? { ExpirePart(s.recent, i.orders.recent, i.now - RECENT_ONEWAY_TTL); }
  }

  lemma {:induction false} RunRecent(inputs: seq<Input>)
    ensures RecentSeen(Run(Init(), inputs))
  {
    hide Step, Sound, Run;
    if inputs == [] {
      RunNone(Init());
    } else {
      var front, last := inputs[..|inputs| - 1], inputs[|inputs| - 1];
      assert inputs == front + [last];
      RunRecent(front);
      RunSound(front);
      RunLast(Init(), front, last);
      var s := Run(Init(), front);
      StepSeen(s, last);
      if last.ChunkIn? {
        forall k | k in Step(s, last).recent.items && k !in s.recent.items
          ensures (exists c :: c in Step(s, last).hist.seen.chunks && c.meta.cookie == k)
                  || exists r :: r in Step(s, last).hist.seen.cookieRecords && r.cookie == k
        {
          ChunkRecent(s, last, k);
        }
      } else {
        OtherRecent(s, last);
      }
    }
  }

  lemma NothingAwaits(before: seq<Input>, x: Request, start: int)
    requires forall i :: i in before ==> Fair(i, x) && !Mine(i, x) && !IsSidebandOf(i, x)
    ensures Awaits(Run(Init(), before), x, None, start)
  {
    hide Run, SoundMain, SoundByTxid, SoundCookies, SoundEmitted, SoundBuffer;
    var s := Run(Init(), before);
    RunRecent(before);
    RunSound(before);
    RunSeen(before);
    assert forall c :: c in s.hist.seen.chunks ==> c.meta.cookie != x.cookie;
    assert forall r :: r in s.hist.seen.cookieRecords ==> r.cookie != x.cookie;
    assert forall b :: b in s.hist.seen.sidebands ==> b.cookie != x.cookie;
  }

  lemma StepAwaits(s: State, i: Input, x: Request, sb: Option<Sideband>, start: int)
    requires Awaits(s, x, sb, start) && Undisturbed(s, Step(s, i), x)
    ensures Awaits(Step(s, i), x, sb, start)
  {
    hide Step;
  }

  /** Until its last chunk comes, the request's sideband waits for it. */
  lemma {:induction false} RunAwaits(before: seq<Input>, during: seq<Input>, x: Request, start: int)
    requires OnewayScenario(before, during, x, start)
    ensures Awaits(Run(Init(), before + during), x, SidebandOf(during, x), start)
    decreases |during|
  {
    hide Run, Scenario, OnewayRoom, Awaits, SidebandOf, Step, Track, YoungEnough;
    if during == [] {
      assert before + during == before;
      NothingBefore(before, during, x, start);
      NothingAwaits(before, x, start);
      NoSideband(during, x);
    } else {
      var front, last := during[..|during| - 1], during[|during| - 1];
      assert during == front + [last] && before + during == (before + front) + [last];
      OnewayFront(before, front, last, x, start);
      RunAwaits(before, front, x, start);
      RunTracks(before, front, x, start);
      RunLast(Init(), before + front, last);
      SidebandLast(front, last, x);
      AwaitsOne(before, front, last, x, start);
    }
  }

  lemma NothingBefore(before: seq<Input>, during: seq<Input>, x: Request, start: int)
    requires OnewayScenario(before, during, x, start)
    ensures forall i :: i in before ==> Fair(i, x) && !Mine(i, x) && !IsSidebandOf(i, x)
  {
    hide Run, Pieces, Whole, OnewayRoom, Roomy;
  }

  lemma AwaitsOne(before: seq<Input>, front: seq<Input>, last: Input, x: Request, start: int)
    requires OnewayScenario(before, front + [last], x, start)
    requires Awaits(Run(Init(), before + front), x, SidebandOf(front, x), start)
    requires Track(Run(Init(), before + front), x, ChunksOf(front, x.txid), GotCookie(front, x))
    ensures Awaits(Step(Run(Init(), before + front), last), x,
                   if IsSidebandOf(last, x) then Some(last.sideband) else SidebandOf(front, x), start)
  {
    hide Run, Scenario, OnewayRoom, Step, Pieces, Whole, Opened, SidebandOf, ChunksOf, EventsOf, Sound, GotCookie;
    var s := Run(Init(), before + front);
    OnewayFront(before, front, last, x, start);
    if IsSidebandOf(last, x) {
      OwnSidebandWaits(s, last, x, start);
    } else if IsChunkOf(last, x.txid) {
      NotLastYet(before, front, last, x, start);
      StepAwaits(s, last, x, SidebandOf(front, x), start);
    } else if last.ChunkIn? {
      FairSoFar(before, front, last, x, start);
      OtherCookie(s, last.chunk, last.now, x);
      ChunkUndisturbed(s, last, x);
      StepAwaits(s, last, x, SidebandOf(front, x), start);
    } else {
      OtherUndisturbed(s, last, x, start);
      StepAwaits(s, last, x, SidebandOf(front, x), start);
    }
  }

  lemma FairSoFar(before: seq<Input>, front: seq<Input>, last: Input, x: Request, start: int)
    requires Scenario(before, front + [last], x, start)
    ensures var s := Run(Init(), before + front);
            && Sound(s)
            && (forall r :: r in s.hist.seen.cookieRecords && r.cookie == x.cookie ==> r.txid == x.txid)
            && (forall d :: d in s.hist.seen.chunks ==> d.meta.cookie != x.cookie)
  {
    hide Run, Sound, Pieces, Roomy, ChunksOf;
    RunSound(before + front);
    RunSeen(before + front);
    assert forall i :: i in before + front ==> i in before || i in front + [last];
    SeenExclusive(before + front, x);
  }

  /** A chunk of the request that leaves it incomplete. */
  lemma NotLastYet(before: seq<Input>, front: seq<Input>, last: Input, x: Request, start: int)
    requires OnewayScenario(before, front + [last], x, start) && IsChunkOf(last, x.txid)
    requires Track(Run(Init(), before + front), x, ChunksOf(front, x.txid), GotCookie(front, x))
    ensures Undisturbed(Run(Init(), before + front), Step(Run(Init(), before + front), last), x)
  {
    hide Run, Step, OnewayRoom, Whole, EventsOf, Opened, Pieces, ChunksOf, TakeChunk, Complete, Roomy, Fair, InWindow;
    var s, c, cs := Run(Init(), before + front), last.chunk, ChunksOf(front, x.txid);
    ChunksLast(front, last, x.txid);
    PiecesFront(cs, c, x.parcel);
    var n := NoteChunk(s, c);
    TakeOpened(n, c, last.now, cs, x.parcel);
    CompleteIffWhole(TakeChunk(n, c, last.now).buffers[c.txid], cs + [c], x.parcel);
    PartUndisturbed(s, last, x);
  }

  // The last chunk

  /** The event handed out for the request. */
  ghost predicate OnewayEvent(e: MainEvent, x: Request, first: TxMeta, got: bool, sb: Option<Sideband>, now: i64) {
    && EventOf(Origin(e), x, first) && e.base.timestamp == now
    && if got && sb.Some? then FilledBy(e.base, sb.value, e.event) else e.event == e.base
  }

  /** The last chunk hands the request out in that step. The event has the sideband's debug id and receiver if both
      the sideband and the cookie record came before, in any order among any other records, and is as built if either
      did not; it is the one event ever handed out for the transaction. */
  lemma OnewayPaired(before: seq<Input>, during: seq<Input>, last: Input, x: Request, start: int, after: seq<Input>)
    requires OnewayScenario(before, during, x, start) && IsChunkOf(last, x.txid)
    requires Scenario(before, during + [last], x, start) && Whole(ChunksOf(during + [last], x.txid), x.parcel)
    requires forall i :: i in after ==> !IsChunkOf(i, x.txid)
    ensures var s, cs, r := Run(Init(), before + during), ChunksOf(during + [last], x.txid),
                            Run(Init(), before + during + [last] + after);
            && cs != [] && |s.emitted| < |r.emitted|
            && OnewayEvent(r.emitted[|s.emitted|], x, cs[0].meta, GotCookie(during, x), SidebandOf(during, x), last.now)
            && (forall j :: 0 <= j < |r.emitted| && r.emitted[j].txid == x.txid ==> j == |s.emitted|)
  {
    hide Run, Scenario, Whole, Step, Awaits, SidebandOf, ChunksOf, Custody, OnewayEvent, EventsOf;
    LastHandsOut(before, during, last, x, start);
    var s := Run(Init(), before + during);
    var s1 := Run(Init(), before + during + [last]);
    var cs := ChunksOf(during + [last], x.txid);
    var e := s1.emitted[|s.emitted|];
    RunSplit(Init(), before + during + [last], after);
    RunAfter(s1, after, x.txid);
    var r := Run(s1, after);
    assert r.emitted[|s.emitted|] == e;
    RunKept(before + during + [last] + after);
    EmittedOnce(r, x.txid, Origin(e), |s.emitted|);
  }

  lemma LastHandsOut(before: seq<Input>, during: seq<Input>, last: Input, x: Request, start: int)
    requires OnewayScenario(before, during, x, start) && IsChunkOf(last, x.txid)
    requires Scenario(before, during + [last], x, start) && Whole(ChunksOf(during + [last], x.txid), x.parcel)
    ensures var s, cs, r := Run(Init(), before + during), ChunksOf(during + [last], x.txid),
                            Run(Init(), before + during + [last]);
            && cs != [] && |r.emitted| == |s.emitted| + 1 && s.emitted <= r.emitted && x.txid !in r.buffers
            && OnewayEvent(r.emitted[|s.emitted|], x, cs[0].meta, GotCookie(during, x), SidebandOf(during, x), last.now)
            && EventsOf(r.hist.completed, x.txid) == [Origin(r.emitted[|s.emitted|])]
            && r.emitted[|s.emitted|].txid == x.txid
  {
    hide Run, Scenario, Whole, Step, SidebandOf, ChunksOf, EventsOf, HandleChunk, Opened, Pieces, YoungEnough;
    var s, cs := Run(Init(), before + during), ChunksOf(during, x.txid);
    RunAwaits(before, during, x, start);
    RunTracks(before, during, x, start);
    RunLast(Init(), before + during, last);
    ChunksLast(during, last, x.txid);
    LastParts(before, during, last, x, start);
    var c := last.chunk;
    LastStep(s, c, last.now, last.later, last.order, cs, x.parcel);
    StepChunk(s, last);
    var m := EventFrom(x.txid, (cs + [c])[0].meta, x.parcel, last.now);
    HandedOutAtOnce(s, last, m);
    EventsOfLast(s.hist.completed, m, x.txid);
    var got := GotCookie(during, x);
    assert CookieAt(s, c) == if got then x.cookie else 0;
    Handed(s, Step(s, last), m, x, got, SidebandOf(during, x), (cs + [c])[0].meta, last.now, start);
  }

  lemma LastParts(before: seq<Input>, during: seq<Input>, last: Input, x: Request, start: int)
    requires Scenario(before, during + [last], x, start) && IsChunkOf(last, x.txid) && x.oneway
    ensures var cs := ChunksOf(during, x.txid);
            && Pieces(cs + [last.chunk], x.parcel) && !Whole(cs, x.parcel) && x.cookie != 0 && x.txid != 0
            && OnewayChunk((cs + [last.chunk])[0]) && last.chunk.meta.cookie == 0
  {
    hide Run, Pieces, Whole, Roomy, ChunksOf;
    ChunksLast(during, last, x.txid);
    PiecesFront(ChunksOf(during, x.txid), last.chunk, x.parcel);
    ChunksSync(during + [last], x);
    var cs := ChunksOf(during, x.txid) + [last.chunk];
    assert cs[0] in cs && last.chunk in cs;
  }

  lemma Handed(s: State, r: State, m: MainEvent, x: Request, got: bool, sb: Option<Sideband>, first: TxMeta, now: i64,
               start: int)
    requires |x.parcel| <= CHUNK_SIZE * MAX_CHUNKS && m == EventFrom(x.txid, first, x.parcel, now)
    requires first.isReply == 0 && first.flags % 2 == 1 && x.cookie != 0
    requires Awaits(s, x, sb, start) && Dispatched(s, r, m, if got then x.cookie else 0, x.txid)
    ensures |r.emitted| == |s.emitted| + 1 && s.emitted <= r.emitted
    ensures OnewayEvent(r.emitted[|s.emitted|], x, first, got, sb, now)
    ensures Origin(r.emitted[|s.emitted|]) == m
  {
    hide Checked, FilledBy;
  }

  // After it

  /** The request was handed out under its cookie, not before `start`; nothing waits under it. */
  ghost predicate JustOut(s: State, x: Request, start: int) {
    && x.cookie in s.recent.items && s.recent.items[x.cookie].at >= start
    && x.cookie !in s.oneway.items && x.cookie !in s.main.items
  }

  lemma RecentMarked(s: State, m: MainEvent, cookie: u64, txid: u64, now: int)
    requires m.event.isReply == 0 && IsOneway(m.event.flags) && cookie != 0
    requires |s.recent.list.nodes| < RECENT_ONEWAY_CAPACITY
    ensures var r := RouteMain(s, m, cookie, txid, now);
            cookie in r.recent.items && r.recent.items[cookie].at == now && cookie !in r.oneway.items
  {
    hide Trim, Trimmed, Without, CheckDuplicate;
    CheckFrame(s, cookie);
    TrimRoomy(s.recent, cookie, now, (), RECENT_ONEWAY_CAPACITY);
  }

  lemma LastMarks(before: seq<Input>, during: seq<Input>, last: Input, x: Request, start: int)
    requires OnewayScenario(before, during, x, start) && IsChunkOf(last, x.txid) && GotCookie(during, x)
    requires Scenario(before, during + [last], x, start) && Whole(ChunksOf(during + [last], x.txid), x.parcel)
    ensures JustOut(Run(Init(), before + (during + [last])), x, last.now)
  {
    hide Run, Scenario, Whole, Step, ChunksOf, EventsOf, HandleChunk, Opened, Pieces, YoungEnough, TakeChunk, Deliver;
    hide MaybeCleanup, RouteMain, Merge, Complete;
    var s, cs, c := Run(Init(), before + during), ChunksOf(during, x.txid), last.chunk;
    RunTracks(before, during, x, start);
    RunTracks(before, during + [last], x, start);
    assert before + (during + [last]) == (before + during) + [last];
    RunLast(Init(), before + during, last);
    ChunksLast(during, last, x.txid);
    LastParts(before, during, last, x, start);
    LastStep(s, c, last.now, last.later, last.order, cs, x.parcel);
    StepChunk(s, last);
    HandleChunkIs(s, c, last.now, last.later, last.order);
    var n := NoteChunk(s, c);
    var t := TakeChunk(n, c, last.now);
    TakeChunkFrame(n, c, last.now);
    TakeCookie(n, c, last.now);
    DeliverCases(t, c.txid, last.now);
    RoomLeft(before, during, x, start);
    RecentMarked(t.(buffers := t.buffers - {c.txid}), Assembled(t, c.txid, last.now).value, x.cookie, c.txid, last.now);
    CleanupFrame(Deliver(t, c.txid, last.now), last.now, last.later, last.order);
  }

  lemma RoomLeft(before: seq<Input>, during: seq<Input>, x: Request, start: int)
    requires OnewayScenario(before, during, x, start)
    ensures OnewayRoom(Run(Init(), before + during))
  {
    hide Run, OnewayRoom, Scenario;
    assert during[..|during|] == during;
  }

  /** What comes in the second after the one-way main was handed out: fair records, none of them its sideband or a
      chunk of it, with room in the maps. */
  ghost predicate SecondAfter(inputs: seq<Input>, between: seq<Input>, x: Request, start: int) {
    && (forall i :: i in between ==> InSecond(i, start) && !IsSidebandOf(i, x) && !IsChunkOf(i, x.txid))
    && (forall n :: 0 <= n <= |between| ==> OnewayRoom(Run(Init(), inputs + between[..n])))
  }

  lemma SecondFront(inputs: seq<Input>, front: seq<Input>, last: Input, x: Request, start: int)
    requires SecondAfter(inputs, front + [last], x, start)
    ensures SecondAfter(inputs, front, x, start) && OnewayRoom(Run(Init(), inputs + front))
    ensures InSecond(last, start) && !IsSidebandOf(last, x) && !IsChunkOf(last, x.txid)
  {
    hide Run, OnewayRoom, InSecond, IsSidebandOf, IsChunkOf;
    var between := front + [last];
    assert last in between && between[..|front|] == front;
    assert forall n :: 0 <= n <= |front| ==> front[..n] == between[..n];
  }

  lemma {:induction false} StaysOut(before: seq<Input>, during: seq<Input>, between: seq<Input>, x: Request,
                                    start: int, out: int)
    requires x.oneway && Scenario(before, during + between, x, start) && Whole(ChunksOf(during, x.txid), x.parcel)
    requires JustOut(Run(Init(), before + during), x, out) && SecondAfter(before + during, between, x, out)
    ensures JustOut(Run(Init(), before + during + between), x, out)
    ensures ChunksOf(during + between, x.txid) == ChunksOf(during, x.txid)
    decreases |between|
  {
    hide Run, Scenario, Whole, SecondAfter, Step, ChunksOf, JustOut;
    if between == [] {
      assert before + during + between == before + during && during + between == during;
    } else {
      var front, last := between[..|between| - 1], between[|between| - 1];
      assert between == front + [last] && during + between == (during + front) + [last];
      assert (during + between)[..|during + between| - 1] == during + front;
      assert before + during + between == before + ((during + front) + [last]);
      assert before + during + front == before + (during + front);
      ScenarioFront(before, during + between, x, start);
      SecondFront(before + during, front, last, x, out);
      StaysOut(before, during, front, x, start, out);
      RunLast(Init(), before + (during + front), last);
      ChunksLast(during + front, last, x.txid);
      assert ChunksOf(during, x.txid) + [] == ChunksOf(during, x.txid);
      OutOne(before, during + front, last, x, start, out);
    }
  }

  lemma OutOne(before: seq<Input>, front: seq<Input>, last: Input, x: Request, start: int, out: int)
    requires x.oneway && Scenario(before, front + [last], x, start) && Whole(ChunksOf(front + [last], x.txid), x.parcel)
    requires JustOut(Run(Init(), before + front), x, out) && OnewayRoom(Run(Init(), before + front))
    requires InSecond(last, out) && !IsSidebandOf(last, x) && !IsChunkOf(last, x.txid)
    ensures JustOut(Run(Init(), before + (front + [last])), x, out)
  {
    hide Run, Scenario, Whole, Step, ChunksOf, EventsOf, YoungEnough, OnewayRoom, Sound;
    var s := Run(Init(), before + front);
    assert before + (front + [last]) == (before + front) + [last];
    RunTracks(before, front + [last], x, start);
    RunLast(Init(), before + front, last);
    if last.ChunkIn? {
      FairSoFar(before, front, last, x, start);
      FairLast(before, front, last, x, start);
      OtherCookie(s, last.chunk, last.now, x);
      ChunkUndisturbed(s, last, x);
    } else {
      OtherUndisturbed(s, last, x, out);
    }
  }

  lemma FairLast(before: seq<Input>, front: seq<Input>, last: Input, x: Request, start: int)
    requires Scenario(before, front + [last], x, start)
    ensures Fair(last, x)
  {
    hide Run, Pieces, Roomy, ChunksOf;
    assert last in front + [last];
  }

  /** A sideband that comes within the second after its one-way main was handed out is counted as late; it neither
      waits nor changes anything else. */
  lemma LateSideband(before: seq<Input>, during: seq<Input>, last: Input, between: seq<Input>, x: Request, start: int,
                     sb: Sideband, now: i64)
    requires OnewayScenario(before, during, x, start) && IsChunkOf(last, x.txid) && GotCookie(during, x)
    requires Scenario(before, during + [last], x, start) && Whole(ChunksOf(during + [last], x.txid), x.parcel)
    requires Scenario(before, during + [last] + between, x, start) && sb.cookie == x.cookie
    requires SecondAfter(before + (during + [last]), between, x, last.now)
    ensures var s, r := Run(Init(), before + (during + [last]) + between),
                        Run(Init(), before + (during + [last]) + between + [SidebandIn(sb, now)]);
            && NothingEmitted(s, r) && r.oneway == s.oneway
            && r.failures.onewayLate == s.failures.onewayLate + 1
            && r.failures.sidebandOrphan == s.failures.sidebandOrphan
  {
    hide Run, Scenario, Whole, ChunksOf, GotCookie, NothingEmitted, SecondAfter, OnewayRoom;
    LastMarks(before, during, last, x, start);
    StaysOut(before, during + [last], between, x, start, last.now);
    SidebandFate(before + (during + [last]) + between, sb, now);
  }
}
