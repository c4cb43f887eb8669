/** When a main event is lost: exactly when a SYNC main is routed directly to a cookie under which
    another main still waits. */
module CollectorLoss {
  import opened Types
  import opened KeyedList
  import opened CollectorModel
  import opened CollectorCustody
  import opened Reassembly

  /** The step completes a SYNC main whose cookie is known, while that cookie is taken. */
  predicate Overwrites(s: State, i: Input) {
    i.ChunkIn? &&
    var t := TakeChunk(NoteChunk(s, i.chunk), i.chunk, i.now);
    var b := t.buffers[i.chunk.txid];
    && Complete(b.chunks) && Assembled(t, i.chunk.txid, i.now).Some?
    && b.meta.isReply == 0 && !IsOneway(b.meta.flags)
    && b.meta.cookie != 0 && b.meta.cookie in s.main.items
  }

  lemma RouteLoses(s: State, m: MainEvent, cookie: u64, txid: u64, now: int)
    ensures RouteMain(s, m, cookie, txid, now).hist.lost == s.hist.lost +
            if m.event.isReply == 0 && !IsOneway(m.event.flags) && cookie != 0 && cookie in s.main.items
            then [s.main.items[cookie].value] else []
  {
    hide Trim, Trimmed, Push, Delete, RouteOneway, CheckDuplicate;
    CheckFrame(s, cookie);
    OnewayWaits(CheckDuplicate(s, cookie), m, cookie, now);
  }

  /** A step loses an event if and only if it overwrites one. */
  lemma LosesIffOverwrites(s: State, i: Input)
    ensures Overwrites(s, i) ==> |Step(s, i).hist.lost| == |s.hist.lost| + 1
    ensures !Overwrites(s, i) ==> Step(s, i).hist.lost == s.hist.lost
  {
    hide Trim, Trimmed, Without, Expire, Expired, TakeChunk, Deliver, MaybeCleanup, RouteMain, Merge;
    if i.ChunkIn? {
      var c := i.chunk;
      var n := NoteChunk(s, c);
      TakeChunkFrame(n, c, i.now);
      var t := TakeChunk(n, c, i.now);
      var full := Complete(t.buffers[c.txid].chunks);
      if full {
        DeliverCases(t, c.txid, i.now);
        var m := Assembled(t, c.txid, i.now);
        if m.Some? {
          RouteLoses(t.(buffers := t.buffers - {c.txid}), m.value, t.buffers[c.txid].meta.cookie, c.txid, i.now);
        }
      }
      CleanupFrame(if full then Deliver(t, c.txid, i.now) else t, i.now, i.later, i.order);
    }
  }

  /** The run never overwrites a waiting main. */
  predicate Careful(inputs: seq<Input>) {
    inputs == []
    || (Careful(inputs[..|inputs| - 1]) && !Overwrites(Run(Init(), inputs[..|inputs| - 1]), inputs[|inputs| - 1]))
  }

  /** Conservation is exact: every event built is waiting or emitted, and counted, if and only if
      no step of the run overwrote a waiting main. */
  lemma {:induction false} ConservedIffCareful(inputs: seq<Input>)
    ensures var s := Run(Init(), inputs);
            && (Careful(inputs) <==> s.hist.lost == [])
            && (Careful(inputs) <==>
                  multiset(s.hist.completed) ==
                  Values(s.main.items) + Values(s.byTxid.items) + multiset(Origins(s.emitted)))
            && (Careful(inputs) <==>
                  s.hist.parked ==
                  |s.main.items| + |s.byTxid.items| + s.hist.mergedSync + s.failures.entryEarlyReturn)
  {
    hide Values, Origins, Step, Overwrites;
    LostIffCareful(inputs);
    RunKept(inputs);
    var s := Run(Init(), inputs);
    LossCounts(multiset(s.hist.completed),
               Values(s.main.items) + Values(s.byTxid.items) + multiset(Origins(s.emitted)), s.hist.lost);
  }

  /** Adding a list to a multiset leaves it the same only when the list is empty. */
  lemma LossCounts<T>(all: multiset<T>, rest: multiset<T>, lost: seq<T>)
    requires all == rest + multiset(lost)
    ensures all == rest <==> lost == []
  {
    assert |all| == |rest| + |lost|;
  }

  lemma {:induction false} LostIffCareful(inputs: seq<Input>)
    ensures Careful(inputs) <==> Run(Init(), inputs).hist.lost == []
  {
    hide Step, Overwrites;
    if inputs != [] {
      LostIffCareful(inputs[..|inputs| - 1]);
      LosesIffOverwrites(Run(Init(), inputs[..|inputs| - 1]), inputs[|inputs| - 1]);
    }
  }

  // Two transactions with the same cookie

  /** A one-chunk SYNC request as the probes cut it: the chunk carries no cookie. */
  predicate OneChunk(c: Chunk, parcel: Bytes) {
    && Pieces([c], parcel) && |parcel| <= CHUNK_SIZE && c.index == 0 && c.txid != 0
    && c.meta.isReply == 0 && !IsOneway(c.meta.flags) && c.meta.cookie == 0
  }

  /** The same but for waiting cookies, the record of what was seen, and the event counter. */
  ghost predicate SameWaiting(s: State, t: State) {
    && t.buffers == s.buffers && t.main == s.main && t.byTxid == s.byTxid && t.emitted == s.emitted
    && t.hist.lost == s.hist.lost && t.eventCounter == s.eventCounter
  }

  lemma KeepFresh<V>(l: Lru<V>, key: u64, cutoff: int)
    requires key in l.items && l.items[key].at >= cutoff
    ensures Expire(l, [key], cutoff) == l
  {
    assert [key][1..] == [];
  }

  /** The cookie record comes first and waits for its chunk. */
  lemma CookieFirst(s: State, r: CookieRecord)
    requires r.txid != 0 && r.cookie != 0 && s.buffers == map[] && s.byTxid.items == map[]
    requires s.cookies.items == map[] && |s.cookies.list.nodes| < 2
    ensures var t := Step(s, CookieIn(r, 0, 0, [r.txid]));
            && SameWaiting(s, t) && t.cookies.items.Keys == {r.txid} && t.cookies.items[r.txid].value == r.cookie
            && |t.cookies.list.nodes| == |s.cookies.list.nodes| + 1
  {
    hide Expire;
    KeepFresh(Push(s.cookies, r.txid, 0, r.cookie), r.txid, 0 - PENDING_COOKIE_TTL);
  }

  lemma OneWhole(c: Chunk, parcel: Bytes)
    requires OneChunk(c, parcel)
    ensures Whole([c], parcel)
  {
    TotalChunksOf(parcel);
    assert c in [c] && HasIndex([c], 0);
  }

  /** The chunk takes up the waiting cookie and nothing else changes. */
  lemma Adopts(s: State, c: Chunk)
    requires s.buffers == map[] && c.meta.cookie == 0 && c.txid in s.cookies.items
    ensures var t := TakeChunk(s, c, 0);
            && t.buffers.Keys == {c.txid} && t.buffers[c.txid].meta.cookie == s.cookies.items[c.txid].value
            && t.cookies == Delete(s.cookies, c.txid) && SameCore(s, t) && t.eventCounter == s.eventCounter
  {
    hide Delete;
  }

  /** Then the chunk of that transaction: its main is parked under the cookie, over whatever waits there. */
  lemma ChunkSecond(s: State, c: Chunk, parcel: Bytes)
    requires OneChunk(c, parcel) && s.buffers == map[] && s.eventCounter < 2 && |s.main.list.nodes| < 2
    requires s.cookies.items.Keys == {c.txid} && s.cookies.items[c.txid].value != 0
    ensures var k, t := s.cookies.items[c.txid].value, Step(s, ChunkIn(c, 0, 0, []));
            && t.main == Push(s.main, k, 0, EventFrom(c.txid, c.meta, parcel, 0))
            && t.hist.lost == s.hist.lost + Displaced(s.main, k)
            && t.buffers == map[] && t.byTxid == s.byTxid && t.emitted == s.emitted
            && t.cookies.items == map[] && |t.cookies.list.nodes| <= |s.cookies.list.nodes|
            && t.eventCounter == s.eventCounter + 1
  {
    hide TakeChunk, Deliver, RouteMain, Whole, Complete, Opened, Merge, Piece, Pieces, HandleChunk,
      Step, Push, Displaced;
    hide Delete;
    var i := ChunkIn(c, 0, 0, []);
    assert [] + [c] == [c];
    OneWhole(c, parcel);
    LastStep(s, c, 0, 0, [], [], parcel);
    StepChunk(s, i);
    HandleChunkIs(s, c, 0, 0, []);
    var n := NoteChunk(s, c);
    var t := TakeChunk(n, c, 0);
    Adopts(n, c);
    DropOne(n.cookies, c.txid);
    DeliverCases(t, c.txid, 0);
    DeliverFrame(t, c.txid, 0);
    ParksOver(t.(buffers := t.buffers - {c.txid}), EventFrom(c.txid, c.meta, parcel, 0), t.buffers[c.txid].meta.cookie,
              c.txid);
    assert t.buffers - {c.txid} == map[];
  }

  lemma DropOne(l: Lru<u64>, key: u64)
    requires l.items.Keys == {key}
    ensures Delete(l, key).items == map[] && |Delete(l, key).list.nodes| <= |l.list.nodes|
  {
    hide Without;
    WithoutShorter(l.list.nodes, l.items[key].elem);
  }

  lemma ParksOver(s: State, m: MainEvent, cookie: u64, txid: u64)
    requires m.event.isReply == 0 && !IsOneway(m.event.flags) && cookie != 0 && |s.main.list.nodes| < 2
    ensures var r := RouteMain(s, m, cookie, txid, 0);
            && r.main == Push(s.main, cookie, 0, m) && r.hist.lost == s.hist.lost + Displaced(s.main, cookie)
            && r.emitted == s.emitted && r.byTxid == s.byTxid
  {
    hide CheckDuplicate;
    CheckFrame(s, cookie);
  }

  /** Two such requests whose cookie records carry the same cookie. */
  function Collision(a: Chunk, b: Chunk, cookie: u64): seq<Input> {
    [CookieIn(CookieRecord(cookie, a.txid), 0, 0, [a.txid]), ChunkIn(a, 0, 0, []),
     CookieIn(CookieRecord(cookie, b.txid), 0, 0, [b.txid]), ChunkIn(b, 0, 0, [])]
  }

  lemma RunFour(a: Input, b: Input, c: Input, d: Input)
    ensures Run(Init(), [a, b, c, d]) == Step(Step(Step(Step(Init(), a), b), c), d)
  {
    hide Step, Run;
    RunNone(Init());
    RunLast(Init(), [], a);
    RunLast(Init(), [a], b);
    RunLast(Init(), [a, b], c);
    RunLast(Init(), [a, b, c], d);
    assert [] + [a] == [a] && [a] + [b] == [a, b] && [a, b] + [c] == [a, b, c] && [a, b, c] + [d] == [a, b, c, d];
  }

  /** The first request is overwritten: it is the one event lost. */
  lemma SameCookieLoses(a: Chunk, pa: Bytes, b: Chunk, pb: Bytes, cookie: u64)
    requires OneChunk(a, pa) && OneChunk(b, pb) && a.txid != b.txid && cookie != 0
    ensures var s := Run(Init(), Collision(a, b, cookie));
            && s.hist.lost == [EventFrom(a.txid, a.meta, pa, 0)] && s.emitted == [] && s.byTxid.items == map[]
            && s.main.items.Keys == {cookie} && s.main.items[cookie].value == EventFrom(b.txid, b.meta, pb, 0)
            && s.main.items[cookie].at == 0
  {
    hide OneChunk, Step, Run;
    var i := Collision(a, b, cookie);
    RunFour(i[0], i[1], i[2], i[3]);
    CookieFirst(Init(), CookieRecord(cookie, a.txid)) by { NonzeroTxid(a, pa); }
    var s1 := Step(Init(), i[0]);
    ChunkSecond(s1, a, pa);
    var s2 := Step(s1, i[1]);
    CookieFirst(s2, CookieRecord(cookie, b.txid)) by { NonzeroTxid(b, pb); }
    ChunkSecond(Step(s2, i[2]), b, pb);
  }

  lemma NonzeroTxid(c: Chunk, parcel: Bytes)
    requires OneChunk(c, parcel)
    ensures c.txid != 0
  {}

  /** And it is never emitted: once a sweep has emptied the waiting maps, the second request is all that came out. */
  lemma LostForGood(a: Chunk, pa: Bytes, b: Chunk, pb: Bytes, cookie: u64, now: i64)
    requires OneChunk(a, pa) && OneChunk(b, pb) && a.txid != b.txid && cookie != 0 && now > PENDING_MAIN_TTL
    ensures var s := Run(Init(), Collision(a, b, cookie) + [SweepIn(now, Orders([cookie], [], [], []))]);
            && s.main.items == map[] && s.byTxid.items == map[]
            && s.emitted == [EventFrom(b.txid, b.meta, pb, 0)]
            && !(exists m :: m in s.emitted && m.txid == a.txid)
            && !Careful(Collision(a, b, cookie))
  {
    hide OneChunk, Run, Sweep, Careful;
    SameCookieLoses(a, pa, b, pb, cookie);
    LostIffCareful(Collision(a, b, cookie));
    RunLast(Init(), Collision(a, b, cookie), SweepIn(now, Orders([cookie], [], [], [])));
    SweepOne(Run(Init(), Collision(a, b, cookie)), cookie, now);
  }

  lemma SweepOne(s: State, cookie: u64, now: int)
    requires s.main.items.Keys == {cookie} && s.main.items[cookie].at < now - PENDING_MAIN_TTL
    requires s.byTxid.items == map[]
    ensures var t := Sweep(s, now, Orders([cookie], [], [], []));
            && t.main.items == map[] && t.byTxid.items == map[]
            && t.emitted == s.emitted + [s.main.items[cookie].value]
  {
    hide Expire, Expired;
    ExpireOne(s.main, cookie, now - PENDING_MAIN_TTL);
    ExpireNothing(s.byTxid, now - PENDING_MAIN_TTL);
    assert s.emitted + [s.main.items[cookie].value] + [] == s.emitted + [s.main.items[cookie].value];
  }

  lemma ExpireOne(l: Lru<MainEvent>, key: u64, cutoff: int)
    requires l.items.Keys == {key} && l.items[key].at < cutoff
    ensures Expire(l, [key], cutoff).items == map[] && Expired(l, [key], cutoff) == [l.items[key].value]
  {
    hide Without;
    assert [key][1..] == [];
    var d := Delete(l, key);
    ExpireNothing(d, cutoff);
    assert d.items == map[];
  }
}
