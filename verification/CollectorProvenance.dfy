/** Where the contents of an emitted event come from, with no assumption on the order, loss or
    duplication of records. */
module CollectorProvenance {
  import opened Types
  import opened KeyedList
  import opened CollectorModel

  /** A cookie belongs to an event if its own chunk carried it or a cookie record said so. */
  ghost predicate Bound(seen: Seen, m: MainEvent, cookie: u64) {
    cookie == m.first.cookie || CookieRecord(cookie, m.txid) in seen.cookieRecords
  }

  ghost predicate FirstOf(seen: Seen, txid: u64, first: TxMeta) {
    exists c :: c in seen.chunks && c.txid == txid && c.meta == first
  }

  /** The event was built from the metadata of a received chunk of its own transaction. */
  ghost predicate Built(seen: Seen, m: MainEvent) {
    && FirstOf(seen, m.txid, m.first)
    && |m.base.parcel| == m.first.dataSize <= CHUNK_SIZE * MAX_CHUNKS
    && MetaKept(m.base, m.first)
  }

  /** The event is as built, or has one received sideband applied whose cookie belongs to it. */
  ghost predicate Sourced(seen: Seen, m: MainEvent) {
    m.event == m.base
    || exists sb :: sb in seen.sidebands && Bound(seen, m, sb.cookie) && FilledBy(m.base, sb, m.event)
  }

  ghost predicate AsBuiltFrom(seen: Seen, m: MainEvent) { m.event == m.base && Built(seen, m) }

  ghost predicate SoundMain(seen: Seen, items: map<u64, Entry<MainEvent>>) {
    forall k :: k in items ==> AsBuiltFrom(seen, items[k].value) && Bound(seen, items[k].value, k)
  }

  ghost predicate SoundByTxid(seen: Seen, items: map<u64, Entry<MainEvent>>) {
    forall k :: k in items ==> AsBuiltFrom(seen, items[k].value) && items[k].value.txid == k
  }

  ghost predicate SoundOneway(seen: Seen, items: map<u64, Entry<Sideband>>) {
    forall k :: k in items ==> items[k].value in seen.sidebands && items[k].value.cookie == k
  }

  ghost predicate SoundCookies(seen: Seen, items: map<u64, Entry<u64>>) {
    forall k :: k in items ==> CookieRecord(items[k].value, k) in seen.cookieRecords
  }

  ghost predicate SoundBuffer(seen: Seen, k: u64, b: TxBuffer) {
    && FirstOf(seen, k, b.first)
    && b.meta == b.first.(cookie := b.meta.cookie)
    && (b.meta.cookie == b.first.cookie || CookieRecord(b.meta.cookie, k) in seen.cookieRecords)
  }

  ghost predicate SoundEmitted(seen: Seen, emitted: seq<MainEvent>) {
    forall m :: m in emitted ==> Built(seen, m) && Sourced(seen, m)
  }

  ghost predicate Sound(s: State) {
    var seen := s.hist.seen;
    && SoundMain(seen, s.main.items) && SoundByTxid(seen, s.byTxid.items)
    && SoundOneway(seen, s.oneway.items) && SoundCookies(seen, s.cookies.items)
    && SoundEmitted(seen, s.emitted)
    && forall k :: k in s.buffers ==> SoundBuffer(seen, k, s.buffers[k])
  }

  ghost predicate Grows(a: Seen, b: Seen) {
    a.chunks <= b.chunks && a.sidebands <= b.sidebands && a.cookieRecords <= b.cookieRecords
  }

  lemma BuiltGrows(a: Seen, b: Seen, m: MainEvent)
    requires Grows(a, b)
    ensures Built(a, m) ==> Built(b, m)
    ensures Sourced(a, m) ==> Sourced(b, m)
  {
  }

  lemma SoundGrows(s: State, seen: Seen)
    requires Sound(s) && Grows(s.hist.seen, seen)
    ensures Sound(s.(hist := s.hist.(seen := seen)))
  {
    hide Built, Sourced;
    forall m: MainEvent ensures Built(s.hist.seen, m) ==> Built(seen, m)
                        ensures Sourced(s.hist.seen, m) ==> Sourced(seen, m)
    {
      BuiltGrows(s.hist.seen, seen, m);
    }
  }

  // Moves

  lemma EmitSound(seen: Seen, emitted: seq<MainEvent>, out: seq<MainEvent>)
    requires SoundEmitted(seen, emitted)
    requires forall m :: m in out ==> Built(seen, m) && Sourced(seen, m)
    ensures SoundEmitted(seen, emitted + out)
  {
  }

  lemma PartMain(seen: Seen, before: map<u64, Entry<MainEvent>>, after: map<u64, Entry<MainEvent>>, out: seq<MainEvent>)
    requires SoundMain(seen, before) && Part(before, after, out)
    ensures SoundMain(seen, after) && forall m :: m in out ==> AsBuiltFrom(seen, m)
  {
  }

  lemma PartByTxid(seen: Seen, before: map<u64, Entry<MainEvent>>, after: map<u64, Entry<MainEvent>>,
                   out: seq<MainEvent>)
    requires SoundByTxid(seen, before) && Part(before, after, out)
    ensures SoundByTxid(seen, after) && forall m :: m in out ==> AsBuiltFrom(seen, m)
  {
  }

  lemma TrimMainSound(s: State)
    requires Sound(s)
    ensures Sound(TrimMain(s)) && TrimMain(s).hist == s.hist
  {
    hide Built, Bound, FirstOf, Trim, Trimmed;
    var out := Trimmed(s.main, PENDING_MAIN_CAPACITY);
    TrimPart(s.main, PENDING_MAIN_CAPACITY);
    PartMain(s.hist.seen, s.main.items, Trim(s.main, PENDING_MAIN_CAPACITY).items, out);
    EmitSound(s.hist.seen, s.emitted, out);
  }

  lemma TrimByTxidSound(s: State)
    requires Sound(s)
    ensures Sound(TrimByTxid(s)) && TrimByTxid(s).hist == s.hist
  {
    hide Built, Bound, FirstOf, Trim, Trimmed;
    var out := Trimmed(s.byTxid, PENDING_MAIN_CAPACITY);
    TrimPart(s.byTxid, PENDING_MAIN_CAPACITY);
    PartByTxid(s.hist.seen, s.byTxid.items, Trim(s.byTxid, PENDING_MAIN_CAPACITY).items, out);
    EmitSound(s.hist.seen, s.emitted, out);
  }

  lemma ParkByTxidSound(s: State, m: MainEvent, txid: u64, now: int)
    requires Sound(s) && AsBuiltFrom(s.hist.seen, m) && m.txid == txid
    ensures Sound(ParkByTxid(s, m, txid, now)) && ParkByTxid(s, m, txid, now).hist.seen == s.hist.seen
  {
    hide Built, Bound, FirstOf, TrimByTxid;
    var s1 := if txid in s.byTxid.items then ReleaseByTxid(s, txid) else s;
    if txid in s.byTxid.items { EmitSound(s.hist.seen, s.emitted, [s.byTxid.items[txid].value]); }
    TrimByTxidSound(s1.(byTxid := Push(s1.byTxid, txid, now, m), hist := NoteParked(s1.hist, m)));
  }

  lemma ParkByCookieSound(s: State, m: MainEvent, cookie: u64, now: int)
    requires Sound(s) && AsBuiltFrom(s.hist.seen, m) && Bound(s.hist.seen, m, cookie)
    ensures Sound(ParkByCookie(s, m, cookie, now)) && ParkByCookie(s, m, cookie, now).hist.seen == s.hist.seen
  {
    hide Built, Bound, FirstOf, TrimMain;
    var lost := if cookie in s.main.items then [s.main.items[cookie].value] else [];
    TrimMainSound(s.(main := Push(s.main, cookie, now, m),
                     hist := NoteParked(s.hist, m).(lost := s.hist.lost + lost)));
  }

  lemma ActivateSound(s: State, txid: u64, cookie: u64)
    requires Sound(s) && txid in s.byTxid.items && CookieRecord(cookie, txid) in s.hist.seen.cookieRecords
    ensures Sound(Activate(s, txid, cookie)) && Activate(s, txid, cookie).hist.seen == s.hist.seen
  {
    hide Built, FirstOf, TrimMain;
    var e := s.byTxid.items[txid];
    var s1 := s.(byTxid := Delete(s.byTxid, txid));
    var s2 := if cookie in s1.main.items then ReleaseMain(s1, cookie) else s1;
    if cookie in s1.main.items { EmitSound(s.hist.seen, s.emitted, [s1.main.items[cookie].value]); }
    TrimMainSound(s2.(main := Push(s2.main, cookie, e.at, e.value)));
  }

  lemma RouteOnewaySound(s: State, m: MainEvent, cookie: u64, now: int)
    requires Sound(s) && AsBuiltFrom(s.hist.seen, m) && Bound(s.hist.seen, m, cookie)
    ensures Sound(RouteOneway(s, m, cookie, now)) && RouteOneway(s, m, cookie, now).hist.seen == s.hist.seen
  {
    hide FirstOf, Trim;
    if cookie in s.oneway.items {
      var sb := s.oneway.items[cookie].value;
      assert Built(s.hist.seen, Merged(m, sb)) && Sourced(s.hist.seen, Merged(m, sb));
      EmitSound(s.hist.seen, s.emitted, [Merged(m, sb)]);
    } else {
      EmitSound(s.hist.seen, s.emitted, [m]);
    }
  }

  lemma RouteSound(s: State, m: MainEvent, cookie: u64, txid: u64, now: int)
    requires Sound(s) && AsBuiltFrom(s.hist.seen, m) && Bound(s.hist.seen, m, cookie) && m.txid == txid
    ensures Sound(RouteMain(s, m, cookie, txid, now)) && RouteMain(s, m, cookie, txid, now).hist.seen == s.hist.seen
  {
    hide Built, Bound, FirstOf, ParkByTxid, ParkByCookie, RouteOneway;
    EmitSound(s.hist.seen, s.emitted, [m]);
    if cookie == 0 {
      ParkByTxidSound(s, m, txid, now);
    } else {
      RouteOnewaySound(CheckDuplicate(s, cookie), m, cookie, now);
      ParkByCookieSound(CheckDuplicate(s, cookie), m, cookie, now);
    }
  }

  lemma TakeChunkSound(s: State, c: Chunk, now: int)
    requires Sound(s) && c in s.hist.seen.chunks
    ensures Sound(TakeChunk(s, c, now))
  {
    hide Built, Sourced, Without;
    assert FirstOf(s.hist.seen, c.txid, c.meta);
    var t := TakeChunk(s, c, now);
    assert SoundBuffer(s.hist.seen, c.txid, OpenBuffer(s, c, now).buffers[c.txid]);
  }

  lemma DeliverSound(s: State, txid: u64, now: i64)
    requires Sound(s) && txid in s.buffers && Complete(s.buffers[txid].chunks)
    ensures Sound(Deliver(s, txid, now))
  {
    hide RouteMain, Merge, Deliver, FirstOf;
    DeliverCases(s, txid, now);
    var s1, m := s.(buffers := s.buffers - {txid}), Assembled(s, txid, now);
    assert SoundBuffer(s.hist.seen, txid, s.buffers[txid]);
    if m.Some? {
      assert AsBuiltFrom(s.hist.seen, m.value);
      RouteSound(s1, m.value, s.buffers[txid].meta.cookie, txid, now);
    }
  }

  lemma CookiesExpireSound(s: State, now: int, order: seq<u64>)
    requires Sound(s)
    ensures Sound(ExpireCookies(s, now, order))
  {
    hide Expire, Expired, SoundMain, SoundByTxid, SoundOneway, SoundEmitted, SoundBuffer;
    ExpirePart(s.cookies, order, now - PENDING_COOKIE_TTL);
  }

  lemma ChunkSound(s: State, c: Chunk, now: i64, later: int, order: seq<u64>)
    requires Sound(s)
    ensures Sound(HandleChunk(s, c, now, later, order))
  {
    hide TakeChunk, Deliver, ExpireCookies, SoundMain, SoundByTxid, SoundOneway, SoundEmitted,
      SoundBuffer, SoundCookies;
    var n := NoteChunk(s, c);
    SoundGrows(s, n.hist.seen);
    TakeChunkSound(n, c, now);
    TakeChunkFrame(n, c, now);
    var t := TakeChunk(n, c, now);
    if Complete(t.buffers[c.txid].chunks) { DeliverSound(t, c.txid, now); }
    var d := if Complete(t.buffers[c.txid].chunks) then Deliver(t, c.txid, now) else t;
    CleanupSound(d, now, later, order);
  }

  lemma CleanupSound(s: State, now: int, later: int, order: seq<u64>)
    requires Sound(s)
    ensures Sound(MaybeCleanup(s, now, later, order))
  {
    hide ExpireCookies, SoundMain, SoundByTxid, SoundOneway, SoundEmitted, SoundBuffer, SoundCookies;
    var n := (s.eventCounter + 1) % 0x1_0000_0000;
    var kept := FreshBuffers(s.buffers, now - STALE_BUFFER_TTL);
    assert Sound(s.(eventCounter := n, buffers := kept));
    CookiesExpireSound(s.(eventCounter := n, buffers := kept), later, order);
  }

  lemma SidebandSound(s: State, sb: Sideband, now: int)
    requires Sound(s)
    ensures Sound(HandleSideband(s, sb, now))
  {
    hide FirstOf, Trim, Trimmed, Without;
    var n := NoteSideband(s, sb);
    SoundGrows(s, n.hist.seen);
    assert Sound(n);
    if sb.cookie in n.main.items {
      var m := n.main.items[sb.cookie].value;
      assert Built(n.hist.seen, Merged(m, sb)) && Sourced(n.hist.seen, Merged(m, sb));
      EmitSound(n.hist.seen, n.emitted, [Merged(m, sb)]);
    } else {
      TrimPart(Push(n.oneway, sb.cookie, now, sb), PENDING_ONEWAY_CAPACITY);
    }
  }

  lemma CookieSound(s: State, r: CookieRecord, now: int, later: int, order: seq<u64>)
    requires Sound(s)
    ensures Sound(HandleCookie(s, r, now, later, order))
  {
    hide Activate, ExpireCookies, StashCookie, Built, Sourced, FirstOf;
    var n := NoteCookie(s, r);
    SoundGrows(s, n.hist.seen);
    assert Sound(n);
    if r.txid in n.byTxid.items { ActivateSound(n, r.txid, r.cookie); }
    StashSound(n, r, now);
    CookiesExpireSound(StashCookie(n, r, now), later, order);
  }

  lemma StashSound(s: State, r: CookieRecord, now: int)
    requires Sound(s) && r in s.hist.seen.cookieRecords
    ensures Sound(StashCookie(s, r, now))
  {
    hide Trim, Trimmed, SoundMain, SoundByTxid, SoundOneway, SoundEmitted, SoundBuffer;
    var l := if r.txid in s.cookies.items then Touch(s.cookies, r.txid, now, r.cookie)
             else Push(s.cookies, r.txid, now, r.cookie);
    TrimPart(l, PENDING_COOKIE_CAPACITY);
  }

  lemma SweepSound(s: State, now: int, o: Orders)
    requires Sound(s)
    ensures Sound(Sweep(s, now, o))
  {
    hide Expire, Expired, Built, Bound, FirstOf, SoundBuffer, SoundCookies;
    var cutoff := now - PENDING_MAIN_TTL;
    var out := Expired(s.main, o.main, cutoff);
    ExpirePart(s.main, o.main, cutoff);
    PartMain(s.hist.seen, s.main.items, Expire(s.main, o.main, cutoff).items, out);
    EmitSound(s.hist.seen, s.emitted, out);
    ExpirePart(s.byTxid, o.byTxid, cutoff);
    PartByTxid(s.hist.seen, s.byTxid.items, Expire(s.byTxid, o.byTxid, cutoff).items,
               Expired(s.byTxid, o.byTxid, cutoff));
    EmitSound(s.hist.seen, s.emitted + out, Expired(s.byTxid, o.byTxid, cutoff));
    ExpirePart(s.oneway, o.oneway, now - PENDING_ONEWAY_TTL);
  }

  lemma StepSound(s: State, i: Input)
    requires Sound(s)
    ensures Sound(Step(s, i))
  {
    hide Sound, HandleChunk, HandleSideband, HandleCookie, Sweep, ExpireCookies;
    match i
    case ChunkIn(c, now, later, order) => ChunkSound(s, c, now, later, order);
    case SidebandIn(sb, now) => SidebandSound(s, sb, now);
    case CookieIn(r, now, later, order) => CookieSound(s, r, now, later, order);
    case SweepIn(now, o) => SweepSound(s, now, o);
    case SweepCookiesIn(now, order) => CookiesExpireSound(s, now, order);
  }

  lemma {:induction false} RunSound(inputs: seq<Input>)
    ensures Sound(Run(Init(), inputs))
  {
    if inputs != [] {
      RunSound(inputs[..|inputs| - 1]);
      StepSound(Run(Init(), inputs[..|inputs| - 1]), inputs[|inputs| - 1]);
    }
  }

  // The records a run has seen are exactly its inputs

  function SeenIn(inputs: seq<Input>): Seen {
    Seen(set i | i in inputs && i.ChunkIn? :: i.chunk,
         set i | i in inputs && i.SidebandIn? :: i.sideband,
         set i | i in inputs && i.CookieIn? :: i.cookieRecord)
  }

  /** Provenance over every run: an emitted event has the metadata of a chunk received for its
      own transaction and, beyond that, at most the fields of one received sideband whose
      cookie its own chunk carried or a received cookie record bound to its transaction. */
  lemma {:induction false} RunProvenance(inputs: seq<Input>, m: MainEvent)
    requires m in Run(Init(), inputs).emitted
    ensures Built(SeenIn(inputs), m) && Sourced(SeenIn(inputs), m)
  {
    hide Built, Sourced;
    RunSound(inputs);
    RunSeen(inputs);
  }

  lemma {:induction false} RunSeen(inputs: seq<Input>)
    ensures Run(Init(), inputs).hist.seen == SeenIn(inputs)
  {
    hide Step;
    if inputs != [] {
      var before, last := inputs[..|inputs| - 1], inputs[|inputs| - 1];
      RunSeen(before);
      StepSeen(Run(Init(), before), last);
      assert inputs == before + [last];
      assert SeenIn(inputs).chunks == SeenIn(before).chunks + SeenIn([last]).chunks;
      assert SeenIn(inputs).sidebands == SeenIn(before).sidebands + SeenIn([last]).sidebands;
      assert SeenIn(inputs).cookieRecords == SeenIn(before).cookieRecords + SeenIn([last]).cookieRecords;
    }
  }

  lemma RouteSeen(s: State, m: MainEvent, cookie: u64, txid: u64, now: int)
    ensures RouteMain(s, m, cookie, txid, now).hist.seen == s.hist.seen
  {
    hide Trim, Trimmed, Without;
  }

  lemma StepSeen(s: State, i: Input)
    ensures Step(s, i).hist.seen ==
            Seen(s.hist.seen.chunks + SeenIn([i]).chunks, s.hist.seen.sidebands + SeenIn([i]).sidebands,
                 s.hist.seen.cookieRecords + SeenIn([i]).cookieRecords)
  {
    hide Trim, Trimmed, Push, Delete, Touch, Expire, Expired, HandleChunk;
    assert SeenIn([i]) == Seen(if i.ChunkIn? then {i.chunk} else {}, if i.SidebandIn? then {i.sideband} else {},
                               if i.CookieIn? then {i.cookieRecord} else {});
    if i.ChunkIn? { ChunkSeen(s, i.chunk, i.now, i.later, i.order); }
  }

  lemma ChunkSeen(s: State, c: Chunk, now: i64, later: int, order: seq<u64>)
    ensures HandleChunk(s, c, now, later, order).hist.seen == NoteChunk(s, c).hist.seen
  {
    hide HandleChunk, TakeChunk, Deliver, MaybeCleanup, RouteMain, Merge;
    HandleChunkIs(s, c, now, later, order);
    var n := NoteChunk(s, c);
    TakeChunkFrame(n, c, now);
    var t := TakeChunk(n, c, now);
    if Complete(t.buffers[c.txid].chunks) {
      DeliverCases(t, c.txid, now);
      var m := Assembled(t, c.txid, now);
      if m.Some? {
        RouteSeen(t.(buffers := t.buffers - {c.txid}), m.value, t.buffers[c.txid].meta.cookie, c.txid, now);
      }
    }
    CleanupFrame(if Complete(t.buffers[c.txid].chunks) then Deliver(t, c.txid, now) else t, now, later, order);
  }
}
