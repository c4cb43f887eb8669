/** Pairing completeness: a SYNC request whose records all arrive is emitted with its own kernel
    debug id, whatever arrives in between and in whichever order its chunks and its cookie come. */
module Pairing {
  import opened Types
  import opened KeyedList
  import opened CollectorModel
  import opened CollectorProvenance
  import opened CollectorCustody
  import opened CollectorHolding
  import opened Reassembly

  /** A request as the probes see it, SYNC or one-way. */
  datatype Request = Request(txid: u64, cookie: u64, parcel: Bytes, oneway: bool := false)

  predicate SyncChunk(c: Chunk) {
    c.meta.isReply == 0 && c.meta.flags % 2 == 0 && c.meta.cookie == 0
  }

  predicate OnewayChunk(c: Chunk) {
    c.meta.isReply == 0 && c.meta.flags % 2 == 1 && c.meta.cookie == 0
  }

  predicate RequestChunk(c: Chunk, x: Request) { if x.oneway then OnewayChunk(c) else SyncChunk(c) }

  /** The cookie is used for this transaction only, its cookie records all say the same, its chunks are those of a
      request of its kind, and if it is a SYNC request its sideband has not come. */
  predicate Fair(i: Input, x: Request) {
    match i
    case ChunkIn(c, _, _, _) => c.meta.cookie != x.cookie && (c.txid == x.txid ==> RequestChunk(c, x))
    case CookieIn(r, _, _, _) => r.txid == x.txid || r.cookie == x.cookie ==> r == CookieRecord(x.cookie, x.txid)
    case SidebandIn(sb, _) => x.oneway || sb.cookie != x.cookie
    case _ => true
  }

  predicate Mine(i: Input, x: Request) {
    IsChunkOf(i, x.txid) || (i.CookieIn? && i.cookieRecord == CookieRecord(x.cookie, x.txid))
  }

  /** All clock readings of the step fall in the five seconds from `start`. */
  predicate InWindow(i: Input, start: int) {
    && start <= i.now <= start + PENDING_MAIN_TTL
    && (i.ChunkIn? || i.CookieIn? ==> start <= i.later <= start + PENDING_MAIN_TTL)
  }

  /** The waiting maps have room for one more entry. */
  predicate Roomy(s: State) {
    && |s.main.list.nodes| < PENDING_MAIN_CAPACITY
    && |s.byTxid.list.nodes| < PENDING_MAIN_CAPACITY
    && |s.cookies.list.nodes| < PENDING_COOKIE_CAPACITY
  }

  // What the state says about the request

  ghost predicate Same<V>(a: map<u64, Entry<V>>, b: map<u64, Entry<V>>, k: u64) {
    (k in a <==> k in b) && (k in a ==> a[k] == b[k])
  }

  /** The request's entries, wherever they are, were made in the window. */
  ghost predicate YoungEnough(s: State, x: Request, start: int) {
    && (x.txid in s.buffers ==> s.buffers[x.txid].firstSeen >= start)
    && (x.txid in s.byTxid.items ==> s.byTxid.items[x.txid].at >= start)
    && (x.txid in s.cookies.items ==> s.cookies.items[x.txid].at >= start)
    && (x.cookie in s.main.items ==> s.main.items[x.cookie].at >= start)
  }

  ghost predicate EventOf(m: MainEvent, x: Request, first: TxMeta) {
    && |x.parcel| <= CHUNK_SIZE * MAX_CHUNKS
    && m == EventFrom(x.txid, first, x.parcel, m.base.timestamp)
  }

  /** Where the request is, given the chunks `cs` and whether its cookie has come. */
  ghost predicate Track(s: State, x: Request, cs: seq<Chunk>, got: bool)
    requires |x.parcel| <= CHUNK_SIZE * MAX_CHUNKS
  {
    if !Whole(cs, x.parcel) then
      && EventsOf(s.hist.completed, x.txid) == []
      && x.txid !in s.byTxid.items && x.cookie !in s.main.items
      && (if cs == [] then
            && x.txid !in s.buffers
            && (got <==> x.txid in s.cookies.items)
            && (got ==> s.cookies.items[x.txid].value == x.cookie)
          else
            && x.txid in s.buffers && Opened(s.buffers[x.txid], cs, x.parcel)
            && s.buffers[x.txid].meta.cookie == if got then x.cookie else 0)
    else
      && cs != [] && x.txid !in s.buffers
      && (if x.oneway then
            x.txid !in s.byTxid.items && x.cookie !in s.main.items
            && |EventsOf(s.hist.completed, x.txid)| == 1
            && EventOf(EventsOf(s.hist.completed, x.txid)[0], x, cs[0].meta)
          else if got then
            x.txid !in s.byTxid.items
            && x.cookie in s.main.items && EventOf(s.main.items[x.cookie].value, x, cs[0].meta)
            && EventsOf(s.hist.completed, x.txid) == [s.main.items[x.cookie].value]
          else
            x.txid in s.byTxid.items && EventOf(s.byTxid.items[x.txid].value, x, cs[0].meta)
            && EventsOf(s.hist.completed, x.txid) == [s.byTxid.items[x.txid].value])
  }

  // Other records

  lemma TrimRoomy<V>(l: Lru<V>, key: u64, at: int, v: V, cap: nat)
    requires |l.list.nodes| < cap
    ensures Trim(Push(l, key, at, v), cap) == Push(l, key, at, v)
    ensures Trimmed(Push(l, key, at, v), cap) == []
  {
  }

  lemma OtherRoute(s: State, m: MainEvent, cookie: u64, txid: u64, now: int, x: Request)
    requires Roomy(s) && txid != x.txid && cookie != x.cookie
    ensures var r := RouteMain(s, m, cookie, txid, now);
            && Same(s.byTxid.items, r.byTxid.items, x.txid) && Same(s.main.items, r.main.items, x.cookie)
  {
    hide ParkByTxid, ParkByCookie, RouteOneway, CheckDuplicate, Same;
    var checked := CheckDuplicate(s, cookie);
    CheckFrame(s, cookie);
    OnewayWaits(checked, m, cookie, now);
    AllSame(s.main.items, x.cookie);
    AllSame(s.byTxid.items, x.txid);
    if cookie == 0 { OtherParkByTxid(s, m, txid, now, x); } else { OtherParkByCookie(checked, m, cookie, now, x); }
  }

  lemma AllSame<V>(a: map<u64, Entry<V>>, k: u64)
    ensures Same(a, a, k)
  {}

  /** Deleting, pushing and trimming with room to spare leave the other keys alone. */
  lemma DeleteSame<V>(l: Lru<V>, key: u64, k: u64)
    requires key in l.items && k != key
    ensures Same(l.items, Delete(l, key).items, k) && |Delete(l, key).list.nodes| <= |l.list.nodes|
  {
    hide Without;
    WithoutShorter(l.list.nodes, l.items[key].elem);
  }

  lemma PushSame<V>(l: Lru<V>, key: u64, at: int, v: V, cap: nat, k: u64)
    requires |l.list.nodes| < cap && k != key
    ensures Same(l.items, Trim(Push(l, key, at, v), cap).items, k)
  {
    hide Trim, Trimmed;
    TrimRoomy(l, key, at, v, cap);
  }

  lemma OtherParkByTxid(s: State, m: MainEvent, txid: u64, now: int, x: Request)
    requires Roomy(s) && txid != x.txid
    ensures var r := ParkByTxid(s, m, txid, now); Same(s.byTxid.items, r.byTxid.items, x.txid) && r.main == s.main
  {
    hide Trim, Trimmed, Push, Delete;
    if txid in s.byTxid.items { DeleteSame(s.byTxid, txid, x.txid); }
    var l := if txid in s.byTxid.items then Delete(s.byTxid, txid) else s.byTxid;
    PushSame(l, txid, now, m, PENDING_MAIN_CAPACITY, x.txid);
  }

  lemma OtherParkByCookie(s: State, m: MainEvent, cookie: u64, now: int, x: Request)
    requires Roomy(s) && cookie != x.cookie
    ensures var r := ParkByCookie(s, m, cookie, now);
            Same(s.main.items, r.main.items, x.cookie) && r.byTxid == s.byTxid
  {
    hide Trim, Trimmed, Push;
    PushSame(s.main, cookie, now, m, PENDING_MAIN_CAPACITY, x.cookie);
  }

  lemma ExpireSame<V>(l: Lru<V>, keys: seq<u64>, cutoff: int, k: u64)
    requires k in l.items ==> l.items[k].at >= cutoff
    ensures Same(l.items, Expire(l, keys, cutoff).items, k)
  {
    hide Expire, Expired;
    ExpirePart(l, keys, cutoff);
  }

  lemma CleanupSame(s: State, now: int, later: int, order: seq<u64>, x: Request, start: int)
    requires YoungEnough(s, x, start) && later <= start + PENDING_MAIN_TTL
    ensures Same(s.cookies.items, MaybeCleanup(s, now, later, order).cookies.items, x.txid)
  {
    hide Expire;
    ExpireSame(s.cookies, order, later - PENDING_COOKIE_TTL, x.txid);
  }

  lemma OtherChunkSame(s: State, i: Input, x: Request, start: int)
    requires i.ChunkIn? && i.chunk.txid != x.txid && Fair(i, x) && InWindow(i, start)
    requires Sound(s) && Roomy(s) && YoungEnough(s, x, start)
    requires forall r :: r in s.hist.seen.cookieRecords && r.cookie == x.cookie ==> r.txid == x.txid
    requires forall c :: c in s.hist.seen.chunks ==> c.meta.cookie != x.cookie
    ensures var r := Step(s, i);
            && Same(s.byTxid.items, r.byTxid.items, x.txid) && Same(s.main.items, r.main.items, x.cookie)
            && Same(s.cookies.items, r.cookies.items, x.txid)
  {
    hide TakeChunk, Deliver, MaybeCleanup, RouteMain, Merge, Sound, Without, HandleChunk;
    var c := i.chunk;
    StepChunk(s, i);
    var n := NoteChunk(s, c);
    var t := TakeChunk(n, c, i.now);
    TakeChunkFrame(n, c, i.now);
    OtherTake(n, c, i.now, x);
    var full := Complete(t.buffers[c.txid].chunks);
    var d := if full then Deliver(t, c.txid, i.now) else t;
    if full {
      DeliverCases(t, c.txid, i.now);
      DeliverFrame(t, c.txid, i.now);
      OtherCookie(s, c, i.now, x);
      var m := Assembled(t, c.txid, i.now);
      if m.Some? {
        OtherRoute(t.(buffers := t.buffers - {c.txid}), m.value, t.buffers[c.txid].meta.cookie, c.txid, i.now, x);
      }
    }
    assert HandleChunk(s, c, i.now, i.later, i.order) == MaybeCleanup(d, i.now, i.later, i.order) by {
      HandleChunkIs(s, c, i.now, i.later, i.order);
    }
    CleanupFrame(d, i.now, i.later, i.order);
    CleanupSame(d, i.now, i.later, i.order, x, start);
  }

  lemma OtherTake(s: State, c: Chunk, now: int, x: Request)
    requires c.txid != x.txid
    ensures Same(s.cookies.items, TakeChunk(s, c, now).cookies.items, x.txid)
    ensures |TakeChunk(s, c, now).cookies.list.nodes| <= |s.cookies.list.nodes|
  {
    hide Without;
    if c.txid in s.cookies.items { WithoutShorter(s.cookies.list.nodes, s.cookies.items[c.txid].elem); }
  }

  /** No other transaction's buffer ever carries the request's cookie. */
  lemma OtherCookie(s: State, c: Chunk, now: int, x: Request)
    requires Sound(s) && c.txid != x.txid && c.meta.cookie != x.cookie
    requires forall r :: r in s.hist.seen.cookieRecords && r.cookie == x.cookie ==> r.txid == x.txid
    requires forall d :: d in s.hist.seen.chunks ==> d.meta.cookie != x.cookie
    ensures TakeChunk(NoteChunk(s, c), c, now).buffers[c.txid].meta.cookie != x.cookie
  {
    hide Without, SoundMain, SoundByTxid, SoundOneway, SoundEmitted;
    if c.txid in s.buffers { assert SoundBuffer(s.hist.seen, c.txid, s.buffers[c.txid]); }
  }

  lemma OtherCookieRecordSame(s: State, i: Input, x: Request, start: int)
    requires i.CookieIn? && i.cookieRecord.txid != x.txid && i.cookieRecord.cookie != x.cookie && InWindow(i, start)
    requires Roomy(s) && YoungEnough(s, x, start)
    ensures var r := Step(s, i);
            && Same(s.byTxid.items, r.byTxid.items, x.txid) && Same(s.main.items, r.main.items, x.cookie)
            && Same(s.cookies.items, r.cookies.items, x.txid)
  {
    hide Activate, StashCookie, ExpireCookies, Same;
    var r := i.cookieRecord;
    var n := NoteCookie(s, r);
    AllSame(s.main.items, x.cookie);
    AllSame(s.byTxid.items, x.txid);
    AllSame(s.cookies.items, x.txid);
    OtherStash(n, r, i.now, i.later, i.order, x, start);
    if r.txid in s.byTxid.items { OtherActivate(n, r.txid, r.cookie, x); }
  }

  lemma OtherStash(s: State, r: CookieRecord, now: int, later: int, order: seq<u64>, x: Request, start: int)
    requires r.txid != x.txid && later <= start + PENDING_MAIN_TTL && Roomy(s) && YoungEnough(s, x, start)
    ensures var t := ExpireCookies(StashCookie(s, r, now), later, order);
            && Same(s.cookies.items, t.cookies.items, x.txid) && t.main == s.main && t.byTxid == s.byTxid
  {
    hide Trim, Expire, Without;
    var l := if r.txid in s.cookies.items then Touch(s.cookies, r.txid, now, r.cookie)
             else Push(s.cookies, r.txid, now, r.cookie);
    StashRoomy(s.cookies, r.txid, now, r.cookie);
    ExpireSame(l, order, later - PENDING_COOKIE_TTL, x.txid);
  }

  lemma OtherActivate(s: State, txid: u64, cookie: u64, x: Request)
    requires Roomy(s) && txid in s.byTxid.items && txid != x.txid && cookie != x.cookie
    ensures var t := Activate(s, txid, cookie);
            && Same(s.main.items, t.main.items, x.cookie) && Same(s.byTxid.items, t.byTxid.items, x.txid)
            && t.cookies == s.cookies
  {
    hide Trim, Trimmed, Push, Delete;
    var e := s.byTxid.items[txid];
    DeleteSame(s.byTxid, txid, x.txid);
    if cookie in s.main.items { DeleteSame(s.main, cookie, x.cookie); }
    var l := if cookie in s.main.items then Delete(s.main, cookie) else s.main;
    PushSame(l, cookie, e.at, e.value, PENDING_MAIN_CAPACITY, x.cookie);
  }

  lemma StashRoomy(l: Lru<u64>, txid: u64, now: int, cookie: u64)
    requires |l.list.nodes| < PENDING_COOKIE_CAPACITY
    ensures var t := if txid in l.items then Touch(l, txid, now, cookie) else Push(l, txid, now, cookie);
            Trim(t, PENDING_COOKIE_CAPACITY) == t
  {
    if txid in l.items { WithoutShorter(l.list.nodes, l.items[txid].elem); }
  }

  lemma OtherSweepSame(s: State, i: Input, x: Request, start: int)
    requires (i.SweepIn? || i.SweepCookiesIn?) && InWindow(i, start) && YoungEnough(s, x, start)
    ensures var r := Step(s, i);
            && Same(s.byTxid.items, r.byTxid.items, x.txid) && Same(s.main.items, r.main.items, x.cookie)
            && Same(s.cookies.items, r.cookies.items, x.txid)
  {
    hide Expire, Expired;
    if i.SweepIn? {
      ExpireSame(s.main, i.orders.main, i.now - PENDING_MAIN_TTL, x.cookie);
      ExpireSame(s.byTxid, i.orders.byTxid, i.now - PENDING_MAIN_TTL, x.txid);
    } else {
      ExpireSame(s.cookies, i.order, i.now - PENDING_COOKIE_TTL, x.txid);
    }
  }

  lemma OtherSidebandSame(s: State, i: Input, x: Request)
    requires i.SidebandIn? && (i.sideband.cookie != x.cookie || x.cookie !in s.main.items)
    ensures var r := Step(s, i);
            && Same(s.byTxid.items, r.byTxid.items, x.txid) && Same(s.main.items, r.main.items, x.cookie)
            && Same(s.cookies.items, r.cookies.items, x.txid)
  {
    hide Without, Trim, Trimmed;
  }

  ghost predicate Exclusive(seen: Seen, x: Request) {
    && (forall r :: r in seen.cookieRecords && r.cookie == x.cookie ==> r.txid == x.txid)
    && (forall c :: c in seen.chunks ==> c.meta.cookie != x.cookie)
  }

  lemma OtherTrack(s: State, i: Input, x: Request, cs: seq<Chunk>, got: bool, start: int)
    requires |x.parcel| <= CHUNK_SIZE * MAX_CHUNKS
    requires Track(s, x, cs, got) && YoungEnough(s, x, start) && Sound(s) && Roomy(s) && Exclusive(s.hist.seen, x)
    requires Fair(i, x) && !Mine(i, x) && InWindow(i, start)
    ensures Track(Step(s, i), x, cs, got) && YoungEnough(Step(s, i), x, start)
  {
    hide Step, Sound, Roomy, Opened, Whole, EventsOf;
    OtherStep(s, i, x.txid);
    match i
    case ChunkIn(_, _, _, _) => OtherChunkSame(s, i, x, start);
    case CookieIn(_, _, _, _) => OtherCookieRecordSame(s, i, x, start);
    case SidebandIn(_, _) => OtherSidebandSame(s, i, x);
    case _ => OtherSweepSame(s, i, x, start);
  }

  // The request's own records

  /** The request's cookie record: stashed, put into the buffer, or used to move the waiting main. */
  lemma CookieTrack(s: State, i: Input, x: Request, cs: seq<Chunk>, got: bool, start: int)
    requires 0 < |x.parcel| <= CHUNK_SIZE * MAX_CHUNKS && x.txid != 0 && x.cookie != 0
    requires Track(s, x, cs, got) && YoungEnough(s, x, start) && Roomy(s)
    requires i.CookieIn? && i.cookieRecord == CookieRecord(x.cookie, x.txid) && InWindow(i, start)
    ensures Track(Step(s, i), x, cs, true) && YoungEnough(Step(s, i), x, start)
  {
    hide Without, Trim, Trimmed, Expire, Whole, Filled, EventsOf;
    var l := if x.txid in s.cookies.items then Touch(s.cookies, x.txid, i.now, x.cookie)
             else Push(s.cookies, x.txid, i.now, x.cookie);
    StashRoomy(s.cookies, x.txid, i.now, x.cookie);
    ExpireSame(l, i.order, i.later - PENDING_COOKIE_TTL, x.txid);
    if x.txid in s.byTxid.items {
      var e := s.byTxid.items[x.txid];
      if x.cookie in s.main.items { WithoutShorter(s.main.list.nodes, s.main.items[x.cookie].elem); }
      TrimRoomy(if x.cookie in s.main.items then Delete(s.main, x.cookie) else s.main,
                x.cookie, e.at, e.value, PENDING_MAIN_CAPACITY);
    }
  }

  lemma TakeCookie(s: State, c: Chunk, now: int)
    ensures TakeChunk(s, c, now).buffers[c.txid].meta.cookie ==
            if c.txid in s.buffers then s.buffers[c.txid].meta.cookie
            else if c.meta.cookie == 0 && c.txid in s.cookies.items then s.cookies.items[c.txid].value
            else c.meta.cookie
    ensures c.txid in TakeChunk(s, c, now).cookies.items ==>
              c.txid in s.cookies.items && TakeChunk(s, c, now).cookies.items[c.txid] == s.cookies.items[c.txid]
  {
    hide Without;
  }

  lemma CleanupYoung(s: State, now: int, later: int, order: seq<u64>, x: Request, start: int)
    requires YoungEnough(s, x, start)
    ensures YoungEnough(MaybeCleanup(s, now, later, order), x, start)
  {
    hide Expire, Expired;
    ExpirePart(s.cookies, order, later - PENDING_COOKIE_TTL);
  }

  /** A chunk of the request that is not its last. */
  lemma MoreTrack(s: State, i: Input, x: Request, cs: seq<Chunk>, got: bool, start: int)
    requires IsChunkOf(i, x.txid) && RequestChunk(i.chunk, x) && InWindow(i, start)
    requires Pieces(cs + [i.chunk], x.parcel) && !Whole(cs + [i.chunk], x.parcel) && !Whole(cs, x.parcel)
    requires Track(s, x, cs, got) && YoungEnough(s, x, start)
    ensures Track(Step(s, i), x, cs + [i.chunk], got) && YoungEnough(Step(s, i), x, start)
  {
    hide HandleChunk, TakeChunk, Deliver, MaybeCleanup, Opened, Whole, Pieces, Complete, EventsOf;
    var c := i.chunk;
    var n := NoteChunk(s, c);
    var t := TakeChunk(n, c, i.now);
    StepChunk(s, i);
    MoreStep(s, c, i.now, i.later, i.order, cs, x.parcel);
    HandleChunkIs(s, c, i.now, i.later, i.order);
    TakeOpened(n, c, i.now, cs, x.parcel);
    CompleteIffWhole(t.buffers[c.txid], cs + [c], x.parcel);
    TakeCookie(n, c, i.now);
    TakeChunkFrame(n, c, i.now);
    CleanupFrame(t, i.now, i.later, i.order);
    CleanupYoung(t, i.now, i.later, i.order, x, start);
  }

  lemma ParkedWhere(s: State, m: MainEvent, cookie: u64, txid: u64, now: int, x: Request, first: TxMeta)
    requires |s.main.list.nodes| < PENDING_MAIN_CAPACITY && |s.byTxid.list.nodes| < PENDING_MAIN_CAPACITY
    requires txid == x.txid && x.txid != 0 && x.cookie != 0 && (cookie == 0 || cookie == x.cookie)
    requires m.event.isReply == 0 && !IsOneway(m.event.flags)
    ensures var r := RouteMain(s, m, cookie, txid, now);
            if cookie == 0
            then x.txid in r.byTxid.items && r.byTxid.items[x.txid].value == m && r.byTxid.items[x.txid].at == now
                 && r.main == s.main
            else x.cookie in r.main.items && r.main.items[x.cookie].value == m && r.main.items[x.cookie].at == now
                 && r.byTxid == s.byTxid
  {
    hide Without, Trim, Trimmed;
    var s1 := if txid in s.byTxid.items then ReleaseByTxid(s, txid) else s;
    if txid in s.byTxid.items { WithoutShorter(s.byTxid.list.nodes, s.byTxid.items[txid].elem); }
    TrimRoomy(s1.byTxid, txid, now, m, PENDING_MAIN_CAPACITY);
    TrimRoomy(s.main, cookie, now, m, PENDING_MAIN_CAPACITY);
  }

  lemma OnewayPasses(s: State, m: MainEvent, cookie: u64, txid: u64, now: int)
    requires IsOneway(m.event.flags)
    ensures var r := RouteMain(s, m, cookie, txid, now); r.main == s.main && r.byTxid == s.byTxid
  {
    hide RouteOneway, CheckDuplicate;
    CheckFrame(s, cookie);
    OnewayWaits(CheckDuplicate(s, cookie), m, cookie, now);
  }

  /** The last chunk of the request: a SYNC request now waits, under its cookie if that has come. */
  lemma LastTrack(s: State, i: Input, x: Request, cs: seq<Chunk>, got: bool, start: int)
    requires x.txid != 0 && x.cookie != 0
    requires IsChunkOf(i, x.txid) && InWindow(i, start)
    requires forall c :: c in cs + [i.chunk] ==> RequestChunk(c, x)
    requires Pieces(cs + [i.chunk], x.parcel) && Whole(cs + [i.chunk], x.parcel) && !Whole(cs, x.parcel)
    requires Track(s, x, cs, got) && YoungEnough(s, x, start) && Roomy(s)
    ensures Track(Step(s, i), x, cs + [i.chunk], got) && YoungEnough(Step(s, i), x, start)
  {
    hide HandleChunk, TakeChunk, Deliver, MaybeCleanup, Opened, Whole, Pieces, Complete, RouteMain, Merge, EventsOf;
    var c := i.chunk;
    var n := NoteChunk(s, c);
    var t := TakeChunk(n, c, i.now);
    StepChunk(s, i);
    LastStep(s, c, i.now, i.later, i.order, cs, x.parcel);
    HandleChunkIs(s, c, i.now, i.later, i.order);
    TakeOpened(n, c, i.now, cs, x.parcel);
    TakeCookie(n, c, i.now);
    TakeChunkFrame(n, c, i.now);
    DeliverCases(t, c.txid, i.now);
    DeliverFrame(t, c.txid, i.now);
    var first := (cs + [c])[0].meta;
    assert (cs + [c])[0] in cs + [c];
    var m := EventFrom(x.txid, first, x.parcel, i.now);
    var t1 := t.(buffers := t.buffers - {c.txid});
    if x.oneway {
      OnewayPasses(t1, m, t.buffers[c.txid].meta.cookie, x.txid, i.now);
    } else {
      ParkedWhere(t1, m, t.buffers[c.txid].meta.cookie, x.txid, i.now, x, first);
    }
    EventsOfLast(s.hist.completed, m, x.txid);
    var d := Deliver(t, c.txid, i.now);
    CleanupFrame(d, i.now, i.later, i.order);
    assert YoungEnough(d, x, start);
    CleanupYoung(d, i.now, i.later, i.order, x, start);
  }

  // Runs

  predicate GotCookie(inputs: seq<Input>, x: Request) {
    exists i :: i in inputs && i.CookieIn? && i.cookieRecord == CookieRecord(x.cookie, x.txid)
  }

  /** The run brings nothing of the request before `during`; in `during` everything is fair,
      within five seconds, and the waiting maps never run full. */
  ghost predicate Scenario(before: seq<Input>, during: seq<Input>, x: Request, start: int) {
    && x.txid != 0 && x.cookie != 0
    && (forall i :: i in before ==> Fair(i, x) && !Mine(i, x))
    && (forall i :: i in during ==> Fair(i, x) && InWindow(i, start))
    && (forall k :: 0 <= k <= |during| ==> Roomy(Run(Init(), before + during[..k])))
    && Pieces(ChunksOf(during, x.txid), x.parcel)
  }

  lemma {:induction false} SeenExclusive(inputs: seq<Input>, x: Request)
    requires forall i :: i in inputs ==> Fair(i, x)
    ensures Exclusive(SeenIn(inputs), x)
  {
  }

  lemma AbsentBefore(before: seq<Input>, x: Request)
    requires forall i :: i in before ==> Fair(i, x) && !Mine(i, x)
    ensures var s := Run(Init(), before);
            && x.txid !in s.buffers && x.txid !in s.byTxid.items && x.txid !in s.cookies.items
            && x.cookie !in s.main.items && EventsOf(s.hist.completed, x.txid) == []
  {
    hide EventsOf, Step;
    var s := Run(Init(), before);
    NoneCompleted(before, x.txid);
    RunSound(before);
    RunSeen(before);
    assert forall c :: c in s.hist.seen.chunks ==> c.txid != x.txid && c.meta.cookie != x.cookie;
    assert forall r :: r in s.hist.seen.cookieRecords ==> r.txid != x.txid && r.cookie != x.cookie;
  }

  lemma {:induction false} NoneCompleted(inputs: seq<Input>, txid: u64)
    requires forall i :: i in inputs ==> !IsChunkOf(i, txid)
    ensures EventsOf(Run(Init(), inputs).hist.completed, txid) == [] && txid !in Run(Init(), inputs).buffers
  {
    hide Step;
    if inputs != [] {
      NoneCompleted(inputs[..|inputs| - 1], txid);
      OtherStep(Run(Init(), inputs[..|inputs| - 1]), inputs[|inputs| - 1], txid);
    }
  }

  lemma ScenarioFront(before: seq<Input>, during: seq<Input>, x: Request, start: int)
    requires Scenario(before, during, x, start) && during != []
    ensures Scenario(before, during[..|during| - 1], x, start)
  {
    hide Pieces, Roomy, Run;
    var front, last := during[..|during| - 1], during[|during| - 1];
    assert forall k :: 0 <= k <= |front| ==> front[..k] == during[..k];
    if IsChunkOf(last, x.txid) {
      PiecesFront(ChunksOf(front, x.txid), last.chunk, x.parcel);
    } else {
      assert ChunksOf(during, x.txid) == ChunksOf(front, x.txid);
    }
  }

  lemma {:induction false} RunTracks(before: seq<Input>, during: seq<Input>, x: Request, start: int)
    requires Scenario(before, during, x, start)
    ensures var s := Run(Init(), before + during);
            && Track(s, x, ChunksOf(during, x.txid), GotCookie(during, x)) && YoungEnough(s, x, start)
    decreases |during|
  {
    hide Step, Opened, Whole, Pieces, Roomy, Run;
    if during == [] {
      assert before + during == before;
      AbsentBefore(before, x);
      EmptyNotWhole(x.parcel);
    } else {
      var front, last := during[..|during| - 1], during[|during| - 1];
      ScenarioFront(before, during, x, start);
      RunTracks(before, front, x, start);
      assert during == front + [last];
      TracksStep(before, front, last, x, start);
      assert before + front + [last] == before + during;
    }
  }

  lemma EmptyNotWhole(parcel: Bytes)
    requires Pieces([], parcel)
    ensures !Whole([], parcel)
  {
    TotalChunksOf(parcel);
    assert !HasIndex([], 0);
  }

  lemma TracksStep(before: seq<Input>, front: seq<Input>, last: Input, x: Request, start: int)
    requires Scenario(before, front, x, start) && Scenario(before, front + [last], x, start)
    requires Track(Run(Init(), before + front), x, ChunksOf(front, x.txid), GotCookie(front, x))
    requires YoungEnough(Run(Init(), before + front), x, start)
    ensures var s, during := Run(Init(), before + front + [last]), front + [last];
            && Track(s, x, ChunksOf(during, x.txid), GotCookie(during, x)) && YoungEnough(s, x, start)
  {
    hide Step, Opened, Whole, Roomy, Track, YoungEnough, Sound, Run, ChunksOf;
    var s, cs, got := Run(Init(), before + front), ChunksOf(front, x.txid), GotCookie(front, x);
    var during := front + [last];
    assert last in during;
    assert during[..|front|] == front && front[..|front|] == front;
    RunLast(Init(), before + front, last);
    ChunksLast(front, last, x.txid);
    RunSound(before + front);
    RunSeen(before + front);
    SeenExclusive(before + front, x);
    if IsChunkOf(last, x.txid) {
      PiecesFront(cs, last.chunk, x.parcel);
      GotLast(front, last, x);
      ChunksSync(during, x);
      if Whole(cs + [last.chunk], x.parcel) {
        LastTrack(s, last, x, cs, got, start);
      } else {
        MoreTrack(s, last, x, cs, got, start);
      }
    } else if Mine(last, x) {
      assert GotCookie(during, x);
      assert cs + [] == cs;
      CookieTrack(s, last, x, cs, got, start);
    } else {
      assert cs + [] == cs;
      GotLast(front, last, x);
      OtherTrack(s, last, x, cs, got, start);
    }
  }

  lemma GotLast(front: seq<Input>, last: Input, x: Request)
    requires !(last.CookieIn? && last.cookieRecord == CookieRecord(x.cookie, x.txid))
    ensures GotCookie(front + [last], x) == GotCookie(front, x)
  {
    if GotCookie(front, x) {
      var i :| i in front && i.CookieIn? && i.cookieRecord == CookieRecord(x.cookie, x.txid);
      assert i in front + [last];
    }
  }

  lemma {:induction false} ChunksSync(inputs: seq<Input>, x: Request)
    requires forall i :: i in inputs ==> Fair(i, x)
    ensures forall c :: c in ChunksOf(inputs, x.txid) ==> RequestChunk(c, x)
  {
    if inputs != [] {
      ChunksSync(inputs[..|inputs| - 1], x);
      assert inputs[|inputs| - 1] in inputs;
    }
  }

  // Exactly once

  lemma {:induction false} OriginsAt(q: seq<MainEvent>)
    ensures |Origins(q)| == |q| && forall i :: 0 <= i < |q| ==> Origins(q)[i] == Origin(q[i])
  {
    if q != [] { OriginsAt(q[..|q| - 1]); }
  }

  lemma {:induction false} EventsOfCount(q: seq<MainEvent>, txid: u64, m: MainEvent)
    requires m.txid == txid
    ensures multiset(q)[m] == multiset(EventsOf(q, txid))[m]
  {
    if q != [] {
      assert q == q[..|q| - 1] + [q[|q| - 1]];
      EventsOfCount(q[..|q| - 1], txid, m);
    }
  }

  /** Handling a record only ever adds to what was emitted. */
  lemma StepEmits(s: State, i: Input)
    ensures s.emitted <= Step(s, i).emitted
  {
    hide Trim, Trimmed, Without, Expire, Expired, TakeChunk, Deliver, MaybeCleanup, RouteMain, Merge, HandleChunk;
    if i.ChunkIn? {
      var n := NoteChunk(s, i.chunk);
      TakeChunkFrame(n, i.chunk, i.now);
      HandleChunkIs(s, i.chunk, i.now, i.later, i.order);
      var t := TakeChunk(n, i.chunk, i.now);
      if Complete(t.buffers[i.chunk.txid].chunks) {
        DeliverCases(t, i.chunk.txid, i.now);
        var m := Assembled(t, i.chunk.txid, i.now);
        if m.Some? {
          RouteEmits(t.(buffers := t.buffers - {i.chunk.txid}), m.value,
                     t.buffers[i.chunk.txid].meta.cookie, i.chunk.txid, i.now);
        }
      }
      CleanupFrame(if Complete(t.buffers[i.chunk.txid].chunks) then Deliver(t, i.chunk.txid, i.now) else t,
                   i.now, i.later, i.order);
    }
  }

  lemma RouteEmits(s: State, m: MainEvent, cookie: u64, txid: u64, now: int)
    ensures s.emitted <= RouteMain(s, m, cookie, txid, now).emitted
  {
    hide Trim, Trimmed, Without;
  }

  lemma {:induction false} RunAfter(s: State, after: seq<Input>, txid: u64)
    requires txid !in s.buffers && forall i :: i in after ==> !IsChunkOf(i, txid)
    ensures var r := Run(s, after);
            && s.emitted <= r.emitted && txid !in r.buffers
            && EventsOf(r.hist.completed, txid) == EventsOf(s.hist.completed, txid)
  {
    hide Step, EventsOf;
    if after != [] {
      var front, last := after[..|after| - 1], after[|after| - 1];
      RunAfter(s, front, txid);
      OtherStep(Run(s, front), last, txid);
      StepEmits(Run(s, front), last);
    }
  }

  /** A transaction that completed once is emitted at most once. */
  lemma EmittedOnce(s: State, txid: u64, m: MainEvent, i: nat)
    requires Custody(s) && EventsOf(s.hist.completed, txid) == [m] && m.txid == txid
    requires i < |s.emitted| && s.emitted[i].txid == txid
    ensures Origin(s.emitted[i]) == m
    ensures forall j :: 0 <= j < |s.emitted| && s.emitted[j].txid == txid ==> j == i
  {
    hide Origins, EventsOf, Values;
    OriginsAt(s.emitted);
    var q := Origins(s.emitted);
    assert forall x :: multiset(q)[x] <= multiset(s.hist.completed)[x];
    forall j | 0 <= j < |q| && q[j].txid == txid ensures q[j] == m {
      EventsOfCount(s.hist.completed, txid, q[j]);
      assert q[j] in q && q[j] in multiset(q);
    }
    EventsOfCount(s.hist.completed, txid, m);
    forall j | 0 <= j < |s.emitted| && s.emitted[j].txid == txid ensures j == i {
      assert q[j] == m && q[i] == m;
      if j < i { TwiceCounts(q, j, i); } else if i < j { TwiceCounts(q, i, j); }
    }
  }

  /** Pairing completeness: once every chunk of a SYNC request and its cookie record have been
      handled, in any order and among any other records, within five seconds and with room in
      the maps, its sideband emits its parcel with its kernel debug id. Whatever follows, that is
      the one event ever emitted for the transaction. */
  lemma RequestPaired(before: seq<Input>, during: seq<Input>, x: Request, start: int, sb: Sideband, now: i64,
                      after: seq<Input>)
    requires Scenario(before, during, x, start) && sb.cookie == x.cookie && !x.oneway
    requires Whole(ChunksOf(during, x.txid), x.parcel) && GotCookie(during, x)
    requires forall i :: i in after ==> !IsChunkOf(i, x.txid)
    ensures var cs, s, r := ChunksOf(during, x.txid), Run(Init(), before + during),
                            Run(Init(), before + during + [SidebandIn(sb, now)] + after);
            && cs != [] && |s.emitted| < |r.emitted|
            && (exists t: i64 ::
                  r.emitted[|s.emitted|] == Merged(EventFrom(x.txid, cs[0].meta, x.parcel, t), sb))
            && (cs[0].meta.pairId == 0 && sb.debugId != 0 ==> r.emitted[|s.emitted|].event.pairId == sb.debugId)
            && (forall j :: 0 <= j < |r.emitted| && r.emitted[j].txid == x.txid ==> j == |s.emitted|)
    ensures var s1 := Run(Init(), before + during + [SidebandIn(sb, now)]);
            x.cookie !in s1.main.items && x.txid !in s1.byTxid.items && x.txid !in s1.buffers
  {
    hide Opened, Whole, Pieces, Run, Without, EventsOf, Custody, Step;
    RunTracks(before, during, x, start);
    var s := Run(Init(), before + during);
    var m := s.main.items[x.cookie].value;
    assert m == EventFrom(x.txid, ChunksOf(during, x.txid)[0].meta, x.parcel, m.base.timestamp);
    RunSideband(before + during, sb, now);
    var s1 := Run(Init(), before + during + [SidebandIn(sb, now)]);
    assert s1.emitted == s.emitted + [Merged(m, sb)];
    RunSplit(Init(), before + during + [SidebandIn(sb, now)], after);
    RunAfter(s1, after, x.txid);
    var r := Run(s1, after);
    assert r.emitted[|s.emitted|] == s1.emitted[|s.emitted|];
    RunKept(before + during + [SidebandIn(sb, now)] + after);
    EmittedOnce(r, x.txid, m, |s.emitted|);
  }

  lemma RunSideband(inputs: seq<Input>, sb: Sideband, now: i64)
    ensures Run(Init(), inputs + [SidebandIn(sb, now)]) == HandleSideband(Run(Init(), inputs), sb, now)
  {
    hide HandleSideband;
    assert (inputs + [SidebandIn(sb, now)])[..|inputs|] == inputs;
  }
}
