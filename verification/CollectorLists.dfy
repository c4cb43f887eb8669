/** Each of the five maps agrees with its LRU list and stays within its capacity, in every run. */
module CollectorLists {
  import opened Types
  import opened KeyedList
  import opened CollectorModel

  ghost predicate InCapacity<V>(l: Lru<V>, cap: nat) {
    Agree(l) && |l.list.nodes| <= cap
  }

  /** Four maps always agree with their lists; pendingMain does as long as no waiting main has
      been overwritten, and its entries are in its list in any case. */
  ghost predicate Lists(s: State) {
    && InCapacity(s.cookies, PENDING_COOKIE_CAPACITY)
    && InCapacity(s.byTxid, PENDING_MAIN_CAPACITY)
    && InCapacity(s.oneway, PENDING_ONEWAY_CAPACITY)
    && InCapacity(s.recent, RECENT_ONEWAY_CAPACITY)
    && Covered(s.main) && |s.main.list.nodes| <= PENDING_MAIN_CAPACITY
    && (s.hist.lost == [] ==> Agree(s.main))
  }

  lemma InsertFits<V>(l: Lru<V>, key: u64, at: int, value: V, cap: nat)
    requires Agree(l) && key !in l.items
    ensures InCapacity(Trim(Push(l, key, at, value), cap), cap)
  {
    PushAgree(l, key, at, value);
    TrimCovered(Push(l, key, at, value), cap);
  }

  lemma DeleteFits<V>(l: Lru<V>, key: u64, cap: nat)
    requires InCapacity(l, cap) && key in l.items
    ensures InCapacity(Delete(l, key), cap)
  {
    DeleteCovered(l, key);
  }

  lemma ExpireFits<V>(l: Lru<V>, keys: seq<u64>, cutoff: int, cap: nat)
    requires InCapacity(l, cap)
    ensures InCapacity(Expire(l, keys, cutoff), cap)
  {
    ExpireCovered(l, keys, cutoff);
  }

  /** Inserting into pendingMain keeps its entries covered; it keeps agreement when the key was free. */
  lemma InsertMain(l: Lru<MainEvent>, key: u64, at: int, m: MainEvent)
    requires Covered(l)
    ensures var r := Trim(Push(l, key, at, m), PENDING_MAIN_CAPACITY);
            && Covered(r) && |r.list.nodes| <= PENDING_MAIN_CAPACITY
            && (Agree(l) && key !in l.items ==> Agree(r))
  {
    PushCovered(l, key, at, m);
    TrimCovered(Push(l, key, at, m), PENDING_MAIN_CAPACITY);
    if Agree(l) { PushAgree(l, key, at, m); }
  }

  lemma ParkByTxidLists(s: State, m: MainEvent, txid: u64, now: int)
    requires Lists(s)
    ensures Lists(ParkByTxid(s, m, txid, now))
  {
    var s1 := if txid in s.byTxid.items then ReleaseByTxid(s, txid) else s;
    if txid in s.byTxid.items { DeleteFits(s.byTxid, txid, PENDING_MAIN_CAPACITY); }
    InsertFits(s1.byTxid, txid, now, m, PENDING_MAIN_CAPACITY);
  }

  lemma ParkByCookieLists(s: State, m: MainEvent, cookie: u64, now: int)
    requires Lists(s)
    ensures Lists(ParkByCookie(s, m, cookie, now))
  {
    InsertMain(s.main, cookie, now, m);
  }

  lemma ActivateLists(s: State, txid: u64, cookie: u64)
    requires Lists(s) && txid in s.byTxid.items
    ensures Lists(Activate(s, txid, cookie))
  {
    DeleteFits(s.byTxid, txid, PENDING_MAIN_CAPACITY);
    var e := s.byTxid.items[txid];
    if cookie in s.main.items {
      DeleteCovered(s.main, cookie);
      InsertMain(Delete(s.main, cookie), cookie, e.at, e.value);
    } else {
      InsertMain(s.main, cookie, e.at, e.value);
    }
  }

  lemma RecordRecentLists(s: State, cookie: u64, now: int)
    requires Lists(s)
    ensures Lists(RecordRecent(s, cookie, now))
  {
    if cookie in s.recent.items {
      TouchAgree(s.recent, cookie, now, ());
    } else {
      InsertFits(s.recent, cookie, now, (), RECENT_ONEWAY_CAPACITY);
    }
  }

  lemma RouteLists(s: State, m: MainEvent, cookie: u64, txid: u64, now: int)
    requires Lists(s)
    ensures Lists(RouteMain(s, m, cookie, txid, now))
  {
    hide Agree, Covered;
    if m.event.isReply == 0 && cookie == 0 {
      ParkByTxidLists(s, m, txid, now);
    } else if m.event.isReply == 0 && IsOneway(m.event.flags) {
      var c := CheckDuplicate(s, cookie);
      RecordRecentLists(c, cookie, now);
      if cookie in c.oneway.items {
        DeleteFits(c.oneway, cookie, PENDING_ONEWAY_CAPACITY);
        RecordRecentLists(c.(oneway := Delete(c.oneway, cookie),
                             hist := c.hist.(mergedOneway := c.hist.mergedOneway + 1)), cookie, now);
      }
    } else if m.event.isReply == 0 {
      ParkByCookieLists(CheckDuplicate(s, cookie), m, cookie, now);
    }
  }

  lemma ChunkLists(s: State, c: Chunk, now: i64, later: int, order: seq<u64>)
    requires Lists(s)
    ensures Lists(HandleChunk(s, c, now, later, order))
  {
    hide Agree, Covered, Push, Delete, Trim, Trimmed, Expire, RouteMain, Merge;
    if c.txid in s.cookies.items { DeleteFits(s.cookies, c.txid, PENDING_COOKIE_CAPACITY); }
    var t := TakeChunk(NoteChunk(s, c), c, now);
    assert Lists(t);
    var d := if Complete(t.buffers[c.txid].chunks) then Deliver(t, c.txid, now) else t;
    assert Lists(d) by {
      if Complete(t.buffers[c.txid].chunks) {
        var b := t.buffers[c.txid];
        var data := Merge(b.chunks);
        if 16 < |data| <= CHUNK_SIZE * MAX_CHUNKS && 0 < b.meta.dataSize <= |data| {
          RouteLists(t.(buffers := t.buffers - {c.txid}),
                     NewMain(c.txid, b, data[..b.meta.dataSize], now), b.meta.cookie, c.txid, now);
        }
      }
    }
    ExpireFits(d.cookies, order, later - PENDING_COOKIE_TTL, PENDING_COOKIE_CAPACITY);
  }

  lemma SidebandLists(s: State, sb: Sideband, now: int)
    requires Lists(s)
    ensures Lists(HandleSideband(s, sb, now))
  {
    if sb.cookie in s.main.items {
      DeleteCovered(s.main, sb.cookie);
    } else if sb.cookie in s.oneway.items {
      DeleteFits(s.oneway, sb.cookie, PENDING_ONEWAY_CAPACITY);
    } else {
      InsertFits(s.oneway, sb.cookie, now, sb, PENDING_ONEWAY_CAPACITY);
    }
  }

  lemma StashFits(l: Lru<u64>, txid: u64, now: int, cookie: u64)
    requires InCapacity(l, PENDING_COOKIE_CAPACITY)
    ensures InCapacity(Trim(if txid in l.items then Touch(l, txid, now, cookie) else Push(l, txid, now, cookie),
                      PENDING_COOKIE_CAPACITY), PENDING_COOKIE_CAPACITY)
  {
    if txid in l.items {
      TouchAgree(l, txid, now, cookie);
    } else {
      InsertFits(l, txid, now, cookie, PENDING_COOKIE_CAPACITY);
    }
  }

  lemma CookieLists(s: State, r: CookieRecord, now: int, later: int, order: seq<u64>)
    requires Lists(s)
    ensures Lists(HandleCookie(s, r, now, later, order))
  {
    hide Agree, Covered;
    if r.txid in s.byTxid.items { ActivateLists(NoteCookie(s, r), r.txid, r.cookie); }
    StashFits(s.cookies, r.txid, now, r.cookie);
    ExpireFits(StashCookie(s, r, now).cookies, order, later - PENDING_COOKIE_TTL, PENDING_COOKIE_CAPACITY);
  }

  lemma SweepLists(s: State, now: int, o: Orders)
    requires Lists(s)
    ensures Lists(Sweep(s, now, o))
  {
    ExpireCovered(s.main, o.main, now - PENDING_MAIN_TTL);
    ExpireCovered(s.byTxid, o.byTxid, now - PENDING_MAIN_TTL);
    ExpireCovered(s.oneway, o.oneway, now - PENDING_ONEWAY_TTL);
    ExpireCovered(s.recent, o.recent, now - RECENT_ONEWAY_TTL);
  }

  lemma StepLists(s: State, i: Input)
    requires Lists(s)
    ensures Lists(Step(s, i))
  {
    match i
    case ChunkIn(c, now, later, order) => ChunkLists(s, c, now, later, order);
    case SidebandIn(sb, now) => SidebandLists(s, sb, now);
    case CookieIn(r, now, later, order) => CookieLists(s, r, now, later, order);
    case SweepIn(now, o) => SweepLists(s, now, o);
    case SweepCookiesIn(now, order) =>
      ExpireFits(s.cookies, order, now - PENDING_COOKIE_TTL, PENDING_COOKIE_CAPACITY);
  }

  /** Map/list agreement over every run. */
  lemma {:induction false} RunLists(inputs: seq<Input>)
    ensures Lists(Run(Init(), inputs))
  {
    if inputs != [] {
      RunLists(inputs[..|inputs| - 1]);
      StepLists(Run(Init(), inputs[..|inputs| - 1]), inputs[|inputs| - 1]);
    }
  }

  /** No map ever holds more entries than its capacity, whatever arrives. */
  lemma RunBounded(inputs: seq<Input>)
    ensures var s := Run(Init(), inputs);
            && |s.main.items| <= 16384 && |s.byTxid.items| <= 16384 && |s.cookies.items| <= 16384
            && |s.oneway.items| <= 4096 && |s.recent.items| <= 4096
  {
    var s := Run(Init(), inputs);
    RunLists(inputs);
    CoveredSize(s.main);
    CoveredSize(s.byTxid);
    CoveredSize(s.oneway);
    CoveredSize(s.recent);
    CoveredSize(s.cookies);
  }

  // Order of insertion

  /** In the three maps whose entries are never refreshed, list elements stand in the order they were inserted. */
  ghost predicate InsertionOrder(s: State) {
    NewestFirst(s.main.list) && NewestFirst(s.byTxid.list) && NewestFirst(s.oneway.list)
  }

  lemma RouteOrder(s: State, m: MainEvent, cookie: u64, txid: u64, now: int)
    requires InsertionOrder(s)
    ensures InsertionOrder(RouteMain(s, m, cookie, txid, now))
  {
    hide NewestFirst, Trim, Trimmed, Push, Delete, Touch, LastCookies;
    if txid in s.byTxid.items { DeleteNewest(s.byTxid, txid); }
    InsertNewest(if txid in s.byTxid.items then Delete(s.byTxid, txid) else s.byTxid,
                 txid, now, m, PENDING_MAIN_CAPACITY);
    InsertNewest(s.main, cookie, now, m, PENDING_MAIN_CAPACITY);
    if cookie in s.oneway.items { DeleteNewest(s.oneway, cookie); }
  }

  lemma ChunkOrder(s: State, i: Input)
    requires InsertionOrder(s) && i.ChunkIn?
    ensures InsertionOrder(Step(s, i))
  {
    hide HandleChunk, TakeChunk, Deliver, MaybeCleanup, RouteMain, Merge, NewestFirst;
    var c, now := i.chunk, i.now;
    StepChunk(s, i);
    HandleChunkIs(s, c, now, i.later, i.order);
    var n := NoteChunk(s, c);
    TakeChunkFrame(n, c, now);
    var t := TakeChunk(n, c, now);
    var full := Complete(t.buffers[c.txid].chunks);
    if full {
      DeliverCases(t, c.txid, now);
      var m := Assembled(t, c.txid, now);
      if m.Some? {
        RouteOrder(t.(buffers := t.buffers - {c.txid}), m.value, t.buffers[c.txid].meta.cookie, c.txid, now);
      }
    }
    CleanupFrame(if full then Deliver(t, c.txid, now) else t, now, i.later, i.order);
  }

  lemma CookieOrder(s: State, r: CookieRecord, now: int, later: int, order: seq<u64>)
    requires InsertionOrder(s)
    ensures InsertionOrder(HandleCookie(s, r, now, later, order))
  {
    hide NewestFirst, Trim, Trimmed, Push, Delete, Touch, Expire;
    if r.txid in s.byTxid.items {
      var e := s.byTxid.items[r.txid];
      DeleteNewest(s.byTxid, r.txid);
      if r.cookie in s.main.items { DeleteNewest(s.main, r.cookie); }
      InsertNewest(if r.cookie in s.main.items then Delete(s.main, r.cookie) else s.main,
                   r.cookie, e.at, e.value, PENDING_MAIN_CAPACITY);
    }
  }

  lemma StepOrder(s: State, i: Input)
    requires InsertionOrder(s)
    ensures InsertionOrder(Step(s, i))
  {
    hide HandleChunk, HandleCookie, NewestFirst, Trim, Trimmed, Push, Delete, Expire, Expired;
    match i
    case ChunkIn(_, _, _, _) => ChunkOrder(s, i);
    case SidebandIn(sb, now) =>
      if sb.cookie in s.main.items { DeleteNewest(s.main, sb.cookie); }
      if sb.cookie in s.oneway.items { DeleteNewest(s.oneway, sb.cookie); }
      InsertNewest(s.oneway, sb.cookie, now, sb, PENDING_ONEWAY_CAPACITY);
    case CookieIn(r, now, later, order) => CookieOrder(s, r, now, later, order);
    case SweepIn(now, o) =>
      ExpireNewest(s.main, o.main, now - PENDING_MAIN_TTL);
      ExpireNewest(s.byTxid, o.byTxid, now - PENDING_MAIN_TTL);
      ExpireNewest(s.oneway, o.oneway, now - PENDING_ONEWAY_TTL);
    case _ =>
  }

  lemma {:induction false} RunOrder(inputs: seq<Input>)
    ensures InsertionOrder(Run(Init(), inputs))
  {
    hide Step;
    if inputs != [] {
      RunOrder(inputs[..|inputs| - 1]);
      StepOrder(Run(Init(), inputs[..|inputs| - 1]), inputs[|inputs| - 1]);
    }
  }

  /** What a full map gives up for a new key is the entry inserted before all others. */
  ghost predicate GivesUpOldest<V>(l: Lru<V>, key: u64, at: int, value: V, cap: nat) {
    key !in l.items && |l.items| == cap ==>
      exists k :: && k in l.items && (forall j :: j in l.items && j != k ==> l.items[k].elem < l.items[j].elem)
                  && Trim(Push(l, key, at, value), cap).items == (l.items - {k})[key := Entry(at, value, l.list.next)]
                  && Trimmed(Push(l, key, at, value), cap) == [l.items[k].value]
  }

  lemma BackIsOldest<V>(l: Lru<V>, key: u64, at: int, value: V, cap: nat)
    requires InCapacity(l, cap) && NewestFirst(l.list) && cap > 0
    ensures GivesUpOldest(l, key, at, value, cap)
  {
    hide Trim, Trimmed;
    if key !in l.items && |l.items| == cap {
      CoveredSize(l);
      InsertExact(l, key, at, value, cap);
      var nodes := l.list.nodes;
      var k := BackKey(l);
      assert nodes[cap - 1] in nodes;
      forall j | j in l.items && j != k ensures l.items[k].elem < l.items[j].elem {
        assert Node(l.items[j].elem, j) in nodes;
      }
    }
  }

  /** In every run, capacity eviction takes what has waited longest: from pendingMainByTxid, from pendingOneway, and
      from pendingMain as long as no waiting main has been overwritten. */
  lemma EvictsOldest(inputs: seq<Input>, key: u64, at: int, m: MainEvent, sb: Sideband)
    ensures var s := Run(Init(), inputs);
            && GivesUpOldest(s.byTxid, key, at, m, 16384) && GivesUpOldest(s.oneway, key, at, sb, 4096)
            && (s.hist.lost == [] ==> GivesUpOldest(s.main, key, at, m, 16384))
  {
    hide Run, Agree, Covered, NewestFirst, GivesUpOldest;
    var s := Run(Init(), inputs);
    RunLists(inputs);
    RunOrder(inputs);
    BackIsOldest(s.byTxid, key, at, m, PENDING_MAIN_CAPACITY);
    BackIsOldest(s.oneway, key, at, sb, PENDING_ONEWAY_CAPACITY);
    if s.hist.lost == [] { BackIsOldest(s.main, key, at, m, PENDING_MAIN_CAPACITY); }
  }
}
