/** Conservation: no main event is duplicated, and none is lost except by the one branch that
    overwrites a waiting entry. */
module CollectorCustody {
  import opened Types
  import opened Finite
  import opened KeyedList
  import opened CollectorModel

  function Origins(q: seq<MainEvent>): seq<MainEvent> {
    if q == [] then [] else Origins(q[..|q| - 1]) + [Origin(q[|q| - 1])]
  }

  lemma {:induction false} OriginsAppend(a: seq<MainEvent>, b: seq<MainEvent>)
    ensures Origins(a + b) == Origins(a) + Origins(b)
  {
    if b == [] {
      assert a + b == a;
    } else {
      var c := b[..|b| - 1];
      assert (a + b)[..|a + b| - 1] == a + c;
      OriginsAppend(a, c);
    }
  }

  ghost predicate AsBuilt(q: seq<MainEvent>) {
    forall m :: m in q ==> m == Origin(m)
  }

  lemma {:induction false} OriginsAsBuilt(q: seq<MainEvent>)
    requires AsBuilt(q)
    ensures Origins(q) == q
  {
    if q != [] {
      assert q == q[..|q| - 1] + [q[|q| - 1]];
      OriginsAsBuilt(q[..|q| - 1]);
    }
  }

  /** Nothing waiting has had a sideband applied. */
  ghost predicate Unmerged(m: map<u64, Entry<MainEvent>>) {
    forall k :: k in m ==> m[k].value == Origin(m[k].value)
  }

  /** Every main event built so far is in exactly one place: waiting under a cookie, waiting
      under a transaction id, emitted, or overwritten. */
  ghost predicate Custody(s: State) {
    && Unmerged(s.main.items) && Unmerged(s.byTxid.items)
    && multiset(s.hist.completed) ==
       Values(s.main.items) + Values(s.byTxid.items) + multiset(Origins(s.emitted)) + multiset(s.hist.lost)
  }

  /** The counters account for every parked main and for every sideband handled. */
  ghost predicate Balanced(s: State) {
    && s.hist.parked ==
       |s.main.items| + |s.byTxid.items| + s.hist.mergedSync + s.failures.entryEarlyReturn + |s.hist.lost|
    && s.hist.handled ==
       s.hist.mergedSync + s.hist.mergedOneway + |s.oneway.items|
       + s.failures.sidebandOrphan + s.failures.onewayLate + s.hist.duplicates
  }

  lemma EmitAsBuilt(emitted: seq<MainEvent>, out: seq<MainEvent>)
    requires AsBuilt(out)
    ensures multiset(Origins(emitted + out)) == multiset(Origins(emitted)) + multiset(out)
  {
    OriginsAppend(emitted, out);
    OriginsAsBuilt(out);
  }

  lemma EmitOne(emitted: seq<MainEvent>, m: MainEvent)
    ensures multiset(Origins(emitted + [m])) == multiset(Origins(emitted)) + multiset{Origin(m)}
  {
    OriginsAppend(emitted, [m]);
    assert Origins([m]) == [Origin(m)] by { assert [m][..0] == []; }
  }

  // One waiting map

  lemma PartAsBuilt(before: map<u64, Entry<MainEvent>>, after: map<u64, Entry<MainEvent>>, out: seq<MainEvent>)
    requires Unmerged(before) && Part(before, after, out)
    ensures Unmerged(after) && AsBuilt(out)
  {
  }

  /** What a push displaces. */
  function Displaced(l: Lru<MainEvent>, key: u64): seq<MainEvent> {
    if key in l.items then [l.items[key].value] else []
  }

  lemma PushHeld(l: Lru<MainEvent>, key: u64, at: int, m: MainEvent)
    requires Unmerged(l.items) && m == Origin(m)
    ensures var p, lost := Push(l, key, at, m), Displaced(l, key);
            && Unmerged(p.items) && |p.items| + |lost| == |l.items| + 1
            && Values(p.items) + multiset(lost) == Values(l.items) + multiset{m}
  {
    hide Values;
    ValuesPush(l, key, at, m);
    ValuesSize(l.items);
    ValuesSize(Push(l, key, at, m).items);
  }

  lemma DeleteHeld(l: Lru<MainEvent>, key: u64)
    requires Unmerged(l.items) && key in l.items
    ensures var d, m := Delete(l, key), l.items[key].value;
            && Unmerged(d.items) && m == Origin(m) && |d.items| + 1 == |l.items|
            && Values(d.items) + multiset{m} == Values(l.items)
  {
    hide Values, Without;
    ValuesRemove(l.items, key);
    RemoveSize(l.items, key);
  }

  lemma TrimHeld(l: Lru<MainEvent>, cap: nat)
    requires Unmerged(l.items)
    ensures var t, out := Trim(l, cap), Trimmed(l, cap);
            && Unmerged(t.items) && AsBuilt(out) && |t.items| + |out| == |l.items|
            && Values(t.items) + multiset(out) == Values(l.items)
  {
    hide Values, Trim, Trimmed;
    TrimPart(l, cap);
    TrimCount(l, cap);
    ValuesTrim(l, cap);
    PartAsBuilt(l.items, Trim(l, cap).items, Trimmed(l, cap));
  }

  lemma ExpireHeld(l: Lru<MainEvent>, keys: seq<u64>, cutoff: int)
    requires Unmerged(l.items)
    ensures var e, out := Expire(l, keys, cutoff), Expired(l, keys, cutoff);
            && Unmerged(e.items) && AsBuilt(out) && |e.items| + |out| == |l.items|
            && Values(e.items) + multiset(out) == Values(l.items)
  {
    hide Values, Expire, Expired;
    ExpirePart(l, keys, cutoff);
    ExpireCount(l, keys, cutoff);
    ValuesExpire(l, keys, cutoff);
    PartAsBuilt(l.items, Expire(l, keys, cutoff).items, Expired(l, keys, cutoff));
  }

  // Single moves

  lemma TrimMainKept(s: State)
    requires Custody(s) && Balanced(s)
    ensures Custody(TrimMain(s)) && Balanced(TrimMain(s))
  {
    hide Values, Origins, Trim, Trimmed, Unmerged, AsBuilt;
    TrimHeld(s.main, PENDING_MAIN_CAPACITY);
    EmitAsBuilt(s.emitted, Trimmed(s.main, PENDING_MAIN_CAPACITY));
  }

  lemma TrimByTxidKept(s: State)
    requires Custody(s) && Balanced(s)
    ensures Custody(TrimByTxid(s)) && Balanced(TrimByTxid(s))
  {
    hide Values, Origins, Trim, Trimmed, Unmerged, AsBuilt;
    TrimHeld(s.byTxid, PENDING_MAIN_CAPACITY);
    EmitAsBuilt(s.emitted, Trimmed(s.byTxid, PENDING_MAIN_CAPACITY));
  }

  lemma ReleaseKept(s: State, cookie: u64)
    requires Custody(s) && Balanced(s) && cookie in s.main.items
    ensures Custody(ReleaseMain(s, cookie)) && Balanced(ReleaseMain(s, cookie))
  {
    hide Values, Origins, Delete, Unmerged;
    DeleteHeld(s.main, cookie);
    EmitOne(s.emitted, s.main.items[cookie].value);
  }

  lemma ReleaseByTxidKept(s: State, txid: u64)
    requires Custody(s) && Balanced(s) && txid in s.byTxid.items
    ensures Custody(ReleaseByTxid(s, txid)) && Balanced(ReleaseByTxid(s, txid))
  {
    hide Values, Origins, Delete, Unmerged;
    DeleteHeld(s.byTxid, txid);
    EmitOne(s.emitted, s.byTxid.items[txid].value);
  }

  lemma EmitNowKept(s: State, m: MainEvent)
    requires Custody(s) && Balanced(s)
    ensures Custody(EmitNow(s, m)) && Balanced(EmitNow(s, m))
  {
    hide Values, Origins, Unmerged;
    EmitOne(s.emitted, m);
  }

  /** A main parked under a free transaction id. */
  lemma PushByTxidKept(s: State, m: MainEvent, txid: u64, now: int)
    requires Custody(s) && Balanced(s) && m == Origin(m) && txid !in s.byTxid.items
    ensures var p := s.(byTxid := Push(s.byTxid, txid, now, m), hist := NoteParked(s.hist, m));
            Custody(p) && Balanced(p)
  {
    hide Values, Origins, Push, Unmerged;
    PushHeld(s.byTxid, txid, now, m);
    var v, p, w := Values(s.byTxid.items), Values(Push(s.byTxid, txid, now, m).items), Values(s.main.items);
    var e := multiset(Origins(s.emitted));
    assert w + v + e == v + (w + e) && w + p + e == p + (w + e);
    OneMore(s.hist.completed, w + e, s.hist.lost, v, m, p, []);
    assert s.hist.lost + [] == s.hist.lost;
  }

  /** One more event built, one more held in `p` than in `v`, except for what was pushed out. */
  lemma OneMore(completed: seq<MainEvent>, rest: multiset<MainEvent>, lost: seq<MainEvent>, v: multiset<MainEvent>,
                m: MainEvent, p: multiset<MainEvent>, out: seq<MainEvent>)
    requires multiset(completed) == v + rest + multiset(lost) && p + multiset(out) == v + multiset{m}
    ensures multiset(completed + [m]) == p + rest + multiset(lost + out)
  {
    assert multiset(completed + [m]) == (v + multiset{m}) + rest + multiset(lost);
    assert p + rest + multiset(lost + out) == (p + multiset(out)) + rest + multiset(lost);
  }

  lemma ParkByTxidKept(s: State, m: MainEvent, txid: u64, now: int)
    requires Custody(s) && Balanced(s) && m == Origin(m)
    ensures Custody(ParkByTxid(s, m, txid, now)) && Balanced(ParkByTxid(s, m, txid, now))
  {
    hide Custody, Balanced, TrimByTxid, Push;
    if txid in s.byTxid.items { ReleaseByTxidKept(s, txid); }
    var s1 := if txid in s.byTxid.items then ReleaseByTxid(s, txid) else s;
    PushByTxidKept(s1, m, txid, now);
    TrimByTxidKept(s1.(byTxid := Push(s1.byTxid, txid, now, m), hist := NoteParked(s1.hist, m)));
  }

  /** A main parked under a cookie; what waited there is noted as lost. */
  lemma PushByCookieKept(s: State, m: MainEvent, cookie: u64, now: int)
    requires Custody(s) && Balanced(s) && m == Origin(m)
    ensures var p := s.(main := Push(s.main, cookie, now, m),
                        hist := NoteParked(s.hist, m).(lost := s.hist.lost + Displaced(s.main, cookie)));
            Custody(p) && Balanced(p)
  {
    hide Values, Origins, Push, Unmerged, Displaced;
    var lost := Displaced(s.main, cookie);
    PushHeld(s.main, cookie, now, m);
    var v, p, w := Values(s.main.items), Values(Push(s.main, cookie, now, m).items), Values(s.byTxid.items);
    var e := multiset(Origins(s.emitted));
    assert v + w + e == v + (w + e) && p + w + e == p + (w + e);
    OneMore(s.hist.completed, w + e, s.hist.lost, v, m, p, lost);
  }

  lemma ParkByCookieKept(s: State, m: MainEvent, cookie: u64, now: int)
    requires Custody(s) && Balanced(s) && m == Origin(m)
    ensures Custody(ParkByCookie(s, m, cookie, now)) && Balanced(ParkByCookie(s, m, cookie, now))
  {
    hide Custody, Balanced, TrimMain, Push;
    PushByCookieKept(s, m, cookie, now);
    TrimMainKept(s.(main := Push(s.main, cookie, now, m),
                    hist := NoteParked(s.hist, m).(lost := s.hist.lost + Displaced(s.main, cookie))));
  }

  lemma ActivateKept(s: State, txid: u64, cookie: u64)
    requires Custody(s) && Balanced(s) && txid in s.byTxid.items
    ensures Custody(Activate(s, txid, cookie)) && Balanced(Activate(s, txid, cookie))
  {
    hide Custody, Balanced, TrimMain, Push;
    var e := s.byTxid.items[txid];
    var r := if cookie in s.main.items then ReleaseMain(s, cookie) else s;
    if cookie in s.main.items { ReleaseKept(s, cookie); }
    MoveKept(r, txid, cookie);
    TrimMainKept(r.(byTxid := Delete(r.byTxid, txid), main := Push(r.main, cookie, e.at, e.value)));
  }

  /** Moving a parked event to a free cookie changes where it waits and nothing else. */
  lemma MoveKept(r: State, txid: u64, cookie: u64)
    requires Custody(r) && Balanced(r) && txid in r.byTxid.items && cookie !in r.main.items
    ensures var e := r.byTxid.items[txid];
            var moved := r.(byTxid := Delete(r.byTxid, txid), main := Push(r.main, cookie, e.at, e.value));
            Custody(moved) && Balanced(moved)
  {
    hide Values, Origins, Delete, Push, Unmerged;
    var e := r.byTxid.items[txid];
    DeleteHeld(r.byTxid, txid);
    PushHeld(r.main, cookie, e.at, e.value);
    var d, p := Delete(r.byTxid, txid), Push(r.main, cookie, e.at, e.value);
    assert Displaced(r.main, cookie) == [];
    assert Values(p.items) + Values(d.items) == (Values(r.main.items) + multiset{e.value}) + Values(d.items);
    assert Values(r.main.items) + Values(r.byTxid.items) ==
      Values(r.main.items) + (Values(d.items) + multiset{e.value});
  }

  lemma SweepMainKept(s: State, now: int, order: seq<u64>)
    requires Custody(s) && Balanced(s)
    ensures Custody(SweepMain(s, now, order)) && Balanced(SweepMain(s, now, order))
  {
    hide Values, Origins, Expire, Expired, Unmerged, AsBuilt;
    ExpireHeld(s.main, order, now - PENDING_MAIN_TTL);
    EmitAsBuilt(s.emitted, Expired(s.main, order, now - PENDING_MAIN_TTL));
  }

  lemma SweepByTxidKept(s: State, now: int, order: seq<u64>)
    requires Custody(s) && Balanced(s)
    ensures Custody(SweepByTxid(s, now, order)) && Balanced(SweepByTxid(s, now, order))
  {
    hide Values, Origins, Expire, Expired, Unmerged, AsBuilt;
    ExpireHeld(s.byTxid, order, now - PENDING_MAIN_TTL);
    EmitAsBuilt(s.emitted, Expired(s.byTxid, order, now - PENDING_MAIN_TTL));
  }

  lemma SweepOnewayKept(s: State, now: int, order: seq<u64>)
    requires Custody(s) && Balanced(s)
    ensures Custody(SweepOneway(s, now, order)) && Balanced(SweepOneway(s, now, order))
  {
    hide Values, Origins, Expire, Expired, Unmerged;
    ExpireCount(s.oneway, order, now - PENDING_ONEWAY_TTL);
  }

  lemma SweepKept(s: State, now: int, o: Orders)
    requires Custody(s) && Balanced(s)
    ensures Custody(Sweep(s, now, o)) && Balanced(Sweep(s, now, o))
  {
    hide Custody, Balanced, SweepMain, SweepByTxid, SweepOneway;
    SweepMainKept(s, now, o.main);
    var s1 := SweepMain(s, now, o.main);
    SweepByTxidKept(s1, now, o.byTxid);
    var s2 := SweepByTxid(s1, now, o.byTxid);
    SweepOnewayKept(s2, now, o.oneway);
    RecentKept(SweepOneway(s2, now, o.oneway), now, o.recent);
  }

  lemma RecentKept(s: State, now: int, order: seq<u64>)
    requires Custody(s) && Balanced(s)
    ensures Custody(SweepRecent(s, now, order)) && Balanced(SweepRecent(s, now, order))
  {
    hide Values, Origins, Expire;
  }

  // Handlers

  /** A waiting sideband taken by its one-way main. */
  lemma TakeOnewayKept(s: State, cookie: u64)
    requires Custody(s) && Balanced(s) && cookie in s.oneway.items
    ensures var t := s.(oneway := Delete(s.oneway, cookie), hist := s.hist.(mergedOneway := s.hist.mergedOneway + 1));
            Custody(t) && Balanced(t)
  {
    hide Values, Origins, Without, Unmerged;
    RemoveSize(s.oneway.items, cookie);
  }

  lemma RecordKept(s: State, cookie: u64, now: int)
    requires Custody(s) && Balanced(s)
    ensures Custody(RecordRecent(s, cookie, now)) && Balanced(RecordRecent(s, cookie, now))
  {
    hide Values, Origins, Trim, Touch, Push;
  }

  lemma RouteOnewayKept(s: State, m: MainEvent, cookie: u64, now: int)
    requires Custody(s) && Balanced(s) && m == Origin(m)
    ensures Custody(RouteOneway(s, m, cookie, now)) && Balanced(RouteOneway(s, m, cookie, now))
  {
    hide Custody, Balanced, Delete, RecordRecent, EmitNow;
    if cookie in s.oneway.items {
      TakeOnewayKept(s, cookie);
      var s1 := s.(oneway := Delete(s.oneway, cookie), hist := s.hist.(mergedOneway := s.hist.mergedOneway + 1));
      RecordKept(s1, cookie, now);
      EmitNowKept(RecordRecent(s1, cookie, now), Merged(m, s.oneway.items[cookie].value));
    } else {
      RecordKept(s, cookie, now);
      EmitNowKept(RecordRecent(s, cookie, now), m);
    }
  }

  lemma CheckKept(s: State, cookie: u64)
    requires Custody(s) && Balanced(s)
    ensures Custody(CheckDuplicate(s, cookie)) && Balanced(CheckDuplicate(s, cookie))
  {
    hide Values, Origins, Unmerged, CheckDuplicate;
    CheckFrame(s, cookie);
  }

  lemma RouteKept(s: State, m: MainEvent, cookie: u64, txid: u64, now: int)
    requires Custody(s) && Balanced(s) && m == Origin(m)
    ensures Custody(RouteMain(s, m, cookie, txid, now)) && Balanced(RouteMain(s, m, cookie, txid, now))
  {
    hide Custody, Balanced, ParkByTxid, ParkByCookie, RouteOneway, EmitNow, CheckDuplicate;
    EmitNowKept(s, m);
    ParkByTxidKept(s, m, txid, now);
    CheckKept(s, cookie);
    RouteOnewayKept(CheckDuplicate(s, cookie), m, cookie, now);
    ParkByCookieKept(CheckDuplicate(s, cookie), m, cookie, now);
  }

  lemma CoreKept(a: State, b: State)
    requires Custody(a) && Balanced(a) && SameCore(a, b)
    ensures Custody(b) && Balanced(b)
  {
    hide Values, Origins, Unmerged;
  }

  lemma DeliverKept(s: State, txid: u64, now: i64)
    requires Custody(s) && Balanced(s) && txid in s.buffers && Complete(s.buffers[txid].chunks)
    ensures Custody(Deliver(s, txid, now)) && Balanced(Deliver(s, txid, now))
  {
    hide Custody, Balanced, RouteMain, Merge, Deliver;
    DeliverCases(s, txid, now);
    var s1, m := s.(buffers := s.buffers - {txid}), Assembled(s, txid, now);
    CoreKept(s, s1);
    if m.Some? { RouteKept(s1, m.value, s.buffers[txid].meta.cookie, txid, now); }
  }

  lemma NoteKept(s: State, c: Chunk)
    requires Custody(s) && Balanced(s)
    ensures Custody(NoteChunk(s, c)) && Balanced(NoteChunk(s, c))
  {
    hide Values, Origins, Unmerged;
  }

  lemma ChunkKept(s: State, c: Chunk, now: i64, later: int, order: seq<u64>)
    requires Custody(s) && Balanced(s)
    ensures Custody(HandleChunk(s, c, now, later, order)) && Balanced(HandleChunk(s, c, now, later, order))
  {
    hide Custody, Balanced, TakeChunk, Deliver, MaybeCleanup;
    var t := TakeChunk(NoteChunk(s, c), c, now);
    TakeChunkFrame(NoteChunk(s, c), c, now);
    NoteKept(s, c);
    CoreKept(NoteChunk(s, c), t);
    var full := Complete(t.buffers[c.txid].chunks);
    if full { DeliverKept(t, c.txid, now); }
    var d := if full then Deliver(t, c.txid, now) else t;
    CleanupFrame(d, now, later, order);
    CoreKept(d, MaybeCleanup(d, now, later, order));
  }

  lemma NoteSidebandKept(s: State, sb: Sideband)
    requires Custody(s)
    ensures Custody(NoteSideband(s, sb))
  {
    hide Values, Origins, Unmerged;
  }

  lemma MergeMainKept(s: State, sb: Sideband)
    requires Custody(s) && sb.cookie in s.main.items
    ensures Custody(MergeMain(s, sb))
  {
    hide Values, Origins, Delete, Unmerged;
    DeleteHeld(s.main, sb.cookie);
    EmitOne(s.emitted, Merged(s.main.items[sb.cookie].value, sb));
  }

  lemma SidebandBalanced(s: State, sb: Sideband, now: int)
    requires Balanced(s)
    ensures Balanced(HandleSideband(s, sb, now))
  {
    hide Trim, Trimmed, Push, Delete;
    if sb.cookie in s.main.items {
      DeleteCount(s.main, sb.cookie);
    } else if sb.cookie in s.oneway.items {
      DeleteCount(s.oneway, sb.cookie);
    } else {
      TrimCount(Push(s.oneway, sb.cookie, now, sb), PENDING_ONEWAY_CAPACITY);
      PushCount(s.oneway, sb.cookie, now, sb);
    }
  }

  lemma DeleteCount<V>(l: Lru<V>, key: u64)
    requires key in l.items
    ensures |Delete(l, key).items| == |l.items| - 1
  {
    RemoveSize(l.items, key);
  }

  lemma PushCount<V>(l: Lru<V>, key: u64, at: int, v: V)
    requires key !in l.items
    ensures |Push(l, key, at, v).items| == |l.items| + 1
  {}

  lemma SidebandKept(s: State, sb: Sideband, now: int)
    requires Custody(s) && Balanced(s)
    ensures Custody(HandleSideband(s, sb, now)) && Balanced(HandleSideband(s, sb, now))
  {
    hide Values, Origins, Trim, Trimmed, Push, Delete, Balanced, MergeMain, Unmerged;
    SidebandBalanced(s, sb, now);
    if sb.cookie in s.main.items {
      NoteSidebandKept(s, sb);
      MergeMainKept(NoteSideband(s, sb), sb);
    }
  }

  lemma NoteCookieKept(s: State, r: CookieRecord)
    requires Custody(s) && Balanced(s)
    ensures Custody(NoteCookie(s, r)) && Balanced(NoteCookie(s, r))
  {
    hide Values, Origins, Unmerged;
  }

  lemma CookieKept(s: State, r: CookieRecord, now: int, later: int, order: seq<u64>)
    requires Custody(s) && Balanced(s)
    ensures Custody(HandleCookie(s, r, now, later, order)) && Balanced(HandleCookie(s, r, now, later, order))
  {
    hide Custody, Balanced, Activate, Trim, Expire, Push, Touch, NoteCookie;
    var n := NoteCookie(s, r);
    NoteCookieKept(s, r);
    if r.txid in n.byTxid.items { ActivateKept(n, r.txid, r.cookie); }
    var b := HandleCookie(s, r, now, later, order);
    if SameCore(n, b) { CoreKept(n, b); }
  }

  lemma StepKept(s: State, i: Input)
    requires Custody(s) && Balanced(s)
    ensures Custody(Step(s, i)) && Balanced(Step(s, i))
  {
    hide Custody, Balanced, HandleChunk, HandleSideband, HandleCookie, Sweep;
    match i
    case ChunkIn(c, now, later, order) => ChunkKept(s, c, now, later, order);
    case SidebandIn(sb, now) => SidebandKept(s, sb, now);
    case CookieIn(r, now, later, order) => CookieKept(s, r, now, later, order);
    case SweepIn(now, o) => SweepKept(s, now, o);
    case SweepCookiesIn(now, order) => CookieSweepKept(s, now, order);
  }

  lemma CookieSweepKept(s: State, now: int, order: seq<u64>)
    requires Custody(s) && Balanced(s)
    ensures Custody(ExpireCookies(s, now, order)) && Balanced(ExpireCookies(s, now, order))
  {
    hide Values, Origins, Expire, Unmerged;
  }

  /** Conservation over every run of arbitrary records, losses, reorderings and sweeps. */
  lemma {:induction false} RunKept(inputs: seq<Input>)
    ensures Custody(Run(Init(), inputs)) && Balanced(Run(Init(), inputs))
  {
    hide Step;
    if inputs != [] {
      RunKept(inputs[..|inputs| - 1]);
      StepKept(Run(Init(), inputs[..|inputs| - 1]), inputs[|inputs| - 1]);
    }
  }
}
