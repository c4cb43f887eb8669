/** How long a main event can wait, in any run. */
module CollectorHolding {
  import opened Types
  import opened KeyedList
  import opened CollectorModel
  import opened CollectorCustody

  /** Every entry still carries the time its event was first routed, and that time is `ok`. */
  ghost predicate Timed(m: map<u64, Entry<MainEvent>>, ok: int -> bool) {
    forall k :: k in m ==> m[k].at == m[k].value.base.timestamp && ok(m[k].at)
  }

  ghost predicate Times(s: State, ok: int -> bool) {
    Timed(s.main.items, ok) && Timed(s.byTxid.items, ok)
  }

  lemma TrimTimed(l: Lru<MainEvent>, cap: nat, ok: int -> bool)
    requires Timed(l.items, ok)
    ensures Timed(Trim(l, cap).items, ok)
  {
    hide Trim, Trimmed;
    TrimPart(l, cap);
  }

  lemma PushTimed(l: Lru<MainEvent>, key: u64, m: MainEvent, ok: int -> bool)
    requires Timed(l.items, ok) && ok(m.base.timestamp)
    ensures Timed(Push(l, key, m.base.timestamp, m).items, ok)
  {}

  lemma DeleteTimed(l: Lru<MainEvent>, key: u64, ok: int -> bool)
    requires Timed(l.items, ok) && key in l.items
    ensures Timed(Delete(l, key).items, ok)
  {
    hide Without;
  }

  lemma ParkByTxidTimes(s: State, m: MainEvent, txid: u64, ok: int -> bool)
    requires Times(s, ok) && ok(m.base.timestamp)
    ensures Times(ParkByTxid(s, m, txid, m.base.timestamp), ok)
  {
    hide Trim, Trimmed, Push, Delete, Timed;
    if txid in s.byTxid.items { DeleteTimed(s.byTxid, txid, ok); }
    var l := if txid in s.byTxid.items then Delete(s.byTxid, txid) else s.byTxid;
    PushTimed(l, txid, m, ok);
    TrimTimed(Push(l, txid, m.base.timestamp, m), PENDING_MAIN_CAPACITY, ok);
  }

  lemma ParkByCookieTimes(s: State, m: MainEvent, cookie: u64, ok: int -> bool)
    requires Times(s, ok) && ok(m.base.timestamp)
    ensures Times(ParkByCookie(s, m, cookie, m.base.timestamp), ok)
  {
    hide Trim, Trimmed, Push, Timed;
    PushTimed(s.main, cookie, m, ok);
    TrimTimed(Push(s.main, cookie, m.base.timestamp, m), PENDING_MAIN_CAPACITY, ok);
  }

  lemma RouteTimes(s: State, m: MainEvent, cookie: u64, txid: u64, ok: int -> bool)
    requires Times(s, ok) && ok(m.base.timestamp)
    ensures Times(RouteMain(s, m, cookie, txid, m.base.timestamp), ok)
  {
    hide ParkByTxid, ParkByCookie, RouteOneway, CheckDuplicate, Timed;
    var now, checked := m.base.timestamp, CheckDuplicate(s, cookie);
    CheckFrame(s, cookie);
    OnewayWaits(checked, m, cookie, now);
    ParkByTxidTimes(s, m, txid, ok);
    ParkByCookieTimes(checked, m, cookie, ok);
  }

  /** The step completes a main event. */
  predicate Completes(s: State, i: Input) {
    i.ChunkIn? &&
    var t := TakeChunk(NoteChunk(s, i.chunk), i.chunk, i.now);
    Complete(t.buffers[i.chunk.txid].chunks) && Assembled(t, i.chunk.txid, i.now).Some?
  }

  lemma ChunkTimes(s: State, i: Input, ok: int -> bool)
    requires i.ChunkIn? && Times(s, ok) && (Completes(s, i) ==> ok(i.now))
    ensures Times(Step(s, i), ok)
  {
    hide TakeChunk, Deliver, MaybeCleanup, RouteMain, Merge, HandleChunk, Timed;
    var c, now := i.chunk, i.now;
    StepChunk(s, i);
    HandleChunkIs(s, c, now, i.later, i.order);
    var t := TakeChunk(NoteChunk(s, c), c, now);
    TakeChunkFrame(NoteChunk(s, c), c, now);
    var full := Complete(t.buffers[c.txid].chunks);
    if full {
      DeliverCases(t, c.txid, now);
      var t1, m := t.(buffers := t.buffers - {c.txid}), Assembled(t, c.txid, now);
      if m.Some? { RouteTimes(t1, m.value, t.buffers[c.txid].meta.cookie, c.txid, ok); }
    }
    CleanupFrame(if full then Deliver(t, c.txid, now) else t, now, i.later, i.order);
  }

  /** A main moved from waiting by transaction id to waiting by cookie keeps its original time. */
  lemma ActivateTimes(s: State, txid: u64, cookie: u64, ok: int -> bool)
    requires Times(s, ok) && txid in s.byTxid.items
    ensures Times(Activate(s, txid, cookie), ok)
  {
    hide Trim, Trimmed, Push, Delete;
    var e := s.byTxid.items[txid];
    DeleteTimed(s.byTxid, txid, ok);
    if cookie in s.main.items { DeleteTimed(s.main, cookie, ok); }
    var l := if cookie in s.main.items then Delete(s.main, cookie) else s.main;
    PushTimed(l, cookie, e.value, ok);
    TrimTimed(Push(l, cookie, e.at, e.value), PENDING_MAIN_CAPACITY, ok);
  }

  lemma ExpireTimed(l: Lru<MainEvent>, keys: seq<u64>, cutoff: int, ok: int -> bool)
    requires Timed(l.items, ok)
    ensures Timed(Expire(l, keys, cutoff).items, ok)
  {
    hide Expire, Expired;
    ExpirePart(l, keys, cutoff);
  }

  lemma SidebandTimes(s: State, sb: Sideband, now: int, ok: int -> bool)
    requires Times(s, ok)
    ensures Times(HandleSideband(s, sb, now), ok)
  {
    hide Delete, Trim, Trimmed, Push, Timed;
    if sb.cookie in s.main.items { DeleteTimed(s.main, sb.cookie, ok); }
  }

  lemma StepTimes(s: State, i: Input, ok: int -> bool)
    requires Times(s, ok) && (Completes(s, i) ==> ok(i.now))
    ensures Times(Step(s, i), ok)
  {
    hide Activate, HandleChunk, HandleSideband, StashCookie, Expire, Expired, Timed, Completes;
    match i
    case ChunkIn(c, now, later, order) => ChunkTimes(s, i, ok);
    case SidebandIn(sb, now) => SidebandTimes(s, sb, now, ok);
    case CookieIn(r, now, later, order) =>
      StashWaits(NoteCookie(s, r), r, now);
      if r.txid in s.byTxid.items { ActivateTimes(NoteCookie(s, r), r.txid, r.cookie, ok); }
    case SweepIn(now, o) =>
      ExpireTimed(s.main, o.main, now - PENDING_MAIN_TTL, ok);
      ExpireTimed(s.byTxid, o.byTxid, now - PENDING_MAIN_TTL, ok);
    case SweepCookiesIn(now, order) =>
  }

  lemma StashWaits(s: State, r: CookieRecord, now: int)
    ensures StashCookie(s, r, now).main == s.main && StashCookie(s, r, now).byTxid == s.byTxid
  {
    hide Trim, Touch, Push;
  }

  /** Every step of the run that completes a main is stamped `ok`. */
  ghost predicate Stamped(s: State, inputs: seq<Input>, ok: int -> bool) {
    inputs == []
    || (Stamped(s, inputs[..|inputs| - 1], ok)
        && (Completes(Run(s, inputs[..|inputs| - 1]), inputs[|inputs| - 1]) ==> ok(inputs[|inputs| - 1].now)))
  }

  lemma {:induction false} RunTimes(s: State, inputs: seq<Input>, ok: int -> bool)
    requires Times(s, ok) && Stamped(s, inputs, ok)
    ensures Times(Run(s, inputs), ok)
  {
    hide Step, Completes, Times;
    if inputs != [] {
      RunTimes(s, inputs[..|inputs| - 1], ok);
      StepTimes(Run(s, inputs[..|inputs| - 1]), inputs[|inputs| - 1], ok);
    }
  }

  lemma {:induction false} AnyStamp(s: State, inputs: seq<Input>)
    ensures Stamped(s, inputs, _ => true)
  {
    hide Run, Completes;
    if inputs != [] { AnyStamp(s, inputs[..|inputs| - 1]); }
  }

  /** A sweep that visits every waiting key, in whatever order. */
  predicate SweepsAll(s: State, o: Orders) {
    && (forall k :: k in s.main.items ==> k in o.main)
    && (forall k :: k in s.byTxid.items ==> k in o.byTxid)
  }

  lemma SweepTimes(s: State, now: int, o: Orders, ok: int -> bool)
    requires Times(s, ok) && SweepsAll(s, o)
    ensures Times(Sweep(s, now, o), t => ok(t) && t >= now - PENDING_MAIN_TTL)
  {
    hide Expire, Expired;
    ExpirePart(s.main, o.main, now - PENDING_MAIN_TTL);
    ExpirePart(s.byTxid, o.byTxid, now - PENDING_MAIN_TTL);
  }

  lemma {:induction false} RunSplit(s: State, a: seq<Input>, b: seq<Input>)
    ensures Run(s, a + b) == Run(Run(s, a), b)
  {
    hide Run;
    if b == [] {
      assert a + b == a;
      RunNone(Run(s, a));
    } else {
      var front, last := b[..|b| - 1], b[|b| - 1];
      assert b == front + [last] && a + b == (a + front) + [last];
      RunSplit(s, a, front);
      RunLast(s, a + front, last);
      RunLast(Run(s, a), front, last);
    }
  }

  /** Bounded holding: after a sweep at `now`, and for as long as no later main is completed
      before now - 5 s, every main that waits in either map was first routed at or after
      now - 5 s, whichever map it was parked in and however it moved. */
  lemma BoundedHolding(before: seq<Input>, now: i64, o: Orders, after: seq<Input>)
    requires SweepsAll(Run(Init(), before), o)
    requires Stamped(Run(Init(), before + [SweepIn(now, o)]), after, t => t >= now - PENDING_MAIN_TTL)
    ensures var s := Run(Init(), before + [SweepIn(now, o)] + after);
            && (forall k :: k in s.main.items ==> now - s.main.items[k].value.base.timestamp <= 5_000_000_000)
            && (forall k :: k in s.byTxid.items ==> now - s.byTxid.items[k].value.base.timestamp <= 5_000_000_000)
  {
    hide Run, Sweep, Stamped;
    var s1, recent := Run(Init(), before), t => t >= now - PENDING_MAIN_TTL;
    AnyStamp(Init(), before);
    RunTimes(Init(), before, _ => true);
    SweepTimes(s1, now, o, _ => true);
    SweepLast(before, now, o);
    var s2 := Run(Init(), before + [SweepIn(now, o)]);
    assert Times(s2, recent);
    RunTimes(s2, after, recent);
    RunSplit(Init(), before + [SweepIn(now, o)], after);
  }

  lemma SweepLast(before: seq<Input>, now: i64, o: Orders)
    ensures Run(Init(), before + [SweepIn(now, o)]) == Sweep(Run(Init(), before), now, o)
  {
    hide Sweep, Run;
    RunLast(Init(), before, SweepIn(now, o));
  }

  /** Drain: a sweep more than 5 s after the last main was completed leaves nothing waiting, so the
      events emitted are exactly the events built, each once, except those that were overwritten. */
  lemma Drain(inputs: seq<Input>, now: i64, o: Orders)
    requires SweepsAll(Run(Init(), inputs), o)
    requires Stamped(Init(), inputs, t => t < now - PENDING_MAIN_TTL)
    ensures var s := Run(Init(), inputs + [SweepIn(now, o)]);
            && s.main.items == map[] && s.byTxid.items == map[]
            && multiset(s.hist.completed) == multiset(Origins(s.emitted)) + multiset(s.hist.lost)
  {
    hide Sweep, Origins, Run, Stamped;
    var early := t => t < now - PENDING_MAIN_TTL;
    RunTimes(Init(), inputs, early);
    SweepTimes(Run(Init(), inputs), now, o, early);
    SweepLast(inputs, now, o);
    RunKept(inputs + [SweepIn(now, o)]);
    var s := Run(Init(), inputs + [SweepIn(now, o)]);
    assert s.main.items == map[] && s.byTxid.items == map[];
  }
}
