/** What is thrown away and when: chunk buffers and stashed cookies past their lifetime, every 256th event. */
module Housekeeping {
  import opened Types
  import opened KeyedList
  import opened CollectorModel
  import opened Reassembly
  import opened Pairing

  function ChunkInputs(inputs: seq<Input>): nat {
    if inputs == [] then 0 else
    ChunkInputs(inputs[..|inputs| - 1]) + if inputs[|inputs| - 1].ChunkIn? then 1 else 0
  }

  lemma ChunkInputsLast(front: seq<Input>, last: Input)
    ensures ChunkInputs(front + [last]) == ChunkInputs(front) + if last.ChunkIn? then 1 else 0
  {
    assert (front + [last])[..|front|] == front;
  }

  lemma StepCounter(s: State, i: Input)
    ensures Step(s, i).eventCounter ==
            if i.ChunkIn? then (s.eventCounter + 1) % 0x1_0000_0000 else s.eventCounter
  {
    hide Trim, Trimmed, Push, Delete, Touch, Expire, Expired, HandleChunk;
    if i.ChunkIn? {
      hide TakeChunk, Deliver, Merge;
      HandleChunkIs(s, i.chunk, i.now, i.later, i.order);
      var n := NoteChunk(s, i.chunk);
      TakeChunkFrame(n, i.chunk, i.now);
      var t := TakeChunk(n, i.chunk, i.now);
      if Complete(t.buffers[i.chunk.txid].chunks) { DeliverFrame(t, i.chunk.txid, i.now); }
    }
  }

  /** The counter is the number of chunks handled, in 32 bits. */
  lemma {:induction false} RunCounter(inputs: seq<Input>)
    ensures Run(Init(), inputs).eventCounter == ChunkInputs(inputs) % 0x1_0000_0000
  {
    hide Step, Run, ChunkInputs;
    if inputs == [] {
      RunNone(Init());
      NoneCounted();
    } else {
      var front, last := inputs[..|inputs| - 1], inputs[|inputs| - 1];
      assert inputs == front + [last];
      RunCounter(front);
      RunLast(Init(), front, last);
      ChunkInputsLast(front, last);
      StepCounter(Run(Init(), front), last);
    }
  }

  lemma NoneCounted()
    ensures ChunkInputs([]) == 0
  {}

  /** Handling a chunk, seen from the buffers and stashed cookies of other transactions: every 256th chunk drops those
      that are more than five seconds old and keeps the rest; all others keep everything. */
  lemma CleanupExact(inputs: seq<Input>, last: Input, k: u64)
    requires last.ChunkIn? && k != last.chunk.txid
    ensures var s, r, due := Run(Init(), inputs), Run(Init(), inputs + [last]), ChunkInputs(inputs + [last]) % 256 == 0;
            && (k in r.buffers <==>
                  k in s.buffers && (due ==> last.now - s.buffers[k].firstSeen <= 5_000_000_000))
            && (k in r.buffers ==> r.buffers[k] == s.buffers[k])
            && (k in r.cookies.items ==> k in s.cookies.items && r.cookies.items[k] == s.cookies.items[k])
            && (k in s.cookies.items && (due ==> last.later - s.cookies.items[k].at <= 5_000_000_000) ==>
                  k in r.cookies.items)
            && (due && Ranged(s, last) && k in r.cookies.items ==>
                  last.later - r.cookies.items[k].at <= 5_000_000_000)
  {
    hide Run, Step, HandleChunk, TakeChunk, Deliver, Merge, Expire, ChunkInputs;
    var s, c, now := Run(Init(), inputs), last.chunk, last.now;
    RunLast(Init(), inputs, last);
    RunCounter(inputs);
    ChunkInputsLast(inputs, last);
    assert ChunkInputs(inputs + [last]) % 256 == (s.eventCounter + 1) % 0x1_0000_0000 % 256 by {
      Mod256(ChunkInputs(inputs));
    }
    StepChunk(s, last);
    HandleChunkIs(s, c, now, last.later, last.order);
    var n := NoteChunk(s, c);
    TakeChunkFrame(n, c, now);
    OthersCookie(n, c, now, k);
    var t := TakeChunk(n, c, now);
    var full := Complete(t.buffers[c.txid].chunks);
    if full { DeliverFrame(t, c.txid, now); }
    var d := if full then Deliver(t, c.txid, now) else t;
    ExpirePart(d.cookies, last.order, last.later - PENDING_COOKIE_TTL);
  }

  lemma Mod256(n: nat)
    ensures (n + 1) % 256 == (n % 0x1_0000_0000 + 1) % 0x1_0000_0000 % 256
  {
    var q, r := n / 0x1_0000_0000, n % 0x1_0000_0000;
    assert n == 0x1_0000_0000 * q + r;
    if r + 1 < 0x1_0000_0000 {
      Shift256(r + 1, 0x100_0000 * q);
    } else {
      Shift256(0, 0x100_0000 * (q + 1));
    }
  }

  lemma Shift256(a: nat, k: nat)
    ensures (a + 256 * k) % 256 == a % 256
  {}

  lemma OthersCookie(s: State, c: Chunk, now: int, k: u64)
    requires k != c.txid
    ensures Same(s.cookies.items, TakeChunk(s, c, now).cookies.items, k)
  {
    hide Without;
  }

  /** `after` holds exactly the entries of `before` that are at most `ttl` old, unchanged. */
  ghost predicate OnlyYoung<V>(before: map<u64, Entry<V>>, after: map<u64, Entry<V>>, now: int, ttl: int) {
    && (forall k :: k in after <==> k in before && now - before[k].at <= ttl)
    && (forall k :: k in after ==> after[k] == before[k])
  }

  lemma ExpireOnlyYoung<V>(l: Lru<V>, order: seq<u64>, now: int, ttl: nat)
    requires Enumerates(order, l.items)
    ensures OnlyYoung(l.items, Expire(l, order, now - ttl).items, now, ttl)
  {
    hide Expire, Expired;
    ExpirePart(l, order, now - ttl);
  }

  /** A sweep ends the wait of exactly those that have waited too long, mains after five seconds and sidebands after
      one, and forgets one-way mains after one second. Each main that goes is counted as an early return, each
      sideband as an orphan. */
  lemma SweepExact(s: State, now: i64, o: Orders)
    requires Ranged(s, SweepIn(now, o))
    ensures var r := Step(s, SweepIn(now, o));
            && OnlyYoung(s.main.items, r.main.items, now, 5_000_000_000)
            && OnlyYoung(s.byTxid.items, r.byTxid.items, now, 5_000_000_000)
            && OnlyYoung(s.oneway.items, r.oneway.items, now, 1_000_000_000)
            && OnlyYoung(s.recent.items, r.recent.items, now, 1_000_000_000)
            && r.failures.entryEarlyReturn + |r.main.items| + |r.byTxid.items| ==
               s.failures.entryEarlyReturn + |s.main.items| + |s.byTxid.items|
            && r.failures.sidebandOrphan + |r.oneway.items| == s.failures.sidebandOrphan + |s.oneway.items|
            && r.failures.onewayLate == s.failures.onewayLate
            && r.failures.cookieViolation == s.failures.cookieViolation
            && r.buffers == s.buffers && r.cookies == s.cookies && r.accepted == s.accepted
  {
    hide Expire, Expired, Enumerates, OnlyYoung;
    ExpireOnlyYoung(s.main, o.main, now, PENDING_MAIN_TTL);
    ExpireOnlyYoung(s.byTxid, o.byTxid, now, PENDING_MAIN_TTL);
    ExpireOnlyYoung(s.oneway, o.oneway, now, PENDING_ONEWAY_TTL);
    ExpireOnlyYoung(s.recent, o.recent, now, RECENT_ONEWAY_TTL);
    ExpireCount(s.main, o.main, now - PENDING_MAIN_TTL);
    ExpireCount(s.byTxid, o.byTxid, now - PENDING_MAIN_TTL);
    ExpireCount(s.oneway, o.oneway, now - PENDING_ONEWAY_TTL);
  }

  lemma CookieSweepExact(s: State, now: i64, order: seq<u64>)
    requires Ranged(s, SweepCookiesIn(now, order))
    ensures var r := Step(s, SweepCookiesIn(now, order));
            r == s.(cookies := r.cookies) && OnlyYoung(s.cookies.items, r.cookies.items, now, 5_000_000_000)
  {
    hide Expire, OnlyYoung;
    ExpireOnlyYoung(s.cookies, order, now, PENDING_COOKIE_TTL);
  }

  // The stash holds the last cookie record of a transaction

  /** Cookie and time of the last well-formed cookie record of the transaction. */
  function LastRecord(inputs: seq<Input>, txid: u64): Option<(u64, i64)> {
    if inputs == [] then None else
    var last := inputs[|inputs| - 1];
    if last.CookieIn? && last.cookieRecord.txid == txid != 0 && last.cookieRecord.cookie != 0
    then Some((last.cookieRecord.cookie, last.now))
    else LastRecord(inputs[..|inputs| - 1], txid)
  }

  lemma RecordLast(front: seq<Input>, last: Input, txid: u64)
    ensures LastRecord(front + [last], txid) ==
            if last.CookieIn? && last.cookieRecord.txid == txid != 0 && last.cookieRecord.cookie != 0
            then Some((last.cookieRecord.cookie, last.now)) else LastRecord(front, txid)
  {
    assert (front + [last])[..|front|] == front;
  }

  /** A stashed cookie is that of the last record, with its time; while one is stashed, neither a buffer nor a waiting
      main of the transaction lacks a cookie. */
  ghost predicate Stash(s: State, txid: u64, record: Option<(u64, i64)>) {
    txid in s.cookies.items ==>
      && record.Some? && s.cookies.items[txid].value == record.value.0 && s.cookies.items[txid].at == record.value.1
      && txid !in s.byTxid.items && (txid in s.buffers ==> s.buffers[txid].meta.cookie != 0)
      && s.cookies.items[txid].value != 0
  }

  lemma RouteStash(s: State, m: MainEvent, cookie: u64, key: u64, now: int, txid: u64)
    requires txid != key || cookie != 0
    ensures txid in RouteMain(s, m, cookie, key, now).byTxid.items ==> txid in s.byTxid.items
  {
    hide Trim, Trimmed, Without, RouteOneway, CheckDuplicate, ParkByCookie;
    CheckFrame(s, cookie);
    OnewayWaits(CheckDuplicate(s, cookie), m, cookie, now);
    ByCookieOnly(CheckDuplicate(s, cookie), m, cookie, now);
    var l := if key in s.byTxid.items then Delete(s.byTxid, key) else s.byTxid;
    TrimPart(Push(l, key, now, m), PENDING_MAIN_CAPACITY);
  }

  lemma ByCookieOnly(s: State, m: MainEvent, cookie: u64, now: int)
    ensures ParkByCookie(s, m, cookie, now).byTxid == s.byTxid
  {
    hide Trim, Trimmed, Push;
  }

  lemma ChunkStash(s: State, i: Input, txid: u64, record: Option<(u64, i64)>)
    requires i.ChunkIn? && Stash(s, txid, record)
    ensures Stash(Step(s, i), txid, record)
  {
    hide HandleChunk, TakeChunk, Deliver, MaybeCleanup, RouteMain, Merge;
    var c, now := i.chunk, i.now;
    StepChunk(s, i);
    HandleChunkIs(s, c, now, i.later, i.order);
    var n := NoteChunk(s, c);
    TakeChunkFrame(n, c, now);
    TakeStash(n, c, now, txid);
    var t := TakeChunk(n, c, now);
    var full := Complete(t.buffers[c.txid].chunks);
    var d := if full then Deliver(t, c.txid, now) else t;
    if full {
      DeliverFrame(t, c.txid, now);
      DeliverCases(t, c.txid, now);
      var m := Assembled(t, c.txid, now);
      if m.Some? && txid in t.cookies.items {
        RouteStash(t.(buffers := t.buffers - {c.txid}), m.value, t.buffers[c.txid].meta.cookie, c.txid, now, txid);
      }
    }
    CleanupFrame(d, now, i.later, i.order);
    CleanupStash(d, now, i.later, i.order);
  }

  lemma CleanupStash(s: State, now: int, later: int, order: seq<u64>)
    ensures forall k :: k in MaybeCleanup(s, now, later, order).cookies.items ==>
              k in s.cookies.items && MaybeCleanup(s, now, later, order).cookies.items[k] == s.cookies.items[k]
  {
    hide Expire;
    ExpirePart(s.cookies, order, later - PENDING_COOKIE_TTL);
  }

  /** A buffer that opens takes the stashed cookie away with it, or has one of its own. */
  lemma TakeStash(s: State, c: Chunk, now: int, txid: u64)
    ensures var t := TakeChunk(s, c, now);
            && (txid in t.cookies.items ==> txid in s.cookies.items && t.cookies.items[txid] == s.cookies.items[txid])
            && (txid in t.cookies.items && txid == c.txid ==>
                  if txid in s.buffers then t.buffers[txid].meta.cookie == s.buffers[txid].meta.cookie
                  else t.buffers[txid].meta.cookie != 0)
  {
    hide Without, TotalChunks;
  }

  lemma CookieStash(s: State, i: Input, txid: u64, record: Option<(u64, i64)>)
    requires i.CookieIn? && Stash(s, txid, record)
    ensures var r := i.cookieRecord;
            Stash(Step(s, i), txid, if r.txid == txid != 0 && r.cookie != 0 then Some((r.cookie, i.now)) else record)
  {
    hide Trim, Trimmed, Without, Expire, HandleChunk;
    var r, n := i.cookieRecord, NoteCookie(s, i.cookieRecord);
    var l := if r.txid in s.cookies.items then Touch(s.cookies, r.txid, i.now, r.cookie)
             else Push(s.cookies, r.txid, i.now, r.cookie);
    TrimPart(l, PENDING_COOKIE_CAPACITY);
    ExpirePart(Trim(l, PENDING_COOKIE_CAPACITY), i.order, i.later - PENDING_COOKIE_TTL);
  }

  lemma OtherKeepsStash(s: State, i: Input, txid: u64, record: Option<(u64, i64)>)
    requires !i.ChunkIn? && !i.CookieIn? && Stash(s, txid, record)
    ensures Stash(Step(s, i), txid, record)
  {
    hide Trim, Trimmed, Push, Delete, Expire, Expired, HandleChunk;
    if i.SweepIn? { ExpirePart(s.byTxid, i.orders.byTxid, i.now - PENDING_MAIN_TTL); }
    if i.SweepCookiesIn? { ExpirePart(s.cookies, i.order, i.now - PENDING_COOKIE_TTL); }
  }

  /** In every run a stashed cookie is the one the last record of its transaction brought, counted from that record's
      time. */
  lemma {:induction false} StashIsLatest(inputs: seq<Input>, txid: u64)
    ensures Stash(Run(Init(), inputs), txid, LastRecord(inputs, txid))
  {
    hide Step, Run, Stash, LastRecord;
    if inputs == [] {
      RunNone(Init());
      NothingStashed(txid);
    } else {
      var front, last := inputs[..|inputs| - 1], inputs[|inputs| - 1];
      assert inputs == front + [last];
      StashIsLatest(front, txid);
      RunLast(Init(), front, last);
      RecordLast(front, last, txid);
      var s, record := Run(Init(), front), LastRecord(front, txid);
      if last.ChunkIn? {
        ChunkStash(s, last, txid, record);
      } else if last.CookieIn? {
        CookieStash(s, last, txid, record);
      } else {
        OtherKeepsStash(s, last, txid, record);
      }
    }
  }

  lemma NothingStashed(txid: u64)
    ensures Stash(Init(), txid, LastRecord([], txid))
  {}
}
