/** What becomes of a main event the moment it is complete, and of a sideband the moment it comes. */
module Routing {
  import opened Types
  import opened KeyedList
  import opened CollectorModel
  import opened CollectorLists
  import opened Reassembly
  import opened Pairing

  /** The cookie a transaction has when this chunk of it is handled: the one its buffer has, or else the chunk's own, or
      else one that came ahead of it; zero if none is known. */
  function CookieAt(s: State, c: Chunk): u64 {
    if c.txid in s.buffers then s.buffers[c.txid].meta.cookie
    else if c.meta.cookie == 0 && c.txid in s.cookies.items then s.cookies.items[c.txid].value
    else c.meta.cookie
  }

  /** `r` is `s` with exactly one more event handed out; nothing started or stopped waiting for a partner. */
  ghost predicate HandsOut(s: State, r: State, e: MainEvent) {
    && r.emitted == s.emitted + [e] && r.main == s.main && r.byTxid == s.byTxid && r.hist.parked == s.hist.parked
    && r.failures.entryEarlyReturn == s.failures.entryEarlyReturn
    && r.failures.sidebandOrphan == s.failures.sidebandOrphan && r.failures.onewayLate == s.failures.onewayLate
  }

  /** No part of the state that concerns cookies of one-way mains has changed. */
  ghost predicate SameOneway(s: State, r: State) {
    && r.oneway == s.oneway && r.recent == s.recent && r.accepted == s.accepted
    && r.failures.cookieViolation == s.failures.cookieViolation
  }

  /** The cookie is one of the last 4096 that were accepted. */
  ghost predicate SeenLately(accepted: seq<u64>, cookie: u64) {
    exists j :: 0 <= j < |accepted| && |accepted| - 4096 <= j && accepted[j] == cookie
  }

  /** The cookie is counted as repeated, or accepted. */
  ghost predicate Checked(s: State, r: State, cookie: u64) {
    if SeenLately(s.accepted, cookie)
    then r.accepted == s.accepted && r.failures.cookieViolation == s.failures.cookieViolation + 1
    else r.accepted == s.accepted + [cookie] && r.failures.cookieViolation == s.failures.cookieViolation
  }

  /** A one-way main with a cookie: handed out, with the sideband that waits for it if there is one. */
  ghost predicate HandsOutOneway(s: State, r: State, m: MainEvent, cookie: u64) {
    exists e :: && HandsOut(s, r, e) && Origin(e) == m
                && if cookie in s.oneway.items
                   then FilledBy(m.base, s.oneway.items[cookie].value, e.event)
                        && r.oneway.items == s.oneway.items - {cookie}
                   else e == m && r.oneway == s.oneway
  }

  lemma CheckedIs(s: State, cookie: u64)
    ensures Checked(s, CheckDuplicate(s, cookie), cookie)
  {
    var w, d := LastCookies(s.accepted), |s.accepted| - |LastCookies(s.accepted)|;
    if cookie in w {
      var i :| 0 <= i < |w| && w[i] == cookie;
      assert s.accepted[i + d] == cookie;
    }
    if SeenLately(s.accepted, cookie) {
      var j :| 0 <= j < |s.accepted| && |s.accepted| - 4096 <= j && s.accepted[j] == cookie;
      assert w[j - d] == cookie;
    }
  }

  lemma OnewayHandedOut(s: State, m: MainEvent, cookie: u64, now: int)
    requires m == Origin(m)
    ensures var r := RouteOneway(s, m, cookie, now);
            HandsOutOneway(s, r, m, cookie) && r.accepted == s.accepted && r.failures == s.failures
  {
    hide Trim, Touch, Push, Without;
    var e := if cookie in s.oneway.items then Merged(m, s.oneway.items[cookie].value) else m;
    assert HandsOut(s, RouteOneway(s, m, cookie, now), e);
  }

  /** What routing does with a main that does not have to wait. */
  ghost predicate Dispatched(s: State, r: State, m: MainEvent, cookie: u64, txid: u64) {
    && (m.base.isReply != 0 ==> HandsOut(s, r, m) && SameOneway(s, r))
    && (m.base.isReply == 0 && cookie == 0 && (m.base.flags % 2 == 1 || txid == 0) ==>
          HandsOut(s, r, m) && SameOneway(s, r))
    && (m.base.isReply == 0 && cookie != 0 && m.base.flags % 2 == 1 ==> HandsOutOneway(s, r, m, cookie))
    && (m.base.isReply == 0 && cookie != 0 ==> Checked(s, r, cookie))
    && (m.base.isReply == 0 && m.base.flags % 2 == 0 && (cookie != 0 || txid != 0) ==>
          r.hist.parked == s.hist.parked + 1)
  }

  lemma RouteDispatches(s: State, m: MainEvent, cookie: u64, txid: u64, now: int)
    requires m == Origin(m)
    ensures Dispatched(s, RouteMain(s, m, cookie, txid, now), m, cookie, txid)
  {
    hide CheckDuplicate, RouteOneway, Trim, Trimmed, Push, Delete, Checked;
    var checked := CheckDuplicate(s, cookie);
    CheckFrame(s, cookie);
    CheckedIs(s, cookie);
    OnewayHandedOut(checked, m, cookie, now);
    if HandsOutOneway(checked, RouteOneway(checked, m, cookie, now), m, cookie) {
      OnewaySince(s, checked, RouteOneway(checked, m, cookie, now), m, cookie);
    }
    CheckedSince(s, checked, RouteMain(s, m, cookie, txid, now), cookie);
  }

  /** The duplicate check before it changes neither the maps nor these counters. */
  lemma OnewaySince(s: State, checked: State, r: State, m: MainEvent, cookie: u64)
    requires checked == s.(failures := checked.failures, accepted := checked.accepted)
    requires checked.failures == s.failures.(cookieViolation := checked.failures.cookieViolation)
    requires HandsOutOneway(checked, r, m, cookie)
    ensures HandsOutOneway(s, r, m, cookie)
  {
    var e :| && HandsOut(checked, r, e) && Origin(e) == m
             && if cookie in s.oneway.items
                then FilledBy(m.base, s.oneway.items[cookie].value, e.event)
                     && r.oneway.items == s.oneway.items - {cookie}
                else e == m && r.oneway == s.oneway;
    assert HandsOut(s, r, e);
  }

  lemma CheckedSince(s: State, checked: State, r: State, cookie: u64)
    requires Checked(s, checked, cookie)
    ensures r.accepted == checked.accepted && r.failures.cookieViolation == checked.failures.cookieViolation ==>
              Checked(s, r, cookie)
  {
    hide SeenLately;
  }

  /** Replies, one-way mains and mains without any id are handed out in the step that completes them, exactly once and
      alone, and nothing else about waiting changes; a one-way main takes with it the sideband that waits under its
      cookie. In every state, so in every run. */
  lemma HandedOutAtOnce(s: State, i: Input, m: MainEvent)
    requires i.ChunkIn? && Step(s, i).hist.completed == s.hist.completed + [m]
    ensures m == Origin(m) && m.txid == i.chunk.txid && m.base.timestamp == i.now
    ensures Dispatched(s, Step(s, i), m, CookieAt(s, i.chunk), i.chunk.txid)
  {
    hide HandleChunk, TakeChunk, Deliver, MaybeCleanup, RouteMain, Merge, Dispatched, Step;
    var c, now := i.chunk, i.now;
    StepChunk(s, i);
    HandleChunkIs(s, c, now, i.later, i.order);
    var n := NoteChunk(s, c);
    TakeChunkFrame(n, c, now);
    TakeCookie(n, c, now);
    var t := TakeChunk(n, c, now);
    var full := Complete(t.buffers[c.txid].chunks);
    var d := if full then Deliver(t, c.txid, now) else t;
    CleanupFrame(d, now, i.later, i.order);
    assert d.hist.completed == s.hist.completed + [m];
    assert full;
    DeliverFrame(t, c.txid, now);
    DeliverCases(t, c.txid, now);
    var built := Assembled(t, c.txid, now);
    assert built == Some(m) by { LastSame(s.hist.completed, built, m); }
    RouteDispatches(t.(buffers := t.buffers - {c.txid}), m, t.buffers[c.txid].meta.cookie, c.txid, now);
    SameDispatch(s, t.(buffers := t.buffers - {c.txid}), d, Step(s, i), m, CookieAt(s, c), c.txid);
  }

  lemma LastSame(q: seq<MainEvent>, built: Option<MainEvent>, m: MainEvent)
    requires q + (if built.Some? then [built.value] else []) == q + [m]
    ensures built == Some(m)
  {
    assert (q + [m])[|q|] == m;
  }

  /** Chunk buffers, waiting cookies, the event counter and the records seen have no part in it. */
  lemma SameDispatch(s: State, s': State, r: State, r': State, m: MainEvent, cookie: u64, txid: u64)
    requires Dispatched(s', r, m, cookie, txid) && SameCore(r, r')
    requires s'.main == s.main && s'.byTxid == s.byTxid && s'.oneway == s.oneway && s'.recent == s.recent
    requires s'.accepted == s.accepted && s'.failures == s.failures && s'.emitted == s.emitted
    requires s'.hist.parked == s.hist.parked
    ensures Dispatched(s, r', m, cookie, txid)
  {
    hide FilledBy, SeenLately;
    if HandsOutOneway(s', r, m, cookie) {
      var e :| && HandsOut(s', r, e) && Origin(e) == m
               && if cookie in s.oneway.items
                  then FilledBy(m.base, s.oneway.items[cookie].value, e.event)
                       && r.oneway.items == s.oneway.items - {cookie}
                  else e == m && r.oneway == s.oneway;
      assert HandsOut(s, r', e);
    }
  }

  // Sidebands

  /** Only counters and the map of waiting sidebands may differ. */
  ghost predicate NothingEmitted(s: State, r: State) {
    && r.emitted == s.emitted && r.main == s.main && r.byTxid == s.byTxid && r.recent == s.recent
    && r.buffers == s.buffers && r.cookies == s.cookies && r.accepted == s.accepted
    && r.failures.entryEarlyReturn == s.failures.entryEarlyReturn
    && r.failures.cookieViolation == s.failures.cookieViolation
  }

  /** The fate of a sideband in every run, by what is known under its cookie: a waiting main is handed out with it;
      else a sideband already waiting goes together with it, counted once as an orphan; else, if a one-way main with
      the cookie went out lately, it is late; else it waits, and at most the one that has waited longest goes. */
  lemma SidebandFate(inputs: seq<Input>, sb: Sideband, now: i64)
    ensures var s, r, k := Run(Init(), inputs), Run(Init(), inputs + [SidebandIn(sb, now)]), sb.cookie;
            if k in s.main.items then
              && (exists e :: && r.emitted == s.emitted + [e] && Origin(e) == Origin(s.main.items[k].value)
                              && FilledBy(s.main.items[k].value.event, sb, e.event))
              && r.main.items == s.main.items - {k} && r.byTxid == s.byTxid && r.oneway == s.oneway
              && r.recent == s.recent && r.failures == s.failures
            else if k in s.oneway.items then
              && NothingEmitted(s, r) && r.oneway.items == s.oneway.items - {k}
              && r.failures.sidebandOrphan == s.failures.sidebandOrphan + 1
              && r.failures.onewayLate == s.failures.onewayLate
            else if k in s.recent.items then
              && NothingEmitted(s, r) && r.oneway == s.oneway
              && r.failures.sidebandOrphan == s.failures.sidebandOrphan
              && r.failures.onewayLate == s.failures.onewayLate + 1
            else
              && NothingEmitted(s, r) && r.failures.onewayLate == s.failures.onewayLate
              && k in r.oneway.items && r.oneway.items[k].value == sb && r.oneway.items[k].at == now
              && |r.oneway.items| + r.failures.sidebandOrphan == |s.oneway.items| + s.failures.sidebandOrphan + 1
              && forall j :: j in s.oneway.items && |s.oneway.items| < 4096 ==>
                   j in r.oneway.items && r.oneway.items[j] == s.oneway.items[j]
  {
    hide Run, Trim, Trimmed, Without, Agree, Covered;
    var s, k := Run(Init(), inputs), sb.cookie;
    RunSideband(inputs, sb, now);
    RunLists(inputs);
    if k in s.main.items {
      var e := Merged(s.main.items[k].value, sb);
      assert Run(Init(), inputs + [SidebandIn(sb, now)]).emitted == s.emitted + [e];
    } else if k !in s.oneway.items && k !in s.recent.items {
      Stashed(s, sb, now);
    }
  }

  lemma Stashed(s: State, sb: Sideband, now: int)
    requires Lists(s) && sb.cookie !in s.oneway.items
    ensures var r, k := StashSideband(s, sb, now), sb.cookie;
            && k in r.oneway.items && r.oneway.items[k].value == sb && r.oneway.items[k].at == now
            && |r.oneway.items| + r.failures.sidebandOrphan == |s.oneway.items| + s.failures.sidebandOrphan + 1
            && forall j :: j in s.oneway.items && |s.oneway.items| < 4096 ==>
                 j in r.oneway.items && r.oneway.items[j] == s.oneway.items[j]
  {
    hide Trim, Trimmed;
    CoveredSize(s.oneway);
    InsertExact(s.oneway, sb.cookie, now, sb, PENDING_ONEWAY_CAPACITY);
    TrimCount(Push(s.oneway, sb.cookie, now, sb), PENDING_ONEWAY_CAPACITY);
    assert |s.oneway.items[sb.cookie := Entry(now, sb, s.oneway.list.next)]| == |s.oneway.items| + 1;
  }
}
