/** Reading the table while the writer goes on: the paged export and keyset paging. */
module StoreReads {
  import opened Types
  import opened Finite
  import opened Ordered
  import opened StoreModel

  function InRange(t: Table, lo: int, hi: int): set<int> { set id | id in t && lo < id <= hi }

  function Rows(t: Table, ids: seq<int>): (r: seq<Event>)
    requires forall i :: 0 <= i < |ids| ==> ids[i] in t
    ensures |r| == |ids| && forall i :: 0 <= i < |r| ==> r[i] == t[ids[i]]
  {
    if ids == [] then [] else Rows(t, ids[..|ids| - 1]) + [t[ids[|ids| - 1]]]
  }

  function Front(ids: seq<int>, n: nat): seq<int> { if |ids| <= n then ids else ids[..n] }

  /** One page of the export: the first rows above `lo` and within `hi`, by id. */
  function ExportPage(t: Table, lo: int, hi: int): seq<Event> {
    var ids := Ascending(InRange(t, lo, hi));
    Elements(InRange(t, lo, hi));
    Rows(t, Front(ids, BATCH))
  }

  lemma Elements(s: set<int>)
    ensures forall i :: 0 <= i < |Ascending(s)| ==> Ascending(s)[i] in s
    ensures Increasing(Ascending(s))
    ensures forall x :: x in s ==> x in Ascending(s)
  {
    hide Ascending;
    AscendingFacts(s);
    var a := Ascending(s);
    forall i | 0 <= i < |a| ensures a[i] in s { assert a[i] in set x | x in a; }
    forall x | x in s ensures x in a { assert x in set x | x in a; }
  }

  lemma DescendingElements(s: set<int>)
    ensures forall i :: 0 <= i < |Descending(s)| ==> Descending(s)[i] in s
    ensures |Descending(s)| == |s| && Decreasing(Descending(s)) && forall x :: x in s ==> x in Descending(s)
  {
    hide Descending;
    DescendingFacts(s);
    var d := Descending(s);
    forall i | 0 <= i < |d| ensures d[i] in s { assert d[i] in d; }
  }

  predicate WantsPair(e: Event) { e.pairId != 0 && (e.isReply || !e.oneway) }

  predicate Pairs(e: Event, p: Event) { p.pairId == e.pairId && p.isReply != e.isReply }

  /** The answer of the pair query against table `t` within the boundary id: the first partner by id, if any. */
  ghost predicate LinkedIn(t: Table, e: Event, hi: int, r: Option<Event>) {
    match r
    case Some(p) =>
      && p.id in t && t[p.id] == p && p.id <= hi && Pairs(e, p)
      && forall id :: id in t && id <= hi && Pairs(e, t[id]) ==> p.id <= id
    case None => forall id :: id in t && id <= hi ==> !Pairs(e, t[id])
  }

  /** What the export meets: the table at its i-th page query, the table at its k-th pair query,
      and the row that query picks. */
  datatype Env = Env(page: nat -> Table, pairTable: nat -> Table, pair: (nat, Event) -> Option<Event>)

  ghost predicate Later(boundary: Table, t: Table) { Keyed(t) && Within(boundary, t) }

  ghost predicate Allowed(boundary: Table, env: Env) {
    && (forall i :: Later(boundary, env.page(i)))
    && (forall k :: Later(boundary, env.pairTable(k)))
    && (forall k, e :: LinkedIn(env.pairTable(k), e, MaxId(boundary), env.pair(k, e)))
  }

  /** No Clear was processed while the export ran. */
  ghost predicate NeverCleared(boundary: Table, env: Env) {
    forall i, id :: id in boundary ==> id in env.page(i)
  }

  /** Nor had one been when the pair queries ran. */
  ghost predicate PairsKept(boundary: Table, env: Env) {
    forall k, id :: id in boundary ==> id in env.pairTable(k)
  }

  /** What the export is promised about the tables it meets holds in every run with increasing ids: the table
      at any later moment is `Later` than the table at the boundary. */
  lemma RunAllowed(steps: seq<WriterStep>, k: nat)
    requires k <= |steps| && IdsIncrease(WriterRun(Start(), steps).sent)
    ensures Later(WriterRun(Start(), steps[..k]).table, WriterRun(Start(), steps).table)
  {
    hide Within, WriterRun, Fifo, IdsIncrease;
    RunStaysWithin(steps, k);
    RunRefines(steps);
    var w := WriterRun(Start(), steps);
    forall id | id in w.table ensures w.table[id].id == id { FifoIds(w.marks, id); }
  }

  datatype Consumed = Consumed(event: Event, linked: Option<Event>)

  function Ids(cs: seq<Consumed>): (r: seq<int>)
    ensures |r| == |cs| && forall i :: 0 <= i < |r| ==> r[i] == cs[i].event.id
  {
    if cs == [] then [] else Ids(cs[..|cs| - 1]) + [cs[|cs| - 1].event.id]
  }

  function Events(cs: seq<Consumed>): (r: seq<Event>)
    ensures |r| == |cs| && forall i :: 0 <= i < |r| ==> r[i] == cs[i].event
  {
    if cs == [] then [] else Events(cs[..|cs| - 1]) + [cs[|cs| - 1].event]
  }

  /** A link handed out belongs to the boundary and is a partner of its event. */
  ghost predicate LinkOk(boundary: Table, c: Consumed) {
    && (c.linked.Some? ==>
          && var p := c.linked.value;
             && p.id in boundary && boundary[p.id] == p && p.pairId == c.event.pairId != 0
             && p.isReply != c.event.isReply && (c.event.oneway ==> c.event.isReply))
  }

  /** The link is exactly what the pair query finds at the boundary: none for an event that has no partner to look
      for, otherwise the first partner by id, and none only if the boundary holds none. */
  ghost predicate LinkFull(boundary: Table, c: Consumed) {
    var e := c.event;
    if e.pairId == 0 || (e.oneway && !e.isReply) then c.linked == None
    else match c.linked
      case None => forall id :: id in boundary ==> boundary[id].pairId != e.pairId || boundary[id].isReply == e.isReply
      case Some(p) =>
        && p.id in boundary && boundary[p.id] == p && p.pairId == e.pairId && p.isReply != e.isReply
        && forall id :: id in boundary && boundary[id].pairId == e.pairId && boundary[id].isReply != e.isReply ==>
             p.id <= id
  }

  ghost predicate AllLinked(boundary: Table, cs: seq<Consumed>) { forall c :: c in cs ==> LinkFull(boundary, c) }

  /** A later table that still holds the rows of the boundary gives the boundary's answer. */
  lemma SameAnswer(boundary: Table, t: Table, e: Event, r: Option<Event>)
    requires Within(boundary, t) && LinkedIn(t, e, MaxId(boundary), r) && forall id :: id in boundary ==> id in t
    ensures LinkedIn(boundary, e, MaxId(boundary), r)
  {
    assert forall id :: id in boundary ==> id <= MaxId(boundary) && t[id] == boundary[id];
  }

  lemma PageRows(t: Table, lo: int, hi: int)
    requires Keyed(t)
    ensures var rows := ExportPage(t, lo, hi);
            && (forall i, j :: 0 <= i < j < |rows| ==> rows[i].id < rows[j].id)
            && (forall i :: 0 <= i < |rows| ==> lo < rows[i].id <= hi && rows[i].id in t && t[rows[i].id] == rows[i])
            && (rows == [] ==> InRange(t, lo, hi) == {})
            && |rows| <= 500
            && (|rows| < 500 ==> forall id :: id in t && lo < id <= hi ==> t[id] in rows)
  {
    hide Ascending;
    Elements(InRange(t, lo, hi));
    var ids, rows := Ascending(InRange(t, lo, hi)), ExportPage(t, lo, hi);
    assert forall i :: 0 <= i < |rows| ==> rows[i].id == ids[i];
    if |rows| < 500 {
      forall id | id in t && lo < id <= hi ensures t[id] in rows {
        assert id in InRange(t, lo, hi) && id in ids;
        var i :| 0 <= i < |ids| && ids[i] == id;
        assert rows[i] == t[id];
      }
    }
  }

  lemma PageComplete(t: Table, lo: int, hi: int, id: int)
    requires Keyed(t) && id in InRange(t, lo, hi)
    requires var rows := ExportPage(t, lo, hi); rows != [] && id <= rows[|rows| - 1].id
    ensures exists i :: 0 <= i < |ExportPage(t, lo, hi)| && ExportPage(t, lo, hi)[i].id == id
  {
    hide Ascending;
    Elements(InRange(t, lo, hi));
    var ids, rows := Ascending(InRange(t, lo, hi)), ExportPage(t, lo, hi);
    assert forall i :: 0 <= i < |rows| ==> rows[i].id == ids[i];
    var i :| 0 <= i < |ids| && ids[i] == id;
    assert i < |rows| && rows[i].id == id;
  }

  lemma LookedUp(boundary: Table, env: Env, k: nat, c: Consumed)
    requires Allowed(boundary, env) && PairsKept(boundary, env)
    requires c.linked == if WantsPair(c.event) then env.pair(k, c.event) else None
    ensures LinkFull(boundary, c)
  {
    assert Later(boundary, env.pairTable(k));
    assert LinkedIn(env.pairTable(k), c.event, MaxId(boundary), env.pair(k, c.event));
    SameAnswer(boundary, env.pairTable(k), c.event, env.pair(k, c.event));
    hide Keyed, Within;
  }

  lemma LinkSound(boundary: Table, env: Env, k: nat, c: Consumed)
    requires Allowed(boundary, env) && c.linked == if WantsPair(c.event) then env.pair(k, c.event) else None
    ensures LinkOk(boundary, c)
  {
    hide Keyed;
    assert Later(boundary, env.pairTable(k));
    assert LinkedIn(env.pairTable(k), c.event, MaxId(boundary), env.pair(k, c.event));
  }

  /** Consuming one page, with a pair query for each event that has a partner to look for. */
  method ConsumePage(ghost boundary: Table, rows: seq<Event>, first: nat, env: Env) returns (out: seq<Consumed>)
    requires Allowed(boundary, env)
    ensures Events(out) == rows && forall c :: c in out ==> LinkOk(boundary, c)
    ensures PairsKept(boundary, env) ==> AllLinked(boundary, out)
  {
    hide Allowed, PairsKept, LinkOk, LinkFull;
    out := [];
    for j := 0 to |rows|
      invariant |out| == j && forall i :: 0 <= i < j ==> out[i].event == rows[i] && LinkOk(boundary, out[i])
      invariant PairsKept(boundary, env) ==> AllLinked(boundary, out)
    {
      var e := rows[j];
      var linked := if WantsPair(e) then env.pair(first + j, e) else None;
      LinkSound(boundary, env, first + j, Consumed(e, linked));
      if PairsKept(boundary, env) { LookedUp(boundary, env, first + j, Consumed(e, linked)); }
      out := out + [Consumed(e, linked)];
    }
  }

  /** The loop invariant of the export. */
  ghost predicate Progress(boundary: Table, env: Env, cs: seq<Consumed>, lastId: int) {
    && Increasing(Ids(cs))
    && (forall c :: c in cs ==> c.event.id in boundary && boundary[c.event.id] == c.event && LinkOk(boundary, c))
    && lastId == (if cs == [] then -1 else cs[|cs| - 1].event.id)
    && (NeverCleared(boundary, env) ==> forall id :: id in boundary && id <= lastId ==> id in Ids(cs))
  }

  lemma {:induction false} PageProgress(
      boundary: Table, env: Env, i: nat, cs: seq<Consumed>, lastId: int, page: seq<Consumed>)
    requires Allowed(boundary, env) && Progress(boundary, env, cs, lastId)
    requires Events(page) == ExportPage(env.page(i), lastId, MaxId(boundary)) && page != []
    requires forall c :: c in page ==> LinkOk(boundary, c)
    ensures Progress(boundary, env, cs + page, page[|page| - 1].event.id)
  {
    hide ExportPage, Keyed, LinkOk, Allowed, NeverCleared, Increasing, Ids, Events;
    PageOrder(boundary, env, i, cs, lastId, page);
    PageMembers(boundary, env, i, lastId, page);
    IdsJoin(cs, page);
    if NeverCleared(boundary, env) {
      forall id | id in boundary && id <= page[|page| - 1].event.id ensures id in Ids(cs + page) {
        if id > lastId { PageHasId(boundary, env, i, lastId, page, id); }
      }
    }
  }

  lemma {:induction false} PageOrder(
      boundary: Table, env: Env, i: nat, cs: seq<Consumed>, lastId: int, page: seq<Consumed>)
    requires Allowed(boundary, env) && Increasing(Ids(cs)) && (cs != [] ==> lastId == cs[|cs| - 1].event.id)
    requires Events(page) == ExportPage(env.page(i), lastId, MaxId(boundary))
    ensures Increasing(Ids(cs + page))
  {
    hide ExportPage, Allowed;
    PageParts(boundary, env, i, lastId);
    var rows := Events(page);
    var all := Ids(cs + page);
    forall m, n | 0 <= m < n < |all| ensures all[m] < all[n] {
      assert m < |cs| ==> all[m] == Ids(cs)[m];
      assert n < |cs| ==> all[n] == Ids(cs)[n];
      assert m >= |cs| ==> all[m] == rows[m - |cs|].id;
      assert n >= |cs| ==> all[n] == rows[n - |cs|].id;
      assert cs != [] ==> lastId == Ids(cs)[|cs| - 1];
    }
  }

  lemma {:induction false} PageMembers(boundary: Table, env: Env, i: nat, lastId: int, page: seq<Consumed>)
    requires Allowed(boundary, env) && Events(page) == ExportPage(env.page(i), lastId, MaxId(boundary))
    ensures forall c :: c in page ==> c.event.id in boundary && boundary[c.event.id] == c.event
  {
    hide ExportPage, Allowed;
    PageParts(boundary, env, i, lastId);
    forall c | c in page ensures c.event.id in boundary && boundary[c.event.id] == c.event {
      var k :| 0 <= k < |page| && page[k] == c;
      assert Events(page)[k] == c.event;
    }
  }

  lemma {:induction false} PageHasId(boundary: Table, env: Env, i: nat, lastId: int, page: seq<Consumed>, id: int)
    requires Allowed(boundary, env) && NeverCleared(boundary, env) && page != []
    requires Events(page) == ExportPage(env.page(i), lastId, MaxId(boundary))
    requires id in boundary && lastId < id <= page[|page| - 1].event.id
    ensures id in Ids(page)
  {
    hide ExportPage, Allowed;
    var rows := Events(page);
    assert rows[|rows| - 1] == page[|page| - 1].event;
    PageHas(boundary, env, i, lastId, id);
    var k :| 0 <= k < |rows| && rows[k].id == id;
    assert Ids(page)[k] == id;
  }

  lemma {:induction false} IdsJoin(a: seq<Consumed>, b: seq<Consumed>)
    ensures Ids(a + b) == Ids(a) + Ids(b)
  {
    assert forall i :: 0 <= i < |a + b| ==> Ids(a + b)[i] == (Ids(a) + Ids(b))[i];
  }

  lemma PageParts(boundary: Table, env: Env, i: nat, lo: int)
    requires Allowed(boundary, env)
    ensures var rows := ExportPage(env.page(i), lo, MaxId(boundary));
            && (forall i, j :: 0 <= i < j < |rows| ==> rows[i].id < rows[j].id)
            && (forall i :: 0 <= i < |rows| ==>
                  lo < rows[i].id && rows[i].id in boundary && boundary[rows[i].id] == rows[i])
  {
    hide ExportPage;
    assert Later(boundary, env.page(i));
    PageRows(env.page(i), lo, MaxId(boundary));
  }

  lemma PageHas(boundary: Table, env: Env, i: nat, lo: int, id: int)
    requires Allowed(boundary, env) && NeverCleared(boundary, env) && id in boundary && lo < id
    ensures var rows := ExportPage(env.page(i), lo, MaxId(boundary));
            rows != [] && (id <= rows[|rows| - 1].id ==> exists k :: 0 <= k < |rows| && rows[k].id == id)
  {
    hide ExportPage;
    var t := env.page(i);
    assert Later(boundary, t) && id in t;
    var rows := ExportPage(t, lo, MaxId(boundary));
    PageRows(t, lo, MaxId(boundary));
    assert id in InRange(t, lo, MaxId(boundary));
    if id <= rows[|rows| - 1].id { PageComplete(t, lo, MaxId(boundary), id); }
  }

  function ElementsOf(ids: seq<int>): set<int> { set x | x in ids }

  /** Rows consumed in order are distinct rows of the boundary. */
  lemma {:induction false} ConsumedSet(boundary: Table, cs: seq<Consumed>)
    requires Increasing(Ids(cs)) && forall c :: c in cs ==> c.event.id in boundary
    ensures ElementsOf(Ids(cs)) <= boundary.Keys && |ElementsOf(Ids(cs))| == |cs|
  {
    var ids := Ids(cs);
    IncreasingSize(ids);
    assert forall i :: 0 <= i < |cs| ==> cs[i] in cs && ids[i] == cs[i].event.id;
    hide Increasing;
    forall x | x in ids ensures x in boundary {
      var i :| 0 <= i < |ids| && ids[i] == x;
      assert cs[i].event.id in boundary;
    }
  }

  /** As many as the boundary has rows, they are all its rows. */
  lemma {:induction false} AllIds(boundary: Table, cs: seq<Consumed>)
    requires Increasing(Ids(cs)) && |cs| == |boundary| && forall c :: c in cs ==> c.event.id in boundary
    ensures Ids(cs) == Ascending(boundary.Keys)
  {
    hide Ascending, Increasing, Ids;
    var ids := Ids(cs);
    ConsumedSet(boundary, cs);
    SubsetSize(ElementsOf(ids), boundary.Keys);
    var a := Ascending(boundary.Keys);
    AscendingFacts(boundary.Keys);
    assert forall x :: x in ids <==> x in ElementsOf(ids);
    assert forall x :: x in a <==> x in ElementsOf(a);
    IncreasingUnique(ids, a);
  }

  function BoundaryRows(boundary: Table): seq<Event> {
    Elements(boundary.Keys);
    Rows(boundary, Ascending(boundary.Keys))
  }

  lemma {:induction false} AllRowsConsumed(boundary: Table, cs: seq<Consumed>)
    requires Increasing(Ids(cs)) && |cs| == |boundary|
    requires forall c :: c in cs ==> c.event.id in boundary && boundary[c.event.id] == c.event
    ensures Events(cs) == BoundaryRows(boundary)
  {
    hide Ascending, Increasing;
    AllIds(boundary, cs);
    var rows := BoundaryRows(boundary);
    forall i | 0 <= i < |cs| ensures Events(cs)[i] == rows[i] { assert cs[i] in cs && Ids(cs)[i] == cs[i].event.id; }
  }

  /** forEachExportEvent after its boundary arrived. On success it has consumed exactly the rows of the
      boundary, once each, by increasing id, with sound links; and it succeeds whenever no Clear intervened. Links
      are complete if none had come by the last pair query. */
  method ForEachExportEvent(ghost boundary: Table, snapshot: Snapshot, env: Env)
    returns (r: Option<nat>, consumed: seq<Consumed>)
    requires (forall id :: id in boundary ==> id >= 0) && snapshot == SnapshotOf(boundary) && Allowed(boundary, env)
    ensures r.Some? ==> r.value == |boundary| && Events(consumed) == BoundaryRows(boundary)
    ensures forall c :: c in consumed ==> LinkOk(boundary, c)
    ensures PairsKept(boundary, env) ==> AllLinked(boundary, consumed)
    ensures r.None? ==> !NeverCleared(boundary, env)
  {
    hide Ascending, ExportPage, LinkOk, Allowed, Keyed, NeverCleared, PairsKept, LinkFull;
    var lastId, count, page := -1, 0, 0;
    consumed := [];
    StartProgress(boundary, env);
    while lastId < snapshot.lastId && count < snapshot.count
      invariant Progress(boundary, env, consumed, lastId) && count == |consumed|
      invariant PairsKept(boundary, env) ==> AllLinked(boundary, consumed)
      decreases snapshot.lastId - lastId
    {
      var rows := ExportPage(env.page(page), lastId, snapshot.lastId);
      PageParts(boundary, env, page, lastId);
      if rows == [] { break; }
      var out := ConsumePage(boundary, rows, count, env);
      PageProgress(boundary, env, page, consumed, lastId, out);
      consumed := consumed + out;
      lastId := out[|out| - 1].event.id;
      count := count + |out|;
      page := page + 1;
    }
    Finished(boundary, env, consumed, lastId, page);
    if count != snapshot.count { return None, consumed; }
    AllRowsConsumed(boundary, consumed);
    return Some(count), consumed;
  }

  lemma StartProgress(boundary: Table, env: Env)
    requires forall id :: id in boundary ==> id >= 0
    ensures Progress(boundary, env, [], -1)
  {}

  /** Where the loop stops, it has at most the boundary's rows, and all of them if no Clear intervened. */
  lemma {:induction false} Finished(boundary: Table, env: Env, cs: seq<Consumed>, lastId: int, page: nat)
    requires Allowed(boundary, env) && Progress(boundary, env, cs, lastId)
    requires || lastId >= MaxId(boundary) || |cs| >= |boundary|
             || ExportPage(env.page(page), lastId, MaxId(boundary)) == []
    ensures |cs| <= |boundary| && (NeverCleared(boundary, env) ==> |cs| == |boundary|)
  {
    hide Ascending, ExportPage, LinkOk, Allowed, Keyed, NeverCleared;
    ConsumedSet(boundary, cs);
    var s := ElementsOf(Ids(cs));
    assert |boundary.Keys - s| == |boundary.Keys| - |s|;
    if NeverCleared(boundary, env) && (lastId >= MaxId(boundary) || |cs| < |boundary|) {
      forall id | id in boundary ensures id in s {
        if lastId < id { PageHas(boundary, env, page, lastId, id); }
      }
      assert boundary.Keys - s == {};
    }
  }

  // Keyset paging

  /** Matched replies are hidden from every list. */
  predicate Visible(e: Event) { !e.isReply || e.pairId == 0 }

  function Matching(t: Table, filter: Event -> bool, cursor: Option<int>): set<int> {
    set id | id in t && Visible(t[id]) && filter(t[id]) && (cursor.Some? ==> id < cursor.value)
  }

  datatype EventPage = EventPage(items: seq<Event>, nextCursor: Option<int>)

  function Query(t: Table, filter: Event -> bool, cursor: Option<int>, pageSize: nat): EventPage
    requires pageSize >= 1
  {
    DescendingElements(Matching(t, filter, cursor));
    var ids := Front(Descending(Matching(t, filter, cursor)), pageSize);
    EventPage(Rows(t, ids), if |ids| < pageSize then None else Some(ids[|ids| - 1]))
  }

  datatype Session = Session(out: seq<Event>, cursor: Option<int>, ended: bool)

  /** Asking for page after page, each against the table of its moment, until nextCursor is null. */
  function Follow(tables: seq<Table>, filter: Event -> bool, pageSize: nat): Session
    requires pageSize >= 1
  {
    if tables == [] then Session([], None, false) else
    var s := Follow(tables[..|tables| - 1], filter, pageSize);
    if s.ended then s else
    var page := Query(tables[|tables| - 1], filter, s.cursor, pageSize);
    Session(s.out + page.items, page.nextCursor, page.nextCursor.None?)
  }

  /** `t` still holds the rows of `first`; what it holds besides came later and has larger ids. */
  ghost predicate Grown(first: Table, t: Table) {
    && (forall id :: id in first ==> id in t && t[id] == first[id])
    && (forall id :: id in t && id !in first ==> id > MaxId(first))
  }

  /** All matching rows of a table, newest first. */
  function AllRows(t: Table, filter: Event -> bool): seq<Event> {
    DescendingElements(Matching(t, filter, None));
    Rows(t, Descending(Matching(t, filter, None)))
  }

  /** Those are the rows that pass the filter and are not replies with a pair id, each once, by falling id. */
  lemma AllRowsAre(t: Table, filter: Event -> bool)
    requires Keyed(t)
    ensures var rows := AllRows(t, filter);
            && (forall i, j :: 0 <= i < j < |rows| ==> rows[i].id > rows[j].id)
            && (forall e :: e in rows <==> e.id in t && t[e.id] == e && filter(e) && !(e.isReply && e.pairId != 0))
  {
    hide Descending;
    var ids, rows := Descending(Matching(t, filter, None)), AllRows(t, filter);
    DescendingElements(Matching(t, filter, None));
    assert forall i :: 0 <= i < |rows| ==> rows[i] == t[ids[i]] && rows[i].id == ids[i];
    forall e: Event | e.id in t && t[e.id] == e && filter(e) && !(e.isReply && e.pairId != 0) ensures e in rows {
      assert e.id in ids;
      var i :| 0 <= i < |ids| && ids[i] == e.id;
      assert rows[i] == e;
    }
  }

  /** Below a row already delivered, later tables offer what the first table still has to offer. */
  lemma BelowCursor(first: Table, t: Table, filter: Event -> bool, m: nat)
    requires Grown(first, t) && 1 <= m <= |Descending(Matching(first, filter, None))|
    ensures var all := Descending(Matching(first, filter, None));
            Descending(Matching(t, filter, Some(all[m - 1]))) == all[m..]
  {
    hide Descending;
    var all := Descending(Matching(first, filter, None));
    var c := all[m - 1];
    DescendingElements(Matching(first, filter, None));
    DescendingFacts(Matching(t, filter, Some(c)));
    assert c in first && c <= MaxId(first);
    forall id ensures id in all[m..] <==> id in Matching(t, filter, Some(c)) {
      if id in Matching(t, filter, Some(c)) {
        assert id in first && id in all;
        var i :| 0 <= i < |all| && all[i] == id;
        assert i >= m && all[m..][i - m] == id;
      }
      if id in all[m..] {
        var i :| 0 <= i < |all[m..]| && all[m..][i] == id;
        assert all[m + i] == id;
      }
    }
    DecreasingUnique(Descending(Matching(t, filter, Some(c))), all[m..]);
  }

  /** The session has asked for `m` rows in whole pages. */
  ghost predicate Reached(s: Session, first: Table, filter: Event -> bool, m: nat) {
    var ids, all := Descending(Matching(first, filter, None)), AllRows(first, filter);
    && s.out == all[..Min(m, |all|)]
    && (s.ended <==> |all| < m)
    && (!s.ended ==> s.cursor == (if m == 0 then None else Some(ids[m - 1])))
  }

  lemma PageReached(s: Session, first: Table, t: Table, filter: Event -> bool, pageSize: nat, m: nat)
    requires pageSize >= 1 && Reached(s, first, filter, m) && !s.ended && Grown(first, t) && (m == 0 ==> t == first)
    ensures var page := Query(t, filter, s.cursor, pageSize);
            Reached(Session(s.out + page.items, page.nextCursor, page.nextCursor.None?), first, filter, m + pageSize)
  {
    hide Descending, Matching, Grown, Query;
    if m == 0 {
      FirstPage(first, filter, pageSize);
    } else {
      NextPage(first, t, filter, pageSize, m);
    }
  }

  /** How many rows `k` pages ask for. */
  function InPages(k: nat, pageSize: nat): nat { k * pageSize }

  lemma OnePageMore(k: nat, pageSize: nat)
    ensures InPages(k + 1, pageSize) == InPages(k, pageSize) + pageSize
    ensures InPages(0, pageSize) == 0 && (k >= 1 && pageSize >= 1 ==> InPages(k, pageSize) >= 1)
  {}

  /** After k pages the session has delivered exactly the first k·pageSize matching rows of the first page's
      table, newest first, without gap or repeat, and it has ended exactly when k·pageSize exceeds their number. */
  lemma {:induction false} PagingExact(tables: seq<Table>, filter: Event -> bool, pageSize: nat)
    requires pageSize >= 1 && tables != [] && forall i :: 0 <= i < |tables| ==> Grown(tables[0], tables[i])
    ensures Reached(Follow(tables, filter, pageSize), tables[0], filter, InPages(|tables|, pageSize))
  {
    hide Grown, Query, Reached, InPages;
    var k := |tables|;
    var front := tables[..k - 1];
    var s := Follow(front, filter, pageSize);
    if k == 1 {
      StartReached(tables[0], filter);
      PageReached(s, tables[0], tables[0], filter, pageSize, 0);
      OnePageMore(0, pageSize);
    } else {
      PagingExact(front, filter, pageSize);
      var m := InPages(k - 1, pageSize);
      OnePageMore(k - 1, pageSize);
      if s.ended {
        EndedStays(s, tables[0], filter, m, m + pageSize);
      } else {
        NotEnded(s, tables[0], filter, m);
        PageReached(s, tables[0], tables[k - 1], filter, pageSize, m);
      }
    }
  }

  lemma StartReached(first: Table, filter: Event -> bool)
    ensures Reached(Session([], None, false), first, filter, 0)
  {}

  lemma NotEnded(s: Session, first: Table, filter: Event -> bool, m: nat)
    requires Reached(s, first, filter, m) && !s.ended
    ensures m <= |AllRows(first, filter)|
  {}

  lemma EndedStays(s: Session, first: Table, filter: Event -> bool, m: nat, n: nat)
    requires Reached(s, first, filter, m) && s.ended && m <= n
    ensures Reached(s, first, filter, n)
  {}

  lemma FirstPage(t: Table, filter: Event -> bool, pageSize: nat)
    requires pageSize >= 1
    ensures var all, p := AllRows(t, filter), Query(t, filter, None, pageSize);
            && p.items == all[..Min(pageSize, |all|)]
            && (p.nextCursor.None? <==> |all| < pageSize)
            && (p.nextCursor.Some? ==> p.nextCursor.value == Descending(Matching(t, filter, None))[pageSize - 1])
  {
    hide Descending;
    var all, p := AllRows(t, filter), Query(t, filter, None, pageSize);
    assert forall i :: 0 <= i < |p.items| ==> p.items[i] == all[i];
  }

  lemma NextPage(first: Table, t: Table, filter: Event -> bool, pageSize: nat, m: nat)
    requires pageSize >= 1 && Grown(first, t) && 1 <= m <= |Descending(Matching(first, filter, None))|
    ensures var ids, all := Descending(Matching(first, filter, None)), AllRows(first, filter);
            var p := Query(t, filter, Some(ids[m - 1]), pageSize);
            && all[..m] + p.items == all[..Min(m + pageSize, |all|)]
            && (p.nextCursor.None? <==> |all| < m + pageSize)
            && (p.nextCursor.Some? ==> p.nextCursor.value == ids[m + pageSize - 1])
  {
    hide Descending;
    BelowCursor(first, t, filter, m);
    var ids, all := Descending(Matching(first, filter, None)), AllRows(first, filter);
    var p := Query(t, filter, Some(ids[m - 1]), pageSize);
    assert forall i :: 0 <= i < |p.items| ==> p.items[i] == all[m + i] by {
      forall i | 0 <= i < |p.items| ensures p.items[i] == all[m + i] {
        assert ids[m..][i] == ids[m + i];
        assert ids[m + i] in first by { DescendingElements(Matching(first, filter, None)); }
        assert t[ids[m + i]] == first[ids[m + i]];
      }
    }
  }
}
