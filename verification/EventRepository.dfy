/** The in-memory window in front of the event table, and lookups through both. */
module RepositoryModel {
  import opened Types
  import opened StoreModel

  const WINDOW_SIZE: nat := 5000

  datatype Window = Window(deque: seq<Event>, index: map<int, Event>, capacity: nat)

  /** Drops events from the old end until `n` are left. */
  function EvictTo(w: Window, n: nat): (r: Window)
    ensures r.capacity == w.capacity && r.deque == Last(w.deque, n)
    decreases |w.deque|
  {
    if |w.deque| <= n then w
    else
      var rest := w.(deque := w.deque[1..], index := w.index - {w.deque[0].id});
      assert Last(w.deque[1..], n) == Last(w.deque, n);
      EvictTo(rest, n)
  }

  lemma EvictOne(w: Window, n: nat)
    requires |w.deque| > n
    ensures EvictTo(w, n) == EvictTo(w.(deque := w.deque[1..], index := w.index - {w.deque[0].id}), n)
  {}

  lemma EvictNone(w: Window, n: nat)
    requires |w.deque| <= n
    ensures EvictTo(w, n) == w
  {}

  function Last(s: seq<Event>, n: nat): seq<Event> { if |s| <= n then s else s[|s| - n..] }

  function WindowAdd(w: Window, e: Event): Window
    requires w.capacity > 0
  {
    var room := EvictTo(w, w.capacity - 1);
    room.(deque := room.deque + [e], index := room.index[e.id := e])
  }

  function WindowClear(w: Window): Window { Window([], map[], w.capacity) }

  ghost predicate DistinctIds(s: seq<Event>) { forall i, j :: 0 <= i < j < |s| ==> s[i].id != s[j].id }

  /** The index is the deque, by id. */
  ghost predicate IndexOk(w: Window) {
    && (forall id :: id in w.index ==> w.index[id] in w.deque && w.index[id].id == id)
    && (forall e :: e in w.deque ==> e.id in w.index)
  }

  function WithId(id: int): Event -> bool { (e: Event) => e.id == id }

  /** The first event of a list with a property: what a linear scan finds. */
  function Scan(s: seq<Event>, p: Event -> bool): (r: Option<Event>)
    ensures r.Some? ==> r.value in s && p(r.value)
    ensures r.None? ==> forall e :: e in s ==> !p(e)
  {
    if s == [] then None else if p(s[0]) then Some(s[0]) else Scan(s[1..], p)
  }

  function FindById(w: Window, id: int): Option<Event> { if id in w.index then Some(w.index[id]) else None }

  lemma {:induction false} EvictIndex(w: Window, n: nat)
    requires IndexOk(w) && DistinctIds(w.deque)
    ensures IndexOk(EvictTo(w, n))
    decreases |w.deque|
  {
    if |w.deque| > n {
      var rest := w.(deque := w.deque[1..], index := w.index - {w.deque[0].id});
      FirstOut(w);
      EvictIndex(rest, n);
    }
  }

  lemma FirstOut(w: Window)
    requires IndexOk(w) && DistinctIds(w.deque) && w.deque != []
    ensures IndexOk(w.(deque := w.deque[1..], index := w.index - {w.deque[0].id}))
  {
    assert forall e :: e in w.deque[1..] ==> e in w.deque && e.id != w.deque[0].id;
    assert forall e :: e in w.deque && e.id != w.deque[0].id ==> e in w.deque[1..];
  }

  lemma AddIndex(w: Window, e: Event)
    requires w.capacity > 0 && IndexOk(w) && DistinctIds(w.deque + [e])
    ensures IndexOk(WindowAdd(w, e))
  {
    hide EvictTo, IndexOk, DistinctIds;
    FrontDistinct(w.deque, e);
    EvictIndex(w, w.capacity - 1);
    var room := EvictTo(w, w.capacity - 1);
    NewIndex(room, e);
  }

  lemma FrontDistinct(s: seq<Event>, e: Event)
    requires DistinctIds(s + [e])
    ensures DistinctIds(s) && forall n: nat, x :: x in Last(s, n) ==> x.id != e.id
  {
    assert forall i :: 0 <= i < |s| ==> (s + [e])[i] == s[i];
    assert (s + [e])[|s|] == e;
  }

  lemma NewIndex(room: Window, e: Event)
    requires IndexOk(room) && forall x :: x in room.deque ==> x.id != e.id
    ensures IndexOk(room.(deque := room.deque + [e], index := room.index[e.id := e]))
  {}

  /** With distinct ids, the index finds what a scan of the window finds. */
  lemma IndexIsScan(w: Window, id: int)
    requires IndexOk(w) && DistinctIds(w.deque)
    ensures FindById(w, id) == Scan(w.deque, WithId(id))
  {
    hide Scan;
    var r := Scan(w.deque, WithId(id));
    if r.Some? { SameId(w.deque, r.value, w.index[id]); }
  }

  lemma SameId(s: seq<Event>, a: Event, b: Event)
    requires DistinctIds(s) && a in s && b in s && a.id == b.id
    ensures a == b
  {
    var i :| 0 <= i < |s| && s[i] == a;
    var j :| 0 <= j < |s| && s[j] == b;
    if i != j { assert s[i].id != s[j].id; }
  }

  // The repository: one lock around queueing and the window, the writer behind it

  datatype Repo = Repo(writer: Writer, window: Window, total: nat)

  /** `Background` is a step of the writer or the arrival of an export request. */
  datatype RepoStep = AddEvent(event: Event) | ClearEvents | AskExport(ticket: nat) | Background(step: WriterStep)

  function RepoStart(): Repo { Repo(Start(), Window([], map[], WINDOW_SIZE), 0) }

  function RepoNext(r: Repo, step: RepoStep): Repo
    requires r.window.capacity > 0
  {
    match step
    case AddEvent(e) =>
      Repo(WriterNext(r.writer, Send(Append(e))), WindowAdd(r.window, e), r.total + 1)
    case ClearEvents => Repo(WriterNext(r.writer, Send(Clear)), WindowClear(r.window), 0)
    case AskExport(ticket) => r.(writer := WriterNext(r.writer, Send(Export(ticket))))
    case Background(s) => if s.Send? then r else r.(writer := WriterNext(r.writer, s))
  }

  function RepoRun(steps: seq<RepoStep>): (r: Repo)
    ensures r.window.capacity == WINDOW_SIZE
  {
    if steps == [] then RepoStart() else RepoNext(RepoRun(steps[..|steps| - 1]), steps[|steps| - 1])
  }

  /** The events added since the last clear. */
  function Log(r: Repo): seq<Event> { SinceClear(r.writer.sent) }

  /** The window is the newest part of the log, the counter its length, and the index is in order
      as long as ids are distinct. */
  ghost predicate Mirrors(w: Window, total: nat, log: seq<Event>) {
    && w.capacity == 5000 && w.deque == Last(log, 5000) && total == |log|
    && (DistinctIds(log) ==> IndexOk(w))
  }

  ghost predicate RepoOk(r: Repo) { Refines(r.writer) && Mirrors(r.window, r.total, Log(r)) }

  lemma LogSnoc(sent: seq<Request>, r: Request)
    ensures r.Append? ==> SinceClear(sent + [r]) == SinceClear(sent) + [r.event]
    ensures r.Clear? ==> SinceClear(sent + [r]) == []
    ensures r.Export? ==> SinceClear(sent + [r]) == SinceClear(sent)
  {
    assert (sent + [r])[..|sent|] == sent;
  }

  lemma LastDistinct(s: seq<Event>, n: nat)
    requires DistinctIds(s)
    ensures DistinctIds(Last(s, n))
  {}

  /** Window and counter once a caller has made its request: an export leaves both alone. */
  function WindowAfter(w: Window, r: Request): (v: Window)
    requires w.capacity > 0
    ensures v.capacity == w.capacity
  {
    match r
    case Append(e) => WindowAdd(w, e)
    case Clear => WindowClear(w)
    case Export(_) => w
  }

  function TotalAfter(total: nat, r: Request): nat {
    match r
    case Append(_) => total + 1
    case Clear => 0
    case Export(_) => total
  }

  lemma MirrorsNext(w: Window, total: nat, sent: seq<Request>, r: Request)
    requires Mirrors(w, total, SinceClear(sent))
    ensures Mirrors(WindowAfter(w, r), TotalAfter(total, r), SinceClear(sent + [r]))
  {
    hide EvictTo, SinceClear, IndexOk, DistinctIds;
    LogSnoc(sent, r);
    match r
    case Append(e) => MirrorsAdd(w, SinceClear(sent), e);
    case Clear => EmptyIndex(w.capacity);
    case Export(_) =>
  }

  lemma EmptyIndex(capacity: nat)
    ensures IndexOk(Window([], map[], capacity))
  {}

  lemma MirrorsAdd(w: Window, log: seq<Event>, e: Event)
    requires Mirrors(w, |log|, log)
    ensures Mirrors(WindowAdd(w, e), |log| + 1, log + [e])
  {
    hide EvictTo, IndexOk, DistinctIds;
    assert WindowAdd(w, e).deque == Last(log + [e], WINDOW_SIZE);
    if DistinctIds(log + [e]) {
      FrontDistinct(log, e);
      EndDistinct(log, e, WINDOW_SIZE);
      AddIndex(w, e);
    }
  }

  lemma AddOk(r: Repo, e: Event)
    requires RepoOk(r)
    ensures RepoOk(RepoNext(r, AddEvent(e)))
  {
    hide Refines, Mirrors, WindowAdd, SinceClear;
    SendRefines(r.writer, Append(e));
    MirrorsNext(r.window, r.total, r.writer.sent, Append(e));
  }

  lemma EndDistinct(s: seq<Event>, e: Event, n: nat)
    requires DistinctIds(s + [e])
    ensures DistinctIds(Last(s, n) + [e])
  {
    assert Last(s, n) + [e] == (s + [e])[|s| - |Last(s, n)|..];
  }

  lemma OtherOk(r: Repo, step: RepoStep)
    requires RepoOk(r) && !step.AddEvent?
    ensures RepoOk(RepoNext(r, step))
  {
    hide Refines, Mirrors, SinceClear;
    match step {
      case ClearEvents =>
        SendRefines(r.writer, Clear);
        MirrorsNext(r.window, r.total, r.writer.sent, Clear);
      case AskExport(t) =>
        SendRefines(r.writer, Export(t));
        MirrorsNext(r.window, r.total, r.writer.sent, Export(t));
      case Background(s) => StepRefines(r.writer, s); SentKept(r.writer, s);
    }
  }

  lemma SentKept(w: Writer, s: WriterStep)
    ensures !s.Send? ==> WriterNext(w, s).sent == w.sent
  {}

  /** In every run, however the writer interleaves. */
  lemma {:induction false} RepoRunOk(steps: seq<RepoStep>)
    ensures RepoOk(RepoRun(steps))
  {
    hide RepoOk, RepoNext;
    if steps == [] {
      RepoStartOk();
    } else {
      var r, step := RepoRun(steps[..|steps| - 1]), steps[|steps| - 1];
      RepoRunOk(steps[..|steps| - 1]);
      if step.AddEvent? { AddOk(r, step.event); } else { OtherOk(r, step); }
    }
  }

  lemma RepoStartOk()
    ensures RepoOk(RepoStart())
  {
    StartRefines();
  }

  // Lookups

  /** getEvent: the window first, then the table. */
  function GetEvent(r: Repo, id: int): Option<Event> {
    if id in r.window.index then Some(r.window.index[id])
    else if id in r.writer.table then Some(r.writer.table[id])
    else None
  }

  /** A pair query on the table: some row with the pair id and kind, or none. */
  ghost predicate PairRow(t: Table, pairId: int, wantReply: bool, row: Option<Event>) {
    match row
    case Some(e) => e.id in t && t[e.id] == e && e.pairId == pairId && e.isReply == wantReply
    case None => forall id :: id in t ==> !(t[id].pairId == pairId && t[id].isReply == wantReply)
  }

  /** The row the query returns: the first by id. */
  ghost predicate FirstRow(t: Table, pairId: int, wantReply: bool, row: Option<Event>) {
    && PairRow(t, pairId, wantReply, row)
    && (row.Some? ==>
          forall id :: id in t && t[id].pairId == pairId && t[id].isReply == wantReply ==> row.value.id <= id)
  }

  function Partner(pairId: int, wantReply: bool): Event -> bool {
    (e: Event) => e.isReply == wantReply && e.pairId == pairId
  }

  /** findReplyForRequest and findRequestForReply, given the row the table query would return. */
  function FindPartner(r: Repo, e: Event, row: Option<Event>): Option<Event> {
    if e.pairId == 0 then None else
    match Scan(r.window.deque, Partner(e.pairId, !e.isReply))
    case Some(p) => Some(p)
    case None => row
  }

  lemma {:induction false} TableRows(log: seq<Event>, id: int)
    requires DistinctIds(log)
    ensures id in TableOf(log) <==> exists e :: e in log && e.id == id
    ensures id in TableOf(log) ==> TableOf(log)[id] in log && TableOf(log)[id].id == id
    decreases |log|
  {
    if log != [] {
      var front, e := log[..|log| - 1], log[|log| - 1];
      TableRows(front, id);
      assert log == front + [e];
      if e.id == id { assert e in log; }
    }
  }

  lemma {:induction false} LogSent(sent: seq<Request>, e: Event)
    requires e in SinceClear(sent)
    ensures Append(e) in sent
  {
    var front, last := sent[..|sent| - 1], sent[|sent| - 1];
    assert sent == front + [last];
    if last != Append(e) { LogSent(front, e); }
  }

  /** Every row of the table and every event of the window was sent by a caller. */
  lemma FoundSent(r: Repo, id: int)
    requires RepoOk(r) && DistinctIds(Log(r))
    ensures GetEvent(r, id).Some? ==>
              GetEvent(r, id).value.id == id && Append(GetEvent(r, id).value) in r.writer.sent
  {
    hide Fifo, FifoAnswers, SinceClear, DistinctIds, Requests, Waiting;
    if id in r.window.index {
      LogSent(r.writer.sent, r.window.index[id]);
    } else if id in r.writer.table {
      FifoIds(r.writer.marks, id);
      RequestsAt(r.writer.marks);
      var i :| 0 <= i < |r.writer.marks| && r.writer.marks[i].request == Append(r.writer.table[id]);
      assert r.writer.sent[i] == Append(r.writer.table[id]);
    }
  }

  lemma WindowFound(w: Window, id: int)
    requires IndexOk(w) && DistinctIds(w.deque)
    ensures forall e :: e in w.deque && e.id == id ==> id in w.index && w.index[id] == e
  {
    forall e | e in w.deque && e.id == id ensures id in w.index && w.index[id] == e {
      SameId(w.deque, e, w.index[id]);
    }
  }

  ghost predicate Settled(r: Repo) { Drained(r.writer) && !r.writer.failed }

  lemma SettledGet(r: Repo, id: int)
    requires RepoOk(r) && Settled(r) && DistinctIds(Log(r))
    ensures GetEvent(r, id) == Scan(Log(r), WithId(id))
  {
    hide Refines, TableOf, SinceClear, Scan, DistinctIds;
    DrainedTable(r.writer);
    var found := Scan(Log(r), WithId(id));
    TableRows(Log(r), id);
    if id in r.window.index {
      assert r.window.index[id] in Log(r);
      SameId(Log(r), found.value, r.window.index[id]);
    } else if id in r.writer.table {
      SameId(Log(r), found.value, r.writer.table[id]);
    }
  }

  /** With the queue drained and no failure, looking up an id through window and table is scanning
      everything added since the last clear. */
  lemma TieredGet(steps: seq<RepoStep>, id: int)
    requires var r := RepoRun(steps); Settled(r) && DistinctIds(Log(r))
    ensures GetEvent(RepoRun(steps), id) == Scan(Log(RepoRun(steps)), WithId(id))
  {
    hide RepoRun, RepoOk, Settled, DistinctIds, GetEvent, Scan, SinceClear;
    RepoRunOk(steps);
    SettledGet(RepoRun(steps), id);
  }

  /** At most one request and one reply carry a nonzero pair id. */
  ghost predicate UniquePairs(log: seq<Event>) {
    forall a, b :: a in log && b in log && a.pairId == b.pairId != 0 && a.isReply == b.isReply ==> a == b
  }

  /** The same for the partner of a request or reply. */
  lemma TieredPartner(steps: seq<RepoStep>, e: Event, row: Option<Event>)
    requires var r := RepoRun(steps); Settled(r) && DistinctIds(Log(r)) && UniquePairs(Log(r))
    requires PairRow(RepoRun(steps).writer.table, e.pairId, !e.isReply, row)
    ensures FindPartner(RepoRun(steps), e, row) ==
            if e.pairId == 0 then None else Scan(Log(RepoRun(steps)), Partner(e.pairId, !e.isReply))
    ensures match FindPartner(RepoRun(steps), e, row)
            case Some(p) => p in Log(RepoRun(steps)) && p.pairId == e.pairId != 0 && p.isReply != e.isReply
            case None => e.pairId == 0 || forall p :: p in Log(RepoRun(steps)) ==>
                           p.pairId != e.pairId || p.isReply == e.isReply
  {
    hide RepoRun, Refines, TableOf, SinceClear, Scan, DistinctIds, IndexOk;
    var r := RepoRun(steps);
    RepoRunOk(steps);
    DrainedTable(r.writer);
    var log, p := Log(r), Partner(e.pairId, !e.isReply);
    var hot, found := Scan(r.window.deque, p), Scan(log, p);
    if found.Some? {
      TableRows(log, found.value.id);
      SameId(log, found.value, r.writer.table[found.value.id]);
    }
    if row.Some? { TableRows(log, row.value.id); }
    assert hot.Some? ==> hot.value in log;
  }

  ghost predicate IncreasingIds(log: seq<Event>) { forall i, j :: 0 <= i < j < |log| ==> log[i].id < log[j].id }

  /** The part of the log that has left the window. */
  function Older(log: seq<Event>): seq<Event> { log[..|log| - |Last(log, WINDOW_SIZE)|] }

  lemma {:induction false} ScanJoin(a: seq<Event>, b: seq<Event>, p: Event -> bool)
    ensures Scan(a + b, p) == if Scan(a, p).Some? then Scan(a, p) else Scan(b, p)
    decreases |a|
  {
    if a == [] {
      assert a + b == b;
    } else {
      assert (a + b)[1..] == a[1..] + b;
      ScanJoin(a[1..], b, p);
    }
  }

  /** In a log by increasing id, what a scan finds has the least id. */
  lemma {:induction false} ScanFirst(log: seq<Event>, p: Event -> bool)
    requires IncreasingIds(log)
    ensures var r := Scan(log, p); r.Some? ==> forall e :: e in log && p(e) ==> r.value.id <= e.id
  {
    if log != [] && !p(log[0]) {
      assert forall i :: 0 <= i < |log[1..]| ==> log[1..][i] == log[i + 1];
      ScanFirst(log[1..], p);
      assert forall e :: e in log && p(e) ==> e in log[1..];
    }
  }

  lemma ColdPartner(r: Repo, e: Event, row: Option<Event>)
    requires RepoOk(r) && Settled(r) && IncreasingIds(Log(r)) && FirstRow(r.writer.table, e.pairId, !e.isReply, row)
    ensures row == Scan(Log(r), Partner(e.pairId, !e.isReply))
  {
    hide Refines, Mirrors, TableOf, SinceClear, Scan;
    DrainedTable(r.writer);
    var log, p := Log(r), Partner(e.pairId, !e.isReply);
    var found := Scan(log, p);
    ScanFirst(log, p);
    if found.Some? {
      TableRows(log, found.value.id);
      SameId(log, found.value, r.writer.table[found.value.id]);
    }
    if row.Some? {
      TableRows(log, row.value.id);
      SameId(log, found.value, row.value);
    }
  }

  lemma PartsApart(log: seq<Event>, a: Event, b: Event)
    requires IncreasingIds(log) && a in Older(log) && b in Last(log, WINDOW_SIZE)
    ensures a != b
  {}

  /** Without that assumption: with ids in increasing order the answer is the log's first partner if and only if
      the window holds no partner or holds the first one. A window that holds only a later one answers with that. */
  lemma TieredPartnerIff(steps: seq<RepoStep>, e: Event, row: Option<Event>)
    requires e.pairId != 0
    requires var r := RepoRun(steps);
             Settled(r) && IncreasingIds(Log(r)) && FirstRow(r.writer.table, e.pairId, !e.isReply, row)
    ensures var r, p := RepoRun(steps), Partner(e.pairId, !e.isReply);
            FindPartner(r, e, row) == Scan(Log(r), p) <==>
            Scan(r.window.deque, p).None? || Scan(Older(Log(r)), p).None?
  {
    hide RepoRun, Refines, TableOf, SinceClear, Scan, DistinctIds, IndexOk, IncreasingIds, FirstRow, Settled;
    var r := RepoRun(steps);
    RepoRunOk(steps);
    var log, p := Log(r), Partner(e.pairId, !e.isReply);
    ColdPartner(r, e, row);
    assert log == Older(log) + Last(log, WINDOW_SIZE);
    ScanJoin(Older(log), Last(log, WINDOW_SIZE), p);
    var older, hot := Scan(Older(log), p), Scan(r.window.deque, p);
    if older.Some? && hot.Some? { PartsApart(log, older.value, hot.value); }
  }

  // Any log is reached

  /** An event added and written at once. */
  function AddAndWrite(e: Event): seq<RepoStep> {
    [AddEvent(e), Background(Receive(true)), Background(Stop), Background(Flush(true))]
  }

  function StepsFor(log: seq<Event>): seq<RepoStep> {
    if log == [] then [] else StepsFor(log[..|log| - 1]) + AddAndWrite(log[|log| - 1])
  }

  lemma RepoSnoc(steps: seq<RepoStep>, step: RepoStep)
    ensures RepoRun(steps + [step]) == RepoNext(RepoRun(steps), step)
  {
    hide RepoNext;
    assert (steps + [step])[..|steps|] == steps;
  }

  lemma WritesOne(w: Writer, e: Event)
    requires Drained(w) && !w.failed
    ensures var b := WriterNext(WriterNext(w, Send(Append(e))), Receive(true));
            var v := WriterNext(WriterNext(b, Stop), Flush(true));
            Drained(v) && !v.failed && v.sent == w.sent + [Append(e)]
  {
    hide Insert, Marked;
    var a := WriterNext(w, Send(Append(e)));
    assert a.queue == [Append(e)];
    var b := WriterNext(a, Receive(true));
    assert b.queue == [] && b.phase == Gathering;
  }

  lemma WrittenRun(s: seq<RepoStep>, e: Event)
    ensures RepoRun(s + AddAndWrite(e)).writer ==
            var b := WriterNext(WriterNext(RepoRun(s).writer, Send(Append(e))), Receive(true));
            WriterNext(WriterNext(b, Stop), Flush(true))
  {
    hide WriterNext, WindowAdd, RepoRun;
    var a := AddAndWrite(e);
    assert s + a == s + [a[0]] + [a[1]] + [a[2]] + [a[3]];
    RepoSnoc(s, a[0]);
    RepoSnoc(s + [a[0]], a[1]);
    RepoSnoc(s + [a[0]] + [a[1]], a[2]);
    RepoSnoc(s + [a[0]] + [a[1]] + [a[2]], a[3]);
  }

  lemma {:induction false} StepsSettle(log: seq<Event>)
    ensures Settled(RepoRun(StepsFor(log))) && Log(RepoRun(StepsFor(log))) == log
  {
    hide WriterNext, RepoRun, AddAndWrite, SinceClear;
    if log == [] {
      StartSettled();
    } else {
      var front, e := log[..|log| - 1], log[|log| - 1];
      StepsSettle(front);
      WrittenRun(StepsFor(front), e);
      WritesOne(RepoRun(StepsFor(front)).writer, e);
      LogSnoc(RepoRun(StepsFor(front)).writer.sent, Append(e));
    }
  }

  lemma StartSettled()
    ensures Settled(RepoRun([])) && Log(RepoRun([])) == []
  {}

  function Reply(id: nat): Event { Event(id, 7, true, false, []) }

  function Others(): seq<Event> { seq(WINDOW_SIZE - 1, i requires i >= 0 => Event(i + 1, 0, false, false, [])) }

  /** A reply, as many other events as leave it just outside the window, and the reply once more. */
  function RepeatedReply(): seq<Event> { [Reply(0)] + Others() + [Reply(WINDOW_SIZE)] }

  lemma RepeatedParts()
    ensures IncreasingIds(RepeatedReply())
    ensures Older(RepeatedReply()) == [Reply(0)]
    ensures Last(RepeatedReply(), WINDOW_SIZE) == Others() + [Reply(WINDOW_SIZE)]
  {}

  lemma RepeatedScans()
    ensures Scan([Reply(0)], Partner(7, true)) == Some(Reply(0))
    ensures Scan(Others() + [Reply(WINDOW_SIZE)], Partner(7, true)) == Some(Reply(WINDOW_SIZE))
  {
    var later := Others() + [Reply(WINDOW_SIZE)];
    assert Partner(7, true)(later[WINDOW_SIZE - 1]);
  }

  /** The second of two equal replies is found once the first has left the window, although the log still has both
      and the table query would return the first. */
  lemma LaterReplyFound(row: Option<Event>)
    requires FirstRow(RepoRun(StepsFor(RepeatedReply())).writer.table, 7, true, row)
    ensures var r, request := RepoRun(StepsFor(RepeatedReply())), Event(WINDOW_SIZE + 1, 7, false, false, []);
            && Settled(r) && IncreasingIds(Log(r)) && Log(r) == RepeatedReply()
            && Scan(Log(r), Partner(7, true)) == Some(Reply(0))
            && FindPartner(r, request, row) == Some(Reply(WINDOW_SIZE))
  {
    hide RepoRun, StepsFor, Scan, Older, Others, Refines, IndexOk, DistinctIds, IncreasingIds, Settled, SinceClear;
    var log := RepeatedReply();
    StepsSettle(log);
    RepoRunOk(StepsFor(log));
    RepeatedParts();
    RepeatedScans();
    assert log == [Reply(0)] + (Others() + [Reply(WINDOW_SIZE)]);
    ScanJoin([Reply(0)], Others() + [Reply(WINDOW_SIZE)], Partner(7, true));
  }
}

/** BoundedEventBuffer as it runs. */
module Buffer {
  import opened Types
  import opened StoreModel
  import opened RepositoryModel

  class BoundedEventBuffer {
    var deque: seq<Event>
    var index: map<int, Event>
    var capacity: nat

    ghost function View(): Window
      reads this
    {
      Window(deque, index, capacity)
    }

    ghost predicate Valid()
      reads this
    {
      0 < capacity && |deque| <= capacity
    }

    constructor (capacity: nat)
      requires capacity > 0
      ensures Valid() && View() == Window([], map[], capacity)
    {
      deque, index, this.capacity := [], map[], capacity;
    }

    /** The eviction loop shared by add, setCapacity and trimToSize. */
    method Evict(n: nat) returns (evicted: seq<Event>)
      modifies this`deque, this`index
      ensures View() == EvictTo(old(View()), n)
      ensures evicted + deque == old(deque)
    {
      hide EvictTo;
      evicted := [];
      while |deque| > n
        invariant EvictTo(View(), n) == EvictTo(old(View()), n)
        invariant evicted + deque == old(deque)
        decreases |deque|
      {
        EvictOne(View(), n);
        var removed := deque[0];
        deque, index := deque[1..], index - {removed.id};
        evicted := evicted + [removed];
      }
      EvictNone(View(), n);
    }

    method Add(event: Event)
      requires Valid()
      modifies this`deque, this`index
      ensures Valid() && View() == WindowAdd(old(View()), event)
      ensures deque == Last(old(deque) + [event], capacity)
    {
      var evicted := Evict(capacity - 1);
      deque, index := deque + [event], index[event.id := event];
    }

    method SetCapacity(newCapacity: nat)
      requires Valid() && newCapacity > 0
      modifies this
      ensures Valid() && View() == EvictTo(old(View()).(capacity := newCapacity), newCapacity)
      ensures deque == Last(old(deque), newCapacity)
    {
      capacity := newCapacity;
      var evicted := Evict(newCapacity);
    }

    /** Returns what it dropped, oldest first; a target of zero or less drops everything. */
    method TrimToSize(target: int) returns (evicted: seq<Event>)
      requires Valid()
      modifies this`deque, this`index
      ensures Valid() && evicted + deque == old(deque)
      ensures View() == EvictTo(old(View()), if target < 0 then 0 else target)
    {
      evicted := Evict(if target < 0 then 0 else target);
    }

    method ClearAll()
      modifies this`deque, this`index
      ensures View() == WindowClear(old(View()))
    {
      deque, index := [], map[];
    }

    method FindById(id: int) returns (r: Option<Event>)
      requires IndexOk(View()) && DistinctIds(deque)
      ensures r == Scan(deque, WithId(id))
    {
      IndexIsScan(View(), id);
      if id in index { return Some(index[id]); }
      return None;
    }

    method FindFirst(p: Event -> bool) returns (r: Option<Event>)
      ensures r == Scan(deque, p)
    {
      for i := 0 to |deque|
        invariant Scan(deque, p) == Scan(deque[i..], p)
      {
        assert deque[i..][1..] == deque[i + 1..];
        if p(deque[i]) { return Some(deque[i]); }
      }
      return None;
    }
  }
}

/** EventRepository: what it does under its lock, and lookups that fall through to the table. */
module Repository {
  import opened Types
  import opened StoreModel
  import opened RepositoryModel
  import opened Buffer
  import opened ColdStore

  class EventRepository {
    const buffer: BoundedEventBuffer
    const coldStore: ColdEventStore
    var totalCount: nat

    ghost function View(): Repo
      reads this, buffer, coldStore
    {
      Repo(coldStore.View(), buffer.View(), totalCount)
    }

    ghost predicate Valid()
      reads this, buffer, coldStore
    {
      buffer.Valid() && RepoOk(View())
    }

    constructor ()
      ensures Valid() && View() == RepoStart() && fresh(buffer) && fresh(coldStore)
    {
      buffer := new BoundedEventBuffer(WINDOW_SIZE);
      coldStore := new ColdEventStore();
      totalCount := 0;
      new;
      RepoStartOk();
    }

    method AddEvent(event: Event)
      requires Valid()
      modifies this, buffer, coldStore
      ensures Valid() && View() == RepoNext(old(View()), RepoStep.AddEvent(event))
    {
      hide RepoOk;
      AddOk(View(), event);
      coldStore.Enqueue(Append(event));
      buffer.Add(event);
      totalCount := totalCount + 1;
    }

    method ClearEvents()
      requires Valid()
      modifies this, buffer, coldStore
      ensures Valid() && View() == RepoNext(old(View()), RepoStep.ClearEvents)
    {
      hide RepoOk;
      OtherOk(View(), RepoStep.ClearEvents);
      coldStore.Enqueue(Clear);
      buffer.ClearAll();
      totalCount := 0;
    }

    /** One turn of the writer while other threads go on adding, clearing and exporting. A caller's request and
        its change of the window are one step under the lock, so after the turn both have happened for all that
        arrived. The turn processes at least one request, the oldest. */
    method WriterTurn(arrivals: nat -> seq<Request>, ok: bool) returns (turns: nat)
      requires Valid() && (coldStore.pending.Some? || coldStore.queue != [])
      modifies this, buffer, coldStore
      ensures Valid() && coldStore.sent == old(coldStore.sent) + Arrived(arrivals, turns)
      ensures old(coldStore.marks) < coldStore.marks
      ensures ok && !old(coldStore.writeFailure) ==> !coldStore.writeFailure
    {
      hide WriterRun, Refines, Sent, Arrived, SinceClear, Mirrors, OneTurn, WindowAdd;
      ghost var w := coldStore.View();
      ghost var steps;
      steps, turns := coldStore.WriterTurn(arrivals, ok);
      var arrived := Arrived(arrivals, turns);
      RunOn(w, steps);
      if ok && !w.failed { TurnSucceeds(steps); StaysGood(w, steps); }
      assert w.sent + arrived[..0] == w.sent;
      for i := 0 to |arrived|
        invariant buffer.Valid() && coldStore.View() == WriterRun(w, steps)
        invariant Mirrors(buffer.View(), totalCount, SinceClear(w.sent + arrived[..i]))
      {
        MirrorsNext(buffer.View(), totalCount, w.sent + arrived[..i], arrived[i]);
        assert w.sent + arrived[..i + 1] == w.sent + arrived[..i] + [arrived[i]];
        match arrived[i]
        case Append(event) =>
          buffer.Add(event);
          totalCount := totalCount + 1;
        case Clear =>
          buffer.ClearAll();
          totalCount := 0;
        case Export(_) =>
      }
      assert arrived[..|arrived|] == arrived;
    }

    /** Left alone, the writer empties its queue; if no database call fails, lookups are then exact. */
    method CatchUp(outcomes: nat -> bool)
      requires Valid()
      modifies this, buffer, coldStore
      ensures Valid() && coldStore.sent == old(coldStore.sent) && Drained(coldStore.View())
      ensures (forall k :: outcomes(k)) && !old(coldStore.writeFailure) ==> Settled(View())
    {
      hide Refines, Mirrors;
      var quiet: nat -> seq<Request>, k := _ => [], 0;
      LeftToDo(coldStore.View());
      while coldStore.pending.Some? || coldStore.queue != []
        invariant Valid() && coldStore.sent == old(coldStore.sent)
        invariant (forall k :: outcomes(k)) && !old(coldStore.writeFailure) ==> !coldStore.writeFailure
        decreases |coldStore.sent| - |coldStore.marks|
      {
        var turns := WriterTurn(quiet, outcomes(k));
        NoneArrived(quiet, turns);
        LeftToDo(coldStore.View());
        k := k + 1;
      }
    }

    /** Whatever the writer has yet to do, an event of the window is found, and what is found was added under the
        id asked for. Complete and exact once the writer has caught up without a failure. */
    method GetEvent(id: int) returns (r: Option<Event>)
      requires Valid() && DistinctIds(Log(View()))
      ensures r.Some? ==> r.value.id == id && Append(r.value) in coldStore.sent
      ensures forall e :: e in Last(Log(View()), WINDOW_SIZE) && e.id == id ==> r == Some(e)
      ensures Settled(View()) ==> r == Scan(Log(View()), WithId(id))
    {
      hide Scan, DistinctIds, Refines, SinceClear, TableOf;
      LastDistinct(Log(View()), WINDOW_SIZE);
      r := buffer.FindById(id);
      if r.None? && id in coldStore.table { r := Some(coldStore.table[id]); }
      IndexIsScan(buffer.View(), id);
      WindowFound(buffer.View(), id);
      FoundSent(View(), id);
      if Settled(View()) { SettledGet(View(), id); }
    }
  }
}
