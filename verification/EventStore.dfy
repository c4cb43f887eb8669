/** The viewer's event table, its single writer, and the FIFO it implements. */
module StoreModel {
  import opened Types
  import opened Ordered

  const BATCH: nat := 500

  /** A stored row; `body` stands for the columns the store only carries. */
  datatype Event = Event(id: nat, pairId: int, isReply: bool, oneway: bool, body: Bytes)

  type Table = map<int, Event>

  datatype Request = Append(event: Event) | Clear | Export(ticket: nat)

  datatype Snapshot = Snapshot(lastId: int, count: nat)

  datatype Answer = Answer(ticket: nat, result: Option<Snapshot>)

  /** A processed request and whether the database call made for it succeeded. */
  datatype Mark = Mark(request: Request, ok: bool)

  ghost predicate Keyed(t: Table) { forall k :: k in t ==> t[k].id == k }

  function MaxId(t: Table): (m: int)
    ensures t == map[] ==> m == -1
    ensures t != map[] ==> m in t && forall k :: k in t ==> k <= m
  {
    if t == map[] then -1 else
    assert |t.Keys| == |t| > 0;
    LastIsMax(t.Keys);
    Ascending(t.Keys)[|t.Keys| - 1]
  }

  function SnapshotOf(t: Table): Snapshot { Snapshot(MaxId(t), |t|) }

  // The specification: one request at a time, in the order sent

  datatype Store = Store(table: Table, failed: bool)

  function ApplyMark(st: Store, m: Mark): Store {
    match m.request
    case Append(e) => if m.ok then st.(table := st.table[e.id := e]) else st.(failed := true)
    case Clear => if m.ok then Store(map[], false) else st.(failed := true)
    case Export(_) => st
  }

  function Fifo(marks: seq<Mark>): Store {
    if marks == [] then Store(map[], false)
    else ApplyMark(Fifo(marks[..|marks| - 1]), marks[|marks| - 1])
  }

  /** What an Export request is answered: nothing after a recorded failure or a failed query. */
  function AnswerOf(st: Store, ticket: nat, ok: bool): Answer {
    Answer(ticket, if st.failed || !ok then None else Some(SnapshotOf(st.table)))
  }

  function FifoAnswers(marks: seq<Mark>): seq<Answer> {
    if marks == [] then [] else
    var before, m := marks[..|marks| - 1], marks[|marks| - 1];
    FifoAnswers(before) + (if m.request.Export? then [AnswerOf(Fifo(before), m.request.ticket, m.ok)] else [])
  }

  function Requests(marks: seq<Mark>): seq<Request> {
    if marks == [] then [] else Requests(marks[..|marks| - 1]) + [marks[|marks| - 1].request]
  }

  function Appends(events: seq<Event>): seq<Request> {
    if events == [] then [] else Appends(events[..|events| - 1]) + [Append(events[|events| - 1])]
  }

  /** The events appended since the last Clear. */
  function SinceClear(requests: seq<Request>): seq<Event> {
    if requests == [] then [] else
    var before := SinceClear(requests[..|requests| - 1]);
    match requests[|requests| - 1]
    case Append(e) => before + [e]
    case Clear => []
    case Export(_) => before
  }

  function TableOf(events: seq<Event>): Table {
    if events == [] then map[] else
    var e := events[|events| - 1];
    TableOf(events[..|events| - 1])[e.id := e]
  }

  // The writer: one receive, tryReceive or database call per step

  datatype Phase = Idle | Gathering | Flushing

  datatype Writer = Writer(
    queue: seq<Request>, pending: Option<Request>, batch: seq<Event>, phase: Phase, table: Table, failed: bool,
    sent: seq<Request>, marks: seq<Mark>, answers: seq<Answer>)

  datatype WriterStep = Send(request: Request) | Receive(ok: bool) | Gather | Stop | Flush(ok: bool)

  function Start(): Writer { Writer([], None, [], Idle, map[], false, [], [], []) }

  function Insert(t: Table, events: seq<Event>): Table {
    if events == [] then t else
    var e := events[|events| - 1];
    Insert(t, events[..|events| - 1])[e.id := e]
  }

  function Marked(events: seq<Event>, ok: bool): seq<Mark> {
    if events == [] then [] else Marked(events[..|events| - 1], ok) + [Mark(Append(events[|events| - 1]), ok)]
  }

  function Handle(w: Writer, request: Request, ok: bool): Writer {
    match request
    case Append(e) => w.(batch := [e], phase := Gathering)
    case Clear =>
      w.(table := if ok then map[] else w.table, failed := !ok, marks := w.marks + [Mark(Clear, ok)])
    case Export(ticket) =>
      w.(answers := w.answers + [AnswerOf(Store(w.table, w.failed), ticket, ok)],
         marks := w.marks + [Mark(request, ok)])
  }

  /** A step that is not enabled changes nothing. */
  function WriterNext(w: Writer, step: WriterStep): Writer {
    match step
    case Send(r) => w.(queue := w.queue + [r], sent := w.sent + [r])
    case Receive(ok) =>
      if w.phase != Idle then w
      else if w.pending.Some? then Handle(w.(pending := None), w.pending.value, ok)
      else if w.queue != [] then Handle(w.(queue := w.queue[1..]), w.queue[0], ok)
      else w
    case Gather =>
      if w.phase != Gathering || |w.batch| >= BATCH || w.queue == [] then w
      else if w.queue[0].Append? then w.(queue := w.queue[1..], batch := w.batch + [w.queue[0].event])
      else w.(queue := w.queue[1..], pending := Some(w.queue[0]), phase := Flushing)
    case Stop => if w.phase == Gathering && (|w.batch| >= BATCH || w.queue == []) then w.(phase := Flushing) else w
    case Flush(ok) =>
      if w.phase != Flushing then w
      else w.(table := if ok then Insert(w.table, w.batch) else w.table, failed := w.failed || !ok,
              marks := w.marks + Marked(w.batch, ok), batch := [], phase := Idle)
  }

  function WriterRun(w: Writer, steps: seq<WriterStep>): Writer {
    if steps == [] then w else WriterNext(WriterRun(w, steps[..|steps| - 1]), steps[|steps| - 1])
  }

  function Waiting(w: Writer): seq<Request> {
    Appends(w.batch) + (match w.pending case None => [] case Some(r) => [r]) + w.queue
  }

  /** Table, failure flag and answers are those of the FIFO over the processed requests. */
  ghost predicate Applied(w: Writer) {
    Store(w.table, w.failed) == Fifo(w.marks) && w.answers == FifoAnswers(w.marks)
  }

  /** Processed, held and queued requests together are the requests sent, in order. */
  ghost predicate InOrder(w: Writer) { w.sent == Requests(w.marks) + Waiting(w) }

  ghost predicate Shape(w: Writer) {
    && (w.phase == Idle <==> w.batch == []) && |w.batch| <= BATCH
    && (w.pending.Some? ==> !w.pending.value.Append? && w.phase != Gathering)
  }

  /** The refinement relation between the writer and the FIFO. */
  ghost predicate Refines(w: Writer) { Applied(w) && InOrder(w) && Shape(w) }

  lemma RequestsSnoc(marks: seq<Mark>, m: Mark)
    ensures Requests(marks + [m]) == Requests(marks) + [m.request]
    ensures Fifo(marks + [m]) == ApplyMark(Fifo(marks), m)
    ensures FifoAnswers(marks + [m]) ==
            FifoAnswers(marks) + (if m.request.Export? then [AnswerOf(Fifo(marks), m.request.ticket, m.ok)] else [])
  {
    assert (marks + [m])[..|marks|] == marks;
  }

  /** A batch written in one transaction is its events written one by one, or none of them. */
  lemma {:induction false} BatchIsFifo(marks: seq<Mark>, batch: seq<Event>, ok: bool)
    ensures var st, all := Fifo(marks), marks + Marked(batch, ok);
            && Fifo(all) == Store(if ok then Insert(st.table, batch) else st.table, st.failed || (!ok && batch != []))
            && Requests(all) == Requests(marks) + Appends(batch)
            && FifoAnswers(all) == FifoAnswers(marks)
    decreases |batch|
  {
    hide Fifo, FifoAnswers, Requests;
    if batch == [] {
      assert marks + Marked(batch, ok) == marks;
      assert Requests(marks) + [] == Requests(marks);
    } else {
      var front, e := batch[..|batch| - 1], batch[|batch| - 1];
      BatchIsFifo(marks, front, ok);
      assert marks + Marked(batch, ok) == (marks + Marked(front, ok)) + [Mark(Append(e), ok)];
      RequestsSnoc(marks + Marked(front, ok), Mark(Append(e), ok));
      assert Requests(marks) + Appends(batch) == (Requests(marks) + Appends(front)) + [Append(e)];
    }
  }

  lemma AppendsSnoc(events: seq<Event>, e: Event)
    ensures Appends(events + [e]) == Appends(events) + [Append(e)]
  {
    assert (events + [e])[..|events|] == events;
  }

  lemma ReceiveRefines(w: Writer, ok: bool)
    requires Refines(w)
    ensures Refines(WriterNext(w, Receive(ok)))
  {
    hide Refines, Handle, Waiting;
    if w.phase == Idle && w.pending.Some? {
      TakenRefines(w, w.(pending := None), w.pending.value, ok);
    } else if w.phase == Idle && w.queue != [] {
      TakenRefines(w, w.(queue := w.queue[1..]), w.queue[0], ok);
    }
  }

  lemma Assoc<T>(a: seq<T>, b: seq<T>, c: seq<T>)
    ensures a + (b + c) == (a + b) + c
  {}

  /** Handling the oldest waiting request. */
  lemma TakenRefines(w: Writer, taken: Writer, r: Request, ok: bool)
    requires Refines(w) && w.phase == Idle
    requires || (w.pending == Some(r) && taken == w.(pending := None))
             || (w.pending == None && w.queue != [] && r == w.queue[0] && taken == w.(queue := w.queue[1..]))
    ensures Refines(Handle(taken, r, ok))
  {
    hide Fifo, FifoAnswers, Requests, Appends, Waiting;
    WaitingSplit(w, taken, r);
    if r.Append? {
      OneWaiting(taken, r.event);
    } else {
      RequestsSnoc(w.marks, Mark(r, ok));
      NoneWaiting(Handle(taken, r, ok));
      Assoc(Requests(w.marks), [r], taken.queue);
    }
  }

  lemma WaitingSplit(w: Writer, taken: Writer, r: Request)
    requires w.batch == []
    requires || (w.pending == Some(r) && taken == w.(pending := None))
             || (w.pending == None && w.queue != [] && r == w.queue[0] && taken == w.(queue := w.queue[1..]))
    ensures Waiting(w) == [r] + taken.queue
  {
    NoAppends();
  }

  lemma OneWaiting(taken: Writer, e: Event)
    requires taken.pending == None
    ensures Waiting(taken.(batch := [e], phase := Gathering)) == [Append(e)] + taken.queue
  {
    AppendsSnoc([], e);
    assert [] + [e] == [e];
  }

  lemma NoneWaiting(w: Writer)
    requires w.batch == [] && w.pending == None
    ensures Waiting(w) == w.queue
  {
    NoAppends();
  }

  lemma NoAppends()
    ensures Appends([]) == []
  {}

  lemma GatherRefines(w: Writer)
    requires Refines(w)
    ensures Refines(WriterNext(w, Gather))
  {
    hide Fifo, FifoAnswers, Requests, Appends, Waiting;
    if w.phase == Gathering && |w.batch| < BATCH && w.queue != [] { GatherWaiting(w); }
  }

  /** Moving the head of the queue into the batch or aside keeps the order of what waits. */
  lemma GatherWaiting(w: Writer)
    requires w.phase == Gathering && |w.batch| < BATCH && w.queue != [] && w.pending == None
    ensures Waiting(WriterNext(w, Gather)) == Waiting(w)
  {
    hide Appends;
    var r := w.queue[0];
    assert w.queue == [r] + w.queue[1..];
    Assoc(Appends(w.batch), [r], w.queue[1..]);
    if r.Append? { AppendsSnoc(w.batch, r.event); }
  }

  lemma FlushRefines(w: Writer, ok: bool)
    requires Refines(w)
    ensures Refines(WriterNext(w, Flush(ok)))
  {
    hide Fifo, FifoAnswers, Requests, Appends, Insert, Marked, Waiting;
    if w.phase == Flushing {
      BatchIsFifo(w.marks, w.batch, ok);
      var rest := Waiting(w.(batch := []));
      FlushWaiting(w);
      Assoc(Requests(w.marks), Appends(w.batch), rest);
      assert Waiting(WriterNext(w, Flush(ok))) == rest by { EqualWaiting(WriterNext(w, Flush(ok)), w.(batch := [])); }
    }
  }

  lemma FlushWaiting(w: Writer)
    ensures Waiting(w) == Appends(w.batch) + Waiting(w.(batch := []))
  {
    NoAppends();
  }

  lemma EqualWaiting(v: Writer, w: Writer)
    requires v.batch == w.batch && v.pending == w.pending && v.queue == w.queue
    ensures Waiting(v) == Waiting(w)
  {}

  lemma SendRefines(w: Writer, r: Request)
    requires Refines(w)
    ensures Refines(WriterNext(w, Send(r)))
  {
    hide Fifo, FifoAnswers, Requests, Appends;
    assert Waiting(WriterNext(w, Send(r))) == Waiting(w) + [r];
    Assoc(Requests(w.marks), Waiting(w), [r]);
  }

  lemma StepRefines(w: Writer, step: WriterStep)
    requires Refines(w)
    ensures Refines(WriterNext(w, step))
  {
    hide WriterNext, Refines;
    match step {
      case Send(r) => SendRefines(w, r);
      case Receive(ok) => ReceiveRefines(w, ok);
      case Gather => GatherRefines(w);
      case Stop => StopRefines(w);
      case Flush(ok) => FlushRefines(w, ok);
    }
  }

  /** The batching writer refines the FIFO in every run, however sends interleave with it and
      whichever database calls fail. */
  lemma {:induction false} RunRefines(steps: seq<WriterStep>)
    ensures Refines(WriterRun(Start(), steps))
  {
    hide WriterNext, Refines;
    if steps == [] {
      StartRefines();
    } else {
      RunRefines(steps[..|steps| - 1]);
      StepRefines(WriterRun(Start(), steps[..|steps| - 1]), steps[|steps| - 1]);
    }
  }

  lemma StartRefines()
    ensures Refines(Start())
  {}

  lemma StopRefines(w: Writer)
    requires Refines(w)
    ensures Refines(WriterNext(w, Stop))
  {
    hide Fifo, FifoAnswers, Requests, Appends;
  }

  /** Without a recorded failure the table is exactly what was appended since the last Clear. */
  lemma {:induction false} NoFailureExact(marks: seq<Mark>)
    ensures !Fifo(marks).failed ==> Fifo(marks).table == TableOf(SinceClear(Requests(marks)))
  {
    hide TableOf;
    if marks == [] {
      EmptyTable();
    } else {
      var before, m := marks[..|marks| - 1], marks[|marks| - 1];
      NoFailureExact(before);
      assert Requests(marks)[..|Requests(before)|] == Requests(before);
      if m.request.Append? { TableSnoc(SinceClear(Requests(before)), m.request.event); }
      if m.request.Clear? { EmptyTable(); }
    }
  }

  lemma EmptyTable()
    ensures TableOf([]) == map[]
  {}

  lemma TableSnoc(events: seq<Event>, e: Event)
    ensures TableOf(events + [e]) == TableOf(events)[e.id := e]
  {
    assert (events + [e])[..|events|] == events;
  }

  ghost predicate Drained(w: Writer) { w.phase == Idle && w.pending == None && w.queue == [] }

  lemma DrainedTable(w: Writer)
    requires Refines(w) && Drained(w) && !w.failed
    ensures w.table == TableOf(SinceClear(w.sent))
  {
    hide Fifo, FifoAnswers, SinceClear, TableOf;
    NoFailureExact(w.marks);
    assert w.sent == Requests(w.marks);
  }

  /** Once the queue is drained without a recorded failure, the table is what the senders see: every event
      sent since the last Clear that was sent. */
  lemma DrainedExact(steps: seq<WriterStep>)
    requires var w := WriterRun(Start(), steps); Drained(w) && !w.failed
    ensures var w := WriterRun(Start(), steps); w.table == TableOf(SinceClear(w.sent))
  {
    hide Refines, SinceClear, TableOf, WriterRun;
    RunRefines(steps);
    DrainedTable(WriterRun(Start(), steps));
  }

  /** A failed write or a failed Clear that no later Clear has made good. */
  ghost predicate OpenFailure(marks: seq<Mark>, i: int) {
    && 0 <= i < |marks| && !marks[i].ok && !marks[i].request.Export?
    && forall j :: i < j < |marks| && marks[j].request.Clear? ==> !marks[j].ok
  }

  lemma {:induction false} FailedIff(marks: seq<Mark>)
    ensures Fifo(marks).failed <==> exists i :: OpenFailure(marks, i)
  {
    if marks != [] {
      var before, m := marks[..|marks| - 1], marks[|marks| - 1];
      FailedIff(before);
      if m.request.Clear? && m.ok {
        assert forall i :: !OpenFailure(marks, i);
      } else {
        forall i | OpenFailure(before, i) ensures OpenFailure(marks, i) {}
        forall i | OpenFailure(marks, i) && i < |before| ensures OpenFailure(before, i) {}
        if !m.ok && !m.request.Export? { assert OpenFailure(marks, |marks| - 1); }
      }
    }
  }

  /** Row `id` was written by processed request `i`, and neither overwritten nor cleared since. */
  ghost predicate WrittenBy(marks: seq<Mark>, i: int, id: int) {
    && 0 <= i < |marks| && marks[i].ok && marks[i].request.Append? && marks[i].request.event.id == id
    && forall j :: i < j < |marks| && marks[j].ok ==>
         !marks[j].request.Clear? && (marks[j].request.Append? ==> marks[j].request.event.id != id)
  }

  /** The table, failures or not: a row is there exactly if a successful write put it there, and it is that write's. */
  lemma {:induction false} RowIff(marks: seq<Mark>, id: int)
    ensures id in Fifo(marks).table <==> exists i :: WrittenBy(marks, i, id)
    ensures forall i :: WrittenBy(marks, i, id) ==> Fifo(marks).table[id] == marks[i].request.event
  {
    if marks != [] {
      var before, m := marks[..|marks| - 1], marks[|marks| - 1];
      RowIff(before, id);
      var written := m.ok && m.request.Append? && m.request.event.id == id;
      if written {
        assert WrittenBy(marks, |marks| - 1, id);
        assert forall i :: WrittenBy(marks, i, id) ==> i == |marks| - 1;
      } else if m.ok && m.request.Clear? {
        assert forall i :: !WrittenBy(marks, i, id);
      } else {
        forall i ensures WrittenBy(marks, i, id) <==> WrittenBy(before, i, id) {}
      }
    }
  }

  function Exports(marks: seq<Mark>): nat {
    if marks == [] then 0 else Exports(marks[..|marks| - 1]) + if marks[|marks| - 1].request.Export? then 1 else 0
  }

  /** Export number `i` is the request at `k`; its answer is `a`: withheld exactly if its query failed or a failure is
      open, otherwise the exact boundary of what was appended since the last Clear processed before it. */
  ghost predicate Answered(marks: seq<Mark>, i: nat, k: int, a: Answer) {
    && 0 <= k < |marks| && marks[k].request == Export(a.ticket) && Exports(marks[..k]) == i
    && (a.result.None? <==> !marks[k].ok || exists f :: OpenFailure(marks[..k], f))
    && (a.result.Some? ==> a.result.value == SnapshotOf(TableOf(SinceClear(Requests(marks[..k])))))
  }

  /** Every export is answered, in order, and each answer is exact. */
  lemma {:induction false} AnswersExact(marks: seq<Mark>, i: nat)
    ensures |FifoAnswers(marks)| == Exports(marks)
    ensures i < |FifoAnswers(marks)| ==> exists k :: Answered(marks, i, k, FifoAnswers(marks)[i])
  {
    hide TableOf, SinceClear, Requests, SnapshotOf, Fifo, OpenFailure;
    if marks != [] {
      var before, m := marks[..|marks| - 1], marks[|marks| - 1];
      AnswersExact(before, i);
      if i < |FifoAnswers(before)| {
        var k :| Answered(before, i, k, FifoAnswers(before)[i]);
        assert marks[..k] == before[..k];
        assert Answered(marks, i, k, FifoAnswers(marks)[i]);
      } else if i < |FifoAnswers(marks)| {
        NoFailureExact(before);
        FailedIff(before);
        assert Answered(marks, i, |marks| - 1, FifoAnswers(marks)[i]);
      }
    }
  }

  // What later writes can do to a boundary

  /** Appended ids increase in the order sent. */
  ghost predicate IdsIncrease(requests: seq<Request>) {
    forall i, j :: 0 <= i < j < |requests| && requests[i].Append? && requests[j].Append?
      ==> requests[i].event.id < requests[j].event.id
  }

  /** `t` may miss rows of the boundary, but holds no other row within it. */
  ghost predicate Within(boundary: Table, t: Table) {
    forall id :: id in t && id <= MaxId(boundary) ==> id in boundary && t[id] == boundary[id]
  }

  lemma {:induction false} FifoIds(marks: seq<Mark>, id: int)
    requires id in Fifo(marks).table
    ensures exists i :: 0 <= i < |marks| && marks[i].request == Append(Fifo(marks).table[id])
    ensures Fifo(marks).table[id].id == id
  {
    var before, m := marks[..|marks| - 1], marks[|marks| - 1];
    if m.request.Append? && m.ok && m.request.event.id == id {
      assert marks[|marks| - 1].request == Append(Fifo(marks).table[id]);
    } else {
      FifoIds(before, id);
      var i :| 0 <= i < |before| && before[i].request == Append(Fifo(before).table[id]);
      assert marks[i].request == Append(Fifo(marks).table[id]);
    }
  }

  ghost predicate MarkIdsIncrease(marks: seq<Mark>) {
    forall i, j :: 0 <= i < j < |marks| && marks[i].request.Append? && marks[j].request.Append?
      ==> marks[i].request.event.id < marks[j].request.event.id
  }

  /** An append that comes after a boundary was taken is beyond it. */
  lemma LaterId(marks: seq<Mark>, more: seq<Mark>, e: Event)
    requires MarkIdsIncrease(marks + more) && more != [] && more[|more| - 1].request == Append(e)
    ensures MaxId(Fifo(marks).table) < e.id
  {
    hide Fifo;
    var boundary := Fifo(marks).table;
    if boundary != map[] {
      var last := MaxId(boundary);
      FifoIds(marks, last);
      var i :| 0 <= i < |marks| && marks[i].request == Append(boundary[last]);
      assert (marks + more)[i] == marks[i] && (marks + more)[|marks + more| - 1] == more[|more| - 1];
    }
  }

  lemma FrontIncreases(marks: seq<Mark>, more: seq<Mark>)
    requires more != [] && MarkIdsIncrease(marks + more)
    ensures MarkIdsIncrease(marks + more[..|more| - 1])
  {
    var all, front := marks + more, marks + more[..|more| - 1];
    assert forall i :: 0 <= i < |front| ==> front[i] == all[i];
  }

  /** One more processed request: a write beyond the boundary, a Clear or nothing. */
  lemma OneWithin(boundary: Table, st: Store, m: Mark)
    requires Within(boundary, st.table) && (m.request.Append? ==> MaxId(boundary) < m.request.event.id)
    ensures Within(boundary, ApplyMark(st, m).table)
  {}

  /** Whatever is processed after a boundary was taken, the table stays within it. */
  lemma {:induction false} StaysWithin(marks: seq<Mark>, more: seq<Mark>)
    requires MarkIdsIncrease(marks + more)
    ensures Within(Fifo(marks).table, Fifo(marks + more).table)
    decreases |more|
  {
    hide Fifo, MarkIdsIncrease;
    if more == [] {
      assert marks + more == marks;
    } else {
      var front, m := more[..|more| - 1], more[|more| - 1];
      FrontIncreases(marks, more);
      StaysWithin(marks, front);
      if m.request.Append? { LaterId(marks, more, m.request.event); }
      assert marks + more == (marks + front) + [m];
      RequestsSnoc(marks + front, m);
      hide Within, MaxId;
      OneWithin(Fifo(marks).table, Fifo(marks + front), m);
    }
  }

  lemma {:induction false} RequestsAt(marks: seq<Mark>)
    ensures |Requests(marks)| == |marks| && forall i :: 0 <= i < |marks| ==> Requests(marks)[i] == marks[i].request
  {
    if marks != [] { RequestsAt(marks[..|marks| - 1]); }
  }

  /** In every run with increasing ids, every table reached after a boundary stays within it. */
  lemma {:induction false} RunStaysWithin(steps: seq<WriterStep>, k: nat)
    requires k <= |steps| && IdsIncrease(WriterRun(Start(), steps).sent)
    ensures Within(WriterRun(Start(), steps[..k]).table, WriterRun(Start(), steps).table)
  {
    hide Fifo, Requests, WriterRun, FifoAnswers, Within;
    var w, v := WriterRun(Start(), steps[..k]), WriterRun(Start(), steps);
    RunRefines(steps);
    RunRefines(steps[..k]);
    MarksGrow(steps, k);
    RequestsAt(v.marks);
    assert v.marks == w.marks + v.marks[|w.marks|..];
    assert forall i :: 0 <= i < |v.marks| ==> v.sent[i] == v.marks[i].request;
    StaysWithin(w.marks, v.marks[|w.marks|..]);
  }

  lemma StepMarks(w: Writer, step: WriterStep)
    ensures w.marks <= WriterNext(w, step).marks
  {
    hide Marked, Insert, AnswerOf;
    match step {
      case Flush(ok) => Longer(w.marks, Marked(w.batch, ok));
      case Receive(ok) =>
        Longer(w.marks, [Mark(Clear, ok)]);
        if w.pending.Some? { Longer(w.marks, [Mark(w.pending.value, ok)]); }
        if w.queue != [] { Longer(w.marks, [Mark(w.queue[0], ok)]); }
      case _ =>
    }
  }

  lemma Longer<T>(a: seq<T>, b: seq<T>)
    ensures a <= a + b
  {}

  lemma {:induction false} MarksGrow(steps: seq<WriterStep>, k: nat)
    requires k <= |steps|
    ensures WriterRun(Start(), steps[..k]).marks <= WriterRun(Start(), steps).marks
  {
    hide WriterNext;
    if k < |steps| {
      MarksGrow(steps[..|steps| - 1], k);
      assert steps[..|steps| - 1][..k] == steps[..k];
      StepMarks(WriterRun(Start(), steps[..|steps| - 1]), steps[|steps| - 1]);
    } else {
      assert steps[..k] == steps;
    }
  }
}
