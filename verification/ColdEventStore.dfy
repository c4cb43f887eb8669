/** The store's writer coroutine and its senders, with the batch loop as it runs. */
module ColdStore {
  import opened Types
  import opened StoreModel

  lemma RunSnoc(w: Writer, steps: seq<WriterStep>, step: WriterStep)
    ensures WriterRun(w, steps + [step]) == WriterNext(WriterRun(w, steps), step)
  {
    assert (steps + [step])[..|steps|] == steps;
  }

  /** The requests other threads send during these steps. */
  function Sent(steps: seq<WriterStep>): seq<Request> {
    if steps == [] then [] else
    Sent(steps[..|steps| - 1]) + (if steps[|steps| - 1].Send? then [steps[|steps| - 1].request] else [])
  }

  lemma SentSnoc(steps: seq<WriterStep>, step: WriterStep)
    ensures Sent(steps + [step]) == Sent(steps) + if step.Send? then [step.request] else []
  {
    assert (steps + [step])[..|steps|] == steps;
  }

  /** Whatever the writer does and whoever sends meanwhile, it goes on refining the FIFO, and the requests sent
      are those sent before and those sent during the steps. */
  lemma {:induction false} RunOn(w: Writer, steps: seq<WriterStep>)
    requires Refines(w)
    ensures Refines(WriterRun(w, steps)) && WriterRun(w, steps).sent == w.sent + Sent(steps)
  {
    hide WriterNext, Refines;
    if steps != [] {
      var front, last := steps[..|steps| - 1], steps[|steps| - 1];
      RunOn(w, front);
      StepRefines(WriterRun(w, front), last);
      StepSends(WriterRun(w, front), last);
    }
  }

  lemma StepSends(w: Writer, step: WriterStep)
    ensures WriterNext(w, step).sent == w.sent + if step.Send? then [step.request] else []
  {}

  /** No database call of these steps fails. */
  ghost predicate Succeeds(steps: seq<WriterStep>) {
    forall i :: 0 <= i < |steps| ==> steps[i] != Receive(false) && steps[i] != Flush(false)
  }

  lemma {:induction false} StaysGood(w: Writer, steps: seq<WriterStep>)
    requires !w.failed && Succeeds(steps)
    ensures !WriterRun(w, steps).failed
  {
    if steps != [] { StaysGood(w, steps[..|steps| - 1]); }
  }

  /** A turn whose database call succeeds has no other that fails. */
  lemma TurnSucceeds(steps: seq<WriterStep>)
    requires OneTurn(steps, true)
    ensures Succeeds(steps)
  {}

  /** A drained writer has processed what was sent; any other has some of it left. */
  lemma LeftToDo(w: Writer)
    requires Refines(w) && w.phase == Idle
    ensures |w.marks| <= |w.sent| && (|w.marks| == |w.sent| <==> Drained(w))
  {
    hide Applied;
    RequestsAt(w.marks);
  }

  /** What has arrived in the first `turns` gaps between receives. */
  function Arrived(arrivals: nat -> seq<Request>, turns: nat): seq<Request> {
    if turns == 0 then [] else Arrived(arrivals, turns - 1) + arrivals(turns - 1)
  }

  lemma {:induction false} NoneArrived(arrivals: nat -> seq<Request>, turns: nat)
    requires forall i :: arrivals(i) == []
    ensures Arrived(arrivals, turns) == []
  {
    if turns > 0 { NoneArrived(arrivals, turns - 1); }
  }

  lemma NothingSent(arrivals: nat -> seq<Request>, step: WriterStep)
    requires !step.Send?
    ensures Sent([step]) == [] && Arrived(arrivals, 0) == []
  {
    assert [step][..0] == [];
  }

  /** Between receiving and flushing only sends, gathers and a stop happen. */
  ghost predicate Draining(before: seq<WriterStep>, steps: seq<WriterStep>) {
    && before <= steps
    && forall i :: |before| <= i < |steps| ==> steps[i].Send? || steps[i].Gather? || steps[i].Stop?
  }

  /** One receive, first; at most one flush, last; both with the same outcome. */
  ghost predicate OneTurn(steps: seq<WriterStep>, ok: bool) {
    && steps != [] && steps[0] == Receive(ok)
    && (forall i :: 1 <= i < |steps| ==> !steps[i].Receive?)
    && (forall i :: 0 <= i < |steps| && steps[i].Flush? ==> steps[i] == Flush(ok) && i == |steps| - 1)
  }

  /** writeBatch inside a transaction that commits: row after row, replacing on conflict. */
  method InsertRows(table: Table, events: seq<Event>) returns (t: Table)
    ensures t == Insert(table, events)
  {
    t := table;
    for i := 0 to |events|
      invariant t == Insert(table, events[..i])
    {
      assert events[..i + 1][..i] == events[..i];
      t := t[events[i].id := events[i]];
    }
    assert events[..|events|] == events;
  }

  lemma {:induction false} MarkedAll(events: seq<Event>, ok: bool)
    ensures |Marked(events, ok)| == |events|
    ensures events != [] ==> Marked(events, ok)[0] == Mark(Append(events[0]), ok)
  {
    if events != [] { MarkedAll(events[..|events| - 1], ok); }
  }

  class ColdEventStore {
    var queue: seq<Request>
    var pending: Option<Request>
    var writeFailure: bool
    var table: Table
    ghost var sent: seq<Request>
    ghost var marks: seq<Mark>
    ghost var answers: seq<Answer>

    /** The writer between two turns of its loop. */
    ghost function View(): Writer
      reads this
    {
      Gathered([], Idle)
    }

    ghost function Gathered(batch: seq<Event>, phase: Phase): Writer
      reads this
    {
      Writer(queue, pending, batch, phase, table, writeFailure, sent, marks, answers)
    }

    constructor ()
      ensures View() == Start()
    {
      queue, pending, writeFailure, table := [], None, false, map[];
      sent, marks, answers := [], [], [];
    }

    /** Any sender: offer, clear, or the start of an export. */
    method Enqueue(r: Request)
      modifies this`queue, this`sent
      ensures View() == WriterNext(old(View()), Send(r))
    {
      queue := queue + [r];
      sent := sent + [r];
    }

    /** What other threads send between two receives. */
    method Arrive(rs: seq<Request>, ghost w: Writer, ghost before: seq<WriterStep>, ghost batch: seq<Event>)
      returns (ghost steps: seq<WriterStep>)
      requires Gathered(batch, Gathering) == WriterRun(w, before)
      modifies this`queue, this`sent
      ensures Gathered(batch, Gathering) == WriterRun(w, steps)
      ensures Sent(steps) == Sent(before) + rs && Draining(before, steps)
    {
      hide WriterRun;
      steps := before;
      for i := 0 to |rs|
        invariant Gathered(batch, Gathering) == WriterRun(w, steps)
        invariant Sent(steps) == Sent(before) + rs[..i] && Draining(before, steps)
      {
        RunSnoc(w, steps, Send(rs[i]));
        SentSnoc(steps, Send(rs[i]));
        assert rs[..i + 1] == rs[..i] + [rs[i]];
        queue := queue + [rs[i]];
        sent := sent + [rs[i]];
        steps := steps + [Send(rs[i])];
      }
      assert rs[..|rs|] == rs;
    }

    /** Drains appends into one batch until it is full, the queue is empty or another request shows up. */
    method Gather(first: Event, arrivals: nat -> seq<Request>, ghost w: Writer, ghost before: seq<WriterStep>)
      returns (batch: seq<Event>, ghost steps: seq<WriterStep>, turns: nat)
      requires Gathered([first], Gathering) == WriterRun(w, before) && pending == None
      modifies this`queue, this`sent, this`pending
      ensures Gathered(batch, Flushing) == WriterRun(w, steps) && batch != [] && batch[0] == first
      ensures marks == old(marks)
      ensures Sent(steps) == Sent(before) + Arrived(arrivals, turns) && Draining(before, steps)
    {
      hide WriterRun, WriterNext, Sent;
      batch := [first];
      steps := before;
      turns := 0;
      while |batch| < BATCH
        invariant Gathered(batch, Gathering) == WriterRun(w, steps) && 1 <= |batch| <= BATCH && batch[0] == first
        invariant pending == None
        invariant Sent(steps) == Sent(before) + Arrived(arrivals, turns) && Draining(before, steps)
        decreases BATCH - |batch|
      {
        steps := Arrive(arrivals(turns), w, steps, batch);
        turns := turns + 1;
        if queue == [] { break; }
        RunSnoc(w, steps, WriterStep.Gather);
        SentSnoc(steps, WriterStep.Gather);
        steps := steps + [WriterStep.Gather];
        var more := TakeMore(batch);
        if !more.Append? { return; }
        batch := batch + [more.event];
      }
      StopIs(Gathered(batch, Gathering));
      RunSnoc(w, steps, Stop);
      SentSnoc(steps, Stop);
      steps := steps + [Stop];
    }

    /** One tryReceive that finds a request: an append joins the batch, anything else is set aside. */
    method TakeMore(ghost batch: seq<Event>) returns (more: Request)
      requires queue != [] && |batch| < BATCH
      modifies this`queue, this`pending
      ensures more == old(queue[0]) && (more.Append? ==> pending == old(pending))
      ensures WriterNext(old(Gathered(batch, Gathering)), WriterStep.Gather) ==
              if more.Append? then Gathered(batch + [more.event], Gathering) else Gathered(batch, Flushing)
    {
      more, queue := queue[0], queue[1..];
      if !more.Append? { pending := Some(more); }
    }

    /** The request set aside by the last turn, or the head of the queue. */
    method TakeFirst(ghost ok: bool) returns (request: Request)
      requires pending.Some? || queue != []
      modifies this`queue, this`pending
      ensures request == old(if pending.Some? then pending.value else queue[0]) && pending == None
      ensures WriterNext(old(View()), Receive(ok)) ==
              if request.Append? then Gathered([request.event], Gathering) else Handle(View(), request, ok)
    {
      if pending.Some? {
        request, pending := pending.value, None;
      } else {
        request, queue := queue[0], queue[1..];
      }
    }

    /** One turn of the writer loop: it receives the oldest request first, drains what it may behind it, makes one
        database call with outcome `ok`, and has then processed at least that request. What enters the queue
        meanwhile is what arrived. */
    method WriterTurn(arrivals: nat -> seq<Request>, ok: bool)
      returns (ghost steps: seq<WriterStep>, turns: nat)
      requires pending.Some? || queue != []
      modifies this
      ensures View() == WriterRun(old(View()), steps)
      ensures OneTurn(steps, ok) && Sent(steps) == Arrived(arrivals, turns)
      ensures old(marks) < marks &&
        marks[|old(marks)|].request == old(if pending.Some? then pending.value else queue[0])
    {
      hide WriterRun, WriterNext, Handle, Sent, Arrived;
      ghost var w := View();
      RunNothing(w);
      RunSnoc(w, [], Receive(ok));
      NothingSent(arrivals, Receive(ok));
      steps, turns := [Receive(ok)], 0;
      assert [] + [Receive(ok)] == steps;
      var request := TakeFirst(ok);
      if request.Append? {
        var batch;
        batch, steps, turns := Gather(request.event, arrivals, w, steps);
        RunSnoc(w, steps, Flush(ok));
        SentSnoc(steps, Flush(ok));
        steps := steps + [Flush(ok)];
        WriteBatch(batch, ok);
      } else {
        HandleMarker(request, ok);
      }
    }

    method WriteBatch(batch: seq<Event>, ok: bool)
      requires batch != []
      modifies this`table, this`writeFailure, this`marks
      ensures View() == WriterNext(old(Gathered(batch, Flushing)), Flush(ok))
      ensures old(marks) < marks && marks[|old(marks)|].request == Append(batch[0])
    {
      hide Insert, Marked;
      MarkedAll(batch, ok);
      if ok { table := InsertRows(table, batch); }
      writeFailure := writeFailure || !ok;
      marks := marks + Marked(batch, ok);
    }

    method HandleMarker(request: Request, ok: bool)
      requires !request.Append?
      modifies this`table, this`writeFailure, this`marks, this`answers
      ensures View() == Handle(old(View()), request, ok)
      ensures marks == old(marks) + [Mark(request, ok)]
    {
      if request.Clear? {
        if ok { table := map[]; }
        writeFailure := !ok;
      } else {
        answers := answers + [AnswerOf(Store(table, writeFailure), request.ticket, ok)];
      }
      marks := marks + [Mark(request, ok)];
    }

    lemma StopIs(w: Writer)
      requires w.phase == Gathering && (|w.batch| >= BATCH || w.queue == [])
      ensures WriterNext(w, Stop) == w.(phase := Flushing)
    {}

    lemma RunNothing(w: Writer)
      ensures WriterRun(w, []) == w
    {}
  }
}
