/** Matching replies to requests by pair id: two tables with a time limit and a size limit. */
module PairerModel {
  import opened Types
  import opened Finite

  const TTL_MS: int := 5000
  const MAX_ENTRIES: nat := 4096

  datatype PairResult = PairResult(
    interfaceName: Option<string>, methodName: Option<string>, code: int, resolveCandidates: seq<string>,
    decodeSource: Option<nat>)

  datatype Event = Event(
    isReply: bool, pairId: int, uid: int, toUid: int, interfaceName: string, methodName: string, code: int,
    resolveCandidates: seq<string>, decodeSource: Option<nat>)

  datatype Pending = Pending(result: PairResult, enqueuedAt: int)

  type Table = map<int, Pending>

  datatype Side = Client | Server

  datatype Tables = Tables(client: Table, server: Table)

  function Digit(d: nat): char
    requires d < 10
  {
    "0123456789"[d]
  }

  function Digits(n: nat): string { if n < 10 then [Digit(n)] else Digits(n / 10) + [Digit(n % 10)] }

  function Decimal(n: int): string { if n < 0 then "-" + Digits(-n) else Digits(n) }

  predicate AllDigits(s: string) { forall i :: 0 <= i < |s| ==> '0' <= s[i] <= '9' }

  /** The number a string of digits stands for. */
  function DigitsValue(s: string): nat
    requires AllDigits(s)
  {
    if s == [] then 0 else DigitsValue(s[..|s| - 1]) * 10 + (s[|s| - 1] - '0') as nat
  }

  /** The string is the number in decimal: digits without a leading zero, after a minus sign if it is negative. */
  predicate ReadsAs(s: string, n: int) {
    if n < 0 then s != [] && s[0] == '-' && ReadsAsNat(s[1..], -n) else ReadsAsNat(s, n)
  }

  predicate ReadsAsNat(s: string, n: nat) {
    s != [] && AllDigits(s) && DigitsValue(s) == n && (s[0] == '0' ==> |s| == 1)
  }

  lemma {:induction false} NoLeadingZero(s: string)
    requires s != [] && AllDigits(s) && s[0] != '0'
    ensures DigitsValue(s) > 0
  {
    if |s| > 1 { NoLeadingZero(s[..|s| - 1]); } else { assert s[..0] == []; }
  }

  /** Each digit is its character, and each character its digit. */
  lemma DigitChar(d: nat)
    requires d < 10
    ensures '0' <= Digit(d) <= '9' && (Digit(d) - '0') as nat == d && (Digit(d) == '0' <==> d == 0)
  {}

  lemma CharDigit(c: char)
    requires '0' <= c <= '9'
    ensures (c - '0') as nat < 10 && Digit((c - '0') as nat) == c
  {
    hide Digit;
    DigitChar((c - '0') as nat);
  }

  lemma {:induction false} DigitsRead(n: nat)
    ensures ReadsAsNat(Digits(n), n) && (n > 0 ==> Digits(n)[0] != '0')
  {
    hide Digit;
    DigitChar(n % 10);
    if n >= 10 {
      DigitsRead(n / 10);
      assert Digits(n)[..|Digits(n)| - 1] == Digits(n / 10);
    } else {
      assert Digits(n)[..0] == [] && n % 10 == n;
      NoDigits();
    }
  }

  lemma DigitsLast(s: string)
    requires s != [] && AllDigits(s)
    ensures AllDigits(s[..|s| - 1])
    ensures DigitsValue(s) == DigitsValue(s[..|s| - 1]) * 10 + (s[|s| - 1] - '0') as nat
    ensures (s[|s| - 1] - '0') as nat < 10 && Digit((s[|s| - 1] - '0') as nat) == s[|s| - 1]
  {
    hide Digit;
    CharDigit(s[|s| - 1]);
  }

  lemma {:induction false} DigitsUnique(s: string, n: nat)
    requires ReadsAsNat(s, n)
    ensures s == Digits(n)
    decreases |s|
  {
    hide DigitsValue, Digit;
    var front, d := s[..|s| - 1], (s[|s| - 1] - '0') as nat;
    DigitsLast(s);
    assert s == front + [s[|s| - 1]];
    if front == [] {
      NoDigits();
    } else {
      NoLeadingZero(front);
      assert n / 10 == DigitsValue(front) && n % 10 == d;
      DigitsUnique(front, n / 10);
    }
  }

  lemma NoDigits()
    ensures DigitsValue([]) == 0
  {}

  /** The decimal form is the only string that reads as the number. */
  lemma DecimalExact(s: string, n: int)
    ensures s == Decimal(n) <==> ReadsAs(s, n)
  {
    hide Digits, ReadsAsNat;
    if n < 0 {
      DigitsRead(-n);
      if ReadsAs(s, n) { DigitsUnique(s[1..], -n); }
      assert Decimal(n)[1..] == Digits(-n);
    } else {
      DigitsRead(n);
      if ReadsAs(s, n) { DigitsUnique(s, n); }
    }
  }

  /** The request's decoded names, without the placeholders for undecoded ones. */
  function ResultOf(e: Event): PairResult {
    PairResult(if e.interfaceName == "Unknown" then None else Some(e.interfaceName),
               if e.methodName == "code=" + Decimal(e.code) then None else Some(e.methodName),
               e.code, e.resolveCandidates, e.decodeSource)
  }

  /** The answer is the request's: its interface unless that is unknown, its method name unless that is only the
      code in decimal, and its code, candidates and decode source. */
  ghost predicate Answers(result: PairResult, q: Event) {
    && (result.interfaceName.None? <==> q.interfaceName == "Unknown")
    && (result.interfaceName.Some? ==> result.interfaceName.value == q.interfaceName)
    && (result.methodName.None? <==>
          |q.methodName| >= 5 && q.methodName[..5] == "code=" && ReadsAs(q.methodName[5..], q.code))
    && (result.methodName.Some? ==> result.methodName.value == q.methodName)
    && result.code == q.code && result.resolveCandidates == q.resolveCandidates && result.decodeSource == q.decodeSource
  }

  lemma ResultAnswers(q: Event)
    ensures Answers(ResultOf(q), q)
  {
    hide Decimal, ReadsAs;
    var name := q.methodName;
    if |name| >= 5 && name[..5] == "code=" {
      assert name == "code=" + name[5..];
      DecimalExact(name[5..], q.code);
    }
    var placeholder := "code=" + Decimal(q.code);
    assert placeholder[..5] == "code=" && placeholder[5..] == Decimal(q.code);
  }

  predicate ToHit(e: Event, targetUid: int) { e.toUid != 0 && e.toUid == targetUid }

  /** The table a request goes to; None when it is ignored. */
  function RecordSide(e: Event, targetUid: int): Option<Side> {
    if e.isReply || e.pairId == 0 || targetUid <= 0 then None
    else if e.uid == targetUid then Some(Client)
    else if ToHit(e, targetUid) then Some(Server)
    else None
  }

  /** The table a reply is looked up in. */
  function MatchSide(e: Event, targetUid: int): Option<Side> {
    if !e.isReply || e.pairId == 0 || targetUid <= 0 then None
    else if ToHit(e, targetUid) then Some(Client)
    else if e.uid == targetUid then Some(Server)
    else Some(Client)
  }

  function Get(s: Tables, side: Side): Table { if side == Client then s.client else s.server }

  function Set(s: Tables, side: Side, t: Table): Tables {
    if side == Client then s.(client := t) else s.(server := t)
  }

  function Fresh(t: Table, now: int): Table { map k | k in t && t[k].enqueuedAt >= now - TTL_MS :: t[k] }

  ghost predicate SubTable(a: Table, b: Table) { forall k :: k in a ==> k in b && a[k] == b[k] }

  /** `a` keeps the youngest entries of `b`; among entries of the same age any may go. */
  ghost predicate Youngest(b: Table, a: Table) {
    && SubTable(a, b)
    && |a| == Min(|b|, MAX_ENTRIES)
    && forall k, j :: k in b && k !in a && j in a ==> b[k].enqueuedAt <= a[j].enqueuedAt
  }

  datatype Step = Record(event: Event, targetUid: int, now: int) | Match(event: Event, targetUid: int, now: int)

  /** One call, its new tables and its answer. */
  ghost predicate StepRel(s: Tables, step: Step, t: Tables, out: Option<PairResult>) {
    match step
    case Record(e, targetUid, now) =>
      && out == None
      && (match RecordSide(e, targetUid)
          case None => t == s
          case Some(side) =>
            && t == Set(s, side, Get(t, side))
            && Youngest(Fresh(Get(s, side)[e.pairId := Pending(ResultOf(e), now)], now), Get(t, side)))
    case Match(e, targetUid, now) =>
      match MatchSide(e, targetUid)
      case None => t == s && out == None
      case Some(side) =>
        var table := Get(s, side);
        && t == Set(s, side, table - {e.pairId})
        && out == (if e.pairId !in table || now - table[e.pairId].enqueuedAt > TTL_MS then None
                   else Some(table[e.pairId].result))
  }

  // Whole runs

  datatype Trace = Trace(states: seq<Tables>, steps: seq<Step>, outs: seq<Option<PairResult>>)

  ghost predicate IsRun(tr: Trace) {
    && |tr.states| == |tr.steps| + 1 && |tr.outs| == |tr.steps|
    && tr.states[0] == Tables(map[], map[])
    && forall i :: 0 <= i < |tr.steps| ==> StepRel(tr.states[i], tr.steps[i], tr.states[i + 1], tr.outs[i])
  }

  predicate Records(step: Step, side: Side, pairId: int) {
    step.Record? && RecordSide(step.event, step.targetUid) == Some(side) && step.event.pairId == pairId
  }

  predicate Consumes(step: Step, side: Side, pairId: int) {
    step.Match? && MatchSide(step.event, step.targetUid) == Some(side) && step.event.pairId == pairId
  }

  predicate Touches(step: Step, side: Side, pairId: int) {
    Records(step, side, pairId) || Consumes(step, side, pairId)
  }

  ghost predicate Untouched(tr: Trace, from: nat, to: nat, side: Side, pairId: int) {
    forall k :: from < k < to && k < |tr.steps| ==> !Touches(tr.steps[k], side, pairId)
  }

  /** The entry was put by step j and nobody has touched its pair id since. */
  ghost predicate PutBy(tr: Trace, j: nat, i: nat, side: Side, pairId: int, entry: Pending) {
    && j < i <= |tr.steps| && Records(tr.steps[j], side, pairId)
    && entry == Pending(ResultOf(tr.steps[j].event), tr.steps[j].now)
    && Untouched(tr, j, i, side, pairId)
  }

  /** After a call, an entry is the one the call recorded or was there before, untouched. */
  lemma EntryStep(s: Tables, step: Step, t: Tables, out: Option<PairResult>, side: Side, pairId: int)
    requires StepRel(s, step, t, out) && pairId in Get(t, side)
    ensures !Consumes(step, side, pairId)
    ensures if Records(step, side, pairId) then Get(t, side)[pairId] == Pending(ResultOf(step.event), step.now)
            else pairId in Get(s, side) && Get(t, side)[pairId] == Get(s, side)[pairId]
  {
    hide ResultOf;
  }

  lemma StepOf(tr: Trace, i: nat)
    requires IsRun(tr) && i < |tr.steps|
    ensures |tr.states| == |tr.steps| + 1 && |tr.outs| == |tr.steps|
    ensures StepRel(tr.states[i], tr.steps[i], tr.states[i + 1], tr.outs[i])
  {}

  /** Every entry of every reachable table was put by the last call that touched its pair id. */
  lemma {:induction false} EntriesPut(tr: Trace, i: nat, side: Side, pairId: int)
    requires IsRun(tr) && i <= |tr.steps| && pairId in Get(tr.states[i], side)
    ensures exists j :: PutBy(tr, j, i, side, pairId, Get(tr.states[i], side)[pairId])
  {
    hide ResultOf, StepRel, Records, Consumes;
    if i > 0 {
      StepOf(tr, i - 1);
      EntryStep(tr.states[i - 1], tr.steps[i - 1], tr.states[i], tr.outs[i - 1], side, pairId);
      var entry := Get(tr.states[i], side)[pairId];
      if Records(tr.steps[i - 1], side, pairId) {
        assert PutBy(tr, i - 1, i, side, pairId, entry);
      } else {
        EntriesPut(tr, i - 1, side, pairId);
        var j: nat :| PutBy(tr, j, i - 1, side, pairId, entry);
        assert PutBy(tr, j, i, side, pairId, entry);
      }
    }
  }

  /** The reply answers the request in the direction of the side. The monitored uid made a Client request, and
      receives the reply or at least did not send it; it received a Server request, and sends the reply to another. */
  predicate Directed(side: Side, request: Step, reply: Step) {
    && request.Record? && reply.Match? && !request.event.isReply && reply.event.isReply
    && request.event.pairId == reply.event.pairId != 0 && request.targetUid > 0 && reply.targetUid > 0
    && if side == Client
       then && request.event.uid == request.targetUid
            && (reply.event.toUid == reply.targetUid || reply.event.uid != reply.targetUid)
       else && request.event.uid != request.targetUid && request.event.toUid == request.targetUid
            && reply.event.uid == reply.targetUid && reply.event.toUid != reply.targetUid
  }

  /** The two calls meet in the table of a side exactly when they are in its direction. */
  lemma DirectedMeets(side: Side, request: Step, reply: Step)
    ensures Directed(side, request, reply) <==>
            && request.Record? && reply.Match? && request.event.pairId == reply.event.pairId
            && Records(request, side, reply.event.pairId) && Consumes(reply, side, reply.event.pairId)
  {}

  /** A match returns the request recorded last under its pair id in the right direction, not older than the
      time limit, and no call between them recorded or consumed that pair id; so no request is matched twice. */
  lemma MatchSound(tr: Trace, i: nat)
    requires IsRun(tr) && i < |tr.steps| && tr.outs[i].Some?
    ensures tr.steps[i].Match?
    ensures exists j, side :: 0 <= j < i && Directed(side, tr.steps[j], tr.steps[i])
              && Untouched(tr, j, i, side, tr.steps[i].event.pairId)
              && Answers(tr.outs[i].value, tr.steps[j].event) && tr.steps[i].now - tr.steps[j].now <= 5000
  {
    hide ResultOf, Answers;
    assert StepRel(tr.states[i], tr.steps[i], tr.states[i + 1], tr.outs[i]);
    var side, p := MatchSide(tr.steps[i].event, tr.steps[i].targetUid).value, tr.steps[i].event.pairId;
    EntriesPut(tr, i, side, p);
    var j: nat :| PutBy(tr, j, i, side, p, Get(tr.states[i], side)[p]);
    DirectedMeets(side, tr.steps[j], tr.steps[i]);
    ResultAnswers(tr.steps[j].event);
    assert Directed(side, tr.steps[j], tr.steps[i]);
  }

  /** Both tables stay within their capacity; after an insert the table holds nothing past the time limit. */
  lemma {:induction false} Bounded(tr: Trace, i: nat, side: Side)
    requires IsRun(tr) && i <= |tr.steps|
    ensures |Get(tr.states[i], side)| <= 4096
    ensures (i > 0 && Records(tr.steps[i - 1], side, tr.steps[i - 1].event.pairId)) ==>
              forall k :: k in Get(tr.states[i], side) ==>
                tr.steps[i - 1].now - Get(tr.states[i], side)[k].enqueuedAt <= 5000
  {
    hide StepRel, Records;
    if i > 0 {
      Bounded(tr, i - 1, side);
      StepOf(tr, i - 1);
      StepBounded(tr.states[i - 1], tr.steps[i - 1], tr.states[i], tr.outs[i - 1], side);
    }
  }

  lemma StepBounded(s: Tables, step: Step, t: Tables, out: Option<PairResult>, side: Side)
    requires StepRel(s, step, t, out) && |Get(s, side)| <= MAX_ENTRIES
    ensures |Get(t, side)| <= MAX_ENTRIES
    ensures Records(step, side, step.event.pairId) ==>
              forall k :: k in Get(t, side) ==> step.now - Get(t, side)[k].enqueuedAt <= TTL_MS
  {
    hide ResultOf;
    RemoveSize(Get(s, side), step.event.pairId);
  }

  // Completeness

  ghost predicate ClockForward(tr: Trace) {
    forall i, j :: 0 <= i < j < |tr.steps| ==> tr.steps[i].now <= tr.steps[j].now
  }

  /** The other pair ids recorded on this side with a stamp not before `since`. */
  ghost function Rivals(tr: Trace, i: nat, side: Side, pairId: int, since: int): set<int> {
    set k | 0 <= k < i && k < |tr.steps| && tr.steps[k].Record?
      && RecordSide(tr.steps[k].event, tr.steps[k].targetUid) == Some(side)
      && tr.steps[k].event.pairId != pairId && tr.steps[k].now >= since :: tr.steps[k].event.pairId
  }

  /** Whoever is still in a table and not older than `since`, besides `pairId`, is a rival. */
  lemma {:induction false} KeptAreRivals(tr: Trace, i: nat, side: Side, pairId: int, since: int)
    requires IsRun(tr) && i <= |tr.steps|
    ensures forall k :: k in Get(tr.states[i], side) && k != pairId && Get(tr.states[i], side)[k].enqueuedAt >= since
              ==> k in Rivals(tr, i, side, pairId, since)
  {
    forall k | k in Get(tr.states[i], side) && k != pairId && Get(tr.states[i], side)[k].enqueuedAt >= since
      ensures k in Rivals(tr, i, side, pairId, since)
    {
      EntriesPut(tr, i, side, k);
      var j :| PutBy(tr, j, i, side, k, Get(tr.states[i], side)[k]);
    }
  }

  /** An entry inside the time limit leaves its table only when at least as many rivals as the table can hold
      have been recorded. */
  lemma NotEvicted(tr: Trace, i: nat, side: Side, pairId: int, entry: Pending)
    requires IsRun(tr) && i < |tr.steps| && pairId in Get(tr.states[i], side)
    requires Get(tr.states[i], side)[pairId] == entry && !Touches(tr.steps[i], side, pairId)
    requires tr.steps[i].now - entry.enqueuedAt <= TTL_MS
    requires |Rivals(tr, i + 1, side, pairId, entry.enqueuedAt)| < MAX_ENTRIES
    ensures pairId in Get(tr.states[i + 1], side) && Get(tr.states[i + 1], side)[pairId] == entry
  {
    hide ResultOf, StepRel, IsRun, Rivals;
    StepOf(tr, i);
    var after := Get(tr.states[i + 1], side);
    if pairId in after {
      EntryStep(tr.states[i], tr.steps[i], tr.states[i + 1], tr.outs[i], side, pairId);
    } else {
      LostOnlyWhenFull(tr.states[i], tr.steps[i], tr.states[i + 1], tr.outs[i], side, pairId);
      FullOfRivals(tr, i + 1, side, pairId, entry.enqueuedAt);
    }
  }

  /** A full table of entries not older than `since`, without `pairId`, takes as many rivals. */
  lemma FullOfRivals(tr: Trace, i: nat, side: Side, pairId: int, since: int)
    requires IsRun(tr) && i <= |tr.steps| && pairId !in Get(tr.states[i], side)
    requires forall k :: k in Get(tr.states[i], side) ==> Get(tr.states[i], side)[k].enqueuedAt >= since
    ensures |Get(tr.states[i], side)| <= |Rivals(tr, i, side, pairId, since)|
  {
    hide Rivals, StepRel;
    var t := Get(tr.states[i], side);
    KeptAreRivals(tr, i, side, pairId, since);
    forall k | k in t.Keys ensures k in Rivals(tr, i, side, pairId, since) { assert k in t; }
    SubsetSize(t.Keys, Rivals(tr, i, side, pairId, since));
    assert |t.Keys| == |t|;
  }

  lemma LostOnlyWhenFull(s: Tables, step: Step, t: Tables, out: Option<PairResult>, side: Side, pairId: int)
    requires StepRel(s, step, t, out) && !Touches(step, side, pairId)
    requires pairId in Get(s, side) && pairId !in Get(t, side) && step.now - Get(s, side)[pairId].enqueuedAt <= TTL_MS
    ensures |Get(t, side)| == MAX_ENTRIES
    ensures forall k :: k in Get(t, side) ==> Get(t, side)[k].enqueuedAt >= Get(s, side)[pairId].enqueuedAt
  {
    hide ResultOf;
    var e := step.event;
    var young := Fresh(Get(s, side)[e.pairId := Pending(ResultOf(e), step.now)], step.now);
    assert pairId in young;
    if |young| <= MAX_ENTRIES { SameKeys(Get(t, side), young); }
  }

  lemma SameKeys(a: Table, b: Table)
    requires SubTable(a, b) && |a| == |b|
    ensures a.Keys == b.Keys
  {
    assert forall k :: k in a.Keys ==> k in a && k in b.Keys;
    assert |a.Keys| == |a| && |b.Keys| == |b|;
    assert |b.Keys - a.Keys| == 0;
    assert b.Keys - a.Keys == {};
  }

  lemma {:induction false} StaysPut(tr: Trace, j: nat, i: nat, side: Side, pairId: int)
    requires IsRun(tr) && ClockForward(tr) && j < i <= |tr.steps| && Records(tr.steps[j], side, pairId)
    requires Untouched(tr, j, i, side, pairId) && (i < |tr.steps| ==> tr.steps[i].now - tr.steps[j].now <= TTL_MS)
    requires tr.steps[i - 1].now - tr.steps[j].now <= TTL_MS
    requires |Rivals(tr, i, side, pairId, tr.steps[j].now)| < MAX_ENTRIES
    ensures pairId in Get(tr.states[i], side)
    ensures Get(tr.states[i], side)[pairId] == Pending(ResultOf(tr.steps[j].event), tr.steps[j].now)
    decreases i
  {
    hide ResultOf, Rivals;
    if i == j + 1 {
      JustPut(tr, j, side, pairId);
    } else {
      MoreRivals(tr, i - 1, i, side, pairId, tr.steps[j].now);
      assert tr.steps[i - 2].now <= tr.steps[i - 1].now;
      StaysPut(tr, j, i - 1, side, pairId);
      NotEvicted(tr, i - 1, side, pairId, Get(tr.states[i - 1], side)[pairId]);
    }
  }

  lemma MoreRivals(tr: Trace, a: nat, b: nat, side: Side, pairId: int, since: int)
    requires a <= b
    ensures |Rivals(tr, a, side, pairId, since)| <= |Rivals(tr, b, side, pairId, since)|
  {
    SubsetSize(Rivals(tr, a, side, pairId, since), Rivals(tr, b, side, pairId, since));
  }

  lemma JustPut(tr: Trace, j: nat, side: Side, pairId: int)
    requires IsRun(tr) && j < |tr.steps| && Records(tr.steps[j], side, pairId)
    requires |Rivals(tr, j + 1, side, pairId, tr.steps[j].now)| < MAX_ENTRIES
    ensures pairId in Get(tr.states[j + 1], side)
    ensures Get(tr.states[j + 1], side)[pairId] == Pending(ResultOf(tr.steps[j].event), tr.steps[j].now)
  {
    hide ResultOf, Rivals, IsRun;
    StepOf(tr, j);
    var now, after := tr.steps[j].now, Get(tr.states[j + 1], side);
    var young := Fresh(Get(tr.states[j], side)[pairId := Pending(ResultOf(tr.steps[j].event), now)], now);
    assert pairId in young;
    if pairId !in after {
      if |young| <= MAX_ENTRIES { SameKeys(after, young); }
      FullOfRivals(tr, j + 1, side, pairId, now);
    }
  }

  /** A request is always matched by a reply in its direction within the time limit, if its pair id was not recorded
      again or consumed in between and fewer than 4096 other requests of its side are as young. */
  lemma DirectedMatched(tr: Trace, j: nat, i: nat, side: Side)
    requires IsRun(tr) && ClockForward(tr) && j < i < |tr.steps| && Directed(side, tr.steps[j], tr.steps[i])
    requires Untouched(tr, j, i, side, tr.steps[j].event.pairId) && tr.steps[i].now - tr.steps[j].now <= TTL_MS
    requires |Rivals(tr, i, side, tr.steps[j].event.pairId, tr.steps[j].now)| < MAX_ENTRIES
    ensures tr.outs[i].Some? && Answers(tr.outs[i].value, tr.steps[j].event)
  {
    hide ResultOf, Rivals, Untouched, Answers;
    DirectedMeets(side, tr.steps[j], tr.steps[i]);
    assert tr.steps[i - 1].now <= tr.steps[i].now;
    StaysPut(tr, j, i, side, tr.steps[j].event.pairId);
    ResultAnswers(tr.steps[j].event);
    assert StepRel(tr.states[i], tr.steps[i], tr.states[i + 1], tr.outs[i]);
  }

  /** An outgoing request: the monitored uid sent it, and receives the reply or at least is not its sender. */
  lemma OutgoingMatched(tr: Trace, j: nat, i: nat)
    requires IsRun(tr) && ClockForward(tr) && j < i < |tr.steps|
    requires tr.steps[j].Record? && tr.steps[i].Match?
    requires var q, r, target := tr.steps[j].event, tr.steps[i].event, tr.steps[i].targetUid;
             && tr.steps[j].targetUid == target > 0 && !q.isReply && q.uid == target && q.pairId != 0
             && r.isReply && (r.uid != target || r.toUid == target) && r.pairId == q.pairId
             && Untouched(tr, j, i, Client, q.pairId)
             && |Rivals(tr, i, Client, q.pairId, tr.steps[j].now)| < 4096
    requires tr.steps[i].now - tr.steps[j].now <= 5000
    ensures tr.outs[i].Some? && Answers(tr.outs[i].value, tr.steps[j].event)
  {
    hide Rivals, Untouched, Answers;
    DirectedMatched(tr, j, i, Client);
  }

  /** An incoming request: another uid sent it to the monitored one, which sends the reply back. */
  lemma IncomingMatched(tr: Trace, j: nat, i: nat)
    requires IsRun(tr) && ClockForward(tr) && j < i < |tr.steps|
    requires tr.steps[j].Record? && tr.steps[i].Match?
    requires var q, r, target := tr.steps[j].event, tr.steps[i].event, tr.steps[i].targetUid;
             && tr.steps[j].targetUid == target > 0 && !q.isReply && q.uid != target == q.toUid && q.pairId != 0
             && r.isReply && r.uid == target != r.toUid && r.pairId == q.pairId
             && Untouched(tr, j, i, Server, q.pairId)
             && |Rivals(tr, i, Server, q.pairId, tr.steps[j].now)| < 4096
    requires tr.steps[i].now - tr.steps[j].now <= 5000
    ensures tr.outs[i].Some? && Answers(tr.outs[i].value, tr.steps[j].event)
  {
    hide Rivals, Untouched, Answers;
    DirectedMatched(tr, j, i, Server);
  }
}

/** The pairer with its two tables updated in place. */
module Pairer {
  import opened Types
  import opened Finite
  import opened PairerModel

  lemma HasElement(s: set<int>)
    requires s != {}
    ensures exists k :: k in s
  {
    assert (forall k :: k !in s) ==> s == {};
  }

  /** The time-limit scan over the table's entries. */
  method RemoveExpired(table: Table, now: int) returns (t: Table)
    ensures t == Fresh(table, now)
  {
    t := table;
    var cutoff := now - TTL_MS;
    var left := table.Keys;
    while left != {}
      invariant left <= table.Keys
      invariant t == map k | k in table && (k in left || table[k].enqueuedAt >= cutoff) :: table[k]
      decreases |left|
    {
      HasElement(left);
      var k :| k in left;
      left := left - {k};
      if table[k].enqueuedAt < cutoff { t := t - {k}; }
    }
  }

  /** The oldest entry: the head of the list sorted by age. */
  method Oldest(table: Table) returns (k: int)
    requires table != map[]
    ensures k in table && forall j :: j in table ==> table[k].enqueuedAt <= table[j].enqueuedAt
  {
    var left := table.Keys;
    assert |left| == |table| > 0;
    HasElement(left);
    k :| k in left;
    left := left - {k};
    while left != {}
      invariant left <= table.Keys && k in table
      invariant forall j :: j in table && j !in left ==> table[k].enqueuedAt <= table[j].enqueuedAt
      decreases |left|
    {
      HasElement(left);
      var j :| j in left;
      left := left - {j};
      if table[j].enqueuedAt < table[k].enqueuedAt { k := j; }
    }
  }

  /** Removing the oldest entries one by one until the table is within its capacity. */
  method EvictExcess(table: Table) returns (t: Table)
    ensures Youngest(table, t)
  {
    t := table;
    while |t| > MAX_ENTRIES
      invariant SubTable(t, table) && Min(|table|, MAX_ENTRIES) <= |t| <= |table|
      invariant forall k, j :: k in table && k !in t && j in t ==> table[k].enqueuedAt <= t[j].enqueuedAt
      decreases |t|
    {
      var k := Oldest(t);
      RemoveSize(t, k);
      t := t - {k};
    }
  }

  class TransactionPairer {
    var clientRequests: Table
    var serverRequests: Table

    ghost function View(): Tables
      reads this
    {
      Tables(clientRequests, serverRequests)
    }

    constructor ()
      ensures View() == Tables(map[], map[])
    {
      clientRequests, serverRequests := map[], map[];
    }

    method PutAndEvict(table: Table, pairId: int, entry: Pending, now: int) returns (t: Table)
      ensures Youngest(Fresh(table[pairId := entry], now), t)
    {
      var kept := RemoveExpired(table[pairId := entry], now);
      t := EvictExcess(kept);
    }

    method RecordRequest(event: Event, targetUid: int, now: int)
      modifies this
      ensures StepRel(old(View()), Record(event, targetUid, now), View(), None)
    {
      hide ResultOf, Youngest;
      if event.isReply || event.pairId == 0 || targetUid <= 0 { return; }
      var senderHit := event.uid == targetUid;
      var toHit := event.toUid != 0 && event.toUid == targetUid;
      if !senderHit && !toHit { return; }
      var entry := Pending(ResultOf(event), now);
      if senderHit {
        clientRequests := PutAndEvict(clientRequests, event.pairId, entry, now);
      } else {
        serverRequests := PutAndEvict(serverRequests, event.pairId, entry, now);
      }
    }

    method TryMatchReply(event: Event, targetUid: int, now: int) returns (r: Option<PairResult>)
      modifies this
      ensures StepRel(old(View()), Match(event, targetUid, now), View(), r)
    {
      if !event.isReply || event.pairId == 0 || targetUid <= 0 { return None; }
      var senderHit := event.uid == targetUid;
      var toHit := event.toUid != 0 && event.toUid == targetUid;
      var table := if !toHit && senderHit then serverRequests else clientRequests;
      if !toHit && senderHit {
        serverRequests := serverRequests - {event.pairId};
      } else {
        clientRequests := clientRequests - {event.pairId};
      }
      if event.pairId !in table || now - table[event.pairId].enqueuedAt > TTL_MS { return None; }
      return Some(table[event.pairId].result);
    }
  }
}
