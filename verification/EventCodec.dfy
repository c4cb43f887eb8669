/** The daemon's event encoding: a 60-byte header, the parcel, and an optional stack trace TLV. */
module EventCodec {
  import opened Types
  import opened Wire

  const VERSION: u8 := 2
  const HEADER_LEN: nat := 60
  const HAS_STACK_TLV: u8 := 1
  const TLV_STACK_TRACE: u8 := 1
  const TLV_HEADER_LEN: nat := 5

  // Stack traces

  /** Lengths and counts are written in 16 bits. */
  function FrameBytes(f: StackFrame): Bytes {
    Be(f.pc, 8) + Be(|f.moduleName|, 2) + Be(|f.symbol|, 2) + Be(f.offset, 8) + f.moduleName + f.symbol
  }

  function FramesBytes(fs: seq<StackFrame>): Bytes {
    if fs == [] then [] else FrameBytes(fs[0]) + FramesBytes(fs[1..])
  }

  function StackHeader(st: StackTrace): (b: Bytes)
    ensures |b| == 8
  {
    [st.quality, st.truncated, 0, 0] + Be(|st.kFrames|, 2) + Be(|st.uFrames|, 2)
  }

  function StackBytes(st: StackTrace): Bytes {
    StackHeader(st) + FramesBytes(st.kFrames) + FramesBytes(st.uFrames)
    + Be(|st.failureReason|, 2) + st.failureReason
  }

  function ParseFrame(data: Bytes, off: nat): (r: Option<(StackFrame, nat)>)
    requires off <= |data|
    ensures r.Some? ==> off < r.value.1 <= |data|
  {
    if off + 20 > |data| then None else
    var m, s := U16At(data, off + 8), U16At(data, off + 10);
    if off + 20 + m + s > |data| then None
    else Some((StackFrame(U64At(data, off), data[off + 20..off + 20 + m],
                          data[off + 20 + m..off + 20 + m + s], U64At(data, off + 12)), off + 20 + m + s))
  }

  function ParseFrames(data: Bytes, off: nat, count: nat): (r: Option<(seq<StackFrame>, nat)>)
    requires off <= |data|
    ensures r.Some? ==> off <= r.value.1 <= |data| && |r.value.0| == count
    decreases count
  {
    if count == 0 then Some(([], off)) else
    match ParseFrame(data, off)
    case None => None
    case Some((f, next)) =>
      match ParseFrames(data, next, count - 1)
      case None => None
      case Some((fs, end)) => Some(([f] + fs, end))
  }

  function ParseReason(data: Bytes, off: nat): Bytes
    requires off <= |data|
  {
    if off + 2 > |data| then [] else
    var n := U16At(data, off);
    if n > 0 && off + 2 + n <= |data| then data[off + 2..off + 2 + n] else []
  }

  function DecodeStack(data: Bytes): Option<StackTrace> {
    if |data| < 8 then None else
    match ParseFrames(data, 8, U16At(data, 4))
    case None => None
    case Some((ks, off)) =>
      match ParseFrames(data, off, U16At(data, 6))
      case None => None
      case Some((us, end)) => Some(StackTrace(data[0], data[1], ks, us, ParseReason(data, end)))
  }

  // Events

  function Tlv(stack: Option<StackTrace>): Bytes {
    match stack
    case None => []
    case Some(st) => [TLV_STACK_TRACE] + Be(|StackBytes(st)|, 4) + StackBytes(st)
  }

  function Header(e: BinderEvent): (b: Bytes)
    ensures |b| == HEADER_LEN
  {
    [VERSION, if e.stack.Some? then HAS_STACK_TLV else 0, 0, 0] + Be(ToU64(e.timestamp), 8)
    + Be(e.pid, 4) + Be(e.uid, 4) + Be(e.code, 4) + Be(e.flags, 4) + Be(|e.parcel|, 4)
    + [e.isReply, e.binderDev, e.targetKind, 0] + Be(e.toPid, 4) + Be(e.toUid, 4)
    + Be(e.targetRef, 8) + Be(e.pairId, 8)
  }

  function EventBytes(e: BinderEvent): Bytes { Header(e) + e.parcel + Tlv(e.stack) }

  /** Which fail-open counter a decoder bumps. */
  datatype Guard = NoGuard | HeaderTooShort | ParcelTruncated | TlvHeaderTruncated | TlvOverflow

  datatype Decoded = Event(event: BinderEvent) | FailOpen | UnsupportedVersion

  function DecodeTlv(data: Bytes, baseEnd: nat): (Option<StackTrace>, Guard)
    requires HEADER_LEN <= baseEnd <= |data|
  {
    if data[1] % 2 != HAS_STACK_TLV then (None, NoGuard)
    else if |data| < baseEnd + TLV_HEADER_LEN then (None, TlvHeaderTruncated)
    else if data[baseEnd] != TLV_STACK_TRACE then (None, NoGuard)
    else
      var n := U32At(data, baseEnd + 1);
      if n > |data| - baseEnd - TLV_HEADER_LEN then (None, TlvOverflow)
      else (DecodeStack(data[baseEnd + TLV_HEADER_LEN..baseEnd + TLV_HEADER_LEN + n]), NoGuard)
  }

  function DecodeBase(data: Bytes, baseEnd: nat, stack: Option<StackTrace>): BinderEvent
    requires HEADER_LEN <= baseEnd <= |data|
  {
    BinderEvent(ToI64(U64At(data, 4)), U32At(data, 12), U32At(data, 16), U32At(data, 20), U32At(data, 24),
                U32At(data, 28), data[32], data[33], data[34], U32At(data, 36), U32At(data, 40),
                U64At(data, 44), U64At(data, 52), data[HEADER_LEN..baseEnd], stack)
  }

  /** DecodeBinderEvent. */
  function Decode(data: Bytes): (Decoded, Guard) {
    if |data| < HEADER_LEN then (FailOpen, HeaderTooShort)
    else if data[0] != VERSION then (UnsupportedVersion, NoGuard)
    else
      var baseEnd := HEADER_LEN + U32At(data, 28);
      if |data| < baseEnd then (FailOpen, ParcelTruncated)
      else
        var (stack, guard) := DecodeTlv(data, baseEnd);
        (Event(DecodeBase(data, baseEnd, stack)), guard)
  }

  // Round trip of stack traces

  ghost predicate FitsFrame(f: StackFrame) { |f.moduleName| < 0x1_0000 && |f.symbol| < 0x1_0000 }

  ghost predicate FitsStack(st: StackTrace) {
    && |st.kFrames| < 0x1_0000 && |st.uFrames| < 0x1_0000 && |st.failureReason| < 0x1_0000
    && (forall f :: f in st.kFrames ==> FitsFrame(f)) && (forall f :: f in st.uFrames ==> FitsFrame(f))
  }

  lemma FrameRoundTrip(pre: Bytes, f: StackFrame, post: Bytes)
    requires FitsFrame(f)
    ensures ParseFrame(pre + FrameBytes(f) + post, |pre|) == Some((f, |pre| + |FrameBytes(f)|))
  {
    hide Be, Num, U16At, U64At;
    var data, o := pre + FrameBytes(f) + post, |pre| + 20;
    FrameNumbers(pre, f, post);
    assert data[o..o + |f.moduleName|] == f.moduleName;
    assert data[o + |f.moduleName|..o + |f.moduleName| + |f.symbol|] == f.symbol;
  }

  lemma FrameNumbers(pre: Bytes, f: StackFrame, post: Bytes)
    requires FitsFrame(f)
    ensures var data := pre + FrameBytes(f) + post;
            && U64At(data, |pre|) == f.pc && U16At(data, |pre| + 8) == |f.moduleName|
            && U16At(data, |pre| + 10) == |f.symbol| && U64At(data, |pre| + 12) == f.offset
  {
    hide Be, Num;
    var data := pre + FrameBytes(f) + post;
    Pow256s();
    PartAt(data, |pre|, f.pc, 8);
    PartAt(data, |pre| + 8, |f.moduleName|, 2);
    PartAt(data, |pre| + 10, |f.symbol|, 2);
    PartAt(data, |pre| + 12, f.offset, 8);
  }

  lemma {:induction false} FramesRoundTrip(pre: Bytes, fs: seq<StackFrame>, post: Bytes)
    requires forall f :: f in fs ==> FitsFrame(f)
    ensures ParseFrames(pre + FramesBytes(fs) + post, |pre|, |fs|) == Some((fs, |pre| + |FramesBytes(fs)|))
    decreases |fs|
  {
    hide FrameBytes, ParseFrame;
    var data := pre + FramesBytes(fs) + post;
    if fs != [] {
      var rest := FramesBytes(fs[1..]);
      assert data == pre + FrameBytes(fs[0]) + (rest + post);
      FrameRoundTrip(pre, fs[0], rest + post);
      assert data == (pre + FrameBytes(fs[0])) + rest + post;
      FramesRoundTrip(pre + FrameBytes(fs[0]), fs[1..], post);
      assert [fs[0]] + fs[1..] == fs;
    }
  }

  lemma ReasonRoundTrip(pre: Bytes, reason: Bytes)
    requires |reason| < 0x1_0000
    ensures ParseReason(pre + Be(|reason|, 2) + reason, |pre|) == reason
  {
    hide Be, Num;
    Pow256s();
    FieldOf(pre, |reason|, 2, reason);
  }

  /** Decoding an encoded stack trace gives it back. */
  lemma StackRoundTrip(st: StackTrace)
    requires FitsStack(st)
    ensures DecodeStack(StackBytes(st)) == Some(st)
  {
    hide Be, Num, FramesBytes, ParseFrames, ParseReason, U16At;
    var data := StackBytes(st);
    var head, ks, us := StackHeader(st), FramesBytes(st.kFrames), FramesBytes(st.uFrames);
    var tail := Be(|st.failureReason|, 2) + st.failureReason;
    assert data == head + ks + (us + tail);
    CountsRoundTrip(st, ks + us + tail);
    assert data == head + (ks + us + tail);
    FramesRoundTrip(head, st.kFrames, us + tail);
    assert data == (head + ks) + us + tail;
    FramesRoundTrip(head + ks, st.uFrames, tail);
    assert data == (head + ks + us) + Be(|st.failureReason|, 2) + st.failureReason;
    ReasonRoundTrip(head + ks + us, st.failureReason);
  }

  lemma CountsRoundTrip(st: StackTrace, rest: Bytes)
    requires FitsStack(st)
    ensures var data := StackHeader(st) + rest;
            && data[0] == st.quality && data[1] == st.truncated
            && U16At(data, 4) == |st.kFrames| && U16At(data, 6) == |st.uFrames|
  {
    hide Be, Num;
    Pow256s();
    var q := [st.quality, st.truncated, 0, 0];
    assert StackHeader(st) + rest == q + Be(|st.kFrames|, 2) + (Be(|st.uFrames|, 2) + rest);
    FieldOf(q, |st.kFrames|, 2, Be(|st.uFrames|, 2) + rest);
    assert StackHeader(st) + rest == (q + Be(|st.kFrames|, 2)) + Be(|st.uFrames|, 2) + rest;
    FieldOf(q + Be(|st.kFrames|, 2), |st.uFrames|, 2, rest);
  }

  // Round trip of events

  /** What the wire format can carry. */
  ghost predicate Fits(e: BinderEvent) {
    && e.dataSize == |e.parcel|
    && (e.stack.Some? ==> FitsStack(e.stack.value) && |StackBytes(e.stack.value)| < 0x1_0000_0000)
  }

  /** Every number of the header is where the decoder looks for it, whatever follows the header. */
  lemma HeaderRoundTrip(e: BinderEvent, rest: Bytes)
    requires |e.parcel| < 0x1_0000_0000
    ensures var data := Header(e) + rest;
            && U64At(data, 4) == ToU64(e.timestamp) && U32At(data, 12) == e.pid && U32At(data, 16) == e.uid
            && U32At(data, 20) == e.code && U32At(data, 24) == e.flags && U32At(data, 28) == |e.parcel|
            && U32At(data, 36) == e.toPid && U32At(data, 40) == e.toUid
            && U64At(data, 44) == e.targetRef && U64At(data, 52) == e.pairId
            && data[0] == 2 && data[1] == (if e.stack.Some? then 1 else 0) && data[2] == data[3] == data[35] == 0
            && data[32] == e.isReply && data[33] == e.binderDev && data[34] == e.targetKind
  {
    hide Be, Num, U32At, U64At;
    HeaderFront(e, rest);
    HeaderBack(e, rest);
  }

  lemma HeaderFront(e: BinderEvent, rest: Bytes)
    requires |e.parcel| < 0x1_0000_0000
    ensures var data := Header(e) + rest;
            && U64At(data, 4) == ToU64(e.timestamp) && U32At(data, 12) == e.pid && U32At(data, 16) == e.uid
            && U32At(data, 20) == e.code && U32At(data, 24) == e.flags && U32At(data, 28) == |e.parcel|
  {
    hide Be, Num;
    Pow256s();
    var data := Header(e) + rest;
    PartAt(data, 4, ToU64(e.timestamp), 8);
    PartAt(data, 12, e.pid, 4);
    PartAt(data, 16, e.uid, 4);
    PartAt(data, 20, e.code, 4);
    PartAt(data, 24, e.flags, 4);
    PartAt(data, 28, |e.parcel|, 4);
  }

  lemma HeaderBack(e: BinderEvent, rest: Bytes)
    requires |e.parcel| < 0x1_0000_0000
    ensures var data := Header(e) + rest;
            && U32At(data, 36) == e.toPid && U32At(data, 40) == e.toUid
            && U64At(data, 44) == e.targetRef && U64At(data, 52) == e.pairId
  {
    hide Be, Num;
    Pow256s();
    var data := Header(e) + rest;
    PartAt(data, 36, e.toPid, 4);
    PartAt(data, 40, e.toUid, 4);
    PartAt(data, 44, e.targetRef, 8);
    PartAt(data, 52, e.pairId, 8);
  }

  lemma TlvRoundTrip(data: Bytes, baseEnd: nat, stack: Option<StackTrace>)
    requires HEADER_LEN <= baseEnd <= |data| && data[baseEnd..] == Tlv(stack)
    requires data[1] == if stack.Some? then HAS_STACK_TLV else 0
    requires stack.Some? ==> FitsStack(stack.value) && |StackBytes(stack.value)| < 0x1_0000_0000
    ensures DecodeTlv(data, baseEnd) == (stack, NoGuard)
  {
    hide Be, Num, StackBytes, DecodeStack;
    if stack.Some? {
      var b := StackBytes(stack.value);
      Pow256s();
      assert data[baseEnd + 1..baseEnd + 5] == data[baseEnd..][1..5] == Be(|b|, 4);
      PartAt(data, baseEnd + 1, |b|, 4);
      assert data[baseEnd + 5..baseEnd + 5 + |b|] == data[baseEnd..][5..] == b;
      StackRoundTrip(stack.value);
    }
  }

  /** Decoding an encoded event gives it back, and no guard fires. */
  lemma EventRoundTrip(e: BinderEvent)
    requires Fits(e)
    ensures Decode(EventBytes(e)) == (Event(e), NoGuard)
  {
    hide Be, Num, U32At, U64At, Tlv, DecodeTlv, FitsStack, StackBytes;
    var data := EventBytes(e);
    assert data == Header(e) + (e.parcel + Tlv(e.stack));
    HeaderRoundTrip(e, e.parcel + Tlv(e.stack));
    var baseEnd := HEADER_LEN + |e.parcel|;
    assert data[HEADER_LEN..baseEnd] == e.parcel;
    assert data[baseEnd..] == Tlv(e.stack);
    TlvRoundTrip(data, baseEnd, e.stack);
  }

  /** The event without its stack depends only on header and parcel: whatever follows the parcel,
      the base event is the same and is never lost. */
  lemma FailsOpen(data: Bytes, other: Bytes)
    requires HEADER_LEN <= |data| && HEADER_LEN <= |other|
    requires var n := HEADER_LEN + U32At(data, 28);
             n <= |data| && n <= |other| && data[..n] == other[..n]
    ensures Decode(data).0.Event? <==> Decode(other).0.Event?
    ensures Decode(data).0.Event? ==>
              Decode(data).0.event.(stack := None) == Decode(other).0.event.(stack := None)
  {
    hide Num, DecodeTlv, U32At, U64At;
    var n := HEADER_LEN + U32At(data, 28);
    SameNumbers(data, other, n);
    assert data[0] == data[..n][0] && other[0] == other[..n][0];
    assert data[32] == data[..n][32] && data[33] == data[..n][33] && data[34] == data[..n][34];
    assert other[32] == other[..n][32] && other[33] == other[..n][33] && other[34] == other[..n][34];
    assert data[HEADER_LEN..n] == data[..n][HEADER_LEN..] && other[HEADER_LEN..n] == other[..n][HEADER_LEN..];
  }

  /** The guard chain: which guard fires on which payload, and what is still delivered. Only the first two cost the
      event; behind them the event comes without its stack. */
  lemma GuardsExact(data: Bytes)
    ensures Decode(data).1 == HeaderTooShort <==> |data| < 60
    ensures Decode(data).0 == UnsupportedVersion <==> |data| >= 60 && data[0] != 2
    ensures Decode(data).0.Event? <==> |data| >= 60 && data[0] == 2 && |data| >= 60 + U32At(data, 28)
    ensures Decode(data).1 == ParcelTruncated <==> |data| >= 60 && data[0] == 2 && |data| < 60 + U32At(data, 28)
    ensures Decode(data).0.Event? ==>
              var end, (r, guard) := 60 + U32At(data, 28), Decode(data);
              && r.event.parcel == data[60..end]
              && (guard == TlvHeaderTruncated <==> data[1] % 2 == 1 && |data| < end + 5)
              && (guard == TlvOverflow <==>
                    data[1] % 2 == 1 && |data| >= end + 5 && data[end] == 1 && |data| < end + 5 + U32At(data, end + 1))
              && (guard != NoGuard || data[1] % 2 == 0 || data[end] != 1 ==> r.event.stack == None)
              && (guard == NoGuard && data[1] % 2 == 1 && data[end] == 1 ==>
                    r.event.stack == DecodeStack(data[end + 5..end + 5 + U32At(data, end + 1)]))
  {
    hide Num, DecodeStack;
  }

  lemma SameField(data: Bytes, other: Bytes, n: nat, off: nat, w: nat)
    requires off + w <= n <= |data| && n <= |other| && data[..n] == other[..n]
    ensures Field(data, off, w) == Field(other, off, w)
  {
    assert data[off..off + w] == data[..n][off..off + w] && other[off..off + w] == other[..n][off..off + w];
  }

  lemma SameNumbers(data: Bytes, other: Bytes, n: nat)
    requires HEADER_LEN <= n <= |data| && n <= |other| && data[..n] == other[..n]
    ensures U64At(data, 4) == U64At(other, 4) && U32At(data, 12) == U32At(other, 12)
    ensures U32At(data, 16) == U32At(other, 16) && U32At(data, 20) == U32At(other, 20)
    ensures U32At(data, 24) == U32At(other, 24) && U32At(data, 28) == U32At(other, 28)
    ensures U32At(data, 36) == U32At(other, 36) && U32At(data, 40) == U32At(other, 40)
    ensures U64At(data, 44) == U64At(other, 44) && U64At(data, 52) == U64At(other, 52)
  {
    hide Field;
    SameField(data, other, n, 4, 8);
    SameField(data, other, n, 12, 4);
    SameField(data, other, n, 16, 4);
    SameField(data, other, n, 20, 4);
    SameField(data, other, n, 24, 4);
    SameField(data, other, n, 28, 4);
    SameField(data, other, n, 36, 4);
    SameField(data, other, n, 40, 4);
    SameField(data, other, n, 44, 8);
    SameField(data, other, n, 52, 8);
  }

  // Exactness of the round trip

  lemma {:induction false} ParsedSize(data: Bytes, off: nat, count: nat)
    requires off <= |data| && ParseFrames(data, off, count).Some?
    ensures var (fs, end) := ParseFrames(data, off, count).value;
            (forall f :: f in fs ==> FitsFrame(f)) && end == off + |FramesBytes(fs)|
    decreases count
  {
    hide U16At, U64At;
    if count > 0 {
      var (f, next) := ParseFrame(data, off).value;
      ParsedSize(data, next, count - 1);
      var (fs, end) := ParseFrames(data, next, count - 1).value;
      assert ([f] + fs)[1..] == fs;
    }
  }

  /** What the stack decoder returns fits, and its encoding is at most the two bytes of an
      absent reason length longer than what was read. */
  lemma DecodedStackFits(data: Bytes)
    requires DecodeStack(data).Some?
    ensures var st := DecodeStack(data).value; FitsStack(st) && |StackBytes(st)| < |data| + 2 + 0x1_0000
  {
    hide ParseFrames, FramesBytes, FitsFrame, Be;
    ParsedSize(data, 8, U16At(data, 4));
    var (ks, off) := ParseFrames(data, 8, U16At(data, 4)).value;
    ParsedSize(data, off, U16At(data, 6));
  }

  lemma DecodedFits(data: Bytes)
    requires Decode(data).0.Event?
    ensures var e := Decode(data).0.event;
            e.dataSize == |e.parcel| && (e.stack.Some? ==> FitsStack(e.stack.value))
  {
    hide DecodeStack, FitsStack, U64At, U16At;
    var baseEnd := HEADER_LEN + U32At(data, 28);
    if DecodeTlv(data, baseEnd).0.Some? {
      DecodedStackFits(data[baseEnd + TLV_HEADER_LEN..baseEnd + TLV_HEADER_LEN + U32At(data, baseEnd + 1)]);
    }
  }

  /** A stack whose encoding has 2^32 bytes or more does not come back: the 32-bit length cuts
      away more than a whole reason. */
  lemma LongStackLost(data: Bytes, baseEnd: nat, st: StackTrace)
    requires HEADER_LEN <= baseEnd <= |data| && data[baseEnd..] == Tlv(Some(st))
    requires FitsStack(st) && |StackBytes(st)| >= 0x1_0000_0000
    ensures DecodeTlv(data, baseEnd).0 != Some(st)
  {
    hide Be, Num, FitsStack, DecodeStack, FramesBytes;
    var b := StackBytes(st);
    var n := U32At(data, baseEnd + 1);
    assert data[baseEnd + 1..baseEnd + 5] == data[baseEnd..][1..5] == Be(|b|, 4);
    BeMod(|b|, 4);
    Pow256s();
    assert n == |b| % 0x1_0000_0000 <= |b| - 0x1_0000_0000;
    var inner := data[baseEnd + 5..baseEnd + 5 + n];
    if DecodeStack(inner).Some? { DecodedStackFits(inner); }
  }

  /** The wire format carries exactly the events that fit it. */
  lemma RoundTripIffFits(e: BinderEvent)
    ensures Decode(EventBytes(e)).0 == Event(e) <==> Fits(e)
  {
    hide Be, Num, Decode, FitsStack, StackBytes;
    if Fits(e) { EventRoundTrip(e); }
    if Decode(EventBytes(e)).0 == Event(e) { BackMeansFits(e); }
  }

  function NamedEvent(symbol: Bytes): BinderEvent {
    var frame := StackFrame(0, [], symbol, 0);
    BinderEvent(0, 0, 0, 0, 0, 0, 0, 0, 0, 0, 0, 0, 0, [], Some(StackTrace(0, 0, [], [frame], [])))
  }

  /** An event with a symbol name of 65536 bytes or more does not come back. */
  lemma LongNameLost(symbol: Bytes)
    requires |symbol| >= 0x1_0000
    ensures Decode(EventBytes(NamedEvent(symbol))).0 != Event(NamedEvent(symbol))
  {
    hide Decode, EventBytes, StackBytes;
    var e := NamedEvent(symbol);
    RoundTripIffFits(e);
    assert e.stack.value.uFrames[0] in e.stack.value.uFrames;
  }

  lemma DecodedStack(data: Bytes)
    requires Decode(data).0.Event?
    ensures |data| >= HEADER_LEN && HEADER_LEN + U32At(data, 28) <= |data|
    ensures Decode(data).0.event.stack == DecodeTlv(data, HEADER_LEN + U32At(data, 28)).0
  {
    hide Num, DecodeTlv;
  }

  lemma BackMeansFits(e: BinderEvent)
    requires Decode(EventBytes(e)).0 == Event(e)
    ensures Fits(e)
  {
    hide Be, Num, FitsStack, StackBytes, DecodeTlv, Tlv, U64At, U32At, Decode;
    var data := EventBytes(e);
    DecodedFits(data);
    DecodedStack(data);
    if e.stack.Some? && |StackBytes(e.stack.value)| >= 0x1_0000_0000 {
      var baseEnd := HEADER_LEN + |e.parcel|;
      assert data == Header(e) + (e.parcel + Tlv(e.stack));
      HeaderRoundTrip(e, e.parcel + Tlv(e.stack));
      assert data[baseEnd..] == Tlv(e.stack);
      LongStackLost(data, baseEnd, e.stack.value);
    }
  }
}

/** The loops and in-place writes of the daemon's codec. */
module CodecMethods {
  import opened Types
  import opened Wire
  import opened EventCodec

  /** The big-endian stores of encoding/binary. */
  method Put(buf: array<u8>, off: nat, v: nat, n: nat)
    requires off + n <= buf.Length
    modifies buf
    ensures buf[..off + n] == old(buf[..off]) + Be(v, n)
    ensures buf[off + n..] == old(buf[off + n..])
  {
    var bytes := Be(v, n);
    Copy(buf, off, bytes);
  }

  method Copy(buf: array<u8>, off: nat, bytes: Bytes)
    requires off + |bytes| <= buf.Length
    modifies buf
    ensures buf[..off + |bytes|] == old(buf[..off]) + bytes
    ensures buf[off + |bytes|..] == old(buf[off + |bytes|..])
  {
    for i := 0 to |bytes|
      invariant buf[..off + i] == old(buf[..off]) + bytes[..i]
      invariant buf[off + i..] == old(buf[off + i..])
    {
      var rest := buf[off + i..];
      buf[off + i] := bytes[i];
      assert buf[off + i + 1..] == rest[1..];
      assert bytes[..i + 1] == bytes[..i] + [bytes[i]];
    }
    assert bytes[..|bytes|] == bytes;
  }

  /** EncodeStackTraceTLV appends frame after frame. */
  method EncodeStack(st: StackTrace) returns (buf: Bytes)
    ensures buf == StackBytes(st)
  {
    hide FrameBytes, Be;
    buf := StackHeader(st);
    for i := 0 to |st.kFrames|
      invariant buf + FramesBytes(st.kFrames[i..]) == StackHeader(st) + FramesBytes(st.kFrames)
    {
      assert st.kFrames[i..][1..] == st.kFrames[i + 1..];
      buf := buf + FrameBytes(st.kFrames[i]);
    }
    assert buf == StackHeader(st) + FramesBytes(st.kFrames);
    ghost var front := buf;
    for i := 0 to |st.uFrames|
      invariant buf + FramesBytes(st.uFrames[i..]) == front + FramesBytes(st.uFrames)
    {
      assert st.uFrames[i..][1..] == st.uFrames[i + 1..];
      buf := buf + FrameBytes(st.uFrames[i]);
    }
    assert buf == front + FramesBytes(st.uFrames);
    buf := buf + Be(|st.failureReason|, 2) + st.failureReason;
  }

  /** The event header, filled front to back into a zeroed buffer. */
  method PutHeader(buf: array<u8>, e: BinderEvent)
    requires buf.Length >= HEADER_LEN && forall i :: 0 <= i < buf.Length ==> buf[i] == 0
    modifies buf
    ensures buf[..HEADER_LEN] == Header(e)
  {
    hide Be;
    buf[0] := VERSION;
    buf[1] := if e.stack.Some? then HAS_STACK_TLV else 0;
    ghost var head := [VERSION, if e.stack.Some? then HAS_STACK_TLV else 0, 0, 0];
    assert buf[..4] == head;
    Put(buf, 4, ToU64(e.timestamp), 8);
    Put(buf, 12, e.pid, 4);
    Put(buf, 16, e.uid, 4);
    Put(buf, 20, e.code, 4);
    Put(buf, 24, e.flags, 4);
    Put(buf, 28, |e.parcel|, 4);
    Copy(buf, 32, [e.isReply, e.binderDev, e.targetKind, 0]);
    Put(buf, 36, e.toPid, 4);
    Put(buf, 40, e.toUid, 4);
    Put(buf, 44, e.targetRef, 8);
    Put(buf, 52, e.pairId, 8);
  }

  /** BinderEventPayload.Encode. */
  method Encode(e: BinderEvent) returns (buf: array<u8>)
    ensures fresh(buf) && buf[..] == EventBytes(e)
  {
    hide Be, Header, StackBytes;
    var stackTlv: Bytes := [];
    if e.stack.Some? { stackTlv := EncodeStack(e.stack.value); StackNotEmpty(e.stack.value); }
    var baseEnd := HEADER_LEN + |e.parcel|;
    buf := new u8[baseEnd + (if stackTlv != [] then TLV_HEADER_LEN + |stackTlv| else 0)](_ => 0);
    PutHeader(buf, e);
    Copy(buf, HEADER_LEN, e.parcel);
    if stackTlv != [] { PutTlv(buf, baseEnd, stackTlv); }
    assert buf[..] == buf[..baseEnd] + buf[baseEnd..];
  }

  method PutTlv(buf: array<u8>, off: nat, tlv: Bytes)
    requires off + TLV_HEADER_LEN + |tlv| == buf.Length
    modifies buf
    ensures buf[..off] == old(buf[..off])
    ensures buf[off..] == [TLV_STACK_TRACE] + Be(|tlv|, 4) + tlv
  {
    hide Be;
    ghost var front := buf[..off];
    Copy(buf, off, [TLV_STACK_TRACE]);
    Put(buf, off + 1, |tlv|, 4);
    Copy(buf, off + TLV_HEADER_LEN, tlv);
    assert buf[..] == front + ([TLV_STACK_TRACE] + Be(|tlv|, 4) + tlv) by { assert buf[..] == buf[..buf.Length]; }
    assert buf[..off] == buf[..][..off] && buf[off..] == buf[..][off..];
  }

  lemma StackNotEmpty(st: StackTrace)
    ensures StackBytes(st) != []
  {}

  /** parseFrames of DecodeStackTraceTLV, advancing `off`. */
  method ReadFrames(data: Bytes, start: nat, count: nat) returns (r: Option<(seq<StackFrame>, nat)>)
    requires start <= |data|
    ensures r == ParseFrames(data, start, count)
  {
    hide ParseFrame;
    var off: nat, out: seq<StackFrame> := start, [];
    ghost var all := ParseFrames(data, start, count);
    assert all.Some? ==> [] + all.value.0 == all.value.0;
    for i := 0 to count
      invariant |out| == i && off <= |data|
      invariant all ==
                match ParseFrames(data, off, count - i)
                case None => None
                case Some((fs, end)) => Some((out + fs, end))
    {
      match ParseFrame(data, off) {
        case None => return None;
        case Some((f, next)) =>
          ghost var rest := ParseFrames(data, next, count - i - 1);
          assert rest.Some? ==> out + ([f] + rest.value.0) == (out + [f]) + rest.value.0;
          out := out + [f];
          off := next;
      }
    }
    assert out + [] == out;
    return Some((out, off));
  }

  /** DecodeStackTraceTLV. */
  method ReadStack(data: Bytes) returns (r: Option<StackTrace>)
    ensures r == DecodeStack(data)
  {
    hide ParseFrames, U16At, ParseReason;
    if |data| < 8 { return None; }
    var ks := ReadFrames(data, 8, U16At(data, 4));
    if ks.None? { return None; }
    var us := ReadFrames(data, ks.value.1, U16At(data, 6));
    if us.None? { return None; }
    return Some(StackTrace(data[0], data[1], ks.value.0, us.value.0, ParseReason(data, us.value.1)));
  }
}
