/** The viewer's own event decoder: JVM integers, a ByteBuffer, and normalised enums. */
module KotlinDecoder {
  import opened Types
  import opened Wire
  import opened EventCodec

  datatype BinderDev = UnknownDev | Binder | HwBinder | VndBinder

  datatype TargetKind = UnknownKind | Handle | Ptr

  datatype StackQuality = Full | FpOnly | Degraded | Failed

  datatype KtFrame = KtFrame(pc: i64, moduleName: Bytes, symbol: Bytes, offset: i64)

  datatype KtStack = KtStack(
    quality: StackQuality, truncated: u8, kFrames: seq<KtFrame>, uFrames: seq<KtFrame>, failureReason: Bytes)

  datatype KtEvent = KtEvent(
    timestamp: i64, pid: i32, uid: i32, code: i32, flags: i32, rawParcel: Bytes, isReply: bool,
    binderDev: BinderDev, targetKind: TargetKind, toPid: i32, toUid: i32, targetRef: i64, pairId: i64,
    stack: Option<KtStack>)

  /** `Thrown`: an exception escapes fromPayload. */
  datatype KtDecoded = KtEventOf(event: KtEvent) | KtNull | Thrown

  function DevOf(b: u8): BinderDev {
    if b == 1 then Binder else if b == 2 then HwBinder else if b == 3 then VndBinder else UnknownDev
  }

  function KindOf(b: u8): TargetKind { if b == 1 then Handle else if b == 2 then Ptr else UnknownKind }

  function QualityOf(b: u8): StackQuality {
    if b == 0 then Full else if b == 1 then FpOnly else if b == 3 then Failed else Degraded
  }

  /** One turn of the frame loop: the frame and the bytes remaining in the buffer. */
  function NextFrame(buf: Bytes): Option<(KtFrame, Bytes)> {
    if |buf| < 20 then None else
    var m, s, rest := U16At(buf, 8), U16At(buf, 10), buf[20..];
    if |rest| < m + s then None
    else Some((KtFrame(ToI64(U64At(buf, 0)), rest[..m], rest[m..m + s], ToI64(U64At(buf, 12))), rest[m + s..]))
  }

  function NextFrames(buf: Bytes, count: nat): (r: Option<(seq<KtFrame>, Bytes)>)
    decreases count
  {
    if count == 0 then Some(([], buf)) else
    match NextFrame(buf)
    case None => None
    case Some((f, rest)) =>
      match NextFrames(rest, count - 1)
      case None => None
      case Some((fs, end)) => Some(([f] + fs, end))
  }

  function NextReason(buf: Bytes): Bytes {
    if |buf| < 2 then [] else
    var n := U16At(buf, 0);
    if 1 <= n <= |buf| - 2 then buf[2..2 + n] else []
  }

  /** StackTraceCodec.decode on its slice. */
  function DecodeSlice(buf: Bytes): Option<KtStack> {
    if |buf| < 8 then None else
    match NextFrames(buf[8..], U16At(buf, 4))
    case None => None
    case Some((ks, rest)) =>
      match NextFrames(rest, U16At(buf, 6))
      case None => None
      case Some((us, end)) => Some(KtStack(QualityOf(buf[0]), buf[1], ks, us, NextReason(end)))
  }

  datatype TlvResult = Parsed(stack: Option<KtStack>, guard: Guard) | TlvThrown

  /** parseStackTraceTLV; reading past the array throws, and only the codec call is caught. */
  function ParseTlv(payload: Bytes, baseEnd: nat): (r: TlvResult)
    requires 2 <= |payload| < 0x8000_0000 && baseEnd <= |payload|
    ensures r.Parsed? ==> r.guard != HeaderTooShort && r.guard != ParcelTruncated
  {
    if payload[1] % 2 == 0 then Parsed(None, NoGuard)
    else if |payload| < AddI32(baseEnd, 5) then Parsed(None, TlvHeaderTruncated)
    else if baseEnd + 5 > |payload| then TlvThrown
    else if payload[baseEnd] != 1 then Parsed(None, NoGuard)
    else
      var n := U32At(payload, baseEnd + 1);
      if n > |payload| - baseEnd - 5 then Parsed(None, TlvOverflow)
      else Parsed(DecodeSlice(payload[baseEnd + 5..baseEnd + 5 + n]), NoGuard)
  }

  function EventAt(payload: Bytes, baseEnd: nat, stack: Option<KtStack>): KtEvent
    requires 60 <= baseEnd <= |payload|
  {
    KtEvent(ToI64(U64At(payload, 4)), ToI32(U32At(payload, 12)), ToI32(U32At(payload, 16)),
            ToI32(U32At(payload, 20)), ToI32(U32At(payload, 24)), payload[60..baseEnd], payload[32] == 1,
            DevOf(payload[33]), KindOf(payload[34]), ToI32(U32At(payload, 36)), ToI32(U32At(payload, 40)),
            ToI64(U64At(payload, 44)), ToI64(U64At(payload, 52)), stack)
  }

  /** fromPayload, with the guard it counts. */
  function FromPayload(payload: Bytes): (KtDecoded, Guard)
    requires |payload| < 0x8000_0000
  {
    if |payload| < 60 then (KtNull, HeaderTooShort)
    else if payload[0] != 2 then (KtNull, NoGuard)
    else
      var dataSize := ToI32(U32At(payload, 28));
      var baseEnd := AddI32(60, dataSize);
      if dataSize < 0 || baseEnd > |payload| then (KtNull, ParcelTruncated)
      else if dataSize > |payload| - 60 then (Thrown, NoGuard)
      else
        match ParseTlv(payload, baseEnd)
        case TlvThrown => (Thrown, NoGuard)
        case Parsed(stack, guard) => (KtEventOf(EventAt(payload, baseEnd, stack)), guard)
  }

  // Agreement with the daemon's decoder

  function NormFrame(f: StackFrame): KtFrame { KtFrame(ToI64(f.pc), f.moduleName, f.symbol, ToI64(f.offset)) }

  function NormFrames(fs: seq<StackFrame>): seq<KtFrame> {
    if fs == [] then [] else [NormFrame(fs[0])] + NormFrames(fs[1..])
  }

  function NormStack(st: StackTrace): KtStack {
    KtStack(QualityOf(st.quality), st.truncated, NormFrames(st.kFrames), NormFrames(st.uFrames), st.failureReason)
  }

  function NormStackOption(st: Option<StackTrace>): Option<KtStack> {
    match st
    case None => None
    case Some(t) => Some(NormStack(t))
  }

  /** What the viewer keeps of an event: signed numbers, a boolean reply flag, named enums. */
  function NormEvent(e: BinderEvent): KtEvent {
    KtEvent(e.timestamp, ToI32(e.pid), ToI32(e.uid), ToI32(e.code), ToI32(e.flags), e.parcel, e.isReply == 1,
            DevOf(e.binderDev), KindOf(e.targetKind), ToI32(e.toPid), ToI32(e.toUid),
            ToI64(e.targetRef), ToI64(e.pairId), NormStackOption(e.stack))
  }

  /** The same bits as a signed number. */
  predicate Signed32(y: i32, x: u32) { (y - x) % 0x1_0000_0000 == 0 }

  predicate Signed64(y: i64, x: u64) { (y - x) % 0x1_0000_0000_0000_0000 == 0 }

  ghost predicate ShowsFrames(ks: seq<KtFrame>, fs: seq<StackFrame>) {
    |ks| == |fs| && forall i :: 0 <= i < |ks| ==>
      && Signed64(ks[i].pc, fs[i].pc) && Signed64(ks[i].offset, fs[i].offset)
      && ks[i].moduleName == fs[i].moduleName && ks[i].symbol == fs[i].symbol
  }

  ghost predicate ShowsStack(k: KtStack, st: StackTrace) {
    && (k.quality == Full <==> st.quality == 0) && (k.quality == FpOnly <==> st.quality == 1)
    && (k.quality == Failed <==> st.quality == 3) && k.truncated == st.truncated
    && ShowsFrames(k.kFrames, st.kFrames) && ShowsFrames(k.uFrames, st.uFrames) && k.failureReason == st.failureReason
  }

  /** The viewer's event is the daemon's: the same numbers as the JVM has them, the same bytes, and each enumeration
      by its wire value, with every unlisted value unknown or, for a stack's quality, degraded. */
  ghost predicate Shows(k: KtEvent, e: BinderEvent) {
    && k.timestamp == e.timestamp && Signed32(k.pid, e.pid) && Signed32(k.uid, e.uid) && Signed32(k.code, e.code)
    && Signed32(k.flags, e.flags) && k.rawParcel == e.parcel && (k.isReply <==> e.isReply == 1)
    && (k.binderDev == Binder <==> e.binderDev == 1) && (k.binderDev == HwBinder <==> e.binderDev == 2)
    && (k.binderDev == VndBinder <==> e.binderDev == 3)
    && (k.targetKind == Handle <==> e.targetKind == 1) && (k.targetKind == Ptr <==> e.targetKind == 2)
    && Signed32(k.toPid, e.toPid) && Signed32(k.toUid, e.toUid)
    && Signed64(k.targetRef, e.targetRef) && Signed64(k.pairId, e.pairId)
    && (k.stack.Some? <==> e.stack.Some?) && (k.stack.Some? ==> ShowsStack(k.stack.value, e.stack.value))
  }

  lemma {:induction false} FramesShown(fs: seq<StackFrame>)
    ensures ShowsFrames(NormFrames(fs), fs)
  {
    if fs != [] { FramesShown(fs[1..]); }
  }

  lemma NormShows(e: BinderEvent)
    ensures Shows(NormEvent(e), e)
  {
    hide NormFrames, ShowsFrames;
    if e.stack.Some? {
      FramesShown(e.stack.value.kFrames);
      FramesShown(e.stack.value.uFrames);
    }
  }

  lemma FieldShift(data: Bytes, off: nat, at: nat, n: nat)
    requires off + at + n <= |data|
    ensures Field(data[off..], at, n) == Field(data, off + at, n)
  {
    assert data[off..][at..at + n] == data[off + at..off + at + n];
  }

  lemma FrameAgrees(data: Bytes, off: nat)
    requires off <= |data|
    ensures match EventCodec.ParseFrame(data, off)
            case None => NextFrame(data[off..]) == None
            case Some((f, end)) => NextFrame(data[off..]) == Some((NormFrame(f), data[end..]))
  {
    hide Num;
    if off + 20 <= |data| {
      FieldShift(data, off, 0, 8);
      FieldShift(data, off, 8, 2);
      FieldShift(data, off, 10, 2);
      FieldShift(data, off, 12, 8);
      var m: nat, s: nat := U16At(data, off + 8), U16At(data, off + 10);
      assert data[off..][20..] == data[off + 20..];
      if off + 20 + m + s <= |data| {
        assert data[off + 20..][..m] == data[off + 20..off + 20 + m];
        assert data[off + 20..][m..m + s] == data[off + 20 + m..off + 20 + m + s];
        assert data[off + 20..][m + s..] == data[off + 20 + m + s..];
      }
    }
  }

  lemma {:induction false} FramesAgree(data: Bytes, off: nat, count: nat)
    requires off <= |data|
    ensures match EventCodec.ParseFrames(data, off, count)
            case None => NextFrames(data[off..], count) == None
            case Some((fs, end)) => NextFrames(data[off..], count) == Some((NormFrames(fs), data[end..]))
    decreases count
  {
    hide EventCodec.ParseFrame, NextFrame;
    if count > 0 {
      FrameAgrees(data, off);
      match EventCodec.ParseFrame(data, off) {
        case None =>
        case Some((f, next)) =>
          FramesAgree(data, next, count - 1);
          var rest := EventCodec.ParseFrames(data, next, count - 1);
          if rest.Some? { assert ([f] + rest.value.0)[1..] == rest.value.0; }
      }
    }
  }

  lemma ReasonAgrees(data: Bytes, off: nat)
    requires off <= |data|
    ensures NextReason(data[off..]) == EventCodec.ParseReason(data, off)
  {
    hide Num;
    if off + 2 <= |data| {
      FieldShift(data, off, 0, 2);
      var n := U16At(data, off);
      if off + 2 + n <= |data| { assert data[off..][2..2 + n] == data[off + 2..off + 2 + n]; }
    }
  }

  /** The two stack decoders accept the same byte strings and read the same frames. */
  lemma StacksAgree(data: Bytes)
    ensures DecodeSlice(data) == NormStackOption(EventCodec.DecodeStack(data))
  {
    hide Num, EventCodec.ParseFrames, EventCodec.ParseReason, NextFrames, NextReason, NormFrames;
    if |data| >= 8 {
      FramesAgree(data, 8, U16At(data, 4));
      match EventCodec.ParseFrames(data, 8, U16At(data, 4)) {
        case None =>
        case Some((ks, off)) =>
          FramesAgree(data, off, U16At(data, 6));
          var us := EventCodec.ParseFrames(data, off, U16At(data, 6));
          if us.Some? { ReasonAgrees(data, us.value.1); }
      }
    }
  }

  /** The payloads on which the viewer's 32-bit sums leave the int range. */
  predicate Wraps(payload: Bytes) {
    && |payload| >= 60 && payload[0] == 2
    && var dataSize := U32At(payload, 28);
       || 0x8000_0000 - 60 <= dataSize < 0x8000_0000
       || (60 + dataSize <= |payload| && payload[1] % 2 == 1 && 60 + dataSize + 5 >= 0x8000_0000)
  }

  /** On every byte array the viewer can hold: it throws exactly when one of its sums wraps, and
      otherwise accepts what the daemon's decoder accepts, counts the same guard, and reads the same event. */
  lemma DecodersAgree(payload: Bytes)
    requires |payload| < 0x8000_0000
    ensures FromPayload(payload).0 == Thrown <==> Wraps(payload)
    ensures !Wraps(payload) ==>
              && FromPayload(payload).1 == EventCodec.Decode(payload).1
              && FromPayload(payload).0 == (match EventCodec.Decode(payload).0
                                            case Event(e) => KtEventOf(NormEvent(e))
                                            case _ => KtNull)
    ensures FromPayload(payload).0.KtEventOf? ==>
              && EventCodec.Decode(payload).0.Event?
              && Shows(FromPayload(payload).0.event, EventCodec.Decode(payload).0.event)
  {
    hide Num, EventCodec.DecodeStack, DecodeSlice, NormStack, Shows;
    forall e ensures Shows(NormEvent(e), e) { NormShows(e); }
    if |payload| >= 60 && payload[0] == 2 {
      var baseEnd := 60 + U32At(payload, 28);
      if baseEnd + 5 <= |payload| {
        var n := U32At(payload, baseEnd + 1);
        if baseEnd + 5 + n <= |payload| { StacksAgree(payload[baseEnd + 5..baseEnd + 5 + n]); }
      }
    }
  }

  /** A header that declares a parcel of 2^31 - 1 bytes and ends there. */
  function WrappingHeader(): Bytes {
    [2, 0, 0, 0] + seq(24, _ => 0) + Be(0x7FFF_FFFF, 4) + seq(28, _ => 0)
  }

  /** The viewer throws on it; the daemon's decoder rejects it as truncated. */
  lemma WrapThrows()
    ensures FromPayload(WrappingHeader()).0 == Thrown
    ensures EventCodec.Decode(WrappingHeader()) == (EventCodec.FailOpen, ParcelTruncated)
  {
    hide Num, Be;
    var p := WrappingHeader();
    Pow256s();
    PartAt(p, 28, 0x7FFF_FFFF, 4);
    DecodersAgree(p);
    FramedPayloadAgrees(p);
  }

  /** Within the daemon's own frame limit the two differ only on a declared parcel size within 60 bytes below 2^31,
      which such a payload cannot hold: the daemon rejects it as truncated and the viewer throws. */
  lemma FramedPayloadAgrees(payload: Bytes)
    requires |payload| <= 0x10_0000
    ensures Wraps(payload) <==>
            |payload| >= 60 && payload[0] == 2 && 0x8000_0000 - 60 <= U32At(payload, 28) < 0x8000_0000
    ensures if Wraps(payload) then
              && FromPayload(payload).0 == Thrown
              && EventCodec.Decode(payload) == (EventCodec.FailOpen, ParcelTruncated)
            else
              && FromPayload(payload).1 == EventCodec.Decode(payload).1
              && FromPayload(payload).0 == (match EventCodec.Decode(payload).0
                                            case Event(e) => KtEventOf(NormEvent(e))
                                            case _ => KtNull)
  {
    hide Num, FromPayload, NormEvent;
    DecodersAgree(payload);
  }

  /** What the daemon encodes, the viewer reads: end to end over the wire format. */
  lemma EncodedIsRead(e: BinderEvent)
    requires EventCodec.Fits(e) && |EventCodec.EventBytes(e)| <= 0x10_0000
    ensures FromPayload(EventCodec.EventBytes(e)) == (KtEventOf(NormEvent(e)), NoGuard) && Shows(NormEvent(e), e)
  {
    NormShows(e);
    hide Shows;
    hide EventCodec.Decode, FromPayload, EventCodec.EventBytes, EventCodec.Fits, Wraps;
    var p := EventCodec.EventBytes(e);
    EventCodec.EventRoundTrip(e);
    FramedPayloadAgrees(p);
    DecodersAgree(p);
  }
}

/** The viewer's decoder as it runs: a ByteBuffer whose position advances, an id counter and guard counters. */
module KotlinParsing {
  import opened Types
  import opened Wire
  import opened EventCodec
  import opened KotlinDecoder

  class ByteBuffer {
    const data: Bytes
    var position: nat

    ghost predicate Valid()
      reads this
    {
      position <= |data|
    }

    function Remaining(): Bytes
      requires Valid()
      reads this
    {
      data[position..]
    }

    constructor (data: Bytes)
      ensures Valid() && this.data == data && position == 0
    {
      this.data := data;
      position := 0;
    }

    /** The next `n` bytes; the JVM throws when fewer remain. */
    method Take(n: nat) returns (b: Bytes)
      requires Valid() && position + n <= |data|
      modifies this
      ensures Valid() && position == old(position) + n && b == data[old(position)..position]
    {
      b := data[position..position + n];
      position := position + n;
    }

    method TakeShort() returns (v: u16)
      requires Valid() && position + 2 <= |data|
      modifies this
      ensures Valid() && position == old(position) + 2 && v == U16At(data, old(position))
    {
      hide Num;
      v := U16At(data, position);
      position := position + 2;
    }

    method TakeInt() returns (v: i32)
      requires Valid() && position + 4 <= |data|
      modifies this
      ensures Valid() && position == old(position) + 4 && v == ToI32(U32At(data, old(position)))
    {
      hide Num;
      v := ToI32(U32At(data, position));
      position := position + 4;
    }

    method TakeLong() returns (v: i64)
      requires Valid() && position + 8 <= |data|
      modifies this
      ensures Valid() && position == old(position) + 8 && v == ToI64(U64At(data, old(position)))
    {
      hide Num;
      v := ToI64(U64At(data, position));
      position := position + 8;
    }
  }

  method TakeFrame(buf: ByteBuffer) returns (r: Option<KtFrame>)
    requires buf.Valid()
    modifies buf
    ensures buf.Valid()
    ensures match NextFrame(old(buf.Remaining()))
            case None => r == None
            case Some((f, rest)) => r == Some(f) && buf.Remaining() == rest
  {
    hide Num;
    if |buf.Remaining()| < 20 { return None; }
    ghost var whole, at := buf.Remaining(), buf.position;
    FrameFields(buf.data, at);
    var pc := buf.TakeLong();
    var mLen: nat := buf.TakeShort();
    var sLen: nat := buf.TakeShort();
    var offset := buf.TakeLong();
    assert buf.Remaining() == whole[20..];
    if |buf.Remaining()| < mLen + sLen { return None; }
    var mb := buf.Take(mLen);
    var sb := buf.Take(sLen);
    assert mb == whole[20..][..mLen] && sb == whole[20..][mLen..mLen + sLen];
    assert buf.Remaining() == whole[20..][mLen + sLen..];
    return Some(KtFrame(pc, mb, sb, offset));
  }

  lemma FrameFields(data: Bytes, at: nat)
    requires at + 20 <= |data|
    ensures U64At(data[at..], 0) == U64At(data, at) && U64At(data[at..], 12) == U64At(data, at + 12)
    ensures U16At(data[at..], 8) == U16At(data, at + 8) && U16At(data[at..], 10) == U16At(data, at + 10)
  {
    hide Num;
    FieldShift(data, at, 0, 8);
    FieldShift(data, at, 8, 2);
    FieldShift(data, at, 10, 2);
    FieldShift(data, at, 12, 8);
  }

  /** parseFrames. */
  method TakeFrames(buf: ByteBuffer, count: nat) returns (r: Option<seq<KtFrame>>)
    requires buf.Valid()
    modifies buf
    ensures buf.Valid()
    ensures match NextFrames(old(buf.Remaining()), count)
            case None => r == None
            case Some((fs, rest)) => r == Some(fs) && buf.Remaining() == rest
  {
    hide NextFrame;
    var out: seq<KtFrame> := [];
    ghost var all := NextFrames(buf.Remaining(), count);
    assert all.Some? ==> [] + all.value.0 == all.value.0;
    for i := 0 to count
      invariant buf.Valid()
      invariant all ==
                match NextFrames(buf.Remaining(), count - i)
                case None => None
                case Some((fs, rest)) => Some((out + fs, rest))
    {
      ghost var before := NextFrame(buf.Remaining());
      var f := TakeFrame(buf);
      if f.None? { return None; }
      ghost var rest := NextFrames(before.value.1, count - i - 1);
      assert rest.Some? ==> out + ([f.value] + rest.value.0) == (out + [f.value]) + rest.value.0;
      out := out + [f.value];
    }
    assert out + [] == out;
    return Some(out);
  }

  method TakeReason(buf: ByteBuffer) returns (reason: Bytes)
    requires buf.Valid()
    modifies buf
    ensures reason == NextReason(old(buf.Remaining()))
  {
    hide Num;
    reason := [];
    if |buf.Remaining()| >= 2 {
      ghost var whole := buf.Remaining();
      FieldShift(buf.data, buf.position, 0, 2);
      var n: nat := buf.TakeShort();
      if 1 <= n <= |buf.Remaining()| {
        reason := buf.Take(n);
        assert reason == whole[2..2 + n];
      }
    }
  }

  /** StackTraceCodec.decode. */
  method DecodeStackTrace(slice: Bytes) returns (r: Option<KtStack>)
    ensures r == DecodeSlice(slice)
  {
    hide Num, U16At, NextFrames, NextReason;
    if |slice| < 8 { return None; }
    var buf := new ByteBuffer(slice);
    var front := buf.Take(4);
    var kCount := buf.TakeShort();
    var uCount := buf.TakeShort();
    assert buf.Remaining() == slice[8..];
    var ks := TakeFrames(buf, kCount);
    if ks.None? { return None; }
    var us := TakeFrames(buf, uCount);
    if us.None? { return None; }
    var reason := TakeReason(buf);
    return Some(KtStack(QualityOf(front[0]), front[1], ks.value, us.value, reason));
  }

  function Bump(guard: Guard, which: Guard): nat { if guard == which then 1 else 0 }

  class Decoder {
    var idCounter: nat
    var g1Count: nat
    var g2Count: nat
    var g4Count: nat
    var g5Count: nat

    constructor ()
      ensures idCounter == 0 && g1Count == 0 && g2Count == 0 && g4Count == 0 && g5Count == 0
    {
      idCounter, g1Count, g2Count, g4Count, g5Count := 0, 0, 0, 0, 0;
    }

    method ParseStackTraceTlv(payload: Bytes, baseEnd: nat) returns (r: Option<Option<KtStack>>)
      requires 2 <= |payload| < 0x8000_0000 && baseEnd <= |payload|
      modifies this`g4Count, this`g5Count
      ensures match ParseTlv(payload, baseEnd)
              case TlvThrown => r == None && g4Count == old(g4Count) && g5Count == old(g5Count)
              case Parsed(stack, guard) =>
                && r == Some(stack)
                && g4Count == old(g4Count) + Bump(guard, TlvHeaderTruncated)
                && g5Count == old(g5Count) + Bump(guard, TlvOverflow)
    {
      hide Num, DecodeSlice;
      if payload[1] % 2 == 0 { return Some(None); }
      if |payload| < AddI32(baseEnd, 5) {
        g4Count := g4Count + 1;
        return Some(None);
      }
      if baseEnd + 5 > |payload| { return None; }
      var n := U32At(payload, baseEnd + 1);
      if payload[baseEnd] != 1 { return Some(None); }
      if n > |payload| - baseEnd - 5 {
        g5Count := g5Count + 1;
        return Some(None);
      }
      var stack := DecodeStackTrace(payload[baseEnd + 5..baseEnd + 5 + n]);
      return Some(stack);
    }

    /** fromPayload: an id is used up exactly when an event is created. */
    method Receive(payload: Bytes) returns (r: KtDecoded)
      requires |payload| < 0x8000_0000
      modifies this
      ensures r == FromPayload(payload).0
      ensures idCounter == old(idCounter) + (if r.KtEventOf? then 1 else 0)
      ensures var guard := FromPayload(payload).1;
              && g1Count == old(g1Count) + Bump(guard, HeaderTooShort)
              && g2Count == old(g2Count) + Bump(guard, ParcelTruncated)
              && g4Count == old(g4Count) + Bump(guard, TlvHeaderTruncated)
              && g5Count == old(g5Count) + Bump(guard, TlvOverflow)
    {
      hide Num, ParseTlv;
      if |payload| < 60 {
        g1Count := g1Count + 1;
        return KtNull;
      }
      if payload[0] != 2 { return KtNull; }
      var dataSize := ToI32(U32At(payload, 28));
      var baseEnd := AddI32(60, dataSize);
      if dataSize < 0 || baseEnd > |payload| {
        g2Count := g2Count + 1;
        return KtNull;
      }
      if dataSize > |payload| - 60 { return Thrown; }
      var event := ReadHeader(payload);
      var stack := ParseStackTraceTlv(payload, baseEnd);
      if stack.None? { return Thrown; }
      idCounter := idCounter + 1;
      return KtEventOf(event.(stack := stack.value));
    }
  }

  /** The getters of fromPayload, one after the other, up to and including the parcel. */
  method ReadHeader(payload: Bytes) returns (event: KtEvent)
    requires 60 <= |payload| < 0x8000_0000 && 60 + U32At(payload, 28) <= |payload|
    ensures event == EventAt(payload, 60 + U32At(payload, 28), None)
  {
    hide Num, U32At, U64At;
    var buf := new ByteBuffer(payload);
    var timestamp, pid, uid, code, flags, dataSize := ReadNumbers(buf);
    var kinds := buf.Take(4);
    var toPid, toUid, targetRef, pairId := ReadTarget(buf);
    var parcel := buf.Take(dataSize);
    event := KtEvent(timestamp, pid, uid, code, flags, parcel, kinds[0] == 1, DevOf(kinds[1]), KindOf(kinds[2]),
                     toPid, toUid, targetRef, pairId, None);
  }

  method ReadNumbers(buf: ByteBuffer)
    returns (timestamp: i64, pid: i32, uid: i32, code: i32, flags: i32, dataSize: i32)
    requires buf.position == 0 && |buf.data| >= 32
    modifies buf
    ensures buf.position == 32 && timestamp == ToI64(U64At(buf.data, 4))
    ensures pid == ToI32(U32At(buf.data, 12)) && uid == ToI32(U32At(buf.data, 16))
    ensures code == ToI32(U32At(buf.data, 20)) && flags == ToI32(U32At(buf.data, 24))
    ensures dataSize == ToI32(U32At(buf.data, 28))
  {
    hide Num, U32At, U64At;
    var versionFlagsReserved := buf.Take(4);
    timestamp := buf.TakeLong();
    pid := buf.TakeInt();
    uid := buf.TakeInt();
    code := buf.TakeInt();
    flags := buf.TakeInt();
    dataSize := buf.TakeInt();
  }

  method ReadTarget(buf: ByteBuffer) returns (toPid: i32, toUid: i32, targetRef: i64, pairId: i64)
    requires buf.position == 36 && |buf.data| >= 60
    modifies buf
    ensures buf.position == 60 && toPid == ToI32(U32At(buf.data, 36)) && toUid == ToI32(U32At(buf.data, 40))
    ensures targetRef == ToI64(U64At(buf.data, 44)) && pairId == ToI64(U64At(buf.data, 52))
  {
    hide Num, U32At, U64At;
    toPid := buf.TakeInt();
    toUid := buf.TakeInt();
    targetRef := buf.TakeLong();
    pairId := buf.TakeLong();
  }
}
