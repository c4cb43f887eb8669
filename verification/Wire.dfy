/** Big-endian integers in byte strings. */
module Wire {
  import opened Types

  /** The low `n` bytes of `v`, most significant first. */
  function Be(v: nat, n: nat): (b: Bytes)
    ensures |b| == n
  {
    if n == 0 then [] else Be(v / 0x100, n - 1) + [v % 0x100]
  }

  function Num(b: Bytes): nat {
    if b == [] then 0 else Num(b[..|b| - 1]) * 0x100 + b[|b| - 1]
  }

  function Pow256(n: nat): (p: nat)
    ensures p > 0
  {
    if n == 0 then 1 else Pow256(n - 1) * 0x100
  }

  function Field(data: Bytes, off: nat, n: nat): nat
    requires off + n <= |data|
  {
    Num(data[off..off + n])
  }

  lemma {:induction false} NumBe(v: nat, n: nat)
    requires v < Pow256(n)
    ensures Num(Be(v, n)) == v
  {
    if n > 0 {
      NumBe(v / 0x100, n - 1);
      assert Be(v, n)[..n - 1] == Be(v / 0x100, n - 1);
    }
  }

  /** Byte `i` is the one with weight 256^(n - 1 - i): most significant first. */
  lemma {:induction false} BeAt(v: nat, n: nat, i: nat)
    requires i < n
    ensures Be(v, n)[i] == v / Pow256(n - 1 - i) % 0x100
    decreases n
  {
    if i < n - 1 {
      BeAt(v / 0x100, n - 1, i);
      var p := Pow256(n - 2 - i);
      DivTwice(v, p);
      assert Pow256(n - 1 - i) == p * 0x100;
    }
  }

  lemma DivTwice(v: nat, p: nat)
    requires p > 0
    ensures v / 0x100 / p == v / (p * 0x100)
  {
    var q, r := v / 0x100 / p, v / 0x100 % p;
    assert v / 0x100 == q * p + r;
    assert v == q * (p * 0x100) + (r * 0x100 + v % 0x100);
    DivOf(v, p * 0x100, q, r * 0x100 + v % 0x100);
  }

  lemma DivOf(v: nat, m: nat, q: nat, r: nat)
    requires r < m && v == q * m + r
    ensures v / m == q
  {
    ModOf(v, m, q, r);
    assert v == (v / m) * m + v % m;
    assert (v / m) * m == q * m;
    assert (v / m - q) * m == 0;
  }

  /** Bytes are the big-endian form of the number they stand for. */
  lemma {:induction false} BeNum(b: Bytes)
    ensures Be(Num(b), |b|) == b
  {
    if b != [] {
      BeNum(b[..|b| - 1]);
      assert b == b[..|b| - 1] + [b[|b| - 1]];
    }
  }

  lemma {:induction false} NumBound(b: Bytes)
    ensures Num(b) < Pow256(|b|)
  {
    if b != [] { NumBound(b[..|b| - 1]); }
  }

  lemma Pow256s()
    ensures Pow256(1) == 0x100 && Pow256(2) == 0x1_0000 && Pow256(4) == 0x1_0000_0000
    ensures Pow256(8) == 0x1_0000_0000_0000_0000
  {
    assert Pow256(3) == 0x100_0000;
    assert Pow256(6) == 0x1_0000_0000_0000;
  }

  /** A field written at the end of a prefix is read back, whatever follows. */
  lemma FieldOf(pre: Bytes, v: nat, n: nat, post: Bytes)
    requires v < Pow256(n)
    ensures Field(pre + Be(v, n) + post, |pre|, n) == v
  {
    NumBe(v, n);
    assert (pre + Be(v, n) + post)[|pre|..|pre| + n] == Be(v, n);
  }

  lemma PartAt(data: Bytes, off: nat, v: nat, n: nat)
    requires off + n <= |data| && data[off..off + n] == Be(v, n) && v < Pow256(n)
    ensures Field(data, off, n) == v
  {
    NumBe(v, n);
  }

  lemma ModOf(v: nat, m: nat, q: nat, r: nat)
    requires r < m && v == q * m + r
    ensures v % m == r
  {
    var d := v / m - q;
    assert v == (v / m) * m + v % m;
    assert d * m == r - v % m;
    assert (d >= 1 ==> d * m >= m) && (d <= -1 ==> d * m <= -(m as int));
  }

  lemma ModShift(v: nat, p: nat)
    requires p > 0
    ensures v / 0x100 % p * 0x100 + v % 0x100 == v % (p * 0x100)
  {
    var q, r := v / 0x100 / p, v / 0x100 % p;
    assert q * p * 0x100 == q * (p * 0x100);
    ModOf(v, p * 0x100, q, r * 0x100 + v % 0x100);
  }

  lemma {:induction false} BeMod(v: nat, n: nat)
    ensures Num(Be(v, n)) == v % Pow256(n)
    decreases n
  {
    if n > 0 {
      BeMod(v / 0x100, n - 1);
      assert Be(v, n)[..n - 1] == Be(v / 0x100, n - 1);
      ModShift(v, Pow256(n - 1));
    }
  }

  function U16At(data: Bytes, off: nat): u16
    requires off + 2 <= |data|
  {
    NumBound(data[off..off + 2]); Pow256s();
    Field(data, off, 2)
  }

  function U32At(data: Bytes, off: nat): u32
    requires off + 4 <= |data|
  {
    NumBound(data[off..off + 4]); Pow256s();
    Field(data, off, 4)
  }

  function U64At(data: Bytes, off: nat): u64
    requires off + 8 <= |data|
  {
    NumBound(data[off..off + 8]); Pow256s();
    Field(data, off, 8)
  }

  /** Two's complement. */
  function ToU64(x: i64): u64 { if x < 0 then x + 0x1_0000_0000_0000_0000 else x }

  function ToI64(x: u64): (y: i64)
    ensures (y - x) % 0x1_0000_0000_0000_0000 == 0
  {
    if x < 0x8000_0000_0000_0000 then x else x - 0x1_0000_0000_0000_0000
  }

  type i32 = x: int | -0x8000_0000 <= x < 0x8000_0000

  function ToI32(x: u32): (y: i32)
    ensures (y - x) % 0x1_0000_0000 == 0
  {
    if x < 0x8000_0000 then x else x - 0x1_0000_0000
  }

  /** 32-bit addition as the JVM does it. */
  function AddI32(x: i32, y: i32): (z: i32)
    ensures (z - (x + y)) % 0x1_0000_0000 == 0
  {
    if x + y < -0x8000_0000 then x + y + 0x1_0000_0000
    else if x + y >= 0x8000_0000 then x + y - 0x1_0000_0000
    else x + y
  }
}

/** Length-prefixed frames on the daemon's socket. */
module Frames {
  import opened Types
  import opened Wire

  const FRAME_MAGIC: u8 := 0xBD
  const FRAME_HEADER_LEN: nat := 6
  const MAX_PAYLOAD_LEN: nat := 0x10_0000

  datatype Frame = Frame(kind: u8, payload: Bytes)

  datatype Written = Wrote(bytes: Bytes) | WriteTooLong

  datatype Read = Got(frame: Frame, rest: Bytes) | EndOfStream | InvalidMagic | ReadTooLong

  function WriteFrame(kind: u8, payload: Bytes): Written {
    if |payload| > MAX_PAYLOAD_LEN then WriteTooLong
    else Wrote([FRAME_MAGIC, kind] + Be(|payload|, 4) + payload)
  }

  /** Reads one frame off the front of what the stream will deliver. */
  function ReadFrame(stream: Bytes): Read {
    if |stream| < FRAME_HEADER_LEN then EndOfStream
    else if stream[0] != FRAME_MAGIC then InvalidMagic
    else
      var n := U32At(stream, 2);
      if n > MAX_PAYLOAD_LEN then ReadTooLong
      else if |stream| < FRAME_HEADER_LEN + n then EndOfStream
      else Got(Frame(stream[1], stream[FRAME_HEADER_LEN..FRAME_HEADER_LEN + n]), stream[FRAME_HEADER_LEN + n..])
  }

  /** The bytes of a frame: 0xBD, the type, the length of the payload in four bytes, the payload. */
  ghost predicate FrameLayout(bytes: Bytes, f: Frame) {
    && |f.payload| <= 0x10_0000 && |bytes| == 6 + |f.payload| && bytes[0] == 0xBD && bytes[1] == f.kind
    && bytes[2] == 0 && bytes[3] == |f.payload| / 0x1_0000 && bytes[4] == |f.payload| / 0x100 % 0x100
    && bytes[5] == |f.payload| % 0x100 && bytes[6..] == f.payload
  }

  lemma LengthBytes(n: nat)
    requires n <= 0x10_0000
    ensures Be(n, 4) == [0, n / 0x1_0000, n / 0x100 % 0x100, n % 0x100]
  {
    assert Be(n / 0x100_0000, 1) == [0];
    assert Be(n / 0x1_0000, 2) == [0] + [n / 0x1_0000];
    assert Be(n / 0x100, 3) == [0, n / 0x1_0000] + [n / 0x100 % 0x100];
  }

  /** A frame is written unless its payload exceeds 2^20 bytes, and a reader gets it off a stream exactly when the
      stream starts with its bytes. */
  lemma FrameExact(f: Frame, stream: Bytes, rest: Bytes)
    ensures WriteFrame(f.kind, f.payload).WriteTooLong? <==> |f.payload| > 0x10_0000
    ensures WriteFrame(f.kind, f.payload).Wrote? ==> FrameLayout(WriteFrame(f.kind, f.payload).bytes, f)
    ensures ReadFrame(stream) == Got(f, rest) <==>
            exists bytes :: FrameLayout(bytes, f) && stream == bytes + rest
  {
    hide Be, Num;
    if |f.payload| <= 0x10_0000 {
      LengthBytes(|f.payload|);
      var bytes := WriteFrame(f.kind, f.payload).bytes;
      assert FrameLayout(bytes, f);
      ReadWritten(f, rest);
      if ReadFrame(stream) == Got(f, rest) { GotIsWritten(f, stream, rest); }
      forall b | FrameLayout(b, f) ensures b == bytes { SameLayout(b, bytes, f); }
    }
  }

  lemma GotIsWritten(f: Frame, stream: Bytes, rest: Bytes)
    requires ReadFrame(stream) == Got(f, rest)
    ensures |f.payload| <= MAX_PAYLOAD_LEN && stream == WriteFrame(f.kind, f.payload).bytes + rest
  {
    hide Be, Num;
    var n := U32At(stream, 2);
    BeNum(stream[2..6]);
    assert Be(n, 4) == stream[2..6] && n == |f.payload|;
    var head := [FRAME_MAGIC, f.kind] + Be(n, 4);
    assert stream[..6] == head;
    assert stream == stream[..6] + stream[6..6 + n] + stream[6 + n..];
  }

  lemma SameLayout(a: Bytes, b: Bytes, f: Frame)
    requires FrameLayout(a, f) && FrameLayout(b, f)
    ensures a == b
  {
    assert a == a[..6] + a[6..] && b == b[..6] + b[6..];
  }

  /** What a reader does with anything else: it waits for more, or fails on the first byte or on the length. */
  lemma ReadErrors(stream: Bytes)
    ensures ReadFrame(stream) == InvalidMagic <==> |stream| >= 6 && stream[0] != 0xBD
    ensures ReadFrame(stream) == ReadTooLong <==>
            |stream| >= 6 && stream[0] == 0xBD && Num(stream[2..6]) > 0x10_0000
    ensures ReadFrame(stream) == EndOfStream <==>
            |stream| < 6 || (stream[0] == 0xBD && Num(stream[2..6]) <= 0x10_0000 && |stream| < 6 + Num(stream[2..6]))
  {
    hide Num;
  }

  lemma ReadWritten(f: Frame, tail: Bytes)
    requires |f.payload| <= MAX_PAYLOAD_LEN
    ensures ReadFrame(WriteFrame(f.kind, f.payload).bytes + tail) == Got(f, tail)
  {
    var s := WriteFrame(f.kind, f.payload).bytes + tail;
    assert s == [FRAME_MAGIC, f.kind] + Be(|f.payload|, 4) + (f.payload + tail);
    Pow256s();
    FieldOf([FRAME_MAGIC, f.kind], |f.payload|, 4, f.payload + tail);
    assert s[FRAME_HEADER_LEN..] == f.payload + tail;
  }

  /** Frames written back to back. */
  function Stream(fs: seq<Frame>): Bytes
    requires forall f :: f in fs ==> |f.payload| <= MAX_PAYLOAD_LEN
  {
    if fs == [] then [] else WriteFrame(fs[0].kind, fs[0].payload).bytes + Stream(fs[1..])
  }

  /** What a reader loop gets: the frames up to the first error. */
  function ReadAll(stream: Bytes): seq<Frame>
    decreases |stream|
  {
    match ReadFrame(stream)
    case Got(f, rest) => [f] + ReadAll(rest)
    case _ => []
  }

  lemma ReadOne(stream: Bytes, f: Frame, rest: Bytes)
    requires ReadFrame(stream) == Got(f, rest)
    ensures ReadAll(stream) == [f] + ReadAll(rest)
  {
    hide ReadFrame;
  }

  lemma StreamFirst(fs: seq<Frame>, tail: Bytes)
    requires fs != [] && forall f :: f in fs ==> |f.payload| <= MAX_PAYLOAD_LEN
    ensures Stream(fs) + tail == WriteFrame(fs[0].kind, fs[0].payload).bytes + (Stream(fs[1..]) + tail)
  {
    hide WriteFrame;
  }

  /** The list of frames written is the list of frames read, also when the stream goes on
      with bytes that do not start a frame. */
  lemma {:induction false} StreamRoundTrip(fs: seq<Frame>, tail: Bytes)
    requires (forall f :: f in fs ==> |f.payload| <= MAX_PAYLOAD_LEN) && !ReadFrame(tail).Got?
    ensures ReadAll(Stream(fs) + tail) == fs
  {
    if fs == [] {
      assert Stream(fs) + tail == tail;
    } else {
      hide ReadFrame, ReadAll, Stream;
      var rest := Stream(fs[1..]) + tail;
      StreamFirst(fs, tail);
      ReadWritten(fs[0], rest);
      ReadOne(Stream(fs) + tail, fs[0], rest);
      StreamRoundTrip(fs[1..], tail);
      assert fs == [fs[0]] + fs[1..];
    }
  }

  /** Cutting a frame short never yields a frame: the reader waits or fails, it does not misread. */
  lemma CutFrame(f: Frame, n: nat)
    requires |f.payload| <= MAX_PAYLOAD_LEN && n < FRAME_HEADER_LEN + |f.payload|
    ensures ReadFrame(WriteFrame(f.kind, f.payload).bytes[..n]) == EndOfStream
  {
    var s := WriteFrame(f.kind, f.payload).bytes;
    Pow256s();
    FieldOf([FRAME_MAGIC, f.kind], |f.payload|, 4, f.payload);
    if n >= FRAME_HEADER_LEN { assert s[..n][2..6] == s[2..6]; }
  }
}
