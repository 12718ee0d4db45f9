/** What the bytes of a frame say, position by position, as section 5.2 of RFC 6455 lays
    them out, and what the parser and the encoder make of it. */
module WebSocketWire {
  import opened Prelude
  import opened Bits
  import opened Search
  import opened WebSocketSpec
  import opened WebSocketTheorems

  // ----- the layout -----

  /** Where the length ends, by the 7-bit length in the second byte. */
  function Offset(b: seq<Byte>): nat
    requires |b| >= 2
  {
    if b[1] % 128 < 126 then 2 else if b[1] % 128 == 126 then 4 else 10
  }

  function Join(high: nat, low: nat): nat {
    high * 256 + low
  }

  /** The payload length: 7 bits, 16 bits or 64 bits, most significant byte first. */
  function Declared(b: seq<Byte>): nat
    requires |b| >= 2 && |b| >= Offset(b)
  {
    if b[1] % 128 < 126 then b[1] % 128
    else if b[1] % 128 == 126 then Join(b[2], b[3])
    else Join(Join(Join(Join(Join(Join(Join(b[2], b[3]), b[4]), b[5]), b[6]), b[7]), b[8]), b[9])
  }

  /** Whether a masking key follows the length. */
  predicate HasKey(b: seq<Byte>)
    requires |b| >= 2
  {
    b[1] >= 128
  }

  function Start(b: seq<Byte>): nat
    requires |b| >= 2
  {
    Offset(b) + if HasKey(b) then 4 else 0
  }

  // ----- the parser -----

  lemma Value2(b: seq<Byte>)
    requires |b| >= 4
    ensures Numeric(b[2..4]) == Join(b[2], b[3])
  {
    assert b[2..4] == [b[2], b[3]];
    ValueOf2(b[2], b[3]);
  }

  lemma Value8(b: seq<Byte>)
    requires |b| >= 10
    ensures Numeric(b[2..10])
         == Join(Join(Join(Join(Join(Join(Join(b[2], b[3]), b[4]), b[5]), b[6]), b[7]), b[8]), b[9])
  {
    assert Numeric(b[2..2]) == 0;
    hide Numeric;
    forall i | 2 <= i < 10 ensures Numeric(b[2..i + 1]) == Join(Numeric(b[2..i]), b[i]) {
      assert b[2..i + 1] == b[2..i] + [b[i]];
      ValueSnoc(b[2..i], b[i]);
    }
  }

  lemma HeaderMeaning(b: seq<Byte>)
    requires |b| >= 2
    ensures Header(b) == if |b| < Offset(b) then None else Some((Offset(b), Declared(b)))
  {
    if |b| >= 4 { Value2(b); }
    if |b| >= 10 { Value8(b); }
    hide Numeric;
  }

  /** The bytes from `at` on are the payload, each in exclusive or with the key byte of its
      position if there is a key. */
  ghost predicate Carries(b: seq<Byte>, payload: seq<Byte>)
    requires |b| >= 2 && |b| >= Start(b) + |payload|
  {
    forall i :: 0 <= i < |payload| ==>
      b[Start(b) + i] == if HasKey(b) then Xor(payload[i], b[Offset(b) + i % 4]) else payload[i]
  }

  /** One turn of the parser, from the bytes alone: when it waits, when it gives up, and what
      frame it reads. */
  lemma ReadMeaning(b: seq<Byte>)
    ensures Read(b).More? <==> |b| < 2 || |b| < Offset(b) || (Declared(b) <= 16777216 && |b| < Start(b) + Declared(b))
    ensures Read(b).TooLong? <==> |b| >= 2 && |b| >= Offset(b) && Declared(b) > 16777216
    ensures Read(b).Got? ==>
      && |b| >= 2 && |b| >= Offset(b)
      && Read(b).frame.fin == (b[0] >= 128) && Read(b).frame.opcode == b[0] % 16
      && |Read(b).frame.payload| == Declared(b) && Read(b).size == Start(b) + Declared(b) <= |b|
      && Carries(b, Read(b).frame.payload)
  {
    if |b| >= 2 {
      HeaderMeaning(b);
      hide Header;
      if Read(b).Got? && HasKey(b) { Unmasked(b, Read(b).frame.payload); }
    }
  }

  lemma Unmasked(b: seq<Byte>, payload: seq<Byte>)
    requires |b| >= 2 && |b| >= Start(b) + |payload| && HasKey(b)
    requires payload == Masked(b[Start(b)..Start(b) + |payload|], b[Offset(b)..Offset(b) + 4])
    ensures Carries(b, payload)
  {
    var body, key := b[Start(b)..Start(b) + |payload|], b[Offset(b)..Offset(b) + 4];
    MaskTwice(body, key);
    forall i | 0 <= i < |payload| ensures b[Start(b) + i] == Xor(payload[i], b[Offset(b) + i % 4]) {
      assert Masked(payload, key)[i] == body[i] && key[i % 4] == b[Offset(b) + i % 4];
    }
  }

  // ----- the encoder -----

  /** What encodeFrame writes: FIN and opcode, the shortest of the three length forms, the
      mask bit with its key, and the payload. */
  lemma EncodeMeaning(f: Frame, key: Option<seq<Byte>>)
    requires f.opcode < 16 && |f.payload| < 0x1_0000_0000 && (key.Some? ==> |key.value| == 4)
    ensures var b := Encode(f, key); var n := |f.payload|;
      && |b| >= 2 && b[0] == f.opcode + (if f.fin then 128 else 0)
      && Offset(b) == (if n < 126 then 2 else if n < 65536 then 4 else 10)
      && |b| == Start(b) + n && Declared(b) == n
      && HasKey(b) == key.Some? && (key.Some? ==> b[Offset(b)..Offset(b) + 4] == key.value)
      && Carries(b, f.payload)
  {
    EncodeHead(f, key);
    EncodeBody(f, key);
    hide Encode;
  }

  lemma Long(length: nat)
    requires length < 0x1_0000_0000
    ensures length == ((length / 0x100_0000 * 256 + length / 0x1_0000 % 256) * 256 + length / 0x100 % 256) * 256 + length % 256
  {
    var x4, x5, x6 := length / 0x100_0000, length / 0x1_0000, length / 0x100;
    assert x5 == x4 * 256 + x5 % 256 && x6 == x5 * 256 + x6 % 256;
  }

  /** A header whose second byte and extension are those of LengthBytes declares n. */
  lemma LengthDeclared(b: seq<Byte>, n: nat)
    requires n < 0x1_0000_0000 && |b| >= 2
    requires var length := LengthBytes(n); |b| >= 1 + |length| && b[1] % 128 == length[0] && b[2..1 + |length|] == length[1..]
    ensures Offset(b) == 1 + |LengthBytes(n)| == (if n < 126 then 2 else if n < 65536 then 4 else 10)
    ensures |b| >= Offset(b) && Declared(b) == n
  {
    var length := LengthBytes(n);
    forall i | 1 <= i < |length| ensures b[1 + i] == length[i] { assert b[2..1 + |length|][i - 1] == length[1..][i - 1]; }
    Long(n);
  }

  /** A frame on the wire is its head and the rest: key and masked payload, or payload. */
  lemma Layout(f: Frame, key: Option<seq<Byte>>)
    requires f.opcode < 16 && |f.payload| < 0x1_0000_0000 && (key.Some? ==> |key.value| == 4)
    ensures var b, length := Encode(f, key), LengthBytes(|f.payload|); var h := 1 + |length|;
      var rest := if key.Some? then key.value + Masked(f.payload, key.value) else f.payload;
      && |b| == h + |rest| && b[h..] == rest
      && b[0] == f.opcode + (if f.fin then 128 else 0) && b[1] % 128 == length[0] && (b[1] >= 128 <==> key.Some?)
      && b[2..h] == length[1..]
  {
    var b, length := Encode(f, key), LengthBytes(|f.payload|);
    hide LengthBytes;
    hide Masked;
    match key
    case None =>
      assert b == [b[0]] + length + f.payload;
    case Some(k) =>
      var masked := Masked(f.payload, k);
      assert b == [b[0]] + [b[1]] + length[1..] + (k + masked);
  }

  lemma EncodeHead(f: Frame, key: Option<seq<Byte>>)
    requires f.opcode < 16 && |f.payload| < 0x1_0000_0000 && (key.Some? ==> |key.value| == 4)
    ensures var b := Encode(f, key); var n := |f.payload|;
      && |b| >= 2 && b[0] == f.opcode + (if f.fin then 128 else 0)
      && Offset(b) == 1 + |LengthBytes(n)| == (if n < 126 then 2 else if n < 65536 then 4 else 10)
      && |b| == Start(b) + n && Declared(b) == n && HasKey(b) == key.Some?
  {
    Layout(f, key);
    hide Encode;
    hide LengthBytes;
    hide Offset;
    hide Declared;
    hide Masked;
    LengthDeclared(Encode(f, key), |f.payload|);
  }

  lemma EncodeBody(f: Frame, key: Option<seq<Byte>>)
    requires f.opcode < 16 && |f.payload| < 0x1_0000_0000 && (key.Some? ==> |key.value| == 4)
    ensures var b := Encode(f, key);
      && |b| >= 2 && |b| == Start(b) + |f.payload|
      && (key.Some? ==> b[Offset(b)..Offset(b) + 4] == key.value) && Carries(b, f.payload)
  {
    Layout(f, key);
    EncodeHead(f, key);
    var b := Encode(f, key);
    hide *;
    if key.Some? { KeyedBody(b, key.value, f.payload); } else { PlainBody(b, f.payload); }
  }

  lemma PlainBody(b: seq<Byte>, payload: seq<Byte>)
    requires |b| >= 2 && !HasKey(b) && Offset(b) <= |b| && b[Offset(b)..] == payload
    ensures |b| == Start(b) + |payload| && Carries(b, payload)
  {
    hide Offset;
    var h := Offset(b);
    forall i | 0 <= i < |payload| ensures b[h + i] == payload[i] { assert b[h..][i] == payload[i]; }
  }

  lemma KeyedBody(b: seq<Byte>, k: seq<Byte>, payload: seq<Byte>)
    requires |b| >= 2 && HasKey(b) && |k| == 4 && Offset(b) <= |b| && b[Offset(b)..] == k + Masked(payload, k)
    ensures |b| == Start(b) + |payload| && b[Offset(b)..Offset(b) + 4] == k && Carries(b, payload)
  {
    hide Offset;
    var h := Offset(b);
    assert b[h..h + 4] == b[h..][..4] == k;
    forall i | 0 <= i < |payload| ensures b[h + 4 + i] == Xor(payload[i], b[h + i % 4]) {
      assert b[h..][4 + i] == Masked(payload, k)[i] && b[h..][i % 4] == k[i % 4];
    }
  }

  // ----- the examples of section 5.7 -----

  const HELLO: seq<Byte> := [0x48, 0x65, 0x6c, 0x6c, 0x6f]

  /** Two frames that carry the same bytes without a key carry the same payload. */
  lemma PlainPayload(b: seq<Byte>, p: seq<Byte>, payload: seq<Byte>)
    requires |b| >= 2 && !HasKey(b) && |p| == |payload| && |b| == Start(b) + |p| && Carries(b, p) && b[Offset(b)..] == payload
    ensures p == payload
  {
    hide Offset;
    forall i | 0 <= i < |payload| ensures p[i] == payload[i] { assert b[Offset(b)..][i] == b[Offset(b) + i]; }
  }

  lemma PlainRead(head: seq<Byte>, payload: seq<Byte>)
    requires |head| >= 2 && head[1] < 128 && |head| == Offset(head) && Declared(head) == |payload| <= 16777216
    ensures Read(head + payload) == Got(Frame(head[0] >= 128, head[0] % 16, payload), |head| + |payload|)
  {
    var b := head + payload;
    assert Offset(b) == Offset(head) && Declared(b) == Declared(head);
    ReadMeaning(b);
    assert b[|head|..] == payload;
    hide Read;
    hide Declared;
    hide Carries;
    PlainPayload(b, Read(b).frame.payload, payload);
  }

  /** Unmasking, at one position. */
  lemma MaskedAt(body: seq<Byte>, key: seq<Byte>, i: nat, k: nat)
    requires |key| == 4 && i < |body| && k == i % 4
    ensures Masked(body, key)[i] == Xor(body[i], key[k])
  {
  }

  lemma KeyedRead(b: seq<Byte>, key: seq<Byte>, body: seq<Byte>)
    requires |body| < 126 && |b| == 6 + |body| && b[1] == 128 + |body| && b[2..6] == key && b[6..] == body
    ensures Read(b) == Got(Frame(b[0] >= 128, b[0] % 16, Masked(body, key)), |b|)
  {
    HeaderMeaning(b);
    assert Offset(b) == 2 && Declared(b) == |body|;
    assert b[6..6 + |body|] == body;
    hide Header;
    hide Offset;
    hide Declared;
    hide Masked;
    hide TopBit;
    hide Low4;
    ReadBehindHeader(b, 2, |body|);
  }

  /** A masked frame that is all there, once its header is read. */
  lemma ReadBehindHeader(b: seq<Byte>, offset: nat, length: nat)
    requires offset >= 2 && |b| >= offset + 4 + length && Header(b) == Some((offset, length)) && b[1] >= 128 && length <= MAX_FRAME
    ensures Read(b) == Got(Frame(b[0] >= 128, b[0] % 16, Masked(b[offset + 4..offset + 4 + length], b[offset..offset + 4])), offset + 4 + length)
  {
    hide Header;
    hide Masked;
  }

  // The five bytes of the masked example, digit by digit.

  lemma MaskOfH()
    ensures Xor(127, 55) == 72
  {
    assert Xor(7, 3) == 4;
    hide Xor;
    XorDigit(127, 55);
    XorDigit(63, 27);
    XorDigit(31, 13);
    XorDigit(15, 6);
  }

  lemma MaskOfE()
    ensures Xor(159, 250) == 101
  {
    assert Xor(4, 7) == 3;
    hide Xor;
    XorDigit(159, 250);
    XorDigit(79, 125);
    XorDigit(39, 62);
    XorDigit(19, 31);
    XorDigit(9, 15);
  }

  lemma MaskOfL()
    ensures Xor(77, 33) == 108
  {
    assert Xor(4, 2) == 6;
    hide Xor;
    XorDigit(77, 33);
    XorDigit(38, 16);
    XorDigit(19, 8);
    XorDigit(9, 4);
  }

  lemma MaskOfSecondL()
    ensures Xor(81, 61) == 108
  {
    assert Xor(5, 3) == 6;
    hide Xor;
    XorDigit(81, 61);
    XorDigit(40, 30);
    XorDigit(20, 15);
    XorDigit(10, 7);
  }

  lemma MaskOfO()
    ensures Xor(88, 55) == 111
  {
    assert Xor(5, 3) == 6;
    hide Xor;
    XorDigit(88, 55);
    XorDigit(44, 27);
    XorDigit(22, 13);
    XorDigit(11, 6);
  }

  /** The payload a key and a body give, from its bytes. */
  lemma MaskedFive(key: seq<Byte>, body: seq<Byte>, p: seq<Byte>)
    requires |key| == 4 && |body| == |p| == 5
    requires p[0] == Xor(body[0], key[0]) && p[1] == Xor(body[1], key[1]) && p[2] == Xor(body[2], key[2])
    requires p[3] == Xor(body[3], key[3]) && p[4] == Xor(body[4], key[0])
    ensures Masked(body, key) == p
  {
    MaskedAt(body, key, 0, 0);
    MaskedAt(body, key, 1, 1);
    MaskedAt(body, key, 2, 2);
    MaskedAt(body, key, 3, 3);
    MaskedAt(body, key, 4, 0);
    hide Xor;
    hide Masked;
  }

  /** A single-frame masked text message: "Hello". */
  lemma MaskedHello(b: seq<Byte>)
    requires |b| == 11 && b[..2] == [0x81, 0x85] && b[2..6] == [0x37, 0xfa, 0x21, 0x3d] && b[6..] == [0x7f, 0x9f, 0x4d, 0x51, 0x58]
    ensures Read(b) == Got(Frame(true, 1, HELLO), 11)
  {
    hide Xor;
    hide Masked;
    hide Read;
    MaskOfH();
    MaskOfE();
    MaskOfL();
    MaskOfSecondL();
    MaskOfO();
    MaskedFive(b[2..6], b[6..], HELLO);
    assert b[0] == b[..2][0] && b[1] == b[..2][1];
    KeyedRead(b, b[2..6], b[6..]);
  }

  /** A single-frame unmasked text message and an unmasked Ping, both carrying "Hello". */
  lemma PlainHello()
    ensures Read([0x81, 0x05] + HELLO) == Got(Frame(true, 1, HELLO), 7)
    ensures Read([0x89, 0x05] + HELLO) == Got(Frame(true, 9, HELLO), 7)
  {
    hide Read;
    PlainRead([0x81, 0x05], HELLO);
    PlainRead([0x89, 0x05], HELLO);
  }

  /** A fragmented unmasked text message: "Hel" and "lo". */
  lemma FragmentedHello()
    ensures Read([0x01, 0x03] + HELLO[..3]) == Got(Frame(false, 1, HELLO[..3]), 5)
    ensures Read([0x80, 0x02] + HELLO[3..]) == Got(Frame(true, 0, HELLO[3..]), 4)
  {
    hide Read;
    PlainRead([0x01, 0x03], HELLO[..3]);
    PlainRead([0x80, 0x02], HELLO[3..]);
  }

  /** 256 bytes and 64 KiB of binary data: the two longer length forms. */
  lemma LongerForms(data: seq<Byte>, more: seq<Byte>)
    requires |data| == 256 && |more| == 65536
    ensures Read([0x82, 0x7e, 0x01, 0x00] + data) == Got(Frame(true, 2, data), 260)
    ensures Read([0x82, 0x7f, 0, 0, 0, 0, 0, 0x01, 0, 0] + more) == Got(Frame(true, 2, more), 65546)
  {
    hide Read;
    PlainRead([0x82, 0x7e, 0x01, 0x00], data);
    PlainRead([0x82, 0x7f, 0, 0, 0, 0, 0, 0x01, 0, 0], more);
  }

  // ----- around the messages -----

  /** After a head to skip, parsing starts right behind its first CR LF CR LF. */
  lemma HeadSkipped(head: seq<Byte>, units: seq<Unit>, chunks: seq<seq<Byte>>)
    requires (forall i :: 0 <= i < |units| ==> Proper(units[i])) && forall i :: 0 <= i < |FramesOf(units)| ==> Sendable(FramesOf(units)[i])
    requires Concat(chunks) == head + [13, 10, 13, 10] + Wire(FramesOf(units))
    requires forall i :: At(Concat(chunks), [13, 10, 13, 10], i) ==> i >= |head|
    ensures PushAll(AFTER_HEAD, chunks) == Result(FRESH, Meaning(units))
  {
    var whole, rest := Concat(chunks), Wire(FramesOf(units));
    FreshSettled();
    ChunksDoNotMatter(AFTER_HEAD, chunks);
    assert [] + whole == whole;
    assert whole[|head|..|head| + 4] == [13, 10, 13, 10];
    IsIndexOf(whole, [13, 10, 13, 10], |head|);
    assert whole[|head| + 4..] == rest;
    DrainWire(FRESH.(buffer := rest), FramesOf(units));
    UnitsHandled(units);
    hide Wire;
    hide HandleAll;
    hide Drain;
  }

  /** A frame that declares more than 16 MiB kills the parser: nothing is emitted, the buffer
      is dropped, and whatever follows is ignored. */
  lemma OversizedKills(chunk: seq<Byte>, later: seq<seq<Byte>>)
    requires |chunk| >= 2 && |chunk| >= Offset(chunk) && Declared(chunk) > 16777216
    ensures PushAll(FRESH, [chunk] + later) == Result(State([], None, true, false), [])
  {
    ReadMeaning(chunk);
    assert [] + chunk == chunk && ([chunk] + later)[1..] == later;
    DeadStays(State([], None, true, false), later);
    hide Read;
  }

  lemma {:induction false} DeadStays(st: State, chunks: seq<seq<Byte>>)
    requires st.dead
    ensures PushAll(st, chunks) == Result(st, [])
    decreases |chunks|
  {
    if chunks != [] { DeadStays(st, chunks[1..]); }
  }

  /** Frames out of place: a continuation without a start is ignored, a whole message among
      fragments is emitted at once and leaves them alone, and a new start drops them. */
  lemma OutOfPlace(open: Fragments, f: Frame)
    ensures f.opcode == 0 ==> Handle(None, f) == (None, [])
    ensures 1 <= f.opcode < 8 && f.fin ==> Handle(Some(open), f) == (Some(open), [Message(f.opcode, f.payload)])
    ensures 1 <= f.opcode < 8 && !f.fin ==> Handle(Some(open), f) == (Some(Fragments(f.opcode, [f.payload])), [])
  {
  }
}
