/** The 5-byte frame header shared by both ends, and the frames of the protocol as
    bytes. */
module FrameCodec {
  import opened Prelude
  import opened MuxTypes

  const HEADER_SIZE := 5

  /** A decoded header with its payload. */
  datatype Raw = Raw(kind: Byte, id: nat, payload: seq<Byte>)

  /** Four bytes, most significant first. */
  function ToBE(n: nat): (b: seq<Byte>)
    ensures |b| == 4
  {
    [n / 0x100_0000 % 256, n / 0x1_0000 % 256, n / 0x100 % 256, n % 256]
  }

  function FromBE(b: seq<Byte>): nat
    requires |b| >= 4
  {
    var b0: int, b1: int, b2: int, b3: int := b[0], b[1], b[2], b[3];
    b0 * 0x100_0000 + b1 * 0x1_0000 + b2 * 0x100 + b3
  }

  lemma BERoundTrip(n: nat)
    ensures FromBE(ToBE(n)) == n % ID_LIMIT
  {
    var a, b, c := n / 0x100, n / 0x1_0000, n / 0x100_0000;
    assert b == a / 0x100 && c == b / 0x100;
    assert n % ID_LIMIT == c % 256 * 0x100_0000 + b % 256 * 0x1_0000 + a % 256 * 0x100 + n % 256;
  }

  lemma BEInjective(b: seq<Byte>)
    requires |b| == 4
    ensures ToBE(FromBE(b)) == b && FromBE(b) < ID_LIMIT
  {
    var n := FromBE(b);
    var b0: int, b1: int, b2: int := b[0], b[1], b[2];
    assert n / 0x100 == b0 * 0x1_0000 + b1 * 0x100 + b2;
    assert n / 0x1_0000 == b0 * 0x100 + b1;
    assert n / 0x100_0000 == b0;
  }

  /** encode: writes header and body into a new buffer. */
  method Encode(kind: Byte, id: nat, payload: seq<Byte>) returns (frame: array<Byte>)
    ensures frame[..] == [kind] + ToBE(id) + payload
  {
    frame := new Byte[HEADER_SIZE + |payload|];
    var be := ToBE(id);
    frame[0] := kind;
    frame[1], frame[2], frame[3], frame[4] := be[0], be[1], be[2], be[3];
    for i := 0 to |payload|
      invariant frame[..5] == [kind] + be
      invariant frame[5..5 + i] == payload[..i]
    {
      frame[5 + i] := payload[i];
      assert frame[5..5 + i + 1] == frame[5..5 + i] + [payload[i]];
    }
    assert frame[..] == frame[..5] + frame[5..5 + |payload|];
  }

  function Decode(buffer: seq<Byte>): Option<Raw> {
    if |buffer| < HEADER_SIZE then None
    else Some(Raw(buffer[0], FromBE(buffer[1..5]), buffer[5..]))
  }

  /** Decoding undoes encoding, up to the 32 bits an id travels in. */
  lemma DecodeEncode(kind: Byte, id: nat, payload: seq<Byte>)
    ensures Decode([kind] + ToBE(id) + payload) == Some(Raw(kind, id % ID_LIMIT, payload))
  {
    var buffer := [kind] + ToBE(id) + payload;
    BERoundTrip(id);
    assert buffer[1..5] == ToBE(id);
    assert buffer[5..] == payload;
  }

  /** Encoding undoes decoding: no two buffers decode alike. */
  lemma EncodeDecode(buffer: seq<Byte>)
    requires |buffer| >= HEADER_SIZE
    ensures var raw := Decode(buffer).value; [raw.kind] + ToBE(raw.id) + raw.payload == buffer
  {
    BEInjective(buffer[1..5]);
    assert buffer == [buffer[0]] + buffer[1..5] + buffer[5..];
  }

  /** Network byte order: the most significant byte first. */
  lemma NetworkOrder(b: seq<Byte>)
    requires |b| == 4
    ensures FromBE(b) == Numeric(b)
    ensures FromBE([0, 0, 1, 2]) == 258 && ToBE(258) == [0, 0, 1, 2]
  {
    var b0: int, b1: int, b2: int, b3: int := b[0], b[1], b[2], b[3];
    assert b[..3][..2][..1][..0] == [] && b[..3][..2] == b[..2] && b[..2][..1] == b[..1];
    assert Numeric(b[..1]) == b0;
    assert Numeric(b[..2]) == b0 * 256 + b1;
    assert Numeric(b[..3]) == (b0 * 256 + b1) * 256 + b2;
    assert Numeric(b) == ((b0 * 256 + b1) * 256 + b2) * 256 + b3;
  }

  // ----- protocol frames -----

  const OPEN: Byte := 1
  const DATA: Byte := 2
  const CLOSE: Byte := 3
  const WINDOW_UPDATE: Byte := 4
  const DATAGRAM: Byte := 5
  const RESET: Byte := 6

  function Kind(f: Frame): Byte {
    match f
    case Open(_) => OPEN
    case Data(_, _) => DATA
    case Close(_) => CLOSE
    case Update(_, _) => WINDOW_UPDATE
    case Datagram(_, _) => DATAGRAM
    case Reset(_) => RESET
  }

  /** What an end puts in a frame; `meta` is the JSON of an OPEN. */
  function Payload(f: Frame, meta: seq<Byte>): seq<Byte> {
    match f
    case Open(_) => meta
    case Data(_, payload) => payload
    case Datagram(_, payload) => payload
    case Update(_, amount) => ToBE(amount)
    case _ => []
  }

  /** How both ends read a frame; None is ignored. */
  function Unmarshal(buffer: seq<Byte>): Option<Frame> {
    match Decode(buffer)
    case None => None
    case Some(Raw(kind, id, payload)) =>
      if kind == OPEN then Some(Open(id))
      else if kind == DATA then Some(Data(id, payload))
      else if kind == CLOSE then Some(Close(id))
      else if kind == WINDOW_UPDATE then if |payload| >= 4 then Some(Update(id, FromBE(payload))) else None
      else if kind == DATAGRAM then Some(Datagram(id, payload))
      else if kind == RESET then Some(Reset(id))
      else None
  }

  /** Every frame whose numbers fit 32 bits survives the wire. */
  lemma WireRoundTrip(f: Frame, meta: seq<Byte>)
    requires f.id < ID_LIMIT && (f.Update? ==> f.amount < ID_LIMIT)
    ensures Unmarshal([Kind(f)] + ToBE(f.id) + Payload(f, meta)) == Some(f)
  {
    hide Decode;
    hide ToBE;
    hide FromBE;
    DecodeEncode(Kind(f), f.id, Payload(f, meta));
    if f.Update? { BERoundTrip(f.amount); }
  }

  /** A frame of each kind as bytes. */
  lemma FrameBytes(payload: seq<Byte>, meta: seq<Byte>)
    ensures [Kind(Open(258))] + ToBE(258) + Payload(Open(258), meta) == [1, 0, 0, 1, 2] + meta
    ensures [Kind(Data(258, payload))] + ToBE(258) + Payload(Data(258, payload), meta) == [2, 0, 0, 1, 2] + payload
    ensures [Kind(Close(258))] + ToBE(258) + Payload(Close(258), meta) == [3, 0, 0, 1, 2]
    ensures [Kind(Update(258, 258))] + ToBE(258) + Payload(Update(258, 258), meta) == [4, 0, 0, 1, 2, 0, 0, 1, 2]
    ensures [Kind(Datagram(258, payload))] + ToBE(258) + Payload(Datagram(258, payload), meta) == [5, 0, 0, 1, 2] + payload
    ensures [Kind(Reset(258))] + ToBE(258) + Payload(Reset(258), meta) == [6, 0, 0, 1, 2]
  {
  }
}
