/** What the WebSocket frame parser does with a byte stream (sections 5.2 to 5.4 of
    RFC 6455), and what the encoder writes. */
module WebSocketSpec {
  import opened Prelude
  import opened Bits
  import opened Search

  const MAX_FRAME := 16 * 1024 * 1024
  const LENGTH_LIMIT := 0x1_0000_0000   // the encoder writes lengths of 32 bits

  datatype Message = Message(opcode: nat, payload: seq<Byte>)
  datatype Fragments = Fragments(opcode: nat, parts: seq<seq<Byte>>)

  datatype State = State(buffer: seq<Byte>, fragments: Option<Fragments>, dead: bool, awaitingHead: bool)

  datatype Result = Result(state: State, messages: seq<Message>)

  // ----- bytes -----

  predicate TopBit(b: Byte)
    ensures TopBit(b) <==> b >= 128
  {
    Powers();
    AndHigh(b, 7, 8);
    LowIs(b, 7, 128);
    And(b, 0x80) != 0
  }

  function Low7(b: Byte): (r: nat)
    ensures r == b % 128
  {
    Powers();
    AndOnes(b, 7);
    LowIs(b, 7, 128);
    And(b, 0x7f)
  }

  function Low4(b: Byte): (r: nat)
    ensures r == b % 16
  {
    Powers();
    AndOnes(b, 4);
    LowIs(b, 4, 16);
    And(b, 0x0f)
  }

  /** b | 0x80 for a byte below 0x80. */
  function SetTop(b: Byte): (r: Byte)
    requires b < 128
    ensures r == 128 + b
  {
    Powers();
    OrAbove(b, 7);
    Or(0x80, b)
  }

  function XorByte(a: Byte, k: Byte): (r: Byte)
    ensures Xor(r, k) == a
  {
    Powers();
    XorBelow(a, k, 8);
    XorCancels(a, k);
    Xor(a, k)
  }

  /** The payload masked with the key, byte i with key[i & 3]. */
  function Masked(payload: seq<Byte>, key: seq<Byte>): (r: seq<Byte>)
    requires |key| == 4
    ensures |r| == |payload|
  {
    seq(|payload|, i requires 0 <= i < |payload| => XorByte(payload[i], key[i % 4]))
  }

  lemma MaskTwice(payload: seq<Byte>, key: seq<Byte>)
    requires |key| == 4
    ensures Masked(Masked(payload, key), key) == payload
  {
    var once := Masked(payload, key);
    forall i | 0 <= i < |payload| ensures Masked(once, key)[i] == payload[i] {
      XorCancels(payload[i], key[i % 4]);
    }
  }

  // ----- reading one frame -----

  datatype Frame = Frame(fin: bool, opcode: nat, payload: seq<Byte>)

  datatype Step = More | TooLong | Got(frame: Frame, size: nat)

  /** Where the length field ends and what it says; None while it is incomplete. */
  function Header(b: seq<Byte>): Option<(nat, nat)>
    requires |b| >= 2
  {
    var length := Low7(b[1]);
    if length == 126 then if |b| < 4 then None else Some((4, Numeric(b[2..4])))
    else if length == 127 then if |b| < 10 then None else Some((10, Numeric(b[2..10])))
    else Some((2, length))
  }

  /** One turn of the drain loop on the buffered bytes. */
  function Read(b: seq<Byte>): (r: Step)
    ensures r.Got? ==> 2 <= r.size <= |b|
  {
    if |b| < 2 then More
    else match Header(b)
      case None => More
      case Some((offset, length)) =>
        if length > MAX_FRAME then TooLong
        else
          var start := offset + if TopBit(b[1]) then 4 else 0;
          if |b| < start + length then More
          else
            var body := b[start..start + length];
            var payload := if TopBit(b[1]) then Masked(body, b[offset..offset + 4]) else body;
            Got(Frame(TopBit(b[0]), Low4(b[0]), payload), start + length)
  }

  /** What a frame does to the fragment buffer, and the messages it yields. */
  function Handle(fragments: Option<Fragments>, f: Frame): (Option<Fragments>, seq<Message>) {
    if f.opcode >= 8 then (fragments, [Message(f.opcode, f.payload)])
    else if f.opcode == 0 then
      if fragments.None? then (fragments, [])
      else
        var parts := fragments.value.parts + [f.payload];
        if f.fin then (None, [Message(fragments.value.opcode, Concat(parts))])
        else (Some(Fragments(fragments.value.opcode, parts)), [])
    else if f.fin then (fragments, [Message(f.opcode, f.payload)])
    else (Some(Fragments(f.opcode, [f.payload])), [])
  }

  // ----- drain and push -----

  function Drain(st: State): Result
    decreases |st.buffer|
  {
    match Read(st.buffer)
    case More => Result(st, [])
    case TooLong => Result(st.(dead := true, buffer := []), [])
    case Got(f, size) =>
      var (fragments, messages) := Handle(st.fragments, f);
      var rest := Drain(st.(buffer := st.buffer[size..], fragments := fragments));
      Result(rest.state, messages + rest.messages)
  }

  /** The index of the first CR LF CR LF, or -1. */
  function HeadEnd(b: seq<Byte>): (r: int)
    ensures r == -1 || 0 <= r <= |b| - 4
  {
    IndexOf(b, [13, 10, 13, 10])
  }

  function Push(st: State, chunk: seq<Byte>): Result {
    if st.dead then Result(st, [])
    else
      var grown := st.(buffer := st.buffer + chunk);
      if !grown.awaitingHead then Drain(grown)
      else
        var end := HeadEnd(grown.buffer);
        if end == -1 then Result(grown, [])
        else Drain(grown.(buffer := grown.buffer[end + 4..], awaitingHead := false))
  }

  function PushAll(st: State, chunks: seq<seq<Byte>>): Result
    decreases |chunks|
  {
    if chunks == [] then Result(st, [])
    else
      var first := Push(st, chunks[0]);
      var rest := PushAll(first.state, chunks[1..]);
      Result(rest.state, first.messages + rest.messages)
  }

  const FRESH := State([], None, false, false)
  const AFTER_HEAD := State([], None, false, true)   // with skipHead

  // ----- the encoder -----

  /** The length field, without the mask bit. */
  function LengthBytes(length: nat): (r: seq<Byte>)
    requires length < LENGTH_LIMIT
    ensures |r| >= 1 && r[0] < 128
  {
    if length < 126 then [length]
    else if length < 65536 then [126, length / 256, length % 256]
    else [127, 0, 0, 0, 0, length / 0x100_0000, length / 0x1_0000 % 256, length / 0x100 % 256, length % 256]
  }

  /** A frame on the wire; encodeFrame always sets FIN. A key masks the payload. */
  function Encode(f: Frame, key: Option<seq<Byte>>): seq<Byte>
    requires f.opcode < 16 && |f.payload| < LENGTH_LIMIT && (key.Some? ==> |key.value| == 4)
  {
    var first: Byte := if f.fin then SetTop(f.opcode) else f.opcode;
    var length := LengthBytes(|f.payload|);
    match key
    case None => [first] + length + f.payload
    case Some(k) => [first] + [SetTop(length[0])] + length[1..] + k + Masked(f.payload, k)
  }
}
