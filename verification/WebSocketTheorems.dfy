/** The parser depends only on the bytes, not on how they are cut; it undoes the
    encoder; and it reassembles fragmented messages. */
module WebSocketTheorems {
  import opened Prelude
  import opened Search
  import opened WebSocketSpec

  // ----- chunk independence -----

  lemma HeaderGrows(b: seq<Byte>, c: seq<Byte>)
    requires |b| >= 2 && Header(b).Some?
    ensures Header(b + c) == Header(b) && Header(b).value.0 <= |b|
  {
    if |b| >= 4 { assert (b + c)[2..4] == b[2..4]; }
    if |b| >= 10 { assert (b + c)[2..10] == b[2..10]; }
  }

  /** A turn that made progress is not changed by bytes that come later. */
  lemma ReadGrows(b: seq<Byte>, c: seq<Byte>)
    requires !Read(b).More?
    ensures Read(b + c) == Read(b)
  {
    hide Header;
    hide Masked;
    hide TopBit;
    hide Low4;
    HeaderGrows(b, c);
    var (offset, length) := Header(b).value;
    var start := offset + if TopBit(b[1]) then 4 else 0;
    assert (b + c)[0] == b[0] && (b + c)[1] == b[1];
    if length <= MAX_FRAME {
      assert (b + c)[start..start + length] == b[start..start + length];
      if TopBit(b[1]) { assert (b + c)[offset..offset + 4] == b[offset..offset + 4]; }
    }
  }

  ghost function Then(first: Result, more: seq<Byte>): Result {
    if first.state.dead then first
    else
      var rest := Drain(first.state.(buffer := first.state.buffer + more));
      Result(rest.state, first.messages + rest.messages)
  }

  /** What the buffer looks like after one frame. */
  function Consumed(st: State): State
    requires Read(st.buffer).Got?
  {
    st.(buffer := st.buffer[Read(st.buffer).size..], fragments := Handle(st.fragments, Read(st.buffer).frame).0)
  }

  lemma DrainTurn(st: State)
    ensures Read(st.buffer).More? ==> Drain(st) == Result(st, [])
    ensures Read(st.buffer).TooLong? ==> Drain(st) == Result(st.(dead := true, buffer := []), [])
    ensures Read(st.buffer).Got? ==>
              var rest := Drain(Consumed(st));
              Drain(st) == Result(rest.state, Handle(st.fragments, Read(st.buffer).frame).1 + rest.messages)
  {
    hide Read;
    hide Handle;
  }

  /** Draining now and again later is draining once at the end. */
  lemma {:induction false} DrainLater(st: State, more: seq<Byte>)
    requires !st.dead
    ensures Drain(st.(buffer := st.buffer + more)) == Then(Drain(st), more)
    decreases |st.buffer|
  {
    hide Read;
    hide Handle;
    hide Drain;
    var grown := st.(buffer := st.buffer + more);
    DrainTurn(st);
    if Read(st.buffer).More? {
      assert [] + Drain(grown).messages == Drain(grown).messages;
    } else {
      ReadGrows(st.buffer, more);
      DrainTurn(grown);
      if Read(st.buffer).Got? {
        var next := Consumed(st);
        assert Consumed(grown) == next.(buffer := next.buffer + more);
        DrainLater(next, more);
        var rest := Drain(next);
        var messages := Handle(st.fragments, Read(st.buffer).frame).1;
        var after := Drain(rest.state.(buffer := rest.state.buffer + more));
        assert messages + (rest.messages + after.messages) == (messages + rest.messages) + after.messages;
      }
    }
  }

  lemma {:induction false} DrainKeepsHead(st: State)
    ensures Drain(st).state.awaitingHead == st.awaitingHead
    decreases |st.buffer|
  {
    match Read(st.buffer)
    case Got(f, size) => DrainKeepsHead(st.(buffer := st.buffer[size..], fragments := Handle(st.fragments, f).0));
    case _ =>
  }

  /** Two pushes in a row are one push of both chunks. */
  lemma PushTwice(st: State, a: seq<Byte>, b: seq<Byte>)
    ensures var one := Push(st, a); var two := Push(one.state, b);
            Push(st, a + b) == Result(two.state, one.messages + two.messages)
  {
    if st.dead { return; }
    var grown := st.(buffer := st.buffer + a);
    assert st.buffer + (a + b) == grown.buffer + b;
    if !st.awaitingHead {
      DrainLater(grown, b);
      DrainKeepsHead(grown);
    } else {
      var end := HeadEnd(grown.buffer);
      if end != -1 {
        IndexOfGrows(grown.buffer, b, [13, 10, 13, 10]);
        var cut := grown.(buffer := grown.buffer[end + 4..], awaitingHead := false);
        assert (grown.buffer + b)[end + 4..] == cut.buffer + b;
        DrainLater(cut, b);
        DrainKeepsHead(cut);
      } else {
        var once := Push(st, a + b);
        assert [] + once.messages == once.messages;
      }
    }
  }

  /** Nothing was waiting to be parsed. */
  ghost predicate Settled(st: State) {
    st.dead || (if st.awaitingHead then HeadEnd(st.buffer) == -1 else Read(st.buffer).More?)
  }

  /** Chunk independence: feeding a byte stream in any chunks yields the messages and
      the state of feeding it in one push, with and without a head to skip. */
  lemma {:induction false} ChunksDoNotMatter(st: State, chunks: seq<seq<Byte>>)
    requires Settled(st)
    ensures PushAll(st, chunks) == Push(st, Concat(chunks))
    decreases |chunks|
  {
    if chunks == [] {
      assert st.buffer + [] == st.buffer;
    } else {
      var first := Push(st, chunks[0]);
      PushSettles(st, chunks[0]);
      ChunksDoNotMatter(first.state, chunks[1..]);
      PushTwice(st, chunks[0], Concat(chunks[1..]));
    }
  }

  lemma {:induction false} DrainSettles(st: State)
    ensures Drain(st).state.dead || Read(Drain(st).state.buffer).More?
    decreases |st.buffer|
  {
    match Read(st.buffer)
    case Got(f, size) => DrainSettles(st.(buffer := st.buffer[size..], fragments := Handle(st.fragments, f).0));
    case _ =>
  }

  lemma PushSettles(st: State, chunk: seq<Byte>)
    ensures Settled(Push(st, chunk).state)
  {
    hide Read;
    hide Drain;
    hide HeadEnd;
    if !st.dead {
      var grown := st.(buffer := st.buffer + chunk);
      var end := HeadEnd(grown.buffer);
      var from := if st.awaitingHead && end != -1 then grown.(buffer := grown.buffer[end + 4..], awaitingHead := false) else grown;
      DrainSettles(from);
      DrainKeepsHead(from);
    }
  }

  lemma FreshSettled()
    ensures Settled(FRESH) && Settled(AFTER_HEAD)
  {
  }

  // ----- round trip -----

  lemma ValueOf2(a: Byte, b: Byte)
    ensures Numeric([a, b]) == a * 256 + b
  {
    assert [a, b][..1] == [a] && [a][..0] == [];
    assert Numeric([a]) == Numeric([]) * 256 + a;
  }

  lemma ValueSnoc(b: seq<Byte>, x: Byte)
    ensures Numeric(b + [x]) == Numeric(b) * 256 + x
  {
    assert (b + [x])[..|b|] == b;
  }

  lemma Digits(length: nat)
    requires length <= MAX_FRAME
    ensures length == ((length / 0x100_0000 * 256 + length / 0x1_0000 % 256) * 256 + length / 0x100 % 256) * 256 + length % 256
  {
    var x4, x5, x6 := length / 0x100_0000, length / 0x1_0000, length / 0x100;
    assert x5 == x4 * 256 + x5 % 256 && x6 == x5 * 256 + x6 % 256;
  }

  lemma ValueOf8(length: nat, b: seq<Byte>)
    requires length <= MAX_FRAME
    requires b == [0, 0, 0, 0, length / 0x100_0000, length / 0x1_0000 % 256, length / 0x100 % 256, length % 256]
    ensures Numeric(b) == length
  {
    Digits(length);
    NumericZeros();
    hide Numeric;
    var zeros: seq<Byte> := [0, 0, 0, 0];
    ValueSnoc(zeros, b[4]);
    ValueSnoc(zeros + [b[4]], b[5]);
    ValueSnoc(zeros + [b[4]] + [b[5]], b[6]);
    ValueSnoc(zeros + [b[4]] + [b[5]] + [b[6]], b[7]);
    assert b == zeros + [b[4]] + [b[5]] + [b[6]] + [b[7]];
  }

  lemma NumericZeros()
    ensures Numeric([0, 0, 0, 0]) == 0
  {
    ValueSnoc([], 0);
    ValueSnoc([0], 0);
    ValueSnoc([0, 0], 0);
    ValueSnoc([0, 0, 0], 0);
    assert [] + [0] == [0] && [0] + [0] == [0, 0] && [0, 0] + [0] == [0, 0, 0] && [0, 0, 0] + [0] == [0, 0, 0, 0];
  }

  lemma LengthRead(first: Byte, length: nat, masked: bool, rest: seq<Byte>, b: seq<Byte>)
    requires length <= MAX_FRAME
    requires var field := LengthBytes(length); b == [first] + [if masked then SetTop(field[0]) else field[0]] + field[1..] + rest
    ensures Header(b) == Some((1 + |LengthBytes(length)|, length)) && TopBit(b[1]) == masked && b[0] == first
  {
    hide TopBit;
    hide Low7;
    hide SetTop;
    hide Numeric;
    var field := LengthBytes(length);
    assert Low7(b[1]) == field[0];
    if 126 <= length < 65536 {
      assert b[2..4] == [length / 256, length % 256];
      ValueOf2(length / 256, length % 256);
    } else if length >= 65536 {
      assert b[2..10] == field[1..];
      ValueOf8(length, field[1..]);
    }
  }

  function FirstByte(f: Frame): (r: Byte)
    requires f.opcode < 16
    ensures TopBit(r) == f.fin && Low4(r) == f.opcode
  {
    if f.fin then SetTop(f.opcode) else f.opcode
  }

  lemma ReadPlain(f: Frame, rest: seq<Byte>)
    requires f.opcode < 16 && |f.payload| <= MAX_FRAME
    ensures Read(Encode(f, None) + rest) == Got(f, |Encode(f, None)|)
  {
    var field := LengthBytes(|f.payload|);
    var b := Encode(f, None) + rest;
    assert b == [FirstByte(f)] + [field[0]] + field[1..] + (f.payload + rest);
    LengthRead(FirstByte(f), |f.payload|, false, f.payload + rest, b);
    hide Header;
    hide TopBit;
    hide Low4;
    hide SetTop;
    hide LengthBytes;
    assert |Encode(f, None)| == 1 + |field| + |f.payload|;
    assert b[1 + |field|..1 + |field| + |f.payload|] == f.payload;
  }

  lemma ReadMasked(f: Frame, key: seq<Byte>, rest: seq<Byte>)
    requires f.opcode < 16 && |f.payload| <= MAX_FRAME && |key| == 4
    ensures Read(Encode(f, Some(key)) + rest) == Got(f, |Encode(f, Some(key))|)
  {
    MaskTwice(f.payload, key);
    var field := LengthBytes(|f.payload|);
    hide Masked;
    hide Header;
    hide TopBit;
    hide Low4;
    hide SetTop;
    hide LengthBytes;
    var body := Masked(f.payload, key);
    var code := Encode(f, Some(key));
    var b := code + rest;
    MaskedLayout(FirstByte(f), field, key, body, rest, b);
    LengthRead(FirstByte(f), |f.payload|, true, key + body + rest, b);
  }

  /** Where key and body sit in a masked frame. */
  lemma MaskedLayout(first: Byte, field: seq<Byte>, key: seq<Byte>, body: seq<Byte>, rest: seq<Byte>, b: seq<Byte>)
    requires |field| >= 1 && field[0] < 128 && |key| == 4
    requires b == ([first] + [SetTop(field[0])] + field[1..] + key + body) + rest
    ensures b == [first] + [SetTop(field[0])] + field[1..] + (key + body + rest)
    ensures var offset := 1 + |field|;
            offset + 4 + |body| <= |b| && b[offset..offset + 4] == key && b[offset + 4..offset + 4 + |body|] == body
  {
    hide SetTop;
  }

  /** A frame with the key it is masked with, if any. */
  datatype Sent = Sent(frame: Frame, key: Option<seq<Byte>>)

  predicate Sendable(s: Sent) {
    s.frame.opcode < 16 && |s.frame.payload| <= MAX_FRAME && (s.key.Some? ==> |s.key.value| == 4)
  }

  function Wire(sent: seq<Sent>): seq<Byte>
    requires forall i :: 0 <= i < |sent| ==> Sendable(sent[i])
  {
    if sent == [] then []
    else
      assert Sendable(sent[0]);
      Encode(sent[0].frame, sent[0].key) + Wire(sent[1..])
  }

  /** The frames handled one after another. */
  function HandleAll(fragments: Option<Fragments>, sent: seq<Sent>): (Option<Fragments>, seq<Message>)
    decreases |sent|
  {
    if sent == [] then (fragments, [])
    else
      var (next, first) := Handle(fragments, sent[0].frame);
      var (last, rest) := HandleAll(next, sent[1..]);
      (last, first + rest)
  }

  /** Parsing what was encoded handles exactly the encoded frames and leaves no byte. */
  lemma {:induction false} DrainWire(st: State, sent: seq<Sent>)
    requires forall i :: 0 <= i < |sent| ==> Sendable(sent[i])
    requires st.buffer == Wire(sent)
    ensures var (fragments, messages) := HandleAll(st.fragments, sent);
            Drain(st) == Result(st.(buffer := [], fragments := fragments), messages)
    decreases |sent|
  {
    if sent != [] {
      var s := sent[0];
      match s.key {
        case None => ReadPlain(s.frame, Wire(sent[1..]));
        case Some(k) => ReadMasked(s.frame, k, Wire(sent[1..]));
      }
      var size := |Encode(s.frame, s.key)|;
      assert st.buffer[size..] == Wire(sent[1..]);
      var next := Handle(st.fragments, s.frame).0;
      DrainWire(st.(buffer := Wire(sent[1..]), fragments := next), sent[1..]);
    }
  }

  function MessagesOf(sent: seq<Sent>): seq<Message> {
    if sent == [] then [] else [Message(sent[0].frame.opcode, sent[0].frame.payload)] + MessagesOf(sent[1..])
  }

  lemma {:induction false} WholeFrames(fragments: Option<Fragments>, sent: seq<Sent>)
    requires forall i :: 0 <= i < |sent| ==> sent[i].frame.fin && sent[i].frame.opcode > 0
    ensures HandleAll(fragments, sent) == (fragments, MessagesOf(sent))
    decreases |sent|
  {
    if sent != [] { WholeFrames(fragments, sent[1..]); }
  }

  /** Encoded frames, in any chunks, are handled one after the other by a fresh parser. */
  lemma WireParsed(sent: seq<Sent>, chunks: seq<seq<Byte>>)
    requires (forall i :: 0 <= i < |sent| ==> Sendable(sent[i])) && Concat(chunks) == Wire(sent)
    ensures var (fragments, messages) := HandleAll(None, sent);
            PushAll(FRESH, chunks) == Result(FRESH.(fragments := fragments), messages)
  {
    FreshSettled();
    ChunksDoNotMatter(FRESH, chunks);
    assert [] + Wire(sent) == Wire(sent);
    DrainWire(FRESH.(buffer := Wire(sent)), sent);
    hide Wire;
    hide HandleAll;
    hide Drain;
  }

  /** Round trip: whatever encodeFrame wrote, in whatever chunks it arrives, the parser
      emits exactly those messages and is ready for the next one. */
  lemma RoundTrip(sent: seq<Sent>, chunks: seq<seq<Byte>>)
    requires forall i :: 0 <= i < |sent| ==> Sendable(sent[i]) && sent[i].frame.fin && sent[i].frame.opcode > 0
    requires Concat(chunks) == Wire(sent)
    ensures PushAll(FRESH, chunks) == Result(FRESH, MessagesOf(sent))
  {
    WireParsed(sent, chunks);
    WholeFrames(None, sent);
  }

  // ----- fragments -----

  /** Frames between the first and the last fragment of a message. */
  ghost predicate Inner(sent: seq<Sent>) {
    forall i :: 0 <= i < |sent| ==> sent[i].frame.opcode >= 8 || (sent[i].frame.opcode == 0 && !sent[i].frame.fin)
  }

  function ControlsOf(sent: seq<Sent>): seq<Message> {
    if sent == [] then []
    else (if sent[0].frame.opcode >= 8 then [Message(sent[0].frame.opcode, sent[0].frame.payload)] else []) + ControlsOf(sent[1..])
  }

  function PartsOf(sent: seq<Sent>): seq<seq<Byte>> {
    if sent == [] then []
    else (if sent[0].frame.opcode == 0 then [sent[0].frame.payload] else []) + PartsOf(sent[1..])
  }

  lemma {:induction false} InnerFrames(opcode: nat, parts: seq<seq<Byte>>, sent: seq<Sent>)
    requires Inner(sent)
    ensures HandleAll(Some(Fragments(opcode, parts)), sent) == (Some(Fragments(opcode, parts + PartsOf(sent))), ControlsOf(sent))
    decreases |sent|
  {
    if sent == [] {
      assert parts + [] == parts;
    } else if sent[0].frame.opcode == 0 {
      InnerFrames(opcode, parts + [sent[0].frame.payload], sent[1..]);
      assert (parts + [sent[0].frame.payload]) + PartsOf(sent[1..]) == parts + PartsOf(sent);
    } else {
      InnerFrames(opcode, parts, sent[1..]);
      assert [] + PartsOf(sent[1..]) == PartsOf(sent[1..]);
    }
  }

  lemma {:induction false} HandleAppend(fragments: Option<Fragments>, a: seq<Sent>, b: seq<Sent>)
    ensures var (mid, first) := HandleAll(fragments, a);
            var (last, rest) := HandleAll(mid, b);
            HandleAll(fragments, a + b) == (last, first + rest)
    decreases |a|
  {
    if a == [] {
      assert a + b == b;
      var (last, rest) := HandleAll(fragments, b);
      assert [] + rest == rest;
    } else {
      var (next, one) := Handle(fragments, a[0].frame);
      HandleAppend(next, a[1..], b);
      assert (a + b)[1..] == a[1..] + b;
      var (mid, first) := HandleAll(next, a[1..]);
      var (last, rest) := HandleAll(mid, b);
      assert one + (first + rest) == (one + first) + rest;
    }
  }

  /** Reassembly: a message cut into any fragments, with control frames anywhere among
      them, is emitted once, at its FIN, with the first fragment's opcode and all the
      payload; each control frame is emitted before it, in its place. */
  lemma Reassembly(before: Option<Fragments>, head: Sent, inner: seq<Sent>, last: Sent)
    requires 1 <= head.frame.opcode < 8 && !head.frame.fin && Inner(inner) && last.frame.opcode == 0 && last.frame.fin
    ensures HandleAll(before, [head] + inner + [last])
         == (None, ControlsOf(inner) + [Message(head.frame.opcode, Concat([head.frame.payload] + PartsOf(inner) + [last.frame.payload]))])
  {
    var open := Some(Fragments(head.frame.opcode, [head.frame.payload]));
    var parts := [head.frame.payload] + PartsOf(inner);
    var whole := [Message(head.frame.opcode, Concat(parts + [last.frame.payload]))];
    assert [last][1..] == [] && whole + [] == whole;
    assert HandleAll(Some(Fragments(head.frame.opcode, parts)), [last]) == (None, whole);
    assert ([head] + (inner + [last]))[1..] == inner + [last];
    assert [head] + inner + [last] == [head] + (inner + [last]);
    HandleAppend(open, inner, [last]);
    InnerFrames(head.frame.opcode, [head.frame.payload], inner);
    var all := HandleAll(open, inner + [last]).1;
    assert [] + all == all;
  }

  /** What a sender means by its frames: a message or control frame in one piece, or a
      message in fragments with control frames among them. */
  datatype Unit = Whole(frame: Sent) | Split(head: Sent, inner: seq<Sent>, last: Sent)

  ghost predicate Proper(u: Unit) {
    match u
    case Whole(s) => s.frame.fin && s.frame.opcode > 0
    case Split(head, inner, last) =>
      1 <= head.frame.opcode < 8 && !head.frame.fin && Inner(inner) && last.frame.opcode == 0 && last.frame.fin
  }

  function FramesOf(units: seq<Unit>): seq<Sent> {
    if units == [] then []
    else
      (match units[0]
       case Whole(s) => [s]
       case Split(head, inner, last) => [head] + inner + [last])
      + FramesOf(units[1..])
  }

  function Meaning(units: seq<Unit>): seq<Message> {
    if units == [] then []
    else
      (match units[0]
       case Whole(s) => [Message(s.frame.opcode, s.frame.payload)]
       case Split(head, inner, last) =>
         ControlsOf(inner) + [Message(head.frame.opcode, Concat([head.frame.payload] + PartsOf(inner) + [last.frame.payload]))])
      + Meaning(units[1..])
  }

  lemma {:induction false} UnitsHandled(units: seq<Unit>)
    requires forall i :: 0 <= i < |units| ==> Proper(units[i])
    ensures HandleAll(None, FramesOf(units)) == (None, Meaning(units))
    decreases |units|
  {
    if units != [] {
      UnitsHandled(units[1..]);
      match units[0]
      case Whole(s) =>
        HandleAppend(None, [s], FramesOf(units[1..]));
        WholeFrames(None, [s]);
        assert MessagesOf([s]) == [Message(s.frame.opcode, s.frame.payload)] + MessagesOf([s][1..]);
      case Split(head, inner, last) =>
        HandleAppend(None, [head] + inner + [last], FramesOf(units[1..]));
        Reassembly(None, head, inner, last);
        hide HandleAll;
    }
  }

  /** Any mixture of whole and fragmented messages and control frames, encoded and cut
      into any chunks, comes out as what was meant, and the parser is ready for more. */
  lemma FragmentsOnTheWire(units: seq<Unit>, chunks: seq<seq<Byte>>)
    requires (forall i :: 0 <= i < |units| ==> Proper(units[i])) && forall i :: 0 <= i < |FramesOf(units)| ==> Sendable(FramesOf(units)[i])
    requires Concat(chunks) == Wire(FramesOf(units))
    ensures PushAll(FRESH, chunks) == Result(FRESH, Meaning(units))
  {
    WireParsed(FramesOf(units), chunks);
    UnitsHandled(units);
  }
}
