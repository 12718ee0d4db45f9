/** FrameParser and encodeFrame, proved to compute what WebSocketSpec says. */
module WebSocketCodec {
  import opened Prelude
  import opened WebSocketSpec
  import opened WebSocketTheorems

  /** The masking loop, in place. */
  method Mask(payload: array<Byte>, key: seq<Byte>)
    requires |key| == 4
    modifies payload
    ensures payload[..] == Masked(old(payload[..]), key)
  {
    hide XorByte;
    for i := 0 to payload.Length
      invariant forall k :: 0 <= k < i ==> payload[k] == XorByte(old(payload[k]), key[k % 4])
      invariant forall k :: i <= k < payload.Length ==> payload[k] == old(payload[k])
    {
      payload[i] := XorByte(payload[i], key[i % 4]);
    }
  }

  method Copy(bytes: seq<Byte>) returns (a: array<Byte>)
    ensures fresh(a) && a[..] == bytes
  {
    a := new Byte[|bytes|](i requires 0 <= i < |bytes| => bytes[i]);
  }

  /** The part of drain that looks at the buffered bytes. */
  method ReadFrame(buffer: seq<Byte>) returns (step: Step)
    ensures step == Read(buffer)
  {
    hide TopBit;
    hide Low4;
    hide Low7;
    hide Numeric;
    if |buffer| < 2 { return More; }
    var fin, opcode := TopBit(buffer[0]), Low4(buffer[0]);
    var masked, length, offset := TopBit(buffer[1]), Low7(buffer[1]), 2;
    if length == 126 {
      if |buffer| < 4 { return More; }
      length, offset := Numeric(buffer[2..4]), 4;
    } else if length == 127 {
      if |buffer| < 10 { return More; }
      length, offset := Numeric(buffer[2..10]), 10;
    }
    if length > MAX_FRAME { return TooLong; }
    var start := offset + if masked then 4 else 0;
    if |buffer| < start + length { return More; }
    var payload := Copy(buffer[start..start + length]);
    if masked { Mask(payload, buffer[offset..offset + 4]); }
    return Got(Frame(fin, opcode, payload[..]), start + length);
  }

  class FrameParser {
    var buffer: seq<Byte>
    var fragments: Option<Fragments>
    var dead: bool
    var awaitingHead: bool
    var messages: seq<Message>   // what onMessage was called with

    ghost function Current(): State
      reads this
    {
      State(buffer, fragments, dead, awaitingHead)
    }

    constructor (skipHead: bool)
      ensures Current() == (if skipHead then AFTER_HEAD else FRESH) && messages == []
    {
      buffer, fragments, dead, awaitingHead, messages := [], None, false, skipHead, [];
    }

    method Push(chunk: seq<Byte>)
      modifies this
      ensures Current() == WebSocketSpec.Push(old(Current()), chunk).state
      ensures messages == old(messages) + WebSocketSpec.Push(old(Current()), chunk).messages
    {
      hide WebSocketSpec.Drain;
      hide HeadEnd;
      if dead { return; }
      assert buffer == [] ==> buffer + chunk == chunk;
      buffer := if |buffer| > 0 then buffer + chunk else chunk;
      if awaitingHead {
        var end := HeadEnd(buffer);
        if end == -1 { return; }
        buffer := buffer[end + 4..];
        awaitingHead := false;
      }
      Drain();
    }

    /** Hands one frame to the message handler or the fragment buffer. */
    method Accept(f: Frame)
      modifies this`fragments, this`messages
      ensures fragments == Handle(old(fragments), f).0
      ensures messages == old(messages) + Handle(old(fragments), f).1
    {
      if f.opcode >= 8 {
        messages := messages + [Message(f.opcode, f.payload)];
      } else if f.opcode == 0 {
        if fragments.None? { return; }
        var parts := fragments.value.parts + [f.payload];
        if f.fin {
          var first := fragments.value.opcode;
          fragments := None;
          messages := messages + [Message(first, Concat(parts))];
        } else {
          fragments := Some(Fragments(fragments.value.opcode, parts));
        }
      } else if f.fin {
        messages := messages + [Message(f.opcode, f.payload)];
      } else {
        fragments := Some(Fragments(f.opcode, [f.payload]));
      }
    }

    /** What is left to parse leads to `goal`. */
    ghost predicate Continues(goal: Result, sent: seq<Message>)
      reads this
    {
      var rest := WebSocketSpec.Drain(Current());
      goal == Result(rest.state, sent + rest.messages)
    }

    /** Each turn of the loop takes at least two bytes, so it ends. */
    method Drain()
      modifies this
      ensures Current() == WebSocketSpec.Drain(old(Current())).state
      ensures messages == old(messages) + WebSocketSpec.Drain(old(Current())).messages
    {
      hide Read;
      hide Handle;
      hide WebSocketSpec.Drain;
      ghost var goal := WebSocketSpec.Drain(Current());
      ghost var sent: seq<Message> := [];
      assert [] + goal.messages == goal.messages;
      while true
        invariant Continues(goal, sent) && messages == old(messages) + sent
        decreases |buffer|
      {
        var step := ReadFrame(buffer);
        DrainTurn(Current());
        assert sent + [] == sent;
        if step.More? { return; }
        if step.TooLong? {
          dead := true;
          buffer := [];
          return;
        }
        ghost var next := Consumed(Current());
        ghost var found := Handle(fragments, step.frame).1;
        assert sent + found + WebSocketSpec.Drain(next).messages == sent + (found + WebSocketSpec.Drain(next).messages);
        assert old(messages) + sent + found == old(messages) + (sent + found);
        buffer := buffer[step.size..];
        Accept(step.frame);
        sent := sent + found;
      }
    }
  }

  /** encodeFrame; `key` stands for the random mask. */
  method EncodeFrame(opcode: nat, payload: seq<Byte>, masked: bool, key: seq<Byte>) returns (bytes: seq<Byte>)
    requires opcode < 16 && |payload| < LENGTH_LIMIT && |key| == 4
    ensures bytes == Encode(Frame(true, opcode, payload), if masked then Some(key) else None)
  {
    hide SetTop;
    var length := |payload|;
    var header: seq<Byte> := [SetTop(opcode)];
    if length < 126 {
      header := header + [length];
    } else if length < 65536 {
      header := header + [126, length / 256, length % 256];
    } else {
      header := header + [127, 0, 0, 0, 0, length / 0x100_0000, length / 0x1_0000 % 256, length / 0x100 % 256, length % 256];
    }
    ghost var field := LengthBytes(length);
    assert header == [SetTop(opcode)] + field;
    hide LengthBytes;
    if !masked { return header + payload; }
    header := header[1 := SetTop(header[1])];
    assert header == [SetTop(opcode)] + [SetTop(field[0])] + field[1..];
    var body := Copy(payload);
    Mask(body, key);
    return header + key + body[..];
  }
}
