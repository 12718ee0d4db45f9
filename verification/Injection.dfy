/** Injecting a snippet before the first </head> of a page, all at once and while the
    page streams by. */
module Injection {
  import opened Prelude
  import opened Search

  const MARK: seq<int> := [60, 47, 104, 101, 97, 100, 62]   // </head>
  const CARRY := 6

  /** toLowerCase of a latin1 character. */
  function LowerByte(b: Byte): int {
    if 65 <= b <= 90 || (192 <= b <= 222 && b != 215) then b + 32 else b
  }

  function Lower(text: seq<Byte>): (r: seq<int>)
    ensures |r| == |text|
  {
    seq(|text|, i requires 0 <= i < |text| => LowerByte(text[i]))
  }

  lemma LowerAppend(a: seq<Byte>, b: seq<Byte>)
    ensures Lower(a + b) == Lower(a) + Lower(b)
  {
  }

  /** Where the snippet goes, or -1. */
  function Place(body: seq<Byte>): (r: int)
    ensures r == -1 || 0 <= r <= |body| - |MARK|
  {
    IndexOf(Lower(body), MARK)
  }

  /** injectInto. */
  function InjectInto(body: seq<Byte>, snippet: seq<Byte>): seq<Byte> {
    var index := Place(body);
    if index == -1 then body + snippet else body[..index] + snippet + body[index..]
  }

  // ----- the stream -----

  datatype State = State(carry: seq<Byte>, done: bool)

  /** The new state and the bytes passed on. */
  function Step(st: State, chunk: seq<Byte>, snippet: seq<Byte>): (State, seq<Byte>) {
    if st.done then (st, chunk)
    else
      var buf := st.carry + chunk;
      var idx := Place(buf);
      if idx != -1 then (State([], true), buf[..idx] + snippet + buf[idx..])
      else
        var keep := if |buf| < CARRY then |buf| else CARRY;
        (State(buf[|buf| - keep..], false), buf[..|buf| - keep])
  }

  function Ending(st: State, snippet: seq<Byte>): seq<Byte> {
    if st.done then st.carry else st.carry + snippet
  }

  function Stream(st: State, chunks: seq<seq<Byte>>, snippet: seq<Byte>): seq<Byte>
    decreases |chunks|
  {
    if chunks == [] then Ending(st, snippet)
    else
      var (next, out) := Step(st, chunks[0], snippet);
      out + Stream(next, chunks[1..], snippet)
  }

  /** InjectTransform, as the object whose carry and done change per chunk. */
  class InjectTransform {
    const snippet: seq<Byte>
    var carry: seq<Byte>
    var done: bool

    ghost function Current(): State
      reads this
    {
      State(carry, done)
    }

    constructor (snippet: seq<Byte>)
      ensures this.snippet == snippet && Current() == State([], false)
    {
      this.snippet := snippet;
      carry, done := [], false;
    }

    method Transform(chunk: seq<Byte>) returns (out: seq<Byte>)
      modifies this
      ensures (Current(), out) == Step(old(Current()), chunk, snippet)
    {
      if done { return chunk; }
      assert carry == [] ==> carry + chunk == chunk;
      var buf := if |carry| > 0 then carry + chunk else chunk;
      var idx := Place(buf);
      if idx != -1 {
        done := true;
        carry := [];
        return buf[..idx] + snippet + buf[idx..];
      }
      var keep := if |buf| < CARRY then |buf| else CARRY;
      carry := buf[|buf| - keep..];
      return buf[..|buf| - keep];
    }

    method Flush() returns (out: seq<Byte>)
      ensures out == Ending(Current(), snippet)
    {
      if done { return carry; }
      return carry + snippet;
    }
  }

  // ----- streaming refines the one-shot form -----

  /** Nothing found so far: `past` was passed on, the carry is the tail of the input. */
  ghost predicate Searching(st: State, past: seq<Byte>) {
    && !st.done && |st.carry| <= CARRY && (|st.carry| < CARRY ==> past == [])
    && Place(past + st.carry) == -1
  }

  /** An occurrence in the whole input cannot start before the carry. */
  lemma SameSearch(past: seq<Byte>, carry: seq<Byte>, chunk: seq<Byte>)
    requires |carry| <= CARRY && (|carry| < CARRY ==> past == [])
    requires Place(past + carry) == -1
    ensures var i := Place(carry + chunk);
            Place(past + (carry + chunk)) == if i == -1 then -1 else |past| + i
  {
    var text, all := Lower(carry + chunk), Lower(past + (carry + chunk));
    LowerAppend(past, carry + chunk);
    LowerAppend(past + carry, chunk);
    assert past + (carry + chunk) == (past + carry) + chunk;
    FoundInTail(Lower(past), text, Lower(past + carry), Lower(chunk));
  }

  /** A mark that starts inside `past` would end inside `seen`. */
  lemma StartsInTail(past: seq<int>, text: seq<int>, seen: seq<int>, chunk: seq<int>, k: int)
    requires past + text == seen + chunk && |seen| >= |past| && |seen| <= |past| + CARRY
    requires IndexOf(seen, MARK) == -1 && (|seen| < |past| + CARRY ==> past == [])
    requires At(past + text, MARK, k)
    ensures At(text, MARK, k - |past|)
  {
    AtGrows(seen, chunk, MARK, k);
    AtShifts(past, text, MARK, k - |past|);
  }

  /** Text with no mark in its first part: every mark starts in the second part. */
  lemma FoundInTail(past: seq<int>, text: seq<int>, seen: seq<int>, chunk: seq<int>)
    requires past + text == seen + chunk && |seen| >= |past| && |seen| <= |past| + CARRY
    requires IndexOf(seen, MARK) == -1 && (|seen| < |past| + CARRY ==> past == [])
    ensures var i := IndexOf(text, MARK);
            IndexOf(past + text, MARK) == if i == -1 then -1 else |past| + i
  {
    hide At;
    var all := past + text;
    forall k | At(all, MARK, k) ensures At(text, MARK, k - |past|) { StartsInTail(past, text, seen, chunk, k); }
    var i := IndexOf(text, MARK);
    if i == -1 {
      NotFound(all, MARK);
    } else {
      AtShifts(past, text, MARK, i);
      IsIndexOf(all, MARK, |past| + i);
    }
  }

  lemma {:induction false} DonePasses(st: State, chunks: seq<seq<Byte>>, snippet: seq<Byte>)
    requires st.done && st.carry == []
    ensures Stream(st, chunks, snippet) == Concat(chunks)
    decreases |chunks|
  {
    if chunks != [] { DonePasses(st, chunks[1..], snippet); }
  }

  /** A later occurrence does not matter once one was found. */
  lemma PlaceGrows(text: seq<Byte>, more: seq<Byte>)
    requires Place(text) != -1
    ensures Place(text + more) == Place(text)
  {
    LowerAppend(text, more);
    IndexOfGrows(Lower(text), Lower(more), MARK);
  }

  lemma {:induction false} StreamFrom(st: State, past: seq<Byte>, chunks: seq<seq<Byte>>, snippet: seq<Byte>)
    requires Searching(st, past)
    ensures past + Stream(st, chunks, snippet) == InjectInto(past + st.carry + Concat(chunks), snippet)
    decreases |chunks|
  {
    hide Place;
    if chunks == [] {
      NoMark(st, past, snippet);
    } else {
      hide InjectInto;
      var chunk, later := chunks[0], Concat(chunks[1..]);
      var buf := st.carry + chunk;
      SameSearch(past, st.carry, chunk);
      assert past + st.carry + (chunk + later) == past + buf + later;
      var (next, out) := Step(st, chunk, snippet);
      var rest := Stream(next, chunks[1..], snippet);
      if Place(buf) != -1 {
        DonePasses(State([], true), chunks[1..], snippet);
        FoundOutput(past, buf, later, snippet);
      } else {
        StillSearching(past, buf);
        hide Step;
        StreamFrom(next, past + out, chunks[1..], snippet);
        Regroup(past, out, rest);
      }
    }
  }

  lemma NoMark(st: State, past: seq<Byte>, snippet: seq<Byte>)
    requires Searching(st, past)
    ensures past + Stream(st, [], snippet) == InjectInto(past + st.carry + Concat([]), snippet)
  {
    hide Place;
    assert past + st.carry + [] == past + st.carry;
    assert past + (st.carry + snippet) == past + st.carry + snippet;
  }

  /** Holding the last bytes back keeps the whole input together. */
  lemma StillSearching(past: seq<Byte>, buf: seq<Byte>)
    requires Place(past + buf) == -1 && (|buf| < CARRY ==> past == [])
    ensures var keep := if |buf| < CARRY then |buf| else CARRY;
            var out := buf[..|buf| - keep];
            && past + out + buf[|buf| - keep..] == past + buf
            && Searching(State(buf[|buf| - keep..], false), past + out)
  {
    var keep := if |buf| < CARRY then |buf| else CARRY;
    assert past + buf[..|buf| - keep] + buf[|buf| - keep..] == past + buf;
  }

  lemma FoundOutput(past: seq<Byte>, buf: seq<Byte>, later: seq<Byte>, snippet: seq<Byte>)
    requires Place(buf) != -1 && Place(past + buf) == |past| + Place(buf)
    ensures var i := Place(buf);
            past + ((buf[..i] + snippet + buf[i..]) + later) == InjectInto(past + buf + later, snippet)
  {
    hide Place;
    PlaceGrows(past + buf, later);
    Spliced(past, buf, later, Place(buf), snippet);
  }

  lemma Spliced(past: seq<Byte>, buf: seq<Byte>, later: seq<Byte>, i: nat, snippet: seq<Byte>)
    requires i <= |buf|
    ensures var body := past + buf + later;
            past + ((buf[..i] + snippet + buf[i..]) + later) == body[..|past| + i] + snippet + body[|past| + i..]
  {
    var body := past + buf + later;
    assert body[..|past| + i] == past + buf[..i];
    assert body[|past| + i..] == buf[i..] + later;
  }

  /** Streaming injection refines the one-shot form, for every body and every way of
      cutting it into chunks. */
  lemma StreamingRefines(chunks: seq<seq<Byte>>, snippet: seq<Byte>)
    ensures Stream(State([], false), chunks, snippet) == InjectInto(Concat(chunks), snippet)
  {
    var start, nothing: seq<Byte> := State([], false), [];
    NotFound(Lower(nothing), MARK);
    assert nothing + start.carry == nothing;
    StreamFrom(start, nothing, chunks, snippet);
    assert nothing + start.carry + Concat(chunks) == Concat(chunks);
    assert nothing + Stream(start, chunks, snippet) == Stream(start, chunks, snippet);
  }

  /** The seven bytes of a closing head tag, each letter in either case. */
  predicate MarkAt(body: seq<Byte>, i: int) {
    && 0 <= i && i + 7 <= |body| && body[i] == 60 && body[i + 1] == 47
    && (body[i + 2] == 104 || body[i + 2] == 72) && (body[i + 3] == 101 || body[i + 3] == 69)
    && (body[i + 4] == 97 || body[i + 4] == 65) && (body[i + 5] == 100 || body[i + 5] == 68) && body[i + 6] == 62
  }

  /** Lower-casing finds the tag in every mixture of cases, and nothing else. */
  lemma MarkInAnyCase(body: seq<Byte>, i: int)
    ensures At(Lower(body), MARK, i) <==> MarkAt(body, i)
  {
    if 0 <= i && i + 7 <= |body| {
      var part := Lower(body)[i..i + 7];
      assert forall k :: 0 <= k < 7 ==> part[k] == LowerByte(body[i + k]);
      assert part == [part[0], part[1], part[2], part[3], part[4], part[5], part[6]];
    }
  }

  /** What injection promises: nothing of the body is lost or reordered, and the snippet
      stands right before the first closing head tag in any case, or at the very end. */
  lemma InjectedInPlace(body: seq<Byte>, snippet: seq<Byte>)
    ensures exists at :: 0 <= at <= |body| && InjectInto(body, snippet) == body[..at] + snippet + body[at..]
              && (if at == |body| then forall i :: !MarkAt(body, i)
                  else MarkAt(body, at) && forall i :: MarkAt(body, i) ==> at <= i)
  {
    var at := if Place(body) == -1 then |body| else Place(body);
    assert body[..|body|] == body && body[|body|..] == [];
    assert body + snippet + [] == body + snippet;
    assert InjectInto(body, snippet) == body[..at] + snippet + body[at..];
    assert Place(body) == -1 ==> forall i :: !At(Lower(body), MARK, i);
    assert Place(body) != -1 ==> At(Lower(body), MARK, at) && forall i :: At(Lower(body), MARK, i) ==> at <= i;
    hide *;
    forall i ensures At(Lower(body), MARK, i) <==> MarkAt(body, i) { MarkInAnyCase(body, i); }
  }
}
