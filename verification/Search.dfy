/** Finding a pattern in a byte string, as Buffer.indexOf and String.indexOf do. */
module Search {
  predicate At(text: seq<int>, pattern: seq<int>, i: int) {
    0 <= i <= |text| - |pattern| && text[i..i + |pattern|] == pattern
  }

  /** Occurrences after the first byte are those of the rest. */
  lemma AtRest(text: seq<int>, pattern: seq<int>, i: int)
    requires |text| > 0
    ensures At(text[1..], pattern, i) <==> i >= 0 && At(text, pattern, i + 1)
  {
    if 0 <= i <= |text| - 1 - |pattern| { assert text[1..][i..i + |pattern|] == text[i + 1..i + 1 + |pattern|]; }
  }

  /** The first place where the pattern occurs, or -1. */
  function IndexOf(text: seq<int>, pattern: seq<int>): (r: int)
    ensures r == -1 || At(text, pattern, r)
    ensures forall i :: At(text, pattern, i) ==> 0 <= r <= i
  {
    if At(text, pattern, 0) then 0
    else if |text| <= |pattern| then -1
    else
      var r := IndexOf(text[1..], pattern);
      AtRest(text, pattern, r);
      assert forall i :: At(text, pattern, i) ==> 0 <= r <= i - 1 by {
        forall i | At(text, pattern, i) ensures 0 <= r <= i - 1 { AtRest(text, pattern, i - 1); }
      }
      if r == -1 then -1 else r + 1
  }

  /** The first place, characterised from outside. */
  lemma IsIndexOf(text: seq<int>, pattern: seq<int>, r: int)
    requires At(text, pattern, r) && forall i :: At(text, pattern, i) ==> r <= i
    ensures IndexOf(text, pattern) == r
  {
  }

  lemma NotFound(text: seq<int>, pattern: seq<int>)
    requires forall i :: !At(text, pattern, i)
    ensures IndexOf(text, pattern) == -1
  {
  }

  /** Text added at the end does not move an occurrence. */
  lemma AtGrows(text: seq<int>, more: seq<int>, pattern: seq<int>, i: int)
    ensures At(text, pattern, i) ==> At(text + more, pattern, i)
    ensures At(text + more, pattern, i) && i + |pattern| <= |text| ==> At(text, pattern, i)
  {
    if 0 <= i <= |text| - |pattern| { assert (text + more)[i..i + |pattern|] == text[i..i + |pattern|]; }
  }

  lemma IndexOfGrows(text: seq<int>, more: seq<int>, pattern: seq<int>)
    requires IndexOf(text, pattern) != -1
    ensures IndexOf(text + more, pattern) == IndexOf(text, pattern)
  {
    var r := IndexOf(text, pattern);
    AtGrows(text, more, pattern, r);
    forall i | At(text + more, pattern, i) ensures r <= i {
      if i < r { AtGrows(text, more, pattern, i); }
    }
    IsIndexOf(text + more, pattern, r);
  }

  /** Text in front moves every later occurrence by its length. */
  lemma AtShifts(front: seq<int>, text: seq<int>, pattern: seq<int>, i: int)
    requires i >= 0
    ensures At(text, pattern, i) <==> At(front + text, pattern, |front| + i)
  {
    if i <= |text| - |pattern| {
      assert (front + text)[|front| + i..|front| + i + |pattern|] == text[i..i + |pattern|];
    }
  }
}
