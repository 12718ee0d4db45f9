/** Bytes, optional values, byte strings handed over in pieces, and the numbers they write. */
module Prelude {
  type Byte = b: int | 0 <= b < 256

  datatype Option<+T> = None | Some(value: T)

  function Concat(pieces: seq<seq<Byte>>): seq<Byte> {
    if pieces == [] then [] else pieces[0] + Concat(pieces[1..])
  }

  /** The number written by base-256 digits, most significant first. */
  function Numeric(digits: seq<Byte>): nat {
    if digits == [] then 0 else Numeric(digits[..|digits| - 1]) * 256 + digits[|digits| - 1]
  }

  lemma Regroup<T>(a: seq<T>, b: seq<T>, c: seq<T>)
    ensures (a + b) + c == a + (b + c)
  {
  }
}
