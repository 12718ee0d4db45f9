/** Bitwise operators on natural numbers, digit by binary digit. */
module Bits {
  function Pow2(n: nat): (p: nat)
    ensures p >= 1
  {
    if n == 0 then 1 else 2 * Pow2(n - 1)
  }

  function And(a: nat, b: nat): nat {
    if a == 0 || b == 0 then 0 else (if a % 2 == 1 && b % 2 == 1 then 1 else 0) + 2 * And(a / 2, b / 2)
  }

  function Or(a: nat, b: nat): nat
    decreases a + b
  {
    if a == 0 then b else if b == 0 then a
    else (if a % 2 == 1 || b % 2 == 1 then 1 else 0) + 2 * Or(a / 2, b / 2)
  }

  function Xor(a: nat, b: nat): nat
    decreases a + b
  {
    if a == 0 then b else if b == 0 then a
    else (if a % 2 != b % 2 then 1 else 0) + 2 * Xor(a / 2, b / 2)
  }

  /** The k low digits, and the number without them. */
  function Low(a: nat, k: nat): nat {
    if k == 0 then 0 else a % 2 + 2 * Low(a / 2, k - 1)
  }

  function Shr(a: nat, k: nat): nat {
    if k == 0 then a else Shr(a / 2, k - 1)
  }

  /** Digit i, counted from the lowest. */
  predicate Bit(a: nat, i: nat) {
    if i == 0 then a % 2 == 1 else Bit(a / 2, i - 1)
  }

  // ----- digit by digit -----

  lemma {:induction false} AndBits(a: nat, b: nat, i: nat)
    ensures Bit(And(a, b), i) <==> Bit(a, i) && Bit(b, i)
    decreases i
  {
    AndSplit(a, b);
    hide And;
    if i > 0 { AndBits(a / 2, b / 2, i - 1); }
  }

  lemma {:induction false} OrBits(a: nat, b: nat, i: nat)
    ensures Bit(Or(a, b), i) <==> Bit(a, i) || Bit(b, i)
    decreases i
  {
    OrSplit(a, b);
    hide Or;
    if i > 0 { OrBits(a / 2, b / 2, i - 1); }
  }

  lemma {:induction false} XorBits(a: nat, b: nat, i: nat)
    ensures Bit(Xor(a, b), i) <==> Bit(a, i) != Bit(b, i)
    decreases i
  {
    XorDigit(a, b);
    hide Xor;
    if i > 0 { XorBits(a / 2, b / 2, i - 1); }
  }

  lemma AndSplit(a: nat, b: nat)
    ensures And(a, b) % 2 == (if a % 2 == 1 && b % 2 == 1 then 1 else 0) && And(a, b) / 2 == And(a / 2, b / 2)
  {
  }

  lemma OrSplit(a: nat, b: nat)
    ensures Or(a, b) % 2 == (if a % 2 == 1 || b % 2 == 1 then 1 else 0) && Or(a, b) / 2 == Or(a / 2, b / 2)
  {
  }

  // ----- exclusive or -----

  /** One digit of an exclusive or. */
  lemma XorDigit(a: nat, b: nat)
    ensures Xor(a, b) == (if a % 2 != b % 2 then 1 else 0) + 2 * Xor(a / 2, b / 2)
  {
  }

  lemma {:induction false} XorCancels(a: nat, k: nat)
    ensures Xor(Xor(a, k), k) == a
    decreases a + k
  {
    if a != 0 || k != 0 {
      var x, rest := Xor(a, k), Xor(a / 2, k / 2);
      XorDigit(a, k);
      XorDigit(x, k);
      XorCancels(a / 2, k / 2);
      hide *;
      assert x / 2 == rest && x % 2 == (if a % 2 != k % 2 then 1 else 0);
    }
  }

  lemma {:induction false} XorBelow(a: nat, b: nat, n: nat)
    requires a < Pow2(n) && b < Pow2(n)
    ensures Xor(a, b) < Pow2(n)
  {
    if n > 0 {
      XorBelow(a / 2, b / 2, n - 1);
      XorDigit(a, b);
    }
  }

  // ----- masks -----

  /** One digit of a mask. */
  lemma AndDigit(a: nat, m: nat)
    ensures And(a, 2 * m) == 2 * And(a / 2, m)
    ensures And(a, 2 * m + 1) == a % 2 + 2 * And(a / 2, m)
  {
    assert 2 * m % 2 == 0 && 2 * m / 2 == m;
    assert (2 * m + 1) % 2 == 1 && (2 * m + 1) / 2 == m;
  }

  /** Masking with n ones keeps the n low digits. */
  lemma {:induction false} AndOnes(a: nat, n: nat)
    ensures And(a, Pow2(n) - 1) == Low(a, n)
  {
    if n > 0 {
      AndOnes(a / 2, n - 1);
      AndDigit(a, Pow2(n - 1) - 1);
      hide And;
    }
  }

  /** Masking with ones above the k low digits clears those k digits. */
  lemma {:induction false} AndHigh(a: nat, k: nat, n: nat)
    requires k <= n && a < Pow2(n)
    ensures Pow2(k) <= Pow2(n)
    ensures And(a, Pow2(n) - Pow2(k)) == a - Low(a, k)
    decreases n
  {
    if k == 0 {
      AndOnes(a, n);
      LowAll(a, n);
    } else {
      AndHigh(a / 2, k - 1, n - 1);
      var mask := Pow2(n - 1) - Pow2(k - 1);
      assert Pow2(n) - Pow2(k) == 2 * mask && Low(a, k) == a % 2 + 2 * Low(a / 2, k - 1);
      AndDigit(a, mask);
      hide *;
    }
  }

  lemma {:induction false} LowAll(a: nat, n: nat)
    requires a < Pow2(n)
    ensures Low(a, n) == a
  {
    if n > 0 { LowAll(a / 2, n - 1); }
  }

  /** Setting a bit above the number adds it. */
  lemma {:induction false} OrAbove(a: nat, n: nat)
    requires a < Pow2(n)
    ensures Or(Pow2(n), a) == Pow2(n) + a
  {
    if n > 0 && a > 0 { OrAbove(a / 2, n - 1); }
  }

  // ----- shifts -----

  /** Clearing the low digits alike is agreeing on the others. */
  lemma {:induction false} SameHigh(a: nat, b: nat, k: nat)
    ensures a - Low(a, k) == b - Low(b, k) <==> Shr(a, k) == Shr(b, k)
  {
    if k > 0 { SameHigh(a / 2, b / 2, k - 1); }
  }

  /** The numbers that agree on all but k digits with a given one are a block of 2^k. */
  lemma {:induction false} HighBlock(a: nat, b: nat, k: nat)
    ensures Low(a, k) <= a && Low(a, k) < Pow2(k)
    ensures a - Low(a, k) <= b < a - Low(a, k) + Pow2(k) <==> Shr(a, k) == Shr(b, k)
  {
    if k > 0 { HighBlock(a / 2, b / 2, k - 1); }
  }

  /** Such a block does not cross a larger power of two. */
  lemma {:induction false} BlockFits(a: nat, k: nat, n: nat)
    requires k <= n && a < Pow2(n)
    ensures a - Low(a, k) + Pow2(k) <= Pow2(n)
    decreases n
  {
    if k > 0 { BlockFits(a / 2, k - 1, n - 1); }
  }

  lemma {:induction false} ShrTwice(a: nat, j: nat, k: nat)
    ensures Shr(a, j + k) == Shr(Shr(a, j), k)
  {
    if j > 0 { ShrTwice(a / 2, j - 1, k); }
  }

  /** A number is its two parts put together. */
  lemma {:induction false} ShrLow(a: nat, k: nat)
    ensures Low(a, k) < Pow2(k) && a == Shr(a, k) * Pow2(k) + Low(a, k)
  {
    if k > 0 {
      ShrLow(a / 2, k - 1);
      Doubled(Shr(a, k), Pow2(k - 1));
    }
  }

  lemma Doubled(q: nat, p: nat)
    ensures q * (2 * p) == 2 * (q * p)
  {
  }

  /** So the shift is division by a power of two, and the digits cut off the remainder. */
  lemma ShrIsDivision(a: nat, k: nat)
    ensures Shr(a, k) == a / Pow2(k) && Low(a, k) == a % Pow2(k)
  {
    ShrLow(a, k);
    DivUnique(a, Pow2(k), Shr(a, k), Low(a, k));
  }

  lemma LowIs(a: nat, k: nat, m: nat)
    requires m == Pow2(k)
    ensures Low(a, k) == a % m
  {
    ShrIsDivision(a, k);
  }

  /** Digits put in front survive the shift. */
  lemma {:induction false} ShrSplit(h: nat, b: nat, c: nat, k: nat)
    ensures Shr(h * Pow2(c + k) + b, k) == h * Pow2(c) + Shr(b, k)
  {
    if k > 0 {
      var p := Pow2(c + k - 1);
      Doubled(h, p);
      ShrSplit(h, b / 2, c, k - 1);
      assert (h * Pow2(c + k) + b) / 2 == h * p + b / 2;
    }
  }

  lemma {:induction false} ShrBelow(b: nat, c: nat, k: nat)
    requires b < Pow2(c + k)
    ensures Shr(b, k) < Pow2(c)
  {
    if k > 0 { ShrBelow(b / 2, c, k - 1); }
  }

  // ----- arithmetic -----

  lemma DivUnique(a: int, m: int, q: int, r: int)
    requires m > 0 && a == q * m + r && 0 <= r < m
    ensures a / m == q && a % m == r
  {
    var q', r' := a / m, a % m;
    assert a == q' * m + r';
    assert (q - q') * m == r' - r;
    Multiple(q - q', m);
  }

  lemma Multiple(d: int, m: int)
    requires m > 0
    ensures d >= 1 ==> d * m >= m
    ensures d <= -1 ==> d * m <= -m
  {
  }

  /** Two-part numbers agree exactly when their parts do. */
  lemma SplitUnique(h: nat, l: nat, h': nat, l': nat, m: nat)
    requires l < m && l' < m
    ensures h * m + l == h' * m + l' <==> h == h' && l == l'
  {
    Multiple(h - h', m);
    assert (h - h') * m == h * m - h' * m;
  }

  lemma {:induction false} PowAdds(a: nat, b: nat)
    ensures Pow2(a + b) == Pow2(a) * Pow2(b)
  {
    if b > 0 {
      PowAdds(a, b - 1);
      Doubled(Pow2(a), Pow2(b - 1));
    }
  }

  lemma Powers()
    ensures Pow2(0) == 1 && Pow2(3) == 8 && Pow2(4) == 16 && Pow2(7) == 128 && Pow2(8) == 256
  {
    assert Pow2(4) == 2 * Pow2(3);
    assert Pow2(6) == 2 * Pow2(5) && Pow2(5) == 2 * Pow2(4);
    assert Pow2(7) == 2 * Pow2(6) && Pow2(8) == 2 * Pow2(7);
  }
}
