/** Address rules: comparing a prefix byte by byte with a mask, and what that means for
    the address as a number and for the blocks of an address list. */
module AccessRules {
  import opened Prelude
  import opened Bits
  import opened RangeIndex

  /** An address with a prefix length in bits. */
  datatype Rule = Rule(bytes: seq<Byte>, bits: nat)

  /** What follows the slash of a rule. */
  datatype Suffix = Missing | Number(n: int) | NotWhole

  ghost predicate Valid(rule: Rule) {
    rule.bits <= 8 * |rule.bytes|
  }

  /** parseRule, from the bytes of the address part on; None for no address at all. */
  function ParseRule(address: Option<seq<Byte>>, suffix: Suffix): (r: Option<Rule>)
    ensures r.Some? ==> Valid(r.value) && address == Some(r.value.bytes)
    ensures r.None? <==> address.None? || suffix == NotWhole || (suffix.Number? && !(0 <= suffix.n <= 8 * |address.value|))
    ensures r.Some? ==> r.value.bits == if suffix.Number? then suffix.n else 8 * |r.value.bytes|
  {
    if address.None? then None
    else
      var bytes := address.value;
      match suffix
      case Missing => Some(Rule(bytes, |bytes| * 8))
      case NotWhole => None
      case Number(n) => if n < 0 || n > |bytes| * 8 then None else Some(Rule(bytes, n))
  }

  /** The high bits of a byte: 0xff << (8 - count) & 0xff. */
  function HighMask(count: nat): nat
    requires count <= 8
  {
    And(0xff * Pow2(8 - count), 0xff)
  }

  /** matchesRule on the bytes of an address, None when it is no address. */
  predicate MatchesRule(address: Option<seq<Byte>>, rule: Rule)
    requires Valid(rule)
  {
    if address.None? || |address.value| != |rule.bytes| then false
    else
      var bytes := address.value;
      var whole := rule.bits / 8;
      if bytes[..whole] != rule.bytes[..whole] then false
      else
        var rest := And(rule.bits, 7);
        RestOf(rule.bits);
        if rest == 0 then true
        else And(bytes[whole], HighMask(rest)) == And(rule.bytes[whole], HighMask(rest))
  }

  lemma RestOf(bits: nat)
    ensures And(bits, 7) == bits % 8
  {
    hide *;
    Powers();
    AndOnes(bits, 3);
    LowIs(bits, 3, 8);
  }

  /** isAllowed: no rules allow everyone. */
  predicate IsAllowed(address: Option<seq<Byte>>, rules: seq<Option<Rule>>)
    requires forall i :: 0 <= i < |rules| && rules[i].Some? ==> Valid(rules[i].value)
  {
    rules == [] || exists i :: 0 <= i < |rules| && rules[i].Some? && MatchesRule(address, rules[i].value)
  }

  // ----- prefixes of numbers -----

  /** The number of the first `bits` bits; by ShrIsDivision, the address divided by the
      size of a block. */
  function PrefixOf(bytes: seq<Byte>, bits: nat): nat
    requires bits <= 8 * |bytes|
  {
    Shr(Numeric(bytes), 8 * |bytes| - bits)
  }

  lemma {:induction false} NumericInjective(a: seq<Byte>, b: seq<Byte>)
    requires |a| == |b|
    ensures Numeric(a) == Numeric(b) <==> a == b
  {
    if a != [] {
      var n := |a| - 1;
      NumericInjective(a[..n], b[..n]);
      assert a == a[..n] + [a[n]] && b == b[..n] + [b[n]];
    }
  }

  /** Dropping the last bytes is shifting by their bits. */
  lemma {:induction false} NumericDrop(a: seq<Byte>, n: nat)
    requires n <= |a|
    ensures Shr(Numeric(a), 8 * (|a| - n)) == Numeric(a[..n])
    decreases |a|
  {
    if n == |a| {
      assert a[..n] == a;
    } else {
      var init := a[..|a| - 1];
      NumericDrop(init, n);
      assert init[..n] == a[..n];
      ShrTwice(Numeric(a), 8, 8 * (|init| - n));
      DropByte(Numeric(init), a[|a| - 1]);
    }
  }

  lemma DropByte(head: nat, b: Byte)
    ensures Shr(head * 256 + b, 8) == head
  {
    Powers();
    ShrSplit(head, b, 0, 8);
    ShrBelow(b, 0, 8);
  }

  lemma MaskArithmetic(low: nat)
    requires 0 < low < 256
    ensures 0xff * low % 256 == 256 - low
  {
    assert 0xff * low == (low - 1) * 256 + (256 - low);
  }

  lemma MaskValue(count: nat)
    requires 0 < count < 8
    ensures Pow2(8 - count) <= 256 && HighMask(count) == 256 - Pow2(8 - count)
  {
    hide And;
    hide Pow2;
    hide Low;
    var low := Pow2(8 - count);
    HalfPower(8 - count, 8);
    Powers();
    AndOnes(0xff * low, 8);
    LowIs(0xff * low, 8, 256);
    MaskArithmetic(low);
  }

  lemma {:induction false} HalfPower(k: nat, n: nat)
    requires k < n
    ensures 2 * Pow2(k) <= Pow2(n)
  {
    if k + 1 < n { HalfPower(k, n - 1); }
  }

  lemma MaskedByte(b: Byte, count: nat)
    requires 0 < count < 8
    ensures And(b, HighMask(count)) == b - Low(b, 8 - count)
  {
    hide *;
    MaskValue(count);
    Powers();
    AndHigh(b, 8 - count, 8);
    assert Pow2(8) - Pow2(8 - count) == HighMask(count);
  }

  /** Comparing masked bytes is comparing their high bits. */
  lemma SameMasked(a: Byte, b: Byte, count: nat)
    requires 0 < count < 8
    ensures And(a, HighMask(count)) == And(b, HighMask(count)) <==> Shr(a, 8 - count) == Shr(b, 8 - count)
  {
    hide *;
    MaskedByte(a, count);
    MaskedByte(b, count);
    SameHigh(a, b, 8 - count);
  }

  /** The whole bytes before the end of a prefix, then the high bits of its last byte. */
  lemma SplitPrefix(a: seq<Byte>, whole: nat, count: nat)
    requires whole < |a| && 0 < count < 8
    ensures Shr(a[whole], 8 - count) < Pow2(count)
    ensures PrefixOf(a, 8 * whole + count) == Numeric(a[..whole]) * Pow2(count) + Shr(a[whole], 8 - count)
  {
    ShorterPrefix(a, 8 * whole + count, 8 * (whole + 1));
    NumericDrop(a, whole + 1);
    assert a[..whole + 1][..whole] == a[..whole];
    assert PrefixOf(a, 8 * whole + count) == Shr(Numeric(a[..whole]) * 256 + a[whole], 8 - count);
    hide *;
    Powers();
    assert count + (8 - count) == 8;
    ShrSplit(Numeric(a[..whole]), a[whole], count, 8 - count);
    ShrBelow(a[whole], count, 8 - count);
  }

  lemma SamePartial(a: seq<Byte>, b: seq<Byte>, whole: nat, count: nat)
    requires whole < |a| == |b| && 0 < count < 8
    ensures PrefixOf(a, 8 * whole + count) == PrefixOf(b, 8 * whole + count)
       <==> a[..whole] == b[..whole] && And(a[whole], HighMask(count)) == And(b[whole], HighMask(count))
  {
    hide *;
    SplitPrefix(a, whole, count);
    SplitPrefix(b, whole, count);
    SameMasked(a[whole], b[whole], count);
    NumericInjective(a[..whole], b[..whole]);
    SplitUnique(Numeric(a[..whole]), Shr(a[whole], 8 - count), Numeric(b[..whole]), Shr(b[whole], 8 - count), Pow2(count));
  }

  lemma SameWhole(a: seq<Byte>, b: seq<Byte>, whole: nat)
    requires whole <= |a| == |b|
    ensures PrefixOf(a, 8 * whole) == PrefixOf(b, 8 * whole) <==> a[..whole] == b[..whole]
  {
    NumericDrop(a, whole);
    NumericDrop(b, whole);
    NumericInjective(a[..whole], b[..whole]);
  }

  /** Bytewise compare-and-mask is equality of the numeric prefixes, for addresses of any
      length and every prefix length. */
  lemma MatchIsPrefix(bytes: seq<Byte>, rule: Rule)
    requires Valid(rule) && |bytes| == |rule.bytes|
    ensures MatchesRule(Some(bytes), rule) <==> PrefixOf(bytes, rule.bits) == PrefixOf(rule.bytes, rule.bits)
  {
    hide PrefixOf;
    hide HighMask;
    hide And;
    RestOf(rule.bits);
    if rule.bits % 8 == 0 {
      SameWhole(bytes, rule.bytes, rule.bits / 8);
    } else {
      SamePartial(bytes, rule.bytes, rule.bits / 8, rule.bits % 8);
    }
  }

  function AddressOf(bytes: seq<Byte>): Address
    requires |bytes| == 4
  {
    NumericBelow(bytes);
    Pow32();
    Numeric(bytes)
  }

  /** For IPv4 the three ways of testing a prefix agree: the rule's bytes, the aligned
      block of an address list, and (but for the empty prefix) the unsigned shift. */
  lemma PrefixFormsAgree(bytes: seq<Byte>, rule: Rule)
    requires Valid(rule) && |bytes| == |rule.bytes| == 4
    ensures var v, base := AddressOf(bytes), AddressOf(rule.bytes);
      && (MatchesRule(Some(bytes), rule) <==> In(Aligned(base, rule.bits), v))
      && (rule.bits > 0 ==> (MatchesRule(Some(bytes), rule) <==> SameShifted(v, base, rule.bits)))
      && (rule.bits == 0 ==> MatchesRule(Some(bytes), rule) && (SameShifted(v, base, rule.bits) <==> bytes == rule.bytes))
  {
    var v, base := AddressOf(bytes), AddressOf(rule.bytes);
    MatchIsPrefix(bytes, rule);
    NumericInjective(bytes, rule.bytes);
    hide MatchesRule;
    InAligned(base, rule.bits, v);
    ShiftIsAligned(v, base, rule.bits);
  }

  /** A longer prefix is a narrower rule: what it matches, each of its shorter prefixes
      matches too. */
  lemma ShorterMatchesMore(bytes: seq<Byte>, rule: Rule, bits: nat)
    requires Valid(rule) && bits <= rule.bits && MatchesRule(Some(bytes), rule)
    ensures MatchesRule(Some(bytes), Rule(rule.bytes, bits))
  {
    MatchIsPrefix(bytes, rule);
    MatchIsPrefix(bytes, Rule(rule.bytes, bits));
    hide MatchesRule;
    ShorterPrefix(bytes, bits, rule.bits);
    ShorterPrefix(rule.bytes, bits, rule.bits);
  }

  lemma ShorterPrefix(bytes: seq<Byte>, bits: nat, bits': nat)
    requires bits <= bits' <= 8 * |bytes|
    ensures PrefixOf(bytes, bits) == Shr(PrefixOf(bytes, bits'), bits' - bits)
  {
    var n := 8 * |bytes|;
    ShrTwice(Numeric(bytes), n - bits', bits' - bits);
    assert n - bits' + (bits' - bits) == n - bits;
  }

  /** What a rule list promises: an address is let in exactly when there are no rules, or
      some readable rule of its own family has its prefix. */
  lemma AllowedMeans(address: Option<seq<Byte>>, rules: seq<Option<Rule>>)
    requires forall i :: 0 <= i < |rules| && rules[i].Some? ==> Valid(rules[i].value)
    ensures IsAllowed(address, rules) <==>
      || rules == []
      || exists i :: 0 <= i < |rules| && rules[i].Some? && address.Some? && |address.value| == |rules[i].value.bytes|
           && PrefixOf(address.value, rules[i].value.bits) == PrefixOf(rules[i].value.bytes, rules[i].value.bits)
  {
    if address.Some? {
      forall i | 0 <= i < |rules| && rules[i].Some? && |address.value| == |rules[i].value.bytes|
        ensures MatchesRule(address, rules[i].value)
          <==> PrefixOf(address.value, rules[i].value.bits) == PrefixOf(rules[i].value.bytes, rules[i].value.bits)
      {
        MatchIsPrefix(address.value, rules[i].value);
      }
    }
  }
}
