/** IPv4 address lists: blocks sorted by their first address, and the binary search that
    stands for a scan of all blocks. */
module RangeIndex {
  import opened Prelude
  import opened Bits

  const ADDRESSES: nat := 0x1_0000_0000

  type Address = v: int | 0 <= v < ADDRESSES

  // ----- addresses -----

  /** The parts of a dotted address as numbers; a part that is no whole number is None. */
  predicate Octets(parts: seq<Option<int>>) {
    forall i :: 0 <= i < |parts| ==> parts[i].Some? && 0 <= parts[i].value <= 255
  }

  function Values(parts: seq<Option<int>>): (b: seq<Byte>)
    requires Octets(parts)
    ensures |b| == |parts|
  {
    seq(|parts|, i requires 0 <= i < |parts| => parts[i].value)
  }

  lemma {:induction false} NumericBelow(digits: seq<Byte>)
    ensures Numeric(digits) < Pow2(8 * |digits|)
  {
    if digits != [] {
      NumericBelow(digits[..|digits| - 1]);
      PowAdds(8 * (|digits| - 1), 8);
      Powers();
    }
  }

  lemma Pow32()
    ensures Pow2(32) == ADDRESSES
  {
    Powers();
    PowAdds(8, 8);
    PowAdds(16, 16);
  }

  /** ipv4: four octets, or nothing. */
  method Ipv4(parts: seq<Option<int>>) returns (r: Option<Address>)
    ensures r.Some? <==> |parts| == 4 && Octets(parts)
    ensures r.Some? ==> r.value == Numeric(Values(parts))
  {
    if |parts| != 4 { return None; }
    var value: nat, i := 0, 0;
    while i < 4
      invariant 0 <= i <= 4 && Octets(parts[..i]) && value == Numeric(Values(parts[..i]))
    {
      assert parts[..i + 1][i] == parts[i];
      if parts[i].None? || parts[i].value < 0 || parts[i].value > 255 { return None; }
      value := value * 256 + parts[i].value;
      assert Values(parts[..i + 1])[..i] == Values(parts[..i]);
      i := i + 1;
    }
    assert parts[..4] == parts;
    NumericBelow(Values(parts));
    Pow32();
    return Some(value);
  }

  // ----- blocks -----

  datatype Block = Block(from: Address, to: Address)

  predicate In(b: Block, v: int) {
    b.from <= v <= b.to
  }

  /** The block of addresses that share the first `bits` bits of `start`: it begins at
      start without its low bits. */
  function Aligned(start: Address, bits: nat): (b: Block)
    requires bits <= 32
    ensures b.from <= start <= b.to && b.to - b.from + 1 == Pow2(32 - bits)
  {
    HighBlock(start, start, 32 - bits);
    Pow32();
    BlockFits(start, 32 - bits, 32);
    var from := start - Low(start, 32 - bits);
    Block(from, from + Pow2(32 - bits) - 1)
  }

  /** That is what dividing by the size, rounding down and multiplying again gives. */
  lemma AlignedIsFloor(start: Address, bits: nat)
    requires bits <= 32
    ensures Aligned(start, bits).from == start / Pow2(32 - bits) * Pow2(32 - bits)
  {
    ShrLow(start, 32 - bits);
    ShrIsDivision(start, 32 - bits);
    var b := Aligned(start, bits);
    assert b.from == start - Low(start, 32 - bits);
    hide *;
  }

  /** A value is in an aligned block exactly when its prefix is that of the block. */
  lemma InAligned(start: Address, bits: nat, v: Address)
    requires bits <= 32
    ensures In(Aligned(start, bits), v) <==> Shr(v, 32 - bits) == Shr(start, 32 - bits)
  {
    HighBlock(start, v, 32 - bits);
    var b := Aligned(start, bits);
    assert b.from == start - Low(start, 32 - bits);
    hide Pow2;
    hide Shr;
    hide Low;
  }

  /** Sharing a longer prefix means sharing a shorter one. */
  lemma LongerPrefix(v: nat, w: nat, bits: nat, bits': nat)
    requires bits <= bits' <= 32 && Shr(v, 32 - bits') == Shr(w, 32 - bits')
    ensures Shr(v, 32 - bits) == Shr(w, 32 - bits)
  {
    ShrTwice(v, 32 - bits', bits' - bits);
    ShrTwice(w, 32 - bits', bits' - bits);
    hide *;
    assert 32 - bits' + (bits' - bits) == 32 - bits;
  }

  /** Two blocks are nested, the longer prefix within the shorter, or disjoint. */
  lemma NestedOrDisjoint(start: Address, bits: nat, start': Address, bits': nat)
    requires bits <= bits' <= 32
    ensures var a, b := Aligned(start, bits), Aligned(start', bits');
            (a.from <= b.from && b.to <= a.to) || a.to < b.from || b.to < a.from
  {
    hide Pow2;
    var a, b := Aligned(start, bits), Aligned(start', bits');
    if a.from <= b.to && b.from <= a.to {
      var v := if a.from <= b.from then b.from else a.from;
      InBoth(start, bits, start', bits', v, b.from);
      InBoth(start, bits, start', bits', v, b.to);
    }
  }

  /** Once the blocks share v, every w of the smaller one is in the larger one. */
  lemma InBoth(start: Address, bits: nat, start': Address, bits': nat, v: Address, w: Address)
    requires bits <= bits' <= 32
    requires In(Aligned(start, bits), v) && In(Aligned(start', bits'), v) && In(Aligned(start', bits'), w)
    ensures In(Aligned(start, bits), w)
  {
    hide Aligned;
    InAligned(start, bits, v);
    InAligned(start', bits', v);
    InAligned(start', bits', w);
    LongerPrefix(v, w, bits, bits');
    InAligned(start, bits, w);
  }

  // ----- the list -----

  /** A line of a list, cut at the slash; None stands for text that is no number. */
  datatype Line = Blank | Entry(parts: seq<Option<int>>, prefix: Option<int>)

  ghost predicate Usable(l: Line) {
    l.Entry? && |l.parts| == 4 && Octets(l.parts) && l.prefix.Some? && 0 <= l.prefix.value <= 32
  }

  ghost function BlockOf(l: Line): Block
    requires Usable(l)
  {
    NumericBelow(Values(l.parts));
    Pow32();
    Aligned(Numeric(Values(l.parts)), l.prefix.value)
  }

  ghost function Blocks(lines: seq<Line>): seq<Block> {
    if lines == [] then []
    else
      var l := lines[|lines| - 1];
      Blocks(lines[..|lines| - 1]) + if Usable(l) then [BlockOf(l)] else []
  }

  ghost predicate Sorted(rs: seq<Block>) {
    forall i, j :: 0 <= i <= j < |rs| ==> rs[i].from <= rs[j].from
  }

  /** A stable sort by first address. */
  function SortedInto(rs: seq<Block>, b: Block): (r: seq<Block>)
    requires Sorted(rs)
    ensures Sorted(r) && multiset(r) == multiset(rs) + multiset{b}
    ensures |r| == |rs| + 1
    ensures r[|rs|].from == if rs == [] || rs[|rs| - 1].from <= b.from then b.from else rs[|rs| - 1].from
  {
    if rs == [] || rs[|rs| - 1].from <= b.from then rs + [b]
    else
      var top := rs[|rs| - 1];
      assert rs == rs[..|rs| - 1] + [top];
      var r := SortedInto(rs[..|rs| - 1], b);
      SortedTop(r, top);
      r + [top]
  }

  lemma SortedTop(rs: seq<Block>, top: Block)
    requires Sorted(rs) && (rs == [] || rs[|rs| - 1].from <= top.from)
    ensures Sorted(rs + [top])
  {
  }

  function Sort(rs: seq<Block>): (r: seq<Block>)
    ensures Sorted(r) && multiset(r) == multiset(rs)
  {
    if rs == [] then []
    else
      assert rs == rs[..|rs| - 1] + [rs[|rs| - 1]];
      SortedInto(Sort(rs[..|rs| - 1]), rs[|rs| - 1])
  }

  class RangeSet {
    var ranges: seq<Block>

    ghost predicate Valid()
      reads this
    {
      Sorted(ranges)
    }

    constructor (lines: seq<Line>)
      ensures Valid() && ranges == Sort(Blocks(lines))
    {
      var found: seq<Block>, i := [], 0;
      while i < |lines|
        invariant 0 <= i <= |lines| && found == Blocks(lines[..i])
      {
        assert lines[..i + 1][..i] == lines[..i];
        var l := lines[i];
        if l.Entry? {
          var start := Ipv4(l.parts);
          if start.Some? && l.prefix.Some? && 0 <= l.prefix.value <= 32 {
            var b := Aligned(start.value, l.prefix.value);
            found := found + [b];
          }
        }
        i := i + 1;
      }
      assert lines[..|lines|] == lines;
      ranges := Sort(found);
    }

    /** Is the address in a block of the list? A binary search. */
    method Has(parts: seq<Option<int>>) returns (r: bool)
      requires Valid()
      ensures r <==> |parts| == 4 && Octets(parts) && Found(ranges, Numeric(Values(parts)))
    {
      var value := Ipv4(parts);
      if value.None? { return false; }
      var v := value.value;
      var low, high := 0, |ranges| - 1;
      while low <= high
        invariant 0 <= low <= high + 1 <= |ranges|
        invariant Found(ranges, v) == Finds(ranges, v, low, high)
        decreases high - low
      {
        var middle := (low + high) / 2;
        var b := ranges[middle];
        if v < b.from { high := middle - 1; }
        else if v > b.to { low := middle + 1; }
        else { return true; }
      }
      return false;
    }
  }

  /** What the search answers between low and high. */
  predicate Finds(rs: seq<Block>, v: int, low: int, high: int)
    requires 0 <= low <= high + 1 <= |rs|
    decreases high - low + 1
  {
    low <= high &&
    var middle := (low + high) / 2;
    if v < rs[middle].from then Finds(rs, v, low, middle - 1)
    else if v > rs[middle].to then Finds(rs, v, middle + 1, high)
    else true
  }

  /** The search as `has` starts it. */
  predicate Found(rs: seq<Block>, v: int) {
    Finds(rs, v, 0, |rs| - 1)
  }

  /** The scan that the search stands for. */
  ghost predicate Contains(rs: seq<Block>, v: int) {
    exists i :: 0 <= i < |rs| && In(rs[i], v)
  }

  // ----- search against scan -----

  /** A hit is always a block that holds the address; no order is needed for that. */
  lemma {:induction false} Sound(rs: seq<Block>, v: int, low: int, high: int)
    requires 0 <= low <= high + 1 <= |rs| && Finds(rs, v, low, high)
    ensures Contains(rs, v)
    decreases high - low + 1
  {
    var middle := (low + high) / 2;
    if v < rs[middle].from { Sound(rs, v, low, middle - 1); }
    else if v > rs[middle].to { Sound(rs, v, middle + 1, high); }
    else { assert In(rs[middle], v); }
  }

  /** How many blocks start at or below v. */
  function Rank(rs: seq<Block>, v: int): (n: nat)
    ensures n <= |rs|
    ensures forall i :: 0 <= i < n ==> rs[i].from <= v
    ensures n < |rs| ==> v < rs[n].from
  {
    if rs == [] || v < rs[0].from then 0
    else
      var n := Rank(rs[1..], v);
      assert forall i :: 1 <= i < n + 1 ==> rs[i] == rs[1..][i - 1];
      n + 1
  }

  /** The furthest address covered by the first n blocks, -1 for none. */
  function Cover(rs: seq<Block>, n: nat): (c: int)
    requires n <= |rs|
    ensures forall i :: 0 <= i < n ==> rs[i].to <= c
    ensures c == -1 || exists i :: 0 <= i < n && rs[i].to == c
  {
    if n == 0 then -1
    else
      var c := Cover(rs, n - 1);
      if rs[n - 1].to > c then rs[n - 1].to else c
  }

  /** The furthest end among the blocks that a search for an address of rank n looks at
      before it gives up, -1 for none. */
  function Reach(rs: seq<Block>, n: nat, low: int, high: int): (c: int)
    requires 0 <= low <= high + 1 <= |rs|
    ensures c >= -1
    decreases high - low + 1
  {
    if low > high then -1
    else
      var middle := (low + high) / 2;
      if middle >= n then Reach(rs, n, low, middle - 1)
      else
        var c := Reach(rs, n, middle + 1, high);
        if rs[middle].to > c then rs[middle].to else c
  }

  lemma {:induction false} FindsWithinReach(rs: seq<Block>, v: Address, low: int, high: int)
    requires Sorted(rs) && 0 <= low <= high + 1 <= |rs|
    ensures Finds(rs, v, low, high) <==> v <= Reach(rs, Rank(rs, v), low, high)
    decreases high - low + 1
  {
    if low <= high {
      var middle := (low + high) / 2;
      if v < rs[middle].from { FindsWithinReach(rs, v, low, middle - 1); }
      else { FindsWithinReach(rs, v, middle + 1, high); }
    }
  }

  /** A search always looks at the last block that starts at or below the address. */
  lemma {:induction false} ReachesLast(rs: seq<Block>, n: nat, low: int, high: int)
    requires 0 <= low < n <= high + 1 <= |rs|
    ensures rs[n - 1].to <= Reach(rs, n, low, high)
    decreases high - low + 1
  {
    var middle := (low + high) / 2;
    if middle >= n { ReachesLast(rs, n, low, middle - 1); }
    else if middle + 1 < n { ReachesLast(rs, n, middle + 1, high); }
  }

  lemma {:induction false} ReachWithinCover(rs: seq<Block>, n: nat, low: int, high: int)
    requires n <= |rs| && 0 <= low <= high + 1 <= |rs|
    ensures Reach(rs, n, low, high) <= Cover(rs, n)
    decreases high - low + 1
  {
    if low <= high {
      var middle := (low + high) / 2;
      if middle >= n { ReachWithinCover(rs, n, low, middle - 1); }
      else { ReachWithinCover(rs, n, middle + 1, high); }
    }
  }

  /** The scan finds exactly the addresses up to the cover of their rank. */
  lemma ContainsWithinCover(rs: seq<Block>, v: Address)
    requires Sorted(rs)
    ensures Contains(rs, v) <==> v <= Cover(rs, Rank(rs, v))
  {
    var n := Rank(rs, v);
    var c := Cover(rs, n);
    if v <= c {
      var i :| 0 <= i < n && rs[i].to == c;
      assert In(rs[i], v);
    }
    if Contains(rs, v) {
      var i :| 0 <= i < |rs| && In(rs[i], v);
      assert i < n;
    }
  }

  /** For one address: search and scan agree unless the address lies past every block the
      search looks at and still within an earlier one. */
  lemma AgreesFor(rs: seq<Block>, v: Address)
    requires Sorted(rs)
    ensures (Found(rs, v) <==> Contains(rs, v))
       <==> !(Reach(rs, Rank(rs, v), 0, |rs| - 1) < v <= Cover(rs, Rank(rs, v)))
  {
    FindsWithinReach(rs, v, 0, |rs| - 1);
    ContainsWithinCover(rs, v);
    ReachWithinCover(rs, Rank(rs, v), 0, |rs| - 1);
  }

  /** Nothing covered by the first n blocks lies between the reach of the search and the
      next block. */
  predicate NoGap(rs: seq<Block>, n: nat)
    requires 0 < n <= |rs|
  {
    var reach := Reach(rs, n, 0, |rs| - 1);
    Cover(rs, n) <= reach || (n < |rs| && rs[n].from <= reach + 1)
  }

  /** The search equals the scan on every address exactly when no rank has a gap. */
  lemma AgreesEverywhere(rs: seq<Block>)
    requires Sorted(rs) && forall i :: 0 <= i < |rs| ==> rs[i].from <= rs[i].to
    ensures (forall v: Address :: Found(rs, v) <==> Contains(rs, v))
       <==> (forall n :: 0 < n <= |rs| ==> NoGap(rs, n))
  {
    if forall v: Address :: Found(rs, v) <==> Contains(rs, v) {
      forall n | 0 < n <= |rs| ensures NoGap(rs, n) {
        if !NoGap(rs, n) { var v := GapIsMissed(rs, n); }
      }
    }
    if forall n :: 0 < n <= |rs| ==> NoGap(rs, n) {
      forall v: Address ensures Found(rs, v) <==> Contains(rs, v) {
        var n := Rank(rs, v);
        if n > 0 { assert NoGap(rs, n); }
        AgreesFor(rs, v);
      }
    }
  }

  /** Each gap holds an address that the scan finds and the search misses. */
  lemma GapIsMissed(rs: seq<Block>, n: nat) returns (v: Address)
    requires Sorted(rs) && 0 < n <= |rs| && !NoGap(rs, n)
    requires forall i :: 0 <= i < |rs| ==> rs[i].from <= rs[i].to
    ensures Contains(rs, v) && !Found(rs, v)
  {
    hide Reach;
    hide Cover;
    ReachesLast(rs, n, 0, |rs| - 1);
    v := Reach(rs, n, 0, |rs| - 1) + 1;
    RankIs(rs, v, n);
    AgreesFor(rs, v);
    FindsWithinReach(rs, v, 0, |rs| - 1);
  }

  lemma RankIs(rs: seq<Block>, v: int, n: nat)
    requires Sorted(rs) && 0 < n <= |rs| && rs[n - 1].from <= v && (n < |rs| ==> v < rs[n].from)
    ensures Rank(rs, v) == n
  {
  }

  // ----- from the lines of a list -----

  /** The lists' own meaning: some line's prefix is a prefix of the address. */
  ghost predicate Listed(lines: seq<Line>, v: Address) {
    exists i :: 0 <= i < |lines| && Usable(lines[i]) && In(BlockOf(lines[i]), v)
  }

  lemma {:induction false} BlocksScan(lines: seq<Line>, v: Address)
    ensures Contains(Blocks(lines), v) <==> Listed(lines, v)
    ensures forall i :: 0 <= i < |Blocks(lines)| ==> Blocks(lines)[i].from <= Blocks(lines)[i].to
  {
    if lines != [] {
      hide BlockOf;
      var init, l := lines[..|lines| - 1], lines[|lines| - 1];
      BlocksScan(init, v);
      var before, all := Blocks(init), Blocks(lines);
      assert Listed(lines, v) <==> Listed(init, v) || (Usable(l) && In(BlockOf(l), v)) by {
        assert forall i :: 0 <= i < |init| ==> init[i] == lines[i];
      }
      if Usable(l) {
        assert BlockOf(l).from <= BlockOf(l).to by { BlockNotEmpty(l); }
        assert all == before + [BlockOf(l)];
        assert all[|before|] == BlockOf(l);
      }
      assert forall i :: 0 <= i < |before| ==> all[i] == before[i];
      assert Contains(all, v) <==> Contains(before, v) || (Usable(l) && In(BlockOf(l), v));
    }
  }

  lemma BlockNotEmpty(l: Line)
    requires Usable(l)
    ensures BlockOf(l).from <= BlockOf(l).to
  {
  }

  lemma SamePlaces(rs: seq<Block>, ss: seq<Block>, i: nat)
    requires multiset(rs) == multiset(ss) && i < |rs|
    ensures exists j :: 0 <= j < |ss| && ss[j] == rs[i]
  {
    assert rs[i] in multiset(rs);
    assert rs[i] in ss;
  }

  lemma SortScan(rs: seq<Block>, v: int)
    ensures Contains(Sort(rs), v) <==> Contains(rs, v)
  {
    var ss := Sort(rs);
    if i :| 0 <= i < |rs| && In(rs[i], v) {
      SamePlaces(rs, ss, i);
      var j :| 0 <= j < |ss| && ss[j] == rs[i];
      assert In(ss[j], v);
    }
    if i :| 0 <= i < |ss| && In(ss[i], v) {
      SamePlaces(ss, rs, i);
      var j :| 0 <= j < |rs| && rs[j] == ss[i];
      assert In(rs[j], v);
    }
  }

  /** A list answers yes only for listed addresses, and for all of them exactly when its
      sorted blocks leave no gap. */
  lemma ListSearch(lines: seq<Line>)
    ensures var rs := Sort(Blocks(lines));
      && (forall v: Address :: Found(rs, v) ==> Listed(lines, v))
      && ((forall v: Address :: Found(rs, v) <==> Listed(lines, v)) <==> (forall n :: 0 < n <= |rs| ==> NoGap(rs, n)))
  {
    hide Found;
    hide NoGap;
    hide Blocks;
    hide Sort;
    hide Listed;
    var rs := Sort(Blocks(lines));
    forall v: Address ensures (Contains(rs, v) <==> Listed(lines, v)) && (Found(rs, v) ==> Contains(rs, v)) {
      BlocksScan(lines, v);
      SortScan(Blocks(lines), v);
      FoundIsContained(rs, v);
    }
    forall i | 0 <= i < |rs| ensures rs[i].from <= rs[i].to {
      BlocksScan(lines, 0);
      SamePlaces(rs, Blocks(lines), i);
    }
    AgreesEverywhere(rs);
    assert (forall v: Address :: Found(rs, v) <==> Listed(lines, v)) <==> (forall v: Address :: Found(rs, v) <==> Contains(rs, v));
  }

  lemma FoundIsContained(rs: seq<Block>, v: int)
    ensures Found(rs, v) ==> Contains(rs, v)
  {
    if Found(rs, v) { Sound(rs, v, 0, |rs| - 1); }
  }

  /** Ends in order, in particular disjoint blocks: the search equals the scan. */
  lemma OrderedEndsAgree(rs: seq<Block>)
    requires Sorted(rs) && forall i, j :: 0 <= i <= j < |rs| ==> rs[i].to <= rs[j].to
    ensures forall v: Address :: Found(rs, v) <==> Contains(rs, v)
  {
    forall v: Address ensures Found(rs, v) <==> Contains(rs, v) {
      AgreesFor(rs, v);
      CoveredByLast(rs, Rank(rs, v));
    }
  }

  lemma CoveredByLast(rs: seq<Block>, n: nat)
    requires n <= |rs| && forall i, j :: 0 <= i <= j < |rs| ==> rs[i].to <= rs[j].to
    ensures Cover(rs, n) <= Reach(rs, n, 0, |rs| - 1)
  {
    if n > 0 {
      ReachesLast(rs, n, 0, |rs| - 1);
      assert Cover(rs, n) <= rs[n - 1].to;
    }
  }

  lemma DisjointAgree(rs: seq<Block>)
    requires Sorted(rs) && forall i :: 0 <= i < |rs| ==> rs[i].from <= rs[i].to
    requires forall i, j :: 0 <= i < j < |rs| ==> rs[i].to < rs[j].from || rs[j].to < rs[i].from
    ensures forall v: Address :: Found(rs, v) <==> Contains(rs, v)
  {
    forall i, j | 0 <= i <= j < |rs| ensures rs[i].to <= rs[j].to {
      if i < j { assert rs[i].from <= rs[j].from; }
    }
    OrderedEndsAgree(rs);
  }

  /** The line 0.0.0.d/prefix. */
  function LineOf(d: Byte, prefix: nat): Line {
    Entry([Some(0), Some(0), Some(0), Some(d)], Some(prefix))
  }

  lemma LineBlock(d: Byte, prefix: nat)
    requires prefix <= 32
    ensures Usable(LineOf(d, prefix)) && BlockOf(LineOf(d, prefix)) == Aligned(d, prefix)
  {
    var parts := LineOf(d, prefix).parts;
    var b := Values(parts);
    assert b == [0, 0, 0, d];
    assert b[..3] == [0, 0, 0] && b[..3][..2] == [0, 0] && b[..2][..1] == [0] && b[..1][..0] == [];
    assert Numeric([0]) == 0 && Numeric([0, 0]) == Numeric([0]) * 256 && Numeric([0, 0, 0]) == Numeric([0, 0]) * 256;
  }

  lemma SingleAddress(v: Address)
    ensures Aligned(v, 32) == Block(v, v)
  {
    assert Pow2(0) == 1 && Low(v, 0) == 0;
  }

  lemma FirstBlock(bits: nat)
    requires bits <= 32
    ensures Aligned(0, bits) == Block(0, Aligned(0, bits).to) && Aligned(0, bits).to == Pow2(32 - bits) - 1
  {
    LowAll(0, 32 - bits);
    hide Low;
    hide Pow2;
  }

  /** Sorting keeps a list that is in order. */
  lemma {:induction false} SortedAlready(rs: seq<Block>)
    requires Sorted(rs)
    ensures Sort(rs) == rs
  {
    if rs != [] {
      var init, last := rs[..|rs| - 1], rs[|rs| - 1];
      SortedAlready(init);
      assert rs == init + [last];
    }
  }

  lemma BlocksSnoc(lines: seq<Line>, l: Line)
    requires Usable(l)
    ensures Blocks(lines + [l]) == Blocks(lines) + [BlockOf(l)]
  {
    assert (lines + [l])[..|lines|] == lines;
  }

  lemma ThreeBlocks(a: Line, b: Line, c: Line)
    requires Usable(a) && Usable(b) && Usable(c)
    ensures Blocks([a, b, c]) == [BlockOf(a), BlockOf(b), BlockOf(c)]
  {
    assert Blocks([]) == [];
    hide *;
    BlocksSnoc([], a);
    BlocksSnoc([a], b);
    BlocksSnoc([a, b], c);
    assert [] + [a] == [a] && [a] + [b] == [a, b] && [a, b] + [c] == [a, b, c];
  }

  lemma BlocksOfLines()
    ensures Usable(LineOf(0, 28)) && Usable(LineOf(4, 32)) && Usable(LineOf(5, 32))
    ensures BlockOf(LineOf(0, 28)) == Block(0, 15) && BlockOf(LineOf(4, 32)) == Block(4, 4) && BlockOf(LineOf(5, 32)) == Block(5, 5)
  {
    Powers();
    hide *;
    LineBlock(0, 28);
    LineBlock(4, 32);
    LineBlock(5, 32);
    FirstBlock(28);
    SingleAddress(4);
    SingleAddress(5);
  }

  /** A list of three lines, 0.0.0.0/28 and two single addresses inside it: 0.0.0.10 is
      listed and missed. */
  lemma NestedPrefixMissed()
    ensures var lines := [LineOf(0, 28), LineOf(4, 32), LineOf(5, 32)]; var rs := Sort(Blocks(lines));
      rs == [Block(0, 15), Block(4, 4), Block(5, 5)] && Listed(lines, 10) && !Found(rs, 10)
  {
    var rs := [Block(0, 15), Block(4, 4), Block(5, 5)];
    hide *;
    BlocksOfLines();
    ThreeBlocks(LineOf(0, 28), LineOf(4, 32), LineOf(5, 32));
    TenMissed(rs);
    SortedAlready(rs);
    FirstListed([LineOf(0, 28), LineOf(4, 32), LineOf(5, 32)], 10);
  }

  lemma FirstListed(lines: seq<Line>, v: Address)
    requires lines != [] && Usable(lines[0]) && In(BlockOf(lines[0]), v)
    ensures Listed(lines, v)
  {
  }

  lemma TenMissed(rs: seq<Block>)
    requires rs == [Block(0, 15), Block(4, 4), Block(5, 5)]
    ensures Sorted(rs) && In(rs[0], 10) && !Found(rs, 10)
  {
    assert !Finds(rs, 10, 3, 2);
    assert !Finds(rs, 10, 2, 2);
  }

  // ----- private addresses -----

  /** The unsigned shift of a 32-bit value: the count is taken modulo 32. */
  function UnsignedShift(v: Address, count: nat): nat {
    Shr(v, count % 32)
  }

  predicate SameShifted(v: Address, base: Address, bits: nat)
    requires bits <= 32
  {
    UnsignedShift(v, 32 - bits) == UnsignedShift(base, 32 - bits)
  }

  /** The shift test is membership in the aligned block, except for the empty prefix,
      where it compares whole addresses. */
  lemma ShiftIsAligned(v: Address, base: Address, bits: nat)
    requires bits <= 32
    ensures bits > 0 ==> (SameShifted(v, base, bits) <==> In(Aligned(base, bits), v))
    ensures bits == 0 ==> In(Aligned(base, bits), v) && (SameShifted(v, base, bits) <==> v == base)
  {
    InAligned(base, bits, v);
    hide Aligned;
    if bits == 0 {
      NoBits(v);
      NoBits(base);
    } else {
      assert (32 - bits) % 32 == 32 - bits;
      hide Shr;
    }
  }

  lemma NoBits(v: Address)
    ensures Shr(v, 32) == 0 && Shr(v, 0) == v
  {
    Pow32();
    assert Pow2(0) == 1;
    ShrBelow(v, 0, 32);
  }

  function Dotted(a: Byte, b: Byte, c: Byte, d: Byte): Address {
    ((a * 256 + b) * 256 + c) * 256 + d
  }

  const PRIVATE: seq<(Address, nat)> := [
    (Dotted(10, 0, 0, 0), 8), (Dotted(172, 16, 0, 0), 12), (Dotted(192, 168, 0, 0), 16), (Dotted(127, 0, 0, 0), 8),
    (Dotted(169, 254, 0, 0), 16), (Dotted(100, 64, 0, 0), 10), (Dotted(0, 0, 0, 0), 8)]

  predicate IsPrivate(v: Address) {
    exists i :: 0 <= i < |PRIVATE| && PRIVATE[i].1 <= 32 && SameShifted(v, PRIVATE[i].0, PRIVATE[i].1)
  }

  lemma ShiftedRange(v: Address, base: Address, bits: nat, size: nat, q: nat)
    requires 0 < bits <= 32 && size == Pow2(32 - bits) && base == q * size
    ensures SameShifted(v, base, bits) <==> base <= v < base + size
  {
    var b := Aligned(base, bits);
    assert b.from == base - Low(base, 32 - bits);
    hide Aligned;
    hide SameShifted;
    hide Pow2;
    hide Low;
    ShiftIsAligned(v, base, bits);
    ShrLow(base, 32 - bits);
    SplitUnique(Shr(base, 32 - bits), Low(base, 32 - bits), q, 0, size);
  }

  lemma Sizes()
    ensures Pow2(16) == 0x1_0000 && Pow2(20) == 0x10_0000 && Pow2(22) == 0x40_0000 && Pow2(24) == 0x100_0000
  {
    Powers();
    PowAdds(8, 8);
    PowAdds(16, 4);
    PowAdds(16, 8);
    assert Pow2(22) == 2 * Pow2(21) && Pow2(21) == 2 * Pow2(20);
  }

  /** The private addresses, as ranges. */
  lemma PrivateRanges(v: Address)
    ensures IsPrivate(v) <==>
      || Dotted(10, 0, 0, 0) <= v <= Dotted(10, 255, 255, 255)
      || Dotted(172, 16, 0, 0) <= v <= Dotted(172, 31, 255, 255)
      || Dotted(192, 168, 0, 0) <= v <= Dotted(192, 168, 255, 255)
      || Dotted(127, 0, 0, 0) <= v <= Dotted(127, 255, 255, 255)
      || Dotted(169, 254, 0, 0) <= v <= Dotted(169, 254, 255, 255)
      || Dotted(100, 64, 0, 0) <= v <= Dotted(100, 127, 255, 255)
      || Dotted(0, 0, 0, 0) <= v <= Dotted(0, 255, 255, 255)
  {
    hide Pow2;
    hide SameShifted;
    Sizes();
    ShiftedRange(v, Dotted(10, 0, 0, 0), 8, 0x100_0000, 10);
    ShiftedRange(v, Dotted(172, 16, 0, 0), 12, 0x10_0000, 172 * 16 + 1);
    ShiftedRange(v, Dotted(192, 168, 0, 0), 16, 0x1_0000, 192 * 256 + 168);
    ShiftedRange(v, Dotted(127, 0, 0, 0), 8, 0x100_0000, 127);
    ShiftedRange(v, Dotted(169, 254, 0, 0), 16, 0x1_0000, 169 * 256 + 254);
    ShiftedRange(v, Dotted(100, 64, 0, 0), 10, 0x40_0000, 100 * 4 + 1);
    ShiftedRange(v, Dotted(0, 0, 0, 0), 8, 0x100_0000, 0);
    AnyPrivate(v);
  }

  lemma AnyPrivate(v: Address)
    ensures IsPrivate(v) <==>
      || SameShifted(v, Dotted(10, 0, 0, 0), 8) || SameShifted(v, Dotted(172, 16, 0, 0), 12)
      || SameShifted(v, Dotted(192, 168, 0, 0), 16) || SameShifted(v, Dotted(127, 0, 0, 0), 8)
      || SameShifted(v, Dotted(169, 254, 0, 0), 16) || SameShifted(v, Dotted(100, 64, 0, 0), 10)
      || SameShifted(v, Dotted(0, 0, 0, 0), 8)
  {
    hide SameShifted;
    var p := PRIVATE;
    assert |p| == 7;
    assert SameShifted(v, p[0].0, p[0].1) ==> IsPrivate(v);
    assert SameShifted(v, p[1].0, p[1].1) ==> IsPrivate(v);
    assert SameShifted(v, p[2].0, p[2].1) ==> IsPrivate(v);
    assert SameShifted(v, p[3].0, p[3].1) ==> IsPrivate(v);
    assert SameShifted(v, p[4].0, p[4].1) ==> IsPrivate(v);
    assert SameShifted(v, p[5].0, p[5].1) ==> IsPrivate(v);
    assert SameShifted(v, p[6].0, p[6].1) ==> IsPrivate(v);
  }
}
