/** When shaped traffic is let go: latency, jitter, stalls and a bandwidth cap, with time
    in seconds as a real number and every random draw an input. */
module Shaper {
  import opened Prelude

  const MIN_STALL := 0.2

  type Delay = d: real | d >= 0.0
  type Luck = x: real | 0.0 <= x < 1.0
  type Rate = b: int | b > 0 witness 1   // bytes per second

  datatype Bandwidth = Unlimited | Limited(rate: Rate)
  datatype Shape = Shape(latency: Delay, jitter: Delay, bandwidth: Bandwidth, loss: Delay)

  /** One chunk on its way: when it came, its size, and the two draws made for it. */
  datatype Arrival = Arrival(at: real, len: nat, spread: Luck, chance: Luck)

  function Max(a: real, b: real): real {
    if a >= b then a else b
  }

  predicate Lose(s: Shape, chance: Luck) {
    s.loss > 0.0 && chance < s.loss
  }

  /** The extra time a chunk waits when it plays a lost packet. */
  function Stalled(s: Shape, stall: bool, chance: Luck): Delay {
    if stall && Lose(s, chance) then Max(s.latency * 3.0, MIN_STALL) else 0.0
  }

  function Jitter(s: Shape, spread: Luck): (d: Delay)
    ensures d <= s.jitter
  {
    PartOf(spread, s.jitter);
    spread * s.jitter
  }

  lemma PartOf(x: real, d: real)
    requires 0.0 <= x < 1.0 && d >= 0.0
    ensures 0.0 <= x * d <= d
  {
    assert (1.0 - x) * d >= 0.0;
  }

  function Ready(s: Shape, stall: bool, a: Arrival): real {
    a.at + s.latency + Jitter(s, a.spread) + Stalled(s, stall, a.chance)
  }

  function Transmission(s: Shape, len: nat): Delay {
    match s.bandwidth
    case Unlimited => 0.0
    case Limited(rate) => len as real / rate as real
  }

  /** The release time of each chunk of a run that starts with the line free at `last`. */
  function Releases(s: Shape, stall: bool, run: seq<Arrival>, last: real): (r: seq<real>)
    ensures |r| == |run|
  {
    if run == [] then []
    else
      var before := Releases(s, stall, run[..|run| - 1], last);
      var free := if before == [] then last else before[|before| - 1];
      before + [Max(Ready(s, stall, run[|run| - 1]), free) + Transmission(s, run[|run| - 1].len)]
  }

  /** Shape::release: `last` goes in and comes out changed. */
  method Release(s: Shape, a: Arrival, stall: bool, last: real) returns (at: real, last': real)
    ensures at == last' == Max(Ready(s, stall, a), last) + Transmission(s, a.len)
  {
    at := a.at + s.latency + Jitter(s, a.spread);
    if stall && Lose(s, a.chance) { at := at + Max(s.latency * 3.0, MIN_STALL); }
    at := Max(at, last);
    match s.bandwidth {
      case Limited(rate) => at := at + a.len as real / rate as real;
      case Unlimited =>
    }
    last' := at;
  }

  lemma ReleasesAppend(s: Shape, stall: bool, run: seq<Arrival>, last: real, a: Arrival)
    ensures var r := Releases(s, stall, run, last); var free := if r == [] then last else r[|r| - 1];
      Releases(s, stall, run + [a], last) == r + [Max(Ready(s, stall, a), free) + Transmission(s, a.len)]
  {
    assert (run + [a])[..|run|] == run;
    hide Ready;
    hide Transmission;
  }

  datatype Received = Ended | Chunk(bytes: seq<Byte>, release: real)

  /** The receiving end of a shaped channel. */
  class Queue {
    var rx: seq<(real, seq<Byte>)>   // arrival time and chunk, oldest first
    var last: real
    const start: real
    ghost var run: seq<Arrival>      // the chunks let go so far

    constructor (rx: seq<(real, seq<Byte>)>, now: real)
      ensures this.rx == rx && last == start == now && run == []
    {
      this.rx, this.last, this.start, this.run := rx, now, now, [];
    }

    /** `last` is the latest release of the run. */
    ghost predicate Valid(s: Shape, stall: bool)
      reads this
    {
      var r := Releases(s, stall, run, start);
      last == if r == [] then start else r[|r| - 1]
    }

    /** Shape::next: takes the oldest chunk and says when it may go on. */
    method Next(s: Shape, stall: bool, spread: Luck, chance: Luck) returns (r: Received)
      requires Valid(s, stall)
      modifies this
      ensures Valid(s, stall)
      ensures old(rx) == [] ==> r == Ended && rx == [] && run == old(run) && last == old(last)
      ensures old(rx) != [] ==>
        && r == Chunk(old(rx)[0].1, last) && rx == old(rx)[1..]
        && run == old(run) + [Arrival(old(rx)[0].0, |old(rx)[0].1|, spread, chance)]
        && last == Releases(s, stall, run, start)[|run| - 1]
    {
      if rx == [] { return Ended; }
      var (arrived, chunk) := rx[0];
      rx := rx[1..];
      var a := Arrival(arrived, |chunk|, spread, chance);
      ReleasesAppend(s, stall, run, start, a);
      hide Ready;
      hide Transmission;
      hide Releases;
      hide Max;
      var at;
      at, last := Release(s, a, stall, last);
      run := run + [a];
      return Chunk(chunk, at);
    }
  }

  // ----- the closed form -----

  /** The time the line needs for chunks i..j. */
  function Sending(s: Shape, run: seq<Arrival>, i: nat, j: nat): (t: Delay)
    requires i <= j <= |run|
    decreases j - i
  {
    if i == j then 0.0 else Sending(s, run, i, j - 1) + Transmission(s, run[j - 1].len)
  }

  function Size(run: seq<Arrival>, i: nat, j: nat): nat
    requires i <= j <= |run|
    decreases j - i
  {
    if i == j then 0 else Size(run, i, j - 1) + run[j - 1].len
  }

  /** When chunk n would go if the line worked without a break from chunk k on; k = -1
      stands for a line that was busy from the start. */
  ghost function BusySince(s: Shape, stall: bool, run: seq<Arrival>, last: real, k: int, n: nat): real
    requires -1 <= k <= n < |run|
  {
    if k == -1 then last + Sending(s, run, 0, n + 1) else Ready(s, stall, run[k]) + Sending(s, run, k, n + 1)
  }

  /** A release depends only on the chunks up to it. */
  lemma {:induction false} ReleasesPrefix(s: Shape, stall: bool, run: seq<Arrival>, last: real, n: nat)
    requires n <= |run|
    ensures Releases(s, stall, run[..n], last) == Releases(s, stall, run, last)[..n]
    decreases |run|
  {
    if n == |run| {
      assert run[..n] == run;
    } else {
      var shorter := run[..|run| - 1];
      ReleasesPrefix(s, stall, shorter, last, n);
      assert shorter[..n] == run[..n];
      var before := Releases(s, stall, shorter, last);
      assert before[..n] == Releases(s, stall, run, last)[..n];
    }
  }

  /** One step of the recurrence, read off the whole run. */
  lemma ReleaseStep(s: Shape, stall: bool, run: seq<Arrival>, last: real, n: nat)
    requires n < |run|
    ensures var r := Releases(s, stall, run, last);
            r[n] == Max(Ready(s, stall, run[n]), if n == 0 then last else r[n - 1]) + Transmission(s, run[n].len)
  {
    ReleasesPrefix(s, stall, run, last, n + 1);
    ReleasesPrefix(s, stall, run, last, n);
    assert run[..n + 1][..n] == run[..n];
  }

  /** The n-th release is the maximum, over every k up to n and over the initial line, of
      the time at which an unbroken transmission since then would end. */
  lemma {:induction false} ClosedForm(s: Shape, stall: bool, run: seq<Arrival>, last: real, n: nat)
    requires n < |run|
    ensures var r := Releases(s, stall, run, last)[n];
            && (forall k :: -1 <= k <= n ==> BusySince(s, stall, run, last, k, n) <= r)
            && exists k :: -1 <= k <= n && BusySince(s, stall, run, last, k, n) == r
  {
    ReleaseStep(s, stall, run, last, n);
    var r := Releases(s, stall, run, last);
    var tx := Transmission(s, run[n].len);
    assert BusySince(s, stall, run, last, n, n) == Ready(s, stall, run[n]) + tx by {
      assert Sending(s, run, n, n) == 0.0;
    }
    if n == 0 {
      assert Sending(s, run, 0, 0) == 0.0;
      assert BusySince(s, stall, run, last, -1, n) == last + tx;
    } else {
      ClosedForm(s, stall, run, last, n - 1);
      assert forall k :: -1 <= k < n ==>
        BusySince(s, stall, run, last, k, n) == BusySince(s, stall, run, last, k, n - 1) + tx;
      var k :| -1 <= k <= n - 1 && BusySince(s, stall, run, last, k, n - 1) == r[n - 1];
      assert BusySince(s, stall, run, last, k, n) == r[n - 1] + tx;
    }
  }

  /** Release order is arrival order, whatever the jitter and the stalls. */
  lemma {:induction false} ReleasedInOrder(s: Shape, stall: bool, run: seq<Arrival>, last: real, i: nat, j: nat)
    requires i <= j < |run|
    ensures var r := Releases(s, stall, run, last);
            last <= r[i] && r[i] + Sending(s, run, i + 1, j + 1) <= r[j]
    decreases j
  {
    ReleaseStep(s, stall, run, last, j);
    if i < j {
      ReleasedInOrder(s, stall, run, last, i, j - 1);
    } else {
      assert Sending(s, run, i + 1, j + 1) == 0.0;
      if i > 0 { ReleasedInOrder(s, stall, run, last, i - 1, i - 1); }
    }
  }

  /** No chunk leaves before its latency has passed; one that finds the line free waits
      no longer than its own delays. */
  lemma LatencyKept(s: Shape, stall: bool, run: seq<Arrival>, last: real, n: nat)
    requires n < |run|
    ensures var r := Releases(s, stall, run, last);
            var own := run[n].at + s.latency + Transmission(s, run[n].len);
            && own <= r[n]
            && (Ready(s, stall, run[n]) >= (if n == 0 then last else r[n - 1])
                ==> r[n] <= own + s.jitter + Stalled(s, stall, run[n].chance))
  {
    ReleaseStep(s, stall, run, last, n);
    hide Transmission;
    hide Stalled;
    hide Jitter;
  }

  /** When a chunk could go by itself: its arrival, the latency, its draw's part of the
      jitter, and, when its other draw falls below the loss, three latencies more and no less
      than 0.2 seconds. */
  lemma OwnDelays(s: Shape, stall: bool, a: Arrival)
    ensures Ready(s, stall, a) == a.at + s.latency + a.spread * s.jitter
      + if stall && s.loss > 0.0 && a.chance < s.loss then (if s.latency * 3.0 >= 0.2 then s.latency * 3.0 else 0.2) else 0.0
  {
  }

  /** A chunk that plays a lost packet leaves no earlier than four latencies, and a latency
      and 0.2 seconds, after it came; any other that finds the line free waits for its latency
      and its jitter alone. */
  lemma LostWaits(s: Shape, stall: bool, run: seq<Arrival>, last: real, n: nat)
    requires n < |run|
    ensures var r, a := Releases(s, stall, run, last), run[n];
      && (stall && s.loss > 0.0 && a.chance < s.loss ==> r[n] >= a.at + 4.0 * s.latency && r[n] >= a.at + s.latency + 0.2)
      && (!(stall && s.loss > 0.0 && a.chance < s.loss) && (if n == 0 then last else r[n - 1]) <= a.at
          ==> r[n] == a.at + s.latency + Jitter(s, a.spread) + Transmission(s, a.len))
  {
    ReleaseStep(s, stall, run, last, n);
    hide Releases;
    hide Transmission;
    hide Jitter;
  }

  // ----- the bandwidth cap -----

  /** How many bytes the line carries in a given time. */
  function Capacity(s: Shape, time: real): real
    requires s.bandwidth.Limited?
  {
    s.bandwidth.rate as real * time
  }

  lemma CapacityLaws(s: Shape, a: real, b: real)
    requires s.bandwidth.Limited?
    ensures a <= b ==> Capacity(s, a) <= Capacity(s, b)
    ensures Capacity(s, a + b) == Capacity(s, a) + Capacity(s, b)
    ensures Capacity(s, 0.0) == 0.0
  {
  }

  lemma {:induction false} SendingIsSize(s: Shape, run: seq<Arrival>, i: nat, j: nat)
    requires i <= j <= |run| && s.bandwidth.Limited?
    ensures Capacity(s, Sending(s, run, i, j)) == Size(run, i, j) as real
    decreases j - i
  {
    if i < j {
      SendingIsSize(s, run, i, j - 1);
      CapacityLaws(s, Sending(s, run, i, j - 1), Transmission(s, run[j - 1].len));
    }
  }

  /** The bytes released after release i, up to release j, fit the bandwidth. */
  lemma RateCap(s: Shape, stall: bool, run: seq<Arrival>, last: real, i: nat, j: nat)
    requires i <= j < |run| && s.bandwidth.Limited?
    ensures var r := Releases(s, stall, run, last);
            Size(run, i + 1, j + 1) as real <= Capacity(s, r[j] - r[i])
  {
    hide Capacity;
    hide Releases;
    hide Size;
    ReleasedInOrder(s, stall, run, last, i, j);
    SendingIsSize(s, run, i + 1, j + 1);
    var r := Releases(s, stall, run, last);
    CapacityLaws(s, Sending(s, run, i + 1, j + 1), r[j] - r[i]);
  }

  /** The bytes of the first n chunks that are released within [from, to]. */
  function SizeWithin(run: seq<Arrival>, r: seq<real>, n: nat, from: real, to: real): nat
    requires n <= |run| == |r|
  {
    if n == 0 then 0
    else SizeWithin(run, r, n - 1, from, to) + if from <= r[n - 1] <= to then run[n - 1].len else 0
  }

  /** In any stretch of time, at most what the line carries in it is released, and one
      chunk that was already on the line. */
  lemma WindowCap(s: Shape, stall: bool, run: seq<Arrival>, last: real, from: real, to: real, largest: nat)
    requires s.bandwidth.Limited? && from <= to
    requires forall i :: 0 <= i < |run| ==> run[i].len <= largest
    ensures SizeWithin(run, Releases(s, stall, run, last), |run|, from, to) as real <= Capacity(s, to - from) + largest as real
  {
    hide Capacity;
    hide Releases;
    hide SizeWithin;
    var m := LastWithin(s, stall, run, last, from, to, largest, |run|);
    var r := Releases(s, stall, run, last);
    CapacityLaws(s, if m >= 0 then r[m] - from else 0.0, to - from);
  }

  /** The last release within the stretch so far, and what has been released by then. */
  lemma {:induction false} LastWithin(s: Shape, stall: bool, run: seq<Arrival>, last: real, from: real, to: real, largest: nat, n: nat)
    returns (m: int)
    requires s.bandwidth.Limited? && n <= |run|
    requires forall i :: 0 <= i < |run| ==> run[i].len <= largest
    ensures -1 <= m < n
    ensures var r := Releases(s, stall, run, last);
            var size := SizeWithin(run, r, n, from, to);
            if m == -1 then size == 0
            else from <= r[m] <= to && size as real <= Capacity(s, r[m] - from) + largest as real
    decreases n
  {
    hide Capacity;
    hide Releases;
    hide Size;
    m := -1;
    if n > 0 {
      m := LastWithin(s, stall, run, last, from, to, largest, n - 1);
      var r := Releases(s, stall, run, last);
      if from <= r[n - 1] <= to {
        if m == -1 {
          CapacityLaws(s, 0.0, r[n - 1] - from);
        } else {
          RateCap(s, stall, run, last, m, n - 1);
          SizeAtLeast(run, m + 1, n);
          CapacityLaws(s, r[n - 1] - r[m], r[m] - from);
          assert r[n - 1] - r[m] + (r[m] - from) == r[n - 1] - from;
        }
        m := n - 1;
      }
    }
  }

  lemma SizeAtLeast(run: seq<Arrival>, i: nat, j: nat)
    requires i < j <= |run|
    ensures Size(run, i, j) >= run[j - 1].len
  {
  }
}
