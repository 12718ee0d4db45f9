/** What a store that does not fail ends up with, and what becomes of the requests. */
module UsageStored {
  import opened Prelude
  import opened Usage
  import opened UsageTheorems

  // ----- bytes -----

  /** Every batch of the run is given up only when all its rows are stored. */
  ghost predicate NothingFails(st: State, es: seq<Event>)
    requires Possible(st, es)
    decreases |es|
  {
    es == [] || ((es[0].FlushEnded? ==> st.flushing[es[0].i] == map[]) && NothingFails(Step(st, es[0]), es[1..]))
  }

  lemma {:induction false} NothingDropped(st: State, es: seq<Event>)
    requires Possible(st, es) && NothingFails(st, es) && st.dropped == map[]
    ensures Run(st, es).dropped == map[]
    decreases |es|
  {
    if es != [] {
      SampleDropsNothing(st, es[0]);
      NothingDropped(Step(st, es[0]), es[1..]);
    }
  }

  lemma SampleDropsNothing(st: State, e: Event)
    requires Enabled(st, e) && st.dropped == map[] && (e.FlushEnded? ==> st.flushing[e.i] == map[])
    ensures Step(st, e).dropped == map[]
  {
    if e.Sampled? { SampleTouches(st, e.order); }
  }

  /** A sample leaves the store and the batches alone. */
  lemma {:induction false} SampleTouches(st: State, order: seq<Name>)
    requires forall n :: n in order ==> n in st.tunnels
    ensures var r := Sample(st, order); r.dropped == st.dropped && r.stored == st.stored && r.flushing == st.flushing
    decreases |order|
  {
    if order != [] { SampleTouches(st, order[..|order| - 1]); }
  }

  /** Where the store never fails: what is stored, under way and pending for an account is
      what its sessions had counted. */
  lemma StoredInFull(es: seq<Event>, a: Account, side: Side)
    requires Possible(Start(), es) && NothingFails(Start(), es)
    ensures var st := Run(Start(), es);
      && |st.counted| == |st.sessions|
      && Amount(At(st.stored, a), side) + InBatches(st.flushing, a, side) + Amount(At(st.pending, a), side)
         == Counted(st.sessions, st.counted, a, side)
  {
    NothingDropped(Start(), es);
    TrafficConserved(es, a, side);
  }

  ghost predicate Settled(st: State) {
    st.pending == map[] && forall i :: 0 <= i < |st.flushing| ==> st.flushing[i] == map[]
  }

  lemma {:induction false} EmptyBatches(flushing: seq<Ledger>, a: Account, part: Part)
    requires forall i :: 0 <= i < |flushing| ==> flushing[i] == map[]
    ensures InBatches(flushing, a, part) == 0
    decreases |flushing|
  {
    if flushing != [] { EmptyBatches(flushing[..|flushing| - 1], a, part); }
  }

  /** ... and once everything was flushed, the usage table has it all. */
  lemma TableHoldsAll(es: seq<Event>, a: Account, side: Side)
    requires Possible(Start(), es) && NothingFails(Start(), es) && Settled(Run(Start(), es))
    ensures var st := Run(Start(), es);
      |st.counted| == |st.sessions| && Amount(At(st.stored, a), side) == Counted(st.sessions, st.counted, a, side)
  {
    StoredInFull(es, a, side);
    EmptyBatches(Run(Start(), es).flushing, a, side);
  }

  // ----- a flush to the end -----

  ghost predicate SameRecord(st: State, r: State) {
    forall a: Account, part: Part :: Recorded(r, a, part) == Recorded(st, a, part)
  }

  lemma FlushStepKeeps(st: State, e: Event)
    requires Enabled(st, e) && (e.FlushStarted? || e.Stored? || e.FlushEnded?)
    ensures SameRecord(st, Step(st, e))
  {
    forall a: Account, part: Part ensures Recorded(Step(st, e), a, part) == Recorded(st, a, part) { FlushAccount(st, e, a, part); }
  }

  /** The rows of batch i are stored one by one. */
  lemma {:induction false} StoreBatch(st: State, i: nat) returns (es: seq<Event>, r: State)
    requires i < |st.flushing|
    ensures Possible(st, es) && NothingFails(st, es) && r == Run(st, es)
    ensures r == st.(flushing := st.flushing[i := map[]], stored := r.stored) && SameRecord(st, r)
    decreases |st.flushing[i]|
  {
    if st.flushing[i] == map[] {
      es, r := [], st;
      assert st.flushing[i := map[]] == st.flushing;
    } else {
      var a :| a in st.flushing[i];
      var next := RowLeaves(st, i, a);
      hide Step;
      hide SameRecord;
      var rest;
      rest, r := StoreBatch(next, i);
      es := [Stored(i, a)] + rest;
      assert es[1..] == rest;
      SameTwice(st, next, r);
    }
  }

  lemma RowLeaves(st: State, i: nat, a: Account) returns (r: State)
    requires i < |st.flushing| && a in st.flushing[i]
    ensures Enabled(st, Stored(i, a)) && r == Step(st, Stored(i, a)) == st.(flushing := r.flushing, stored := r.stored) && SameRecord(st, r)
    ensures |r.flushing| == |st.flushing| && |r.flushing[i]| < |st.flushing[i]| && r.flushing[i := map[]] == st.flushing[i := map[]]
    ensures Amount(At(r.stored, a), In) == Amount(At(st.stored, a), In) + st.flushing[i][a].bytesIn
    ensures Amount(At(r.stored, a), Out) == Amount(At(st.stored, a), Out) + st.flushing[i][a].bytesOut
    ensures Amount(At(r.stored, a), Requests) == Amount(At(st.stored, a), Requests) + st.flushing[i][a].requests
  {
    r := Step(st, Stored(i, a));
    FlushStepKeeps(st, Stored(i, a));
    assert st.flushing[i].Keys == r.flushing[i].Keys + {a};
    assert |st.flushing[i]| == |st.flushing[i].Keys| && |r.flushing[i]| == |r.flushing[i].Keys|;
    hide SameRecord;
  }

  lemma SameTwice(a: State, b: State, c: State)
    requires SameRecord(a, b) && SameRecord(b, c)
    ensures SameRecord(a, c)
  {
    hide Recorded;
    assert Recorded(b, 0, In) == Recorded(a, 0, In);
  }

  lemma {:induction false} RunAppend(st: State, a: seq<Event>, b: seq<Event>)
    requires Possible(st, a) && NothingFails(st, a) && Possible(Run(st, a), b) && NothingFails(Run(st, a), b)
    ensures Possible(st, a + b) && NothingFails(st, a + b) && Run(st, a + b) == Run(Run(st, a), b)
    decreases |a|
  {
    if a == [] {
      assert [] + b == b;
    } else {
      assert (a + b)[0] == a[0] && (a + b)[1..] == a[1..] + b;
      RunAppend(Step(st, a[0]), a[1..], b);
    }
  }

  lemma {:induction false} StoreBatches(st: State, k: nat) returns (es: seq<Event>, r: State)
    requires k <= |st.flushing|
    ensures Possible(st, es) && NothingFails(st, es) && r == Run(st, es)
    ensures |r.flushing| == |st.flushing| && r == st.(flushing := r.flushing, stored := r.stored) && SameRecord(st, r)
    ensures forall i :: 0 <= i < k ==> r.flushing[i] == map[]
    decreases k
  {
    if k == 0 {
      es, r := [], st;
    } else {
      var first, mid := StoreBatches(st, k - 1);
      var second;
      second, r := StoreBatch(mid, k - 1);
      SameTwice(st, mid, r);
      hide SameRecord;
      RunAppend(st, first, second);
      es := first + second;
    }
  }

  /** From any state a flush can run to its end: afterwards nothing is pending or under way,
      and the table has grown by all that was. */
  lemma FlushRunsThrough(st: State) returns (es: seq<Event>, r: State)
    ensures Possible(st, es) && NothingFails(st, es) && r == Run(st, es) && Settled(r)
    ensures r.sessions == st.sessions && r.counted == st.counted && r.dropped == st.dropped
    ensures forall a: Account, part: Part ::
      Amount(At(r.stored, a), part) == Amount(At(st.stored, a), part) + InBatches(st.flushing, a, part) + Amount(At(st.pending, a), part)
  {
    var started := Step(st, FlushStarted);
    var rest;
    rest, r := StoreBatches(started, |started.flushing|);
    es := [FlushStarted] + rest;
    assert es[1..] == rest;
    FlushStepKeeps(st, FlushStarted);
    forall a: Account, part: Part ensures
      Amount(At(r.stored, a), part) == Amount(At(st.stored, a), part) + InBatches(st.flushing, a, part) + Amount(At(st.pending, a), part)
    {
      assert Recorded(r, a, part) == Recorded(started, a, part) == Recorded(st, a, part);
      EmptyBatches(r.flushing, a, part);
    }
  }

  // ----- requests -----

  /** The requests waiting under the names of an account. */
  function Asked(st: State, order: seq<Name>, a: Account): nat
    requires forall n :: n in order ==> n in st.tunnels
    decreases |order|
  {
    if order == [] then 0
    else
      var n := order[|order| - 1];
      Asked(st, order[..|order| - 1], a) + if st.tunnels[n].account == a then For(st.series, n).pendingRequests else 0
  }

  /** One tunnel's turn: its requests go to its account, and none waits any longer. */
  lemma SampleOneRequests(st: State, n: Name, a: Account)
    requires n in st.tunnels
    ensures var r := SampleOne(st, n); var waiting := For(st.series, n).pendingRequests;
      && r.tunnels == st.tunnels && For(r.series, n).pendingRequests == 0 && (forall m :: m != n ==> For(r.series, m) == For(st.series, m))
      && Recorded(r, a, Requests) == Recorded(st, a, Requests) + if st.tunnels[n].account == a then waiting else 0
  {
    var t := st.tunnels[n];
    var (_, traffic) := SampleEntry(For(st.series, n), t.session, st.sessions);
    RecordAdds(st.pending, t.account, traffic, a, Requests);
    hide Record;
    hide InBatches;
  }

  /** A sample hands every waiting request of an account to it, once. */
  lemma {:induction false} RequestsSampled(st: State, order: seq<Name>, a: Account)
    requires forall n :: n in order ==> n in st.tunnels
    requires forall i, j :: 0 <= i < j < |order| ==> order[i] != order[j]
    ensures var r := Sample(st, order);
      && Recorded(r, a, Requests) == Recorded(st, a, Requests) + Asked(st, order, a)
      && forall n :: For(r.series, n).pendingRequests == if n in order then 0 else For(st.series, n).pendingRequests
    decreases |order|
  {
    if order != [] {
      var init, n := order[..|order| - 1], order[|order| - 1];
      RequestsSampled(st, init, a);
      assert n !in init && order == init + [n];
      SampleOneRequests(Sample(st, init), n, a);
      hide SampleOne;
      hide Recorded;
    }
  }

  /** The requests a run hands to an account: those waiting at each of its samples. */
  ghost function Charged(st: State, es: seq<Event>, a: Account): nat
    requires Possible(st, es)
    decreases |es|
  {
    if es == [] then 0
    else (if es[0].Sampled? then Asked(st, es[0].order, a) else 0) + Charged(Step(st, es[0]), es[1..], a)
  }

  lemma StepRequests(st: State, e: Event, a: Account)
    requires Enabled(st, e)
    ensures Recorded(Step(st, e), a, Requests) == Recorded(st, a, Requests) + if e.Sampled? then Asked(st, e.order, a) else 0
  {
    if e.Sampled? {
      RequestsSampled(st, e.order, a);
    } else if e.FlushStarted? || e.Stored? || e.FlushEnded? {
      FlushAccount(st, e, a, Requests);
    }
  }

  lemma {:induction false} RunRequests(st: State, es: seq<Event>, a: Account)
    requires Possible(st, es)
    ensures Recorded(Run(st, es), a, Requests) == Recorded(st, a, Requests) + Charged(st, es, a)
    decreases |es|
  {
    if es != [] {
      StepRequests(st, es[0], a);
      hide Recorded;
      RunRequests(Step(st, es[0]), es[1..], a);
    }
  }

  /** Over every run: the requests stored, under way, pending or dropped for an account are
      those that waited under its tunnels when they were sampled. */
  lemma RequestsConserved(es: seq<Event>, a: Account)
    requires Possible(Start(), es)
    ensures Recorded(Run(Start(), es), a, Requests) == Charged(Start(), es, a)
  {
    RunRequests(Start(), es, a);
  }

  /** A request waits under its name until then, on top of those that do. */
  lemma RequestWaits(st: State, n: Name, m: Name)
    ensures For(Step(st, Requested(n)).series, m)
         == if m == n then For(st.series, n).(pendingRequests := For(st.series, n).pendingRequests + 1) else For(st.series, m)
  {
  }

  /** A name that is removed leaves nothing behind: whoever has it next is charged from the
      start of its own session. */
  lemma NameStartsAfresh(st: State, n: Name, m: Name)
    ensures For(Step(st, Forgotten(n)).series, m) == if m == n then Entry(None, 0, 0, 0) else For(st.series, m)
    ensures m in Step(st, Forgotten(n)).tunnels <==> m != n && m in st.tunnels
  {
  }
}
