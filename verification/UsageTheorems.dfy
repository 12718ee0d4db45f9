/** Traffic is conserved on its way from the counters to the store. */
module UsageTheorems {
  import opened Prelude
  import opened Usage

  // ----- sampling -----

  /** A sample reads exactly what is not counted yet. */
  lemma SampleReads(st: State, n: Name)
    requires Sound(st) && n in st.tunnels
    ensures var t := st.tunnels[n]; var (e, traffic) := SampleEntry(For(st.series, n), t.session, st.sessions);
      if t.session.Some? then
        var s := t.session.value;
        && e == Entry(Some(s), st.sessions[s].sent, st.sessions[s].received, 0)
        && traffic.bytesIn == st.sessions[s].sent - st.counted[s].bytesIn
        && traffic.bytesOut == st.sessions[s].received - st.counted[s].bytesOut
      else e.session == None && traffic.bytesIn == 0 && traffic.bytesOut == 0
  {
    assert TunnelOk(st, n);
    var t := st.tunnels[n];
    if t.session.Some? { assert SessionOk(st, t.session.value) && Followed(st, n, t.session.value); }
  }

  lemma SampleOneSound(st: State, n: Name)
    requires Sound(st) && n in st.tunnels
    ensures Sound(SampleOne(st, n))
  {
    SampleReads(st, n);
    hide SampleEntry;
    var r := SampleOne(st, n);
    assert TunnelOk(st, n);
    forall m | m in r.tunnels ensures TunnelOk(r, m) {
      assert TunnelOk(st, m);
      if m == n && st.tunnels[m].session.Some? { assert Followed(r, m, st.tunnels[m].session.value); }
      if m != n && st.tunnels[m].session.Some? { assert Followed(st, m, st.tunnels[m].session.value); }
    }
    forall s | 0 <= s < |r.sessions| ensures SessionOk(r, s) { assert SessionOk(st, s); }
  }

  lemma SampleOneAccount(st: State, n: Name, a: Account, side: Side)
    requires Sound(st) && n in st.tunnels && Recorded(st, a, side) == Counted(st.sessions, st.counted, a, side)
    ensures var r := SampleOne(st, n);
      r.sessions == st.sessions && |r.counted| == |st.sessions| && Recorded(r, a, side) == Counted(r.sessions, r.counted, a, side)
  {
    SampleReads(st, n);
    assert TunnelOk(st, n);
    hide Sound;
    hide SampleEntry;
    hide Counted;
    hide InBatches;
    var t := st.tunnels[n];
    var (e, traffic) := SampleEntry(For(st.series, n), t.session, st.sessions);
    RecordAdds(st.pending, t.account, traffic, a, side);
    hide Record;
    if t.session.Some? {
      var s := t.session.value;
      CountChange(st.sessions, st.counted, s, st.sessions[s], Traffic(e.lastSent, e.lastReceived, 0), a, side);
      assert st.sessions[s := st.sessions[s]] == st.sessions;
    }
  }

  lemma RecordAdds(pending: Ledger, a: Account, t: Traffic, b: Account, part: Part)
    ensures Amount(At(Record(pending, a, t), b), part) == Amount(At(pending, b), part) + if a == b then Amount(t, part) else 0
    ensures b in Record(pending, a, t) <==> b in pending || (b == a && (t.bytesIn > 0 || t.bytesOut > 0 || t.requests > 0))
  {
  }

  lemma SampleOneConserved(st: State, n: Name)
    requires Sound(st) && n in st.tunnels && Conserved(st)
    ensures |SampleOne(st, n).counted| == |SampleOne(st, n).sessions| && Conserved(SampleOne(st, n))
  {
    SampleOneAccount(st, n, 0, In);
    hide SampleOne;
    forall a: Account, side: Side ensures Recorded(SampleOne(st, n), a, side) == Counted(SampleOne(st, n).sessions, SampleOne(st, n).counted, a, side) {
      SampleOneAccount(st, n, a, side);
    }
  }

  lemma {:induction false} SampleKeeps(st: State, order: seq<Name>)
    requires Sound(st) && Conserved(st) && forall n :: n in order ==> n in st.tunnels
    ensures Sound(Sample(st, order)) && Conserved(Sample(st, order))
    decreases |order|
  {
    if order != [] {
      var init, n := order[..|order| - 1], order[|order| - 1];
      SampleKeeps(st, init);
      hide Sound;
      hide Conserved;
      SampleOneSound(Sample(st, init), n);
      SampleOneConserved(Sample(st, init), n);
    }
  }

  /** After a sample nothing of an attached session is left uncounted. */
  lemma {:induction false} SampleComplete(st: State, order: seq<Name>, n: Name)
    requires Sound(st) && Conserved(st) && n in order && (forall m :: m in order ==> m in st.tunnels)
    requires st.tunnels[n].session.Some?
    ensures var s := st.tunnels[n].session.value; var r := Sample(st, order);
      && s < |st.sessions| == |r.counted| && r.sessions == st.sessions
      && r.counted[s] == Traffic(st.sessions[s].sent, st.sessions[s].received, 0)
    decreases |order|
  {
    var init, m := order[..|order| - 1], order[|order| - 1];
    SampleKeeps(st, init);
    SameSessions(st, init);
    var mid := Sample(st, init);
    assert TunnelOk(mid, n) && TunnelOk(mid, m);
    SampleReads(mid, m);
    if m != n {
      assert n in init;
      SampleComplete(st, init, n);
    }
    hide SampleEntry;
  }

  lemma {:induction false} SameSessions(st: State, order: seq<Name>)
    requires forall m :: m in order ==> m in st.tunnels
    ensures Sample(st, order).sessions == st.sessions
    decreases |order|
  {
    if order != [] { SameSessions(st, order[..|order| - 1]); }
  }

  // ----- every step -----

  lemma SoundAttached(st: State, n: Name, s: SessionId)
    requires Sound(st) && Enabled(st, Attached(n, s))
    ensures Sound(Step(st, Attached(n, s)))
  {
    var r := Step(st, Attached(n, s));
    assert SessionOk(st, s);
    forall m | m in r.tunnels ensures TunnelOk(r, m) {
      if m == n {
        assert Followed(r, n, s);
      } else {
        assert TunnelOk(st, m);
        if st.tunnels[m].session.Some? { assert Followed(st, m, st.tunnels[m].session.value); }
      }
    }
    forall m | m in st.tunnels ensures st.tunnels[m].session != Some(s) { assert TunnelOk(st, m); }
    forall x | 0 <= x < |r.sessions| ensures SessionOk(r, x) { assert SessionOk(st, x); }
  }

  lemma SoundClosed(st: State, s: SessionId)
    requires Sound(st) && Enabled(st, Closed(s))
    ensures Sound(Step(st, Closed(s)))
  {
    var r := Step(st, Closed(s));
    forall m | m in r.tunnels ensures TunnelOk(r, m) {
      assert TunnelOk(st, m);
      if r.tunnels[m].session.Some? { assert Followed(st, m, r.tunnels[m].session.value); }
    }
    forall x | 0 <= x < |r.sessions| ensures SessionOk(r, x) { assert SessionOk(st, x); }
  }

  /** Steps that leave tunnels, series, attachments and sample marks alone, and let
      counters only grow. */
  lemma SoundGrows(st: State, r: State)
    requires Sound(st) && r.tunnels == st.tunnels && r.attached == st.attached && |r.counted| == |r.sessions| >= |st.sessions|
    requires forall n :: For(r.series, n).(pendingRequests := 0) == For(st.series, n).(pendingRequests := 0)
    requires forall s :: 0 <= s < |st.sessions| ==>
      && r.counted[s] == st.counted[s] && r.sessions[s].account == st.sessions[s].account && r.sessions[s].closed == st.sessions[s].closed
      && r.sessions[s].sent >= st.sessions[s].sent && r.sessions[s].received >= st.sessions[s].received
    requires forall s :: |st.sessions| <= s < |r.sessions| ==> r.counted[s] == ZERO
    ensures Sound(r)
  {
    forall m | m in r.tunnels ensures TunnelOk(r, m) {
      assert TunnelOk(st, m);
      if r.tunnels[m].session.Some? { assert Followed(st, m, r.tunnels[m].session.value); }
    }
    forall x | 0 <= x < |r.sessions| ensures SessionOk(r, x) {
      if x < |st.sessions| { assert SessionOk(st, x); }
    }
    forall n | n in r.series && r.series[n].session.Some? ensures r.series[n].session.value in r.attached {
      assert For(r.series, n).session == For(st.series, n).session;
    }
  }

  lemma SoundForgotten(st: State, n: Name)
    requires Sound(st)
    ensures Sound(Step(st, Forgotten(n)))
  {
    var r := Step(st, Forgotten(n));
    forall m | m in r.tunnels ensures TunnelOk(r, m) {
      assert TunnelOk(st, m);
      if r.tunnels[m].session.Some? { assert Followed(st, m, r.tunnels[m].session.value); }
    }
    forall x | 0 <= x < |r.sessions| ensures SessionOk(r, x) { assert SessionOk(st, x); }
  }

  lemma StepSound(st: State, e: Event)
    requires Sound(st) && Conserved(st) && Enabled(st, e)
    ensures Sound(Step(st, e))
  {
    match e
    case Attached(n, s) => SoundAttached(st, n, s);
    case Closed(s) => SoundClosed(st, s);
    case Forgotten(n) => SoundForgotten(st, n);
    case Sampled(order) => SampleKeeps(st, order);
    case Connected(_) => SoundGrows(st, Step(st, e));
    case Moved(_, _, _) => SoundGrows(st, Step(st, e));
    case Requested(_) => SoundGrows(st, Step(st, e));
    case FlushStarted => SoundGrows(st, Step(st, e));
    case Stored(_, _) => SoundGrows(st, Step(st, e));
    case FlushEnded(_) => SoundGrows(st, Step(st, e));
  }

  // ----- what is recorded and what is counted, step by step -----

  /** Storing moves traffic around and keeps its sum. */
  lemma FlushAccount(st: State, e: Event, a: Account, part: Part)
    requires Enabled(st, e) && (e.FlushStarted? || e.Stored? || e.FlushEnded?)
    ensures Recorded(Step(st, e), a, part) == Recorded(st, a, part)
  {
    hide InBatches;
    match e
    case FlushStarted => BatchAdded(st.flushing, st.pending, a, part);
    case Stored(i, b) => RowStored(st, i, b, a, part);
    case FlushEnded(i) => BatchGivenUp(st, i, a, part);
  }

  lemma BatchAdded(flushing: seq<Ledger>, l: Ledger, a: Account, part: Part)
    ensures InBatches(flushing + [l], a, part) == InBatches(flushing, a, part) + Amount(At(l, a), part)
  {
    assert (flushing + [l])[..|flushing|] == flushing;
  }

  lemma BatchGivenUp(st: State, i: nat, a: Account, part: Part)
    requires i < |st.flushing|
    ensures Recorded(Step(st, FlushEnded(i)), a, part) == Recorded(st, a, part)
  {
    BatchChange(st.flushing, i, map[], a, part);
    hide InBatches;
  }

  lemma RowStored(st: State, i: nat, b: Account, a: Account, part: Part)
    requires i < |st.flushing| && b in st.flushing[i]
    ensures Recorded(Step(st, Stored(i, b)), a, part) == Recorded(st, a, part)
  {
    BatchChange(st.flushing, i, st.flushing[i] - {b}, a, part);
    hide InBatches;
    hide Merge;
  }

  /** Counters that move, sessions that come and go, change nothing that was counted. */
  lemma CountedSame(st: State, s: SessionId, x: Session, a: Account, side: Side)
    requires s < |st.sessions| == |st.counted| && x.account == st.sessions[s].account
    ensures Counted(st.sessions[s := x], st.counted, a, side) == Counted(st.sessions, st.counted, a, side)
  {
    CountChange(st.sessions, st.counted, s, x, st.counted[s], a, side);
    assert st.counted[s := st.counted[s]] == st.counted;
  }

  lemma OtherAccount(st: State, e: Event, a: Account, side: Side)
    requires Sound(st) && Enabled(st, e) && !e.Sampled? && !e.FlushStarted? && !e.Stored? && !e.FlushEnded?
    ensures var r := Step(st, e);
      && |r.counted| == |r.sessions| && Recorded(r, a, side) == Recorded(st, a, side)
      && Counted(r.sessions, r.counted, a, side) == Counted(st.sessions, st.counted, a, side)
  {
    var r := Step(st, e);
    if e.Connected? {
      assert r.sessions[..|st.sessions|] == st.sessions && r.counted[..|st.sessions|] == st.counted;
    } else if e.Moved? || e.Closed? {
      CountedSame(st, e.s, r.sessions[e.s], a, side);
    }
  }

  lemma StepConserved(st: State, e: Event)
    requires Sound(st) && Conserved(st) && Enabled(st, e)
    ensures Sound(Step(st, e)) && Conserved(Step(st, e))
  {
    StepSound(st, e);
    if e.Sampled? {
      SampleKeeps(st, e.order);
    } else {
      var r := Step(st, e);
      forall a: Account, side: Side ensures Recorded(r, a, side) == Counted(r.sessions, r.counted, a, side) {
        assert Recorded(st, a, side) == Counted(st.sessions, st.counted, a, side);
        if e.FlushStarted? || e.Stored? || e.FlushEnded? { FlushAccount(st, e, a, side); } else { OtherAccount(st, e, a, side); }
      }
    }
  }

  lemma {:induction false} RunConserved(st: State, es: seq<Event>)
    requires Sound(st) && Conserved(st) && Possible(st, es)
    ensures Sound(Run(st, es)) && Conserved(Run(st, es))
    decreases |es|
  {
    if es != [] {
      StepConserved(st, es[0]);
      RunConserved(Step(st, es[0]), es[1..]);
    }
  }

  // ----- whole runs -----

  lemma StartConserved()
    ensures Sound(Start()) && Conserved(Start())
  {
  }

  /** Over every run: what is stored, being stored, pending or dropped for an account is
      exactly what its sessions' counters were when each was last sampled. */
  lemma TrafficConserved(es: seq<Event>, a: Account, side: Side)
    requires Possible(Start(), es)
    ensures var st := Run(Start(), es);
      |st.counted| == |st.sessions| && Recorded(st, a, side) == Counted(st.sessions, st.counted, a, side)
  {
    StartConserved();
    RunConserved(Start(), es);
  }

  lemma {:induction false} CountedWithinMoved(sessions: seq<Session>, counted: seq<Traffic>, a: Account, side: Side)
    requires |sessions| == |counted|
    requires forall s :: 0 <= s < |sessions| ==> counted[s].bytesIn <= sessions[s].sent && counted[s].bytesOut <= sessions[s].received
    ensures Counted(sessions, counted, a, side) <= MovedBy(sessions, a, side)
    decreases |sessions|
  {
    if sessions != [] { CountedWithinMoved(sessions[..|sessions| - 1], counted[..|sessions| - 1], a, side); }
  }

  /** An account is never charged for more than its sessions moved. */
  lemma NeverOvercharged(es: seq<Event>, a: Account, side: Side)
    requires Possible(Start(), es)
    ensures var st := Run(Start(), es); Amount(At(st.stored, a), side) <= MovedBy(st.sessions, a, side)
  {
    StartConserved();
    RunConserved(Start(), es);
    var st := Run(Start(), es);
    assert Recorded(st, a, side) == Counted(st.sessions, st.counted, a, side);
    forall s | 0 <= s < |st.sessions| ensures st.counted[s].bytesIn <= st.sessions[s].sent && st.counted[s].bytesOut <= st.sessions[s].received {
      assert SessionOk(st, s);
    }
    CountedWithinMoved(st.sessions, st.counted, a, side);
  }

  /** The law needs sessions to register once: one that served two names would be charged
      twice over. */
  lemma SharedSessionCountedTwice(st: State, n: Name, m: Name, s: SessionId, a: Account)
    requires n != m && n in st.tunnels && m in st.tunnels && st.tunnels[n] == st.tunnels[m] == Tunnel(a, Some(s))
    requires s < |st.sessions| && !st.sessions[s].closed && For(st.series, n).session != Some(s) && For(st.series, m).session != Some(s)
    ensures Amount(At(Sample(st, [n, m]).pending, a), In) == Amount(At(st.pending, a), In) + 2 * st.sessions[s].sent
  {
    assert [n, m][..1] == [n] && [n][..0] == [];
    assert Sample(st, [n]) == SampleOne(st, n);
    assert Sample(st, [n, m]) == SampleOne(SampleOne(st, n), m);
    var (_, first) := SampleEntry(For(st.series, n), Some(s), st.sessions);
    var (_, second) := SampleEntry(For(st.series, m), Some(s), st.sessions);
    RecordAdds(st.pending, a, first, a, In);
    RecordAdds(Record(st.pending, a, first), a, second, a, In);
  }
}
