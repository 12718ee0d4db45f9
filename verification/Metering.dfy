/** The sampler and the quota book as the program has them, proved against the model of
    the whole system. */
module Metering {
  import opened Prelude
  import opened Usage

  class Quotas {
    var pending: Ledger
    var flushing: seq<Ledger>   // the batches of flushes under way
    var stored: Ledger          // the usage table, all months together

    constructor ()
      ensures pending == map[] && flushing == [] && stored == map[]
    {
      pending, flushing, stored := map[], [], map[];
    }

    /** record */
    method Record(a: Account, bytesIn: nat, bytesOut: nat, requests: nat)
      modifies this`pending
      ensures pending == Usage.Record(old(pending), a, Traffic(bytesIn, bytesOut, requests))
    {
      if bytesIn == 0 && bytesOut == 0 && requests == 0 { return; }
      var entry := if a in pending then pending[a] else ZERO;
      entry := entry.(bytesIn := entry.bytesIn + bytesIn);
      entry := entry.(bytesOut := entry.bytesOut + bytesOut);
      entry := entry.(requests := entry.requests + requests);
      pending := pending[a := entry];
    }

    /** The first half of flush: the batch is swapped out. */
    method StartFlush(ghost st: State)
      requires st.pending == pending && st.flushing == flushing && st.stored == stored
      modifies this
      ensures var r := Step(st, FlushStarted); pending == r.pending && flushing == r.flushing && stored == r.stored
    {
      var batch := pending;
      pending := map[];
      flushing := flushing + [batch];
    }

    /** One turn of its loop: a row of batch i is added to the table. */
    method StoreRow(i: nat, a: Account, ghost st: State)
      requires i < |flushing| && a in flushing[i]
      requires st.pending == pending && st.flushing == flushing && st.stored == stored
      modifies this
      ensures var r := Step(st, Stored(i, a)); pending == r.pending && flushing == r.flushing && stored == r.stored
    {
      var delta := flushing[i][a];
      stored := stored[a := Plus(if a in stored then stored[a] else ZERO, delta)];
      flushing := flushing[i := flushing[i] - {a}];
    }
  }

  class Stats {
    var series: Series
    const quotas: Quotas

    constructor (quotas: Quotas)
      ensures this.quotas == quotas && series == map[]
    {
      this.quotas := quotas;
      series := map[];
    }

    method RecordRequest(n: Name, ghost st: State)
      requires st.series == series
      modifies this
      ensures series == Step(st, Requested(n)).series
    {
      var entry := if n in series then series[n] else EMPTY;
      series := series[n := entry.(pendingRequests := entry.pendingRequests + 1)];
    }

    method Forget(n: Name, ghost st: State)
      requires st.series == series
      modifies this
      ensures series == Step(st, Forgotten(n)).series
    {
      series := series - {n};
    }

    /** sample: every tunnel of the registry, in the order of its table. */
    method Sample(tunnels: map<Name, Tunnel>, sessions: seq<Session>, order: seq<Name>, ghost st: State)
      requires forall n :: n in order <==> n in tunnels
      requires forall n :: n in tunnels ==> tunnels[n].session.Some? ==> tunnels[n].session.value < |sessions|
      requires st.tunnels == tunnels && st.sessions == sessions && st.series == series && st.pending == quotas.pending
      modifies this, quotas`pending
      ensures var r := Usage.Sample(st, order); series == r.series && quotas.pending == r.pending
    {
      for i := 0 to |order|
        invariant var r := Usage.Sample(st, order[..i]);
          r.sessions == sessions && series == r.series && quotas.pending == r.pending
      {
        assert order[..i + 1][..i] == order[..i];
        SampleTunnel(order[i], tunnels[order[i]], sessions, Usage.Sample(st, order[..i]));
        hide SampleOne;
      }
      assert order[..|order|] == order;
    }

    /** One turn of its loop. */
    method SampleTunnel(n: Name, tunnel: Tunnel, sessions: seq<Session>, ghost st: State)
      requires tunnel.session.Some? ==> tunnel.session.value < |sessions|
      requires n in st.tunnels && st.tunnels[n] == tunnel && st.sessions == sessions && st.series == series && st.pending == quotas.pending
      modifies this, quotas`pending
      ensures var r := SampleOne(st, n); r.sessions == sessions && series == r.series && quotas.pending == r.pending
    {
      var entry := if n in series then series[n] else EMPTY;
      var session := tunnel.session;
      var inBytes, outBytes := 0, 0;
      if session.Some? && !sessions[session.value].closed {
        var s := sessions[session.value];
        if entry.session != session { entry := entry.(session := session, lastSent := 0, lastReceived := 0); }
        inBytes := Max0(s.sent - entry.lastSent);
        outBytes := Max0(s.received - entry.lastReceived);
        entry := entry.(lastSent := s.sent, lastReceived := s.received);
      } else {
        entry := entry.(session := None);
      }
      var requests := entry.pendingRequests;
      entry := entry.(pendingRequests := 0);
      assert (entry, Traffic(inBytes, outBytes, requests)) == SampleEntry(For(st.series, n), session, sessions);
      hide SampleEntry;
      series := series[n := entry];
      quotas.Record(tunnel.account, inBytes, outBytes, requests);
    }
  }
}
