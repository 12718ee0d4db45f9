/** Every frame of a reachable channel survives the trip through bytes. */
module LinkWire {
  import opened Prelude
  import opened MuxTypes
  import S = ServerSpec
  import C = ClientSpec
  import opened Link
  import opened LinkInvariant
  import opened LinkRun
  import opened LinkTheorems
  import opened FrameCodec

  /** Ids that fit the 32 bits they travel in. */
  ghost predicate Narrow(frames: seq<Frame>) {
    forall i :: 0 <= i < |frames| ==> frames[i].id < ID_LIMIT
  }

  ghost predicate Small(ids: set<nat>) {
    forall id :: id in ids ==> id < ID_LIMIT
  }

  ghost predicate Fits(n: Net) {
    && Small(n.server.streams.Keys) && Small(n.client.streams.Keys)
    && Narrow(n.down) && Narrow(n.up) && Narrow(n.loose)
  }

  lemma {:induction false} FlushAllNarrow(e: S.End, ids: seq<nat>, budgets: seq<nat>)
    requires |ids| == |budgets| && Small(e.streams.Keys)
    ensures Narrow(S.FlushAll(e, ids, budgets).frames)
    decreases |ids|
  {
    if ids != [] {
      if ids[0] !in e.streams {
        FlushAllNarrow(e, ids[1..], budgets[1..]);
      } else {
        FlushFor(e.streams[ids[0]], ids[0], budgets[0]);
        hide S.Flush;
        FlushAllNarrow(S.Apply(e, ids[0], S.Flush(e.streams[ids[0]], ids[0], budgets[0])).end, ids[1..], budgets[1..]);
      }
    }
  }

  lemma FrameNarrow(e: S.End, f: Frame, budget: nat)
    requires Small(e.streams.Keys) && f.id < ID_LIMIT
    ensures var r := S.OnFrame(e, f, budget); Small(r.end.streams.Keys) && Narrow(r.frames)
  {
    if !f.Open? && f.id in e.table && f.id in e.streams {
      DispatchFor(e.streams[f.id], f, budget);
      hide S.Dispatch;
    }
  }

  lemma ServerFits(n: Net, e: Event)
    requires Fits(n) && (e.ServerOpen? || e.ServerCall? || e.ServerDrain? || e.ServerDeliver? || e.ServerDeliverLoose?)
    ensures Fits(Next(n, e))
  {
    if e.ServerCall? && e.sid in n.server.streams {
      ServerStepFor(n.server.streams[e.sid], e.sid, e.sop);
      hide ServerStep;
    } else if e.ServerDrain? && Next(n, e) != n {
      FlushAllNarrow(n.server.(waiting := []), n.server.waiting, e.budgets);
      hide S.FlushAll;
    } else if e.ServerDeliver? && n.up != [] {
      FrameNarrow(n.server, n.up[0], e.budget);
      hide S.OnFrame;
    } else if e.ServerDeliverLoose? && e.k < |n.loose| {
      FrameNarrow(n.server, n.loose[e.k], e.looseBudget);
      hide S.OnFrame;
    }
  }

  lemma ClientFits(n: Net, e: Event)
    requires Fits(n) && !e.ServerOpen? && !e.ServerCall? && !e.ServerDrain? && !e.ServerDeliver? && !e.ServerDeliverLoose?
    ensures Fits(Next(n, e))
  {
    if e.ClientCall? && e.cid in n.client.streams {
      ClientStepFor(n.client.streams[e.cid], e.cid, e.cop, n.client.closed);
      hide ClientStep;
    }
  }

  lemma {:induction false} RunFits(n: Net, events: seq<Event>)
    requires Fits(n)
    ensures Fits(Run(n, events))
    decreases |events|
  {
    if events != [] {
      var e := events[0];
      if e.ServerOpen? || e.ServerCall? || e.ServerDrain? || e.ServerDeliver? || e.ServerDeliverLoose? { ServerFits(n, e); }
      else { ClientFits(n, e); }
      hide Fits;
      RunFits(Next(n, e), events[1..]);
    }
  }

  lemma ReachableFits(n: Net)
    requires Reachable(n)
    ensures Fits(n)
  {
    var events :| Run(INITIAL, events) == n;
    RunFits(INITIAL, events);
  }

  /** The client's FIFO carries no WINDOW_UPDATE; the other channels' amounts fit too. */
  lemma AmountFits(n: Net, f: Frame)
    requires Reachable(n) && (f in n.down || f in n.up || f in n.loose)
    ensures f.Update? ==> f.amount < ID_LIMIT
  {
    if f in n.down {
      var k :| 0 <= k < |n.down| && n.down[k] == f;
      WithinBounds(n, f.id, k);
    } else if f in n.loose {
      var k :| 0 <= k < |n.loose| && n.loose[k] == f;
      WithinBounds(n, f.id, k);
    } else {
      var k :| 0 <= k < |n.up| && n.up[k] == f;
      ReachableInv(n);
      assert Ok(ViewOf(n, f.id));
      Pulled(n.up, k, f.id);
    }
  }

  /** Whatever is under way is read by the other end as what was sent. */
  lemma EveryFrameSurvives(n: Net, f: Frame, meta: seq<Byte>)
    requires Reachable(n) && (f in n.down || f in n.up || f in n.loose)
    ensures f.id < ID_LIMIT && Unmarshal([Kind(f)] + ToBE(f.id) + Payload(f, meta)) == Some(f)
  {
    ReachableFits(n);
    AmountFits(n, f);
    hide Reachable;
    hide Unmarshal;
    WireRoundTrip(f, meta);
  }
}
