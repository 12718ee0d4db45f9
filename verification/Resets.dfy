/** RESET frames never multiply: each end puts at most one on the wire per stream,
    and none once it has processed the peer's RESET or a clean two-way CLOSE. */
module Resets {
  import opened MuxTypes
  import S = ServerSpec
  import C = ClientSpec
  import opened Link
  import opened LinkInvariant
  import opened LinkRun
  import opened LinkTheorems

  function Count(frames: seq<Frame>, id: nat): nat {
    if frames == [] then 0 else (if frames[0] == Reset(id) then 1 else 0) + Count(frames[1..], id)
  }

  lemma {:induction false} CountAppend(a: seq<Frame>, b: seq<Frame>, id: nat)
    ensures Count(a + b, id) == Count(a, id) + Count(b, id)
  {
    if a == [] {
      assert a + b == b;
    } else {
      CountAppend(a[1..], b, id);
      assert (a + b)[1..] == a[1..] + b;
    }
  }

  // ----- the server -----

  lemma {:induction false} FlushNoReset(s: S.Stream, id: nat, budget: nat, i: nat)
    ensures var out := S.Flush(s, id, budget);
            out.s.resets == s.resets && Count(out.frames, i) == 0
    decreases S.Work(s.queue)
  {
    if s.queue != [] && !s.finished {
      var item := s.queue[0];
      if item.index >= |item.pieces| {
        FlushNoReset(s.(queue := s.queue[1..]), id, budget, i);
      } else if !(s.window < |item.pieces[item.index]| || budget == 0) {
        FlushNoReset(S.SendHead(s), id, budget - 1, i);
        CountAppend([Data(id, item.pieces[item.index])], S.Flush(S.SendHead(s), id, budget - 1).frames, i);
      }
    }
  }

  /** An outcome of stream `owner` whose RESET frames are exactly those it records. */
  ghost predicate Recorded(s: S.Stream, out: S.Out, owner: nat, id: nat) {
    && s.resets <= out.s.resets
    && Count(out.frames, id) == (if id == owner then out.s.resets - s.resets else 0)
    && (s.finished ==> out.s.resets == s.resets)
  }

  lemma StepRecorded(s: S.Stream, owner: nat, op: ServerOp, id: nat)
    ensures Recorded(s, ServerStep(s, owner, op), owner, id)
  {
    match op
    case Write(chunk, budget) =>
      FlushNoReset(s.(queue := s.queue + [S.Item(Chunks(chunk), 0)], accepted := s.accepted + chunk), owner, budget, id);
    case Final(budget) => FlushNoReset(s.(finalPending := true, ended := true), owner, budget, id);
    case _ =>
  }

  lemma DispatchRecorded(s: S.Stream, f: Frame, budget: nat, id: nat)
    ensures Recorded(s, S.Dispatch(s, f, budget), f.id, id)
    ensures f.Reset? ==> S.Dispatch(s, f, budget).frames == []
  {
    if f.Update? { FlushNoReset(s.(window := s.window + f.amount), f.id, budget, id); }
  }

  /** How the server's record and the RESETs it has on the wire move together. */
  ghost predicate ServerMoves(e: S.End, r: S.Result, id: nat) {
    && id in e.streams && id in r.end.streams
    && e.streams[id].resets <= r.end.streams[id].resets
    && Count(r.frames, id) <= r.end.streams[id].resets - e.streams[id].resets
    && (e.streams[id].finished ==> r.end.streams[id].resets == e.streams[id].resets)
  }

  lemma ApplyMoves(e: S.End, owner: nat, out: S.Out, id: nat)
    requires owner in e.streams && id in e.streams && Recorded(e.streams[owner], out, owner, id)
    ensures ServerMoves(e, S.Apply(e, owner, out), id)
  {
  }

  lemma {:induction false} FlushAllMoves(e: S.End, ids: seq<nat>, budgets: seq<nat>, id: nat)
    requires |ids| == |budgets| && id in e.streams
    ensures var r := S.FlushAll(e, ids, budgets);
            id in r.end.streams && r.end.streams[id].resets == e.streams[id].resets && Count(r.frames, id) == 0
    decreases |ids|
  {
    if ids != [] {
      if ids[0] !in e.streams {
        FlushAllMoves(e, ids[1..], budgets[1..], id);
      } else {
        FlushNoReset(e.streams[ids[0]], ids[0], budgets[0], id);
        var first := S.Apply(e, ids[0], S.Flush(e.streams[ids[0]], ids[0], budgets[0]));
        FlushAllMoves(first.end, ids[1..], budgets[1..], id);
        CountAppend(first.frames, S.FlushAll(first.end, ids[1..], budgets[1..]).frames, id);
      }
    }
  }

  lemma FrameMoves(e: S.End, f: Frame, budget: nat, id: nat)
    requires id in e.streams && (f.Open? ==> f.id !in e.streams)
    ensures ServerMoves(e, S.OnFrame(e, f, budget), id)
    ensures f.Reset? ==> S.OnFrame(e, f, budget).frames == []
  {
    var c := S.Counted(e, f);
    if !f.Open? && f.id in c.table && f.id in c.streams {
      DispatchRecorded(c.streams[f.id], f, budget, id);
      ApplyMoves(c, f.id, S.Dispatch(c.streams[f.id], f, budget), id);
    }
  }

  lemma LooseAreSignals(n: Net, k: nat)
    requires Streams(n) && k < |n.loose|
    ensures Signal(n.loose[k])
  {
    assert Ok(ViewOf(n, n.loose[k].id));
    Pulled(n.loose, k, n.loose[k].id);
  }

  /** What the server put on the wire joins its channel. */
  lemma ServerMovesOn(n: Net, m: Net, r: S.Result, id: nat)
    requires m == AtServer(n, r) && ServerMoves(n.server, r, id)
    ensures Moved(n, m, id)
  {
    CountAppend(n.down, r.frames, id);
  }

  /** How record and channel move together from n to m. */
  ghost predicate Moved(n: Net, m: Net, id: nat) {
    && id in n.server.streams && id in m.server.streams
    && n.server.streams[id].resets <= m.server.streams[id].resets
    && Count(m.down, id) <= Count(n.down, id) + m.server.streams[id].resets - n.server.streams[id].resets
    && (n.server.streams[id].finished ==> m.server.streams[id].resets == n.server.streams[id].resets)
  }

  lemma CallMoves(n: Net, sid: nat, op: ServerOp, id: nat)
    requires id in n.server.streams
    ensures Moved(n, Next(n, ServerCall(sid, op)), id)
  {
    if sid in n.server.streams {
      var out := ServerStep(n.server.streams[sid], sid, op);
      StepRecorded(n.server.streams[sid], sid, op, id);
      hide ServerStep;
      ApplyMoves(n.server, sid, out, id);
      hide S.Apply;
      ServerMovesOn(n, Next(n, ServerCall(sid, op)), S.Apply(n.server, sid, out), id);
    }
  }

  lemma DrainMoves(n: Net, room: bool, budgets: seq<nat>, id: nat)
    requires id in n.server.streams
    ensures Moved(n, Next(n, ServerDrain(room, budgets)), id)
  {
    if n.server.timer && |budgets| == |n.server.waiting| {
      FlushAllMoves(n.server.(waiting := []), n.server.waiting, budgets, id);
      hide S.FlushAll;
      CountAppend(n.down, S.Drain(n.server, room, budgets).frames, id);
    }
  }

  lemma DeliverMoves(n: Net, m: Net, f: Frame, budget: nat, id: nat)
    requires id in n.server.streams && (f.Open? ==> f.id !in n.server.streams)
    requires m.server == n.server && m.down == n.down
    ensures Moved(n, AtServer(m, S.OnFrame(n.server, f, budget)), id)
  {
    FrameMoves(n.server, f, budget, id);
    hide S.OnFrame;
    ServerMovesOn(m, AtServer(m, S.OnFrame(n.server, f, budget)), S.OnFrame(n.server, f, budget), id);
  }

  /** Closing and client events leave the server's records alone and add no RESET. */
  lemma QuietMoves(n: Net, e: Event, id: nat)
    requires id in n.server.streams && n.server.nextId !in n.server.streams
    requires e.ServerOpen? || e.WsClosing? || e.SocketClose? || e.ClientOpen? || e.ClientCall? || e.ClientDeliver? || e.ClientShutdown?
    ensures Moved(n, Next(n, e), id)
  {
    hide ClientStep;
    hide C.OnFrame;
    if e.ServerOpen? { CountAppend(n.down, S.OpenStream(n.server).frames, id); }
  }

  lemma ServerMovesNext(n: Net, e: Event, id: nat)
    requires id in n.server.streams && n.server.nextId !in n.server.streams
    requires n.up != [] && n.up[0].Open? ==> n.up[0].id !in n.server.streams
    requires e.ServerDeliverLoose? && e.k < |n.loose| ==> !n.loose[e.k].Open?
    ensures Moved(n, Next(n, e), id)
  {
    if e.ServerCall? { CallMoves(n, e.sid, e.sop, id); }
    else if e.ServerDrain? { DrainMoves(n, e.room, e.budgets, id); }
    else if e.ServerDeliver? {
      hide S.OnFrame;
      if n.up != [] { DeliverMoves(n, n.(up := n.up[1..]), n.up[0], e.budget, id); }
    } else if e.ServerDeliverLoose? {
      hide S.OnFrame;
      if e.k < |n.loose| { DeliverMoves(n, n.(loose := n.loose[..e.k] + n.loose[e.k + 1..]), n.loose[e.k], e.looseBudget, id); }
    } else {
      QuietMoves(n, e, id);
    }
  }

  /** The server: at most one RESET per stream, none after the peer's RESET or a
      clean two-way CLOSE, and every RESET it adds to the wire is on its record. */
  lemma ServerResets(n: Net, e: Event, id: nat)
    requires Reachable(n) && id in n.server.streams
    ensures id in Next(n, e).server.streams
    ensures n.server.streams[id].resets <= Next(n, e).server.streams[id].resets <= 1
    ensures Count(Next(n, e).down, id) <= Count(n.down, id) + Next(n, e).server.streams[id].resets - n.server.streams[id].resets
    ensures var s := n.server.streams[id];
            s.resetReceived || (s.closeSent && s.closeReceived) ==> Next(n, e).server.streams[id].resets == s.resets
  {
    ReachableInv(n);
    OpenIsNew(n);
    FreshIds(n, n.server.nextId);
    if e.ServerDeliverLoose? && e.k < |n.loose| { LooseAreSignals(n, e.k); }
    NextStreams(n, e);
    hide Streams;
    hide Ids;
    ServerMovesNext(n, e, id);
    AtMostOne(n, id);
    AtMostOne(Next(n, e), id);
  }

  lemma AtMostOne(n: Net, id: nat)
    requires Streams(n)
    ensures id in n.server.streams ==> n.server.streams[id].resets <= 1
    ensures id in n.server.streams && n.server.streams[id].resetReceived ==> n.server.streams[id].finished
    ensures id in n.server.streams && n.server.streams[id].closeSent && n.server.streams[id].closeReceived ==> n.server.streams[id].finished
    ensures id in n.client.streams ==> n.client.streams[id].resets <= 1
  {
    assert Ok(ViewOf(n, id));
  }

  // ----- the client -----

  lemma ClientStepRecorded(s: C.Stream, owner: nat, op: ClientOp, closed: bool, id: nat)
    ensures var out := ClientStep(s, owner, op, closed);
            && s.resets <= out.s.resets
            && Count(out.loose, id) == (if id == owner then out.s.resets - s.resets else 0)
            && (s.dead || (s.closeSent && s.closeReceived && !op.ResetStream?) ==> out.s.resets == s.resets)
  {
  }

  /** How the client's record and its RESETs in flight move together from n to m. */
  ghost predicate ClientMoved(n: Net, m: Net, id: nat) {
    && id in n.client.streams && id in m.client.streams
    && n.client.streams[id].resets <= m.client.streams[id].resets
    && Count(m.loose, id) <= Count(n.loose, id) + m.client.streams[id].resets - n.client.streams[id].resets
    && (n.client.streams[id].dead ==> m.client.streams[id].resets == n.client.streams[id].resets)
  }

  ghost predicate SameRecord(n: Net, m: Net, id: nat) {
    && id in n.client.streams && id in m.client.streams
    && m.client.streams[id].resets == n.client.streams[id].resets && Count(m.loose, id) <= Count(n.loose, id)
  }

  lemma ClientCallMoves(n: Net, cid: nat, op: ClientOp, id: nat)
    requires id in n.client.streams
    ensures var c := n.client.streams[id]; var m := Next(n, ClientCall(cid, op));
      && ClientMoved(n, m, id)
      && (c.closeSent && c.closeReceived && !(cid == id && op.ResetStream?) ==> m.client.streams[id].resets == c.resets)
  {
    if cid in n.client.streams {
      var out := ClientStep(n.client.streams[cid], cid, op, n.client.closed);
      ClientStepRecorded(n.client.streams[cid], cid, op, n.client.closed, id);
      hide ClientStep;
      CountAppend(n.loose, if n.client.closed then [] else out.loose, id);
      hide Count;
    }
  }

  lemma ServerSideMoves(n: Net, e: Event, id: nat)
    requires id in n.client.streams && !e.ClientCall? && !e.ClientOpen? && !e.ClientDeliver? && !e.ClientShutdown?
    ensures SameRecord(n, Next(n, e), id)
  {
    hide S.OnFrame;
    hide S.Drain;
    hide ServerStep;
    if e.ServerDeliverLoose? && e.k < |n.loose| { CountPull(n.loose, e.k, id); }
  }

  lemma ClientSideMoves(n: Net, e: Event, id: nat)
    requires id in n.client.streams && n.client.nextId !in n.client.streams
    requires e.ClientOpen? || e.ClientShutdown? || (e.ClientDeliver? && (n.down != [] && n.down[0].Open? ==> n.down[0].id !in n.client.streams))
    ensures SameRecord(n, Next(n, e), id)
  {
    assert n.loose + [] == n.loose;
    hide Count;
  }

  lemma ClientMovesNext(n: Net, e: Event, id: nat)
    requires id in n.client.streams && n.client.nextId !in n.client.streams
    requires n.down != [] && n.down[0].Open? ==> n.down[0].id !in n.client.streams
    ensures var c := n.client.streams[id]; var m := Next(n, e);
      && ClientMoved(n, m, id)
      && (c.closeSent && c.closeReceived && e != ClientCall(id, ResetStream) ==> m.client.streams[id].resets == c.resets)
  {
    hide Next;
    hide Count;
    if e.ClientCall? { ClientCallMoves(n, e.cid, e.cop, id); }
    else if e.ClientOpen? || e.ClientDeliver? || e.ClientShutdown? { ClientSideMoves(n, e, id); }
    else { ServerSideMoves(n, e, id); }
  }

  lemma CountPull(frames: seq<Frame>, k: nat, id: nat)
    requires k < |frames|
    ensures Count(frames[..k] + frames[k + 1..], id) <= Count(frames, id)
  {
    assert frames == frames[..k] + ([frames[k]] + frames[k + 1..]);
    CountAppend(frames[..k], [frames[k]] + frames[k + 1..], id);
    CountAppend(frames[..k], frames[k + 1..], id);
    CountAppend([frames[k]], frames[k + 1..], id);
  }

  /** The client: at most one RESET per stream and none once it is dead. After a clean
      two-way CLOSE one is emitted if and only if reset() is called on a stream that is
      neither dead nor dropped: reset() looks at `dead` alone. */
  lemma ClientResets(n: Net, e: Event, id: nat)
    requires Reachable(n) && id in n.client.streams
    ensures id in Next(n, e).client.streams
    ensures n.client.streams[id].resets <= Next(n, e).client.streams[id].resets <= 1
    ensures Count(Next(n, e).loose, id) <= Count(n.loose, id) + Next(n, e).client.streams[id].resets - n.client.streams[id].resets
    ensures n.client.streams[id].dead ==> Next(n, e).client.streams[id].resets == n.client.streams[id].resets
    ensures var c := n.client.streams[id];
            c.closeSent && c.closeReceived ==>
              (Next(n, e).client.streams[id].resets > c.resets <==> e == ClientCall(id, ResetStream) && !c.dead && !c.dropped)
  {
    ReachableInv(n);
    OpenIsNew(n);
    FreshIds(n, n.client.nextId);
    NextStreams(n, e);
    hide Streams;
    hide Ids;
    ClientMovesNext(n, e, id);
    AtMostOne(Next(n, e), id);
    if e == ClientCall(id, ResetStream) { ResetCalled(n, id); }
  }

  /** What reset() does: an alive stream dies and its RESET is handed to a task, unless the
      connection is closed; otherwise nothing happens. */
  lemma ResetCalled(n: Net, id: nat)
    requires id in n.client.streams
    ensures var c := n.client.streams[id]; var m := Next(n, ClientCall(id, ResetStream));
      && id in m.client.streams && m.down == n.down && m.up == n.up
      && m.client.streams[id].resets == c.resets + (if c.dead || c.dropped then 0 else 1)
      && m.loose == n.loose + if c.dead || c.dropped || n.client.closed then [] else [Reset(id)]
  {
    assert n.up + [] == n.up && n.loose + [] == n.loose;
  }

  // A run that closes stream 2 both ways and then resets it at the client.

  lemma Took(n: Net, e: Event)
    requires Reachable(n)
    ensures Reachable(Next(n, e))
  {
    var events :| Run(INITIAL, events) == n;
    RunAppend(INITIAL, events, e);
    assert Run(INITIAL, events + [e]) == Next(n, e);
  }

  lemma {:induction false} RunAppend(n: Net, events: seq<Event>, e: Event)
    ensures Run(n, events + [e]) == Next(Run(n, events), e)
    decreases |events|
  {
    if events == [] {
      assert events + [e] == [e] && [e][1..] == [];
    } else {
      assert (events + [e])[1..] == events[1..] + [e];
      RunAppend(Next(n, events[0]), events[1..], e);
    }
  }

  /** The server opens stream 2, and the client learns of it. */
  lemma ServerOpens() returns (n: Net)
    ensures Reachable(n) && n.server.streams == map[2 := S.FRESH] && S.Up(n.server)
    ensures n.client == C.End(map[2 := C.FRESH], {2}, 1, false) && n.down == [] && n.up == [] && n.loose == []
  {
    n := INITIAL;
    assert Run(INITIAL, []) == n;
    hide Reachable;
    Took(n, ServerOpen);
    n := Next(n, ServerOpen);
    assert n.down == [Open(2)];
    Took(n, ClientDeliver);
    n := Next(n, ClientDeliver);
  }

  /** The server ends its side; its CLOSE arrives. */
  lemma ServerClosesFirst() returns (n: Net)
    ensures Reachable(n) && n.client == C.End(map[2 := C.FRESH.(rx := [GotClose])], {2}, 1, false)
    ensures n.down == [] && n.up == [] && n.loose == []
  {
    n := ServerOpens();
    hide Reachable;
    Took(n, ServerCall(2, Final(0)));
    var m := Next(n, ServerCall(2, Final(0)));
    assert m.down == [] + [Close(2)] && m.client == n.client;
    Took(m, ClientDeliver);
    n := Next(m, ClientDeliver);
    assert [] + [GotClose] == [GotClose];
    assert n.client.streams == map[2 := C.FRESH.(rx := [GotClose])];
  }

  /** The client takes the CLOSE and closes its own side. */
  lemma CleanlyClosed() returns (n: Net)
    ensures Reachable(n) && 2 in n.client.streams && !n.client.closed && n.loose == []
    ensures var c := n.client.streams[2]; c.closeSent && c.closeReceived && !c.dead && !c.dropped && c.resets == 0
  {
    n := ServerClosesFirst();
    hide Reachable;
    Took(n, ClientCall(2, RecvBegin));
    n := Next(n, ClientCall(2, RecvBegin));
    assert n.client.streams[2] == C.FRESH.(rx := [GotClose], parked := true) && n.loose == [];
    Took(n, ClientCall(2, RecvTake));
    n := Next(n, ClientCall(2, RecvTake));
    assert n.client.streams[2].closeReceived && !n.client.streams[2].dead && n.client.streams[2].pieces == [] && n.loose == [];
    Took(n, ClientCall(2, CloseStream));
    n := Next(n, ClientCall(2, CloseStream));
  }

  /** So the promise "no RESET after a clean close" fails in a reachable state. */
  lemma ResetAfterCleanClose() returns (n: Net)
    ensures Reachable(n) && 2 in n.client.streams
    ensures var c := n.client.streams[2]; c.closeSent && c.closeReceived && !c.dead && !c.dropped
    ensures n.loose == [] && Next(n, ClientCall(2, ResetStream)).loose == [Reset(2)]
  {
    n := CleanlyClosed();
    hide Reachable;
    ResetCalled(n, 2);
  }

  // ----- no answer to a RESET -----

  lemma ResetUnanswered(e: S.End, f: Frame, budget: nat)
    requires f.Reset?
    ensures S.OnFrame(e, f, budget).frames == []
  {
    if f.id in e.streams { FrameMoves(e, f, budget, f.id); }
  }

  /** Resets never bounce: an end that processes a RESET takes it off its channel and puts
      no frame on any. */
  lemma ResetsNeverBounce(n: Net, e: Event)
    requires Reachable(n)
    requires || (e.ServerDeliverLoose? && e.k < |n.loose| && n.loose[e.k].Reset?)
             || (e.ServerDeliver? && n.up != [] && n.up[0].Reset?)
             || (e.ClientDeliver? && n.down != [] && n.down[0].Reset?)
    ensures var m := Next(n, e);
      if e.ClientDeliver? then m.down == n.down[1..] && m.up == n.up && m.loose == n.loose
      else
        && m.down == n.down
        && m.up == (if e.ServerDeliver? && !n.server.closed then n.up[1..] else n.up)
        && m.loose == if e.ServerDeliverLoose? && !n.server.closed then n.loose[..e.k] + n.loose[e.k + 1..] else n.loose
  {
    assert n.down + [] == n.down;
    if e.ServerDeliverLoose? { ResetUnanswered(n.server, n.loose[e.k], e.looseBudget); }
    if e.ServerDeliver? { ResetUnanswered(n.server, n.up[0], e.budget); }
  }
}
