/** What each operation does to the two ends and the channels between them, in the
    protocol's own terms: which frame goes out, when, and what it carries. */
module LinkEffects {
  import opened Prelude
  import opened MuxTypes
  import S = ServerSpec
  import C = ClientSpec
  import opened Link
  import opened LinkInvariant
  import opened LinkRun
  import opened LinkTheorems
  import opened Resets

  /** The frames that reach the wire when an end emits `frame`. */
  function Emitted(open: bool, frame: Frame): seq<Frame> {
    if open then [frame] else []
  }

  // ----- opening -----

  /** open(): an unused stream under the next id, with a whole window, announced by OPEN. */
  lemma ServerOpens(n: Net)
    requires !n.server.closed && n.server.nextId < ID_LIMIT
    ensures var m := Next(n, ServerOpen); var id := n.server.nextId;
      && m.server.nextId == id + 2 && m.server.table == n.server.table + {id} && m.server.streams.Keys == n.server.streams.Keys + {id}
      && m.server.streams[id].window == 1048576 && m.server.streams[id].queue == [] && !m.server.streams[id].finished
      && m.down == n.down + Emitted(n.server.wsOpen, Open(id)) && m.client == n.client
  {
  }

  lemma ClientOpens(n: Net)
    requires !n.client.closed && n.client.nextId < ID_LIMIT
    ensures var m := Next(n, ClientOpen); var id := n.client.nextId;
      && m.client.nextId == id + 2 && m.client.table == n.client.table + {id} && m.client.streams.Keys == n.client.streams.Keys + {id}
      && m.client.streams[id].credit == 1048576 && m.client.streams[id].pieces == [] && !m.client.streams[id].dead
      && m.up == n.up + [Open(id)] && m.loose == n.loose && m.server == n.server
  {
  }

  // ----- the server's stream -----

  /** _write: everything written is accepted, unless the stream is finished or ended. */
  lemma WriteCalled(n: Net, id: nat, chunk: seq<Byte>, budget: nat)
    requires id in n.server.streams
    ensures var s := n.server.streams[id]; var m := Next(n, ServerCall(id, Write(chunk, budget)));
      id in m.server.streams && m.server.streams[id].accepted == if s.finished || s.ended then s.accepted else s.accepted + chunk
  {
    var s := n.server.streams[id];
    FlushHistory(s.(queue := s.queue + [S.Item(Chunks(chunk), 0)], accepted := s.accepted + chunk), id, budget);
    hide Chunks;
    hide S.Flush;
  }

  lemma {:induction false} FlushHistory(s: S.Stream, id: nat, budget: nat)
    ensures var t := S.Flush(s, id, budget).s;
      && t.accepted == s.accepted && t.pushed == s.pushed && t.ended == s.ended && t.resets == s.resets
      && t.closeReceived == s.closeReceived && t.resetReceived == s.resetReceived && t.pendingUpdate == s.pendingUpdate
      && (s.finished ==> t.finished) && (s.closeSent ==> t.closeSent)
      && (t.finished && !s.finished ==> t.closeSent && t.closeReceived)
    decreases S.Work(s.queue)
  {
    S.Turn(s, id, budget);
    hide S.Flush;
    hide S.Work;
    if s.queue != [] && !s.finished {
      if s.queue[0].index >= |s.queue[0].pieces| { FlushHistory(s.(queue := s.queue[1..]), id, budget); }
      else if |s.queue[0].pieces[s.queue[0].index]| <= s.window && budget > 0 { FlushHistory(S.SendHead(s), id, budget - 1); }
    }
  }

  /** _final: with nothing queued CLOSE goes out at once, once per stream. */
  lemma FinalCalled(n: Net, id: nat, budget: nat)
    requires id in n.server.streams && n.server.streams[id].queue == []
    ensures var s := n.server.streams[id]; var m := Next(n, ServerCall(id, Final(budget)));
      var closes := !s.ended && !s.finished && !s.closeSent;
      && m.down == n.down + (if closes then Emitted(!n.server.closed && n.server.wsOpen, Close(id)) else [])
      && id in m.server.streams && m.server.streams[id].ended && (closes ==> m.server.streams[id].closeSent)
  {
  }

  /** _read: all that is owed is granted in one WINDOW_UPDATE, and nothing is owed any more. */
  lemma ReadCalled(n: Net, id: nat)
    requires id in n.server.streams
    ensures var s := n.server.streams[id]; var m := Next(n, ServerCall(id, Read)); var owed := s.pendingUpdate;
      var grants := owed > 0 && !s.finished && !s.closeReceived;
      && m.down == n.down + (if grants then Emitted(!n.server.closed && n.server.wsOpen, Update(id, owed)) else [])
      && id in m.server.streams && m.server.streams[id] == s.(pendingUpdate := if grants then 0 else owed)
      && m.client == n.client && m.up == n.up && m.loose == n.loose
  {
  }

  /** So on an open session, whatever was owed on a stream that is read is on its way. */
  lemma ReadGrants(n: Net, id: nat)
    requires id in n.server.streams && !n.server.streams[id].finished && !n.server.streams[id].closeReceived
    requires !n.server.closed && n.server.wsOpen
    ensures var m := Next(n, ServerCall(id, Read));
      ServerOwes(m.server, id) == 0 && Granted(m.down, id) == Granted(n.down, id) + ServerOwes(n.server, id)
  {
    ReadCalled(n, id);
    hide Next;
    var owed := n.server.streams[id].pendingUpdate;
    if owed > 0 { Appended(n.down, [Update(id, owed)], id, id); }
    assert n.down + [] == n.down;
    assert AfterAll(Sum(Of(n.down, id)), [Update(id, owed)]) == AfterAll(After(Sum(Of(n.down, id)), Update(id, owed)), [Update(id, owed)][1..]);
  }

  /** _destroy: the stream is finished and off the table, its queue is dropped, and RESET goes
      out if and only if it was neither finished, reset by the peer nor closed both ways. */
  lemma DestroyCalled(n: Net, id: nat)
    requires id in n.server.streams
    ensures var s := n.server.streams[id]; var m := Next(n, ServerCall(id, Destroy));
      var resets := !s.finished && !s.resetReceived && !(s.closeSent && s.closeReceived);
      && m.down == n.down + (if resets then Emitted(!n.server.closed && n.server.wsOpen, Reset(id)) else [])
      && id in m.server.streams && m.server.streams[id].finished && m.server.streams[id].queue == []
      && m.server.streams[id].resets == s.resets + (if resets then 1 else 0)
      && id !in m.server.table && m.client == n.client && m.up == n.up && m.loose == n.loose
  {
  }

  /** sendDatagram: one frame, if the stream is unfinished, the data short and there is room. */
  lemma ServerDatagramCalled(n: Net, id: nat, data: seq<Byte>, room: bool)
    requires id in n.server.streams
    ensures var s := n.server.streams[id]; var m := Next(n, ServerCall(id, ServerDatagram(data, room)));
      var sends := !s.finished && |data| <= 65507 && room;
      && m.down == n.down + (if sends then Emitted(!n.server.closed && n.server.wsOpen, Datagram(id, data)) else [])
      && id in m.server.streams && m.server.streams[id] == s
  {
  }

  // ----- the client's stream -----

  /** send(): the data is accepted whole and waits as chunks. */
  lemma SendCalled(n: Net, id: nat, data: seq<Byte>)
    requires id in n.client.streams
    ensures var c := n.client.streams[id]; var m := Next(n, ClientCall(id, SendBegin(data)));
      var begins := !c.dropped && c.pieces == [] && !c.closeSent;
      && id in m.client.streams && m.client.streams[id].accepted == c.accepted + (if begins then data else [])
      && Concat(m.client.streams[id].pieces) == if begins then data else Concat(c.pieces)
  {
    assert n.client.streams[id].accepted + [] == n.client.streams[id].accepted;
  }

  /** One chunk of a send goes out if and only if the stream lives, the credit covers it and
      the connection is open; its bytes are paid for exactly. */
  lemma PieceCalled(n: Net, id: nat)
    requires id in n.client.streams && n.client.streams[id].pieces != [] && !n.client.streams[id].dropped
    ensures var c := n.client.streams[id]; var m := Next(n, ClientCall(id, SendPiece)); var piece := c.pieces[0];
      var pays := !c.dead && |piece| <= c.credit;
      && m.up == n.up + (if pays then Emitted(!n.client.closed, Data(id, piece)) else []) && m.loose == n.loose
      && id in m.client.streams && m.client.streams[id].credit == c.credit - (if pays then |piece| else 0)
      && m.client.streams[id].pieces
         == if c.dead || (pays && n.client.closed) then [] else if pays then c.pieces[1..] else c.pieces
  {
    assert n.loose + [] == n.loose;
  }

  /** close(): CLOSE goes out if and only if the stream is neither dead, dropped nor closed
      before, and its sends are over. */
  lemma CloseCalled(n: Net, id: nat)
    requires id in n.client.streams
    ensures var c := n.client.streams[id]; var m := Next(n, ClientCall(id, CloseStream));
      var closes := !c.dropped && !c.dead && !c.closeSent && c.pieces == [];
      && m.up == n.up + (if closes then Emitted(!n.client.closed, Close(id)) else []) && m.loose == n.loose
      && id in m.client.streams && m.client.streams[id] == c.(closeSent := c.closeSent || closes)
      && m.server == n.server && m.down == n.down
  {
    assert n.loose + [] == n.loose;
  }

  lemma ClientDatagramCalled(n: Net, id: nat, data: seq<Byte>)
    requires id in n.client.streams
    ensures var c := n.client.streams[id]; var m := Next(n, ClientCall(id, ClientDatagram(data)));
      && m.up == n.up + (if !c.dropped && !c.dead && |data| <= 65507 then Emitted(!n.client.closed, Datagram(id, data)) else [])
      && m.loose == n.loose && id in m.client.streams && m.client.streams[id] == c
  {
    assert n.loose + [] == n.loose;
  }

  /** The last handle is dropped: the stream leaves the table, and RESET goes out if and only
      if it was neither dead nor closed both ways. */
  lemma DropCalled(n: Net, id: nat)
    requires id in n.client.streams && !n.client.streams[id].dropped
    ensures var c := n.client.streams[id]; var m := Next(n, ClientCall(id, DropShared));
      var resets := !c.dead && !(c.closeSent && c.closeReceived);
      && m.loose == n.loose + (if resets then Emitted(!n.client.closed, Reset(id)) else []) && m.up == n.up
      && id in m.client.streams && m.client.streams[id].dropped && id !in m.client.table
      && m.client.streams[id].rx == [] && !m.client.streams[id].rxOpen && m.client.streams[id].pieces == []
      && m.client.streams[id].resets == c.resets + if resets then 1 else 0
  {
    assert n.up + [] == n.up;
  }

  /** The reader goes: nothing is left in its queue and nothing enters it any more. */
  lemma ReaderDropped(n: Net, id: nat)
    requires id in n.client.streams
    ensures var m := Next(n, ClientCall(id, DropReader));
      id in m.client.streams && m.client.streams[id] == n.client.streams[id].(rxOpen := false, rx := [])
  {
  }

  /** recv() before it waits: 256 KiB or more are credited in one WINDOW_UPDATE. */
  lemma RecvCalled(n: Net, id: nat)
    requires id in n.client.streams && n.client.streams[id].rxOpen
    ensures var c := n.client.streams[id]; var m := Next(n, ClientCall(id, RecvBegin));
      var grants := c.unacked >= 262144 && !c.dead;
      && m.loose == n.loose + (if grants then Emitted(!n.client.closed, Update(id, c.unacked)) else []) && m.up == n.up
      && id in m.client.streams && m.client.streams[id] == c.(parked := true, unacked := if grants then 0 else c.unacked)
  {
    assert n.up + [] == n.up;
  }

  /** recv() once there is an item: it is the oldest one; its bytes are handed over and count
      as consumed, CLOSE and RESET are noted. */
  lemma RecvReturns(n: Net, id: nat)
    requires id in n.client.streams && n.client.streams[id].rxOpen && n.client.streams[id].parked && n.client.streams[id].rx != []
    ensures var c := n.client.streams[id]; var m := Next(n, ClientCall(id, RecvTake)); var item := c.rx[0];
      var bytes := if item.GotData? then item.bytes else [];
      && id in m.client.streams
      && m.client.streams[id] == c.(rx := c.rx[1..], parked := false, taken := c.taken + bytes, unacked := c.unacked + |bytes|,
                                    closeReceived := c.closeReceived || item.GotClose?, dead := c.dead || item.GotReset?)
      && m.up == n.up && m.loose == n.loose
  {
    assert n.up + [] == n.up && n.loose + [] == n.loose;
    assert n.client.streams[id].taken + [] == n.client.streams[id].taken;
  }

  // ----- frames arriving -----

  /** DATA at the server: pushed and owed, if the stream is known, unfinished and not closed
      by the client; otherwise nothing changes. */
  lemma DataAtServer(n: Net, id: nat, payload: seq<Byte>, budget: nat)
    requires !n.server.closed && n.up != [] && n.up[0] == Data(id, payload) && id in n.server.streams
    ensures var s := n.server.streams[id]; var m := Next(n, ServerDeliver(budget));
      var takes := id in n.server.table && !s.finished && !s.closeReceived;
      && m.up == n.up[1..] && m.down == n.down && id in m.server.streams
      && m.server.streams[id] == s.(pushed := s.pushed + (if takes then payload else []),
                                    pendingUpdate := s.pendingUpdate + if takes then |payload| else 0)
  {
    assert n.down + [] == n.down && n.server.streams[id].pushed + [] == n.server.streams[id].pushed;
  }

  /** CLOSE at the server: noted, and if the server had closed too the stream is finished. */
  lemma CloseAtServer(n: Net, id: nat, budget: nat)
    requires Reachable(n) && !n.server.closed && n.up != [] && n.up[0] == Close(id) && id in n.server.table
    ensures id in n.server.streams
    ensures var s := n.server.streams[id]; var m := Next(n, ServerDeliver(budget));
      && m.up == n.up[1..] && m.down == n.down && id in m.server.streams
      && m.server.streams[id] == s.(closeReceived := true, finished := s.closeSent)
      && (id in m.server.table <==> !s.closeSent)
  {
    TableIsUnfinished(n, id);
    ReachableInv(n);
    assert Ok(ViewOf(n, id));
    assert n.down + [] == n.down;
    hide Reachable;
  }

  /** RESET at the server: the stream is finished, its queue dropped, and no frame goes out. */
  lemma ResetAtServer(n: Net, id: nat, k: nat, budget: nat)
    requires Reachable(n) && !n.server.closed && k < |n.loose| && n.loose[k] == Reset(id) && id in n.server.table
    ensures id in n.server.streams
    ensures var m := Next(n, ServerDeliverLoose(k, budget));
      && m.down == n.down && m.loose == n.loose[..k] + n.loose[k + 1..] && id !in m.server.table && id in m.server.streams
      && m.server.streams[id].finished && m.server.streams[id].resetReceived && m.server.streams[id].queue == []
      && m.server.streams[id].resets == n.server.streams[id].resets
  {
    TableIsUnfinished(n, id);
    assert n.down + [] == n.down;
    hide Reachable;
  }

  /** A frame at the client: DATA, datagrams and CLOSE queue up for the reader if there is
      one, credit is added, RESET kills the stream and takes it off the table. */
  lemma FrameAtClient(n: Net, id: nat)
    requires n.down != [] && n.down[0].id == id && !n.down[0].Open? && id in n.client.table && id in n.client.streams
    ensures var c := n.client.streams[id]; var f := n.down[0]; var m := Next(n, ClientDeliver);
      var item := if f.Data? then [GotData(f.payload)] else if f.Datagram? then [GotDatagram(f.payload)]
                  else if f.Close? then [GotClose] else if f.Reset? then [GotReset] else [];
      && m.down == n.down[1..] && m.up == n.up && m.loose == n.loose && id in m.client.streams
      && m.client.streams[id] == c.(rx := c.rx + (if c.rxOpen then item else []), dead := c.dead || f.Reset?,
                                    credit := c.credit + if f.Update? then f.amount else 0)
      && (id in m.client.table <==> !f.Reset?)
  {
    assert n.client.streams[id].rx + [] == n.client.streams[id].rx;
  }

  // ----- losing the connection -----

  /** The server's socket closes: every stream of the table is finished without a frame. */
  lemma SocketLost(n: Net, id: nat)
    requires Reachable(n) && !n.server.closed && id in n.server.streams
    ensures var m := Next(n, SocketClose);
      && m.server.closed && m.server.table == {} && !m.server.timer && m.down == n.down && m.client == n.client
      && id in m.server.streams && m.server.streams[id].finished
      && m.server.streams[id].resets == n.server.streams[id].resets && m.server.streams[id].accepted == n.server.streams[id].accepted
  {
    TableIsUnfinished(n, id);
    hide Reachable;
  }

  /** The client's connection closes: every stream of the table dies and its reader is told. */
  lemma ConnectionLost(n: Net, id: nat)
    requires id in n.client.streams
    ensures var c := n.client.streams[id]; var m := Next(n, ClientShutdown);
      && m.client.closed && m.client.table == {} && m.up == n.up && m.loose == n.loose && m.server == n.server
      && id in m.client.streams
      && m.client.streams[id] == if id !in n.client.table then c
                                 else c.(dead := true, rx := c.rx + if c.rxOpen then [GotReset] else [])
  {
    assert n.client.streams[id].rx + [] == n.client.streams[id].rx;
  }

  // ----- why a stream is finished, and when its CLOSE is out -----

  /** Closed both ways, reset by the peer, or reset by the server itself. */
  ghost predicate Caused(s: S.Stream) {
    s.finished ==> (s.closeSent && s.closeReceived) || s.resetReceived || s.resets > 0
  }

  /** An ended stream that has not sent CLOSE means to once its queue is empty. */
  ghost predicate Closing(s: S.Stream) {
    s.ended && !s.closeSent ==> s.finalPending || s.finished
  }

  /** A flush stops only at a piece that does not fit, or after the CLOSE that is due. */
  ghost predicate Flushed(s: S.Stream) {
    s.finished || ((s.queue == [] || s.queue[0].index < |s.queue[0].pieces|) && (s.finalPending ==> s.queue != []))
  }

  ghost predicate Regular(s: S.Stream) {
    Caused(s) && Closing(s) && Flushed(s)
  }

  lemma {:induction false} FlushRegular(s: S.Stream, id: nat, budget: nat)
    requires Caused(s) && Closing(s)
    ensures Regular(S.Flush(s, id, budget).s)
    decreases S.Work(s.queue)
  {
    S.Turn(s, id, budget);
    hide S.Flush;
    hide S.Work;
    if s.queue != [] && !s.finished {
      if s.queue[0].index >= |s.queue[0].pieces| { FlushRegular(s.(queue := s.queue[1..]), id, budget); }
      else if |s.queue[0].pieces[s.queue[0].index]| <= s.window && budget > 0 { FlushRegular(S.SendHead(s), id, budget - 1); }
    }
  }

  lemma StepRegular(s: S.Stream, id: nat, op: ServerOp)
    requires Regular(s)
    ensures Regular(ServerStep(s, id, op).s)
  {
    match op
    case Write(chunk, budget) => FlushRegular(s.(queue := s.queue + [S.Item(Chunks(chunk), 0)], accepted := s.accepted + chunk), id, budget);
    case Final(budget) => FlushRegular(s.(finalPending := true, ended := true), id, budget);
    case _ =>
  }

  lemma DispatchRegular(s: S.Stream, f: Frame, budget: nat)
    requires Regular(s)
    ensures Regular(S.Dispatch(s, f, budget).s)
  {
    if f.Update? { FlushRegular(s.(window := s.window + f.amount), f.id, budget); }
    hide S.Flush;
  }

  ghost predicate AllRegular(e: S.End) {
    forall id :: id in e.streams ==> Regular(e.streams[id])
  }

  lemma {:induction false} FlushAllRegular(e: S.End, ids: seq<nat>, budgets: seq<nat>)
    requires AllRegular(e) && |ids| == |budgets|
    ensures AllRegular(S.FlushAll(e, ids, budgets).end)
    decreases |ids|
  {
    if ids != [] {
      if ids[0] !in e.streams {
        FlushAllRegular(e, ids[1..], budgets[1..]);
      } else {
        FlushRegular(e.streams[ids[0]], ids[0], budgets[0]);
        hide S.Flush;
        hide Regular;
        FlushAllRegular(S.Apply(e, ids[0], S.Flush(e.streams[ids[0]], ids[0], budgets[0])).end, ids[1..], budgets[1..]);
      }
    }
  }

  lemma FrameRegular(e: S.End, f: Frame, budget: nat)
    requires AllRegular(e)
    ensures AllRegular(S.OnFrame(e, f, budget).end)
  {
    assert Regular(S.FRESH);
    if !f.Open? && f.id in e.table && f.id in e.streams { DispatchRegular(e.streams[f.id], f, budget); }
    hide S.Dispatch;
    hide Regular;
  }

  lemma LostRegular(e: S.End)
    requires AllRegular(e)
    ensures AllRegular(S.SocketClose(e))
  {
  }

  lemma NextRegular(n: Net, e: Event)
    requires AllRegular(n.server)
    ensures AllRegular(Next(n, e).server)
  {
    assert Regular(S.FRESH);
    if e.ServerCall? && e.sid in n.server.streams {
      StepRegular(n.server.streams[e.sid], e.sid, e.sop);
    } else if e.ServerDrain? && Next(n, e) != n {
      FlushAllRegular(n.server.(waiting := []), n.server.waiting, e.budgets);
    } else if e.ServerDeliver? && n.up != [] {
      FrameRegular(n.server, n.up[0], e.budget);
    } else if e.ServerDeliverLoose? && e.k < |n.loose| {
      FrameRegular(n.server, n.loose[e.k], e.looseBudget);
    } else if e.SocketClose? {
      LostRegular(n.server);
    }
    hide ServerStep;
    hide S.OnFrame;
    hide S.FlushAll;
    hide S.SocketClose;
    hide Regular;
  }

  lemma {:induction false} RunRegular(n: Net, events: seq<Event>)
    requires AllRegular(n.server)
    ensures AllRegular(Run(n, events).server)
    decreases |events|
  {
    if events != [] {
      NextRegular(n, events[0]);
      hide AllRegular;
      RunRegular(Next(n, events[0]), events[1..]);
    }
  }

  lemma ReachableRegular(n: Net, id: nat)
    requires Reachable(n) && id in n.server.streams
    ensures Regular(n.server.streams[id])
  {
    var events :| Run(INITIAL, events) == n;
    RunRegular(INITIAL, events);
  }

  /** A stream of the server is finished only once it was closed both ways or reset. */
  lemma FinishedHasCause(n: Net, id: nat)
    requires Reachable(n) && id in n.server.streams && n.server.streams[id].finished
    ensures var s := n.server.streams[id]; (s.closeSent && s.closeReceived) || s.resetReceived || s.resets == 1
  {
    ReachableRegular(n, id);
    AtMostOne(n, id) by { ReachableInv(n); }
  }

  /** Once _final was called and nothing is queued, CLOSE is out or the stream is finished. */
  lemma EndedIsClosed(n: Net, id: nat)
    requires Reachable(n) && id in n.server.streams && n.server.streams[id].ended && S.QueueBytes(n.server.streams[id].queue) == []
    ensures n.server.streams[id].closeSent || n.server.streams[id].finished
  {
    ReachableRegular(n, id);
    ReachableInv(n);
    assert Ok(ViewOf(n, id));
    var s := n.server.streams[id];
    assert S.Items(s.queue);
    if s.queue != [] && s.queue[0].index < |s.queue[0].pieces| { S.SendHeadBytes(s.queue); }
  }

  // ----- byte counters -----

  /** The DATA and DATAGRAM bytes of a channel. */
  function Load(frames: seq<Frame>): nat {
    if frames == [] then 0
    else
      var f := frames[|frames| - 1];
      Load(frames[..|frames| - 1]) + if f.Data? then |f.payload| else if f.Datagram? then |f.payload| else 0
  }

  lemma {:induction false} LoadAppend(a: seq<Frame>, b: seq<Frame>)
    ensures Load(a + b) == Load(a) + S.Volume(b)
    decreases |b|
  {
    if b == [] {
      assert a + b == a;
    } else {
      assert a + b == a + [b[0]] + b[1..] && (a + [b[0]])[..|a|] == a;
      LoadAppend(a + [b[0]], b[1..]);
    }
  }

  lemma {:induction false} FlushAllCounts(e: S.End, ids: seq<nat>, budgets: seq<nat>)
    requires |ids| == |budgets|
    ensures var r := S.FlushAll(e, ids, budgets); r.end.bytesSent == e.bytesSent + S.Volume(r.frames)
    decreases |ids|
  {
    if ids != [] {
      if ids[0] !in e.streams {
        FlushAllCounts(e, ids[1..], budgets[1..]);
      } else {
        var first := S.Apply(e, ids[0], S.Flush(e.streams[ids[0]], ids[0], budgets[0]));
        hide S.Flush;
        FlushAllCounts(first.end, ids[1..], budgets[1..]);
        var rest := S.FlushAll(first.end, ids[1..], budgets[1..]);
        LoadAppend([], first.frames);
        LoadAppend(first.frames, rest.frames);
        LoadAppend([], first.frames + rest.frames);
        assert [] + first.frames == first.frames && [] + (first.frames + rest.frames) == first.frames + rest.frames;
      }
    }
  }

  /** What an outcome of the server counts is what it puts on the wire. */
  ghost predicate Counts(e: S.End, r: S.Result) {
    r.end.bytesSent == e.bytesSent + S.Volume(r.frames)
  }

  lemma ApplyCounts(e: S.End, id: nat, out: S.Out)
    ensures Counts(e, S.Apply(e, id, out))
  {
  }

  lemma FrameCounts(e: S.End, f: Frame, budget: nat)
    ensures Counts(e, S.OnFrame(e, f, budget))
  {
    hide S.Dispatch;
  }

  lemma DrainCounts(e: S.End, room: bool, budgets: seq<nat>)
    requires |budgets| == |e.waiting|
    ensures Counts(e, S.Drain(e, room, budgets))
  {
    FlushAllCounts(e.(waiting := []), e.waiting, budgets);
    hide S.FlushAll;
  }

  lemma OnWire(n: Net, m: Net, r: S.Result)
    requires Counts(n.server, r) && m.server == r.end && m.down == n.down + r.frames
    ensures m.server.bytesSent - n.server.bytesSent == Load(m.down) - Load(n.down)
  {
    LoadAppend(n.down, r.frames);
  }

  /** bytesSent grows by exactly the DATA and DATAGRAM bytes that an event puts on the wire. */
  lemma SentIsCounted(n: Net, e: Event)
    requires !e.ClientDeliver?
    ensures var m := Next(n, e); m.server.bytesSent - n.server.bytesSent == Load(m.down) - Load(n.down)
  {
    var m := Next(n, e);
    hide S.Apply;
    hide S.OnFrame;
    hide S.Drain;
    hide Load;
    hide Counts;
    if m == n {
    } else if e.ServerOpen? {
      assert Counts(n.server, S.OpenStream(n.server)) by { OpenCounts(n.server); }
      OnWire(n, m, S.OpenStream(n.server));
    } else if e.ServerCall? {
      var out := ServerStep(n.server.streams[e.sid], e.sid, e.sop);
      hide ServerStep;
      ApplyCounts(n.server, e.sid, out);
      OnWire(n, m, S.Apply(n.server, e.sid, out));
    } else if e.ServerDrain? {
      DrainCounts(n.server, e.room, e.budgets);
      OnWire(n, m, S.Drain(n.server, e.room, e.budgets));
    } else if e.ServerDeliver? {
      FrameCounts(n.server, n.up[0], e.budget);
      OnWire(n, m, S.OnFrame(n.server, n.up[0], e.budget));
    } else if e.ServerDeliverLoose? {
      FrameCounts(n.server, n.loose[e.k], e.looseBudget);
      OnWire(n, m, S.OnFrame(n.server, n.loose[e.k], e.looseBudget));
    }
  }

  lemma OpenCounts(e: S.End)
    ensures Counts(e, S.OpenStream(e))
  {
    assert S.Volume([Open(e.nextId)]) == S.Volume([Open(e.nextId)][1..]);
  }

  /** bytesReceived grows by exactly the DATA and DATAGRAM bytes of the frame that arrives. */
  lemma ReceivedIsCounted(n: Net, e: Event)
    requires !n.server.closed
    ensures var m := Next(n, e);
      m.server.bytesReceived - n.server.bytesReceived
      == (if e.ServerDeliver? && n.up != [] then Load([n.up[0]]) else 0)
       + (if e.ServerDeliverLoose? && e.k < |n.loose| then Load([n.loose[e.k]]) else 0)
  {
    if e.ServerDrain? && Next(n, e) != n { FlushAllReceived(n.server.(waiting := []), n.server.waiting, e.budgets); }
    hide S.FlushAll;
    hide ServerStep;
    hide S.Dispatch;
    if e.ServerDeliver? && n.up != [] { assert [n.up[0]][..0] == []; }
    if e.ServerDeliverLoose? && e.k < |n.loose| { assert [n.loose[e.k]][..0] == []; }
  }

  lemma {:induction false} FlushAllReceived(e: S.End, ids: seq<nat>, budgets: seq<nat>)
    requires |ids| == |budgets|
    ensures S.FlushAll(e, ids, budgets).end.bytesReceived == e.bytesReceived
    decreases |ids|
  {
    if ids != [] {
      if ids[0] !in e.streams { FlushAllReceived(e, ids[1..], budgets[1..]); }
      else {
        hide S.Flush;
        FlushAllReceived(S.Apply(e, ids[0], S.Flush(e.streams[ids[0]], ids[0], budgets[0])).end, ids[1..], budgets[1..]);
      }
    }
  }
}
