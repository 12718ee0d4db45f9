/** The invariant of one stream holds for every stream after every event, whatever
    the other streams do. */
module LinkRun {
  import opened Prelude
  import opened MuxTypes
  import S = ServerSpec
  import C = ClientSpec
  import opened Link
  import opened LinkInvariant
  import A = LinkArrivals
  import L = LinkClient
  import V = LinkDelivery

  ghost predicate Streams(n: Net) {
    forall id: nat :: Ok(ViewOf(n, id))
  }

  // ----- every frame an operation emits belongs to its own stream -----

  lemma {:induction false} FlushFor(s: S.Stream, id: nat, budget: nat)
    ensures AllFor(S.Flush(s, id, budget).frames, id)
    decreases S.Work(s.queue)
  {
    if s.queue != [] && !s.finished {
      var item := s.queue[0];
      if item.index >= |item.pieces| {
        FlushFor(s.(queue := s.queue[1..]), id, budget);
      } else if !(s.window < |item.pieces[item.index]| || budget == 0) {
        FlushFor(S.SendHead(s), id, budget - 1);
      }
    }
  }

  lemma ServerStepFor(s: S.Stream, id: nat, op: ServerOp)
    ensures AllFor(ServerStep(s, id, op).frames, id)
  {
    match op
    case Write(chunk, budget) =>
      FlushFor(s.(queue := s.queue + [S.Item(Chunks(chunk), 0)], accepted := s.accepted + chunk), id, budget);
    case Final(budget) => FlushFor(s.(finalPending := true, ended := true), id, budget);
    case _ =>
  }

  lemma DispatchFor(s: S.Stream, f: Frame, budget: nat)
    ensures AllFor(S.Dispatch(s, f, budget).frames, f.id)
  {
    if f.Update? { FlushFor(s.(window := s.window + f.amount), f.id, budget); }
  }

  lemma ClientStepFor(s: C.Stream, id: nat, op: ClientOp, closed: bool)
    ensures AllFor(ClientStep(s, id, op, closed).fifo, id) && AllFor(ClientStep(s, id, op, closed).loose, id)
  {
  }

  // ----- one event, seen from every stream -----

  lemma Appended(frames: seq<Frame>, more: seq<Frame>, owner: nat, id: nat)
    requires AllFor(more, owner)
    ensures Sum(Of(frames + more, id)) == if id == owner then AfterAll(Sum(Of(frames, id)), more) else Sum(Of(frames, id))
  {
    OfAppend(frames, more, id);
    OfAllFor(more, owner, id);
    SumAppend(Of(frames, id), more);
    assert Of(frames, id) + [] == Of(frames, id);
  }

  lemma ServerSeen(n: Net, owner: nat, out: S.Out, id: nat)
    requires AllFor(out.frames, owner)
    ensures ViewOf(AtServer(n, S.Apply(n.server, owner, out)), id)
         == if id == owner then ServerAct(ViewOf(n, id), out) else ViewOf(n, id)
  {
    Appended(n.down, out.frames, owner, id);
    assert n.down + [] == n.down;
  }

  lemma ClientSeen(n: Net, owner: nat, out: C.Out, id: nat)
    requires AllFor(out.fifo, owner) && AllFor(out.loose, owner)
    ensures ViewOf(AtClient(n, C.Apply(n.client, owner, out)), id)
         == if id == owner then L.ClientAct(ViewOf(n, id), out) else ViewOf(n, id)
  {
    assert n.up + [] == n.up && n.loose + [] == n.loose;
    hide Sum;
    hide Of;
    hide AfterAll;
    Appended(n.up, out.fifo, owner, id);
    Appended(n.loose, out.loose, owner, id);
  }

  lemma Popped(frames: seq<Frame>, id: nat)
    requires frames != []
    ensures Sum(Of(frames, id)) == if frames[0].id == id then Before(frames[0], Sum(Of(frames[1..], id))) else Sum(Of(frames[1..], id))
  {
    if frames[0].id == id { assert Of(frames, id)[1..] == Of(frames[1..], id); } else { assert [] + Of(frames[1..], id) == Of(frames[1..], id); }
  }

  lemma Pulled(frames: seq<Frame>, k: nat, id: nat)
    requires k < |frames|
    ensures var rest := frames[..k] + frames[k + 1..];
            if frames[k].id == id then A.Pulled(Sum(Of(frames, id)), frames[k], Sum(Of(rest, id))) else Of(rest, id) == Of(frames, id)
  {
    var f := frames[k];
    var a, b := Of(frames[..k], id), Of(frames[k + 1..], id);
    assert frames == frames[..k] + ([f] + frames[k + 1..]);
    OfAppend(frames[..k], [f] + frames[k + 1..], id);
    OfAppend(frames[..k], frames[k + 1..], id);
    assert ([f] + frames[k + 1..])[1..] == frames[k + 1..];
    if f.id == id {
      var d := a + ([f] + b);
      SumPull(d, |a|);
      assert d[..|a|] == a && d[|a| + 1..] == b;
    }
  }

  lemma FrameSeen(n: Net, f: Frame, budget: nat, id: nat)
    ensures ViewOf(AtServer(n, S.OnFrame(n.server, f, budget)), id)
         == if id == f.id then A.ServerHandle(ViewOf(n, id), f, budget) else ViewOf(n, id)
  {
    var e := S.Counted(n.server, f);
    assert n.down + [] == n.down;
    if !f.Open? && f.id in e.table && f.id in e.streams {
      DispatchFor(e.streams[f.id], f, budget);
      ServerSeen(n.(server := e), f.id, S.Dispatch(e.streams[f.id], f, budget), id);
    }
  }

  // ----- each kind of event -----

  lemma ServerCallOk(n: Net, id: nat, op: ServerOp)
    requires Streams(n) && id in n.server.streams
    ensures Streams(Next(n, ServerCall(id, op)))
  {
    hide Ok;
    var out := ServerStep(n.server.streams[id], id, op);
    ServerStepFor(n.server.streams[id], id, op);
    forall i: nat ensures Ok(ViewOf(Next(n, ServerCall(id, op)), i)) {
      ServerSeen(n, id, out, i);
      if i == id { ServerStepOk(ViewOf(n, id), id, op); }
    }
  }

  lemma ClientCallOk(n: Net, id: nat, op: ClientOp)
    requires Streams(n) && id in n.client.streams
    ensures Streams(Next(n, ClientCall(id, op)))
  {
    hide Ok;
    var out := ClientStep(n.client.streams[id], id, op, n.client.closed);
    ClientStepFor(n.client.streams[id], id, op, n.client.closed);
    assert Next(n, ClientCall(id, op)) == AtClient(n, C.Apply(n.client, id, out));
    assert ViewOf(n, id).c == Some(n.client.streams[id]) && ViewOf(n, id).cUp == !n.client.closed;
    hide Next;
    hide AtClient;
    hide C.Apply;
    hide ViewOf;
    hide ClientStep;
    forall i: nat ensures Ok(ViewOf(Next(n, ClientCall(id, op)), i)) {
      ClientSeen(n, id, out, i);
      if i == id { L.ClientStepOk(ViewOf(n, id), id, op); }
    }
  }

  lemma ServerDeliverOk(n: Net, budget: nat)
    requires Streams(n) && n.up != [] && !n.server.closed
    ensures Streams(Next(n, ServerDeliver(budget)))
  {
    hide Ok;
    var m := n.(up := n.up[1..]);
    forall i: nat ensures Ok(ViewOf(Next(n, ServerDeliver(budget)), i)) {
      FrameSeen(m, n.up[0], budget, i);
      Popped(n.up, i);
      assert ViewOf(m, i) == ViewOf(n, i).(up := Sum(Of(n.up[1..], i)));
      if i == n.up[0].id { A.UpOk(ViewOf(n, i), n.up[0], Sum(Of(n.up[1..], i)), budget); }
    }
  }

  lemma ServerDeliverLooseOk(n: Net, k: nat, budget: nat)
    requires Streams(n) && k < |n.loose| && !n.server.closed
    ensures Streams(Next(n, ServerDeliverLoose(k, budget)))
  {
    hide Ok;
    var m := n.(loose := n.loose[..k] + n.loose[k + 1..]);
    forall i: nat ensures Ok(ViewOf(Next(n, ServerDeliverLoose(k, budget)), i)) {
      FrameSeen(m, n.loose[k], budget, i);
      Pulled(n.loose, k, i);
      assert ViewOf(m, i) == ViewOf(n, i).(loose := Sum(Of(m.loose, i)));
      if i == n.loose[k].id { A.LooseOk(ViewOf(n, i), n.loose[k], Sum(Of(m.loose, i)), budget); }
    }
  }

  lemma ClientDeliverOk(n: Net)
    requires Streams(n) && n.down != []
    ensures Streams(Next(n, ClientDeliver))
  {
    hide Ok;
    hide Next;
    forall i: nat ensures Ok(ViewOf(Next(n, ClientDeliver), i)) {
      ClientDeliverSeen(n, i);
      Popped(n.down, i);
      assert ViewOf(n, i).down == Sum(Of(n.down, i));
      hide ViewOf;
      if i == n.down[0].id { V.DownOk(ViewOf(n, i), n.down[0], Sum(Of(n.down[1..], i))); }
    }
  }

  lemma ClientDeliverSeen(n: Net, i: nat)
    requires n.down != []
    ensures var v, rest := ViewOf(n, i), Sum(Of(n.down[1..], i));
      ViewOf(Next(n, ClientDeliver), i) == if i == n.down[0].id then V.ClientHandle(v.(down := rest), n.down[0]) else v
  {
    hide Sum;
    Popped(n.down, i);
    hide Of;
  }

  /** The loop of _drain: one flush after another. */
  lemma {:induction false} FlushAllOk(n: Net, ids: seq<nat>, budgets: seq<nat>)
    requires Streams(n) && |ids| == |budgets|
    ensures Streams(AtServer(n, S.FlushAll(n.server, ids, budgets)))
    decreases |ids|
  {
    hide Ok;
    if ids == [] {
      assert n.down + [] == n.down;
      assert AtServer(n, S.FlushAll(n.server, ids, budgets)) == n;
    } else if ids[0] !in n.server.streams {
      FlushAllOk(n, ids[1..], budgets[1..]);
    } else {
      var id := ids[0];
      var out := S.Flush(n.server.streams[id], id, budgets[0]);
      var first := S.Apply(n.server, id, out);
      var m := AtServer(n, first);
      FlushFor(n.server.streams[id], id, budgets[0]);
      forall i: nat ensures Ok(ViewOf(m, i)) {
        ServerSeen(n, id, out, i);
        if i == id { FlushOk(ViewOf(n, id), id, budgets[0]); }
      }
      FlushAllOk(m, ids[1..], budgets[1..]);
      var rest := S.FlushAll(first.end, ids[1..], budgets[1..]);
      assert n.down + (first.frames + rest.frames) == n.down + first.frames + rest.frames;
    }
  }

  /** Timers and waiting lists are not part of any stream's view. */
  lemma SameViews(n: Net, e: S.End)
    requires Streams(n) && e == n.server.(waiting := e.waiting, timer := e.timer)
    ensures Streams(n.(server := e))
  {
    hide Ok;
    forall i: nat ensures Ok(ViewOf(n.(server := e), i)) { assert ViewOf(n.(server := e), i) == ViewOf(n, i); }
  }

  lemma ServerDrainOk(n: Net, room: bool, budgets: seq<nat>)
    requires Streams(n) && |budgets| == |n.server.waiting|
    ensures Streams(AtServer(n, S.Drain(n.server, room, budgets)))
  {
    hide Ok;
    var e := n.server;
    assert n.down + [] == n.down;
    if e.waiting == [] || !room {
      SameViews(n, S.Drain(e, room, budgets).end);
    } else {
      SameViews(n, e.(waiting := []));
      var r := S.FlushAll(e.(waiting := []), e.waiting, budgets);
      FlushAllOk(n.(server := e.(waiting := [])), e.waiting, budgets);
      SameViews(AtServer(n, r), S.Drain(e, room, budgets).end);
    }
  }

  lemma LossOk(n: Net, e: Event)
    requires Streams(n) && (e.WsClosing? || e.SocketClose? || e.ClientShutdown?)
    ensures Streams(Next(n, e))
  {
    hide Ok;
    hide Sum;
    hide Of;
    forall i: nat ensures Ok(ViewOf(Next(n, e), i)) { LossSeen(n, e, i); }
  }

  /** The loss of an end, seen from one stream. */
  lemma LossSeen(n: Net, e: Event, i: nat)
    requires Ok(ViewOf(n, i)) && (e.WsClosing? || e.SocketClose? || e.ClientShutdown?)
    ensures Ok(ViewOf(Next(n, e), i))
  {
    hide Ok;
    hide Sum;
    hide Of;
    var v, w := ViewOf(n, i), ViewOf(Next(n, e), i);
    if e.WsClosing? { V.QuietOk(v, false, true); }
    else if e.ClientShutdown? { V.ShutdownOk(v, w); }
    else if !n.server.closed { V.SocketCloseOk(v, i, w); }
  }

  // ----- new streams -----

  /** Ids not yet handed out by their own end are unused everywhere. */
  ghost predicate Ids(n: Net) {
    && n.server.nextId % 2 == 0 && n.client.nextId % 2 == 1
    && (forall id: nat :: id % 2 == 0 && n.server.nextId <= id ==> Blank(ViewOf(n, id)))
    && (forall id: nat :: id % 2 == 1 && n.client.nextId <= id ==> Blank(ViewOf(n, id)))
  }

  lemma ServerBornOk(v: View, id: nat)
    requires Blank(v)
    ensures Ok(v.(s := Some(S.FRESH), sLive := true, down := if v.sUp then After(EMPTY, Open(id)) else EMPTY))
  {
    var w := v.(s := Some(S.FRESH), sLive := true, down := if v.sUp then After(EMPTY, Open(id)) else EMPTY);
    var d := Down(w);
    assert d.queued == [] && d.wire == [] && d.got == [] && d.accepted == [];
  }

  lemma ClientBornOk(v: View, id: nat)
    requires Blank(v)
    ensures Ok(v.(c := Some(C.FRESH), cLive := true, up := After(EMPTY, Open(id))))
  {
    var w := v.(c := Some(C.FRESH), cLive := true, up := After(EMPTY, Open(id)));
    var d := Up(w);
    assert d.queued == [] && d.wire == [] && d.got == [] && d.accepted == [];
  }

  lemma OpenFrame(frames: seq<Frame>, id: nat, i: nat)
    requires Sum(Of(frames, id)) == EMPTY
    ensures Sum(Of(frames + [Open(id)], i)) == if i == id then After(EMPTY, Open(id)) else Sum(Of(frames, i))
  {
    Appended(frames, [Open(id)], id, i);
    assert AfterAll(EMPTY, [Open(id)]) == AfterAll(After(EMPTY, Open(id)), [Open(id)][1..]);
  }

  /** An open adds the stream at one end and, while the socket is up, an OPEN frame. */
  lemma ServerOpenSeen(n: Net, i: nat)
    requires Next(n, ServerOpen) != n && Blank(ViewOf(n, n.server.nextId))
    ensures var id := n.server.nextId; var v := ViewOf(n, i);
      ViewOf(Next(n, ServerOpen), i)
      == if i == id then v.(s := Some(S.FRESH), sLive := true, down := if v.sUp then After(EMPTY, Open(id)) else EMPTY) else v
  {
    assert n.down + [] == n.down;
    assert Sum(Of(n.down, n.server.nextId)) == EMPTY;
    hide Blank;
    hide Sum;
    OpenFrame(n.down, n.server.nextId, i);
    hide Of;
    hide After;
  }

  lemma ClientOpenSeen(n: Net, i: nat)
    requires Next(n, ClientOpen) != n && Blank(ViewOf(n, n.client.nextId))
    ensures var id := n.client.nextId; var v := ViewOf(n, i);
      ViewOf(Next(n, ClientOpen), i)
      == if i == id then v.(c := Some(C.FRESH), cLive := true, up := After(EMPTY, Open(id))) else v
  {
    var m, id := Next(n, ClientOpen), n.client.nextId;
    assert n.loose + [] == n.loose;
    assert m.up == n.up + [Open(id)] && m.loose == n.loose && m.down == n.down && m.server == n.server;
    assert m.client.streams == n.client.streams[id := C.FRESH] && m.client.table == n.client.table + {id};
    assert m.client.closed == n.client.closed;
    assert Sum(Of(n.up, id)) == EMPTY;
    hide Next;
    hide Blank;
    hide Sum;
    OpenFrame(n.up, n.client.nextId, i);
    hide Of;
    hide After;
  }

  lemma OpenOk(n: Net, e: Event)
    requires Streams(n) && Ids(n) && (e.ServerOpen? || e.ClientOpen?)
    ensures Streams(Next(n, e))
  {
    hide Ok;
    if Next(n, e) == n { return; }
    var id := if e.ServerOpen? then n.server.nextId else n.client.nextId;
    hide Next;
    hide ViewOf;
    assert Blank(ViewOf(n, id));
    hide Blank;
    forall i: nat ensures Ok(ViewOf(Next(n, e), i)) {
      if e.ServerOpen? {
        ServerOpenSeen(n, i);
        if i == id { ServerBornOk(ViewOf(n, id), id); }
      } else {
        ClientOpenSeen(n, i);
        if i == id { ClientBornOk(ViewOf(n, id), id); }
      }
    }
  }

  lemma NextStreams(n: Net, e: Event)
    requires Streams(n) && Ids(n)
    ensures Streams(Next(n, e))
  {
    hide Ok;
    hide Blank;
    if Next(n, e) == n { return; }
    match e
    case ServerOpen => OpenOk(n, e);
    case ClientOpen => OpenOk(n, e);
    case ServerCall(id, op) => ServerCallOk(n, id, op);
    case ClientCall(id, op) => ClientCallOk(n, id, op);
    case ServerDrain(room, budgets) => ServerDrainOk(n, room, budgets);
    case ServerDeliver(budget) => ServerDeliverOk(n, budget);
    case ServerDeliverLoose(k, budget) => ServerDeliverLooseOk(n, k, budget);
    case ClientDeliver => ClientDeliverOk(n);
    case WsClosing => LossOk(n, e);
    case SocketClose => LossOk(n, e);
    case ClientShutdown => LossOk(n, e);
  }

  // ----- whole runs -----

  lemma {:induction false} FlushAllBlank(n: Net, ids: seq<nat>, budgets: seq<nat>, id: nat)
    requires Blank(ViewOf(n, id)) && |ids| == |budgets|
    ensures Blank(ViewOf(AtServer(n, S.FlushAll(n.server, ids, budgets)), id))
    decreases |ids|
  {
    if ids == [] {
      assert n.down + [] == n.down;
    } else if ids[0] !in n.server.streams {
      FlushAllBlank(n, ids[1..], budgets[1..], id);
    } else {
      var out := S.Flush(n.server.streams[ids[0]], ids[0], budgets[0]);
      var first := S.Apply(n.server, ids[0], out);
      FlushFor(n.server.streams[ids[0]], ids[0], budgets[0]);
      ServerSeen(n, ids[0], out, id);
      FlushAllBlank(AtServer(n, first), ids[1..], budgets[1..], id);
      var rest := S.FlushAll(first.end, ids[1..], budgets[1..]);
      assert n.down + (first.frames + rest.frames) == n.down + first.frames + rest.frames;
    }
  }

  lemma DrainBlank(n: Net, room: bool, budgets: seq<nat>, id: nat)
    requires Blank(ViewOf(n, id)) && |budgets| == |n.server.waiting|
    ensures Blank(ViewOf(AtServer(n, S.Drain(n.server, room, budgets)), id))
  {
    assert n.down + [] == n.down;
    FlushAllBlank(n.(server := n.server.(waiting := [])), n.server.waiting, budgets, id);
  }

  /** Only its own OPEN makes an unused id used. */
  lemma ServerOpenBlank(n: Net, id: nat)
    requires Blank(ViewOf(n, id)) && id != n.server.nextId
    ensures Blank(ViewOf(Next(n, ServerOpen), id))
  {
    assert n.down + [] == n.down;
    hide Sum;
    hide Of;
    Appended(n.down, [Open(n.server.nextId)], n.server.nextId, id);
  }

  lemma ClientOpenBlank(n: Net, id: nat)
    requires Blank(ViewOf(n, id)) && id != n.client.nextId
    ensures Blank(ViewOf(Next(n, ClientOpen), id))
  {
    assert n.up + [] == n.up && n.loose + [] == n.loose;
    hide Sum;
    hide Of;
    Appended(n.up, [Open(n.client.nextId)], n.client.nextId, id);
  }

  lemma CallBlank(n: Net, e: Event, id: nat)
    requires Blank(ViewOf(n, id)) && (e.ServerCall? || e.ClientCall?)
    ensures Blank(ViewOf(Next(n, e), id))
  {
    if e.ServerCall? && e.sid in n.server.streams {
      ServerStepFor(n.server.streams[e.sid], e.sid, e.sop);
      hide ServerStep;
      hide S.Apply;
      ServerSeen(n, e.sid, ServerStep(n.server.streams[e.sid], e.sid, e.sop), id);
    } else if e.ClientCall? && e.cid in n.client.streams {
      ClientStepFor(n.client.streams[e.cid], e.cid, e.cop, n.client.closed);
      hide ClientStep;
      hide C.Apply;
      ClientSeen(n, e.cid, ClientStep(n.client.streams[e.cid], e.cid, e.cop, n.client.closed), id);
    }
  }

  /** A channel that holds nothing for a stream has no frame of it. */
  lemma NotMine(frames: seq<Frame>, k: nat, id: nat)
    requires k < |frames| && Sum(Of(frames, id)) == EMPTY
    ensures frames[k].id != id && Sum(Of(frames[..k] + frames[k + 1..], id)) == EMPTY
  {
    Pulled(frames, k, id);
  }

  lemma ServerDeliverBlank(n: Net, m: Net, f: Frame, budget: nat, id: nat)
    requires Blank(ViewOf(n, id)) && f.id != id && m.server == n.server && m.client == n.client && m.down == n.down
    requires Sum(Of(m.up, id)) == EMPTY && Sum(Of(m.loose, id)) == EMPTY
    ensures Blank(ViewOf(AtServer(m, S.OnFrame(n.server, f, budget)), id))
  {
    hide Sum;
    hide Of;
    assert Blank(ViewOf(m, id));
    hide ViewOf;
    FrameSeen(m, f, budget, id);
  }

  lemma DeliverBlank(n: Net, e: Event, id: nat)
    requires Blank(ViewOf(n, id)) && (e.ServerDeliver? || e.ServerDeliverLoose?)
    ensures Blank(ViewOf(Next(n, e), id))
  {
    hide Sum;
    hide Of;
    hide S.OnFrame;
    if n.server.closed { return; }
    if e.ServerDeliver? && n.up != [] {
      NotMine(n.up, 0, id);
      assert n.up[..0] + n.up[1..] == n.up[1..];
      ServerDeliverBlank(n, n.(up := n.up[1..]), n.up[0], e.budget, id);
    } else if e.ServerDeliverLoose? && e.k < |n.loose| {
      NotMine(n.loose, e.k, id);
      ServerDeliverBlank(n, n.(loose := n.loose[..e.k] + n.loose[e.k + 1..]), n.loose[e.k], e.looseBudget, id);
    }
  }

  lemma ClientDeliverBlank(n: Net, id: nat)
    requires Blank(ViewOf(n, id))
    ensures Blank(ViewOf(Next(n, ClientDeliver), id))
  {
    hide Sum;
    hide Of;
    if n.down != [] {
      NotMine(n.down, 0, id);
      assert n.down[..0] + n.down[1..] == n.down[1..];
    }
  }

  lemma BlankStays(n: Net, e: Event, id: nat)
    requires Blank(ViewOf(n, id))
    requires !(e.ServerOpen? && id == n.server.nextId) && !(e.ClientOpen? && id == n.client.nextId)
    ensures Blank(ViewOf(Next(n, e), id))
  {
    if e.ServerOpen? { ServerOpenBlank(n, id); }
    else if e.ClientOpen? { ClientOpenBlank(n, id); }
    else if e.ClientDeliver? { ClientDeliverBlank(n, id); }
    else if e.ServerCall? || e.ClientCall? { CallBlank(n, e, id); }
    else if e.ServerDeliver? || e.ServerDeliverLoose? { DeliverBlank(n, e, id); }
    else if e.ServerDrain? { if Next(n, e) != n { DrainBlank(n, e.room, e.budgets, id); } }
  }

  lemma IdCounters(n: Net, e: Event)
    ensures Next(n, e).server.nextId == n.server.nextId + if e.ServerOpen? && Next(n, e) != n then 2 else 0
    ensures Next(n, e).client.nextId == n.client.nextId + if e.ClientOpen? && Next(n, e) != n then 2 else 0
  {
  }

  lemma NextIds(n: Net, e: Event)
    requires Ids(n)
    ensures Ids(Next(n, e))
  {
    hide Blank;
    hide ViewOf;
    hide Next;
    IdCounters(n, e);
    var m := Next(n, e);
    if m == n { return; }
    forall id: nat | id % 2 == 0 && m.server.nextId <= id ensures Blank(ViewOf(m, id)) { BlankStays(n, e, id); }
    forall id: nat | id % 2 == 1 && m.client.nextId <= id ensures Blank(ViewOf(m, id)) { BlankStays(n, e, id); }
  }

  ghost predicate Inv(n: Net) {
    Streams(n) && Ids(n)
  }

  lemma InitialInv()
    ensures Inv(INITIAL)
  {
    forall id: nat ensures Blank(ViewOf(INITIAL, id)) && Ok(ViewOf(INITIAL, id)) { }
  }

  lemma {:induction false} RunInv(n: Net, events: seq<Event>)
    requires Inv(n)
    ensures Inv(Run(n, events))
    decreases |events|
  {
    hide Streams;
    hide Ids;
    if events != [] {
      NextStreams(n, events[0]);
      NextIds(n, events[0]);
      RunInv(Next(n, events[0]), events[1..]);
    }
  }

  /** Every state of every run satisfies the invariant of every stream. */
  lemma ReachableInv(n: Net)
    requires Reachable(n)
    ensures Inv(n)
  {
    hide Inv;
    InitialInv();
    var events :| Run(INITIAL, events) == n;
    RunInv(INITIAL, events);
  }
}
