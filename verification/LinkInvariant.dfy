/** What every event keeps true of one stream: its two ends and its share of the
    channels. Its "down" direction is server to client, "up" the other way. */
module LinkInvariant {
  import opened Prelude
  import opened MuxTypes
  import S = ServerSpec
  import C = ClientSpec
  import D = Direction
  import opened Link

  /** One stream's part of the session. */
  datatype View = View(
    s: Option<S.Stream>, c: Option<C.Stream>,
    sLive: bool, cLive: bool,    // the id is in that end's stream table
    sUp: bool, cUp: bool,        // that end can still put frames on the wire
    down: Chan, up: Chan, loose: Chan)

  function ViewOf(n: Net, id: nat): View {
    View(if id in n.server.streams then Some(n.server.streams[id]) else None,
         if id in n.client.streams then Some(n.client.streams[id]) else None,
         id in n.server.table, id in n.client.table,
         S.Up(n.server), !n.client.closed,
         Sum(Of(n.down, id)), Sum(Of(n.up, id)), Sum(Of(n.loose, id)))
  }

  // ----- the two directions -----

  /** The client takes in DATA of this stream, or has yet to learn of it. */
  predicate ClientTakes(v: View) {
    v.c.None? || (v.cLive && v.c.value.rxOpen)
  }

  predicate ServerTakes(v: View) {
    v.s.None? || (!v.s.value.finished && !v.s.value.closeReceived)
  }

  predicate DownOpen(v: View) {
    v.sUp && v.cUp && v.s.Some? && !v.s.value.finished && ClientTakes(v)
  }

  predicate UpOpen(v: View) {
    v.sUp && v.cUp && v.c.Some? && v.cLive && (v.s.Some? ==> !v.s.value.finished)
  }

  predicate ClientSawClose(c: Option<C.Stream>) {
    c.Some? && (GotClose in c.value.rx || c.value.closeReceived)
  }

  function Held(c: Option<C.Stream>): nat {
    if c.Some? then |BytesIn(c.value.rx)| + c.value.unacked else 0
  }

  function Got(c: Option<C.Stream>): seq<Byte> {
    if c.Some? then c.value.taken + BytesIn(c.value.rx) else []
  }

  function Down(v: View): D.Dir
    requires v.s.Some?
  {
    var s := v.s.value;
    D.Dir(v.sUp && !s.finished, ClientTakes(v), DownOpen(v), s.window, v.down.data, Held(v.c), v.loose.credits,
          s.accepted, S.QueueBytes(s.queue), Got(v.c), s.closeSent, v.down.close, ClientSawClose(v.c))
  }

  function Up(v: View): D.Dir
    requires v.c.Some?
  {
    var c := v.c.value;
    D.Dir(v.cUp && !c.dead && !c.dropped, ServerTakes(v), UpOpen(v), c.credit, v.up.data,
          if v.s.Some? then v.s.value.pendingUpdate else 0, v.down.credits,
          c.accepted, Concat(c.pieces), if v.s.Some? then v.s.value.pushed else [],
          c.closeSent, v.up.close, v.s.Some? && v.s.value.closeReceived)
  }

  // ----- the invariant -----

  ghost predicate ServerOk(s: S.Stream) {
    && S.Items(s.queue)
    && (s.closeSent ==> s.ended && !s.finalPending && s.queue == [])
    && (s.finalPending ==> s.ended)
    && (s.closeSent && s.closeReceived ==> s.finished)
    && (s.resetReceived ==> s.finished)
    && (s.finished ==> s.queue == [])
    && s.resets <= 1
    && (s.resets == 1 ==> s.finished)
  }

  ghost predicate ClientOk(c: C.Stream) {
    && Pieces(c.pieces)
    && (c.closeSent ==> c.pieces == [])
    && (c.parked ==> c.unacked < ACK_THRESHOLD || c.dead)
    && (!c.rxOpen ==> c.rx == [])
    && (c.dropped ==> !c.rxOpen && c.pieces == [])
    && ClosedLastIn(c.rx)
    && (c.closeReceived ==> BytesIn(c.rx) == [])
    && c.resets <= 1
    && (c.resets == 1 ==> c.dead || c.dropped)
  }

  predicate Idle(ch: Chan) {
    !ch.signals && !ch.others
  }

  /** Which frames the channels can hold. An OPEN is under way exactly until the
      other end learns of the stream. */
  ghost predicate Kinds(v: View) {
    && !v.up.signals && !v.loose.others && v.up.tidy && v.down.tidy
    && (v.down.open ==> v.c.None?)
    && (v.up.open ==> v.s.None?)
    && (v.down.close ==> v.s.Some? && v.s.value.closeSent)
    && (v.up.close ==> v.c.Some? && v.c.value.closeSent)
    && (v.c.None? && v.s.Some? && (v.sUp || !Idle(v.down)) ==> v.down.open)
    && (v.s.None? && v.c.Some? && (v.cUp || !Idle(v.up)) ==> v.up.open)
  }

  /** An end that does not know the stream has sent and received nothing for it. */
  ghost predicate Birth(v: View) {
    && (v.s.None? ==> v.down == EMPTY && v.loose.credits == 0 && Held(v.c) == 0 && Got(v.c) == [] && !ClientSawClose(v.c))
    && (v.c.None? ==> v.up == EMPTY && Idle(v.loose) && v.loose.credits == 0 && v.down.credits == 0 && !v.cLive)
    && (v.c.None? && v.s.Some? ==> v.s.value.pushed == [] && v.s.value.pendingUpdate == 0 && !v.s.value.closeReceived)
    && (v.sLive <==> v.s.Some? && !v.s.value.finished)
    && (v.cLive ==> v.c.Some? && !v.c.value.dropped)
  }

  ghost predicate Shape(v: View) {
    && (v.s.Some? ==> ServerOk(v.s.value))
    && (v.c.Some? ==> ClientOk(v.c.value))
    && Kinds(v) && Birth(v)
  }

  ghost predicate Flow(v: View) {
    && (v.s.Some? ==> D.Ok(Down(v)))
    && (v.c.Some? ==> D.Ok(Up(v)))
  }

  ghost predicate Ok(v: View) {
    Shape(v) && Flow(v)
  }

  ghost predicate Blank(v: View) {
    v.s.None? && v.c.None? && !v.sLive && !v.cLive && v.down == EMPTY && v.up == EMPTY && v.loose == EMPTY
  }

  // ----- the server acts -----

  function ServerAct(v: View, out: S.Out): View {
    v.(s := Some(out.s), sLive := v.sLive && !out.s.finished, down := if v.sUp then AfterAll(v.down, out.frames) else v.down)
  }

  /** The server's side changes to t and f is emitted. */
  function ServerPut(v: View, t: S.Stream, f: Frame): View {
    v.(s := Some(t), sLive := v.sLive && !t.finished, down := if v.sUp then After(v.down, f) else v.down)
  }

  function ServerSet(v: View, t: S.Stream): View {
    v.(s := Some(t), sLive := v.sLive && !t.finished)
  }

  lemma Acted(v: View, t: S.Stream, f: Frame, want: bool)
    ensures ServerAct(v, S.Out(t, [f], want)) == ServerPut(v, t, f)
    ensures ServerAct(v, S.Out(t, [], want)) == ServerSet(v, t)
  {
    assert [f][1..] == [];
    assert AfterAll(v.down, [f]) == AfterAll(After(v.down, f), []);
  }

  ghost predicate CanSend(v: View) {
    && v.s.Some? && !v.s.value.finished && v.s.value.queue != []
    && v.s.value.queue[0].index < |v.s.value.queue[0].pieces|
    && |v.s.value.queue[0].pieces[v.s.value.queue[0].index]| <= v.s.value.window
  }

  ghost predicate CanShift(v: View) {
    && v.s.Some? && !v.s.value.finished && v.s.value.queue != []
    && v.s.value.queue[0].index >= |v.s.value.queue[0].pieces|
  }

  ghost predicate AtEnd(v: View) {
    v.s.Some? && (v.s.value.queue == [] || v.s.value.finished)
  }

  /** One turn of the inner loop of _flushWrites. */
  ghost function HeadSent(v: View, id: nat): View
    requires CanSend(v)
  {
    ServerPut(v, S.SendHead(v.s.value), Data(id, v.s.value.queue[0].pieces[v.s.value.queue[0].index]))
  }

  ghost function Shifted(v: View): View
    requires CanShift(v)
  {
    v.(s := Some(v.s.value.(queue := v.s.value.queue[1..])))
  }

  lemma SendHeadFlow(v: View, id: nat)
    requires Flow(v) && CanSend(v) && !v.s.value.closeSent
    ensures Flow(HeadSent(v, id))
  {
    hide D.Ok;
    var w := HeadSent(v, id);
    var piece := v.s.value.queue[0].pieces[v.s.value.queue[0].index];
    S.SendHeadBytes(v.s.value.queue);
    D.SendOk(Down(v), piece, S.QueueBytes(w.s.value.queue));
    assert Down(w) == D.Send(Down(v), piece, S.QueueBytes(w.s.value.queue));
    assert v.c.Some? ==> Up(w) == Up(v);
  }

  lemma SendHeadOk(v: View, id: nat)
    requires Ok(v) && CanSend(v)
    ensures Ok(HeadSent(v, id))
  {
    hide Flow;
    SendHeadFlow(v, id);
  }

  lemma ShiftFlow(v: View)
    requires Flow(v) && CanShift(v) && S.Items(v.s.value.queue)
    ensures Flow(Shifted(v))
  {
    hide D.Ok;
    assert S.ItemBytes(v.s.value.queue[0]) == [];
    assert S.QueueBytes(v.s.value.queue) == S.QueueBytes(v.s.value.queue[1..]);
    assert Down(Shifted(v)) == Down(v);
    assert v.c.Some? ==> Up(Shifted(v)) == Up(v);
  }

  lemma ShiftOk(v: View)
    requires Ok(v) && CanShift(v)
    ensures Ok(Shifted(v))
  {
    hide Flow;
    ShiftFlow(v);
  }

  /** CLOSE leaves the server; if the peer closed first, the stream is finished. */
  lemma SendCloseFlow(v: View, id: nat, w: View)
    requires Flow(v) && v.s.Some? && v.s.value.queue == [] && !v.s.value.finished
    requires w == ServerPut(v, S.MaybeFinish(v.s.value.(finalPending := false, closeSent := true)), Close(id))
    ensures Flow(w)
  {
    hide D.Ok;
    var alive := !w.s.value.finished;
    var d := D.SendClose(Down(v));
    assert v.down.data + [] == v.down.data;
    D.SendCloseOk(Down(v));
    D.OnlyOk(d, alive, true, alive);
    assert Down(w) == D.Only(d, alive, true, alive);
    if v.c.Some? {
      D.OnlyOk(Up(v), true, alive, alive);
      assert Up(w) == D.Only(Up(v), true, alive, alive);
    }
  }

  lemma SendCloseOk(v: View, id: nat, w: View)
    requires Ok(v) && v.s.Some? && v.s.value.queue == [] && v.s.value.finalPending && !v.s.value.finished
    requires w == ServerPut(v, S.MaybeFinish(v.s.value.(finalPending := false, closeSent := true)), Close(id))
    ensures Ok(w)
  {
    hide Flow;
    SendCloseFlow(v, id, w);
  }

  /** Changes that neither direction notices. */
  lemma QuietFlow(v: View, t: S.Stream)
    requires Flow(v) && v.s.Some? && t == v.s.value.(finalPending := t.finalPending, ended := t.ended)
    ensures Flow(v.(s := Some(t)))
  {
    hide D.Ok;
    var w := v.(s := Some(t));
    assert Down(w) == Down(v);
    assert v.c.Some? ==> Up(w) == Up(v);
  }

  /** A flush of a finished stream only drops its finalCallback. */
  lemma FinalDoneOk(v: View, t: S.Stream)
    requires Ok(v) && v.s.Some?
    requires t == v.s.value || (v.s.value.finished && t == v.s.value.(finalPending := false))
    ensures ServerSet(v, t) == v.(s := Some(t)) && Ok(ServerSet(v, t))
  {
    hide Flow;
    QuietFlow(v, t);
  }

  lemma FlushEndOk(v: View, id: nat, budget: nat)
    requires Ok(v) && AtEnd(v)
    ensures Ok(ServerAct(v, S.Flush(v.s.value, id, budget)))
  {
    var s := v.s.value;
    var out := S.Flush(s, id, budget);
    assert s.closeSent ==> !s.finalPending;
    hide Ok;
    Acted(v, out.s, Close(id), false);
    if s.queue == [] && s.finalPending && !s.finished {
      SendCloseOk(v, id, ServerPut(v, out.s, Close(id)));
    } else {
      FinalDoneOk(v, out.s);
    }
  }

  lemma FlushUnfold(v: View, id: nat, budget: nat)
    requires CanSend(v) && budget > 0
    ensures ServerAct(v, S.Flush(v.s.value, id, budget))
         == ServerAct(HeadSent(v, id), S.Flush(HeadSent(v, id).s.value, id, budget - 1))
    ensures S.Work(HeadSent(v, id).s.value.queue) < S.Work(v.s.value.queue)
  {
    var rest := S.Flush(S.SendHead(v.s.value), id, budget - 1);
    var f := Data(id, v.s.value.queue[0].pieces[v.s.value.queue[0].index]);
    assert ([f] + rest.frames)[1..] == rest.frames;
  }

  lemma ShiftUnfold(v: View, id: nat, budget: nat)
    requires CanShift(v)
    ensures ServerAct(v, S.Flush(v.s.value, id, budget)) == ServerAct(Shifted(v), S.Flush(Shifted(v).s.value, id, budget))
    ensures S.Work(Shifted(v).s.value.queue) < S.Work(v.s.value.queue)
  {
  }

  /** Whatever each turn of _flushWrites keeps, _flushWrites keeps. */
  lemma {:induction false} FlushKeeps(P: View -> bool, v: View, id: nat, budget: nat)
    requires v.s.Some? && P(v) && (v.s.value.finished ==> !v.sLive)
    requires forall x :: P(x) && CanSend(x) ==> P(HeadSent(x, id))
    requires forall x :: P(x) && CanShift(x) ==> P(Shifted(x))
    requires forall x, b: nat :: P(x) && AtEnd(x) ==> P(ServerAct(x, S.Flush(x.s.value, id, b)))
    ensures P(ServerAct(v, S.Flush(v.s.value, id, budget)))
    decreases S.Work(v.s.value.queue)
  {
    if CanShift(v) {
      ShiftUnfold(v, id, budget);
      FlushKeeps(P, Shifted(v), id, budget);
    } else if CanSend(v) && budget > 0 {
      FlushUnfold(v, id, budget);
      FlushKeeps(P, HeadSent(v, id), id, budget - 1);
    } else if !AtEnd(v) {
      assert ServerAct(v, S.Flush(v.s.value, id, budget)) == v;
    }
  }

  lemma FlushOk(v: View, id: nat, budget: nat)
    requires Ok(v) && v.s.Some?
    ensures Ok(ServerAct(v, S.Flush(v.s.value, id, budget)))
  {
    assert v.s.value.finished ==> !v.sLive;
    hide Ok;
    forall x | Ok(x) && CanSend(x) ensures Ok(HeadSent(x, id)) { SendHeadOk(x, id); }
    forall x | Ok(x) && CanShift(x) ensures Ok(Shifted(x)) { ShiftOk(x); }
    forall x, b: nat | Ok(x) && AtEnd(x) ensures Ok(ServerAct(x, S.Flush(x.s.value, id, b))) { FlushEndOk(x, id, b); }
    FlushKeeps((x: View) => Ok(x), v, id, budget);
  }

  function Enqueued(s: S.Stream, chunk: seq<Byte>): S.Stream {
    s.(queue := s.queue + [S.Item(Chunks(chunk), 0)], accepted := s.accepted + chunk)
  }

  lemma EnqueuedBytes(s: S.Stream, chunk: seq<Byte>)
    ensures S.QueueBytes(Enqueued(s, chunk).queue) == S.QueueBytes(s.queue) + chunk
  {
    var item := S.Item(Chunks(chunk), 0);
    S.QueueBytesAppend(s.queue, [item]);
    assert item.pieces[0..] == item.pieces;
    assert S.QueueBytes([item]) == chunk + S.QueueBytes([]);
  }

  lemma EnqueueFlow(v: View, chunk: seq<Byte>)
    requires Flow(v) && v.s.Some? && !v.s.value.closeSent
    ensures Flow(v.(s := Some(Enqueued(v.s.value, chunk))))
  {
    hide D.Ok;
    var s := v.s.value;
    var w := v.(s := Some(Enqueued(s, chunk)));
    EnqueuedBytes(s, chunk);
    hide S.QueueBytes;
    hide Chunks;
    D.AcceptOk(Down(v), chunk);
    assert Down(w) == D.Accept(Down(v), chunk);
    assert v.c.Some? ==> Up(w) == Up(v);
  }

  lemma EnqueueOk(v: View, chunk: seq<Byte>)
    requires Ok(v) && v.s.Some? && !v.s.value.ended && !v.s.value.finished
    ensures Ok(v.(s := Some(Enqueued(v.s.value, chunk))))
  {
    hide Flow;
    EnqueueFlow(v, chunk);
  }

  lemma WriteOk(v: View, id: nat, chunk: seq<Byte>, budget: nat)
    requires Ok(v) && v.s.Some? && !v.s.value.ended && !v.s.value.finished
    ensures Ok(ServerAct(v, S.Write(v.s.value, id, chunk, budget)))
  {
    hide Ok;
    EnqueueOk(v, chunk);
    FlushOk(v.(s := Some(Enqueued(v.s.value, chunk))), id, budget);
  }

  lemma EndOk(v: View, t: S.Stream)
    requires Ok(v) && v.s.Some? && !v.s.value.ended
    requires t == v.s.value.(ended := true, finalPending := v.s.value.finalPending || !v.s.value.finished)
    ensures Ok(v.(s := Some(t))) && (v.s.value.finished ==> !v.sLive)
  {
    hide Flow;
    QuietFlow(v, t);
  }

  lemma FinalOk(v: View, id: nat, budget: nat)
    requires Ok(v) && v.s.Some? && !v.s.value.ended
    ensures Ok(ServerAct(v, S.Final(v.s.value, id, budget)))
  {
    hide Ok;
    var s := v.s.value;
    var t := s.(ended := true, finalPending := s.finalPending || !s.finished);
    EndOk(v, t);
    if !s.finished {
      FlushOk(v.(s := Some(t)), id, budget);
    } else {
      assert ServerAct(v, S.Final(s, id, budget)) == v.(s := Some(t));
    }
  }

  lemma ReadFlow(v: View, id: nat, t: S.Stream)
    requires Flow(v) && v.s.Some? && t == v.s.value.(pendingUpdate := 0)
    ensures Flow(ServerPut(v, t, Update(id, v.s.value.pendingUpdate)))
  {
    hide D.Ok;
    var n := v.s.value.pendingUpdate;
    var w := ServerPut(v, t, Update(id, n));
    assert v.down.data + [] == v.down.data;
    assert Down(w) == Down(v);
    if v.c.Some? {
      D.CreditStepOk(Up(v), n, v.sUp);
      assert Up(w) == D.Credit(Up(v), n, v.sUp);
    }
  }

  lemma ReadOk(v: View, id: nat)
    requires Ok(v) && v.s.Some? && v.s.value.pendingUpdate > 0 && !v.s.value.finished
    ensures Ok(ServerPut(v, v.s.value.(pendingUpdate := 0), Update(id, v.s.value.pendingUpdate)))
  {
    hide Flow;
    assert v.down.data + [] == v.down.data;
    ReadFlow(v, id, v.s.value.(pendingUpdate := 0));
  }

  /** The server gives the stream up, with or without telling the client. */
  lemma GoneFlow(v: View, t: S.Stream, down: Chan)
    requires Flow(v) && v.s.Some?
    requires t == v.s.value.(queue := [], finished := true, resetReceived := t.resetReceived, resets := t.resets)
    requires down.data == v.down.data && down.credits == v.down.credits && down.close == v.down.close
    ensures Flow(v.(s := Some(t), sLive := false, down := down))
  {
    hide D.Ok;
    var w := v.(s := Some(t), sLive := false, down := down);
    GoneUp(v, t, down);
    hide Up;
    D.StopSending(Down(v));
    assert Down(w) == Down(v).(sending := false, exact := false, queued := []);
  }

  lemma GoneUp(v: View, t: S.Stream, down: Chan)
    requires v.s.Some? && (v.c.Some? ==> D.Ok(Up(v)))
    requires t == v.s.value.(queue := [], finished := true, resetReceived := t.resetReceived, resets := t.resets)
    requires down.data == v.down.data && down.credits == v.down.credits && down.close == v.down.close
    ensures v.c.Some? ==> D.Ok(Up(v.(s := Some(t), sLive := false, down := down)))
  {
    hide D.Ok;
    if v.c.Some? {
      D.OnlyOk(Up(v), true, false, false);
      assert Up(v.(s := Some(t), sLive := false, down := down)) == D.Only(Up(v), true, false, false);
    }
  }

  lemma GoneOk(v: View, t: S.Stream, id: nat, told: bool)
    requires Ok(v) && v.s.Some? && ServerOk(t)
    requires t == v.s.value.(queue := [], finished := true, resetReceived := t.resetReceived, resets := t.resets)
    ensures Ok(if told then ServerPut(v, t, Reset(id)) else ServerSet(v, t))
  {
    hide Flow;
    var w := if told then ServerPut(v, t, Reset(id)) else ServerSet(v, t);
    assert v.down.data + [] == v.down.data;
    GoneFlow(v, t, w.down);
  }

  lemma DestroyOk(v: View, id: nat)
    requires Ok(v) && v.s.Some?
    ensures Ok(ServerAct(v, S.Destroy(v.s.value, id)))
  {
    var out := S.Destroy(v.s.value, id);
    assert ServerOk(v.s.value);
    hide Ok;
    Acted(v, out.s, Reset(id), false);
    GoneOk(v, out.s, id, out.frames != []);
  }

  lemma OnResetOk(v: View, id: nat)
    requires Ok(v) && v.s.Some?
    ensures Ok(ServerAct(v, S.OnReset(v.s.value, id)))
  {
    var out := S.OnReset(v.s.value, id);
    assert ServerOk(v.s.value);
    hide Ok;
    Acted(v, out.s, Reset(id), false);
    GoneOk(v, out.s, id, out.frames != []);
  }

  lemma ServerDatagramFlow(v: View, id: nat, data: seq<Byte>)
    requires Flow(v) && v.s.Some?
    ensures Flow(ServerPut(v, v.s.value, Datagram(id, data)))
  {
    hide D.Ok;
    var w := ServerPut(v, v.s.value, Datagram(id, data));
    assert v.down.data + [] == v.down.data;
    assert Down(w) == Down(v);
    assert v.c.Some? ==> Up(w) == Up(v);
  }

  lemma ServerDatagramOk(v: View, id: nat, data: seq<Byte>)
    requires Ok(v) && v.s.Some? && !v.s.value.finished
    ensures Ok(ServerPut(v, v.s.value, Datagram(id, data)))
  {
    hide Flow;
    assert v.down.data + [] == v.down.data;
    ServerDatagramFlow(v, id, data);
  }

  lemma ServerStepOk(v: View, id: nat, op: ServerOp)
    requires Ok(v) && v.s.Some?
    ensures Ok(ServerAct(v, ServerStep(v.s.value, id, op)))
  {
    var s := v.s.value;
    var out := ServerStep(s, id, op);
    assert s.finished ==> !v.sLive;
    hide Ok;
    if out.s == s && out.frames == [] {
      assert ServerAct(v, out) == v;
      return;
    }
    match op
    case Write(chunk, budget) => WriteOk(v, id, chunk, budget);
    case Final(budget) => FinalOk(v, id, budget);
    case Read =>
      ReadOk(v, id);
      Acted(v, out.s, Update(id, s.pendingUpdate), false);
    case Destroy => DestroyOk(v, id);
    case ServerDatagram(data, room) =>
      ServerDatagramOk(v, id, data);
      Acted(v, s, Datagram(id, data), false);
  }
}
