/** Everything written reaches a client that keeps reading: from every reachable state
    there is a schedule of deliveries, reads, credits and drains that gets it there. */
module LinkProgress {
  import opened Prelude
  import opened MuxTypes
  import S = ServerSpec
  import C = ClientSpec
  import D = Direction
  import opened Link
  import opened LinkInvariant
  import opened LinkRun
  import A = LinkArrivals
  import L = LinkClient
  import V = LinkDelivery
  import opened LinkTheorems
  import opened DrainScheduler
  import opened Resets
  import opened LinkEffects

  // ----- three more facts about reachable states -----

  /** A stream that left the client's table, or whose queue holds a RESET, is dead. */
  ghost predicate Marked(c: C.End) {
    forall id :: id in c.streams ==>
      && (id in c.table || c.streams[id].dead || c.streams[id].dropped)
      && (GotReset in c.streams[id].rx ==> c.streams[id].dead)
  }

  lemma TakeMarked(s: C.Stream)
    requires GotReset in s.rx ==> s.dead
    ensures var t := C.RecvTake(s); (GotReset in t.rx ==> t.dead) && (s.dead ==> t.dead) && (s.dropped ==> t.dropped)
  {
    assert s.rx != [] ==> forall x :: x in s.rx[1..] ==> x in s.rx;
  }

  lemma StepMarked(s: C.Stream, id: nat, op: ClientOp, closed: bool)
    requires GotReset in s.rx ==> s.dead
    ensures var t := ClientStep(s, id, op, closed).s;
      (GotReset in t.rx ==> t.dead) && (s.dead ==> t.dead) && (s.dropped ==> t.dropped)
  {
    TakeMarked(s);
    hide C.RecvTake;
    hide Chunks;
  }

  lemma DispatchMarked(s: C.Stream, f: Frame)
    requires GotReset in s.rx ==> s.dead
    ensures var t := C.Dispatch(s, f);
      (GotReset in t.rx ==> t.dead) && (s.dead || f.Reset? ==> t.dead) && t.dropped == s.dropped
  {
  }

  lemma ClientMarked(n: Net, e: Event)
    requires Marked(n.client) && (e.ClientOpen? || e.ClientDeliver? || e.ClientShutdown?)
    ensures Marked(Next(n, e).client)
  {
    if e.ClientDeliver? && n.down != [] {
      var f := n.down[0];
      if !f.Open? && f.id in n.client.table && f.id in n.client.streams { DispatchMarked(n.client.streams[f.id], f); }
      hide C.Dispatch;
    }
  }

  lemma NextMarked(n: Net, e: Event)
    requires Marked(n.client)
    ensures Marked(Next(n, e).client)
  {
    hide S.OnFrame;
    hide S.Drain;
    hide S.OpenStream;
    hide ServerStep;
    if e.ClientOpen? || e.ClientDeliver? || e.ClientShutdown? {
      hide Next;
      ClientMarked(n, e);
    } else if e.ClientCall? {
      if e.cid in n.client.streams { StepMarked(n.client.streams[e.cid], e.cid, e.cop, n.client.closed); }
      hide ClientStep;
    } else {
      assert Next(n, e).client == n.client;
    }
  }

  lemma {:induction false} RunMarked(n: Net, events: seq<Event>)
    requires Marked(n.client)
    ensures Marked(Run(n, events).client)
    decreases |events|
  {
    if events != [] {
      NextMarked(n, events[0]);
      hide Marked;
      RunMarked(Next(n, events[0]), events[1..]);
    }
  }

  /** A client stream outside the table is dead or dropped, so a reader whose channel has
      ended learns nothing new. */
  lemma OffTableIsDead(n: Net, id: nat)
    requires Reachable(n) && id in n.client.streams
    ensures id in n.client.table || n.client.streams[id].dead || n.client.streams[id].dropped
    ensures GotReset in n.client.streams[id].rx ==> n.client.streams[id].dead
  {
    var events :| Run(INITIAL, events) == n;
    RunMarked(INITIAL, events);
  }

  /** Every RESET the server has on the wire is on its record. */
  ghost predicate Accounted(n: Net) {
    forall id :: id in n.server.streams ==> Count(n.down, id) <= n.server.streams[id].resets
  }

  lemma {:induction false} CountNone(frames: seq<Frame>, id: nat)
    requires Sum(Of(frames, id)) == EMPTY
    ensures Count(frames, id) == 0
  {
    if frames != [] {
      Popped(frames, id);
      hide Sum;
      CountNone(frames[1..], id);
    }
  }

  lemma NextAccounted(n: Net, e: Event)
    requires Reachable(n) && Accounted(n)
    ensures Accounted(Next(n, e))
  {
    ReachableInv(n);
    OpenIsNew(n);
    FreshIds(n, n.server.nextId);
    if e.ServerDeliverLoose? && e.k < |n.loose| { LooseAreSignals(n, e.k); }
    var m := Next(n, e);
    forall id | id in m.server.streams ensures Count(m.down, id) <= m.server.streams[id].resets {
      if id in n.server.streams {
        hide Next;
        hide Streams;
        ServerMovesNext(n, e, id);
      } else {
        BornAccounted(n, e, id);
      }
    }
  }

  /** Nothing is on the wire of a stream the server has just learnt of but its OPEN. */
  lemma BornAccounted(n: Net, e: Event, id: nat)
    requires Streams(n) && id !in n.server.streams && id in Next(n, e).server.streams
    ensures Count(Next(n, e).down, id) == 0
  {
    assert Ok(ViewOf(n, id));
    CountNone(n.down, id);
    hide Streams;
    hide Ok;
    hide ServerStep;
    hide S.FlushAll;
    hide ClientStep;
    assert n.down + [] == n.down;
    if e.ServerOpen? {
      CountAppend(n.down, S.OpenStream(n.server).frames, id);
    } else if e.ServerDeliver? && !n.server.closed && n.up != [] {
      OpenAnswers(n.server, n.up[0], e.budget, id);
    } else if e.ServerDeliverLoose? && !n.server.closed && e.k < |n.loose| {
      OpenAnswers(n.server, n.loose[e.k], e.looseBudget, id);
    }
    hide S.OnFrame;
    hide Count;
  }

  /** A frame that makes the server learn of a stream is an OPEN, and gets no answer. */
  lemma OpenAnswers(e: S.End, f: Frame, budget: nat, id: nat)
    requires id !in e.streams && id in S.OnFrame(e, f, budget).end.streams
    ensures S.OnFrame(e, f, budget).frames == []
  {
  }

  lemma {:induction false} RunAccounted(n: Net, events: seq<Event>)
    requires Reachable(n) && Accounted(n)
    ensures Accounted(Run(n, events))
    decreases |events|
  {
    if events != [] {
      NextAccounted(n, events[0]);
      Took(n, events[0]);
      hide Reachable;
      hide Accounted;
      RunAccounted(Next(n, events[0]), events[1..]);
    }
  }

  /** So a server that emitted no RESET for a stream has none on the wire. */
  lemma NoResetOnWire(n: Net, id: nat)
    requires Reachable(n) && id in n.server.streams && n.server.streams[id].resets == 0
    ensures Reset(id) !in n.down
  {
    var events :| Run(INITIAL, events) == n;
    assert Run(INITIAL, []) == INITIAL;
    RunAccounted(INITIAL, events);
    if k :| 0 <= k < |n.down| && n.down[k] == Reset(id) {
      assert n.down == n.down[..k] + ([n.down[k]] + n.down[k + 1..]);
      CountAppend(n.down[..k], [n.down[k]] + n.down[k + 1..], id);
    }
  }

  // ----- a stream on its way to the client -----

  /** What is to arrive: the bytes the server side was given, and its end if it ended. */
  datatype Aim = Aim(accepted: seq<Byte>, ended: bool)

  /** The connection is up, the client still reads, and what the server was given is all
      received, in flight or queued: the server still sends, or its CLOSE is out. */
  ghost predicate Going(v: View, aim: Aim) {
    && v.sUp && v.cUp && v.s.Some? && v.s.value.accepted == aim.accepted && v.s.value.ended == aim.ended && v.s.value.resets == 0
    && (v.c.Some? ==> v.cLive && v.c.value.rxOpen && !v.c.value.dead)
    && (!v.s.value.finished || v.down.close || ClientSawClose(v.c))
  }

  lemma NothingLost(v: View, aim: Aim)
    requires Ok(v) && Going(v, aim)
    ensures aim.accepted == Got(v.c) + v.down.data + S.QueueBytes(v.s.value.queue)
  {
    assert D.Ok(Down(v));
    assert v.down.close ==> v.s.value.closeSent;
    assert Got(v.c) + [] == Got(v.c);
  }

  // ----- a flush -----

  lemma GoingFlush(v: View, id: nat, budget: nat, aim: Aim)
    requires Ok(v) && Going(v, aim)
    ensures Going(ServerAct(v, S.Flush(v.s.value, id, budget)), aim)
  {
    assert v.s.value.finished ==> !v.sLive;
    assert v.s.value.finalPending ==> v.s.value.ended;
    forall x, b: nat | Going(x, aim) && AtEnd(x) ensures Going(ServerAct(x, S.Flush(x.s.value, id, b)), aim) {
      GoingEnd(x, id, b, aim);
    }
    FlushKeeps((x: View) => Going(x, aim), v, id, budget);
  }

  /** At the end of a flush a CLOSE may go out, which may finish the stream. */
  lemma GoingEnd(v: View, id: nat, budget: nat, aim: Aim)
    requires Going(v, aim) && AtEnd(v)
    ensures Going(ServerAct(v, S.Flush(v.s.value, id, budget)), aim)
  {
    var out := S.Flush(v.s.value, id, budget);
    Acted(v, out.s, Close(id), false);
  }

  /** An exhausted head holds no bytes; sending its next piece takes those bytes away. */
  lemma HeadLeft(s: S.Stream)
    requires s.queue != []
    ensures var item := s.queue[0];
      if item.index >= |item.pieces| then S.QueueBytes(s.queue[1..]) == S.QueueBytes(s.queue)
      else |S.QueueBytes(S.SendHead(s).queue)| + |item.pieces[item.index]| == |S.QueueBytes(s.queue)|
  {
    var item := s.queue[0];
    if item.index < |item.pieces| {
      S.SendHeadBytes(s.queue);
    } else {
      assert S.ItemBytes(item) == [];
    }
  }

  lemma {:induction false} FlushLeft(s: S.Stream, id: nat, budget: nat)
    ensures |S.QueueBytes(S.Flush(s, id, budget).s.queue)| <= |S.QueueBytes(s.queue)|
    decreases S.Work(s.queue)
  {
    S.Turn(s, id, budget);
    hide S.Flush;
    hide S.Work;
    hide S.QueueBytes;
    if s.queue != [] && !s.finished {
      HeadLeft(s);
      if s.queue[0].index >= |s.queue[0].pieces| {
        FlushLeft(s.(queue := s.queue[1..]), id, budget);
      } else if |s.queue[0].pieces[s.queue[0].index]| <= s.window && budget > 0 {
        FlushLeft(S.SendHead(s), id, budget - 1);
      }
    }
  }

  lemma ItemsHead(queue: seq<S.Item>)
    requires S.Items(queue) && queue != []
    ensures S.Items(queue[1..]) && (queue[0].index < |queue[0].pieces| ==> 0 < |queue[0].pieces[queue[0].index]| <= CHUNK)
  {
  }

  /** With a window that holds any piece, a flush that may use the socket sends something. */
  lemma {:induction false} FlushShrinks(s: S.Stream, id: nat, budget: nat)
    requires S.Items(s.queue) && !s.finished && CHUNK <= s.window && budget > 0 && S.QueueBytes(s.queue) != []
    ensures |S.QueueBytes(S.Flush(s, id, budget).s.queue)| < |S.QueueBytes(s.queue)|
    decreases S.Work(s.queue)
  {
    S.Turn(s, id, budget);
    hide S.Flush;
    hide S.Work;
    assert S.QueueBytes([]) == [];
    ItemsHead(s.queue);
    hide S.QueueBytes;
    hide S.Items;
    HeadLeft(s);
    if s.queue[0].index >= |s.queue[0].pieces| {
      FlushShrinks(s.(queue := s.queue[1..]), id, budget);
    } else {
      FlushLeft(S.SendHead(s), id, budget - 1);
    }
  }

  /** With no room in the socket nothing goes out, not even CLOSE while bytes are queued. */
  lemma {:induction false} FlushIdle(s: S.Stream, id: nat)
    requires S.Items(s.queue) && !s.finished && S.QueueBytes(s.queue) != []
    ensures var out := S.Flush(s, id, 0);
      out.frames == [] && S.QueueBytes(out.s.queue) == S.QueueBytes(s.queue) && out.s == s.(queue := out.s.queue)
    decreases S.Work(s.queue)
  {
    S.Turn(s, id, 0);
    hide S.Flush;
    hide S.Work;
    var item := s.queue[0];
    if item.index >= |item.pieces| {
      assert S.ItemBytes(item) == [];
      FlushIdle(s.(queue := s.queue[1..]), id);
    }
  }

  // ----- single events -----

  ghost predicate Ready(n: Net, id: nat, aim: Aim) {
    Reachable(n) && Going(ViewOf(n, id), aim)
  }

  lemma PutGoing(c: C.Stream, item: Incoming)
    requires c.rxOpen && !c.dead && item != GotReset
    ensures var t := C.Put(c, item); t.rxOpen && !t.dead && (ClientSawClose(Some(c)) || item == GotClose ==> ClientSawClose(Some(t)))
  {
  }

  lemma GoingHandle(v: View, f: Frame, rest: Chan, aim: Aim)
    requires Ok(v) && Going(v, aim) && v.down == Before(f, rest) && !f.Reset?
    ensures Going(V.ClientHandle(v.(down := rest), f), aim)
  {
    if f.Open? {
      V.OpenOk(v, f, rest);
    } else {
      V.Known(v, f, rest);
      hide Ok;
      PutGoing(v.c.value, if f.Data? then GotData(f.payload) else if f.Datagram? then GotDatagram(f.payload) else GotClose);
      hide C.Put;
    }
  }

  lemma DeliverReady(n: Net, id: nat, aim: Aim)
    requires Ready(n, id, aim) && n.down != []
    ensures var m := Next(n, ClientDeliver); Ready(m, id, aim) && m.server == n.server && m.down == n.down[1..]
  {
    ReachableInv(n);
    NoResetOnWire(n, id);
    assert Ok(ViewOf(n, id));
    Took(n, ClientDeliver);
    hide Reachable;
    hide Ok;
    hide Going;
    hide Streams;
    var f := n.down[0];
    ClientDeliverSeen(n, id);
    if f.id == id {
      Popped(n.down, id);
      assert ViewOf(n, id).down == Sum(Of(n.down, id));
      assert f in n.down;
      hide ViewOf;
      GoingHandle(ViewOf(n, id), f, Sum(Of(n.down[1..], id)), aim);
    }
  }

  /** What recv() leaves of a stream that is not reset. */
  lemma RecvAlive(c: C.Stream, id: nat, op: ClientOp, closed: bool)
    requires c.rxOpen && !c.dead && !c.dropped && GotReset !in c.rx && (op.RecvBegin? || op.RecvTake?)
    ensures var t := ClientStep(c, id, op, closed).s; t.rxOpen && !t.dead && !t.dropped
  {
    if c.rx != [] { assert c.rx[0] in c.rx; }
  }

  lemma GoingRecv(v: View, id: nat, op: ClientOp, aim: Aim)
    requires Ok(v) && Going(v, aim) && v.c.Some? && GotReset !in v.c.value.rx && (op.RecvBegin? || op.RecvTake?)
    ensures Going(L.ClientAct(v, ClientStep(v.c.value, id, op, !v.cUp)), aim)
  {
    var c := v.c.value;
    assert ClientOk(c) && !c.dropped;
    hide Ok;
    RecvAlive(c, id, op, !v.cUp);
    L.TakeKeeps(c);
    assert ClientSawClose(Some(c)) ==> ClientSawClose(Some(ClientStep(c, id, op, !v.cUp).s)) by {
      hide C.RecvTake;
      hide ClientOk;
    }
    hide ClientStep;
    hide ClientSawClose;
    hide ClientOk;
  }

  lemma RecvNext(n: Net, id: nat, op: ClientOp)
    requires id in n.client.streams && (op.RecvBegin? || op.RecvTake?)
    ensures var m := Next(n, ClientCall(id, op));
      && m.server == n.server && m.down == n.down && id in m.client.streams
      && m.client.streams[id] == ClientStep(n.client.streams[id], id, op, n.client.closed).s
  {
    hide ClientStep;
  }

  /** recv() of a reading client, which touches neither the server nor what is in flight. */
  lemma RecvReady(n: Net, id: nat, op: ClientOp, aim: Aim)
    requires Ready(n, id, aim) && id in n.client.streams && (op.RecvBegin? || op.RecvTake?)
    ensures var m := Next(n, ClientCall(id, op));
      && Ready(m, id, aim) && m.server == n.server && m.down == n.down && id in m.client.streams
      && m.client.streams[id] == ClientStep(n.client.streams[id], id, op, n.client.closed).s
  {
    RecvNext(n, id, op);
    ReachableInv(n);
    OffTableIsDead(n, id);
    Took(n, ClientCall(id, op));
    assert Ok(ViewOf(n, id));
    hide Reachable;
    hide Streams;
    GoingSeen(n, id, op, aim);
    hide Going;
    hide ViewOf;
    hide Next;
  }

  lemma GoingSeen(n: Net, id: nat, op: ClientOp, aim: Aim)
    requires Ok(ViewOf(n, id)) && Going(ViewOf(n, id), aim) && id in n.client.streams
    requires GotReset !in n.client.streams[id].rx && (op.RecvBegin? || op.RecvTake?)
    ensures Going(ViewOf(Next(n, ClientCall(id, op)), id), aim)
  {
    var c := n.client.streams[id];
    var out := ClientStep(c, id, op, n.client.closed);
    assert Next(n, ClientCall(id, op)) == AtClient(n, C.Apply(n.client, id, out));
    assert ViewOf(n, id).c == Some(c) && ViewOf(n, id).cUp == !n.client.closed;
    hide Ok;
    hide Going;
    hide Next;
    hide ViewOf;
    GoingRecv(ViewOf(n, id), id, op, aim);
    ClientStepFor(c, id, op, n.client.closed);
    hide ClientStep;
    ClientSeen(n, id, out, id);
  }

  // ----- schedules -----

  /** The events a schedule may use: frames arriving at either end, the reader of this
      stream, and drain ticks. Nobody writes, closes or resets anything. */
  ghost predicate Quiet(events: seq<Event>, id: nat) {
    forall i :: 0 <= i < |events| ==>
      var e := events[i];
      || e.ClientDeliver? || e.ServerDeliverLoose? || e.ServerDrain?
      || e == ClientCall(id, RecvBegin) || e == ClientCall(id, RecvTake)
  }

  lemma {:induction false} RunTwice(n: Net, a: seq<Event>, b: seq<Event>)
    ensures Run(n, a + b) == Run(Run(n, a), b)
    decreases |a|
  {
    if a == [] {
      assert a + b == b;
    } else {
      assert (a + b)[1..] == a[1..] + b;
      RunTwice(Next(n, a[0]), a[1..], b);
    }
  }

  /** A schedule that starts with e. */
  lemma Starting(n: Net, e: Event, rest: seq<Event>, id: nat) returns (events: seq<Event>)
    requires Quiet([e], id) && Quiet(rest, id)
    ensures Quiet(events, id) && Run(n, events) == Run(Next(n, e), rest)
  {
    events := [e] + rest;
    assert events[1..] == rest && [e][0] == e;
  }

  /** Everything in flight to the client arrives. */
  lemma {:induction false} DeliverAll(n: Net, id: nat, aim: Aim) returns (events: seq<Event>)
    requires Ready(n, id, aim)
    ensures Quiet(events, id)
    ensures var m := Run(n, events); Ready(m, id, aim) && m.server == n.server && m.down == [] && id in m.client.streams
    decreases |n.down|
  {
    if n.down == [] {
      events := [];
      ReachableInv(n);
      assert Ok(ViewOf(n, id));
    } else {
      DeliverReady(n, id, aim);
      hide Ready;
      hide Next;
      var rest := DeliverAll(Next(n, ClientDeliver), id, aim);
      events := Starting(n, ClientDeliver, rest, id);
    }
  }

  ghost predicate Waits(c: C.Stream) {
    c.rx == [] && c.parked
  }

  /** The client takes everything it has received and waits for more. */
  lemma {:induction false} TakeAll(n: Net, id: nat, aim: Aim) returns (events: seq<Event>)
    requires Ready(n, id, aim) && id in n.client.streams && n.down == []
    ensures Quiet(events, id)
    ensures var m := Run(n, events);
      Ready(m, id, aim) && m.server == n.server && m.down == [] && id in m.client.streams && Waits(m.client.streams[id])
    decreases |n.client.streams[id].rx|
  {
    var begin, take := ClientCall(id, RecvBegin), ClientCall(id, RecvTake);
    RecvReady(n, id, RecvBegin, aim);
    var n1 := Next(n, begin);
    assert n.client.streams[id].rxOpen;
    assert n1.client.streams[id].parked && n1.client.streams[id].rx == n.client.streams[id].rx;
    if n.client.streams[id].rx == [] {
      hide Ready;
      hide Next;
      events := Starting(n, begin, [], id);
    } else {
      RecvReady(n1, id, RecvTake, aim);
      var n2 := Next(n1, take);
      assert n1.client.streams[id].rxOpen;
      assert n2.client.streams[id].rx == n1.client.streams[id].rx[1..];
      hide Ready;
      hide Next;
      var rest := TakeAll(n2, id, aim);
      rest := Starting(n1, take, rest, id);
      events := Starting(n, begin, rest, id);
    }
  }

  // ----- credit comes back -----

  /** Bytes are queued for a client that has taken all it received. */
  ghost predicate Starved(n: Net, id: nat, aim: Aim) {
    && Ready(n, id, aim) && n.down == [] && id in n.client.streams && Waits(n.client.streams[id])
    && id in n.server.streams && S.QueueBytes(n.server.streams[id].queue) != []
  }

  function Queued(n: Net, id: nat): nat {
    if id in n.server.streams then |S.QueueBytes(n.server.streams[id].queue)| else 0
  }

  /** Then the server's stream is unfinished and both sides are alive. */
  lemma StarvedAlive(n: Net, id: nat, aim: Aim)
    requires Starved(n, id, aim)
    ensures DownAlive(n, id) && id in n.server.table && S.Items(n.server.streams[id].queue) && n.client.streams[id].unacked < ACK_THRESHOLD
  {
    ReachableInv(n);
    assert Ok(ViewOf(n, id));
    TableIsUnfinished(n, id);
    assert S.QueueBytes([]) == [];
  }

  /** Only the window grew, and sent items left the queue. */
  ghost predicate Widened(s: S.Stream, t: S.Stream) {
    t == s.(window := t.window, queue := t.queue) && S.QueueBytes(t.queue) == S.QueueBytes(s.queue)
  }

  lemma UpdateIdle(e: S.End, f: Frame)
    requires f.Update? && S.Up(e) && f.id in e.table && f.id in e.streams && !e.streams[f.id].finished
    requires S.Items(e.streams[f.id].queue) && S.QueueBytes(e.streams[f.id].queue) != []
    ensures var r := S.OnFrame(e, f, 0); var s := e.streams[f.id];
      r.frames == [] && S.Up(r.end) && f.id in r.end.streams && Widened(s, r.end.streams[f.id])
  {
    var s := e.streams[f.id];
    var out := S.Dispatch(s, f, 0);
    FlushIdle(s.(window := s.window + f.amount), f.id);
    assert out == S.Flush(s.(window := s.window + f.amount), f.id, 0);
    hide S.Dispatch;
    hide S.Flush;
    hide S.QueueBytes;
    hide S.Items;
  }

  lemma GrantNext(n: Net, id: nat, k: nat)
    requires k < |n.loose| && n.loose[k].Update? && n.loose[k].id == id && S.Up(n.server) && n.down == []
    requires id in n.server.table && id in n.server.streams && !n.server.streams[id].finished
    requires S.Items(n.server.streams[id].queue) && S.QueueBytes(n.server.streams[id].queue) != []
    ensures var m := Next(n, ServerDeliverLoose(k, 0)); var s := n.server.streams[id];
      && m.down == [] && m.client == n.client && m.loose == n.loose[..k] + n.loose[k + 1..] && S.Up(m.server)
      && id in m.server.streams && Widened(s, m.server.streams[id])
  {
    UpdateIdle(n.server, n.loose[k]);
    hide S.OnFrame;
    hide S.QueueBytes;
    hide S.Items;
    hide Widened;
    var r := S.OnFrame(n.server, n.loose[k], 0);
    assert Next(n, ServerDeliverLoose(k, 0)) == n.(server := r.end, down := n.down + [], loose := n.loose[..k] + n.loose[k + 1..]);
    hide Next;
    assert n.down + [] == n.down;
  }

  /** A credit arrives while the socket has no room: the window grows and nothing else. */
  lemma GrantStarved(n: Net, id: nat, k: nat, aim: Aim)
    requires Starved(n, id, aim) && k < |n.loose| && n.loose[k].Update? && n.loose[k].id == id
    ensures var m := Next(n, ServerDeliverLoose(k, 0));
      Starved(m, id, aim) && Queued(m, id) == Queued(n, id) && m.loose == n.loose[..k] + n.loose[k + 1..]
  {
    StarvedAlive(n, id, aim);
    GrantNext(n, id, k);
    Took(n, ServerDeliverLoose(k, 0));
    hide Reachable;
    hide Next;
    hide S.QueueBytes;
    hide S.Items;
    hide Sum;
  }

  lemma {:induction false} NoGrant(frames: seq<Frame>, id: nat)
    requires forall i :: 0 <= i < |frames| && frames[i].id == id ==> !frames[i].Update?
    ensures Granted(frames, id) == 0
  {
    if frames != [] {
      Popped(frames, id);
      hide Sum;
      NoGrant(frames[1..], id);
    }
  }

  /** Every credit under way for the stream arrives. */
  lemma {:induction false} GrantAll(n: Net, id: nat, aim: Aim) returns (events: seq<Event>)
    requires Starved(n, id, aim)
    ensures Quiet(events, id)
    ensures var m := Run(n, events); Starved(m, id, aim) && Queued(m, id) == Queued(n, id) && Granted(m.loose, id) == 0
    decreases |n.loose|
  {
    hide Starved;
    hide Queued;
    if k: nat :| k < |n.loose| && n.loose[k].Update? && n.loose[k].id == id {
      GrantStarved(n, id, k, aim);
      hide Next;
      var rest := GrantAll(Next(n, ServerDeliverLoose(k, 0)), id, aim);
      events := Starting(n, ServerDeliverLoose(k, 0), rest, id);
    } else {
      NoGrant(n.loose, id);
      hide Granted;
      events := [];
    }
  }

  // ----- the drain tick -----

  /** What a flush of stream `owner` does to the bytes queued for stream id. */
  ghost predicate Shrinks(n: Net, m: Net, id: nat, strictly: bool) {
    Queued(m, id) <= Queued(n, id) && (strictly ==> Queued(m, id) < Queued(n, id))
  }

  ghost predicate CanShrink(n: Net, id: nat) {
    && id in n.server.streams
    && var s := n.server.streams[id]; S.Items(s.queue) && !s.finished && CHUNK <= s.window && S.QueueBytes(s.queue) != []
  }

  lemma FlushOne(n: Net, owner: nat, id: nat, aim: Aim)
    requires Streams(n) && Going(ViewOf(n, id), aim) && owner in n.server.streams
    ensures var m := AtServer(n, S.Apply(n.server, owner, S.Flush(n.server.streams[owner], owner, 1)));
      && Streams(m) && Going(ViewOf(m, id), aim)
      && (owner == id ==> Shrinks(n, m, id, CanShrink(n, id)))
      && (owner != id ==> Queued(m, id) == Queued(n, id) && (CanShrink(n, id) ==> CanShrink(m, id)))
  {
    var s := n.server.streams[owner];
    var out := S.Flush(s, owner, 1);
    FlushFor(s, owner, 1);
    FlushLeft(s, owner, 1);
    if owner == id && CanShrink(n, id) { FlushShrinks(s, id, 1); }
    if owner == id { GoingFlush(ViewOf(n, id), id, 1, aim); }
    var m := AtServer(n, S.Apply(n.server, owner, out));
    ServerSeen(n, owner, out, id);
    hide Ok;
    hide Going;
    forall i: nat ensures Ok(ViewOf(m, i)) {
      ServerSeen(n, owner, out, i);
      if i == owner { FlushOk(ViewOf(n, owner), owner, 1); }
    }
    hide ViewOf;
    hide S.Flush;
    hide S.Items;
  }

  lemma {:induction false} FlushEach(n: Net, ids: seq<nat>, budgets: seq<nat>, id: nat, aim: Aim)
    requires Streams(n) && Going(ViewOf(n, id), aim) && |ids| == |budgets| && forall i :: 0 <= i < |budgets| ==> budgets[i] == 1
    ensures var m := AtServer(n, S.FlushAll(n.server, ids, budgets));
      Going(ViewOf(m, id), aim) && Shrinks(n, m, id, CanShrink(n, id) && id in ids)
    decreases |ids|
  {
    hide Going;
    hide Streams;
    hide CanShrink;
    hide Queued;
    hide ViewOf;
    if ids == [] {
      assert n.down + [] == n.down;
    } else if ids[0] !in n.server.streams {
      assert CanShrink(n, id) ==> id != ids[0] by { OneKnown(n, id); }
      FlushEach(n, ids[1..], budgets[1..], id, aim);
    } else {
      var first := S.Apply(n.server, ids[0], S.Flush(n.server.streams[ids[0]], ids[0], 1));
      var m := AtServer(n, first);
      FlushOne(n, ids[0], id, aim);
      hide S.Flush;
      FlushEach(m, ids[1..], budgets[1..], id, aim);
      var rest := S.FlushAll(first.end, ids[1..], budgets[1..]);
      assert n.down + (first.frames + rest.frames) == n.down + first.frames + rest.frames;
    }
  }

  lemma OneKnown(n: Net, id: nat)
    ensures CanShrink(n, id) ==> id in n.server.streams
  {
  }

  function Ones(n: nat): seq<nat> {
    seq(n, _ => 1)
  }

  /** Once the credits are back, a drain tick puts a queued piece on the wire. */
  lemma DrainShrinks(n: Net, id: nat, aim: Aim)
    requires Starved(n, id, aim) && Granted(n.loose, id) == 0
    ensures var m := Next(n, ServerDrain(true, Ones(|n.server.waiting|)));
      Ready(m, id, aim) && Queued(m, id) < Queued(n, id)
  {
    StarvedAlive(n, id, aim);
    DownCreditConserved(n, id);
    NoLostWakeup(n, id);
    ReachableInv(n);
    var budgets := Ones(|n.server.waiting|);
    Took(n, ServerDrain(true, budgets));
    assert CanShrink(n, id) by {
      assert InFlight(n.down, id) == [];
      assert BytesIn(n.client.streams[id].rx) == [];
    }
    hide Reachable;
    hide S.QueueBytes;
    var idle := n.(server := n.server.(waiting := []));
    SameViews(n, idle.server);
    assert ViewOf(idle, id) == ViewOf(n, id);
    hide Streams;
    hide Going;
    FlushEach(idle, n.server.waiting, budgets, id, aim);
    hide S.FlushAll;
    var m := Next(n, ServerDrain(true, budgets));
    var flushed := AtServer(idle, S.FlushAll(idle.server, n.server.waiting, budgets));
    assert ViewOf(m, id) == ViewOf(flushed, id);
  }

  // ----- all together -----

  /** Everything in flight arrives and is taken. */
  lemma CatchUp(n: Net, id: nat, aim: Aim) returns (events: seq<Event>)
    requires Ready(n, id, aim)
    ensures Quiet(events, id)
    ensures var m := Run(n, events);
      && Ready(m, id, aim) && m.server == n.server && m.down == [] && id in m.client.streams && Waits(m.client.streams[id])
  {
    hide Ready;
    hide Waits;
    var es := DeliverAll(n, id, aim);
    var fs := TakeAll(Run(n, es), id, aim);
    RunTwice(n, es, fs);
    events := es + fs;
  }

  /** Then the credits come back and one more piece goes out. */
  lemma SendMore(n: Net, id: nat, aim: Aim) returns (events: seq<Event>)
    requires Starved(n, id, aim)
    ensures Quiet(events, id)
    ensures Ready(Run(n, events), id, aim) && Queued(Run(n, events), id) < Queued(n, id)
  {
    hide Starved;
    hide Ready;
    hide Queued;
    hide Granted;
    hide Next;
    var es := GrantAll(n, id, aim);
    var m := Run(n, es);
    DrainShrinks(m, id, aim);
    var tick := ServerDrain(true, Ones(|m.server.waiting|));
    var rest := Starting(m, tick, [], id);
    RunTwice(n, es, rest);
    events := es + rest;
  }

  /** Everything arrived: all the bytes, and CLOSE if the server side ended. */
  ghost predicate Arrived(n: Net, id: nat, aim: Aim) {
    && id in n.client.streams && id in n.server.streams
    && n.server.streams[id].accepted == aim.accepted && n.client.streams[id].taken == aim.accepted
    && (aim.ended ==> n.client.streams[id].closeReceived)
  }

  /** Such rounds, until nothing is queued. */
  lemma {:induction false} Arrives(n: Net, id: nat, aim: Aim) returns (events: seq<Event>)
    requires Ready(n, id, aim)
    ensures Quiet(events, id) && Reachable(Run(n, events)) && Arrived(Run(n, events), id, aim)
    decreases Queued(n, id)
  {
    hide Reachable;
    hide Going;
    var es := CatchUp(n, id, aim);
    var m := Run(n, es);
    if Queued(m, id) == 0 {
      AllTaken(m, id, aim);
      events := es;
    } else {
      hide Next;
      assert Starved(m, id, aim);
      assert Queued(m, id) == Queued(n, id);
      hide Ready;
      hide Queued;
      hide Starved;
      hide Arrived;
      var fs := SendMore(m, id, aim);
      var gs := Arrives(Run(m, fs), id, aim);
      RunTwice(m, fs, gs);
      RunTwice(n, es, fs + gs);
      events := es + (fs + gs);
    }
  }

  lemma AllTaken(n: Net, id: nat, aim: Aim)
    requires Ready(n, id, aim) && Queued(n, id) == 0 && n.down == [] && id in n.client.streams && Waits(n.client.streams[id])
    ensures Reachable(n) && Arrived(n, id, aim)
  {
    ReachableInv(n);
    var v := ViewOf(n, id);
    assert Ok(v);
    NothingLost(v, aim);
    var taken := n.client.streams[id].taken;
    assert taken + [] + [] + [] == taken;
    if aim.ended {
      EndedIsClosed(n, id);
      assert !v.down.close && (DownOpen(v) ==> Down(v).closeSeen);
    }
  }

  /** From every reachable state in which the connection is up, the server's stream is
      unfinished and the client reads it, a finite schedule of deliveries, reads, credits
      and drain ticks brings the client everything the server side was given, and CLOSE if
      it ended. */
  lemma EverythingArrives(n: Net, id: nat) returns (events: seq<Event>)
    requires Reachable(n) && DownAlive(n, id) && (id in n.client.streams ==> !n.client.streams[id].dead)
    ensures Quiet(events, id)
    ensures var s := n.server.streams[id]; var m := Run(n, events);
      && Reachable(m) && id in m.client.streams && id in m.server.streams
      && m.server.streams[id].accepted == s.accepted == m.client.streams[id].taken
      && (s.ended ==> m.client.streams[id].closeReceived)
  {
    ReachableInv(n);
    assert Ok(ViewOf(n, id));
    events := Arrives(n, id, Aim(n.server.streams[id].accepted, n.server.streams[id].ended));
  }

  // ----- a RESET on its way -----

  /** The client's stream is over: off the table, and dead unless it was dropped anyway. */
  ghost predicate Over(n: Net, id: nat) {
    id in n.client.streams && id !in n.client.table && (n.client.streams[id].dead || n.client.streams[id].dropped)
  }

  lemma ResetDelivered(n: Net, id: nat)
    requires Reachable(n) && n.down != [] && n.down[0] == Reset(id)
    ensures Over(Next(n, ClientDeliver), id)
  {
    ReachableInv(n);
    assert Ok(ViewOf(n, id));
    Popped(n.down, id);
    V.Known(ViewOf(n, id), n.down[0], Sum(Of(n.down[1..], id)));
    OffTableIsDead(n, id);
    if id in n.client.table { FrameAtClient(n, id); }
    hide Reachable;
    hide Ok;
    hide Sum;
  }

  /** Once a RESET of the server is on the wire, delivering the frames up to it ends the
      client's stream. */
  lemma {:induction false} ResetArrives(n: Net, id: nat) returns (events: seq<Event>)
    requires Reachable(n) && Reset(id) in n.down
    ensures (forall i :: 0 <= i < |events| ==> events[i] == ClientDeliver) && Over(Run(n, events), id)
    decreases |n.down|
  {
    Took(n, ClientDeliver);
    var m := Next(n, ClientDeliver);
    assert m.down == n.down[1..];
    if n.down[0] == Reset(id) {
      ResetDelivered(n, id);
      hide Reachable;
      hide Next;
      events := [ClientDeliver];
      assert Run(m, events[1..]) == m;
    } else {
      assert Reset(id) in m.down;
      hide Reachable;
      hide Over;
      hide Next;
      var rest := ResetArrives(m, id);
      events := [ClientDeliver] + rest;
      assert events[1..] == rest;
    }
  }

  /** So a stream destroyed at the server on an open session is ended at the client too. */
  lemma DestroyReachesClient(n: Net, id: nat) returns (events: seq<Event>)
    requires Reachable(n) && id in n.server.streams && !n.server.closed && n.server.wsOpen
    requires var s := n.server.streams[id]; !s.finished && !s.resetReceived && !(s.closeSent && s.closeReceived)
    ensures (forall i :: 0 <= i < |events| ==> events[i] == ClientDeliver)
    ensures Over(Run(Next(n, ServerCall(id, Destroy)), events), id)
  {
    DestroyCalled(n, id);
    Took(n, ServerCall(id, Destroy));
    var m := Next(n, ServerCall(id, Destroy));
    assert m.down[|n.down|] == Reset(id);
    events := ResetArrives(m, id);
  }

  /** And a stream dropped at the client is finished at the server by the RESET it hands out. */
  lemma DropReachesServer(n: Net, id: nat, budget: nat)
    requires Reachable(n) && id in n.client.streams && !n.client.closed && !n.server.closed && id in n.server.table
    requires var c := n.client.streams[id]; !c.dropped && !c.dead && !(c.closeSent && c.closeReceived)
    ensures var m := Next(n, ClientCall(id, DropShared)); var r := Next(m, ServerDeliverLoose(|n.loose|, budget));
      id in r.server.streams && r.server.streams[id].finished && r.server.streams[id].resetReceived && id !in r.server.table
  {
    DropCalled(n, id);
    Took(n, ClientCall(id, DropShared));
    var m := Next(n, ClientCall(id, DropShared));
    assert m.loose[|n.loose|] == Reset(id) && m.server == n.server;
    ResetAtServer(m, id, |n.loose|, budget);
  }
}
