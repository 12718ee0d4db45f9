/** The server's drain scheduler never forgets a stream that has data to send. */
module DrainScheduler {
  import opened MuxTypes
  import S = ServerSpec
  import opened Link

  ghost predicate Stuck(e: S.End, id: nat) {
    id in e.table && id in e.streams && e.streams[id].queue != []
  }

  /** Streams with queued writes wait for a drain, except those in `due`. */
  ghost predicate Waiting(e: S.End, due: seq<nat>) {
    && (forall id :: Stuck(e, id) ==> id in e.waiting || id in due)
    && (e.waiting != [] ==> e.timer)
  }

  ghost predicate Awake(e: S.End) {
    e.closed || Waiting(e, [])
  }

  /** _flushWrites leaves writes behind only after asking for a drain. */
  lemma {:induction false} FlushAsks(s: S.Stream, id: nat, budget: nat)
    ensures var out := S.Flush(s, id, budget); out.s.queue == [] || out.s.finished || out.wantDrain
    decreases S.Work(s.queue)
  {
    if s.queue != [] && !s.finished {
      var item := s.queue[0];
      if item.index >= |item.pieces| {
        FlushAsks(s.(queue := s.queue[1..]), id, budget);
      } else if !(s.window < |item.pieces[item.index]| || budget == 0) {
        FlushAsks(S.SendHead(s), id, budget - 1);
      }
    }
  }

  /** An outcome that leaves nothing queued, asks for a drain, or changes no queue. */
  ghost predicate Asks(s: S.Stream, out: S.Out) {
    out.s.queue == [] || out.s.finished || out.wantDrain || out.s.queue == s.queue
  }

  lemma StepAsks(s: S.Stream, id: nat, op: ServerOp)
    ensures Asks(s, ServerStep(s, id, op))
  {
    match op
    case Write(chunk, budget) =>
      FlushAsks(s.(queue := s.queue + [S.Item(Chunks(chunk), 0)], accepted := s.accepted + chunk), id, budget);
    case Final(budget) => FlushAsks(s.(finalPending := true, ended := true), id, budget);
    case _ =>
  }

  lemma DispatchAsks(s: S.Stream, f: Frame, budget: nat)
    ensures Asks(s, S.Dispatch(s, f, budget))
  {
    if f.Update? { FlushAsks(s.(window := s.window + f.amount), f.id, budget); }
  }

  lemma ApplyKeeps(e: S.End, id: nat, out: S.Out, due: seq<nat>)
    requires Waiting(e, due) && id in e.streams && Asks(e.streams[id], out)
    ensures Waiting(S.Apply(e, id, out).end, due)
  {
    var m := S.Apply(e, id, out).end;
    forall i | Stuck(m, i) ensures i in m.waiting || i in due {
      if i != id || out.s.queue == e.streams[id].queue { assert Stuck(e, i); }
    }
  }

  lemma {:induction false} FlushAllKeeps(e: S.End, ids: seq<nat>, budgets: seq<nat>)
    requires |ids| == |budgets| && Waiting(e, ids)
    ensures Waiting(S.FlushAll(e, ids, budgets).end, [])
    decreases |ids|
  {
    if ids != [] {
      if ids[0] !in e.streams {
        assert Waiting(e, ids[1..]);
        FlushAllKeeps(e, ids[1..], budgets[1..]);
      } else {
        var out := S.Flush(e.streams[ids[0]], ids[0], budgets[0]);
        FlushAsks(e.streams[ids[0]], ids[0], budgets[0]);
        ApplyKeeps(e, ids[0], out, ids);
        var m := S.Apply(e, ids[0], out).end;
        assert Waiting(m, ids[1..]);
        FlushAllKeeps(m, ids[1..], budgets[1..]);
      }
    }
  }

  lemma DrainKeeps(e: S.End, room: bool, budgets: seq<nat>)
    requires Waiting(e, []) && e.timer && |budgets| == |e.waiting|
    ensures Waiting(S.Drain(e, room, budgets).end, [])
  {
    if e.waiting != [] && room {
      assert Waiting(e.(waiting := []), e.waiting) by {
        forall id | Stuck(e.(waiting := []), id) ensures id in e.waiting { assert Stuck(e, id); }
      }
      FlushAllKeeps(e.(waiting := []), e.waiting, budgets);
      var m := S.FlushAll(e.(waiting := []), e.waiting, budgets).end;
      forall id | Stuck(S.Drain(e, room, budgets).end, id) ensures id in m.waiting { assert Stuck(m, id); }
    } else {
      forall id | Stuck(S.Drain(e, room, budgets).end, id) ensures id in e.waiting { assert Stuck(e, id); }
    }
  }

  lemma FrameKeeps(e: S.End, f: Frame, budget: nat)
    requires Waiting(e, [])
    ensures Waiting(S.OnFrame(e, f, budget).end, [])
  {
    var c := S.Counted(e, f);
    assert Waiting(c, []) by {
      forall id | Stuck(c, id) ensures id in c.waiting { assert Stuck(e, id); }
    }
    var m := S.OnFrame(e, f, budget).end;
    if !f.Open? && f.id in c.table && f.id in c.streams {
      DispatchAsks(c.streams[f.id], f, budget);
      ApplyKeeps(c, f.id, S.Dispatch(c.streams[f.id], f, budget), []);
    } else {
      forall id | Stuck(m, id) ensures id in m.waiting { assert Stuck(c, id); }
    }
  }

  lemma NextAwake(n: Net, e: Event)
    requires Awake(n.server)
    ensures Awake(Next(n, e).server)
  {
    var m := Next(n, e).server;
    if m.closed { return; }
    if e.ServerCall? {
      if e.sid in n.server.streams {
        StepAsks(n.server.streams[e.sid], e.sid, e.sop);
        ApplyKeeps(n.server, e.sid, ServerStep(n.server.streams[e.sid], e.sid, e.sop), []);
      }
    } else if e.ServerDrain? {
      if n.server.timer && |e.budgets| == |n.server.waiting| { DrainKeeps(n.server, e.room, e.budgets); }
    } else if e.ServerDeliver? {
      if n.up != [] { FrameKeeps(n.server, n.up[0], e.budget); }
    } else if e.ServerDeliverLoose? {
      if e.k < |n.loose| { FrameKeeps(n.server, n.loose[e.k], e.looseBudget); }
    } else {
      forall id | Stuck(m, id) ensures id in m.waiting { assert Stuck(n.server, id); }
    }
  }

  lemma {:induction false} RunAwake(n: Net, events: seq<Event>)
    requires Awake(n.server)
    ensures Awake(Run(n, events).server)
    decreases |events|
  {
    hide Awake;
    if events != [] {
      NextAwake(n, events[0]);
      RunAwake(Next(n, events[0]), events[1..]);
    }
  }

  lemma ReachableAwake(n: Net)
    requires Reachable(n)
    ensures Awake(n.server)
  {
    hide Awake;
    assert Awake(INITIAL.server) by { InitialAwake(); }
    var events :| Run(INITIAL, events) == n;
    RunAwake(INITIAL, events);
  }

  lemma InitialAwake()
    ensures Awake(INITIAL.server)
  {
    forall id | Stuck(INITIAL.server, id) ensures false { }
  }
}
