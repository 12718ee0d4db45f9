/** The server's MuxStream and MuxSession objects. Every method is proved to do to the
    object's state what the functions of ServerSpec say. */
module MuxServer {
  import opened Prelude
  import opened MuxTypes
  import S = ServerSpec

  lemma NoVolume(frames: seq<Frame>)
    ensures S.Volume([]) == 0 && [] + frames == frames
  {
  }

  lemma {:induction false} VolumeAppend(a: seq<Frame>, b: seq<Frame>)
    ensures S.Volume(a + b) == S.Volume(a) + S.Volume(b)
  {
    if a == [] {
      assert a + b == b;
    } else {
      VolumeAppend(a[1..], b);
      assert (a + b)[1..] == a[1..] + b;
    }
  }

  ghost function Joined(sent: seq<Frame>, more: seq<Frame>, rest: seq<Frame>): (r: seq<Frame>)
    ensures r == sent + more && r + rest == sent + (more + rest)
  {
    sent + more
  }

  ghost function More(sent: seq<Frame>, f: Frame, rest: seq<Frame>): (r: seq<Frame>)
    ensures r == sent + [f] && r + rest == sent + ([f] + rest)
  {
    sent + [f]
  }

  /** The next piece, and the pieces of what follows. */
  lemma NextPiece(chunk: seq<Byte>, offset: nat, pieces: seq<seq<Byte>>)
    requires offset < |chunk|
    ensures var end := if offset + CHUNK < |chunk| then offset + CHUNK else |chunk|;
      pieces + Chunks(chunk[offset..]) == pieces + [chunk[offset..end]] + if end < |chunk| then Chunks(chunk[end..]) else []
  {
    var rest := chunk[offset..];
    if |rest| <= CHUNK {
      assert chunk[offset..|chunk|] == rest;
      assert Chunks(rest) == [rest];
    } else {
      assert rest[..CHUNK] == chunk[offset..offset + CHUNK] && rest[CHUNK..] == chunk[offset + CHUNK..];
      assert Chunks(rest) == [rest[..CHUNK]] + Chunks(rest[CHUNK..]);
    }
  }

  /** Cuts a write into pieces. */
  method Cut(chunk: seq<Byte>) returns (pieces: seq<seq<Byte>>)
    ensures pieces == Chunks(chunk)
  {
    var offset := 0;
    pieces := [];
    assert chunk[0..] == chunk && pieces + Chunks(chunk) == Chunks(chunk);
    while offset < |chunk|
      invariant 0 <= offset
      invariant pieces + (if offset < |chunk| then Chunks(chunk[offset..]) else []) == Chunks(chunk)
    {
      hide Chunks;
      var end := if offset + CHUNK < |chunk| then offset + CHUNK else |chunk|;
      NextPiece(chunk, offset, pieces);
      pieces := pieces + [chunk[offset..end]];
      offset := offset + CHUNK;
    }
    assert pieces + [] == pieces;
  }

  class MuxStream {
    const session: MuxSession
    const id: nat
    var sendWindow: int
    var pendingUpdate: nat
    var writeQueue: seq<S.Item>
    var closeSent: bool
    var closeReceived: bool
    var resetReceived: bool
    var finished: bool
    var finalCallback: bool
    ghost var ended: bool
    ghost var accepted: seq<Byte>
    ghost var pushed: seq<Byte>
    ghost var resets: nat

    ghost function State(): S.Stream
      reads this
    {
      S.Stream(sendWindow, pendingUpdate, writeQueue, closeSent, closeReceived, resetReceived, finished, finalCallback,
               ended, accepted, pushed, resets)
    }

    constructor (session: MuxSession, id: nat)
      ensures this.session == session && this.id == id && State() == S.FRESH
    {
      this.session, this.id := session, id;
      sendWindow, pendingUpdate, writeQueue := WINDOW, 0, [];
      closeSent, closeReceived, resetReceived, finished, finalCallback := false, false, false, false, false;
      ended, accepted, pushed, resets := false, [], [], 0;
    }

    /** A finished stream has left the session's table. */
    ghost predicate Listed()
      reads this, session
    {
      finished ==> id !in session.streams
    }

    /** The stream and its session have become what `out` says. */
    twostate predicate Did(out: S.Out)
      reads this, session
    {
      && State() == out.s
      && Listed()
      && session.Wrote(out.frames)
      && session.streams == (if out.s.finished then old(session.streams) - {id} else old(session.streams))
      && session.waitingForDrain == (if out.wantDrain && this !in old(session.waitingForDrain)
                                     then old(session.waitingForDrain) + [this] else old(session.waitingForDrain))
      && session.drainTimer == (old(session.drainTimer) || out.wantDrain)
    }

    method Read()
      requires Listed()
      modifies this, session
      ensures Did(S.Read(old(State()), id))
    {
      if pendingUpdate > 0 && !finished && !closeReceived {
        var amount := pendingUpdate;
        pendingUpdate := 0;
        session.Send(Update(id, amount));
      }
    }

    method Write(chunk: seq<Byte>, budget: nat)
      requires Listed()
      modifies this, session
      ensures Did(S.Write(old(State()), id, chunk, budget))
    {
      if finished { return; }
      var pieces := Cut(chunk);
      writeQueue := writeQueue + [S.Item(pieces, 0)];
      accepted := accepted + chunk;
      FlushWrites(budget);
    }

    /** The head piece goes out. */
    method SendHead()
      requires Listed() && !finished && writeQueue != [] && writeQueue[0].index < |writeQueue[0].pieces|
      modifies this, session
      ensures State() == S.SendHead(old(State()))
      ensures session.Wrote([Data(id, old(writeQueue[0].pieces[writeQueue[0].index]))]) && session.Kept()
    {
      var item := writeQueue[0];
      var piece := item.pieces[item.index];
      sendWindow := sendWindow - |piece|;
      session.Send(Data(id, piece));
      writeQueue := [item.(index := item.index + 1)] + writeQueue[1..];
    }

    /** What is left to do reaches `goal`, given that `sent` has gone out. */
    ghost predicate Continues(goal: S.Out, sent: seq<Frame>, left: nat)
      reads this
    {
      var rest := S.Flush(State(), id, left);
      goal == S.Out(rest.s, sent + rest.frames, rest.wantDrain)
    }

    /** The inner loop of FlushWrites: sends the head item's pieces while they fit. */
    method SendItem(budget: nat) returns (left: nat, blocked: bool, ghost sent: seq<Frame>)
      requires Listed() && !finished && writeQueue != []
      modifies this, session
      ensures blocked ==> Did(S.Flush(old(State()), id, budget))
      ensures !blocked ==> session.Wrote(sent) && session.Kept() && Continues(S.Flush(old(State()), id, budget), sent, left)
      ensures !blocked ==> !finished && writeQueue != [] && writeQueue[0].index >= |writeQueue[0].pieces|
      ensures !blocked ==> S.Work(writeQueue) <= old(S.Work(writeQueue))
    {
      hide S.Flush;
      hide S.Work;
      left, blocked, sent := budget, false, [];
      ghost var goal := S.Flush(State(), id, budget);
      assert [] + goal.frames == goal.frames;
      while writeQueue[0].index < |writeQueue[0].pieces|
        invariant writeQueue != [] && !finished && S.Work(writeQueue) <= old(S.Work(writeQueue))
        invariant session.Wrote(sent) && session.Kept() && Continues(goal, sent, left)
        decreases S.Work(writeQueue)
      {
        ghost var f := Data(id, writeQueue[0].pieces[writeQueue[0].index]);
        S.Turn(State(), id, left);
        if sendWindow < |writeQueue[0].pieces[writeQueue[0].index]| || left == 0 {
          assert sent + [] == sent;
          session.WantDrain(this);
          blocked := true;
          return;
        }
        SendHead();
        left := left - 1;
        VolumeAppend(sent, [f]);
        sent := More(sent, f, S.Flush(State(), id, left).frames);
      }
    }

    /** One turn of FlushWrites' loop: the head item is sent and shifted out. */
    method FlushItem(budget: nat) returns (left: nat, blocked: bool, ghost sent: seq<Frame>)
      requires Listed() && !finished && writeQueue != []
      modifies this, session
      ensures blocked ==> Did(S.Flush(old(State()), id, budget))
      ensures !blocked ==> Listed() && session.Wrote(sent) && session.Kept() && Continues(S.Flush(old(State()), id, budget), sent, left)
      ensures !blocked ==> S.Work(writeQueue) < old(S.Work(writeQueue))
    {
      hide S.Flush;
      hide S.Work;
      left, blocked, sent := SendItem(budget);
      if blocked { return; }
      S.Turn(State(), id, left);
      writeQueue := writeQueue[1..];
    }

    /** The loop of FlushWrites over the queued items. */
    method FlushItems(budget: nat) returns (left: nat, blocked: bool, ghost sent: seq<Frame>)
      requires Listed()
      modifies this, session
      ensures blocked ==> Did(S.Flush(old(State()), id, budget))
      ensures !blocked ==> Listed() && session.Wrote(sent) && session.Kept() && Continues(S.Flush(old(State()), id, budget), sent, left)
      ensures !blocked ==> writeQueue == [] || finished
    {
      hide S.Flush;
      hide S.Work;
      hide S.Volume;
      left, blocked, sent := budget, false, [];
      ghost var goal := S.Flush(State(), id, budget);
      NoVolume(goal.frames);
      while writeQueue != [] && !finished
        invariant Listed() && session.Wrote(sent) && session.Kept()
        invariant Continues(goal, sent, left)
        decreases S.Work(writeQueue)
      {
        ghost var here := S.Flush(State(), id, left);
        ghost var more: seq<Frame>;
        left, blocked, more := FlushItem(left);
        ghost var gone := if blocked then here.frames else more;
        VolumeAppend(sent, gone);
        Regroup(old(session.out), sent, gone);
        if blocked { return; }
        sent := Joined(sent, more, S.Flush(State(), id, left).frames);
      }
    }

    /** `budget` pieces fit before bufferedAmount() exceeds the high-water mark. */
    method FlushWrites(budget: nat)
      requires Listed()
      modifies this, session
      ensures Did(S.Flush(old(State()), id, budget))
    {
      hide S.Flush;
      var left, blocked;
      ghost var sent;
      left, blocked, sent := FlushItems(budget);
      if blocked { return; }
      S.Turn(State(), id, left);
      ghost var last := S.Flush(State(), id, left);
      VolumeAppend(sent, last.frames);
      Regroup(old(session.out), sent, last.frames);
      Finish();
    }

    /** The end of FlushWrites: CLOSE goes out once nothing is queued. */
    method Finish()
      requires Listed()
      modifies this, session
      ensures Did(if old(writeQueue == [] && finalCallback) then S.SendClose(old(State()).(finalPending := false), id) else S.Out(old(State()), [], false))
    {
      if writeQueue == [] && finalCallback {
        finalCallback := false;
        SendClose();
      }
    }

    method Final(budget: nat)
      requires Listed()
      modifies this, session
      ensures Did(S.Final(old(State()), id, budget))
    {
      ended := true;
      if finished { return; }
      finalCallback := true;
      FlushWrites(budget);
    }

    method SendClose()
      requires Listed()
      modifies this, session
      ensures Did(S.SendClose(old(State()), id))
    {
      if closeSent || finished { return; }
      closeSent := true;
      session.Send(Close(id));
      MaybeFinish();
    }

    method MaybeFinish()
      requires Listed()
      modifies this, session
      ensures Did(S.Out(S.MaybeFinish(old(State())), [], false))
    {
      if closeSent && closeReceived && !finished {
        finished := true;
        session.Forget(id);
      }
    }

    method Destroy()
      requires Listed()
      modifies this, session
      ensures Did(S.Destroy(old(State()), id))
    {
      writeQueue := [];
      if !finished {
        finished := true;
        if !resetReceived && !(closeSent && closeReceived) {
          resets := resets + 1;
          session.Send(Reset(id));
        }
        session.Forget(id);
      }
    }

    method SendDatagram(data: seq<Byte>, room: bool) returns (sent: bool)
      requires Listed()
      modifies this, session
      ensures Did(S.SendDatagram(old(State()), id, data, room))
      ensures sent <==> !finished && |data| <= MAX_DATAGRAM && room
    {
      if finished || |data| > MAX_DATAGRAM { return false; }
      if !room { return false; }
      session.Send(Datagram(id, data));
      return true;
    }

    method OnData(payload: seq<Byte>)
      requires Listed()
      modifies this, session
      ensures Did(S.OnData(old(State()), payload))
    {
      if closeReceived || finished { return; }
      pendingUpdate := pendingUpdate + |payload|;
      pushed := pushed + payload;
    }

    method OnClose()
      requires Listed()
      modifies this, session
      ensures Did(S.OnClose(old(State())))
    {
      if closeReceived { return; }
      closeReceived := true;
      MaybeFinish();
    }

    method OnReset()
      requires Listed()
      modifies this, session
      ensures Did(S.OnReset(old(State()), id))
    {
      resetReceived := true;
      Destroy();
    }

    method OnWindowUpdate(amount: nat, budget: nat)
      requires Listed()
      modifies this, session
      ensures Did(S.OnUpdate(old(State()), id, amount, budget))
    {
      sendWindow := sendWindow + amount;
      FlushWrites(budget);
    }

    /** The switch of _onFrame. */
    method Handle(f: Frame, budget: nat)
      requires Listed() && f.id == id
      modifies this, session
      ensures Did(S.Dispatch(old(State()), f, budget))
    {
      match f
      case Data(_, payload) => OnData(payload);
      case Close(_) => OnClose();
      case Reset(_) => OnReset();
      case Update(_, amount) => OnWindowUpdate(amount, budget);
      case Open(_) =>
      case Datagram(_, _) =>
    }
  }

  class MuxSession {
    var streams: map<nat, MuxStream>
    var nextId: nat
    var closed: bool
    var wsOpen: bool
    var waitingForDrain: seq<MuxStream>
    var drainTimer: bool
    var bytesSent: nat
    var bytesReceived: nat
    var out: seq<Frame>                  // what ws.send was given
    ghost var all: map<nat, MuxStream>   // every stream of this session so far

    constructor ()
      ensures Valid() && End() == S.INITIAL && out == []
    {
      streams, nextId, closed, wsOpen := map[], 2, false, true;
      waitingForDrain, drainTimer := [], false;
      bytesSent, bytesReceived, out, all := 0, 0, [], map[];
    }

    ghost predicate Valid()
      reads this, all.Values
    {
      && (forall id :: id in all ==> all[id].id == id && all[id].session == this)
      && (forall id :: id in streams ==> id in all && streams[id] == all[id])
      && (forall id :: id in all && all[id].finished ==> id !in streams)
      && (forall s :: s in waitingForDrain ==> s.id in all && all[s.id] == s)
    }

    ghost function End(): S.End
      reads this, all.Values
    {
      S.End(States(), streams.Keys, nextId, closed, wsOpen,
            Ids(waitingForDrain), drainTimer, bytesSent, bytesReceived)
    }

    predicate Up()
      reads this
    {
      !closed && wsOpen
    }

    /** `frames` went out, if the socket was open; nothing else but the table and the
        drain list may have changed. */
    twostate predicate Wrote(frames: seq<Frame>)
      reads this
    {
      && closed == old(closed) && wsOpen == old(wsOpen) && nextId == old(nextId)
      && bytesReceived == old(bytesReceived) && all == old(all)
      && out == old(out) + (if Up() then frames else [])
      && bytesSent == old(bytesSent) + (if Up() then S.Volume(frames) else 0)
    }

    twostate predicate Kept()
      reads this
    {
      streams == old(streams) && waitingForDrain == old(waitingForDrain) && drainTimer == old(drainTimer)
    }

    method Send(f: Frame)
      modifies this
      ensures Wrote([f]) && Kept()
    {
      if closed || !wsOpen { return; }
      if f.Data? || f.Datagram? { bytesSent := bytesSent + |f.payload|; }
      out := out + [f];
    }

    method WantDrain(stream: MuxStream)
      modifies this
      ensures Wrote([]) && streams == old(streams) && drainTimer
      ensures waitingForDrain == if stream in old(waitingForDrain) then old(waitingForDrain) else old(waitingForDrain) + [stream]
    {
      if stream !in waitingForDrain { waitingForDrain := waitingForDrain + [stream]; }
      if drainTimer { return; }
      drainTimer := true;
    }

    method Forget(id: nat)
      modifies this
      ensures Wrote([]) && waitingForDrain == old(waitingForDrain) && drainTimer == old(drainTimer)
      ensures streams == old(streams) - {id}
    {
      streams := streams - {id};
    }

    ghost function States(): map<nat, S.Stream>
      reads this, all.Values
    {
      map id | id in all :: all[id].State()
    }

    ghost predicate Consistent(table: map<nat, MuxStream>, waiting: seq<MuxStream>, states: map<nat, S.Stream>)
      reads this
    {
      && (forall id :: id in all ==> all[id].id == id && all[id].session == this)
      && (forall id :: id in table ==> id in all && table[id] == all[id])
      && (forall s :: s in waiting ==> s.id in all && all[s.id] == s)
      && states.Keys == all.Keys
      && (forall id :: id in states && states[id].finished ==> id !in table)
    }

    /** One stream's operation, as a change of the whole session. */
    lemma Stored(stream: MuxStream, o: S.Out, table: map<nat, MuxStream>, waiting: seq<MuxStream>, states: map<nat, S.Stream>)
      requires Consistent(table, waiting, states) && stream.id in all && all[stream.id] == stream && stream.State() == o.s
      requires forall id :: id in all && id != stream.id ==> all[id].State() == states[id]
      requires streams == if o.s.finished then table - {stream.id} else table
      requires waitingForDrain == if o.wantDrain && stream !in waiting then waiting + [stream] else waiting
      ensures Valid() && States() == states[stream.id := o.s]
      ensures Ids(waitingForDrain) == if o.wantDrain then S.WantDrain(Ids(waiting), stream.id) else Ids(waiting)
    {
      IdsWanted(stream, waiting);
      hide Ids;
      StoredValid(stream, o, table, waiting, states);
      StoredStates(stream, o, states);
      hide Valid;
      hide States;
    }

    lemma StoredStates(stream: MuxStream, o: S.Out, states: map<nat, S.Stream>)
      requires states.Keys == all.Keys && stream.id in all && all[stream.id] == stream && stream.State() == o.s
      requires forall id :: id in all && id != stream.id ==> all[id].State() == states[id]
      ensures States() == states[stream.id := o.s]
    {
      hide MuxStream.State;
      assert States().Keys == states[stream.id := o.s].Keys;
    }

    lemma StoredValid(stream: MuxStream, o: S.Out, table: map<nat, MuxStream>, waiting: seq<MuxStream>, states: map<nat, S.Stream>)
      requires Consistent(table, waiting, states) && stream.id in all && all[stream.id] == stream && stream.State() == o.s
      requires forall id :: id in all && id != stream.id ==> all[id].State() == states[id]
      requires streams == if o.s.finished then table - {stream.id} else table
      requires waitingForDrain == if o.wantDrain && stream !in waiting then waiting + [stream] else waiting
      ensures Valid()
    {
      forall id | id in all && all[id].finished ensures id !in streams { assert all[id].State().finished; }
    }

    lemma IdsWanted(stream: MuxStream, waiting: seq<MuxStream>)
      requires forall i :: 0 <= i < |waiting| && waiting[i].id == stream.id ==> waiting[i] == stream
      ensures Ids(if stream !in waiting then waiting + [stream] else waiting) == S.WantDrain(Ids(waiting), stream.id)
    {
      IdsAppend(waiting, [stream]);
      IdsMember(waiting, stream.id);
      if stream in waiting {
        var i :| 0 <= i < |waiting| && waiting[i] == stream;
        assert Ids(waiting)[i] == stream.id;
      }
    }

    method Register(id: nat) returns (created: MuxStream)
      requires Valid() && id !in all
      modifies this
      ensures Valid() && out == old(out) && Up() == old(Up())
      ensures End() == old(End()).(streams := old(End()).streams[id := S.FRESH], table := old(End()).table + {id})
      ensures fresh(created) && created.id == id && id in streams && streams[id] == created
    {
      created := new MuxStream(this, id);
      assert States() == old(States());
      hide S.FRESH;
      Admit(created);
    }

    method Admit(created: MuxStream)
      requires Valid() && created.id !in all && created.session == this && !created.finished
      modifies this`streams, this`all
      ensures Valid() && streams == old(streams)[created.id := created]
      ensures End() == old(End()).(streams := old(End()).streams[created.id := created.State()], table := old(End()).table + {created.id})
    {
      hide MuxStream.State;
      streams := streams[created.id := created];
      all := all[created.id := created];
      assert States() == old(States())[created.id := created.State()];
    }

    method Open() returns (stream: MuxStream?)
      requires Valid() && nextId !in all && nextId < ID_LIMIT
      modifies this
      ensures Valid() && End() == S.OpenStream(old(End())).end && out == old(out) + S.OpenStream(old(End())).frames
      ensures stream == null <==> old(closed)
      ensures stream != null ==> fresh(stream) && stream.id == old(nextId)
    {
      if closed { return null; }
      var id := TakeId();
      stream := Register(id);
      Announce(id);
    }

    method TakeId() returns (id: nat)
      requires Valid()
      modifies this`nextId
      ensures Valid() && id == old(nextId) && End() == old(End()).(nextId := old(nextId) + 2)
    {
      id := nextId;
      nextId := nextId + 2;
      assert States() == old(States());
    }

    /** Sends OPEN, which counts no bytes. */
    method Announce(id: nat)
      requires Valid()
      modifies this
      ensures Valid() && End() == old(End()) && all == old(all)
      ensures out == if Up() then old(out) + [MuxTypes.Open(id)] else old(out)
    {
      Send(MuxTypes.Open(id));
      assert States() == old(States());
      assert S.Volume([MuxTypes.Open(id)]) == S.Volume([MuxTypes.Open(id)][1..]);
    }

    /** Stored, for the session as a whole. */
    lemma Applied(stream: MuxStream, o: S.Out, table: map<nat, MuxStream>, waiting: seq<MuxStream>, before: S.End)
      requires Consistent(table, waiting, before.streams) && stream.id in all && all[stream.id] == stream && stream.State() == o.s
      requires forall id :: id in all && id != stream.id ==> all[id].State() == before.streams[id]
      requires streams == if o.s.finished then table - {stream.id} else table
      requires waitingForDrain == if o.wantDrain && stream !in waiting then waiting + [stream] else waiting
      requires table.Keys == before.table && Ids(waiting) == before.waiting && drainTimer == (before.timer || o.wantDrain)
      requires nextId == before.nextId && closed == before.closed && wsOpen == before.wsOpen && bytesReceived == before.bytesReceived
      requires bytesSent == before.bytesSent + if Up() then S.Volume(o.frames) else 0
      ensures Valid() && End() == S.Apply(before, stream.id, o).end
    {
      Stored(stream, o, table, waiting, before.streams);
      assert streams.Keys == if o.s.finished then before.table - {stream.id} else before.table;
    }

    method Dispatch(f: Frame, budget: nat)
      requires Valid() && f.id in streams && !f.Open?
      modifies this, all.Values
      ensures Valid()
      ensures End() == S.Apply(old(End()), f.id, S.Dispatch(old(streams[f.id].State()), f, budget)).end
      ensures out == old(out) + S.Apply(old(End()), f.id, S.Dispatch(old(streams[f.id].State()), f, budget)).frames
    {
      hide S.Dispatch;
      var stream := streams[f.id];
      stream.Handle(f, budget);
      Applied(stream, S.Dispatch(old(stream.State()), f, budget), old(streams), old(waitingForDrain), old(End()));
    }

    /** Bytes that arrive are counted, whoever they are for. */
    method Count(f: Frame)
      requires Valid()
      modifies this`bytesReceived
      ensures Valid() && End() == S.Counted(old(End()), f)
    {
      if f.Data? || f.Datagram? { bytesReceived := bytesReceived + |f.payload|; }
    }

    method OnFrame(f: Frame, budget: nat)
      requires Valid() && (f.Open? && f.id !in streams ==> f.id !in all)
      modifies this, all.Values
      ensures Valid() && End() == S.OnFrame(old(End()), f, budget).end && out == old(out) + S.OnFrame(old(End()), f, budget).frames
    {
      Count(f);
      if f.Open? {
        if f.id !in streams { var created := Register(f.id); }
      } else if f.id in streams {
        Dispatch(f, budget);
      }
    }

    method FlushOne(stream: MuxStream, budget: nat)
      requires Valid() && stream.id in all && all[stream.id] == stream
      modifies this, stream
      ensures Valid() && all == old(all)
      ensures End() == S.Apply(old(End()), stream.id, S.Flush(old(stream.State()), stream.id, budget)).end
      ensures out == old(out) + S.Apply(old(End()), stream.id, S.Flush(old(stream.State()), stream.id, budget)).frames
    {
      hide S.Flush;
      stream.FlushWrites(budget);
      Applied(stream, S.Flush(old(stream.State()), stream.id, budget), old(streams), old(waitingForDrain), old(End()));
    }

    lemma Lookup(stream: MuxStream)
      requires Valid() && stream.id in all && all[stream.id] == stream
      ensures stream.id in End().streams && End().streams[stream.id] == stream.State()
    {
    }

    /** The loop of _drain. */
    method FlushAll(waiting: seq<MuxStream>, budgets: seq<nat>)
      requires Valid() && |budgets| == |waiting| && |Ids(waiting)| == |waiting|
      requires forall s :: s in waiting ==> s.id in all && all[s.id] == s
      modifies this, all.Values
      ensures Valid() && all == old(all)
      ensures End() == S.FlushAll(old(End()), Ids(waiting), budgets).end
      ensures out == old(out) + S.FlushAll(old(End()), Ids(waiting), budgets).frames
    {
      hide S.Flush;
      hide S.FlushAll;
      hide S.Apply;
      hide Valid;
      hide End;
      var k := 0;
      ghost var sent: seq<Frame> := [];
      ghost var goal := S.FlushAll(End(), Ids(waiting), budgets);
      assert Ids(waiting)[0..] == Ids(waiting) && budgets[0..] == budgets && [] + goal.frames == goal.frames;
      while k < |waiting|
        invariant 0 <= k <= |waiting|
        invariant Valid() && all == old(all) && out == old(out) + sent
        invariant Draining(goal, sent, Ids(waiting)[k..], budgets[k..])
      {
        IdsMember(waiting, 0);
        var stream := waiting[k];
        ghost var ids, rest := Ids(waiting)[k..], budgets[k..];
        assert ids[0] == stream.id && ids[1..] == Ids(waiting)[k + 1..] && rest[1..] == budgets[k + 1..];
        Lookup(stream);
        FlushAllHead(End(), ids, rest);
        ghost var first := S.Apply(End(), stream.id, S.Flush(stream.State(), stream.id, budgets[k]));
        Regroup(old(out), sent, first.frames);
        FlushOne(stream, budgets[k]);
        sent := Joined(sent, first.frames, S.FlushAll(End(), ids[1..], rest[1..]).frames);
        k := k + 1;
      }
      FlushAllNone(End(), Ids(waiting)[k..], budgets[k..]);
      assert sent + [] == sent;
    }

    ghost predicate Draining(goal: S.Result, sent: seq<Frame>, ids: seq<nat>, budgets: seq<nat>)
      requires |ids| == |budgets|
      reads this, all.Values
    {
      var rest := S.FlushAll(End(), ids, budgets);
      goal == S.Result(rest.end, sent + rest.frames)
    }

    method StopDraining()
      requires Valid()
      modifies this
      ensures Valid() && End() == old(End()).(timer := false) && out == old(out)
    {
      if !drainTimer { return; }
      drainTimer := false;
    }

    method TakeWaiting() returns (waiting: seq<MuxStream>)
      requires Valid()
      modifies this
      ensures Valid() && all == old(all) && End() == old(End()).(waiting := []) && out == old(out)
      ensures waiting == old(waitingForDrain)
      ensures forall s :: s in waiting ==> s.id in all && all[s.id] == s
    {
      waiting := waitingForDrain;
      waitingForDrain := [];
    }

    lemma WaitingIds()
      ensures End().waiting == Ids(waitingForDrain) && |Ids(waitingForDrain)| == |waitingForDrain|
    {
      IdsMember(waitingForDrain, 0);
    }

    method Drain(room: bool, budgets: seq<nat>)
      requires Valid() && |budgets| == |waitingForDrain| && |End().waiting| == |waitingForDrain|
      modifies this, all.Values
      ensures Valid() && End() == S.Drain(old(End()), room, budgets).end && out == old(out) + S.Drain(old(End()), room, budgets).frames
    {
      WaitingIds();
      hide Valid;
      hide End;
      hide S.FlushAll;
      if waitingForDrain == [] {
        StopDraining();
        return;
      }
      if !room { return; }
      var waiting := TakeWaiting();
      FlushAll(waiting, budgets);
      WaitingIds();
      if waitingForDrain == [] { StopDraining(); }
    }

    ghost predicate Same(id: nat, open: bool, waiting: seq<MuxStream>, sent: nat, received: nat, lines: seq<Frame>)
      reads this
    {
      && nextId == id && wsOpen == open && waitingForDrain == waiting
      && bytesSent == sent && bytesReceived == received && out == lines && closed && !drainTimer
    }

    /** One stream is lost with the socket. */
    method Lose(id: nat)
      requires Valid() && closed && id in streams
      modifies this, all.Values
      ensures Valid() && all == old(all) && streams == old(streams) - {id}
      ensures States() == old(States())[id := S.Lost(old(States()[id]), id)]
      ensures Same(old(nextId), old(wsOpen), old(waitingForDrain), old(bytesSent), old(bytesReceived), old(out)) || old(drainTimer)
    {
      var stream := streams[id];
      stream.resetReceived := true;
      stream.Destroy();
      Stored(stream, S.Destroy(old(stream.State()).(resetReceived := true), id), old(streams), old(waitingForDrain), old(States()));
    }

    lemma TableKnown(id: nat)
      requires Valid() && id in streams
      ensures id in States()
    {
    }

    method LoseAll()
      requires Valid() && closed && !drainTimer
      modifies this, all.Values
      ensures Valid() && all == old(all) && streams == map[]
      ensures Same(old(nextId), old(wsOpen), old(waitingForDrain), old(bytesSent), old(bytesReceived), old(out))
      ensures States() == LostIn(old(States()), old(streams).Keys)
    {
      hide Valid;
      hide States;
      hide LostIn;
      hide S.Lost;
      var ids := streams.Keys;
      LostMore(States(), {}, 0);
      assert old(streams).Keys - ids == {};
      while ids != {}
        invariant Valid() && all == old(all) && streams.Keys == ids && ids <= old(streams).Keys
        invariant Same(old(nextId), old(wsOpen), old(waitingForDrain), old(bytesSent), old(bytesReceived), old(out))
        invariant States() == LostIn(old(States()), old(streams).Keys - ids)
        decreases ids
      {
        var id :| id in ids;
        TableKnown(id);
        LostMore(old(States()), old(streams).Keys - ids, id);
        Lose(id);
        assert old(streams).Keys - (ids - {id}) == (old(streams).Keys - ids) + {id};
        ids := ids - {id};
      }
      assert old(streams).Keys - {} == old(streams).Keys;
    }

    method OnSocketClose()
      requires Valid()
      modifies this, all.Values
      ensures Valid() && End() == S.SocketClose(old(End())) && out == old(out)
    {
      if closed { return; }
      closed := true;
      drainTimer := false;
      assert States() == old(States());
      LoseAll();
      assert States() == S.SocketClose(old(End())).streams;
    }
  }

  lemma LostMore(states: map<nat, S.Stream>, gone: set<nat>, id: nat)
    ensures gone == {} ==> LostIn(states, gone) == states
    ensures id in LostIn(states, gone) <==> id in states
    ensures id in states && id !in gone ==>
              LostIn(states, gone)[id] == states[id] && LostIn(states, gone)[id := S.Lost(states[id], id)] == LostIn(states, gone + {id})
  {
  }

  ghost function LostIn(states: map<nat, S.Stream>, gone: set<nat>): map<nat, S.Stream> {
    map id | id in states :: if id in gone then S.Lost(states[id], id) else states[id]
  }

  lemma FlushAllHead(e: S.End, ids: seq<nat>, budgets: seq<nat>)
    requires |ids| == |budgets| > 0 && ids[0] in e.streams
    ensures var first := S.Apply(e, ids[0], S.Flush(e.streams[ids[0]], ids[0], budgets[0]));
            var rest := S.FlushAll(first.end, ids[1..], budgets[1..]);
            S.FlushAll(e, ids, budgets) == S.Result(rest.end, first.frames + rest.frames)
  {
  }

  lemma FlushAllNone(e: S.End, ids: seq<nat>, budgets: seq<nat>)
    requires |ids| == |budgets| == 0
    ensures S.FlushAll(e, ids, budgets) == S.Result(e, [])
  {
  }

  lemma {:induction false} IdsAppend(a: seq<MuxStream>, b: seq<MuxStream>)
    ensures Ids(a + b) == Ids(a) + Ids(b)
  {
    if a == [] {
      assert a + b == b;
    } else {
      IdsAppend(a[1..], b);
      assert (a + b)[1..] == a[1..] + b;
    }
  }

  lemma {:induction false} IdsMember(waiting: seq<MuxStream>, id: nat)
    ensures |Ids(waiting)| == |waiting|
    ensures forall i :: 0 <= i < |waiting| ==> Ids(waiting)[i] == waiting[i].id
    ensures id in Ids(waiting) ==> exists i :: 0 <= i < |waiting| && waiting[i].id == id
  {
    if waiting != [] { IdsMember(waiting[1..], id); }
  }

  ghost function Ids(waiting: seq<MuxStream>): seq<nat> {
    if waiting == [] then [] else [waiting[0].id] + Ids(waiting[1..])
  }
}
