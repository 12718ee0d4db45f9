/** The client's operations, and frames reaching the client, keep the invariant. */
module LinkClient {
  import opened Prelude
  import opened MuxTypes
  import C = ClientSpec
  import D = Direction
  import opened Link
  import opened LinkInvariant

  function ClientAct(v: View, out: C.Out): View {
    v.(c := Some(out.s), cLive := v.cLive && !out.s.dropped,
       up := if v.cUp then AfterAll(v.up, out.fifo) else v.up,
       loose := if v.cUp then AfterAll(v.loose, out.loose) else v.loose)
  }

  function ClientSet(v: View, t: C.Stream): View {
    v.(c := Some(t), cLive := v.cLive && !t.dropped)
  }

  function Fifo(v: View, t: C.Stream, f: Frame): View {
    ClientSet(v, t).(up := if v.cUp then After(v.up, f) else v.up)
  }

  function Loose(v: View, t: C.Stream, f: Frame): View {
    ClientSet(v, t).(loose := if v.cUp then After(v.loose, f) else v.loose)
  }

  lemma Acted(v: View, t: C.Stream, f: Frame)
    ensures ClientAct(v, C.Stay(t)) == ClientSet(v, t)
    ensures ClientAct(v, C.Out(t, [f], [])) == Fifo(v, t, f)
    ensures ClientAct(v, C.Out(t, [], [f])) == Loose(v, t, f)
  {
    assert [f][1..] == [];
    assert AfterAll(v.up, [f]) == AfterAll(After(v.up, f), []);
    assert AfterAll(v.loose, [f]) == AfterAll(After(v.loose, f), []);
  }

  /** The id leaves the client's table when the stream is dropped. */
  predicate Tabled(v: View) {
    v.c.Some? && (v.c.value.dropped ==> !v.cLive)
  }

  // ----- sending -----

  lemma SendBeginFlow(v: View, data: seq<Byte>, t: C.Stream)
    requires Flow(v) && Tabled(v) && v.c.value.pieces == [] && !v.c.value.closeSent
    requires t == v.c.value.(pieces := Chunks(data), accepted := v.c.value.accepted + data)
    ensures Flow(ClientSet(v, t))
  {
    hide D.Ok;
    hide Chunks;
    hide BytesIn;
    var w := ClientSet(v, t);
    assert [] + data == data;
    assert v.s.Some? ==> Down(w) == Down(v);
    hide Down;
    D.AcceptOk(Up(v), data);
    assert Up(w) == D.Accept(Up(v), data);
  }

  lemma SendBeginOk(v: View, data: seq<Byte>)
    requires Ok(v) && v.c.Some? && !v.c.value.dropped && v.c.value.pieces == [] && !v.c.value.closeSent
    ensures Ok(ClientSet(v, C.SendBegin(v.c.value, data)))
  {
    hide Flow;
    hide Shape;
    SendBeginShape(v, data);
    SendBeginFlow(v, data, C.SendBegin(v.c.value, data));
  }

  lemma SendBeginShape(v: View, data: seq<Byte>)
    requires Shape(v) && v.c.Some? && !v.c.value.dropped && v.c.value.pieces == [] && !v.c.value.closeSent
    ensures Tabled(v) && Shape(ClientSet(v, C.SendBegin(v.c.value, data)))
  {
    hide Chunks;
    hide BytesIn;
    hide ServerOk;
    var c := v.c.value;
    BeginKeeps(c, data);
    hide C.SendBegin;
    hide ClientOk;
  }

  lemma BeginKeeps(c: C.Stream, data: seq<Byte>)
    requires ClientOk(c) && !c.dropped && c.pieces == [] && !c.closeSent
    ensures var t := C.SendBegin(c, data); ClientOk(t) && t == c.(pieces := t.pieces, accepted := t.accepted)
  {
    hide Chunks;
    hide BytesIn;
    hide ClosedLastIn;
  }

  lemma PieceFlow(v: View, id: nat, rest: seq<seq<Byte>>, w: View)
    requires Flow(v) && Tabled(v) && v.c.value.pieces != [] && !v.c.value.dropped && !v.c.value.closeSent
    requires !v.c.value.dead && |v.c.value.pieces[0]| <= v.c.value.credit
    requires v.cUp ==> rest == v.c.value.pieces[1..]
    requires var c := v.c.value; w == Fifo(v, c.(credit := c.credit - |c.pieces[0]|, pieces := rest), Data(id, c.pieces[0]))
    ensures Flow(w)
  {
    hide D.Ok;
    var piece := v.c.value.pieces[0];
    D.SendOk(Up(v), piece, Concat(rest));
    assert Up(w) == D.Send(Up(v), piece, Concat(rest));
    assert v.s.Some? ==> Down(w) == Down(v);
  }

  lemma PieceOk(v: View, id: nat, rest: seq<seq<Byte>>)
    requires Ok(v) && v.c.Some? && v.c.value.pieces != [] && !v.c.value.dropped
    requires !v.c.value.dead && |v.c.value.pieces[0]| <= v.c.value.credit
    requires rest == if v.cUp then v.c.value.pieces[1..] else []
    ensures var c := v.c.value; Ok(Fifo(v, c.(credit := c.credit - |c.pieces[0]|, pieces := rest), Data(id, c.pieces[0])))
  {
    hide Flow;
    var c := v.c.value;
    PieceFlow(v, id, rest, Fifo(v, c.(credit := c.credit - |c.pieces[0]|, pieces := rest), Data(id, c.pieces[0])));
  }

  lemma AbandonFlow(v: View, t: C.Stream)
    requires Flow(v) && Tabled(v) && v.c.value.dead && t == v.c.value.(pieces := [])
    ensures Flow(ClientSet(v, t))
  {
    var w := ClientSet(v, t);
    assert v.s.Some? ==> Down(w) == Down(v);
    var u := Up(v);
    assert Up(w) == u.(queued := []);
    D.AbandonOk(u);
  }

  lemma AbandonOk(v: View, t: C.Stream)
    requires Ok(v) && v.c.Some? && v.c.value.dead && t == v.c.value.(pieces := [])
    ensures Ok(ClientSet(v, t))
  {
    hide Flow;
    AbandonFlow(v, t);
  }

  lemma SendPieceOk(v: View, id: nat)
    requires Ok(v) && v.c.Some? && C.SendPiece(v.c.value, id, !v.cUp) != C.Stay(v.c.value)
    ensures Ok(ClientAct(v, C.SendPiece(v.c.value, id, !v.cUp)))
  {
    hide Ok;
    var c := v.c.value;
    var out := C.SendPiece(c, id, !v.cUp);
    Acted(v, out.s, Data(id, c.pieces[0]));
    if c.dead {
      AbandonOk(v, out.s);
    } else {
      PieceOk(v, id, out.s.pieces);
    }
  }

  lemma DatagramFlow(v: View, id: nat, data: seq<Byte>)
    requires Flow(v) && Tabled(v)
    ensures Flow(Fifo(v, v.c.value, Datagram(id, data)))
  {
    hide D.Ok;
    var w := Fifo(v, v.c.value, Datagram(id, data));
    assert v.up.data + [] == v.up.data;
    assert Up(w) == Up(v);
    assert v.s.Some? ==> Down(w) == Down(v);
  }

  lemma DatagramOk(v: View, id: nat, data: seq<Byte>)
    requires Ok(v) && v.c.Some?
    ensures Ok(Fifo(v, v.c.value, Datagram(id, data)))
  {
    hide Flow;
    assert v.up.data + [] == v.up.data;
    DatagramFlow(v, id, data);
  }

  lemma CloseFlow(v: View, id: nat)
    requires Flow(v) && Tabled(v) && v.c.value.pieces == [] && !v.c.value.dead && !v.c.value.dropped
    ensures Flow(Fifo(v, v.c.value.(closeSent := true), Close(id)))
  {
    hide D.Ok;
    var w := Fifo(v, v.c.value.(closeSent := true), Close(id));
    assert v.up.data + [] == v.up.data;
    D.SendCloseOk(Up(v));
    assert Up(w) == D.SendClose(Up(v));
    assert v.s.Some? ==> Down(w) == Down(v);
  }

  lemma CloseShape(v: View, id: nat)
    requires Shape(v) && v.c.Some? && !(v.c.value.dropped || v.c.value.pieces != [] || v.c.value.dead || v.c.value.closeSent)
    ensures Tabled(v) && Shape(Fifo(v, v.c.value.(closeSent := true), Close(id)))
  {
    assert v.up.data + [] == v.up.data;
  }

  lemma CloseOk(v: View, id: nat)
    requires Ok(v) && v.c.Some? && !(v.c.value.dropped || v.c.value.pieces != [] || v.c.value.dead || v.c.value.closeSent)
    ensures Ok(Fifo(v, v.c.value.(closeSent := true), Close(id)))
  {
    hide Shape;
    hide Flow;
    CloseShape(v, id);
    CloseFlow(v, id);
  }

  lemma ResetFlow(v: View, id: nat, t: C.Stream)
    requires Flow(v) && Tabled(v) && t == v.c.value.(dead := true, resets := t.resets)
    ensures Flow(Loose(v, t, Reset(id)))
  {
    hide D.Ok;
    var w := Loose(v, t, Reset(id));
    D.OnlyOk(Up(v), false, true, true);
    assert Up(w) == D.Only(Up(v), false, true, true);
    hide Concat;
    assert v.s.Some? ==> Down(w) == Down(v) by {
      hide D.Only;
      hide Up;
    }
  }

  lemma ResetShape(v: View, id: nat)
    requires Shape(v) && v.c.Some? && !v.c.value.dropped && !v.c.value.dead
    ensures Tabled(v) && Shape(Loose(v, v.c.value.(dead := true, resets := v.c.value.resets + 1), Reset(id)))
  {
  }

  lemma ResetOk(v: View, id: nat)
    requires Ok(v) && v.c.Some? && !v.c.value.dropped && !v.c.value.dead
    ensures Ok(Loose(v, v.c.value.(dead := true, resets := v.c.value.resets + 1), Reset(id)))
  {
    hide Shape;
    hide Flow;
    ResetShape(v, id);
    ResetFlow(v, id, v.c.value.(dead := true, resets := v.c.value.resets + 1));
  }

  // ----- receiving -----

  lemma AckFlow(v: View, id: nat, t: C.Stream)
    requires Flow(v) && Tabled(v) && t == v.c.value.(unacked := 0, parked := true)
    ensures Flow(Loose(v, t, Update(id, v.c.value.unacked)))
  {
    hide D.Ok;
    var n := v.c.value.unacked;
    var w := Loose(v, t, Update(id, n));
    assert Up(w) == Up(v);
    if v.s.Some? {
      D.CreditStepOk(Down(v), n, v.cUp);
      assert Down(w) == D.Credit(Down(v), n, v.cUp);
    }
  }

  lemma AckOk(v: View, id: nat)
    requires Ok(v) && v.c.Some? && v.c.value.unacked > 0 && !v.c.value.dead
    ensures Ok(Loose(v, v.c.value.(unacked := 0, parked := true), Update(id, v.c.value.unacked)))
  {
    hide Flow;
    AckFlow(v, id, v.c.value.(unacked := 0, parked := true));
  }

  lemma ParkFlow(v: View, t: C.Stream)
    requires Flow(v) && Tabled(v) && t == v.c.value.(parked := true)
    ensures Flow(ClientSet(v, t))
  {
    hide D.Ok;
    var w := ClientSet(v, t);
    assert Up(w) == Up(v);
    assert v.s.Some? ==> Down(w) == Down(v);
  }

  lemma ParkShape(v: View)
    requires Shape(v) && v.c.Some? && (v.c.value.unacked < ACK_THRESHOLD || v.c.value.dead)
    ensures Tabled(v) && Shape(ClientSet(v, v.c.value.(parked := true)))
  {
  }

  lemma ParkOk(v: View)
    requires Ok(v) && v.c.Some? && (v.c.value.unacked < ACK_THRESHOLD || v.c.value.dead)
    ensures Ok(ClientSet(v, v.c.value.(parked := true)))
  {
    hide Shape;
    hide Flow;
    ParkShape(v);
    ParkFlow(v, v.c.value.(parked := true));
  }

  lemma RecvBeginOk(v: View, id: nat)
    requires Ok(v) && v.c.Some? && v.c.value.rxOpen
    ensures Ok(ClientAct(v, C.RecvBegin(v.c.value, id)))
  {
    hide Ok;
    var c := v.c.value;
    var out := C.RecvBegin(c, id);
    Acted(v, out.s, Update(id, c.unacked));
    if c.unacked >= ACK_THRESHOLD && !c.dead {
      AckOk(v, id);
    } else {
      ParkOk(v);
    }
  }

  /** Taking an item moves bytes from the queue to the reader; nothing is lost. */
  lemma TakeKeeps(c: C.Stream)
    requires ClientOk(c)
    ensures var t := C.RecvTake(c);
            ClientOk(t) && Held(Some(t)) == Held(Some(c)) && Got(Some(t)) == Got(Some(c))
            && (ClientSawClose(Some(t)) <==> ClientSawClose(Some(c)))
  {
    if c.rx != [] {
      assert c.rx == [c.rx[0]] + c.rx[1..];
      var b, rest := (if c.rx[0].GotData? then c.rx[0].bytes else []), BytesIn(c.rx[1..]);
      assert c.taken + (b + rest) == (c.taken + b) + rest;
    }
  }

  lemma RecvTakeFlow(v: View, t: C.Stream)
    requires Flow(v) && Tabled(v) && t == v.c.value.(dead := t.dead, rx := t.rx, unacked := t.unacked, taken := t.taken, closeReceived := t.closeReceived, parked := t.parked)
    requires Held(Some(t)) == Held(v.c) && Got(Some(t)) == Got(v.c) && (ClientSawClose(Some(t)) <==> ClientSawClose(v.c))
    requires v.c.value.dead ==> t.dead
    ensures Flow(ClientSet(v, t))
  {
    hide D.Ok;
    var w := ClientSet(v, t);
    D.OnlyOk(Up(v), !t.dead, true, true);
    assert Up(w) == D.Only(Up(v), !t.dead, true, true);
    assert v.s.Some? ==> Down(w) == Down(v);
  }

  lemma TakeChanges(c: C.Stream)
    ensures var t := C.RecvTake(c);
      && t == c.(dead := t.dead, rx := t.rx, unacked := t.unacked, taken := t.taken, closeReceived := t.closeReceived, parked := t.parked)
      && (c.dead ==> t.dead)
  {
  }

  lemma RecvTakeShape(v: View)
    requires Shape(v) && v.c.Some?
    ensures Tabled(v) && ClientOk(v.c.value) && Shape(ClientSet(v, C.RecvTake(v.c.value)))
  {
    TakeKeeps(v.c.value);
  }

  lemma RecvTakeOk(v: View)
    requires Ok(v) && v.c.Some?
    ensures Ok(ClientSet(v, C.RecvTake(v.c.value)))
  {
    hide Shape;
    hide Flow;
    RecvTakeShape(v);
    TakeKeeps(v.c.value);
    TakeChanges(v.c.value);
    hide C.RecvTake;
    hide ClientOk;
    hide BytesIn;
    RecvTakeFlow(v, C.RecvTake(v.c.value));
  }

  /** The receive queue goes away with the reader. */
  lemma DropReaderFlow(v: View)
    requires Flow(v) && Tabled(v) && (v.c.value.closeReceived ==> BytesIn(v.c.value.rx) == [])
    ensures Flow(ClientSet(v, C.DropReader(v.c.value)))
  {
    hide D.Ok;
    var c := v.c.value;
    var w := ClientSet(v, C.DropReader(c));
    assert Up(w) == Up(v);
    if v.s.Some? {
      assert c.taken + [] <= c.taken + BytesIn(c.rx);
      IsPrefix(c.taken + [], c.taken + BytesIn(c.rx));
      D.ForgetOk(Down(v), c.unacked, c.taken + [], c.closeReceived);
      assert Down(w) == D.Forget(Down(v), c.unacked, c.taken + [], c.closeReceived);
    }
  }

  lemma DropReaderOk(v: View)
    requires Ok(v) && v.c.Some?
    ensures Ok(ClientSet(v, C.DropReader(v.c.value)))
  {
    hide Flow;
    DropReaderFlow(v);
  }

  lemma LeaveFlow(v: View, t: C.Stream, w: View)
    requires Flow(v) && Tabled(v) && !v.c.value.rxOpen && t == v.c.value.(dropped := true, pieces := [], resets := t.resets)
    requires w == v.(c := Some(t), cLive := false, loose := w.loose) && w.loose.credits == v.loose.credits
    ensures Flow(w)
  {
    hide D.Ok;
    D.StopSending(Up(v));
    assert Up(w) == Up(v).(sending := false, exact := false, queued := []);
    assert v.s.Some? ==> Down(w) == Down(v);
  }

  lemma LeaveOk(v: View, t: C.Stream, id: nat, told: bool)
    requires Ok(v) && v.c.Some? && !v.c.value.rxOpen && !v.c.value.dropped
    requires t == v.c.value.(dropped := true, pieces := [], resets := t.resets)
    requires t.resets == v.c.value.resets || (t.resets == v.c.value.resets + 1 && !v.c.value.dead)
    ensures Ok(if told then Loose(v, t, Reset(id)) else ClientSet(v, t))
  {
    LeaveShape(v, t, id, told);
    hide Shape;
    hide Flow;
    LeaveFlow(v, t, if told then Loose(v, t, Reset(id)) else ClientSet(v, t));
  }

  lemma LeaveShape(v: View, t: C.Stream, id: nat, told: bool)
    requires Shape(v) && v.c.Some? && !v.c.value.rxOpen && !v.c.value.dropped
    requires t == v.c.value.(dropped := true, pieces := [], resets := t.resets)
    requires t.resets == v.c.value.resets || (t.resets == v.c.value.resets + 1 && !v.c.value.dead)
    ensures Tabled(v) && Shape(if told then Loose(v, t, Reset(id)) else ClientSet(v, t))
  {
    assert ClientOk(t);
    hide ClientOk;
    hide ServerOk;
    hide BytesIn;
  }

  lemma DropSharedOk(v: View, id: nat)
    requires Ok(v) && v.c.Some? && !v.c.value.dropped
    ensures Ok(ClientAct(v, C.DropShared(v.c.value, id)))
  {
    hide Ok;
    var c := v.c.value;
    var out := C.DropShared(c, id);
    Acted(v, out.s, Reset(id));
    DropReaderOk(v);
    LeaveOk(ClientSet(v, C.DropReader(c)), out.s, id, out.loose != []);
  }

  lemma WriterStepOk(v: View, id: nat, op: ClientOp)
    requires Ok(v) && v.c.Some? && ClientStep(v.c.value, id, op, !v.cUp) != C.Stay(v.c.value)
    requires op.SendBegin? || op.SendPiece? || op.ClientDatagram? || op.CloseStream? || op.ResetStream?
    ensures Ok(ClientAct(v, ClientStep(v.c.value, id, op, !v.cUp)))
  {
    hide Ok;
    var c := v.c.value;
    var out := ClientStep(c, id, op, !v.cUp);
    if op.SendBegin? { SendBeginOk(v, op.data); }
    else if op.SendPiece? { SendPieceOk(v, id); }
    else if op.ClientDatagram? { DatagramOk(v, id, op.datagram); Acted(v, c, Datagram(id, op.datagram)); }
    else if op.CloseStream? { CloseOk(v, id); Acted(v, out.s, Close(id)); }
    else { ResetOk(v, id); Acted(v, out.s, Reset(id)); }
  }

  lemma ReaderStepOk(v: View, id: nat, op: ClientOp)
    requires Ok(v) && v.c.Some? && ClientStep(v.c.value, id, op, !v.cUp) != C.Stay(v.c.value)
    requires op.RecvBegin? || op.RecvTake? || op.DropReader? || op.DropShared?
    ensures Ok(ClientAct(v, ClientStep(v.c.value, id, op, !v.cUp)))
  {
    hide Ok;
    if op.RecvBegin? { RecvBeginOk(v, id); }
    else if op.RecvTake? { RecvTakeOk(v); }
    else if op.DropReader? { DropReaderOk(v); }
    else { DropSharedOk(v, id); }
  }

  lemma ClientStepOk(v: View, id: nat, op: ClientOp)
    requires Ok(v) && v.c.Some?
    ensures Ok(ClientAct(v, ClientStep(v.c.value, id, op, !v.cUp)))
  {
    var c := v.c.value;
    var out := ClientStep(c, id, op, !v.cUp);
    assert c.dropped ==> !v.cLive;
    hide Ok;
    hide ClientStep;
    if out == C.Stay(c) {
      assert ClientAct(v, out) == v;
    } else if op.RecvBegin? || op.RecvTake? || op.DropReader? || op.DropShared? {
      ReaderStepOk(v, id, op);
    } else {
      WriterStepOk(v, id, op);
    }
  }
}
