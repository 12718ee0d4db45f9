/** Frames reaching the client, and the loss of the session, keep the invariant. */
module LinkDelivery {
  import opened Prelude
  import opened MuxTypes
  import S = ServerSpec
  import C = ClientSpec
  import D = Direction
  import opened LinkInvariant

  function ClientHandle(v: View, f: Frame): View {
    if f.Open? then v.(c := Some(C.FRESH), cLive := true)
    else if v.cLive && v.c.Some? then v.(c := Some(C.Dispatch(v.c.value, f)), cLive := !f.Reset?)
    else v
  }

  // ----- the receive queue -----

  lemma PutKeeps(c: C.Stream, item: Incoming)
    requires ClientOk(c) && (item.GotData? && ClientSawClose(Some(c)) ==> item.bytes == [])
    ensures var t := C.Put(c, item);
            var b := if c.rxOpen && item.GotData? then item.bytes else [];
            ClientOk(t) && Held(Some(t)) == Held(Some(c)) + |b| && Got(Some(t)) == Got(Some(c)) + b
            && (ClientSawClose(Some(t)) <==> ClientSawClose(Some(c)) || (c.rxOpen && item == GotClose))
  {
    ClosedLastAppend(c.rx, item);
    BytesInAppend(c.rx, [item]);
    assert [item][1..] == [];
    assert BytesIn([item]) == if item.GotData? then item.bytes else [];
    var b := if c.rxOpen && item.GotData? then item.bytes else [];
    assert c.taken + (BytesIn(c.rx) + b) == (c.taken + BytesIn(c.rx)) + b;
  }

  // ----- frames -----

  lemma OpenFlow(v: View, rest: Chan)
    requires Flow(v) && v.c.None? && v.up == EMPTY && rest.credits == 0 && rest.data == v.down.data && rest.close == v.down.close
    requires v.s.Some? ==> v.s.value.pushed == [] && v.s.value.pendingUpdate == 0 && !v.s.value.closeReceived
    requires v.s.Some? ==> v.loose.credits == 0
    ensures Flow(v.(down := rest, c := Some(C.FRESH), cLive := true))
  {
    var w := v.(down := rest, c := Some(C.FRESH), cLive := true);
    assert [] + BytesIn([]) == [];
    assert v.s.Some? ==> Down(w) == Down(v);
    assert D.Ok(Up(w)) by {
      var u := Up(w);
      assert u.queued == [] && u.wire == [] && u.got == [] && u.accepted == [];
    }
  }

  lemma OpenOk(v: View, f: Frame, rest: Chan)
    requires Ok(v) && f.Open? && v.down == Before(f, rest)
    ensures v.c.None? && Ok(v.(down := rest, c := Some(C.FRESH), cLive := true))
  {
    hide Flow;
    assert [] + rest.data == rest.data;
    OpenFlow(v, rest);
  }

  /** The stream is known to both ends when anything but its OPEN arrives. */
  lemma Known(v: View, f: Frame, rest: Chan)
    requires Ok(v) && !f.Open? && v.down == Before(f, rest)
    ensures v.s.Some? && v.c.Some? && (f.Close? ==> rest.data == []) && ClientOk(v.c.value)
    ensures ClientSawClose(v.c) ==> Bytes(f) == []
    ensures v.cLive ==> !v.c.value.dropped
    ensures v.c.value.dropped ==> !v.c.value.rxOpen
  {
    assert !Idle(v.down);
    assert Down(v).closeSeen ==> Down(v).wire == [];
  }

  /** DATA or CLOSE is put in the receive queue, if there still is one. */
  lemma PutFlow(v: View, f: Frame, rest: Chan, t: C.Stream)
    requires Flow(v) && v.s.Some? && v.c.Some? && !v.c.value.dropped && v.down == Before(f, rest) && (f.Data? || f.Close?)
    requires f.Close? ==> rest.data == []
    requires t == if v.cLive then v.c.value.(rx := t.rx) else v.c.value
    requires v.cLive ==> var b := if v.c.value.rxOpen then Bytes(f) else [];
               Held(Some(t)) == Held(v.c) + |b| && Got(Some(t)) == Got(v.c) + b
               && (ClientSawClose(Some(t)) <==> ClientSawClose(v.c) || (v.c.value.rxOpen && f.Close?))
    ensures Flow(v.(down := rest, c := Some(t)))
  {
    hide D.Ok;
    hide BytesIn;
    hide S.QueueBytes;
    var w := v.(down := rest, c := Some(t));
    var d := Down(v);
    assert Up(w) == Up(v);
    hide Up;
    assert Got(v.c) + [] == Got(v.c);
    if f.Data? {
      D.ArriveOk(d, f.payload, rest.data);
      assert Down(w) == D.Arrive(d, f.payload, rest.data);
    } else {
      assert [] + rest.data == rest.data;
      D.ArriveCloseOk(d, rest.close);
      assert Down(w) == D.ArriveClose(d, rest.close);
    }
  }

  lemma PutShape(v: View, f: Frame, rest: Chan, t: C.Stream)
    requires Shape(v) && v.s.Some? && v.c.Some? && v.down == Before(f, rest) && !f.Open?
    requires ClientOk(t) && t.dropped == v.c.value.dropped && t.closeSent == v.c.value.closeSent
    ensures Shape(v.(down := rest, c := Some(t)))
    ensures Shape(v.(down := rest, c := Some(t), cLive := false))
  {
  }

  lemma PutOk(v: View, f: Frame, rest: Chan)
    requires Ok(v) && v.down == Before(f, rest) && (f.Data? || f.Close?) && v.c.Some?
    ensures Ok(v.(down := rest, c := Some(if v.cLive then C.Dispatch(v.c.value, f) else v.c.value)))
  {
    hide Shape;
    hide Flow;
    Known(v, f, rest);
    var c := v.c.value;
    var item := if f.Data? then GotData(f.payload) else GotClose;
    var t := if v.cLive then C.Dispatch(c, f) else c;
    PutKeeps(c, item);
    PutShape(v, f, rest, t);
    if !c.dropped { PutFlow(v, f, rest, t); } else { DropFlow(v, f, rest); }
  }

  /** A frame arrives for a stream the client has dropped. */
  lemma DropFlow(v: View, f: Frame, rest: Chan)
    requires Flow(v) && v.s.Some? && v.c.Some? && v.down == Before(f, rest) && !v.cLive
    requires f.Close? ==> rest.data == []
    ensures Flow(v.(down := rest))
  {
    hide D.Ok;
    var w := v.(down := rest);
    var d := Down(v);
    D.ArriveOk(d, Bytes(f), rest.data);
    var e := D.Arrive(d, Bytes(f), rest.data);
    if f.Close? {
      assert [] + rest.data == rest.data;
      D.ArriveCloseOk(d, rest.close);
      assert Down(w) == D.ArriveClose(d, rest.close);
    } else {
      assert Down(w) == e;
    }
    D.CreditedOk(Up(v), Amount(f), false);
    assert Up(w) == D.Credited(Up(v), Amount(f), false);
  }

  lemma DropOk(v: View, f: Frame, rest: Chan)
    requires Ok(v) && v.down == Before(f, rest) && !f.Open? && !v.cLive
    ensures Ok(v.(down := rest))
  {
    hide Shape;
    hide Flow;
    Known(v, f, rest);
    PutShape(v, f, rest, v.c.value);
    DropFlow(v, f, rest);
  }

  /** RESET ends the stream at the client; its queue stays readable. */
  lemma ResetFlow(v: View, f: Frame, rest: Chan, t: C.Stream)
    requires Flow(v) && v.s.Some? && v.c.Some? && v.down == Before(f, rest) && f.Reset?
    requires t == v.c.value.(dead := true, rx := t.rx)
    requires Held(Some(t)) == Held(v.c) && Got(Some(t)) == Got(v.c) && (ClientSawClose(Some(t)) <==> ClientSawClose(v.c))
    ensures Flow(v.(down := rest, c := Some(t), cLive := false))
  {
    hide D.Ok;
    var w := v.(down := rest, c := Some(t), cLive := false);
    assert [] + rest.data == rest.data;
    D.OnlyOk(Down(v), true, false, false);
    assert Down(w) == D.Only(Down(v), true, false, false);
    D.OnlyOk(Up(v), false, true, false);
    assert Up(w) == D.Only(Up(v), false, true, false);
  }

  lemma ResetOk(v: View, f: Frame, rest: Chan)
    requires Ok(v) && v.down == Before(f, rest) && f.Reset? && v.c.Some?
    ensures Ok(v.(down := rest, c := Some(C.Dispatch(v.c.value, f)), cLive := false))
  {
    hide Shape;
    hide Flow;
    Known(v, f, rest);
    var c := v.c.value;
    var t := C.Dispatch(c, f);
    PutKeeps(c.(dead := true), GotReset);
    assert Got(v.c) + [] == Got(v.c);
    PutShape(v, f, rest, t);
    ResetFlow(v, f, rest, t);
  }

  lemma UpdateFlow(v: View, f: Frame, rest: Chan, t: C.Stream)
    requires Flow(v) && v.s.Some? && v.c.Some? && v.cLive && v.down == Before(f, rest) && (f.Update? || f.Datagram?)
    requires t == v.c.value.(credit := v.c.value.credit + Amount(f), rx := t.rx)
    requires Held(Some(t)) == Held(v.c) && Got(Some(t)) == Got(v.c) && (ClientSawClose(Some(t)) <==> ClientSawClose(v.c))
    ensures Flow(v.(down := rest, c := Some(t)))
  {
    hide D.Ok;
    var w := v.(down := rest, c := Some(t));
    assert [] + rest.data == rest.data;
    assert Down(w) == Down(v);
    D.CreditedOk(Up(v), Amount(f), true);
    assert Up(w) == D.Credited(Up(v), Amount(f), true);
  }

  lemma UpdateOk(v: View, f: Frame, rest: Chan)
    requires Ok(v) && v.down == Before(f, rest) && (f.Update? || f.Datagram?) && v.c.Some? && v.cLive
    ensures Ok(v.(down := rest, c := Some(C.Dispatch(v.c.value, f))))
  {
    hide Shape;
    hide Flow;
    Known(v, f, rest);
    var c := v.c.value;
    if f.Datagram? { PutKeeps(c, GotDatagram(f.payload)); }
    assert Got(v.c) + [] == Got(v.c);
    PutShape(v, f, rest, C.Dispatch(c, f));
    UpdateFlow(v, f, rest, C.Dispatch(c, f));
  }

  lemma DownOk(v: View, f: Frame, rest: Chan)
    requires Ok(v) && v.down == Before(f, rest)
    ensures Ok(ClientHandle(v.(down := rest), f))
  {
    hide Ok;
    if f.Open? {
      OpenOk(v, f, rest);
    } else {
      Known(v, f, rest);
      if !v.cLive {
        DropOk(v, f, rest);
      } else if f.Reset? {
        ResetOk(v, f, rest);
      } else if f.Data? || f.Close? {
        PutOk(v, f, rest);
      } else {
        UpdateOk(v, f, rest);
      }
    }
  }

  // ----- session loss -----

  lemma QuietDown(v: View, sUp: bool, cUp: bool)
    requires v.s.Some? && D.Ok(Down(v))
    ensures D.Ok(Down(v.(sUp := v.sUp && sUp, cUp := v.cUp && cUp)))
  {
    hide D.Ok;
    D.OnlyOk(Down(v), sUp, true, sUp && cUp);
    assert Down(v.(sUp := v.sUp && sUp, cUp := v.cUp && cUp)) == D.Only(Down(v), sUp, true, sUp && cUp);
  }

  lemma QuietUp(v: View, sUp: bool, cUp: bool)
    requires v.c.Some? && D.Ok(Up(v))
    ensures D.Ok(Up(v.(sUp := v.sUp && sUp, cUp := v.cUp && cUp)))
  {
    hide D.Ok;
    D.OnlyOk(Up(v), cUp, true, sUp && cUp);
    assert Up(v.(sUp := v.sUp && sUp, cUp := v.cUp && cUp)) == D.Only(Up(v), cUp, true, sUp && cUp);
  }

  lemma QuietFlow(v: View, sUp: bool, cUp: bool)
    requires Flow(v)
    ensures Flow(v.(sUp := v.sUp && sUp, cUp := v.cUp && cUp))
  {
    hide D.Ok;
    hide Down;
    hide Up;
    if v.s.Some? { QuietDown(v, sUp, cUp); }
    if v.c.Some? { QuietUp(v, sUp, cUp); }
  }

  lemma QuietOk(v: View, sUp: bool, cUp: bool)
    requires Ok(v)
    ensures Ok(v.(sUp := v.sUp && sUp, cUp := v.cUp && cUp))
  {
    hide Flow;
    QuietFlow(v, sUp, cUp);
  }

  lemma ShutFlow(v: View, t: C.Stream)
    requires Flow(v) && v.c.Some? && t == v.c.value.(dead := true, rx := t.rx)
    requires Held(Some(t)) == Held(v.c) && Got(Some(t)) == Got(v.c) && (ClientSawClose(Some(t)) <==> ClientSawClose(v.c))
    ensures Flow(v.(c := Some(t), cLive := false))
  {
    hide D.Ok;
    var w := v.(c := Some(t), cLive := false);
    if v.s.Some? {
      D.OnlyOk(Down(v), true, false, false);
      assert Down(w) == D.Only(Down(v), true, false, false);
    }
    D.OnlyOk(Up(v), false, true, false);
    assert Up(w) == D.Only(Up(v), false, true, false);
  }

  lemma ShutShape(v: View, t: C.Stream)
    requires Shape(v) && v.c.Some? && ClientOk(t) && t == v.c.value.(dead := true, rx := t.rx)
    requires Held(Some(t)) == Held(v.c) && Got(Some(t)) == Got(v.c) && (ClientSawClose(Some(t)) <==> ClientSawClose(v.c))
    ensures Shape(v.(c := Some(t), cLive := false))
  {
  }

  /** What shutdown does to a stream of the table. */
  lemma ShutOk(v: View, t: C.Stream)
    requires Ok(v) && v.c.Some? && t == C.Put(v.c.value.(dead := true), GotReset)
    ensures Ok(v.(c := Some(t), cLive := false))
  {
    assert ClientOk(v.c.value);
    hide Shape;
    hide Flow;
    PutKeeps(v.c.value.(dead := true), GotReset);
    assert Got(v.c) + [] == Got(v.c);
    hide BytesIn;
    assert t == v.c.value.(dead := true, rx := t.rx);
    hide C.Put;
    hide ClientOk;
    ShutShape(v, t);
    ShutFlow(v, t);
  }

  /** Mux::shutdown, seen from one stream. */
  lemma ShutdownOk(v: View, w: View)
    requires Ok(v)
    requires w == if v.cLive && v.c.Some? then v.(c := Some(C.Put(v.c.value.(dead := true), GotReset)), cLive := false, cUp := false)
                  else v.(cLive := false, cUp := false)
    ensures Ok(w)
  {
    var u := v;
    if v.cLive && v.c.Some? {
      var t := C.Put(v.c.value.(dead := true), GotReset);
      ShutOk(v, t);
      u := v.(c := Some(t), cLive := false);
    }
    hide Ok;
    QuietOk(u, true, false);
  }

  /** _onSocketClose, seen from one stream. */
  lemma SocketCloseOk(v: View, id: nat, w: View)
    requires Ok(v)
    requires w == if v.sLive && v.s.Some? then v.(s := Some(S.Lost(v.s.value, id)), sLive := false, sUp := false)
                  else v.(sLive := false, sUp := false)
    ensures Ok(w)
  {
    if v.sLive && v.s.Some? {
      OnResetOk(v, id);
      Acted(v, S.Lost(v.s.value, id), Reset(id), false);
      hide Ok;
      QuietOk(ServerSet(v, S.Lost(v.s.value, id)), false, true);
    } else {
      QuietOk(v, false, true);
    }
  }
}
