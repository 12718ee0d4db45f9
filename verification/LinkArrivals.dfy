/** Frames reaching the server keep the invariant of their stream. */
module LinkArrivals {
  import opened Prelude
  import opened MuxTypes
  import S = ServerSpec
  import D = Direction
  import opened LinkInvariant

  function ServerHandle(v: View, f: Frame, budget: nat): View {
    if f.Open? then if v.sLive then v else v.(s := Some(S.FRESH), sLive := true)
    else if v.sLive && v.s.Some? then ServerAct(v, S.Dispatch(v.s.value, f, budget))
    else v
  }

  // ----- in order -----

  lemma OpenFlow(v: View, rest: Chan)
    requires Flow(v) && v.s.None? && v.down == EMPTY && v.loose.credits == 0 && rest.data == v.up.data && rest.close == v.up.close
    requires Held(v.c) == 0 && Got(v.c) == [] && !ClientSawClose(v.c)
    ensures Flow(v.(up := rest, s := Some(S.FRESH), sLive := true))
  {
    var w := v.(up := rest, s := Some(S.FRESH), sLive := true);
    assert v.c.Some? ==> Up(w) == Up(v);
    assert D.Ok(Down(w)) by {
      var d := Down(w);
      assert d.queued == [] && d.wire == [] && d.got == [] && d.accepted == [];
    }
  }

  lemma OpenOk(v: View, f: Frame, rest: Chan)
    requires Ok(v) && f.Open? && v.up == Before(f, rest)
    ensures v.s.None? && !v.sLive && Ok(v.(up := rest, s := Some(S.FRESH), sLive := true))
  {
    hide Flow;
    assert [] + rest.data == rest.data;
    OpenFlow(v, rest);
  }

  /** The stream is known to both ends when anything but its OPEN arrives. */
  lemma Known(v: View, f: Frame, rest: Chan)
    requires Shape(v) && !f.Open? && v.up == Before(f, rest)
    ensures v.s.Some? && v.c.Some? && !Signal(f) && (f.Close? ==> rest.data == [])
  {
    assert !Idle(v.up);
  }

  lemma DataFlow(v: View, f: Frame, rest: Chan, t: S.Stream)
    requires Flow(v) && f.Data? && v.up.data == f.payload + rest.data && v.up.close == rest.close
    requires v.s.Some? && v.c.Some? && (v.sLive <==> !v.s.value.finished)
    requires t == if v.sLive then S.OnData(v.s.value, f.payload).s else v.s.value
    ensures Flow(v.(up := rest, s := Some(t)))
  {
    var w := v.(up := rest, s := Some(t));
    var u := Up(v);
    assert u.exact && !u.taking ==> f.payload == [];
    hide D.Ok;
    D.ArriveOk(u, f.payload, rest.data);
    assert Up(w) == D.Arrive(u, f.payload, rest.data);
    assert Down(w) == Down(v);
  }

  lemma DataOk(v: View, f: Frame, rest: Chan, t: S.Stream)
    requires Ok(v) && f.Data? && v.up == Before(f, rest) && v.s.Some? && v.c.Some?
    requires t == if v.sLive then S.OnData(v.s.value, f.payload).s else v.s.value
    ensures Ok(v.(up := rest, s := Some(t)))
  {
    hide Flow;
    DataFlow(v, f, rest, t);
  }

  lemma SkipFlow(v: View, rest: Chan)
    requires Flow(v) && rest.data == v.up.data && rest.close == v.up.close
    ensures Flow(v.(up := rest))
  {
    hide D.Ok;
    var w := v.(up := rest);
    assert v.c.Some? ==> Up(w) == Up(v);
    assert v.s.Some? ==> Down(w) == Down(v);
  }

  lemma DatagramOk(v: View, f: Frame, rest: Chan)
    requires Ok(v) && f.Datagram? && v.up == Before(f, rest) && v.s.Some?
    ensures Ok(v.(up := rest))
  {
    hide Flow;
    assert [] + rest.data == rest.data;
    SkipFlow(v, rest);
  }

  lemma CloseDown(v: View, w: View)
    requires v.s.Some? && D.Ok(Down(v)) && (v.sLive <==> !v.s.value.finished) && w.s.Some?
    requires w.s.value == if v.sLive then S.OnClose(v.s.value).s else v.s.value
    requires w == v.(s := w.s, sLive := w.sLive, up := w.up)
    ensures D.Ok(Down(w))
  {
    hide D.Ok;
    var alive := !w.s.value.finished;
    D.OnlyOk(Down(v), alive, true, alive);
    assert Down(w) == D.Only(Down(v), alive, true, alive);
  }

  lemma CloseFlow(v: View, rest: Chan, t: S.Stream)
    requires Flow(v) && v.up.close && v.up.data == rest.data == []
    requires v.s.Some? && v.c.Some? && (v.sLive <==> !v.s.value.finished)
    requires t == if v.sLive then S.OnClose(v.s.value).s else v.s.value
    ensures Flow(v.(up := rest, s := Some(t), sLive := !t.finished))
  {
    hide D.Ok;
    var w := v.(up := rest, s := Some(t), sLive := !t.finished);
    var alive := !t.finished;
    CloseDown(v, w);
    var u := D.ArriveClose(Up(v), rest.close);
    D.ArriveCloseOk(Up(v), rest.close);
    D.OnlyOk(u, true, false, alive);
    assert Up(w) == D.Only(u, true, false, alive);
  }

  lemma CloseOk(v: View, f: Frame, rest: Chan, t: S.Stream)
    requires Ok(v) && f.Close? && v.up == Before(f, rest) && v.s.Some? && v.c.Some? && rest.data == []
    requires t == if v.sLive then S.OnClose(v.s.value).s else v.s.value
    ensures Ok(v.(up := rest, s := Some(t), sLive := !t.finished))
  {
    hide Flow;
    CloseFlow(v, rest, t);
  }

  lemma UpOk(v: View, f: Frame, rest: Chan, budget: nat)
    requires Ok(v) && v.up == Before(f, rest)
    ensures Ok(ServerHandle(v.(up := rest), f, budget))
  {
    if f.Open? {
      hide Ok;
      OpenOk(v, f, rest);
    } else {
      Known(v, f, rest);
      assert v.sLive <==> !v.s.value.finished;
      hide Ok;
      var s := v.s.value;
      if f.Data? {
        DataOk(v, f, rest, if v.sLive then S.OnData(s, f.payload).s else s);
      } else if f.Datagram? {
        DatagramOk(v, f, rest);
      } else {
        CloseOk(v, f, rest, if v.sLive then S.OnClose(s).s else s);
      }
    }
  }

  // ----- in any order -----

  /** `rest` is the channel of loose frames once f has been taken out of it. */
  ghost predicate Pulled(loose: Chan, f: Frame, rest: Chan) {
    && loose.credits == rest.credits + Amount(f)
    && (loose.others <==> rest.others || !Signal(f))
    && (loose.signals <==> rest.signals || Signal(f))
  }

  lemma UpdateFlow(v: View, n: nat, w: View)
    requires Flow(v) && v.s.Some? && (v.sLive <==> !v.s.value.finished) && v.loose.credits == w.loose.credits + n
    requires w == v.(loose := w.loose, s := Some(if v.sLive then v.s.value.(window := v.s.value.window + n) else v.s.value))
    ensures Flow(w)
  {
    hide D.Ok;
    assert v.c.Some? ==> Up(w) == Up(v);
    hide Up;
    D.CreditedOk(Down(v), n, v.sLive);
    assert Down(w) == D.Credited(Down(v), n, v.sLive);
  }

  lemma UpdateOk(v: View, f: Frame, w: View)
    requires Ok(v) && Pulled(v.loose, f, w.loose) && f.Update? && v.s.Some?
    requires w == v.(loose := w.loose, s := Some(if v.sLive then v.s.value.(window := v.s.value.window + f.amount) else v.s.value))
    ensures Ok(w)
  {
    hide Flow;
    UpdateFlow(v, f.amount, w);
  }

  lemma LostFlow(v: View, rest: Chan)
    requires Flow(v) && v.loose.credits == rest.credits
    ensures Flow(v.(loose := rest))
  {
    hide D.Ok;
    var w := v.(loose := rest);
    assert v.s.Some? ==> Down(w) == Down(v);
    assert v.c.Some? ==> Up(w) == Up(v);
  }

  lemma ResetLeaves(v: View, f: Frame, rest: Chan)
    requires Ok(v) && Pulled(v.loose, f, rest) && (f.Reset? || v.s.None?)
    ensures Ok(v.(loose := rest))
  {
    hide Flow;
    LostFlow(v, rest);
  }

  lemma LooseKinds(v: View, f: Frame, rest: Chan)
    requires Ok(v) && Pulled(v.loose, f, rest)
    ensures Signal(f) && (v.sLive ==> v.s.Some?)
  {
  }

  lemma LooseOk(v: View, f: Frame, rest: Chan, budget: nat)
    requires Ok(v) && Pulled(v.loose, f, rest)
    ensures Ok(ServerHandle(v.(loose := rest), f, budget))
  {
    hide Ok;
    LooseKinds(v, f, rest);
    if v.s.None? || f.Reset? {
      ResetLeaves(v, f, rest);
      if v.sLive { OnResetOk(v.(loose := rest), f.id); }
    } else {
      var s := v.s.value;
      var w := v.(loose := rest, s := Some(if v.sLive then s.(window := s.window + f.amount) else s));
      UpdateOk(v, f, w);
      if v.sLive { FlushOk(w, f.id, budget); }
    }
  }
}
