/** Who can take a name out of the table, and what a removal leaves behind. */
module RegistryRemoval {
  import opened Prelude
  import opened RegistrySpec
  import opened RegistryInvariant
  import opened RegistryTheorems

  /** A session that ends its tunnels for good when it closes. */
  ghost predicate Final<T, S>(st: State<T, S>, grace: int, s: S) {
    s in st.sessions && (st.sessions[s].saidBye || grace <= 0)
  }

  // ----- owner-side removal leaves nothing armed -----

  lemma DetachedGone<T, S>(st: State<T, S>, grace: int, s: S, t: T, now: int)
    requires Sound(st, grace) && t in st.tunnels && Final(st, grace, s) && st.tunnels[t].session == Some(s)
    ensures Inert(OwnerClosed(st, grace, s, t, now), t)
  {
    var x := st.tunnels[t];
    var d := WithTunnel(st, t, x.(session := None));
    assert OwnerClosed(st, grace, s, t, now) == Remove(d, x.id);
    DetachedSound(st, grace, t);
    if x.id in d.names { RemoveFields(d, x.id); }
    hide Remove;
    assert t in st.names.Values ==> st.names[x.id] == t;
  }

  /** What a close callback does to the tunnels: at most one is detached. */
  lemma OwnerServes<T, S>(st: State<T, S>, grace: int, s: S, t: T, now: int, u: T)
    requires Wf(st) && t in st.tunnels && s in st.sessions && u in st.tunnels
    ensures var r := OwnerClosed(st, grace, s, t, now);
      && r.tunnels[u].id == st.tunnels[u].id
      && r.tunnels[u].session == if u == t && st.tunnels[t].session == Some(s) then None else st.tunnels[u].session
  {
    var x := st.tunnels[t];
    if x.session == Some(s) {
      var d := WithTunnel(st, t, x.(session := None));
      if x.id in d.names { RemoveFields(d, x.id); }
      hide Remove;
    }
  }

  /** Another callback of the same session leaves t served. */
  lemma OtherHandler<T, S>(st: State<T, S>, grace: int, s: S, h: Handler<T>, now: int, t: T)
    requires Sound(st, grace) && t in st.tunnels && s in st.sessions && h.tunnel in st.tunnels && h != Owns(t)
    ensures Handle(st, grace, s, h, now).tunnels[t].session == st.tunnels[t].session
  {
    if h.Owns? { OwnerServes(st, grace, s, h.tunnel, now, t); }
    hide OwnerClosed;
  }

  /** When the last owner of a tunnel closes after a bye, or without a grace period, the
      tunnel is gone and nothing is left that could act for it. */
  lemma {:induction false} EmitGone<T, S>(st: State<T, S>, grace: int, s: S, now: int, t: T)
    requires Sound(st, grace) && t in st.tunnels && Final(st, grace, s) && st.tunnels[t].session == Some(s)
    ensures Inert(EmitClose(st, grace, s, now), t)
    decreases |st.sessions[s].onClose|
  {
    assert Held(st, t);
    FirstKnown(st, s);
    var hs := st.sessions[s].onClose;
    var h := hs[0];
    HandleKeeps(st, grace, s, h, now);
    HandledSound(st, grace, s, h, now);
    var handled := Handle(st, grace, s, h, now);
    var r := PopHandler(handled, s);
    PopSound(handled, grace, s);
    if h == Owns(t) {
      DetachedGone(st, grace, s, t, now);
      hide Handle;
      hide Sound;
      assert Inert(r, t);
      EmitInert(r, grace, s, now, t);
    } else {
      OtherHandler(st, grace, s, h, now, t);
      hide Handle;
      hide Sound;
      assert r.tunnels[t].session == Some(s);
      EmitGone(r, grace, s, now, t);
    }
  }

  lemma OwnerCloseLeavesNothing<T(!new), S(!new)>(st: State<T, S>, grace: int, s: S, now: int, t: T)
    requires Inv(st, grace) && t in st.tunnels && Final(st, grace, s) && st.tunnels[t].session == Some(s)
    ensures Inert(Step(st, grace, Closed(s, now)), t)
  {
    assert Held(st, t);
    var r := st.(sessions := st.sessions[s := st.sessions[s].(closed := true)]);
    assert Wf(r);
    SessionChange(st, grace, r);
    EmitGone(r, grace, s, now, t);
  }

  /** The same when its grace timer fires. */
  lemma ExpiryLeavesNothing<T(!new), S(!new)>(st: State<T, S>, grace: int, k: nat)
    requires Inv(st, grace) && k in st.timers
    ensures Inert(Step(st, grace, Expired(k)), st.timers[k].tunnel)
  {
    var t := st.timers[k].tunnel;
    var n := st.tunnels[t].id;
    var r := st.(timers := st.timers - {k});
    if n in r.names { RemoveFields(r, n); }
    hide Remove;
    assert t in st.names.Values ==> st.names[n] == t;
  }

  // ----- every removal has a cause -----

  /** u is what makes event e remove the name n. */
  ghost predicate Causes<T, S>(st: State<T, S>, grace: int, e: Event<T, S>, n: Name, u: T) {
    && u in st.tunnels && st.tunnels[u].id == n
    && ((e.Expired? && e.k in st.timers && st.timers[e.k].tunnel == u)
        || (e.Closed? && Final(st, grace, e.s) && st.tunnels[u].session == Some(e.s)))
  }

  lemma HandleCause<T, S>(st: State<T, S>, grace: int, s: S, h: Handler<T>, now: int, n: Name)
    requires Wf(st) && h.tunnel in st.tunnels && s in st.sessions
    requires n in st.names && n !in Handle(st, grace, s, h, now).names
    ensures h.Owns? && Causes(st, grace, Closed(s, now), n, h.tunnel)
  {
    if h.Owns? && st.tunnels[h.tunnel].session == Some(s) {
      var x := st.tunnels[h.tunnel];
      var d := WithTunnel(st, h.tunnel, x.(session := None));
      if x.id in d.names { RemoveFields(d, x.id); }
    }
  }

  /** Handling a callback makes no session serve a tunnel it did not serve before. */
  lemma HandleServes<T, S>(st: State<T, S>, grace: int, s: S, h: Handler<T>, now: int, u: T)
    requires Wf(st) && h.tunnel in st.tunnels && s in st.sessions && u in st.tunnels
    ensures var r := Handle(st, grace, s, h, now);
      && (r.tunnels[u].session == st.tunnels[u].session || r.tunnels[u].session == None)
      && r.tunnels[u].id == st.tunnels[u].id
  {
    if h.Owns? { OwnerServes(st, grace, s, h.tunnel, now, u); }
    hide OwnerClosed;
  }

  lemma {:induction false} EmitCause<T, S>(st: State<T, S>, grace: int, s: S, now: int, n: Name) returns (u: T)
    requires Wf(st) && s in st.sessions && n in st.names && n !in EmitClose(st, grace, s, now).names
    ensures Causes(st, grace, Closed(s, now), n, u)
    decreases |st.sessions[s].onClose|
  {
    FirstKnown(st, s);
    var h := st.sessions[s].onClose[0];
    HandleKeeps(st, grace, s, h, now);
    var handled := Handle(st, grace, s, h, now);
    if n !in handled.names {
      HandleCause(st, grace, s, h, now, n);
      u := h.tunnel;
    } else {
      hide Handle;
      u := EmitCause(PopHandler(handled, s), grace, s, now, n);
      HandleServes(st, grace, s, h, now, u);
    }
  }

  /** Callbacks only take names away, and only for a cause. */
  lemma HandleShrinks<T, S>(st: State<T, S>, grace: int, s: S, h: Handler<T>, now: int)
    requires Wf(st) && h.tunnel in st.tunnels && s in st.sessions
    ensures var r := Handle(st, grace, s, h, now); forall n :: n in r.names ==> n in st.names && r.names[n] == st.names[n]
  {
  }

  lemma {:induction false} NamesShrink<T, S>(st: State<T, S>, grace: int, s: S, now: int)
    requires Wf(st) && s in st.sessions
    ensures var r := EmitClose(st, grace, s, now); forall n :: n in r.names ==> n in st.names && r.names[n] == st.names[n]
    decreases |st.sessions[s].onClose|
  {
    if st.sessions[s].onClose != [] {
      FirstKnown(st, s);
      var h := st.sessions[s].onClose[0];
      HandleKeeps(st, grace, s, h, now);
      HandleShrinks(st, grace, s, h, now);
      hide Handle;
      NamesShrink(PopHandler(Handle(st, grace, s, h, now), s), grace, s, now);
    }
  }

  lemma OwnerTakesName<T, S>(st: State<T, S>, grace: int, s: S, t: T, now: int)
    requires Wf(st) && t in st.tunnels && Final(st, grace, s) && st.tunnels[t].session == Some(s)
    ensures st.tunnels[t].id !in OwnerClosed(st, grace, s, t, now).names
  {
    var d := WithTunnel(st, t, st.tunnels[t].(session := None));
    if st.tunnels[t].id in d.names { RemoveFields(d, st.tunnels[t].id); }
  }

  lemma {:induction false} EmitTakesName<T, S>(st: State<T, S>, grace: int, s: S, now: int, t: T)
    requires Sound(st, grace) && t in st.tunnels && Final(st, grace, s) && st.tunnels[t].session == Some(s)
    ensures st.tunnels[t].id !in EmitClose(st, grace, s, now).names
    decreases |st.sessions[s].onClose|
  {
    assert Held(st, t);
    FirstKnown(st, s);
    var h := st.sessions[s].onClose[0];
    HandleKeeps(st, grace, s, h, now);
    HandledSound(st, grace, s, h, now);
    var handled := Handle(st, grace, s, h, now);
    var r := PopHandler(handled, s);
    PopSound(handled, grace, s);
    if h == Owns(t) {
      OwnerTakesName(st, grace, s, t, now);
      hide Handle;
      NamesShrink(r, grace, s, now);
    } else {
      OtherHandler(st, grace, s, h, now, t);
      HandleServes(st, grace, s, h, now, t);
      hide Handle;
      hide Sound;
      assert r.tunnels[t].session == Some(s);
      EmitTakesName(r, grace, s, now, t);
    }
  }

  /** A session that closes for good takes the name of every tunnel it still serves,
      whoever has that name by now. */
  lemma CloseTakesName<T(!new), S(!new)>(st: State<T, S>, grace: int, s: S, now: int, t: T)
    requires Inv(st, grace) && t in st.tunnels && Final(st, grace, s) && st.tunnels[t].session == Some(s)
    ensures st.tunnels[t].id !in Step(st, grace, Closed(s, now)).names
  {
    assert Held(st, t);
    var r := st.(sessions := st.sessions[s := st.sessions[s].(closed := true)]);
    assert Wf(r);
    SessionChange(st, grace, r);
    hide Sound;
    EmitTakesName(r, grace, s, now, t);
  }

  /** So does a timer, whatever tunnel it was armed for. */
  lemma ExpiryTakesName<T(!new), S(!new)>(st: State<T, S>, grace: int, k: nat)
    requires Wf(st) && k in st.timers
    ensures var n := st.tunnels[st.timers[k].tunnel].id; Step(st, grace, Expired(k)).names == st.names - {n}
  {
    var n := st.tunnels[st.timers[k].tunnel].id;
    if n in st.names { RemoveFields(st.(timers := st.timers - {k}), n); }
    hide Remove;
  }

  /** A name leaves the table if and only if it is removed explicitly, a timer armed for a
      tunnel of that name fires, or a session that serves a tunnel of that name closes for
      good; an inert tunnel is never the cause. */
  lemma RemovalHasCause<T(!new), S(!new)>(st: State<T, S>, grace: int, e: Event<T, S>, n: Name)
    requires Inv(st, grace) && Enabled(st, e) && n in st.names
    ensures n !in Step(st, grace, e).names <==> e == Removed(n) || exists u :: Causes(st, grace, e, n, u)
    ensures forall u :: Causes(st, grace, e, n, u) ==> !Inert(st, u)
  {
    if n !in Step(st, grace, e).names && e != Removed(n) { var u := CauseOf(st, grace, e, n); }
    if e == Removed(n) { RemoveFields(st, n); }
    hide Remove;
    hide Step;
    forall u | Causes(st, grace, e, n, u) ensures n !in Step(st, grace, e).names {
      if e.Expired? { ExpiryTakesName(st, grace, e.k); } else { CloseTakesName(st, grace, e.s, e.now, u); }
    }
  }

  lemma CauseOf<T(!new), S(!new)>(st: State<T, S>, grace: int, e: Event<T, S>, n: Name) returns (u: T)
    requires Wf(st) && Enabled(st, e) && n in st.names && n !in Step(st, grace, e).names && e != Removed(n)
    ensures Causes(st, grace, e, n, u) && (e.Closed? ==> e.s in st.sessions && !st.sessions[e.s].closed)
  {
    hide EmitClose;
    if e.Closed? {
      var r := st.(sessions := st.sessions[e.s := st.sessions[e.s].(closed := true)]);
      assert Wf(r);
      u := EmitCause(r, grace, e.s, e.now, n);
    } else if e.Expired? {
      ExpiryTakesName(st, grace, e.k);
      hide Remove;
      u := st.timers[e.k].tunnel;
    } else {
      NameStays(st, grace, e, n);
      assert false;
    }
  }

  lemma NameStays<T(!new), S(!new)>(st: State<T, S>, grace: int, e: Event<T, S>, n: Name)
    requires Wf(st) && Enabled(st, e) && n in st.names && !e.Closed? && !e.Expired? && e != Removed(n)
    ensures n in Step(st, grace, e).names && Step(st, grace, e).names[n] == st.names[n]
  {
    if e.Removed? {
      if e.n in st.names { RemoveFields(st, e.n); }
    } else if e.Registered? {
      AttachFields(Made(st, e.t, e.n), e.t, e.s);
    } else if e.Resumed? {
      AttachFields(st, e.t, e.s);
    }
    hide Remove;
    hide Attach;
  }

  // ----- a removal behind the owner's back -----

  /** Everything outside the table is inert. */
  ghost predicate NoStale<T, S>(st: State<T, S>) {
    forall t :: t in st.tunnels && t !in st.names.Values ==> Inert(st, t)
  }

  lemma OtherNamed<T>(names: map<Name, T>, n: Name, t: T)
    requires n in names ==> names[n] != t
    ensures t in (names - {n}).Values <==> t in names.Values
  {
    if t in names.Values {
      var m :| m in names && names[m] == t;
      assert m in names - {n} && (names - {n})[m] == t;
    }
  }

  /** Removing a name leaves nothing stale exactly when its tunnel was offline. */
  lemma RemoveStale<T, S>(st: State<T, S>, grace: int, n: Name)
    requires Sound(st, grace) && NoStale(st)
    ensures NoStale(Remove(st, n)) <==> n in st.names ==> st.tunnels[st.names[n]].session == None
  {
    if n in st.names {
      var gone := st.names[n];
      RemoveFields(st, n);
      hide Remove;
      var r := Remove(st, n);
      assert gone in r.tunnels && gone !in r.names.Values;
      forall t | t in r.tunnels && t !in r.names.Values && t != gone ensures Inert(r, t) {
        OtherNamed(st.names, n, t);
        assert Inert(st, t);
      }
      if st.tunnels[gone].session == None { assert Reserved(st, gone) && Inert(r, gone); }
    }
  }

  lemma OwnerClosedStale<T, S>(st: State<T, S>, grace: int, s: S, t: T, now: int)
    requires Sound(st, grace) && NoStale(st) && t in st.tunnels && s in st.sessions
    ensures NoStale(OwnerClosed(st, grace, s, t, now))
  {
    var x := st.tunnels[t];
    var r := OwnerClosed(st, grace, s, t, now);
    if x.session == Some(s) {
      assert !Inert(st, t);
      assert t in st.names.Values && st.names[x.id] == t;
      if Final(st, grace, s) {
        DetachedGone(st, grace, s, t, now);
        RemoveFields(WithTunnel(st, t, x.(session := None)), x.id);
      }
      forall u | u in r.tunnels && u !in r.names.Values ensures Inert(r, u) {
        if u != t {
          OtherNamed(st.names, x.id, u);
          assert Inert(st, u);
          OwnerClosedInert(st, grace, s, t, now, u);
        }
      }
    }
  }

  lemma {:induction false} EmitStale<T, S>(st: State<T, S>, grace: int, s: S, now: int)
    requires Sound(st, grace) && NoStale(st) && s in st.sessions
    ensures NoStale(EmitClose(st, grace, s, now))
    decreases |st.sessions[s].onClose|
  {
    if st.sessions[s].onClose != [] {
      FirstKnown(st, s);
      var h := st.sessions[s].onClose[0];
      HandleKeeps(st, grace, s, h, now);
      HandledSound(st, grace, s, h, now);
      var handled := Handle(st, grace, s, h, now);
      PopSound(handled, grace, s);
      if h.Owns? { OwnerClosedStale(st, grace, s, h.tunnel, now); }
      hide OwnerClosed;
      hide Sound;
      assert NoStale(handled);
      hide Handle;
      assert NoStale(PopHandler(handled, s));
      EmitStale(PopHandler(handled, s), grace, s, now);
    }
  }

  lemma AttachStale<T, S>(st: State<T, S>, t: T, s: S)
    requires t in st.tunnels && s in st.sessions && t in st.names.Values
    requires forall u :: u in st.tunnels && u !in st.names.Values ==> Inert(st, u)
    ensures NoStale(Attach(st, t, s))
  {
    AttachFields(st, t, s);
    hide Attach;
    var r := Attach(st, t, s);
    forall u | u in r.tunnels && u !in r.names.Values ensures Inert(r, u) { assert Inert(st, u); }
  }

  lemma ExpireStale<T, S>(st: State<T, S>, grace: int, k: nat)
    requires Inv(st, grace) && NoStale(st) && k in st.timers
    ensures NoStale(Expire(st, k))
  {
    var t := st.timers[k].tunnel;
    assert !Inert(st, t);
    var n := st.tunnels[t].id;
    assert st.names[n] == t;
    RemoveFields(st.(timers := st.timers - {k}), n);
    hide Remove;
    var r := Expire(st, k);
    forall u | u in r.tunnels && u !in r.names.Values ensures Inert(r, u) {
      if u != t {
        OtherNamed(st.names, n, u);
        assert Inert(st, u);
      }
    }
  }

  /** The one step that takes a tunnel out of the table while a session still serves it. */
  ghost predicate BehindOwner<T, S>(st: State<T, S>, e: Event<T, S>)
    requires Wf(st)
  {
    e.Removed? && e.n in st.names && st.tunnels[st.names[e.n]].session.Some?
  }

  lemma StepStale<T(!new), S(!new)>(st: State<T, S>, grace: int, e: Event<T, S>)
    requires Inv(st, grace) && NoStale(st) && Enabled(st, e)
    ensures NoStale(Step(st, grace, e)) <==> !BehindOwner(st, e)
  {
    match e
    case Removed(n) => RemoveStale(st, grace, n);
    case Closed(s, now) =>
      if !st.sessions[s].closed {
        var r := st.(sessions := st.sessions[s := st.sessions[s].(closed := true)]);
        assert Wf(r);
        SessionChange(st, grace, r);
        assert NoStale(r);
        EmitStale(r, grace, s, now);
      }
    case Expired(k) => ExpireStale(st, grace, k);
    case Registered(t, n, s) => RegisterStale(st, t, n, s);
    case Resumed(t, s) => AttachStale(st, t, s);
    case Connected(_) => SameTunnels(st, Step(st, grace, e));
    case SaidBye(_) => SameTunnels(st, Step(st, grace, e));
    case Joined(s, n) => JoinStale(st, s, n);
  }

  lemma SameTunnels<T, S>(st: State<T, S>, r: State<T, S>)
    requires NoStale(st) && r.names == st.names && r.tunnels == st.tunnels && r.timers == st.timers
    ensures NoStale(r)
  {
    forall u | u in r.tunnels && u !in r.names.Values ensures Inert(r, u) { assert Inert(st, u); }
  }

  lemma JoinStale<T, S>(st: State<T, S>, s: S, n: Name)
    requires Wf(st) && NoStale(st) && s in st.sessions && n in st.names
    ensures NoStale(Join(st, s, n))
  {
    var r := Join(st, s, n);
    forall u | u in r.tunnels && u !in r.names.Values ensures Inert(r, u) { assert Inert(st, u); }
  }

  lemma RegisterStale<T, S>(st: State<T, S>, t: T, n: Name, s: S)
    requires Wf(st) && NoStale(st) && t !in st.tunnels && n !in st.names && s in st.sessions
    ensures NoStale(Register(st, t, n, s))
  {
    var r := st.(names := st.names[n := t], tunnels := st.tunnels[t := Tunnel(n, None, None, None, {})]);
    assert r.names[n] == t;
    forall u | u in r.tunnels && u !in r.names.Values ensures Inert(r, u) {
      OtherNamed(r.names, n, u);
      assert r.names - {n} == st.names;
      assert Inert(st, u);
    }
    AttachStale(r, t, s);
  }

  /** In a run that removes nothing behind its owner's back, a session or timer takes only
      its own tunnel out of the table. */
  ghost predicate Considerate<T(!new), S(!new)>(st: State<T, S>, grace: int, es: seq<Event<T, S>>)
    requires Inv(st, grace) && Possible(st, grace, es)
    decreases |es|
  {
    es == [] || (!BehindOwner(st, es[0]) && (StepInv(st, grace, es[0]); Considerate(Step(st, grace, es[0]), grace, es[1..])))
  }

  lemma {:induction false} ConsiderateRun<T(!new), S(!new)>(st: State<T, S>, grace: int, es: seq<Event<T, S>>)
    requires Inv(st, grace) && Possible(st, grace, es) && NoStale(st) && Considerate(st, grace, es)
    ensures NoStale(Run(st, grace, es))
    decreases |es|
  {
    if es != [] {
      StepInv(st, grace, es[0]);
      StepStale(st, grace, es[0]);
      ConsiderateRun(Step(st, grace, es[0]), grace, es[1..]);
    }
  }

  /** Then what makes a name disappear is the tunnel of that name itself. */
  lemma OwnRemovalsOnly<T(!new), S(!new)>(grace: int, es: seq<Event<T, S>>, e: Event<T, S>, n: Name)
    requires Inv(Start<T, S>(), grace) && Possible(Start<T, S>(), grace, es) && Considerate(Start<T, S>(), grace, es)
    requires var st := Run(Start<T, S>(), grace, es); Enabled(st, e) && n in st.names && n !in Step(st, grace, e).names
    ensures var st := Run(Start<T, S>(), grace, es); e == Removed(n) || Causes(st, grace, e, n, st.names[n])
  {
    var st := Run(Start<T, S>(), grace, es);
    ConsiderateRun(Start<T, S>(), grace, es);
    if e != Removed(n) {
      RemovalHasCause(st, grace, e, n);
      var u :| Causes(st, grace, e, n, u);
      assert u in st.names.Values;
    }
  }
}
