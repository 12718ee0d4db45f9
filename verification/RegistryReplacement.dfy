/** Sessions that no longer serve a tunnel have no say: whatever they still do, the registry
    goes on as if they were not there. */
module RegistryReplacement {
  import opened Prelude
  import opened RegistrySpec
  import opened RegistryInvariant
  import opened RegistryTheorems

  /** None of these sessions serves a tunnel. */
  ghost predicate Idle<T, S>(st: State<T, S>, gone: set<S>) {
    forall t :: t in st.tunnels && st.tunnels[t].session.Some? ==> st.tunnels[t].session.value !in gone
  }

  function Alone<S>(x: Tunnel<S>, gone: set<S>): Tunnel<S> {
    x.(joiners := x.joiners - gone)
  }

  /** The same world without these sessions. */
  ghost function Without<T(!new), S(!new)>(st: State<T, S>, gone: set<S>): State<T, S> {
    st.(tunnels := map t | t in st.tunnels :: Alone(st.tunnels[t], gone), sessions := st.sessions - gone, told := st.told - gone)
  }

  lemma WithoutWf<T(!new), S(!new)>(st: State<T, S>, gone: set<S>)
    requires Wf(st) && Idle(st, gone)
    ensures Wf(Without(st, gone))
  {
    var w := Without(st, gone);
    forall s | s in w.sessions ensures Known(w.sessions[s].onClose, w.tunnels.Keys) {
      assert Known(st.sessions[s].onClose, st.tunnels.Keys);
      assert w.tunnels.Keys == st.tunnels.Keys;
    }
  }

  lemma WithoutInv<T(!new), S(!new)>(st: State<T, S>, grace: int, gone: set<S>)
    requires Inv(st, grace) && Idle(st, gone)
    ensures Inv(Without(st, gone), grace)
  {
    WithoutWf(st, gone);
    hide Wf;
    var w := Without(st, gone);
    forall t | t in w.tunnels ensures TimerOwned(w, t) && Held(w, t) && (Reserved(st, t) ==> Reserved(w, t)) {
      assert TimerOwned(st, t) && Held(st, t);
    }
    assert Linked(w, grace);
  }

  // ----- what others do -----

  lemma ToldWithout<T(!new), S(!new)>(st: State<T, S>, who: set<S>, gone: set<S>)
    ensures OpenOf(st.sessions, who) - gone == OpenOf(st.sessions - gone, who - gone) == OpenOf(st.sessions - gone, who)
  {
  }

  lemma RemoveWithout<T(!new), S(!new)>(st: State<T, S>, n: Name, gone: set<S>)
    requires Wf(st) && Idle(st, gone)
    ensures Wf(Without(st, gone)) && Without(Remove(st, n), gone) == Remove(Without(st, gone), n)
    ensures Idle(Remove(st, n), gone)
  {
    WithoutWf(st, gone);
    var w := Without(st, gone);
    var a, b := Without(Remove(st, n), gone), Remove(w, n);
    if n in st.names {
      var t := st.names[n];
      RemoveFields(st, n);
      RemoveFields(w, n);
      hide Remove;
      hide Wf;
      var nobody: set<S> := {};
      assert nobody - gone == nobody;
      assert a.tunnels == b.tunnels;
      ToldWithout(st, Only(st.tunnels[t].session), gone);
      ToldWithout(st, st.tunnels[t].joiners, gone);
      hide OpenOf;
      var own, joined := OpenOf(st.sessions, Only(st.tunnels[t].session)), OpenOf(st.sessions, st.tunnels[t].joiners);
      assert st.told + own + joined - gone == (st.told - gone) + (own - gone) + (joined - gone);
    }
  }

  lemma StartGraceWithout<T(!new), S(!new)>(st: State<T, S>, grace: int, t: T, now: int, gone: set<S>)
    requires Wf(st) && Idle(st, gone) && t in st.tunnels
    ensures Wf(Without(st, gone)) && Without(StartGrace(st, grace, t, now), gone) == StartGrace(Without(st, gone), grace, t, now)
    ensures Idle(StartGrace(st, grace, t, now), gone)
  {
    WithoutWf(st, gone);
    hide Remove;
    if grace <= 0 {
      RemoveWithout(st, st.tunnels[t].id, gone);
    } else {
      assert Without(StartGrace(st, grace, t, now), gone).tunnels == StartGrace(Without(st, gone), grace, t, now).tunnels;
    }
  }

  lemma DetachWithout<T(!new), S(!new)>(st: State<T, S>, t: T, gone: set<S>)
    requires Wf(st) && Idle(st, gone) && t in st.tunnels
    ensures var d := WithTunnel(st, t, st.tunnels[t].(session := None)); var w := Without(st, gone);
      Wf(d) && Idle(d, gone) && Without(d, gone) == WithTunnel(w, t, w.tunnels[t].(session := None))
  {
    var d := WithTunnel(st, t, st.tunnels[t].(session := None));
    var w := Without(st, gone);
    assert Without(d, gone).tunnels == WithTunnel(w, t, w.tunnels[t].(session := None)).tunnels;
  }

  lemma OwnerClosedWithout<T(!new), S(!new)>(st: State<T, S>, grace: int, s: S, t: T, now: int, gone: set<S>)
    requires Wf(st) && Idle(st, gone) && t in st.tunnels && s in st.sessions && s !in gone
    ensures Wf(Without(st, gone))
    ensures Without(OwnerClosed(st, grace, s, t, now), gone) == OwnerClosed(Without(st, gone), grace, s, t, now)
    ensures Idle(OwnerClosed(st, grace, s, t, now), gone)
  {
    WithoutWf(st, gone);
    hide Remove;
    hide StartGrace;
    var x := st.tunnels[t];
    if x.session == Some(s) {
      var d := WithTunnel(st, t, x.(session := None));
      DetachWithout(st, t, gone);
      RemoveWithout(d, x.id, gone);
      StartGraceWithout(d, grace, t, now, gone);
    }
  }

  lemma JoinerClosedWithout<T(!new), S(!new)>(st: State<T, S>, s: S, t: T, gone: set<S>)
    requires Wf(st) && Idle(st, gone) && t in st.tunnels
    ensures Wf(Without(st, gone)) && Without(JoinerClosed(st, s, t), gone) == JoinerClosed(Without(st, gone), s, t)
    ensures Idle(JoinerClosed(st, s, t), gone)
    ensures s in gone ==> Without(JoinerClosed(st, s, t), gone) == Without(st, gone)
  {
    WithoutWf(st, gone);
    var js := st.tunnels[t].joiners;
    assert js - {s} - gone == js - gone - {s};
    assert Without(JoinerClosed(st, s, t), gone).tunnels == JoinerClosed(Without(st, gone), s, t).tunnels;
    if s in gone {
      assert js - {s} - gone == js - gone;
      assert Without(JoinerClosed(st, s, t), gone).tunnels == Without(st, gone).tunnels;
    }
  }

  lemma HandleWithout<T(!new), S(!new)>(st: State<T, S>, grace: int, s: S, h: Handler<T>, now: int, gone: set<S>)
    requires Wf(st) && Idle(st, gone) && h.tunnel in st.tunnels && s in st.sessions && s !in gone
    ensures Wf(Without(st, gone)) && Idle(Handle(st, grace, s, h, now), gone)
    ensures Without(Handle(st, grace, s, h, now), gone) == Handle(Without(st, gone), grace, s, h, now)
  {
    hide OwnerClosed;
    hide JoinerClosed;
    match h
    case Owns(t) => OwnerClosedWithout(st, grace, s, t, now, gone);
    case Joins(t) => JoinerClosedWithout(st, s, t, gone);
  }

  lemma PopWithout<T(!new), S(!new)>(st: State<T, S>, s: S, gone: set<S>)
    requires s in st.sessions && st.sessions[s].onClose != []
    ensures s !in gone ==> Without(PopHandler(st, s), gone) == PopHandler(Without(st, gone), s)
    ensures s in gone ==> Without(PopHandler(st, s), gone) == Without(st, gone)
  {
    var p := PopHandler(st, s);
    if s in gone { assert p.sessions - gone == st.sessions - gone; }
    else { assert p.sessions - gone == (st.sessions - gone)[s := p.sessions[s]]; }
  }

  lemma {:induction false} EmitWithout<T(!new), S(!new)>(st: State<T, S>, grace: int, s: S, now: int, gone: set<S>)
    requires Wf(st) && Idle(st, gone) && s in st.sessions && s !in gone
    ensures Wf(Without(st, gone)) && Idle(EmitClose(st, grace, s, now), gone)
    ensures Without(EmitClose(st, grace, s, now), gone) == EmitClose(Without(st, gone), grace, s, now)
    decreases |st.sessions[s].onClose|
  {
    WithoutWf(st, gone);
    if st.sessions[s].onClose != [] {
      FirstKnown(st, s);
      var h := st.sessions[s].onClose[0];
      HandleKeeps(st, grace, s, h, now);
      HandleWithout(st, grace, s, h, now, gone);
      var r := Handle(st, grace, s, h, now);
      hide Handle;
      PopWithout(r, s, gone);
      EmitWithout(PopHandler(r, s), grace, s, now, gone);
    }
  }

  lemma AttachWithout<T(!new), S(!new)>(st: State<T, S>, t: T, s: S, gone: set<S>)
    requires Idle(st, gone) && t in st.tunnels && s in st.sessions && s !in gone
    ensures Without(Attach(st, t, s), gone) == Attach(Without(st, gone), t, s)
    ensures Idle(Attach(st, t, s), gone)
  {
    var w := Without(st, gone);
    AttachFields(st, t, s);
    AttachFields(w, t, s);
    var a, b := Without(Attach(st, t, s), gone), Attach(w, t, s);
    assert a.tunnels == b.tunnels;
    assert a.sessions == b.sessions;
    assert a.told == b.told;
  }

  lemma RegisterWithout<T(!new), S(!new)>(st: State<T, S>, t: T, n: Name, s: S, gone: set<S>)
    requires Idle(st, gone) && t !in st.tunnels && s in st.sessions && s !in gone
    ensures Without(Register(st, t, n, s), gone) == Register(Without(st, gone), t, n, s)
    ensures Idle(Register(st, t, n, s), gone)
  {
    hide Attach;
    var made := st.(names := st.names[n := t], tunnels := st.tunnels[t := Tunnel(n, None, None, None, {})]);
    var w := Without(st, gone);
    var nobody: set<S> := {};
    assert nobody - gone == nobody;
    assert Without(made, gone).tunnels == w.tunnels[t := Tunnel(n, None, None, None, {})];
    AttachWithout(made, t, s, gone);
  }

  lemma JoinWithout<T(!new), S(!new)>(st: State<T, S>, s: S, n: Name, gone: set<S>)
    requires Wf(st) && Idle(st, gone) && s in st.sessions && n in st.names
    ensures Idle(Join(st, s, n), gone)
    ensures s !in gone ==> Without(Join(st, s, n), gone) == Join(Without(st, gone), s, n)
    ensures s in gone ==> Without(Join(st, s, n), gone) == Without(st, gone)
  {
    var js := st.tunnels[st.names[n]].joiners;
    var a := Without(Join(st, s, n), gone);
    if s in gone {
      assert (js + {s}) - gone == js - gone;
      assert a.tunnels == Without(st, gone).tunnels;
      assert a.sessions == Without(st, gone).sessions;
    } else {
      assert (js + {s}) - gone == (js - gone) + {s};
      var b := Join(Without(st, gone), s, n);
      assert a.tunnels == b.tunnels;
      assert a.sessions == b.sessions;
    }
  }

  /** A session of the record of others changes alike in both worlds. */
  lemma SessionWithout<T(!new), S(!new)>(st: State<T, S>, s: S, y: Session<T>, gone: set<S>)
    ensures var r := st.(sessions := st.sessions[s := y]); var w := Without(st, gone);
      && (s !in gone ==> Without(r, gone) == w.(sessions := w.sessions[s := y]))
      && (s in gone ==> Without(r, gone) == w)
  {
    var r := st.(sessions := st.sessions[s := y]);
    var w := Without(st, gone);
    if s in gone { assert r.sessions - gone == w.sessions; }
    else { assert r.sessions - gone == w.sessions[s := y]; }
  }

  lemma CloseWithout<T(!new), S(!new)>(st: State<T, S>, grace: int, s: S, now: int, gone: set<S>)
    requires Wf(st) && Idle(st, gone) && s in st.sessions && s !in gone
    ensures Wf(Without(st, gone)) && Without(Close(st, grace, s, now), gone) == Close(Without(st, gone), grace, s, now)
    ensures Idle(Close(st, grace, s, now), gone)
  {
    WithoutWf(st, gone);
    if !st.sessions[s].closed {
      var y := st.sessions[s].(closed := true);
      var r := st.(sessions := st.sessions[s := y]);
      SessionWithout(st, s, y, gone);
      assert Wf(r);
      hide EmitClose;
      EmitWithout(r, grace, s, now, gone);
    }
  }

  lemma ExpireWithout<T(!new), S(!new)>(st: State<T, S>, k: nat, gone: set<S>)
    requires Wf(st) && Idle(st, gone) && k in st.timers
    ensures Wf(Without(st, gone)) && Without(Expire(st, k), gone) == Expire(Without(st, gone), k)
    ensures Idle(Expire(st, k), gone)
  {
    WithoutWf(st, gone);
    hide Remove;
    RemoveWithout(st.(timers := st.timers - {k}), st.tunnels[st.timers[k].tunnel].id, gone);
  }

  // ----- what the idle sessions do -----

  /** The session that an event comes from, if any. */
  function Actor<T, S>(e: Event<T, S>): Option<S> {
    match e
    case Connected(s) => Some(s)
    case Registered(_, _, s) => Some(s)
    case Resumed(_, s) => Some(s)
    case Joined(s, _) => Some(s)
    case SaidBye(s) => Some(s)
    case Closed(s, _) => Some(s)
    case Expired(_) => None
    case Removed(_) => None
  }

  predicate By<T, S(==)>(e: Event<T, S>, gone: set<S>) {
    Actor(e).Some? && Actor(e).value in gone
  }

  lemma {:induction false} EmitUnseen<T(!new), S(!new)>(st: State<T, S>, grace: int, s: S, now: int, gone: set<S>)
    requires Wf(st) && Idle(st, gone) && s in st.sessions && s in gone
    ensures Idle(EmitClose(st, grace, s, now), gone) && Without(EmitClose(st, grace, s, now), gone) == Without(st, gone)
    decreases |st.sessions[s].onClose|
  {
    if st.sessions[s].onClose != [] {
      FirstKnown(st, s);
      var h := st.sessions[s].onClose[0];
      HandleKeeps(st, grace, s, h, now);
      JoinerClosedWithout(st, s, h.tunnel, gone);
      var r := Handle(st, grace, s, h, now);
      assert Idle(r, gone) && Without(r, gone) == Without(st, gone);
      hide Handle;
      PopWithout(r, s, gone);
      EmitUnseen(PopHandler(r, s), grace, s, now, gone);
    }
  }

  /** Nothing an idle session does, short of registering again, shows. */
  lemma Unseen<T(!new), S(!new)>(st: State<T, S>, grace: int, e: Event<T, S>, gone: set<S>)
    requires Wf(st) && Idle(st, gone) && gone <= st.sessions.Keys && Enabled(st, e)
    requires By(e, gone) && !e.Registered? && !e.Resumed?
    ensures Idle(Step(st, grace, e), gone) && Without(Step(st, grace, e), gone) == Without(st, gone)
  {
    hide EmitClose;
    if e.Joined? {
      JoinWithout(st, e.s, e.n, gone);
    } else if e.SaidBye? {
      SessionWithout(st, e.s, st.sessions[e.s].(saidBye := true), gone);
    } else if e.Closed? && !st.sessions[e.s].closed {
      var y := st.sessions[e.s].(closed := true);
      SessionWithout(st, e.s, y, gone);
      var r := st.(sessions := st.sessions[e.s := y]);
      assert Wf(r);
      EmitUnseen(r, grace, e.s, e.now, gone);
    }
  }

  /** What anyone else does comes out the same in both worlds. */
  lemma Unaffected<T(!new), S(!new)>(st: State<T, S>, grace: int, e: Event<T, S>, gone: set<S>)
    requires Wf(st) && Idle(st, gone) && Enabled(st, e) && !By(e, gone)
    ensures Wf(Without(st, gone)) && Enabled(Without(st, gone), e)
    ensures Idle(Step(st, grace, e), gone) && Without(Step(st, grace, e), gone) == Step(Without(st, gone), grace, e)
  {
    WithoutWf(st, gone);
    hide Wf;
    hide Remove;
    hide Attach;
    hide Close;
    match e
    case Connected(s) => SessionWithout(st, s, Session(false, false, []), gone);
    case Registered(t, n, s) => RegisterWithout(st, t, n, s, gone);
    case Resumed(t, s) => AttachWithout(st, t, s, gone);
    case Joined(s, n) => JoinWithout(st, s, n, gone);
    case SaidBye(s) => SessionWithout(st, s, st.sessions[s].(saidBye := true), gone);
    case Closed(s, now) => CloseWithout(st, grace, s, now, gone);
    case Expired(k) => ExpireWithout(st, k, gone);
    case Removed(n) => RemoveWithout(st, n, gone);
  }

  // ----- whole runs -----

  function Erase<T, S>(es: seq<Event<T, S>>, gone: set<S>): seq<Event<T, S>> {
    if es == [] then [] else (if By(es[0], gone) then [] else [es[0]]) + Erase(es[1..], gone)
  }

  /** None of these sessions registers again. */
  ghost predicate StayAway<T, S>(es: seq<Event<T, S>>, gone: set<S>) {
    forall i :: 0 <= i < |es| && By(es[i], gone) ==> !es[i].Registered? && !es[i].Resumed?
  }

  lemma SessionsStay<T(!new), S(!new)>(st: State<T, S>, grace: int, e: Event<T, S>, gone: set<S>)
    requires Inv(st, grace) && Enabled(st, e) && gone <= st.sessions.Keys
    ensures gone <= Step(st, grace, e).sessions.Keys
  {
    match e
    case Closed(s, now) =>
      if !st.sessions[s].closed {
        var r := st.(sessions := st.sessions[s := st.sessions[s].(closed := true)]);
        assert Wf(r);
        SessionChange(st, grace, r);
        EmitSound(r, grace, s, now);
      }
    case Registered(t, n, s) => AttachFields(st.(names := st.names[n := t], tunnels := st.tunnels[t := Tunnel(n, None, None, None, {})]), t, s);
    case Resumed(t, s) => AttachFields(st, t, s);
    case Connected(_) =>
    case Joined(_, _) =>
    case SaidBye(_) =>
    case Expired(_) =>
    case Removed(_) =>
  }

  /** Superseded sessions are inert: erasing every event of any number of sessions that
      serve no tunnel, from any run in which they do not register again, leaves the rest
      of the registry exactly as it was with them. */
  lemma {:induction false} SupersededInert<T(!new), S(!new)>(st: State<T, S>, grace: int, es: seq<Event<T, S>>, gone: set<S>)
    requires Inv(st, grace) && Idle(st, gone) && gone <= st.sessions.Keys && Possible(st, grace, es) && StayAway(es, gone)
    ensures Inv(Without(st, gone), grace) && Possible(Without(st, gone), grace, Erase(es, gone))
    ensures Run(Without(st, gone), grace, Erase(es, gone)) == Without(Run(st, grace, es), gone)
    ensures Idle(Run(st, grace, es), gone)
    decreases |es|
  {
    WithoutInv(st, grace, gone);
    if es != [] {
      var e := es[0];
      assert Wf(st) && Wf(Without(st, gone));
      SessionsStay(st, grace, e, gone);
      StepInv(st, grace, e);
      hide Inv;
      hide Step;
      hide Enabled;
      assert StayAway(es[1..], gone);
      if By(e, gone) {
        Unseen(st, grace, e, gone);
        SupersededInert(Step(st, grace, e), grace, es[1..], gone);
        assert Erase(es, gone) == Erase(es[1..], gone);
      } else {
        Unaffected(st, grace, e, gone);
        SupersededInert(Step(st, grace, e), grace, es[1..], gone);
        var w, rest := Without(st, gone), Erase(es[1..], gone);
        StepInv(w, grace, e);
        assert Erase(es, gone)[0] == e && Erase(es, gone)[1..] == rest;
      }
    }
  }

  /** A resume that replaces the owner session makes it idle, and asks it to go. */
  lemma ReplacedIsIdle<T(!new), S(!new)>(st: State<T, S>, grace: int, t: T, s: S, former: S)
    requires Inv(st, grace) && Enabled(st, Resumed(t, s)) && st.tunnels[t].session == Some(former) && s != former
    requires forall u :: u in st.tunnels && st.tunnels[u].session == Some(former) ==> u == t
    ensures var r := Step(st, grace, Resumed(t, s)); Idle(r, {former}) && former in r.told && former in r.sessions
  {
    AttachFields(st, t, s);
    assert Held(st, t);
  }

  /** So is every session once it is closed. */
  lemma ClosedIsIdle<T, S>(st: State<T, S>, grace: int, s: S)
    requires Inv(st, grace) && s in st.sessions && st.sessions[s].closed
    ensures Idle(st, {s})
  {
    forall t | t in st.tunnels ensures st.tunnels[t].session != Some(s) { assert Held(st, t); }
  }
}
