/** The sessions joined to a tunnel: they are told when it goes, and leave it when they close. */
module RegistryJoiners {
  import opened Prelude
  import opened RegistrySpec
  import opened RegistryInvariant
  import opened RegistryTheorems
  import opened RegistryRemoval

  /** A joiner will leave t when it closes. */
  ghost predicate Joiner<T, S>(st: State<T, S>, t: T, s: S)
    requires t in st.tunnels
  {
    s in st.tunnels[t].joiners ==> s in st.sessions && Joins(t) in st.sessions[s].onClose
  }

  ghost predicate JoinersHeld<T(!new), S(!new)>(st: State<T, S>) {
    forall t, s :: t in st.tunnels ==> Joiner(st, t, s)
  }

  // ----- every step keeps the callbacks of joiners -----

  lemma RemoveHolds<T, S>(st: State<T, S>, n: Name, t: T, s: S)
    requires Wf(st) && t in st.tunnels && Joiner(st, t, s)
    ensures Joiner(Remove(st, n), t, s)
  {
    if n in st.names { RemoveFields(st, n); }
    hide Remove;
  }

  lemma OwnerClosedHolds<T, S>(st: State<T, S>, grace: int, who: S, u: T, now: int, t: T, s: S)
    requires Wf(st) && u in st.tunnels && who in st.sessions && t in st.tunnels && Joiner(st, t, s)
    ensures Joiner(OwnerClosed(st, grace, who, u, now), t, s)
  {
    var x := st.tunnels[u];
    if x.session == Some(who) {
      var d := WithTunnel(st, u, x.(session := None));
      assert Wf(d);
      RemoveHolds(d, x.id, t, s);
    }
    hide Remove;
  }

  lemma PopHolds<T, S>(st: State<T, S>, grace: int, who: S, now: int, t: T, s: S)
    requires Wf(st) && who in st.sessions && st.sessions[who].onClose != [] && t in st.tunnels && Joiner(st, t, s)
    requires st.sessions[who].onClose[0].tunnel in st.tunnels
    ensures var r := PopHandler(Handle(st, grace, who, st.sessions[who].onClose[0], now), who);
      t in r.tunnels && Joiner(r, t, s)
  {
    var hs := st.sessions[who].onClose;
    var h := hs[0];
    HandleKeeps(st, grace, who, h, now);
    if h.Owns? { OwnerClosedHolds(st, grace, who, h.tunnel, now, t, s); }
    hide OwnerClosed;
    assert forall other :: other != h && other in hs ==> other in hs[1..] by { assert hs == [h] + hs[1..]; }
  }

  lemma {:induction false} EmitHolds<T, S>(st: State<T, S>, grace: int, who: S, now: int, t: T, s: S)
    requires Wf(st) && who in st.sessions && t in st.tunnels && Joiner(st, t, s)
    ensures t in EmitClose(st, grace, who, now).tunnels && Joiner(EmitClose(st, grace, who, now), t, s)
    decreases |st.sessions[who].onClose|
  {
    if st.sessions[who].onClose != [] {
      FirstKnown(st, who);
      HandleKeeps(st, grace, who, st.sessions[who].onClose[0], now);
      PopHolds(st, grace, who, now, t, s);
      hide Handle;
      EmitHolds(PopHandler(Handle(st, grace, who, st.sessions[who].onClose[0], now), who), grace, who, now, t, s);
    }
  }

  lemma AttachHolds<T, S>(st: State<T, S>, u: T, who: S, t: T, s: S)
    requires u in st.tunnels && who in st.sessions && t in st.tunnels && Joiner(st, t, s)
    ensures t in Attach(st, u, who).tunnels && Joiner(Attach(st, u, who), t, s)
  {
    AttachFields(st, u, who);
    hide Attach;
  }

  lemma MadeHolds<T, S>(st: State<T, S>, u: T, n: Name, t: T, s: S)
    requires t in Made(st, u, n).tunnels && (t != u ==> Joiner(st, t, s))
    ensures Joiner(Made(st, u, n), t, s)
  {
  }

  lemma JoinHolds<T, S>(st: State<T, S>, who: S, n: Name, t: T, s: S)
    requires n in st.names && st.names[n] in st.tunnels && who in st.sessions && t in st.tunnels && Joiner(st, t, s)
    ensures Joiner(Join(st, who, n), t, s)
  {
    var u := st.names[n];
    var hs := st.sessions[who].onClose;
    assert Joins(u) in hs + [Joins(u)] && forall h :: h in hs ==> h in hs + [Joins(u)];
  }

  lemma CloseHolds<T, S>(st: State<T, S>, grace: int, who: S, now: int, t: T, s: S)
    requires Wf(st) && who in st.sessions && t in st.tunnels && Joiner(st, t, s)
    ensures t in Close(st, grace, who, now).tunnels && Joiner(Close(st, grace, who, now), t, s)
  {
    if !st.sessions[who].closed {
      var r := st.(sessions := st.sessions[who := st.sessions[who].(closed := true)]);
      assert Wf(r) && Joiner(r, t, s);
      EmitHolds(r, grace, who, now, t, s);
    }
    hide EmitClose;
  }

  lemma StepHolds<T(!new), S(!new)>(st: State<T, S>, grace: int, e: Event<T, S>, t: T, s: S)
    requires Wf(st) && Enabled(st, e) && t in Step(st, grace, e).tunnels && (t in st.tunnels ==> Joiner(st, t, s))
    ensures Joiner(Step(st, grace, e), t, s)
  {
    hide EmitClose;
    hide Remove;
    match e
    case Connected(_) =>
    case Registered(u, n, who) =>
      AttachFields(Made(st, u, n), u, who);
      MadeHolds(st, u, n, t, s);
      AttachHolds(Made(st, u, n), u, who, t, s);
      hide Attach;
    case Resumed(u, who) =>
      AttachFields(st, u, who);
      AttachHolds(st, u, who, t, s);
      hide Attach;
    case Joined(who, n) => JoinHolds(st, who, n, t, s);
    case SaidBye(_) =>
    case Closed(who, now) => TunnelsStay(st, grace, who, now); CloseHolds(st, grace, who, now, t, s);
    case Expired(k) => RemoveHolds(st.(timers := st.timers - {k}), st.tunnels[st.timers[k].tunnel].id, t, s);
    case Removed(n) => RemoveHolds(st, n, t, s);
  }

  lemma {:induction false} EmitTunnels<T, S>(st: State<T, S>, grace: int, s: S, now: int)
    requires Wf(st) && s in st.sessions
    ensures EmitClose(st, grace, s, now).tunnels.Keys == st.tunnels.Keys
    decreases |st.sessions[s].onClose|
  {
    if st.sessions[s].onClose != [] {
      FirstKnown(st, s);
      var h := st.sessions[s].onClose[0];
      HandleKeeps(st, grace, s, h, now);
      hide Handle;
      EmitTunnels(PopHandler(Handle(st, grace, s, h, now), s), grace, s, now);
    }
  }

  lemma TunnelsStay<T, S>(st: State<T, S>, grace: int, s: S, now: int)
    requires Wf(st) && s in st.sessions
    ensures Close(st, grace, s, now).tunnels.Keys == st.tunnels.Keys
  {
    if !st.sessions[s].closed {
      var r := st.(sessions := st.sessions[s := st.sessions[s].(closed := true)]);
      assert Wf(r);
      EmitTunnels(r, grace, s, now);
    }
    hide EmitClose;
  }

  lemma {:induction false} RunHolds<T(!new), S(!new)>(st: State<T, S>, grace: int, es: seq<Event<T, S>>)
    requires Inv(st, grace) && Possible(st, grace, es) && JoinersHeld(st)
    ensures JoinersHeld(Run(st, grace, es))
    decreases |es|
  {
    if es != [] {
      StepInv(st, grace, es[0]);
      var r := Step(st, grace, es[0]);
      forall t, s | t in r.tunnels ensures Joiner(r, t, s) { StepHolds(st, grace, es[0], t, s); }
      hide Step;
      RunHolds(r, grace, es[1..]);
    }
  }

  /** In every reachable state a joiner is an open session that leaves when it closes: none
      has closed. */
  lemma JoinersAreOpen<T(!new), S(!new)>(st: State<T, S>, grace: int, t: T, s: S)
    requires Reachable(st, grace) && t in st.tunnels && s in st.tunnels[t].joiners
    ensures s in st.sessions && !st.sessions[s].closed && Joins(t) in st.sessions[s].onClose
  {
    var es :| Possible(Start<T, S>(), grace, es) && Run(Start<T, S>(), grace, es) == st;
    RunHolds(Start<T, S>(), grace, es);
    assert Joiner(st, t, s);
  }

  // ----- who is told -----

  /** A removal from outside tells the session that serves the tunnel and every session that
      joined it, and nobody else. */
  lemma RemovalTells<T(!new), S(!new)>(st: State<T, S>, grace: int, n: Name)
    requires Reachable(st, grace) && n in st.names
    ensures Wf(st)
    ensures var x := st.tunnels[st.names[n]];
      && Step(st, grace, Removed(n)).told == st.told + x.joiners + (if x.session.Some? then {x.session.value} else {})
      && st.names[n] in Step(st, grace, Removed(n)).tunnels && Step(st, grace, Removed(n)).tunnels[st.names[n]].joiners == {}
  {
    var t := st.names[n];
    var x := st.tunnels[t];
    TableInvariant(st, grace, n);
    RemoveFields(st, n);
    forall s | s in x.joiners ensures s in OpenOf(st.sessions, x.joiners) { JoinersAreOpen(st, grace, t, s); }
    hide Remove;
    assert x.joiners <= OpenOf(st.sessions, x.joiners) && OpenOf(st.sessions, x.joiners) <= x.joiners;
    assert OpenOf(st.sessions, Only(x.session)) == Only(x.session);
  }

  /** Joining lists the session, so that a removal tells it. */
  lemma JoinedIsTold<T(!new), S(!new)>(st: State<T, S>, grace: int, s: S, n: Name)
    requires Inv(st, grace) && Enabled(st, Joined(s, n))
    ensures var joined := Step(st, grace, Joined(s, n)); Wf(joined) && s in Step(joined, grace, Removed(n)).told
  {
    StepInv(st, grace, Joined(s, n));
    var joined := Step(st, grace, Joined(s, n));
    assert s in joined.tunnels[joined.names[n]].joiners && !joined.sessions[s].closed;
    RemoveFields(joined, n);
    hide Remove;
  }

  /** An open session that was told to go, or is listed by a tunnel of the table. */
  ghost predicate Waits<T, S>(st: State<T, S>, t: T, s: S) {
    && t in st.tunnels && s in st.sessions && !st.sessions[s].closed
    && (s in st.told || (s in st.tunnels[t].joiners && t in st.names.Values))
  }

  lemma RemoveWaits<T, S>(st: State<T, S>, n: Name, t: T, s: S)
    requires Wf(st) && Waits(st, t, s)
    ensures Waits(Remove(st, n), t, s)
  {
    if n in st.names {
      RemoveFields(st, n);
      if st.names[n] != t { OtherNamed(st.names, n, t); }
    }
    hide Remove;
  }

  lemma OwnerClosedWaits<T, S>(st: State<T, S>, grace: int, who: S, u: T, now: int, t: T, s: S)
    requires Wf(st) && u in st.tunnels && who in st.sessions && Waits(st, t, s)
    ensures Waits(OwnerClosed(st, grace, who, u, now), t, s)
  {
    var x := st.tunnels[u];
    if x.session == Some(who) {
      var d := WithTunnel(st, u, x.(session := None));
      assert Wf(d);
      RemoveWaits(d, x.id, t, s);
    }
    hide Remove;
  }

  lemma HandleWaits<T, S>(st: State<T, S>, grace: int, who: S, h: Handler<T>, now: int, t: T, s: S)
    requires Wf(st) && h.tunnel in st.tunnels && who in st.sessions && who != s && Waits(st, t, s)
    ensures Waits(Handle(st, grace, who, h, now), t, s)
  {
    if h.Owns? { OwnerClosedWaits(st, grace, who, h.tunnel, now, t, s); }
    hide OwnerClosed;
  }

  lemma {:induction false} EmitWaits<T, S>(st: State<T, S>, grace: int, who: S, now: int, t: T, s: S)
    requires Wf(st) && who in st.sessions && who != s && Waits(st, t, s)
    ensures Waits(EmitClose(st, grace, who, now), t, s)
    decreases |st.sessions[who].onClose|
  {
    if st.sessions[who].onClose != [] {
      FirstKnown(st, who);
      var h := st.sessions[who].onClose[0];
      HandleKeeps(st, grace, who, h, now);
      HandleWaits(st, grace, who, h, now, t, s);
      hide Handle;
      EmitWaits(PopHandler(Handle(st, grace, who, h, now), who), grace, who, now, t, s);
    }
  }

  lemma CloseWaits<T, S>(st: State<T, S>, grace: int, who: S, now: int, t: T, s: S)
    requires Wf(st) && who in st.sessions && who != s && Waits(st, t, s)
    ensures Waits(Close(st, grace, who, now), t, s)
  {
    if !st.sessions[who].closed {
      var r := st.(sessions := st.sessions[who := st.sessions[who].(closed := true)]);
      assert Wf(r) && Waits(r, t, s);
      EmitWaits(r, grace, who, now, t, s);
    }
    hide EmitClose;
  }

  lemma AttachWaits<T, S>(st: State<T, S>, u: T, who: S, t: T, s: S)
    requires u in st.tunnels && who in st.sessions && Waits(st, t, s)
    ensures Waits(Attach(st, u, who), t, s)
  {
    AttachFields(st, u, who);
    assert st.told <= Attach(st, u, who).told;
    hide Attach;
  }

  lemma MadeWaits<T, S>(st: State<T, S>, u: T, n: Name, t: T, s: S)
    requires u !in st.tunnels && n !in st.names && Waits(st, t, s)
    ensures Waits(Made(st, u, n), t, s)
  {
    if t in st.names.Values {
      var m :| m in st.names && st.names[m] == t;
      assert Made(st, u, n).names[m] == t;
    }
  }

  lemma StepWaits<T(!new), S(!new)>(st: State<T, S>, grace: int, e: Event<T, S>, t: T, s: S)
    requires Wf(st) && Enabled(st, e) && Waits(st, t, s) && (e.Closed? ==> e.s != s)
    ensures Waits(Step(st, grace, e), t, s)
  {
    hide EmitClose;
    hide Remove;
    match e
    case Connected(_) =>
    case Registered(u, n, who) =>
      MadeWaits(st, u, n, t, s);
      AttachWaits(Made(st, u, n), u, who, t, s);
      hide Attach;
    case Resumed(u, who) =>
      AttachWaits(st, u, who, t, s);
      hide Attach;
    case Joined(who, n) =>
    case SaidBye(_) =>
    case Closed(who, now) => CloseWaits(st, grace, who, now, t, s);
    case Expired(k) => RemoveWaits(st.(timers := st.timers - {k}), st.tunnels[st.timers[k].tunnel].id, t, s);
    case Removed(n) => RemoveWaits(st, n, t, s);
  }

  /** Over every run: a session that joined and has not closed is still listed by its tunnel,
      which is still in the table, or was told that it is gone. */
  lemma {:induction false} JoinerNeverForgotten<T(!new), S(!new)>(st: State<T, S>, grace: int, es: seq<Event<T, S>>, t: T, s: S)
    requires Inv(st, grace) && Possible(st, grace, es) && Waits(st, t, s)
    requires forall i :: 0 <= i < |es| && es[i].Closed? ==> es[i].s != s
    ensures Waits(Run(st, grace, es), t, s)
    decreases |es|
  {
    if es != [] {
      StepInv(st, grace, es[0]);
      StepWaits(st, grace, es[0], t, s);
      assert forall i :: 0 <= i < |es[1..]| ==> es[1..][i] == es[i + 1];
      hide Step;
      JoinerNeverForgotten(Step(st, grace, es[0]), grace, es[1..], t, s);
    }
  }

  /** It waits from the moment it joined. */
  lemma JoinedWaits<T(!new), S(!new)>(st: State<T, S>, grace: int, s: S, n: Name)
    requires Inv(st, grace) && Enabled(st, Joined(s, n))
    ensures Wf(st) && Waits(Step(st, grace, Joined(s, n)), st.names[n], s)
  {
    var r := Step(st, grace, Joined(s, n));
    assert r.names[n] == st.names[n];
  }

  // ----- saying goodbye -----

  /** A session that says bye and closes leaves nothing of the tunnels it serves: no name, no
      timer, no grace period. */
  lemma ByeThenClose<T(!new), S(!new)>(st: State<T, S>, grace: int, s: S, now: int, t: T)
    requires Inv(st, grace) && t in st.tunnels && st.tunnels[t].session == Some(s) && s in st.sessions
    ensures var bye := Step(st, grace, SaidBye(s));
      && Inv(bye, grace) && Inert(Step(bye, grace, Closed(s, now)), t)
      && st.tunnels[t].id !in Step(bye, grace, Closed(s, now)).names
  {
    StepInv(st, grace, SaidBye(s));
    var bye := Step(st, grace, SaidBye(s));
    OwnerCloseLeavesNothing(bye, grace, s, now, t);
    CloseTakesName(bye, grace, s, now, t);
  }
}
