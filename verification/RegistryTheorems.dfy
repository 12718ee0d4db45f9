/** What the registry promises over whole runs. */
module RegistryTheorems {
  import opened Prelude
  import opened RegistrySpec
  import opened RegistryInvariant

  ghost predicate Reachable<T(!new), S(!new)>(st: State<T, S>, grace: int) {
    Inv(Start<T, S>(), grace) && exists es :: Possible(Start<T, S>(), grace, es) && Run(Start<T, S>(), grace, es) == st
  }

  lemma StartInv<T, S>(grace: int)
    ensures Inv(Start<T, S>(), grace)
  {
  }

  lemma StartReachable<T(!new), S(!new)>(grace: int)
    ensures Reachable(Start<T, S>(), grace) && Inv(Start<T, S>(), grace)
  {
    StartInv<T, S>(grace);
    assert Possible(Start<T, S>(), grace, []);
  }

  lemma {:induction false} RunAppend<T(!new), S(!new)>(st: State<T, S>, grace: int, es: seq<Event<T, S>>, e: Event<T, S>)
    requires Inv(st, grace) && Possible(st, grace, es) && Enabled(Run(st, grace, es), e)
    ensures Possible(st, grace, es + [e]) && Run(st, grace, es + [e]) == Step(Run(st, grace, es), grace, e)
    decreases |es|
  {
    assert Wf(st);
    hide Inv;
    hide Enabled;
    hide Step;
    if es == [] {
      StepInv(st, grace, e);
      assert (es + [e])[1..] == [] && (es + [e])[0] == e;
    } else {
      StepInv(st, grace, es[0]);
      RunAppend(Step(st, grace, es[0]), grace, es[1..], e);
      assert (es + [e])[1..] == es[1..] + [e] && (es + [e])[0] == es[0];
    }
  }

  lemma ReachableStep<T(!new), S(!new)>(st: State<T, S>, grace: int, e: Event<T, S>)
    requires Reachable(st, grace) && Enabled(st, e)
    ensures Inv(st, grace) && Reachable(Step(st, grace, e), grace) && Inv(Step(st, grace, e), grace) && Wf(Step(st, grace, e))
  {
    var es :| Possible(Start<T, S>(), grace, es) && Run(Start<T, S>(), grace, es) == st;
    StepInv(st, grace, e);
    RunAppend(Start<T, S>(), grace, es, e);
  }

  // ----- the table -----

  /** Served by an open session that will tell it when it closes; nothing armed. */
  ghost predicate Online<T, S>(st: State<T, S>, t: T)
    requires Wf(st) && t in st.tunnels
  {
    var x := st.tunnels[t];
    && x.session.Some? && !st.sessions[x.session.value].closed && Owns(t) in st.sessions[x.session.value].onClose
    && x.graceTimer == None && x.graceUntil == None && forall k :: k in st.timers ==> st.timers[k].tunnel != t
  }

  /** Without a session, with a deadline and exactly one timer, armed for that deadline. */
  ghost predicate Offline<T, S>(st: State<T, S>, t: T)
    requires Wf(st) && t in st.tunnels
  {
    && Reserved(st, t)
    && forall k :: k in st.timers ==> (st.timers[k].tunnel == t <==> st.tunnels[t].graceTimer == Some(k))
  }

  /** In every reachable state each tunnel of the table is online or offline in this
      sense; without a grace period none is offline. */
  lemma TableInvariant<T(!new), S(!new)>(st: State<T, S>, grace: int, n: Name)
    requires Reachable(st, grace) && n in st.names
    ensures Wf(st) && st.tunnels[st.names[n]].id == n
    ensures Online(st, st.names[n]) || (grace > 0 && Offline(st, st.names[n]))
  {
    var t := st.names[n];
    assert Held(st, t) && TimerOwned(st, t);
  }

  /** A session that registers a name or resumes a tunnel serves it from then on; a name that
      is registered stands for the new tunnel, and the others stay what they are. */
  lemma TakesOver<T(!new), S(!new)>(st: State<T, S>, grace: int, e: Event<T, S>)
    requires Reachable(st, grace) && Enabled(st, e) && (e.Registered? || e.Resumed?)
    ensures Wf(st)
    ensures var r := Step(st, grace, e); var t := e.t;
      && r.names == (if e.Registered? then st.names[e.n := t] else st.names)
      && Wf(r) && t in r.tunnels && r.tunnels[t].session == Some(e.s) && Online(r, t)
      && forall u :: u in st.tunnels && u != t ==> u in r.tunnels && r.tunnels[u] == st.tunnels[u]
  {
    var r := Step(st, grace, e);
    ReachableStep(st, grace, e);
    if e.Registered? { AttachFields(Made(st, e.t, e.n), e.t, e.s); } else { AttachFields(st, e.t, e.s); }
    hide Attach;
    hide Inv;
    if e.Registered? {
      TableInvariant(r, grace, e.n);
    } else {
      var n :| n in st.names && st.names[n] == e.t;
      TableInvariant(r, grace, n);
    }
  }

  /** No offline entry stays for ever: its timer is armed, and when it fires it takes
      this entry, and no other, out of the table. */
  lemma OfflineExpires<T(!new), S(!new)>(st: State<T, S>, grace: int, n: Name)
    requires Reachable(st, grace) && n in st.names && st.names[n] in st.tunnels && st.tunnels[st.names[n]].session == None
    ensures var k := st.tunnels[st.names[n]].graceTimer;
      k.Some? && Enabled(st, Expired(k.value)) && Wf(st) && Step(st, grace, Expired(k.value)).names == st.names - {n}
  {
    hide Remove;
    TableInvariant(st, grace, n);
    var k := st.tunnels[st.names[n]].graceTimer.value;
    RemoveFields(st.(timers := st.timers - {k}), n);
  }

  // ----- tunnels that are gone -----

  /** Out of the table with nothing left that could act for it. */
  ghost predicate Inert<T, S>(st: State<T, S>, t: T) {
    && t in st.tunnels && t !in st.names.Values && st.tunnels[t].session == None
    && forall k :: k in st.timers ==> st.timers[k].tunnel != t
  }

  lemma RemoveInert<T, S>(st: State<T, S>, n: Name, t: T)
    requires Wf(st) && Inert(st, t)
    ensures Inert(Remove(st, n), t)
  {
    if n in st.names {
      RemoveFields(st, n);
      hide Remove;
    }
  }

  lemma OwnerClosedInert<T, S>(st: State<T, S>, grace: int, s: S, u: T, now: int, t: T)
    requires Wf(st) && u in st.tunnels && s in st.sessions && Inert(st, t)
    ensures Inert(OwnerClosed(st, grace, s, u, now), t)
  {
    var x := st.tunnels[u];
    if x.session == Some(s) {
      hide Remove;
      var detached := WithTunnel(st, u, x.(session := None));
      assert Wf(detached) && Inert(detached, t);
      if st.sessions[s].saidBye || grace <= 0 { RemoveInert(detached, x.id, t); }
      else { assert u != t; }
    }
  }

  lemma HandleInert<T, S>(st: State<T, S>, grace: int, s: S, h: Handler<T>, now: int, t: T)
    requires Wf(st) && h.tunnel in st.tunnels && s in st.sessions && Inert(st, t)
    ensures Inert(Handle(st, grace, s, h, now), t)
  {
    if h.Owns? {
      OwnerClosedInert(st, grace, s, h.tunnel, now, t);
      hide OwnerClosed;
    }
  }

  lemma {:induction false} EmitInert<T, S>(st: State<T, S>, grace: int, s: S, now: int, t: T)
    requires Wf(st) && s in st.sessions && Inert(st, t)
    ensures Inert(EmitClose(st, grace, s, now), t)
    decreases |st.sessions[s].onClose|
  {
    if st.sessions[s].onClose != [] {
      FirstKnown(st, s);
      var h := st.sessions[s].onClose[0];
      HandleKeeps(st, grace, s, h, now);
      HandleInert(st, grace, s, h, now, t);
      hide Handle;
      EmitInert(PopHandler(Handle(st, grace, s, h, now), s), grace, s, now, t);
    }
  }

  lemma StepInert<T(!new), S(!new)>(st: State<T, S>, grace: int, e: Event<T, S>, t: T)
    requires Wf(st) && Enabled(st, e) && Inert(st, t)
    ensures Inert(Step(st, grace, e), t)
  {
    hide Remove;
    hide EmitClose;
    match e
    case Registered(u, n, s) => AttachFields(st.(names := st.names[n := u], tunnels := st.tunnels[u := Tunnel(n, None, None, None, {})]), u, s); hide Attach;
    case Resumed(u, s) => AttachFields(st, u, s); hide Attach;
    case Closed(s, now) =>
      if !st.sessions[s].closed {
        EmitInert(st.(sessions := st.sessions[s := st.sessions[s].(closed := true)]), grace, s, now, t);
      }
    case Expired(k) => RemoveInert(st.(timers := st.timers - {k}), st.tunnels[st.timers[k].tunnel].id, t);
    case Removed(n) => RemoveInert(st, n, t);
    case Connected(_) =>
    case Joined(_, _) =>
    case SaidBye(_) =>
  }

  /** Once inert, inert for ever: no later timer, callback or resume can act for it. */
  lemma {:induction false} InertForever<T(!new), S(!new)>(st: State<T, S>, grace: int, es: seq<Event<T, S>>, t: T)
    requires Inv(st, grace) && Possible(st, grace, es) && Inert(st, t)
    ensures Inert(Run(st, grace, es), t)
    decreases |es|
  {
    if es != [] {
      StepInv(st, grace, es[0]);
      StepInert(st, grace, es[0], t);
      InertForever(Step(st, grace, es[0]), grace, es[1..], t);
    }
  }
}
