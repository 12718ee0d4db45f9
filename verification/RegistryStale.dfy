/** Where the registry's promises end: tunnels removed while a session serves them, and
    sessions attached after they closed. */
module RegistryStale {
  import opened Prelude
  import opened RegistrySpec
  import opened RegistryInvariant
  import opened RegistryTheorems
  import opened RegistryRemoval

  // ----- the close of a stale owner, with a grace period -----

  /** A timer is armed for t, to go off at `due`. */
  ghost predicate Armed<T, S>(st: State<T, S>, t: T, due: int) {
    exists k :: k in st.timers && st.timers[k] == Timer(t, due)
  }

  /** A session that closes without a bye while there is a grace period. */
  ghost predicate Pausing<T, S>(st: State<T, S>, grace: int, s: S) {
    grace > 0 && s in st.sessions && !st.sessions[s].saidBye
  }

  lemma PauseHandled<T, S>(st: State<T, S>, grace: int, s: S, h: Handler<T>, now: int)
    requires Wf(st) && Pausing(st, grace, s) && h.tunnel in st.tunnels
    ensures var r := Handle(st, grace, s, h, now);
      && r.names == st.names && st.timers.Keys <= r.timers.Keys && (forall k :: k in st.timers ==> r.timers[k] == st.timers[k])
      && (h.Owns? && st.tunnels[h.tunnel].session == Some(s) ==> Armed(r, h.tunnel, now + grace * 1000))
  {
    var r := Handle(st, grace, s, h, now);
    if h.Owns? && st.tunnels[h.tunnel].session == Some(s) {
      assert st.nextTimer in r.timers && r.timers[st.nextTimer] == Timer(h.tunnel, now + grace * 1000);
    }
  }

  /** Its callbacks keep every name and every timer, and arm one for each tunnel it serves. */
  lemma {:induction false} EmitArms<T, S>(st: State<T, S>, grace: int, s: S, now: int)
    requires Sound(st, grace) && Pausing(st, grace, s)
    ensures var r := EmitClose(st, grace, s, now);
      && r.names == st.names && (forall k :: k in st.timers ==> k in r.timers && r.timers[k] == st.timers[k])
      && (forall t :: t in st.tunnels && st.tunnels[t].session == Some(s) ==> Armed(r, t, now + grace * 1000))
    decreases |st.sessions[s].onClose|
  {
    if st.sessions[s].onClose == [] {
      forall t | t in st.tunnels ensures st.tunnels[t].session != Some(s) { assert Held(st, t); }
    } else {
      FirstKnown(st, s);
      var h := st.sessions[s].onClose[0];
      HandleKeeps(st, grace, s, h, now);
      HandledSound(st, grace, s, h, now);
      PauseHandled(st, grace, s, h, now);
      var handled := Handle(st, grace, s, h, now);
      var r := PopHandler(handled, s);
      PopSound(handled, grace, s);
      forall t | t in st.tunnels && st.tunnels[t].session == Some(s) && h != Owns(t) ensures handled.tunnels[t].session == Some(s) {
        OtherHandler(st, grace, s, h, now, t);
      }
      hide Handle;
      hide Sound;
      EmitArms(r, grace, s, now);
    }
  }

  /** With a grace period the close of a tunnel's session takes no name but arms a timer for
      that tunnel, in the table or not; by ExpiryTakesName it will take the tunnel's name,
      whoever has it then. */
  lemma CloseArms<T(!new), S(!new)>(st: State<T, S>, grace: int, s: S, now: int, t: T)
    requires Inv(st, grace) && Pausing(st, grace, s) && t in st.tunnels && st.tunnels[t].session == Some(s)
    ensures var r := Step(st, grace, Closed(s, now)); r.names == st.names && Armed(r, t, now + grace * 1000)
  {
    assert Held(st, t);
    var r := st.(sessions := st.sessions[s := st.sessions[s].(closed := true)]);
    assert Wf(r);
    SessionChange(st, grace, r);
    hide Sound;
    EmitArms(r, grace, s, now);
    hide EmitClose;
    hide Armed;
  }

  // ----- a run that leads there -----
  // Tunnel 10 is removed while session 1 serves it, and its name is registered again by
  // session 2 for tunnel 11.

  function Fresh(): Session<nat> {
    Session(false, false, [])
  }

  function Serving(n: Name, s: nat): Tunnel<nat> {
    Tunnel(n, Some(s), None, None, {})
  }

  function Serves(t: nat): Session<nat> {
    Session(false, false, [Owns(t)])
  }

  lemma Connects(st: State<nat, nat>, grace: int, s: nat)
    requires Inv(st, grace) && s !in st.sessions
    ensures Enabled(st, Connected(s)) && Step(st, grace, Connected(s)) == st.(sessions := st.sessions[s := Fresh()])
  {
  }

  lemma Registers(st: State<nat, nat>, grace: int, t: nat, n: Name, s: nat)
    requires Inv(st, grace) && t !in st.tunnels && n !in st.names && s in st.sessions && st.sessions[s] == Fresh()
    ensures Enabled(st, Registered(t, n, s))
    ensures var r := Step(st, grace, Registered(t, n, s));
      && r.names == st.names[n := t] && r.tunnels == st.tunnels[t := Serving(n, s)]
      && r.sessions == st.sessions[s := Serves(t)] && r.told == st.told && r.timers == st.timers && r.nextTimer == st.nextTimer
  {
    AttachFields(Made(st, t, n), t, s);
    assert EndAll(Made(st, t, n), {}).told == st.told;
    assert [] + [Owns(t)] == [Owns(t)];
  }

  lemma Removes(st: State<nat, nat>, grace: int, n: Name, t: nat, s: nat)
    requires Inv(st, grace) && st.names == map[n := t] && t in st.tunnels && st.tunnels[t] == Serving(n, s)
    ensures var r := Step(st, grace, Removed(n));
      r.names == map[] && r.tunnels == st.tunnels && r.sessions == st.sessions && r.timers == st.timers && r.nextTimer == st.nextTimer
  {
    RemoveFields(st, n);
  }

  lemma RemovedWhileServed(grace: int, n: Name) returns (st: State<nat, nat>)
    ensures Reachable(st, grace) && Inv(st, grace) && Wf(st) && st.names == map[]
    ensures st.tunnels == map[10 := Serving(n, 1)] && st.sessions == map[1 := Serves(10)]
  {
    StartReachable<nat, nat>(grace);
    hide Reachable;
    st := Start<nat, nat>();
    Connects(st, grace, 1);
    ReachableStep(st, grace, Connected(1));
    st := Step(st, grace, Connected(1));
    Registers(st, grace, 10, n, 1);
    hide Inv;
    hide Step;
    ReachableStep(st, grace, Registered(10, n, 1));
    st := Step(st, grace, Registered(10, n, 1));
    Removes(st, grace, n, 10, 1);
    ReachableStep(st, grace, Removed(n));
    st := Step(st, grace, Removed(n));
  }

  lemma NameTakenAgain(grace: int, n: Name) returns (st: State<nat, nat>)
    ensures Reachable(st, grace) && Inv(st, grace) && Wf(st) && st.names == map[n := 11]
    ensures st.tunnels == map[10 := Serving(n, 1), 11 := Serving(n, 2)] && st.sessions == map[1 := Serves(10), 2 := Serves(11)]
  {
    st := RemovedWhileServed(grace, n);
    hide Reachable;
    hide Inv;
    hide Step;
    hide Wf;
    Connects(st, grace, 2);
    ReachableStep(st, grace, Connected(2));
    st := Step(st, grace, Connected(2));
    Registers(st, grace, 11, n, 2);
    ReachableStep(st, grace, Registered(11, n, 2));
    st := Step(st, grace, Registered(11, n, 2));
  }

  /** Without a grace period: a reachable state in which the close of session 1 takes the
      name of tunnel 11, although its own session is open and never said bye. */
  lemma StaleReachable(grace: int, n: Name) returns (st: State<nat, nat>)
    requires grace <= 0
    ensures Inv(st, grace) && Reachable(st, grace) && st.names == map[n := 11]
    ensures 11 in st.tunnels && st.tunnels[11] == Serving(n, 2) && 2 in st.sessions && st.sessions[2] == Serves(11)
    ensures Enabled(st, Closed(1, 0)) && n !in Step(st, grace, Closed(1, 0)).names
  {
    st := NameTakenAgain(grace, n);
    hide Reachable;
    CloseTakesName(st, grace, 1, 0, 10);
  }

  /** With one: session 1 closes at `now`, and at the end of the grace period the timer armed
      for tunnel 10 takes the name of tunnel 11. */
  lemma StaleTimerReachable(grace: int, n: Name, now: int) returns (st: State<nat, nat>, k: nat)
    requires grace > 0
    ensures Inv(st, grace) && Reachable(st, grace) && st.names == map[n := 11]
    ensures 11 in st.tunnels && st.tunnels[11].id == n && st.tunnels[11].session == Some(2) && 2 in st.sessions && st.sessions[2] == Serves(11)
    ensures k in st.timers && st.timers[k] == Timer(10, now + grace * 1000)
    ensures Enabled(st, Expired(k)) && n !in Step(st, grace, Expired(k)).names
  {
    var before := NameTakenAgain(grace, n);
    hide Reachable;
    hide Inv;
    hide Step;
    hide Wf;
    k := TimerArmed(before, grace, n, now);
    ReachableStep(before, grace, Closed(1, now));
    st := Step(before, grace, Closed(1, now));
    ExpiryTakesName(st, grace, k);
  }

  /** The close of session 1 in that run. */
  lemma TimerArmed(st: State<nat, nat>, grace: int, n: Name, now: int) returns (k: nat)
    requires Inv(st, grace) && grace > 0 && st.names == map[n := 11]
    requires st.tunnels == map[10 := Serving(n, 1), 11 := Serving(n, 2)] && st.sessions == map[1 := Serves(10), 2 := Serves(11)]
    ensures var r := Step(st, grace, Closed(1, now));
      && r.names == map[n := 11] && k in r.timers && r.timers[k] == Timer(10, now + grace * 1000)
      && 10 in r.tunnels && r.tunnels[10].id == n && 11 in r.tunnels && r.tunnels[11].id == n && r.tunnels[11].session == Some(2)
      && 2 in r.sessions && r.sessions[2] == Serves(11)
  {
    hide Step;
    CloseArms(st, grace, 1, now, 10);
    CloseLeaves(st, grace, 1, now, 10);
    CloseLeaves(st, grace, 1, now, 11);
    hide Inv;
    k :| k in Step(st, grace, Closed(1, now)).timers && Step(st, grace, Closed(1, now)).timers[k] == Timer(10, now + grace * 1000);
  }

  // ----- what a close leaves alone -----

  lemma HandleLeaves<T, S>(st: State<T, S>, grace: int, s: S, h: Handler<T>, now: int, t: T)
    requires Wf(st) && h.tunnel in st.tunnels && s in st.sessions && t in st.tunnels
    ensures var x, y := st.tunnels[t], Handle(st, grace, s, h, now).tunnels[t];
      y.id == x.id && (x.session != Some(s) ==> y.session == x.session) && (y.session == Some(s) ==> x.session == Some(s))
  {
    if h.Owns? { OwnerServes(st, grace, s, h.tunnel, now, t); }
    hide OwnerClosed;
  }

  lemma {:induction false} EmitSessions<T, S>(st: State<T, S>, grace: int, s: S, now: int)
    requires Wf(st) && s in st.sessions
    ensures EmitClose(st, grace, s, now).sessions == st.sessions[s := st.sessions[s].(onClose := [])]
    decreases |st.sessions[s].onClose|
  {
    if st.sessions[s].onClose != [] {
      FirstKnown(st, s);
      var h := st.sessions[s].onClose[0];
      HandleKeeps(st, grace, s, h, now);
      hide Handle;
      hide Wf;
      var p := PopHandler(Handle(st, grace, s, h, now), s);
      assert p.sessions == st.sessions[s := st.sessions[s].(onClose := st.sessions[s].onClose[1..])];
      EmitSessions(p, grace, s, now);
    }
  }

  lemma {:induction false} EmitLeaves<T, S>(st: State<T, S>, grace: int, s: S, now: int, t: T)
    requires Wf(st) && s in st.sessions && t in st.tunnels
    ensures var r := EmitClose(st, grace, s, now);
      && t in r.tunnels && r.tunnels[t].id == st.tunnels[t].id
      && (st.tunnels[t].session != Some(s) ==> r.tunnels[t].session == st.tunnels[t].session)
    decreases |st.sessions[s].onClose|
  {
    if st.sessions[s].onClose != [] {
      FirstKnown(st, s);
      var h := st.sessions[s].onClose[0];
      HandleKeeps(st, grace, s, h, now);
      HandleLeaves(st, grace, s, h, now, t);
      hide Handle;
      hide Wf;
      EmitLeaves(PopHandler(Handle(st, grace, s, h, now), s), grace, s, now, t);
    }
  }

  /** A close keeps the names of tunnels, and leaves other sessions and what they serve alone. */
  lemma CloseLeaves<T(!new), S(!new)>(st: State<T, S>, grace: int, s: S, now: int, t: T)
    requires Wf(st) && s in st.sessions && t in st.tunnels
    ensures var r := Step(st, grace, Closed(s, now));
      && t in r.tunnels && r.tunnels[t].id == st.tunnels[t].id
      && (st.sessions[s].closed || st.tunnels[t].session != Some(s) ==> r.tunnels[t].session == st.tunnels[t].session)
      && r.sessions.Keys == st.sessions.Keys && r.sessions[s].closed
      && (forall x :: x in st.sessions && x != s ==> r.sessions[x] == st.sessions[x])
  {
    if !st.sessions[s].closed {
      var r := st.(sessions := st.sessions[s := st.sessions[s].(closed := true)]);
      assert Wf(r);
      hide EmitClose;
      EmitSessions(r, grace, s, now);
      EmitLeaves(r, grace, s, now, t);
    }
  }

  // ----- a closed session is attached -----

  /** A tunnel of the table whose session is closed and for which no timer is armed. */
  ghost predicate Stuck<T, S>(st: State<T, S>, t: T) {
    && t in st.tunnels && st.tunnels[t].id in st.names && st.names[st.tunnels[t].id] == t
    && st.tunnels[t].session.Some? && st.tunnels[t].session.value in st.sessions && st.sessions[st.tunnels[t].session.value].closed
    && forall k :: k in st.timers ==> st.timers[k].tunnel != t
  }

  /** All the registry's promises rest on sessions being open when they are attached. An
      attach keeps the invariant if and only if the session is open; with a closed one the
      tunnel is neither online nor offline, but stuck. */
  lemma AttachNeedsOpen<T(!new), S(!new)>(st: State<T, S>, grace: int, t: T, s: S)
    requires Inv(st, grace) && t in st.names.Values && s in st.sessions
    ensures Sound(Attach(st, t, s), grace)
    ensures Inv(Attach(st, t, s), grace) <==> !st.sessions[s].closed
    ensures var r := Attach(st, t, s);
      st.sessions[s].closed ==> Stuck(r, t) && Wf(r) && !Online(r, t) && !Offline(r, t)
  {
    AttachFields(st, t, s);
    TableWeaker(st, t);
    AttachLinked(st, grace, t, s);
    AttachTable(st, grace, t, s);
    if st.sessions[s].closed {
      var r := Attach(st, t, s);
      assert r.sessions[s].closed && Owns(t) in r.sessions[s].onClose;
      assert TimerOwned(st, t) && TimerOwned(r, t);
    } else {
      AttachQuiet(st, t, s);
      hide Attach;
    }
  }

  /** And stuck it stays: no step brings a callback or a timer for it. Only a resume, an
      explicit removal, or the close or timer of another tunnel of the same name ends it. */
  lemma StuckStays<T(!new), S(!new)>(st: State<T, S>, grace: int, e: Event<T, S>, t: T)
    requires Sound(st, grace) && Enabled(st, e) && Stuck(st, t) && !(e.Resumed? && e.t == t)
    ensures Sound(Step(st, grace, e), grace)
    ensures var n := st.tunnels[t].id;
      Stuck(Step(st, grace, e), t) || e == Removed(n) || exists u :: u != t && Causes(st, grace, e, n, u)
  {
    StepSound(st, grace, e);
    var r := Step(st, grace, e);
    var n := st.tunnels[t].id;
    StillServed(st, grace, e, t);
    if n !in r.names {
      if e != Removed(n) {
        var u := CauseOf(st, grace, e, n);
        OtherCause(st, grace, e, t, u);
      }
    } else {
      StillNamed(st, grace, e, n);
      NoTimer(r, grace, t);
    }
    hide Step;
    hide Sound;
    hide Causes;
  }

  lemma NoTimer<T, S>(st: State<T, S>, grace: int, t: T)
    requires Sound(st, grace) && t in st.tunnels && st.tunnels[t].session.Some?
    ensures forall k :: k in st.timers ==> st.timers[k].tunnel != t
  {
    assert forall k :: k in st.timers ==> ArmedFor(st, k);
  }

  /** A stuck tunnel is no cause itself. */
  lemma OtherCause<T, S>(st: State<T, S>, grace: int, e: Event<T, S>, t: T, u: T)
    requires Stuck(st, t) && Causes(st, grace, e, st.tunnels[t].id, u) && (e.Closed? ==> e.s in st.sessions && !st.sessions[e.s].closed)
    ensures u != t
  {
  }

  lemma StillNamed<T(!new), S(!new)>(st: State<T, S>, grace: int, e: Event<T, S>, n: Name)
    requires Wf(st) && Enabled(st, e) && n in st.names && n in Step(st, grace, e).names
    ensures Step(st, grace, e).names[n] == st.names[n]
  {
    if e.Closed? {
      if !st.sessions[e.s].closed {
        var r := st.(sessions := st.sessions[e.s := st.sessions[e.s].(closed := true)]);
        assert Wf(r);
        hide EmitClose;
        NamesShrink(r, grace, e.s, e.now);
      }
    } else if e.Expired? {
      ExpiryTakesName(st, grace, e.k);
    } else if e != Removed(n) {
      NameStays(st, grace, e, n);
    } else {
      RemoveFields(st, n);
    }
  }

  lemma StillServed<T(!new), S(!new)>(st: State<T, S>, grace: int, e: Event<T, S>, t: T)
    requires Sound(st, grace) && Enabled(st, e) && Stuck(st, t) && !(e.Resumed? && e.t == t)
    ensures var r := Step(st, grace, e); var s := st.tunnels[t].session.value;
      && t in r.tunnels && r.tunnels[t].id == st.tunnels[t].id && r.tunnels[t].session == Some(s)
      && s in r.sessions && r.sessions[s].closed
  {
    if e.Closed? {
      CloseLeaves(st, grace, e.s, e.now, t);
    } else if e.Removed? {
      if e.n in st.names { RemoveFields(st, e.n); }
    } else if e.Expired? {
      var n := st.tunnels[st.timers[e.k].tunnel].id;
      if n in st.names { RemoveFields(st.(timers := st.timers - {e.k}), n); }
    } else if e.Registered? {
      AttachFields(Made(st, e.t, e.n), e.t, e.s);
    } else if e.Resumed? {
      AttachFields(st, e.t, e.s);
    }
    hide Remove;
    hide Attach;
    hide EmitClose;
  }
}
