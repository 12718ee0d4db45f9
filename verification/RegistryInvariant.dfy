/** What every step of the registry keeps. */
module RegistryInvariant {
  import opened Prelude
  import opened RegistrySpec

  ghost predicate Attached<S>(x: Tunnel<S>) {
    x.session.Some? && x.graceTimer == None && x.graceUntil == None
  }

  /** Offline, with a timer armed for it that goes off at its deadline. */
  ghost predicate Reserved<T, S>(st: State<T, S>, t: T)
    requires t in st.tunnels
  {
    var x := st.tunnels[t];
    && x.session == None && x.graceTimer.Some? && x.graceTimer.value in st.timers
    && x.graceUntil.Some? && st.timers[x.graceTimer.value] == Timer(t, x.graceUntil.value)
  }

  /** Every tunnel of the table but t is attached or reserved. */
  ghost predicate TableBut<T, S>(st: State<T, S>, t: Option<T>)
    requires Wf(st)
  {
    forall n :: n in st.names && t != Some(st.names[n]) ==> Attached(st.tunnels[st.names[n]]) || Reserved(st, st.names[n])
  }

  /** Names, timers and callbacks point back at what points at them. */
  ghost predicate Linked<T, S>(st: State<T, S>, grace: int)
    requires Wf(st)
  {
    && (forall n :: n in st.names ==> st.tunnels[st.names[n]].id == n)
    && (forall k :: k in st.timers ==> grace > 0 && ArmedFor(st, k))
    && (forall t :: t in st.tunnels ==> TimerOwned(st, t))
    && (forall t :: t in st.tunnels ==> Held(st, t))
  }

  /** A timer is armed for a tunnel without a session that knows of it. */
  ghost predicate ArmedFor<T, S>(st: State<T, S>, k: nat)
    requires k in st.timers && st.timers[k].tunnel in st.tunnels
  {
    var x := st.tunnels[st.timers[k].tunnel];
    x.session == None && x.graceTimer == Some(k)
  }

  ghost predicate TimerOwned<T, S>(st: State<T, S>, t: T)
    requires t in st.tunnels
  {
    var k := st.tunnels[t].graceTimer;
    k.Some? ==> k.value < st.nextTimer && (k.value in st.timers ==> st.timers[k.value].tunnel == t)
  }

  /** A session that serves t will tell t when it closes. */
  ghost predicate Held<T, S>(st: State<T, S>, t: T)
    requires t in st.tunnels
  {
    var s := st.tunnels[t].session;
    s.Some? ==> s.value in st.sessions && Owns(t) in st.sessions[s.value].onClose
  }

  ghost predicate Sound<T, S>(st: State<T, S>, grace: int) {
    Wf(st) && Linked(st, grace) && TableBut(st, None)
  }

  /** No callback is left on a closed session. */
  ghost predicate Quiet<T, S>(st: State<T, S>) {
    forall s :: s in st.sessions && st.sessions[s].closed ==> st.sessions[s].onClose == []
  }

  ghost predicate Inv<T, S>(st: State<T, S>, grace: int) {
    Sound(st, grace) && Quiet(st)
  }

  // ----- removal -----

  /** Removal touches no tunnel's own links. */
  lemma RemoveOwned<T, S>(st: State<T, S>, n: Name, t: T)
    requires n in st.names && st.names[n] in st.tunnels && t in st.tunnels && TimerOwned(st, t) && Held(st, t)
    ensures var r := Remove(st, n); t in r.tunnels && TimerOwned(r, t) && Held(r, t)
  {
    RemoveFields(st, n);
    hide Remove;
  }

  lemma RemoveArmed<T, S>(st: State<T, S>, n: Name, k: nat)
    requires Wf(st) && n in st.names && k in Remove(st, n).timers && (k in st.timers ==> ArmedFor(st, k))
    ensures k in st.timers && Wf(Remove(st, n)) && ArmedFor(Remove(st, n), k)
  {
    RemoveFields(st, n);
    RemoveKeeps(st, n);
    hide Remove;
  }

  lemma RemoveLinked<T, S>(st: State<T, S>, grace: int, n: Name)
    requires Wf(st) && Linked(st, grace) && n in st.names
    ensures Wf(Remove(st, n)) && Linked(Remove(st, n), grace)
  {
    RemoveFields(st, n);
    RemoveKeeps(st, n);
    hide Remove;
    hide TimerOwned;
    hide Held;
    hide ArmedFor;
    var r := Remove(st, n);
    forall t | t in r.tunnels ensures TimerOwned(r, t) && Held(r, t) { RemoveOwned(st, n, t); }
    forall k | k in r.timers ensures grace > 0 && ArmedFor(r, k) { RemoveArmed(st, n, k); }
    hide Wf;
  }

  lemma RemoveTable<T, S>(st: State<T, S>, grace: int, n: Name)
    requires Wf(st) && Linked(st, grace) && n in st.names && TableBut(st, Some(st.names[n]))
    ensures Wf(Remove(st, n)) && TableBut(Remove(st, n), None)
  {
    RemoveFields(st, n);
    RemoveKeeps(st, n);
    hide Remove;
    hide Wf;
    var r := Remove(st, n);
    var gone := st.names[n];
    forall m | m in r.names ensures Attached(r.tunnels[r.names[m]]) || Reserved(r, r.names[m]) {
      var t := st.names[m];
      assert t != gone;
      assert TimerOwned(st, t) && TimerOwned(st, gone);
    }
  }

  /** Taking a name out of the table leaves everything else in order, whatever state the
      tunnel of that name was in. */
  lemma RemoveSound<T, S>(st: State<T, S>, grace: int, n: Name)
    requires Wf(st) && Linked(st, grace)
    requires if n in st.names then TableBut(st, Some(st.names[n])) else TableBut(st, None)
    ensures Sound(Remove(st, n), grace)
  {
    if n in st.names {
      RemoveLinked(st, grace, n);
      RemoveTable(st, grace, n);
    }
  }

  // ----- a session closes -----

  lemma GraceLinked<T, S>(st: State<T, S>, grace: int, t: T, now: int)
    requires Wf(st) && Linked(st, grace) && t in st.tunnels && st.tunnels[t].session == None
    requires grace > 0 && forall k :: k in st.timers ==> st.timers[k].tunnel != t
    ensures Wf(StartGrace(st, grace, t, now)) && Linked(StartGrace(st, grace, t, now), grace)
  {
    StartGraceKeeps(st, grace, t, now);
    hide Wf;
    var r := StartGrace(st, grace, t, now);
    forall u | u in r.tunnels ensures TimerOwned(r, u) && Held(r, u) {
      assert TimerOwned(st, u) && Held(st, u);
    }
  }

  lemma GraceTable<T, S>(st: State<T, S>, grace: int, t: T, now: int)
    requires Wf(st) && TableBut(st, Some(t)) && t in st.tunnels && st.tunnels[t].session == None && grace > 0
    requires Wf(StartGrace(st, grace, t, now))
    ensures TableBut(StartGrace(st, grace, t, now), None)
  {
    var r := StartGrace(st, grace, t, now);
    forall n | n in r.names ensures Attached(r.tunnels[r.names[n]]) || Reserved(r, r.names[n]) {
    }
  }

  lemma DetachedSound<T, S>(st: State<T, S>, grace: int, t: T)
    requires Sound(st, grace) && t in st.tunnels && st.tunnels[t].session.Some?
    ensures var d := WithTunnel(st, t, st.tunnels[t].(session := None));
      && Wf(d) && Linked(d, grace) && TableBut(d, Some(t))
      && (forall k :: k in d.timers ==> d.timers[k].tunnel != t)
  {
  }

  lemma OwnerClosedSound<T, S>(st: State<T, S>, grace: int, s: S, t: T, now: int)
    requires Sound(st, grace) && t in st.tunnels && s in st.sessions
    ensures Sound(OwnerClosed(st, grace, s, t, now), grace)
  {
    hide Remove;
    var x := st.tunnels[t];
    if x.session == Some(s) {
      var detached := WithTunnel(st, t, x.(session := None));
      DetachedSound(st, grace, t);
      if st.sessions[s].saidBye || grace <= 0 {
        DetachedRemoved(st, grace, t);
      } else {
        GraceLinked(detached, grace, t, now);
        GraceTable(detached, grace, t, now);
      }
    }
  }

  lemma DetachedRemoved<T, S>(st: State<T, S>, grace: int, t: T)
    requires Sound(st, grace) && t in st.tunnels && st.tunnels[t].session.Some?
    ensures var d := WithTunnel(st, t, st.tunnels[t].(session := None));
      Wf(d) && Sound(Remove(d, st.tunnels[t].id), grace)
  {
    hide Remove;
    DetachedSound(st, grace, t);
    var n := st.tunnels[t].id;
    var d := WithTunnel(st, t, st.tunnels[t].(session := None));
    hide Wf;
    if t !in st.names.Values || n !in st.names { assert TableBut(d, None); }
    RemoveSound(d, grace, n);
  }

  lemma JoinersIrrelevant<T, S>(st: State<T, S>, grace: int, t: T, joiners: set<S>)
    requires Sound(st, grace) && t in st.tunnels
    ensures Sound(WithTunnel(st, t, st.tunnels[t].(joiners := joiners)), grace)
  {
    var r := WithTunnel(st, t, st.tunnels[t].(joiners := joiners));
    assert Wf(r);
    hide Wf;
    forall u | u in r.tunnels ensures TimerOwned(r, u) && Held(r, u) && (Reserved(st, u) ==> Reserved(r, u)) {
      assert TimerOwned(st, u) && Held(st, u);
    }
    assert Linked(r, grace);
  }

  /** After its callback ran, the session no longer serves that tunnel. */
  lemma Released<T, S>(st: State<T, S>, grace: int, s: S, t: T, now: int)
    requires Wf(st) && t in st.tunnels && s in st.sessions
    ensures OwnerClosed(st, grace, s, t, now).tunnels[t].session != Some(s)
  {
  }

  /** A callback can go once no tunnel relies on it. */
  lemma PopSound<T, S>(st: State<T, S>, grace: int, s: S)
    requires Sound(st, grace) && s in st.sessions && st.sessions[s].onClose != []
    requires var h := st.sessions[s].onClose[0]; h.Owns? && h.tunnel in st.tunnels ==> st.tunnels[h.tunnel].session != Some(s)
    ensures Sound(PopHandler(st, s), grace)
  {
    var r := PopHandler(st, s);
    var hs := st.sessions[s].onClose;
    assert Known(hs[1..], st.tunnels.Keys);
    assert Wf(r);
    forall t | t in st.tunnels ensures Held(r, t) {
      assert Held(st, t);
      assert hs == [hs[0]] + hs[1..];
    }
    assert forall t :: t in st.tunnels ==> TimerOwned(st, t) ==> TimerOwned(r, t);
    assert Linked(r, grace);
    assert forall t :: t in st.tunnels ==> Reserved(st, t) ==> Reserved(r, t);
  }

  lemma {:induction false} EmitSound<T, S>(st: State<T, S>, grace: int, s: S, now: int)
    requires Sound(st, grace) && s in st.sessions
    ensures var r := EmitClose(st, grace, s, now);
      && Sound(r, grace) && r.sessions == st.sessions[s := st.sessions[s].(onClose := [])]
    decreases |st.sessions[s].onClose|
  {
    hide Wf;
    hide Linked;
    hide TableBut;
    if st.sessions[s].onClose != [] {
      var h := st.sessions[s].onClose[0];
      assert h.tunnel in st.tunnels by { FirstKnown(st, s); }
      HandleKeeps(st, grace, s, h, now);
      var r := Handle(st, grace, s, h, now);
      HandledSound(st, grace, s, h, now);
      PopSound(r, grace, s);
      EmitSound(PopHandler(r, s), grace, s, now);
    }
  }

  lemma FirstKnown<T, S>(st: State<T, S>, s: S)
    requires Wf(st) && s in st.sessions && st.sessions[s].onClose != []
    ensures st.sessions[s].onClose[0].tunnel in st.tunnels
  {
    assert Known(st.sessions[s].onClose, st.tunnels.Keys);
  }

  lemma HandledSound<T, S>(st: State<T, S>, grace: int, s: S, h: Handler<T>, now: int)
    requires Sound(st, grace) && s in st.sessions && h.tunnel in st.tunnels
    ensures var r := Handle(st, grace, s, h, now);
      && Sound(r, grace) && r.tunnels.Keys == st.tunnels.Keys && r.sessions == st.sessions
      && (h.Owns? ==> r.tunnels[h.tunnel].session != Some(s))
  {
    hide Wf;
    hide Linked;
    hide TableBut;
    HandleKeeps(st, grace, s, h, now);
    if h.Owns? {
      OwnerClosedSound(st, grace, s, h.tunnel, now);
      Released(st, grace, s, h.tunnel, now);
      hide OwnerClosed;
    } else {
      JoinersIrrelevant(st, grace, h.tunnel, st.tunnels[h.tunnel].joiners - {s});
    }
  }

  // ----- a session is attached -----

  lemma AttachFields<T, S>(st: State<T, S>, t: T, s: S)
    requires t in st.tunnels && s in st.sessions
    ensures var r := Attach(st, t, s); var x := st.tunnels[t]; var y := st.sessions[s];
      && r.names == st.names && r.tunnels == st.tunnels[t := x.(graceTimer := None, graceUntil := None, session := Some(s))]
      && r.sessions == st.sessions[s := y.(onClose := y.onClose + [Owns(t)])]
      && r.timers == (if x.graceTimer.None? then st.timers else st.timers - {x.graceTimer.value}) && r.nextTimer == st.nextTimer
  {
  }

  lemma AttachLinked<T, S>(st: State<T, S>, grace: int, t: T, s: S)
    requires Wf(st) && Linked(st, grace) && t in st.tunnels && s in st.sessions
    ensures Wf(Attach(st, t, s)) && Linked(Attach(st, t, s), grace)
  {
    AttachFields(st, t, s);
    hide Attach;
    var r := Attach(st, t, s);
    assert Known(r.sessions[s].onClose, r.tunnels.Keys);
    assert Wf(r);
    forall u | u in r.tunnels ensures TimerOwned(r, u) && Held(r, u) {
      assert TimerOwned(st, u) && Held(st, u);
      assert Owns(t) in r.sessions[s].onClose;
    }
  }

  lemma AttachTable<T, S>(st: State<T, S>, grace: int, t: T, s: S)
    requires Wf(st) && Linked(st, grace) && TableBut(st, Some(t)) && t in st.tunnels && s in st.sessions
    requires Wf(Attach(st, t, s))
    ensures TableBut(Attach(st, t, s), None)
  {
    AttachFields(st, t, s);
    hide Attach;
    hide Wf;
    var r := Attach(st, t, s);
    forall n | n in r.names ensures Attached(r.tunnels[r.names[n]]) || Reserved(r, r.names[n]) {
      var u := st.names[n];
      if u != t { assert TimerOwned(st, t) && TimerOwned(st, u); }
    }
  }

  // ----- every step, every run -----

  lemma JoinInv<T, S>(st: State<T, S>, grace: int, s: S, n: Name)
    requires Sound(st, grace) && Enabled(st, Joined(s, n))
    ensures Sound(Join(st, s, n), grace) && (Quiet(st) ==> Quiet(Join(st, s, n)))
  {
    var t := st.names[n];
    JoinersIrrelevant(st, grace, t, st.tunnels[t].joiners + {s});
    var joined := WithTunnel(st, t, st.tunnels[t].(joiners := st.tunnels[t].joiners + {s}));
    MoreHandlers(joined, grace, s, Joins(t));
  }

  lemma MoreHandlers<T, S>(st: State<T, S>, grace: int, s: S, h: Handler<T>)
    requires Sound(st, grace) && s in st.sessions && h.tunnel in st.tunnels
    ensures var y := st.sessions[s];
      Sound(st.(sessions := st.sessions[s := y.(onClose := y.onClose + [h])]), grace)
  {
    var y := st.sessions[s];
    var r := st.(sessions := st.sessions[s := y.(onClose := y.onClose + [h])]);
    assert Known(r.sessions[s].onClose, r.tunnels.Keys);
    assert Wf(r);
    SessionChange(st, grace, r);
  }

  /** Sessions may change as long as they keep the callbacks they have. */
  lemma SessionChange<T, S>(st: State<T, S>, grace: int, r: State<T, S>)
    requires Sound(st, grace) && Wf(r) && r == st.(sessions := r.sessions)
    requires forall s :: s in st.sessions ==> s in r.sessions && forall h :: h in st.sessions[s].onClose ==> h in r.sessions[s].onClose
    ensures Sound(r, grace)
  {
    hide Wf;
    forall u | u in r.tunnels ensures TimerOwned(r, u) && Held(r, u) && (Reserved(st, u) ==> Reserved(r, u)) {
      assert TimerOwned(st, u) && Held(st, u);
    }
    assert Linked(r, grace);
  }

  lemma CloseInv<T, S>(st: State<T, S>, grace: int, s: S, now: int)
    requires Sound(st, grace) && s in st.sessions
    ensures Sound(Close(st, grace, s, now), grace) && (Quiet(st) ==> Quiet(Close(st, grace, s, now)))
  {
    if !st.sessions[s].closed {
      var r := st.(sessions := st.sessions[s := st.sessions[s].(closed := true)]);
      assert Wf(r);
      SessionChange(st, grace, r);
      EmitSound(r, grace, s, now);
    }
  }

  lemma RegisterInv<T, S>(st: State<T, S>, grace: int, t: T, n: Name, s: S)
    requires Sound(st, grace) && Enabled(st, Registered(t, n, s))
    ensures Sound(Register(st, t, n, s), grace)
  {
    var r := Made(st, t, n);
    NewTunnel(st, grace, t, n);
    hide Wf;
    AttachLinked(r, grace, t, s);
    AttachTable(r, grace, t, s);
  }

  function Made<T, S>(st: State<T, S>, t: T, n: Name): State<T, S> {
    st.(names := st.names[n := t], tunnels := st.tunnels[t := Tunnel(n, None, None, None, {})])
  }

  lemma MadeWf<T, S>(st: State<T, S>, t: T, n: Name)
    requires Wf(st) && t !in st.tunnels
    ensures Wf(Made(st, t, n))
  {
    var r := Made(st, t, n);
    forall x | x in st.sessions ensures Known(st.sessions[x].onClose, r.tunnels.Keys) {
      assert Known(st.sessions[x].onClose, st.tunnels.Keys);
    }
  }

  lemma NewTunnel<T, S>(st: State<T, S>, grace: int, t: T, n: Name)
    requires Sound(st, grace) && t !in st.tunnels && n !in st.names
    ensures Wf(Made(st, t, n)) && Linked(Made(st, t, n), grace) && TableBut(Made(st, t, n), Some(t))
  {
    MadeWf(st, t, n);
    assert forall k :: k in st.timers ==> st.timers[k].tunnel in st.tunnels;
    assert forall m :: m in st.names ==> st.names[m] in st.tunnels;
    hide Wf;
    var r := Made(st, t, n);
    forall u | u in r.tunnels ensures TimerOwned(r, u) && Held(r, u) {
      if u != t { assert TimerOwned(st, u) && Held(st, u); }
    }
    assert Linked(r, grace);
    assert forall u :: u in st.tunnels ==> Reserved(st, u) ==> Reserved(r, u);
  }

  lemma ExpireInv<T, S>(st: State<T, S>, grace: int, k: nat)
    requires Sound(st, grace) && k in st.timers
    ensures Sound(Expire(st, k), grace) && (Quiet(st) ==> Quiet(Expire(st, k)))
  {
    hide Remove;
    var t := st.timers[k].tunnel;
    var r := st.(timers := st.timers - {k});
    assert Wf(r);
    forall u | u in r.tunnels ensures TimerOwned(r, u) && Held(r, u) && (u != t && Reserved(st, u) ==> Reserved(r, u)) {
      assert TimerOwned(st, u) && Held(st, u);
    }
    assert Linked(r, grace);
    RemoveSound(r, grace, st.tunnels[t].id);
  }

  lemma AttachQuiet<T, S>(st: State<T, S>, t: T, s: S)
    requires Quiet(st) && t in st.tunnels && s in st.sessions && !st.sessions[s].closed
    ensures Quiet(Attach(st, t, s))
  {
    AttachFields(st, t, s);
  }

  /** A session that is attached stays open, so nothing is left on a closed one. */
  lemma RegisterQuiet<T, S>(st: State<T, S>, t: T, n: Name, s: S)
    requires Quiet(st) && s in st.sessions && !st.sessions[s].closed
    ensures Quiet(Register(st, t, n, s))
  {
    AttachQuiet(Made(st, t, n), t, s);
    hide Attach;
  }

  lemma StepSound<T(!new), S(!new)>(st: State<T, S>, grace: int, e: Event<T, S>)
    requires Sound(st, grace) && Enabled(st, e)
    ensures Sound(Step(st, grace, e), grace)
  {
    hide Remove;
    hide Attach;
    hide Linked;
    hide TableBut;
    match e
    case Connected(s) => SessionChange(st, grace, Step(st, grace, e));
    case Registered(t, n, s) => RegisterInv(st, grace, t, n, s);
    case Resumed(t, s) =>
      TableWeaker(st, t);
      AttachLinked(st, grace, t, s);
      AttachTable(st, grace, t, s);
    case Joined(s, n) => JoinInv(st, grace, s, n);
    case SaidBye(s) => SessionChange(st, grace, Step(st, grace, e));
    case Closed(s, now) => CloseInv(st, grace, s, now);
    case Expired(k) => ExpireInv(st, grace, k);
    case Removed(n) =>
      if n in st.names { TableWeaker(st, st.names[n]); }
      RemoveSound(st, grace, n);
  }

  lemma StepInv<T(!new), S(!new)>(st: State<T, S>, grace: int, e: Event<T, S>)
    requires Inv(st, grace) && Enabled(st, e)
    ensures Inv(Step(st, grace, e), grace)
  {
    StepSound(st, grace, e);
    hide Remove;
    hide Attach;
    if e.Registered? { RegisterQuiet(st, e.t, e.n, e.s); }
    else if e.Resumed? { AttachQuiet(st, e.t, e.s); }
    else if e.Joined? { JoinInv(st, grace, e.s, e.n); }
    else if e.Closed? { CloseInv(st, grace, e.s, e.now); }
    else if e.Expired? { ExpireInv(st, grace, e.k); }
    hide Sound;
  }

  lemma TableWeaker<T, S>(st: State<T, S>, t: T)
    requires Wf(st) && TableBut(st, None)
    ensures TableBut(st, Some(t))
  {
  }

  function Start<T, S>(): State<T, S> {
    State(map[], map[], map[], {}, map[], 0)
  }

  ghost predicate Possible<T(!new), S(!new)>(st: State<T, S>, grace: int, es: seq<Event<T, S>>)
    requires Inv(st, grace)
    decreases |es|
  {
    es == [] || (Enabled(st, es[0]) && (StepInv(st, grace, es[0]); Possible(Step(st, grace, es[0]), grace, es[1..])))
  }

  /** The state after a whole run. */
  ghost function Run<T(!new), S(!new)>(st: State<T, S>, grace: int, es: seq<Event<T, S>>): (r: State<T, S>)
    requires Inv(st, grace) && Possible(st, grace, es)
    ensures Inv(r, grace)
    decreases |es|
  {
    if es == [] then st
    else
      StepInv(st, grace, es[0]);
      Run(Step(st, grace, es[0]), grace, es[1..])
  }
}
