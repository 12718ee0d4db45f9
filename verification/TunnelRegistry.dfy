/** The registry as the program has it, with fields that its methods and callbacks change,
    proved against the state machine. Tunnel and session objects are addressed by a number
    that stands for their identity. */
module TunnelRegistry {
  import opened Prelude
  import opened RegistrySpec
  import opened RegistryInvariant
  import opened RegistryStale

  type World = State<nat, nat>

  lemma PoppedWf(st: World, grace: int, s: nat, now: int)
    requires Wf(st) && s in st.sessions && st.sessions[s].onClose != []
    ensures var h := st.sessions[s].onClose[0];
      && h.tunnel in st.tunnels && Handle(st, grace, s, h, now).sessions == st.sessions
      && Wf(PopHandler(Handle(st, grace, s, h, now), s))
      && EmitClose(st, grace, s, now) == EmitClose(PopHandler(Handle(st, grace, s, h, now), s), grace, s, now)
  {
    FirstKnown(st, s);
    HandleKeeps(st, grace, s, st.sessions[s].onClose[0], now);
    hide Handle;
  }

  class Registry {
    const gracePeriod: int
    var names: map<Name, nat>
    var tunnels: map<nat, Tunnel<nat>>
    var sessions: map<nat, Session<nat>>
    var told: set<nat>
    var timers: map<nat, Timer<nat>>
    var nextTimer: nat

    ghost function Now(): World
      reads this
    {
      State(names, tunnels, sessions, told, timers, nextTimer)
    }

    /** What holds between any two events. */
    ghost predicate Valid()
      reads this
    {
      Inv(Now(), gracePeriod)
    }

    constructor (gracePeriod: int)
      ensures Valid() && this.gracePeriod == gracePeriod && Now() == Start()
    {
      this.gracePeriod := gracePeriod;
      names, tunnels, sessions, told, timers, nextTimer := map[], map[], map[], {}, map[], 0;
    }

    /** endSession: an open session is sent a bye and asked to close. */
    method EndSession(s: nat)
      modifies this`told
      ensures told == old(told) + OpenOf(sessions, {s})
    {
      if s in sessions && !sessions[s].closed { told := told + {s}; }
    }

    method EndSessions(who: set<nat>)
      modifies this`told
      ensures told == old(told) + OpenOf(sessions, who)
    {
      var rest := who;
      while rest != {}
        invariant rest <= who && told == old(told) + OpenOf(sessions, who - rest)
        decreases |rest|
      {
        var joiner :| joiner in rest;
        EndSession(joiner);
        rest := rest - {joiner};
      }
    }

    /** remove: forget the name, disarm its timer, send everyone away. */
    method Remove(id: Name)
      requires Wf(Now())
      modifies this
      ensures Now() == RegistrySpec.Remove(old(Now()), id)
    {
      if id !in names { return; }
      RemoveFields(Now(), id);
      hide RegistrySpec.Remove;
      var t := names[id];
      var x := tunnels[t];
      names := names - {id};
      if x.graceTimer.Some? { timers := timers - {x.graceTimer.value}; }
      if x.session.Some? { EndSession(x.session.value); }
      assert told == old(told) + OpenOf(sessions, Only(x.session));
      EndSessions(x.joiners);
      tunnels := tunnels[t := x.(joiners := {})];
    }

    method StartGrace(t: nat, now: int)
      requires Wf(Now()) && t in tunnels
      modifies this
      ensures Now() == RegistrySpec.StartGrace(old(Now()), gracePeriod, t, now)
    {
      hide RegistrySpec.Remove;
      var x := tunnels[t];
      if gracePeriod <= 0 { Remove(x.id); return; }
      var due := now + gracePeriod * 1000;
      tunnels := tunnels[t := x.(graceUntil := Some(due), graceTimer := Some(nextTimer))];
      timers := timers[nextTimer := Timer(t, due)];
      nextTimer := nextTimer + 1;
    }

    /** The close callback of the session that was attached to t. */
    method OwnerClosed(s: nat, t: nat, now: int)
      requires Wf(Now()) && t in tunnels && s in sessions
      modifies this
      ensures Now() == RegistrySpec.OwnerClosed(old(Now()), gracePeriod, s, t, now)
    {
      var x := tunnels[t];
      if x.session != Some(s) { return; }
      tunnels := tunnels[t := x.(session := None)];
      assert Wf(Now());
      if sessions[s].saidBye { Remove(x.id); } else { StartGrace(t, now); }
    }

    method JoinerClosed(s: nat, t: nat)
      requires t in tunnels
      modifies this`tunnels
      ensures Now() == RegistrySpec.JoinerClosed(old(Now()), s, t)
    {
      tunnels := tunnels[t := tunnels[t].(joiners := tunnels[t].joiners - {s})];
    }

    /** Runs the first close callback of session s and drops it. */
    method RunCallback(s: nat, now: int)
      requires Wf(Now()) && s in sessions && sessions[s].onClose != []
      modifies this
      ensures var was := old(Now()); var h := was.sessions[s].onClose[0];
        && h.tunnel in was.tunnels && Wf(Handle(was, gracePeriod, s, h, now)) && Handle(was, gracePeriod, s, h, now).sessions == was.sessions
        && Now() == PopHandler(Handle(was, gracePeriod, s, h, now), s)
    {
      FirstKnown(Now(), s);
      var h := sessions[s].onClose[0];
      HandleKeeps(Now(), gracePeriod, s, h, now);
      hide RegistrySpec.OwnerClosed;
      match h {
        case Owns(t) => OwnerClosed(s, t, now);
        case Joins(t) => JoinerClosed(s, t);
      }
      sessions := sessions[s := sessions[s].(onClose := sessions[s].onClose[1..])];
    }

    /** The socket of session s closes: its callbacks run, in order. */
    method Close(s: nat, now: int)
      requires Valid() && s in sessions
      modifies this
      ensures Valid() && Now() == RegistrySpec.Close(old(Now()), gracePeriod, s, now)
    {
      CloseInv(Now(), gracePeriod, s, now);
      if sessions[s].closed { return; }
      sessions := sessions[s := sessions[s].(closed := true)];
      assert Wf(Now());
      hide Inv;
      hide Handle;
      while sessions[s].onClose != []
        invariant s in sessions && Wf(Now())
        invariant EmitClose(Now(), gracePeriod, s, now) == RegistrySpec.Close(old(Now()), gracePeriod, s, now)
        decreases |sessions[s].onClose|
      {
        ghost var was := Now();
        RunCallback(s, now);
        PoppedWf(was, gracePeriod, s, now);
      }
    }

    method Attach(t: nat, s: nat)
      requires t in tunnels && s in sessions
      modifies this
      ensures Now() == RegistrySpec.Attach(old(Now()), t, s)
    {
      var x := tunnels[t];
      if x.graceTimer.Some? { timers := timers - {x.graceTimer.value}; }
      if x.session.Some? && x.session != Some(s) { EndSession(x.session.value); }
      assert told == if x.session != Some(s) then old(told) + OpenOf(sessions, Only(x.session)) else old(told);
      tunnels := tunnels[t := x.(graceTimer := None, graceUntil := None, session := Some(s))];
      sessions := sessions[s := sessions[s].(onClose := sessions[s].onClose + [Owns(t)])];
    }

    /** register, when nothing is resumed: a taken name is refused. A session that closed
        in the meantime is attached all the same, and breaks what holds between events. */
    method Register(t: nat, n: Name, s: nat) returns (ok: bool)
      requires Valid() && t !in tunnels && s in sessions
      modifies this
      ensures ok == (n !in old(names)) && (!ok || !old(sessions)[s].closed ==> Valid())
      ensures Now() == if ok then RegistrySpec.Register(old(Now()), t, n, s) else old(Now())
    {
      if n in names { return false; }
      if !sessions[s].closed { StepInv(Now(), gracePeriod, Registered(t, n, s)); }
      hide Inv;
      hide RegistrySpec.Attach;
      names := names[n := t];
      tunnels := tunnels[t := Tunnel(n, None, None, None, {})];
      Attach(t, s);
      return true;
    }

    /** register with a resume token that belongs to tunnel t. */
    method Resume(t: nat, s: nat)
      requires Valid() && t in names.Values && s in sessions
      modifies this
      ensures (Valid() <==> !old(sessions)[s].closed) && Now() == RegistrySpec.Attach(old(Now()), t, s)
    {
      AttachNeedsOpen(Now(), gracePeriod, t, s);
      hide RegistrySpec.Attach;
      hide Inv;
      Attach(t, s);
    }

    method Join(s: nat, n: Name) returns (ok: bool)
      requires Valid() && s in sessions && !sessions[s].closed
      modifies this
      ensures Valid() && ok == (n in old(names))
      ensures Now() == if ok then RegistrySpec.Join(old(Now()), s, n) else old(Now())
    {
      if n !in names { return false; }
      JoinInv(Now(), gracePeriod, s, n);
      hide Inv;
      var t := names[n];
      tunnels := tunnels[t := tunnels[t].(joiners := tunnels[t].joiners + {s})];
      sessions := sessions[s := sessions[s].(onClose := sessions[s].onClose + [Joins(t)])];
      return true;
    }

    /** A grace timer fires. */
    method Expire(k: nat)
      requires Valid() && k in timers
      modifies this
      ensures Valid() && Now() == RegistrySpec.Expire(old(Now()), k)
    {
      ExpireInv(Now(), gracePeriod, k);
      var t := timers[k].tunnel;
      timers := timers - {k};
      assert Wf(Now());
      hide Inv;
      hide RegistrySpec.Remove;
      Remove(tunnels[t].id);
    }

    /** remove, called by the web UI, by a quota or for a revoked credential. */
    method Evict(n: Name)
      requires Valid()
      modifies this
      ensures Valid() && Now() == RegistrySpec.Remove(old(Now()), n)
    {
      StepInv(Now(), gracePeriod, Removed(n));
      hide RegistrySpec.Remove;
      Remove(n);
    }
  }
}
