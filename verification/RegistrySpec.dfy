/** The tunnel registry as a state machine: which tunnel owns which name, which session
    serves it, and which timers and close callbacks are still to come. Tunnel objects (T)
    outlive their place in the table, so two of them can have had the same name. */
module RegistrySpec {
  import opened Prelude

  /** Names are compared and looked up, never taken apart. */
  type Name = nat

  /** A callback registered with once("close"). */
  datatype Handler<T> = Owns(tunnel: T) | Joins(tunnel: T)

  datatype Tunnel<S(==)> = Tunnel(id: Name, session: Option<S>, graceTimer: Option<nat>, graceUntil: Option<int>, joiners: set<S>)

  datatype Session<T> = Session(closed: bool, saidBye: bool, onClose: seq<Handler<T>>)

  datatype Timer<T> = Timer(tunnel: T, due: int)

  /** The registry's table, every tunnel object created so far, every session, those that
      were sent a bye and asked to close, and the armed grace timers. Its tables are type
      parameters so that proofs need not compare the state with what its maps hold. */
  datatype State_<A, B, C, D, E> = State(names: A, tunnels: B, sessions: C, told: D, timers: E, nextTimer: nat)
  type State<T(==), S(==)> = State_<map<Name, T>, map<T, Tunnel<S>>, map<S, Session<T>>, set<S>, map<nat, Timer<T>>>

  ghost predicate Known<T>(hs: seq<Handler<T>>, tunnels: set<T>) {
    forall i :: 0 <= i < |hs| ==> hs[i].tunnel in tunnels
  }

  /** Every reference leads somewhere. */
  ghost predicate Wf<T, S>(st: State<T, S>) {
    && (forall n :: n in st.names ==> st.names[n] in st.tunnels)
    && (forall t :: t in st.tunnels ==> st.tunnels[t].session.Some? ==> st.tunnels[t].session.value in st.sessions)
    && (forall s :: s in st.sessions ==> Known(st.sessions[s].onClose, st.tunnels.Keys))
    && (forall k :: k in st.timers ==> st.timers[k].tunnel in st.tunnels && k < st.nextTimer)
  }

  // ----- the operations -----

  function Only<S(==)>(who: Option<S>): set<S> {
    if who.None? then {} else {who.value}
  }

  function OpenOf<T, S>(sessions: map<S, Session<T>>, who: set<S>): set<S> {
    set s | s in who && s in sessions && !sessions[s].closed
  }

  /** endSession on each: a closed session is left alone. */
  function EndAll<T, S>(st: State<T, S>, who: set<S>): State<T, S> {
    st.(told := st.told + OpenOf(st.sessions, who))
  }

  function WithTunnel<T, S>(st: State<T, S>, t: T, x: Tunnel<S>): State<T, S> {
    st.(tunnels := st.tunnels[t := x])
  }

  function Disarm<T, S>(st: State<T, S>, k: Option<nat>): State<T, S> {
    if k.None? then st else st.(timers := st.timers - {k.value})
  }

  function Remove<T, S>(st: State<T, S>, n: Name): (r: State<T, S>)
    requires n in st.names ==> st.names[n] in st.tunnels
    ensures r.sessions == st.sessions && r.tunnels.Keys == st.tunnels.Keys
  {
    if n !in st.names then st
    else
      var t := st.names[n];
      var x := st.tunnels[t];
      var gone := Disarm(st.(names := st.names - {n}), x.graceTimer);
      var ended := EndAll(EndAll(gone, Only(x.session)), x.joiners);
      WithTunnel(ended, t, x.(joiners := {}))
  }

  function StartGrace<T, S>(st: State<T, S>, grace: int, t: T, now: int): (r: State<T, S>)
    requires Wf(st) && t in st.tunnels
    ensures r.sessions == st.sessions && r.tunnels.Keys == st.tunnels.Keys
  {
    var x := st.tunnels[t];
    if grace <= 0 then Remove(st, x.id)
    else
      var due := now + grace * 1000;
      WithTunnel(st, t, x.(graceUntil := Some(due), graceTimer := Some(st.nextTimer)))
        .(timers := st.timers[st.nextTimer := Timer(t, due)], nextTimer := st.nextTimer + 1)
  }

  /** The close callback of an owner session. */
  function OwnerClosed<T, S>(st: State<T, S>, grace: int, s: S, t: T, now: int): (r: State<T, S>)
    requires Wf(st) && t in st.tunnels && s in st.sessions
    ensures r.sessions == st.sessions && r.tunnels.Keys == st.tunnels.Keys
  {
    var x := st.tunnels[t];
    if x.session != Some(s) then st
    else
      var detached := WithTunnel(st, t, x.(session := None));
      if st.sessions[s].saidBye then Remove(detached, x.id) else StartGrace(detached, grace, t, now)
  }

  function JoinerClosed<T, S>(st: State<T, S>, s: S, t: T): State<T, S>
    requires t in st.tunnels
  {
    WithTunnel(st, t, st.tunnels[t].(joiners := st.tunnels[t].joiners - {s}))
  }

  function Handle<T, S>(st: State<T, S>, grace: int, s: S, h: Handler<T>, now: int): State<T, S>
    requires Wf(st) && h.tunnel in st.tunnels && s in st.sessions
  {
    match h
    case Owns(t) => OwnerClosed(st, grace, s, t, now)
    case Joins(t) => JoinerClosed(st, s, t)
  }

  /** Takes the first close callback off the list. */
  function PopHandler<T, S>(st: State<T, S>, s: S): State<T, S>
    requires s in st.sessions && st.sessions[s].onClose != []
  {
    st.(sessions := st.sessions[s := st.sessions[s].(onClose := st.sessions[s].onClose[1..])])
  }

  /** Emitting "close": every callback once, in order. */
  function EmitClose<T, S>(st: State<T, S>, grace: int, s: S, now: int): (r: State<T, S>)
    requires Wf(st) && s in st.sessions
    ensures Wf(r) && s in r.sessions
    decreases |st.sessions[s].onClose|
  {
    if st.sessions[s].onClose == [] then st
    else
      var h := st.sessions[s].onClose[0];
      HandleKeeps(st, grace, s, h, now);
      EmitClose(PopHandler(Handle(st, grace, s, h, now), s), grace, s, now)
  }

  /** The socket of a session closes. */
  function Close<T, S>(st: State<T, S>, grace: int, s: S, now: int): State<T, S>
    requires Wf(st) && s in st.sessions
  {
    if st.sessions[s].closed then st
    else EmitClose(st.(sessions := st.sessions[s := st.sessions[s].(closed := true)]), grace, s, now)
  }

  function Attach<T, S>(st: State<T, S>, t: T, s: S): State<T, S>
    requires t in st.tunnels && s in st.sessions
  {
    var x := st.tunnels[t];
    var disarmed := Disarm(st, x.graceTimer);
    var ended := if x.session != Some(s) then EndAll(disarmed, Only(x.session)) else disarmed;
    var y := ended.sessions[s];
    WithTunnel(ended, t, x.(graceTimer := None, graceUntil := None, session := Some(s)))
      .(sessions := ended.sessions[s := y.(onClose := y.onClose + [Owns(t)])])
  }

  function Register<T, S>(st: State<T, S>, t: T, n: Name, s: S): State<T, S>
    requires s in st.sessions
  {
    Attach(st.(names := st.names[n := t], tunnels := st.tunnels[t := Tunnel(n, None, None, None, {})]), t, s)
  }

  function Join<T, S>(st: State<T, S>, s: S, n: Name): State<T, S>
    requires n in st.names && st.names[n] in st.tunnels && s in st.sessions
  {
    var t := st.names[n];
    var x, y := st.tunnels[t], st.sessions[s];
    WithTunnel(st, t, x.(joiners := x.joiners + {s})).(sessions := st.sessions[s := y.(onClose := y.onClose + [Joins(t)])])
  }

  // ----- runs -----

  datatype Event<T, S> =
    | Connected(s: S)                     // a new session
    | Registered(t: T, n: Name, s: S)     // a new tunnel under a free name
    | Resumed(t: T, s: S)                 // a session takes over a tunnel of the table
    | Joined(s: S, n: Name)
    | SaidBye(s: S)
    | Closed(s: S, now: int)
    | Expired(k: nat)                     // a grace timer fires
    | Removed(n: Name)                    // web UI, quota or a revoked credential

  /** The steps the program can take. A session is open when it is attached. */
  ghost predicate Enabled<T, S>(st: State<T, S>, e: Event<T, S>) {
    match e
    case Connected(s) => s !in st.sessions
    case Registered(t, n, s) => t !in st.tunnels && n !in st.names && s in st.sessions && !st.sessions[s].closed
    case Resumed(t, s) => t in st.names.Values && s in st.sessions && !st.sessions[s].closed
    case Joined(s, n) => s in st.sessions && !st.sessions[s].closed && n in st.names
    case SaidBye(s) => s in st.sessions
    case Closed(s, _) => s in st.sessions
    case Expired(k) => k in st.timers
    case Removed(_) => true
  }

  function Expire<T, S>(st: State<T, S>, k: nat): State<T, S>
    requires Wf(st) && k in st.timers
  {
    Remove(st.(timers := st.timers - {k}), st.tunnels[st.timers[k].tunnel].id)
  }

  ghost function Step<T(!new), S(!new)>(st: State<T, S>, grace: int, e: Event<T, S>): State<T, S>
    requires Wf(st) && Enabled(st, e)
  {
    match e
    case Connected(s) => st.(sessions := st.sessions[s := Session(false, false, [])])
    case Registered(t, n, s) => Register(st, t, n, s)
    case Resumed(t, s) => Attach(st, t, s)
    case Joined(s, n) => Join(st, s, n)
    case SaidBye(s) => st.(sessions := st.sessions[s := st.sessions[s].(saidBye := true)])
    case Closed(s, now) => Close(st, grace, s, now)
    case Expired(k) => Expire(st, k)
    case Removed(n) => Remove(st, n)
  }

  // ----- well-formedness is kept -----

  /** What a removal does, field by field. */
  lemma RemoveFields<T, S>(st: State<T, S>, n: Name)
    requires n in st.names && st.names[n] in st.tunnels
    ensures var r := Remove(st, n); var t := st.names[n]; var x := st.tunnels[t];
      && r.names == st.names - {n} && r.tunnels == st.tunnels[t := x.(joiners := {})] && r.sessions == st.sessions
      && r.timers == (if x.graceTimer.None? then st.timers else st.timers - {x.graceTimer.value}) && r.nextTimer == st.nextTimer
      && r.told == st.told + OpenOf(st.sessions, Only(x.session)) + OpenOf(st.sessions, x.joiners)
  {
  }

  lemma RemoveKeeps<T, S>(st: State<T, S>, n: Name)
    requires Wf(st)
    ensures Wf(Remove(st, n))
  {
  }

  lemma StartGraceKeeps<T, S>(st: State<T, S>, grace: int, t: T, now: int)
    requires Wf(st) && t in st.tunnels
    ensures Wf(StartGrace(st, grace, t, now))
  {
    hide Remove;
    if grace <= 0 { RemoveKeeps(st, st.tunnels[t].id); }
  }

  lemma OwnerClosedKeeps<T, S>(st: State<T, S>, grace: int, s: S, t: T, now: int)
    requires Wf(st) && t in st.tunnels && s in st.sessions
    ensures Wf(OwnerClosed(st, grace, s, t, now))
  {
    hide Remove;
    hide StartGrace;
    var x := st.tunnels[t];
    if x.session == Some(s) {
      var detached := WithTunnel(st, t, x.(session := None));
      assert Wf(detached);
      RemoveKeeps(detached, x.id);
      StartGraceKeeps(detached, grace, t, now);
    }
  }

  lemma HandleKeeps<T, S>(st: State<T, S>, grace: int, s: S, h: Handler<T>, now: int)
    requires Wf(st) && h.tunnel in st.tunnels && s in st.sessions
    ensures var r := Handle(st, grace, s, h, now);
      Wf(r) && r.sessions == st.sessions && r.tunnels.Keys == st.tunnels.Keys
  {
    if h.Owns? {
      hide OwnerClosed;
      OwnerClosedKeeps(st, grace, s, h.tunnel, now);
    }
  }
}
