/** Byte accounting, from the counters of the sessions through the sampler and the pending
    map to the stored usage. */
module Usage {
  import opened Prelude

  type Name = nat
  type Account = nat
  type SessionId = nat   // the order in which sessions connected

  datatype Traffic = Traffic(bytesIn: nat, bytesOut: nat, requests: nat)
  const ZERO := Traffic(0, 0, 0)

  function Plus(a: Traffic, b: Traffic): Traffic {
    Traffic(a.bytesIn + b.bytesIn, a.bytesOut + b.bytesOut, a.requests + b.requests)
  }

  type Ledger = map<Account, Traffic>

  function At(l: Ledger, a: Account): Traffic {
    if a in l then l[a] else ZERO
  }

  /** Quotas.record: nothing is written for nothing. */
  function Record(pending: Ledger, a: Account, t: Traffic): Ledger {
    if t == ZERO then pending else pending[a := Plus(At(pending, a), t)]
  }

  /** The counters of a MuxSession, and whose it is. */
  datatype Session = Session(account: Account, sent: nat, received: nat, closed: bool)
  datatype Tunnel = Tunnel(account: Account, session: Option<SessionId>)

  /** What the sampler remembers of a tunnel name. */
  datatype Entry = Entry(session: Option<SessionId>, lastSent: nat, lastReceived: nat, pendingRequests: nat)
  const EMPTY := Entry(None, 0, 0, 0)

  type Series = map<Name, Entry>

  function For(series: Series, n: Name): Entry {
    if n in series then series[n] else EMPTY
  }

  function Max0(x: int): nat {
    if x < 0 then 0 else x
  }

  /** One tunnel's turn in Stats.sample: the new entry, and what is recorded. */
  function SampleEntry(e: Entry, session: Option<SessionId>, sessions: seq<Session>): (Entry, Traffic) {
    if session.Some? && session.value < |sessions| && !sessions[session.value].closed then
      var s := sessions[session.value];
      var f := if e.session != session then e.(session := session, lastSent := 0, lastReceived := 0) else e;
      (Entry(session, s.sent, s.received, 0),
       Traffic(Max0(s.sent - f.lastSent), Max0(s.received - f.lastReceived), e.pendingRequests))
    else
      (e.(session := None, pendingRequests := 0), Traffic(0, 0, e.pendingRequests))
  }

  // ----- the whole system -----

  /** `attached` are the sessions that ever registered, `counted[s]` is what the counters of
      session s were when it was last sampled, `flushing` are batches being stored, and
      `dropped` is what batches still held when the store failed. */
  datatype State = State(
    sessions: seq<Session>,
    tunnels: map<Name, Tunnel>,
    attached: set<SessionId>,
    series: Series,
    pending: Ledger,
    flushing: seq<Ledger>,
    stored: Ledger,
    dropped: Ledger,
    counted: seq<Traffic>)

  function Start(): State {
    State([], map[], {}, map[], map[], [], map[], map[], [])
  }

  datatype Event =
    | Connected(account: Account)
    | Moved(s: SessionId, sent: nat, received: nat)
    | Attached(n: Name, s: SessionId)          // a new tunnel, or one resumed
    | Closed(s: SessionId)
    | Forgotten(n: Name)                       // the tunnel is removed
    | Requested(n: Name)
    | Sampled(order: seq<Name>)
    | FlushStarted
    | Stored(i: nat, account: Account)         // one row of a batch
    | FlushEnded(i: nat)                       // done, or failed with rows left

  /** A session registers at most once, while open, and under its own account. */
  ghost predicate Enabled(st: State, e: Event) {
    match e
    case Connected(_) => true
    case Moved(s, _, _) => s < |st.sessions| && !st.sessions[s].closed
    case Attached(n, s) =>
      && s < |st.sessions| && !st.sessions[s].closed && s !in st.attached
      && (n in st.tunnels ==> st.tunnels[n].account == st.sessions[s].account)
    case Closed(s) => s < |st.sessions|
    case Forgotten(_) => true
    case Requested(_) => true
    case Sampled(order) =>
      && (forall n :: n in order <==> n in st.tunnels)
      && (forall i, j :: 0 <= i < j < |order| ==> order[i] != order[j])
    case FlushStarted => true
    case Stored(i, a) => i < |st.flushing| && a in st.flushing[i]
    case FlushEnded(i) => i < |st.flushing|
  }

  /** Sampling one tunnel. */
  function SampleOne(st: State, n: Name): State
    requires n in st.tunnels
  {
    var t := st.tunnels[n];
    var (e, traffic) := SampleEntry(For(st.series, n), t.session, st.sessions);
    var counted := if e.session.Some? && e.session.value < |st.counted|
                   then st.counted[e.session.value := Traffic(e.lastSent, e.lastReceived, 0)] else st.counted;
    st.(series := st.series[n := e], pending := Record(st.pending, t.account, traffic), counted := counted)
  }

  function Sample(st: State, order: seq<Name>): (r: State)
    requires forall n :: n in order ==> n in st.tunnels
    ensures r.tunnels == st.tunnels
    decreases |order|
  {
    if order == [] then st else SampleOne(Sample(st, order[..|order| - 1]), order[|order| - 1])
  }

  function Step(st: State, e: Event): State
    requires Enabled(st, e)
  {
    match e
    case Connected(a) => st.(sessions := st.sessions + [Session(a, 0, 0, false)], counted := st.counted + [ZERO])
    case Moved(s, sent, received) =>
      var x := st.sessions[s];
      st.(sessions := st.sessions[s := x.(sent := x.sent + sent, received := x.received + received)])
    case Attached(n, s) =>
      st.(tunnels := st.tunnels[n := Tunnel(st.sessions[s].account, Some(s))], attached := st.attached + {s})
    case Closed(s) =>
      st.(sessions := st.sessions[s := st.sessions[s].(closed := true)],
          tunnels := map n | n in st.tunnels :: if st.tunnels[n].session == Some(s) then st.tunnels[n].(session := None) else st.tunnels[n])
    case Forgotten(n) => st.(tunnels := st.tunnels - {n}, series := st.series - {n})
    case Requested(n) =>
      var x := For(st.series, n);
      st.(series := st.series[n := x.(pendingRequests := x.pendingRequests + 1)])
    case Sampled(order) => Sample(st, order)
    case FlushStarted => st.(pending := map[], flushing := st.flushing + [st.pending])
    case Stored(i, a) =>
      st.(flushing := st.flushing[i := st.flushing[i] - {a}], stored := st.stored[a := Plus(At(st.stored, a), st.flushing[i][a])])
    case FlushEnded(i) =>
      st.(flushing := st.flushing[i := map[]], dropped := Merge(st.dropped, st.flushing[i]))
  }

  function Merge(l: Ledger, m: Ledger): Ledger {
    map a | a in l.Keys + m.Keys :: Plus(At(l, a), At(m, a))
  }

  ghost predicate Possible(st: State, es: seq<Event>)
    decreases |es|
  {
    es == [] || (Enabled(st, es[0]) && Possible(Step(st, es[0]), es[1..]))
  }

  ghost function Run(st: State, es: seq<Event>): State
    requires Possible(st, es)
    decreases |es|
  {
    if es == [] then st else Run(Step(st, es[0]), es[1..])
  }

  // ----- sums -----

  datatype Part = In | Out | Requests

  /** The parts that sessions count. */
  type Side = p: Part | !p.Requests? witness In

  function Amount(t: Traffic, part: Part): nat {
    match part
    case In => t.bytesIn
    case Out => t.bytesOut
    case Requests => t.requests
  }

  function InBatches(flushing: seq<Ledger>, a: Account, part: Part): nat {
    if flushing == [] then 0
    else InBatches(flushing[..|flushing| - 1], a, part) + Amount(At(flushing[|flushing| - 1], a), part)
  }

  /** The counters at the last sample, over the sessions of an account. */
  function Counted(sessions: seq<Session>, counted: seq<Traffic>, a: Account, side: Side): nat
    requires |sessions| == |counted|
  {
    if sessions == [] then 0
    else
      var n := |sessions| - 1;
      Counted(sessions[..n], counted[..n], a, side) + if sessions[n].account == a then Amount(counted[n], side) else 0
  }

  /** The bytes moved by the sessions of an account. */
  function MovedBy(sessions: seq<Session>, a: Account, side: Side): nat {
    if sessions == [] then 0
    else
      var n := |sessions| - 1;
      var s := sessions[n];
      MovedBy(sessions[..n], a, side) + if s.account == a then (if side == In then s.sent else s.received) else 0
  }

  /** Everything recorded for an account, wherever it is by now. */
  function Recorded(st: State, a: Account, part: Part): nat {
    Amount(At(st.stored, a), part) + InBatches(st.flushing, a, part) + Amount(At(st.pending, a), part) + Amount(At(st.dropped, a), part)
  }

  lemma {:induction false} BatchChange(flushing: seq<Ledger>, i: nat, l: Ledger, a: Account, part: Part)
    requires i < |flushing|
    ensures InBatches(flushing[i := l], a, part) + Amount(At(flushing[i], a), part) == InBatches(flushing, a, part) + Amount(At(l, a), part)
    decreases |flushing|
  {
    var n := |flushing| - 1;
    if i < n {
      BatchChange(flushing[..n], i, l, a, part);
      assert flushing[i := l][..n] == flushing[..n][i := l];
    } else {
      assert flushing[i := l][..n] == flushing[..n];
    }
  }

  lemma {:induction false} CountChange(sessions: seq<Session>, counted: seq<Traffic>, i: nat, x: Session, c: Traffic, a: Account, side: Side)
    requires i < |sessions| == |counted| && x.account == sessions[i].account
    ensures Counted(sessions[i := x], counted[i := c], a, side)
         == Counted(sessions, counted, a, side) + if x.account == a then Amount(c, side) - Amount(counted[i], side) else 0
    decreases |sessions|
  {
    var n := |sessions| - 1;
    if i < n {
      CountChange(sessions[..n], counted[..n], i, x, c, a, side);
      assert sessions[i := x][..n] == sessions[..n][i := x] && counted[i := c][..n] == counted[..n][i := c];
    } else {
      assert sessions[i := x][..n] == sessions[..n] && counted[i := c][..n] == counted[..n];
    }
  }

  // ----- the invariant -----

  /** The sampler follows session s under name n from what was last counted, or s was never
      counted. */
  ghost predicate Followed(st: State, n: Name, s: SessionId)
    requires s < |st.counted|
  {
    var e := For(st.series, n);
    st.counted[s] == if e.session == Some(s) then Traffic(e.lastSent, e.lastReceived, 0) else ZERO
  }

  ghost predicate TunnelOk(st: State, n: Name)
    requires n in st.tunnels && |st.counted| == |st.sessions|
  {
    var t := st.tunnels[n];
    t.session.Some? ==>
      && t.session.value < |st.sessions| && t.session.value in st.attached
      && !st.sessions[t.session.value].closed && st.sessions[t.session.value].account == t.account
      && Followed(st, n, t.session.value)
  }

  ghost predicate SessionOk(st: State, s: SessionId)
    requires s < |st.sessions| == |st.counted|
  {
    && st.counted[s].bytesIn <= st.sessions[s].sent && st.counted[s].bytesOut <= st.sessions[s].received
    && (s !in st.attached ==> st.counted[s] == ZERO)
  }

  ghost predicate Sound(st: State) {
    && |st.counted| == |st.sessions|
    && (forall s :: s in st.attached ==> s < |st.sessions|)
    && (forall n :: n in st.tunnels ==> TunnelOk(st, n))
    && (forall n, m :: n in st.tunnels && m in st.tunnels && st.tunnels[n].session == st.tunnels[m].session && st.tunnels[n].session.Some? ==> n == m)
    && (forall n :: n in st.series ==> st.series[n].session.Some? ==> st.series[n].session.value in st.attached)
    && (forall s :: 0 <= s < |st.sessions| ==> SessionOk(st, s))
  }

  /** What was recorded for each account is what its sessions' counters were when they were
      last sampled. */
  ghost predicate Conserved(st: State)
    requires |st.counted| == |st.sessions|
  {
    forall a: Account, side: Side :: Recorded(st, a, side) == Counted(st.sessions, st.counted, a, side)
  }
}
