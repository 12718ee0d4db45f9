/** What the protocol guarantees in every state of every run, stated on the state
    itself: credit, order, completeness, lifecycle and wake-ups. */
module LinkTheorems {
  import opened Prelude
  import opened MuxTypes
  import S = ServerSpec
  import C = ClientSpec
  import D = Direction
  import opened Link
  import opened LinkInvariant
  import opened LinkRun
  import opened DrainScheduler

  /** The DATA bytes of stream `id` in a channel, in order. */
  function InFlight(frames: seq<Frame>, id: nat): seq<Byte> {
    Sum(Of(frames, id)).data
  }

  /** The WINDOW_UPDATE amounts for stream `id` in a channel. */
  function Granted(frames: seq<Frame>, id: nat): nat {
    Sum(Of(frames, id)).credits
  }

  /** DATA bytes the client holds without having credited them. */
  function ClientOwes(e: C.End, id: nat): nat {
    if id in e.streams then |BytesIn(e.streams[id].rx)| + e.streams[id].unacked else 0
  }

  function ServerOwes(e: S.End, id: nat): nat {
    if id in e.streams then e.streams[id].pendingUpdate else 0
  }

  /** Both ends are connected, the server still sends on the stream and the client
      still takes its DATA (or has not heard of the stream yet). */
  ghost predicate DownAlive(n: Net, id: nat) {
    && id in n.server.streams && !n.server.streams[id].finished && S.Up(n.server) && !n.client.closed
    && (id in n.client.streams ==> id in n.client.table && n.client.streams[id].rxOpen)
  }

  ghost predicate UpAlive(n: Net, id: nat) {
    && id in n.client.table && S.Up(n.server) && !n.client.closed
    && (id in n.server.streams ==> !n.server.streams[id].finished)
  }

  // ----- credit -----

  /** Credit conservation, server to client. */
  lemma DownCreditConserved(n: Net, id: nat)
    requires Reachable(n) && id in n.server.streams
    ensures 0 <= n.server.streams[id].window
    ensures n.server.streams[id].window + |InFlight(n.down, id)| + ClientOwes(n.client, id) + Granted(n.loose, id) <= WINDOW
    ensures DownAlive(n, id) ==>
              n.server.streams[id].window + |InFlight(n.down, id)| + ClientOwes(n.client, id) + Granted(n.loose, id) == WINDOW
  {
    ReachableInv(n);
    var v := ViewOf(n, id);
    assert Ok(v);
    assert D.CreditOk(Down(v));
  }

  /** Credit conservation, client to server. */
  lemma UpCreditConserved(n: Net, id: nat)
    requires Reachable(n) && id in n.client.streams
    ensures 0 <= n.client.streams[id].credit
    ensures n.client.streams[id].credit + |InFlight(n.up, id)| + ServerOwes(n.server, id) + Granted(n.down, id) <= WINDOW
    ensures UpAlive(n, id) ==>
              n.client.streams[id].credit + |InFlight(n.up, id)| + ServerOwes(n.server, id) + Granted(n.down, id) == WINDOW
  {
    ReachableInv(n);
    var v := ViewOf(n, id);
    assert Ok(v);
    assert D.CreditOk(Up(v));
  }

  lemma {:induction false} AmountWithin(frames: seq<Frame>, k: nat)
    requires k < |frames|
    ensures Amount(frames[k]) <= Sum(Of(frames, frames[k].id)).credits
  {
    var id := frames[k].id;
    assert frames == frames[..k] + ([frames[k]] + frames[k + 1..]);
    OfAppend(frames[..k], [frames[k]] + frames[k + 1..], id);
    assert Of([frames[k]] + frames[k + 1..], id)[0] == frames[k];
    SumParts(Of(frames[..k], id), Of([frames[k]] + frames[k + 1..], id));
  }

  /** The client's unbounded queue never holds more than one window of DATA, and
      neither its u32 counter nor any update on the wire can overflow 32 bits. */
  lemma WithinBounds(n: Net, id: nat, k: nat)
    requires Reachable(n)
    ensures id in n.client.streams ==> |BytesIn(n.client.streams[id].rx)| <= WINDOW && n.client.streams[id].unacked <= WINDOW
    ensures k < |n.loose| ==> Amount(n.loose[k]) <= WINDOW < 0x1_0000_0000
    ensures k < |n.down| ==> Amount(n.down[k]) <= WINDOW
  {
    ReachableInv(n);
    assert Ok(ViewOf(n, id));
    if id in n.server.streams { DownCreditConserved(n, id); }
    if k < |n.loose| {
      var i := n.loose[k].id;
      AmountWithin(n.loose, k);
      assert Ok(ViewOf(n, i));
      if i in n.server.streams { DownCreditConserved(n, i); }
    }
    if k < |n.down| {
      var i := n.down[k].id;
      AmountWithin(n.down, k);
      assert Ok(ViewOf(n, i));
      if i in n.client.streams { UpCreditConserved(n, i); }
    }
  }

  // ----- no deadlock -----

  ghost predicate Silent(frames: seq<Frame>, id: nat) {
    forall i :: 0 <= i < |frames| ==> frames[i].id != id
  }

  lemma {:induction false} SilentEmpty(frames: seq<Frame>, id: nat)
    requires Silent(frames, id)
    ensures Of(frames, id) == []
  {
    if frames != [] { SilentEmpty(frames[1..], id); }
  }

  /** When the client reader waits on an empty queue and nothing is under way, more
      than 3/4 of the window is back at the server, so a flush that may use the
      socket puts the next piece on the wire. */
  lemma DownNeverStarves(n: Net, id: nat, budget: nat)
    requires Reachable(n) && DownAlive(n, id) && Silent(n.down, id) && Silent(n.loose, id)
    requires id in n.client.streams ==>
               var c := n.client.streams[id]; c.parked && c.rx == [] && !c.dead
    ensures n.server.streams[id].window > WINDOW - ACK_THRESHOLD
    ensures S.QueueBytes(n.server.streams[id].queue) != [] && budget > 0 ==>
              DataSent(S.Flush(n.server.streams[id], id, budget).frames)
  {
    ReachableInv(n);
    assert Ok(ViewOf(n, id));
    SilentEmpty(n.down, id);
    SilentEmpty(n.loose, id);
    DownCreditConserved(n, id);
    if budget > 0 { FlushSends(n.server.streams[id], id, budget); }
  }

  ghost predicate DataSent(frames: seq<Frame>) {
    frames != [] && frames[0].Data?
  }

  lemma {:induction false} FlushSends(s: S.Stream, id: nat, budget: nat)
    requires S.Items(s.queue) && !s.finished && CHUNK <= s.window && budget > 0
    ensures S.QueueBytes(s.queue) != [] ==> DataSent(S.Flush(s, id, budget).frames)
    decreases S.Work(s.queue)
  {
    if s.queue != [] && s.queue[0].index >= |s.queue[0].pieces| {
      assert S.ItemBytes(s.queue[0]) == [];
      FlushSends(s.(queue := s.queue[1..]), id, budget);
    }
  }

  /** When the server has credited everything and nothing is under way, the client
      has its whole window, so the next chunk of a send always goes out. */
  lemma UpNeverStarves(n: Net, id: nat)
    requires Reachable(n) && id in n.client.streams && UpAlive(n, id) && Silent(n.up, id) && Silent(n.down, id)
    requires ServerOwes(n.server, id) == 0
    ensures n.client.streams[id].credit == WINDOW
    ensures n.client.streams[id].pieces != [] && !n.client.streams[id].dead ==>
              DataSent(C.SendPiece(n.client.streams[id], id, false).fifo)
  {
    ReachableInv(n);
    assert Ok(ViewOf(n, id));
    SilentEmpty(n.up, id);
    SilentEmpty(n.down, id);
    UpCreditConserved(n, id);
  }

  // ----- bytes -----

  /** What the client has taken from a stream is a prefix of what the server's side
      was given, and all of it once the client has seen CLOSE. */
  lemma DownFidelity(n: Net, id: nat)
    requires Reachable(n) && id in n.client.streams
    ensures id in n.server.streams ==> n.client.streams[id].taken <= n.server.streams[id].accepted
    ensures id in n.server.streams && n.client.streams[id].closeReceived ==>
              n.client.streams[id].taken == n.server.streams[id].accepted
    ensures id !in n.server.streams ==> n.client.streams[id].taken == [] && !n.client.streams[id].closeReceived
  {
    ReachableInv(n);
    var v := ViewOf(n, id);
    assert Ok(v);
    var c := n.client.streams[id];
    if id in n.server.streams {
      var d := Down(v);
      IsPrefix(d.got, d.accepted);
      assert c.taken + [] == c.taken;
      assert c.taken <= d.got;
    }
  }

  /** What the server's side has been handed is a prefix of what the client was
      given to send, and all of it once the server has seen CLOSE. */
  lemma UpFidelity(n: Net, id: nat)
    requires Reachable(n) && id in n.server.streams
    ensures id in n.client.streams ==> n.server.streams[id].pushed <= n.client.streams[id].accepted
    ensures id in n.client.streams && n.server.streams[id].closeReceived ==>
              n.server.streams[id].pushed == n.client.streams[id].accepted
    ensures id !in n.client.streams ==> n.server.streams[id].pushed == [] && !n.server.streams[id].closeReceived
  {
    ReachableInv(n);
    var v := ViewOf(n, id);
    assert Ok(v);
    if id in n.client.streams {
      var u := Up(v);
      IsPrefix(u.got, u.accepted);
    }
  }

  // ----- lifecycle -----

  /** Each end hands out ids of its own parity, so the next id of either end is
      unknown to both ends and to every channel. */
  lemma FreshIds(n: Net, id: nat)
    requires Reachable(n) && (id == n.server.nextId || id == n.client.nextId)
    ensures n.server.nextId != n.client.nextId
    ensures id !in n.server.streams && id !in n.client.streams
    ensures Of(n.down, id) == [] && Of(n.up, id) == [] && Of(n.loose, id) == []
  {
    ReachableInv(n);
    assert Blank(ViewOf(n, id));
    assert forall frames: seq<Frame> :: Sum(frames) == EMPTY ==> frames == [];
  }

  /** The server's table holds an id exactly while that stream is unfinished. */
  lemma TableIsUnfinished(n: Net, id: nat)
    requires Reachable(n)
    ensures id in n.server.table <==> id in n.server.streams && !n.server.streams[id].finished
  {
    ReachableInv(n);
    assert Ok(ViewOf(n, id));
  }

  /** An OPEN never reaches an end that already knows the stream. */
  lemma OpenIsNew(n: Net)
    requires Reachable(n)
    ensures n.up != [] && n.up[0].Open? ==> n.up[0].id !in n.server.streams
    ensures n.down != [] && n.down[0].Open? ==> n.down[0].id !in n.client.streams
  {
    ReachableInv(n);
    if n.up != [] {
      assert Ok(ViewOf(n, n.up[0].id));
      Popped(n.up, n.up[0].id);
    }
    if n.down != [] {
      assert Ok(ViewOf(n, n.down[0].id));
      Popped(n.down, n.down[0].id);
    }
  }

  // ----- wake-ups -----

  /** No lost wake-up: in an open session, every unfinished stream with queued writes
      waits for a drain, and whenever a stream waits the drain timer is armed. */
  lemma NoLostWakeup(n: Net, id: nat)
    requires Reachable(n) && !n.server.closed
    ensures id in n.server.streams && !n.server.streams[id].finished && n.server.streams[id].queue != [] ==> id in n.server.waiting
    ensures n.server.waiting != [] ==> n.server.timer
  {
    ReachableAwake(n);
    TableIsUnfinished(n, id);
    assert Waiting(n.server, []);
    if Stuck(n.server, id) { assert id in n.server.waiting; }
  }
}
