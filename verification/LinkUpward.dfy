/** Everything a client sends reaches the server: from every reachable state there is a
    schedule of deliveries, reads and sends that gets it there. */
module LinkUpward {
  import opened Prelude
  import opened MuxTypes
  import S = ServerSpec
  import C = ClientSpec
  import D = Direction
  import opened Link
  import opened LinkInvariant
  import opened LinkRun
  import A = LinkArrivals
  import L = LinkClient
  import V = LinkDelivery
  import opened LinkTheorems
  import opened Resets
  import opened LinkEffects
  import opened LinkProgress

  // ----- a stream on its way to the server -----

  /** What the server was handed of the stream so far. */
  function Pushed(v: View): seq<Byte> {
    if v.s.Some? then v.s.value.pushed else []
  }

  /** The connection is up, the client's stream lives, and the server still takes its bytes
      or has seen its CLOSE. */
  ghost predicate Rising(v: View, aim: Aim) {
    && v.sUp && v.cUp && v.c.Some? && v.cLive && !v.c.value.dead && v.c.value.accepted == aim.accepted && (aim.ended ==> v.c.value.closeSent)
    && (v.s.Some? ==> v.s.value.resets == 0 && (!v.s.value.finished || v.s.value.closeReceived))
  }

  /** Then nothing is lost on the way, and a CLOSE that was sent is under way or seen. */
  lemma NothingLostUp(v: View, aim: Aim)
    requires Ok(v) && Rising(v, aim)
    ensures aim.accepted == Pushed(v) + v.up.data + Concat(v.c.value.pieces)
    ensures v.c.value.closeSent ==> v.c.value.pieces == [] && (v.up.close || (v.s.Some? && v.s.value.closeReceived))
    ensures v.s.Some? && v.s.value.closeReceived ==> v.c.value.closeSent
  {
    var u := Up(v);
    assert D.Ok(u) && !v.c.value.dropped;
    assert u.sending && (u.taking || u.closeSeen);
    assert u.closeSeen ==> u.got + u.wire + u.queued == u.accepted by {
      if u.closeSeen { assert u.got + [] + [] == u.got; }
    }
    assert UpOpen(v) || u.closeSeen;
  }

  ghost predicate Sending(n: Net, id: nat, aim: Aim) {
    Reachable(n) && Rising(ViewOf(n, id), aim)
  }

  // ----- single events -----

  ghost predicate PiecesOf(n: Net, id: nat, pieces: seq<seq<Byte>>) {
    id in n.client.streams && n.client.streams[id].pieces == pieces
  }

  lemma RisingHandle(v: View, f: Frame, rest: Chan, aim: Aim)
    requires Ok(v) && Rising(v, aim) && v.up == Before(f, rest)
    ensures Rising(A.ServerHandle(v.(up := rest), f, 0), aim)
  {
    if f.Open? {
      A.OpenOk(v, f, rest);
    } else {
      A.Known(v, f, rest);
      hide Ok;
    }
  }

  /** A frame reaches the server in order. */
  lemma ServeSending(n: Net, id: nat, aim: Aim)
    requires Sending(n, id, aim) && n.up != []
    ensures var m := Next(n, ServerDeliver(0)); Sending(m, id, aim) && m.up == n.up[1..] && m.client == n.client
  {
    ReachableInv(n);
    assert Ok(ViewOf(n, id));
    Took(n, ServerDeliver(0));
    Popped(n.up, id);
    assert ViewOf(n, id).up == Sum(Of(n.up, id)) && !n.server.closed;
    hide Reachable;
    hide Streams;
    var w := n.(up := n.up[1..]);
    FrameSeen(w, n.up[0], 0, id);
    hide S.OnFrame;
    assert ViewOf(w, id) == ViewOf(n, id).(up := Sum(Of(n.up[1..], id)));
    assert Next(n, ServerDeliver(0)) == AtServer(w, S.OnFrame(n.server, n.up[0], 0));
    if n.up[0].id == id { RisingHandle(ViewOf(n, id), n.up[0], Sum(Of(n.up[1..], id)), aim); }
    hide ViewOf;
    hide A.ServerHandle;
  }

  /** _read of the server's stream. */
  lemma ReadSending(n: Net, id: nat, aim: Aim)
    requires Sending(n, id, aim) && id in n.server.streams
    ensures var m := Next(n, ServerCall(id, Read));
      && Sending(m, id, aim) && m.up == n.up && m.client == n.client && id in m.server.streams
      && (!n.server.streams[id].finished && !n.server.streams[id].closeReceived
          ==> ServerOwes(m.server, id) == 0 && !m.server.streams[id].finished && !m.server.streams[id].closeReceived)
  {
    Took(n, ServerCall(id, Read));
    ReadCalled(n, id);
    hide Reachable;
    hide Sum;
  }

  lemma RisingReceive(v: View, f: Frame, rest: Chan, aim: Aim)
    requires Ok(v) && Rising(v, aim) && v.down == Before(f, rest) && !f.Reset?
    ensures Rising(V.ClientHandle(v.(down := rest), f), aim)
  {
    if f.Open? { V.OpenOk(v, f, rest); }
  }

  /** A frame reaches the client. */
  lemma ReceiveSending(n: Net, id: nat, aim: Aim)
    requires Sending(n, id, aim) && n.down != [] && id in n.server.streams
    ensures var m := Next(n, ClientDeliver);
      && Sending(m, id, aim) && m.server == n.server && m.up == n.up && m.down == n.down[1..]
      && id in m.client.streams && m.client.streams[id].pieces == n.client.streams[id].pieces
  {
    ReachableInv(n);
    NoResetOnWire(n, id);
    OpenIsNew(n);
    assert Ok(ViewOf(n, id)) && id in n.client.streams;
    Took(n, ClientDeliver);
    hide Reachable;
    hide Ok;
    hide Streams;
    var f := n.down[0];
    assert f in n.down;
    ClientDeliverSeen(n, id);
    if f.id == id {
      Popped(n.down, id);
      assert ViewOf(n, id).down == Sum(Of(n.down, id));
      RisingReceive(ViewOf(n, id), f, Sum(Of(n.down[1..], id)), aim);
    }
    hide Sum;
    hide Rising;
  }

  /** One chunk goes out. */
  lemma PieceSending(n: Net, id: nat, aim: Aim)
    requires Sending(n, id, aim) && id in n.client.streams && n.client.streams[id].pieces != []
    requires |n.client.streams[id].pieces[0]| <= n.client.streams[id].credit && !n.client.streams[id].dropped
    ensures var m := Next(n, ClientCall(id, SendPiece));
      && Sending(m, id, aim) && m.server == n.server && m.down == n.down
      && id in m.client.streams && m.client.streams[id].pieces == n.client.streams[id].pieces[1..]
  {
    Took(n, ClientCall(id, SendPiece));
    PieceCalled(n, id);
    hide Reachable;
    hide Sum;
  }

  /** The client closes, once its sends are over. */
  lemma CloseSending(n: Net, id: nat, aim: Aim)
    requires Sending(n, id, aim) && PiecesOf(n, id, []) && !n.client.streams[id].dropped
    ensures var m := Next(n, ClientCall(id, CloseStream)); Sending(m, id, aim.(ended := true)) && PiecesOf(m, id, [])
  {
    Took(n, ClientCall(id, CloseStream));
    CloseCalled(n, id);
    hide Reachable;
    hide Sum;
  }

  // ----- schedules -----

  /** The events a schedule may use: frames arriving in order at either end, reads of this
      stream at the server, and its pending chunks at the client. */
  ghost predicate Serving(events: seq<Event>, id: nat) {
    forall i :: 0 <= i < |events| ==>
      var e := events[i];
      e.ServerDeliver? || e.ClientDeliver? || e == ServerCall(id, Read) || e == ClientCall(id, SendPiece)
  }

  lemma First(n: Net, e: Event, rest: seq<Event>, id: nat) returns (events: seq<Event>)
    requires Serving([e], id) && Serving(rest, id)
    ensures Serving(events, id) && Run(n, events) == Run(Next(n, e), rest)
  {
    events := [e] + rest;
    assert events[1..] == rest && [e][0] == e;
  }

  /** Everything on its way to the server arrives, so the server knows the stream. */
  lemma {:induction false} ServeAll(n: Net, id: nat, aim: Aim) returns (events: seq<Event>)
    requires Sending(n, id, aim)
    ensures Serving(events, id)
    ensures var m := Run(n, events); Sending(m, id, aim) && m.up == [] && m.client == n.client && id in m.server.streams
    decreases |n.up|
  {
    if n.up == [] {
      events := [];
      ReachableInv(n);
      assert Ok(ViewOf(n, id));
    } else {
      ServeSending(n, id, aim);
      hide Sending;
      hide Next;
      var rest := ServeAll(Next(n, ServerDeliver(0)), id, aim);
      events := First(n, ServerDeliver(0), rest, id);
    }
  }

  /** Everything on its way to the client arrives, and the credit with it. */
  lemma {:induction false} ReceiveAll(n: Net, id: nat, aim: Aim, pieces: seq<seq<Byte>>) returns (events: seq<Event>)
    requires Sending(n, id, aim) && id in n.server.streams && PiecesOf(n, id, pieces)
    ensures Serving(events, id)
    ensures var m := Run(n, events); Sending(m, id, aim) && m.server == n.server && m.up == n.up && m.down == [] && PiecesOf(m, id, pieces)
    decreases |n.down|
  {
    if n.down == [] {
      events := [];
    } else {
      ReceiveSending(n, id, aim);
      hide Sending;
      hide Next;
      var rest := ReceiveAll(Next(n, ClientDeliver), id, aim, pieces);
      events := First(n, ClientDeliver, rest, id);
    }
  }

  /** A chunk that waits means that the client has not closed, so the server still takes. */
  lemma StillTaking(n: Net, id: nat, aim: Aim)
    requires Sending(n, id, aim) && id in n.client.streams && n.client.streams[id].pieces != []
    ensures n.client.streams[id].pieces[0] != [] && |n.client.streams[id].pieces[0]| <= CHUNK && !n.client.streams[id].dropped
    ensures id in n.server.streams ==> !n.server.streams[id].finished && !n.server.streams[id].closeReceived
  {
    ReachableInv(n);
    assert Ok(ViewOf(n, id));
    NothingLostUp(ViewOf(n, id), aim);
  }

  /** With everything delivered and read, the next chunk has its credit and goes out. */
  lemma NextPiece(n: Net, id: nat, aim: Aim)
    requires Sending(n, id, aim) && n.up == [] && n.down == [] && id in n.server.streams && ServerOwes(n.server, id) == 0
    requires id in n.client.streams && n.client.streams[id].pieces != []
    ensures var m := Next(n, ClientCall(id, SendPiece)); Sending(m, id, aim) && PiecesOf(m, id, n.client.streams[id].pieces[1..])
  {
    StillTaking(n, id, aim);
    UpNeverStarves(n, id);
    PieceSending(n, id, aim);
  }

  /** One round: what is on its way arrives, the server reads, its credit comes back and a
      chunk goes out. */
  lemma SendOne(n: Net, id: nat, aim: Aim, pieces: seq<seq<Byte>>) returns (events: seq<Event>)
    requires Sending(n, id, aim) && n.up == [] && id in n.server.streams && PiecesOf(n, id, pieces) && pieces != []
    ensures Serving(events, id) && Sending(Run(n, events), id, aim) && PiecesOf(Run(n, events), id, pieces[1..])
  {
    StillTaking(n, id, aim);
    ReadSending(n, id, aim);
    var n1 := Next(n, ServerCall(id, Read));
    hide Sending;
    hide Next;
    var es := ReceiveAll(n1, id, aim, pieces);
    var n2 := Run(n1, es);
    NextPiece(n2, id, aim);
    var last := First(n2, ClientCall(id, SendPiece), [], id);
    RunTwice(n1, es, last);
    events := First(n, ServerCall(id, Read), es + last, id);
  }

  /** Everything the client was given was handed to the server's side, with its CLOSE if
      the client had closed. */
  ghost predicate Served(n: Net, id: nat, aim: Aim) {
    && Sending(n, id, aim) && PiecesOf(n, id, []) && id in n.server.streams
    && n.client.streams[id].accepted == aim.accepted == n.server.streams[id].pushed
    && (aim.ended ==> n.server.streams[id].closeReceived)
  }

  lemma AllServed(n: Net, id: nat, aim: Aim)
    requires Sending(n, id, aim) && n.up == [] && id in n.server.streams && PiecesOf(n, id, [])
    ensures Served(n, id, aim)
  {
    ReachableInv(n);
    assert Ok(ViewOf(n, id));
    NothingLostUp(ViewOf(n, id), aim);
    var pushed := n.server.streams[id].pushed;
    assert pushed + [] + [] == pushed;
  }

  /** Such rounds, until nothing waits at the client. */
  lemma {:induction false} Serves(n: Net, id: nat, aim: Aim, pieces: seq<seq<Byte>>) returns (events: seq<Event>)
    requires Sending(n, id, aim) && PiecesOf(n, id, pieces)
    ensures Serving(events, id) && Served(Run(n, events), id, aim)
    decreases |pieces|
  {
    hide Sending;
    hide Next;
    var es := ServeAll(n, id, aim);
    var m := Run(n, es);
    if pieces == [] {
      AllServed(m, id, aim);
      events := es;
    } else {
      hide Served;
      var fs := SendOne(m, id, aim, pieces);
      hide PiecesOf;
      var gs := Serves(Run(m, fs), id, aim, pieces[1..]);
      RunTwice(m, fs, gs);
      RunTwice(n, es, fs + gs);
      events := es + (fs + gs);
    }
  }

  /** From every reachable state in which the connection is up, the client's stream lives and
      the server has not finished it, a finite schedule of arriving frames, reads and pending
      chunks hands the server everything the client was given, and CLOSE if it closed. */
  lemma EverythingServed(n: Net, id: nat) returns (events: seq<Event>)
    requires Reachable(n) && UpAlive(n, id) && id in n.client.streams && !n.client.streams[id].dead
    ensures Serving(events, id)
    ensures var c := n.client.streams[id]; Served(Run(n, events), id, Aim(c.accepted, c.closeSent))
  {
    ReachableInv(n);
    assert Ok(ViewOf(n, id));
    var c := n.client.streams[id];
    events := Serves(n, id, Aim(c.accepted, c.closeSent), c.pieces);
  }

  /** And if the client calls close() once its sends are over, its CLOSE arrives too, after
      all its bytes. */
  lemma CloseArrives(n: Net, id: nat) returns (before: seq<Event>, after: seq<Event>)
    requires Reachable(n) && UpAlive(n, id) && id in n.client.streams && !n.client.streams[id].dead
    ensures Serving(before, id) && Serving(after, id)
    ensures Served(Run(n, before + [ClientCall(id, CloseStream)] + after), id, Aim(n.client.streams[id].accepted, true))
  {
    var aim := Aim(n.client.streams[id].accepted, n.client.streams[id].closeSent);
    before := EverythingServed(n, id);
    var m := Run(n, before);
    Undropped(m, id, aim);
    CloseSending(m, id, aim);
    var e := ClientCall(id, CloseStream);
    hide Next;
    hide Sending;
    hide UpAlive;
    after := Serves(Next(m, e), id, aim.(ended := true), []);
    assert ([e] + after)[1..] == after;
    RunTwice(n, before, [e] + after);
    assert before + [e] + after == before + ([e] + after);
  }

  lemma Undropped(n: Net, id: nat, aim: Aim)
    requires Sending(n, id, aim) && id in n.client.streams
    ensures !n.client.streams[id].dropped
  {
    ReachableInv(n);
    assert Ok(ViewOf(n, id));
  }
}
