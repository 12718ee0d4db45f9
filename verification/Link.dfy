/** Both ends joined by the WebSocket: every run of the protocol is a sequence of
    events from the initial state. */
module Link {
  import opened Prelude
  import opened MuxTypes
  import S = ServerSpec
  import C = ClientSpec

  /** `down` and `up` are the FIFO WebSocket directions; `loose` holds client frames
      carried by spawned tasks, which may arrive in any order. */
  datatype Net = Net(server: S.End, client: C.End, down: seq<Frame>, up: seq<Frame>, loose: seq<Frame>)

  const INITIAL := Net(S.INITIAL, C.INITIAL, [], [], [])

  datatype ServerOp =
    | Write(chunk: seq<Byte>, budget: nat)
    | Final(finalBudget: nat)
    | Read
    | Destroy
    | ServerDatagram(data: seq<Byte>, room: bool)

  datatype ClientOp =
    | SendBegin(data: seq<Byte>)
    | SendPiece
    | ClientDatagram(datagram: seq<Byte>)
    | CloseStream
    | ResetStream
    | RecvBegin
    | RecvTake
    | DropReader
    | DropShared

  datatype Event =
    | ServerOpen
    | ServerCall(sid: nat, sop: ServerOp)
    | ServerDrain(room: bool, budgets: seq<nat>)
    | ServerDeliver(budget: nat)
    | ServerDeliverLoose(k: nat, looseBudget: nat)
    | WsClosing
    | SocketClose
    | ClientOpen
    | ClientCall(cid: nat, cop: ClientOp)
    | ClientDeliver
    | ClientShutdown

  /** A stream operation at the server. Node never calls _write or _final after
      _final. */
  function ServerStep(s: S.Stream, id: nat, op: ServerOp): S.Out {
    match op
    case Write(chunk, budget) => if s.ended then S.Out(s, [], false) else S.Write(s, id, chunk, budget)
    case Final(budget) => if s.ended then S.Out(s, [], false) else S.Final(s, id, budget)
    case Read => S.Read(s, id)
    case Destroy => S.Destroy(s, id)
    case ServerDatagram(data, room) => S.SendDatagram(s, id, data, room)
  }

  function ClientStep(s: C.Stream, id: nat, op: ClientOp, closed: bool): C.Out {
    match op
    case SendBegin(data) => C.Stay(C.SendBegin(s, data))
    case SendPiece => C.SendPiece(s, id, closed)
    case ClientDatagram(data) => C.SendDatagram(s, id, data)
    case CloseStream => C.CloseStream(s, id)
    case ResetStream => C.ResetStream(s, id)
    case RecvBegin => C.RecvBegin(s, id)
    case RecvTake => C.Stay(C.RecvTake(s))
    case DropReader => C.Stay(C.DropReader(s))
    case DropShared => C.DropShared(s, id)
  }

  function AtServer(n: Net, r: S.Result): Net {
    n.(server := r.end, down := n.down + r.frames)
  }

  function AtClient(n: Net, r: C.Result): Net {
    n.(client := r.end, up := n.up + r.fifo, loose := n.loose + r.loose)
  }

  /** One event; an event that is not enabled changes nothing. */
  function Next(n: Net, e: Event): Net {
    match e
    case ServerOpen => AtServer(n, S.OpenStream(n.server))
    case ServerCall(id, op) =>
      if id !in n.server.streams then n
      else AtServer(n, S.Apply(n.server, id, ServerStep(n.server.streams[id], id, op)))
    case ServerDrain(room, budgets) =>
      if !n.server.timer || |budgets| != |n.server.waiting| then n
      else AtServer(n, S.Drain(n.server, room, budgets))
    case ServerDeliver(budget) =>
      if n.server.closed || n.up == [] then n
      else AtServer(n.(up := n.up[1..]), S.OnFrame(n.server, n.up[0], budget))
    case ServerDeliverLoose(k, budget) =>
      if n.server.closed || k >= |n.loose| then n
      else AtServer(n.(loose := n.loose[..k] + n.loose[k + 1..]), S.OnFrame(n.server, n.loose[k], budget))
    case WsClosing => n.(server := n.server.(wsOpen := false))
    case SocketClose => n.(server := S.SocketClose(n.server))
    case ClientOpen => AtClient(n, C.OpenStream(n.client))
    case ClientCall(id, op) =>
      if id !in n.client.streams then n
      else AtClient(n, C.Apply(n.client, id, ClientStep(n.client.streams[id], id, op, n.client.closed)))
    case ClientDeliver =>
      if n.down == [] then n
      else n.(client := C.OnFrame(n.client, n.down[0]), down := n.down[1..])
    case ClientShutdown => n.(client := C.Shutdown(n.client))
  }

  function Run(n: Net, events: seq<Event>): Net
    decreases |events|
  {
    if events == [] then n else Run(Next(n, events[0]), events[1..])
  }

  ghost predicate Reachable(n: Net) {
    exists events :: Run(INITIAL, events) == n
  }
}
