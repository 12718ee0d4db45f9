/** The client end of a session as values. Each function is what happens between
    two await points of cli/src/mux.rs; the classes in MuxClient.dfy are proved to
    compute exactly these functions. */
module ClientSpec {
  import opened Prelude
  import opened MuxTypes

  datatype Stream = Stream(
    credit: int,             // Credit.available
    dead: bool,
    closeSent: bool,
    closeReceived: bool,
    rx: seq<Incoming>,       // the unbounded receive channel
    rxOpen: bool,            // the MuxReader still exists
    unacked: nat,
    parked: bool,            // recv() is past its ack and waits on the channel
    pieces: seq<seq<Byte>>,  // chunks the current send() has not put on the wire
    dropped: bool,           // Shared was dropped
    accepted: seq<Byte>,     // history: every byte given to send()
    taken: seq<Byte>,        // history: every DATA byte recv() returned
    resets: nat              // history: RESET frames emitted for this stream
  )

  const FRESH: Stream := Stream(WINDOW, false, false, false, [], true, 0, false, [], false, [], [], 0)

  /** New state; frames put on the FIFO by `send`, and frames handed to a spawned
      task by `try_send`, which may overtake each other. */
  datatype Out = Out(s: Stream, fifo: seq<Frame>, loose: seq<Frame>)

  function Stay(s: Stream): Out {
    Out(s, [], [])
  }

  // ----- MuxWriter -----

  /** send(): starts a write. The pump awaits each send before the next one and
      never sends after close(), so otherwise nothing happens. */
  function SendBegin(s: Stream, data: seq<Byte>): Stream {
    if s.dropped || s.pieces != [] || s.closeSent then s
    else s.(pieces := Chunks(data), accepted := s.accepted + data)
  }

  /** One turn of Credit::take for the next chunk, and the send that follows it. */
  function SendPiece(s: Stream, id: nat, closed: bool): Out {
    if s.dropped || s.pieces == [] then Stay(s)
    else if s.dead then Stay(s.(pieces := []))
    else if s.credit < |s.pieces[0]| then Stay(s)
    else if closed then Stay(s.(credit := s.credit - |s.pieces[0]|, pieces := []))
    else Out(s.(credit := s.credit - |s.pieces[0]|, pieces := s.pieces[1..]), [Data(id, s.pieces[0])], [])
  }

  function SendDatagram(s: Stream, id: nat, data: seq<Byte>): Out {
    if s.dropped || |data| > MAX_DATAGRAM || s.dead then Stay(s) else Out(s, [Datagram(id, data)], [])
  }

  /** close(), which the pump calls only once its sends are over. */
  function CloseStream(s: Stream, id: nat): Out {
    if s.dropped || s.pieces != [] || s.dead || s.closeSent then Stay(s)
    else Out(s.(closeSent := true), [Close(id)], [])
  }

  function ResetStream(s: Stream, id: nat): Out {
    if s.dropped || s.dead then Stay(s)
    else Out(s.(dead := true, resets := s.resets + 1), [], [Reset(id)])
  }

  // ----- MuxReader -----

  function Ack(s: Stream, id: nat): Out {
    if s.unacked == 0 || s.dead then Stay(s)
    else Out(s.(unacked := 0), [], [Update(id, s.unacked)])
  }

  /** recv() up to its await. */
  function RecvBegin(s: Stream, id: nat): Out {
    if !s.rxOpen then Stay(s)
    else
      var acked := if s.unacked >= ACK_THRESHOLD then Ack(s, id) else Stay(s);
      acked.(s := acked.s.(parked := true))
  }

  /** What recv() notes of the item it returns. */
  function Noted(s: Stream, item: Incoming): Stream {
    match item
    case GotData(bytes) => s.(unacked := s.unacked + |bytes|, taken := s.taken + bytes)
    case GotClose => s.(closeReceived := true)
    case GotReset => s.(dead := true)
    case GotDatagram(_) => s
  }

  /** recv() once the channel has an item. */
  function RecvTake(s: Stream): Stream {
    if !s.rxOpen || !s.parked || s.rx == [] then s else Noted(s.(rx := s.rx[1..], parked := false), s.rx[0])
  }

  function DropReader(s: Stream): Stream {
    s.(rxOpen := false, rx := [])
  }

  /** Shared::drop, once the last writer and the reader are gone. */
  function DropShared(s: Stream, id: nat): Out {
    if s.dropped then Stay(s)
    else
      var gone := DropReader(s).(dropped := true, pieces := []);
      if s.dead || (s.closeSent && s.closeReceived) then Stay(gone)
      else Out(gone.(resets := s.resets + 1), [], [Reset(id)])
  }

  // ----- frames from the server -----

  function Put(s: Stream, item: Incoming): Stream {
    if s.rxOpen then s.(rx := s.rx + [item]) else s
  }

  function Dispatch(s: Stream, f: Frame): Stream {
    match f
    case Data(_, payload) => Put(s, GotData(payload))
    case Datagram(_, payload) => Put(s, GotDatagram(payload))
    case Close(_) => Put(s, GotClose)
    case Reset(_) => Put(s.(dead := true), GotReset)
    case Update(_, amount) => s.(credit := s.credit + amount)
    case Open(_) => s
  }

  // ----- Mux -----

  datatype End = End(streams: map<nat, Stream>, table: set<nat>, nextId: nat, closed: bool)

  const INITIAL := End(map[], {}, 1, false)

  datatype Result = Result(end: End, fifo: seq<Frame>, loose: seq<Frame>)

  /** Stores the outcome of an operation of stream `id`; nothing is sent once closed. */
  function Apply(e: End, id: nat, out: Out): Result {
    Result(e.(streams := e.streams[id := out.s], table := if out.s.dropped then e.table - {id} else e.table),
           if e.closed then [] else out.fifo,
           if e.closed then [] else out.loose)
  }

  function Register(e: End, id: nat): End {
    e.(streams := e.streams[id := FRESH], table := e.table + {id})
  }

  function OpenStream(e: End): Result {
    if e.closed || e.nextId >= ID_LIMIT then Result(e, [], [])
    else Result(Register(e, e.nextId).(nextId := e.nextId + 2), [Open(e.nextId)], [])
  }

  /** The binary-frame arm of the reader task. */
  function OnFrame(e: End, f: Frame): End {
    if f.Open? then Register(e, f.id)
    else if f.id in e.table && f.id in e.streams then
      e.(streams := e.streams[f.id := Dispatch(e.streams[f.id], f)],
         table := if f.Reset? then e.table - {f.id} else e.table)
    else e
  }

  function Shutdown(e: End): End {
    e.(closed := true, table := {},
       streams := map id | id in e.streams ::
                    if id in e.table then Put(e.streams[id].(dead := true), GotReset) else e.streams[id])
  }
}
