/** The server end of a session as values: what each MuxStream and MuxSession
    operation does to the state, and the frames it emits. The classes in
    MuxServer.dfy are proved to compute exactly these functions. */
module ServerSpec {
  import opened Prelude
  import opened MuxTypes

  /** One buffered write: its pieces, and how many of them have gone out. */
  datatype Item = Item(pieces: seq<seq<Byte>>, index: nat)

  datatype Stream = Stream(
    window: int,             // sendWindow
    pendingUpdate: nat,      // received, not yet credited to the peer
    queue: seq<Item>,        // writeQueue
    closeSent: bool,
    closeReceived: bool,
    resetReceived: bool,
    finished: bool,
    finalPending: bool,      // finalCallback is set
    ended: bool,             // history: _final was called, so no write follows
    accepted: seq<Byte>,     // history: every byte given to _write
    pushed: seq<Byte>,       // history: every byte handed to the reading side
    resets: nat              // history: RESET frames emitted for this stream
  )

  const FRESH: Stream := Stream(WINDOW, 0, [], false, false, false, false, false, false, [], [], 0)

  /** What one stream operation leaves behind. */
  datatype Out = Out(s: Stream, frames: seq<Frame>, wantDrain: bool)

  // ----- the write queue -----

  function ItemBytes(item: Item): seq<Byte> {
    if item.index <= |item.pieces| then Concat(item.pieces[item.index..]) else []
  }

  function QueueBytes(queue: seq<Item>): seq<Byte> {
    if queue == [] then [] else ItemBytes(queue[0]) + QueueBytes(queue[1..])
  }

  lemma {:induction false} QueueBytesAppend(a: seq<Item>, b: seq<Item>)
    ensures QueueBytes(a + b) == QueueBytes(a) + QueueBytes(b)
  {
    if a == [] {
      assert a + b == b;
    } else {
      QueueBytesAppend(a[1..], b);
      assert (a + b)[1..] == a[1..] + b && (a + b)[0] == a[0];
      hide ItemBytes;
      Regroup(ItemBytes(a[0]), QueueBytes(a[1..]), QueueBytes(b));
    }
  }

  lemma ItemHead(item: Item)
    requires item.index < |item.pieces|
    ensures ItemBytes(item) == item.pieces[item.index] + ItemBytes(item.(index := item.index + 1))
  {
    assert item.pieces[item.index..][1..] == item.pieces[item.index + 1..];
  }

  lemma QueueHead(item: Item, rest: seq<Item>)
    ensures QueueBytes([item] + rest) == ItemBytes(item) + QueueBytes(rest)
  {
    assert ([item] + rest)[1..] == rest;
  }

  lemma SendHeadBytes(queue: seq<Item>)
    requires queue != [] && queue[0].index < |queue[0].pieces|
    ensures QueueBytes(queue) == queue[0].pieces[queue[0].index] + QueueBytes([queue[0].(index := queue[0].index + 1)] + queue[1..])
  {
    var item := queue[0];
    var next := item.(index := item.index + 1);
    assert QueueBytes(queue) == ItemBytes(item) + QueueBytes(queue[1..]);
    hide QueueBytes;
    ItemHead(item);
    hide ItemBytes;
    QueueHead(next, queue[1..]);
    Regroup(item.pieces[item.index], ItemBytes(next), QueueBytes(queue[1..]));
  }

  ghost predicate Items(queue: seq<Item>) {
    forall i :: 0 <= i < |queue| ==> queue[i].index <= |queue[i].pieces| && Pieces(queue[i].pieces)
  }

  /** Loop iterations left in _flushWrites. */
  function Work(queue: seq<Item>): nat {
    if queue == [] then 0
    else 1 + (if queue[0].index <= |queue[0].pieces| then |queue[0].pieces| - queue[0].index else 0) + Work(queue[1..])
  }

  // ----- MuxStream -----

  function MaybeFinish(s: Stream): Stream {
    if s.closeSent && s.closeReceived && !s.finished then s.(finished := true) else s
  }

  function SendClose(s: Stream, id: nat): Out {
    if s.closeSent || s.finished then Out(s, [], false)
    else Out(MaybeFinish(s.(closeSent := true)), [Close(id)], false)
  }

  /** The head piece goes out. */
  function SendHead(s: Stream): Stream
    requires s.queue != [] && s.queue[0].index < |s.queue[0].pieces|
  {
    var item := s.queue[0];
    s.(window := s.window - |item.pieces[item.index]|, queue := [item.(index := item.index + 1)] + s.queue[1..])
  }

  /** _flushWrites. `budget` is the number of pieces that may go out before
      bufferedAmount() exceeds the high-water mark. */
  function Flush(s: Stream, id: nat, budget: nat): Out
    decreases Work(s.queue)
  {
    if s.queue == [] || s.finished then
      if s.queue == [] && s.finalPending then SendClose(s.(finalPending := false), id) else Out(s, [], false)
    else
      var item := s.queue[0];
      if item.index >= |item.pieces| then Flush(s.(queue := s.queue[1..]), id, budget)
      else
        var piece := item.pieces[item.index];
        if s.window < |piece| || budget == 0 then Out(s, [], true)
        else
          var rest := Flush(SendHead(s), id, budget - 1);
          Out(rest.s, [Data(id, piece)] + rest.frames, rest.wantDrain)
  }

  /** Where one turn of _flushWrites leads. */
  lemma Turn(s: Stream, id: nat, left: nat)
    ensures s.queue == [] || s.finished ==>
              Flush(s, id, left) == if s.queue == [] && s.finalPending then SendClose(s.(finalPending := false), id) else Out(s, [], false)
    ensures s.queue != [] && !s.finished && s.queue[0].index >= |s.queue[0].pieces| ==>
              Flush(s, id, left) == Flush(s.(queue := s.queue[1..]), id, left) && Work(s.queue[1..]) < Work(s.queue)
    ensures s.queue != [] && !s.finished && s.queue[0].index < |s.queue[0].pieces| ==>
              var piece := s.queue[0].pieces[s.queue[0].index];
              if s.window < |piece| || left == 0 then Flush(s, id, left) == Out(s, [], true)
              else
                var rest := Flush(SendHead(s), id, left - 1);
                Flush(s, id, left) == Out(rest.s, [Data(id, piece)] + rest.frames, rest.wantDrain)
                && Work(SendHead(s).queue) < Work(s.queue)
  {
  }

  function Write(s: Stream, id: nat, chunk: seq<Byte>, budget: nat): Out {
    if s.finished then Out(s, [], false)
    else Flush(s.(queue := s.queue + [Item(Chunks(chunk), 0)], accepted := s.accepted + chunk), id, budget)
  }

  function Final(s: Stream, id: nat, budget: nat): Out {
    if s.finished then Out(s.(ended := true), [], false)
    else Flush(s.(finalPending := true, ended := true), id, budget)
  }

  function Read(s: Stream, id: nat): Out {
    if s.pendingUpdate > 0 && !s.finished && !s.closeReceived
    then Out(s.(pendingUpdate := 0), [Update(id, s.pendingUpdate)], false)
    else Out(s, [], false)
  }

  function Destroy(s: Stream, id: nat): Out {
    var s0 := s.(queue := []);
    if s.finished then Out(s0, [], false)
    else if s.resetReceived || (s.closeSent && s.closeReceived) then Out(s0.(finished := true), [], false)
    else Out(s0.(finished := true, resets := s.resets + 1), [Reset(id)], false)
  }

  function SendDatagram(s: Stream, id: nat, data: seq<Byte>, room: bool): Out {
    if s.finished || |data| > MAX_DATAGRAM || !room then Out(s, [], false)
    else Out(s, [Datagram(id, data)], false)
  }

  function OnData(s: Stream, payload: seq<Byte>): Out {
    if s.closeReceived || s.finished then Out(s, [], false)
    else Out(s.(pendingUpdate := s.pendingUpdate + |payload|, pushed := s.pushed + payload), [], false)
  }

  function OnClose(s: Stream): Out {
    if s.closeReceived then Out(s, [], false) else Out(MaybeFinish(s.(closeReceived := true)), [], false)
  }

  function OnReset(s: Stream, id: nat): Out {
    Destroy(s.(resetReceived := true), id)
  }

  function OnUpdate(s: Stream, id: nat, amount: nat, budget: nat): Out {
    Flush(s.(window := s.window + amount), id, budget)
  }

  function Dispatch(s: Stream, f: Frame, budget: nat): Out {
    match f
    case Data(_, payload) => OnData(s, payload)
    case Close(_) => OnClose(s)
    case Reset(id) => OnReset(s, id)
    case Update(id, amount) => OnUpdate(s, id, amount, budget)
    case _ => Out(s, [], false)
  }

  // ----- MuxSession -----

  /** `streams` holds every stream ever created, `table` the ids in the session's
      Map; `waiting` is waitingForDrain in insertion order. */
  datatype End = End(
    streams: map<nat, Stream>,
    table: set<nat>,
    nextId: nat,
    closed: bool,
    wsOpen: bool,            // ws.readyState is OPEN
    waiting: seq<nat>,
    timer: bool,             // drainTimer is armed
    bytesSent: nat,
    bytesReceived: nat
  )

  const INITIAL := End(map[], {}, 2, false, true, [], false, 0, 0)

  datatype Result = Result(end: End, frames: seq<Frame>)

  predicate Up(e: End) {
    !e.closed && e.wsOpen
  }

  /** The payload bytes _send adds to bytesSent. */
  function Volume(frames: seq<Frame>): nat {
    if frames == [] then 0
    else (if frames[0].Data? || frames[0].Datagram? then |frames[0].payload| else 0) + Volume(frames[1..])
  }

  function WantDrain(waiting: seq<nat>, id: nat): seq<nat> {
    if id in waiting then waiting else waiting + [id]
  }

  /** Stores the outcome of an operation of stream `id`. */
  function Apply(e: End, id: nat, out: Out): Result {
    var frames := if Up(e) then out.frames else [];
    Result(
      e.(streams := e.streams[id := out.s],
         table := if out.s.finished then e.table - {id} else e.table,
         waiting := if out.wantDrain then WantDrain(e.waiting, id) else e.waiting,
         timer := e.timer || out.wantDrain,
         bytesSent := e.bytesSent + Volume(frames)),
      frames)
  }

  function OpenStream(e: End): Result {
    if e.closed || e.nextId >= ID_LIMIT then Result(e, [])
    else
      Result(e.(streams := e.streams[e.nextId := FRESH], table := e.table + {e.nextId}, nextId := e.nextId + 2),
             if Up(e) then [Open(e.nextId)] else [])
  }

  function Counted(e: End, f: Frame): End {
    if f.Data? || f.Datagram? then e.(bytesReceived := e.bytesReceived + |f.payload|) else e
  }

  /** _onFrame. */
  function OnFrame(e0: End, f: Frame, budget: nat): Result {
    var e := Counted(e0, f);
    if f.Open? then
      if f.id in e.table then Result(e, [])
      else Result(e.(streams := e.streams[f.id := FRESH], table := e.table + {f.id}), [])
    else if f.id in e.table && f.id in e.streams then Apply(e, f.id, Dispatch(e.streams[f.id], f, budget))
    else Result(e, [])
  }

  /** The loop of _drain over the streams that were waiting. */
  function FlushAll(e: End, ids: seq<nat>, budgets: seq<nat>): (r: Result)
    requires |ids| == |budgets|
    ensures r.end.nextId == e.nextId && r.end.closed == e.closed && r.end.wsOpen == e.wsOpen
    ensures r.end.streams.Keys == e.streams.Keys
    decreases |ids|
  {
    if ids == [] then Result(e, [])
    else if ids[0] !in e.streams then FlushAll(e, ids[1..], budgets[1..])
    else
      var first := Apply(e, ids[0], Flush(e.streams[ids[0]], ids[0], budgets[0]));
      var rest := FlushAll(first.end, ids[1..], budgets[1..]);
      Result(rest.end, first.frames + rest.frames)
  }

  /** _drain; `room` says bufferedAmount() is not over the high-water mark. */
  function Drain(e: End, room: bool, budgets: seq<nat>): Result
    requires |budgets| == |e.waiting|
  {
    if e.waiting == [] then Result(e.(timer := false), [])
    else if !room then Result(e, [])
    else
      var r := FlushAll(e.(waiting := []), e.waiting, budgets);
      Result(if r.end.waiting == [] then r.end.(timer := false) else r.end, r.frames)
  }

  function Lost(s: Stream, id: nat): Stream {
    Destroy(s.(resetReceived := true), id).s
  }

  /** _onSocketClose. */
  function SocketClose(e: End): End {
    if e.closed then e
    else e.(closed := true, timer := false, table := {},
            streams := map id | id in e.streams :: if id in e.table then Lost(e.streams[id], id) else e.streams[id])
  }
}
