/** The client's Credit, stream handles and Mux objects. A method is what runs between
    two await points; each is proved to do what the functions of ClientSpec say. */
module MuxClient {
  import opened Prelude
  import opened MuxTypes
  import C = ClientSpec

  /** Send credit of one stream. */
  class Credit {
    var available: int

    constructor ()
      ensures available == WINDOW
    {
      available := WINDOW;
    }

    method Add(n: nat)
      modifies this
      ensures available == old(available) + n
    {
      available := available + n;
    }

    /** One turn of the loop in `take`: None means it waits to be notified. */
    method Take(n: nat, dead: bool) returns (taken: Option<bool>)
      modifies this
      ensures taken == if dead then Some(false) else if old(available) >= n then Some(true) else None
      ensures available == if taken == Some(true) then old(available) - n else old(available)
    {
      if dead { return Some(false); }
      if available >= n {
        available := available - n;
        return Some(true);
      }
      return None;
    }
  }

  /** Shared, with the writer and reader handles of the same stream. */
  class Handle {
    const mux: Mux
    const id: nat
    const credit: Credit
    var dead: bool
    var closeSent: bool
    var closeReceived: bool
    var rx: seq<Incoming>
    var rxOpen: bool
    var unacked: nat
    var parked: bool
    var pieces: seq<seq<Byte>>
    var dropped: bool
    ghost var accepted: seq<Byte>
    ghost var taken: seq<Byte>
    ghost var resets: nat

    ghost function State(): C.Stream
      reads this, credit
    {
      C.Stream(credit.available, dead, closeSent, closeReceived, rx, rxOpen, unacked, parked, pieces, dropped, accepted, taken, resets)
    }

    constructor (mux: Mux, id: nat)
      ensures this.mux == mux && this.id == id && fresh(credit) && State() == C.FRESH
    {
      this.mux, this.id := mux, id;
      credit := new Credit();
      dead, closeSent, closeReceived := false, false, false;
      rx, rxOpen, unacked, parked, pieces, dropped := [], true, 0, false, [], false;
      accepted, taken, resets := [], [], 0;
    }

    /** A dropped stream has left the table. */
    ghost predicate Listed()
      reads this, mux
    {
      dropped ==> id !in mux.streams
    }

    /** The stream and its mux have become what `out` says. */
    twostate predicate Did(o: C.Out)
      reads this, credit, mux
    {
      && State() == o.s && Listed()
      && mux.closed == old(mux.closed) && mux.nextId == old(mux.nextId)
      && mux.fifo == old(mux.fifo) + (if mux.closed then [] else o.fifo)
      && mux.loose == old(mux.loose) + (if mux.closed then [] else o.loose)
      && mux.streams == (if o.s.dropped then old(mux.streams) - {id} else old(mux.streams))
    }

    // ----- MuxWriter -----

    method SendBegin(data: seq<Byte>)
      requires Listed() && !dropped && pieces == [] && !closeSent
      modifies this
      ensures Did(C.Stay(C.SendBegin(old(State()), data)))
    {
      pieces := Chunks(data);
      accepted := accepted + data;
    }

    method SendPiece() returns (done: bool)
      requires Listed() && !dropped && pieces != []
      modifies this, credit, mux
      ensures Did(C.SendPiece(old(State()), id, old(mux.closed)))
      ensures done <==> pieces == []
    {
      var took := credit.Take(|pieces[0]|, dead);
      if took == Some(false) {
        pieces := [];
      } else if took == Some(true) {
        var open := mux.Send(Data(id, pieces[0]));
        pieces := if open then pieces[1..] else [];
      }
      return pieces == [];
    }

    method SendDatagram(data: seq<Byte>)
      requires Listed() && !dropped
      modifies mux
      ensures Did(C.SendDatagram(old(State()), id, data))
    {
      if |data| > MAX_DATAGRAM { return; }
      if dead { return; }
      var open := mux.Send(Datagram(id, data));
    }

    method Close()
      requires Listed() && !dropped && pieces == []
      modifies this, mux
      ensures Did(C.CloseStream(old(State()), id))
    {
      if dead || closeSent { return; }
      closeSent := true;
      var open := mux.Send(MuxTypes.Close(id));
    }

    method Reset()
      requires Listed() && !dropped
      modifies this, mux
      ensures Did(C.ResetStream(old(State()), id))
    {
      if dead { return; }
      dead := true;
      resets := resets + 1;
      mux.TrySend(MuxTypes.Reset(id));
    }

    // ----- MuxReader -----

    method Ack()
      requires Listed()
      modifies this, mux
      ensures Did(C.Ack(old(State()), id))
    {
      if unacked == 0 || dead { return; }
      var n := unacked;
      unacked := 0;
      mux.TrySend(Update(id, n));
    }

    method RecvBegin()
      requires Listed() && rxOpen
      modifies this, mux
      ensures Did(C.RecvBegin(old(State()), id))
    {
      if unacked >= ACK_THRESHOLD { Ack(); }
      parked := true;
    }

    method RecvTake() returns (item: Incoming)
      requires Listed() && rxOpen && parked && rx != []
      modifies this
      ensures Did(C.Stay(C.RecvTake(old(State())))) && item == old(rx[0])
    {
      ghost var was := State();
      item := rx[0];
      assert C.RecvTake(was) == C.Noted(was.(rx := was.rx[1..], parked := false), item);
      hide C.RecvTake;
      hide C.Noted;
      rx, parked := rx[1..], false;
      assert State() == was.(rx := was.rx[1..], parked := false);
      Note(item);
    }

    method Note(item: Incoming)
      modifies this
      ensures State() == C.Noted(old(State()), item) && dropped == old(dropped)
    {
      match item
      case GotData(bytes) =>
        unacked := unacked + |bytes|;
        taken := taken + bytes;
      case GotClose => closeReceived := true;
      case GotReset => dead := true;
      case GotDatagram(_) =>
    }

    method DropReader()
      requires Listed()
      modifies this
      ensures Did(C.Stay(C.DropReader(old(State()))))
    {
      rxOpen, rx := false, [];
    }

    /** Shared::drop. */
    method Drop()
      requires Listed() && !dropped
      modifies this, mux
      ensures Did(C.DropShared(old(State()), id))
    {
      DropReader();
      dropped, pieces := true, [];
      mux.Forget(id);
      var clean := closeSent && closeReceived;
      if !dead && !clean {
        resets := resets + 1;
        mux.TrySend(MuxTypes.Reset(id));
      }
    }

    /** tx.send: an item for the reader, if it still exists. */
    method Put(item: Incoming)
      modifies this
      ensures State() == C.Put(old(State()), item)
    {
      if rxOpen { rx := rx + [item]; }
    }

    method Kill()
      modifies this
      ensures State() == Killed(old(State()))
    {
      dead := true;
      Put(GotReset);
    }

    /** The binary-frame arm of the reader task for a known stream. */
    method OnFrame(f: Frame)
      requires Listed() && !dropped && f.id == id
      modifies this, credit, mux
      ensures State() == C.Dispatch(old(State()), f)
      ensures mux.streams == if f.Reset? then old(mux.streams) - {id} else old(mux.streams)
      ensures mux.fifo == old(mux.fifo) && mux.loose == old(mux.loose) && mux.closed == old(mux.closed) && mux.nextId == old(mux.nextId)
    {
      match f
      case Data(_, payload) => Put(GotData(payload));
      case Datagram(_, payload) => Put(GotDatagram(payload));
      case Close(_) => Put(GotClose);
      case Reset(_) =>
        dead := true;
        Put(GotReset);
        mux.Forget(id);
      case Update(_, amount) => credit.Add(amount);
      case Open(_) =>
    }
  }

  ghost function Killed(s: C.Stream): C.Stream {
    C.Put(s.(dead := true), GotReset)
  }

  class Mux {
    var streams: map<nat, Handle>
    var nextId: nat
    var closed: bool
    var fifo: seq<Frame>     // what `send` put in the outgoing channel
    var loose: seq<Frame>    // what `try_send` handed to spawned tasks

    constructor ()
      ensures streams == map[] && nextId == 1 && !closed && fifo == [] && loose == []
    {
      streams, nextId, closed, fifo, loose := map[], 1, false, [], [];
    }

    method Send(f: Frame) returns (open: bool)
      modifies this`fifo
      ensures open == !closed && fifo == old(fifo) + if open then [f] else []
    {
      if closed { return false; }
      fifo := fifo + [f];
      return true;
    }

    method TrySend(f: Frame)
      modifies this`loose
      ensures loose == old(loose) + if closed then [] else [f]
    {
      if closed { return; }
      loose := loose + [f];
    }

    method Forget(id: nat)
      modifies this`streams
      ensures streams == old(streams) - {id}
    {
      streams := streams - {id};
    }

    method Register(id: nat) returns (handle: Handle)
      modifies this`streams
      ensures fresh(handle) && handle.id == id && handle.mux == this && handle.State() == C.FRESH && handle.Listed()
      ensures streams == old(streams)[id := handle]
    {
      handle := new Handle(this, id);
      streams := streams[id := handle];
    }

    /** None when not connected. */
    method Open() returns (handle: Handle?)
      requires nextId < ID_LIMIT
      modifies this
      ensures closed == old(closed) && loose == old(loose)
      ensures closed ==> handle == null && streams == old(streams) && fifo == old(fifo) && nextId == old(nextId)
      ensures !closed ==> handle != null && fresh(handle) && handle.State() == C.FRESH && handle.id == old(nextId)
      ensures !closed ==> streams == old(streams)[old(nextId) := handle] && nextId == old(nextId) + 2
      ensures !closed ==> fifo == old(fifo) + [MuxTypes.Open(old(nextId))]
    {
      if closed { return null; }
      var id := nextId;
      nextId := nextId + 2;
      handle := Register(id);
      var open := Send(MuxTypes.Open(id));
    }

    /** Every handle of the table is this mux's, under its own id, with credit of its own. */
    ghost predicate Table()
      reads this, streams.Values
    {
      && (forall id :: id in streams ==> streams[id].id == id && streams[id].mux == this && !streams[id].dropped)
      && (forall id, jd :: id in streams && jd in streams && id != jd ==> streams[id].credit != streams[jd].credit)
    }

    /** The binary-frame arm of the reader task: a frame for an unknown stream is ignored. */
    method Receive(f: Frame)
      requires Table()
      modifies this, if f.id in streams then {streams[f.id], streams[f.id].credit} else {}
      ensures fifo == old(fifo) && loose == old(loose) && closed == old(closed) && nextId == old(nextId)
      ensures f.Open? ==> f.id in streams && fresh(streams[f.id]) && streams[f.id].State() == C.FRESH && streams == old(streams)[f.id := streams[f.id]]
      ensures !f.Open? && f.id !in old(streams) ==> streams == old(streams)
      ensures !f.Open? && f.id in old(streams) ==>
        && old(streams)[f.id].State() == C.Dispatch(old(streams[f.id].State()), f)
        && streams == if f.Reset? then old(streams) - {f.id} else old(streams)
      ensures forall id :: id in old(streams) && id != f.id ==> old(streams)[id].State() == old(streams[id].State())
    {
      hide C.Dispatch;
      if f.Open? {
        var handle := Register(f.id);
      } else if f.id in streams {
        streams[f.id].OnFrame(f);
      }
    }

    /** Mux::shutdown: every stream in the table dies and its reader is told. */
    method Shutdown()
      requires forall id :: id in streams ==> streams[id].id == id
      modifies this, streams.Values
      ensures closed && streams == map[] && fifo == old(fifo) && loose == old(loose) && nextId == old(nextId)
      ensures forall id :: id in old(streams) ==>
                old(streams)[id].State() == Killed(old(streams[id].State()))
    {
      hide C.Put;
      hide Killed;
      hide Handle.State;
      closed := true;
      var entries, ids := streams, streams.Keys;
      streams := map[];
      while ids != {}
        invariant closed && streams == map[] && fifo == old(fifo) && loose == old(loose) && nextId == old(nextId) && ids <= entries.Keys
        invariant forall id :: id in entries ==>
                    entries[id].State() == if id in ids then old(entries[id].State()) else Killed(old(entries[id].State()))
        decreases ids
      {
        var id :| id in ids;
        entries[id].Kill();
        ids := ids - {id};
      }
    }
  }
}
