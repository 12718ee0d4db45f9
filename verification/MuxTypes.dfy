/** Vocabulary shared by both ends of a multiplexed session: protocol constants,
    frames, and what a channel of frames carries for one stream. */
module MuxTypes {
  import opened Prelude

  const WINDOW := 1024 * 1024          // initial send credit of a stream, in bytes
  const CHUNK := 64 * 1024             // largest DATA payload either end emits
  const ACK_THRESHOLD := 256 * 1024    // the client credits once this much is consumed
  const MAX_DATAGRAM := 65507
  const ID_LIMIT := 0x1_0000_0000      // stream ids travel as 32-bit integers

  datatype Frame =
    | Open(id: nat)
    | Data(id: nat, payload: seq<Byte>)
    | Close(id: nat)
    | Update(id: nat, amount: nat)
    | Datagram(id: nat, payload: seq<Byte>)
    | Reset(id: nat)

  /** What the client's reader task hands to one stream's receive queue. */
  datatype Incoming = GotData(bytes: seq<Byte>) | GotDatagram(bytes: seq<Byte>) | GotClose | GotReset

  ghost predicate Pieces(pieces: seq<seq<Byte>>) {
    forall i :: 0 <= i < |pieces| ==> 0 < |pieces[i]| <= CHUNK
  }

  /** Cuts a write into pieces of at most CHUNK bytes. */
  function Chunks(data: seq<Byte>): (pieces: seq<seq<Byte>>)
    ensures Pieces(pieces)
    ensures Concat(pieces) == data
  {
    if data == [] then []
    else if |data| <= CHUNK then
      assert Concat([data][1..]) == [];
      [data]
    else
      var rest := Chunks(data[CHUNK..]);
      assert ([data[..CHUNK]] + rest)[1..] == rest;
      [data[..CHUNK]] + rest
  }

  /** Every piece is as long as it may be, but for the last. */
  lemma {:induction false} ChunksFull(data: seq<Byte>)
    ensures forall i :: 0 <= i < |Chunks(data)| - 1 ==> |Chunks(data)[i]| == CHUNK
    decreases |data|
  {
    if |data| > CHUNK {
      var rest := Chunks(data[CHUNK..]);
      ChunksFull(data[CHUNK..]);
      assert forall i :: 1 <= i < |Chunks(data)| ==> Chunks(data)[i] == rest[i - 1];
    }
  }

  // ----- one stream's share of a channel -----

  function Of(frames: seq<Frame>, id: nat): seq<Frame> {
    if frames == [] then []
    else (if frames[0].id == id then [frames[0]] else []) + Of(frames[1..], id)
  }

  lemma {:induction false} OfAppend(a: seq<Frame>, b: seq<Frame>, id: nat)
    ensures Of(a + b, id) == Of(a, id) + Of(b, id)
  {
    if a == [] {
      assert a + b == b;
    } else {
      OfAppend(a[1..], b, id);
      assert (a + b)[1..] == a[1..] + b;
    }
  }

  ghost predicate AllFor(frames: seq<Frame>, id: nat) {
    forall i :: 0 <= i < |frames| ==> frames[i].id == id
  }

  lemma {:induction false} OfAllFor(frames: seq<Frame>, owner: nat, id: nat)
    requires AllFor(frames, owner)
    ensures Of(frames, id) == if id == owner then frames else []
  {
    if frames != [] {
      OfAllFor(frames[1..], owner, id);
      assert frames == [frames[0]] + frames[1..];
    }
  }

  // ----- what a channel carries -----

  /** A summary of the frames in a channel, first to last. */
  datatype Chan = Chan(
    data: seq<Byte>,     // the DATA bytes, in order
    credits: nat,        // the sum of the WINDOW_UPDATE amounts
    close: bool,         // a CLOSE is among them
    open: bool,          // an OPEN is among them
    signals: bool,       // a WINDOW_UPDATE or RESET is among them
    others: bool,        // a frame of another kind is among them
    tidy: bool)          // no DATA bytes follow a CLOSE, and an OPEN only comes first

  const EMPTY := Chan([], 0, false, false, false, false, true)

  predicate Signal(f: Frame) {
    f.Update? || f.Reset?
  }

  function Bytes(f: Frame): seq<Byte> {
    if f.Data? then f.payload else []
  }

  function Amount(f: Frame): nat {
    if f.Update? then f.amount else 0
  }

  /** The summary with f in front. */
  function Before(f: Frame, rest: Chan): Chan {
    Chan(Bytes(f) + rest.data, Amount(f) + rest.credits, f.Close? || rest.close, f.Open? || rest.open,
         Signal(f) || rest.signals, !Signal(f) || rest.others,
         rest.tidy && !rest.open && (f.Close? ==> rest.data == []))
  }

  /** The summary with f at the end. */
  function After(ch: Chan, f: Frame): Chan {
    Chan(ch.data + Bytes(f), ch.credits + Amount(f), ch.close || f.Close?, ch.open || f.Open?,
         ch.signals || Signal(f), ch.others || !Signal(f),
         ch.tidy && (ch.close ==> Bytes(f) == []) && (f.Open? ==> !ch.signals && !ch.others))
  }

  function Sum(frames: seq<Frame>): Chan {
    if frames == [] then EMPTY else Before(frames[0], Sum(frames[1..]))
  }

  function AfterAll(ch: Chan, frames: seq<Frame>): Chan
    decreases |frames|
  {
    if frames == [] then ch else AfterAll(After(ch, frames[0]), frames[1..])
  }

  lemma BeforeAfter(f: Frame, ch: Chan, g: Frame)
    ensures Before(f, After(ch, g)) == After(Before(f, ch), g)
  {
    assert Bytes(f) + (ch.data + Bytes(g)) == (Bytes(f) + ch.data) + Bytes(g);
  }

  lemma {:induction false} SumSnoc(frames: seq<Frame>, f: Frame)
    ensures Sum(frames + [f]) == After(Sum(frames), f)
  {
    if frames == [] {
      assert ([] + [f])[1..] == [];
      assert [] + Bytes(f) == Bytes(f) + [];
    } else {
      SumSnoc(frames[1..], f);
      assert (frames + [f])[1..] == frames[1..] + [f];
      BeforeAfter(frames[0], Sum(frames[1..]), f);
    }
  }

  lemma {:induction false} SumAppend(a: seq<Frame>, b: seq<Frame>)
    ensures Sum(a + b) == AfterAll(Sum(a), b)
    decreases |b|
  {
    if b == [] {
      assert a + b == a;
    } else {
      SumSnoc(a, b[0]);
      SumAppend(a + [b[0]], b[1..]);
      assert a + b == a + [b[0]] + b[1..];
    }
  }

  lemma {:induction false} SumParts(a: seq<Frame>, b: seq<Frame>)
    ensures Sum(a + b).credits == Sum(a).credits + Sum(b).credits
    ensures Sum(a + b).others <==> Sum(a).others || Sum(b).others
    ensures Sum(a + b).signals <==> Sum(a).signals || Sum(b).signals
  {
    if a == [] {
      assert a + b == b;
    } else {
      SumParts(a[1..], b);
      assert (a + b)[1..] == a[1..] + b;
    }
  }

  /** Taking the k-th frame out of a channel without order. */
  lemma SumPull(d: seq<Frame>, k: nat)
    requires k < |d|
    ensures Sum(d).credits == Sum(d[..k] + d[k + 1..]).credits + Amount(d[k])
    ensures Sum(d).others <==> Sum(d[..k] + d[k + 1..]).others || !Signal(d[k])
    ensures Sum(d).signals <==> Sum(d[..k] + d[k + 1..]).signals || Signal(d[k])
  {
    var tail := d[k + 1..];
    assert d == d[..k] + ([d[k]] + tail);
    assert ([d[k]] + tail)[1..] == tail;
    assert Sum([d[k]] + tail) == Before(d[k], Sum(tail));
    hide Sum;
    SumParts(d[..k], [d[k]] + tail);
    SumParts(d[..k], tail);
  }

  /** The DATA bytes waiting in a client receive queue, in order. */
  function BytesIn(rx: seq<Incoming>): seq<Byte> {
    if rx == [] then []
    else (if rx[0].GotData? then rx[0].bytes else []) + BytesIn(rx[1..])
  }

  lemma {:induction false} BytesInAppend(a: seq<Incoming>, b: seq<Incoming>)
    ensures BytesIn(a + b) == BytesIn(a) + BytesIn(b)
  {
    if a == [] {
      assert a + b == b;
    } else {
      BytesInAppend(a[1..], b);
      assert (a + b)[1..] == a[1..] + b;
    }
  }

  /** No DATA bytes wait behind a CLOSE. */
  ghost predicate ClosedLastIn(rx: seq<Incoming>) {
    rx != [] ==> ClosedLastIn(rx[1..]) && (rx[0] == GotClose ==> BytesIn(rx[1..]) == [])
  }

  lemma {:induction false} ClosedLastAppend(rx: seq<Incoming>, item: Incoming)
    requires ClosedLastIn(rx) && (item.GotData? && GotClose in rx ==> item.bytes == [])
    ensures ClosedLastIn(rx + [item])
  {
    if rx == [] {
      assert ([] + [item])[1..] == [];
    } else {
      assert (rx + [item])[1..] == rx[1..] + [item];
      ClosedLastAppend(rx[1..], item);
      BytesInAppend(rx[1..], [item]);
      assert BytesIn([item]) == (if item.GotData? then item.bytes else []) + BytesIn([item][1..]);
    }
  }

  // ----- prefixes -----

  /** The same as a <= b (see IsPrefix), in a form that unfolds one byte at a time. */
  ghost predicate Prefix(a: seq<Byte>, b: seq<Byte>) {
    a != [] ==> b != [] && a[0] == b[0] && Prefix(a[1..], b[1..])
  }

  lemma {:induction false} IsPrefix(a: seq<Byte>, b: seq<Byte>)
    ensures Prefix(a, b) <==> a <= b
  {
    if a != [] && b != [] {
      IsPrefix(a[1..], b[1..]);
      if a[0] == b[0] && a[1..] <= b[1..] {
        assert a == [a[0]] + a[1..] && b == [b[0]] + b[1..];
      }
    }
  }
}
