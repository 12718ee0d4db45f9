/** One direction of one stream, whichever end sends: where its credit is, where its
    bytes are, and how far its CLOSE has come. Both directions of every stream move
    only by the steps below. */
module Direction {
  import opened Prelude
  import opened MuxTypes

  datatype Dir = Dir(
    sending: bool,           // what the sender emits still reaches the wire
    taking: bool,            // DATA that arrives is still taken in
    exact: bool,             // no credit has been lost with an end
    window: int,             // the sender's credit
    wire: seq<Byte>,         // DATA bytes in flight
    held: nat,               // bytes received, not yet credited back
    back: nat,               // WINDOW_UPDATE amounts in flight
    accepted: seq<Byte>,     // bytes given to the sender so far
    queued: seq<Byte>,       // accepted, not yet sent
    got: seq<Byte>,          // bytes received so far
    closeSent: bool,
    closeOnWire: bool,
    closeSeen: bool)

  ghost predicate CreditOk(d: Dir) {
    && 0 <= d.window
    && d.window + |d.wire| + d.held + d.back <= WINDOW
    && (d.exact ==> d.window + |d.wire| + d.held + d.back == WINDOW)
  }

  ghost predicate OrderOk(d: Dir) {
    && Prefix(d.got, d.accepted)
    && (d.taking ==> Prefix(d.got + d.wire, d.accepted))
    && (d.taking && d.sending ==> d.got + d.wire + d.queued == d.accepted)
  }

  ghost predicate CloseOk(d: Dir) {
    && (d.closeSent ==> d.queued == [])
    && (d.closeOnWire || d.closeSeen ==> d.closeSent)
    && (d.closeSeen ==> d.wire == [] && d.got == d.accepted)
    && (d.taking && d.closeOnWire ==> d.got + d.wire == d.accepted)
    && (d.exact && d.closeSent ==> d.closeOnWire || d.closeSeen)
  }

  ghost predicate Ok(d: Dir) {
    CreditOk(d) && OrderOk(d) && CloseOk(d)
  }

  /** Losing an end, or the way to it, only weakens what is known. */
  function Only(d: Dir, sending: bool, taking: bool, exact: bool): Dir {
    d.(sending := d.sending && sending, taking := d.taking && taking, exact := d.exact && exact)
  }

  lemma OnlyOk(d: Dir, sending: bool, taking: bool, exact: bool)
    requires Ok(d)
    ensures Ok(Only(d, sending, taking, exact))
  {
  }

  /** The receiver forgets bytes it had not handed on. */
  function Forget(d: Dir, held: nat, got: seq<Byte>, closeSeen: bool): Dir {
    d.(taking := false, exact := false, held := held, got := got, closeSeen := closeSeen)
  }

  lemma ForgetOk(d: Dir, held: nat, got: seq<Byte>, closeSeen: bool)
    requires Ok(d) && held <= d.held && Prefix(got, d.got) && (closeSeen ==> d.closeSeen && got == d.got)
    ensures Ok(Forget(d, held, got, closeSeen))
  {
    IsPrefix(got, d.got);
    IsPrefix(d.got, d.accepted);
    IsPrefix(got, d.accepted);
  }

  lemma StopSending(d: Dir)
    requires Ok(d)
    ensures Ok(d.(sending := false, exact := false, queued := []))
  {
  }

  /** What is queued at a sender that no longer reaches the wire is lost. */
  lemma AbandonOk(d: Dir)
    requires Ok(d) && !d.sending
    ensures Ok(d.(queued := []))
  {
  }

  function Accept(d: Dir, bytes: seq<Byte>): Dir {
    d.(accepted := d.accepted + bytes, queued := d.queued + bytes)
  }

  lemma AcceptOk(d: Dir, bytes: seq<Byte>)
    requires Ok(d) && !d.closeSent
    ensures Ok(Accept(d, bytes))
  {
    assert d.got + d.wire + (d.queued + bytes) == (d.got + d.wire + d.queued) + bytes;
    IsPrefix(d.got, d.accepted);
    IsPrefix(d.got, d.accepted + bytes);
    IsPrefix(d.got + d.wire, d.accepted);
    IsPrefix(d.got + d.wire, d.accepted + bytes);
  }

  /** A piece leaves the sender; unless it is `sending`, the piece is lost. */
  function Send(d: Dir, piece: seq<Byte>, rest: seq<Byte>): Dir {
    d.(window := d.window - |piece|, wire := if d.sending then d.wire + piece else d.wire, queued := rest)
  }

  lemma SendOk(d: Dir, piece: seq<Byte>, rest: seq<Byte>)
    requires Ok(d) && !d.closeSent && |piece| <= d.window
    requires d.sending ==> d.queued == piece + rest
    requires d.exact ==> d.sending
    ensures Ok(Send(d, piece, rest))
  {
    if d.sending {
      assert d.got + (d.wire + piece) + rest == d.got + d.wire + (piece + rest);
      IsPrefix(d.got + (d.wire + piece), d.accepted);
    }
  }

  function SendClose(d: Dir): Dir {
    d.(closeSent := true, closeOnWire := d.closeOnWire || d.sending)
  }

  lemma SendCloseOk(d: Dir)
    requires Ok(d) && d.queued == [] && (d.exact ==> d.sending)
    ensures Ok(SendClose(d))
  {
    assert d.got + d.wire + [] == d.got + d.wire;
  }

  /** DATA reaches the receiver, which drops it unless it is `taking`. */
  function Arrive(d: Dir, bytes: seq<Byte>, rest: seq<Byte>): Dir {
    if d.taking then d.(wire := rest, got := d.got + bytes, held := d.held + |bytes|) else d.(wire := rest)
  }

  lemma ArriveOk(d: Dir, bytes: seq<Byte>, rest: seq<Byte>)
    requires Ok(d) && d.wire == bytes + rest
    requires d.exact ==> d.taking || bytes == []
    ensures Ok(Arrive(d, bytes, rest))
  {
    if d.taking {
      assert (d.got + bytes) + rest == d.got + (bytes + rest);
      IsPrefix(d.got + d.wire, d.accepted);
      IsPrefix(d.got + bytes, d.accepted);
    }
  }

  function ArriveClose(d: Dir, more: bool): Dir {
    d.(closeOnWire := more, closeSeen := d.closeSeen || d.taking)
  }

  lemma ArriveCloseOk(d: Dir, more: bool)
    requires Ok(d) && d.closeOnWire && d.wire == [] && (d.exact ==> d.taking || d.closeSeen)
    ensures Ok(ArriveClose(d, more))
  {
    assert d.got + [] == d.got;
  }

  /** The receiver credits n bytes; the update is lost unless `heard`. */
  function Credit(d: Dir, n: nat, heard: bool): Dir
    requires n <= d.held
  {
    d.(held := d.held - n, back := if heard then d.back + n else d.back)
  }

  lemma CreditStepOk(d: Dir, n: nat, heard: bool)
    requires Ok(d) && n <= d.held && (d.exact ==> heard)
    ensures Ok(Credit(d, n, heard))
  {
  }

  /** An update reaches the sender, or an end that no longer knows the stream. */
  function Credited(d: Dir, n: nat, known: bool): Dir
    requires n <= d.back
  {
    d.(back := d.back - n, window := if known then d.window + n else d.window)
  }

  lemma CreditedOk(d: Dir, n: nat, known: bool)
    requires Ok(d) && n <= d.back && (d.exact ==> known)
    ensures Ok(Credited(d, n, known))
  {
  }
}
