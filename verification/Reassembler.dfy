/** Reassembly of length-prefixed frames in the relay: the Python server's growing buffer, the C
    port's 256-byte one, and the function both compute. */
module Reassembler {
  import opened Cells
  import opened Stream

  const RX_CAP := 256
  const MAX_LEN := 200

  /** Given the bodies handled so far: did handling the last one kill the client? */
  type Handler = seq<bytes> -> bool

  datatype Fate = Open | BadLength(len: byte) | Dead

  /** Bodies handled, bytes left, and what became of the connection. */
  datatype Served = Served(calls: seq<bytes>, rest: bytes, fate: Fate)

  /** Handle every complete frame at the front of rx, until the handler kills the client. */
  function Extract(rx: bytes, done: seq<bytes>, kills: Handler): (r: Served)
    ensures r.fate.Open? ==> Waiting(r.rest)
    ensures done <= r.calls && forall i :: |done| <= i < |r.calls| ==> 1 <= |r.calls[i]| <= MAX_LEN
    decreases |rx|
  {
    if rx == [] then Served(done, rx, Open)
    else if rx[0] == 0 || rx[0] as int > MAX_LEN then Served(done, rx, BadLength(rx[0]))
    else
      var need := rx[0] as int + 1;
      if |rx| < need then Served(done, rx, Open) else
      var calls := done + [rx[1..need]];
      if kills(calls) then Served(calls, rx[need..], Dead) else Extract(rx[need..], calls, kills)
  }

  /** Nothing buffered, or the beginning of a frame. */
  predicate Waiting(rx: bytes) {
    rx == [] || (1 <= rx[0] as int <= MAX_LEN && |rx| <= rx[0] as int)
  }

  lemma WaitingExtract(rx: bytes, done: seq<bytes>, kills: Handler)
    requires Waiting(rx)
    ensures Extract(rx, done, kills) == Served(done, rx, Open)
  {
  }

  lemma ExtractFirst(rx: bytes, tail: bytes, done: seq<bytes>, kills: Handler)
    requires rx != [] && 1 <= rx[0] as int <= MAX_LEN && |rx| >= rx[0] as int + 1
    ensures var need := rx[0] as int + 1;
            var calls := done + [rx[1..need]];
            Extract(rx + tail, done, kills) ==
            if kills(calls) then Served(calls, rx[need..] + tail, Dead) else Extract(rx[need..] + tail, calls, kills)
  {
    var need := rx[0] as int + 1;
    assert (rx + tail)[1..need] == rx[1..need] && (rx + tail)[need..] == rx[need..] + tail;
  }

  lemma BadFirst(rx: bytes, tail: bytes, done: seq<bytes>, kills: Handler)
    requires rx != [] && (rx[0] == 0 || rx[0] as int > MAX_LEN)
    ensures Extract(rx + tail, done, kills) == Served(done, rx + tail, BadLength(rx[0]))
  {
  }

  /** What becomes of the bytes at hand, in plain numbers: a length byte of 0 or above 200 ends the connection with
      nothing more handled; otherwise the frame's body is handled as soon as all of it is there, and until
      then everything waits. */
  lemma FrontDecides(rx: bytes, done: seq<bytes>, kills: Handler)
    requires rx != []
    ensures var r := Extract(rx, done, kills);
            && (rx[0] == 0 || rx[0] > 200 ==> r == Served(done, rx, BadLength(rx[0])))
            && (1 <= rx[0] <= 200 && |rx| <= rx[0] as int ==> r == Served(done, rx, Open))
            && (1 <= rx[0] <= 200 && |rx| > rx[0] as int ==>
                  var calls := done + [rx[1..1 + rx[0] as int]];
                  r == if kills(calls) then Served(calls, rx[1 + rx[0] as int..], Dead) else Extract(rx[1 + rx[0] as int..], calls, kills))
  {
  }

  // ---- the stream, not its chunks ----------------------------------------------------------------

  /** More bytes later are the same as more bytes at once. */
  lemma {:induction false} ExtractMore(rx: bytes, tail: bytes, done: seq<bytes>, kills: Handler)
    requires Extract(rx, done, kills).fate.Open?
    ensures var r := Extract(rx, done, kills);
            Extract(rx + tail, done, kills) == Extract(r.rest + tail, r.calls, kills)
    decreases |rx|
  {
    if !Waiting(rx) {
      ExtractFirst(rx, tail, done, kills);
      var need := rx[0] as int + 1;
      ExtractMore(rx[need..], tail, done + [rx[1..need]], kills);
    }
  }

  /** Service of a connection whose reads are the given chunks; after a fate nothing is read. */
  function Fed(rx: bytes, chunks: seq<bytes>, done: seq<bytes>, kills: Handler): Served
    decreases |chunks|
  {
    if chunks == [] then Served(done, rx, Open) else
    var r := Extract(rx + chunks[0], done, kills);
    if r.fate.Open? then Fed(r.rest, chunks[1..], r.calls, kills) else r
  }

  lemma {:induction false} FateStays(rx: bytes, tail: bytes, done: seq<bytes>, kills: Handler)
    requires !Extract(rx, done, kills).fate.Open?
    ensures Extract(rx + tail, done, kills).calls == Extract(rx, done, kills).calls
    ensures Extract(rx + tail, done, kills).fate == Extract(rx, done, kills).fate
    decreases |rx|
  {
    if 1 <= rx[0] as int <= MAX_LEN {
      ExtractFirst(rx, tail, done, kills);
      ExtractFirst(rx, [], done, kills);
      var need := rx[0] as int + 1;
      assert rx + [] == rx && rx[need..] + [] == rx[need..];
      if !kills(done + [rx[1..need]]) { FateStays(rx[need..], tail, done + [rx[1..need]], kills); }
    }
  }

  /** The bodies handled and the fate depend on the bytes alone, however they are split into reads. */
  lemma {:induction false} ChunksDontMatter(rx: bytes, chunks: seq<bytes>, done: seq<bytes>, kills: Handler)
    requires Waiting(rx)
    ensures var a, b := Fed(rx, chunks, done, kills), Extract(rx + Flatten(chunks), done, kills);
            a.calls == b.calls && a.fate == b.fate && (a.fate.Open? ==> a.rest == b.rest)
    decreases |chunks|
  {
    if chunks == [] {
      assert rx + [] == rx;
      WaitingExtract(rx, done, kills);
    } else {
      var r, tail := Extract(rx + chunks[0], done, kills), Flatten(chunks[1..]);
      assert rx + Flatten(chunks) == rx + chunks[0] + tail;
      if r.fate.Open? {
        ExtractMore(rx + chunks[0], tail, done, kills);
        ChunksDontMatter(r.rest, chunks[1..], r.calls, kills);
      } else {
        FateStays(rx + chunks[0], tail, done, kills);
      }
    }
  }

  // ---- framing a body gives it back ----------------------------------------------------------------

  function Framed(bodies: seq<bytes>): bytes
    requires forall b :: b in bodies ==> 1 <= |b| <= MAX_LEN
  {
    if bodies == [] then [] else [|bodies[0]| as byte] + bodies[0] + Framed(bodies[1..])
  }

  lemma FramedFirst(b: bytes, more: bytes, done: seq<bytes>, kills: Handler)
    requires 1 <= |b| <= MAX_LEN && !kills(done + [b])
    ensures Extract([|b| as byte] + b + more, done, kills) == Extract(more, done + [b], kills)
  {
    hide Extract;
    var rx := [|b| as byte] + b + more;
    ExtractFirst(rx, [], done, kills);
    assert rx + [] == rx && rx[1..|b| + 1] == b && rx[|b| + 1..] + [] == more;
  }

  ghost predicate Survives(bodies: seq<bytes>, done: seq<bytes>, kills: Handler) {
    forall n {:trigger bodies[..n]} :: 0 < n <= |bodies| ==> !kills(done + bodies[..n])
  }

  lemma SurvivesRest(bodies: seq<bytes>, done: seq<bytes>, kills: Handler)
    requires bodies != [] && Survives(bodies, done, kills)
    ensures !kills(done + [bodies[0]]) && Survives(bodies[1..], done + [bodies[0]], kills)
    ensures done + [bodies[0]] + bodies[1..] == done + bodies
  {
    assert done + [bodies[0]] == done + bodies[..1];
    forall n | 0 < n <= |bodies[1..]| ensures !kills(done + [bodies[0]] + bodies[1..][..n]) {
      assert done + [bodies[0]] + bodies[1..][..n] == done + bodies[..n + 1];
    }
  }

  /** Bodies framed by a console are handled exactly, as long as none of them kills the client. */
  lemma {:induction false} FramedIsHandled(bodies: seq<bytes>, done: seq<bytes>, kills: Handler)
    requires forall b :: b in bodies ==> 1 <= |b| <= MAX_LEN
    requires Survives(bodies, done, kills)
    ensures Extract(Framed(bodies), done, kills) == Served(done + bodies, [], Open)
    decreases |bodies|
  {
    hide Extract, Survives;
    if bodies == [] {
      assert done + bodies == done;
      WaitingExtract([], done, kills);
    } else {
      SurvivesRest(bodies, done, kills);
      FramedFirst(bodies[0], Framed(bodies[1..]), done, kills);
      FramedIsHandled(bodies[1..], done + [bodies[0]], kills);
    }
  }

  // ---- the Python server -----------------------------------------------------------------------------

  /** A client's receive side: rx is a bytearray that grows without bound. */
  class PyClient {
    var rx: bytes
    var calls: seq<bytes>
    var fate: Fate

    constructor ()
      ensures rx == [] && calls == [] && fate == Open
    {
      rx, calls, fate := [], [], Open;
    }

    method Service(data: bytes, kills: Handler)
      modifies this
      ensures Served(calls, rx, fate) == Extract(old(rx) + data, old(calls), kills)
    {
      rx := rx + data;
      while true
        invariant Extract(rx, calls, kills) == Extract(old(rx) + data, old(calls), kills)
        decreases |rx|
      {
        if rx == [] { fate := Open; return; }
        var need := rx[0] as int + 1;
        if need < 2 || rx[0] as int > MAX_LEN {
          fate := BadLength(rx[0]);
          return;
        }
        if |rx| < need { fate := Open; return; }
        calls := calls + [rx[1..need]];
        rx := rx[need..];
        if kills(calls) { fate := Dead; return; }
      }
    }
  }

  // ---- the C port ------------------------------------------------------------------------------------

  /** The same in 256 bytes. */
  class CClient {
    const rx: array<byte>
    var rxLen: nat
    var calls: seq<bytes>
    var fate: Fate

    ghost predicate Valid()
      reads this, rx
    {
      rx.Length == RX_CAP && rxLen <= RX_CAP && (fate.Open? ==> Waiting(rx[..rxLen]))
    }

    constructor ()
      ensures Valid() && fresh(rx) && rxLen == 0 && calls == [] && fate == Open
    {
      rx := new byte[RX_CAP];
      rxLen, calls, fate := 0, [], Open;
    }

    /** feed: copy what fits, handle every complete frame, repeat.  The bodies handled and the fate
        are those of the unbounded buffer; the overflow drop is dead code. */
    method Feed(p: bytes, kills: Handler)
      requires Valid() && fate.Open?
      modifies this, rx
      ensures Valid()
      ensures var r := Extract(old(rx[..rxLen]) + p, old(calls), kills);
              calls == r.calls && fate == r.fate && (fate.Open? ==> rx[..rxLen] == r.rest)
    {
      hide Extract;
      ghost var goal := Extract(rx[..rxLen] + p, calls, kills);
      var i := 0;
      assert p[0..] == p;
      while i < |p|
        invariant i <= |p| && Valid() && fate.Open?
        invariant Extract(rx[..rxLen] + p[i..], calls, kills) == goal
        decreases |p| - i
      {
        var space := RX_CAP - rxLen;
        if space == 0 {
          assert false;   // rx overflow
        }
        var take := if |p| - i < space then |p| - i else space;
        ghost var before := rx[..rxLen];
        Copy(p, i, take);
        assert before + p[i..] == rx[..rxLen] + p[i + take..];
        i := i + take;
        Drain(p[i..], kills);
        if !fate.Open? { return; }
      }
      assert rx[..rxLen] + p[i..] == rx[..rxLen];
      WaitingExtract(rx[..rxLen], calls, kills);
    }

    /** The inner loop: handle every complete frame in the buffer. */
    method Drain(ghost tail: bytes, kills: Handler)
      requires rx.Length == RX_CAP && rxLen <= RX_CAP && fate.Open?
      modifies this, rx
      ensures Valid()
      ensures var r := Extract(old(rx[..rxLen]) + tail, old(calls), kills);
              if fate.Open? then Extract(rx[..rxLen] + tail, calls, kills) == r else calls == r.calls && fate == r.fate
    {
      hide Extract;
      ghost var goal := Extract(rx[..rxLen] + tail, calls, kills);
      while true
        invariant rx.Length == RX_CAP && rxLen <= RX_CAP && fate.Open?
        invariant Extract(rx[..rxLen] + tail, calls, kills) == goal
        decreases rxLen
      {
        if rxLen == 0 { break; }
        var lenb := rx[0] as int;
        var need := lenb + 1;
        if need < 2 || lenb > MAX_LEN {
          BadFirst(rx[..rxLen], tail, calls, kills);
          fate := BadLength(rx[0]);
          return;
        }
        if rxLen < need { break; }
        ExtractFirst(rx[..rxLen], tail, calls, kills);
        assert rx[..rxLen][1..need] == rx[1..need];
        calls := calls + [rx[1..need]];
        Shift(need);
        if kills(calls) {
          fate := Dead;
          return;
        }
      }
    }

    /** memcpy to the end of the buffer. */
    method Copy(p: bytes, i: nat, take: nat)
      requires rx.Length == RX_CAP && rxLen + take <= RX_CAP && i + take <= |p|
      modifies this`rxLen, rx
      ensures rxLen == old(rxLen) + take && rx[..rxLen] == old(rx[..rxLen]) + p[i..i + take]
    {
      forall k | 0 <= k < take { rx[rxLen + k] := p[i + k]; }
      rxLen := rxLen + take;
    }

    /** memmove of what follows the first `need` bytes. */
    method Shift(need: nat)
      requires rx.Length == RX_CAP && need <= rxLen <= RX_CAP
      modifies this`rxLen, rx
      ensures rxLen == old(rxLen) - need && rx[..rxLen] == old(rx[..rxLen])[need..]
    {
      forall k | 0 <= k < rxLen - need { rx[k] := rx[k + need]; }
      rxLen := rxLen - need;
    }
  }
}
