/** The console's stream parser as a function of the bytes buffered, and what it guarantees:
    chunk independence, bounds, and exact recovery of every legal frame sequence. */
module Stream {
  import opened Cells

  type bytes = seq<byte>

  /** SES_FLEN: 256 * max + min body length of each frame type, 0 for a type never received. */
  function Flen(t: byte): word
    requires t < 16
  {
    [0, 0, 0, 0x4A02, 0, 0x2626, 0x0606, 0x0606, 0x6303, 0x0303, 0, 0x0A0A, 0, 0x0101, 0x2222, 0][t]
  }

  predicate LengthFits(len: byte, t: byte) {
    t < 16 && Flen(t) != 0 && Flen(t) % 256 <= len as int <= Flen(t) / 256
  }

  /** A frame the table admits: length byte, type byte, payload. */
  predicate Legal(f: bytes) {
    |f| >= 2 && LengthFits(f[0], f[1]) && |f| == f[0] as int + 1
  }

  /** The packed table in plain numbers: the body lengths the parser lets through for each type. */
  lemma LengthTable(len: byte, t: byte)
    ensures LengthFits(len, t) <==>
              || (t == 3 && 2 <= len <= 74) || (t == 5 && len == 38) || (t == 6 && len == 6) || (t == 7 && len == 6)
              || (t == 8 && 3 <= len <= 99) || (t == 9 && len == 3) || (t == 11 && len == 10) || (t == 13 && len == 1)
              || (t == 14 && len == 34)
  {
  }

  datatype Verdict = Wait | Slip | Take(n: nat)

  /** What the parse loop does with the bytes it has. */
  function Judge(buf: bytes): (v: Verdict)
    ensures v.Take? ==> 2 <= v.n <= |buf| && v.n <= 100 && Legal(buf[..v.n])
    ensures v.Wait? ==> |buf| <= 99
    ensures v.Slip? ==> |buf| >= 2 && !LengthFits(buf[0], buf[1])
  {
    if |buf| < 2 then Wait
    else if !LengthFits(buf[0], buf[1]) then Slip
    else if |buf| < buf[0] as int + 1 then Wait
    else Take(buf[0] as int + 1)
  }

  /** Frames dispatched, bytes slipped, bytes left in the buffer. */
  datatype Parsed = Parsed(frames: seq<bytes>, slips: nat, rest: bytes)

  function Parse(buf: bytes): (p: Parsed)
    ensures Judge(p.rest).Wait?
    decreases |buf|
  {
    match Judge(buf)
    case Wait => Parsed([], 0, buf)
    case Slip =>
      var p := Parse(buf[1..]);
      p.(slips := p.slips + 1)
    case Take(n) =>
      var p := Parse(buf[n..]);
      p.(frames := [buf[..n]] + p.frames)
  }

  lemma {:induction false} ParsedLegal(buf: bytes)
    ensures forall f :: f in Parse(buf).frames ==> Legal(f)
    decreases |buf|
  {
    match Judge(buf)
    case Wait =>
    case Slip => ParsedLegal(buf[1..]);
    case Take(n) => ParsedLegal(buf[n..]);
  }

  function Flatten(chunks: seq<bytes>): bytes {
    if chunks == [] then [] else chunks[0] + Flatten(chunks[1..])
  }

  // ---- chunk independence --------------------------------------------------------------

  /** Bytes already judged are judged the same when more arrive. */
  lemma JudgeMore(a: bytes, b: bytes)
    requires !Judge(a).Wait?
    ensures Judge(a + b) == Judge(a)
  {
  }

  lemma ParseRest(buf: bytes)
    ensures Judge(Parse(buf).rest).Wait?
  {
  }

  lemma ParseWait(buf: bytes)
    requires Judge(buf).Wait?
    ensures Parse(buf) == Parsed([], 0, buf)
  {
  }

  lemma ParseSlip(buf: bytes)
    requires Judge(buf).Slip?
    ensures buf != [] && Parse(buf) == var p := Parse(buf[1..]); p.(slips := p.slips + 1)
  {
  }

  lemma ParseTake(buf: bytes, n: nat)
    requires Judge(buf) == Take(n)
    ensures 2 <= n <= |buf| && Parse(buf) == var p := Parse(buf[n..]); p.(frames := [buf[..n]] + p.frames)
  {
  }

  lemma TakeMore(a: bytes, b: bytes, n: nat)
    requires Judge(a) == Take(n) && Judge(a + b) == Take(n) && n <= |a|
    requires var p, q := Parse(a[n..]), Parse(Parse(a[n..]).rest + b);
             Parse(a[n..] + b) == Parsed(p.frames + q.frames, p.slips + q.slips, q.rest)
    ensures var p, q := Parse(a), Parse(Parse(a).rest + b);
            Parse(a + b) == Parsed(p.frames + q.frames, p.slips + q.slips, q.rest)
  {
    hide Judge, LengthFits, Legal, Parse;
    assert (a + b)[n..] == a[n..] + b && (a + b)[..n] == a[..n];
    ParseTake(a, n);
    ParseTake(a + b, n);
    var p, q := Parse(a[n..]), Parse(Parse(a).rest + b);
    assert [a[..n]] + (p.frames + q.frames) == ([a[..n]] + p.frames) + q.frames;
  }

  /** Parsing what is there and then the rest plus what arrives later is parsing it all. */
  lemma {:induction false} ParseMore(a: bytes, b: bytes)
    ensures var p, q := Parse(a), Parse(Parse(a).rest + b);
            Parse(a + b) == Parsed(p.frames + q.frames, p.slips + q.slips, q.rest)
    decreases |a|
  {
    hide Judge, LengthFits, Legal;
    match Judge(a)
    case Wait =>
    case Slip =>
      JudgeMore(a, b);
      assert Judge(a + b) == Slip;
      assert (a + b)[1..] == a[1..] + b;
      ParseMore(a[1..], b);
      ParseSlip(a);
      ParseSlip(a + b);
    case Take(n) =>
      JudgeMore(a, b);
      ParseMore(a[n..], b);
      TakeMore(a, b, n);
  }

  /** Pumping a stream that arrives in the given reads. */
  function Pumped(rest: bytes, chunks: seq<bytes>): (p: Parsed)
    decreases |chunks|
  {
    if chunks == [] then Parsed([], 0, rest)
    else
      var p := Parse(rest + chunks[0]);
      var q := Pumped(p.rest, chunks[1..]);
      Parsed(p.frames + q.frames, p.slips + q.slips, q.rest)
  }

  /** Frames, slips and remainder depend on the bytes alone, however they are split into reads. */
  lemma {:induction false} ChunkIndependence(rest: bytes, chunks: seq<bytes>)
    requires Judge(rest).Wait?
    ensures Pumped(rest, chunks) == Parse(rest + Flatten(chunks))
    decreases |chunks|
  {
    hide Judge, Legal, Parse;
    if chunks == [] {
      ParseWait(rest);
      assert rest + [] == rest;
    } else {
      ParseRest(rest + chunks[0]);
      ChunkIndependence(Parse(rest + chunks[0]).rest, chunks[1..]);
      ParseMore(rest + chunks[0], Flatten(chunks[1..]));
      assert rest + Flatten(chunks) == rest + chunks[0] + Flatten(chunks[1..]);
    }
  }

  /** The buffer contents seen by each pump of a stream, in order. */
  function Buffered(rest: bytes, chunks: seq<bytes>): seq<bytes>
    decreases |chunks|
  {
    if chunks == [] then []
    else [rest + chunks[0]] + Buffered(Parse(rest + chunks[0]).rest, chunks[1..])
  }

  /** With reads of at most 64 bytes a pump leaves at most 99 bytes and never holds more than
      163, so the 256-byte ring does not overflow. */
  lemma {:induction false} BufferBound(rest: bytes, chunks: seq<bytes>)
    requires |rest| <= 99 && forall r :: r in chunks ==> |r| <= 64
    ensures forall b :: b in Buffered(rest, chunks) ==> |b| <= 163
    ensures |Pumped(rest, chunks).rest| <= 99
    decreases |chunks|
  {
    if chunks != [] {
      BufferBound(Parse(rest + chunks[0]).rest, chunks[1..]);
    }
  }

  // ---- printing and parsing --------------------------------------------------------------

  /** The first bytes of a legal frame, not yet all of it. */
  predicate PartOf(part: bytes, f: bytes) {
    Legal(f) && |part| < |f| && part == f[..|part|]
  }

  lemma PartWaits(part: bytes, f: bytes)
    requires PartOf(part, f)
    ensures Judge(part).Wait? && Parse(part) == Parsed([], 0, part)
  {
  }

  lemma LegalIsTaken(f: bytes, more: bytes)
    requires Legal(f)
    ensures Judge(f + more) == Take(|f|)
    ensures Parse(f + more) == var p := Parse(more); p.(frames := [f] + p.frames)
  {
  }

  /** Legal frames, then the beginning of another, parse back exactly with no slip. */
  lemma {:induction false} PrintedParses(frames: seq<bytes>, part: bytes)
    requires forall f :: f in frames ==> Legal(f)
    requires Parse(part) == Parsed([], 0, part)
    ensures Parse(Flatten(frames) + part) == Parsed(frames, 0, part)
    decreases |frames|
  {
    hide Judge, Legal, Parse;
    if frames == [] {
      assert [] + part == part;
    } else {
      PrintedParses(frames[1..], part);
      LegalIsTaken(frames[0], Flatten(frames[1..]) + part);
      assert Flatten(frames) + part == frames[0] + (Flatten(frames[1..]) + part);
      assert frames == [frames[0]] + frames[1..];
    }
  }

  /** Any splitting into reads of a stream of legal frames gives the frames back, zero slips. */
  lemma RoundTrip(frames: seq<bytes>, chunks: seq<bytes>)
    requires forall f :: f in frames ==> Legal(f)
    requires Flatten(chunks) == Flatten(frames)
    ensures Pumped([], chunks) == Parsed(frames, 0, [])
  {
    ChunkIndependence([], chunks);
    PrintedParses(frames, []);
    assert [] + Flatten(chunks) == Flatten(frames) + [];
  }

  lemma {:induction false} FlattenJoin(a: seq<bytes>, b: seq<bytes>)
    ensures Flatten(a + b) == Flatten(a) + Flatten(b)
    decreases |a|
  {
    if a == [] {
      assert a + b == b;
    } else {
      assert (a + b)[1..] == a[1..] + b;
      FlattenJoin(a[1..], b);
    }
  }
}
