/** The console's pages of cells seen as the values of ConsoleCells: input rings, watermarks,
    checksum records and the circular stream accumulator. */
module ConsoleArrays {
  import opened Cells
  import opened Stream
  import opened ConsoleCells

  const PAGES := 0x400

  /** Four decoded pages and four keypad pages. */
  function RingsOf(dec: seq<byte>, kp: seq<byte>): seq<Ring>
    requires |dec| == PAGES && |kp| == PAGES
  {
    seq(4, s requires 0 <= s < 4 => RingAt(dec, kp, s))
  }

  function RingAt(dec: seq<byte>, kp: seq<byte>, s: nat): Ring
    requires |dec| == PAGES && |kp| == PAGES && s < 4
  {
    seq(256, t requires 0 <= t < 256 => Cell(dec[256 * s + t], kp[256 * s + t]))
  }

  /** Four [lo, hi] watermarks. */
  function WmOf(w: seq<byte>): seq<word>
    requires |w| == 8
  {
    [Pair(w[0], w[1]), Pair(w[2], w[3]), Pair(w[4], w[5]), Pair(w[6], w[7])]
  }

  /** Eight [tick_lo, tick_hi, crc_lo, crc_hi] records. */
  function OwnOf(o: seq<byte>): seq<Own>
    requires |o| == 32
  {
    seq(8, i requires 0 <= i < 8 => Own(o[4 * i], o[4 * i + 1], o[4 * i + 2], o[4 * i + 3]))
  }

  lemma PutCell(dec: seq<byte>, kp: seq<byte>, s: nat, slot: byte, c: Cell)
    requires |dec| == PAGES && |kp| == PAGES && s < 4
    ensures var at := 256 * s + slot as nat;
            RingsOf(dec[at := c.dec], kp[at := c.kp]) == RingsOf(dec, kp)[s := Put(RingsOf(dec, kp)[s], slot as int, c)]
  {
    var at := 256 * s + slot as nat;
    var dec', kp' := dec[at := c.dec], kp[at := c.kp];
    forall q | 0 <= q < 4 ensures RingsOf(dec', kp')[q] == RingsOf(dec, kp)[s := Put(RingsOf(dec, kp)[s], slot as int, c)][q] {
      PutInPage(dec, kp, s, slot, c, q);
    }
  }

  lemma PutInPage(dec: seq<byte>, kp: seq<byte>, s: nat, slot: byte, c: Cell, q: nat)
    requires |dec| == PAGES && |kp| == PAGES && s < 4 && q < 4
    ensures var at := 256 * s + slot as nat;
            RingAt(dec[at := c.dec], kp[at := c.kp], q) ==
            if q == s then Put(RingAt(dec, kp, s), slot as int, c) else RingAt(dec, kp, q)
  {
  }

  lemma IdlePages(dec: seq<byte>, kp: seq<byte>)
    requires |dec| == PAGES && |kp| == PAGES
    requires (forall i :: 0 <= i < PAGES ==> dec[i] == 0x40) && forall i :: 0 <= i < PAGES ==> kp[i] == 0
    ensures RingsOf(dec, kp) == IdleRings()
  {
    forall s | 0 <= s < 4 ensures RingAt(dec, kp, s) == IdleRing() {}
  }

  // ---- the circular accumulator ----------------------------------------------------------------------

  /** (wr - rd) AND $FF. */
  function Held(rd: byte, wr: byte): nat {
    (wr as int - rd as int) % 256
  }

  function AccOf(acc: seq<byte>, rd: byte, wr: byte): (b: bytes)
    requires |acc| == 256
    ensures |b| == Held(rd, wr)
  {
    seq(Held(rd, wr), i requires 0 <= i < Held(rd, wr) => acc[(rd as int + i) % 256])
  }

  function Next(i: byte): byte {
    ((i as int + 1) % 256) as byte
  }

  lemma PutByte(acc: seq<byte>, rd: byte, wr: byte, b: byte)
    requires |acc| == 256 && Held(rd, wr) < 255
    ensures AccOf(acc[wr as int := b], rd, Next(wr)) == AccOf(acc, rd, wr) + [b]
  {
    var n := Held(rd, wr);
    assert Held(rd, Next(wr)) == n + 1 && (rd as int + n) % 256 == wr as int;
    forall i | 0 <= i < n ensures AccOf(acc[wr as int := b], rd, Next(wr))[i] == AccOf(acc, rd, wr)[i] {}
  }

  lemma DropByte(acc: seq<byte>, rd: byte, wr: byte)
    requires |acc| == 256 && Held(rd, wr) > 0
    ensures AccOf(acc, rd, wr)[0] == acc[rd as int] && AccOf(acc, Next(rd), wr) == AccOf(acc, rd, wr)[1..]
  {
    var n := Held(rd, wr);
    assert Held(Next(rd), wr) == n - 1;
    forall i | 0 <= i < n - 1 ensures AccOf(acc, Next(rd), wr)[i] == AccOf(acc, rd, wr)[i + 1] {}
  }

  lemma SecondByte(acc: seq<byte>, rd: byte, wr: byte)
    requires |acc| == 256 && Held(rd, wr) > 1
    ensures AccOf(acc, rd, wr)[1] == acc[Next(rd) as int]
  {
  }
}
