/** What frames and passes do to a console, in plain numbers: addresses, frame bytes and counters. */
module ConsoleLaws {
  import opened Cells
  import opened Stream
  import opened ImageMemory
  import opened Checksum
  import opened ConsoleCells

  // ---- the pass past the gate --------------------------------------------------------------------

  /** A host that waits with a push counts this tick, and pushes when both top bits of the phase cell
      $0163 are set in `mem` or this is at least the 60th tick it waits. */
  ghost predicate PushDue(c: State, mem: Memory) {
    c.pend && c.seat == 0 && !c.hold && (mem[0x163] / 64 % 4 == 3 || (c.ptmo as int + 1) % 256 >= 60)
  }

  ghost predicate AllOfType(fs: seq<bytes>, t: byte) {
    forall i {:trigger fs[i]} :: 0 <= i < |fs| ==> |fs[i]| >= 2 && fs[i][1] == t
  }

  /** What a push puts on the wire: BEGIN with the resume tick, STATE frames, END. */
  ghost predicate PushSent(out: seq<bytes>, resume: int) {
    && |out| == 10 && AllOfType(out, 8)
    && out[0] == [5, 8, 0, 0xFF, (resume % 256) as byte, (resume / 256 % 256) as byte]
    && out[9] == [3, 8, 1, 0xFF]
  }

  /** A pass past its gate takes a console from c to k and sends out: a report every 64 ticks, then, if it
      is due, the push and nothing else. */
  ghost predicate PassLaw(c: Con, k: Con, out: seq<bytes>) {
    var n := if c.tick % 64 == 0 then 1 else 0;
    && n <= |out| && !k.atGate && k.seat == c.seat
    && (n == 1 ==> out[0] == [6, 7, c.seat, (c.tick % 256) as byte, (c.tick / 256) as byte,
                             (Cksum(k.mem) % 256) as byte, (Cksum(k.mem) / 256) as byte])
    && (if PushDue(c, k.mem)
        then PushSent(out[n..], c.tick as int + 17) && k.tick == Wrap(c.tick + 17) && !k.pend && k.ptmo == 0
        else |out| == n && k.tick == Wrap(c.tick + 1) && k.pend == c.pend
             && k.ptmo == if c.pend && c.seat == 0 && !c.hold then ((c.ptmo as int + 1) % 256) as byte else c.ptmo)
  }

  lemma {:induction false} ChunksCount(img: Image, pos: nat)
    requires pos <= IMG_TOTAL
    ensures |Chunks16(img, pos)| == (IMG_TOTAL - pos + 95) / 96 && AllOfType(Chunks16(img, pos), 8)
    decreases IMG_TOTAL - pos
  {
    if pos < IMG_TOTAL {
      ChunksCount(img, pos + if IMG_TOTAL - pos < RS_CHUNK then IMG_TOTAL - pos else RS_CHUNK);
    }
  }

  lemma PushBytes(c: Con)
    ensures PushSent(PushFrames16(c), c.tick as int + 16)
  {
    ChunksCount(ImageOf(c.mem), 0);
    var r := Wrap(c.tick + 16);
    assert r as int % 256 == (c.tick as int + 16) % 256;
    assert r as int / 256 == (c.tick as int + 16) / 256 % 256;
  }

  lemma PushLaw(c: Con)
    ensures var (k, out) := Push16(c);
            && PushSent(out, c.tick as int + 16) && k.tick == Wrap(c.tick + 16) && !k.pend && k.ptmo == 0
            && k.mem == c.mem && k.seat == c.seat && k.atGate == c.atGate
  {
    hide PushFrames16, PushSent;
    PushBytes(c);
  }

  lemma DueAfter(c: Con, mem: Memory)
    ensures Pushes16(Waited16(c.(mem := mem))) <==> PushDue(c, mem)
  {
  }

  /** The tick and its report. */
  lemma TickLaw(game: Game, c: Con)
    ensures var (k, out) := Tick16(game, c);
            && (out == if c.tick % 64 == 0
                       then [[6, 7, c.seat, (c.tick % 256) as byte, (c.tick / 256) as byte,
                              (Cksum(k.mem) % 256) as byte, (Cksum(k.mem) / 256) as byte]]
                       else [])
            && k.tick == Wrap(c.tick + 1) && k.pend == c.pend && k.ptmo == c.ptmo && k.seat == c.seat && k.hold == c.hold && !k.atGate
  {
    hide Cksum;
    assert Lo(c.tick) % 64 == c.tick % 64;
  }

  lemma FinishLaw(game: Game, c: Con)
    ensures PassLaw(c, Finish16(game, c).0, Finish16(game, c).1)
  {
    hide Tick16, Push16, PushSent, Pushes16, Cksum;
    var (k, out) := Tick16(game, c);
    TickLaw(game, c);
    var w := Waited16(k);
    DueAfter(k, k.mem);
    assert k.(mem := k.mem) == k;
    assert Pushes16(w) <==> PushDue(c, k.mem);
    if Pushes16(w) {
      PushLaw(w);
      assert Wrap(w.tick + 16) == Wrap(c.tick + 17);
      PushWraps(Push16(w).1, c.tick);
      var n := if c.tick % 64 == 0 then 1 else 0;
      assert (out + Push16(w).1)[n..] == Push16(w).1;
      if n == 1 { assert (out + Push16(w).1)[0] == out[0]; }
    }
  }

  /** RS_PENDING on its own: whoever is not a waiting host is left alone; a waiting host counts, and either
      pushes or does nothing more. */
  ghost predicate WaitLaw(c: Con, k: Con, out: seq<bytes>) {
    if PushDue(c, c.mem) then PushSent(out, c.tick as int + 16) && k.tick == Wrap(c.tick + 16) && !k.pend && k.ptmo == 0 && k.mem == c.mem
    else out == [] && k == if c.pend && c.seat == 0 && !c.hold then c.(ptmo := ((c.ptmo as int + 1) % 256) as byte) else c
  }

  lemma PendingLaw(c: Con)
    ensures var w := Waited16(c);
            if Pushes16(w) then WaitLaw(c, Push16(w).0, Push16(w).1) else WaitLaw(c, w, [])
  {
    hide Push16, PushSent;
    var w := Waited16(c);
    DueAfter(c, c.mem);
    assert c.(mem := c.mem) == c;
    if Pushes16(w) { PushLaw(w); }
  }

  lemma PushWraps(out: seq<bytes>, t: word)
    requires PushSent(out, Wrap(t + 1) as int + 16)
    ensures PushSent(out, t as int + 17)
  {
    var a, b := Wrap(t + 1) as int + 16, t as int + 17;
    assert a == b || a + 0x10000 == b;
  }

  // ---- frames --------------------------------------------------------------------------------------

  /** START, for any seat and player count the console can use: the seed goes to the random number cells
      $8106 and $8107 and to no other cell of memory; seat, count and delay are taken; every ring slot is
      idle, no record is left, every watermark is d - 1 as a byte, and the tick is 0. */
  lemma StartLaw(c: Con, f: bytes)
    requires Legal(f) && f[1] == 5 && f[2] < 4 && f[3] <= 4
    ensures var (k, out) := OnFrame16(c, f);
            && out == [] && k.mem[0x8106] == f[4] as word && k.mem[0x8107] == f[5] as word
            && (forall a :: 0 <= a < 0x10000 && a != 0x8106 && a != 0x8107 ==> k.mem[a] == c.mem[a])
            && k.seat == f[2] && k.count == f[3] && k.delay == f[6] && k.tick == 0
            && (forall s, i :: 0 <= s < 4 && 0 <= i < 256 ==> k.rings[s][i].dec == 0x40 && k.rings[s][i].kp == 0)
            && (forall i :: 0 <= i < 8 ==> k.own[i] == Own(0xFF, 0xFF, 0xFF, 0xFF))
            && (forall s :: 0 <= s < 4 ==> k.wm[s] as int == (f[6] as int + 255) % 256)
            && k.hold == c.hold && k.pend == c.pend && k.ptmo == c.ptmo && k.atGate == c.atGate
  {
    assert f[0] == 38;
  }

  /** INPUT: taken only from another seat of the match and only for a tick ahead of what that seat has sent
      so far, 16-bit; then that seat's one slot and its watermark change, and nothing else. */
  lemma InputLaw(c: Con, f: bytes)
    requires Legal(f) && f[1] == 6
    ensures var (k, out) := OnFrame16(c, f);
            var seat, t := f[2], f[3] as int + 256 * f[4] as int;
            && out == []
            && if seat != c.seat && seat < c.count && 1 <= (t - c.wm[seat] as int) % 0x10000 < 0x8000
               then && k == c.(rings := k.rings, wm := k.wm) && k.wm == c.wm[seat := t as word]
                    && (forall s, i :: 0 <= s < 4 && 0 <= i < 256 ==>
                          k.rings[s][i] == if s == seat as int && i == f[3] as int then Cell(f[5], f[6]) else c.rings[s][i])
               else k == c
  {
    assert f[0] == 6;
    var seat, t := f[2], Pair(f[3], f[4]);
    if seat < c.count { Ahead16(t, c.wm[seat]); }
    hide Delta, Negative;
  }

  lemma Ahead16(t: word, w: word)
    ensures !(Negative(Delta(t, w)) || Delta(t, w) == 0) <==> 1 <= (t as int - w as int) % 0x10000 < 0x8000
  {
  }

  /** CRC: a console that neither waits nor is held flags the report when it holds its own for the same
      16-bit tick with another checksum, and only then; a guest that flags asks for a push. */
  lemma ReportLaw(c: Con, f: bytes)
    requires Legal(f) && f[1] == 7
    ensures var (k, out) := OnFrame16(c, f);
            var mine := c.own[f[3] as int / 64];
            && (k.pend <==> c.pend || (!c.hold && mine.lo == f[3] && mine.hi == f[4] && !(mine.clo == f[5] && mine.chi == f[6])))
            && k == c.(pend := k.pend, ptmo := k.ptmo) && k.ptmo == (if k.pend && !c.pend then 0 else c.ptmo)
            && out == if k.pend && !c.pend && c.seat != 0 then [[3, 9, f[3], f[4]]] else []
  {
    assert f[0] == 6;
  }

  /** RESYNC makes an idle host wait; nobody else minds it. */
  lemma RequestLaw(c: Con, f: bytes)
    requires Legal(f) && f[1] == 9
    ensures var (k, out) := OnFrame16(c, f);
            && out == [] && (k.pend <==> c.pend || (c.seat == 0 && !c.hold))
            && k == c.(pend := k.pend, ptmo := if k.pend && !c.pend then 0 else c.ptmo)
  {
  }

  /** STATE with a position: in a hold, and when all of it lies in the 767 bytes of the image, its data
      become those image bytes, and nothing else changes; otherwise nothing does. */
  lemma ChunkLaw(c: Con, f: bytes)
    requires Legal(f) && f[1] == 8 && f[3] != 0xFF
    ensures var (k, out) := OnFrame16(c, f);
            var pos, n := f[2] as int + 256 * f[3] as int, f[0] as int - 3;
            && out == [] && k == c.(mem := k.mem)
            && (if c.hold && n >= 1 && pos + n <= 767
                then forall p :: 0 <= p < 767 ==> ImgGet(k.mem, p) == if pos <= p < pos + n then f[4 + p - pos] else ImgGet(c.mem, p)
                else k == c)
  {
    var pos, n := f[2] as int + 256 * f[3] as int, f[0] as int - 3;
    hide PutRun, ImgGet;
    if c.hold && n >= 1 && pos + n <= 767 {
      RunWritten(c.mem, pos, f[4..]);
      assert OnFrame16(c, f).0.mem == PutRun(c.mem, pos, f[4..]);
      assert forall i :: 0 <= i < n ==> f[4..][i] == f[4 + i];
    }
  }

  lemma RunWritten(m: Memory, pos: nat, data: seq<byte>)
    requires pos + |data| <= 767
    ensures var mem := PutRun(m, pos, data);
            forall p :: 0 <= p < 767 ==> ImgGet(mem, p) == if pos <= p < pos + |data| then data[p - pos] else ImgGet(m, p)
  {
    hide PutRun, ImgGet;
    var mem := PutRun(m, pos, data);
    PutRunSplices(m, pos, data);
    forall p | 0 <= p < 767 ensures ImgGet(mem, p) == if pos <= p < pos + |data| then data[p - pos] else ImgGet(m, p) {
      assert ImageOf(mem)[p] == ImgGet(mem, p);
      SpliceAt(ImageOf(m), pos, data, p);
    }
  }

  lemma SpliceAt(img: Image, pos: nat, data: seq<byte>, p: nat)
    requires pos + |data| <= IMG_TOTAL && p < IMG_TOTAL
    ensures Splice(img, pos, data)[p] == if pos <= p < pos + |data| then data[p - pos] else img[p]
  {
  }

  /** BEGIN and END: a hold that forgets every record and knows where to resume; then, out of a hold only, a
      fresh start at that tick with idle rings and every watermark d - 1 ahead of it.  Other marks do nothing. */
  lemma MarkLaw(c: Con, f: bytes)
    requires Legal(f) && f[1] == 8 && f[3] == 0xFF
    ensures var (k, out) := OnFrame16(c, f);
            && out == [] && k.mem == c.mem && k.seat == c.seat && k.count == c.count && k.delay == c.delay && k.atGate == c.atGate
            && (f[2] == 0 && f[0] >= 5 ==>
                  && k.hold && k.resume as int == f[4] as int + 256 * f[5] as int && k.tick == c.tick && k.wm == c.wm && k.rings == c.rings
                  && (forall i :: 0 <= i < 8 ==> k.own[i] == Own(0xFF, 0xFF, 0xFF, 0xFF)) && k.pend == c.pend)
            && (f[2] == 1 && c.hold ==>
                  && !k.hold && !k.pend && k.ptmo == 0 && k.tick == c.resume
                  && (forall s :: 0 <= s < 4 ==> k.wm[s] as int == (c.resume as int + c.delay as int - 1) % 0x10000)
                  && (forall s, i :: 0 <= s < 4 && 0 <= i < 256 ==> k.rings[s][i] == Cell(0x40, 0))
                  && (forall i :: 0 <= i < 8 ==> k.own[i] == Own(0xFF, 0xFF, 0xFF, 0xFF)))
            && (f[2] > 1 || (f[2] == 0 && f[0] < 5) || (f[2] == 1 && !c.hold) ==> k == c)
  {
  }

  /** Every other type changes nothing and is not answered. */
  lemma OtherFrames(c: Con, f: bytes)
    requires Legal(f) && !(5 <= f[1] <= 9)
    ensures OnFrame16(c, f) == (c, [])
  {
  }

  /** The gate is open when no other seat of the match is behind the tick, 16-bit. */
  lemma GateLaw(c: Con)
    ensures !Gated16(c) <==> forall s :: 0 <= s < c.count as int && s != c.seat as int ==> (c.wm[s] as int - c.tick as int) % 0x10000 < 0x8000
  {
    assert forall s :: 0 <= s < 4 ==> (Negative(Delta(c.wm[s], c.tick)) <==> (c.wm[s] as int - c.tick as int) % 0x10000 >= 0x8000);
  }

  // ---- frames sent -----------------------------------------------------------------------------------

  /** The capture at tick T: the cell goes to the console's own slot for tick T + d and, with seat and 16-bit
      tick, on the wire. */
  lemma CaptureLaw(c: Con, cell: Cell)
    ensures var (k, f) := Capture16(c, cell);
            var t := (c.tick as int + c.delay as int) % 0x10000;
            && |f| == 7 && f[0] == 6 && f[1] == 6 && f[2] == c.seat && f[3] as int + 256 * f[4] as int == t && f[5] == cell.dec && f[6] == cell.kp
            && k == c.(rings := k.rings, atGate := true)
            && (forall s, i :: 0 <= s < 4 && 0 <= i < 256 ==>
                  k.rings[s][i] == if s == c.seat as int && i == t % 256 then cell else c.rings[s][i])
  {
  }
}
