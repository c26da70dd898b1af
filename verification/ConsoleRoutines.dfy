/** The console's routines over its own cells: counters as pairs of bytes, input rings and records
    as pages, the stream accumulator as a 256-byte ring.  Each is proved to take the console, seen
    as a value, exactly where ConsoleCells says. */
module ConsoleRoutines {
  import Buttons
  import opened Cells
  import opened Stream
  import opened ImageMemory
  import opened Checksum
  import opened ConsoleCells
  import opened ConsoleArrays
  import opened ConsoleLaws

  class Console {
    var netSeat: byte
    var netCount: byte
    var netDelay: byte
    var tickLo: byte
    var tickHi: byte
    var atGate: bool
    var hold: bool
    var rLo: byte
    var rHi: byte
    var pend: bool
    var ptmo: byte
    var rxRd: byte
    var rxWr: byte
    /** Every frame handed to NET_WRITE, in order. */
    var sent: seq<bytes>
    const ring: array<byte>
    const kpRing: array<byte>
    const wm: array<byte>
    const own: array<byte>
    const acc: array<byte>
    const mem: array<word>

    ghost predicate Shaped() {
      && ring.Length == PAGES && kpRing.Length == PAGES && wm.Length == 8 && own.Length == 32
      && acc.Length == 256 && mem.Length == 0x10000
      && ring != kpRing && ring != wm && ring != own && ring != acc
      && kpRing != wm && kpRing != own && kpRing != acc && wm != own && wm != acc && own != acc
    }

    ghost predicate Valid()
      reads this
    {
      Shaped() && netSeat < 4 && netCount <= 4
    }

    /** The console as a value. */
    ghost function AsCon(): Con
      requires Valid()
      reads this, ring, kpRing, wm, own, mem
    {
      State(netSeat, netCount, netDelay, Pair(tickLo, tickHi), WmOf(wm[..]), RingsOf(ring[..], kpRing[..]), atGate,
            hold, Pair(rLo, rHi), pend, ptmo, OwnOf(own[..]), mem[..])
    }

    /** The bytes read but not yet dispatched. */
    ghost function Unparsed(): bytes
      requires Shaped()
      reads this, acc
    {
      AccOf(acc[..], rxRd, rxWr)
    }

    /** Power-up: every cell zero, nothing read, nothing sent. */
    constructor ()
      ensures Valid() && Unparsed() == [] && sent == [] && !atGate && !hold && !pend
    {
      netSeat, netCount, netDelay, tickLo, tickHi := 0, 0, 0, 0, 0;
      atGate, hold, rLo, rHi, pend, ptmo := false, false, 0, 0, false, 0;
      rxRd, rxWr, sent := 0, 0, [];
      ring := new byte[PAGES](_ => 0);
      kpRing := new byte[PAGES](_ => 0);
      wm := new byte[8](_ => 0);
      own := new byte[32](_ => 0);
      acc := new byte[256](_ => 0);
      mem := new word[0x10000](_ => 0);
    }

    // ---- resync.asm --------------------------------------------------------------------------------------

    /** RS_CLR_CRC. */
    method RsClrCrc()
      requires Valid()
      modifies own
      ensures AsCon() == old(AsCon()).(own := NoOwns())
    {
      var i := 0;
      while i < 32
        invariant 0 <= i <= 32 && forall j :: 0 <= j < i ==> own[j] == 0xFF
      {
        own[i] := 0xFF;
        i := i + 1;
      }
      assert OwnOf(own[..]) == NoOwns();
    }

    /** LS_RING_INIT. */
    method LsRingInit()
      requires Valid()
      modifies ring, kpRing
      ensures AsCon() == old(AsCon()).(rings := IdleRings())
    {
      var i := 0;
      while i < PAGES
        invariant 0 <= i <= PAGES && forall j :: 0 <= j < i ==> ring[j] == 0x40
      {
        ring[i] := 0x40;
        i := i + 1;
      }
      i := 0;
      while i < PAGES
        invariant 0 <= i <= PAGES && forall j :: 0 <= j < PAGES ==> ring[j] == 0x40
        invariant forall j :: 0 <= j < i ==> kpRing[j] == 0
      {
        kpRing[i] := 0;
        i := i + 1;
      }
      IdlePages(ring[..], kpRing[..]);
    }

    /** The loop that gives every seat the same watermark. */
    method SetWatermarks(w: word)
      requires Valid()
      modifies wm
      ensures AsCon() == old(AsCon()).(wm := [w, w, w, w])
    {
      var seat := 0;
      while seat < 4
        invariant 0 <= seat <= 4
        invariant forall s :: 0 <= s < seat ==> wm[2 * s] == Lo(w) && wm[2 * s + 1] == Hi(w)
      {
        wm[2 * seat] := Lo(w);
        wm[2 * seat + 1] := Hi(w);
        seat := seat + 1;
      }
      assert wm[2 * 0] == Lo(w) && wm[2 * 1] == Lo(w) && wm[2 * 2] == Lo(w) && wm[2 * 3] == Lo(w);
      assert Pair(Lo(w), Hi(w)) == w;
    }

    method RsEnterHold()
      requires Valid()
      modifies this`hold, own
      ensures AsCon() == EnterHold16(old(AsCon()))
    {
      hold := true;
      RsClrCrc();
    }

    method RsRebase()
      requires Valid()
      modifies this`pend, this`ptmo, this`tickLo, this`tickHi, this`hold, ring, kpRing, wm, own
      ensures AsCon() == Rebase16(old(AsCon()))
    {
      hide RingsOf, OwnOf, WmOf, IdleRings, NoOwns, Wrap, Pair;
      pend, ptmo := false, 0;
      tickLo, tickHi := rLo, rHi;
      LsRingInit();
      SetWatermarks(Wrap(Pair(rLo, rHi) as int + netDelay as int - 1));
      RsClrCrc();
      hold := false;
    }

    /** RS_ON_CRC. */
    method RsOnCrc(f: bytes)
      requires Valid() && Legal(f)
      modifies this`pend, this`ptmo, this`sent
      ensures (AsCon(), sent) == (OnCrc16(old(AsCon()), f).0, old(sent) + OnCrc16(old(AsCon()), f).1)
    {
      assert sent + [] == sent;
      if f[0] < 6 || hold || pend {
        return;
      }
      var r4 := 4 * (f[3] as int / 64);
      assert OwnOf(own[..])[f[3] as int / 64] == Own(own[r4], own[r4 + 1], own[r4 + 2], own[r4 + 3]);
      if own[r4] != f[3] || own[r4 + 1] != f[4] {
        return;
      }
      if own[r4 + 2] == f[5] && own[r4 + 3] == f[6] {
        return;
      }
      pend, ptmo := true, 0;
      if netSeat != 0 {
        sent := sent + [[3, FT_RESYNC, f[3], f[4]]];
      }
    }

    /** RS_ON_REQ. */
    method RsOnReq()
      requires Valid()
      modifies this`pend, this`ptmo
      ensures AsCon() == OnReq16(old(AsCon()))
    {
      if netSeat != 0 || hold || pend {
        return;
      }
      pend, ptmo := true, 0;
    }

    /** IMG_PUT: read-modify-write of one half of a word, or a whole 8-bit cell. */
    method ImgPutAt(r0: byte, r1: nat)
      requires Valid() && r1 < IMG_TOTAL
      modifies mem
      ensures mem[..] == ImgPut(old(mem[..]), r1, r0)
    {
      var a, odd := 0, false;
      if r1 < IMG_S1 {
        mem[0x15D + r1] := r0 as word;
        return;
      } else if r1 < IMG_S2 {
        a, odd := 0x200 + (r1 - IMG_S1) / 2, (r1 - IMG_S1) % 2 == 1;
      } else if r1 < IMG_S3 {
        a, odd := 0x31D + (r1 - IMG_S2) / 2, (r1 - IMG_S2) % 2 == 1;
      } else {
        mem[TailAddr(r1 - IMG_S3)] := r0 as word;
        return;
      }
      if odd {
        mem[a] := mem[a] % 256 + 256 * r0 as word;
      } else {
        mem[a] := mem[a] / 256 * 256 + r0 as word;
      }
    }

    /** IMG_GET. */
    method ImgGetAt(r1: nat) returns (r0: byte)
      requires Valid() && r1 < IMG_TOTAL
      ensures r0 == ImgGet(mem[..], r1)
    {
      var a, odd := 0, false;
      if r1 < IMG_S1 {
        return mem[0x15D + r1] % 256;
      } else if r1 < IMG_S2 {
        a, odd := 0x200 + (r1 - IMG_S1) / 2, (r1 - IMG_S1) % 2 == 1;
      } else if r1 < IMG_S3 {
        a, odd := 0x31D + (r1 - IMG_S2) / 2, (r1 - IMG_S2) % 2 == 1;
      } else {
        return mem[TailAddr(r1 - IMG_S3)] % 256;
      }
      r0 := if odd then mem[a] / 256 else mem[a] % 256;
    }

    /** The data loop of RS_ON_STATE. */
    method PutChunk(pos: nat, f: bytes)
      requires Valid() && |f| >= 4 && pos + |f| - 4 <= IMG_TOTAL
      modifies mem
      ensures mem[..] == PutRun(old(mem[..]), pos, f[4..])
    {
      hide ImgPut;
      var i := 4;
      while i < |f|
        invariant 4 <= i <= |f|
        invariant PutRun(mem[..], pos + i - 4, f[i..]) == PutRun(old(mem[..]), pos, f[4..])
      {
        assert f[i..][1..] == f[i + 1..] && f[i..][0] == f[i];
        ImgPutAt(f[i], pos + i - 4);
        i := i + 1;
      }
    }

    /** RS_ON_STATE. */
    method RsOnState(f: bytes)
      requires Valid() && Legal(f)
      modifies this`hold, this`rLo, this`rHi, this`pend, this`ptmo, this`tickLo, this`tickHi, ring, kpRing, wm, own, mem
      ensures AsCon() == OnState16(old(AsCon()), f)
    {
      hide RingsOf, OwnOf, WmOf, PutRun;
      if f[0] < 3 {
        return;
      }
      if f[3] != 0xFF {
        if !hold || f[0] == 3 || f[3] >= 4 {
          return;
        }
        var pos := f[2] as int + 256 * f[3] as int;
        if pos + (f[0] as int - 3) > IMG_TOTAL {
          return;
        }
        PutChunk(pos, f);
      } else if f[2] == 0 {
        if f[0] < 5 {
          return;
        }
        RsEnterHold();
        rLo, rHi := f[4], f[5];
      } else if f[2] == 1 && hold {
        RsRebase();
      }
    }

    /** RS_PUTB and NET_WRITE: the n image bytes from pos as one STATE frame. */
    method SendChunk(pos: nat, n: nat)
      requires Valid() && 1 <= n <= RS_CHUNK && pos + n <= IMG_TOTAL
      modifies this`sent
      ensures sent == old(sent) + [Chunk16(pos, ImageOf(mem[..])[pos..pos + n])]
    {
      ghost var img := ImageOf(mem[..]);
      var tx: bytes := [(n + 3) as byte, FT_STATE, Lo(pos), Hi(pos)];
      ghost var head := tx;
      hide Lo, Hi, ImgGet, Shaped, ImageOf;
      var i := 0;
      while i < n
        invariant 0 <= i <= n && sent == old(sent) && tx == head + img[pos..pos + i]
      {
        var b := ImgGetAt(pos + i);
        ImageSnoc(img, pos, i);
        tx := tx + [b];
        i := i + 1;
      }
      assert tx == Chunk16(pos, img[pos..pos + n]);
      sent := sent + [tx];
    }

    method SendImage()
      requires Valid()
      modifies this`sent
      ensures sent == old(sent) + Chunks16(ImageOf(mem[..]), 0)
    {
      hide ImageOf, Chunk16;
      ghost var img := ImageOf(mem[..]);
      var pos := 0;
      while pos < IMG_TOTAL
        invariant 0 <= pos <= IMG_TOTAL
        invariant sent + Chunks16(img, pos) == old(sent) + Chunks16(img, 0)
      {
        var n := if IMG_TOTAL - pos < RS_CHUNK then IMG_TOTAL - pos else RS_CHUNK;
        ChunkNext(img, pos, sent);
        SendChunk(pos, n);
        pos := pos + n;
      }
      ChunksEnd(img, sent);
    }

    /** BEGIN, the image 96 bytes at a time, END. */
    method SendPush()
      requires Valid()
      modifies this`sent
      ensures sent == old(sent) + ([[5, FT_STATE, 0, 0xFF, rLo, rHi]] + Chunks16(ImageOf(mem[..]), 0) + [[3, FT_STATE, 1, 0xFF]])
    {
      hide ImageOf, Chunks16;
      var begin: bytes := [5 as byte, FT_STATE as byte, 0 as byte, 0xFF as byte, rLo, rHi];
      sent := sent + [begin];
      SendImage();
      var end: bytes := [3, FT_STATE, 1, 0xFF];
      sent := sent + [end];
    }

    /** RS_PUSH: hold, resume tick, the push, re-baseline. */
    method RsPush()
      requires Valid()
      modifies this`hold, this`rLo, this`rHi, this`pend, this`ptmo, this`tickLo, this`tickHi, this`sent, ring, kpRing, wm, own
      ensures AsCon() == Push16(old(AsCon())).0 && sent == old(sent) + Push16(old(AsCon())).1
    {
      hide RingsOf, OwnOf, WmOf, ImageOf, Chunks16, Rebase16, EnterHold16, Wrap, Pair, Lo, Hi;
      RsEnterHold();
      var r := Wrap(Pair(tickLo, tickHi) as int + 16);
      rLo, rHi := Lo(r), Hi(r);
      PairLoHi(r);
      SendPush();
      RsRebase();
    }

    // ---- session.asm -------------------------------------------------------------------------------------

    /** The INPUT case of SES_ONFRAME. */
    method OnInput(f: bytes)
      requires Valid() && Legal(f)
      modifies ring, kpRing, wm
      ensures AsCon() == OnInput16(old(AsCon()), f)
    {
      if f[0] < 6 {
        return;
      }
      var r2 := f[2];
      if r2 == netSeat || r2 >= netCount {
        return;
      }
      var t := Pair(f[3], f[4]);
      assert WmOf(wm[..])[r2 as int] == Pair(wm[2 * r2 as int], wm[2 * r2 as int + 1]);
      var delta := Delta(t, Pair(wm[2 * r2 as int], wm[2 * r2 as int + 1]));
      if Negative(delta) || delta == 0 {
        return;
      }
      var at := 256 * r2 as nat + f[3] as nat;
      PutCell(ring[..], kpRing[..], r2 as nat, f[3], Cell(f[5], f[6]));
      ghost var w, dec, kp := wm[..], ring[..], kpRing[..];
      ring[at] := f[5];
      kpRing[at] := f[6];
      assert ring[..] == dec[at := f[5]] && kpRing[..] == kp[at := f[6]];
      wm[2 * r2 as int] := f[3];
      wm[2 * r2 as int + 1] := f[4];
      PutWm(w, r2 as nat, f[3], f[4]);
      ghost var w1: seq<byte> := w[2 * r2 as int := f[3]];
      assert wm[..] == w1[2 * r2 as int + 1 := f[4]];
    }

    method SetSeed(lo: byte, hi: byte)
      requires Valid()
      modifies mem
      ensures mem[..] == old(mem[..])[RNG_LO := lo as word][RNG_HI := hi as word]
    {
      ghost var m := mem[..];
      mem[RNG_LO] := lo as word;
      mem[RNG_HI] := hi as word;
    }

    /** The START case of SES_ONFRAME. */
    method OnStart(f: bytes)
      requires Valid() && Legal(f)
      modifies this`netSeat, this`netCount, this`netDelay, this`tickLo, this`tickHi, ring, kpRing, wm, own, mem
      ensures Valid() && AsCon() == OnStart16(old(AsCon()), f)
      ensures f[0] >= 38 && f[2] < 4 && f[3] <= 4 ==> mem[..] == old(mem[..])[0x8106 := f[4] as word][0x8107 := f[5] as word]
    {
      hide RingsOf, OwnOf, WmOf, IdleRings, NoOwns, IdleRing;
      if f[0] < 38 || f[2] >= 4 || f[3] > 4 {
        return;
      }
      assert |f| >= 39;
      hide Legal;
      netSeat, netCount := f[2], f[3];
      SetSeed(f[4], f[5]);
      netDelay := f[6];
      ghost var seated := AsCon();
      assert seated == old(AsCon()).(seat := f[2], count := f[3], delay := f[6], mem := old(mem[..])[RNG_LO := f[4] as word][RNG_HI := f[5] as word]);
      LsRingInit();
      RsClrCrc();
      SetWatermarks((netDelay as int - 1) % 256);
      tickLo, tickHi := 0, 0;
    }

    /** SES_ONFRAME. */
    method SesOnFrame(f: bytes)
      requires Valid() && Legal(f)
      modifies this`netSeat, this`netCount, this`netDelay, this`hold, this`rLo, this`rHi, this`pend, this`ptmo,
               this`tickLo, this`tickHi, this`sent, ring, kpRing, wm, own, mem
      ensures Valid() && AsCon() == OnFrame16(old(AsCon()), f).0 && sent == old(sent) + OnFrame16(old(AsCon()), f).1
    {
      hide RingsOf, OwnOf, WmOf, OnInput16, OnStart16, OnCrc16, OnState16, OnReq16;
      assert sent + [] == sent;
      if f[1] == FT_INPUT {
        OnInput(f);
      } else if f[1] == FT_START {
        OnStart(f);
      } else if f[1] == FT_CRC {
        RsOnCrc(f);
      } else if f[1] == FT_STATE {
        RsOnState(f);
      } else if f[1] == FT_RESYNC {
        RsOnReq();
      }
    }

    /** The copy loop of SES_PUMP. */
    method Accumulate(read: bytes)
      requires Valid() && |Unparsed()| + |read| <= 255
      modifies this`rxWr, acc
      ensures Valid() && Unparsed() == old(Unparsed()) + read && AsCon() == old(AsCon())
    {
      hide AccOf;
      ghost var before := Unparsed();
      var i := 0;
      while i < |read|
        invariant 0 <= i <= |read| && Unparsed() == before + read[..i]
      {
        assert read[..i + 1] == read[..i] + [read[i]];
        AccSize(acc[..], rxRd, rxWr);
        PutByte(acc[..], rxRd, rxWr, read[i]);
        ghost var was := acc[..];
        acc[rxWr as int] := read[i];
        assert acc[..] == was[rxWr as int := read[i]];
        rxWr := Next(rxWr);
        i := i + 1;
      }
      assert read[..i] == read;
    }

    /** The extraction loop of SES_PUMP: n bytes from the ring into the frame buffer. */
    method Extract(n: nat) returns (f: bytes)
      requires Valid() && n <= |Unparsed()|
      modifies this`rxRd
      ensures f == old(Unparsed())[..n] && Unparsed() == old(Unparsed())[n..]
    {
      hide AccOf;
      ghost var before := Unparsed();
      f := [];
      var i := 0;
      while i < n
        invariant 0 <= i <= n && f == before[..i] && Unparsed() == before[i..]
      {
        assert before[..i + 1] == before[..i] + [before[i]];
        AccSize(acc[..], rxRd, rxWr);
        DropByte(acc[..], rxRd, rxWr);
        f := f + [acc[rxRd as int]];
        rxRd := Next(rxRd);
        i := i + 1;
      }
    }

    /** What the parse loop makes of the bytes it has: Judge, read off the ring. */
    method Look() returns (v: Verdict)
      requires Valid()
      ensures v == Judge(Unparsed())
    {
      hide AccOf;
      var r0 := Held(rxRd, rxWr);
      AccSize(acc[..], rxRd, rxWr);
      if r0 < 2 {
        return Wait;
      }
      DropByte(acc[..], rxRd, rxWr);
      SecondByte(acc[..], rxRd, rxWr);
      var len, type_ := acc[rxRd as int], acc[Next(rxRd) as int];
      if type_ >= 16 {
        return Slip;
      }
      var r1 := Flen(type_);
      if r1 == 0 || (len as int) < r1 % 256 || len as int > r1 / 256 {
        return Slip;
      }
      if r0 < len as int + 1 {
        return Wait;
      }
      v := Take(len as int + 1);
    }

    /** Extract the front frame and dispatch it. */
    method TakeFront(n: nat) returns (f: bytes)
      requires Valid() && n <= |Unparsed()| && Legal(Unparsed()[..n])
      modifies this`netSeat, this`netCount, this`netDelay, this`hold, this`rLo, this`rHi, this`pend, this`ptmo,
               this`tickLo, this`tickHi, this`sent, this`rxRd, ring, kpRing, wm, own, mem
      ensures Valid() && f == old(Unparsed()[..n]) && Unparsed() == old(Unparsed())[n..] && Legal(f)
      ensures AsCon() == OnFrame16(old(AsCon()), f).0 && sent == old(sent) + OnFrame16(old(AsCon()), f).1
    {
      hide RingsOf, OwnOf, WmOf, AccOf, Legal, OnFrame16;
      f := Extract(n);
      SesOnFrame(f);
    }

    /** The front byte is no length byte: step over it. */
    method StepOver()
      requires Valid() && Unparsed() != []
      modifies this`rxRd
      ensures Valid() && Unparsed() == old(Unparsed())[1..] && AsCon() == old(AsCon())
    {
      hide RingsOf, OwnOf, WmOf;
      AccSize(acc[..], rxRd, rxWr);
      DropByte(acc[..], rxRd, rxWr);
      rxRd := Next(rxRd);
    }

    /** SES_PUMP after its read: accumulate, then take or slip until the front is incomplete. */
    method SesPump(read: bytes)
      requires Valid() && |Unparsed()| <= 99 && |read| <= 64
      modifies this`netSeat, this`netCount, this`netDelay, this`hold, this`rLo, this`rHi, this`pend, this`ptmo,
               this`tickLo, this`tickHi, this`sent, this`rxRd, this`rxWr, ring, kpRing, wm, own, acc, mem
      ensures Valid() && |Unparsed()| <= 99
      ensures var p := Parse(old(Unparsed()) + read);
              Unparsed() == p.rest && Dispatched(old(AsCon()), old(sent), p.frames, AsCon(), sent)
    {
      hide Parse, Judge, Legal, OnFrame16, OnFrames16, Dispatched, AsCon, Unparsed;
      ghost var c0, sent0, p := AsCon(), sent, Parse(Unparsed() + read);
      Accumulate(read);
      ghost var done: seq<bytes> := [];
      NothingDispatched(c0, sent0);
      assert done + Parse(Unparsed()).frames == p.frames;
      while true
        invariant Valid() && Dispatched(c0, sent0, done, AsCon(), sent)
        invariant done + Parse(Unparsed()).frames == p.frames && Parse(Unparsed()).rest == p.rest
        decreases |Unparsed()|
      {
        var v := Look();
        ghost var buf := Unparsed();
        JudgeFacts(buf);
        if v.Wait? {
          ParseWait(buf);
          assert done + [] == done;
          break;
        } else if v.Slip? {
          ParseSlip(buf);
          StepOver();
        } else {
          ParseTake(buf, v.n);
          ghost var c1, sent1 := AsCon(), sent;
          var f := TakeFront(v.n);
          DispatchMore(c0, sent0, done, c1, sent1, f, AsCon(), sent);
          assert done + [f] + Parse(Unparsed()).frames == done + ([f] + Parse(Unparsed()).frames);
          done := done + [f];
        }
      }
    }

    /** SES_HOLD: 150 pumps while the matched screen stands, before the first pass.  Together they do what
        one parse of all their bytes says. */
    method SesHold(got: seq<bytes>)
      requires Valid() && |Unparsed()| <= 99 && |got| == 150 && forall r :: r in got ==> |r| <= 64
      modifies this`netSeat, this`netCount, this`netDelay, this`hold, this`rLo, this`rHi, this`pend, this`ptmo,
               this`tickLo, this`tickHi, this`sent, this`rxRd, this`rxWr, ring, kpRing, wm, own, acc, mem
      ensures Valid() && |Unparsed()| <= 99
      ensures var p := Parse(old(Unparsed()) + Flatten(got));
              Unparsed() == p.rest && Dispatched(old(AsCon()), old(sent), p.frames, AsCon(), sent)
    {
      hide Parse, AccOf, Dispatched, Flatten, RingsOf, OwnOf, WmOf;
      ghost var c0, sent0, buf := AsCon(), sent, Unparsed();
      ghost var all := buf;
      NothingDispatched(c0, sent0);
      FlattenNone(buf);
      assert got[..0] == [];
      var tmr := 150;
      while tmr != 0
        invariant 0 <= tmr <= 150 && Valid() && |Unparsed()| <= 99
        invariant all == buf + Flatten(got[..150 - tmr])
        invariant if tmr == 150 then Unparsed() == buf && Dispatched(c0, sent0, [], AsCon(), sent)
                  else Unparsed() == Parse(all).rest && Dispatched(c0, sent0, Parse(all).frames, AsCon(), sent)
      {
        ghost var n := 150 - tmr;
        ghost var c1, sent1, left := AsCon(), sent, Unparsed();
        var read := got[150 - tmr];
        assert read in got;
        SesPump(read);
        DispatchAll(c0, sent0, if n == 0 then [] else Parse(all).frames, c1, sent1, Parse(left + read).frames, AsCon(), sent);
        if n > 0 { ParseMore(all, read); } else { assert [] + Parse(left + read).frames == Parse(left + read).frames; }
        FlattenSnoc(buf, got, n);
        all := all + read;
        tmr := tmr - 1;
      }
      assert got[..150] == got;
    }

    // ---- lockstep.asm ------------------------------------------------------------------------------------

    /** Capture for tick T + d: both rings, the INPUT frame, on to the gate. */
    method Capture(cell: Cell)
      requires Valid()
      modifies this`atGate, this`sent, ring, kpRing
      ensures AsCon() == Capture16(old(AsCon()), cell).0 && sent == old(sent) + [Capture16(old(AsCon()), cell).1]
    {
      hide RingsOf, OwnOf, WmOf, Lo, Hi, Wrap, Pair, Put;
      var r2 := Wrap(Pair(tickLo, tickHi) as int + netDelay as int);
      PutCell(ring[..], kpRing[..], netSeat as nat, Lo(r2), cell);
      var at := 256 * netSeat as nat + Lo(r2) as nat;
      ghost var dec, kp := ring[..], kpRing[..];
      ring[at] := cell.dec;
      kpRing[at] := cell.kp;
      assert ring[..] == dec[at := cell.dec] && kpRing[..] == kp[at := cell.kp];
      var f: bytes := [6, FT_INPUT, netSeat, Lo(r2), Hi(r2), cell.dec, cell.kp];
      sent := sent + [f];
      atGate := true;
    }

    /** The gate's loop over the seats. */
    method GateOpen() returns (open: bool)
      requires Valid()
      ensures open <==> !Gated16(AsCon())
    {
      hide RingsOf, OwnOf;
      var tick := Pair(tickLo, tickHi);
      var seat := 0;
      while seat < netCount as int
        invariant 0 <= seat <= netCount as int
        invariant forall s :: 0 <= s < seat && s != netSeat as int ==> !Negative(Delta(AsCon().wm[s], tick))
      {
        if seat != netSeat as int {
          assert AsCon().wm[seat] == Pair(wm[2 * seat], wm[2 * seat + 1]);
          if Negative(Delta(Pair(wm[2 * seat], wm[2 * seat + 1]), tick)) {
            return false;
          }
        }
        seat := seat + 1;
      }
      return true;
    }

    /** RS_RECORD_CRC. */
    method RsRecordCrc(clo: byte, chi: byte)
      requires Valid()
      modifies own
      ensures AsCon() == var c := old(AsCon()); c.(own := c.own[tickLo as int / 64 := Own(tickLo, tickHi, clo, chi)])
    {
      var r4 := 4 * (tickLo as int / 64);
      ghost var o := OwnOf(own[..]);
      own[r4], own[r4 + 1], own[r4 + 2], own[r4 + 3] := tickLo, tickHi, clo, chi;
      assert OwnOf(own[..]) == o[tickLo as int / 64 := Own(tickLo, tickHi, clo, chi)];
    }

    /** A seat's current and previous ring cells; at tick_lo 0 the previous slot wraps. */
    method SeatCells(side: nat) returns (cur: Cell, prev: Cell)
      requires Valid() && side < 4
      ensures var r := AsCon().rings[side];
              cur == At(r, tickLo as int) && prev == At(r, tickLo as int - 1)
    {
      var r3 := 256 * side + tickLo as int;
      cur := Cell(ring[r3], kpRing[r3]);
      r3 := r3 - 1;
      if tickLo == 0 {
        r3 := r3 + 256;
      }
      prev := Cell(ring[r3], kpRing[r3]);
      assert (tickLo as int - 1) % 256 == if tickLo == 0 then 255 else tickLo as int - 1;
      assert cur == At(RingAt(ring[..], kpRing[..], side), tickLo as int);
      assert prev == At(RingAt(ring[..], kpRing[..], side), tickLo as int - 1);
    }

    /** LS_VDISPATCH for one seat at the current tick: the handler calls it makes, in order. */
    method LsVDispatch(side: nat) returns (calls: seq<Buttons.Call>)
      requires Valid() && side < 4
      ensures var r := AsCon().rings[side];
              && Buttons.TickLaw(At(r, tickLo as int), At(r, tickLo as int - 1), calls)
              && calls == Buttons.Dispatch(At(r, tickLo as int), At(r, tickLo as int - 1))
    {
      hide RingsOf, OwnOf, WmOf, At, Buttons.TickLaw;
      var now, was := SeatCells(side);
      Buttons.DispatchLaw(now, was);
      var cur, kp, prev, kpPre := now.dec, now.kp, was.dec, was.kp;
      calls := [];
      if kpPre != 0 && kpPre <= 3 && kpPre != kp {
        calls := calls + [Buttons.Call(2 * kpPre as nat + 2, -1)];
      }
      if kp != 0 && kp <= 3 {
        if kp != kpPre {
          calls := calls + [Buttons.Call(2 * kp as nat + 2, 1)];
        } else {
          calls := calls + [Buttons.Call(2 * kp as nat + 2, 0)];
        }
      }
      if cur != prev {
        if !Buttons.Bit6(cur) {
          calls := calls + [Buttons.Call(if Buttons.Bit7(cur) then 2 else 0, cur as int % 128)];
        } else if !Buttons.Bit7(cur) {
          calls := calls + [Buttons.Call(0, -1)];
        }
      }
      assert calls == Buttons.Dispatch(now, was);
    }

    /** What the dispatcher and the tick read of both seats. */
    method Inputs() returns (x: TickIn)
      requires Valid()
      ensures x == ReadRings16(AsCon())
    {
      hide RingsOf, OwnOf, WmOf, At;
      PairParts(tickLo, tickHi);
      var cur0, prev0 := SeatCells(0);
      var cur1, prev1 := SeatCells(1);
      x := TickIn(cur0, prev0, cur1, prev1);
    }

    /** The game's own code for one tick. */
    method GameTick(game: Game)
      requires Valid()
      modifies mem
      ensures mem[..] == game(old(mem[..]), ReadRings16(old(AsCon())))
    {
      var x := Inputs();
      var m := game(mem[..], x);
      forall a | 0 <= a < 0x10000 { mem[a] := m[a]; }
    }

    /** TICK_LO and TICK_HI as one counter. */
    method CountTick()
      requires Valid()
      modifies this`tickLo, this`tickHi
      ensures AsCon() == old(AsCon()).(tick := Wrap(old(AsCon()).tick + 1))
    {
      hide RingsOf, OwnOf, WmOf;
      if tickLo == 0xFF {
        tickLo := 0;
        tickHi := ((tickHi as int + 1) % 256) as byte;
      } else {
        tickLo := tickLo + 1;
      }
    }

    /** The checksum report of every 64th tick. */
    method Report()
      requires Valid()
      modifies this`sent, own
      ensures var c := old(AsCon());
              var sum := Cksum(c.mem);
              && AsCon() == c.(own := c.own[tickLo as int / 64 := Own(tickLo, tickHi, Lo(sum), Hi(sum))])
              && sent == old(sent) + [[6, FT_CRC, netSeat, tickLo, tickHi, Lo(sum), Hi(sum)]]
    {
      hide RingsOf, OwnOf, WmOf, Cksum;
      var r0 := LsCksum(mem);
      RsRecordCrc(Lo(r0), Hi(r0));
      var f: bytes := [6, FT_CRC, netSeat, tickLo, tickHi, Lo(r0), Hi(r0)];
      sent := sent + [f];
    }

    /** LS_PASS past its gate: the tick, the report, the counter. */
    method LsRun(game: Game)
      requires Valid()
      modifies this`atGate, this`tickLo, this`tickHi, this`sent, own, mem
      ensures AsCon() == Tick16(game, old(AsCon())).0 && sent == old(sent) + Tick16(game, old(AsCon())).1
    {
      hide RingsOf, OwnOf, WmOf, ReadRings16, Cksum;
      PairParts(tickLo, tickHi);
      GameTick(game);
      if tickLo % 64 == 0 {
        Report();
      } else {
        assert sent + [] == sent;
      }
      CountTick();
      atGate := false;
    }

    /** RS_PENDING: count the wait, then push at a dead ball or at the cap. */
    method RsPending()
      requires Valid()
      modifies this`hold, this`rLo, this`rHi, this`pend, this`ptmo, this`tickLo, this`tickHi, this`sent, ring, kpRing, wm, own
      ensures var c := Waited16(old(AsCon()));
              if Pushes16(c) then AsCon() == Push16(c).0 && sent == old(sent) + Push16(c).1 else AsCon() == c && sent == old(sent)
      ensures exists out :: sent == old(sent) + out && WaitLaw(old(AsCon()), AsCon(), out)
    {
      hide RingsOf, OwnOf, WmOf, Push16, WaitLaw;
      ghost var s := sent;
      PendingLaw(AsCon());
      assert s + [] == s;
      if !pend || netSeat != 0 || hold {
        return;
      }
      ptmo := ((ptmo as int + 1) % 256) as byte;
      if mem[NB_PHASE] % 256 / 64 == 3 {
        RsPush();
      } else if ptmo >= 60 {
        RsPush();
      }
    }

    /** The rest of LS_PASS once the gate is open. */
    method LsFinish(game: Game)
      requires Valid()
      modifies this`atGate, this`hold, this`rLo, this`rHi, this`pend, this`ptmo, this`tickLo, this`tickHi, this`sent,
               ring, kpRing, wm, own, mem
      ensures AsCon() == Finish16(game, old(AsCon())).0 && sent == old(sent) + Finish16(game, old(AsCon())).1
      ensures exists out :: sent == old(sent) + out && PassLaw(old(AsCon()), AsCon(), out)
    {
      hide RingsOf, OwnOf, WmOf, Push16, Tick16, Waited16, Pushes16, PassLaw, WaitLaw;
      ghost var c, s := AsCon(), sent;
      FinishLaw(game, c);
      LsRun(game);
      RsPending();
      assert s + Tick16(game, c).1 + Push16(Waited16(Tick16(game, c).0)).1 ==
             s + (Tick16(game, c).1 + Push16(Waited16(Tick16(game, c).0)).1);
    }

    /** LS_PASS up to its gate: in a hold only the pump, otherwise the pump and the capture. */
    method LsEnter(read: bytes, cell: Cell)
      requires Valid() && |Unparsed()| <= 99 && |read| <= 64
      modifies this, ring, kpRing, wm, own, acc, mem
      ensures Valid() && |Unparsed()| <= 99 && Unparsed() == Parse(old(Unparsed()) + read).rest
      ensures exists c1, sent1 :: Dispatched(old(AsCon()), old(sent), Parse(old(Unparsed()) + read).frames, c1, sent1) &&
                if old(hold) then AsCon() == c1 && sent == sent1
                else AsCon() == Capture16(c1, cell).0 && sent == sent1 + [Capture16(c1, cell).1]
    {
      hide RingsOf, OwnOf, WmOf, Parse, AccOf, Dispatched, Capture16;
      var held := hold;
      SesPump(read);
      ghost var c1, sent1 := AsCon(), sent;
      if !held {
        Capture(cell);
      }
    }

    /** One round of the gate loop, or the rest of the pass. */
    method LsGate(read: bytes, game: Game)
      requires Valid() && |Unparsed()| <= 99 && |read| <= 64
      modifies this, ring, kpRing, wm, own, acc, mem
      ensures Valid() && |Unparsed()| <= 99
      ensures if Gated16(old(AsCon()))
              then && Unparsed() == Parse(old(Unparsed()) + read).rest
                   && Dispatched(old(AsCon()), old(sent), Parse(old(Unparsed()) + read).frames, AsCon(), sent)
              else && Unparsed() == old(Unparsed())
                   && AsCon() == Finish16(game, old(AsCon())).0 && sent == old(sent) + Finish16(game, old(AsCon())).1
    {
      hide RingsOf, OwnOf, WmOf, Parse, AccOf, Dispatched, Gated16, Finish16;
      var open := GateOpen();
      if open {
        LsFinish(game);
      } else {
        SesPump(read);
      }
    }
  }

  lemma PairParts(lo: byte, hi: byte)
    ensures Lo(Pair(lo, hi)) == lo && Hi(Pair(lo, hi)) == hi
  {
  }

  lemma AccSize(acc: seq<byte>, rd: byte, wr: byte)
    requires |acc| == 256
    ensures |AccOf(acc, rd, wr)| == Held(rd, wr)
  {
  }

  lemma JudgeFacts(buf: bytes)
    ensures var v := Judge(buf);
            (v.Wait? ==> |buf| <= 99) && (v.Slip? ==> |buf| >= 2) && (v.Take? ==> 2 <= v.n <= |buf| && Legal(buf[..v.n]))
  {
  }

  /** Frames dispatched one after the other took the console and what it sent from one to the other. */
  ghost predicate Dispatched(c: Con, sent: seq<bytes>, frames: seq<bytes>, c': Con, sent': seq<bytes>) {
    && (forall f :: f in frames ==> Legal(f))
    && c' == OnFrames16(c, frames).0 && sent' == sent + OnFrames16(c, frames).1
  }

  lemma NothingDispatched(c: Con, sent: seq<bytes>)
    ensures Dispatched(c, sent, [], c, sent)
  {
  }

  lemma {:induction false} FramesThenOne(c: Con, fs: seq<bytes>, f: bytes)
    requires (forall g :: g in fs ==> Legal(g)) && Legal(f)
    ensures forall g :: g in fs + [f] ==> Legal(g)
    ensures var (c1, out1) := OnFrames16(c, fs);
            OnFrames16(c, fs + [f]) == (OnFrame16(c1, f).0, out1 + OnFrame16(c1, f).1)
    decreases |fs|
  {
    hide Legal, OnFrame16;
    if fs == [] {
      assert fs + [f] == [f] && [f][1..] == [];
      assert OnFrame16(c, f).1 + [] == [] + OnFrame16(c, f).1;
    } else {
      var (c1, out1) := OnFrame16(c, fs[0]);
      var (c2, out2) := OnFrames16(c1, fs[1..]);
      var (c3, out3) := OnFrame16(c2, f);
      assert (fs + [f])[1..] == fs[1..] + [f] && (fs + [f])[0] == fs[0];
      FramesThenOne(c1, fs[1..], f);
      assert OnFrames16(c, fs + [f]) == (c3, out1 + (out2 + out3));
      assert out1 + (out2 + out3) == (out1 + out2) + out3;
    }
  }

  lemma DispatchMore(c0: Con, sent0: seq<bytes>, done: seq<bytes>, c1: Con, sent1: seq<bytes>, f: bytes, c2: Con, sent2: seq<bytes>)
    requires Dispatched(c0, sent0, done, c1, sent1) && Legal(f)
    requires c2 == OnFrame16(c1, f).0 && sent2 == sent1 + OnFrame16(c1, f).1
    ensures Dispatched(c0, sent0, done + [f], c2, sent2)
  {
    hide Legal, OnFrame16, OnFrames16;
    FramesThenOne(c0, done, f);
  }

  lemma ImageSnoc(img: Image, pos: nat, i: nat)
    requires pos + i < IMG_TOTAL
    ensures img[pos..pos + i + 1] == img[pos..pos + i] + [img[pos + i]]
  {
  }

  lemma {:induction false} FramesJoin(c: Con, a: seq<bytes>, b: seq<bytes>)
    requires (forall g :: g in a ==> Legal(g)) && (forall g :: g in b ==> Legal(g))
    ensures forall g :: g in a + b ==> Legal(g)
    ensures var (c1, out1) := OnFrames16(c, a);
            OnFrames16(c, a + b) == (OnFrames16(c1, b).0, out1 + OnFrames16(c1, b).1)
    decreases |a|
  {
    hide Legal, OnFrame16;
    if a == [] {
      assert a + b == b && [] + OnFrames16(c, b).1 == OnFrames16(c, b).1;
    } else {
      assert (a + b)[1..] == a[1..] + b;
      var (c1, out1) := OnFrame16(c, a[0]);
      var (c2, out2) := OnFrames16(c1, a[1..]);
      FramesJoin(c1, a[1..], b);
      assert out1 + (out2 + OnFrames16(c2, b).1) == (out1 + out2) + OnFrames16(c2, b).1;
    }
  }

  lemma DispatchAll(c0: Con, sent0: seq<bytes>, a: seq<bytes>, c1: Con, sent1: seq<bytes>, b: seq<bytes>, c2: Con, sent2: seq<bytes>)
    requires Dispatched(c0, sent0, a, c1, sent1) && Dispatched(c1, sent1, b, c2, sent2)
    ensures Dispatched(c0, sent0, a + b, c2, sent2)
  {
    hide Legal, OnFrames16;
    FramesJoin(c0, a, b);
  }

  lemma FlattenNone(buf: bytes)
    ensures buf + Flatten([]) == buf
  {
  }

  lemma FlattenSnoc(buf: bytes, got: seq<bytes>, n: nat)
    requires n < |got|
    ensures buf + Flatten(got[..n + 1]) == buf + Flatten(got[..n]) + got[n]
  {
    assert got[..n + 1] == got[..n] + [got[n]];
    FlattenJoin(got[..n], [got[n]]);
    var one: seq<bytes> := [got[n]];
    assert one[1..] == [] && Flatten(one) == got[n];
  }

  lemma PairLoHi(w: word)
    ensures Pair(Lo(w), Hi(w)) == w
  {
  }

  lemma ChunkNext(img: Image, pos: nat, was: seq<bytes>)
    requires pos < IMG_TOTAL
    ensures var n := if IMG_TOTAL - pos < RS_CHUNK then IMG_TOTAL - pos else RS_CHUNK;
            was + [Chunk16(pos, img[pos..pos + n])] + Chunks16(img, pos + n) == was + Chunks16(img, pos)
  {
    hide Chunk16;
  }

  lemma ChunksEnd(img: Image, was: seq<bytes>)
    ensures was + Chunks16(img, IMG_TOTAL) == was
  {
  }

  lemma PutWm(w: seq<byte>, s: nat, lo: byte, hi: byte)
    requires |w| == 8 && s < 4
    ensures var w1: seq<byte> := w[2 * s := lo]; WmOf(w1[2 * s + 1 := hi]) == WmOf(w)[s := Pair(lo, hi)]
  {
  }
}
