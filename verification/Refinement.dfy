/** Frame by frame and pass by pass, the 16-bit console follows the protocol console. */
module Refinement {
  import opened Cells
  import opened Stream
  import opened ImageMemory
  import opened Checksum
  import opened ConsoleCells
  import P = Protocol

  // ---- frames as bytes ---------------------------------------------------------------------

  predicate Sendable(f: P.Frame) {
    match f
    case Input(seat, _, _) => seat < 256
    case Crc(seat, _, _) => seat < 256
    case Chunk(pos, data) => data != [] && |data| <= RS_CHUNK && pos + |data| <= IMG_TOTAL
    case _ => true
  }

  function Encode(f: P.Frame): bytes
    requires Sendable(f)
  {
    match f
    case Input(seat, t, c) => [6, FT_INPUT, seat, Lo(Wrap(t)), Hi(Wrap(t)), c.dec, c.kp]
    case Crc(seat, t, sum) => [6, FT_CRC, seat, Lo(Wrap(t)), Hi(Wrap(t)), Lo(sum), Hi(sum)]
    case Resync(t) => [3, FT_RESYNC, Lo(Wrap(t)), Hi(Wrap(t))]
    case Begin(r) => [5, FT_STATE, 0, 0xFF, Lo(Wrap(r)), Hi(Wrap(r))]
    case Chunk(pos, data) => Chunk16(pos, data)
    case End => [3, FT_STATE, 1, 0xFF]
  }

  /** Every frame a console builds passes the receiver's length table. */
  lemma EncodeLegal(f: P.Frame)
    requires Sendable(f)
    ensures Legal(Encode(f)) && |Encode(f)| == P.Size(f)
  {
  }

  predicate AllSendable(fs: seq<P.Frame>) {
    forall i :: 0 <= i < |fs| ==> Sendable(fs[i])
  }

  function EncodeAll(fs: seq<P.Frame>): (r: seq<bytes>)
    requires AllSendable(fs)
    ensures |r| == |fs|
  {
    seq(|fs|, i requires 0 <= i < |fs| => Encode(fs[i]))
  }

  // ---- representation ----------------------------------------------------------------------

  ghost predicate OwnRep(o: Own, r: P.Record) {
    match r
    case NoRecord => o == NO_OWN
    case Record(t, sum) => o == Own(Lo(Wrap(t)), Hi(Wrap(t)), Lo(sum), Hi(sum))
  }

  ghost predicate Rep(cfg: P.Cfg, k: Con, c: P.Console) {
    && c.seat < 2 && k.seat as nat == c.seat && k.count == 2 && k.delay as nat == cfg.d
    && k.tick == Wrap(c.tick) && k.wm[1 - c.seat] == Wrap(c.wm)
    && k.rings[c.seat] == c.mine && k.rings[1 - c.seat] == c.theirs
    && k.atGate == c.atGate && k.hold == c.hold && (c.hold ==> k.resume == Wrap(c.resume))
    && k.pend == c.pend && k.ptmo as nat == c.ptmo
    && (forall i :: 0 <= i < 4 ==> OwnRep(k.own[i], c.own[i]))
    && ImageOf(k.mem) == c.img && CellsSound(k.mem)
  }

  /** The game's code is deterministic on the image but for the volatile bytes, which it neither uses
      nor touches (what really happens to them is the interrupt's, at any moment), keeps cells in
      range, and is what the protocol's tick stands for; the protocol's checksum is LS_CKSUM. */
  ghost predicate Faithful(game: Game, cfg: P.Cfg) {
    && cfg.d < 256
    && (forall m, x :: CellsSound(m) ==> CellsSound(game(m, x)) && ImageOf(game(m, x)) == P.Play(cfg, ImageOf(m), x))
    && (forall img :: P.Sum(cfg, img) == ImageSum(img))
  }

  // ---- 16-bit arithmetic -------------------------------------------------------------------

  /** The subtract-and-sign test agrees with comparing unbounded ticks less than 2^15 apart. */
  lemma DeltaSign(a: int, b: int)
    requires -0x8000 < a - b < 0x8000
    ensures Negative(Delta(Wrap(a), Wrap(b))) <==> a < b
    ensures Delta(Wrap(a), Wrap(b)) == 0 <==> a == b
  {
    WrapSub(a, b);
  }

  lemma WrapSub(a: int, b: int)
    ensures Wrap(Wrap(a) - Wrap(b)) == Wrap(a - b)
  {
  }

  lemma WrapAdd(a: int, b: int)
    ensures Wrap(Wrap(a) + b) == Wrap(a + b)
  {
  }

  lemma WrapEqual(a: int, b: int)
    requires -0x10000 < a - b < 0x10000
    ensures Wrap(a) == Wrap(b) <==> a == b
  {
  }

  lemma PairSplit(w: word)
    ensures Pair(Lo(w), Hi(w)) == w
  {
  }

  /** The low byte of a wrapped tick is the ring slot of the tick. */
  lemma LowSlot(t: int)
    ensures Lo(Wrap(t)) as int == t % 256
  {
  }

  lemma RingSlot(r: Ring, t: int, c: Cell)
    ensures At(r, Lo(Wrap(t)) as int) == At(r, t)
    ensures At(r, Lo(Wrap(t)) as int - 1) == At(r, t - 1)
    ensures Put(r, Lo(Wrap(t)) as int, c) == Put(r, t, c)
  {
    LowSlot(t);
    assert (t % 256 - 1) % 256 == (t - 1) % 256 by {
      assert t == t % 256 + 256 * (t / 256);
      var a, b := t % 256 - 1, t - 1;
      assert b - a == 256 * (t / 256);
      assert b % 256 - a % 256 == 256 * (t / 256 + a / 256 - b / 256);
    }
  }

  // ---- frames ------------------------------------------------------------------------------

  /** The ticks a frame carries lie near the receiver's own. */
  ghost predicate Near(c: P.Console, f: P.Frame) {
    match f
    case Input(seat, t, _) => seat < 2 && -0x8000 < t - c.wm < 0x8000
    case Crc(_, t, _) =>
      t % 64 == 0 && forall i :: 0 <= i < 4 && c.own[i].Record? ==> P.Slot(c.own[i].tick) == i && -0x10000 < t - c.own[i].tick < 0x10000
    case _ => true
  }

  lemma InputRefines(cfg: P.Cfg, k: Con, c: P.Console, f: P.Frame)
    requires Rep(cfg, k, c) && f.Input? && Near(c, f)
    ensures Sendable(f) && Legal(Encode(f)) && Rep(cfg, OnFrame16(k, Encode(f)).0, P.OnFrame(cfg, c, f).0)
    ensures OnFrame16(k, Encode(f)).1 == [] && P.OnFrame(cfg, c, f).1 == []
  {
    hide CellsSound, ImageOf, OwnRep;
    EncodeLegal(f);
    PairSplit(Wrap(f.tick));
    DeltaSign(f.tick, c.wm);
    if f.seat != c.seat {
      RingSlot(c.theirs, f.tick, f.cell);
    }
  }

  lemma SlotOfLow(t: nat)
    ensures Lo(Wrap(t)) as int / 64 == P.Slot(t)
  {
    LowSlot(t);
  }

  /** A record matches byte by byte exactly when tick and checksum are the same; none ever matches
      the fill value. */
  lemma RecordMatches(o: Own, r: P.Record, t: nat, sum: word)
    requires OwnRep(o, r) && t % 64 == 0 && (r.Record? ==> -0x10000 < t - r.tick < 0x10000)
    ensures o.lo == Lo(Wrap(t)) && o.hi == Hi(Wrap(t)) <==> r.Record? && r.tick == t
    ensures r.Record? ==> (o.clo == Lo(sum) && o.chi == Hi(sum) <==> r.sum == sum)
  {
  }

  lemma CrcRefines(cfg: P.Cfg, k: Con, c: P.Console, f: P.Frame)
    requires Rep(cfg, k, c) && f.Crc? && Near(c, f) && Sendable(f)
    ensures Legal(Encode(f)) && Rep(cfg, OnFrame16(k, Encode(f)).0, P.OnFrame(cfg, c, f).0)
    ensures AllSendable(P.OnFrame(cfg, c, f).1) && OnFrame16(k, Encode(f)).1 == EncodeAll(P.OnFrame(cfg, c, f).1)
  {
    EncodeLegal(f);
    SlotOfLow(f.tick);
    RecordMatches(k.own[P.Slot(f.tick)], c.own[P.Slot(f.tick)], f.tick, f.sum);
    hide Lo, Hi, Wrap, ImageOf, CellsSound, P.Slot, OwnRep;
  }

  lemma ControlRefines(cfg: P.Cfg, k: Con, c: P.Console, f: P.Frame)
    requires Rep(cfg, k, c) && (f.Resync? || f.Begin? || f.End?) && cfg.d >= 1
    ensures Sendable(f) && Legal(Encode(f)) && Rep(cfg, OnFrame16(k, Encode(f)).0, P.OnFrame(cfg, c, f).0)
    ensures OnFrame16(k, Encode(f)).1 == [] && P.OnFrame(cfg, c, f).1 == []
  {
    EncodeLegal(f);
    if f.Begin? {
      PairSplit(Wrap(f.resume));
    } else if f.End? && c.hold {
      WrapAdd(c.resume, cfg.d - 1);
    }
  }

  lemma {:induction false} PutRunSound(m: Memory, pos: nat, data: seq<byte>)
    requires CellsSound(m) && pos + |data| <= IMG_TOTAL
    ensures CellsSound(PutRun(m, pos, data))
    decreases |data|
  {
    if data != [] {
      PutSound(m, pos, data[0]);
      PutRunSound(ImgPut(m, pos, data[0]), pos + 1, data[1..]);
    }
  }

  lemma ChunkRefines(cfg: P.Cfg, k: Con, c: P.Console, f: P.Frame)
    requires Rep(cfg, k, c) && f.Chunk? && Sendable(f)
    ensures Legal(Encode(f)) && Rep(cfg, OnFrame16(k, Encode(f)).0, P.OnFrame(cfg, c, f).0)
    ensures OnFrame16(k, Encode(f)).1 == [] && P.OnFrame(cfg, c, f).1 == []
  {
    hide PutRun, ImageOf, CellsSound;
    EncodeLegal(f);
    PairSplit(f.pos);
    assert Encode(f)[4..] == f.data;
    if c.hold {
      PutRunSplices(k.mem, f.pos, f.data);
      PutRunSound(k.mem, f.pos, f.data);
    }
  }

  lemma FrameRefines(cfg: P.Cfg, k: Con, c: P.Console, f: P.Frame)
    requires Rep(cfg, k, c) && Near(c, f) && Sendable(f) && cfg.d >= 1
    ensures Legal(Encode(f)) && Rep(cfg, OnFrame16(k, Encode(f)).0, P.OnFrame(cfg, c, f).0)
    ensures AllSendable(P.OnFrame(cfg, c, f).1) && OnFrame16(k, Encode(f)).1 == EncodeAll(P.OnFrame(cfg, c, f).1)
  {
    hide Rep, OnFrame16;
    match f
    case Input(_, _, _) => InputRefines(cfg, k, c, f);
    case Crc(_, _, _) => CrcRefines(cfg, k, c, f);
    case Chunk(_, _) => ChunkRefines(cfg, k, c, f);
    case _ => ControlRefines(cfg, k, c, f);
  }

  // ---- the pass ----------------------------------------------------------------------------

  lemma CaptureRefines(cfg: P.Cfg, k: Con, c: P.Console, cell: Cell)
    requires Rep(cfg, k, c)
    ensures Rep(cfg, Capture16(k, cell).0, P.Capture(cfg, c, cell).0)
    ensures var out := P.Capture(cfg, c, cell).1; AllSendable(out) && EncodeAll(out) == [Capture16(k, cell).1]
  {
    WrapAdd(c.tick, cfg.d);
    RingSlot(c.mine, c.tick + cfg.d, cell);
  }

  lemma GateRefines(cfg: P.Cfg, k: Con, c: P.Console)
    requires Rep(cfg, k, c) && -0x8000 < c.wm - c.tick < 0x8000
    ensures Gated16(k) <==> P.Gated(c)
  {
    DeltaSign(c.wm, c.tick);
    var other := 1 - c.seat;
    assert P.Gated(c) <==> Negative(Delta(k.wm[other], k.tick));
    if P.Gated(c) {
      assert 0 <= other < k.count as int && other != k.seat as int;
    }
  }

  lemma ReadRefines(cfg: P.Cfg, k: Con, c: P.Console)
    requires Rep(cfg, k, c)
    ensures ReadRings16(k) == P.ReadRings(c)
  {
    RingSlot(c.mine, c.tick, IDLE);
    RingSlot(c.theirs, c.tick, IDLE);
  }

  lemma LowMultiple(t: nat)
    ensures Lo(Wrap(t)) % 64 == 0 <==> t % 64 == 0
  {
  }

  lemma TickRefines(game: Game, cfg: P.Cfg, k: Con, c: P.Console)
    requires Rep(cfg, k, c) && Faithful(game, cfg)
    ensures Rep(cfg, Tick16(game, k).0, P.RunTick(cfg, c).0)
    ensures var out := P.RunTick(cfg, c).1; AllSendable(out) && EncodeAll(out) == Tick16(game, k).1
  {
    hide CellsSound, ImageOf, Cksum, P.ReadRings, ReadRings16;
    ReadRefines(cfg, k, c);
    WrapAdd(c.tick, 1);
    LowMultiple(c.tick);
    SlotOfLow(c.tick);
    SumOfImage(game(k.mem, ReadRings16(k)));
  }

  lemma {:induction false} ChunksRefine(img: Image, pos: nat)
    requires pos <= IMG_TOTAL
    ensures AllSendable(P.ChunksFrom(img, pos)) && EncodeAll(P.ChunksFrom(img, pos)) == Chunks16(img, pos)
    decreases IMG_TOTAL - pos
  {
    if pos < IMG_TOTAL {
      var n := if IMG_TOTAL - pos < RS_CHUNK then IMG_TOTAL - pos else RS_CHUNK;
      ChunksRefine(img, pos + n);
      var fs := P.ChunksFrom(img, pos);
      assert fs[0] == P.Chunk(pos, img[pos..pos + n]) && fs[1..] == P.ChunksFrom(img, pos + n);
      assert AllSendable(fs);
      assert EncodeAll(fs) == [Encode(fs[0])] + EncodeAll(fs[1..]);
    }
  }

  lemma EncodeJoin(a: seq<P.Frame>, b: seq<P.Frame>)
    requires AllSendable(a) && AllSendable(b)
    ensures AllSendable(a + b) && EncodeAll(a + b) == EncodeAll(a) + EncodeAll(b)
  {
  }

  lemma PushRefines(cfg: P.Cfg, k: Con, c: P.Console)
    requires Rep(cfg, k, c) && cfg.d >= 1
    ensures Rep(cfg, Push16(k).0, P.Push(cfg, c).0)
    ensures AllSendable(P.PushFrames(c)) && EncodeAll(P.PushFrames(c)) == PushFrames16(k)
  {
    hide CellsSound, ImageOf, P.PushFrames, PushFrames16, EncodeAll, AllSendable;
    WrapAdd(c.tick, 16);
    WrapAdd(c.tick + 16, cfg.d - 1);
    PushFramesRefine(cfg, k, c);
  }

  lemma PushFramesRefine(cfg: P.Cfg, k: Con, c: P.Console)
    requires Rep(cfg, k, c)
    ensures AllSendable(P.PushFrames(c)) && EncodeAll(P.PushFrames(c)) == PushFrames16(k)
  {
    hide CellsSound, ImageOf, OwnRep;
    WrapAdd(c.tick, 16);
    ChunksRefine(c.img, 0);
    EncodeJoin([P.Begin(c.tick + 16)], P.ChunksFrom(c.img, 0));
    EncodeJoin([P.Begin(c.tick + 16)] + P.ChunksFrom(c.img, 0), [P.End]);
  }

  lemma WaitRefines(cfg: P.Cfg, k: Con, c: P.Console)
    requires Rep(cfg, k, c) && (c.pend ==> c.ptmo < 255)
    ensures Rep(cfg, Waited16(k), P.Waited(c))
    ensures Pushes16(Waited16(k)) <==> P.Pushes(P.Waited(c))
  {
  }

  /** START puts a freshly booted console into the protocol's initial state exactly when its delay
      is not zero: the watermark d - 1 is stored as a byte, so zero leaves 255 instead of -1 ... */
  lemma StartRefines(cfg: P.Cfg, k: Con, f: bytes)
    requires Legal(f) && f[1] == FT_START && f[2] < 2 && f[3] == 2 && f[6] as nat == cfg.d
    requires CellsSound(k.mem) && !k.atGate && !k.hold && !k.pend && k.ptmo == 0
    ensures var k' := OnFrame16(k, f).0;
            Rep(cfg, k', P.InitConsole(cfg, f[2] as nat, ImageOf(k'.mem))) <==> cfg.d >= 1
  {
  }

  /** ... and the gate then stands open for 256 ticks with no input received. */
  lemma ZeroDelayOpens(k: Con, f: bytes, tick: word)
    requires Legal(f) && f[1] == FT_START && f[2] < 2 && f[3] == 2 && f[6] == 0
    ensures Gated16(OnFrame16(k, f).0.(tick := tick)) <==> 256 <= tick <= 0x80FF
  {
    assert f[0] == 38;
    var k' := OnFrame16(k, f).0.(tick := tick);
    var s := 1 - f[2] as int;
    assert k'.wm[s] == 255;
    assert Gated16(k') <==> Negative(Delta(k'.wm[s], k'.tick));
  }
}
