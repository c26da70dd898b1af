/** The console at cell level: 16-bit counters compared by subtract and sign, seat-indexed rings,
    records matched byte by byte, frames as bytes, the game state as memory. */
module ConsoleCells {
  import opened Cells
  import opened Stream
  import opened ImageMemory
  import opened Checksum

  const FT_START := 0x05
  const FT_INPUT := 0x06
  const FT_CRC := 0x07
  const FT_STATE := 0x08
  const FT_RESYNC := 0x09

  /** One record of OWN_CRC. */
  datatype Own = Own(lo: byte, hi: byte, clo: byte, chi: byte)

  /** What RS_CLR_CRC fills a record with: no report ever has tick_lo $FF. */
  const NO_OWN := Own(0xFF, 0xFF, 0xFF, 0xFF)

  datatype State = State(
    seat: byte, count: byte, delay: byte, tick: word, wm: seq<word>, rings: seq<Ring>, atGate: bool,
    hold: bool, resume: word, pend: bool, ptmo: byte, own: seq<Own>, mem: Memory)

  type Con = c: State | |c.wm| == 4 && |c.rings| == 4 && |c.own| == 8 && c.seat < 4 && c.count <= 4
    witness State(0, 2, 1, 0, [0, 0, 0, 0], [IdleRing(), IdleRing(), IdleRing(), IdleRing()], false, false, 0, false, 0,
                  [NO_OWN, NO_OWN, NO_OWN, NO_OWN, NO_OWN, NO_OWN, NO_OWN, NO_OWN], seq(0x10000, _ => 0))

  /** The game's own code, from one tick's cells to the next memory. */
  type Game = (Memory, TickIn) -> Memory

  function Lo(w: word): byte { w % 256 }

  function Hi(w: word): byte { w / 256 }

  function Pair(lo: byte, hi: byte): word { lo as int + 256 * hi as int }

  function Wrap(x: int): word { x % 0x10000 }

  /** 16-bit subtraction; negative when the sign bit is set. */
  function Delta(a: word, b: word): word { Wrap(a as int - b as int) }

  predicate Negative(x: word) { x >= 0x8000 }

  function IdleRings(): seq<Ring> { [IdleRing(), IdleRing(), IdleRing(), IdleRing()] }

  function NoOwns(): seq<Own> { [NO_OWN, NO_OWN, NO_OWN, NO_OWN, NO_OWN, NO_OWN, NO_OWN, NO_OWN] }

  function EnterHold16(c: Con): Con { c.(hold := true, own := NoOwns()) }

  function Rebase16(c: Con): Con {
    var w := Wrap(c.resume + c.delay - 1);
    c.(pend := false, ptmo := 0, tick := c.resume, rings := IdleRings(), wm := [w, w, w, w], own := NoOwns(), hold := false)
  }

  // ---- SES_ONFRAME -------------------------------------------------------------------------

  function OnInput16(c: Con, f: bytes): Con
    requires Legal(f)
  {
    if f[0] < 6 then c else
    var seat := f[2];
    if seat == c.seat || seat >= c.count then c else
    var t := Pair(f[3], f[4]);
    var delta := Delta(t, c.wm[seat]);
    if Negative(delta) || delta == 0 then c
    else c.(rings := c.rings[seat := Put(c.rings[seat], f[3] as int, Cell(f[5], f[6]))], wm := c.wm[seat := t])
  }

  function OnCrc16(c: Con, f: bytes): (Con, seq<bytes>)
    requires Legal(f)
  {
    if f[0] < 6 || c.hold || c.pend then (c, []) else
    var rec := c.own[f[3] as int / 64];
    if rec.lo != f[3] || rec.hi != f[4] || (rec.clo == f[5] && rec.chi == f[6]) then (c, [])
    else (c.(pend := true, ptmo := 0), if c.seat == 0 then [] else [[3, FT_RESYNC, f[3], f[4]]])
  }

  function OnReq16(c: Con): Con {
    if c.seat != 0 || c.hold || c.pend then c else c.(pend := true, ptmo := 0)
  }

  function OnState16(c: Con, f: bytes): Con
    requires Legal(f)
  {
    if f[0] < 3 then c
    else if f[3] != 0xFF then
      if !c.hold then c
      else if f[0] == 3 then c
      else if f[3] >= 4 then c
      else if Pair(f[2], f[3]) as int + (f[0] as int - 3) > IMG_TOTAL then c
      else c.(mem := PutRun(c.mem, Pair(f[2], f[3]) as nat, f[4..]))
    else if f[2] == 0 then
      if f[0] < 5 then c else EnterHold16(c).(resume := Pair(f[4], f[5]))
    else if f[2] != 1 || !c.hold then c
    else Rebase16(c)
  }

  /** START: seat, count, seed, delay; the watermark's low cell is d - 1 truncated, its high cell 0. */
  function OnStart16(c: Con, f: bytes): Con
    requires Legal(f)
  {
    if f[0] < 38 || f[2] >= 4 || f[3] > 4 then c else
    var w: word := (f[6] as int - 1) % 256;
    c.(seat := f[2], count := f[3], delay := f[6], mem := c.mem[RNG_LO := f[4] as word][RNG_HI := f[5] as word],
       rings := IdleRings(), own := NoOwns(), wm := [w, w, w, w], tick := 0)
  }

  /** The frame types that touch protocol cells; lobby, room and pong frames only draw. */
  function OnFrame16(c: Con, f: bytes): (Con, seq<bytes>)
    requires Legal(f)
  {
    if f[1] == FT_INPUT then (OnInput16(c, f), [])
    else if f[1] == FT_START then (OnStart16(c, f), [])
    else if f[1] == FT_CRC then OnCrc16(c, f)
    else if f[1] == FT_STATE then (OnState16(c, f), [])
    else if f[1] == FT_RESYNC then (OnReq16(c), [])
    else (c, [])
  }

  /** Frames dispatched one after the other. */
  function OnFrames16(c: Con, fs: seq<bytes>): (Con, seq<bytes>)
    requires forall f :: f in fs ==> Legal(f)
    decreases |fs|
  {
    if fs == [] then (c, []) else
    var (c1, out1) := OnFrame16(c, fs[0]);
    var (c2, out2) := OnFrames16(c1, fs[1..]);
    (c2, out1 + out2)
  }

  // ---- LS_PASS -------------------------------------------------------------------------------

  function Capture16(c: Con, cell: Cell): (Con, bytes) {
    var t := Wrap(c.tick + c.delay);
    (c.(rings := c.rings[c.seat := Put(c.rings[c.seat], Lo(t) as int, cell)], atGate := true),
     [6, FT_INPUT, c.seat, Lo(t), Hi(t), cell.dec, cell.kp])
  }

  /** Some remote seat's watermark is behind the tick. */
  predicate Gated16(c: Con) {
    exists s :: 0 <= s < c.count && s != c.seat && Negative(Delta(c.wm[s], c.tick))
  }

  function ReadRings16(c: Con): TickIn {
    var t := Lo(c.tick) as int;
    TickIn(At(c.rings[0], t), At(c.rings[0], t - 1), At(c.rings[1], t), At(c.rings[1], t - 1))
  }

  function Tick16(game: Game, c: Con): (Con, seq<bytes>) {
    var mem := game(c.mem, ReadRings16(c));
    var c1 := c.(mem := mem, tick := Wrap(c.tick + 1), atGate := false);
    var lo, hi := Lo(c.tick), Hi(c.tick);
    if lo % 64 != 0 then (c1, [])
    else
      var sum := Cksum(mem);
      (c1.(own := c1.own[lo as int / 64 := Own(lo, hi, Lo(sum), Hi(sum))]),
       [[6, FT_CRC, c.seat, lo, hi, Lo(sum), Hi(sum)]])
  }

  const NB_PHASE := 0x163

  function Waited16(c: Con): Con {
    if c.pend && c.seat == 0 && !c.hold then c.(ptmo := (c.ptmo as int + 1) % 256) else c
  }

  /** Both of the two top bits of the phase cell. */
  predicate Pushes16(c: Con) {
    c.pend && c.seat == 0 && !c.hold && (c.mem[NB_PHASE] % 256 / 64 == 3 || c.ptmo >= 60)
  }

  function Chunk16(pos: nat, data: bytes): bytes
    requires pos < 0x10000 && |data| <= RS_CHUNK
  {
    [(|data| + 3) as byte, FT_STATE, Lo(pos), Hi(pos)] + data
  }

  function Chunks16(img: Image, pos: nat): seq<bytes>
    requires pos <= IMG_TOTAL
    decreases IMG_TOTAL - pos
  {
    if pos == IMG_TOTAL then [] else
    var n := if IMG_TOTAL - pos < RS_CHUNK then IMG_TOTAL - pos else RS_CHUNK;
    [Chunk16(pos, img[pos..pos + n])] + Chunks16(img, pos + n)
  }

  function PushFrames16(c: Con): seq<bytes> {
    var r := Wrap(c.tick + 16);
    [[5, FT_STATE, 0, 0xFF, Lo(r), Hi(r)]] + Chunks16(ImageOf(c.mem), 0) + [[3, FT_STATE, 1, 0xFF]]
  }

  function Push16(c: Con): (Con, seq<bytes>) {
    (Rebase16(EnterHold16(c).(resume := Wrap(c.tick + 16))), PushFrames16(c))
  }

  function Finish16(game: Game, c: Con): (Con, seq<bytes>) {
    var (c1, out1) := Tick16(game, c);
    var c2 := Waited16(c1);
    if Pushes16(c2) then
      var (c3, out2) := Push16(c2);
      (c3, out1 + out2)
    else (c2, out1)
  }
}
