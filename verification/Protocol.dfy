/** The two-console protocol as a step system.

    Ticks are unbounded here; ByteSystem shows that the 16-bit cells of the consoles follow
    this system exactly.  A queue holds whole frames in flight; `part` counts the bytes of its
    head frame that the receiver has already read (ByteSystem relates this to the byte stream).

    Everything in Hist, the epoch of a message, and the two Spots of a Net are history: they
    record what happened and no transition of a console or a queue depends on them. */
module Protocol {
  import opened Cells

  /** Parameters of a match: the input delay, the game tick and the checksum, both
      uninterpreted deterministic functions. */
  datatype Cfg = Cfg(d: nat, tick: (Image, TickIn) -> Image, sum: Image -> word)

  /** The tick neither reads nor settles the volatile bytes: they stay, and a Shimmer may change
      them at any moment. */
  function Play(cfg: Cfg, img: Image, x: TickIn): Image { Keep(cfg.tick(Steady(img), x), img) }

  function Sum(cfg: Cfg, img: Image): word { cfg.sum(Steady(img)) }

  datatype Frame =
    | Input(seat: nat, tick: nat, cell: Cell)
    | Crc(seat: nat, tick: nat, sum: word)
    | Resync(tick: nat)
    | Begin(resume: nat)
    | Chunk(pos: nat, data: seq<byte>)
    | End

  /** Bytes on the wire, length byte included. */
  function Size(f: Frame): (n: nat)
    ensures n > 0
  {
    match f
    case Input(_, _, _) => 7
    case Crc(_, _, _) => 7
    case Resync(_) => 4
    case Begin(_) => 6
    case Chunk(_, data) => |data| + 4
    case End => 4
  }

  datatype Record = NoRecord | Record(tick: nat, sum: word)

  type Records = r: seq<Record> | |r| == 4 witness [NoRecord, NoRecord, NoRecord, NoRecord]

  const NO_RECORDS: Records := [NoRecord, NoRecord, NoRecord, NoRecord]

  function Slot(t: nat): (k: nat)
    ensures k < 4
  {
    t % 256 / 64
  }

  /** One console.  `wm` is the watermark of the other seat; `atGate` says that the pass has
      sent its input and is in the gate loop. */
  datatype Console = Console(
    seat: nat, tick: nat, wm: int, mine: Ring, theirs: Ring, atGate: bool,
    hold: bool, resume: nat, pend: bool, ptmo: nat, own: Records, img: Image)

  function ReadRings(c: Console): TickIn {
    var t := c.tick;
    if c.seat == 0
    then TickIn(At(c.mine, t), At(c.mine, t - 1), At(c.theirs, t), At(c.theirs, t - 1))
    else TickIn(At(c.theirs, t), At(c.theirs, t - 1), At(c.mine, t), At(c.mine, t - 1))
  }

  function EnterHold(c: Console, resume: nat): Console {
    c.(hold := true, resume := resume, own := NO_RECORDS)
  }

  function Rebase(cfg: Cfg, c: Console): Console {
    c.(pend := false, ptmo := 0, tick := c.resume, mine := IdleRing(), theirs := IdleRing(),
       wm := c.resume + cfg.d - 1, own := NO_RECORDS, hold := false)
  }

  predicate Gated(c: Console) {
    c.wm < c.tick
  }

  /** SES_ONFRAME and the RS_ON_ routines: the new console and the frames it sends. */
  function OnFrame(cfg: Cfg, c: Console, f: Frame): (Console, seq<Frame>) {
    match f
    case Input(seat, t, cell) =>
      if seat == c.seat || seat >= 2 || t <= c.wm then (c, [])
      else (c.(theirs := Put(c.theirs, t, cell), wm := t), [])
    case Crc(_, t, sum) =>
      var rec := c.own[Slot(t)];
      if c.hold || c.pend || rec.NoRecord? || rec.tick != t || rec.sum == sum then (c, [])
      else (c.(pend := true, ptmo := 0), if c.seat == 0 then [] else [Resync(t)])
    case Resync(_) =>
      if c.seat != 0 || c.hold || c.pend then (c, [])
      else (c.(pend := true, ptmo := 0), [])
    case Begin(resume) =>
      (EnterHold(c, resume), [])
    case Chunk(pos, data) =>
      if !c.hold || data == [] || pos + |data| > IMG_TOTAL then (c, [])
      else (c.(img := Splice(c.img, pos, data)), [])
    case End =>
      if c.hold then (Rebase(cfg, c), []) else (c, [])
  }

  /** Capture the local input for tick T + d and send it. */
  function Capture(cfg: Cfg, c: Console, cell: Cell): (Console, seq<Frame>) {
    (c.(mine := Put(c.mine, c.tick + cfg.d, cell), atGate := true),
     [Input(c.seat, c.tick + cfg.d, cell)])
  }

  /** Past the gate: game tick, checksum report every 64 ticks, tick counter. */
  function RunTick(cfg: Cfg, c: Console): (Console, seq<Frame>) {
    var c1 := c.(img := Play(cfg, c.img, ReadRings(c)), tick := c.tick + 1, atGate := false);
    if c.tick % 64 != 0 then (c1, [])
    else
      var sum := Sum(cfg, c1.img);
      (c1.(own := c1.own[Slot(c.tick) := Record(c.tick, sum)]), [Crc(c.seat, c.tick, sum)])
  }

  const RS_PEND_MAX := 60

  /** SC_PHASE is $0163, position 6 of the image; both bits of $C0 set. */
  predicate DeadBall(img: Image) {
    img[6] >= 0xC0
  }

  /** RS_PENDING counts this tick for a waiting host ... */
  function Waited(c: Console): Console {
    if c.pend && c.seat == 0 && !c.hold then c.(ptmo := c.ptmo + 1) else c
  }

  /** ... and then decides to push. */
  predicate Pushes(c: Console) {
    c.pend && c.seat == 0 && !c.hold && (DeadBall(c.img) || c.ptmo >= RS_PEND_MAX)
  }

  function ChunksFrom(img: Image, pos: nat): seq<Frame>
    requires pos <= IMG_TOTAL
    decreases IMG_TOTAL - pos
  {
    if pos == IMG_TOTAL then [] else
    var n := if IMG_TOTAL - pos < RS_CHUNK then IMG_TOTAL - pos else RS_CHUNK;
    [Chunk(pos, img[pos..pos + n])] + ChunksFrom(img, pos + n)
  }

  function PushFrames(c: Console): seq<Frame> {
    [Begin(c.tick + 16)] + ChunksFrom(c.img, 0) + [End]
  }

  function Push(cfg: Cfg, c: Console): (Console, seq<Frame>) {
    (Rebase(cfg, EnterHold(c, c.tick + 16)), PushFrames(c))
  }

  // ---- the system ------------------------------------------------------------------

  /** A frame in flight, with the epoch its sender was in (history). */
  datatype Msg = Msg(epoch: nat, f: Frame)

  /** A position in the stream of frames of one direction (history): Run(e, n, asked) has
      seen every input of epoch e before tick n and, when asked, that epoch's resync request;
      Mid(e, pos) is inside the push that ends epoch e, pos image bytes applied. */
  datatype Spot = Run(e: nat, n: int, asked: bool) | Mid(e: nat, pos: nat)

  /** Frames in flight, bytes of the head already read, and the Spots of receiver and sender. */
  datatype Net = Net(q: seq<Msg>, part: nat, spot: Spot, tip: Spot)

  /** History.  Epoch e starts at tick base[e] from image snap[e]; rowH[e] and rowG[e] hold
      the inputs that count for ticks base[e] + d, base[e] + d + 1, ...; first[e] is the first
      tick the guest sent in epoch e; sumH and sumG the reported checksums. */
  datatype Log = Log(
    base: seq<nat>, snap: seq<Image>, rowH: seq<seq<Cell>>, rowG: seq<seq<Cell>>,
    first: seq<nat>, sumH: map<(nat, nat), word>, sumG: map<(nat, nat), word>)

  type Hist = h: Log | |h.base| >= 1 && |h.rowH| >= 1 && |h.rowG| >= 1
    witness Log([0], [], [[]], [[]], [], map[], map[])

  /** pureH: no glitch hit the host since its last rebase; clean: the first epoch with no glitch in
      it nor in any later one (history too). */
  datatype Sys = Sys(
    host: Console, guest: Console, up: Net, down: Net, hist: Hist,
    pureH: bool, pureG: bool, clean: nat)

  datatype Who = Host | Guest

  /** One step of one console.
      Enter(who, k, cell): LS_PASS up to its gate; the pump reads k bytes, cell is the input.
      Gate(who, k): one round of the gate loop, or the rest of the pass once it opens.
      Listen(who, k): a pump between passes, as SES_HOLD makes 150 of before the first one.
      Glitch(who, img): the running sim drifts to another image.
      Shimmer(who, img): the frame interrupt moves volatile bytes. */
  datatype Action =
    | Enter(who: Who, k: nat, cell: Cell)
    | Gate(who: Who, k: nat)
    | Listen(who: Who, k: nat)
    | Glitch(who: Who, img: Image)
    | Shimmer(who: Who, img: Image)

  function Of(s: Sys, who: Who): Console { if who == Host then s.host else s.guest }

  function Tagged(e: nat, fs: seq<Frame>): seq<Msg> {
    seq(|fs|, i requires 0 <= i < |fs| => Msg(e, fs[i]))
  }

  function EpochH(h: Hist): nat { |h.base| - 1 }

  function EpochG(h: Hist): nat { |h.rowG| - 1 }

  function Extend(rows: seq<seq<Cell>>, c: Cell): seq<seq<Cell>>
    requires rows != []
  {
    rows[|rows| - 1 := rows[|rows| - 1] + [c]]
  }

  // ---- history updates -------------------------------------------------------------

  function Catch(h: Hist, s: Spot, e: nat): Spot {
    if s.Run? && s.e < e < |h.first| then Run(e, h.first[e], false) else s
  }

  function AdvanceUp(h: Hist, s: Spot, m: Msg): Spot {
    var r := Catch(h, s, m.epoch);
    if r.Mid? then r else
    match m.f
    case Input(_, t, _) => Run(r.e, t + 1, r.asked)
    case Resync(_) => Run(r.e, r.n, true)
    case _ => r
  }

  function AdvanceDown(cfg: Cfg, h: Hist, s: Spot, m: Msg): Spot {
    match m.f
    case Input(_, t, _) => if s.Run? then Run(s.e, t + 1, s.asked) else s
    case Begin(_) => Mid(s.e, 0)
    case Chunk(pos, data) => Mid(s.e, pos + |data|)
    case End => if s.e + 1 < |h.base| then Run(s.e + 1, h.base[s.e + 1] + cfg.d, false) else s
    case _ => s
  }

  /** Append frames to a queue; the history tip follows the last input or request sent. */
  function SendUp(h: Hist, net: Net, fs: seq<Frame>): Net
    decreases |fs|
  {
    if fs == [] then net else
    var m := Msg(EpochG(h), fs[0]);
    SendUp(h, net.(q := net.q + [m], tip := AdvanceUp(h, net.tip, m)), fs[1..])
  }

  // ---- steps -----------------------------------------------------------------------

  /** The host takes the head frame of its queue. */
  function DeliverHost(cfg: Cfg, s: Sys): Sys
    requires s.up.q != []
  {
    var m := s.up.q[0];
    var (c, out) := OnFrame(cfg, s.host, m.f);
    s.(host := c,
       up := s.up.(q := s.up.q[1..], part := 0, spot := AdvanceUp(s.hist, s.up.spot, m)),
       down := s.down.(q := s.down.q + Tagged(EpochH(s.hist), out)))
  }

  /** The guest takes the head frame of its queue. */
  function DeliverGuest(cfg: Cfg, s: Sys): Sys
    requires s.down.q != []
  {
    var m := s.down.q[0];
    var g := s.guest;
    var (c, out) := OnFrame(cfg, g, m.f);
    var down := s.down.(q := s.down.q[1..], part := 0, spot := AdvanceDown(cfg, s.hist, s.down.spot, m));
    if m.f.End? && g.hold then
      // The gate loop goes on without sending the input for tick R + d: that slot stays idle.
      var row := if g.atGate then [IDLE] else [];
      s.(guest := c, down := down, pureG := true,
         hist := s.hist.(rowG := s.hist.rowG + [row], first := s.hist.first + [g.resume + cfg.d + |row|]))
    else
      s.(guest := c, down := down, up := SendUp(s.hist, s.up, out))
  }

  /** A pump of k bytes: frames are taken as their last byte arrives. */
  function PumpHost(cfg: Cfg, s: Sys, k: nat): Sys
    decreases |s.up.q|
  {
    if s.up.q == [] then s
    else if s.up.part + k < Size(s.up.q[0].f) then s.(up := s.up.(part := s.up.part + k))
    else PumpHost(cfg, DeliverHost(cfg, s), s.up.part + k - Size(s.up.q[0].f))
  }

  function PumpGuest(cfg: Cfg, s: Sys, k: nat): Sys
    decreases |s.down.q|
  {
    if s.down.q == [] then s
    else if s.down.part + k < Size(s.down.q[0].f) then s.(down := s.down.(part := s.down.part + k))
    else PumpGuest(cfg, DeliverGuest(cfg, s), s.down.part + k - Size(s.down.q[0].f))
  }

  function CaptureHost(cfg: Cfg, s: Sys, cell: Cell): Sys {
    var (c, out) := Capture(cfg, s.host, cell);
    var t := s.host.tick + cfg.d;
    s.(host := c,
       down := s.down.(q := s.down.q + Tagged(EpochH(s.hist), out), tip := Run(EpochH(s.hist), t + 1, false)),
       hist := s.hist.(rowH := Extend(s.hist.rowH, cell)))
  }

  function CaptureGuest(cfg: Cfg, s: Sys, cell: Cell): Sys {
    var (c, out) := Capture(cfg, s.guest, cell);
    var hist := s.hist.(rowG := Extend(s.hist.rowG, cell));
    s.(guest := c, up := SendUp(hist, s.up, out), hist := hist)
  }

  function TickHost(cfg: Cfg, s: Sys): Sys {
    var (c, out) := RunTick(cfg, s.host);
    var hist := if out == [] then s.hist
                else s.hist.(sumH := s.hist.sumH[(EpochH(s.hist), s.host.tick) := Sum(cfg, c.img)]);
    s.(host := c, down := s.down.(q := s.down.q + Tagged(EpochH(s.hist), out)), hist := hist)
  }

  function TickGuest(cfg: Cfg, s: Sys): Sys {
    var (c, out) := RunTick(cfg, s.guest);
    var e := EpochG(s.hist);
    var hist := if out == [] then s.hist
                else s.hist.(sumG := s.hist.sumG[(e, s.guest.tick) := Sum(cfg, c.img)]);
    s.(guest := c, up := SendUp(hist, s.up, out), hist := hist)
  }

  function PushHost(cfg: Cfg, s: Sys): Sys {
    var (c, out) := Push(cfg, s.host);
    var e := EpochH(s.hist);
    s.(host := c, pureH := true,
       down := s.down.(q := s.down.q + Tagged(e, out), tip := Run(e + 1, s.host.tick + 16 + cfg.d, false)),
       hist := s.hist.(base := s.hist.base + [s.host.tick + 16],
                       snap := s.hist.snap + [s.host.img],
                       rowH := s.hist.rowH + [[]]))
  }

  /** The host's pass after the gate opens. */
  function FinishHost(cfg: Cfg, s: Sys): Sys {
    var s1 := TickHost(cfg, s);
    var s2 := s1.(host := Waited(s1.host));
    if Pushes(s2.host) then PushHost(cfg, s2) else s2
  }

  predicate Enabled(s: Sys, a: Action) {
    var c := Of(s, a.who);
    match a
    case Enter(_, k, _) => k <= 64 && !c.atGate
    case Gate(_, k) => k <= 64 && c.atGate
    case Listen(_, k) => k <= 64 && !c.atGate
    case Glitch(_, _) => !c.atGate && !c.hold
    case Shimmer(_, img) => Steady(img) == Steady(c.img)
  }

  /** A glitch in epoch e leaves only later epochs clean. */
  function Stain(clean: nat, e: nat): nat {
    if clean <= e then e + 1 else clean
  }

  function Step(cfg: Cfg, s: Sys, a: Action): Sys {
    match a
    case Enter(Host, k, cell) =>
      var s1 := PumpHost(cfg, s, k);
      if s.host.hold then s1 else CaptureHost(cfg, s1, cell)
    case Enter(Guest, k, cell) =>
      var s1 := PumpGuest(cfg, s, k);
      if s.guest.hold then s1 else CaptureGuest(cfg, s1, cell)
    case Gate(Host, k) =>
      if Gated(s.host) then PumpHost(cfg, s, k) else FinishHost(cfg, s)
    case Gate(Guest, k) =>
      if Gated(s.guest) then PumpGuest(cfg, s, k) else TickGuest(cfg, s)
    case Listen(Host, k) => PumpHost(cfg, s, k)
    case Listen(Guest, k) => PumpGuest(cfg, s, k)
    case Glitch(Host, img) =>
      s.(host := s.host.(img := img), pureH := false, clean := Stain(s.clean, EpochH(s.hist)))
    case Glitch(Guest, img) =>
      s.(guest := s.guest.(img := img), pureG := false, clean := Stain(s.clean, EpochG(s.hist)))
    case Shimmer(Host, img) => s.(host := s.host.(img := img))
    case Shimmer(Guest, img) => s.(guest := s.guest.(img := img))
  }

  function InitConsole(cfg: Cfg, seat: nat, img: Image): Console {
    Console(seat, 0, cfg.d - 1, IdleRing(), IdleRing(), false, false, 0, false, 0, NO_RECORDS, img)
  }

  function Init(cfg: Cfg, img: Image): Sys {
    var spot := Run(0, cfg.d, false);
    Sys(InitConsole(cfg, 0, img), InitConsole(cfg, 1, img),
        Net([], 0, spot, spot), Net([], 0, spot, spot),
        Log([0], [img], [[]], [[]], [cfg.d], map[], map[]), true, true, 0)
  }

  /** The state after a sequence of actions; actions that are not enabled do nothing. */
  function Exec(cfg: Cfg, s: Sys, acts: seq<Action>): Sys
    decreases |acts|
  {
    if acts == [] then s else
    var s1 := Exec(cfg, s, acts[..|acts| - 1]);
    var a := acts[|acts| - 1];
    if Enabled(s1, a) then Step(cfg, s1, a) else s1
  }
}
