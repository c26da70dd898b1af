/** What every reachable state of the protocol satisfies. */
module ProtocolInv {
  import opened Cells
  import opened Protocol

  /** The input that counts for tick t, from the row that starts at tick `start`: idle before
      the row begins. */
  function In(row: seq<Cell>, start: int, t: int): Cell {
    if start <= t < start + |row| then row[t - start] else IDLE
  }

  function Row(rows: seq<seq<Cell>>, e: nat): seq<Cell> {
    if e < |rows| then rows[e] else []
  }

  function Inputs(rh: seq<Cell>, rg: seq<Cell>, start: int, t: int): TickIn {
    TickIn(In(rh, start, t), In(rh, start, t - 1), In(rg, start, t), In(rg, start, t - 1))
  }

  /** The one true simulation of an epoch, but for the volatile bytes: image `img` at tick b,
      advanced to tick t by the inputs both seats captured d ticks earlier. */
  function Sim(cfg: Cfg, img: Image, rh: seq<Cell>, rg: seq<Cell>, b: int, t: int): Image
    decreases t - b
  {
    if t <= b then Steady(img)
    else Steady(Play(cfg, Sim(cfg, img, rh, rg, b, t - 1), Inputs(rh, rg, b + cfg.d, t - 1)))
  }

  // ---- history -----------------------------------------------------------------------

  ghost predicate FirstOK(cfg: Cfg, h: Hist, e: nat)
    requires e < |h.base| && e < |h.rowG| && e < |h.first|
  {
    || h.first[e] == h.base[e] + cfg.d
    || (h.first[e] == h.base[e] + cfg.d + 1 && h.rowG[e] != [] && h.rowG[e][0] == IDLE)
  }

  ghost predicate HistOK(cfg: Cfg, h: Hist) {
    && |h.snap| == |h.rowH| == |h.base|
    && |h.rowG| == |h.first| <= |h.base|
    && (forall e {:trigger h.rowH[e]} :: 0 <= e < |h.base| - 1 ==> h.base[e + 1] == h.base[e] + |h.rowH[e]| + 16)
    && (forall e :: 0 <= e < |h.rowG| ==> FirstOK(cfg, h, e))
    && (forall e {:trigger h.rowG[e]} :: 0 <= e < |h.rowG| && e < |h.base| - 1 ==>
          h.base[e] + |h.rowG[e]| <= h.base[e + 1] - 15 + cfg.d && |h.rowH[e]| <= cfg.d + |h.rowG[e]|)
  }

  function StartH(cfg: Cfg, h: Hist): int { h.base[EpochH(h)] + cfg.d }

  function NextH(cfg: Cfg, h: Hist): int { StartH(cfg, h) + |h.rowH[|h.rowH| - 1]| }

  function NextG(cfg: Cfg, h: Hist): int
    requires EpochG(h) < |h.base|
  {
    h.base[EpochG(h)] + cfg.d + |h.rowG[EpochG(h)]|
  }

  // ---- rings and watermarks ----------------------------------------------------------

  /** A console as sender: its row is complete up to what it has sent, and its own ring holds it. */
  ghost predicate SendOK(cfg: Cfg, tick: nat, atGate: bool, mine: Ring, b: nat, row: seq<Cell>) {
    && b <= tick
    && b + |row| == tick + (if atGate then 1 else 0)
    && forall t {:trigger At(mine, t)} :: tick - 1 <= t < b + cfg.d + |row| ==> At(mine, t) == In(row, b + cfg.d, t)
  }

  /** A console as receiver: its copy of the other seat's ring is right up to the watermark. */
  ghost predicate RecvOK(cfg: Cfg, tick: nat, wm: int, theirs: Ring, b: nat, row: seq<Cell>) {
    && tick <= wm + 1
    && b + cfg.d - 1 <= wm < b + cfg.d + |row|
    && (forall t {:trigger At(theirs, t)} :: tick - 1 <= t <= wm ==> At(theirs, t) == In(row, b + cfg.d, t))
    && (wm == b + cfg.d - 1 ==> At(theirs, b + cfg.d) == IDLE)
  }

  // ---- frames in flight --------------------------------------------------------------

  ghost predicate DownHead(cfg: Cfg, h: Hist, s: Spot, m: Msg) {
    && s.e < |h.base| && s.e < |h.rowH| && m.epoch == s.e
    && match m.f
       case Input(seat, t, c) =>
         && s.Run? && seat == 0 && t == s.n
         && h.base[s.e] + cfg.d <= t < h.base[s.e] + cfg.d + |h.rowH[s.e]|
         && c == In(h.rowH[s.e], h.base[s.e] + cfg.d, t)
       case Crc(seat, t, v) =>
         && s.Run? && seat == 0 && t + cfg.d + 1 == s.n && t % 64 == 0
         && (s.e, t) in h.sumH && v == h.sumH[(s.e, t)]
       case Resync(_) => false
       case Begin(resume) =>
         s.Run? && s.e + 1 < |h.base| && resume == h.base[s.e + 1] && s.n == resume - 16 + cfg.d
       case Chunk(pos, data) =>
         && s.Mid? && s.e + 1 < |h.base| == |h.snap| && pos == s.pos && data != [] && pos + |data| <= IMG_TOTAL
         && data == h.snap[s.e + 1][pos..pos + |data|] && (pos == 0 ==> |data| == RS_CHUNK)
       case End => s.Mid? && s.e + 1 < |h.base| && s.pos == IMG_TOTAL
  }

  /** The frames q lead a receiver of the host's stream from s to t. */
  ghost predicate DownOK(cfg: Cfg, h: Hist, q: seq<Msg>, s: Spot, t: Spot)
    decreases |q|
  {
    if q == [] then s == t
    else DownHead(cfg, h, s, q[0]) && DownOK(cfg, h, q[1..], AdvanceDown(cfg, h, s, q[0]), t)
  }

  ghost predicate UpHead(cfg: Cfg, h: Hist, s: Spot, m: Msg) {
    && s.Run? && s.e <= m.epoch < |h.rowG| && m.epoch < |h.base| && |h.first| == |h.rowG|
    && var r := Catch(h, s, m.epoch);
       match m.f
       case Input(seat, t, c) =>
         && seat == 1 && t == r.n
         && h.base[r.e] + cfg.d <= t < h.base[r.e] + cfg.d + |h.rowG[r.e]|
         && c == In(h.rowG[r.e], h.base[r.e] + cfg.d, t)
       case Crc(seat, t, v) =>
         && seat == 1 && t + cfg.d + 1 == r.n && t < h.base[r.e] + |h.rowG[r.e]| && t % 64 == 0
         && (r.e, t) in h.sumG && v == h.sumG[(r.e, t)]
       case Resync(_) => !r.asked
       case _ => false
  }

  /** The frames q lead a receiver of the guest's stream from s to t. */
  ghost predicate UpOK(cfg: Cfg, h: Hist, q: seq<Msg>, s: Spot, t: Spot)
    decreases |q|
  {
    if q == [] then s == t
    else UpHead(cfg, h, s, q[0]) && UpOK(cfg, h, q[1..], AdvanceUp(h, s, q[0]), t)
  }

  ghost predicate PartOK(net: Net) {
    if net.q == [] then net.part == 0 else net.part < Size(net.q[0].f)
  }

  ghost predicate FlightOK(cfg: Cfg, h: Hist, up: Net, down: Net, asked: bool)
    requires HistOK(cfg, h)
  {
    && PartOK(up) && PartOK(down)
    && DownOK(cfg, h, down.q, down.spot, down.tip)
    && down.tip == Run(EpochH(h), NextH(cfg, h), false)
    && UpOK(cfg, h, up.q, up.spot, up.tip)
    && up.tip.Run? && up.tip.e <= EpochG(h)
    && Catch(h, up.tip, EpochG(h)) == Run(EpochG(h), NextG(cfg, h), asked)
  }

  // ---- where the receivers are -------------------------------------------------------

  /** The first pos bytes of a pushed image are in place; the interrupt may have moved volatile ones since. */
  ghost predicate Written(img: Image, snap: Image, pos: nat) {
    forall p {:trigger img[p]} {:trigger snap[p]} :: 0 <= p < pos && p < IMG_TOTAL && !Volatile(p) ==> img[p] == snap[p]
  }

  /** The guest follows the host's stream: outside a push its watermark is the last input taken;
      inside one the applied bytes are the pushed ones, and once a byte is applied the gate of a
      pass still under way is shut. */
  ghost predicate GuestSpotOK(cfg: Cfg, h: Hist, g: Console, spot: Spot)
    requires HistOK(cfg, h)
  {
    && spot.e == EpochG(h)
    && (g.hold <==> spot.Mid?)
    && (spot.Run? ==> spot.n == g.wm + 1 && !spot.asked)
    && (spot.Mid? ==>
          && spot.e + 1 < |h.base| && g.resume == h.base[spot.e + 1] && spot.pos <= IMG_TOTAL
          && Written(g.img, h.snap[spot.e + 1], spot.pos)
          && (spot.pos > 0 && g.atGate ==> Gated(g)))
  }

  /** The host may be ahead of the guest's stream by epochs, but by at most two. */
  ghost predicate HostSpotOK(cfg: Cfg, h: Hist, wm: int, hold: bool, pend: bool, spot: Spot)
    requires HistOK(cfg, h)
  {
    var st := StartH(cfg, h);
    && !hold
    && spot.Run? && spot.e <= EpochG(h)
    && (spot.e == EpochH(h) ==>
          || spot.n == wm + 1
          || (wm == st - 1 && spot.n == st + 1 && h.rowG[spot.e] != [] && h.rowG[spot.e][0] == IDLE))
    && (spot.e < EpochH(h) ==>
          && wm == st - 1 && spot.n + 16 >= h.base[spot.e + 1]
          && forall k {:trigger h.rowH[k]} :: spot.e < k < EpochH(h) ==> |h.rowH[k]| <= cfg.d)
    && EpochH(h) - spot.e + (if pend then 1 else 0) <= (if spot.asked then 2 else 1)
  }

  // ---- desync detection --------------------------------------------------------------

  ghost predicate SumsOK(sums: map<(nat, nat), word>, e: nat, b: nat, t: nat) {
    forall k {:trigger k in sums} :: k in sums ==> k.0 <= e && k.1 % 64 == 0 && (k.0 == e ==> b <= k.1 < t)
  }

  ghost predicate RecordsOK(own: Records, tick: nat, sums: map<(nat, nat), word>, e: nat, complete: bool) {
    && (forall i :: 0 <= i < 4 && own[i].Record? ==>
          var r := own[i];
          Slot(r.tick) == i && r.tick < tick <= r.tick + 256 && (e, r.tick) in sums && sums[(e, r.tick)] == r.sum)
    && (complete ==>
          forall t {:trigger (e, t) in sums} :: (e, t) in sums && tick <= t + 256 ==>
            own[Slot(t)] == Record(t, sums[(e, t)]))
  }

  /** Two different reports for one tick: a console is pending, or one of the reports is still
      on its way to a console that holds the other. */
  ghost predicate NoLoss(h: Hist, pending: bool, downQ: seq<Msg>, upQ: seq<Msg>) {
    EpochH(h) == EpochG(h) && !pending ==>
      var e := EpochH(h);
      forall t {:trigger (e, t) in h.sumH, (e, t) in h.sumG} ::
        (e, t) in h.sumH && (e, t) in h.sumG && h.sumH[(e, t)] != h.sumG[(e, t)] ==>
          || Msg(e, Crc(0, t, h.sumH[(e, t)])) in downQ
          || Msg(e, Crc(1, t, h.sumG[(e, t)])) in upQ
  }

  /** A pending host pushes within RS_PEND_MAX ticks; a pending guest has been or will be heard. */
  ghost predicate PendOK(h: Hist, pendH: bool, ptmo: nat, pendG: bool, spot: Spot) {
    && (pendH ==> ptmo < RS_PEND_MAX)
    && (spot.Run? && pendG && EpochG(h) == EpochH(h) && Catch(h, spot, EpochG(h)).asked ==> pendH)
  }

  // ---- simulation --------------------------------------------------------------------

  /** The simulation of epoch e. */
  ghost function SimE(cfg: Cfg, h: Hist, e: nat, t: int): Image
    requires HistOK(cfg, h) && e < |h.base|
  {
    Sim(cfg, h.snap[e], h.rowH[e], Row(h.rowG, e), h.base[e], t)
  }

  ghost function SimH(cfg: Cfg, h: Hist, t: int): Image
    requires HistOK(cfg, h)
  {
    SimE(cfg, h, EpochH(h), t)
  }

  ghost function SimG(cfg: Cfg, h: Hist, t: int): Image
    requires HistOK(cfg, h)
  {
    SimE(cfg, h, EpochG(h), t)
  }

  /** Part of a pushed image has been written over the guest's own. */
  predicate Torn(spot: Spot) {
    spot.Mid? && spot.pos > 0
  }

  /** Every report of epoch e is the checksum of its simulation, over inputs both rows already hold. */
  ghost predicate SumsAreSim(cfg: Cfg, h: Hist, e: nat, sums: map<(nat, nat), word>)
    requires HistOK(cfg, h) && e < |h.base|
  {
    forall t {:trigger (e, t) in sums} :: (e, t) in sums ==>
      && t < h.base[e] + cfg.d + |h.rowH[e]| && t < h.base[e] + cfg.d + |Row(h.rowG, e)|
      && sums[(e, t)] == cfg.sum(SimE(cfg, h, e, t + 1))
  }

  /** In the clean epochs from the guest's on, all reports are the simulation's. */
  ghost predicate CleanSums(cfg: Cfg, h: Hist, clean: nat)
    requires HistOK(cfg, h)
  {
    forall e :: clean <= e && EpochG(h) <= e < |h.base| ==>
      SumsAreSim(cfg, h, e, h.sumH) && SumsAreSim(cfg, h, e, h.sumG)
  }

  ghost predicate FewPushes(h: Hist, clean: nat, pendH: bool) {
    EpochH(h) + (if pendH then 1 else 0) <= (if clean == 0 then 0 else clean + 1)
  }

  /** In a clean epoch no sim has drifted and the guest flags nothing; the host is at most two
      pushes past the last epoch that is not clean, a pending one counted. */
  ghost predicate CleanRun(h: Hist, clean: nat, pureH: bool, pureG: bool, pendH: bool, pendG: bool) {
    && (clean <= EpochH(h) ==> pureH)
    && (clean <= EpochG(h) ==> pureG && !pendG)
    && clean <= EpochH(h) + 1
    && FewPushes(h, clean, pendH)
  }

  /** Requests come from epochs that are not clean. */
  ghost predicate OldRequests(q: seq<Msg>, clean: nat) {
    forall i {:trigger q[i]} :: 0 <= i < |q| && q[i].f.Resync? ==> q[i].epoch < clean
  }

  ghost predicate DelayOK(cfg: Cfg, h: Hist) {
    1 <= cfg.d <= 127 && (EpochH(h) > 0 ==> cfg.d <= 15)
  }

  ghost predicate HostOK(cfg: Cfg, h: Hist, c: Console, pure: bool)
    requires HistOK(cfg, h)
  {
    var e := EpochH(h);
    && c.seat == 0
    && SendOK(cfg, c.tick, c.atGate, c.mine, h.base[e], h.rowH[e])
    && RecvOK(cfg, c.tick, c.wm, c.theirs, h.base[e], Row(h.rowG, e))
    && SumsOK(h.sumH, e, h.base[e], c.tick)
    && RecordsOK(c.own, c.tick, h.sumH, e, true)
    && (pure ==> Steady(c.img) == SimH(cfg, h, c.tick))
  }

  ghost predicate GuestOK(cfg: Cfg, h: Hist, g: Console, pure: bool)
    requires HistOK(cfg, h)
  {
    var e := EpochG(h);
    && g.seat == 1
    && SendOK(cfg, g.tick, g.atGate, g.mine, h.base[e], h.rowG[e])
    && RecvOK(cfg, g.tick, g.wm, g.theirs, h.base[e], h.rowH[e])
    && SumsOK(h.sumG, e, h.base[e], g.tick)
    && RecordsOK(g.own, g.tick, h.sumG, e, !g.hold)
    && (pure ==> Steady(g.img) == SimG(cfg, h, g.tick))
  }

  ghost predicate Inv(cfg: Cfg, s: Sys) {
    var h := s.hist;
    && DelayOK(cfg, h)
    && HistOK(cfg, h)
    && HostOK(cfg, h, s.host, s.pureH)
    && GuestOK(cfg, h, s.guest, s.pureG && !Torn(s.down.spot))
    && FlightOK(cfg, h, s.up, s.down, s.guest.pend)
    && GuestSpotOK(cfg, h, s.guest, s.down.spot)
    && HostSpotOK(cfg, h, s.host.wm, s.host.hold, s.host.pend, s.up.spot)
    && NoLoss(h, s.host.pend || s.guest.pend, s.down.q, s.up.q)
    && PendOK(h, s.host.pend, s.host.ptmo, s.guest.pend, s.up.spot)
    && CleanSums(cfg, h, s.clean)
    && CleanRun(h, s.clean, s.pureH, s.pureG, s.host.pend, s.guest.pend)
    && OldRequests(s.up.q, s.clean)
  }
}
