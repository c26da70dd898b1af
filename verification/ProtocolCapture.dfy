/** The initial state, the glitch, the interrupt and the capture of an input keep the invariant. */
module ProtocolCapture {
  import opened Cells
  import opened Protocol
  import opened ProtocolInv
  import opened ProtocolFlow

  lemma InitInv(cfg: Cfg, img: Image)
    requires 1 <= cfg.d <= 127
    ensures Inv(cfg, Init(cfg, img))
  {
  }

  /** Inputs past tick t do not change the simulation up to t. */
  lemma {:induction false} SimStable(cfg: Cfg, img: Image, rh: seq<Cell>, rg: seq<Cell>, rh': seq<Cell>, rg': seq<Cell>, b: int, t: int)
    requires rh == rh' || (rh <= rh' && t <= b + cfg.d + |rh|)
    requires rg == rg' || (rg <= rg' && t <= b + cfg.d + |rg|)
    ensures Sim(cfg, img, rh, rg, b, t) == Sim(cfg, img, rh', rg', b, t)
    decreases t - b
  {
    if t > b {
      SimStable(cfg, img, rh, rg, rh', rg', b, t - 1);
      assert Inputs(rh, rg, b + cfg.d, t - 1) == Inputs(rh', rg', b + cfg.d, t - 1);
    }
  }

  lemma GlitchInv(cfg: Cfg, s: Sys, who: Who, img: Image)
    requires Inv(cfg, s) && Enabled(s, Glitch(who, img))
    ensures Inv(cfg, Step(cfg, s, Glitch(who, img)))
  {
    hide FlightOK, NoLoss, PendOK, SumsAreSim, SendOK, RecvOK, SumsOK, RecordsOK;
  }

  /** The interrupt may strike at any moment, in a hold or at the gate. */
  lemma ShimmerInv(cfg: Cfg, s: Sys, who: Who, img: Image)
    requires Inv(cfg, s) && Enabled(s, Shimmer(who, img))
    ensures Inv(cfg, Step(cfg, s, Shimmer(who, img)))
  {
    hide FlightOK, NoLoss, PendOK, SumsAreSim, SendOK, RecvOK, SumsOK, RecordsOK, HistOK;
    SteadyMeans(img, Of(s, who).img);
  }

  // ---- clean epochs ----------------------------------------------------------------------

  /** What has been reported stays the simulation's as the rows grow and new epochs begin. */
  lemma SumsGrow(cfg: Cfg, h: Hist, k: Hist, e: nat, sums: map<(nat, nat), word>)
    requires HistOK(cfg, h) && HistOK(cfg, k) && Grows(h, k) && e < |h.base| && SumsAreSim(cfg, h, e, sums)
    ensures SumsAreSim(cfg, k, e, sums)
  {
    assert h.rowH[e] <= k.rowH[e];
    assert Row(h.rowG, e) <= Row(k.rowG, e) by { if e < |h.rowG| { assert h.rowG[e] <= k.rowG[e]; } }
    forall t {:trigger (e, t) in sums} | (e, t) in sums ensures SimE(cfg, k, e, t + 1) == SimE(cfg, h, e, t + 1) {
      SimStable(cfg, h.snap[e], h.rowH[e], Row(h.rowG, e), k.rowH[e], Row(k.rowG, e), h.base[e], t + 1);
    }
  }

  lemma CleanGrows(cfg: Cfg, h: Hist, k: Hist, clean: nat)
    requires HistOK(cfg, h) && HistOK(cfg, k) && Grows(h, k) && CleanSums(cfg, h, clean)
    requires k.sumH == h.sumH && k.sumG == h.sumG && forall x :: x in h.sumH || x in h.sumG ==> x.0 < |h.base|
    ensures CleanSums(cfg, k, clean)
  {
    hide SumsAreSim, HistOK;
    forall e | clean <= e && EpochG(k) <= e < |k.base|
      ensures SumsAreSim(cfg, k, e, k.sumH) && SumsAreSim(cfg, k, e, k.sumG)
    {
      if e < |h.base| {
        SumsGrow(cfg, h, k, e, h.sumH);
        SumsGrow(cfg, h, k, e, h.sumG);
      } else {
        NoSums(cfg, k, e, h.sumH);
        NoSums(cfg, k, e, h.sumG);
      }
    }
  }

  lemma NoSums(cfg: Cfg, h: Hist, e: nat, sums: map<(nat, nat), word>)
    requires HistOK(cfg, h) && e < |h.base| && forall x :: x in sums ==> x.0 != e
    ensures SumsAreSim(cfg, h, e, sums)
  {
  }

  /** Only epochs that have begun have reports. */
  lemma SumsBegun(cfg: Cfg, h: Hist, c: Console, pureH: bool, g: Console, pureG: bool)
    requires HistOK(cfg, h) && HostOK(cfg, h, c, pureH) && GuestOK(cfg, h, g, pureG)
    ensures forall x :: x in h.sumH || x in h.sumG ==> x.0 < |h.base|
  {
  }

  /** What the invariant says of epochs alone survives a history that begins none. */
  lemma SameEpochs(cfg: Cfg, h: Hist, k: Hist, clean: nat, pureH: bool, pureG: bool, pendH: bool, pendG: bool)
    requires DelayOK(cfg, h) && CleanRun(h, clean, pureH, pureG, pendH, pendG) && |k.base| == |h.base| && |k.rowG| == |h.rowG|
    ensures DelayOK(cfg, k) && CleanRun(k, clean, pureH, pureG, pendH, pendG)
  {
  }

  lemma RequestsJoin(q: seq<Msg>, m: Msg, clean: nat)
    requires OldRequests(q, clean) && !m.f.Resync?
    ensures OldRequests(q + [m], clean)
  {
  }

  // ---- facts read off the invariant ------------------------------------------------------

  lemma HostFacts(cfg: Cfg, h: Hist, c: Console, pure: bool)
    requires HistOK(cfg, h) && HostOK(cfg, h, c, pure)
    ensures c.seat == 0 && h.base[EpochH(h)] <= c.tick <= c.wm + 1
    ensures NextH(cfg, h) == c.tick + cfg.d + (if c.atGate then 1 else 0)
    ensures SumsOK(h.sumH, EpochH(h), h.base[EpochH(h)], c.tick)
  {
  }

  lemma GuestFacts(cfg: Cfg, h: Hist, g: Console, pure: bool)
    requires HistOK(cfg, h) && GuestOK(cfg, h, g, pure)
    ensures g.seat == 1 && h.base[EpochG(h)] <= g.tick <= g.wm + 1
    ensures g.wm < h.base[EpochG(h)] + cfg.d + |h.rowH[EpochG(h)]|
    ensures NextG(cfg, h) == g.tick + cfg.d + (if g.atGate then 1 else 0)
    ensures SumsOK(h.sumG, EpochG(h), h.base[EpochG(h)], g.tick)
  {
  }

  // ---- capture -------------------------------------------------------------------------

  lemma ExtendGrows(rows: seq<seq<Cell>>, c: Cell)
    requires rows != []
    ensures RowsGrow(rows, Extend(rows, c))
    ensures Extend(rows, c)[|rows| - 1] == rows[|rows| - 1] + [c]
  {
  }

  lemma CaptureSend(cfg: Cfg, tick: nat, mine: Ring, b: nat, row: seq<Cell>, cell: Cell)
    requires SendOK(cfg, tick, false, mine, b, row) && 1 <= cfg.d <= 127
    ensures SendOK(cfg, tick, true, Put(mine, tick + cfg.d, cell), b, row + [cell])
  {
    PutAt(mine, tick + cfg.d, cell);
  }

  lemma RecvGrows(cfg: Cfg, tick: nat, wm: int, theirs: Ring, b: nat, row: seq<Cell>, row': seq<Cell>)
    requires RecvOK(cfg, tick, wm, theirs, b, row) && row <= row'
    ensures RecvOK(cfg, tick, wm, theirs, b, row')
  {
  }

  lemma Widths(cfg: Cfg, h: Hist)
    requires HistOK(cfg, h)
    ensures |h.snap| == |h.rowH| == |h.base| && |h.rowG| == |h.first| <= |h.base|
  {
  }

  // The host's new input, aspect by aspect.  k is the history with the host's row extended.

  ghost function AddH(h: Hist, cell: Cell): Hist { h.(rowH := Extend(h.rowH, cell)) }

  lemma AddHGrows(cfg: Cfg, h: Hist, cell: Cell)
    requires HistOK(cfg, h)
    ensures HistOK(cfg, AddH(h, cell)) && Grows(h, AddH(h, cell))
  {
    var k := AddH(h, cell);
    ExtendGrows(h.rowH, cell);
    forall e | 0 <= e < |k.rowG| ensures FirstOK(cfg, k, e) {
      assert FirstOK(cfg, h, e);
    }
  }

  lemma AddHSim(cfg: Cfg, h: Hist, cell: Cell, t: int)
    requires HistOK(cfg, h) && HistOK(cfg, AddH(h, cell)) && t <= NextH(cfg, h)
    ensures SimH(cfg, AddH(h, cell), t) == SimH(cfg, h, t)
  {
    var e, k := EpochH(h), AddH(h, cell);
    ExtendGrows(h.rowH, cell);
    SimStable(cfg, h.snap[e], h.rowH[e], Row(h.rowG, e), k.rowH[e], Row(h.rowG, e), h.base[e], t);
  }

  lemma AddHHost(cfg: Cfg, h: Hist, c: Console, cell: Cell, pure: bool)
    requires HistOK(cfg, h) && DelayOK(cfg, h) && HostOK(cfg, h, c, pure) && !c.atGate
    requires HistOK(cfg, AddH(h, cell))
    ensures HostOK(cfg, AddH(h, cell), Capture(cfg, c, cell).0, pure)
  {
    ExtendGrows(h.rowH, cell);
    CaptureSend(cfg, c.tick, c.mine, h.base[EpochH(h)], h.rowH[EpochH(h)], cell);
    AddHSim(cfg, h, cell, c.tick);
  }

  lemma AddHGuest(cfg: Cfg, h: Hist, g: Console, cell: Cell, pure: bool)
    requires HistOK(cfg, h) && GuestOK(cfg, h, g, pure)
    requires HistOK(cfg, AddH(h, cell))
    ensures GuestOK(cfg, AddH(h, cell), g, pure)
  {
    var e, k := EpochG(h), AddH(h, cell);
    ExtendGrows(h.rowH, cell);
    assert h.rowH[e] <= k.rowH[e];
    RecvGrows(cfg, g.tick, g.wm, g.theirs, h.base[e], h.rowH[e], k.rowH[e]);
    SimStable(cfg, h.snap[e], h.rowH[e], h.rowG[e], k.rowH[e], h.rowG[e], h.base[e], g.tick);
  }

  lemma AddHFlight(cfg: Cfg, h: Hist, up: Net, down: Net, asked: bool, cell: Cell)
    requires HistOK(cfg, h) && HistOK(cfg, AddH(h, cell)) && FlightOK(cfg, h, up, down, asked)
    ensures var m := Msg(EpochH(h), Input(0, NextH(cfg, h), cell));
            FlightOK(cfg, AddH(h, cell), up,
                     down.(q := down.q + [m], tip := Run(EpochH(h), NextH(cfg, h) + 1, false)), asked)
  {
    hide HistOK, DownOK, UpOK, Grows;
    var k := AddH(h, cell);
    var m := Msg(EpochH(h), Input(0, NextH(cfg, h), cell));
    AddHGrows(cfg, h, cell);
    ExtendGrows(h.rowH, cell);
    Widths(cfg, h);
    DownGrows(cfg, h, k, down.q, down.spot, down.tip);
    UpGrows(cfg, h, k, up.q, up.spot, up.tip);
    DownOne(cfg, k, m, down.tip);
    DownJoin(cfg, k, down.q, [m], down.spot, down.tip, Run(EpochH(h), NextH(cfg, h) + 1, false));
  }

  lemma AddHSpots(cfg: Cfg, h: Hist, cell: Cell, c: Console, up: Spot, g: Console, down: Spot)
    requires HistOK(cfg, h) && HistOK(cfg, AddH(h, cell))
    requires HostSpotOK(cfg, h, c.wm, c.hold, c.pend, up) && GuestSpotOK(cfg, h, g, down)
    requires PendOK(h, c.pend, c.ptmo, g.pend, up)
    ensures HostSpotOK(cfg, AddH(h, cell), c.wm, c.hold, c.pend, up) && GuestSpotOK(cfg, AddH(h, cell), g, down)
    ensures PendOK(AddH(h, cell), c.pend, c.ptmo, g.pend, up)
  {
  }

  lemma AddHNoLoss(h: Hist, cell: Cell, pending: bool, downQ: seq<Msg>, upQ: seq<Msg>, m: Msg)
    requires NoLoss(h, pending, downQ, upQ)
    ensures NoLoss(AddH(h, cell), pending, downQ + [m], upQ)
  {
  }

  lemma TaggedOne(e: nat, f: Frame)
    ensures Tagged(e, [f]) == [Msg(e, f)]
  {
  }

  lemma CaptureHostInv(cfg: Cfg, s: Sys, cell: Cell)
    requires Inv(cfg, s) && !s.host.atGate
    ensures Inv(cfg, CaptureHost(cfg, s, cell))
  {
    hide HistOK, HostOK, GuestOK, FlightOK, GuestSpotOK, HostSpotOK, NoLoss, PendOK, CleanSums, CleanRun, DelayOK, OldRequests, Tagged;
    var h, s' := s.hist, CaptureHost(cfg, s, cell);
    var m := Msg(EpochH(h), Input(0, NextH(cfg, h), cell));
    TaggedOne(EpochH(h), m.f);
    HostFacts(cfg, h, s.host, s.pureH);
    AddHGrows(cfg, h, cell);
    AddHHost(cfg, h, s.host, cell, s.pureH);
    AddHGuest(cfg, h, s.guest, cell, s.pureG && !Torn(s.down.spot));
    AddHFlight(cfg, h, s.up, s.down, s.guest.pend, cell);
    AddHSpots(cfg, h, cell, s.host, s.up.spot, s.guest, s.down.spot);
    AddHNoLoss(h, cell, s.host.pend || s.guest.pend, s.down.q, s.up.q, m);
    SumsBegun(cfg, h, s.host, s.pureH, s.guest, s.pureG && !Torn(s.down.spot));
    CleanGrows(cfg, h, AddH(h, cell), s.clean);
    SameEpochs(cfg, h, AddH(h, cell), s.clean, s.pureH, s.pureG, s.host.pend, s.guest.pend);
    assert s'.hist == AddH(h, cell);
    assert s'.down.q == s.down.q + [m];
  }

  // The guest's new input, aspect by aspect.

  ghost function AddG(h: Hist, cell: Cell): Hist { h.(rowG := Extend(h.rowG, cell)) }

  lemma AddGGrows(cfg: Cfg, h: Hist, g: Console, cell: Cell, pure: bool)
    requires HistOK(cfg, h) && GuestOK(cfg, h, g, pure) && !g.atGate
    ensures HistOK(cfg, AddG(h, cell)) && Grows(h, AddG(h, cell))
  {
    var k, e := AddG(h, cell), EpochG(h);
    ExtendGrows(h.rowG, cell);
    forall i | 0 <= i < |k.rowG| ensures FirstOK(cfg, k, i) {
      assert FirstOK(cfg, h, i);
    }
    if e < |h.base| - 1 {
      assert h.base[e + 1] == h.base[e] + |h.rowH[e]| + 16;
    }
  }

  lemma AddGSim(cfg: Cfg, h: Hist, cell: Cell, e: nat, t: int)
    requires HistOK(cfg, h) && HistOK(cfg, AddG(h, cell)) && e < |h.base|
    requires e == EpochG(h) ==> t <= NextG(cfg, h)
    ensures Sim(cfg, h.snap[e], h.rowH[e], Row(AddG(h, cell).rowG, e), h.base[e], t)
         == Sim(cfg, h.snap[e], h.rowH[e], Row(h.rowG, e), h.base[e], t)
  {
  }

  lemma AddGHost(cfg: Cfg, h: Hist, c: Console, cell: Cell, pure: bool)
    requires HistOK(cfg, h) && HostOK(cfg, h, c, pure)
    requires HistOK(cfg, AddG(h, cell))
    ensures HostOK(cfg, AddG(h, cell), c, pure)
  {
    var e, k := EpochH(h), AddG(h, cell);
    ExtendGrows(h.rowG, cell);
    RecvGrows(cfg, c.tick, c.wm, c.theirs, h.base[e], Row(h.rowG, e), Row(k.rowG, e));
    AddGSim(cfg, h, cell, e, c.tick);
  }

  lemma AddGGuest(cfg: Cfg, h: Hist, g: Console, cell: Cell, pure: bool)
    requires HistOK(cfg, h) && DelayOK(cfg, h) && GuestOK(cfg, h, g, pure) && !g.atGate
    requires HistOK(cfg, AddG(h, cell))
    ensures GuestOK(cfg, AddG(h, cell), Capture(cfg, g, cell).0, pure)
  {
    ExtendGrows(h.rowG, cell);
    CaptureSend(cfg, g.tick, g.mine, h.base[EpochG(h)], h.rowG[EpochG(h)], cell);
    AddGSim(cfg, h, cell, EpochG(h), g.tick);
  }

  lemma SendUpOne(h: Hist, net: Net, f: Frame)
    ensures var m := Msg(EpochG(h), f);
            SendUp(h, net, [f]) == net.(q := net.q + [m], tip := AdvanceUp(h, net.tip, m))
  {
  }

  /** Appending one frame of the guest's own to its stream. */
  lemma UpSend(cfg: Cfg, h: Hist, up: Net, down: Net, asked: bool, f: Frame)
    requires HistOK(cfg, h) && PartOK(up) && PartOK(down)
    requires DownOK(cfg, h, down.q, down.spot, down.tip) && down.tip == Run(EpochH(h), NextH(cfg, h), false)
    requires UpOK(cfg, h, up.q, up.spot, up.tip) && UpHead(cfg, h, up.tip, Msg(EpochG(h), f))
    requires AdvanceUp(h, up.tip, Msg(EpochG(h), f)) == Run(EpochG(h), NextG(cfg, h), asked)
    ensures FlightOK(cfg, h, SendUp(h, up, [f]), down, asked)
  {
    SendUpOne(h, up, f);
    UpJoin(cfg, h, up.q, Msg(EpochG(h), f), up.spot, up.tip);
  }

  lemma AddGFlight(cfg: Cfg, h: Hist, up: Net, down: Net, asked: bool, cell: Cell)
    requires HistOK(cfg, h) && HistOK(cfg, AddG(h, cell)) && Grows(h, AddG(h, cell)) && FlightOK(cfg, h, up, down, asked)
    ensures FlightOK(cfg, AddG(h, cell), SendUp(AddG(h, cell), up, [Input(1, NextG(cfg, h), cell)]), down, asked)
  {
    hide HistOK, DownOK, UpOK, Grows;
    var k := AddG(h, cell);
    ExtendGrows(h.rowG, cell);
    Widths(cfg, h);
    DownGrows(cfg, h, k, down.q, down.spot, down.tip);
    UpGrows(cfg, h, k, up.q, up.spot, up.tip);
    UpSend(cfg, k, up, down, asked, Input(1, NextG(cfg, h), cell));
  }

  lemma AddGSpots(cfg: Cfg, h: Hist, cell: Cell, c: Console, up: Spot, g: Console, down: Spot)
    requires HistOK(cfg, h) && HistOK(cfg, AddG(h, cell))
    requires HostSpotOK(cfg, h, c.wm, c.hold, c.pend, up) && GuestSpotOK(cfg, h, g, down) && !Torn(down)
    requires PendOK(h, c.pend, c.ptmo, g.pend, up)
    ensures HostSpotOK(cfg, AddG(h, cell), c.wm, c.hold, c.pend, up)
    ensures GuestSpotOK(cfg, AddG(h, cell), Capture(cfg, g, cell).0, down)
    ensures PendOK(AddG(h, cell), c.pend, c.ptmo, g.pend, up)
  {
  }

  lemma AddGNoLoss(h: Hist, cell: Cell, pending: bool, downQ: seq<Msg>, upQ: seq<Msg>, m: Msg)
    requires NoLoss(h, pending, downQ, upQ)
    ensures NoLoss(AddG(h, cell), pending, downQ, upQ + [m])
  {
  }

  lemma CaptureGuestInv(cfg: Cfg, s: Sys, cell: Cell)
    requires Inv(cfg, s) && !s.guest.atGate && !Torn(s.down.spot)
    ensures Inv(cfg, CaptureGuest(cfg, s, cell))
  {
    hide HistOK, HostOK, GuestOK, FlightOK, GuestSpotOK, HostSpotOK, NoLoss, PendOK, CleanSums, CleanRun, DelayOK, OldRequests, SendUp, AdvanceUp, Torn;
    var h, s' := s.hist, CaptureGuest(cfg, s, cell);
    var pure := s.pureG && !Torn(s.down.spot);
    GuestFacts(cfg, h, s.guest, pure);
    AddGGrows(cfg, h, s.guest, cell, pure);
    AddGHost(cfg, h, s.host, cell, s.pureH);
    AddGGuest(cfg, h, s.guest, cell, pure);
    AddGFlight(cfg, h, s.up, s.down, s.guest.pend, cell);
    SendUpOne(s'.hist, s.up, Input(1, NextG(cfg, h), cell));
    AddGSpots(cfg, h, cell, s.host, s.up.spot, s.guest, s.down.spot);
    AddGNoLoss(h, cell, s.host.pend || s.guest.pend, s.down.q, s.up.q, Msg(EpochG(h), Input(1, NextG(cfg, h), cell)));
    SumsBegun(cfg, h, s.host, s.pureH, s.guest, pure);
    CleanGrows(cfg, h, AddG(h, cell), s.clean);
    SameEpochs(cfg, h, AddG(h, cell), s.clean, s.pureH, s.pureG, s.host.pend, s.guest.pend);
    RequestsJoin(s.up.q, Msg(EpochG(h), Input(1, NextG(cfg, h), cell)), s.clean);
    assert s'.hist == AddG(h, cell);
  }
}
