/** The guest taking a frame of the host's keeps the invariant. */
module ProtocolDeliverDown {
  import opened Cells
  import opened Protocol
  import opened ProtocolInv
  import opened ProtocolFlow
  import opened ProtocolCapture
  import opened ProtocolTick
  import opened ProtocolPush
  import opened ProtocolDeliverUp

  lemma DownRest(cfg: Cfg, h: Hist, up: Net, down: Net, asked: bool)
    requires HistOK(cfg, h) && FlightOK(cfg, h, up, down, asked) && down.q != []
    ensures var m := down.q[0];
            && DownHead(cfg, h, down.spot, m)
            && FlightOK(cfg, h, up, down.(q := down.q[1..], part := 0, spot := AdvanceDown(cfg, h, down.spot, m)), asked)
  {
  }

  lemma NoLossTakenDown(h: Hist, pending: bool, downQ: seq<Msg>, upQ: seq<Msg>, pending': bool, add: seq<Msg>)
    requires NoLoss(h, pending, downQ, upQ) && downQ != [] && (pending ==> pending')
    requires Disagrees(h, downQ[0]) ==> pending'
    ensures NoLoss(h, pending', downQ[1..], upQ + add)
  {
  }

  /** The guest's side after taking a frame, the up stream and history being as before. */
  ghost predicate TakenG(cfg: Cfg, h: Hist, g: Console, pure: bool, spot: Spot) {
    HistOK(cfg, h) && GuestOK(cfg, h, g, pure && !Torn(spot)) && GuestSpotOK(cfg, h, g, spot)
  }

  lemma GuestInput(cfg: Cfg, h: Hist, c: Console, pureH: bool, g: Console, pure: bool, spot: Spot, m: Msg)
    requires DelayOK(cfg, h) && TakenG(cfg, h, g, pure, spot) && HostOK(cfg, h, c, pureH)
    requires m.f.Input? && DownHead(cfg, h, spot, m) && Starved(g)
    ensures TakenG(cfg, h, OnFrame(cfg, g, m.f).0, pure, AdvanceDown(cfg, h, spot, m))
    ensures OnFrame(cfg, g, m.f).1 == [] && OnFrame(cfg, g, m.f).0.pend == g.pend && OnFrame(cfg, g, m.f).0.wm <= g.wm + 2
  {
    var e := EpochG(h);
    if e == EpochH(h) {
      TicksClose(cfg, h, c, pureH, g, pure && !Torn(spot));
    } else {
      assert |h.rowH[e]| <= cfg.d + |h.rowG[e]|;
    }
    RecvInput(cfg, g.tick, g.wm, g.theirs, h.base[e], h.rowH[e], m.f.tick);
  }

  lemma GuestReport(cfg: Cfg, h: Hist, g: Console, pure: bool, spot: Spot, m: Msg, clean: nat)
    requires DelayOK(cfg, h) && TakenG(cfg, h, g, pure, spot) && EpochG(h) <= EpochH(h)
    requires m.f.Crc? && DownHead(cfg, h, spot, m)
    requires CleanSums(cfg, h, clean)
    ensures AdvanceDown(cfg, h, spot, m) == spot && TakenG(cfg, h, OnFrame(cfg, g, m.f).0, pure, spot)
    ensures var (g', out) := OnFrame(cfg, g, m.f);
            && g'.wm == g.wm && ((g' == g && out == []) || (!g.pend && g'.pend && out == [Resync(m.f.tick)]))
            && (Disagrees(h, m) || g.pend ==> g'.pend) && (g'.pend && !g.pend ==> EpochG(h) < clean)
  {
    if clean <= spot.e { CleanReports(cfg, h, clean, spot.e, m.f.tick); }
  }

  lemma GuestBegin(cfg: Cfg, h: Hist, g: Console, pure: bool, spot: Spot, m: Msg)
    requires TakenG(cfg, h, g, pure, spot) && m.f.Begin? && DownHead(cfg, h, spot, m)
    ensures TakenG(cfg, h, OnFrame(cfg, g, m.f).0, pure, AdvanceDown(cfg, h, spot, m))
    ensures OnFrame(cfg, g, m.f).1 == [] && OnFrame(cfg, g, m.f).0.pend == g.pend && OnFrame(cfg, g, m.f).0.wm == g.wm
  {
  }

  lemma GuestChunk(cfg: Cfg, h: Hist, g: Console, pure: bool, spot: Spot, m: Msg)
    requires TakenG(cfg, h, g, pure, spot) && m.f.Chunk? && DownHead(cfg, h, spot, m)
    requires g.atGate ==> Gated(g)
    ensures TakenG(cfg, h, OnFrame(cfg, g, m.f).0, pure, AdvanceDown(cfg, h, spot, m))
    ensures var (g', out) := OnFrame(cfg, g, m.f);
            out == [] && g'.pend == g.pend && g'.wm == g.wm && g'.hold && g'.atGate == g.atGate && Gated(g') == Gated(g)
  {
  }

  /** A request joins the guest's stream. */
  lemma AskFlight(cfg: Cfg, h: Hist, up: Net, down: Net, t: nat)
    requires HistOK(cfg, h) && FlightOK(cfg, h, up, down, false)
    ensures FlightOK(cfg, h, SendUp(h, up, [Resync(t)]), down, true)
  {
    UpSend(cfg, h, up, down, true, Resync(t));
  }

  /** A guest that has just asked has not been heard yet. */
  lemma AskPend(cfg: Cfg, h: Hist, up: Net, down: Net, pendH: bool, ptmo: nat)
    requires HistOK(cfg, h) && FlightOK(cfg, h, up, down, false) && PendOK(h, pendH, ptmo, false, up.spot)
    requires up.spot.Run?
    ensures PendOK(h, pendH, ptmo, true, up.spot)
  {
    UpForward(cfg, h, up.q, up.spot, up.tip);
  }

  // ---- END: the guest's new epoch -------------------------------------------------------

  ghost function Joined(cfg: Cfg, h: Hist, g: Console): Hist {
    var row := if g.atGate then [IDLE] else [];
    h.(rowG := h.rowG + [row], first := h.first + [g.resume + cfg.d + |row|])
  }

  lemma JoinedGrows(cfg: Cfg, h: Hist, c: Console, g: Console, pure: bool, spot: Spot, up: Spot)
    requires TakenG(cfg, h, g, pure, spot) && spot.Mid? && HostSpotOK(cfg, h, c.wm, c.hold, c.pend, up)
    ensures HistOK(cfg, Joined(cfg, h, g)) && Grows(h, Joined(cfg, h, g))
  {
    var k, e := Joined(cfg, h, g), EpochG(h) + 1;
    assert k.rowG[e] == if g.atGate then [IDLE] else [];
    forall i | 0 <= i < |k.rowG| ensures FirstOK(cfg, k, i) {
      if i < e { assert FirstOK(cfg, h, i); }
    }
    forall i {:trigger k.rowG[i]} | 0 <= i < |k.rowG| && i < |k.base| - 1
      ensures k.base[i] + |k.rowG[i]| <= k.base[i + 1] - 15 + cfg.d && |k.rowH[i]| <= cfg.d + |k.rowG[i]|
    {
      assert k.base[i + 1] == k.base[i] + |k.rowH[i]| + 16;
      if i < e { assert k.rowG[i] == h.rowG[i]; }
    }
  }

  lemma JoinedGuest(cfg: Cfg, h: Hist, g: Console, pure: bool, spot: Spot, m: Msg)
    requires TakenG(cfg, h, g, pure, spot) && m.f.End? && DownHead(cfg, h, spot, m) && cfg.d >= 1
    requires HistOK(cfg, Joined(cfg, h, g))
    ensures OnFrame(cfg, g, m.f) == (Rebase(cfg, g), [])
    ensures TakenG(cfg, Joined(cfg, h, g), Rebase(cfg, g), true, AdvanceDown(cfg, h, spot, m))
  {
    var k, e := Joined(cfg, h, g), EpochG(h) + 1;
    var row := if g.atGate then [IDLE] else [];
    assert EpochG(k) == e && k.rowG[e] == row && k.base[e] == g.resume;
    forall t ensures At(IdleRing(), t) == IDLE { IdleAt(t); }
    SteadyMeans(g.img, k.snap[e]);
    assert SimG(cfg, k, g.resume) == Steady(k.snap[e]);
  }

  lemma JoinedHost(cfg: Cfg, h: Hist, c: Console, pureH: bool, g: Console, pure: bool, spot: Spot, up: Spot)
    requires TakenG(cfg, h, g, pure, spot) && spot.Mid? && HostOK(cfg, h, c, pureH)
    requires HostSpotOK(cfg, h, c.wm, c.hold, c.pend, up)
    requires HistOK(cfg, Joined(cfg, h, g))
    ensures HostOK(cfg, Joined(cfg, h, g), c, pureH)
    ensures HostSpotOK(cfg, Joined(cfg, h, g), c.wm, c.hold, c.pend, up)
  {
    var k, e := Joined(cfg, h, g), EpochH(h);
    assert Row(h.rowG, e) == [];
    RecvGrows(cfg, c.tick, c.wm, c.theirs, h.base[e], Row(h.rowG, e), Row(k.rowG, e));
    SimStable(cfg, h.snap[e], h.rowH[e], Row(h.rowG, e), h.rowH[e], Row(k.rowG, e), h.base[e], c.tick);
  }

  lemma JoinedFlight(cfg: Cfg, h: Hist, up: Net, down: Net, asked: bool, g: Console)
    requires HistOK(cfg, h) && HistOK(cfg, Joined(cfg, h, g)) && Grows(h, Joined(cfg, h, g))
    requires FlightOK(cfg, h, up, down, asked) && EpochG(h) < EpochH(h) && g.resume == h.base[EpochG(h) + 1]
    ensures FlightOK(cfg, Joined(cfg, h, g), up, down, false)
  {
    hide HistOK, DownOK, UpOK, Grows;
    var k := Joined(cfg, h, g);
    Widths(cfg, h);
    DownGrows(cfg, h, k, down.q, down.spot, down.tip);
    UpGrows(cfg, h, k, up.q, up.spot, up.tip);
    assert Catch(k, up.tip, EpochG(k)) == Run(EpochG(k), k.first[EpochG(k)], false);
  }

  lemma JoinedNoLoss(cfg: Cfg, h: Hist, g: Console, pure: bool, pending: bool, downQ: seq<Msg>, upQ: seq<Msg>)
    requires HistOK(cfg, h) && GuestOK(cfg, h, g, pure)
    ensures NoLoss(Joined(cfg, h, g), pending, downQ, upQ)
  {
  }

  lemma TakenGParts(cfg: Cfg, h: Hist, g: Console, pure: bool, spot: Spot)
    requires TakenG(cfg, h, g, pure, spot)
    ensures GuestOK(cfg, h, g, pure && !Torn(spot)) && GuestSpotOK(cfg, h, g, spot)
    ensures spot.e == EpochG(h) && (g.hold <==> spot.Mid?)
    ensures spot.Mid? ==> EpochG(h) < EpochH(h) && g.resume == h.base[EpochG(h) + 1]
  {
  }

  // ---- the whole step --------------------------------------------------------------------

  lemma DownKinds(cfg: Cfg, h: Hist, spot: Spot, m: Msg)
    requires DownHead(cfg, h, spot, m)
    ensures !m.f.Resync? && (m.f.Chunk? || m.f.End? <==> spot.Mid?)
    ensures spot.Mid? || m.f.Begin? ==> spot.e + 1 < |h.base|
  {
  }

  lemma DeliverEndInv(cfg: Cfg, s: Sys)
    requires Inv(cfg, s) && s.down.q != [] && s.down.q[0].f.End?
    ensures Inv(cfg, DeliverGuest(cfg, s)) && !DeliverGuest(cfg, s).guest.hold
  {
    hide HistOK, HostOK, GuestOK, FlightOK, GuestSpotOK, HostSpotOK, NoLoss, CleanSums, OnFrame, DownHead, AdvanceDown;
    var h, g, m, s' := s.hist, s.guest, s.down.q[0], DeliverGuest(cfg, s);
    var k, spot := Joined(cfg, h, g), s.down.spot;
    DownRest(cfg, h, s.up, s.down, g.pend);
    DownKinds(cfg, h, spot, m);
    TakenGParts(cfg, h, g, s.pureG, spot);
    JoinedGrows(cfg, h, s.host, g, s.pureG, spot, s.up.spot);
    JoinedGuest(cfg, h, g, s.pureG, spot, m);
    JoinedHost(cfg, h, s.host, s.pureH, g, s.pureG, spot, s.up.spot);
    JoinedFlight(cfg, h, s.up, s'.down, g.pend, g);
    SumsBegun(cfg, h, s.host, s.pureH, g, s.pureG && !Torn(spot));
    CleanGrows(cfg, h, k, s.clean);
    JoinedNoLoss(cfg, h, g, s.pureG && !Torn(spot), s'.host.pend || s'.guest.pend, s'.down.q, s'.up.q);
    assert s'.hist == k && s'.guest == Rebase(cfg, g) && s'.pureG;
  }

  /** Any frame but END: at most one request goes out, in an epoch that is not clean. */
  lemma TakeData(cfg: Cfg, h: Hist, c: Console, pureH: bool, g: Console, pure: bool, spot: Spot, m: Msg, clean: nat)
    requires DelayOK(cfg, h) && TakenG(cfg, h, g, pure, spot) && HostOK(cfg, h, c, pureH) && EpochG(h) <= EpochH(h)
    requires DownHead(cfg, h, spot, m) && !m.f.End? && CleanSums(cfg, h, clean)
    requires (m.f.Chunk? && g.atGate ==> Gated(g)) && Starved(g)
    ensures TakenG(cfg, h, OnFrame(cfg, g, m.f).0, pure, AdvanceDown(cfg, h, spot, m))
    ensures var (g', out) := OnFrame(cfg, g, m.f);
            && (Disagrees(h, m) ==> g'.pend) && g'.wm <= g.wm + (if m.f.Input? then 2 else 0)
            && ((out == [] && g'.pend == g.pend)
                || (m.f.Crc? && out == [Resync(m.f.tick)] && !g.pend && g'.pend && EpochG(h) < clean))
  {
    hide HistOK, HostOK, GuestOK, GuestSpotOK, CleanSums, OnFrame, DownHead, AdvanceDown, TakenG, DelayOK, Starved, Gated;
    DownKinds(cfg, h, spot, m);
    if m.f.Input? {
      GuestInput(cfg, h, c, pureH, g, pure, spot, m);
    } else if m.f.Begin? {
      GuestBegin(cfg, h, g, pure, spot, m);
    } else if m.f.Chunk? {
      GuestChunk(cfg, h, g, pure, spot, m);
    } else {
      GuestReport(cfg, h, g, pure, spot, m, clean);
    }
  }

  lemma DeliverDataInv(cfg: Cfg, s: Sys)
    requires Inv(cfg, s) && s.down.q != [] && !s.down.q[0].f.End?
    requires (s.down.q[0].f.Chunk? && s.guest.atGate ==> Gated(s.guest)) && Starved(s.guest)
    ensures Inv(cfg, DeliverGuest(cfg, s))
    ensures DeliverGuest(cfg, s).guest.wm <= s.guest.wm + (if s.down.q[0].f.Input? then 2 else 0)
  {
    hide HistOK, HostOK, GuestOK, FlightOK, GuestSpotOK, HostSpotOK, NoLoss, CleanSums, PendOK, OnFrame, DownHead, AdvanceDown, SendUp, AdvanceUp,
         Starved, Gated;
    var h, g, m, s' := s.hist, s.guest, s.down.q[0], DeliverGuest(cfg, s);
    var spot := s.down.spot;
    DownRest(cfg, h, s.up, s.down, g.pend);
    TakenGParts(cfg, h, g, s.pureG, spot);
    EpochsOrdered(cfg, h);
    TakeData(cfg, h, s.host, s.pureH, g, s.pureG, spot, m, s.clean);
    SpotRuns(cfg, h, s.host.wm, s.host.hold, s.host.pend, s.up.spot);
    if OnFrame(cfg, g, m.f).1 == [] {
      SendUpNone(h, s.up);
      assert s.up.q + [] == s.up.q;
      NoLossTakenDown(h, s.host.pend || g.pend, s.down.q, s.up.q, s'.host.pend || s'.guest.pend, []);
    } else {
      var r := Resync(m.f.tick);
      AskPend(cfg, h, s.up, s.down, s.host.pend, s.host.ptmo);
      AskFlight(cfg, h, s.up, s'.down, m.f.tick);
      SendUpOne(h, s.up, r);
      NoLossTakenDown(h, s.host.pend || g.pend, s.down.q, s.up.q, s'.host.pend || s'.guest.pend, [Msg(EpochG(h), r)]);
    }
  }

  lemma SpotRuns(cfg: Cfg, h: Hist, wm: int, hold: bool, pend: bool, spot: Spot)
    requires HistOK(cfg, h) && HostSpotOK(cfg, h, wm, hold, pend, spot)
    ensures spot.Run?
  {
  }
}
