/** The host taking a frame of the guest's keeps the invariant. */
module ProtocolDeliverUp {
  import opened Cells
  import opened Protocol
  import opened ProtocolInv
  import opened ProtocolFlow
  import opened ProtocolCapture
  import opened ProtocolTick

  lemma {:induction false} BasesGrow(cfg: Cfg, h: Hist, i: nat, j: nat)
    requires HistOK(cfg, h) && i <= j < |h.base|
    ensures h.base[i] + 16 * (j - i) <= h.base[j]
    decreases j
  {
    if i < j {
      BasesGrow(cfg, h, i, j - 1);
      assert h.base[j] == h.base[j - 1] + |h.rowH[j - 1]| + 16;
    }
  }

  /** Moving the host's position to the epoch of the next frame. */
  lemma CatchSpot(cfg: Cfg, h: Hist, wm: int, hold: bool, pend: bool, ptmo: nat, pendG: bool, spot: Spot, e: nat)
    requires HistOK(cfg, h) && HostSpotOK(cfg, h, wm, hold, pend, spot) && PendOK(h, pend, ptmo, pendG, spot)
    requires spot.e <= e <= EpochG(h)
    ensures var r := Catch(h, spot, e);
            && r.Run? && r.e == e
            && HostSpotOK(cfg, h, wm, hold, pend, r) && PendOK(h, pend, ptmo, pendG, r)
  {
    if spot.e < e {
      assert FirstOK(cfg, h, e);
      if e < EpochH(h) {
        assert h.base[e + 1] == h.base[e] + |h.rowH[e]| + 16;
      }
    }
  }

  /** A received input for the next tick lands in a slot that no tick still to be read uses. */
  lemma RecvInput(cfg: Cfg, tick: nat, wm: int, theirs: Ring, b: nat, row: seq<Cell>, t: nat)
    requires RecvOK(cfg, tick, wm, theirs, b, row) && b + cfg.d <= t < b + cfg.d + |row|
    requires t == wm + 1 || (t == wm + 2 && wm == b + cfg.d - 1 && row[0] == IDLE)
    requires t - tick <= 254
    ensures RecvOK(cfg, tick, t, Put(theirs, t, In(row, b + cfg.d, t)), b, row)
  {
    PutAt(theirs, t, In(row, b + cfg.d, t));
  }

  lemma TicksClose(cfg: Cfg, h: Hist, c: Console, pureH: bool, g: Console, pureG: bool)
    requires HistOK(cfg, h) && HostOK(cfg, h, c, pureH) && GuestOK(cfg, h, g, pureG) && EpochG(h) == EpochH(h)
    ensures g.tick <= c.tick + cfg.d + (if c.atGate then 1 else 0) && c.tick <= g.tick + cfg.d + (if g.atGate then 1 else 0)
  {
  }

  /** In its gate loop a console pumps only while it lacks an input, so it is never far behind its
      watermark there. */
  ghost predicate Starved(c: Console) {
    c.atGate ==> c.wm <= c.tick + 240
  }

  /** The new input of the host's own epoch. */
  lemma HostInputOK(cfg: Cfg, h: Hist, c: Console, pureH: bool, g: Console, pureG: bool, spot: Spot, m: Msg)
    requires HistOK(cfg, h) && DelayOK(cfg, h) && HostOK(cfg, h, c, pureH) && GuestOK(cfg, h, g, pureG)
    requires HostSpotOK(cfg, h, c.wm, c.hold, c.pend, spot) && spot.e == EpochH(h)
    requires m.f.Input? && UpHead(cfg, h, spot, m) && m.epoch == spot.e && Starved(c)
    ensures c.wm < m.f.tick && HostOK(cfg, h, OnFrame(cfg, c, m.f).0, pureH)
    ensures var c' := OnFrame(cfg, c, m.f).0;
            HostSpotOK(cfg, h, c'.wm, c'.hold, c'.pend, AdvanceUp(h, spot, m))
  {
    TicksClose(cfg, h, c, pureH, g, pureG);
    RecvInput(cfg, c.tick, c.wm, c.theirs, h.base[spot.e], h.rowG[spot.e], m.f.tick);
  }

  /** An input of an older epoch is at or behind the host's watermark: it is dropped. */
  lemma StaleInput(cfg: Cfg, h: Hist, c: Console, pureH: bool, spot: Spot, m: Msg)
    requires HistOK(cfg, h) && DelayOK(cfg, h) && HostOK(cfg, h, c, pureH)
    requires HostSpotOK(cfg, h, c.wm, c.hold, c.pend, spot) && spot.e < EpochH(h)
    requires m.f.Input? && UpHead(cfg, h, spot, m) && m.epoch == spot.e
    ensures m.f.tick <= c.wm && OnFrame(cfg, c, m.f) == (c, [])
    ensures HostSpotOK(cfg, h, c.wm, c.hold, c.pend, AdvanceUp(h, spot, m))
  {
    BasesGrow(cfg, h, spot.e + 1, EpochH(h));
    assert |h.rowG[spot.e]| + h.base[spot.e] <= h.base[spot.e + 1] - 15 + cfg.d;
  }

  /** A report of an older epoch matches no record. */
  lemma StaleReport(cfg: Cfg, h: Hist, c: Console, pureH: bool, spot: Spot, m: Msg)
    requires HistOK(cfg, h) && DelayOK(cfg, h) && HostOK(cfg, h, c, pureH)
    requires spot.e < EpochH(h) && m.f.Crc? && UpHead(cfg, h, spot, m) && m.epoch == spot.e
    ensures OnFrame(cfg, c, m.f) == (c, [])
  {
    BasesGrow(cfg, h, spot.e + 1, EpochH(h));
    assert |h.rowG[spot.e]| + h.base[spot.e] <= h.base[spot.e + 1] - 15 + cfg.d;
    var rec := c.own[Slot(m.f.tick)];
    if rec.Record? {
      assert (EpochH(h), rec.tick) in h.sumH;
    }
  }

  /** A report of the host's epoch, for a tick the host has reported too: its record is still there. */
  lemma FreshReport(cfg: Cfg, h: Hist, c: Console, pureH: bool, spot: Spot, m: Msg)
    requires HistOK(cfg, h) && DelayOK(cfg, h) && HostOK(cfg, h, c, pureH)
    requires HostSpotOK(cfg, h, c.wm, c.hold, c.pend, spot) && spot.e == EpochH(h)
    requires m.f.Crc? && UpHead(cfg, h, spot, m) && m.epoch == spot.e
    ensures (spot.e, m.f.tick) in h.sumH ==> c.own[Slot(m.f.tick)] == Record(m.f.tick, h.sumH[(spot.e, m.f.tick)])
    ensures var rec := c.own[Slot(m.f.tick)];
            rec.Record? && rec.tick == m.f.tick ==> (spot.e, m.f.tick) in h.sumH
  {
  }

  lemma HostFlagged(cfg: Cfg, h: Hist, c: Console, pure: bool)
    requires HistOK(cfg, h) && HostOK(cfg, h, c, pure)
    ensures HostOK(cfg, h, c.(pend := true, ptmo := 0), pure)
  {
  }

  // ---- the whole step, on a position already in the frame's epoch -----------------------

  /** What the host's side looks like after taking m at position r. */
  ghost predicate Taken(cfg: Cfg, h: Hist, c: Console, pureH: bool, pendG: bool, r: Spot, clean: nat) {
    && HistOK(cfg, h) && HostOK(cfg, h, c, pureH)
    && HostSpotOK(cfg, h, c.wm, c.hold, c.pend, r)
    && PendOK(h, c.pend, c.ptmo, pendG, r)
    && FewPushes(h, clean, c.pend)
  }

  /** A report for a tick on which both consoles have reported, differently. */
  ghost predicate Disagrees(h: Hist, m: Msg) {
    && m.f.Crc? && m.epoch == EpochH(h) == EpochG(h)
    && (m.epoch, m.f.tick) in h.sumH && (m.epoch, m.f.tick) in h.sumG
    && h.sumH[(m.epoch, m.f.tick)] != h.sumG[(m.epoch, m.f.tick)]
  }

  lemma TakeInput(cfg: Cfg, h: Hist, c: Console, pureH: bool, g: Console, pureG: bool, r: Spot, m: Msg, clean: nat)
    requires DelayOK(cfg, h) && Taken(cfg, h, c, pureH, g.pend, r, clean) && GuestOK(cfg, h, g, pureG)
    requires m.f.Input? && UpHead(cfg, h, r, m) && m.epoch == r.e && Starved(c)
    ensures Taken(cfg, h, OnFrame(cfg, c, m.f).0, pureH, g.pend, AdvanceUp(h, r, m), clean)
    ensures OnFrame(cfg, c, m.f).1 == [] && OnFrame(cfg, c, m.f).0.pend == c.pend && OnFrame(cfg, c, m.f).0.wm <= c.wm + 2
  {
    if r.e == EpochH(h) {
      HostInputOK(cfg, h, c, pureH, g, pureG, r, m);
    } else {
      StaleInput(cfg, h, c, pureH, r, m);
    }
  }

  /** In a clean epoch two reports for one tick are equal. */
  lemma CleanReports(cfg: Cfg, h: Hist, clean: nat, e: nat, t: nat)
    requires HistOK(cfg, h) && CleanSums(cfg, h, clean) && clean <= e && EpochG(h) <= e < |h.base|
    ensures (e, t) in h.sumH && (e, t) in h.sumG ==> h.sumH[(e, t)] == h.sumG[(e, t)]
  {
    assert SumsAreSim(cfg, h, e, h.sumH);
  }

  lemma TakeReport(cfg: Cfg, h: Hist, c: Console, pureH: bool, pendG: bool, r: Spot, m: Msg, clean: nat)
    requires DelayOK(cfg, h) && Taken(cfg, h, c, pureH, pendG, r, clean)
    requires m.f.Crc? && UpHead(cfg, h, r, m) && m.epoch == r.e
    requires CleanSums(cfg, h, clean)
    ensures Taken(cfg, h, OnFrame(cfg, c, m.f).0, pureH, pendG, AdvanceUp(h, r, m), clean)
    ensures OnFrame(cfg, c, m.f).1 == [] && OnFrame(cfg, c, m.f).0.wm == c.wm
    ensures Disagrees(h, m) || c.pend ==> OnFrame(cfg, c, m.f).0.pend
  {
    assert AdvanceUp(h, r, m) == r;
    if r.e < EpochH(h) {
      StaleReport(cfg, h, c, pureH, r, m);
    } else {
      FreshReport(cfg, h, c, pureH, r, m);
      if clean <= r.e { CleanReports(cfg, h, clean, r.e, m.f.tick); }
      HostFlagged(cfg, h, c, pureH);
    }
  }

  lemma TakeRequest(cfg: Cfg, h: Hist, c: Console, pureH: bool, pendG: bool, r: Spot, m: Msg, clean: nat)
    requires DelayOK(cfg, h) && Taken(cfg, h, c, pureH, pendG, r, clean) && m.epoch < clean
    requires m.f.Resync? && UpHead(cfg, h, r, m) && m.epoch == r.e
    ensures Taken(cfg, h, OnFrame(cfg, c, m.f).0, pureH, pendG, AdvanceUp(h, r, m), clean)
    ensures OnFrame(cfg, c, m.f).1 == [] && OnFrame(cfg, c, m.f).0.pend && OnFrame(cfg, c, m.f).0.wm == c.wm
  {
  }

  lemma NoLossTaken(h: Hist, pending: bool, downQ: seq<Msg>, upQ: seq<Msg>, pending': bool)
    requires NoLoss(h, pending, downQ, upQ) && upQ != [] && (pending ==> pending')
    requires Disagrees(h, upQ[0]) ==> pending'
    ensures NoLoss(h, pending', downQ, upQ[1..])
  {
  }

  lemma UpRest(cfg: Cfg, h: Hist, up: Net, down: Net, asked: bool)
    requires HistOK(cfg, h) && FlightOK(cfg, h, up, down, asked) && up.q != []
    ensures var m := up.q[0];
            && UpHead(cfg, h, up.spot, m) && m.epoch <= EpochG(h)
            && UpHead(cfg, h, Catch(h, up.spot, m.epoch), m)
            && AdvanceUp(h, Catch(h, up.spot, m.epoch), m) == AdvanceUp(h, up.spot, m)
            && FlightOK(cfg, h, up.(q := up.q[1..], part := 0, spot := AdvanceUp(h, up.spot, m)), down, asked)
  {
  }

  lemma DeliverHostInv(cfg: Cfg, s: Sys)
    requires Inv(cfg, s) && s.up.q != [] && Starved(s.host)
    ensures Inv(cfg, DeliverHost(cfg, s)) && DeliverHost(cfg, s).host.wm <= s.host.wm + (if s.up.q[0].f.Input? then 2 else 0)
  {
    hide HistOK, HostOK, GuestOK, FlightOK, GuestSpotOK, HostSpotOK, PendOK, NoLoss, CleanSums, OnFrame, AdvanceUp, Tagged, UpHead;
    var h, c, m, s' := s.hist, s.host, s.up.q[0], DeliverHost(cfg, s);
    var pureG := s.pureG && !Torn(s.down.spot);
    UpRest(cfg, h, s.up, s.down, s.guest.pend);
    assert s.up.spot.e <= m.epoch by { HeadEpoch(cfg, h, s.up.spot, m); }
    CatchSpot(cfg, h, c.wm, c.hold, c.pend, c.ptmo, s.guest.pend, s.up.spot, m.epoch);
    var r := Catch(h, s.up.spot, m.epoch);
    HeadKinds(cfg, h, r, m);
    if m.f.Input? {
      TakeInput(cfg, h, c, s.pureH, s.guest, pureG, r, m, s.clean);
    } else if m.f.Crc? {
      TakeReport(cfg, h, c, s.pureH, s.guest.pend, r, m, s.clean);
    } else {
      TakeRequest(cfg, h, c, s.pureH, s.guest.pend, r, m, s.clean);
    }
    NoLossTaken(h, c.pend || s.guest.pend, s.down.q, s.up.q, s'.host.pend || s'.guest.pend);
    TaggedNone(EpochH(h));
    assert s'.down == s.down;
  }

  lemma HeadEpoch(cfg: Cfg, h: Hist, spot: Spot, m: Msg)
    requires UpHead(cfg, h, spot, m)
    ensures spot.e <= m.epoch
  {
  }

  lemma HeadKinds(cfg: Cfg, h: Hist, spot: Spot, m: Msg)
    requires UpHead(cfg, h, spot, m)
    ensures m.f.Input? || m.f.Crc? || m.f.Resync?
  {
  }
}
