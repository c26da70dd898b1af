/** The host's push of its image and both consoles' new epoch keep the invariant. */
module ProtocolPush {
  import opened Cells
  import opened Protocol
  import opened ProtocolInv
  import opened ProtocolFlow
  import opened ProtocolCapture
  import opened ProtocolTick

  lemma IdleAt(t: int)
    ensures At(IdleRing(), t) == IDLE
  {
  }

  /** A rebased console is a sender and a receiver of nothing yet. */
  lemma RebasedRings(cfg: Cfg, b: nat)
    requires cfg.d >= 1
    ensures SendOK(cfg, b, false, IdleRing(), b, [])
    ensures RecvOK(cfg, b, b + cfg.d - 1, IdleRing(), b, [])
  {
  }

  // ---- host: RS_PUSH -------------------------------------------------------------------

  ghost function NewEpoch(h: Hist, c: Console): Hist {
    h.(base := h.base + [c.tick + 16], snap := h.snap + [c.img], rowH := h.rowH + [[]])
  }

  lemma NewEpochGrows(cfg: Cfg, h: Hist, c: Console, pureH: bool, g: Console, pureG: bool)
    requires HistOK(cfg, h) && HostOK(cfg, h, c, pureH) && GuestOK(cfg, h, g, pureG) && !c.atGate
    ensures HistOK(cfg, NewEpoch(h, c)) && Grows(h, NewEpoch(h, c))
  {
    var k, e := NewEpoch(h, c), EpochH(h);
    assert |k.base| == e + 2 && k.base[e + 1] == c.tick + 16;
    forall i {:trigger k.rowH[i]} | 0 <= i < |k.base| - 1 ensures k.base[i + 1] == k.base[i] + |k.rowH[i]| + 16 {
      if i < e { assert h.base[i + 1] == h.base[i] + |h.rowH[i]| + 16; }
    }
    forall i | 0 <= i < |k.rowG| ensures FirstOK(cfg, k, i) {
      assert FirstOK(cfg, h, i);
    }
    GuestFacts(cfg, h, g, pureG);
    HostFacts(cfg, h, c, pureH);
  }

  lemma NewEpochHost(cfg: Cfg, h: Hist, c: Console, pure: bool)
    requires HistOK(cfg, h) && HostOK(cfg, h, c, pure) && cfg.d >= 1 && HistOK(cfg, NewEpoch(h, c)) && !c.atGate
    ensures HostOK(cfg, NewEpoch(h, c), Push(cfg, c).0, true)
  {
    var k, e := NewEpoch(h, c), EpochH(h);
    assert EpochH(k) == e + 1 && k.base[e + 1] == c.tick + 16 && k.rowH[e + 1] == [] && Row(k.rowG, e + 1) == [];
    RebasedRings(cfg, c.tick + 16);
  }

  lemma NewEpochGuest(cfg: Cfg, h: Hist, c: Console, g: Console, pureG: bool, spot: Spot)
    requires HistOK(cfg, h) && GuestOK(cfg, h, g, pureG) && GuestSpotOK(cfg, h, g, spot)
    requires HistOK(cfg, NewEpoch(h, c))
    ensures GuestOK(cfg, NewEpoch(h, c), g, pureG) && GuestSpotOK(cfg, NewEpoch(h, c), g, spot)
  {
  }

  lemma NewEpochTop(cfg: Cfg, h: Hist, c: Console)
    requires HistOK(cfg, h)
    ensures var k, e := NewEpoch(h, c), EpochH(h);
            && EpochH(k) == e + 1 && EpochG(k) == EpochG(h)
            && |k.base| == |k.snap| == |k.rowH| == e + 2
            && k.base[e + 1] == c.tick + 16 && k.snap[e + 1] == c.img && k.rowH[e + 1] == []
            && (EpochG(h) <= EpochH(h) && forall s, i {:trigger Catch(k, s, i)} :: Catch(k, s, i) == Catch(h, s, i))
            && NextG(cfg, k) == NextG(cfg, h) && NextH(cfg, k) == c.tick + 16 + cfg.d
  {
  }

  lemma NewEpochFlight(cfg: Cfg, h: Hist, c: Console, up: Net, down: Net, asked: bool)
    requires HistOK(cfg, h) && HistOK(cfg, NewEpoch(h, c)) && Grows(h, NewEpoch(h, c))
    requires FlightOK(cfg, h, up, down, asked) && NextH(cfg, h) == c.tick + cfg.d
    ensures FlightOK(cfg, NewEpoch(h, c), up,
              down.(q := down.q + Tagged(EpochH(h), PushFrames(c)), tip := Run(EpochH(h) + 1, c.tick + 16 + cfg.d, false)), asked)
  {
    hide HistOK, DownOK, UpOK, Grows, PushFrames, Tagged;
    var k, e := NewEpoch(h, c), EpochH(h);
    NewEpochTop(cfg, h, c);
    DownGrows(cfg, h, k, down.q, down.spot, down.tip);
    UpGrows(cfg, h, k, up.q, up.spot, up.tip);
    PushFlow(cfg, k, c, e);
    DownJoin(cfg, k, down.q, Tagged(e, PushFrames(c)), down.spot, down.tip, Run(e + 1, c.tick + 16 + cfg.d, false));
    PushStarts(e, c);
  }

  lemma PushStarts(e: nat, c: Console)
    ensures var q := Tagged(e, PushFrames(c)); q != [] && q[0] == Msg(e, Begin(c.tick + 16))
  {
  }

  lemma NewEpochHostSpot(cfg: Cfg, h: Hist, c: Console, pure: bool, spot: Spot)
    requires HistOK(cfg, h) && HostOK(cfg, h, c, pure) && HistOK(cfg, NewEpoch(h, c)) && !c.atGate
    requires HostSpotOK(cfg, h, c.wm, c.hold, c.pend, spot) && c.pend
    ensures HostSpotOK(cfg, NewEpoch(h, c), c.tick + 16 + cfg.d - 1, false, false, spot)
  {
    var k, e := NewEpoch(h, c), EpochH(h);
    assert k.base[e + 1] == c.tick + 16;
  }

  lemma NewEpochFlags(cfg: Cfg, h: Hist, c: Console, clean: nat, pureH: bool, pureG: bool, pendG: bool, downQ: seq<Msg>, upQ: seq<Msg>, spot: Spot)
    requires HistOK(cfg, h) && CleanRun(h, clean, pureH, pureG, true, pendG)
    ensures var k := NewEpoch(h, c);
            NoLoss(k, pendG, downQ, upQ) && PendOK(k, false, 0, pendG, spot) && CleanRun(k, clean, true, pureG, false, pendG)
  {
  }

  lemma PushHostInv(cfg: Cfg, s: Sys)
    requires Inv(cfg, s) && s.host.pend && !s.host.atGate && cfg.d <= 15
    ensures Inv(cfg, PushHost(cfg, s))
  {
    hide HistOK, HostOK, GuestOK, FlightOK, GuestSpotOK, HostSpotOK, CleanSums, CleanRun, OldRequests, NoLoss, PendOK, Tagged, PushFrames;
    var h, c, s' := s.hist, s.host, PushHost(cfg, s);
    var k := NewEpoch(h, c);
    var pureG := s.pureG && !Torn(s.down.spot);
    HostFacts(cfg, h, c, s.pureH);
    NewEpochGrows(cfg, h, c, s.pureH, s.guest, pureG);
    NewEpochHost(cfg, h, c, s.pureH);
    NewEpochGuest(cfg, h, c, s.guest, pureG, s.down.spot);
    NewEpochFlight(cfg, h, c, s.up, s.down, s.guest.pend);
    NewEpochHostSpot(cfg, h, c, s.pureH, s.up.spot);
    SumsBegun(cfg, h, c, s.pureH, s.guest, pureG);
    CleanGrows(cfg, h, k, s.clean);
    NewEpochFlags(cfg, h, c, s.clean, s.pureH, s.pureG, s.guest.pend, s'.down.q, s.up.q, s.up.spot);
    assert s'.hist == k;
  }

  /** The rest of the host's pass: tick, report, and the push when it is due. */
  lemma FinishHostInv(cfg: Cfg, s: Sys)
    requires Inv(cfg, s) && s.host.atGate && !Gated(s.host)
    requires EpochH(FinishHost(cfg, s).hist) > EpochH(s.hist) ==> cfg.d <= 15
    ensures Inv(cfg, FinishHost(cfg, s))
  {
    hide HistOK, HostOK, GuestOK, FlightOK, GuestSpotOK, HostSpotOK, CleanSums, NoLoss, DeadBall, RunTick, Tagged;
    var s1 := TickHost(cfg, s);
    var s2 := s1.(host := Waited(s1.host));
    TickHostInv(cfg, s);
    if Pushes(s2.host) {
      assert PushHost(cfg, s2) == PushHost(cfg, s1);
      assert |PushHost(cfg, s1).hist.base| == |s1.hist.base| + 1;
      assert |s1.hist.base| == |s.hist.base|;
      RunTickFrame(cfg, s.host);
      PushHostInv(cfg, s1);
    } else {
      WaitedInv(cfg, s1);
    }
  }

  lemma WaitedInv(cfg: Cfg, s: Sys)
    requires Inv(cfg, s) && !Pushes(Waited(s.host))
    ensures Inv(cfg, s.(host := Waited(s.host)))
  {
  }
}
