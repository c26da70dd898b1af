/** What the protocol promises of recovery, for every run: safe re-baselining, no torn image, no lost
    desync, and no deadlock. */
module ProtocolRecovery {
  import opened Cells
  import opened Protocol
  import opened ProtocolInv
  import opened ProtocolFlow
  import opened ProtocolCapture
  import opened ProtocolTick
  import opened ProtocolPush
  import opened ProtocolDeliverUp
  import opened ProtocolDeliverDown
  import opened ProtocolRuns
  import opened ProtocolCaptured
  import opened ProtocolTheorems

  // ---- re-baseline safety ---------------------------------------------------------------------

  /** A stale frame: sent by the guest in an epoch the host has left; a request is none, it counts
      in any epoch. */
  predicate Stale(s: Sys, m: Msg) { m.epoch < EpochH(s.hist) && !m.f.Resync? }

  /** Of all the frames a pump of k bytes takes, the stale ones change nothing and are not answered. */
  ghost predicate StaleIgnored(cfg: Cfg, s: Sys, k: nat)
    decreases |s.up.q|
  {
    s.up.q == [] || s.up.part + k < Size(s.up.q[0].f) ||
    (&& (Stale(s, s.up.q[0]) ==> OnFrame(cfg, s.host, s.up.q[0].f) == (s.host, []))
     && StaleIgnored(cfg, DeliverHost(cfg, s), s.up.part + k - Size(s.up.q[0].f)))
  }

  lemma StaleHead(cfg: Cfg, s: Sys)
    requires Inv(cfg, s) && s.up.q != [] && Stale(s, s.up.q[0])
    ensures OnFrame(cfg, s.host, s.up.q[0].f) == (s.host, [])
  {
    hide GuestSpotOK, HostSpotOK, NoLoss, PendOK, CleanSums, HostOK, GuestOK, OnFrame, UpHead, AdvanceUp;
    var h, c, m := s.hist, s.host, s.up.q[0];
    UpRest(cfg, h, s.up, s.down, s.guest.pend);
    HeadEpoch(cfg, h, s.up.spot, m);
    HeadKinds(cfg, h, s.up.spot, m);
    CatchSpot(cfg, h, c.wm, c.hold, c.pend, c.ptmo, s.guest.pend, s.up.spot, m.epoch);
    var r := Catch(h, s.up.spot, m.epoch);
    if m.f.Input? { StaleInput(cfg, h, c, s.pureH, r, m); } else { StaleReport(cfg, h, c, s.pureH, r, m); }
  }

  lemma {:induction false} StalePump(cfg: Cfg, s: Sys, k: nat)
    requires Inv(cfg, s) && Room(s.host, s.up.part, k)
    ensures StaleIgnored(cfg, s, k)
    decreases |s.up.q|
  {
    hide Inv, OnFrame, Stale;
    if s.up.q != [] && s.up.part + k >= Size(s.up.q[0].f) {
      if Stale(s, s.up.q[0]) { StaleHead(cfg, s); }
      PumpStep(cfg, s, k);
      StalePump(cfg, DeliverHost(cfg, s), s.up.part + k - Size(s.up.q[0].f));
    }
  }

  /** Whatever the guest sent before its own rebase, the rebased host neither stores nor compares,
      wherever in a pump the frame comes. */
  lemma StaleFramesIgnored(cfg: Cfg, img: Image, acts: seq<Action>, k: nat)
    requires Covered(cfg, img, acts) && MayPump(Exec(cfg, Init(cfg, img), acts).host, k)
    ensures StaleIgnored(cfg, Exec(cfg, Init(cfg, img), acts), k)
  {
    hide Inv, StaleIgnored, Exec, Init;
    RunsKeepInv(cfg, img, acts);
    StalePump(cfg, Exec(cfg, Init(cfg, img), acts), k);
  }

  // ---- ticks ------------------------------------------------------------------------------------

  lemma FinishForward(cfg: Cfg, s: Sys)
    ensures FinishHost(cfg, s).host.tick >= s.host.tick && FinishHost(cfg, s).guest == s.guest
    ensures TickGuest(cfg, s).guest.tick >= s.guest.tick && TickGuest(cfg, s).host == s.host
  {
    hide SendUp, Tagged, DeadBall, PushFrames, ReadRings, Play, Sum;
  }

  lemma PumpHostForward(cfg: Cfg, s: Sys, k: nat)
    requires Inv(cfg, s) && MayPump(s.host, k)
    ensures PumpHost(cfg, s, k).host.tick == s.host.tick && PumpHost(cfg, s, k).guest == s.guest
  {
    hide Inv, PumpHost;
    PumpHostInv(cfg, s, k);
    PumpHostGuest(cfg, s, k);
  }

  lemma PumpGuestForward(cfg: Cfg, s: Sys, k: nat)
    requires Inv(cfg, s) && MayPump(s.guest, k)
    ensures PumpGuest(cfg, s, k).guest.tick >= s.guest.tick && PumpGuest(cfg, s, k).host == s.host
  {
    hide Inv, PumpGuest;
    PumpGuestInv(cfg, s, k);
    PumpGuestEpoch(cfg, s, k);
  }

  lemma StepForward(cfg: Cfg, s: Sys, a: Action)
    requires Inv(cfg, s) && Enabled(s, a)
    ensures Step(cfg, s, a).host.tick >= s.host.tick && Step(cfg, s, a).guest.tick >= s.guest.tick
  {
    hide Inv, PumpHost, PumpGuest, SendUp, Tagged, FinishHost, TickGuest;
    match a
    case Enter(Host, k, cell) => PumpHostForward(cfg, s, k);
    case Enter(Guest, k, cell) => PumpGuestForward(cfg, s, k);
    case Gate(Host, k) => FinishForward(cfg, s); if Gated(s.host) { PumpHostForward(cfg, s, k); }
    case Gate(Guest, k) => FinishForward(cfg, s); if Gated(s.guest) { PumpGuestForward(cfg, s, k); }
    case Listen(Host, k) => PumpHostForward(cfg, s, k);
    case Listen(Guest, k) => PumpGuestForward(cfg, s, k);
    case _ =>
  }

  /** No step moves a console's tick backwards, whatever is re-baselined. */
  lemma TicksForward(cfg: Cfg, img: Image, acts: seq<Action>, a: Action)
    requires Covered(cfg, img, acts) && Enabled(Exec(cfg, Init(cfg, img), acts), a)
    ensures var s := Exec(cfg, Init(cfg, img), acts);
            Step(cfg, s, a).host.tick >= s.host.tick && Step(cfg, s, a).guest.tick >= s.guest.tick
  {
    hide Inv, Step, Enabled, Exec, Init;
    RunsKeepInv(cfg, img, acts);
    StepForward(cfg, Exec(cfg, Init(cfg, img), acts), a);
  }

  lemma {:induction false} PumpHostGuest(cfg: Cfg, s: Sys, k: nat)
    ensures PumpHost(cfg, s, k).guest == s.guest && PumpHost(cfg, s, k).down.spot == s.down.spot
    decreases |s.up.q|
  {
    hide OnFrame, AdvanceUp, Tagged;
    if s.up.q != [] && s.up.part + k >= Size(s.up.q[0].f) {
      PumpHostGuest(cfg, DeliverHost(cfg, s), s.up.part + k - Size(s.up.q[0].f));
    }
  }

  /** The host is never more than two pushes ahead of what it has heard from the guest. */
  lemma TwoPushesAhead(cfg: Cfg, img: Image, acts: seq<Action>)
    requires Covered(cfg, img, acts)
    ensures var s := Exec(cfg, Init(cfg, img), acts);
            EpochH(s.hist) - EpochG(s.hist) + (if s.host.pend then 1 else 0) <= 2
  {
    hide HostOK, GuestOK, FlightOK, GuestSpotOK, NoLoss, PendOK, CleanSums, HistOK;
    RunsKeepInv(cfg, img, acts);
  }

  // ---- no torn image ---------------------------------------------------------------------------

  /** The guest never runs a game tick between the first data chunk and END, and when END is the
      next frame its image is the pushed one at all 767 positions. */
  lemma NoTornImage(cfg: Cfg, img: Image, acts: seq<Action>)
    requires Covered(cfg, img, acts)
    ensures var s := Exec(cfg, Init(cfg, img), acts);
            && (s.guest.atGate && !Gated(s.guest) ==> !Torn(s.down.spot))
            && (s.down.q != [] && s.down.q[0].f.End? ==>
                  && EpochG(s.hist) + 1 < |s.hist.snap|
                  && s.guest.hold && Steady(s.guest.img) == Steady(s.hist.snap[EpochG(s.hist) + 1]))
  {
    hide HostOK, GuestOK, HostSpotOK, NoLoss, PendOK, CleanSums;
    var s := Exec(cfg, Init(cfg, img), acts);
    RunsKeepInv(cfg, img, acts);
    if s.down.q != [] && s.down.q[0].f.End? {
      PartInv(cfg, s);
      SteadyMeans(s.guest.img, s.hist.snap[EpochG(s.hist) + 1]);
    }
  }

  // ---- no lost desync ----------------------------------------------------------------------------

  /** Both consoles have reported tick t of their common epoch, differently, and neither is pending. */
  ghost predicate Disagree(s: Sys, t: nat) {
    var h, e := s.hist, EpochH(s.hist);
    && e == EpochG(h) && !s.host.pend && !s.guest.pend
    && (e, t) in h.sumH && (e, t) in h.sumG && h.sumH[(e, t)] != h.sumG[(e, t)]
  }

  /** Then one of the two reports is in flight to a console whose taking it now would flag it. */
  lemma DesyncIsFlagged(cfg: Cfg, img: Image, acts: seq<Action>, t: nat)
    requires Covered(cfg, img, acts)
    requires Disagree(Exec(cfg, Init(cfg, img), acts), t)
    ensures var s := Exec(cfg, Init(cfg, img), acts);
            var e := EpochH(s.hist);
            var toGuest, toHost := Msg(e, Crc(0, t, s.hist.sumH[(e, t)])), Msg(e, Crc(1, t, s.hist.sumG[(e, t)]));
            || (toGuest in s.down.q && OnFrame(cfg, s.guest, toGuest.f).0.pend)
            || (toHost in s.up.q && OnFrame(cfg, s.host, toHost.f).0.pend)
  {
    hide CleanSums, PendOK, DownOK, UpOK;
    var s := Exec(cfg, Init(cfg, img), acts);
    var h, e := s.hist, EpochH(s.hist);
    RunsKeepInv(cfg, img, acts);
    var toGuest, toHost := Msg(e, Crc(0, t, h.sumH[(e, t)])), Msg(e, Crc(1, t, h.sumG[(e, t)]));
    if toGuest in s.down.q {
      var i :| 0 <= i < |s.down.q| && s.down.q[i] == toGuest;
      DownMembers(cfg, h, s.down.q, s.down.spot, s.down.tip, i);
      RecordFlags(cfg, s.guest, h.sumG, e, t, h.sumH[(e, t)], 0);
    } else {
      var i :| 0 <= i < |s.up.q| && s.up.q[i] == toHost;
      ReportAhead(cfg, h, s.up.q, s.up.spot, s.up.tip, i);
      RecordFlags(cfg, s.host, h.sumH, e, t, h.sumG[(e, t)], 1);
    }
  }

  lemma RecordFlags(cfg: Cfg, c: Console, sums: map<(nat, nat), word>, e: nat, t: nat, v: word, seat: nat)
    requires RecordsOK(c.own, c.tick, sums, e, true) && (e, t) in sums && sums[(e, t)] != v
    requires c.tick <= t + 256 && !c.hold && !c.pend
    ensures OnFrame(cfg, c, Crc(seat, t, v)).0.pend
  {
  }

  /** A report of epoch e still in flight is for a tick at most d + 1 behind the receiver's position. */
  lemma {:induction false} ReportAhead(cfg: Cfg, h: Hist, q: seq<Msg>, s: Spot, t: Spot, i: nat)
    requires UpOK(cfg, h, q, s, t) && i < |q| && q[i].f.Crc? && HistOK(cfg, h)
    ensures s.Run? && s.e <= q[i].epoch < |h.first|
    ensures q[i].f.tick + cfg.d + 1 >= Catch(h, s, q[i].epoch).n
    decreases |q|
  {
    if i > 0 {
      var r := AdvanceUp(h, s, q[0]);
      ReportAhead(cfg, h, q[1..], r, t, i - 1);
    }
  }

  /** A pending guest of the host's epoch has made the host pending or its request is in flight. */
  lemma GuestIsHeard(cfg: Cfg, img: Image, acts: seq<Action>)
    requires Covered(cfg, img, acts)
    ensures var s := Exec(cfg, Init(cfg, img), acts);
            s.guest.pend ==>
              || EpochH(s.hist) > EpochG(s.hist)
              || s.host.pend
              || exists m :: m in s.up.q && m.f.Resync? && m.epoch == EpochG(s.hist)
  {
    hide HostOK, GuestOK, GuestSpotOK, NoLoss, CleanSums, DownOK, UpOK;
    var s := Exec(cfg, Init(cfg, img), acts);
    RunsKeepInv(cfg, img, acts);
    EpochsOrdered(cfg, s.hist);
    if s.guest.pend && EpochH(s.hist) == EpochG(s.hist) && !s.host.pend {
      var i := AskedInFlight(cfg, s.hist, s.up.q, s.up.spot, s.up.tip);
      assert s.up.q[i] in s.up.q;
    }
  }

  /** From any reachable state with a pending host, as long as it has not pushed, the host stays
      pending and its wait counter counts every tick it completes; so it completes fewer than 60. */
  lemma {:induction false} HostPushesInTime(cfg: Cfg, s: Sys, acts: seq<Action>)
    requires Inv(cfg, s) && s.host.pend
    ensures var s' := Exec(cfg, s, acts);
            EpochH(s'.hist) == EpochH(s.hist) ==>
              && s'.host.pend && Inv(cfg, s')
              && s'.host.tick - s.host.tick == s'.host.ptmo - s.host.ptmo
              && s'.host.ptmo < RS_PEND_MAX
    ensures EpochH(Exec(cfg, s, acts).hist) >= EpochH(s.hist)
    decreases |acts|
  {
    hide Inv, Step, Enabled;
    if acts == [] {
      WaitBelowCap(cfg, s);
    } else {
      var s1, a := Exec(cfg, s, acts[..|acts| - 1]), acts[|acts| - 1];
      HostPushesInTime(cfg, s, acts[..|acts| - 1]);
      StepEpoch(cfg, s1, a);
      if Enabled(s1, a) && EpochH(Step(cfg, s1, a).hist) == EpochH(s.hist) {
        DelayHolds(cfg, s1);
        StepInv(cfg, s1, a);
        PendingStep(cfg, s1, a);
        WaitBelowCap(cfg, Step(cfg, s1, a));
      }
    }
  }

  lemma DelayHolds(cfg: Cfg, s: Sys)
    requires Inv(cfg, s)
    ensures EpochH(s.hist) > 0 ==> cfg.d <= 15
  {
  }

  lemma WaitBelowCap(cfg: Cfg, s: Sys)
    requires Inv(cfg, s) && s.host.pend
    ensures s.host.ptmo < RS_PEND_MAX
  {
  }

  /** The host is as pending as before and has counted what it has completed. */
  ghost predicate Counted(s: Sys, s': Sys) {
    s'.host.pend && s'.host.tick - s.host.tick == s'.host.ptmo - s.host.ptmo
  }

  lemma PumpCounted(cfg: Cfg, s: Sys, k: nat)
    requires Inv(cfg, s) && s.host.pend
    ensures MayPump(s.host, k) ==> Counted(s, PumpHost(cfg, s, k)) && !PumpHost(cfg, s, k).host.hold
    ensures PumpGuest(cfg, s, k).host == s.host
  {
    hide Inv, PumpHost, PumpGuest;
    PumpGuestEpoch(cfg, s, k);
    if MayPump(s.host, k) { PumpHostInv(cfg, s, k); }
  }

  lemma FinishCounted(cfg: Cfg, s: Sys)
    requires s.host.pend && !s.host.hold && s.host.seat == 0 && EpochH(FinishHost(cfg, s).hist) == EpochH(s.hist)
    ensures Counted(s, FinishHost(cfg, s))
  {
    hide RunTick, Tagged, DeadBall, PushFrames;
    RunTickFrame(cfg, s.host);
    RunTickAdvances(cfg, s.host);
  }

  lemma PendingStep(cfg: Cfg, s: Sys, a: Action)
    requires Inv(cfg, s) && s.host.pend && Enabled(s, a) && EpochH(Step(cfg, s, a).hist) == EpochH(s.hist)
    ensures Counted(s, Step(cfg, s, a))
  {
    hide Inv, PumpHost, PumpGuest, SendUp, Tagged, FinishHost, RunTick;
    HostNeverHolds(cfg, s);
    HostSeat(cfg, s);
    if a.Enter? || a.Gate? || a.Listen? { PumpCounted(cfg, s, a.k); }
    if a.Gate? && a.who == Host && !Gated(s.host) { FinishCounted(cfg, s); }
  }

  lemma HostSeat(cfg: Cfg, s: Sys)
    requires Inv(cfg, s)
    ensures s.host.seat == 0
  {
  }

  lemma RunTickAdvances(cfg: Cfg, c: Console)
    ensures RunTick(cfg, c).0.tick == c.tick + 1 && RunTick(cfg, c).0.seat == c.seat
  {
  }

  // ---- deadlock freedom ----------------------------------------------------------------------------

  /** With nothing in flight no console is in a push, the strictly slower console is not blocked at
      its gate, and the two are never blocked together. */
  lemma NoDeadlock(cfg: Cfg, img: Image, acts: seq<Action>)
    requires Covered(cfg, img, acts)
    ensures var s := Exec(cfg, Init(cfg, img), acts);
            s.up.q == [] && s.down.q == [] ==>
              && !s.host.hold && !s.guest.hold && EpochH(s.hist) == EpochG(s.hist)
              && (s.host.tick < s.guest.tick ==> !Gated(s.host))
              && (s.guest.tick < s.host.tick ==> !Gated(s.guest))
              && !(s.host.atGate && Gated(s.host) && s.guest.atGate && Gated(s.guest))
  {
    hide NoLoss, PendOK, CleanSums, HostOK, GuestOK;
    var s := Exec(cfg, Init(cfg, img), acts);
    RunsKeepInv(cfg, img, acts);
    HostFacts(cfg, s.hist, s.host, s.pureH);
    GuestFacts(cfg, s.hist, s.guest, s.pureG && !Torn(s.down.spot));
    if s.up.q == [] && s.down.q == [] {
      assert FirstOK(cfg, s.hist, EpochG(s.hist));
    }
  }
}
