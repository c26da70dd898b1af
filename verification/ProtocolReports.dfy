/** Which ticks are reported: 0, 64, 128 and so on, all of them, and no others. */
module ProtocolReports {
  import opened Cells
  import opened Protocol
  import opened ProtocolInv
  import opened ProtocolCapture
  import opened ProtocolTick
  import opened ProtocolDeliverUp
  import opened ProtocolDeliverDown
  import opened ProtocolRuns
  import opened ProtocolTheorems
  import opened ProtocolRecovery

  /** Of the ticks from b to t - 1, every multiple of 64 has been reported in epoch e. */
  ghost predicate AllReported(sums: map<(nat, nat), word>, e: nat, b: nat, t: nat) {
    forall u: nat {:trigger (e, u) in sums} :: b <= u < t && u % 64 == 0 ==> (e, u) in sums
  }

  ghost predicate HostReported(s: Sys) {
    AllReported(s.hist.sumH, EpochH(s.hist), s.hist.base[EpochH(s.hist)], s.host.tick)
  }

  ghost predicate GuestReported(s: Sys) {
    EpochG(s.hist) < |s.hist.base| ==> AllReported(s.hist.sumG, EpochG(s.hist), s.hist.base[EpochG(s.hist)], s.guest.tick)
  }

  lemma TickHostReports(cfg: Cfg, s: Sys)
    requires HostReported(s)
    ensures HostReported(TickHost(cfg, s))
  {
    hide Play, Sum, ReadRings, Tagged;
  }

  lemma FinishReports(cfg: Cfg, s: Sys)
    requires HostReported(s)
    ensures HostReported(FinishHost(cfg, s)) && FinishHost(cfg, s).hist.sumG == s.hist.sumG
  {
    hide RunTick, Tagged, PushFrames, Pushes;
    TickHostReports(cfg, s);
  }

  lemma TickGuestReports(cfg: Cfg, s: Sys)
    requires GuestReported(s)
    ensures GuestReported(TickGuest(cfg, s)) && TickGuest(cfg, s).hist.sumH == s.hist.sumH
  {
    hide Play, Sum, ReadRings, SendUp;
  }

  lemma DeliverReports(cfg: Cfg, s: Sys)
    requires Inv(cfg, s) && s.down.q != [] && GuestReported(s)
    ensures GuestReported(DeliverGuest(cfg, s)) && DeliverGuest(cfg, s).hist.sumH == s.hist.sumH
  {
    hide Inv, OnFrame, SendUp, AdvanceDown;
    PartInv(cfg, s);
    DownKinds(cfg, s.hist, s.down.spot, s.down.q[0]);
    FrameKeepsPass(cfg, s.guest, s.down.q[0].f);
    if s.down.q[0].f.End? && s.guest.hold {
      Resumes(cfg, s);
    }
  }

  lemma Resumes(cfg: Cfg, s: Sys)
    requires Inv(cfg, s) && s.guest.hold
    ensures EpochG(s.hist) + 1 < |s.hist.base| && OnFrame(cfg, s.guest, End).0.tick == s.hist.base[EpochG(s.hist) + 1]
  {
    hide HostOK, GuestOK, FlightOK, HostSpotOK, NoLoss, PendOK, CleanSums;
  }

  lemma {:induction false} PumpGuestReports(cfg: Cfg, s: Sys, k: nat)
    requires Inv(cfg, s) && PumpSafe(s, k) && GuestReported(s)
    ensures GuestReported(PumpGuest(cfg, s, k)) && PumpGuest(cfg, s, k).hist.sumH == s.hist.sumH
    decreases |s.down.q|
  {
    hide Inv, PumpSafe, DeliverGuest;
    if s.down.q != [] && s.down.part + k >= Size(s.down.q[0].f) {
      DeliverReports(cfg, s);
      SafeStep(cfg, s, k);
      PumpGuestReports(cfg, DeliverGuest(cfg, s), s.down.part + k - Size(s.down.q[0].f));
    }
  }

  ghost predicate BothReported(s: Sys) {
    HostReported(s) && GuestReported(s)
  }

  lemma CaptureReports(cfg: Cfg, s: Sys, cell: Cell)
    requires BothReported(s)
    ensures BothReported(CaptureHost(cfg, s, cell)) && BothReported(CaptureGuest(cfg, s, cell))
  {
    hide SendUp, Tagged;
  }

  lemma HostPumpReports(cfg: Cfg, s: Sys, k: nat)
    requires Inv(cfg, s) && BothReported(s) && MayPump(s.host, k)
    ensures BothReported(PumpHost(cfg, s, k))
  {
    hide Inv, PumpHost;
    PumpHostForward(cfg, s, k);
    PumpHostEpoch(cfg, s, k);
  }

  lemma GuestPumpReports(cfg: Cfg, s: Sys, k: nat)
    requires Inv(cfg, s) && BothReported(s) && MayPump(s.guest, k)
    ensures BothReported(PumpGuest(cfg, s, k))
  {
    hide Inv, PumpGuest;
    PumpIsSafe(s, k);
    PumpGuestReports(cfg, s, k);
    PumpGuestForward(cfg, s, k);
    PumpGuestEpoch(cfg, s, k);
  }

  lemma PassReports(cfg: Cfg, s: Sys)
    requires Inv(cfg, s) && BothReported(s)
    ensures BothReported(FinishHost(cfg, s)) && BothReported(TickGuest(cfg, s))
  {
    hide Inv, FinishHost, TickGuest;
    FinishReports(cfg, s);
    TickGuestReports(cfg, s);
    PassRest(cfg, s);
    EpochsFit(cfg, s);
  }

  lemma EpochsFit(cfg: Cfg, s: Sys)
    requires Inv(cfg, s)
    ensures EpochG(s.hist) < |s.hist.base|
  {
    EpochsOrdered(cfg, s.hist);
  }

  lemma PassRest(cfg: Cfg, s: Sys)
    ensures var s' := FinishHost(cfg, s); s'.guest == s.guest && s'.hist.rowG == s.hist.rowG && s.hist.base <= s'.hist.base
    ensures var s' := TickGuest(cfg, s); s'.host == s.host && s'.hist.base == s.hist.base && s'.hist.rowG == s.hist.rowG
  {
    hide SendUp, RunTick, Tagged, PushFrames, Pushes;
  }

  lemma StepReports(cfg: Cfg, s: Sys, a: Action)
    requires Inv(cfg, s) && Enabled(s, a) && BothReported(s)
    ensures BothReported(Step(cfg, s, a))
  {
    hide Inv, PumpHost, PumpGuest, CaptureHost, CaptureGuest, FinishHost, TickGuest;
    if a.Glitch? || a.Shimmer? {
    } else {
      PassReports(cfg, s);
      if a.who == Host {
        if MayPump(s.host, a.k) { HostPumpReports(cfg, s, a.k); }
        if a.Enter? { CaptureReports(cfg, PumpHost(cfg, s, a.k), a.cell); }
      } else {
        if MayPump(s.guest, a.k) { GuestPumpReports(cfg, s, a.k); }
        if a.Enter? { CaptureReports(cfg, PumpGuest(cfg, s, a.k), a.cell); }
      }
    }
  }

  lemma {:induction false} RunsReport(cfg: Cfg, img: Image, acts: seq<Action>)
    requires Covered(cfg, img, acts)
    ensures BothReported(Exec(cfg, Init(cfg, img), acts))
    decreases |acts|
  {
    hide Inv, Step, Init, Enabled, BothReported;
    if acts == [] {
      InitReports(cfg, img);
    } else {
      var s1, a := Exec(cfg, Init(cfg, img), acts[..|acts| - 1]), acts[|acts| - 1];
      StepEpoch(cfg, s1, a);
      RunsKeepInv(cfg, img, acts[..|acts| - 1]);
      RunsReport(cfg, img, acts[..|acts| - 1]);
      if Enabled(s1, a) { StepReports(cfg, s1, a); }
    }
  }

  lemma InitReports(cfg: Cfg, img: Image)
    ensures BothReported(Init(cfg, img))
  {
  }

  /** In every run each console has reported, of the ticks it has completed in its epoch, exactly those
      that are multiples of 64. */
  lemma ReportsMade(cfg: Cfg, img: Image, acts: seq<Action>, t: nat)
    requires Covered(cfg, img, acts)
    ensures var s := Exec(cfg, Init(cfg, img), acts);
            var h := s.hist;
            && EpochG(h) < |h.base|
            && ((EpochH(h), t) in h.sumH <==> h.base[EpochH(h)] <= t < s.host.tick && t % 64 == 0)
            && ((EpochG(h), t) in h.sumG <==> h.base[EpochG(h)] <= t < s.guest.tick && t % 64 == 0)
  {
    hide Exec, Init, FlightOK, GuestSpotOK, HostSpotOK, NoLoss, PendOK, CleanSums, SendOK, RecvOK, RecordsOK;
    var s := Exec(cfg, Init(cfg, img), acts);
    RunsKeepInv(cfg, img, acts);
    RunsReport(cfg, img, acts);
    EpochsFit(cfg, s);
  }
}
