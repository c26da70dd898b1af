/** Recovery converges: once the sims have stopped drifting, a bounded number of pushes ends the trouble. */
module ProtocolConvergence {
  import opened Cells
  import opened Protocol
  import opened ProtocolInv
  import opened ProtocolCapture
  import opened ProtocolTick
  import opened ProtocolDeliverUp
  import opened ProtocolDeliverDown
  import opened ProtocolRuns
  import opened ProtocolCaptured
  import opened ProtocolTheorems
  import opened ProtocolAgreement
  import opened ProtocolRecovery

  // ---- after the last drift --------------------------------------------------------------------

  predicate NoGlitch(acts: seq<Action>) {
    forall i :: 0 <= i < |acts| ==> !acts[i].Glitch?
  }

  lemma {:induction false} CleanKept(cfg: Cfg, s: Sys, acts: seq<Action>, more: seq<Action>)
    requires NoGlitch(more)
    ensures Exec(cfg, s, acts + more).clean == Exec(cfg, s, acts).clean
    decreases |more|
  {
    hide Step, Enabled;
    if more == [] {
      assert acts + more == acts;
    } else {
      var before, a := more[..|more| - 1], more[|more| - 1];
      assert (acts + more)[..|acts + more| - 1] == acts + before;
      CleanKept(cfg, s, acts, before);
      StepClean(cfg, Exec(cfg, s, acts + before), a);
    }
  }

  /** A report of a clean epoch changes nothing at the host and is not answered. */
  lemma CleanHead(cfg: Cfg, s: Sys)
    requires Inv(cfg, s) && s.up.q != [] && s.up.q[0].f.Crc? && s.clean <= s.up.q[0].epoch
    ensures OnFrame(cfg, s.host, s.up.q[0].f) == (s.host, [])
  {
    hide GuestSpotOK, HostSpotOK, NoLoss, PendOK, CleanSums, HostOK, GuestOK, UpHead, AdvanceUp;
    var h, c, m := s.hist, s.host, s.up.q[0];
    UpRest(cfg, h, s.up, s.down, s.guest.pend);
    HeadEpoch(cfg, h, s.up.spot, m);
    CatchSpot(cfg, h, c.wm, c.hold, c.pend, c.ptmo, s.guest.pend, s.up.spot, m.epoch);
    var r := Catch(h, s.up.spot, m.epoch);
    if r.e < EpochH(h) {
      StaleReport(cfg, h, c, s.pureH, r, m);
    } else {
      FreshReport(cfg, h, c, s.pureH, r, m);
      ReportSum(cfg, h, r, m);
      EpochsOrdered(cfg, h);
      CleanReports(cfg, h, s.clean, r.e, m.f.tick);
    }
  }

  lemma ReportSum(cfg: Cfg, h: Hist, spot: Spot, m: Msg)
    requires UpHead(cfg, h, spot, m) && m.f.Crc? && m.epoch == spot.e
    ensures (spot.e, m.f.tick) in h.sumG && m.f.sum == h.sumG[(spot.e, m.f.tick)] && spot.e <= EpochG(h)
  {
  }

  /** Of all the frames a pump of k bytes takes, the reports of epochs after `last` change nothing. */
  ghost predicate ReportsPass(cfg: Cfg, s: Sys, k: nat, last: nat)
    decreases |s.up.q|
  {
    s.up.q == [] || s.up.part + k < Size(s.up.q[0].f) ||
    (&& (s.up.q[0].f.Crc? && s.up.q[0].epoch > last ==> OnFrame(cfg, s.host, s.up.q[0].f) == (s.host, []))
     && ReportsPass(cfg, DeliverHost(cfg, s), s.up.part + k - Size(s.up.q[0].f), last))
  }

  lemma {:induction false} CleanPump(cfg: Cfg, s: Sys, k: nat, last: nat)
    requires Inv(cfg, s) && Room(s.host, s.up.part, k) && s.clean <= last + 1
    ensures ReportsPass(cfg, s, k, last)
    decreases |s.up.q|
  {
    hide Inv, OnFrame, Room;
    if s.up.q != [] && s.up.part + k >= Size(s.up.q[0].f) {
      if s.up.q[0].f.Crc? && s.up.q[0].epoch > last { CleanHead(cfg, s); }
      PumpStep(cfg, s, k);
      assert DeliverHost(cfg, s).clean == s.clean;
      CleanPump(cfg, DeliverHost(cfg, s), s.up.part + k - Size(s.up.q[0].f), last);
    }
  }

  /** What holds of a state when every epoch after `last` is clean. */
  ghost predicate Settled(cfg: Cfg, s: Sys, last: nat, k: nat) {
    var h, e := s.hist, EpochH(s.hist);
    && e + (if s.host.pend then 1 else 0) <= last + 2
    && (e > last ==> s.pureH)
    && (EpochG(h) > last ==> s.pureG && !s.guest.pend)
    && (MayPump(s.host, k) ==> ReportsPass(cfg, s, k, last))
    && (e == EpochG(h) > last ==>
          && (s.host.tick == s.guest.tick ==> Steady(s.host.img) == Steady(s.guest.img))
          && forall t {:trigger (e, t) in h.sumH} :: (e, t) in h.sumH && (e, t) in h.sumG ==> h.sumH[(e, t)] == h.sumG[(e, t)])
  }

  lemma CleanSettled(cfg: Cfg, s: Sys, last: nat, k: nat)
    requires Inv(cfg, s) && s.clean <= last + 1
    ensures Settled(cfg, s, last, k)
  {
    hide HistOK, HostOK, GuestOK, FlightOK, GuestSpotOK, HostSpotOK, NoLoss, PendOK, CleanSums, OldRequests, ReportsPass;
    if MayPump(s.host, k) {
      PartInv(cfg, s);
      CleanPump(cfg, s, k, last);
    }
    if EpochH(s.hist) == EpochG(s.hist) > last { CleanNow(cfg, s); }
  }

  lemma CleanBound(cfg: Cfg, s: Sys)
    requires Inv(cfg, s)
    ensures s.clean <= EpochH(s.hist) + 1
  {
  }

  /** Recovery converges.  Let no sim drift after some moment of a run, in which the host was in epoch
      `last`: however much later, at most two more pushes have come, one waiting included, and in any
      later epoch no sim has drifted, the guest has flagged nothing, no report changes anything, all
      reports agree and so do the sims. */
  lemma Converges(cfg: Cfg, img: Image, acts: seq<Action>, more: seq<Action>, k: nat)
    requires Covered(cfg, img, acts + more) && NoGlitch(more)
    ensures Settled(cfg, Exec(cfg, Init(cfg, img), acts + more), EpochH(Exec(cfg, Init(cfg, img), acts).hist), k)
  {
    hide Inv, Exec, Init, Settled, More;
    var s, s' := Exec(cfg, Init(cfg, img), acts), Exec(cfg, Init(cfg, img), acts + more);
    TwoMoments(cfg, img, acts, more);
    CleanKept(cfg, Init(cfg, img), acts, more);
    CleanBound(cfg, s);
    CleanSettled(cfg, s', EpochH(s.hist), k);
  }
}
