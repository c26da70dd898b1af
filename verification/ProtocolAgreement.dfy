/** The two consoles against each other: whoever comes to a tick of an epoch, and however much later the
    other one does, they read the same cells and their sims hold the same state. */
module ProtocolAgreement {
  import opened Cells
  import opened Protocol
  import opened ProtocolInv
  import opened ProtocolFlow
  import opened ProtocolCapture
  import opened ProtocolTick
  import opened ProtocolRuns
  import opened ProtocolCaptured
  import opened ProtocolTheorems

  function EpochOf(s: Sys, who: Who): nat { if who == Host then EpochH(s.hist) else EpochG(s.hist) }

  /** The console stands at its gate and the gate is open. */
  predicate Open(s: Sys, who: Who) { Of(s, who).atGate && !Gated(Of(s, who)) }

  /** No glitch since the last rebase, and no pushed image being written over the sim. */
  predicate Undrifted(s: Sys, who: Who) { if who == Host then s.pureH else s.pureG && !s.guest.hold }

  // ---- the history only grows -----------------------------------------------------------------

  /** Epochs and inputs are added to a history, never changed. */
  ghost predicate More(h: Hist, k: Hist) {
    h.base <= k.base && h.snap <= k.snap && RowsGrow(h.rowH, k.rowH) && RowsGrow(h.rowG, k.rowG)
  }

  lemma MoreTwice(a: Hist, b: Hist, c: Hist)
    requires More(a, b) && More(b, c)
    ensures More(a, c)
  {
    forall e {:trigger c.rowH[e]} | 0 <= e < |a.rowH| ensures a.rowH[e] <= c.rowH[e] {
      assert a.rowH[e] <= b.rowH[e] <= c.rowH[e];
    }
    forall e {:trigger c.rowG[e]} | 0 <= e < |a.rowG| ensures a.rowG[e] <= c.rowG[e] {
      assert a.rowG[e] <= b.rowG[e] <= c.rowG[e];
    }
  }

  lemma PumpGuestMore(cfg: Cfg, s: Sys, k: nat)
    ensures More(s.hist, PumpGuest(cfg, s, k).hist)
  {
    hide PumpGuest;
    PumpGuestRows(cfg, s, k);
  }

  lemma CaptureMore(cfg: Cfg, s: Sys, cell: Cell)
    ensures More(s.hist, CaptureHost(cfg, s, cell).hist) && More(s.hist, CaptureGuest(cfg, s, cell).hist)
  {
    hide SendUp, Tagged;
    ExtendGrows(s.hist.rowH, cell);
    ExtendGrows(s.hist.rowG, cell);
  }

  lemma StepMore(cfg: Cfg, s: Sys, a: Action)
    ensures More(s.hist, Step(cfg, s, a).hist)
  {
    hide PumpHost, PumpGuest, CaptureHost, CaptureGuest, FinishHost, TickGuest;
    match a
    case Enter(Host, k, cell) =>
      PumpHostEpoch(cfg, s, k);
      CaptureMore(cfg, PumpHost(cfg, s, k), cell);
    case Enter(Guest, k, cell) =>
      var s1 := PumpGuest(cfg, s, k);
      PumpGuestMore(cfg, s, k);
      CaptureMore(cfg, s1, cell);
      if !s.guest.hold { MoreTwice(s.hist, s1.hist, CaptureGuest(cfg, s1, cell).hist); }
    case Gate(Host, k) =>
      PumpHostEpoch(cfg, s, k);
      FinishHostRows(cfg, s);
    case Gate(Guest, k) =>
      PumpGuestMore(cfg, s, k);
      TickGuestRows(cfg, s);
    case Listen(Host, k) => PumpHostEpoch(cfg, s, k);
    case Listen(Guest, k) => PumpGuestMore(cfg, s, k);
    case _ =>
  }

  lemma {:induction false} RunMore(cfg: Cfg, s: Sys, acts: seq<Action>, more: seq<Action>)
    ensures More(Exec(cfg, s, acts).hist, Exec(cfg, s, acts + more).hist)
    decreases |more|
  {
    hide Step, Enabled;
    if more == [] {
      assert acts + more == acts;
    } else {
      var before, a := more[..|more| - 1], more[|more| - 1];
      assert (acts + more)[..|acts + more| - 1] == acts + before;
      var s1 := Exec(cfg, s, acts + before);
      RunMore(cfg, s, acts, before);
      if Enabled(s1, a) {
        StepMore(cfg, s1, a);
        MoreTwice(Exec(cfg, s, acts).hist, s1.hist, Step(cfg, s1, a).hist);
      }
    }
  }

  /** Both states of a covered run, and how their histories are related. */
  lemma TwoMoments(cfg: Cfg, img: Image, acts: seq<Action>, more: seq<Action>)
    requires Covered(cfg, img, acts + more)
    ensures var s, s' := Exec(cfg, Init(cfg, img), acts), Exec(cfg, Init(cfg, img), acts + more);
            Inv(cfg, s) && Inv(cfg, s') && More(s.hist, s'.hist)
  {
    hide Inv, Exec, Init;
    RunMore(cfg, Init(cfg, img), acts, more);
    RunsKeepInv(cfg, img, acts);
    RunsKeepInv(cfg, img, acts + more);
  }

  // ---- inputs -----------------------------------------------------------------------------------

  /** At an open gate the rings hold the epoch's inputs, and both rows already reach to the tick. */
  lemma GateReads(cfg: Cfg, s: Sys, who: Who)
    requires Inv(cfg, s) && Open(s, who)
    ensures var h, c, e := s.hist, Of(s, who), EpochOf(s, who);
            && e < |h.base| == |h.rowH|
            && ReadRings(c) == Inputs(h.rowH[e], Row(h.rowG, e), h.base[e] + cfg.d, c.tick)
            && c.tick < h.base[e] + cfg.d + |h.rowH[e]| && c.tick < h.base[e] + cfg.d + |Row(h.rowG, e)|
  {
    hide FlightOK, GuestSpotOK, HostSpotOK, NoLoss, PendOK, CleanSums, SumsOK, RecordsOK, ReadRings, Inputs, Sim, SendOK, RecvOK;
    var h, c, e := s.hist, Of(s, who), EpochOf(s, who);
    EpochsOrdered(cfg, h);
    TickReads(cfg, c, h.base[e], h.rowH[e], Row(h.rowG, e));
  }

  lemma RowMore(a: seq<seq<Cell>>, b: seq<seq<Cell>>, e: nat)
    requires RowsGrow(a, b)
    ensures Row(a, e) <= Row(b, e)
  {
    if e < |a| { assert a[e] <= b[e]; }
  }

  lemma InputsStay(rh: seq<Cell>, rg: seq<Cell>, rh': seq<Cell>, rg': seq<Cell>, start: int, t: int)
    requires rh <= rh' && rg <= rg' && t < start + |rh| && t < start + |rg|
    ensures Inputs(rh, rg, start, t) == Inputs(rh', rg', start, t)
  {
  }

  /** The lockstep promise: if a console stands at the open gate of tick T of an epoch, and then or at
      any later moment a console (the other one, or the same) stands at the open gate of that tick of
      that epoch, both read the same four cells. */
  lemma LockstepAgreement(cfg: Cfg, img: Image, acts: seq<Action>, more: seq<Action>, a: Who, b: Who)
    requires Covered(cfg, img, acts + more)
    requires var s, s' := Exec(cfg, Init(cfg, img), acts), Exec(cfg, Init(cfg, img), acts + more);
             Open(s, a) && Open(s', b)
             && EpochOf(s, a) == EpochOf(s', b) && Of(s, a).tick == Of(s', b).tick
    ensures var s, s' := Exec(cfg, Init(cfg, img), acts), Exec(cfg, Init(cfg, img), acts + more);
            ReadRings(Of(s, a)) == ReadRings(Of(s', b))
  {
    hide Inv, Exec, Init, ReadRings, Inputs, Open, Row;
    var s, s' := Exec(cfg, Init(cfg, img), acts), Exec(cfg, Init(cfg, img), acts + more);
    var e := EpochOf(s, a);
    TwoMoments(cfg, img, acts, more);
    GateReads(cfg, s, a);
    GateReads(cfg, s', b);
    assert s.hist.rowH[e] <= s'.hist.rowH[e];
    RowMore(s.hist.rowG, s'.hist.rowG, e);
    InputsStay(s.hist.rowH[e], Row(s.hist.rowG, e), s'.hist.rowH[e], Row(s'.hist.rowG, e), s.hist.base[e] + cfg.d, Of(s, a).tick);
  }

  // ---- sims ---------------------------------------------------------------------------------------

  /** A sim that has not drifted is its epoch's, over inputs both rows already hold. */
  lemma SimNow(cfg: Cfg, s: Sys, who: Who)
    requires Inv(cfg, s) && Undrifted(s, who)
    ensures var h, c, e := s.hist, Of(s, who), EpochOf(s, who);
            && e < |h.base| == |h.rowH| == |h.snap|
            && Steady(c.img) == Sim(cfg, h.snap[e], h.rowH[e], Row(h.rowG, e), h.base[e], c.tick)
            && c.tick <= h.base[e] + cfg.d + |h.rowH[e]| && c.tick <= h.base[e] + cfg.d + |Row(h.rowG, e)|
  {
    hide FlightOK, HostSpotOK, NoLoss, PendOK, CleanSums, SumsOK, RecordsOK, Sim;
    EpochsOrdered(cfg, s.hist);
  }

  /** The state promise: once two consoles that have not drifted have both come to tick T of an epoch,
      at whatever moments of the run, their sims are equal, volatile bytes apart. */
  lemma SimsAgree(cfg: Cfg, img: Image, acts: seq<Action>, more: seq<Action>, a: Who, b: Who)
    requires Covered(cfg, img, acts + more)
    requires var s, s' := Exec(cfg, Init(cfg, img), acts), Exec(cfg, Init(cfg, img), acts + more);
             Undrifted(s, a) && Undrifted(s', b)
             && EpochOf(s, a) == EpochOf(s', b) && Of(s, a).tick == Of(s', b).tick
    ensures var s, s' := Exec(cfg, Init(cfg, img), acts), Exec(cfg, Init(cfg, img), acts + more);
            Steady(Of(s, a).img) == Steady(Of(s', b).img)
  {
    hide Inv, Exec, Init, Sim, Undrifted, Row;
    var s, s' := Exec(cfg, Init(cfg, img), acts), Exec(cfg, Init(cfg, img), acts + more);
    var h, k, e := s.hist, s'.hist, EpochOf(s, a);
    TwoMoments(cfg, img, acts, more);
    SimNow(cfg, s, a);
    SimNow(cfg, s', b);
    assert h.rowH[e] <= k.rowH[e];
    RowMore(h.rowG, k.rowG, e);
    SimStable(cfg, h.snap[e], h.rowH[e], Row(h.rowG, e), k.rowH[e], Row(k.rowG, e), h.base[e], Of(s, a).tick);
  }
}
