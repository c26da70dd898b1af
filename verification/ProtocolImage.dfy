/** What a push writes is the pushed image, byte for byte, where the frame interrupt leaves it alone. */
module ProtocolImage {
  import opened Cells
  import opened Protocol
  import opened ProtocolInv
  import opened ProtocolDeliverDown
  import opened ProtocolRuns
  import opened ProtocolCaptured
  import opened ProtocolTheorems
  import opened ProtocolAgreement
  import opened ProtocolRecovery

  /** Inside a push, every byte applied so far is the pushed one. */
  ghost predicate Exact(s: Sys) {
    var spot := s.down.spot;
    spot.Mid? ==> spot.e + 1 < |s.hist.snap| && spot.pos <= IMG_TOTAL && s.guest.img[..spot.pos] == s.hist.snap[spot.e + 1][..spot.pos]
  }

  lemma WrittenOn(img: Image, snap: Image, pos: nat, data: seq<byte>)
    requires pos + |data| <= IMG_TOTAL && img[..pos] == snap[..pos] && data == snap[pos..pos + |data|]
    ensures Splice(img, pos, data)[..pos + |data|] == snap[..pos + |data|]
  {
    var img', n := Splice(img, pos, data), |data|;
    assert img'[..pos + n] == img'[..pos] + img'[pos..pos + n];
    assert snap[..pos + n] == snap[..pos] + snap[pos..pos + n];
  }

  lemma DeliverExact(cfg: Cfg, s: Sys)
    requires Inv(cfg, s) && Exact(s) && s.down.q != []
    ensures Exact(DeliverGuest(cfg, s))
  {
    hide Inv, SendUp, Splice;
    PartInv(cfg, s);
    Sizes(cfg, s);
    var m := s.down.q[0];
    DownKinds(cfg, s.hist, s.down.spot, m);
    if m.f.Chunk? { WrittenOn(s.guest.img, s.hist.snap[s.down.spot.e + 1], m.f.pos, m.f.data); }
  }

  lemma {:induction false} PumpExact(cfg: Cfg, s: Sys, k: nat)
    requires Inv(cfg, s) && Exact(s) && PumpSafe(s, k)
    ensures Exact(PumpGuest(cfg, s, k))
    decreases |s.down.q|
  {
    hide Inv, PumpSafe, DeliverGuest;
    if s.down.q != [] && s.down.part + k >= Size(s.down.q[0].f) {
      DeliverExact(cfg, s);
      SafeStep(cfg, s, k);
      PumpExact(cfg, DeliverGuest(cfg, s), s.down.part + k - Size(s.down.q[0].f));
    }
  }

  lemma GuestPumpExact(cfg: Cfg, s: Sys, k: nat)
    requires Inv(cfg, s) && Exact(s) && MayPump(s.guest, k)
    ensures Exact(PumpGuest(cfg, s, k))
  {
    hide Inv, PumpGuest, Exact;
    PumpIsSafe(s, k);
    PumpExact(cfg, s, k);
  }

  lemma HostPumpExact(cfg: Cfg, s: Sys, k: nat)
    requires Exact(s)
    ensures Exact(PumpHost(cfg, s, k))
  {
    hide PumpHost;
    PumpHostGuest(cfg, s, k);
    PumpHostEpoch(cfg, s, k);
  }

  lemma HostPassExact(cfg: Cfg, s: Sys, cell: Cell)
    requires Exact(s)
    ensures Exact(CaptureHost(cfg, s, cell)) && Exact(FinishHost(cfg, s))
  {
    hide Tagged, PushFrames, RunTick, DeadBall;
  }

  lemma GuestPassExact(cfg: Cfg, s: Sys, cell: Cell)
    requires Exact(s)
    ensures Exact(CaptureGuest(cfg, s, cell)) && (!Torn(s.down.spot) ==> Exact(TickGuest(cfg, s)))
  {
    hide SendUp, RunTick;
  }

  lemma OpenNotTorn(cfg: Cfg, s: Sys)
    requires Inv(cfg, s)
    ensures s.guest.atGate && !Gated(s.guest) ==> !Torn(s.down.spot)
    ensures s.guest.hold <==> s.down.spot.Mid?
  {
    hide HistOK, HostOK, GuestOK, FlightOK, HostSpotOK, NoLoss, PendOK, CleanSums;
  }

  lemma StepExact(cfg: Cfg, s: Sys, a: Action)
    requires Inv(cfg, s) && Enabled(s, a) && Exact(s) && !(a.Shimmer? && a.who == Guest)
    ensures Exact(Step(cfg, s, a))
  {
    hide Inv, PumpHost, PumpGuest, CaptureHost, CaptureGuest, FinishHost, TickGuest;
    OpenNotTorn(cfg, s);
    if a.Glitch? || a.Shimmer? {
    } else if a.who == Host {
      HostPumpExact(cfg, s, a.k);
      if a.Enter? { HostPassExact(cfg, PumpHost(cfg, s, a.k), a.cell); } else { HostPassExact(cfg, s, IDLE); }
    } else {
      if MayPump(s.guest, a.k) { GuestPumpExact(cfg, s, a.k); }
      if a.Enter? { GuestPassExact(cfg, PumpGuest(cfg, s, a.k), a.cell); } else { GuestPassExact(cfg, s, IDLE); }
    }
  }

  predicate NoGuestShimmer(acts: seq<Action>) {
    forall i :: 0 <= i < |acts| ==> !(acts[i].Shimmer? && acts[i].who == Guest)
  }

  lemma {:induction false} ExactKept(cfg: Cfg, img: Image, acts: seq<Action>, more: seq<Action>)
    requires Covered(cfg, img, acts + more) && NoGuestShimmer(more) && Exact(Exec(cfg, Init(cfg, img), acts))
    ensures Exact(Exec(cfg, Init(cfg, img), acts + more))
    decreases |more|
  {
    hide Inv, Step, Enabled, Init, Exact;
    if more == [] {
      assert acts + more == acts;
    } else {
      var before, a := more[..|more| - 1], more[|more| - 1];
      var s0 := Init(cfg, img);
      assert (acts + more)[..|acts + more| - 1] == acts + before;
      StepEpoch(cfg, Exec(cfg, s0, acts + before), a);
      RunsKeepInv(cfg, img, acts + before);
      ExactKept(cfg, img, acts, before);
      if Enabled(Exec(cfg, s0, acts + before), a) { StepExact(cfg, Exec(cfg, s0, acts + before), a); }
    }
  }

  /** If the interrupt leaves the guest's volatile bytes alone from a moment outside the hold until END
      is next, the guest's image is the pushed one at all 767 positions. */
  lemma PushedExactly(cfg: Cfg, img: Image, acts: seq<Action>, more: seq<Action>)
    requires Covered(cfg, img, acts + more) && NoGuestShimmer(more) && !Exec(cfg, Init(cfg, img), acts).guest.hold
    ensures var s := Exec(cfg, Init(cfg, img), acts + more);
            s.down.q != [] && s.down.q[0].f.End? ==>
              && EpochG(s.hist) + 1 < |s.hist.snap|
              && s.guest.hold && s.guest.img == s.hist.snap[EpochG(s.hist) + 1]
  {
    hide Inv, Exec, Init, More;
    var s, s' := Exec(cfg, Init(cfg, img), acts), Exec(cfg, Init(cfg, img), acts + more);
    TwoMoments(cfg, img, acts, more);
    OpenNotTorn(cfg, s);
    OpenNotTorn(cfg, s');
    ExactKept(cfg, img, acts, more);
    NoTornImage(cfg, img, acts + more);
    PartInv(cfg, s');
    if s'.down.q != [] && s'.down.q[0].f.End? {
      var snap := s'.hist.snap[s'.down.spot.e + 1];
      assert s'.guest.img == s'.guest.img[..IMG_TOTAL] && snap == snap[..IMG_TOTAL];
      SpotEpoch(cfg, s');
    }
  }

  lemma SpotEpoch(cfg: Cfg, s: Sys)
    requires Inv(cfg, s)
    ensures s.down.spot.e == EpochG(s.hist)
  {
  }
}
