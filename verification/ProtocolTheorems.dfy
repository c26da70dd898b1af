/** What the protocol promises of play, for every run: the inputs read and the simulations are
    those of what was captured, no false alarm, bounds on skew. */
module ProtocolTheorems {
  import opened Cells
  import opened Protocol
  import opened ProtocolInv
  import opened ProtocolFlow
  import opened ProtocolCapture
  import opened ProtocolTick
  import opened ProtocolPush
  import opened ProtocolDeliverUp
  import opened ProtocolDeliverDown
  import opened ProtocolRuns
  import opened ProtocolCaptured

  /** The runs the claims are about: any run with d <= 15, or, with d <= 127, one without a push. */
  ghost predicate Covered(cfg: Cfg, img: Image, acts: seq<Action>) {
    1 <= cfg.d <= 127 && (cfg.d <= 15 || EpochH(Exec(cfg, Init(cfg, img), acts).hist) == 0)
  }

  // ---- lockstep agreement ------------------------------------------------------------------

  /** What the tick must read at tick t of epoch e. */
  ghost function WantedIn(cfg: Cfg, capH: map<(nat, nat), Cell>, capG: map<(nat, nat), Cell>, e: nat, t: nat): TickIn {
    TickIn(Wanted(cfg, capH, e, t), Wanted(cfg, capH, e, t - 1), Wanted(cfg, capG, e, t), Wanted(cfg, capG, e, t - 1))
  }

  /** Whichever console opens its gate at tick T reads, for both seats and for both the current
      and the previous slot, what that seat captured d ticks earlier, or idle. */
  ghost predicate ReadsRight(cfg: Cfg, img: Image, acts: seq<Action>) {
    var s0 := Init(cfg, img);
    var s := Exec(cfg, s0, acts);
    var capH, capG := Captured(cfg, s0, acts, Host), Captured(cfg, s0, acts, Guest);
    && (s.host.atGate && !Gated(s.host) ==>
          ReadRings(s.host) == WantedIn(cfg, capH, capG, EpochH(s.hist), s.host.tick))
    && (s.guest.atGate && !Gated(s.guest) ==>
          ReadRings(s.guest) == WantedIn(cfg, capH, capG, EpochG(s.hist), s.guest.tick))
  }

  lemma ReadsCaptured(cfg: Cfg, img: Image, acts: seq<Action>)
    requires Covered(cfg, img, acts)
    ensures ReadsRight(cfg, img, acts)
  {
    hide FlightOK, GuestSpotOK, HostSpotOK, NoLoss, PendOK, CleanSums, SendOK, RecvOK, SumsOK, RecordsOK, ReadRings, Matches,
         Wanted, Inputs, In, Init, Exec;
    var s0 := Init(cfg, img);
    var s := Exec(cfg, s0, acts);
    var h := s.hist;
    var capH, capG := Captured(cfg, s0, acts, Host), Captured(cfg, s0, acts, Guest);
    RunsKeepInv(cfg, img, acts);
    RunsCapture(cfg, img, acts);
    EpochsOrdered(cfg, h);
    if s.host.atGate && !Gated(s.host) {
      var e, t := EpochH(h), s.host.tick;
      TickReads(cfg, s.host, h.base[e], h.rowH[e], Row(h.rowG, e));
      RowsWanted(cfg, h, capH, capG, e, t);
    }
    if s.guest.atGate && !Gated(s.guest) {
      var e, t := EpochG(h), s.guest.tick;
      TickReads(cfg, s.guest, h.base[e], h.rowH[e], h.rowG[e]);
      RowsWanted(cfg, h, capH, capG, e, t);
    }
  }

  lemma RowsWanted(cfg: Cfg, h: Hist, capH: map<(nat, nat), Cell>, capG: map<(nat, nat), Cell>, e: nat, t: nat)
    requires RowsAreCaptured(h, capH, capG) && e < |h.base| && |h.rowH| == |h.base|
    ensures Inputs(h.rowH[e], Row(h.rowG, e), h.base[e] + cfg.d, t) == WantedIn(cfg, capH, capG, e, t)
  {
  }

  /** The reference simulation of one epoch over the captured inputs, but for the volatile bytes. */
  ghost function RefSim(cfg: Cfg, img: Image, capH: map<(nat, nat), Cell>, capG: map<(nat, nat), Cell>, e: nat, b: nat, t: nat): Image
    decreases t
  {
    if t <= b then Steady(img)
    else Steady(Play(cfg, RefSim(cfg, img, capH, capG, e, b, t - 1), WantedIn(cfg, capH, capG, e, t - 1)))
  }

  lemma {:induction false} SimIsRef(cfg: Cfg, h: Hist, capH: map<(nat, nat), Cell>, capG: map<(nat, nat), Cell>, e: nat, img: Image, t: nat)
    requires RowsAreCaptured(h, capH, capG) && e < |h.base| && |h.rowH| == |h.base|
    ensures Sim(cfg, img, h.rowH[e], Row(h.rowG, e), h.base[e], t) == RefSim(cfg, img, capH, capG, e, h.base[e], t)
    decreases t
  {
    if t > h.base[e] {
      SimIsRef(cfg, h, capH, capG, e, img, t - 1);
      RowsWanted(cfg, h, capH, capG, e, t - 1);
    }
  }

  /** Each sim that has not drifted since its last rebase is the reference simulation of its
      epoch, volatile bytes apart, push or no push. */
  lemma SimsFollowCaptures(cfg: Cfg, img: Image, acts: seq<Action>)
    requires Covered(cfg, img, acts)
    ensures var s0 := Init(cfg, img);
            var s := Exec(cfg, s0, acts);
            var h, capH, capG := s.hist, Captured(cfg, s0, acts, Host), Captured(cfg, s0, acts, Guest);
            && |h.snap| == |h.base| && EpochG(h) <= EpochH(h)
            && (s.pureH ==>
                  Steady(s.host.img) == RefSim(cfg, h.snap[EpochH(h)], capH, capG, EpochH(h), h.base[EpochH(h)], s.host.tick))
            && (s.pureG && !s.guest.hold ==>
                  Steady(s.guest.img) == RefSim(cfg, h.snap[EpochG(h)], capH, capG, EpochG(h), h.base[EpochG(h)], s.guest.tick))
  {
    hide FlightOK, HostSpotOK, NoLoss, PendOK, CleanSums, SendOK, RecvOK, SumsOK, RecordsOK, Matches;
    var s0 := Init(cfg, img);
    var s := Exec(cfg, s0, acts);
    var h := s.hist;
    var capH, capG := Captured(cfg, s0, acts, Host), Captured(cfg, s0, acts, Guest);
    RunsKeepInv(cfg, img, acts);
    RunsCapture(cfg, img, acts);
    SimIsRef(cfg, h, capH, capG, EpochH(h), h.snap[EpochH(h)], s.host.tick);
    SimIsRef(cfg, h, capH, capG, EpochG(h), h.snap[EpochG(h)], s.guest.tick);
  }

  // ---- no false alarm ------------------------------------------------------------------------

  lemma {:induction false} PumpHostClean(cfg: Cfg, s: Sys, k: nat)
    ensures PumpHost(cfg, s, k).clean == s.clean
    decreases |s.up.q|
  {
    hide OnFrame, AdvanceUp, Tagged;
    if s.up.q != [] && s.up.part + k >= Size(s.up.q[0].f) {
      PumpHostClean(cfg, DeliverHost(cfg, s), s.up.part + k - Size(s.up.q[0].f));
    }
  }

  lemma {:induction false} PumpGuestClean(cfg: Cfg, s: Sys, k: nat)
    ensures PumpGuest(cfg, s, k).clean == s.clean
    decreases |s.down.q|
  {
    hide OnFrame, SendUp, AdvanceDown;
    if s.down.q != [] && s.down.part + k >= Size(s.down.q[0].f) {
      PumpGuestClean(cfg, DeliverGuest(cfg, s), s.down.part + k - Size(s.down.q[0].f));
    }
  }

  /** Only a glitch stains an epoch. */
  lemma StepClean(cfg: Cfg, s: Sys, a: Action)
    requires !a.Glitch?
    ensures Step(cfg, s, a).clean == s.clean
  {
    hide PumpHost, PumpGuest, SendUp, RunTick, OnFrame, Tagged, DeadBall, PushFrames;
    match a
    case Enter(Host, k, cell) => PumpHostClean(cfg, s, k);
    case Enter(Guest, k, cell) => PumpGuestClean(cfg, s, k);
    case Gate(Host, k) => PumpHostClean(cfg, s, k);
    case Gate(Guest, k) => PumpGuestClean(cfg, s, k);
    case Listen(Host, k) => PumpHostClean(cfg, s, k);
    case Listen(Guest, k) => PumpGuestClean(cfg, s, k);
    case Shimmer(who, img) =>
  }

  lemma SpellClean(cfg: Cfg, s: Sys)
    requires Inv(cfg, s) && s.clean == 0
    ensures s.pureH && s.pureG && EpochH(s.hist) == EpochG(s.hist) == 0 && !s.host.pend && !s.guest.pend
  {
    EpochsOrdered(cfg, s.hist);
  }

  /** While every epoch is clean nothing is pushed. */
  lemma CalmStep(cfg: Cfg, s: Sys, a: Action)
    requires Inv(cfg, s) && s.clean == 0 && Enabled(s, a) && !a.Glitch?
    ensures EpochH(Step(cfg, s, a).hist) == 0
  {
    hide Inv, PumpHost, PumpGuest, SendUp, RunTick, OnFrame, Tagged, DeadBall, PushFrames;
    SpellClean(cfg, s);
    match a
    case Enter(Host, k, cell) => PumpHostEpoch(cfg, s, k);
    case Enter(Guest, k, cell) => PumpGuestEpoch(cfg, s, k);
    case Gate(Host, k) =>
      PumpHostEpoch(cfg, s, k);
      RunTickFrame(cfg, s.host);
    case Gate(Guest, k) => PumpGuestEpoch(cfg, s, k);
    case Listen(Host, k) => PumpHostEpoch(cfg, s, k);
    case Listen(Guest, k) => PumpGuestEpoch(cfg, s, k);
    case Shimmer(who, img) =>
  }

  lemma {:induction false} CalmRuns(cfg: Cfg, img: Image, acts: seq<Action>)
    requires 1 <= cfg.d <= 127 && forall i :: 0 <= i < |acts| ==> !acts[i].Glitch?
    ensures Inv(cfg, Exec(cfg, Init(cfg, img), acts)) && Exec(cfg, Init(cfg, img), acts).clean == 0
    decreases |acts|
  {
    hide Inv, Step, Init;
    if acts == [] {
      InitInv(cfg, img);
      InitClean(cfg, img);
    } else {
      CalmRuns(cfg, img, acts[..|acts| - 1]);
      var s1, a := Exec(cfg, Init(cfg, img), acts[..|acts| - 1]), acts[|acts| - 1];
      if Enabled(s1, a) {
        CalmStep(cfg, s1, a);
        StepClean(cfg, s1, a);
        StepInv(cfg, s1, a);
      }
    }
  }

  lemma InitClean(cfg: Cfg, img: Image)
    ensures Init(cfg, img).clean == 0
  {
  }

  /** While no sim drifts, for every delay up to 127: no console ever flags a desync, nothing is
      ever pushed, every pair of reports agrees, and the sims are equal at equal ticks. */
  lemma NoFalseAlarm(cfg: Cfg, img: Image, acts: seq<Action>)
    requires 1 <= cfg.d <= 127 && forall i :: 0 <= i < |acts| ==> !acts[i].Glitch?
    ensures var s := Exec(cfg, Init(cfg, img), acts);
            && !s.host.pend && !s.guest.pend && !s.guest.hold && EpochH(s.hist) == EpochG(s.hist) == 0
            && (forall t {:trigger (0, t) in s.hist.sumH} ::
                  (0, t) in s.hist.sumH && (0, t) in s.hist.sumG ==> s.hist.sumH[(0, t)] == s.hist.sumG[(0, t)])
            && (s.host.tick == s.guest.tick ==> Steady(s.host.img) == Steady(s.guest.img))
  {
    hide Exec, Init;
    var s := Exec(cfg, Init(cfg, img), acts);
    CalmRuns(cfg, img, acts);
    SpellClean(cfg, s);
    CleanNow(cfg, s);
  }

  /** Consoles that share a clean epoch hold equal sims at equal ticks and have reported alike. */
  lemma CleanNow(cfg: Cfg, s: Sys)
    requires Inv(cfg, s) && EpochH(s.hist) == EpochG(s.hist) && s.clean <= EpochH(s.hist)
    ensures s.pureH && s.pureG && !s.guest.hold && !s.guest.pend
    ensures s.host.tick == s.guest.tick ==> Steady(s.host.img) == Steady(s.guest.img)
    ensures forall t {:trigger (EpochH(s.hist), t) in s.hist.sumH} ::
              (EpochH(s.hist), t) in s.hist.sumH && (EpochH(s.hist), t) in s.hist.sumG ==>
                s.hist.sumH[(EpochH(s.hist), t)] == s.hist.sumG[(EpochH(s.hist), t)]
  {
    hide FlightOK, HostSpotOK, NoLoss, PendOK, SendOK, RecvOK, SumsOK, RecordsOK, CleanSums;
    var h, e := s.hist, EpochH(s.hist);
    forall t {:trigger (e, t) in h.sumH} | (e, t) in h.sumH && (e, t) in h.sumG ensures h.sumH[(e, t)] == h.sumG[(e, t)] {
      CleanReports(cfg, h, s.clean, e, t);
    }
  }

  // ---- skew and overwriting -------------------------------------------------------------------

  lemma {:induction false} DownMembers(cfg: Cfg, h: Hist, q: seq<Msg>, s: Spot, t: Spot, i: nat)
    requires DownOK(cfg, h, q, s, t) && i < |q|
    ensures s.e <= q[i].epoch < |h.base| && q[i].epoch < |h.rowH|
    ensures q[i].f.Input? ==> h.base[q[i].epoch] + cfg.d <= q[i].f.tick < h.base[q[i].epoch] + cfg.d + |h.rowH[q[i].epoch]|
    ensures q[i].epoch == s.e && q[i].f.Crc? ==> s.Run? && q[i].f.tick + cfg.d + 1 >= s.n
    decreases |q|
  {
    if i > 0 {
      DownMembers(cfg, h, q[1..], AdvanceDown(cfg, h, s, q[0]), t, i - 1);
    }
  }

  lemma {:induction false} UpMembers(cfg: Cfg, h: Hist, q: seq<Msg>, s: Spot, t: Spot, i: nat)
    requires UpOK(cfg, h, q, s, t) && i < |q|
    ensures s.e <= q[i].epoch < |h.base| && q[i].epoch < |h.rowG|
    ensures q[i].f.Input? ==> h.base[q[i].epoch] + cfg.d <= q[i].f.tick < h.base[q[i].epoch] + cfg.d + |h.rowG[q[i].epoch]|
    ensures q[i].epoch == s.e && q[i].f.Crc? ==> s.Run? && q[i].f.tick + cfg.d + 1 >= s.n
    decreases |q|
  {
    if i > 0 {
      UpMembers(cfg, h, q[1..], AdvanceUp(h, s, q[0]), t, i - 1);
    }
  }

  /** Consoles of one epoch are at most d + 1 ticks apart, and an input in flight is for at most
      2 d + 1 ticks past its receiver's tick. */
  lemma SkewBound(cfg: Cfg, img: Image, acts: seq<Action>)
    requires Covered(cfg, img, acts)
    ensures var s := Exec(cfg, Init(cfg, img), acts);
            var h := s.hist;
            EpochH(h) == EpochG(h) ==>
              && s.host.tick <= s.guest.tick + cfg.d + 1 && s.guest.tick <= s.host.tick + cfg.d + 1
              && (forall m {:trigger m in s.up.q} :: m in s.up.q && m.f.Input? && m.epoch == EpochH(h) ==>
                    m.f.tick <= s.host.tick + 2 * cfg.d + 1)
              && (forall m {:trigger m in s.down.q} :: m in s.down.q && m.f.Input? && m.epoch == EpochG(h) ==>
                    m.f.tick <= s.guest.tick + 2 * cfg.d + 1)
  {
    hide GuestSpotOK, HostSpotOK, NoLoss, PendOK, CleanSums, HostOK, GuestOK, DownOK, UpOK;
    var s := Exec(cfg, Init(cfg, img), acts);
    var h := s.hist;
    RunsKeepInv(cfg, img, acts);
    if EpochH(h) == EpochG(h) {
      TicksClose(cfg, h, s.host, s.pureH, s.guest, s.pureG && !Torn(s.down.spot));
      HostFacts(cfg, h, s.host, s.pureH);
      GuestFacts(cfg, h, s.guest, s.pureG && !Torn(s.down.spot));
      forall m | m in s.up.q && m.f.Input? && m.epoch == EpochH(h) ensures m.f.tick <= s.host.tick + 2 * cfg.d + 1 {
        var i :| 0 <= i < |s.up.q| && s.up.q[i] == m;
        UpMembers(cfg, h, s.up.q, s.up.spot, s.up.tip, i);
      }
      forall m | m in s.down.q && m.f.Input? && m.epoch == EpochG(h) ensures m.f.tick <= s.guest.tick + 2 * cfg.d + 1 {
        var i :| 0 <= i < |s.down.q| && s.down.q[i] == m;
        DownMembers(cfg, h, s.down.q, s.down.spot, s.down.tip, i);
      }
    }
  }
}
