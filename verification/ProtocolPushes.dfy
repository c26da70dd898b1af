/** Exactly when the host pushes: at a dead ball, or with the 60th tick it waits, and never else. */
module ProtocolPushes {
  import opened Cells
  import opened Protocol
  import opened ProtocolInv
  import opened ProtocolCapture
  import opened ProtocolTick
  import opened ProtocolPush
  import opened ProtocolDeliverUp
  import opened ProtocolDeliverDown
  import opened ProtocolRuns
  import opened ProtocolTheorems
  import opened ProtocolRecovery

  // ---- one pass ----------------------------------------------------------------------------------

  /** Everything now on its way to the guest was before, or is an input or a report. */
  ghost predicate NoStateSent(s: Sys, s': Sys) {
    forall m {:trigger m in s'.down.q} :: m in s'.down.q ==> m in s.down.q || m.f.Input? || m.f.Crc?
  }

  /** The host ends this pass in a new epoch, having sent a push of the image it then has. */
  ghost predicate PushedNow(s: Sys, s': Sys) {
    && EpochH(s'.hist) == EpochH(s.hist) + 1 && s'.hist.snap == s.hist.snap + [s'.host.img]
    && Msg(EpochH(s.hist), Begin(s.host.tick + 17)) in s'.down.q && Msg(EpochH(s.hist), End) in s'.down.q
    && s'.host.tick == s.host.tick + 17
  }

  lemma PushEnds(c: Console, e: nat)
    ensures Msg(e, Begin(c.tick + 16)) in Tagged(e, PushFrames(c)) && Msg(e, End) in Tagged(e, PushFrames(c))
  {
    var fs := PushFrames(c);
    var q := Tagged(e, fs);
    assert fs[0] == Begin(c.tick + 16) && fs[|fs| - 1] == End;
    assert q[0] == Msg(e, fs[0]) && q[|fs| - 1] == Msg(e, fs[|fs| - 1]);
  }

  lemma TickSends(cfg: Cfg, s: Sys)
    ensures var s1 := TickHost(cfg, s);
            && NoStateSent(s, s1) && s.down.q <= s1.down.q && s1.hist.base == s.hist.base && s1.hist.snap == s.hist.snap
            && s1.host.pend == s.host.pend && s1.host.ptmo == s.host.ptmo && s1.host.hold == s.host.hold
            && s1.host.seat == s.host.seat && s1.host.tick == s.host.tick + 1
  {
    hide Play, Sum, ReadRings;
  }

  /** RS_PENDING after the tick. */
  lemma PendingDecides(cfg: Cfg, s: Sys)
    requires s.host.seat == 0 && !s.host.hold
    ensures var w := s.(host := Waited(s.host));
            Pushes(w.host) <==> s.host.pend && (s.host.img[6] / 64 == 3 || s.host.ptmo + 1 >= 60)
  {
  }

  lemma PushSends(cfg: Cfg, s: Sys)
    ensures var s', e := PushHost(cfg, s), EpochH(s.hist);
            && EpochH(s'.hist) == e + 1 && s'.hist.snap == s.hist.snap + [s.host.img]
            && Msg(e, Begin(s.host.tick + 16)) in s'.down.q && Msg(e, End) in s'.down.q
            && s'.host.tick == s.host.tick + 16 && s'.host.img == s.host.img
  {
    PushEnds(s.host, EpochH(s.hist));
    hide PushFrames, Tagged;
  }

  /** A host that completes a pass pushes in it exactly when it was waiting and, after the tick, both top
      bits of image byte 6 (the phase cell $0163) are set or this is its 60th tick of waiting; otherwise
      it sends no BEGIN, no chunk and no END. */
  lemma PassDecides(cfg: Cfg, s: Sys, k: nat)
    requires Inv(cfg, s) && Enabled(s, Gate(Host, k)) && !Gated(s.host)
    ensures var s' := Step(cfg, s, Gate(Host, k));
            if s.host.pend && (s'.host.img[6] / 64 == 3 || s.host.ptmo + 1 >= 60) then PushedNow(s, s')
            else EpochH(s'.hist) == EpochH(s.hist) && NoStateSent(s, s') && s'.host.tick == s.host.tick + 1
  {
    hide Inv, TickHost, PushHost, Pushes;
    HostNeverHolds(cfg, s);
    HostSeat(cfg, s);
    var s1 := TickHost(cfg, s);
    TickSends(cfg, s);
    PendingDecides(cfg, s1);
    var s2 := s1.(host := Waited(s1.host));
    if Pushes(s2.host) { PushSends(cfg, s2); }
  }

  // ---- nothing else pushes ---------------------------------------------------------------------------

  lemma {:induction false} PumpHostSends(cfg: Cfg, s: Sys, k: nat)
    requires Inv(cfg, s) && Room(s.host, s.up.part, k)
    ensures PumpHost(cfg, s, k).down == s.down
    decreases |s.up.q|
  {
    hide Inv, Room, DeliverHost;
    if s.up.q != [] && s.up.part + k >= Size(s.up.q[0].f) {
      PumpStep(cfg, s, k);
      HostIsSilent(cfg, s);
      PumpHostSends(cfg, DeliverHost(cfg, s), s.up.part + k - Size(s.up.q[0].f));
    }
  }

  lemma HostIsSilent(cfg: Cfg, s: Sys)
    requires Inv(cfg, s) && s.up.q != []
    ensures DeliverHost(cfg, s).down == s.down
  {
    hide Inv;
    PartInv(cfg, s);
    HostSeat(cfg, s);
    HeadKinds(cfg, s.hist, s.up.spot, s.up.q[0]);
    TaggedNone(EpochH(s.hist));
  }

  lemma {:induction false} PumpGuestSends(cfg: Cfg, s: Sys, k: nat)
    ensures NoStateSent(s, PumpGuest(cfg, s, k))
    decreases |s.down.q|
  {
    hide OnFrame, SendUp, AdvanceDown;
    if s.down.q != [] && s.down.part + k >= Size(s.down.q[0].f) {
      PumpGuestSends(cfg, DeliverGuest(cfg, s), s.down.part + k - Size(s.down.q[0].f));
    }
  }

  lemma CaptureSends(cfg: Cfg, s: Sys, cell: Cell)
    ensures NoStateSent(s, CaptureHost(cfg, s, cell)) && CaptureHost(cfg, s, cell).hist.base == s.hist.base
    ensures CaptureGuest(cfg, s, cell).down == s.down && CaptureGuest(cfg, s, cell).hist.base == s.hist.base
  {
    hide SendUp;
  }

  lemma SentTwice(a: Sys, b: Sys, c: Sys)
    requires NoStateSent(a, b) && NoStateSent(b, c)
    ensures NoStateSent(a, c)
  {
  }

  /** Any other step begins no epoch and sends no part of a push. */
  lemma OthersDoNotPush(cfg: Cfg, s: Sys, a: Action)
    requires Inv(cfg, s) && Enabled(s, a) && !(a.Gate? && a.who == Host && !Gated(s.host))
    ensures var s' := Step(cfg, s, a); EpochH(s'.hist) == EpochH(s.hist) && NoStateSent(s, s')
  {
    hide Inv, PumpHost, PumpGuest, CaptureHost, CaptureGuest, TickGuest, NoStateSent;
    Same(s, Step(cfg, s, a));
    if a.Glitch? || a.Shimmer? {
    } else if a.who == Host {
      var s1 := PumpHost(cfg, s, a.k);
      PumpHostSends(cfg, s, a.k);
      PumpHostEpoch(cfg, s, a.k);
      Same(s, s1);
      if a.Enter? {
        CaptureSends(cfg, s1, a.cell);
        SentTwice(s, s1, CaptureHost(cfg, s1, a.cell));
      }
    } else {
      var s1 := PumpGuest(cfg, s, a.k);
      PumpGuestSends(cfg, s, a.k);
      PumpGuestEpoch(cfg, s, a.k);
      GuestTickSends(cfg, s);
      Same(s, TickGuest(cfg, s));
      if a.Enter? {
        CaptureSends(cfg, s1, a.cell);
        Same(s1, CaptureGuest(cfg, s1, a.cell));
        SentTwice(s, s1, CaptureGuest(cfg, s1, a.cell));
      }
    }
  }

  lemma Same(s: Sys, s': Sys)
    ensures s'.down == s.down ==> NoStateSent(s, s')
  {
  }

  lemma GuestTickSends(cfg: Cfg, s: Sys)
    ensures TickGuest(cfg, s).down == s.down && TickGuest(cfg, s).hist.base == s.hist.base
  {
    hide SendUp, RunTick;
  }

  // ---- the wait ----------------------------------------------------------------------------------------

  /** A console that begins to wait has waited no tick. */
  lemma FrameFlags(cfg: Cfg, c: Console, f: Frame)
    ensures var k := OnFrame(cfg, c, f).0; !c.pend && k.pend ==> k.ptmo == 0
  {
  }

  lemma {:induction false} PumpFlags(cfg: Cfg, s: Sys, k: nat)
    requires Inv(cfg, s) && Room(s.host, s.up.part, k)
    ensures var s' := PumpHost(cfg, s, k); (!s.host.pend || s.host.ptmo == 0) && s'.host.pend ==> s'.host.ptmo == 0
    decreases |s.up.q|
  {
    hide Inv, Room, OnFrame;
    if s.up.q != [] && s.up.part + k >= Size(s.up.q[0].f) {
      FrameFlags(cfg, s.host, s.up.q[0].f);
      PumpStep(cfg, s, k);
      PumpFlags(cfg, DeliverHost(cfg, s), s.up.part + k - Size(s.up.q[0].f));
    }
  }

  lemma WaitBegins(cfg: Cfg, s: Sys, a: Action)
    requires Inv(cfg, s) && Enabled(s, a) && !s.host.pend && Step(cfg, s, a).host.pend
    ensures Step(cfg, s, a).host.ptmo == 0
  {
    hide Inv, PumpHost, PumpGuest, SendUp, Tagged, TickHost, PushHost, RunTick;
    if a.Enter? || a.Gate? || a.Listen? {
      PumpGuestEpoch(cfg, s, a.k);
      if a.who == Host && MayPump(s.host, a.k) { PumpFlags(cfg, s, a.k); }
      TickSends(cfg, s);
    }
  }

  /** Let a step make the host wait, and let it not have pushed since.  When it then completes a pass, it
      pushes in it exactly if, after the tick, both top bits of image byte 6 are set, or it has completed
      59 ticks since it began to wait, so that this is the 60th. */
  lemma PushesExactly(cfg: Cfg, img: Image, acts: seq<Action>, a: Action, more: seq<Action>, k: nat)
    requires Covered(cfg, img, acts + [a])
    requires var s0 := Exec(cfg, Init(cfg, img), acts);
             Enabled(s0, a) && !s0.host.pend && Step(cfg, s0, a).host.pend
    requires var s1 := Exec(cfg, Init(cfg, img), acts + [a]);
             var s := Exec(cfg, s1, more);
             EpochH(s.hist) == EpochH(s1.hist) && Enabled(s, Gate(Host, k)) && !Gated(s.host)
    ensures var s1 := Exec(cfg, Init(cfg, img), acts + [a]);
            var s := Exec(cfg, s1, more);
            var s' := Step(cfg, s, Gate(Host, k));
            if s'.host.img[6] / 64 == 3 || s.host.tick - s1.host.tick >= 59 then PushedNow(s, s')
            else EpochH(s'.hist) == EpochH(s.hist) && NoStateSent(s, s')
    ensures var s1 := Exec(cfg, Init(cfg, img), acts + [a]);
            Exec(cfg, s1, more).host.tick - s1.host.tick <= 59
  {
    hide Inv, Step, Enabled, Init, PushedNow, NoStateSent;
    var s0 := Exec(cfg, Init(cfg, img), acts);
    assert (acts + [a])[..|acts|] == acts;
    var s1 := Exec(cfg, Init(cfg, img), acts + [a]);
    assert s1 == Step(cfg, s0, a);
    RunsKeepInv(cfg, img, acts + [a]);
    StepEpoch(cfg, s0, a);
    RunsKeepInv(cfg, img, acts);
    WaitBegins(cfg, s0, a);
    var s := Exec(cfg, s1, more);
    HostPushesInTime(cfg, s1, more);
    PassDecides(cfg, s, k);
  }
}
