/** Pumps, whole steps and whole runs keep the invariant. */
module ProtocolRuns {
  import opened Cells
  import opened Protocol
  import opened ProtocolInv
  import opened ProtocolCapture
  import opened ProtocolTick
  import opened ProtocolPush
  import opened ProtocolDeliverUp
  import opened ProtocolDeliverDown

  // ---- pumps -----------------------------------------------------------------------------

  lemma PartInv(cfg: Cfg, s: Sys)
    requires Inv(cfg, s)
    ensures PartOK(s.up) && PartOK(s.down)
    ensures s.down.q != [] ==> DownHead(cfg, s.hist, s.down.spot, s.down.q[0])
    ensures s.up.q != [] ==> UpHead(cfg, s.hist, s.up.spot, s.up.q[0])
    ensures s.guest.hold <==> s.down.spot.Mid?
  {
  }

  lemma BytesArrive(cfg: Cfg, s: Sys, up: nat, down: nat)
    requires Inv(cfg, s) && PartOK(s.up.(part := up)) && PartOK(s.down.(part := down))
    ensures Inv(cfg, s.(up := s.up.(part := up), down := s.down.(part := down)))
  {
  }

  /** In the gate loop, k more bytes cannot carry the watermark far past the tick: an input takes
      seven of them, but for a head frame of which some were read before. */
  ghost predicate Room(c: Console, part: nat, k: nat) {
    c.atGate ==> c.wm + k + (if part > 0 then 7 else 0) <= c.tick + 240
  }

  /** A console may pump k bytes between passes, or at a gate that is shut. */
  predicate MayPump(c: Console, k: nat) { k <= 64 && (c.atGate ==> Gated(c)) }

  lemma {:induction false} PumpHostInv(cfg: Cfg, s: Sys, k: nat)
    requires Inv(cfg, s) && Room(s.host, s.up.part, k)
    ensures Inv(cfg, PumpHost(cfg, s, k))
    ensures PumpHost(cfg, s, k).host.atGate == s.host.atGate && !PumpHost(cfg, s, k).host.hold
    ensures PumpHost(cfg, s, k).host.tick == s.host.tick
    ensures s.host.pend ==> PumpHost(cfg, s, k).host.pend && PumpHost(cfg, s, k).host.ptmo == s.host.ptmo
    decreases |s.up.q|
  {
    hide Inv, OnFrame, Room, DeliverHost;
    PartInv(cfg, s);
    HostNeverHolds(cfg, s);
    if s.up.q == [] {
    } else if s.up.part + k < Size(s.up.q[0].f) {
      BytesArrive(cfg, s, s.up.part + k, s.down.part);
      assert s.(up := s.up.(part := s.up.part + k), down := s.down.(part := s.down.part)) == PumpHost(cfg, s, k);
    } else {
      PumpStep(cfg, s, k);
      PumpHostInv(cfg, DeliverHost(cfg, s), s.up.part + k - Size(s.up.q[0].f));
    }
  }

  /** Taking the head frame leaves room for the rest of the pump. */
  lemma PumpStep(cfg: Cfg, s: Sys, k: nat)
    requires Inv(cfg, s) && Room(s.host, s.up.part, k) && s.up.q != [] && s.up.part + k >= Size(s.up.q[0].f)
    ensures var s1 := DeliverHost(cfg, s);
            && Inv(cfg, s1) && Room(s1.host, s1.up.part, s.up.part + k - Size(s.up.q[0].f)) && |s1.up.q| < |s.up.q|
            && s1.host.atGate == s.host.atGate && !s1.host.hold && s1.host.tick == s.host.tick
            && (s.host.pend ==> s1.host.pend && s1.host.ptmo == s.host.ptmo)
  {
    hide Inv, OnFrame;
    PartInv(cfg, s);
    HostNeverHolds(cfg, s);
    DeliverHostInv(cfg, s);
    HeadKinds(cfg, s.hist, s.up.spot, s.up.q[0]);
    FrameKeepsPass(cfg, s.host, s.up.q[0].f);
  }

  lemma HostNeverHolds(cfg: Cfg, s: Sys)
    requires Inv(cfg, s)
    ensures !s.host.hold
  {
  }

  lemma FrameKeepsPass(cfg: Cfg, c: Console, f: Frame)
    ensures OnFrame(cfg, c, f).0.atGate == c.atGate && OnFrame(cfg, c, f).0.seat == c.seat
    ensures f.Input? || f.Crc? || f.Resync? ==> OnFrame(cfg, c, f).0.hold == c.hold && OnFrame(cfg, c, f).0.tick == c.tick
    ensures f.Begin? ==> OnFrame(cfg, c, f).0.hold
    ensures f.Begin? || f.Chunk? ==> OnFrame(cfg, c, f).0.wm == c.wm && OnFrame(cfg, c, f).0.tick == c.tick
    ensures f.Chunk? ==> OnFrame(cfg, c, f).0.hold == c.hold
    ensures f.End? ==> !OnFrame(cfg, c, f).0.hold
    ensures (f.Input? || f.Crc? || f.Resync?) && c.pend ==> OnFrame(cfg, c, f).0.pend && OnFrame(cfg, c, f).0.ptmo == c.ptmo
  {
  }

  /** No push is open, or one has just been opened and its first chunk, 100 bytes long, cannot
      arrive within the k bytes that are left of this pump. */
  ghost predicate Fresh(s: Sys, k: nat) {
    k <= 64 && (s.guest.hold ==> s.down.spot.Mid? && s.down.spot.pos == 0 && s.down.part == 0)
  }

  /** The head frame of such a pump is neither a chunk nor END, and the rest of the pump is as fresh. */
  lemma FreshStep(cfg: Cfg, s: Sys, k: nat)
    requires Inv(cfg, s) && Fresh(s, k) && Room(s.guest, s.down.part, k)
    requires s.down.q != [] && s.down.part + k >= Size(s.down.q[0].f)
    ensures var s1, k1 := DeliverGuest(cfg, s), s.down.part + k - Size(s.down.q[0].f);
            && Inv(cfg, s1) && Fresh(s1, k1) && Room(s1.guest, s1.down.part, k1) && |s1.down.q| < |s.down.q|
            && s1.guest.atGate == s.guest.atGate && s1.guest.tick >= s.guest.tick
  {
    hide Inv, OnFrame, DeliverGuest;
    var f := s.down.q[0].f;
    PartInv(cfg, s);
    DownKinds(cfg, s.hist, s.down.spot, s.down.q[0]);
    assert !f.Chunk? && !f.End? by { FirstChunk(cfg, s); }
    DeliverDataInv(cfg, s);
    DeliverData(cfg, s);
    FrameKeepsPass(cfg, s.guest, f);
  }

  lemma FreshWhole(cfg: Cfg, s: Sys, k: nat)
    requires Inv(cfg, s) && Fresh(s, k)
    ensures !Torn(s.down.spot)
  {
    hide Inv;
    PartInv(cfg, s);
  }

  /** A pump that starts outside a hold applies no chunk, and keeps the invariant. */
  lemma {:induction false} PumpFresh(cfg: Cfg, s: Sys, k: nat)
    requires Inv(cfg, s) && Fresh(s, k) && Room(s.guest, s.down.part, k)
    ensures Inv(cfg, PumpGuest(cfg, s, k)) && !Torn(PumpGuest(cfg, s, k).down.spot)
    ensures PumpGuest(cfg, s, k).guest.atGate == s.guest.atGate && PumpGuest(cfg, s, k).guest.tick >= s.guest.tick
    decreases |s.down.q|
  {
    hide Inv, OnFrame, DeliverGuest, Fresh, Room, Torn;
    PartInv(cfg, s);
    FreshWhole(cfg, s, k);
    if s.down.q == [] {
    } else if s.down.part + k < Size(s.down.q[0].f) {
      BytesArrive(cfg, s, s.up.part, s.down.part + k);
      assert s.(up := s.up.(part := s.up.part), down := s.down.(part := s.down.part + k)) == PumpGuest(cfg, s, k);
    } else {
      var f := s.down.q[0].f;
      FreshStep(cfg, s, k);
      PumpFresh(cfg, DeliverGuest(cfg, s), s.down.part + k - Size(f));
    }
  }

  lemma FirstChunk(cfg: Cfg, s: Sys)
    requires s.down.q != [] && DownHead(cfg, s.hist, s.down.spot, s.down.q[0])
    ensures s.down.spot.Mid? && s.down.spot.pos == 0 ==> Size(s.down.q[0].f) == 100
  {
  }

  lemma DeliverData(cfg: Cfg, s: Sys)
    requires s.down.q != [] && !s.down.q[0].f.End?
    ensures var s' := DeliverGuest(cfg, s);
            && s'.guest == OnFrame(cfg, s.guest, s.down.q[0].f).0
            && s'.down == s.down.(q := s.down.q[1..], part := 0, spot := AdvanceDown(cfg, s.hist, s.down.spot, s.down.q[0]))
            && s'.hist == s.hist && s'.host == s.host
  {
  }

  /** The resume tick lies ahead of every tick the guest can have reached. */
  lemma EndForward(cfg: Cfg, s: Sys)
    requires Inv(cfg, s) && s.guest.hold
    ensures s.guest.tick < s.guest.resume == OnFrame(cfg, s.guest, End).0.tick
    ensures OnFrame(cfg, s.guest, End).0.wm <= s.guest.resume + 126
  {
    hide HostOK, FlightOK, HostSpotOK, NoLoss, PendOK, CleanSums;
    GuestFacts(cfg, s.hist, s.guest, s.pureG && !Torn(s.down.spot));
  }

  lemma DeliverEnd(cfg: Cfg, s: Sys)
    requires s.down.q != [] && s.down.q[0].f.End?
    ensures DeliverGuest(cfg, s).guest == OnFrame(cfg, s.guest, s.down.q[0].f).0
    ensures |DeliverGuest(cfg, s).down.q| == |s.down.q| - 1 && DeliverGuest(cfg, s).down.part == 0
  {
  }

  /** In a hold, the gate of a pass still under way being shut. */
  predicate Held(g: Console) { g.hold && (g.atGate ==> Gated(g)) }

  /** Taking the head frame in a hold stays in it, or ends it with a whole epoch before the next chunk. */
  lemma HeldStep(cfg: Cfg, s: Sys, k: nat)
    requires Inv(cfg, s) && k <= 64 && Held(s.guest) && Room(s.guest, s.down.part, k)
    requires s.down.q != [] && s.down.part + k >= Size(s.down.q[0].f)
    ensures var s1, k1 := DeliverGuest(cfg, s), s.down.part + k - Size(s.down.q[0].f);
            && Inv(cfg, s1) && Room(s1.guest, s1.down.part, k1) && |s1.down.q| < |s.down.q| && k1 <= 64
            && s1.guest.atGate == s.guest.atGate && s1.guest.tick >= s.guest.tick
            && (if s.down.q[0].f.End? then Fresh(s1, k1) else Held(s1.guest))
  {
    hide Inv, OnFrame, DeliverGuest;
    var f := s.down.q[0].f;
    PartInv(cfg, s);
    DownKinds(cfg, s.hist, s.down.spot, s.down.q[0]);
    FrameKeepsPass(cfg, s.guest, f);
    if f.End? {
      DeliverEndInv(cfg, s);
      DeliverEnd(cfg, s);
      EndForward(cfg, s);
    } else {
      DeliverDataInv(cfg, s);
      DeliverData(cfg, s);
    }
  }

  /** A pump inside a hold. */
  lemma {:induction false} PumpHeld(cfg: Cfg, s: Sys, k: nat)
    requires Inv(cfg, s) && k <= 64 && Held(s.guest) && Room(s.guest, s.down.part, k)
    ensures Inv(cfg, PumpGuest(cfg, s, k))
    ensures PumpGuest(cfg, s, k).guest.atGate == s.guest.atGate && PumpGuest(cfg, s, k).guest.tick >= s.guest.tick
    decreases |s.down.q|
  {
    hide Inv, OnFrame, DeliverGuest, Fresh, Room, Held;
    PartInv(cfg, s);
    if s.down.q == [] {
    } else if s.down.part + k < Size(s.down.q[0].f) {
      BytesArrive(cfg, s, s.up.part, s.down.part + k);
      assert s.(up := s.up.(part := s.up.part), down := s.down.(part := s.down.part + k)) == PumpGuest(cfg, s, k);
    } else {
      var s1, k1 := DeliverGuest(cfg, s), s.down.part + k - Size(s.down.q[0].f);
      HeldStep(cfg, s, k);
      if s.down.q[0].f.End? { PumpFresh(cfg, s1, k1); } else { PumpHeld(cfg, s1, k1); }
    }
  }

  /** The pumps the guest can make, and what is left of one after any of its frames. */
  ghost predicate PumpSafe(s: Sys, k: nat) {
    k <= 64 && (Fresh(s, k) || Held(s.guest)) && Room(s.guest, s.down.part, k)
  }

  lemma PumpIsSafe(s: Sys, k: nat)
    requires MayPump(s.guest, k)
    ensures PumpSafe(s, k)
  {
  }

  lemma SafeStep(cfg: Cfg, s: Sys, k: nat)
    requires Inv(cfg, s) && PumpSafe(s, k) && s.down.q != [] && s.down.part + k >= Size(s.down.q[0].f)
    ensures var s1, k1 := DeliverGuest(cfg, s), s.down.part + k - Size(s.down.q[0].f);
            Inv(cfg, s1) && PumpSafe(s1, k1) && |s1.down.q| < |s.down.q|
  {
    hide Inv, DeliverGuest, Held, Room;
    if Fresh(s, k) { FreshStep(cfg, s, k); } else { HeldStep(cfg, s, k); }
  }

  /** Any pump the guest makes: outside its gate, or at a gate that is shut. */
  lemma PumpGuestInv(cfg: Cfg, s: Sys, k: nat)
    requires Inv(cfg, s) && MayPump(s.guest, k)
    ensures Inv(cfg, PumpGuest(cfg, s, k)) && (!s.guest.hold ==> !Torn(PumpGuest(cfg, s, k).down.spot))
    ensures PumpGuest(cfg, s, k).guest.atGate == s.guest.atGate && PumpGuest(cfg, s, k).guest.tick >= s.guest.tick
  {
    hide Inv, PumpGuest, Torn;
    if s.guest.hold { PumpHeld(cfg, s, k); } else { PumpFresh(cfg, s, k); }
  }

  // ---- steps and runs ----------------------------------------------------------------------

  lemma StepInv(cfg: Cfg, s: Sys, a: Action)
    requires Inv(cfg, s) && Enabled(s, a)
    requires EpochH(Step(cfg, s, a).hist) > 0 ==> cfg.d <= 15
    ensures Inv(cfg, Step(cfg, s, a))
  {
    hide Inv, PumpHost, PumpGuest, CaptureHost, CaptureGuest, FinishHost, TickGuest;
    match a
    case Enter(Host, k, cell) =>
      HostNeverHolds(cfg, s);
      PumpHostInv(cfg, s, k);
      CaptureHostInv(cfg, PumpHost(cfg, s, k), cell);
    case Enter(Guest, k, cell) =>
      PumpGuestInv(cfg, s, k);
      if !s.guest.hold { CaptureGuestInv(cfg, PumpGuest(cfg, s, k), cell); }
    case Gate(Host, k) =>
      if Gated(s.host) { PumpHostInv(cfg, s, k); } else { FinishHostInv(cfg, s); }
    case Gate(Guest, k) =>
      if Gated(s.guest) { PumpGuestInv(cfg, s, k); } else { TickGuestInv(cfg, s); }
    case Listen(Host, k) =>
      PumpHostInv(cfg, s, k);
    case Listen(Guest, k) =>
      PumpGuestInv(cfg, s, k);
    case Glitch(who, img) =>
      GlitchInv(cfg, s, who, img);
    case Shimmer(who, img) =>
      ShimmerInv(cfg, s, who, img);
  }

  lemma {:induction false} PumpHostEpoch(cfg: Cfg, s: Sys, k: nat)
    ensures PumpHost(cfg, s, k).hist == s.hist && PumpHost(cfg, s, k).host.atGate == s.host.atGate
    decreases |s.up.q|
  {
    if s.up.q != [] && s.up.part + k >= Size(s.up.q[0].f) {
      FrameKeepsPass(cfg, s.host, s.up.q[0].f);
      PumpHostEpoch(cfg, DeliverHost(cfg, s), s.up.part + k - Size(s.up.q[0].f));
    }
  }

  lemma {:induction false} PumpGuestEpoch(cfg: Cfg, s: Sys, k: nat)
    ensures PumpGuest(cfg, s, k).hist.base == s.hist.base && PumpGuest(cfg, s, k).host == s.host
    decreases |s.down.q|
  {
    if s.down.q != [] && s.down.part + k >= Size(s.down.q[0].f) {
      PumpGuestEpoch(cfg, DeliverGuest(cfg, s), s.down.part + k - Size(s.down.q[0].f));
    }
  }

  /** The host's epoch never goes back. */
  lemma StepEpoch(cfg: Cfg, s: Sys, a: Action)
    ensures s.hist.base <= Step(cfg, s, a).hist.base
  {
    hide PumpHost, PumpGuest, SendUp, RunTick, OnFrame, Capture, PushFrames;
    match a
    case Enter(Host, k, cell) => PumpHostEpoch(cfg, s, k);
    case Enter(Guest, k, cell) => PumpGuestEpoch(cfg, s, k);
    case Gate(Host, k) => PumpHostEpoch(cfg, s, k);
    case Gate(Guest, k) => PumpGuestEpoch(cfg, s, k);
    case Listen(Host, k) => PumpHostEpoch(cfg, s, k);
    case Listen(Guest, k) => PumpGuestEpoch(cfg, s, k);
    case _ =>
  }

  /** Every reachable state satisfies the invariant, for delays up to 127 while no push has
      happened and for delays up to 15 in any run. */
  lemma {:induction false} RunsKeepInv(cfg: Cfg, img: Image, acts: seq<Action>)
    requires 1 <= cfg.d <= 127
    requires cfg.d <= 15 || EpochH(Exec(cfg, Init(cfg, img), acts).hist) == 0
    ensures Inv(cfg, Exec(cfg, Init(cfg, img), acts))
    decreases |acts|
  {
    hide Inv, Step, Init;
    if acts == [] {
      InitInv(cfg, img);
    } else {
      var s1, a := Exec(cfg, Init(cfg, img), acts[..|acts| - 1]), acts[|acts| - 1];
      StepEpoch(cfg, s1, a);
      RunsKeepInv(cfg, img, acts[..|acts| - 1]);
      if Enabled(s1, a) { StepInv(cfg, s1, a); }
    }
  }
}
