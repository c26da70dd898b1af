/** A match that leads to a push with as much as possible still in flight, for any delay from 16 on: the guest
    runs ahead, the reports meet, and the guest goes on while it asks for a push. */
module GuestAhead {
  import opened Cells
  import opened Protocol

  // ---- the match -----------------------------------------------------------------------------------

  const CELL := Cell(0, 1)

  /** A game that stands still at a dead ball; its checksum is the first byte of its image. */
  function Still(d: nat): Cfg {
    Cfg(d, (img, x) => img, img => img[0] as word)
  }

  function Dead(first: byte): (img: Image)
    ensures img[0] == first && DeadBall(img)
  {
    seq(IMG_TOTAL, i requires 0 <= i < IMG_TOTAL => if i == 0 then first else if i == 6 then 0xC0 else 0)
  }

  lemma StandsStill(d: nat, img: Image, x: TickIn)
    ensures Play(Still(d), img, x) == img && Sum(Still(d), img) == img[0]
  {
    assert Keep(Steady(img), img) == img;
  }

  /** The guest's sim drifts; the host sends one input; the guest takes it and runs ahead n ticks. */
  function Ahead(n: nat): seq<Action> {
    if n == 0 then [Glitch(Guest, Dead(1)), Enter(Host, 0, CELL), Enter(Guest, 7, CELL)]
    else Ahead(n - 1) + [Gate(Guest, 0), Enter(Guest, 0, CELL)]
  }

  function After(d: nat, acts: seq<Action>): Sys {
    Exec(Still(d), Init(Still(d), Dead(0)), acts)
  }

  lemma OneMore(d: nat, acts: seq<Action>, a: Action)
    ensures After(d, acts + [a]) == if Enabled(After(d, acts), a) then Step(Still(d), After(d, acts), a) else After(d, acts)
  {
  }

  // ---- what the queues hold ----------------------------------------------------------------------------

  function In(t: nat): Msg {
    Msg(0, Input(1, t, CELL))
  }

  /** Inputs for ticks a .. b - 1. */
  function Ins(a: nat, b: nat): seq<Msg>
    decreases b
  {
    if b <= a then [] else Ins(a, b - 1) + [In(b - 1)]
  }

  lemma {:induction false} InsFirst(a: nat, b: nat)
    requires a < b
    ensures Ins(a, b) == [In(a)] + Ins(a + 1, b)
    decreases b
  {
    if a + 1 < b { InsFirst(a, b - 1); }
  }

  lemma {:induction false} InsSplit(a: nat, b: nat, c: nat)
    requires a <= b <= c
    ensures Ins(a, c) == Ins(a, b) + Ins(b, c)
    decreases c
  {
    if b < c {
      InsSplit(a, b, c - 1);
      assert Ins(a, b) + (Ins(b, c - 1) + [In(c - 1)]) == Ins(a, b) + Ins(b, c - 1) + [In(c - 1)];
    } else {
      assert Ins(b, c) == [];
    }
  }

  ghost predicate OneEpoch(h: Hist) {
    |h.base| == 1 && |h.rowG| == 1 && h.base[0] == 0
  }

  ghost predicate HostAt(s: Sys, tick: nat, wm: int, atGate: bool, pend: bool) {
    && s.host.seat == 0 && s.host.tick == tick && s.host.wm == wm && s.host.atGate == atGate && !s.host.hold
    && s.host.pend == pend && s.host.img == Dead(0) && s.host.ptmo == 0
  }

  ghost predicate GuestAt(s: Sys, tick: nat, wm: int, atGate: bool, pend: bool) {
    && s.guest.seat == 1 && s.guest.tick == tick && s.guest.wm == wm && s.guest.atGate == atGate && !s.guest.hold
    && s.guest.pend == pend && s.guest.img == Dead(1) && (tick > 0 ==> s.guest.own[0] == Record(0, 1))
  }

  ghost predicate Flying(s: Sys, up: seq<Msg>, down: seq<Msg>) {
    s.up.q == up && s.up.part == 0 && s.down.q == down && s.down.part == 0
  }

  /** The guest's first input and report, and its inputs for ticks d + 1 .. d + n. */
  function Sent(d: nat, n: nat): seq<Msg> {
    [In(d), Msg(0, Crc(1, 0, 1))] + Ins(d + 1, d + 1 + n)
  }

  /** The guest n ticks ahead, everything it sent still in flight; the host at its first gate. */
  ghost predicate RunAhead(d: nat, s: Sys, n: nat) {
    && GuestAt(s, n, d, true, false) && HostAt(s, 0, d - 1, true, false) && OneEpoch(s.hist)
    && Flying(s, if n == 0 then [In(d)] else Sent(d, n), [])
  }

  lemma {:induction false} SendUpOne(h: Hist, net: Net, f: Frame)
    ensures SendUp(h, net, [f]).q == net.q + [Msg(EpochG(h), f)] && SendUp(h, net, [f]).part == net.part
  {
  }

  // ---- the guest's side -----------------------------------------------------------------------------------

  /** Both consoles before the guest's first pass. */
  ghost predicate Opened(d: nat, s: Sys) {
    && s.guest == InitConsole(Still(d), 1, Dead(1)) && HostAt(s, 0, d - 1, true, false) && OneEpoch(s.hist)
    && Flying(s, [], [Msg(0, Input(0, d, CELL))])
  }

  lemma Opens(d: nat)
    ensures Opened(d, After(d, [Glitch(Guest, Dead(1)), Enter(Host, 0, CELL)]))
  {
    var cfg := Still(d);
    var a := [Glitch(Guest, Dead(1)), Enter(Host, 0, CELL)];
    assert a[..1] + [a[1]] == a && [] + [a[0]] == a[..1];
    OneMore(d, [], a[0]);
    OneMore(d, a[..1], a[1]);
    var s1 := Step(cfg, Init(cfg, Dead(0)), a[0]);
    assert After(d, a) == CaptureHost(cfg, s1, CELL);
  }

  lemma GuestJoins(d: nat, s: Sys)
    requires Opened(d, s) && d >= 1
    ensures Enabled(s, Enter(Guest, 7, CELL)) && RunAhead(d, Step(Still(d), s, Enter(Guest, 7, CELL)), 0)
  {
    var cfg := Still(d);
    var s1 := DeliverGuest(cfg, s);
    assert PumpGuest(cfg, s, 7) == PumpGuest(cfg, s1, 0) == s1;
    SendUpOne(s1.hist.(rowG := Extend(s1.hist.rowG, CELL)), s1.up, Input(1, d, CELL));
  }

  lemma StartsAhead(d: nat)
    requires d >= 1
    ensures RunAhead(d, After(d, Ahead(0)), 0)
  {
    hide Exec, Step, Enabled, Init, RunAhead, Opened;
    var a := [Glitch(Guest, Dead(1)), Enter(Host, 0, CELL)];
    Opens(d);
    GuestJoins(d, After(d, a));
    OneMore(d, a, Enter(Guest, 7, CELL));
    assert Ahead(0) == a + [Enter(Guest, 7, CELL)];
  }

  /** The guest past its gate, before its next capture. */
  ghost predicate Ticked(d: nat, s: Sys, n: nat) {
    && n > 0 && GuestAt(s, n, d, false, false) && HostAt(s, 0, d - 1, true, false) && OneEpoch(s.hist)
    && Flying(s, Sent(d, n - 1), [])
  }

  lemma GuestTicks(d: nat, s: Sys, n: nat)
    requires RunAhead(d, s, n) && n < 16 <= d
    ensures Enabled(s, Gate(Guest, 0)) && Ticked(d, Step(Still(d), s, Gate(Guest, 0)), n + 1)
  {
    StandsStill(d, s.guest.img, ReadRings(s.guest));
    hide Play, Sum;
    var cfg := Still(d);
    var s1 := TickGuest(cfg, s);
    if n == 0 {
      SendUpOne(s1.hist, s.up, Crc(1, 0, 1));
      assert s1.up.q == [In(d)] + [Msg(0, Crc(1, 0, 1))] == Sent(d, 0);
    }
  }

  lemma GuestCaptures(d: nat, s: Sys, n: nat)
    requires Ticked(d, s, n)
    ensures Enabled(s, Enter(Guest, 0, CELL)) && RunAhead(d, Step(Still(d), s, Enter(Guest, 0, CELL)), n)
  {
    var s1 := CaptureGuest(Still(d), s, CELL);
    SendUpOne(s1.hist, s.up, Input(1, n + d, CELL));
    assert Ins(d + 1, d + 1 + n) == Ins(d + 1, d + n) + [In(d + n)];
    assert s1.up.q == Sent(d, n);
  }

  lemma GuestStep(d: nat, s: Sys, n: nat)
    requires RunAhead(d, s, n) && n < 16 <= d
    ensures Enabled(s, Gate(Guest, 0))
    ensures var s1 := Step(Still(d), s, Gate(Guest, 0));
            Enabled(s1, Enter(Guest, 0, CELL)) && RunAhead(d, Step(Still(d), s1, Enter(Guest, 0, CELL)), n + 1)
  {
    hide RunAhead, Ticked, Step, Enabled;
    GuestTicks(d, s, n);
    GuestCaptures(d, Step(Still(d), s, Gate(Guest, 0)), n + 1);
  }

  /** Given one input of the host's, the guest completes n ticks while the host waits at its first gate. */
  lemma {:induction false} RunsAhead(d: nat, n: nat)
    requires n <= 16 <= d
    ensures RunAhead(d, After(d, Ahead(n)), n)
    decreases n
  {
    hide RunAhead, Exec, Step, Enabled, Init;
    if n == 0 {
      StartsAhead(d);
    } else {
      RunsAhead(d, n - 1);
      GuestStep(d, After(d, Ahead(n - 1)), n - 1);
      var mid := Ahead(n - 1) + [Gate(Guest, 0)];
      OneMore(d, Ahead(n - 1), Gate(Guest, 0));
      OneMore(d, mid, Enter(Guest, 0, CELL));
      assert Ahead(n) == mid + [Enter(Guest, 0, CELL)];
    }
  }

  // ---- the reports meet -------------------------------------------------------------------------------------

  /** What is on its way to the guest. */
  function Down(d: nat): seq<Msg> { [Msg(0, Crc(0, 0, 0)), Msg(0, Input(0, d + 1, CELL))] }

  /** The host runs tick 0 and reports. */
  lemma HostTicks(d: nat, s: Sys)
    requires RunAhead(d, s, 16) && d >= 1
    ensures Enabled(s, Gate(Host, 0))
    ensures var s' := Step(Still(d), s, Gate(Host, 0));
            && HostAt(s', 1, d - 1, false, false) && s'.host.own[0] == Record(0, 0) && GuestAt(s', 16, d, true, false)
            && Flying(s', Sent(d, 16), [Msg(0, Crc(0, 0, 0))]) && OneEpoch(s'.hist)
  {
    StandsStill(d, s.host.img, ReadRings(s.host));
    hide Play, Sum, Ins;
  }

  /** It takes the guest's first input and its report, and is pending. */
  lemma HostFlags(d: nat, s: Sys)
    requires HostAt(s, 1, d - 1, false, false) && s.host.own[0] == Record(0, 0) && GuestAt(s, 16, d, true, false)
    requires Flying(s, Sent(d, 16), [Msg(0, Crc(0, 0, 0))]) && OneEpoch(s.hist)
    ensures Enabled(s, Enter(Host, 14, CELL))
    ensures var s' := Step(Still(d), s, Enter(Host, 14, CELL));
            && HostAt(s', 1, d, true, true) && GuestAt(s', 16, d, true, false)
            && Flying(s', Ins(d + 1, d + 17), Down(d)) && OneEpoch(s'.hist)
  {
    var cfg := Still(d);
    InsFirst(d + 1, d + 17);
    hide Ins;
    assert s.up.q == [In(d)] + ([Msg(0, Crc(1, 0, 1))] + Ins(d + 1, d + 17));
    var s1 := DeliverHost(cfg, s);
    assert s1.up.q == [Msg(0, Crc(1, 0, 1))] + Ins(d + 1, d + 17);
    var s2 := DeliverHost(cfg, s1);
    assert s2.up.q == Ins(d + 1, d + 17);
    assert PumpHost(cfg, s, 14) == PumpHost(cfg, s1, 7) == PumpHost(cfg, s2, 0) == s2;
    assert s2.host.pend;
  }

  /** The guest runs a tick that brings no report. */
  lemma GuestGoesOn(d: nat, s: Sys, up: seq<Msg>, n: nat, wm: nat, pend: bool)
    requires GuestAt(s, n, wm, true, pend) && 16 <= n <= 17 && n <= wm && OneEpoch(s.hist)
    requires HostAt(s, 1, d, true, true) && Flying(s, up, s.down.q)
    ensures Enabled(s, Gate(Guest, 0))
    ensures var s' := Step(Still(d), s, Gate(Guest, 0));
            && GuestAt(s', n + 1, wm, false, pend) && HostAt(s', 1, d, true, true) && Flying(s', up, s.down.q) && OneEpoch(s'.hist)
  {
    StandsStill(d, s.guest.img, ReadRings(s.guest));
    hide Play, Sum;
  }

  /** The guest takes the host's report and its next input, asks for a push, and sends for tick d + 17. */
  lemma GuestAsks(d: nat, s: Sys, up: seq<Msg>)
    requires HostAt(s, 1, d, true, true) && GuestAt(s, 17, d, false, false) && Flying(s, up, Down(d)) && OneEpoch(s.hist)
    ensures Enabled(s, Enter(Guest, 14, CELL))
    ensures var s' := Step(Still(d), s, Enter(Guest, 14, CELL));
            && HostAt(s', 1, d, true, true) && GuestAt(s', 17, d + 1, true, true)
            && Flying(s', up + [Msg(0, Resync(0)), In(d + 17)], []) && OneEpoch(s'.hist)
  {
    var cfg := Still(d);
    var s1 := DeliverGuest(cfg, s);
    SendUpOne(s.hist, s.up, Resync(0));
    assert s1.down.q == [Msg(0, Input(0, d + 1, CELL))];
    var s2 := DeliverGuest(cfg, s1);
    assert PumpGuest(cfg, s, 14) == PumpGuest(cfg, s1, 7) == PumpGuest(cfg, s2, 0) == s2;
    var s3 := CaptureGuest(cfg, s2, CELL);
    SendUpOne(s3.hist, s2.up, Input(1, d + 17, CELL));
    assert s3.up.q == up + [Msg(0, Resync(0))] + [In(d + 17)] == up + [Msg(0, Resync(0)), In(d + 17)];
  }

  /** It sends for tick d + 18 before any BEGIN reaches it. */
  lemma GuestSends(d: nat, s: Sys, up: seq<Msg>)
    requires HostAt(s, 1, d, true, true) && GuestAt(s, 18, d + 1, false, true) && Flying(s, up, []) && OneEpoch(s.hist)
    ensures Enabled(s, Enter(Guest, 0, CELL))
    ensures var s' := Step(Still(d), s, Enter(Guest, 0, CELL));
            HostAt(s', 1, d, true, true) && Flying(s', up + [In(d + 18)], []) && OneEpoch(s'.hist)
  {
    var s2 := CaptureGuest(Still(d), s, CELL);
    SendUpOne(s2.hist, s.up, Input(1, d + 18, CELL));
  }
}
