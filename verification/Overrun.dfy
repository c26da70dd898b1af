/** The bound on the delay is exact where no push is involved, too: from d = 128 on a console that listens
    before its first tick overwrites a ring slot it has still to read. */
module Overrun {
  import opened Cells
  import opened Protocol
  import opened ProtocolCaptured
  import opened ProtocolTheorems

  const CELL := Cell(0, 1)

  /** The guest plays n ticks on its own; the host, still before its first pass, hears every frame. */
  function Talk(n: nat): seq<Action> {
    if n == 0 then [Enter(Guest, 0, CELL), Listen(Host, 14)]
    else Talk(n - 1) + [Gate(Guest, 0), Enter(Guest, 0, CELL), Listen(Host, 14)]
  }

  lemma OneMore(cfg: Cfg, s: Sys, acts: seq<Action>, a: Action)
    ensures Exec(cfg, s, acts + [a]) == var s1 := Exec(cfg, s, acts); if Enabled(s1, a) then Step(cfg, s1, a) else s1
  {
  }

  /** The host as START left it, but for what it has heard: the guest's inputs up to tick wm. */
  ghost predicate HostIdle(cfg: Cfg, s: Sys, wm: int) {
    && s.host.seat == 0 && s.host.tick == 0 && s.host.wm == wm && !s.host.atGate && !s.host.hold && s.host.own == NO_RECORDS
    && s.down.q == [] && s.down.part == 0 && EpochH(s.hist) == 0 && EpochG(s.hist) == 0
  }

  ghost predicate GuestAt(cfg: Cfg, s: Sys, n: nat, atGate: bool) {
    && s.guest.seat == 1 && s.guest.tick == n && s.guest.wm == cfg.d - 1 && s.guest.atGate == atGate && !s.guest.hold
  }

  ghost predicate Heard(cfg: Cfg, s: Sys, n: nat) {
    && HostIdle(cfg, s, cfg.d + n) && At(s.host.theirs, cfg.d + n) == CELL && GuestAt(cfg, s, n, true)
    && s.up.q == [] && s.up.part == 0
  }

  lemma {:induction false} SendUpOne(h: Hist, net: Net, f: Frame)
    ensures SendUp(h, net, [f]).q == net.q + [Msg(EpochG(h), f)] && SendUp(h, net, [f]).part == net.part
  {
  }

  /** The guest's frames on their way: a report every 64 ticks, then its input. */
  function OnWay(cfg: Cfg, n: nat, reports: seq<Msg>): seq<Msg> {
    reports + [Msg(0, Input(1, cfg.d + n, CELL))]
  }

  predicate Reports(q: seq<Msg>) { q == [] || (|q| == 1 && q[0].f.Crc?) }

  lemma GuestCaptures(cfg: Cfg, s: Sys, n: nat, reports: seq<Msg>)
    requires HostIdle(cfg, s, cfg.d + n - 1) && GuestAt(cfg, s, n, false) && s.up.q == reports && s.up.part == 0
    ensures Enabled(s, Enter(Guest, 0, CELL))
    ensures var s' := Step(cfg, s, Enter(Guest, 0, CELL));
            HostIdle(cfg, s', cfg.d + n - 1) && GuestAt(cfg, s', n, true) && s'.up.q == OnWay(cfg, n, reports) && s'.up.part == 0
  {
    var s1 := CaptureGuest(cfg, s, CELL);
    SendUpOne(s1.hist, s.up, Input(1, cfg.d + n, CELL));
  }

  lemma GuestTicks(cfg: Cfg, s: Sys, n: nat) returns (reports: seq<Msg>)
    requires Heard(cfg, s, n) && n < cfg.d
    ensures Enabled(s, Gate(Guest, 0)) && Reports(reports)
    ensures var s' := Step(cfg, s, Gate(Guest, 0));
            HostIdle(cfg, s', cfg.d + n) && GuestAt(cfg, s', n + 1, false) && s'.up.q == reports && s'.up.part == 0
  {
    hide ReadRings, Play, Sum;
    var s1 := TickGuest(cfg, s);
    if n % 64 == 0 { SendUpOne(s1.hist, s.up, Crc(1, n, Sum(cfg, s1.guest.img))); }
    reports := s1.up.q;
  }

  lemma HostListens(cfg: Cfg, s: Sys, n: nat, reports: seq<Msg>)
    requires HostIdle(cfg, s, cfg.d + n - 1) && GuestAt(cfg, s, n, true) && Reports(reports)
    requires s.up.q == OnWay(cfg, n, reports) && s.up.part == 0
    ensures Enabled(s, Listen(Host, 14)) && Heard(cfg, Step(cfg, s, Listen(Host, 14)), n)
  {
    if reports == [] {
      assert s.up.q == OnWay(cfg, n, []);
      InputHeard(cfg, s, n, 14);
    } else {
      var s1 := DeliverHost(cfg, s);
      assert s1.up.q == OnWay(cfg, n, []);
      assert PumpHost(cfg, s, 14) == PumpHost(cfg, s1, 7);
      InputHeard(cfg, s1, n, 7);
    }
  }

  lemma InputHeard(cfg: Cfg, s: Sys, n: nat, k: nat)
    requires HostIdle(cfg, s, cfg.d + n - 1) && GuestAt(cfg, s, n, true) && s.up.q == OnWay(cfg, n, []) && s.up.part == 0 && k >= 7
    ensures Heard(cfg, PumpHost(cfg, s, k), n)
  {
    assert s.up.q == [Msg(0, Input(1, cfg.d + n, CELL))];
    var s1 := DeliverHost(cfg, s);
    assert s1.up.q == [];
    assert PumpHost(cfg, s, k) == PumpHost(cfg, s1, k - 7) == s1;
  }

  lemma {:induction false} Hears(cfg: Cfg, img: Image, n: nat)
    requires n <= cfg.d
    ensures Heard(cfg, Exec(cfg, Init(cfg, img), Talk(n)), n)
    decreases n
  {
    hide Exec, Step, Enabled, Heard, HostIdle, GuestAt, Reports, OnWay, Init;
    var s0 := Init(cfg, img);
    if n == 0 {
      Begins(cfg, img);
      GuestCaptures(cfg, s0, 0, []);
      OneMore(cfg, s0, [], Enter(Guest, 0, CELL));
      assert [] + [Enter(Guest, 0, CELL)] == [Enter(Guest, 0, CELL)];
      HostListens(cfg, Exec(cfg, s0, [Enter(Guest, 0, CELL)]), 0, []);
      OneMore(cfg, s0, [Enter(Guest, 0, CELL)], Listen(Host, 14));
      assert Talk(0) == [Enter(Guest, 0, CELL)] + [Listen(Host, 14)];
    } else {
      var a0 := Talk(n - 1);
      var a1 := a0 + [Gate(Guest, 0)];
      var a2 := a1 + [Enter(Guest, 0, CELL)];
      Hears(cfg, img, n - 1);
      var reports := GuestTicks(cfg, Exec(cfg, s0, a0), n - 1);
      OneMore(cfg, s0, a0, Gate(Guest, 0));
      GuestCaptures(cfg, Exec(cfg, s0, a1), n, reports);
      OneMore(cfg, s0, a1, Enter(Guest, 0, CELL));
      HostListens(cfg, Exec(cfg, s0, a2), n, reports);
      OneMore(cfg, s0, a2, Listen(Host, 14));
      assert Talk(n) == a2 + [Listen(Host, 14)];
    }
  }

  lemma Begins(cfg: Cfg, img: Image)
    ensures var s := Init(cfg, img);
            HostIdle(cfg, s, cfg.d - 1) && GuestAt(cfg, s, 0, false) && s.up.q == [] && s.up.part == 0 && Exec(cfg, s, []) == s
    ensures Reports([])
  {
  }

  /** The host now comes to its first gate. */
  function Deafened(d: nat): seq<Action>
    requires d <= 256
  {
    Talk(256 - d) + [Enter(Host, 0, CELL)]
  }

  /** With a delay of 128 or more the host's first tick reads what the guest captured for tick 256. */
  lemma SlotOverrun(cfg: Cfg, img: Image)
    requires 128 <= cfg.d <= 255
    ensures !ReadsRight(cfg, img, Deafened(cfg.d)) && EpochH(Exec(cfg, Init(cfg, img), Deafened(cfg.d)).hist) == 0
  {
    hide Exec, Init, Captured;
    var s0, n := Init(cfg, img), 256 - cfg.d;
    Hears(cfg, img, n);
    OneMore(cfg, s0, Talk(n), Enter(Host, 0, CELL));
    var s := Exec(cfg, s0, Talk(n));
    var s' := CaptureHost(cfg, s, CELL);
    assert PumpHost(cfg, s, 0) == s;
    assert ReadRings(s'.host).cur1 == CELL;
  }

  /** In every run without a push, of every match with this delay, the gate reads what was captured. */
  ghost predicate DelayWorks(d: nat) {
    forall cfg: Cfg, img, acts :: cfg.d == d && EpochH(Exec(cfg, Init(cfg, img), acts).hist) == 0 ==> ReadsRight(cfg, img, acts)
  }

  /** Of the delays a START can carry, the ones that work while nothing is pushed are exactly 1 to 127. */
  lemma UsableDelays(d: nat)
    requires 1 <= d <= 255
    ensures DelayWorks(d) <==> d <= 127
  {
    hide Exec, Init, ReadsRight;
    if d <= 127 {
      forall cfg: Cfg, img, acts | cfg.d == d && EpochH(Exec(cfg, Init(cfg, img), acts).hist) == 0 ensures ReadsRight(cfg, img, acts) {
        ReadsCaptured(cfg, img, acts);
      }
    } else {
      var cfg := Cfg(d, (img, x) => img, img => 0);
      var img: Image := seq(IMG_TOTAL, i => 0);
      SlotOverrun(cfg, img);
    }
  }
}
