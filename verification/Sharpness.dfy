/** The bound on the delay is exact where a push is involved: from d = 16 on there is a run in which the
    re-baselined host takes an input that the guest sent before its own rebase. */
module Sharpness {
  import opened Cells
  import opened Protocol
  import opened ProtocolRuns
  import opened ProtocolRecovery
  import opened ProtocolTheorems
  import opened GuestAhead

  // ---- the host's side -----------------------------------------------------------------------------------

  /** A pump that begins with m stale inputs leaves the host as it was and goes on with what follows. */
  lemma {:induction false} DrainStale(d: nat, s: Sys, a: nat, m: nat, rest: seq<Msg>, k: nat) returns (s1: Sys)
    requires s.up.q == Ins(a, a + m) + rest && s.up.part == 0 && a + m <= s.host.wm + 1 && s.host.seat == 0
    requires rest != []
    ensures PumpHost(Still(d), s, 7 * m + k) == PumpHost(Still(d), s1, k)
    ensures s1.host == s.host && s1.up.q == rest && s1.up.part == 0 && s1.hist == s.hist
    decreases m
  {
    if m == 0 {
      assert s.up.q == rest;
      s1 := s;
    } else {
      InsFirst(a, a + m);
      assert s.up.q == [In(a)] + (Ins(a + 1, a + m) + rest);
      var next := DeliverHost(Still(d), s);
      s1 := DrainStale(d, next, a + 1, m - 1, rest, k);
    }
  }

  ghost predicate Pushed(s: Sys, up: seq<Msg>) {
    EpochH(s.hist) == 1 && s.up.q == up && s.up.part == 0
  }

  /** The host runs tick 1 and pushes: it resumes at tick 18 with its watermark at d + 17. */
  lemma HostPushes(d: nat, s: Sys)
    requires HostAt(s, 1, d, true, true) && OneEpoch(s.hist) && d >= 1 && s.up.part == 0
    ensures Enabled(s, Gate(Host, 0))
    ensures var s' := Step(Still(d), s, Gate(Host, 0));
            HostAt(s', 18, d + 17, false, false) && Pushed(s', s.up.q)
  {
    StandsStill(d, s.host.img, ReadRings(s.host));
    hide Play, Sum;
  }

  /** Then it drains m stale inputs in a pass ... */
  lemma HostDrains(d: nat, s: Sys, tick: nat, a: nat, m: nat, rest: seq<Msg>)
    requires HostAt(s, tick, d + 17, false, false) && Pushed(s, Ins(a, a + m) + rest)
    requires a + m <= d + 17 && rest != [] && m <= 9
    ensures Enabled(s, Enter(Host, 7 * m, CELL))
    ensures var s' := Step(Still(d), s, Enter(Host, 7 * m, CELL));
            HostAt(s', tick, d + 17, true, false) && Pushed(s', rest)
  {
    var s1 := DrainStale(d, s, a, m, rest, 0);
    var n := Size(rest[0].f);
    assert PumpHost(Still(d), s1, 0) == s1.(up := s1.up.(part := 0));
  }

  /** ... and runs the tick. */
  lemma HostRuns(d: nat, s: Sys, tick: nat, up: seq<Msg>)
    requires HostAt(s, tick, d + 17, true, false) && Pushed(s, up) && 18 <= tick <= 19 && d >= 2
    ensures Enabled(s, Gate(Host, 0))
    ensures var s' := Step(Still(d), s, Gate(Host, 0));
            HostAt(s', tick + 1, d + 17, false, false) && Pushed(s', up)
  {
    StandsStill(d, s.host.img, ReadRings(s.host));
    hide Play, Sum;
  }

  function Last(d: nat): seq<Msg> { [Msg(0, Resync(0)), In(d + 17), In(d + 18)] }

  /** The pump that takes the request and the last two inputs stores the second. */
  lemma LastPump(d: nat, s: Sys)
    requires HostAt(s, 20, d + 17, false, false) && Pushed(s, Last(d))
    ensures MayPump(s.host, 18) && !StaleIgnored(Still(d), s, 18)
  {
    var cfg := Still(d);
    var s1 := DeliverHost(cfg, s);
    assert s1.up.q == [In(d + 17), In(d + 18)];
    var s2 := DeliverHost(cfg, s1);
    assert s2.up.q == [In(d + 18)] && s2.host.wm == d + 17;
    assert !StaleIgnored(cfg, s2, 7);
    assert !StaleIgnored(cfg, s1, 14);
  }

  // ---- the whole run -----------------------------------------------------------------------------------------

  function Meeting(): seq<Action> {
    Ahead(16) + [Gate(Host, 0)] + [Enter(Host, 14, CELL)] + [Gate(Guest, 0)] + [Enter(Guest, 14, CELL)] + [Gate(Guest, 0)] +
    [Enter(Guest, 0, CELL)]
  }

  function Trouble(): seq<Action> {
    Meeting() + [Gate(Host, 0)] + [Enter(Host, 63, CELL)] + [Gate(Host, 0)] + [Enter(Host, 49, CELL)] + [Gate(Host, 0)]
  }

  lemma Meets(d: nat)
    requires d >= 16
    ensures var s := After(d, Meeting());
            HostAt(s, 1, d, true, true) && OneEpoch(s.hist) && Flying(s, Ins(d + 1, d + 17) + Last(d), [])
  {
    hide Exec, Step, Enabled, Init, RunAhead, HostAt, GuestAt, OneEpoch, Ins, Last;
    RunsAhead(d, 16);
    var a0 := Ahead(16);
    HostTicks(d, After(d, a0));
    OneMore(d, a0, Gate(Host, 0));
    var a1 := a0 + [Gate(Host, 0)];
    HostFlags(d, After(d, a1));
    OneMore(d, a1, Enter(Host, 14, CELL));
    var a2 := a1 + [Enter(Host, 14, CELL)];
    var up := Ins(d + 1, d + 17);
    GuestGoesOn(d, After(d, a2), up, 16, d, false);
    OneMore(d, a2, Gate(Guest, 0));
    var a3 := a2 + [Gate(Guest, 0)];
    GuestAsks(d, After(d, a3), up);
    OneMore(d, a3, Enter(Guest, 14, CELL));
    var a4 := a3 + [Enter(Guest, 14, CELL)];
    GuestGoesOn(d, After(d, a4), up + [Msg(0, Resync(0)), In(d + 17)], 17, d + 1, true);
    OneMore(d, a4, Gate(Guest, 0));
    var a5 := a4 + [Gate(Guest, 0)];
    GuestSends(d, After(d, a5), up + [Msg(0, Resync(0)), In(d + 17)]);
    OneMore(d, a5, Enter(Guest, 0, CELL));
    assert Meeting() == a5 + [Enter(Guest, 0, CELL)];
    assert up + [Msg(0, Resync(0)), In(d + 17)] + [In(d + 18)] == up + Last(d) by { LastIs(d); }
  }

  lemma LastIs(d: nat)
    ensures Last(d) == [Msg(0, Resync(0)), In(d + 17)] + [In(d + 18)]
  {
  }

  /** From d = 16 on the rebased host stores an input of the epoch before: the guest's for tick d + 18, one
      past R + d - 1 = d + 17. */
  lemma SixteenIsTooMuch(d: nat)
    requires d >= 16
    ensures var s := After(d, Trouble()); MayPump(s.host, 18) && !StaleIgnored(Still(d), s, 18)
  {
    hide Exec, Step, Enabled, Init, HostAt, OneEpoch, Ins, StaleIgnored, MayPump, Last, Pushed;
    Meets(d);
    var a0 := Meeting();
    HostPushes(d, After(d, a0));
    OneMore(d, a0, Gate(Host, 0));
    var a1 := a0 + [Gate(Host, 0)];
    InsSplit(d + 1, d + 10, d + 17);
    assert Ins(d + 1, d + 17) + Last(d) == Ins(d + 1, d + 10) + (Ins(d + 10, d + 17) + Last(d));
    LastIs(d);
    HostDrains(d, After(d, a1), 18, d + 1, 9, Ins(d + 10, d + 17) + Last(d));
    OneMore(d, a1, Enter(Host, 63, CELL));
    var a2 := a1 + [Enter(Host, 63, CELL)];
    HostRuns(d, After(d, a2), 18, Ins(d + 10, d + 17) + Last(d));
    OneMore(d, a2, Gate(Host, 0));
    var a3 := a2 + [Gate(Host, 0)];
    HostDrains(d, After(d, a3), 19, d + 10, 7, Last(d));
    OneMore(d, a3, Enter(Host, 49, CELL));
    var a4 := a3 + [Enter(Host, 49, CELL)];
    HostRuns(d, After(d, a4), 19, Last(d));
    OneMore(d, a4, Gate(Host, 0));
    assert Trouble() == a4 + [Gate(Host, 0)];
    LastPump(d, After(d, Trouble()));
  }

  /** In every run of every match with this delay the host ignores every stale frame. */
  ghost predicate StalesHarmless(d: nat) {
    forall cfg: Cfg, img, acts, k :: cfg.d == d && MayPump(Exec(cfg, Init(cfg, img), acts).host, k) ==>
      StaleIgnored(cfg, Exec(cfg, Init(cfg, img), acts), k)
  }

  /** Re-baselining is safe against what is in flight exactly for delays up to 15. */
  lemma SafeDelays(d: nat)
    requires d >= 1
    ensures StalesHarmless(d) <==> d <= 15
  {
    hide Exec, Init, StaleIgnored, MayPump;
    if d <= 15 {
      forall cfg: Cfg, img, acts, k | cfg.d == d && MayPump(Exec(cfg, Init(cfg, img), acts).host, k)
        ensures StaleIgnored(cfg, Exec(cfg, Init(cfg, img), acts), k)
      {
        StaleFramesIgnored(cfg, img, acts, k);
      }
    } else {
      SixteenIsTooMuch(d);
      assert Still(d).d == d;
    }
  }
}
