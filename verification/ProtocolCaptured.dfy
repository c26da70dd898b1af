/** The rows of the history are exactly what the consoles captured. */
module ProtocolCaptured {
  import opened Cells
  import opened Protocol
  import opened ProtocolInv
  import opened ProtocolCapture
  import opened ProtocolTick
  import opened ProtocolPush
  import opened ProtocolRuns

  /** Inputs captured by one seat in a run: the cell captured in epoch e while the console's tick
      was t, read off the actions of the run. */
  ghost function Captured(cfg: Cfg, s: Sys, acts: seq<Action>, who: Who): map<(nat, nat), Cell>
    decreases |acts|
  {
    if acts == [] then map[] else
    var before, a := acts[..|acts| - 1], acts[|acts| - 1];
    var s1, cap := Exec(cfg, s, before), Captured(cfg, s, before, who);
    if !(Enabled(s1, a) && a.Enter? && a.who == who) then cap
    else if who == Host then
      if s1.host.hold then cap else
      var s2 := PumpHost(cfg, s1, a.k);
      cap[(EpochH(s2.hist), s2.host.tick) := a.cell]
    else
      if s1.guest.hold then cap else
      var s2 := PumpGuest(cfg, s1, a.k);
      cap[(EpochG(s2.hist), s2.guest.tick) := a.cell]
  }

  /** The cell that counts for tick t of epoch e: captured d ticks earlier in the same epoch, or idle. */
  ghost function Wanted(cfg: Cfg, cap: map<(nat, nat), Cell>, e: nat, t: int): Cell {
    if t >= cfg.d && (e, t - cfg.d) in cap then cap[(e, t - cfg.d)] else IDLE
  }

  ghost predicate Matches(base: seq<nat>, rows: seq<seq<Cell>>, cap: map<(nat, nat), Cell>) {
    && |rows| <= |base|
    && (forall k {:trigger k in cap} :: k in cap ==> k.0 < |rows| && base[k.0] <= k.1 < base[k.0] + |rows[k.0]|)
    && (forall e: nat, t: nat {:trigger (e, t) in cap} :: e < |rows| && base[e] <= t < base[e] + |rows[e]| ==>
          rows[e][t - base[e]] == if (e, t) in cap then cap[(e, t)] else IDLE)
  }

  lemma MatchesCapture(base: seq<nat>, rows: seq<seq<Cell>>, cap: map<(nat, nat), Cell>, cell: Cell, t: nat)
    requires Matches(base, rows, cap) && rows != [] && t == base[|rows| - 1] + |rows[|rows| - 1]|
    ensures Matches(base, Extend(rows, cell), cap[(|rows| - 1, t) := cell])
  {
  }

  /** New epochs begin with an empty row, or with the one idle slot of an input never sent. */
  ghost predicate Appended(rows: seq<seq<Cell>>, rows': seq<seq<Cell>>) {
    rows <= rows' && forall e {:trigger rows'[e]} :: |rows| <= e < |rows'| ==> rows'[e] == [] || rows'[e] == [IDLE]
  }

  lemma MatchesAppended(base: seq<nat>, rows: seq<seq<Cell>>, cap: map<(nat, nat), Cell>, base': seq<nat>, rows': seq<seq<Cell>>)
    requires Matches(base, rows, cap) && base <= base' && Appended(rows, rows') && |rows'| <= |base'|
    ensures Matches(base', rows', cap)
  {
  }

  lemma AppendedTwice(a: seq<seq<Cell>>, b: seq<seq<Cell>>, c: seq<seq<Cell>>)
    requires Appended(a, b) && Appended(b, c)
    ensures Appended(a, c)
  {
    forall e {:trigger c[e]} | |a| <= e < |c| ensures c[e] == [] || c[e] == [IDLE] {
      if e < |b| { assert c[e] == b[e]; }
    }
  }

  lemma DeliverGuestRows(cfg: Cfg, s: Sys)
    requires s.down.q != []
    ensures var h, k := s.hist, DeliverGuest(cfg, s).hist;
            Appended(h.rowG, k.rowG) && k.rowH == h.rowH && k.base == h.base && k.snap == h.snap
  {
    hide OnFrame, SendUp, AdvanceDown;
  }

  lemma {:induction false} PumpGuestRows(cfg: Cfg, s: Sys, k: nat)
    ensures var h, h' := s.hist, PumpGuest(cfg, s, k).hist;
            Appended(h.rowG, h'.rowG) && h'.rowH == h.rowH && h'.base == h.base && h'.snap == h.snap
    decreases |s.down.q|
  {
    hide DeliverGuest, Appended;
    if s.down.q != [] && s.down.part + k >= Size(s.down.q[0].f) {
      var s1 := DeliverGuest(cfg, s);
      DeliverGuestRows(cfg, s);
      DeliverShrinks(cfg, s);
      PumpGuestRows(cfg, s1, s.down.part + k - Size(s.down.q[0].f));
      AppendedTwice(s.hist.rowG, s1.hist.rowG, PumpGuest(cfg, s, k).hist.rowG);
    } else {
      SameRows(s.hist.rowG);
    }
  }

  lemma SameRows(rows: seq<seq<Cell>>)
    ensures Appended(rows, rows)
  {
  }

  lemma DeliverShrinks(cfg: Cfg, s: Sys)
    requires s.down.q != []
    ensures |DeliverGuest(cfg, s).down.q| < |s.down.q|
  {
  }

  lemma Sizes(cfg: Cfg, s: Sys)
    requires Inv(cfg, s)
    ensures |s.hist.rowH| == |s.hist.snap| == |s.hist.base| && |s.hist.rowG| <= |s.hist.base|
    ensures !s.host.atGate ==> s.host.tick == s.hist.base[EpochH(s.hist)] + |s.hist.rowH[EpochH(s.hist)]|
    ensures !s.guest.atGate ==> s.guest.tick == s.hist.base[EpochG(s.hist)] + |s.hist.rowG[EpochG(s.hist)]|
  {
  }

  ghost predicate RowsAreCaptured(h: Hist, capH: map<(nat, nat), Cell>, capG: map<(nat, nat), Cell>) {
    Matches(h.base, h.rowH, capH) && Matches(h.base, h.rowG, capG)
  }

  lemma FinishHostRows(cfg: Cfg, s: Sys)
    ensures var k := FinishHost(cfg, s).hist;
            k.rowG == s.hist.rowG && Appended(s.hist.rowH, k.rowH) && s.hist.base <= k.base && s.hist.snap <= k.snap
    ensures |s.hist.rowH| == |s.hist.base| ==> |FinishHost(cfg, s).hist.rowH| == |FinishHost(cfg, s).hist.base|
  {
  }

  lemma TickGuestRows(cfg: Cfg, s: Sys)
    ensures var k := TickGuest(cfg, s).hist;
            k.rowG == s.hist.rowG && k.rowH == s.hist.rowH && k.base == s.hist.base && k.snap == s.hist.snap
  {
  }

  lemma EnterHostRows(cfg: Cfg, s: Sys, k: nat, cell: Cell, capH: map<(nat, nat), Cell>, capG: map<(nat, nat), Cell>)
    requires Inv(cfg, s) && Enabled(s, Enter(Host, k, cell)) && RowsAreCaptured(s.hist, capH, capG)
    ensures var s2 := PumpHost(cfg, s, k);
            RowsAreCaptured(Step(cfg, s, Enter(Host, k, cell)).hist, capH[(EpochH(s2.hist), s2.host.tick) := cell], capG)
  {
    hide Inv, PumpHost, Matches;
    var s2 := PumpHost(cfg, s, k);
    HostNeverHolds(cfg, s);
    PumpHostInv(cfg, s, k);
    PumpHostEpoch(cfg, s, k);
    Sizes(cfg, s2);
    MatchesCapture(s2.hist.base, s2.hist.rowH, capH, cell, s2.host.tick);
  }

  lemma EnterGuestRows(cfg: Cfg, s: Sys, k: nat, cell: Cell, capH: map<(nat, nat), Cell>, capG: map<(nat, nat), Cell>)
    requires Inv(cfg, s) && Enabled(s, Enter(Guest, k, cell)) && RowsAreCaptured(s.hist, capH, capG)
    ensures var s2 := PumpGuest(cfg, s, k);
            RowsAreCaptured(Step(cfg, s, Enter(Guest, k, cell)).hist, capH,
              if s.guest.hold then capG else capG[(EpochG(s2.hist), s2.guest.tick) := cell])
  {
    hide Inv, PumpGuest, Matches, SendUp;
    var s2 := PumpGuest(cfg, s, k);
    PumpGuestRows(cfg, s, k);
    PumpGuestEpoch(cfg, s, k);
    PumpGuestInv(cfg, s, k);
    Sizes(cfg, s2);
    MatchesAppended(s.hist.base, s.hist.rowG, capG, s2.hist.base, s2.hist.rowG);
    if !s.guest.hold {
      MatchesCapture(s2.hist.base, s2.hist.rowG, capG, cell, s2.guest.tick);
    }
  }

  lemma OtherRows(cfg: Cfg, s: Sys, a: Action, capH: map<(nat, nat), Cell>, capG: map<(nat, nat), Cell>)
    requires Inv(cfg, s) && Inv(cfg, Step(cfg, s, a)) && Enabled(s, a) && !a.Enter? && RowsAreCaptured(s.hist, capH, capG)
    ensures RowsAreCaptured(Step(cfg, s, a).hist, capH, capG)
  {
    hide Inv, PumpGuest, PumpHost, FinishHost, TickGuest, Matches;
    var s' := Step(cfg, s, a);
    Sizes(cfg, s);
    Sizes(cfg, s');
    match a
    case Gate(Host, k) =>
      PumpHostEpoch(cfg, s, k);
      FinishHostRows(cfg, s);
      MatchesAppended(s.hist.base, s.hist.rowH, capH, s'.hist.base, s'.hist.rowH);
      MatchesAppended(s.hist.base, s.hist.rowG, capG, s'.hist.base, s'.hist.rowG);
    case Gate(Guest, k) =>
      PumpGuestEpoch(cfg, s, k);
      PumpGuestRows(cfg, s, k);
      TickGuestRows(cfg, s);
      MatchesAppended(s.hist.base, s.hist.rowG, capG, s'.hist.base, s'.hist.rowG);
    case Listen(Host, k) => PumpHostEpoch(cfg, s, k);
    case Listen(Guest, k) =>
      PumpGuestEpoch(cfg, s, k);
      PumpGuestRows(cfg, s, k);
      MatchesAppended(s.hist.base, s.hist.rowG, capG, s'.hist.base, s'.hist.rowG);
    case _ =>
  }

  lemma {:induction false} RunsCapture(cfg: Cfg, img: Image, acts: seq<Action>)
    requires 1 <= cfg.d <= 127
    requires cfg.d <= 15 || EpochH(Exec(cfg, Init(cfg, img), acts).hist) == 0
    ensures var s0 := Init(cfg, img);
            RowsAreCaptured(Exec(cfg, s0, acts).hist, Captured(cfg, s0, acts, Host), Captured(cfg, s0, acts, Guest))
    decreases |acts|
  {
    hide Inv, Step, Init, PumpHost, PumpGuest, Enabled;
    var s0 := Init(cfg, img);
    if acts == [] {
      InitRows(cfg, img);
    } else {
      var before, a := acts[..|acts| - 1], acts[|acts| - 1];
      var s1 := Exec(cfg, s0, before);
      StepEpoch(cfg, s1, a);
      RunsKeepInv(cfg, img, before);
      RunsKeepInv(cfg, img, acts);
      RunsCapture(cfg, img, before);
      var capH, capG := Captured(cfg, s0, before, Host), Captured(cfg, s0, before, Guest);
      if Enabled(s1, a) {
        HostNeverHolds(cfg, s1);
        if a.Enter? && a.who == Host {
          EnterHostRows(cfg, s1, a.k, a.cell, capH, capG);
        } else if a.Enter? {
          EnterGuestRows(cfg, s1, a.k, a.cell, capH, capG);
        } else {
          OtherRows(cfg, s1, a, capH, capG);
        }
      }
    }
  }

  lemma InitRows(cfg: Cfg, img: Image)
    ensures RowsAreCaptured(Init(cfg, img).hist, map[], map[])
  {
  }
}
