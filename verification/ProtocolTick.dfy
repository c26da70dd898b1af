/** The game tick past an open gate keeps the invariant. */
module ProtocolTick {
  import opened Cells
  import opened Protocol
  import opened ProtocolInv
  import opened ProtocolFlow
  import opened ProtocolCapture

  /** The cells read from the rings are the inputs of the epoch, so the tick is the simulation's. */
  lemma TickReads(cfg: Cfg, c: Console, b: nat, rh: seq<Cell>, rg: seq<Cell>)
    requires c.atGate && !Gated(c) && c.seat < 2
    requires SendOK(cfg, c.tick, true, c.mine, b, if c.seat == 0 then rh else rg)
    requires RecvOK(cfg, c.tick, c.wm, c.theirs, b, if c.seat == 0 then rg else rh)
    ensures ReadRings(c) == Inputs(rh, rg, b + cfg.d, c.tick)
    ensures c.tick < b + cfg.d + |rh| && c.tick < b + cfg.d + |rg|
  {
  }

  /** The volatile bytes play no part in the tick. */
  lemma PlaySteady(cfg: Cfg, img: Image, x: TickIn)
    ensures Steady(Play(cfg, img, x)) == Steady(Play(cfg, Steady(img), x))
  {
    SteadyTwice(img);
    SteadyKeep(cfg.tick(Steady(img), x), img);
    SteadyKeep(cfg.tick(Steady(img), x), Steady(img));
  }

  /** A console that has not drifted makes the simulation's step. */
  lemma TickPlays(cfg: Cfg, c: Console, snap: Image, b: nat, rh: seq<Cell>, rg: seq<Cell>)
    requires b <= c.tick && ReadRings(c) == Inputs(rh, rg, b + cfg.d, c.tick)
    requires Steady(c.img) == Sim(cfg, snap, rh, rg, b, c.tick)
    ensures Steady(RunTick(cfg, c).0.img) == Sim(cfg, snap, rh, rg, b, c.tick + 1)
    ensures Sum(cfg, RunTick(cfg, c).0.img) == cfg.sum(Sim(cfg, snap, rh, rg, b, c.tick + 1))
  {
    hide Steady, Play, ReadRings, Inputs;
    PlaySteady(cfg, c.img, ReadRings(c));
  }

  lemma TickRings(cfg: Cfg, c: Console, b: nat, mineRow: seq<Cell>, theirRow: seq<Cell>)
    requires c.atGate && !Gated(c)
    requires SendOK(cfg, c.tick, true, c.mine, b, mineRow) && RecvOK(cfg, c.tick, c.wm, c.theirs, b, theirRow)
    ensures SendOK(cfg, c.tick + 1, false, c.mine, b, mineRow) && RecvOK(cfg, c.tick + 1, c.wm, c.theirs, b, theirRow)
  {
  }

  lemma SlotOf(a: nat)
    ensures Slot(64 * a) == a % 4
  {
  }

  lemma SlotsApart(u: nat, t: nat)
    requires u % 64 == 0 && t % 64 == 0 && u < t <= u + 256
    ensures Slot(u) == Slot(t) <==> t == u + 256
  {
    hide Slot;
    var a, b := u / 64, t / 64;
    assert u == 64 * a && t == 64 * b;
    SlotOf(a);
    SlotOf(b);
  }

  /** Recording a report: the slot it takes held nothing younger than 256 ticks. */
  lemma RecordTick(own: Records, t: nat, sums: map<(nat, nat), word>, e: nat, b: nat, v: word, complete: bool)
    requires SumsOK(sums, e, b, t) && RecordsOK(own, t, sums, e, complete) && t % 64 == 0 && b <= t
    ensures SumsOK(sums[(e, t) := v], e, b, t + 1)
    ensures RecordsOK(own[Slot(t) := Record(t, v)], t + 1, sums[(e, t) := v], e, complete)
  {
    hide Slot;
    var own', sums' := own[Slot(t) := Record(t, v)], sums[(e, t) := v];
    forall i | 0 <= i < 4 && own'[i].Record?
      ensures var r := own'[i];
              Slot(r.tick) == i && r.tick < t + 1 <= r.tick + 256 && (e, r.tick) in sums' && sums'[(e, r.tick)] == r.sum
    {
      if i != Slot(t) {
        assert own[i].Record? && (e, own[i].tick) in sums;
        SlotsApart(own[i].tick, t);
      }
    }
    if complete {
      forall u {:trigger (e, u) in sums'} | (e, u) in sums' && t + 1 <= u + 256
        ensures own'[Slot(u)] == Record(u, sums'[(e, u)])
      {
        if u != t {
          assert (e, u) in sums;
          SlotsApart(u, t);
        }
      }
    }
  }

  lemma SkipTick(own: Records, t: nat, sums: map<(nat, nat), word>, e: nat, b: nat, complete: bool)
    requires SumsOK(sums, e, b, t) && RecordsOK(own, t, sums, e, complete) && t % 64 != 0
    ensures SumsOK(sums, e, b, t + 1) && RecordsOK(own, t + 1, sums, e, complete)
  {
  }

  /** v is a fit report for tick t of epoch e. */
  ghost predicate Reported(cfg: Cfg, h: Hist, e: nat, t: nat, v: word, pure: bool)
    requires HistOK(cfg, h) && e < |h.base|
  {
    && t < h.base[e] + cfg.d + |h.rowH[e]| && t < h.base[e] + cfg.d + |Row(h.rowG, e)|
    && (pure ==> v == cfg.sum(SimE(cfg, h, e, t + 1)))
  }

  /** The histories differ only in what has been reported. */
  ghost predicate SameRows(h: Hist, k: Hist) {
    k.base == h.base && k.snap == h.snap && k.rowH == h.rowH && k.rowG == h.rowG
  }

  lemma SameRowsOK(cfg: Cfg, h: Hist, k: Hist)
    requires HistOK(cfg, h) && SameRows(h, k) && k.first == h.first
    ensures HistOK(cfg, k)
  {
    assert forall i :: 0 <= i < |k.rowG| ==> (FirstOK(cfg, k, i) <==> FirstOK(cfg, h, i));
  }

  /** A new report joins the sums of its epoch. */
  lemma SumsJoin(cfg: Cfg, h: Hist, k: Hist, e: nat, i: nat, sums: map<(nat, nat), word>, t: nat, v: word)
    requires HistOK(cfg, h) && HistOK(cfg, k) && SameRows(h, k) && e < |h.base| && i < |h.base|
    requires SumsAreSim(cfg, h, i, sums) && Reported(cfg, h, e, t, v, true)
    ensures SumsAreSim(cfg, k, i, sums) && SumsAreSim(cfg, k, i, sums[(e, t) := v])
  {
  }

  lemma SumsStay(cfg: Cfg, h: Hist, k: Hist, e: nat, i: nat, sums: map<(nat, nat), word>, t: nat, v: word)
    requires HistOK(cfg, h) && HistOK(cfg, k) && SameRows(h, k) && i < |h.base| && e != i
    requires SumsAreSim(cfg, h, i, sums)
    ensures SumsAreSim(cfg, k, i, sums) && SumsAreSim(cfg, k, i, sums[(e, t) := v])
  {
  }

  // ---- host ----------------------------------------------------------------------------

  ghost function SumH(h: Hist, t: nat, v: word): Hist {
    if t % 64 == 0 then h.(sumH := h.sumH[(EpochH(h), t) := v]) else h
  }

  lemma TickHostOK(cfg: Cfg, h: Hist, c: Console, pure: bool, v: word)
    requires HistOK(cfg, h) && HostOK(cfg, h, c, pure) && c.atGate && !Gated(c)
    requires v == Sum(cfg, RunTick(cfg, c).0.img)
    ensures HistOK(cfg, SumH(h, c.tick, v)) && HostOK(cfg, SumH(h, c.tick, v), RunTick(cfg, c).0, pure)
    ensures Reported(cfg, h, EpochH(h), c.tick, v, pure)
  {
    hide HistOK, Play, Sum, Sim, ReadRings, Inputs, Steady;
    Widths(cfg, h);
    var e, b := EpochH(h), h.base[EpochH(h)];
    SameRowsOK(cfg, h, SumH(h, c.tick, v));
    TickReads(cfg, c, b, h.rowH[e], Row(h.rowG, e));
    if pure { TickPlays(cfg, c, h.snap[e], b, h.rowH[e], Row(h.rowG, e)); }
    TickRings(cfg, c, b, h.rowH[e], Row(h.rowG, e));
    if c.tick % 64 == 0 {
      RecordTick(c.own, c.tick, h.sumH, e, b, v, true);
    } else {
      SkipTick(c.own, c.tick, h.sumH, e, b, true);
    }
  }

  lemma SumHGrows(cfg: Cfg, h: Hist, c: Console, pure: bool, v: word)
    requires HistOK(cfg, h) && HostOK(cfg, h, c, pure)
    ensures Grows(h, SumH(h, c.tick, v))
  {
  }

  lemma SumHFlight(cfg: Cfg, h: Hist, up: Net, down: Net, asked: bool, t: nat, v: word)
    requires HistOK(cfg, h) && NextH(cfg, h) == t + cfg.d + 1 && t % 64 == 0
    requires HistOK(cfg, SumH(h, t, v)) && Grows(h, SumH(h, t, v)) && FlightOK(cfg, h, up, down, asked)
    ensures FlightOK(cfg, SumH(h, t, v), up, down.(q := down.q + [Msg(EpochH(h), Crc(0, t, v))]), asked)
  {
    hide HistOK, DownOK, UpOK, Grows;
    Widths(cfg, h);
    var k, m := SumH(h, t, v), Msg(EpochH(h), Crc(0, t, v));
    DownGrows(cfg, h, k, down.q, down.spot, down.tip);
    UpGrows(cfg, h, k, up.q, up.spot, up.tip);
    DownOne(cfg, k, m, down.tip);
    DownJoin(cfg, k, down.q, [m], down.spot, down.tip, down.tip);
  }

  lemma SumHRest(cfg: Cfg, h: Hist, t: nat, v: word, c: Console, up: Spot, g: Console, pureG: bool, down: Spot)
    requires HistOK(cfg, h) && HistOK(cfg, SumH(h, t, v)) && GuestOK(cfg, h, g, pureG)
    requires HostSpotOK(cfg, h, c.wm, c.hold, c.pend, up) && GuestSpotOK(cfg, h, g, down)
    requires PendOK(h, c.pend, c.ptmo, g.pend, up)
    ensures HostSpotOK(cfg, SumH(h, t, v), c.wm, c.hold, c.pend, up) && GuestSpotOK(cfg, SumH(h, t, v), g, down)
    ensures PendOK(SumH(h, t, v), c.pend, c.ptmo, g.pend, up) && GuestOK(cfg, SumH(h, t, v), g, pureG)
  {
  }

  lemma SumHNoLoss(h: Hist, t: nat, v: word, pending: bool, downQ: seq<Msg>, upQ: seq<Msg>)
    requires NoLoss(h, pending, downQ, upQ) && t % 64 == 0
    ensures NoLoss(SumH(h, t, v), pending, downQ + [Msg(EpochH(h), Crc(0, t, v))], upQ)
  {
  }

  lemma SumHClean(cfg: Cfg, h: Hist, t: nat, v: word, clean: nat, pure: bool)
    requires HistOK(cfg, h) && HistOK(cfg, SumH(h, t, v)) && CleanSums(cfg, h, clean)
    requires EpochH(h) < |h.base| && Reported(cfg, h, EpochH(h), t, v, pure) && (clean <= EpochH(h) ==> pure)
    ensures CleanSums(cfg, SumH(h, t, v), clean)
  {
    hide SumsAreSim, HistOK, Reported;
    var e, k := EpochH(h), SumH(h, t, v);
    forall i | clean <= i && EpochG(k) <= i < |k.base|
      ensures SumsAreSim(cfg, k, i, k.sumH) && SumsAreSim(cfg, k, i, k.sumG)
    {
      assert SumsAreSim(cfg, h, i, h.sumH);
      if i == e {
        SumsJoin(cfg, h, k, e, i, h.sumH, t, v);
        SumsJoin(cfg, h, k, e, i, h.sumG, t, v);
      } else {
        SumsStay(cfg, h, k, e, i, h.sumH, t, v);
        SumsStay(cfg, h, k, e, i, h.sumG, t, v);
      }
    }
  }

  lemma RunTickFrame(cfg: Cfg, c: Console)
    ensures var (c', out) := RunTick(cfg, c);
            && out == (if c.tick % 64 == 0 then [Crc(c.seat, c.tick, Sum(cfg, c'.img))] else [])
            && c'.wm == c.wm && c'.hold == c.hold && c'.pend == c.pend && c'.ptmo == c.ptmo && !c'.atGate
  {
  }

  lemma TickHostInv(cfg: Cfg, s: Sys)
    requires Inv(cfg, s) && s.host.atGate && !Gated(s.host)
    ensures Inv(cfg, TickHost(cfg, s))
  {
    hide HistOK, HostOK, GuestOK, FlightOK, GuestSpotOK, HostSpotOK, NoLoss, PendOK, CleanSums, CleanRun, DelayOK, OldRequests, Tagged, RunTick;
    RunTickFrame(cfg, s.host);
    var h, t, s' := s.hist, s.host.tick, TickHost(cfg, s);
    var v := Sum(cfg, s'.host.img);
    var pending, pureG := s.host.pend || s.guest.pend, s.pureG && !Torn(s.down.spot);
    HostFacts(cfg, h, s.host, s.pureH);
    TickHostOK(cfg, h, s.host, s.pureH, v);
    SumHRest(cfg, h, t, v, s.host, s.up.spot, s.guest, pureG, s.down.spot);
    PureIfClean(h, s.clean, s.pureH, s.pureG, s.host.pend, s.guest.pend);
    SumHClean(cfg, h, t, v, s.clean, s.pureH);
    SameEpochs(cfg, h, SumH(h, t, v), s.clean, s.pureH, s.pureG, s.host.pend, s.guest.pend);
    if t % 64 == 0 {
      TaggedOne(EpochH(h), Crc(0, t, v));
      SumHGrows(cfg, h, s.host, s.pureH, v);
      SumHFlight(cfg, h, s.up, s.down, s.guest.pend, t, v);
      SumHNoLoss(h, t, v, pending, s.down.q, s.up.q);
      assert s'.down.q == s.down.q + [Msg(EpochH(h), Crc(0, t, v))];
    } else {
      assert Tagged(EpochH(h), []) == [] by { TaggedNone(EpochH(h)); }
      assert s'.down.q == s.down.q;
    }
    assert s'.hist == SumH(h, t, v);
  }

  lemma TaggedNone(e: nat)
    ensures Tagged(e, []) == []
  {
  }

  lemma PureIfClean(h: Hist, clean: nat, pureH: bool, pureG: bool, pendH: bool, pendG: bool)
    requires CleanRun(h, clean, pureH, pureG, pendH, pendG)
    ensures clean <= EpochH(h) ==> pureH
  {
  }

  lemma EpochsOrdered(cfg: Cfg, h: Hist)
    requires HistOK(cfg, h)
    ensures EpochG(h) <= EpochH(h)
  {
  }

  // ---- guest ---------------------------------------------------------------------------

  ghost function SumG(h: Hist, t: nat, v: word): Hist {
    if t % 64 == 0 then h.(sumG := h.sumG[(EpochG(h), t) := v]) else h
  }

  lemma TickGuestOK(cfg: Cfg, h: Hist, g: Console, pure: bool, v: word)
    requires HistOK(cfg, h) && GuestOK(cfg, h, g, pure) && g.atGate && !Gated(g)
    requires v == Sum(cfg, RunTick(cfg, g).0.img)
    ensures HistOK(cfg, SumG(h, g.tick, v)) && GuestOK(cfg, SumG(h, g.tick, v), RunTick(cfg, g).0, pure)
    ensures Reported(cfg, h, EpochG(h), g.tick, v, pure)
  {
    hide HistOK, Play, Sum, Sim, ReadRings, Inputs, Steady;
    Widths(cfg, h);
    var e, b := EpochG(h), h.base[EpochG(h)];
    SameRowsOK(cfg, h, SumG(h, g.tick, v));
    TickReads(cfg, g, b, h.rowH[e], h.rowG[e]);
    if pure { TickPlays(cfg, g, h.snap[e], b, h.rowH[e], h.rowG[e]); }
    TickRings(cfg, g, b, h.rowG[e], h.rowH[e]);
    if g.tick % 64 == 0 {
      RecordTick(g.own, g.tick, h.sumG, e, b, v, !g.hold);
    } else {
      SkipTick(g.own, g.tick, h.sumG, e, b, !g.hold);
    }
  }

  lemma SumGGrows(cfg: Cfg, h: Hist, g: Console, pure: bool, v: word)
    requires HistOK(cfg, h) && GuestOK(cfg, h, g, pure)
    ensures Grows(h, SumG(h, g.tick, v))
  {
  }

  lemma SumGFlight(cfg: Cfg, h: Hist, up: Net, down: Net, asked: bool, t: nat, v: word)
    requires HistOK(cfg, h) && NextG(cfg, h) == t + cfg.d + 1 && t % 64 == 0
    requires HistOK(cfg, SumG(h, t, v)) && Grows(h, SumG(h, t, v)) && FlightOK(cfg, h, up, down, asked)
    ensures FlightOK(cfg, SumG(h, t, v), SendUp(SumG(h, t, v), up, [Crc(1, t, v)]), down, asked)
  {
    hide HistOK, DownOK, UpOK, Grows;
    Widths(cfg, h);
    var k := SumG(h, t, v);
    DownGrows(cfg, h, k, down.q, down.spot, down.tip);
    UpGrows(cfg, h, k, up.q, up.spot, up.tip);
    UpSend(cfg, k, up, down, asked, Crc(1, t, v));
  }

  lemma SumGRest(cfg: Cfg, h: Hist, v: word, c: Console, pureH: bool, up: Spot, g: Console, down: Spot)
    requires HistOK(cfg, h) && HistOK(cfg, SumG(h, g.tick, v)) && HostOK(cfg, h, c, pureH)
    requires HostSpotOK(cfg, h, c.wm, c.hold, c.pend, up)
    requires GuestSpotOK(cfg, h, g, down) && g.atGate && !Gated(g)
    requires PendOK(h, c.pend, c.ptmo, g.pend, up)
    ensures HostSpotOK(cfg, SumG(h, g.tick, v), c.wm, c.hold, c.pend, up)
    ensures GuestSpotOK(cfg, SumG(h, g.tick, v), RunTick(cfg, g).0, down) && !Torn(down)
    ensures PendOK(SumG(h, g.tick, v), c.pend, c.ptmo, g.pend, up) && HostOK(cfg, SumG(h, g.tick, v), c, pureH)
  {
  }

  lemma SumGNoLoss(h: Hist, t: nat, v: word, pending: bool, downQ: seq<Msg>, upQ: seq<Msg>)
    requires NoLoss(h, pending, downQ, upQ) && t % 64 == 0
    ensures NoLoss(SumG(h, t, v), pending, downQ, upQ + [Msg(EpochG(h), Crc(1, t, v))])
  {
  }

  lemma SumGClean(cfg: Cfg, h: Hist, t: nat, v: word, clean: nat, pure: bool)
    requires HistOK(cfg, h) && HistOK(cfg, SumG(h, t, v)) && CleanSums(cfg, h, clean)
    requires EpochG(h) < |h.base| && Reported(cfg, h, EpochG(h), t, v, pure) && (clean <= EpochG(h) ==> pure)
    ensures CleanSums(cfg, SumG(h, t, v), clean)
  {
    hide SumsAreSim, HistOK, Reported;
    var e, k := EpochG(h), SumG(h, t, v);
    forall i | clean <= i && EpochG(k) <= i < |k.base|
      ensures SumsAreSim(cfg, k, i, k.sumH) && SumsAreSim(cfg, k, i, k.sumG)
    {
      assert SumsAreSim(cfg, h, i, h.sumH);
      if i == e {
        SumsJoin(cfg, h, k, e, i, h.sumH, t, v);
        SumsJoin(cfg, h, k, e, i, h.sumG, t, v);
      } else {
        SumsStay(cfg, h, k, e, i, h.sumH, t, v);
        SumsStay(cfg, h, k, e, i, h.sumG, t, v);
      }
    }
  }

  lemma TickGuestInv(cfg: Cfg, s: Sys)
    requires Inv(cfg, s) && s.guest.atGate && !Gated(s.guest)
    ensures Inv(cfg, TickGuest(cfg, s))
  {
    hide HistOK, HostOK, GuestOK, FlightOK, GuestSpotOK, HostSpotOK, NoLoss, PendOK, CleanSums, DelayOK, OldRequests, SendUp, AdvanceUp, RunTick;
    RunTickFrame(cfg, s.guest);
    var h, t, s' := s.hist, s.guest.tick, TickGuest(cfg, s);
    var v := Sum(cfg, s'.guest.img);
    var pending, pureG := s.host.pend || s.guest.pend, s.pureG && !Torn(s.down.spot);
    GuestFacts(cfg, h, s.guest, pureG);
    TickGuestOK(cfg, h, s.guest, pureG, v);
    SumGRest(cfg, h, v, s.host, s.pureH, s.up.spot, s.guest, s.down.spot);
    EpochsOrdered(cfg, h);
    SumGClean(cfg, h, t, v, s.clean, pureG);
    SameEpochs(cfg, h, SumG(h, t, v), s.clean, s.pureH, s.pureG, s.host.pend, s.guest.pend);
    if t % 64 == 0 {
      SumGGrows(cfg, h, s.guest, pureG, v);
      SumGFlight(cfg, h, s.up, s.down, s.guest.pend, t, v);
      SendUpOne(s'.hist, s.up, Crc(1, t, v));
      SumGNoLoss(h, t, v, pending, s.down.q, s.up.q);
      RequestsJoin(s.up.q, Msg(EpochG(h), Crc(1, t, v)), s.clean);
    } else {
      assert SendUp(s'.hist, s.up, []) == s.up by { SendUpNone(s'.hist, s.up); }
    }
    assert s'.hist == SumG(h, t, v);
  }

  lemma SendUpNone(h: Hist, net: Net)
    ensures SendUp(h, net, []) == net
  {
  }
}
