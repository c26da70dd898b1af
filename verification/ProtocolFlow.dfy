/** The frame streams of both directions: they compose, and they survive growing history. */
module ProtocolFlow {
  import opened Cells
  import opened Protocol
  import opened ProtocolInv

  /** Every row of `a` is a prefix of the same row of `b`. */
  ghost predicate RowsGrow(a: seq<seq<Cell>>, b: seq<seq<Cell>>) {
    |a| <= |b| && forall e {:trigger a[e]} {:trigger b[e]} :: 0 <= e < |a| ==> a[e] <= b[e]
  }

  ghost predicate Grows(h: Hist, k: Hist) {
    && h.base <= k.base && h.snap <= k.snap && h.first <= k.first
    && (|h.snap| == |h.base| ==> |k.snap| == |k.base|)
    && (|h.first| == |h.rowG| ==> |k.first| == |k.rowG|)
    && RowsGrow(h.rowH, k.rowH) && RowsGrow(h.rowG, k.rowG)
    && (forall x :: x in h.sumH ==> x in k.sumH && k.sumH[x] == h.sumH[x])
    && (forall x :: x in h.sumG ==> x in k.sumG && k.sumG[x] == h.sumG[x])
  }

  lemma {:induction false} DownGrows(cfg: Cfg, h: Hist, k: Hist, q: seq<Msg>, s: Spot, t: Spot)
    requires Grows(h, k) && DownOK(cfg, h, q, s, t)
    ensures DownOK(cfg, k, q, s, t)
    decreases |q|
  {
    if q != [] {
      assert AdvanceDown(cfg, h, s, q[0]) == AdvanceDown(cfg, k, s, q[0]);
      DownGrows(cfg, h, k, q[1..], AdvanceDown(cfg, h, s, q[0]), t);
    }
  }

  lemma {:induction false} UpGrows(cfg: Cfg, h: Hist, k: Hist, q: seq<Msg>, s: Spot, t: Spot)
    requires Grows(h, k) && UpOK(cfg, h, q, s, t)
    ensures UpOK(cfg, k, q, s, t)
    decreases |q|
  {
    if q != [] {
      assert AdvanceUp(h, s, q[0]) == AdvanceUp(k, s, q[0]);
      UpGrows(cfg, h, k, q[1..], AdvanceUp(h, s, q[0]), t);
    }
  }

  lemma {:induction false} DownJoin(cfg: Cfg, h: Hist, q: seq<Msg>, r: seq<Msg>, s: Spot, t: Spot, u: Spot)
    requires DownOK(cfg, h, q, s, t) && DownOK(cfg, h, r, t, u)
    ensures DownOK(cfg, h, q + r, s, u)
    decreases |q|
  {
    if q == [] {
      assert q + r == r;
    } else {
      assert (q + r)[1..] == q[1..] + r;
      DownJoin(cfg, h, q[1..], r, AdvanceDown(cfg, h, s, q[0]), t, u);
    }
  }

  lemma {:induction false} UpJoin(cfg: Cfg, h: Hist, q: seq<Msg>, m: Msg, s: Spot, t: Spot)
    requires UpOK(cfg, h, q, s, t) && UpHead(cfg, h, t, m)
    ensures UpOK(cfg, h, q + [m], s, AdvanceUp(h, t, m))
    decreases |q|
  {
    if q == [] {
      assert q + [m] == [m] && [m][1..] == [];
      assert UpOK(cfg, h, [], AdvanceUp(h, s, m), AdvanceUp(h, s, m));
    } else {
      assert (q + [m])[1..] == q[1..] + [m];
      UpJoin(cfg, h, q[1..], m, AdvanceUp(h, s, q[0]), t);
    }
  }

  lemma DownOne(cfg: Cfg, h: Hist, m: Msg, s: Spot)
    requires DownHead(cfg, h, s, m)
    ensures DownOK(cfg, h, [m], s, AdvanceDown(cfg, h, s, m))
  {
  }

  /** The guest's stream moves forward; an epoch's request, once seen, stays seen. */
  lemma {:induction false} UpForward(cfg: Cfg, h: Hist, q: seq<Msg>, s: Spot, t: Spot)
    requires UpOK(cfg, h, q, s, t) && s.Run?
    ensures t.Run? && s.e <= t.e && (s.e == t.e && s.asked ==> t.asked)
    decreases |q|
  {
    if q != [] {
      UpForward(cfg, h, q[1..], AdvanceUp(h, s, q[0]), t);
    }
  }

  /** A request that the sender has made and the receiver has not seen is in flight. */
  lemma {:induction false} AskedInFlight(cfg: Cfg, h: Hist, q: seq<Msg>, s: Spot, t: Spot) returns (i: nat)
    requires UpOK(cfg, h, q, s, t) && s.Run? && t.Run? && t.asked && !(s.e == t.e && s.asked)
    ensures i < |q| && q[i].f.Resync? && q[i].epoch == t.e
    decreases |q|
  {
    var r := AdvanceUp(h, s, q[0]);
    UpForward(cfg, h, q[1..], r, t);
    if q[0].f.Resync? && r.e == t.e {
      i := 0;
    } else {
      var j := AskedInFlight(cfg, h, q[1..], r, t);
      i := j + 1;
    }
  }

  // ---- the frames of a push ------------------------------------------------------------

  lemma {:induction false} ChunksFlow(cfg: Cfg, h: Hist, e: nat, pos: nat)
    requires e + 1 < |h.base| == |h.snap| && e < |h.rowH| && pos <= IMG_TOTAL
    ensures DownOK(cfg, h, Tagged(e, ChunksFrom(h.snap[e + 1], pos)), Mid(e, pos), Mid(e, IMG_TOTAL))
    decreases IMG_TOTAL - pos
  {
    if pos < IMG_TOTAL {
      var img := h.snap[e + 1];
      var n := if IMG_TOTAL - pos < RS_CHUNK then IMG_TOTAL - pos else RS_CHUNK;
      var q := Tagged(e, ChunksFrom(img, pos));
      assert q[0] == Msg(e, Chunk(pos, img[pos..pos + n]));
      assert q[1..] == Tagged(e, ChunksFrom(img, pos + n));
      ChunksFlow(cfg, h, e, pos + n);
    }
  }

  lemma TaggedJoin(e: nat, a: seq<Frame>, b: seq<Frame>)
    ensures Tagged(e, a + b) == Tagged(e, a) + Tagged(e, b)
  {
  }

  lemma PushFlow(cfg: Cfg, h: Hist, c: Console, e: nat)
    requires e + 1 < |h.base| == |h.snap| && e < |h.rowH|
    requires h.base[e + 1] == c.tick + 16 && h.snap[e + 1] == c.img
    ensures DownOK(cfg, h, Tagged(e, PushFrames(c)), Run(e, c.tick + cfg.d, false), Run(e + 1, c.tick + 16 + cfg.d, false))
  {
    var begin, chunks := Msg(e, Begin(c.tick + 16)), Tagged(e, ChunksFrom(c.img, 0));
    TaggedJoin(e, [Begin(c.tick + 16)] + ChunksFrom(c.img, 0), [End]);
    TaggedJoin(e, [Begin(c.tick + 16)], ChunksFrom(c.img, 0));
    assert Tagged(e, PushFrames(c)) == [begin] + chunks + [Msg(e, End)];
    DownOne(cfg, h, begin, Run(e, c.tick + cfg.d, false));
    ChunksFlow(cfg, h, e, 0);
    DownJoin(cfg, h, [begin], chunks, Run(e, c.tick + cfg.d, false), Mid(e, 0), Mid(e, IMG_TOTAL));
    DownOne(cfg, h, Msg(e, End), Mid(e, IMG_TOTAL));
    DownJoin(cfg, h, [begin] + chunks, [Msg(e, End)], Run(e, c.tick + cfg.d, false), Mid(e, IMG_TOTAL),
             Run(e + 1, c.tick + 16 + cfg.d, false));
  }
}
