/** The protocol's promises restated on the consoles' own cells and byte streams. */
module ByteTheorems {
  import opened Cells
  import opened Stream
  import opened ImageMemory
  import opened Checksum
  import opened ConsoleCells
  import opened Refinement
  import opened ByteSystem
  import opened ProtocolInv
  import opened ProtocolRuns
  import opened ProtocolAgreement
  import opened ProtocolCaptured
  import opened ProtocolRecovery
  import opened ProtocolTheorems
  import P = Protocol

  /** A run of two consoles from START, with the protocol run it stands for: any run with d <= 15,
      or, with d <= 127, one without a push. */
  ghost predicate Playing(game: Game, cfg: P.Cfg, img: Image, b: Sys16, acts: seq<Action16>) {
    && Started(cfg, b, img) && Faithful(game, cfg) && SoundActs(acts)
    && Covered(cfg, img, LiftAll(acts))
  }

  /** What the two levels share of a console's sim. */
  lemma SimRep(cfg: P.Cfg, k: Con, c: P.Console)
    requires Rep(cfg, k, c)
    ensures ImageOf(k.mem) == c.img && CellsSound(k.mem) && k.hold == c.hold && k.pend == c.pend && k.tick == Wrap(c.tick)
  {
    hide CellsSound, ImageOf;
  }

  /** At every open gate the four ring cells a console reads at the low byte of its tick are what
      the two seats captured d ticks earlier, or idle. */
  lemma RingCellsAgree(game: Game, cfg: P.Cfg, img: Image, b: Sys16, acts: seq<Action16>)
    requires Playing(game, cfg, img, b, acts)
    ensures var b' := Exec16(game, b, acts);
            var s0 := P.Init(cfg, img);
            var s := P.Exec(cfg, s0, LiftAll(acts));
            var capH, capG := Captured(cfg, s0, LiftAll(acts), P.Host), Captured(cfg, s0, LiftAll(acts), P.Guest);
            && (b'.host.atGate && !Gated16(b'.host) ==>
                  b'.host.tick == Wrap(s.host.tick) &&
                  ReadRings16(b'.host) == WantedIn(cfg, capH, capG, P.EpochH(s.hist), s.host.tick))
            && (b'.guest.atGate && !Gated16(b'.guest) ==>
                  b'.guest.tick == Wrap(s.guest.tick) &&
                  ReadRings16(b'.guest) == WantedIn(cfg, capH, capG, P.EpochG(s.hist), s.guest.tick))
  {
    hide Inv, Faithful, Gated16, ReadRings16, P.ReadRings, Exec16, P.Exec, P.Init, ImageOf, Started, SoundActs, LinkRep, CellsSound, OwnRep;
    var s := P.Exec(cfg, P.Init(cfg, img), LiftAll(acts));
    var b' := Exec16(game, b, acts);
    RunsRefine(game, cfg, img, b, acts);
    ReadsCaptured(cfg, img, LiftAll(acts));
    DelayPositive(cfg, s);
    GateNear(cfg, s);
    GateRefines(cfg, b'.host, s.host);
    GateRefines(cfg, b'.guest, s.guest);
    ReadRefines(cfg, b'.host, s.host);
    ReadRefines(cfg, b'.guest, s.guest);
  }

  lemma SoundBefore(acts: seq<Action16>, more: seq<Action16>)
    requires SoundActs(acts + more)
    ensures SoundActs(acts)
  {
    hide CellsSound;
    forall i | 0 <= i < |acts| ensures acts[i].Glitch16? || acts[i].Shimmer16? ==> CellsSound(acts[i].mem) {
      assert (acts + more)[i] == acts[i];
    }
  }

  /** Two moments of one run, on both levels. */
  lemma BothMoments(game: Game, cfg: P.Cfg, img: Image, b: Sys16, acts: seq<Action16>, more: seq<Action16>)
    requires Playing(game, cfg, img, b, acts + more)
    ensures LiftAll(acts + more) == LiftAll(acts) + LiftAll(more)
    ensures SysRep(cfg, Exec16(game, b, acts), P.Exec(cfg, P.Init(cfg, img), LiftAll(acts)))
    ensures SysRep(cfg, Exec16(game, b, acts + more), P.Exec(cfg, P.Init(cfg, img), LiftAll(acts) + LiftAll(more)))
  {
    hide Rep, LinkRep, Faithful, P.Exec, P.Init, Exec16, SysRep, Started;
    assert LiftAll(acts + more) == LiftAll(acts) + LiftAll(more);
    RunMore(cfg, P.Init(cfg, img), LiftAll(acts), LiftAll(more));
    SoundBefore(acts, more);
    RunsRefine(game, cfg, img, b, acts);
    RunsRefine(game, cfg, img, b, acts + more);
  }

  /** The lockstep promise on cells: at the open gate of one tick of one epoch, at whatever moments they
      stand there, two consoles (or one) read the same four ring cells. */
  lemma RingCellsMeet(game: Game, cfg: P.Cfg, img: Image, b: Sys16, acts: seq<Action16>, more: seq<Action16>, x: P.Who, y: P.Who)
    requires Playing(game, cfg, img, b, acts + more)
    requires var s0 := P.Init(cfg, img);
             var s, s' := P.Exec(cfg, s0, LiftAll(acts)), P.Exec(cfg, s0, LiftAll(acts + more));
             Open(s, x) && Open(s', y) && EpochOf(s, x) == EpochOf(s', y) && P.Of(s, x).tick == P.Of(s', y).tick
    ensures ReadRings16(Of16(Exec16(game, b, acts), x)) == ReadRings16(Of16(Exec16(game, b, acts + more), y))
  {
    hide Rep, LinkRep, P.Exec, P.Init, Exec16, Open, P.ReadRings, ReadRings16, Started, Faithful;
    var s0 := P.Init(cfg, img);
    BothMoments(game, cfg, img, b, acts, more);
    LockstepAgreement(cfg, img, LiftAll(acts), LiftAll(more), x, y);
    ReadRefines(cfg, Of16(Exec16(game, b, acts), x), P.Of(P.Exec(cfg, s0, LiftAll(acts)), x));
    ReadRefines(cfg, Of16(Exec16(game, b, acts + more), y), P.Of(P.Exec(cfg, s0, LiftAll(acts + more)), y));
  }

  /** The state promise on memory: once two consoles that have not drifted have come to one tick of one
      epoch, at whatever moments, their images are equal but for the volatile bytes. */
  lemma MemoriesMeet(game: Game, cfg: P.Cfg, img: Image, b: Sys16, acts: seq<Action16>, more: seq<Action16>, x: P.Who, y: P.Who)
    requires Playing(game, cfg, img, b, acts + more)
    requires var s0 := P.Init(cfg, img);
             var s, s' := P.Exec(cfg, s0, LiftAll(acts)), P.Exec(cfg, s0, LiftAll(acts + more));
             Undrifted(s, x) && Undrifted(s', y) && EpochOf(s, x) == EpochOf(s', y) && P.Of(s, x).tick == P.Of(s', y).tick
    ensures Steady(ImageOf(Of16(Exec16(game, b, acts), x).mem)) == Steady(ImageOf(Of16(Exec16(game, b, acts + more), y).mem))
  {
    hide LinkRep, Rep, P.Exec, P.Init, Exec16, Undrifted, Started, Faithful, CellsSound, ImageOf, Steady;
    var s0 := P.Init(cfg, img);
    BothMoments(game, cfg, img, b, acts, more);
    SimsAgree(cfg, img, LiftAll(acts), LiftAll(more), x, y);
    SimRep(cfg, Of16(Exec16(game, b, acts), x), P.Of(P.Exec(cfg, s0, LiftAll(acts)), x));
    SimRep(cfg, Of16(Exec16(game, b, acts + more), y), P.Of(P.Exec(cfg, s0, LiftAll(acts + more)), y));
  }

  predicate NoGlitch(acts: seq<Action16>) {
    forall i :: 0 <= i < |acts| ==> !acts[i].Glitch16?
  }

  /** With deterministic games and 1 <= d <= 127, at equal tick counters the two memories hold the
      same image but for the volatile bytes, and so the same checksum; nobody is pending or held. */
  lemma MemoriesAgree(game: Game, cfg: P.Cfg, img: Image, b: Sys16, acts: seq<Action16>)
    requires Started(cfg, b, img) && Faithful(game, cfg) && SoundActs(acts) && NoGlitch(acts) && 1 <= cfg.d <= 127
    ensures var b' := Exec16(game, b, acts);
            && !b'.host.pend && !b'.guest.pend && !b'.guest.hold
            && (b'.host.tick == b'.guest.tick ==>
                  Steady(ImageOf(b'.host.mem)) == Steady(ImageOf(b'.guest.mem)) && Cksum(b'.host.mem) == Cksum(b'.guest.mem))
  {
    hide Inv, Faithful, Cksum, Rep, LinkRep, Exec16, P.Exec, P.Init, ImageOf, Steady, Started, SoundActs, CellsSound, ImageSum;
    var s := P.Exec(cfg, P.Init(cfg, img), LiftAll(acts));
    var b' := Exec16(game, b, acts);
    assert forall i :: 0 <= i < |LiftAll(acts)| ==> !LiftAll(acts)[i].Glitch?;
    NoFalseAlarm(cfg, img, LiftAll(acts));
    RunsRefine(game, cfg, img, b, acts);
    SkewBound(cfg, img, LiftAll(acts));
    SimRep(cfg, b'.host, s.host);
    SimRep(cfg, b'.guest, s.guest);
    WrapEqual(s.host.tick, s.guest.tick);
    SumOfImage(b'.host.mem);
    SumOfImage(b'.guest.mem);
    if s.host.tick == s.guest.tick { VolatileIsExcluded(ImageOf(b'.host.mem), ImageOf(b'.guest.mem)); }
  }

  /** The first n bytes of legal frames parse without a slip, and never leave more than 99. */
  lemma {:induction false} PrefixParses(frames: seq<bytes>, n: nat)
    requires forall f :: f in frames ==> Legal(f)
    requires n <= |Flatten(frames)|
    ensures Parse(Flatten(frames)[..n]).slips == 0 && |Parse(Flatten(frames)[..n]).rest| <= 99
    decreases |frames|
  {
    hide Legal, Judge;
    ParseRest(Flatten(frames)[..n]);
    JudgeWaits(Parse(Flatten(frames)[..n]).rest);
    if frames == [] {
      EmptyParse();
    } else if n < |frames[0]| {
      assert Flatten(frames)[..n] == frames[0][..n];
      PartWaits(frames[0][..n], frames[0]);
    } else {
      var f, tail := frames[0], Flatten(frames[1..])[..n - |frames[0]|];
      assert Flatten(frames)[..n] == f + tail;
      PrefixParses(frames[1..], n - |f|);
      LegalIsTaken(f, tail);
    }
  }

  lemma JudgeWaits(rest: bytes)
    ensures Judge(rest).Wait? ==> |rest| <= 99
  {
  }

  lemma LinkParses(link: Link, net: P.Net, n: nat)
    requires LinkRep(link, net) && n <= |link.wire| && PartOK(net)
    ensures |link.acc| <= 99 && Parse(link.acc + link.wire[..n]).slips == 0
  {
    hide Encode, Legal, Judge, Parse, P.Size;
    var frames := EncodeQueue(net.q);
    forall f | f in frames ensures Legal(f) {
      var i :| 0 <= i < |frames| && frames[i] == f;
      EncodeLegal(net.q[i].f);
    }
    assert link.acc + link.wire[..n] == Flatten(frames)[..|link.acc| + n];
    PrefixParses(frames, |link.acc| + n);
    if net.q != [] {
      EncodeLegal(net.q[0].f);
      FrameSize(net.q[0].f);
    }
  }

  lemma FrameSize(f: P.Frame)
    requires Sendable(f)
    ensures P.Size(f) <= 100
  {
  }

  /** Between the consoles no read ever makes a parser slip, and no accumulator holds more than 99
      bytes before a read, so with reads of at most 64 the 256-byte ring never overflows. */
  lemma NeverSlips(game: Game, cfg: P.Cfg, img: Image, b: Sys16, acts: seq<Action16>, n: nat)
    requires Playing(game, cfg, img, b, acts)
    ensures var b' := Exec16(game, b, acts);
            && |b'.up.acc| <= 99 && |b'.down.acc| <= 99
            && (n <= |b'.up.wire| ==> Parse(b'.up.acc + b'.up.wire[..n]).slips == 0)
            && (n <= |b'.down.wire| ==> Parse(b'.down.acc + b'.down.wire[..n]).slips == 0)
  {
    hide Inv, Faithful, LinkRep, Parse, Rep;
    var s := P.Exec(cfg, P.Init(cfg, img), LiftAll(acts));
    var b' := Exec16(game, b, acts);
    RunsRefine(game, cfg, img, b, acts);
    PartInv(cfg, s);
    LinkParses(b'.up, s.up, if n <= |b'.up.wire| then n else 0);
    LinkParses(b'.down, s.down, if n <= |b'.down.wire| then n else 0);
  }

  /** When END is the next frame the guest's memory holds the pushed image, but for volatile bytes that
      the interrupt has moved, and the guest is in its hold; no tick has run since the first data chunk. */
  lemma PushedImageWhole(game: Game, cfg: P.Cfg, img: Image, b: Sys16, acts: seq<Action16>)
    requires Playing(game, cfg, img, b, acts)
    ensures var b' := Exec16(game, b, acts);
            var s := P.Exec(cfg, P.Init(cfg, img), LiftAll(acts));
            s.down.q != [] && s.down.q[0].f.End? ==>
              && P.EpochG(s.hist) + 1 < |s.hist.snap|
              && b'.guest.hold && Steady(ImageOf(b'.guest.mem)) == Steady(s.hist.snap[P.EpochG(s.hist) + 1])
  {
    hide Inv, Faithful, LinkRep, Rep, Exec16, P.Exec, P.Init, ImageOf, Steady, Started, SoundActs;
    RunsRefine(game, cfg, img, b, acts);
    NoTornImage(cfg, img, LiftAll(acts));
    var s := P.Exec(cfg, P.Init(cfg, img), LiftAll(acts));
    SimRep(cfg, Exec16(game, b, acts).guest, s.guest);
  }

  // ---- what frames can write ---------------------------------------------------------------------

  /** Whatever frames arrive, nothing outside the image is written: chunks and START's random numbers go
      to cells of the image, everything else to the protocol's own cells. */
  lemma {:induction false} FramesStayInside(c: Con, fs: seq<bytes>)
    requires forall f :: f in fs ==> Legal(f)
    ensures OnlyImageChanged(c.mem, OnFrames16(c, fs).0.mem)
    decreases |fs|
  {
    if fs != [] {
      FrameStaysInside(c, fs[0]);
      FramesStayInside(OnFrame16(c, fs[0]).0, fs[1..]);
    }
  }

  lemma FrameStaysInside(c: Con, f: bytes)
    requires Legal(f)
    ensures OnlyImageChanged(c.mem, OnFrame16(c, f).0.mem)
  {
    hide PutRun;
    if f[1] == FT_STATE && f[0] > 3 && f[3] < 4 && Pair(f[2], f[3]) as int + (f[0] as int - 3) <= IMG_TOTAL {
      PutRunSplices(c.mem, Pair(f[2], f[3]) as nat, f[4..]);
    }
  }
}
