/** Two 16-bit consoles joined by byte streams, and the proof that they follow the protocol
    system step by step, so that everything proved of its runs holds of theirs. */
module ByteSystem {
  import opened Cells
  import opened Stream
  import opened ImageMemory
  import opened Checksum
  import opened ConsoleCells
  import opened Refinement
  import opened ProtocolInv
  import opened ProtocolCapture
  import opened ProtocolTick
  import opened ProtocolDeliverUp
  import opened ProtocolDeliverDown
  import opened ProtocolRuns
  import P = Protocol

  /** One direction: bytes in the receiver's accumulator and bytes still on the wire. */
  datatype Link = Link(acc: bytes, wire: bytes)

  datatype Pumped = Pumped(con: Con, link: Link, out: seq<bytes>)

  /** SES_PUMP: read at most k bytes, parse, dispatch. */
  function Pump16(c: Con, link: Link, k: nat): Pumped {
    var n := if k < |link.wire| then k else |link.wire|;
    var p := Parse(link.acc + link.wire[..n]);
    ParsedLegal(link.acc + link.wire[..n]);
    var (c', out) := OnFrames16(c, p.frames);
    Pumped(c', Link(p.rest, link.wire[n..]), out)
  }

  function Send(link: Link, out: seq<bytes>): Link {
    link.(wire := link.wire + Flatten(out))
  }

  datatype Sys16 = Sys16(host: Con, guest: Con, up: Link, down: Link)

  datatype Action16 =
    | Enter16(who: P.Who, k: nat, cell: Cell)
    | Gate16(who: P.Who, k: nat)
    | Listen16(who: P.Who, k: nat)
    | Glitch16(who: P.Who, mem: Memory)
    | Shimmer16(who: P.Who, mem: Memory)

  function Of16(b: Sys16, who: P.Who): Con { if who == P.Host then b.host else b.guest }

  predicate Enabled16(b: Sys16, a: Action16) {
    var c := Of16(b, a.who);
    match a
    case Enter16(_, k, _) => k <= 64 && !c.atGate
    case Gate16(_, k) => k <= 64 && c.atGate
    case Listen16(_, k) => k <= 64 && !c.atGate
    case Glitch16(_, _) => !c.atGate && !c.hold
    case Shimmer16(_, mem) => Steady(ImageOf(mem)) == Steady(ImageOf(c.mem))
  }

  function PumpHost16(b: Sys16, k: nat): Sys16 {
    var p := Pump16(b.host, b.up, k);
    b.(host := p.con, up := p.link, down := Send(b.down, p.out))
  }

  function PumpGuest16(b: Sys16, k: nat): Sys16 {
    var p := Pump16(b.guest, b.down, k);
    b.(guest := p.con, down := p.link, up := Send(b.up, p.out))
  }

  function Step16(game: Game, b: Sys16, a: Action16): Sys16 {
    match a
    case Enter16(Host, k, cell) =>
      var b1 := PumpHost16(b, k);
      if b.host.hold then b1 else
      var (c, f) := Capture16(b1.host, cell);
      b1.(host := c, down := Send(b1.down, [f]))
    case Enter16(Guest, k, cell) =>
      var b1 := PumpGuest16(b, k);
      if b.guest.hold then b1 else
      var (c, f) := Capture16(b1.guest, cell);
      b1.(guest := c, up := Send(b1.up, [f]))
    case Gate16(Host, k) =>
      if Gated16(b.host) then PumpHost16(b, k) else
      var (c, out) := Finish16(game, b.host);
      b.(host := c, down := Send(b.down, out))
    case Gate16(Guest, k) =>
      if Gated16(b.guest) then PumpGuest16(b, k) else
      var (c, out) := Finish16(game, b.guest);
      b.(guest := c, up := Send(b.up, out))
    case Listen16(Host, k) => PumpHost16(b, k)
    case Listen16(Guest, k) => PumpGuest16(b, k)
    case Glitch16(Host, mem) => b.(host := b.host.(mem := mem))
    case Glitch16(Guest, mem) => b.(guest := b.guest.(mem := mem))
    case Shimmer16(Host, mem) => b.(host := b.host.(mem := mem))
    case Shimmer16(Guest, mem) => b.(guest := b.guest.(mem := mem))
  }

  function Exec16(game: Game, b: Sys16, acts: seq<Action16>): Sys16
    decreases |acts|
  {
    if acts == [] then b else
    var b1 := Exec16(game, b, acts[..|acts| - 1]);
    var a := acts[|acts| - 1];
    if Enabled16(b1, a) then Step16(game, b1, a) else b1
  }

  function Lift(a: Action16): P.Action {
    match a
    case Enter16(who, k, cell) => P.Enter(who, k, cell)
    case Gate16(who, k) => P.Gate(who, k)
    case Listen16(who, k) => P.Listen(who, k)
    case Glitch16(who, mem) => P.Glitch(who, ImageOf(mem))
    case Shimmer16(who, mem) => P.Shimmer(who, ImageOf(mem))
  }

  function LiftAll(acts: seq<Action16>): seq<P.Action> {
    seq(|acts|, i requires 0 <= i < |acts| => Lift(acts[i]))
  }

  // ---- representation ------------------------------------------------------------------------

  predicate QueueSendable(q: seq<P.Msg>) {
    forall i :: 0 <= i < |q| ==> Sendable(q[i].f)
  }

  function EncodeQueue(q: seq<P.Msg>): (r: seq<bytes>)
    requires QueueSendable(q)
    ensures |r| == |q|
  {
    seq(|q|, i requires 0 <= i < |q| => Encode(q[i].f))
  }

  ghost predicate LinkRep(link: Link, net: P.Net) {
    && QueueSendable(net.q)
    && link.acc + link.wire == Flatten(EncodeQueue(net.q))
    && |link.acc| == net.part
  }

  ghost predicate SysRep(cfg: P.Cfg, b: Sys16, s: P.Sys) {
    && Rep(cfg, b.host, s.host) && Rep(cfg, b.guest, s.guest)
    && LinkRep(b.up, s.up) && LinkRep(b.down, s.down)
  }

  lemma QueueJoin(q: seq<P.Msg>, r: seq<P.Msg>)
    requires QueueSendable(q) && QueueSendable(r)
    ensures QueueSendable(q + r) && EncodeQueue(q + r) == EncodeQueue(q) + EncodeQueue(r)
  {
  }

  lemma TaggedEncode(e: nat, fs: seq<P.Frame>)
    requires AllSendable(fs)
    ensures QueueSendable(P.Tagged(e, fs)) && EncodeQueue(P.Tagged(e, fs)) == EncodeAll(fs)
  {
  }

  lemma WireJoin(acc: bytes, wire: bytes, more: bytes, a: seq<bytes>, b: seq<bytes>)
    requires acc + wire == Flatten(a) && more == Flatten(b)
    ensures acc + (wire + more) == Flatten(a + b)
  {
    FlattenJoin(a, b);
    assert acc + (wire + more) == (acc + wire) + more;
  }

  /** Sending frames on both levels. */
  lemma SendRefines(link: Link, net: P.Net, net': P.Net, msgs: seq<P.Msg>, out: seq<bytes>)
    requires LinkRep(link, net) && QueueSendable(msgs) && EncodeQueue(msgs) == out
    requires net'.q == net.q + msgs && net'.part == net.part
    ensures LinkRep(Send(link, out), net')
  {
    hide EncodeQueue, QueueSendable, Flatten;
    QueueJoin(net.q, msgs);
    WireJoin(link.acc, link.wire, Flatten(out), EncodeQueue(net.q), out);
  }

  lemma {:induction false} SendUpQueue(h: P.Hist, net: P.Net, fs: seq<P.Frame>)
    ensures P.SendUp(h, net, fs).q == net.q + P.Tagged(P.EpochG(h), fs) && P.SendUp(h, net, fs).part == net.part
    decreases |fs|
  {
    if fs == [] {
      assert net.q + P.Tagged(P.EpochG(h), fs) == net.q;
    } else {
      var m := P.Msg(P.EpochG(h), fs[0]);
      SendUpQueue(h, net.(q := net.q + [m], tip := P.AdvanceUp(h, net.tip, m)), fs[1..]);
      assert P.Tagged(P.EpochG(h), fs) == [m] + P.Tagged(P.EpochG(h), fs[1..]);
      assert net.q + P.Tagged(P.EpochG(h), fs) == (net.q + [m]) + P.Tagged(P.EpochG(h), fs[1..]);
    }
  }

  // ---- ticks that meet are near ------------------------------------------------------------

  lemma GateNear(cfg: P.Cfg, s: P.Sys)
    requires Inv(cfg, s)
    ensures -1 <= s.host.wm - s.host.tick <= 2 * cfg.d + 2
    ensures -1 <= s.guest.wm - s.guest.tick <= 2 * cfg.d + 2
  {
  }

  lemma OwnRecords(cfg: P.Cfg, s: P.Sys)
    requires Inv(cfg, s)
    ensures forall i :: 0 <= i < 4 && s.host.own[i].Record? ==>
              P.Slot(s.host.own[i].tick) == i && s.host.own[i].tick < s.host.tick <= s.host.own[i].tick + 256
    ensures forall i :: 0 <= i < 4 && s.guest.own[i].Record? ==>
              P.Slot(s.guest.own[i].tick) == i && s.guest.own[i].tick < s.guest.tick <= s.guest.own[i].tick + 256
  {
  }

  /** The host's position in the guest's stream is not far behind its own watermark. */
  lemma SpotNear(cfg: P.Cfg, h: P.Hist, wm: int, hold: bool, pend: bool, r: P.Spot)
    requires HistOK(cfg, h) && DelayOK(cfg, h) && HostSpotOK(cfg, h, wm, hold, pend, r)
    ensures r.Run? && wm - 100 <= r.n && (r.e == P.EpochH(h) ==> r.n <= wm + 2)
  {
    if r.e < P.EpochH(h) {
      assert P.EpochH(h) <= r.e + 2;
      if r.e + 1 < P.EpochH(h) {
        assert |h.rowH[r.e + 1]| <= cfg.d;
        assert h.base[r.e + 2] == h.base[r.e + 1] + |h.rowH[r.e + 1]| + 16;
      }
    }
  }

  lemma UpNear(cfg: P.Cfg, s: P.Sys)
    requires Inv(cfg, s) && s.up.q != [] && Sendable(s.up.q[0].f)
    ensures Near(s.host, s.up.q[0].f)
  {
    hide FlightOK, GuestSpotOK, HostSpotOK, NoLoss, PendOK, CleanSums, HostOK, GuestOK, HistOK, UpHead, P.AdvanceUp, P.Catch, P.Slot;
    var h, c, m := s.hist, s.host, s.up.q[0];
    UpRest(cfg, h, s.up, s.down, s.guest.pend);
    HeadEpoch(cfg, h, s.up.spot, m);
    HeadKinds(cfg, h, s.up.spot, m);
    CatchSpot(cfg, h, c.wm, c.hold, c.pend, c.ptmo, s.guest.pend, s.up.spot, m.epoch);
    var r := P.Catch(h, s.up.spot, m.epoch);
    SpotNear(cfg, h, c.wm, c.hold, c.pend, r);
    HeadTick(cfg, h, r, m);
    GateNear(cfg, s);
    OwnRecords(cfg, s);
    HostFacts(cfg, h, c, s.pureH);
    if r.e < P.EpochH(h) {
      HeadStale(cfg, s, r, m);
    }
  }

  lemma HeadTick(cfg: P.Cfg, h: P.Hist, r: P.Spot, m: P.Msg)
    requires UpHead(cfg, h, r, m) && m.epoch == r.e
    ensures m.f.Input? ==> m.f.tick == r.n && m.f.seat == 1
    ensures m.f.Crc? ==> m.f.tick + cfg.d + 1 == r.n && m.f.tick % 64 == 0
  {
  }

  lemma HeadStale(cfg: P.Cfg, s: P.Sys, r: P.Spot, m: P.Msg)
    requires Inv(cfg, s) && HostSpotOK(cfg, s.hist, s.host.wm, s.host.hold, s.host.pend, r)
    requires r.e < P.EpochH(s.hist) && UpHead(cfg, s.hist, r, m) && m.epoch == r.e
    ensures m.f.Input? || m.f.Crc? ==> m.f.tick <= s.host.wm
  {
    hide FlightOK, GuestSpotOK, NoLoss, PendOK, CleanSums, HostOK, GuestOK;
    var h := s.hist;
    BasesGrow(cfg, h, r.e + 1, P.EpochH(h));
    assert h.base[r.e] + |h.rowG[r.e]| <= h.base[r.e + 1] - 15 + cfg.d;
  }

  lemma DownNear(cfg: P.Cfg, s: P.Sys)
    requires Inv(cfg, s) && s.down.q != [] && Sendable(s.down.q[0].f)
    ensures Near(s.guest, s.down.q[0].f)
  {
    hide FlightOK, HostSpotOK, NoLoss, PendOK, CleanSums, HostOK, GuestOK, HistOK, P.Slot;
    PartInv(cfg, s);
    GateNear(cfg, s);
    OwnRecords(cfg, s);
  }

  // ---- pumps ---------------------------------------------------------------------------------

  /** Enough of the stream is buffered for k more bytes, or all of it. */
  ghost predicate Holds(buf: bytes, rest: bytes, net: P.Net, k: nat) {
    && QueueSendable(net.q)
    && buf + rest == Flatten(EncodeQueue(net.q))
    && (|buf| == net.part + k || (rest == [] && |buf| <= net.part + k))
  }

  lemma Front(buf: bytes, rest: bytes, f: bytes, tail: bytes, n: nat)
    requires buf + rest == f + tail && (|buf| == n || (rest == [] && |buf| <= n))
    ensures n < |f| ==> |buf| == n && buf == f[..n]
    ensures n >= |f| ==> |buf| >= |f| && buf[..|f|] == f && buf == f + buf[|f|..] && buf[|f|..] + rest == tail
  {
    assert |buf + rest| == |f| + |tail|;
    if n < |f| {
      assert buf == (buf + rest)[..n] == (f + tail)[..n];
    } else {
      assert buf[..|f|] == (buf + rest)[..|f|] == (f + tail)[..|f|];
      assert buf[|f|..] + rest == (buf + rest)[|f|..] == (f + tail)[|f|..];
    }
  }

  /** What the parser finds at the front of the buffer. */
  lemma FrontOfBuffer(buf: bytes, rest: bytes, net: P.Net, k: nat)
    requires Holds(buf, rest, net, k) && PartOK(net)
    ensures net.q == [] ==> buf == [] && rest == []
    ensures net.q != [] ==>
              var f := Encode(net.q[0].f);
              && Legal(f) && |f| == P.Size(net.q[0].f)
              && (net.part + k < |f| ==> PartOf(buf, f) && |buf| == net.part + k)
              && (net.part + k >= |f| ==>
                    && |buf| >= |f| && buf == f + buf[|f|..]
                    && Holds(buf[|f|..], rest, net.(q := net.q[1..], part := 0), net.part + k - |f|))
  {
    hide Encode, Legal, P.Size;
    if net.q != [] {
      var f := Encode(net.q[0].f);
      EncodeLegal(net.q[0].f);
      assert EncodeQueue(net.q) == [f] + EncodeQueue(net.q[1..]);
      Front(buf, rest, f, Flatten(EncodeQueue(net.q[1..])), net.part + k);
    }
  }

  /** The pump of buf by console b leaves it where the protocol's pump leaves c, silently. */
  ghost predicate HostPumped(cfg: P.Cfg, b: Con, buf: bytes, rest: bytes, s: P.Sys, s': P.Sys) {
    && (forall f :: f in Parse(buf).frames ==> Legal(f))
    && var p := Parse(buf);
       && p.slips == 0
       && Rep(cfg, OnFrames16(b, p.frames).0, s'.host) && OnFrames16(b, p.frames).1 == []
       && LinkRep(Link(p.rest, rest), s'.up)
       && s'.down.q == s.down.q && s'.down.part == s.down.part && s'.guest == s.guest
  }

  lemma PumpedOne(cfg: P.Cfg, b: Con, wire: bytes, buf: bytes, rest: bytes, s: P.Sys, s1: P.Sys, s': P.Sys)
    requires Legal(wire) && OnFrame16(b, wire).1 == []
    requires HostPumped(cfg, OnFrame16(b, wire).0, buf, rest, s1, s')
    requires s1.guest == s.guest && s1.down.q == s.down.q && s1.down.part == s.down.part
    ensures HostPumped(cfg, b, wire + buf, rest, s, s')
  {
    hide Rep, Judge, Legal, OnFrame16, LinkRep, Parse;
    LegalIsTaken(wire, buf);
    ParsedLegal(wire + buf);
    var p := Parse(wire + buf);
    assert p.frames[1..] == Parse(buf).frames;
  }

  lemma PumpedNone(cfg: P.Cfg, b: Con, buf: bytes, rest: bytes, s: P.Sys, s': P.Sys)
    requires Parse(buf) == Parsed([], 0, buf) && Rep(cfg, b, s'.host) && LinkRep(Link(buf, rest), s'.up)
    requires s'.down == s.down && s'.guest == s.guest
    ensures HostPumped(cfg, b, buf, rest, s, s')
  {
  }

  lemma {:induction false} HostPumpRefines(cfg: P.Cfg, b: Con, buf: bytes, rest: bytes, s: P.Sys, k: nat)
    requires Inv(cfg, s) && Room(s.host, s.up.part, k) && Rep(cfg, b, s.host) && Holds(buf, rest, s.up, k)
    ensures HostPumped(cfg, b, buf, rest, s, P.PumpHost(cfg, s, k))
    decreases |s.up.q|
  {
    hide Inv, Rep, Judge, Legal, P.OnFrame, OnFrame16, Near, P.AdvanceUp, Encode, Parse, HostPumped, P.DeliverHost, Room;
    PartInv(cfg, s);
    FrontOfBuffer(buf, rest, s.up, k);
    if s.up.q == [] {
      EmptyParse();
      PumpedNone(cfg, b, buf, rest, s, s);
    } else if s.up.part + k < P.Size(s.up.q[0].f) {
      PartWaits(buf, Encode(s.up.q[0].f));
      PumpedNone(cfg, b, buf, rest, s, P.PumpHost(cfg, s, k));
    } else {
      var f := s.up.q[0].f;
      var wire := Encode(f);
      var s1 := P.DeliverHost(cfg, s);
      UpNear(cfg, s);
      DelayPositive(cfg, s);
      FrameRefines(cfg, b, s.host, f);
      PumpStep(cfg, s, k);
      HostSilent(cfg, s);
      assert EncodeAll([]) == [];
      HostPumpRefines(cfg, OnFrame16(b, wire).0, buf[|wire|..], rest, s1, s.up.part + k - |wire|);
      PumpedOne(cfg, b, wire, buf[|wire|..], rest, s, s1, P.PumpHost(cfg, s, k));
    }
  }

  lemma EmptyParse()
    ensures Parse([]) == Parsed([], 0, [])
  {
  }

  lemma DelayPositive(cfg: P.Cfg, s: P.Sys)
    requires Inv(cfg, s)
    ensures 1 <= cfg.d <= 127
  {
  }

  /** The host answers no frame. */
  lemma HostSilent(cfg: P.Cfg, s: P.Sys)
    requires Inv(cfg, s) && s.up.q != []
    ensures P.OnFrame(cfg, s.host, s.up.q[0].f).1 == []
    ensures var s1 := P.DeliverHost(cfg, s);
            && s1.host == P.OnFrame(cfg, s.host, s.up.q[0].f).0 && s1.guest == s.guest
            && s1.up.q == s.up.q[1..] && s1.up.part == 0 && s1.down.q == s.down.q && s1.down.part == s.down.part
  {
    hide FlightOK, GuestSpotOK, HostSpotOK, NoLoss, PendOK, CleanSums, GuestOK, P.AdvanceUp;
    TaggedNone(P.EpochH(s.hist));
  }

  // ---- the guest's pump -------------------------------------------------------------------

  /** The same for the guest, whose answers join its queue. */
  ghost predicate GuestPumped(cfg: P.Cfg, b: Con, buf: bytes, rest: bytes, s: P.Sys, s': P.Sys) {
    && (forall f :: f in Parse(buf).frames ==> Legal(f))
    && var p := Parse(buf);
       && p.slips == 0
       && Rep(cfg, OnFrames16(b, p.frames).0, s'.guest)
       && LinkRep(Link(p.rest, rest), s'.down)
       && Answered(s.up, s'.up, OnFrames16(b, p.frames).1)
       && s'.host == s.host
  }

  ghost predicate Answered(net: P.Net, net': P.Net, out: seq<bytes>) {
    && net.q <= net'.q && net'.part == net.part
    && QueueSendable(net'.q[|net.q|..]) && EncodeQueue(net'.q[|net.q|..]) == out
  }

  lemma AnsweredJoin(a: P.Net, b: P.Net, c: P.Net, out1: seq<bytes>, out2: seq<bytes>)
    requires Answered(a, b, out1) && Answered(b, c, out2)
    ensures Answered(a, c, out1 + out2)
  {
  }

  lemma GuestOne(cfg: P.Cfg, b: Con, wire: bytes, buf: bytes, rest: bytes, s: P.Sys, s1: P.Sys, s': P.Sys)
    requires Legal(wire) && Answered(s.up, s1.up, OnFrame16(b, wire).1) && s1.host == s.host
    requires GuestPumped(cfg, OnFrame16(b, wire).0, buf, rest, s1, s')
    ensures GuestPumped(cfg, b, wire + buf, rest, s, s')
  {
    hide Rep, Judge, Legal, OnFrame16, LinkRep, Parse, Answered;
    LegalIsTaken(wire, buf);
    ParsedLegal(wire + buf);
    var p := Parse(wire + buf);
    assert p.frames[1..] == Parse(buf).frames;
    AnsweredJoin(s.up, s1.up, s'.up, OnFrame16(b, wire).1, OnFrames16(OnFrame16(b, wire).0, p.frames[1..]).1);
  }

  lemma GuestNone(cfg: P.Cfg, b: Con, buf: bytes, rest: bytes, s: P.Sys, s': P.Sys)
    requires Parse(buf) == Parsed([], 0, buf) && Rep(cfg, b, s'.guest) && LinkRep(Link(buf, rest), s'.down)
    requires s'.up == s.up && s'.host == s.host
    ensures GuestPumped(cfg, b, buf, rest, s, s')
  {
  }

  lemma GuestAnswers(cfg: P.Cfg, s: P.Sys)
    requires s.down.q != []
    ensures var (c, out) := P.OnFrame(cfg, s.guest, s.down.q[0].f);
            var s1 := P.DeliverGuest(cfg, s);
            && s1.guest == c && s1.host == s.host && s1.down.q == s.down.q[1..] && s1.down.part == 0
            && s1.up.q == s.up.q + P.Tagged(P.EpochG(s.hist), out) && s1.up.part == s.up.part
  {
    hide P.AdvanceDown, P.SendUp, P.Tagged;
    var (c, out) := P.OnFrame(cfg, s.guest, s.down.q[0].f);
    SendUpQueue(s.hist, s.up, out);
    if out == [] {
      TaggedNone(P.EpochG(s.hist));
    }
  }

  lemma AnswerOne(e: nat, net: P.Net, net': P.Net, out: seq<P.Frame>)
    requires AllSendable(out) && net'.q == net.q + P.Tagged(e, out) && net'.part == net.part
    ensures Answered(net, net', EncodeAll(out))
  {
  }

  /** The guest takes its head frame on both levels. */
  lemma GuestTakes(cfg: P.Cfg, b: Con, s: P.Sys, k: nat)
    requires Inv(cfg, s) && PumpSafe(s, k) && Rep(cfg, b, s.guest)
    requires s.down.q != [] && Sendable(s.down.q[0].f) && s.down.part + k >= P.Size(s.down.q[0].f)
    ensures var wire, s1 := Encode(s.down.q[0].f), P.DeliverGuest(cfg, s);
            && Legal(wire) && Rep(cfg, OnFrame16(b, wire).0, s1.guest) && Answered(s.up, s1.up, OnFrame16(b, wire).1)
            && Inv(cfg, s1) && PumpSafe(s1, s.down.part + k - P.Size(s.down.q[0].f))
            && s1.host == s.host && s1.down.q == s.down.q[1..] && s1.down.part == 0
  {
    hide Inv, Rep, Legal, P.OnFrame, OnFrame16, Near, Encode, P.DeliverGuest, PumpSafe, P.Tagged;
    var f, s1 := s.down.q[0].f, P.DeliverGuest(cfg, s);
    DownNear(cfg, s);
    DelayPositive(cfg, s);
    FrameRefines(cfg, b, s.guest, f);
    SafeStep(cfg, s, k);
    GuestAnswers(cfg, s);
    AnswerOne(P.EpochG(s.hist), s.up, s1.up, P.OnFrame(cfg, s.guest, f).1);
  }

  lemma {:induction false} GuestPumpRefines(cfg: P.Cfg, b: Con, buf: bytes, rest: bytes, s: P.Sys, k: nat)
    requires Inv(cfg, s) && PumpSafe(s, k) && Rep(cfg, b, s.guest) && Holds(buf, rest, s.down, k)
    ensures GuestPumped(cfg, b, buf, rest, s, P.PumpGuest(cfg, s, k)) && Inv(cfg, P.PumpGuest(cfg, s, k))
    decreases |s.down.q|
  {
    hide Inv, Rep, Judge, Legal, OnFrame16, Encode, Parse, GuestPumped, P.DeliverGuest, PumpSafe, Answered;
    PartInv(cfg, s);
    FrontOfBuffer(buf, rest, s.down, k);
    if s.down.q == [] {
      EmptyParse();
      GuestNone(cfg, b, buf, rest, s, s);
    } else if s.down.part + k < P.Size(s.down.q[0].f) {
      var s' := P.PumpGuest(cfg, s, k);
      BytesArrive(cfg, s, s.up.part, s.down.part + k);
      assert s.(up := s.up.(part := s.up.part), down := s.down.(part := s.down.part + k)) == s';
      PartWaits(buf, Encode(s.down.q[0].f));
      GuestNone(cfg, b, buf, rest, s, s');
    } else {
      var f := s.down.q[0].f;
      var wire := Encode(f);
      var s1 := P.DeliverGuest(cfg, s);
      GuestTakes(cfg, b, s, k);
      GuestPumpRefines(cfg, OnFrame16(b, wire).0, buf[|wire|..], rest, s1, s.down.part + k - |wire|);
      GuestOne(cfg, b, wire, buf[|wire|..], rest, s, s1, P.PumpGuest(cfg, s, k));
    }
  }

  // ---- steps -------------------------------------------------------------------------------

  lemma PumpHolds(link: Link, net: P.Net, k: nat)
    requires LinkRep(link, net)
    ensures var n := if k < |link.wire| then k else |link.wire|;
            Holds(link.acc + link.wire[..n], link.wire[n..], net, k)
  {
  }

  lemma LinkAnswered(link: Link, net: P.Net, net': P.Net, out: seq<bytes>)
    requires LinkRep(link, net) && Answered(net, net', out)
    ensures LinkRep(Send(link, out), net')
  {
    assert net'.q == net.q + net'.q[|net.q|..];
    SendRefines(link, net, net', net'.q[|net.q|..], out);
  }

  lemma SendNothing(link: Link)
    ensures Send(link, []) == link
  {
  }

  lemma PumpHostRefines16(cfg: P.Cfg, b: Sys16, s: P.Sys, k: nat)
    requires Inv(cfg, s) && SysRep(cfg, b, s) && MayPump(s.host, k)
    ensures SysRep(cfg, PumpHost16(b, k), P.PumpHost(cfg, s, k))
  {
    hide Inv, Rep, Legal, LinkRep, Parse;
    PumpHolds(b.up, s.up, k);
    var n := if k < |b.up.wire| then k else |b.up.wire|;
    HostPumpRefines(cfg, b.host, b.up.acc + b.up.wire[..n], b.up.wire[n..], s, k);
    SendNothing(b.down);
    SameQueue(b.down, s.down, P.PumpHost(cfg, s, k).down);
  }

  lemma SameQueue(link: Link, net: P.Net, net': P.Net)
    requires LinkRep(link, net) && net'.q == net.q && net'.part == net.part
    ensures LinkRep(link, net')
  {
  }

  lemma PumpGuestRefines16(cfg: P.Cfg, b: Sys16, s: P.Sys, k: nat)
    requires Inv(cfg, s) && SysRep(cfg, b, s) && MayPump(s.guest, k)
    ensures SysRep(cfg, PumpGuest16(b, k), P.PumpGuest(cfg, s, k))
  {
    hide Inv, Rep, Legal, LinkRep, Parse, PumpSafe, Answered;
    PumpIsSafe(s, k);
    PumpHolds(b.down, s.down, k);
    var n := if k < |b.down.wire| then k else |b.down.wire|;
    var p := Pump16(b.guest, b.down, k);
    GuestPumpRefines(cfg, b.guest, b.down.acc + b.down.wire[..n], b.down.wire[n..], s, k);
    LinkAnswered(b.up, s.up, P.PumpGuest(cfg, s, k).up, p.out);
  }

  lemma CaptureHost16(cfg: P.Cfg, b: Sys16, s: P.Sys, cell: Cell)
    requires SysRep(cfg, b, s)
    ensures var (c, f) := Capture16(b.host, cell);
            SysRep(cfg, b.(host := c, down := Send(b.down, [f])), P.CaptureHost(cfg, s, cell))
  {
    hide Rep, LinkRep, Encode, P.Tagged;
    CaptureRefines(cfg, b.host, s.host, cell);
    var out, s' := P.Capture(cfg, s.host, cell).1, P.CaptureHost(cfg, s, cell);
    TaggedEncode(P.EpochH(s.hist), out);
    SendRefines(b.down, s.down, s'.down, P.Tagged(P.EpochH(s.hist), out), EncodeAll(out));
    SameQueue(b.up, s.up, s'.up);
  }

  lemma CaptureGuest16(cfg: P.Cfg, b: Sys16, s: P.Sys, cell: Cell)
    requires SysRep(cfg, b, s)
    ensures var (c, f) := Capture16(b.guest, cell);
            SysRep(cfg, b.(guest := c, up := Send(b.up, [f])), P.CaptureGuest(cfg, s, cell))
  {
    hide Rep, LinkRep, Encode, P.Tagged, P.SendUp;
    CaptureRefines(cfg, b.guest, s.guest, cell);
    var out, s' := P.Capture(cfg, s.guest, cell).1, P.CaptureGuest(cfg, s, cell);
    TaggedEncode(P.EpochG(s.hist), out);
    SendUpQueue(s'.hist, s.up, out);
    assert P.EpochG(s'.hist) == P.EpochG(s.hist);
    SendRefines(b.up, s.up, s'.up, P.Tagged(P.EpochG(s.hist), out), EncodeAll(out));
  }

  lemma FinishGuest16(game: Game, cfg: P.Cfg, b: Sys16, s: P.Sys)
    requires SysRep(cfg, b, s) && Faithful(game, cfg) && s.guest.seat == 1
    ensures var (c, out) := Finish16(game, b.guest);
            SysRep(cfg, b.(guest := c, up := Send(b.up, out)), P.TickGuest(cfg, s))
  {
    hide LinkRep, P.Tagged, P.SendUp, P.ReadRings, ReadRings16, Cksum, ImageOf, CellsSound, Faithful, OwnRep;
    TickRefines(game, cfg, b.guest, s.guest);
    var out, s' := P.RunTick(cfg, s.guest).1, P.TickGuest(cfg, s);
    TaggedEncode(P.EpochG(s.hist), out);
    SendUpQueue(s'.hist, s.up, out);
    SendRefines(b.up, s.up, s'.up, P.Tagged(P.EpochG(s.hist), out), EncodeAll(out));
  }

  lemma TickHost16(game: Game, cfg: P.Cfg, b: Sys16, s: P.Sys)
    requires SysRep(cfg, b, s) && Faithful(game, cfg)
    ensures var (c, out) := Tick16(game, b.host);
            SysRep(cfg, b.(host := c, down := Send(b.down, out)), P.TickHost(cfg, s))
  {
    hide Rep, LinkRep, P.Tagged, Faithful, P.RunTick, Tick16;
    TickRefines(game, cfg, b.host, s.host);
    var out, s' := P.RunTick(cfg, s.host).1, P.TickHost(cfg, s);
    TaggedEncode(P.EpochH(s.hist), out);
    SendRefines(b.down, s.down, s'.down, P.Tagged(P.EpochH(s.hist), out), EncodeAll(out));
    SameQueue(b.up, s.up, s'.up);
  }

  lemma PushHost16(cfg: P.Cfg, b: Sys16, s: P.Sys)
    requires SysRep(cfg, b, s) && cfg.d >= 1
    ensures var (c, out) := Push16(b.host);
            SysRep(cfg, b.(host := c, down := Send(b.down, out)), P.PushHost(cfg, s))
  {
    hide Rep, LinkRep, P.Tagged, P.PushFrames, PushFrames16, P.Rebase, Rebase16, P.EnterHold, EnterHold16;
    PushRefines(cfg, b.host, s.host);
    var out, s' := P.PushFrames(s.host), P.PushHost(cfg, s);
    TaggedEncode(P.EpochH(s.hist), out);
    SendRefines(b.down, s.down, s'.down, P.Tagged(P.EpochH(s.hist), out), EncodeAll(out));
    SameQueue(b.up, s.up, s'.up);
  }

  lemma SendTwice(link: Link, a: seq<bytes>, b: seq<bytes>)
    ensures Send(Send(link, a), b) == Send(link, a + b)
  {
    FlattenJoin(a, b);
    assert link.wire + Flatten(a) + Flatten(b) == link.wire + (Flatten(a) + Flatten(b));
  }

  lemma FinishHost16(game: Game, cfg: P.Cfg, b: Sys16, s: P.Sys)
    requires SysRep(cfg, b, s) && Faithful(game, cfg) && cfg.d >= 1
    requires var c := P.TickHost(cfg, s).host; c.pend ==> c.ptmo < 255
    ensures var (c, out) := Finish16(game, b.host);
            SysRep(cfg, b.(host := c, down := Send(b.down, out)), P.FinishHost(cfg, s))
  {
    hide Rep, LinkRep, P.TickHost, Tick16, Push16, P.PushHost, Faithful, P.Pushes, Pushes16, P.Waited, Waited16, Send;
    var (c1, out1) := Tick16(game, b.host);
    var b1, s1 := b.(host := c1, down := Send(b.down, out1)), P.TickHost(cfg, s);
    TickHost16(game, cfg, b, s);
    WaitRefines(cfg, c1, s1.host);
    var b2, s2 := b1.(host := Waited16(c1)), s1.(host := P.Waited(s1.host));
    if P.Pushes(s2.host) {
      PushHost16(cfg, b2, s2);
      SendTwice(b.down, out1, Push16(b2.host).1);
    }
  }

  lemma GlitchRefines(cfg: P.Cfg, k: Con, c: P.Console, mem: Memory)
    requires Rep(cfg, k, c) && CellsSound(mem)
    ensures Rep(cfg, k.(mem := mem), c.(img := ImageOf(mem)))
  {
  }

  lemma GuestSeat(cfg: P.Cfg, s: P.Sys)
    requires Inv(cfg, s)
    ensures s.guest.seat == 1
  {
  }

  lemma TickedWait(cfg: P.Cfg, s: P.Sys)
    requires Inv(cfg, s)
    ensures var c := P.TickHost(cfg, s).host; c.pend ==> c.ptmo < 255
  {
  }

  lemma EnterRefines(cfg: P.Cfg, b: Sys16, s: P.Sys, who: P.Who, k: nat, cell: Cell, game: Game)
    requires Inv(cfg, s) && SysRep(cfg, b, s) && Enabled16(b, Enter16(who, k, cell))
    ensures SysRep(cfg, Step16(game, b, Enter16(who, k, cell)), P.Step(cfg, s, P.Enter(who, k, cell)))
  {
    hide Inv, LinkRep, PumpHost16, PumpGuest16, P.PumpHost, P.PumpGuest, P.CaptureHost, P.CaptureGuest, Capture16, Send, OwnRep,
         CellsSound, ImageOf;
    if who == P.Host {
      HostNeverHolds(cfg, s);
      PumpHostRefines16(cfg, b, s, k);
      CaptureHost16(cfg, PumpHost16(b, k), P.PumpHost(cfg, s, k), cell);
    } else {
      PumpGuestRefines16(cfg, b, s, k);
      CaptureGuest16(cfg, PumpGuest16(b, k), P.PumpGuest(cfg, s, k), cell);
    }
  }

  lemma GatePassRefines(game: Game, cfg: P.Cfg, b: Sys16, s: P.Sys, who: P.Who, k: nat)
    requires Inv(cfg, s) && SysRep(cfg, b, s) && Faithful(game, cfg) && Enabled16(b, Gate16(who, k))
    ensures SysRep(cfg, Step16(game, b, Gate16(who, k)), P.Step(cfg, s, P.Gate(who, k)))
  {
    hide Inv, LinkRep, Faithful, PumpHost16, PumpGuest16, P.PumpHost, P.PumpGuest, P.FinishHost, P.TickGuest, Finish16, Gated16, Send,
         OwnRep, CellsSound, ImageOf;
    DelayPositive(cfg, s);
    GateNear(cfg, s);
    if who == P.Host {
      GateRefines(cfg, b.host, s.host);
      TickedWait(cfg, s);
      if P.Gated(s.host) { PumpHostRefines16(cfg, b, s, k); } else { FinishHost16(game, cfg, b, s); }
    } else {
      GateRefines(cfg, b.guest, s.guest);
      GuestSeat(cfg, s);
      if P.Gated(s.guest) { PumpGuestRefines16(cfg, b, s, k); } else { FinishGuest16(game, cfg, b, s); }
    }
  }

  /** One step of the byte system is one step of the protocol. */
  lemma StepRefines(game: Game, cfg: P.Cfg, b: Sys16, s: P.Sys, a: Action16)
    requires Inv(cfg, s) && SysRep(cfg, b, s) && Faithful(game, cfg) && Enabled16(b, a)
    requires a.Glitch16? || a.Shimmer16? ==> CellsSound(a.mem)
    ensures P.Enabled(s, Lift(a)) && SysRep(cfg, Step16(game, b, a), P.Step(cfg, s, Lift(a)))
  {
    hide Inv, LinkRep, Faithful, PumpHost16, PumpGuest16, P.PumpHost, P.PumpGuest, P.Step, Step16, Enabled16, P.Enabled, Rep;
    SameEnabled(cfg, b, s, a);
    match a
    case Enter16(who, k, cell) => EnterRefines(cfg, b, s, who, k, cell, game);
    case Gate16(who, k) => GatePassRefines(game, cfg, b, s, who, k);
    case Listen16(who, k) => ListenRefines(cfg, b, s, who, k, game);
    case _ => MemoryRefines(cfg, b, s, a, game);
  }

  lemma ListenRefines(cfg: P.Cfg, b: Sys16, s: P.Sys, who: P.Who, k: nat, game: Game)
    requires Inv(cfg, s) && SysRep(cfg, b, s) && Enabled16(b, Listen16(who, k))
    ensures SysRep(cfg, Step16(game, b, Listen16(who, k)), P.Step(cfg, s, P.Listen(who, k)))
  {
    hide Inv, LinkRep, PumpHost16, PumpGuest16, P.PumpHost, P.PumpGuest, OwnRep, CellsSound, ImageOf;
    if who == P.Host { PumpHostRefines16(cfg, b, s, k); } else { PumpGuestRefines16(cfg, b, s, k); }
  }

  lemma MemoryRefines(cfg: P.Cfg, b: Sys16, s: P.Sys, a: Action16, game: Game)
    requires SysRep(cfg, b, s) && (a.Glitch16? || a.Shimmer16?) && CellsSound(a.mem)
    ensures SysRep(cfg, Step16(game, b, a), P.Step(cfg, s, Lift(a)))
  {
    hide LinkRep, Rep;
    GlitchRefines(cfg, Of16(b, a.who), P.Of(s, a.who), a.mem);
  }

  // ---- runs ----------------------------------------------------------------------------------

  /** Both consoles as START leaves them, nothing in flight. */
  ghost predicate Started(cfg: P.Cfg, b: Sys16, img: Image) {
    && b.up == Link([], []) && b.down == Link([], [])
    && Rep(cfg, b.host, P.InitConsole(cfg, 0, img)) && Rep(cfg, b.guest, P.InitConsole(cfg, 1, img))
  }

  ghost predicate SoundActs(acts: seq<Action16>) {
    forall i :: 0 <= i < |acts| ==> acts[i].Glitch16? || acts[i].Shimmer16? ==> CellsSound(acts[i].mem)
  }

  /** Every run of the byte system represents the protocol run of the same actions. */
  lemma {:induction false} RunsRefine(game: Game, cfg: P.Cfg, img: Image, b: Sys16, acts: seq<Action16>)
    requires Started(cfg, b, img) && Faithful(game, cfg) && SoundActs(acts)
    requires 1 <= cfg.d <= 127
    requires cfg.d <= 15 || P.EpochH(P.Exec(cfg, P.Init(cfg, img), LiftAll(acts)).hist) == 0
    ensures SysRep(cfg, Exec16(game, b, acts), P.Exec(cfg, P.Init(cfg, img), LiftAll(acts)))
    ensures Inv(cfg, P.Exec(cfg, P.Init(cfg, img), LiftAll(acts)))
    decreases |acts|
  {
    hide Inv, Rep, Faithful, Step16, P.Step, Enabled16, P.Enabled;
    RunsKeepInv(cfg, img, LiftAll(acts));
    if acts == [] {
      assert EncodeQueue([]) == [];
    } else {
      var before, a := acts[..|acts| - 1], acts[|acts| - 1];
      assert LiftAll(acts)[..|acts| - 1] == LiftAll(before);
      var s1 := P.Exec(cfg, P.Init(cfg, img), LiftAll(before));
      StepEpoch(cfg, s1, Lift(a));
      RunsRefine(game, cfg, img, b, before);
      var b1 := Exec16(game, b, before);
      SameEnabled(cfg, b1, s1, a);
      if Enabled16(b1, a) {
        StepRefines(game, cfg, b1, s1, a);
      }
    }
  }

  lemma SameEnabled(cfg: P.Cfg, b: Sys16, s: P.Sys, a: Action16)
    requires SysRep(cfg, b, s)
    ensures Enabled16(b, a) <==> P.Enabled(s, Lift(a))
  {
  }
}
