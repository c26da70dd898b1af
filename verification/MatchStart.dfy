/** From the relay's START to the first tick: every console of a room takes the same seed, player count and
    delay, and two consoles of a match stand where the protocol begins. */
module MatchStart {
  import opened Cells
  import opened Stream
  import opened ImageMemory
  import opened Checksum
  import opened ConsoleCells
  import opened ConsoleLaws
  import opened Refinement
  import opened ByteSystem
  import P = Protocol
  import R = Relay
  import RI = RelayInv
  import RR = RelayRuns

  /** The console has taken START: the random number cells $8106 and $8107 hold the seed, low byte first, and
      no other memory cell has changed; seat, players and delay are as told, and the tick is 0. */
  ghost predicate Taken(k: Con, k': Con, seat: nat, players: nat, seed: word, delay: byte) {
    && k'.mem[0x8106] as int + 256 * k'.mem[0x8107] as int == seed as int && k'.mem[0x8106] < 256 && k'.mem[0x8107] < 256
    && (forall a :: 0 <= a < 0x10000 && a != 0x8106 && a != 0x8107 ==> k'.mem[a] == k.mem[a])
    && k'.seat as nat == seat && k'.count as nat == players && k'.delay == delay && k'.tick == 0
  }

  lemma TakesStart(cfg: R.Cfg, room: R.Room, names: seq<bytes>, common: bytes, seat: nat, k: Con)
    requires RR.CommonOK(cfg, room, names, common) && seat < |room.members| <= 4
    ensures var f := R.StartFrame(seat, common);
            Legal(f) && f[1] == 5 && f[2] as nat == seat && f[3] as nat == |room.members| && f[6] == cfg.delay
            && Taken(k, OnFrame16(k, f).0, seat, |room.members|, room.seed, cfg.delay)
    ensures Seeds(cfg, room, common, seat, k)
  {
    hide RR.RosterOK;
    var f := R.StartFrame(seat, common);
    CommonSize(names, common);
    assert f == [38, 5, seat as byte] + common;
    StartLaw(k, f);
  }

  lemma CommonSize(names: seq<bytes>, common: bytes)
    requires RR.RosterOK(names, common)
    ensures |common| == 36
  {
  }

  /** A console that takes START for this seat takes the room's seed, size and delay with it. */
  ghost predicate Seeds(cfg: R.Cfg, room: R.Room, common: bytes, seat: nat, k: Con) {
    var f := R.StartFrame(seat, common);
    Legal(f) && Taken(k, OnFrame16(k, f).0, seat, |room.members|, room.seed, cfg.delay)
  }

  ghost predicate SeedsAll(cfg: R.Cfg, room: R.Room, common: bytes) {
    forall seat: nat, k: Con :: seat < |room.members| ==> Seeds(cfg, room, common, seat, k)
  }

  /** In every run of the relay, the START frames queued to the members of a started room leave one and the same
      seed, that room's, in every console that takes its own, whatever the console held before. */
  lemma MatchSeeds(cfg: R.Cfg, events: seq<R.Event>, r: nat)
    requires 2 <= cfg.maxSeats <= 4
    requires var s := R.Exec(cfg, R.EMPTY, events); r in s.rooms && s.rooms[r].started
    ensures var s := R.Exec(cfg, R.EMPTY, events);
            var room, m := s.rooms[r], RR.MatchOf(cfg, events, r);
            exists common :: RR.CommonOK(cfg, room, m.names, common) && RR.SeatsOK(s.clients, room.members, common, m.log)
              && SeedsAll(cfg, room, common)
  {
    hide RR.CommonOK, RR.SeatsOK, R.Exec, Seeds, RR.MatchOf;
    var s := R.Exec(cfg, R.EMPTY, events);
    var room, m := s.rooms[r], RR.MatchOf(cfg, events, r);
    RI.RunsInv(cfg, events);
    RoomSize(cfg, s, r);
    RR.RelayConserves(cfg, events, r);
    var common :| RR.CommonOK(cfg, room, m.names, common) && RR.SeatsOK(s.clients, room.members, common, m.log);
    forall seat: nat, k: Con | seat < |room.members|
      ensures Seeds(cfg, room, common, seat, k)
    {
      TakesStart(cfg, room, m.names, common, seat, k);
    }
    assert SeedsAll(cfg, room, common);
  }

  lemma RoomSize(cfg: R.Cfg, s: R.State, r: nat)
    requires RI.Inv(cfg, s) && r in s.rooms
    ensures |s.rooms[r].members| <= 4
  {
    hide RI.LinksOK, RI.NamesOK, RI.CountOK;
    assert RI.RoomOK(cfg, s.clients, r, s.rooms[r]);
  }

  /** Booted and idle: nothing pending, no hold, no pass under way, cells in range. */
  ghost predicate Booted(k: Con) {
    CellsSound(k.mem) && !k.atGate && !k.hold && !k.pend && k.ptmo == 0
  }

  /** The images are equal but for the random number, at positions 755 and 756. */
  ghost predicate SameButSeed(m: Memory, m': Memory) {
    forall p :: 0 <= p < IMG_TOTAL && p != 755 && p != 756 ==> ImgGet(m, p) == ImgGet(m', p)
  }

  lemma SeedPlaces(p: nat)
    requires p < IMG_TOTAL
    ensures Addr(p) == 0x8106 <==> p == 755
    ensures Addr(p) == 0x8107 <==> p == 756
    ensures p == 755 || p == 756 ==> !Wide(p)
  {
  }

  lemma SameImages(a: Con, b: Con, a': Con, b': Con, i: nat, j: nat, players: nat, seed: word, delay: byte)
    requires Taken(a, a', i, players, seed, delay) && Taken(b, b', j, players, seed, delay) && SameButSeed(a.mem, b.mem)
    ensures ImageOf(a'.mem) == ImageOf(b'.mem)
  {
    assert a'.mem[0x8106] == b'.mem[0x8106] && a'.mem[0x8107] == b'.mem[0x8107];
    forall p | 0 <= p < IMG_TOTAL ensures ImgGet(a'.mem, p) == ImgGet(b'.mem, p) {
      SeedPlaces(p);
      var q := Addr(p);
      if p != 755 && p != 756 {
        assert a'.mem[q] == a.mem[q] && b'.mem[q] == b.mem[q];
        assert ImgGet(a.mem, p) == ImgGet(b.mem, p);
      }
    }
  }

  /** Two booted consoles whose images differ in the random number at most, and which take the START frames of
      one room of two with a delay of at least 1, are where every run of the protocol starts. */
  lemma PairStarts(cfg: R.Cfg, room: R.Room, names: seq<bytes>, common: bytes, a: Con, b: Con, pcfg: P.Cfg)
    requires RR.CommonOK(cfg, room, names, common) && |room.members| == 2 && cfg.delay >= 1 && pcfg.d == cfg.delay as nat
    requires Booted(a) && Booted(b) && SameButSeed(a.mem, b.mem)
    ensures Legal(R.StartFrame(0, common)) && Legal(R.StartFrame(1, common))
    ensures var a', b' := OnFrame16(a, R.StartFrame(0, common)).0, OnFrame16(b, R.StartFrame(1, common)).0;
            Started(pcfg, Sys16(a', b', Link([], []), Link([], [])), ImageOf(a'.mem))
  {
    hide RR.CommonOK, OnFrame16, Taken, Rep, ImageOf, SameButSeed, R.StartFrame, CellsSound, P.InitConsole;
    var f, g := R.StartFrame(0, common), R.StartFrame(1, common);
    TakesStart(cfg, room, names, common, 0, a);
    TakesStart(cfg, room, names, common, 1, b);
    StartRefines(pcfg, a, f);
    StartRefines(pcfg, b, g);
    SameImages(a, b, OnFrame16(a, f).0, OnFrame16(b, g).0, 0, 1, 2, room.seed, cfg.delay);
  }
}
