/** What the relay promises over whole runs: capacities that suffice, matches that end as a whole,
    and relay frames delivered verbatim, once each and in order. */
module RelayRuns {
  import opened Cells
  import opened Stream
  import opened Names
  import opened Relay
  import opened RelayInv
  import opened RelayFrames

  // ---- capacity ----------------------------------------------------------------------------------

  /** Rooms hold at least two members each and share none. */
  lemma {:induction false} TwoEach(cfg: Cfg, clients: map<nat, Client>, rooms: map<nat, Room>, left: set<nat>, in_: set<nat>)
    requires RoomsOK(cfg, clients, rooms) && left <= rooms.Keys
    requires forall c :: c in in_ <==> c in clients && clients[c].room.Some? && clients[c].room.value in left
    ensures 2 * |left| <= |in_|
    decreases left
  {
    if left != {} {
      var r :| r in left;
      assert RoomOK(cfg, clients, r, rooms[r]);
      var a, b := rooms[r].members[0], rooms[r].members[1];
      assert a in rooms[r].members && b in rooms[r].members && a != b;
      var rest := set c | c in in_ && clients[c].room.value != r;
      TwoEach(cfg, clients, rooms, left - {r}, rest);
      assert rest <= in_ - {a, b};
      Smaller(rest, in_ - {a, b});
    }
  }

  function InRooms(s: State): set<nat> {
    set c | c in s.clients && s.clients[c].room.Some?
  }

  /** There are at most half as many rooms as clients in rooms. */
  lemma RoomsHalf(cfg: Cfg, s: State)
    requires Inv(cfg, s)
    ensures 2 * |s.rooms| <= |InRooms(s)|
  {
    hide RoomOK, NamesOK, CountOK;
    TwoEach(cfg, s.clients, s.rooms, s.rooms.Keys, InRooms(s));
    assert |s.rooms| == |s.rooms.Keys|;
  }

  /** When a solo client joins another a room slot is free: MAX_ROOMS is MAX_CLIENTS / 2. */
  lemma RoomsSuffice(cfg: Cfg, s: State, c: nat, t: nat)
    requires Inv(cfg, s) && c in s.clients && t in s.clients && c != t
    requires s.clients[c].room.None? && s.clients[t].room.None?
    ensures |s.rooms| < MAX_CLIENTS / 2
  {
    hide RoomsOK, LinksOK, NamesOK;
    RoomsHalf(cfg, s);
    Smaller(InRooms(s), s.clients.Keys - {c, t});
  }

  lemma Holders(clients: map<nat, Client>, d: Dict, all: set<nat>)
    requires NamesOK(clients, d) && forall e :: e in d ==> e.client in all
    ensures |d| <= |all|
  {
    hide ValidName;
    var holders := seq(|d|, i requires 0 <= i < |d| => d[i].client);
    forall i, j | 0 <= i < j < |d| ensures holders[i] != holders[j] {
      assert d[i] in d && d[j] in d && d[i].name != d[j].name;
    }
    forall i | 0 <= i < |holders| ensures holders[i] in all { assert d[i] in d; }
    DistinctFits(holders, all);
  }

  /** There are at most as many names as clients, and whenever HELLO adds a key, one fewer. */
  lemma NamesSuffice(cfg: Cfg, s: State, c: nat, name: bytes)
    requires Inv(cfg, s) && c in s.clients
    ensures |s.byName| <= |s.clients| <= MAX_CLIENTS
    ensures var was := s.clients[c].name;
            var names := if was != [] && was != name then Del(s.byName, was) else s.byName;
            !Has(names, name) ==> |names| < MAX_CLIENTS
  {
    hide RoomsOK, LinksOK, ValidName, RemoveAt;
    Holders(s.clients, s.byName, s.clients.Keys);
    assert |s.clients| == |s.clients.Keys|;
    var was := s.clients[c].name;
    if was == [] {
      Holders(s.clients, s.byName, s.clients.Keys - {c});
    } else {
      Holder(s.byName, Entry(was, c));
    }
  }

  // ---- what each operation queues ------------------------------------------------------------------

  predicate IsRelayed(f: bytes) {
    |f| >= 2 && RelayType(f[1])
  }

  /** The match frames among the frames queued to a client. */
  function Relayed(fs: seq<bytes>): seq<bytes> {
    if fs == [] then [] else
    Relayed(fs[..|fs| - 1]) + if IsRelayed(fs[|fs| - 1]) then [fs[|fs| - 1]] else []
  }

  lemma {:induction false} RelayedJoin(a: seq<bytes>, b: seq<bytes>)
    ensures Relayed(a + b) == Relayed(a) + Relayed(b)
    decreases |b|
  {
    if b == [] {
      assert a + b == a;
    } else {
      RelayedJoin(a, b[..|b| - 1]);
      assert (a + b)[..|a + b| - 1] == a + b[..|b| - 1];
    }
  }

  /** What was queued to a client by a step. */
  predicate Queued(before: seq<bytes>, after: seq<bytes>, relayed: seq<bytes>) {
    before <= after && Relayed(after[|before|..]) == relayed
  }

  lemma QueuedTwice(a: seq<bytes>, b: seq<bytes>, c: seq<bytes>, x: seq<bytes>, y: seq<bytes>)
    requires Queued(a, b, x) && Queued(b, c, y)
    ensures Queued(a, c, x + y)
  {
    RelayedJoin(b[|a|..], c[|b|..]);
    assert c[|a|..] == b[|a|..] + c[|b|..];
  }

  /** Nobody is queued a match frame, and nothing queued is taken back. */
  ghost predicate Quiet(a: map<nat, Client>, b: map<nat, Client>) {
    forall c {:trigger c in b} :: c in a && c in b ==> Queued(a[c].tx, b[c].tx, [])
  }

  lemma QuietTwice(a: map<nat, Client>, b: map<nat, Client>, c: map<nat, Client>)
    requires Quiet(a, b) && Quiet(b, c) && forall i :: i in a && i in c ==> i in b
    ensures Quiet(a, c)
  {
    hide Queued;
    forall i | i in a && i in c ensures Queued(a[i].tx, c[i].tx, []) {
      QueuedTwice(a[i].tx, b[i].tx, c[i].tx, [], []);
    }
  }

  lemma QuietPost(clients: map<nat, Client>, out: map<nat, bytes>)
    requires forall c :: c in out ==> !IsRelayed(out[c])
    ensures Quiet(clients, Post(clients, out))
  {
    forall c | c in clients ensures Queued(clients[c].tx, Post(clients, out)[c].tx, []) {
      var a, b := clients[c].tx, Post(clients, out)[c].tx;
      assert b[|a|..] == if c in out then [out[c]] else [];
      if c in out { assert Relayed([out[c]]) == Relayed([]); }
    }
  }

  lemma PlainFrames(cfg: Cfg, s: State, c: nat, members: seq<nat>, seat: nat, name: bytes, common: bytes)
    ensures !IsRelayed(LobbyFrame(cfg, s, c)) && !IsRelayed(RoomFrame(s, members)) && !IsRelayed(GoneFrame())
    ensures !IsRelayed(LeftFrame(seat, name)) && !IsRelayed(StartFrame(seat, common)) && !IsRelayed(Frame(T_PONG, []))
  {
  }

  /** No room starts, and a started one keeps its members and its seed while it lives. */
  ghost predicate NoStart(a: map<nat, Room>, b: map<nat, Room>, r: nat) {
    r in b ==>
      && (b[r].started ==> r in a && a[r].started)
      && (r in a && a[r].started ==> b[r] == a[r])
  }

  lemma TellQuiet(a: map<nat, Client>, s: State, members: seq<nat>, f: bytes)
    requires !IsRelayed(f) && forall c :: c in a && c in s.clients ==> s.clients[c].tx == a[c].tx
    ensures Quiet(a, Tell(s, members, f).clients)
  {
    hide IsRelayed;
    QuietPost(s.clients, ToAll(members, f));
  }

  lemma DropQuiet(cfg: Cfg, s: State, c: nat)
    requires Inv(cfg, s) && c in s.clients
    ensures Quiet(s.clients, Drop(s, c).clients) && forall r :: NoStart(s.rooms, Drop(s, c).rooms, r)
  {
    hide Inv, RoomFrame, GoneFrame, LeftFrame, AllBut, Without, IndexOf, IsRelayed, Quiet, Post;
    var cl, s1 := s.clients[c], Unlisted(s, c);
    if cl.room.Some? && cl.room.value in s.rooms {
      var r := cl.room.value;
      var seat, rest := IndexOf(s.rooms[r].members, c), AllBut(s.rooms[r].members, c);
      var s2 := s1.(rooms := s1.rooms[r := s.rooms[r].(members := rest)]);
      PlainFrames(Cfg(0, 0, 0), s2, c, rest, seat, cl.name, []);
      TellQuiet(s.clients, Dissolve(s1, r, rest), rest, LeftFrame(seat, cl.name));
      TellQuiet(s.clients, Dissolve(s1, r, rest), rest, GoneFrame());
      TellQuiet(s.clients, s2, rest, RoomFrame(s2, rest));
    } else {
      QuietLess(s.clients, s1.clients);
    }
  }

  lemma QuietLess(a: map<nat, Client>, b: map<nat, Client>)
    requires forall c :: c in a && c in b ==> b[c] == a[c]
    ensures Quiet(a, b)
  {
  }

  lemma ListQuiet(cfg: Cfg, s: State, c: nat)
    ensures Quiet(s.clients, OnList(cfg, s, c).clients) && OnList(cfg, s, c).rooms == s.rooms
    ensures OnList(cfg, s, c).clients.Keys == s.clients.Keys
  {
    hide LobbyFrame, IsRelayed;
    PlainFrames(cfg, s, c, [], 0, [], []);
    QuietPost(s.clients, ToAll([c], LobbyFrame(cfg, s, c)));
  }

  lemma HelloQuiet(cfg: Cfg, s: State, c: nat, payload: bytes)
    requires Inv(cfg, s) && c in s.clients
    ensures Quiet(s.clients, OnHello(cfg, s, c, payload).clients)
    ensures forall r :: NoStart(s.rooms, OnHello(cfg, s, c, payload).rooms, r)
  {
    hide Inv, ValidName, Stripped, Drop, Del, Set, OnList, Has, Get;
    DropQuiet(cfg, s, c);
    if |payload| >= 3 && payload[0] == PROTO_VER && ValidName(Stripped(payload[1..])) {
      var name := Stripped(payload[1..]);
      var s1 := s;
      if Has(s.byName, name) && Get(s.byName, name) != c && Get(s.byName, name) in s.clients {
        s1 := Drop(s, Get(s.byName, name));
        DropQuiet(cfg, s, Get(s.byName, name));
        DropInv(cfg, s, Get(s.byName, name));
      } else {
        QuietSame(s.clients);
      }
      var s2 := Registered(s1, c, name);
      ListQuiet(cfg, s2, c);
      assert Quiet(s1.clients, s2.clients) by { QuietSame(s1.clients); }
      QuietTwice(s.clients, s1.clients, s2.clients);
      QuietTwice(s.clients, s2.clients, OnList(cfg, s2, c).clients);
    }
  }

  lemma QuietSame(a: map<nat, Client>)
    ensures Quiet(a, a)
  {
  }

  // ---- conservation ----------------------------------------------------------------------------------

  /** A match frame of a room, with its sender. */
  datatype Sent = Sent(from: nat, f: bytes)

  /** What the others sent, in order. */
  function FanOut(log: seq<Sent>, m: nat): seq<bytes> {
    if log == [] then [] else
    FanOut(log[..|log| - 1], m) + if log[|log| - 1].from == m then [] else [log[|log| - 1].f]
  }

  /** The members' names, in seat order. */
  function NamesAt(s: State, members: seq<nat>): seq<bytes> {
    seq(|members|, i requires 0 <= i < |members| => NameOf(s, members[i]))
  }

  /** The roster of START: four fields of eight bytes, the names in seat order and then NULs. */
  ghost predicate RosterOK(names: seq<bytes>, common: bytes) {
    && |common| == 36
    && forall i {:trigger names[i]} {:trigger common[4 + 8 * i..12 + 8 * i]} :: 0 <= i < ROSTER_SLOTS ==>
         common[4 + 8 * i..12 + 8 * i] == if i < |names| then PadName(names[i]) else Zeros(8)
  }

  /** The common part of START: the room's size and seed, the delay, and the members' names. */
  ghost predicate CommonOK(cfg: Cfg, room: Room, names: seq<bytes>, common: bytes) {
    && RosterOK(names, common) && common[0] as nat == |room.members| == |names|
    && common[1] == room.seed % 256 && common[2] == room.seed / 256 && common[3] == cfg.delay
  }

  /** A match since its start: the members' names then, and the match frames since. */
  datatype Match = Match(names: seq<bytes>, log: seq<Sent>)

  const NO_MATCH := Match([], [])

  predicate Started(s: State, r: nat) { r in s.rooms && s.rooms[r].started }

  /** Room r's match after a step from s to s' that logs nothing. */
  function Next(s: State, s': State, r: nat, m: Match): Match {
    if !Started(s', r) then NO_MATCH
    else if Started(s, r) then m
    else Match(NamesAt(s', s'.rooms[r].members), [])
  }

  /** A START for this seat was queued and since then exactly these match frames. */
  ghost predicate SinceStart(tx: seq<bytes>, seat: nat, common: bytes, relayed: seq<bytes>) {
    exists k {:trigger tx[k]} :: 0 <= k < |tx| && tx[k] == StartFrame(seat, common) && Relayed(tx[k + 1..]) == relayed
  }

  ghost predicate MatchOK(cfg: Cfg, s: State, r: nat, m: Match) {
    if Started(s, r) then
      exists common :: CommonOK(cfg, s.rooms[r], m.names, common) && SeatsOK(s.clients, s.rooms[r].members, common, m.log)
    else m.log == []
  }

  ghost predicate SeatsOK(clients: map<nat, Client>, members: seq<nat>, common: bytes, log: seq<Sent>) {
    forall i {:trigger members[i]} :: 0 <= i < |members| ==>
      members[i] in clients && SinceStart(clients[members[i]].tx, i, common, FanOut(log, members[i]))
  }

  lemma SinceMore(tx: seq<bytes>, tx': seq<bytes>, seat: nat, common: bytes, relayed: seq<bytes>, more: seq<bytes>)
    requires SinceStart(tx, seat, common, relayed) && Queued(tx, tx', more)
    ensures SinceStart(tx', seat, common, relayed + more)
  {
    var k :| 0 <= k < |tx| && tx[k] == StartFrame(seat, common) && Relayed(tx[k + 1..]) == relayed;
    RelayedJoin(tx[k + 1..], tx'[|tx|..]);
    assert tx'[k + 1..] == tx[k + 1..] + tx'[|tx|..];
    assert tx'[k] == StartFrame(seat, common);
  }

  lemma KeepMatch(cfg: Cfg, s: State, s': State, r: nat, m: Match)
    requires MatchOK(cfg, s, r, m) && Quiet(s.clients, s'.clients) && NoStart(s.rooms, s'.rooms, r)
    requires Inv(cfg, s')
    ensures MatchOK(cfg, s', r, Next(s, s', r, m))
  {
    hide CommonOK, SinceStart, Queued, NamesOK, CountOK, LinksOK, Distinct, FanOut, NamesAt;
    if Started(s', r) {
      var members, log := s.rooms[r].members, m.log;
      var common :| CommonOK(cfg, s.rooms[r], m.names, common) && SeatsOK(s.clients, members, common, log);
      assert RoomOK(cfg, s'.clients, r, s'.rooms[r]);
      forall i | 0 <= i < |members|
        ensures members[i] in s'.clients && SinceStart(s'.clients[members[i]].tx, i, common, FanOut(log, members[i]))
      {
        assert members[i] in members;
        SinceMore(s.clients[members[i]].tx, s'.clients[members[i]].tx, i, common, FanOut(log, members[i]), []);
        assert FanOut(log, members[i]) + [] == FanOut(log, members[i]);
      }
      assert SeatsOK(s'.clients, members, common, log);
    }
  }

  lemma CommonNames(cfg: Cfg, s: State, members: seq<nat>, seed: word, names: seq<bytes>)
    requires |members| <= ROSTER_SLOTS && names == NamesAt(s, members)
    ensures RosterOK(names, StartCommon(cfg, s, members, seed))
  {
    hide PadName, Zeros;
    var roster, common := Roster(s, members), StartCommon(cfg, s, members, seed);
    forall i | 0 <= i < ROSTER_SLOTS
      ensures common[4 + 8 * i..12 + 8 * i] == if i < |names| then PadName(names[i]) else Zeros(8)
    {
      RosterSlots(s, members, i);
      assert common[4 + 8 * i..12 + 8 * i] == roster[8 * i..8 * i + 8];
    }
  }

  lemma StartCommonOK(cfg: Cfg, s: State, r: nat, seed: word)
    requires Inv(cfg, s) && r in s.rooms
    ensures var s', members := StartRoom(cfg, s, r, seed), s.rooms[r].members;
            CommonOK(cfg, s'.rooms[r], NamesAt(s', members), StartCommon(cfg, s, members, seed))
  {
    hide NamesOK, CountOK, LinksOK, Roster, StartFrame, RosterOK;
    var members, s' := s.rooms[r].members, StartRoom(cfg, s, r, seed);
    assert RoomOK(cfg, s.clients, r, s.rooms[r]);
    assert NamesAt(s', members) == NamesAt(s, members);
    CommonNames(cfg, s, members, seed, NamesAt(s, members));
  }

  /** START goes to every seat, with its own number and the same rest. */
  lemma StartMatch(cfg: Cfg, s: State, r: nat, seed: word)
    requires Inv(cfg, s) && r in s.rooms
    ensures var s' := StartRoom(cfg, s, r, seed); MatchOK(cfg, s', r, Match(NamesAt(s', s'.rooms[r].members), []))
  {
    hide NamesOK, CountOK, LinksOK, Roster, StartFrame, CommonOK, NamesAt;
    var room, s' := s.rooms[r], StartRoom(cfg, s, r, seed);
    var common := StartCommon(cfg, s, room.members, seed);
    assert RoomOK(cfg, s.clients, r, room);
    forall i | 0 <= i < |room.members|
      ensures room.members[i] in s'.clients && SinceStart(s'.clients[room.members[i]].tx, i, common, [])
    {
      var m := room.members[i];
      assert m in room.members && IndexOf(room.members, m) == i;
      var tx := s'.clients[m].tx;
      assert tx[|tx| - 1] == StartFrame(i, common) && tx[|tx|..] == [];
    }
    assert SeatsOK(s'.clients, s'.rooms[r].members, common, []);
    StartCommonOK(cfg, s, r, seed);
  }

  lemma StartQuiet(cfg: Cfg, s: State, r: nat, seed: word)
    requires r in s.rooms
    ensures Quiet(s.clients, StartRoom(cfg, s, r, seed).clients)
  {
    hide IsRelayed, StartCommon, StartFrame;
    var members := s.rooms[r].members;
    var common := StartCommon(cfg, s, members, seed);
    forall m ensures !IsRelayed(StartFrame(IndexOf(members, m), common)) {
      PlainFrames(cfg, s, 0, [], IndexOf(members, m), [], common);
    }
    QuietPost(s.clients, StartMap(members, common));
  }

  lemma StartsMatch(cfg: Cfg, s: State, r0: nat, seed: word, r: nat, m: Match)
    requires Inv(cfg, s) && r0 in s.rooms && !s.rooms[r0].started && MatchOK(cfg, s, r, m)
    ensures var s' := StartRoom(cfg, s, r0, seed); MatchOK(cfg, s', r, Next(s, s', r, m))
    ensures StartRoom(cfg, s, r0, seed).rooms == s.rooms[r0 := s.rooms[r0].(started := true, seed := seed)]
  {
    hide Inv, StartCommon, StartMap, CommonOK, NamesAt;
    StartMatch(cfg, s, r0, seed);
    StartInv(cfg, s, r0, seed);
    StartQuiet(cfg, s, r0, seed);
    if r != r0 { KeepMatch(cfg, s, StartRoom(cfg, s, r0, seed), r, m); }
  }

  lemma EnterQuiet(cfg: Cfg, s: State, c: nat, t: nat, r: nat)
    requires c in s.clients && t in s.clients && (r in s.rooms ==> !s.rooms[r].started)
    ensures var s1 := Broadcast(Enter(s, c, t, r), r);
            Quiet(s.clients, s1.clients) && (forall q :: NoStart(s.rooms, s1.rooms, q)) && r in s1.rooms && !s1.rooms[r].started
  {
    hide RoomFrame, IsRelayed;
    var s0 := Enter(s, c, t, r);
    var f := RoomFrame(s0, s0.rooms[r].members);
    PlainFrames(Cfg(0, 0, 0), s0, c, s0.rooms[r].members, 0, [], []);
    QuietPost(s0.clients, ToAll(s0.rooms[r].members, f));
  }

  lemma SameMatch(cfg: Cfg, s: State, r: nat, m: Match)
    requires MatchOK(cfg, s, r, m)
    ensures MatchOK(cfg, s, r, Next(s, s, r, m)) && (Started(s, r) || m.log == [])
  {
  }

  lemma JoinMatch(cfg: Cfg, s: State, c: nat, payload: bytes, made: nat, seed: word, r: nat, m: Match)
    requires Inv(cfg, s) && c in s.clients && made !in s.rooms && MatchOK(cfg, s, r, m)
    ensures var s' := OnJoin(cfg, s, c, payload, made, seed); MatchOK(cfg, s', r, Next(s, s', r, m))
  {
    hide NamesAt, SeatsOK, CommonOK, Inv, Stripped, Enter, RoomFrame, StartRoom, OnList, Drop, Has, Get;
    var s' := OnJoin(cfg, s, c, payload, made, seed);
    JoinInv(cfg, s, c, Stripped(payload), made, seed);
    var name := Stripped(payload);
    if s.clients[c].name == [] {
      DropQuiet(cfg, s, c);
      KeepMatch(cfg, s, s', r, m);
    } else if s.clients[c].room.Some? {
      SameMatch(cfg, s, r, m);
    } else if !Joinable(cfg, s, c, name) {
      ListQuiet(cfg, s, c);
      KeepMatch(cfg, s, s', r, m);
    } else {
      var t := Get(s.byName, name);
      var q := if s.clients[t].room.Some? then s.clients[t].room.value else made;
      EnterInv(cfg, s, c, t, q);
      EnterRoom(s, c, t, q);
      EnterQuiet(cfg, s, c, t, q);
      var s1 := Broadcast(Enter(s, c, t, q), q);
      PostInv(cfg, Enter(s, c, t, q), s1.clients);
      KeepMatch(cfg, s, s1, r, m);
      StartsMatch(cfg, s1, q, seed, r, Next(s, s1, r, m));
    }
  }

  /** The log of a started room grows by each match frame of a member. */
  function Logged(s: State, e: Event, r: nat, log: seq<Sent>): seq<Sent>
    requires Possible(s, e)
  {
    if e.Framed? && RelayType(e.t) && s.clients[e.c].room == Some(r) && r in s.rooms && s.rooms[r].started
    then log + [Sent(e.c, Frame(e.t, e.payload))] else log
  }

  /** Room r's match after one event. */
  function After(cfg: Cfg, s: State, e: Event, r: nat, m: Match): Match
    requires Possible(s, e)
  {
    var n := Next(s, Step(cfg, s, e), r, m);
    n.(log := Logged(s, e, r, n.log))
  }

  lemma RelayMatch(cfg: Cfg, s: State, e: Event, r: nat, m: Match)
    requires Inv(cfg, s) && Possible(s, e) && e.Framed? && RelayType(e.t) && MatchOK(cfg, s, r, m)
    ensures MatchOK(cfg, Step(cfg, s, e), r, After(cfg, s, e, r, m))
  {
    hide CommonOK, SinceStart, Queued, NamesOK, CountOK, FanOut, AllBut, NamesAt;
    var s', log := Step(cfg, s, e), m.log;
    assert s'.rooms == s.rooms;
    if Started(s, r) {
      var members, log' := s.rooms[r].members, Logged(s, e, r, log);
      var common :| CommonOK(cfg, s.rooms[r], m.names, common) && SeatsOK(s.clients, members, common, log);
      forall i | 0 <= i < |members|
        ensures members[i] in s'.clients && SinceStart(s'.clients[members[i]].tx, i, common, FanOut(log', members[i]))
      {
        RelaySeat(cfg, s, e, r, members[i], log);
        SinceMore(s.clients[members[i]].tx, s'.clients[members[i]].tx, i, common, FanOut(log, members[i]), ForSeat(s, e, r, members[i]));
      }
      assert SeatsOK(s'.clients, s'.rooms[r].members, common, log');
    }
  }

  function ForSeat(s: State, e: Event, r: nat, m: nat): seq<bytes>
    requires Possible(s, e) && e.Framed?
  {
    if s.clients[e.c].room == Some(r) && e.c != m then [Frame(e.t, e.payload)] else []
  }

  /** What one match frame queues to one member of room r. */
  lemma RelaySeat(cfg: Cfg, s: State, e: Event, r: nat, m: nat, log: seq<Sent>)
    requires Inv(cfg, s) && Possible(s, e) && e.Framed? && RelayType(e.t)
    requires r in s.rooms && s.rooms[r].started && m in s.rooms[r].members
    ensures var s' := Step(cfg, s, e);
            && m in s.clients && m in s'.clients && Queued(s.clients[m].tx, s'.clients[m].tx, ForSeat(s, e, r, m))
            && FanOut(Logged(s, e, r, log), m) == FanOut(log, m) + ForSeat(s, e, r, m)
  {
    hide NamesOK, CountOK, AllBut, Distinct;
    assert RoomOK(cfg, s.clients, r, s.rooms[r]);
    var f := Frame(e.t, e.payload);
    if s.clients[e.c].room.Some? {
      var q := s.clients[e.c].room.value;
      assert RoomOK(cfg, s.clients, q, s.rooms[q]);
      AllButMeans(s.rooms[q].members, e.c);
    }
    var a, b := s.clients[m].tx, Step(cfg, s, e).clients[m].tx;
    assert b == a + ForSeat(s, e, r, m);
    assert b[|a|..] == ForSeat(s, e, r, m);
    assert Relayed([f]) == Relayed([]) + [f] == [f];
  }

  lemma StepMatch(cfg: Cfg, s: State, e: Event, r: nat, m: Match)
    requires Inv(cfg, s) && Possible(s, e) && MatchOK(cfg, s, r, m)
    ensures MatchOK(cfg, Step(cfg, s, e), r, After(cfg, s, e, r, m))
  {
    hide Inv, MatchOK, OnHello, OnJoin, OnRelay, Drop, OnList, StartRoom, Quiet, IndexOf, NamesAt;
    StepInv(cfg, s, e);
    var s' := Step(cfg, s, e);
    match e
    case Accepted(c, ip) => QuietSame(s.clients); AcceptQuiet(s, c, ip); KeepMatch(cfg, s, s', r, m);
    case Gone(c) => DropQuiet(cfg, s, c); KeepMatch(cfg, s, s', r, m);
    case Framed(c, t, payload, made, seed) =>
      if RelayType(t) {
        RelayMatch(cfg, s, e, r, m);
      } else if t == T_HELLO {
        HelloQuiet(cfg, s, c, payload);
        KeepMatch(cfg, s, s', r, m);
      } else if t == T_LIST {
        ListQuiet(cfg, s, c);
        KeepMatch(cfg, s, s', r, m);
      } else if t == T_JOIN {
        JoinMatch(cfg, s, c, payload, made, seed, r, m);
      } else if t == T_GO {
        GoMatch(cfg, s, c, seed, r, m);
      } else if t == T_PING {
        PingQuiet(cfg, s, c);
        KeepMatch(cfg, s, s', r, m);
      } else {
        DropQuiet(cfg, s, c);
        KeepMatch(cfg, s, s', r, m);
      }
  }

  lemma AcceptQuiet(s: State, c: nat, ip: nat)
    requires c !in s.clients
    ensures Quiet(s.clients, Accept(s, c, ip).clients)
  {
  }

  lemma PingQuiet(cfg: Cfg, s: State, c: nat)
    ensures Quiet(s.clients, Tell(s, [c], Frame(T_PONG, [])).clients)
  {
    hide IsRelayed;
    PlainFrames(cfg, s, c, [], 0, [], []);
    QuietPost(s.clients, ToAll([c], Frame(T_PONG, [])));
  }

  lemma GoMatch(cfg: Cfg, s: State, c: nat, seed: word, r: nat, m: Match)
    requires Inv(cfg, s) && c in s.clients && MatchOK(cfg, s, r, m)
    ensures var s' := OnGo(cfg, s, c, seed); MatchOK(cfg, s', r, Next(s, s', r, m))
  {
    hide Inv, StartRoom, IndexOf, NamesAt, SeatsOK, CommonOK;
    SameMatch(cfg, s, r, m);
    if OnGo(cfg, s, c, seed) != s {
      StartsMatch(cfg, s, s.clients[c].room.value, seed, r, m);
    }
  }

  /** Room r's match, read off the events of a run: the names of the members when it started, and the
      match frames handled for it since, with their senders. */
  ghost function MatchOf(cfg: Cfg, events: seq<Event>, r: nat): Match
    decreases |events|
  {
    if events == [] then NO_MATCH else
    var before, e := events[..|events| - 1], events[|events| - 1];
    var s, m := Exec(cfg, EMPTY, before), MatchOf(cfg, before, r);
    if Possible(s, e) then After(cfg, s, e, r, m) else m
  }

  lemma {:induction false} MatchRuns(cfg: Cfg, events: seq<Event>, r: nat)
    requires 2 <= cfg.maxSeats <= ROSTER_SLOTS
    ensures MatchOK(cfg, Exec(cfg, EMPTY, events), r, MatchOf(cfg, events, r))
    decreases |events|
  {
    hide Step, Inv, CommonOK, SeatsOK, After;
    if events != [] {
      var before, e := events[..|events| - 1], events[|events| - 1];
      MatchRuns(cfg, before, r);
      RunsInv(cfg, before);
      var s, m := Exec(cfg, EMPTY, before), MatchOf(cfg, before, r);
      if Possible(s, e) { StepMatch(cfg, s, e, r, m); }
    }
  }

  /** In every run, each member of a started room was queued START, for its own seat, with the room's
      size, seed and delay and the names the members had when it started, and after it exactly the
      match frames of the other members: verbatim, once each, in the order the relay handled them,
      none of its own. */
  lemma RelayConserves(cfg: Cfg, events: seq<Event>, r: nat)
    requires 2 <= cfg.maxSeats <= ROSTER_SLOTS
    ensures var s, m := Exec(cfg, EMPTY, events), MatchOf(cfg, events, r);
            r in s.rooms && s.rooms[r].started ==>
              exists common :: CommonOK(cfg, s.rooms[r], m.names, common) && SeatsOK(s.clients, s.rooms[r].members, common, m.log)
  {
    MatchRuns(cfg, events, r);
  }

  // ---- a match ends as a whole -------------------------------------------------------------------------

  ghost predicate ToldFirst(before: seq<bytes>, after: seq<bytes>, f: bytes) {
    |after| > |before| && before <= after && after[|before|] == f
  }

  /** Room r is gone because `who` left it; every other member is back in the lobby and the first
      thing it was told is which seat left, with its name. */
  ghost predicate EndedBy(s: State, s': State, r: nat, who: nat)
    requires r in s.rooms
  {
    && who in s.rooms[r].members && who !in s'.clients && r !in s'.rooms
    && forall m {:trigger m in s.rooms[r].members} :: m in s.rooms[r].members && m != who ==>
         && m in s.clients && m in s'.clients && s'.clients[m].room.None?
         && ToldFirst(s.clients[m].tx, s'.clients[m].tx, LeftFrame(IndexOf(s.rooms[r].members, who), NameOf(s, who)))
  }

  lemma DropEnds(cfg: Cfg, s: State, c: nat, r: nat)
    requires Inv(cfg, s) && c in s.clients && r in s.rooms && s.rooms[r].started
    ensures if s.clients[c].room == Some(r) then EndedBy(s, Drop(s, c), r, c) && r !in Drop(s, c).rooms
            else r in Drop(s, c).rooms && Drop(s, c).rooms[r] == s.rooms[r]
  {
    hide NamesOK, CountOK, RoomFrame, GoneFrame, LeftFrame, AllBut, Without, Distinct;
    assert RoomOK(cfg, s.clients, r, s.rooms[r]);
    if s.clients[c].room == Some(r) {
      AllButMeans(s.rooms[r].members, c);
    }
  }

  lemma HelloEnds(cfg: Cfg, s: State, c: nat, payload: bytes, r: nat)
    requires Inv(cfg, s) && c in s.clients && r in s.rooms && s.rooms[r].started
    ensures var s' := OnHello(cfg, s, c, payload);
            if r in s'.rooms then s'.rooms[r] == s.rooms[r] else exists who :: EndedBy(s, s', r, who)
  {
    hide Inv, ValidName, Stripped, Drop, Del, Set, LobbyFrame, Has, Get, LeftFrame, IndexOf;
    DropEnds(cfg, s, c, r);
    var s' := OnHello(cfg, s, c, payload);
    if |payload| >= 3 && payload[0] == PROTO_VER && ValidName(Stripped(payload[1..])) {
      var name := Stripped(payload[1..]);
      if Has(s.byName, name) && Get(s.byName, name) != c && Get(s.byName, name) in s.clients {
        var who := Get(s.byName, name);
        var s1 := Drop(s, who);
        DropEnds(cfg, s, who, r);
        DropInv(cfg, s, who);
        if r !in s'.rooms { assert EndedBy(s, s', r, who); }
      }
    }
  }

  lemma JoinKeeps(cfg: Cfg, s: State, c: nat, payload: bytes, made: nat, seed: word, r: nat)
    requires Inv(cfg, s) && c in s.clients && made !in s.rooms && r in s.rooms && s.rooms[r].started
    requires s.clients[c].name != []
    ensures var s' := OnJoin(cfg, s, c, payload, made, seed);
            r in s'.rooms && s'.rooms[r] == s.rooms[r]
  {
    hide Inv, Stripped, RoomFrame, Has, Get, StartCommon, LobbyFrame;
  }

  /** In every run, a started room never gains a member, and when it loses one it ends for all. */
  lemma MatchEndsWhole(cfg: Cfg, events: seq<Event>, e: Event, r: nat)
    requires 2 <= cfg.maxSeats <= ROSTER_SLOTS
    requires var s := Exec(cfg, EMPTY, events); Possible(s, e) && r in s.rooms && s.rooms[r].started
    ensures var s := Exec(cfg, EMPTY, events);
            var s' := Step(cfg, s, e);
            if r in s'.rooms then s'.rooms[r] == s.rooms[r] else exists who :: EndedBy(s, s', r, who)
  {
    hide Inv, OnHello, OnJoin, Drop, LobbyFrame, IndexOf, StartCommon, AllBut, EndedBy;
    var s := Exec(cfg, EMPTY, events);
    RunsInv(cfg, events);
    match e
    case Accepted(c, ip) =>
    case Gone(c) => DropEnds(cfg, s, c, r);
    case Framed(c, t, payload, made, seed) =>
      DropEnds(cfg, s, c, r);
      if RelayType(t) {
      } else if t == T_HELLO {
        HelloEnds(cfg, s, c, payload, r);
      } else if t == T_JOIN {
        if s.clients[c].name != [] { JoinKeeps(cfg, s, c, payload, made, seed, r); }
        else { UnnamedJoin(cfg, s, c, payload, made, seed); }
      } else if t == T_GO {
        assert OnGo(cfg, s, c, seed).rooms[r] == s.rooms[r];
      } else if t != T_LIST && t != T_PING {
        assert Step(cfg, s, e) == Drop(s, c);
      }
  }

  lemma UnnamedJoin(cfg: Cfg, s: State, c: nat, payload: bytes, made: nat, seed: word)
    requires c in s.clients && s.clients[c].name == []
    ensures OnJoin(cfg, s, c, payload, made, seed) == Drop(s, c)
  {
  }

  // ---- two players: the relay is two channels ------------------------------------------------------------

  /** The match frames one member sent, in order. */
  function SentBy(log: seq<Sent>, m: nat): seq<bytes> {
    if log == [] then [] else
    SentBy(log[..|log| - 1], m) + if log[|log| - 1].from == m then [log[|log| - 1].f] else []
  }

  lemma {:induction false} OthersAreOne(log: seq<Sent>, a: nat, b: nat)
    requires a != b && forall x :: x in log ==> x.from == a || x.from == b
    ensures FanOut(log, a) == SentBy(log, b)
    decreases |log|
  {
    if log != [] { OthersAreOne(log[..|log| - 1], a, b); }
  }

  /** Only members of a started room are in its log. */
  lemma {:induction false} LogFromMembers(cfg: Cfg, events: seq<Event>, r: nat)
    requires 2 <= cfg.maxSeats <= ROSTER_SLOTS
    ensures var s := Exec(cfg, EMPTY, events);
            r in s.rooms && s.rooms[r].started ==> forall x :: x in MatchOf(cfg, events, r).log ==> x.from in s.rooms[r].members
    decreases |events|
  {
    if events != [] {
      hide Step, Inv, MatchOK;
      var before, e := events[..|events| - 1], events[|events| - 1];
      LogFromMembers(cfg, before, r);
      RunsInv(cfg, before);
      MatchRuns(cfg, before, r);
      var s, m := Exec(cfg, EMPTY, before), MatchOf(cfg, before, r);
      if Possible(s, e) {
        SameMatch(cfg, s, r, m);
        if r in s.rooms && s.rooms[r].started {
          MatchEndsWhole(cfg, before, e, r);
          LoggedMember(cfg, s, e, r, m.log);
        }
      }
    }
  }

  lemma LoggedMember(cfg: Cfg, s: State, e: Event, r: nat, log: seq<Sent>)
    requires Inv(cfg, s) && Possible(s, e) && r in s.rooms
    ensures forall x :: x in Logged(s, e, r, log) ==> x in log || x.from in s.rooms[r].members
  {
    if e.Framed? && s.clients[e.c].room == Some(r) { LinkedRoom(cfg, s, e.c); }
  }

  /** In a started room of two, each was queued its START and after it exactly the match frames the
      other one sent, in order: the two FIFO channels of the consoles' protocol. */
  lemma RelayIsTwoChannels(cfg: Cfg, events: seq<Event>, r: nat)
    requires 2 <= cfg.maxSeats <= ROSTER_SLOTS
    requires var s := Exec(cfg, EMPTY, events); r in s.rooms && s.rooms[r].started && |s.rooms[r].members| == 2
    ensures var s, m := Exec(cfg, EMPTY, events), MatchOf(cfg, events, r);
            var a, b := s.rooms[r].members[0], s.rooms[r].members[1];
            && a in s.clients && b in s.clients && a != b
            && exists common :: CommonOK(cfg, s.rooms[r], m.names, common)
                 && SinceStart(s.clients[a].tx, 0, common, SentBy(m.log, b))
                 && SinceStart(s.clients[b].tx, 1, common, SentBy(m.log, a))
  {
    hide CommonOK, SinceStart, NamesOK, CountOK, LinksOK, Exec, FanOut;
    var s, m := Exec(cfg, EMPTY, events), MatchOf(cfg, events, r);
    RunsInv(cfg, events);
    assert RoomOK(cfg, s.clients, r, s.rooms[r]);
    RelayConserves(cfg, events, r);
    LogFromMembers(cfg, events, r);
    var members := s.rooms[r].members;
    var common :| CommonOK(cfg, s.rooms[r], m.names, common) && SeatsOK(s.clients, members, common, m.log);
    var a, b := members[0], members[1];
    assert members == [a, b];
    OthersAreOne(m.log, a, b);
    OthersAreOne(m.log, b, a);
  }
}
