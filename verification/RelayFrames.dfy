/** Every frame the relay originates passes the console's length table, so in every run each
    console's parser recovers exactly what was queued to it. */
module RelayFrames {
  import opened Cells
  import opened Stream
  import opened Names
  import opened Relay
  import opened RelayInv

  /** Roster slots are the members' names in seat order, then NULs. */
  lemma {:induction false} RosterSlots(s: State, members: seq<nat>, i: nat)
    requires i < ROSTER_SLOTS && |members| <= ROSTER_SLOTS
    ensures Roster(s, members)[8 * i..8 * i + 8] == if i < |members| then PadName(NameOf(s, members[i])) else Zeros(8)
    decreases |members|
  {
    if i < |members| {
      PadSlot(s, members, i);
      assert Roster(s, members)[8 * i..8 * i + 8] == Pads(s, members)[8 * i..8 * i + 8];
    }
  }

  lemma {:induction false} PadSlot(s: State, members: seq<nat>, i: nat)
    requires i < |members|
    ensures Pads(s, members)[8 * i..8 * i + 8] == PadName(NameOf(s, members[i]))
    decreases |members|
  {
    var n := |members| - 1;
    if i < n {
      PadSlot(s, members[..n], i);
      assert Pads(s, members)[8 * i..8 * i + 8] == Pads(s, members[..n])[8 * i..8 * i + 8];
    }
  }

  /** What each frame carries, byte by byte. */
  lemma FrameLayouts(cfg: Cfg, s: State, members: seq<nat>, seat: nat, name: bytes, seed: word)
    requires |members| <= ROSTER_SLOTS && seat < ROSTER_SLOTS
    ensures RoomFrame(s, members) == [34, T_ROOM, |members| as byte] + Roster(s, members)
    ensures GoneFrame() == [34, T_ROOM, 0] + Zeros(32)
    ensures LeftFrame(seat, name) == [10, T_PEER_LEFT, seat as byte] + PadName(name)
    ensures var common := StartCommon(cfg, s, members, seed);
            && StartFrame(seat, common) == [38, T_START, seat as byte] + common
            && common[0] as nat == |members| && common[1] as int + 256 * common[2] as int == seed as int
            && common[3] == cfg.delay && common[4..] == Roster(s, members)
  {
  }

  lemma {:induction false} EntrySlot(cfg: Cfg, s: State, d: Dict, i: nat)
    requires i < |d|
    ensures LobbyEntries(cfg, s, d)[9 * i..9 * i + 9] == PadName(NameOf(s, d[i].client)) + [Status(cfg, s, d[i].client)]
    decreases |d|
  {
    var n := |d| - 1;
    if i < n {
      EntrySlot(cfg, s, d[..n], i);
      assert LobbyEntries(cfg, s, d)[9 * i..9 * i + 9] == LobbyEntries(cfg, s, d[..n])[9 * i..9 * i + 9];
    }
  }

  lemma {:induction false} OthersAreRest(s: State, d: Dict, c: nat)
    requires forall e :: e in d ==> NameOf(s, e.client) != []
    ensures Others(s, d, c) == Without(d, c)
    decreases |d|
  {
    if d != [] { OthersAreRest(s, d[..|d| - 1], c); }
  }

  lemma LobbyIs(cfg: Cfg, s: State, c: nat)
    requires Inv(cfg, s)
    ensures var shown := FirstEight(Without(s.byName, c));
            && LobbyFrame(cfg, s, c) == Frame(T_LOBBY, [Low(|shown|)] + LobbyEntries(cfg, s, shown))
            && forall i :: 0 <= i < |shown| ==> NameOf(s, shown[i].client) == shown[i].name
  {
    hide RoomsOK, LinksOK, CountOK, LobbyEntries, ValidName;
    assert forall e :: e in s.byName ==> NameOf(s, e.client) == e.name != [];
    OthersAreRest(s, s.byName, c);
    var shown := FirstEight(Without(s.byName, c));
    forall i | 0 <= i < |shown| ensures NameOf(s, shown[i].client) == shown[i].name {
      assert shown[i] in Without(s.byName, c);
    }
  }

  lemma FrameSlot(t: byte, n: byte, body: bytes, i: nat)
    requires 9 * i + 9 <= |body| <= 253
    ensures Frame(t, [n] + body)[3 + 9 * i..12 + 9 * i] == body[9 * i..9 * i + 9]
  {
  }

  /** LOBBY shows every other named client in the order of the dictionary, the first eight of them,
      each with its name and its status. */
  lemma LobbyShows(cfg: Cfg, s: State, c: nat, i: nat)
    requires Inv(cfg, s)
    ensures var shown := FirstEight(Without(s.byName, c));
            var f := LobbyFrame(cfg, s, c);
            && |shown| == (if |Without(s.byName, c)| < 8 then |Without(s.byName, c)| else 8) && shown <= Without(s.byName, c)
            && f[1] == 3 && f[2] as nat == |shown| && |f| == 3 + 9 * |shown|
            && (i < |shown| ==> f[3 + 9 * i..12 + 9 * i] == PadName(shown[i].name) + [Status(cfg, s, shown[i].client)])
  {
    hide Inv, LobbyFrame, LobbyEntries, Status, PadName, Without, NameOf;
    LobbyIs(cfg, s, c);
    var shown := FirstEight(Without(s.byName, c));
    var f := LobbyFrame(cfg, s, c);
    assert f[2] == f[2..][0];
    if i < |shown| {
      EntrySlot(cfg, s, shown, i);
      FrameSlot(T_LOBBY, Low(|shown|), LobbyEntries(cfg, s, shown), i);
    }
  }

  /** The status byte of another client: its low bits are the size of its room, one when solo, and
      bit 7 is clear exactly when a JOIN by its name would be accepted. */
  lemma StatusTells(cfg: Cfg, s: State, c: nat, t: nat)
    requires Inv(cfg, s) && t in s.clients && s.clients[t].name != [] && t != c
    ensures Status(cfg, s, t) < 0x80 <==> Joinable(cfg, s, c, s.clients[t].name)
    ensures Status(cfg, s, t) as nat % 8 ==
            if s.clients[t].room.None? then 1 else |s.rooms[s.clients[t].room.value].members|
  {
  }

  lemma FramesLegal(cfg: Cfg, s: State, c: nat, members: seq<nat>, seat: nat, name: bytes, seed: word)
    requires |members| <= ROSTER_SLOTS
    ensures Legal(LobbyFrame(cfg, s, c)) && Legal(RoomFrame(s, members)) && Legal(GoneFrame())
    ensures Legal(LeftFrame(seat, name)) && Legal(Frame(T_PONG, []))
    ensures |StartCommon(cfg, s, members, seed)| == 36 && Legal(StartFrame(seat, StartCommon(cfg, s, members, seed)))
  {
    hide Roster, LobbyEntries, FirstEight, Pads;
  }

  ghost predicate LegalTx(clients: map<nat, Client>) {
    forall c {:trigger c in clients} :: c in clients ==> forall f :: f in clients[c].tx ==> Legal(f)
  }

  lemma PostLegal(clients: map<nat, Client>, out: map<nat, bytes>)
    requires LegalTx(clients) && forall c :: c in out ==> Legal(out[c])
    ensures LegalTx(Post(clients, out))
  {
  }

  lemma DropLegal(cfg: Cfg, s: State, c: nat)
    requires Inv(cfg, s) && c in s.clients && LegalTx(s.clients)
    ensures LegalTx(Drop(s, c).clients)
  {
    hide Legal, NamesOK, CountOK, LinksOK, RoomFrame, GoneFrame, LeftFrame, AllBut, Without, IndexOf;
    var cl := s.clients[c];
    var s1 := s.(clients := s.clients - {c}, byName := Without(s.byName, c));
    if cl.room.Some? && cl.room.value in s.rooms {
      var r := cl.room.value;
      assert RoomOK(cfg, s.clients, r, s.rooms[r]);
      var seat, rest := IndexOf(s.rooms[r].members, c), AllBut(s.rooms[r].members, c);
      AllButMeans(s.rooms[r].members, c);
      var s3 := s1.(rooms := s1.rooms[r := s.rooms[r].(members := rest)]);
      FramesLegal(cfg, s3, c, rest, seat, cl.name, 0);
      var s2 := Dissolve(s1, r, rest);
      PostLegal(s2.clients, ToAll(rest, LeftFrame(seat, cl.name)));
      PostLegal(s2.clients, ToAll(rest, GoneFrame()));
      PostLegal(s1.clients, ToAll(rest, RoomFrame(s3, rest)));
    }
  }

  lemma ListLegal(cfg: Cfg, s: State, c: nat)
    requires LegalTx(s.clients)
    ensures LegalTx(OnList(cfg, s, c).clients)
  {
    hide LobbyFrame, Legal;
    FramesLegal(cfg, s, c, [], 0, [], 0);
    PostLegal(s.clients, ToAll([c], LobbyFrame(cfg, s, c)));
  }

  lemma HelloLegal(cfg: Cfg, s: State, c: nat, payload: bytes)
    requires Inv(cfg, s) && c in s.clients && LegalTx(s.clients)
    ensures LegalTx(OnHello(cfg, s, c, payload).clients)
  {
    hide Inv, ValidName, Stripped, Drop, Del, Set, OnList, Has, Get, Legal;
    DropLegal(cfg, s, c);
    if |payload| >= 3 && payload[0] == PROTO_VER && ValidName(Stripped(payload[1..])) {
      var name := Stripped(payload[1..]);
      var s1 := s;
      if Has(s.byName, name) && Get(s.byName, name) != c && Get(s.byName, name) in s.clients {
        s1 := Drop(s, Get(s.byName, name));
        DropLegal(cfg, s, Get(s.byName, name));
        DropInv(cfg, s, Get(s.byName, name));
      }
      ListLegal(cfg, Registered(s1, c, name), c);
    }
  }

  lemma StartLegal(cfg: Cfg, s: State, r: nat, seed: word)
    requires Inv(cfg, s) && LegalTx(s.clients) && r in s.rooms
    ensures LegalTx(StartRoom(cfg, s, r, seed).clients)
  {
    hide NamesOK, CountOK, LinksOK, Legal, StartCommon, StartFrame, IndexOf;
    assert RoomOK(cfg, s.clients, r, s.rooms[r]);
    var members := s.rooms[r].members;
    var common := StartCommon(cfg, s, members, seed);
    forall m | m in members ensures Legal(StartFrame(IndexOf(members, m), common)) {
      FramesLegal(cfg, s, 0, members, IndexOf(members, m), [], seed);
    }
    PostLegal(s.clients, StartMap(members, common));
  }

  lemma EnterLegal(cfg: Cfg, s: State, c: nat, t: nat, r: nat)
    requires LegalTx(s.clients) && c in s.clients && t in s.clients && Inv(cfg, Enter(s, c, t, r))
    ensures r in Enter(s, c, t, r).rooms && LegalTx(Broadcast(Enter(s, c, t, r), r).clients)
  {
    hide NamesOK, CountOK, LinksOK, Legal, RoomFrame;
    var s1 := Enter(s, c, t, r);
    assert RoomOK(cfg, s1.clients, r, s1.rooms[r]);
    FramesLegal(cfg, s1, 0, s1.rooms[r].members, 0, [], 0);
    PostLegal(s1.clients, ToAll(s1.rooms[r].members, RoomFrame(s1, s1.rooms[r].members)));
  }

  lemma JoinLegal(cfg: Cfg, s: State, c: nat, payload: bytes, made: nat, seed: word)
    requires Inv(cfg, s) && c in s.clients && made !in s.rooms && LegalTx(s.clients)
    ensures LegalTx(OnJoin(cfg, s, c, payload, made, seed).clients)
  {
    hide Inv, Stripped, Enter, RoomFrame, StartRoom, OnList, Drop, Has, Get, LegalTx;
    DropLegal(cfg, s, c);
    ListLegal(cfg, s, c);
    var name := Stripped(payload);
    if s.clients[c].name != [] && s.clients[c].room.None? && Joinable(cfg, s, c, name) {
      var t := Get(s.byName, name);
      var r := if s.clients[t].room.Some? then s.clients[t].room.value else made;
      EnterInv(cfg, s, c, t, r);
      EnterLegal(cfg, s, c, t, r);
      var s1 := Broadcast(Enter(s, c, t, r), r);
      PostInv(cfg, Enter(s, c, t, r), s1.clients);
      StartLegal(cfg, s1, r, seed);
    }
  }

  /** The match frames of the event, if it has any, pass the console's length table. */
  predicate LegalEvent(e: Event) {
    e.Framed? && |e.payload| <= 254 && RelayType(e.t) ==> Legal(Frame(e.t, e.payload))
  }

  lemma StepLegal(cfg: Cfg, s: State, e: Event)
    requires Inv(cfg, s) && Possible(s, e) && LegalEvent(e) && LegalTx(s.clients)
    ensures LegalTx(Step(cfg, s, e).clients)
  {
    hide Inv, Legal, LegalTx, OnHello, OnJoin, Drop, OnList, StartRoom, IndexOf, AllBut;
    match e
    case Accepted(c, ip) => AcceptLegal(s, c, ip);
    case Gone(c) => DropLegal(cfg, s, c);
    case Framed(c, t, payload, made, seed) =>
      DropLegal(cfg, s, c);
      ListLegal(cfg, s, c);
      HelloLegal(cfg, s, c, payload);
      JoinLegal(cfg, s, c, payload, made, seed);
      FramesLegal(cfg, s, c, [], 0, [], 0);
      PostLegal(s.clients, ToAll([c], Frame(T_PONG, [])));
      if s.clients[c].room.Some? && s.clients[c].room.value in s.rooms {
        var r := s.clients[c].room.value;
        StartLegal(cfg, s, r, seed);
        if RelayType(t) { PostLegal(s.clients, ToAll(AllBut(s.rooms[r].members, c), Frame(t, payload))); }
      }
  }

  lemma AcceptLegal(s: State, c: nat, ip: nat)
    requires c !in s.clients && LegalTx(s.clients)
    ensures LegalTx(Accept(s, c, ip).clients)
  {
  }

  lemma {:induction false} RunsLegal(cfg: Cfg, events: seq<Event>)
    requires 2 <= cfg.maxSeats <= ROSTER_SLOTS && forall e :: e in events ==> LegalEvent(e)
    ensures LegalTx(Exec(cfg, EMPTY, events).clients)
    decreases |events|
  {
    if events != [] {
      hide Step, LegalTx, LegalEvent;
      var before, e := events[..|events| - 1], events[|events| - 1];
      RunsLegal(cfg, before);
      RunsInv(cfg, before);
      if Possible(Exec(cfg, EMPTY, before), e) { StepLegal(cfg, Exec(cfg, EMPTY, before), e); }
    }
  }

  /** Relay to console: in every run whose consoles send legal match frames, however the bytes
      queued to a client are split into reads, its parser dispatches exactly the frames queued to
      it, in order, with no byte slipped. */
  lemma QueuedIsParsed(cfg: Cfg, events: seq<Event>, c: nat, chunks: seq<bytes>)
    requires 2 <= cfg.maxSeats <= ROSTER_SLOTS && forall e :: e in events ==> LegalEvent(e)
    requires c in Exec(cfg, EMPTY, events).clients
    requires Flatten(chunks) == Flatten(Exec(cfg, EMPTY, events).clients[c].tx)
    ensures Pumped([], chunks) == Parsed(Exec(cfg, EMPTY, events).clients[c].tx, 0, [])
  {
    RunsLegal(cfg, events);
    RoundTrip(Exec(cfg, EMPTY, events).clients[c].tx, chunks);
  }
}
