/** The C port's fixed arrays of clients and rooms seen as the dictionaries of Relay, and what each
    array assignment does to them. */
module RelayArrays {
  import opened Cells
  import opened Stream
  import opened Names
  import opened Relay
  import opened RelayInv
  import opened RelayRuns
  import opened RelayServer

  const MAX_ROOMS := MAX_CLIENTS / 2

  /** room is -1 for none; a slot stays in use, dead, until the end of its drop. */
  datatype CClient = CClient(inUse: bool, dead: bool, ip: nat, name: bytes, room: int, tx: seq<bytes>)

  datatype CRoom = CRoom(used: bool, members: seq<nat>, nmembers: nat, started: bool, seed: word)

  // ---- the arrays as dictionaries ----------------------------------------------------------------------

  function AbsClient(c: CClient): Client {
    Client(c.ip, c.name, if c.room >= 0 then Some(c.room) else None, c.tx)
  }

  function AbsClients(cs: seq<CClient>): map<nat, Client> {
    map i: nat | i < |cs| && cs[i].inUse :: AbsClient(cs[i])
  }

  function AbsRoom(r: CRoom): Room {
    Room(if r.nmembers <= |r.members| then r.members[..r.nmembers] else [], r.started, r.seed)
  }

  function AbsRooms(rs: seq<CRoom>): map<nat, Room> {
    map i: nat | i < |rs| && rs[i].used :: AbsRoom(rs[i])
  }

  lemma PutClient(cs: seq<CClient>, i: nat, c: CClient)
    requires i < |cs|
    ensures AbsClients(cs[i := c]) == if c.inUse then AbsClients(cs)[i := AbsClient(c)] else AbsClients(cs) - {i}
  {
  }

  lemma PutRoom(rs: seq<CRoom>, i: nat, r: CRoom)
    requires i < |rs|
    ensures AbsRooms(rs[i := r]) == if r.used then AbsRooms(rs)[i := AbsRoom(r)] else AbsRooms(rs) - {i}
  {
  }

  lemma {:induction false} FirstNats(n: nat, s: set<nat>)
    requires forall i: nat :: i in s <==> i < n
    ensures |s| == n
    decreases n
  {
    if n > 0 {
      FirstNats(n - 1, s - {n - 1});
    } else {
      assert s == {};
    }
  }

  /** With fewer rooms than slots some slot is free. */
  lemma AllRoomsUsed(rs: seq<CRoom>)
    requires forall i :: 0 <= i < |rs| ==> rs[i].used
    ensures |AbsRooms(rs)| == |rs|
  {
    FirstNats(|rs|, AbsRooms(rs).Keys);
    assert |AbsRooms(rs)| == |AbsRooms(rs).Keys|;
  }

  lemma AllClientsUsed(cs: seq<CClient>)
    requires forall i :: 0 <= i < |cs| ==> cs[i].inUse
    ensures |AbsClients(cs)| == |cs|
  {
    FirstNats(|cs|, AbsClients(cs).Keys);
    assert |AbsClients(cs)| == |AbsClients(cs).Keys|;
  }

  /** Rooms have four member slots. */
  ghost predicate SlotsOK(rs: seq<CRoom>) {
    |rs| == MAX_ROOMS && forall i :: 0 <= i < |rs| ==> |rs[i].members| == ROSTER_SLOTS && rs[i].nmembers <= ROSTER_SLOTS
  }

  /** Keys are C strings. */
  ghost predicate NulFree(d: Dict) {
    forall i :: 0 <= i < |d| ==> 0 !in d[i].name
  }

  lemma ValidNulFree(clients: map<nat, Client>, d: Dict)
    requires NamesOK(clients, d)
    ensures NulFree(d)
  {
    forall i | 0 <= i < |d| ensures 0 !in d[i].name {
      assert d[i] in d && ValidName(d[i].name);
    }
  }

  /** Only what has been queued differs. */
  ghost predicate TxOnly(a: seq<CClient>, b: seq<CClient>) {
    |a| == |b| && forall i {:trigger b[i]} :: 0 <= i < |a| ==> b[i] == a[i].(tx := b[i].tx)
  }

  lemma TxOnlyTwice(a: seq<CClient>, b: seq<CClient>, c: seq<CClient>)
    requires TxOnly(a, b) && TxOnly(b, c)
    ensures TxOnly(a, c)
  {
  }

  lemma TxOnlyFlags(a: seq<CClient>, b: seq<CClient>, m: nat)
    requires TxOnly(a, b) && m < |a|
    ensures |a| == |b| && b[m].inUse == a[m].inUse && b[m].dead == a[m].dead
  {
  }

  lemma TxOnlySame(a: seq<CClient>)
    ensures TxOnly(a, a)
  {
  }

  ghost predicate SameFlags(a: seq<CClient>, b: seq<CClient>) {
    |a| == |b| && forall i {:trigger b[i]} :: 0 <= i < |a| ==> b[i].inUse == a[i].inUse && b[i].dead == a[i].dead
  }

  lemma InUseIsIn(cs: seq<CClient>, i: nat)
    requires i < |cs|
    ensures i in AbsClients(cs) <==> cs[i].inUse
    ensures cs[i].inUse ==> AbsClients(cs)[i] == AbsClient(cs[i])
  {
  }

  lemma ToAllNone(members: seq<nat>, f: bytes)
    ensures ToAll(members[..0], f) == map[]
  {
  }

  lemma RoomIsIn(rs: seq<CRoom>, i: nat)
    requires i < |rs| && rs[i].used
    ensures i in AbsRooms(rs) && AbsRooms(rs)[i] == AbsRoom(rs[i])
  {
  }

  lemma MembersAre(r: CRoom)
    requires r.nmembers <= |r.members|
    ensures AbsRoom(r).members == r.members[..r.nmembers] && AbsRoom(r).started == r.started
  {
  }

  lemma UnroomNone(clients: map<nat, Client>, members: seq<nat>)
    ensures Unroom(clients, members[..0]) == clients
  {
  }

  lemma UnroomMore(clients: map<nat, Client>, members: seq<nat>, i: nat)
    requires i < |members| && members[i] in clients
    ensures var u := Unroom(clients, members[..i]);
            members[i] in u && Unroom(clients, members[..i + 1]) == u[members[i] := u[members[i]].(room := None)]
  {
  }

  /** What the abstract state says of the room a client is about to leave. */
  lemma LeavingRoom(cfg: Cfg, s: State, cs: seq<CClient>, rs: seq<CRoom>, c: nat)
    requires Inv(cfg, s) && s.clients == AbsClients(cs) && s.rooms == AbsRooms(rs) && SlotsOK(rs)
    requires c < |cs| && cs[c].inUse && cs[c].room >= 0
    ensures var r := cs[c].room as nat;
            && r < |rs| && rs[r].used && r in s.rooms && s.rooms[r] == AbsRoom(rs[r])
            && s.clients[c] == AbsClient(cs[c])
            && c in s.rooms[r].members && Distinct(s.rooms[r].members) && Distinct(AllBut(s.rooms[r].members, c))
            && forall m :: m in AllBut(s.rooms[r].members, c) ==> m < |cs| && cs[m].inUse && m != c
  {
    hide NamesOK, CountOK, AllBut, AbsRoom;
    LinkedRoom(cfg, s, c);
    AllButMeans(s.rooms[cs[c].room].members, c);
  }

  lemma DropLeft(s: State, c: nat, rest: seq<nat>, m: map<nat, Client>, f: bytes)
    requires c in s.clients && m == s.clients[c := s.clients[c].(room := None)]
    ensures Post(Unroom(m, rest), ToAll(rest, f)) - {c} == Post(Unroom(s.clients - {c}, rest), ToAll(rest, f))
    ensures Post(Unroom(m, rest), ToAll(rest, f)).Keys == s.clients.Keys
  {
  }

  lemma {:induction false} SameRoster(a: State, b: State, members: seq<nat>)
    requires forall m :: m in members ==> NameOf(a, m) == NameOf(b, m)
    ensures Pads(a, members) == Pads(b, members)
    decreases |members|
  {
    if members != [] { SameRoster(a, b, members[..|members| - 1]); }
  }

  lemma DropStay(s: State, c: nat, r: nat, rest: seq<nat>, x: State)
    requires c in s.clients && x.clients == s.clients[c := s.clients[c].(room := None)] && c !in rest
    requires r in s.rooms && x.rooms == s.rooms[r := s.rooms[r].(members := rest)]
    ensures var y := State(s.clients - {c}, Without(s.byName, c), x.rooms);
            && Broadcast(x, r).clients - {c} == Broadcast(y, r).clients && Broadcast(x, r).clients.Keys == s.clients.Keys
            && Broadcast(x, r).rooms == x.rooms == Broadcast(y, r).rooms
  {
    var y := State(s.clients - {c}, Without(s.byName, c), x.rooms);
    SameRoster(x, y, rest);
    assert RoomFrame(x, rest) == RoomFrame(y, rest);
    hide RoomFrame;
  }

  lemma NobodyTwice()
    ensures Distinct([])
  {
  }

  lemma DropCases(cfg: Cfg, s: State, c: nat)
    requires Inv(cfg, s) && c in s.clients && s.clients[c].room.Some?
    ensures var r := s.clients[c].room.value;
            && r in s.rooms
            && var room := s.rooms[r];
               var seat, rest, names := IndexOf(room.members, c), AllBut(room.members, c), Without(s.byName, c);
               var left := Unroom(s.clients - {c}, rest);
               Drop(s, c) ==
               if room.started then State(Post(left, ToAll(rest, LeftFrame(seat, s.clients[c].name))), names, s.rooms - {r})
               else if seat == 0 || |rest| < 2 then State(Post(left, ToAll(rest, GoneFrame())), names, s.rooms - {r})
               else Broadcast(State(s.clients - {c}, names, s.rooms[r := room.(members := rest)]), r)
  {
  }

  lemma DeadSame(cs: seq<CClient>, i: nat)
    requires i < |cs| && cs[i].inUse
    ensures AbsClients(cs[i := cs[i].(dead := true)]) == AbsClients(cs)
  {
  }

  lemma SameSize(a: map<nat, Client>, b: map<nat, Client>)
    ensures a.Keys == b.Keys ==> |a| == |b|
  {
  }

  lemma DropSolo(s: State, c: nat)
    requires c in s.clients
    ensures Drop(s, c).byName == Without(s.byName, c)
    ensures s.clients[c].room.None? ==> Drop(s, c) == State(s.clients - {c}, Without(s.byName, c), s.rooms)
  {
  }

  lemma PostOne(clients: map<nat, Client>, c: nat, f: bytes)
    requires c in clients
    ensures Post(clients, map[c := f]) == clients[c := clients[c].(tx := clients[c].tx + [f])]
  {
  }

  lemma ListNone(cfg: Cfg, s: State, c: nat)
    ensures forall d: Dict :: Others(s, d[..0], c) == []
    ensures LobbyEntries(cfg, s, []) == []
  {
  }

  lemma ListMore(cfg: Cfg, s: State, d: Dict, i: nat, c: nat)
    requires i < |d|
    ensures Others(s, d[..i + 1], c) ==
            var o := Others(s, d[..i], c); if d[i].client == c || NameOf(s, d[i].client) == [] then o else o + [d[i]]
    ensures d[i].client != c && NameOf(s, d[i].client) != [] ==>
            LobbyEntries(cfg, s, Others(s, d[..i + 1], c)) ==
            LobbyEntries(cfg, s, Others(s, d[..i], c)) + PadName(NameOf(s, d[i].client)) + [Status(cfg, s, d[i].client)]
  {
    assert d[..i + 1][..i] == d[..i];
    var o := Others(s, d[..i], c);
    assert (o + [d[i]])[..|o|] == o;
  }

  lemma {:induction false} OthersGrow(s: State, d: Dict, i: nat, j: nat, c: nat)
    requires i <= j <= |d|
    ensures Others(s, d[..i], c) <= Others(s, d[..j], c)
    decreases j
  {
    if i < j {
      OthersGrow(s, d, i, j - 1, c);
      assert d[..j][..j - 1] == d[..j - 1];
    }
  }

  /** Stopping at eight is taking the first eight. */
  lemma ListEnough(s: State, d: Dict, i: nat, c: nat)
    requires i <= |d| && |Others(s, d[..i], c)| <= LOBBY_ENTRIES
    requires i == |d| || |Others(s, d[..i], c)| == LOBBY_ENTRIES
    ensures FirstEight(Others(s, d, c)) == Others(s, d[..i], c)
  {
    OthersGrow(s, d, i, |d|, c);
    assert d[..|d|] == d;
    if i == |d| { assert d[..i] == d; }
  }

  lemma EntryInUse(cfg: Cfg, s: State, i: nat, cs: seq<CClient>)
    requires Inv(cfg, s) && i < |s.byName| && s.clients == AbsClients(cs)
    ensures var c := s.byName[i].client; c < |cs| && cs[c].inUse && cs[c].name == NameOf(s, c)
  {
    hide RoomsOK, LinksOK, CountOK, ValidName;
    assert s.byName[i] in s.byName;
  }

  lemma NoNul(name: bytes)
    requires ValidName(name)
    ensures CString(name) == name
  {
  }

  /** What the name calls of a rename rely on. */
  lemma NamesRoom(cfg: Cfg, s: State, c: nat, name: bytes)
    requires Inv(cfg, s) && c in s.clients && ValidName(name)
    ensures NulFree(s.byName) && CString(name) == name && CString(s.clients[c].name) == s.clients[c].name
    ensures |s.byName| <= MAX_CLIENTS
    ensures var names := FreedNames(s.byName, c, s.clients[c].name, name);
            NulFree(names) && (!Has(names, name) ==> |names| < MAX_CLIENTS)
  {
    hide RoomsOK, LinksOK, ValidName, Set, Del, Has, Get;
    ValidNulFree(s.clients, s.byName);
    NoNul(name);
    NamesSuffice(cfg, s, c, name);
    var was := s.clients[c].name;
    if was != [] {
      assert Entry(was, c) in s.byName;
      NoNul(was);
      KeyOfClient(s.byName, was, c);
    }
    DelNulFree(s.byName, was);
  }

  lemma DelNulFree(d: Dict, name: bytes)
    requires NulFree(d)
    ensures NulFree(Del(d, name))
  {
  }

  lemma FoundIsHeld(d: Dict, name: bytes, at: nat)
    requires at == Find(d, name)
    ensures at < |d| <==> Has(d, name)
  {
  }

  lemma NotOurs(d: Dict, name: bytes, at: nat, c: nat)
    requires at == Find(d, name)
    ensures Has(d, name) ==> at < |d| && Get(d, name) == d[at].client
  {
  }

  function FreedNames(d: Dict, c: nat, was: bytes, name: bytes): Dict {
    if was != [] && was != name && Has(d, was) && Get(d, was) == c then Del(d, was) else d
  }

  lemma FreedCases(d: Dict, c: nat, was: bytes, name: bytes)
    ensures var at := Find(d, was);
            FreedNames(d, c, was, name) ==
            if was != [] && was != name && at < |d| && d[at].client == c then RemoveAt(d, at) else d
  {
  }

  lemma RegisteredParts(s: State, c: nat, name: bytes)
    requires c in s.clients
    ensures Registered(s, c, name) ==
            s.(clients := s.clients[c := s.clients[c].(name := name)],
               byName := Set(FreedNames(s.byName, c, s.clients[c].name, name), name, c))
  {
  }

  lemma RoomMembers(cfg: Cfg, s: State, cs: seq<CClient>, r: nat)
    requires Inv(cfg, s) && s.clients == AbsClients(cs) && r in s.rooms
    ensures Distinct(s.rooms[r].members) && |s.rooms[r].members| <= ROSTER_SLOTS
    ensures forall m :: m in s.rooms[r].members ==> m < |cs| && cs[m].inUse
  {
  }

  lemma StartParts(cfg: Cfg, s: State, r: nat, seed: word)
    requires r in s.rooms
    ensures var members := s.rooms[r].members;
            StartRoom(cfg, s, r, seed) ==
            s.(rooms := s.rooms[r := s.rooms[r].(started := true, seed := seed)],
               clients := Post(s.clients, StartMap(members, [Low(|members|), seed % 256, seed / 256, cfg.delay] + Roster(s, members))))
    ensures StartRoom(cfg, s, r, seed).clients.Keys == s.clients.Keys
  {
  }

  lemma StartedRoom(r: CRoom, seed: word)
    ensures AbsRoom(r.(started := true, seed := seed)) == AbsRoom(r).(started := true, seed := seed)
  {
  }

  lemma RelaySame(s: State, clients: map<nat, Client>, out: map<nat, bytes>)
    requires clients == Post(s.clients, out)
    ensures SameBut(s.clients, clients)
  {
  }

  /** What the C port looks up for a JOIN: at most eight bytes, up to the first NUL. */
  function CJoinName(payload: bytes): bytes {
    var raw := Stripped(payload);
    if |raw| > 8 then [] else CString(raw)
  }

  lemma SeatsFour(cfg: Cfg, s: State)
    requires Inv(cfg, s)
    ensures cfg.maxSeats <= ROSTER_SLOTS
  {
  }

  lemma FreeRoomId(rs: seq<CRoom>)
    ensures |rs| == MAX_ROOMS ==> MAX_ROOMS !in AbsRooms(rs)
  {
  }

  lemma NoEmptyName(cfg: Cfg, s: State)
    requires Inv(cfg, s)
    ensures !Has(s.byName, [])
  {
    hide RoomsOK, LinksOK, CountOK, ValidName;
    assert forall e :: e in s.byName ==> e.name != [];
  }

  lemma NamesNulFree(cfg: Cfg, s: State)
    requires Inv(cfg, s)
    ensures NulFree(s.byName)
  {
    ValidNulFree(s.clients, s.byName);
  }

  lemma LeftRoom(cfg: Cfg, s: State, cs: seq<CClient>, rs: seq<CRoom>, c: nat)
    requires Inv(cfg, s) && s.clients == AbsClients(cs) && s.rooms == AbsRooms(rs) && SlotsOK(rs)
    requires c < |cs| && cs[c].inUse
    ensures s.clients[c] == AbsClient(cs[c])
    ensures cs[c].room >= 0 ==>
              cs[c].room < |rs| && rs[cs[c].room].used && cs[c].room in s.rooms && s.rooms[cs[c].room] == AbsRoom(rs[cs[c].room])
  {
    if cs[c].room >= 0 { LeavingRoom(cfg, s, cs, rs, c); }
  }

  lemma TellInv(cfg: Cfg, s: State, r: nat)
    requires Inv(cfg, s) && r in s.rooms
    ensures Inv(cfg, Broadcast(s, r)) && Broadcast(s, r).clients.Keys == s.clients.Keys && Broadcast(s, r).rooms == s.rooms
  {
    hide Inv, RoomFrame;
    PostInv(cfg, s, Broadcast(s, r).clients);
  }

  lemma JoinParts(cfg: Cfg, s: State, c: nat, name: bytes, t: nat, r: nat, seed: word)
    requires c in s.clients && s.clients[c].name != [] && s.clients[c].room.None? && Joinable(cfg, s, c, name) && t == Get(s.byName, name)
    requires if s.clients[t].room.Some? then s.clients[t].room.value == r else r !in s.rooms
    ensures t in s.clients && r in Enter(s, c, t, r).rooms
    ensures var s1 := Broadcast(Enter(s, c, t, r), r);
            JoinAs(cfg, s, c, name, r, seed) ==
            if cfg.autoGo != 0 && |s1.rooms[r].members| >= cfg.autoGo then StartRoom(cfg, s1, r, seed) else s1
  {
  }

  lemma FreeClientId(cs: seq<CClient>)
    requires |cs| == MAX_CLIENTS
    ensures MAX_CLIENTS !in AbsClients(cs)
  {
  }

  lemma PongInv(cfg: Cfg, s: State, c: nat)
    requires Inv(cfg, s)
    ensures Inv(cfg, Tell(s, [c], Frame(T_PONG, [])))
  {
    hide Inv;
    PostInv(cfg, s, Tell(s, [c], Frame(T_PONG, [])).clients);
  }
}
