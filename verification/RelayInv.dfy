/** What holds of the relay between any two events: rooms, seats and names fit together, and the
    fixed capacities of the C port are never exceeded. */
module RelayInv {
  import opened Cells
  import opened Stream
  import opened Names
  import opened Relay

  ghost predicate Distinct(s: seq<nat>) {
    forall i, j :: 0 <= i < j < |s| ==> s[i] != s[j]
  }

  /** Two to maxSeats distinct connected named clients, each of which knows it is in this room. */
  ghost predicate RoomOK(cfg: Cfg, clients: map<nat, Client>, r: nat, room: Room) {
    && 2 <= |room.members| <= cfg.maxSeats && Distinct(room.members)
    && forall m {:trigger m in room.members} :: m in room.members ==>
         m in clients && clients[m].room == Some(r) && clients[m].name != []
  }

  ghost predicate RoomsOK(cfg: Cfg, clients: map<nat, Client>, rooms: map<nat, Room>) {
    forall r {:trigger r in rooms} :: r in rooms ==> RoomOK(cfg, clients, r, rooms[r])
  }

  /** A client that has a room is one of its members, so its seat is its index there. */
  ghost predicate LinksOK(clients: map<nat, Client>, rooms: map<nat, Room>) {
    forall c {:trigger c in clients} :: c in clients && clients[c].room.Some? ==>
      clients[c].room.value in rooms && c in rooms[clients[c].room.value].members
  }

  /** The dictionary is a bijection between its keys and the connected named clients. */
  ghost predicate NamesOK(clients: map<nat, Client>, d: Dict) {
    && DistinctKeys(d)
    && (forall e {:trigger e in d} :: e in d ==>
          e.client in clients && clients[e.client].name == e.name != [] && ValidName(e.name))
    && (forall c {:trigger c in clients} :: c in clients && clients[c].name != [] ==> Entry(clients[c].name, c) in d)
  }

  ghost predicate CountOK(clients: map<nat, Client>) {
    |clients| <= MAX_CLIENTS && forall ip :: |FromIp(clients, ip)| <= MAX_CONNECTIONS_PER_IP
  }

  ghost predicate Inv(cfg: Cfg, s: State) {
    && 2 <= cfg.maxSeats <= ROSTER_SLOTS
    && RoomsOK(cfg, s.clients, s.rooms) && LinksOK(s.clients, s.rooms)
    && NamesOK(s.clients, s.byName) && CountOK(s.clients)
  }

  // ---- sending changes nothing but tx ----------------------------------------------------------

  ghost predicate SameBut(a: map<nat, Client>, b: map<nat, Client>) {
    && a.Keys == b.Keys
    && forall c {:trigger c in a} :: c in a ==> a[c].(tx := b[c].tx) == b[c]
  }

  lemma SameCount(a: map<nat, Client>, b: map<nat, Client>)
    requires CountOK(a) && b.Keys <= a.Keys && forall c :: c in b ==> b[c].ip == a[c].ip
    ensures CountOK(b)
  {
    Smaller(b.Keys, a.Keys);
    forall ip ensures |FromIp(b, ip)| <= MAX_CONNECTIONS_PER_IP {
      assert FromIp(b, ip) <= FromIp(a, ip);
      Smaller(FromIp(b, ip), FromIp(a, ip));
    }
  }

  lemma {:induction false} Smaller(a: set<nat>, b: set<nat>)
    requires a <= b
    ensures |a| <= |b|
    decreases a
  {
    if a != {} {
      var x :| x in a;
      Smaller(a - {x}, b - {x});
    }
  }

  lemma PostInv(cfg: Cfg, s: State, clients: map<nat, Client>)
    requires Inv(cfg, s) && SameBut(s.clients, clients)
    ensures Inv(cfg, s.(clients := clients))
  {
    hide CountOK, DistinctKeys, Distinct, ValidName;
    SameCount(s.clients, clients);
  }

  // ---- leaving -----------------------------------------------------------------------------------

  lemma AllButMeans(members: seq<nat>, c: nat)
    requires Distinct(members)
    ensures Distinct(AllBut(members, c))
    ensures forall m :: m in AllBut(members, c) <==> m in members && m != c
    ensures |AllBut(members, c)| == if c in members then |members| - 1 else |members|
  {
  }

  lemma DropNames(clients: map<nat, Client>, d: Dict, c: nat)
    requires NamesOK(clients, d) && c in clients
    ensures NamesOK(clients - {c}, Without(d, c))
  {
    hide ValidName;
    DistinctWithout(d, c);
  }

  lemma UnroomNames(clients: map<nat, Client>, d: Dict, members: seq<nat>)
    requires NamesOK(clients, d)
    ensures NamesOK(Unroom(clients, members), d)
  {
  }

  lemma DissolveRooms(cfg: Cfg, s: State, c: nat, r: nat)
    requires RoomsOK(cfg, s.clients, s.rooms) && LinksOK(s.clients, s.rooms)
    requires c in s.clients && s.clients[c].room == Some(r) && r in s.rooms
    ensures var rest := AllBut(s.rooms[r].members, c);
            var clients, rooms := Unroom(s.clients - {c}, rest), s.rooms - {r};
            RoomsOK(cfg, clients, rooms) && LinksOK(clients, rooms)
  {
    hide Distinct, AllBut;
    AllButMeans(s.rooms[r].members, c) by { assert RoomOK(cfg, s.clients, r, s.rooms[r]); }
    var rest := AllBut(s.rooms[r].members, c);
    var clients := Unroom(s.clients - {c}, rest);
    forall q | q in s.rooms && q != r ensures RoomOK(cfg, clients, q, s.rooms[q]) {
      assert RoomOK(cfg, s.clients, q, s.rooms[q]);
      forall m | m in s.rooms[q].members ensures m in clients && clients[m] == s.clients[m] {
        assert m != c && m !in rest;
      }
    }
  }

  lemma ReseatRooms(cfg: Cfg, s: State, c: nat, r: nat)
    requires RoomsOK(cfg, s.clients, s.rooms) && LinksOK(s.clients, s.rooms)
    requires c in s.clients && s.clients[c].room == Some(r) && r in s.rooms
    requires |AllBut(s.rooms[r].members, c)| >= 2
    ensures var clients, rooms := s.clients - {c}, s.rooms[r := s.rooms[r].(members := AllBut(s.rooms[r].members, c))];
            RoomsOK(cfg, clients, rooms) && LinksOK(clients, rooms)
  {
    hide Distinct, AllBut;
    assert RoomOK(cfg, s.clients, r, s.rooms[r]);
    AllButMeans(s.rooms[r].members, c);
    var rest := AllBut(s.rooms[r].members, c);
    var clients := s.clients - {c};
    var rooms := s.rooms[r := s.rooms[r].(members := rest)];
    forall q | q in rooms ensures RoomOK(cfg, clients, q, rooms[q]) {
      assert RoomOK(cfg, s.clients, q, s.rooms[q]);
      forall m | m in rooms[q].members ensures m in clients && m != c && m in s.rooms[q].members {
      }
    }
  }

  /** Dropping a client keeps the invariant, whatever room it was in. */
  lemma ToldInv(cfg: Cfg, s: State, members: seq<nat>, f: bytes)
    requires Inv(cfg, s)
    ensures Inv(cfg, Tell(s, members, f)) && Tell(s, members, f).clients.Keys == s.clients.Keys
  {
    hide Inv;
    PostInv(cfg, s, Tell(s, members, f).clients);
  }

  /** The server without client c, its room not yet looked at. */
  function Unlisted(s: State, c: nat): State { s.(clients := s.clients - {c}, byName := Without(s.byName, c)) }

  lemma UnlistedOK(cfg: Cfg, s: State, c: nat)
    requires Inv(cfg, s) && c in s.clients
    ensures NamesOK(Unlisted(s, c).clients, Unlisted(s, c).byName) && CountOK(Unlisted(s, c).clients)
  {
    hide RoomsOK, LinksOK, NamesOK, CountOK, Without;
    DropNames(s.clients, s.byName, c);
    SameCount(s.clients, s.clients - {c});
  }

  lemma DropDissolves(cfg: Cfg, s: State, c: nat, r: nat)
    requires Inv(cfg, s) && c in s.clients && s.clients[c].room == Some(r) && r in s.rooms
    ensures var rest := AllBut(s.rooms[r].members, c);
            var s2 := Dissolve(Unlisted(s, c), r, rest);
            Inv(cfg, s2) && s2.clients.Keys == s.clients.Keys - {c}
  {
    hide RoomsOK, LinksOK, NamesOK, CountOK, AllBut, Without;
    var rest, s1 := AllBut(s.rooms[r].members, c), Unlisted(s, c);
    UnlistedOK(cfg, s, c);
    DissolveRooms(cfg, s, c, r);
    UnroomNames(s1.clients, s1.byName, rest);
    SameCount(s.clients, Unroom(s1.clients, rest));
  }

  lemma DropInv(cfg: Cfg, s: State, c: nat)
    requires Inv(cfg, s) && c in s.clients
    ensures Inv(cfg, Drop(s, c)) && Drop(s, c).clients.Keys == s.clients.Keys - {c}
  {
    hide RoomsOK, LinksOK, NamesOK, CountOK, AllBut, Without, LeftFrame, GoneFrame, RoomFrame, Tell, Dissolve;
    var cl, s1 := s.clients[c], Unlisted(s, c);
    UnlistedOK(cfg, s, c);
    if cl.room.None? {
      SoloRooms(cfg, s, c);
    } else {
      var r := cl.room.value;
      LinkedRoom(cfg, s, c);
      var room, seat, rest := s.rooms[r], IndexOf(s.rooms[r].members, c), AllBut(s.rooms[r].members, c);
      if room.started || seat == 0 || |rest| < 2 {
        DropDissolves(cfg, s, c, r);
        ToldInv(cfg, Dissolve(s1, r, rest), rest, if room.started then LeftFrame(seat, cl.name) else GoneFrame());
      } else {
        var s2 := s1.(rooms := s1.rooms[r := room.(members := rest)]);
        ReseatRooms(cfg, s, c, r);
        ToldInv(cfg, s2, rest, RoomFrame(s2, rest));
      }
    }
  }

  lemma SoloRooms(cfg: Cfg, s: State, c: nat)
    requires RoomsOK(cfg, s.clients, s.rooms) && LinksOK(s.clients, s.rooms) && c in s.clients && s.clients[c].room.None?
    ensures RoomsOK(cfg, s.clients - {c}, s.rooms) && LinksOK(s.clients - {c}, s.rooms)
  {
  }

  lemma LinkedRoom(cfg: Cfg, s: State, c: nat)
    requires RoomsOK(cfg, s.clients, s.rooms) && LinksOK(s.clients, s.rooms) && c in s.clients && s.clients[c].room.Some?
    ensures s.clients[c].room.value in s.rooms && c in s.rooms[s.clients[c].room.value].members
    ensures RoomOK(cfg, s.clients, s.clients[c].room.value, s.rooms[s.clients[c].room.value])
  {
  }

  // ---- names -------------------------------------------------------------------------------------

  lemma Listed(cfg: Cfg, s: State, c: nat)
    requires Inv(cfg, s)
    ensures Inv(cfg, OnList(cfg, s, c)) && SameBut(s.clients, OnList(cfg, s, c).clients)
  {
    hide Inv, LobbyFrame;
    PostInv(cfg, s, OnList(cfg, s, c).clients);
  }

  lemma Holder(d: Dict, e: Entry)
    requires DistinctKeys(d) && e in d
    ensures Has(d, e.name) && d[Find(d, e.name)] == e
  {
  }

  lemma KeyOfClient(d: Dict, name: bytes, c: nat)
    requires DistinctKeys(d) && Entry(name, c) in d
    ensures Has(d, name) && Get(d, name) == c
  {
  }

  /** A HELLO under a new name first frees the old one ... */
  lemma FreeName(clients: map<nat, Client>, d: Dict, c: nat)
    requires NamesOK(clients, d) && c in clients && clients[c].name != []
    ensures Has(d, clients[c].name) && Get(d, clients[c].name) == c
    ensures NamesOK(clients[c := clients[c].(name := [])], Del(d, clients[c].name))
  {
    hide ValidName, RemoveAt, DistinctKeys;
    Holder(d, Entry(clients[c].name, c));
    DistinctRemoved(d, Find(d, clients[c].name));
    forall e | e in d && e.name == clients[c].name ensures e.client == c { Holder(d, e); }
  }

  /** ... and then registers the new one. */
  lemma TakeName(clients: map<nat, Client>, d: Dict, c: nat, name: bytes)
    requires NamesOK(clients, d) && c in clients && clients[c].name == [] && ValidName(name)
    requires name != [] && forall e :: e in d ==> e.name != name
    ensures NamesOK(clients[c := clients[c].(name := name)], Set(d, name, c))
  {
  }

  lemma RegisterNames(clients: map<nat, Client>, d: Dict, c: nat, name: bytes)
    requires NamesOK(clients, d) && c in clients && ValidName(name) && name != []
    requires forall e :: e in d && e.name == name ==> e.client == c
    ensures var was := clients[c].name;
            var names := if was != [] && was != name && Has(d, was) && Get(d, was) == c then Del(d, was) else d;
            NamesOK(clients[c := clients[c].(name := name)], Set(names, name, c))
  {
    hide ValidName, DistinctKeys, Del;
    var was := clients[c].name;
    if was == name {
      FreeName(clients, d, c);
      assert Set(d, name, c) == d && clients[c := clients[c].(name := name)] == clients;
    } else {
      assert forall e :: e in d ==> e.name != name;
      if was == [] {
        TakeName(clients, d, c, name);
      } else {
        FreeName(clients, d, c);
        DelShrinks(d, was);
        TakeName(clients[c := clients[c].(name := [])], Del(d, was), c, name);
        assert clients[c := clients[c].(name := [])][c := clients[c].(name := name)] == clients[c := clients[c].(name := name)];
      }
    }
  }

  lemma DelShrinks(d: Dict, name: bytes)
    ensures forall e :: e in Del(d, name) ==> e in d
  {
  }

  lemma NameKeepsRooms(cfg: Cfg, s: State, c: nat, name: bytes)
    requires RoomsOK(cfg, s.clients, s.rooms) && LinksOK(s.clients, s.rooms) && c in s.clients && name != []
    ensures var clients := s.clients[c := s.clients[c].(name := name)];
            RoomsOK(cfg, clients, s.rooms) && LinksOK(clients, s.rooms)
  {
  }

  lemma HolderOf(cfg: Cfg, s: State, name: bytes)
    requires Inv(cfg, s)
    ensures forall e :: e in s.byName && e.name == name ==> Has(s.byName, name) && Get(s.byName, name) == e.client
    ensures Has(s.byName, name) ==> Get(s.byName, name) in s.clients
    ensures DistinctKeys(s.byName)
  {
    hide RoomsOK, LinksOK, CountOK, ValidName;
    if Has(s.byName, name) { assert s.byName[Find(s.byName, name)] in s.byName; }
    forall e | e in s.byName && e.name == name ensures Has(s.byName, name) && Get(s.byName, name) == e.client {
      Holder(s.byName, e);
    }
  }

  lemma RegisterInv(cfg: Cfg, s: State, c: nat, name: bytes)
    requires Inv(cfg, s) && c in s.clients && ValidName(name)
    requires forall e :: e in s.byName && e.name == name ==> e.client == c
    ensures Inv(cfg, Registered(s, c, name)) && Registered(s, c, name).clients.Keys == s.clients.Keys
  {
    hide RoomsOK, LinksOK, NamesOK, CountOK, ValidName, Del, Set, Has, Get;
    NameLength(name);
    RegisterNames(s.clients, s.byName, c, name);
    NameKeepsRooms(cfg, s, c, name);
    SameCount(s.clients, s.clients[c := s.clients[c].(name := name)]);
  }

  lemma HelloInv(cfg: Cfg, s: State, c: nat, payload: bytes)
    requires Inv(cfg, s) && c in s.clients
    ensures Inv(cfg, OnHello(cfg, s, c, payload))
  {
    hide Inv, ValidName, Stripped, Drop, Registered, OnList, Has, Get;
    DropInv(cfg, s, c);
    if |payload| >= 3 && payload[0] == PROTO_VER && ValidName(Stripped(payload[1..])) {
      var name := Stripped(payload[1..]);
      HolderOf(cfg, s, name);
      var s1 := s;
      if Has(s.byName, name) && Get(s.byName, name) != c {
        s1 := Drop(s, Get(s.byName, name));
        DropInv(cfg, s, Get(s.byName, name));
        Evicted(s, name);
      }
      RegisterInv(cfg, s1, c, name);
      Listed(cfg, Registered(s1, c, name), c);
    }
  }

  lemma NameLength(name: bytes)
    ensures ValidName(name) ==> |name| >= 2
  {
  }

  /** After the old holder is dropped nobody holds the name. */
  lemma Evicted(s: State, name: bytes)
    requires DistinctKeys(s.byName) && Has(s.byName, name) && Get(s.byName, name) in s.clients
    ensures forall e :: e in Drop(s, Get(s.byName, name)).byName ==> e.name != name
  {
  }

  // ---- joining and starting ----------------------------------------------------------------------

  /** Client t is solo and room r is new, or t is in room r and a seat is free. */
  ghost predicate Enterable(cfg: Cfg, s: State, c: nat, t: nat, r: nat) {
    && c in s.clients && t in s.clients && t != c
    && s.clients[c].room.None? && s.clients[c].name != [] && s.clients[t].name != []
    && if s.clients[t].room.Some? then s.clients[t].room.value == r && r in s.rooms && |s.rooms[r].members| < cfg.maxSeats
       else r !in s.rooms
  }

  lemma EnterRooms(cfg: Cfg, s: State, c: nat, t: nat, r: nat)
    requires Enterable(cfg, s, c, t, r) && RoomsOK(cfg, s.clients, s.rooms) && cfg.maxSeats >= 2
    ensures RoomsOK(cfg, Enter(s, c, t, r).clients, Enter(s, c, t, r).rooms)
  {
    var s1 := Enter(s, c, t, r);
    forall q | q in s1.rooms ensures RoomOK(cfg, s1.clients, q, s1.rooms[q]) {
      if q != r || s.clients[t].room.Some? {
        assert RoomOK(cfg, s.clients, q, s.rooms[q]);
        assert c !in s.rooms[q].members;
      }
    }
  }

  lemma EnterLinks(cfg: Cfg, s: State, c: nat, t: nat, r: nat)
    requires Enterable(cfg, s, c, t, r) && LinksOK(s.clients, s.rooms)
    ensures LinksOK(Enter(s, c, t, r).clients, Enter(s, c, t, r).rooms)
  {
  }

  lemma EnterInv(cfg: Cfg, s: State, c: nat, t: nat, r: nat)
    requires Inv(cfg, s) && Enterable(cfg, s, c, t, r)
    ensures Inv(cfg, Enter(s, c, t, r))
  {
    hide NamesOK, CountOK, RoomsOK, LinksOK;
    SameCount(s.clients, Enter(s, c, t, r).clients);
    EnterNames(s, c, t, r);
    EnterRooms(cfg, s, c, t, r);
    EnterLinks(cfg, s, c, t, r);
  }

  lemma EnterNames(s: State, c: nat, t: nat, r: nat)
    requires NamesOK(s.clients, s.byName) && c in s.clients && t in s.clients
    ensures NamesOK(Enter(s, c, t, r).clients, s.byName)
  {
  }

  lemma StartInv(cfg: Cfg, s: State, r: nat, seed: word)
    requires Inv(cfg, s) && r in s.rooms
    ensures Inv(cfg, StartRoom(cfg, s, r, seed))
  {
    hide NamesOK, CountOK, StartCommon, StartMap, Distinct;
    var s1 := s.(rooms := s.rooms[r := s.rooms[r].(started := true, seed := seed)]);
    forall q | q in s1.rooms ensures RoomOK(cfg, s1.clients, q, s1.rooms[q]) {
      assert RoomOK(cfg, s.clients, q, s.rooms[q]);
    }
    assert Inv(cfg, s1);
    PostInv(cfg, s1, StartRoom(cfg, s, r, seed).clients);
  }

  lemma JoinInv(cfg: Cfg, s: State, c: nat, name: bytes, made: nat, seed: word)
    requires Inv(cfg, s) && c in s.clients && made !in s.rooms
    ensures Inv(cfg, JoinAs(cfg, s, c, name, made, seed))
  {
    hide Inv, Enter, RoomFrame, StartRoom, OnList, Drop;
    DropInv(cfg, s, c);
    Listed(cfg, s, c);
    if s.clients[c].name != [] && s.clients[c].room.None? && Joinable(cfg, s, c, name) {
      var t := Get(s.byName, name);
      var r := if s.clients[t].room.Some? then s.clients[t].room.value else made;
      EnterInv(cfg, s, c, t, r);
      EnterRoom(s, c, t, r);
      var s1 := Broadcast(Enter(s, c, t, r), r);
      PostInv(cfg, Enter(s, c, t, r), s1.clients);
      StartInv(cfg, s1, r, seed);
    }
  }

  lemma EnterRoom(s: State, c: nat, t: nat, r: nat)
    requires c in s.clients && t in s.clients
    ensures r in Enter(s, c, t, r).rooms
  {
  }

  lemma HandleInv(cfg: Cfg, s: State, c: nat, t: byte, payload: bytes, made: nat, seed: word)
    requires Inv(cfg, s) && c in s.clients && |payload| <= 254 && made !in s.rooms
    ensures Inv(cfg, Handle(cfg, s, c, t, payload, made, seed))
  {
    hide Inv, OnHello, JoinAs, Stripped, StartRoom, Drop, OnList, AllBut;
    DropInv(cfg, s, c);
    HelloInv(cfg, s, c, payload);
    JoinInv(cfg, s, c, Stripped(payload), made, seed);
    Listed(cfg, s, c);
    if s.clients[c].room.Some? && s.clients[c].room.value in s.rooms {
      StartInv(cfg, s, s.clients[c].room.value, seed);
    }
    forall out: map<nat, bytes> ensures Inv(cfg, s.(clients := Post(s.clients, out))) {
      PostInv(cfg, s, Post(s.clients, out));
    }
  }

  lemma AcceptFrom(clients: map<nat, Client>, c: nat, cl: Client, ip: nat)
    requires c !in clients
    ensures FromIp(clients[c := cl], ip) == if ip == cl.ip then FromIp(clients, ip) + {c} else FromIp(clients, ip)
  {
  }

  lemma AcceptCount(clients: map<nat, Client>, c: nat, cl: Client)
    requires CountOK(clients) && c !in clients
    requires |clients| < MAX_CLIENTS && |FromIp(clients, cl.ip)| < MAX_CONNECTIONS_PER_IP
    ensures CountOK(clients[c := cl])
  {
    var clients' := clients[c := cl];
    assert clients'.Keys == clients.Keys + {c};
    forall ip ensures |FromIp(clients', ip)| <= MAX_CONNECTIONS_PER_IP {
      AcceptFrom(clients, c, cl, ip);
    }
  }

  lemma AcceptNames(clients: map<nat, Client>, d: Dict, c: nat, cl: Client)
    requires NamesOK(clients, d) && c !in clients && cl.name == []
    ensures NamesOK(clients[c := cl], d)
  {
  }

  lemma AcceptInv(cfg: Cfg, s: State, c: nat, ip: nat)
    requires Inv(cfg, s) && c !in s.clients
    ensures Inv(cfg, Accept(s, c, ip))
  {
    hide NamesOK, CountOK, Distinct;
    var s1 := Accept(s, c, ip);
    if |s.clients| < MAX_CLIENTS && |FromIp(s.clients, ip)| < MAX_CONNECTIONS_PER_IP {
      AcceptCount(s.clients, c, Client(ip, [], None, []));
      AcceptNames(s.clients, s.byName, c, Client(ip, [], None, []));
      forall q | q in s1.rooms ensures RoomOK(cfg, s1.clients, q, s1.rooms[q]) {
        assert RoomOK(cfg, s.clients, q, s.rooms[q]);
      }
    }
  }

  lemma StepInv(cfg: Cfg, s: State, e: Event)
    requires Inv(cfg, s) && Possible(s, e)
    ensures Inv(cfg, Step(cfg, s, e))
  {
    hide Inv, Handle, Drop, Accept;
    match e
    case Accepted(c, ip) => AcceptInv(cfg, s, c, ip);
    case Framed(c, t, payload, made, seed) => HandleInv(cfg, s, c, t, payload, made, seed);
    case Gone(c) => DropInv(cfg, s, c);
  }

  /** Between any two events of any run, rooms, seats and names fit together. */
  lemma {:induction false} RunsInv(cfg: Cfg, events: seq<Event>)
    requires 2 <= cfg.maxSeats <= ROSTER_SLOTS
    ensures Inv(cfg, Exec(cfg, EMPTY, events))
    decreases |events|
  {
    if events == [] {
      forall ip ensures FromIp(EMPTY.clients, ip) == {} {}
    } else {
      hide Step, Inv;
      var before, e := events[..|events| - 1], events[|events| - 1];
      RunsInv(cfg, before);
      if Possible(Exec(cfg, EMPTY, before), e) { StepInv(cfg, Exec(cfg, EMPTY, before), e); }
    }
  }
}
