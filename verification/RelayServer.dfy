/** The Python server's handlers, changing its dictionaries and lists in place.  Each is proved to
    do exactly what the function of the same name in Relay says. */
module RelayServer {
  import opened Cells
  import opened Stream
  import opened Names
  import opened Relay
  import opened RelayInv

  /** One more client in a broadcast. */
  lemma PostMore(clients: map<nat, Client>, out: map<nat, bytes>, m: nat, f: bytes)
    requires m !in out
    ensures Post(clients, out[m := f]) ==
            var sent := Post(clients, out);
            if m in sent then sent[m := sent[m].(tx := sent[m].tx + [f])] else sent
  {
  }

  lemma ToAllMore(members: seq<nat>, i: nat, f: bytes)
    requires Distinct(members) && i < |members|
    ensures members[i] !in ToAll(members[..i], f)
    ensures ToAll(members[..i + 1], f) == ToAll(members[..i], f)[members[i] := f]
  {
  }

  lemma PostNobody(clients: map<nat, Client>)
    ensures Post(clients, map[]) == clients
  {
  }

  lemma {:induction false} NoneWithout(d: Dict, c: nat)
    requires forall e :: e in d ==> e.client != c
    ensures Without(d, c) == d
    decreases |d|
  {
    if d != [] {
      NoneWithout(d[..|d| - 1], c);
      assert d == d[..|d| - 1] + [d[|d| - 1]];
    }
  }

  lemma {:induction false} RemoveWithout(d: Dict, i: nat, c: nat)
    requires i < |d| && d[i].client == c
    ensures Without(RemoveAt(d, i), c) == Without(d, c)
    decreases |d|
  {
    hide RemoveAt;
    var n, r := |d| - 1, RemoveAt(d, i);
    if i < n {
      RemoveWithout(d[..n], i, c);
      assert r[..n - 1] == RemoveAt(d[..n], i) && r[n - 1] == d[n];
      WithoutLast(r, c);
      WithoutLast(d, c);
    } else {
      assert r == d[..n];
      WithoutLast(d, c);
    }
  }

  lemma WithoutLast(d: Dict, c: nat)
    requires d != []
    ensures var n := |d| - 1;
            Without(d, c) == Without(d[..n], c) + if d[n].client == c then [] else [d[n]]
  {
  }

  /** Every name in the list is a key of client c. */
  ghost predicate AllStale(d: Dict, c: nat, stale: seq<bytes>) {
    forall i :: 0 <= i < |stale| ==> Entry(stale[i], c) in d
  }

  class Server {
    const cfg: Cfg
    var clients: map<nat, Client>
    var byName: Dict
    var rooms: map<nat, Room>

    /** The server as a value. */
    function St(): State
      reads this
    {
      State(clients, byName, rooms)
    }

    constructor (cfg: Cfg)
      ensures this.cfg == cfg && St() == EMPTY
    {
      this.cfg := cfg;
      clients, byName, rooms := map[], [], map[];
    }

    method Send(c: nat, f: bytes)
      modifies this`clients
      ensures clients == Post(old(clients), map[c := f])
      ensures clients == if c in old(clients) then old(clients)[c := old(clients)[c].(tx := old(clients)[c].tx + [f])] else old(clients)
    {
      if c in clients {
        clients := clients[c := clients[c].(tx := clients[c].tx + [f])];
      }
    }

    /** The loop of every broadcast. */
    method SendEach(members: seq<nat>, f: bytes)
      requires Distinct(members)
      modifies this`clients
      ensures clients == Post(old(clients), ToAll(members, f))
    {
      PostNobody(clients);
      var i := 0;
      while i < |members|
        invariant i <= |members|
        invariant clients == Post(old(clients), ToAll(members[..i], f))
      {
        ToAllMore(members, i, f);
        PostMore(old(clients), ToAll(members[..i], f), members[i], f);
        Send(members[i], f);
        i := i + 1;
      }
      assert members[..i] == members;
    }

    method RoomBroadcast(r: nat)
      requires r in rooms && Distinct(rooms[r].members)
      modifies this`clients
      ensures St() == Broadcast(old(St()), r)
    {
      SendEach(rooms[r].members, RoomFrame(St(), rooms[r].members));
    }

    /** dissolve: every member back to solo, then the notices. */
    method DissolveRoom(r: nat, members: seq<nat>, notify: seq<nat>)
      requires Distinct(notify)
      modifies this`clients, this`rooms
      ensures St() == Tell(Dissolve(old(St()), r, members), notify, GoneFrame())
    {
      var i := 0;
      assert clients == Unroom(clients, members[..0]);
      while i < |members|
        invariant i <= |members| && rooms == old(rooms)
        invariant clients == Unroom(old(clients), members[..i])
      {
        assert members[..i + 1] == members[..i] + [members[i]];
        if members[i] in clients {
          clients := clients[members[i] := clients[members[i]].(room := None)];
        }
        i := i + 1;
      }
      assert members[..i] == members;
      SendEach(notify, GoneFrame());
      rooms := rooms - {r};
    }

    /** The list of every name that points at a client. */
    method StaleNames(c: nat) returns (stale: seq<bytes>)
      ensures AllStale(byName, c, stale)
      ensures forall e :: e in byName && e.client == c ==> e.name in stale
    {
      stale := [];
      var i := 0;
      while i < |byName|
        invariant i <= |byName| && AllStale(byName, c, stale)
        invariant forall j :: 0 <= j < i && byName[j].client == c ==> byName[j].name in stale
      {
        if byName[i].client == c {
          assert byName[i] == Entry(byName[i].name, c);
          stale := stale + [byName[i].name];
        }
        i := i + 1;
      }
    }

    /** del by_name[name]. */
    method DelName(name: bytes, ghost c: nat)
      requires DistinctKeys(byName) && forall e :: e in byName && e.name == name ==> e.client == c
      modifies this`byName
      ensures byName == Del(old(byName), name) && DistinctKeys(byName)
      ensures Without(byName, c) == Without(old(byName), c)
      ensures forall e :: e in byName <==> e in old(byName) && e.name != name
    {
      hide RemoveAt;
      if Has(byName, name) {
        var at := Find(byName, name);
        assert byName[at] in byName;
        RemoveWithout(byName, at, c);
        DistinctRemoved(byName, at);
        byName := RemoveAt(byName, at);
      } else {
        Absent(byName, name);
      }
    }

    /** The names that point at a client, removed one by one. */
    method ForgetNames(c: nat)
      requires DistinctKeys(byName)
      modifies this`byName
      ensures byName == Without(old(byName), c)
    {
      hide RemoveAt, DistinctKeys, Del, Without;
      var stale := StaleNames(c);
      ghost var left := byName;
      forall e, i | e in left && 0 <= i < |stale| && e.name == stale[i] ensures e.client == c {
        Holder(left, Entry(stale[i], c));
        Holder(left, e);
      }
      var i := 0;
      while i < |stale|
        invariant i <= |stale| && DistinctKeys(byName)
        invariant Without(byName, c) == Without(left, c)
        invariant forall e :: e in byName ==> e in left && e.name !in stale[..i]
      {
        DelName(stale[i], c);
        assert stale[..i + 1] == stale[..i] + [stale[i]];
        i := i + 1;
      }
      assert stale[..i] == stale;
      NoneWithout(byName, c);
    }

    method DropClient(c: nat)
      requires Inv(cfg, St()) && c in clients
      modifies this
      ensures St() == Drop(old(St()), c)
    {
      hide RoomsOK, LinksOK, NamesOK, CountOK, RoomFrame, LeftFrame, GoneFrame, Without;
      NamesDistinct(cfg, St());
      var cl := clients[c];
      clients := clients - {c};
      ForgetNames(c);
      if cl.room.None? {
        return;
      }
      var r := cl.room.value;
      LinkedRoom(cfg, old(St()), c);
      var room := rooms[r];
      var seat := IndexOf(room.members, c);
      AllButMeans(room.members, c);
      room := room.(members := AllBut(room.members, c));
      rooms := rooms[r := room];
      if room.started {
        var survivors := room.members;
        DissolveRoom(r, room.members, []);
        SendEach(survivors, LeftFrame(seat, cl.name));
        TellNobody(Unroom(old(clients) - {c}, survivors), GoneFrame());
        assert rooms == old(rooms) - {r};
      } else if seat == 0 || |room.members| < 2 {
        DissolveRoom(r, room.members, room.members);
        assert rooms == old(rooms) - {r};
      } else {
        RoomBroadcast(r);
      }
    }

    /** LOBBY: the first eight other named clients, in dictionary order. */
    method OnListOf(c: nat)
      modifies this`clients
      ensures St() == OnList(cfg, old(St()), c)
    {
      var others: Dict := [];
      var i := 0;
      while i < |byName|
        invariant i <= |byName| && others == Others(St(), byName[..i], c)
      {
        assert byName[..i + 1][..i] == byName[..i];
        if byName[i].client != c && NameOf(St(), byName[i].client) != [] {
          others := others + [byName[i]];
        }
        i := i + 1;
      }
      assert byName[..i] == byName;
      others := FirstEight(others);
      var payload: bytes := [];
      i := 0;
      while i < |others|
        invariant i <= |others| && payload == LobbyEntries(cfg, St(), others[..i])
      {
        assert others[..i + 1][..i] == others[..i];
        payload := payload + PadName(NameOf(St(), others[i].client)) + [Status(cfg, St(), others[i].client)];
        i := i + 1;
      }
      assert others[..i] == others;
      OneIsAll(c, Frame(T_LOBBY, [Low(|others|)] + payload));
      Send(c, Frame(T_LOBBY, [Low(|others|)] + payload));
    }

    /** False is a ProtocolError, which drops the client. */
    method OnHelloFrom(c: nat, payload: bytes) returns (ok: bool)
      requires Inv(cfg, St()) && c in clients
      modifies this
      ensures ok ==> St() == OnHello(cfg, old(St()), c, payload)
      ensures !ok ==> St() == old(St()) && OnHello(cfg, old(St()), c, payload) == Drop(old(St()), c)
    {
      hide Inv, ValidName, Stripped, Drop, Set, Del, OnList;
      if |payload| < 3 || payload[0] != PROTO_VER {
        return false;
      }
      var name := Stripped(payload[1..]);
      if !ValidName(name) {
        return false;
      }
      HolderOf(cfg, St(), name);
      if Has(byName, name) && Get(byName, name) != c {
        DropInv(cfg, St(), Get(byName, name));
        DropClient(Get(byName, name));
      }
      var was := clients[c].name;
      if was != [] && was != name {
        if Has(byName, was) && Get(byName, was) == c {
          byName := Del(byName, was);
        }
      }
      clients := clients[c := clients[c].(name := name)];
      byName := Set(byName, name, c);
      OnListOf(c);
      ok := true;
    }

    /** START to every seat in turn. */
    method StartRoomOf(r: nat, seed: word)
      requires r in rooms && Distinct(rooms[r].members)
      modifies this`clients, this`rooms
      ensures St() == StartRoom(cfg, old(St()), r, seed)
    {
      hide Post, StartCommon, StartFrame, StartsTo, IndexOf;
      var members := rooms[r].members;
      rooms := rooms[r := rooms[r].(started := true, seed := seed)];
      var common := StartCommon(cfg, St(), members, seed);
      SameCommon(cfg, old(St()), rooms, members, seed);
      PostNobody(clients);
      StartsNone(members, common);
      var seat := 0;
      while seat < |members|
        invariant seat <= |members| && rooms == old(rooms)[r := old(rooms)[r].(started := true, seed := seed)]
        invariant clients == Post(old(clients), StartsTo(members, seat, common))
      {
        StartsMore(members, seat, common);
        PostMore(old(clients), StartsTo(members, seat, common), members[seat], StartFrame(seat, common));
        Send(members[seat], StartFrame(seat, common));
        seat := seat + 1;
      }
      StartsAll(members, common);
    }

    method OnJoinFrom(c: nat, payload: bytes, made: nat, seed: word) returns (ok: bool)
      requires Inv(cfg, St()) && c in clients && made !in rooms
      modifies this
      ensures ok ==> St() == OnJoin(cfg, old(St()), c, payload, made, seed)
      ensures !ok ==> St() == old(St()) && OnJoin(cfg, old(St()), c, payload, made, seed) == Drop(old(St()), c)
    {
      hide Inv, Stripped, Drop, OnList, StartRoom, RoomFrame, Has, Get;
      if clients[c].name == [] {
        return false;
      }
      ok := true;
      if clients[c].room.Some? {
        return;
      }
      var name := Stripped(payload);
      if !Joinable(cfg, St(), c, name) {
        OnListOf(c);
        return;
      }
      var t := Get(byName, name);
      var r := made;
      EnterInv(cfg, St(), c, t, if clients[t].room.Some? then clients[t].room.value else made);
      if clients[t].room.None? {
        rooms := rooms[r := Room([t], false, 0)];
        clients := clients[t := clients[t].(room := Some(r))];
      } else {
        r := clients[t].room.value;
      }
      rooms := rooms[r := rooms[r].(members := rooms[r].members + [c])];
      clients := clients[c := clients[c].(room := Some(r))];
      EnteredState(old(St()), St(), c, t, r);
      MembersDistinct(cfg, St(), r);
      RoomBroadcast(r);
      if cfg.autoGo != 0 && |rooms[r].members| >= cfg.autoGo {
        StartRoomOf(r, seed);
      }
    }

    method AcceptFrom(c: nat, ip: nat)
      requires c !in clients
      modifies this`clients
      ensures St() == Accept(old(St()), c, ip)
    {
      if |clients| >= MAX_CLIENTS {
        return;
      }
      var perIp := |FromIp(clients, ip)|;
      if perIp >= MAX_CONNECTIONS_PER_IP {
        return;
      }
      clients := clients[c := Client(ip, [], None, [])];
    }

    method OnGoFrom(c: nat, seed: word)
      requires Inv(cfg, St()) && c in clients
      modifies this`clients, this`rooms
      ensures St() == OnGo(cfg, old(St()), c, seed)
    {
      hide Inv, StartRoom;
      if clients[c].room.None? {
        return;
      }
      var r := clients[c].room.value;
      RoomOf(cfg, St(), c);
      if rooms[r].started || IndexOf(rooms[r].members, c) != 0 {
        return;
      }
      if !(2 <= |rooms[r].members| <= cfg.maxSeats) {
        return;
      }
      MembersDistinct(cfg, St(), r);
      StartRoomOf(r, seed);
    }

    /** The fan-out loop: every member but the sender, the same bytes. */
    method FanOut(c: nat, t: byte, payload: bytes)
      requires Inv(cfg, St()) && c in clients && |payload| <= 254
      modifies this`clients
      ensures St() == OnRelay(old(St()), c, t, payload)
    {
      hide Inv, AllBut;
      if clients[c].room.None? {
        return;
      }
      var r := clients[c].room.value;
      RoomOf(cfg, St(), c);
      MembersDistinct(cfg, St(), r);
      if !rooms[r].started {
        return;
      }
      var members, f := rooms[r].members, Frame(t, payload);
      PostNobody(clients);
      var i := 0;
      while i < |members|
        invariant i <= |members|
        invariant clients == Post(old(clients), ToOthers(members[..i], c, f))
      {
        OthersMore(members, i, c, f);
        if members[i] != c {
          PostMore(old(clients), ToOthers(members[..i], c, f), members[i], f);
          Send(members[i], f);
        }
        i := i + 1;
      }
      assert members[..i] == members;
      OthersAll(members, c, f);
    }

    method HandleFrame(c: nat, t: byte, payload: bytes, made: nat, seed: word)
      requires Inv(cfg, St()) && c in clients && |payload| <= 254 && made !in rooms
      modifies this
      ensures St() == Handle(cfg, old(St()), c, t, payload, made, seed) && Inv(cfg, St())
    {
      hide Inv, OnRelay, OnHello, OnList, OnJoin, OnGo, Drop;
      HandleInv(cfg, St(), c, t, payload, made, seed);
      var ok := true;
      if RelayType(t) {
        FanOut(c, t, payload);
      } else if t == T_HELLO {
        ok := OnHelloFrom(c, payload);
      } else if t == T_LIST {
        OnListOf(c);
      } else if t == T_JOIN {
        ok := OnJoinFrom(c, payload, made, seed);
      } else if t == T_GO {
        OnGoFrom(c, seed);
      } else if t == T_BYE {
        DropClient(c);
      } else if t == T_PING {
        OneIsAll(c, Frame(T_PONG, []));
        Send(c, Frame(T_PONG, []));
      } else {
        ok := false;
      }
      if !ok {
        DropClient(c);
      }
    }
  }

  lemma OneIsAll(c: nat, f: bytes)
    ensures map[c := f] == ToAll([c], f)
  {
  }

  lemma SameCommon(cfg: Cfg, s: State, rooms: map<nat, Room>, members: seq<nat>, seed: word)
    ensures StartCommon(cfg, s.(rooms := rooms), members, seed) == StartCommon(cfg, s, members, seed)
  {
    SamePads(s, rooms, members);
  }

  lemma {:induction false} SamePads(s: State, rooms: map<nat, Room>, members: seq<nat>)
    ensures Pads(s.(rooms := rooms), members) == Pads(s, members)
    decreases |members|
  {
    if members != [] { SamePads(s, rooms, members[..|members| - 1]); }
  }

  /** START frames of the first seats. */
  function StartsTo(members: seq<nat>, n: nat, common: bytes): map<nat, bytes>
    requires n <= |members|
  {
    map m | m in members[..n] :: StartFrame(IndexOf(members, m), common)
  }

  lemma StartsMore(members: seq<nat>, n: nat, common: bytes)
    requires Distinct(members) && n < |members|
    ensures members[n] !in StartsTo(members, n, common)
    ensures StartsTo(members, n + 1, common) == StartsTo(members, n, common)[members[n] := StartFrame(n, common)]
  {
  }

  lemma StartsNone(members: seq<nat>, common: bytes)
    ensures StartsTo(members, 0, common) == map[]
  {
  }

  lemma StartsAll(members: seq<nat>, common: bytes)
    ensures StartsTo(members, |members|, common) == StartMap(members, common)
  {
  }

  function ToOthers(members: seq<nat>, c: nat, f: bytes): map<nat, bytes> {
    map m | m in members && m != c :: f
  }

  lemma OthersNone(c: nat, f: bytes)
    ensures ToOthers([], c, f) == map[]
  {
  }

  lemma OthersMore(members: seq<nat>, i: nat, c: nat, f: bytes)
    requires Distinct(members) && i < |members|
    ensures members[i] !in ToOthers(members[..i], c, f)
    ensures ToOthers(members[..i + 1], c, f) ==
            if members[i] == c then ToOthers(members[..i], c, f) else ToOthers(members[..i], c, f)[members[i] := f]
  {
  }

  lemma OthersAll(members: seq<nat>, c: nat, f: bytes)
    requires Distinct(members)
    ensures ToOthers(members, c, f) == ToAll(AllBut(members, c), f)
  {
  }

  lemma EnteredState(s: State, s': State, c: nat, t: nat, r: nat)
    requires c in s.clients && t in s.clients && c != t
    requires s'.byName == s.byName
    requires if s.clients[t].room.Some? then
               && s.clients[t].room.value == r && r in s.rooms
               && s'.rooms == s.rooms[r := s.rooms[r].(members := s.rooms[r].members + [c])]
               && s'.clients == s.clients[c := s.clients[c].(room := Some(r))]
             else
               && r !in s.rooms && s'.rooms == s.rooms[r := Room([t], false, 0)][r := Room([t] + [c], false, 0)]
               && s'.clients == s.clients[t := s.clients[t].(room := Some(r))][c := s.clients[c].(room := Some(r))]
    ensures s' == Enter(s, c, t, r)
  {
  }

  lemma MembersDistinct(cfg: Cfg, s: State, r: nat)
    requires Inv(cfg, s) && r in s.rooms
    ensures Distinct(s.rooms[r].members)
  {
  }

  lemma RoomOf(cfg: Cfg, s: State, c: nat)
    requires Inv(cfg, s) && c in s.clients && s.clients[c].room.Some?
    ensures s.clients[c].room.value in s.rooms && c in s.rooms[s.clients[c].room.value].members
  {
  }

  lemma TellNobody(clients: map<nat, Client>, f: bytes)
    ensures Post(clients, ToAll([], f)) == clients
  {
  }

  lemma NamesDistinct(cfg: Cfg, s: State)
    requires Inv(cfg, s)
    ensures DistinctKeys(s.byName)
  {
  }

  lemma Absent(d: Dict, name: bytes)
    requires !Has(d, name)
    ensures forall e :: e in d ==> e.name != name
  {
  }
}
