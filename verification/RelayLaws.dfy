/** What one event does to the relay, said of the whole step and not of the handler: who is connected and
    under which name, who shares a room, and what is queued to whom.  Frame types are given by number. */
module RelayLaws {
  import opened Cells
  import opened Stream
  import opened Names
  import opened Relay
  import opened RelayInv
  import opened RelayRuns

  // ---- small change --------------------------------------------------------------------------------

  /** The client is queued one more frame. */
  function Queue(cl: Client, f: bytes): Client { cl.(tx := cl.tx + [f]) }

  /** Nothing happens but one frame to one client. */
  ghost predicate OnlyTold(s: State, s': State, c: nat, f: bytes)
    requires c in s.clients
  {
    s' == s.(clients := s.clients[c := Queue(s.clients[c], f)])
  }

  lemma TellOne(s: State, c: nat, f: bytes)
    requires c in s.clients
    ensures OnlyTold(s, Tell(s, [c], f), c, f)
  {
    assert Tell(s, [c], f).clients == s.clients[c := Queue(s.clients[c], f)];
  }

  // ---- connecting ------------------------------------------------------------------------------------

  /** A connection is accepted while fewer than 64 clients, and fewer than 8 from its address, are connected;
      it has no name and no room and has been sent nothing, and nobody else is touched. */
  lemma AcceptLaw(cfg: Cfg, s: State, c: nat, ip: nat)
    requires c !in s.clients
    ensures var s' := Step(cfg, s, Accepted(c, ip));
            if |s.clients| < 64 && |FromIp(s.clients, ip)| < 8
            then c in s'.clients && s'.clients[c] == Client(ip, [], None, []) && s' == s.(clients := s.clients[c := s'.clients[c]])
            else s' == s
  {
  }

  // ---- leaving ---------------------------------------------------------------------------------------

  /** Everybody but c is still connected, from the same address and under the same name. */
  ghost predicate OnlyGone(s: State, s': State, c: nat) {
    && s'.clients.Keys == s.clients.Keys - {c}
    && forall x {:trigger s'.clients[x]} :: x in s'.clients ==> s'.clients[x].name == s.clients[x].name && s'.clients[x].ip == s.clients[x].ip
  }

  /** Clients outside room r, and other rooms, notice nothing. */
  ghost predicate Elsewhere(s: State, s': State, r: nat, c: nat)
    requires r in s.rooms
  {
    && (forall x {:trigger s'.clients[x]} :: x in s.clients && x in s'.clients && x !in s.rooms[r].members && x != c ==> s'.clients[x] == s.clients[x])
    && s'.rooms.Keys <= s.rooms.Keys && (forall q :: q in s.rooms && q != r ==> q in s'.rooms && s'.rooms[q] == s.rooms[q])
  }

  lemma GoneNames(cfg: Cfg, s: State, c: nat)
    requires Inv(cfg, s) && c in s.clients
    ensures OnlyGone(s, Drop(s, c), c)
  {
    hide Inv, RoomFrame, GoneFrame, LeftFrame, AllBut, Without, IndexOf;
  }

  lemma GoneRooms(cfg: Cfg, s: State, c: nat, r: nat)
    requires Inv(cfg, s) && c in s.clients && s.clients[c].room == Some(r) && r in s.rooms
    ensures Elsewhere(s, Drop(s, c), r, c)
  {
    hide NamesOK, CountOK, RoomFrame, GoneFrame, LeftFrame, AllBut, Without, Distinct, IndexOf, LinksOK;
    assert RoomOK(cfg, s.clients, r, s.rooms[r]);
    AllButMeans(s.rooms[r].members, c);
  }

  lemma GoneLaw(cfg: Cfg, s: State, c: nat)
    requires Inv(cfg, s) && c in s.clients
    ensures var s' := Step(cfg, s, Gone(c));
            && OnlyGone(s, s', c)
            && (s.clients[c].room.None? ==> s'.rooms == s.rooms && s'.clients == s.clients - {c})
            && (s.clients[c].room.Some? ==> s.clients[c].room.value in s.rooms && Elsewhere(s, s', s.clients[c].room.value, c))
  {
    hide NamesOK, CountOK, RoomFrame, GoneFrame, LeftFrame, AllBut, Without, IndexOf, OnlyGone, Elsewhere, Tell;
    GoneNames(cfg, s, c);
    if s.clients[c].room.Some? {
      LinkedRoom(cfg, s, c);
      GoneRooms(cfg, s, c, s.clients[c].room.value);
    }
  }

  /** A started room ends with the first who leaves it: each of the others is back in the lobby and is told
      PEER_LEFT with the seat and the name that left, and nothing else. */
  lemma StartedEnds(cfg: Cfg, s: State, c: nat, r: nat, seat: nat)
    requires Inv(cfg, s) && c in s.clients && s.clients[c].room == Some(r) && r in s.rooms && s.rooms[r].started
    requires seat < |s.rooms[r].members| && s.rooms[r].members[seat] == c
    ensures var s' := Step(cfg, s, Gone(c));
            && r !in s'.rooms
            && forall m {:trigger m in s.rooms[r].members} :: m in s.rooms[r].members && m != c ==>
                 && m in s.clients && m in s'.clients && s'.clients[m].room.None?
                 && s'.clients[m].tx == s.clients[m].tx + [[10, 11, seat % 256] + PadName(s.clients[c].name)]
  {
    hide NamesOK, CountOK, RoomFrame, GoneFrame, Without, Frame;
    assert RoomOK(cfg, s.clients, r, s.rooms[r]);
    AllButMeans(s.rooms[r].members, c);
    LeftBytes(seat, s.clients[c].name);
    assert IndexOf(s.rooms[r].members, c) == seat;
    hide AllBut, Distinct, IndexOf, LeftFrame;
  }

  lemma LeftBytes(seat: nat, name: bytes)
    ensures LeftFrame(seat, name) == [10, 11, seat % 256] + PadName(name)
  {
    assert [Low(seat)] + PadName(name) == [seat % 256] + PadName(name);
  }

  /** A forming room that its host leaves, or that has only its host left, dissolves: each of the others is
      back in the lobby and is told ROOM with a count of zero. */
  lemma FormingEnds(cfg: Cfg, s: State, c: nat, r: nat)
    requires Inv(cfg, s) && c in s.clients && s.clients[c].room == Some(r) && r in s.rooms && !s.rooms[r].started
    requires s.rooms[r].members[0] == c || |s.rooms[r].members| == 2
    ensures var s' := Step(cfg, s, Gone(c));
            && r !in s'.rooms
            && forall m {:trigger m in s.rooms[r].members} :: m in s.rooms[r].members && m != c ==>
                 && m in s.clients && m in s'.clients && s'.clients[m].room.None?
                 && s'.clients[m].tx == s.clients[m].tx + [[34, 14, 0] + Zeros(32)]
  {
    hide NamesOK, CountOK, RoomFrame, LeftFrame, Without, Zeros, Frame;
    assert RoomOK(cfg, s.clients, r, s.rooms[r]);
    AllButMeans(s.rooms[r].members, c);
    NoRoomFrame();
    assert s.rooms[r].members[0] == c ==> IndexOf(s.rooms[r].members, c) == 0;
    hide AllBut, Distinct, IndexOf;
  }

  lemma NoRoomFrame()
    ensures GoneFrame() == [34, 14, 0] + Zeros(32)
  {
  }

  /** A forming room that another member leaves goes on without it, the seats behind it moving up, and each
      of those left is told ROOM with the new count. */
  lemma FormingGoesOn(cfg: Cfg, s: State, c: nat, r: nat)
    requires Inv(cfg, s) && c in s.clients && s.clients[c].room == Some(r) && r in s.rooms && !s.rooms[r].started
    requires s.rooms[r].members[0] != c && |s.rooms[r].members| > 2
    ensures var s' := Step(cfg, s, Gone(c));
            && r in s'.rooms && !s'.rooms[r].started
            && (exists i :: 0 <= i < |s.rooms[r].members| && s.rooms[r].members[i] == c
                  && s'.rooms[r].members == s.rooms[r].members[..i] + s.rooms[r].members[i + 1..])
            && forall m {:trigger m in s.rooms[r].members} :: m in s.rooms[r].members && m != c ==>
                 && m in s.clients && m in s'.clients && s'.clients[m].room == Some(r)
                 && RoomTold(s.clients[m].tx, s'.clients[m].tx, |s.rooms[r].members| - 1)
  {
    hide NamesOK, CountOK, GoneFrame, LeftFrame, Without, RoomFrame;
    var members := s.rooms[r].members;
    assert RoomOK(cfg, s.clients, r, s.rooms[r]);
    assert c in members by { LinkedRoom(cfg, s, c); }
    AllButMeans(members, c);
    var i, rest := IndexOf(members, c), AllBut(members, c);
    assert i < |members| && i > 0;
    assert rest == members[..i] + members[i + 1..];
    hide AllBut, Distinct, IndexOf;
    var s2 := Unlisted(s, c).(rooms := s.rooms[r := s.rooms[r].(members := rest)]);
    RoomCount(s2, rest);
    assert Step(cfg, s, Gone(c)) == Tell(s2, rest, RoomFrame(s2, rest));
  }

  /** One more frame, and it is ROOM with this count. */
  ghost predicate RoomTold(tx: seq<bytes>, tx': seq<bytes>, count: nat) {
    && |tx'| == |tx| + 1 && tx'[..|tx|] == tx
    && |tx'[|tx|]| == 35 && tx'[|tx|][0] == 34 && tx'[|tx|][1] == 14 && tx'[|tx|][2] as int == count
  }

  lemma RoomCount(s: State, members: seq<nat>)
    requires |members| <= 4
    ensures var f := RoomFrame(s, members); |f| == 35 && f[0] == 34 && f[1] == 14 && f[2] as int == |members|
  {
  }

  // ---- HELLO -------------------------------------------------------------------------------------------

  /** Two to eight of the letters A to Z and the digits 0 to 9. */
  ghost predicate GoodName(name: bytes) {
    2 <= |name| <= 8 && forall i :: 0 <= i < |name| ==> 65 <= name[i] <= 90 || 48 <= name[i] <= 57
  }

  /** A HELLO that is accepted: version 2 and a good name under the padding. */
  ghost predicate GoodHello(payload: bytes) {
    |payload| >= 3 && payload[0] == 2 && GoodName(Stripped(payload[1..]))
  }

  lemma DropKeeps(cfg: Cfg, s: State, c: nat)
    requires Inv(cfg, s) && c in s.clients
    ensures OnlyGone(s, Drop(s, c), c) && Inv(cfg, Drop(s, c))
  {
    hide Inv, Drop, OnlyGone;
    DropInv(cfg, s, c);
    GoneLaw(cfg, s, c);
    assert Step(cfg, s, Gone(c)) == Drop(s, c);
  }

  /** Whoever bears a name is who the dictionary finds under it. */
  lemma Finds(cfg: Cfg, s: State, name: bytes)
    requires Inv(cfg, s) && name != []
    ensures Has(s.byName, name) ==> Get(s.byName, name) in s.clients && s.clients[Get(s.byName, name)].name == name
    ensures forall x :: x in s.clients && s.clients[x].name == name ==> Has(s.byName, name) && Get(s.byName, name) == x
  {
    hide RoomsOK, LinksOK, CountOK, ValidName, DistinctKeys;
    if Has(s.byName, name) { assert s.byName[Find(s.byName, name)] in s.byName; }
    forall x | x in s.clients && s.clients[x].name == name ensures Has(s.byName, name) && Get(s.byName, name) == x {
      KeyOfClient(s.byName, name, x);
    }
  }

  /** What a good HELLO leaves: the sender connected under the name, the name's previous holder gone if it was
      somebody else, everybody else as before by name and address, and the lobby as the last thing told. */
  ghost predicate Greeted(cfg: Cfg, s: State, s': State, c: nat, name: bytes)
    requires c in s.clients
  {
    && c in s'.clients && s'.clients[c].name == name && s'.clients[c].ip == s.clients[c].ip
    && Has(s'.byName, name) && Get(s'.byName, name) == c
    && (forall x {:trigger x in s'.clients} :: x in s'.clients <==> x in s.clients && !(x != c && s.clients[x].name == name))
    && (forall x {:trigger s'.clients[x]} :: x in s'.clients && x != c ==> s'.clients[x].name == s.clients[x].name && s'.clients[x].ip == s.clients[x].ip)
    && |s'.clients[c].tx| > |s.clients[c].tx| && s.clients[c].tx <= s'.clients[c].tx
    && LobbyLast(cfg, s', c)
  }

  /** The last frame queued to c is the LOBBY of this state. */
  ghost predicate LobbyLast(cfg: Cfg, s: State, c: nat)
    requires c in s.clients
  {
    var tx := s.clients[c].tx;
    tx != [] && |tx[|tx| - 1]| >= 3 && tx[|tx| - 1][1] == 3 && tx[|tx| - 1] == LobbyFrame(cfg, s, c)
  }

  lemma GoodIsValid(name: bytes)
    ensures GoodName(name) <==> ValidName(name)
  {
    if ValidName(name) {
      forall i | 0 <= i < |name| ensures 65 <= name[i] <= 90 || 48 <= name[i] <= 57 { assert NameByte(name[i] as int); }
    }
  }

  /** LOBBY does not depend on what has been sent. */
  lemma LobbySame(cfg: Cfg, a: State, b: State, c: nat)
    requires a.byName == b.byName && a.rooms == b.rooms && SameBut(a.clients, b.clients)
    ensures LobbyFrame(cfg, a, c) == LobbyFrame(cfg, b, c)
  {
    hide FirstEight;
    OthersSame(a, b, a.byName, c);
    EntriesSame(cfg, a, b, FirstEight(Others(a, a.byName, c)));
  }

  lemma {:induction false} OthersSame(a: State, b: State, d: Dict, c: nat)
    requires SameBut(a.clients, b.clients)
    ensures Others(a, d, c) == Others(b, d, c)
    decreases |d|
  {
    if d != [] {
      OthersSame(a, b, d[..|d| - 1], c);
      assert NameOf(a, d[|d| - 1].client) == NameOf(b, d[|d| - 1].client);
    }
  }

  lemma {:induction false} EntriesSame(cfg: Cfg, a: State, b: State, d: Dict)
    requires a.rooms == b.rooms && SameBut(a.clients, b.clients)
    ensures LobbyEntries(cfg, a, d) == LobbyEntries(cfg, b, d)
    decreases |d|
  {
    if d != [] {
      var x := d[|d| - 1].client;
      EntriesSame(cfg, a, b, d[..|d| - 1]);
      assert x in a.clients <==> x in b.clients;
      assert NameOf(a, x) == NameOf(b, x);
      assert x in a.clients ==> a.clients[x].room == b.clients[x].room;
    }
  }

  lemma ListTells(cfg: Cfg, s: State, c: nat)
    requires c in s.clients
    ensures var s' := OnList(cfg, s, c);
            OnlyTold(s, s', c, LobbyFrame(cfg, s, c)) && c in s'.clients && LobbyLast(cfg, s', c)
  {
    hide LobbyFrame;
    TellOne(s, c, LobbyFrame(cfg, s, c));
    var s' := OnList(cfg, s, c);
    LobbySame(cfg, s, s', c);
    LobbyType(cfg, s, c);
    var tx := s'.clients[c].tx;
    assert tx[|tx| - 1] == LobbyFrame(cfg, s, c);
  }

  lemma LobbyType(cfg: Cfg, s: State, c: nat)
    ensures |LobbyFrame(cfg, s, c)| >= 3 && LobbyFrame(cfg, s, c)[1] == 3
  {
  }

  lemma RegisteredNames(s: State, c: nat, name: bytes)
    requires c in s.clients
    ensures Registered(s, c, name).clients == s.clients[c := s.clients[c].(name := name)]
  {
  }

  /** HELLO, version 2, good name: the newcomer wins. */
  lemma HelloAccepted(cfg: Cfg, s: State, c: nat, payload: bytes, made: nat, seed: word)
    requires Inv(cfg, s) && Possible(s, Framed(c, 1, payload, made, seed)) && GoodHello(payload)
    ensures Greeted(cfg, s, Step(cfg, s, Framed(c, 1, payload, made, seed)), c, Stripped(payload[1..]))
  {
    hide Inv, ValidName, Stripped, Drop, Registered, OnList, LobbyLast, Has, Get, GoodName;
    var name, s' := Stripped(payload[1..]), Step(cfg, s, Framed(c, 1, payload, made, seed));
    GoodIsValid(name);
    assert name != [] by { NameLength(name); }
    Finds(cfg, s, name);
    StepInv(cfg, s, Framed(c, 1, payload, made, seed));
    var s1 := s;
    if Has(s.byName, name) && Get(s.byName, name) != c {
      s1 := Drop(s, Get(s.byName, name));
      DropKeeps(cfg, s, Get(s.byName, name));
      DropTells(cfg, s, Get(s.byName, name), c);
    }
    RegisteredNames(s1, c, name);
    ListTells(cfg, Registered(s1, c, name), c);
    Finds(cfg, s', name);
  }

  lemma DropTells(cfg: Cfg, s: State, c: nat, x: nat)
    requires Inv(cfg, s) && c in s.clients && x in s.clients && x != c
    ensures x in Drop(s, c).clients && s.clients[x].tx <= Drop(s, c).clients[x].tx
  {
    hide Inv, Drop;
    DropQuiet(cfg, s, c);
    DropInv(cfg, s, c);
  }

  /** Any other HELLO costs the sender its connection, and nothing more. */
  lemma HelloRejected(cfg: Cfg, s: State, c: nat, payload: bytes, made: nat, seed: word)
    requires Inv(cfg, s) && Possible(s, Framed(c, 1, payload, made, seed)) && !GoodHello(payload)
    ensures var s' := Step(cfg, s, Framed(c, 1, payload, made, seed));
            s' == Step(cfg, s, Gone(c)) && OnlyGone(s, s', c)
  {
    hide Inv, Drop, OnlyGone, GoodName, ValidName;
    if |payload| >= 3 { GoodIsValid(Stripped(payload[1..])); }
    DropKeeps(cfg, s, c);
  }

  // ---- the order of the lobby ------------------------------------------------------------------------------

  /** The names in their order, two of them left out. */
  function KeysBut(keys: seq<bytes>, a: bytes, b: bytes): seq<bytes> {
    if keys == [] then [] else
    var last := keys[|keys| - 1];
    KeysBut(keys[..|keys| - 1], a, b) + if last == a || last == b then [] else [last]
  }

  lemma {:induction false} KeysButTwice(keys: seq<bytes>, a: bytes, b: bytes)
    ensures KeysBut(KeysBut(keys, a, a), b, b) == KeysBut(keys, a, b)
    decreases |keys|
  {
    if keys != [] {
      var n := |keys| - 1;
      KeysButTwice(keys[..n], a, b);
      var r := KeysBut(keys[..n], a, a);
      if keys[n] != a { assert (r + [keys[n]])[..|r|] == r; } else { assert r + [] == r; }
    }
  }

  lemma {:induction false} KeysButNone(keys: seq<bytes>, a: bytes)
    requires forall i :: 0 <= i < |keys| ==> keys[i] != a
    ensures KeysBut(keys, a, a) == keys
    decreases |keys|
  {
    if keys != [] {
      var n := |keys| - 1;
      KeysButNone(keys[..n], a);
      assert keys == keys[..n] + [keys[n]];
    }
  }

  lemma {:induction false} KeysButOne(keys: seq<bytes>, i: nat)
    requires i < |keys| && forall j :: 0 <= j < |keys| && j != i ==> keys[j] != keys[i]
    ensures KeysBut(keys, keys[i], keys[i]) == keys[..i] + keys[i + 1..]
    decreases |keys|
  {
    var n := |keys| - 1;
    if i == n {
      KeysButNone(keys[..n], keys[i]);
      assert keys[..n] + [] == keys[..i] + keys[i + 1..];
    } else {
      KeysButOne(keys[..n], i);
      assert keys[..n][..i] == keys[..i] && keys[..n][i + 1..] + [keys[n]] == keys[i + 1..];
    }
  }

  lemma {:induction false} WithoutKeys(d: Dict, h: nat, name: bytes)
    requires forall e :: e in d ==> (e.client == h <==> e.name == name)
    ensures Keys(Without(d, h)) == KeysBut(Keys(d), name, name)
    decreases |d|
  {
    if d != [] {
      var n := |d| - 1;
      WithoutKeys(d[..n], h, name);
      assert d[n] in d;
      assert Keys(d)[..n] == Keys(d[..n]);
      var r := Without(d[..n], h);
      assert Keys(r + [d[n]]) == Keys(r) + [d[n].name];
    }
  }

  lemma DelKeys(d: Dict, name: bytes)
    requires DistinctKeys(d)
    ensures Keys(Del(d, name)) == KeysBut(Keys(d), name, name)
  {
    var i, keys := Find(d, name), Keys(d);
    if i < |d| {
      KeysButOne(keys, i);
      assert Keys(Del(d, name)) == keys[..i] + keys[i + 1..];
    } else {
      KeysButNone(keys, name);
    }
  }

  lemma EntriesOf(cfg: Cfg, s: State, h: nat)
    requires Inv(cfg, s) && h in s.clients
    ensures forall e :: e in s.byName ==> (e.client == h <==> e.name == s.clients[h].name)
    ensures DistinctKeys(s.byName)
  {
    hide RoomsOK, LinksOK, CountOK, ValidName;
    forall e | e in s.byName && e.name == s.clients[h].name ensures e.client == h {
      Holder(s.byName, e);
      assert Entry(s.clients[h].name, h) in s.byName;
      Holder(s.byName, Entry(s.clients[h].name, h));
    }
  }

  lemma DropNamesOf(s: State, c: nat)
    requires c in s.clients
    ensures Drop(s, c).byName == Without(s.byName, c)
  {
    hide RoomFrame, GoneFrame, LeftFrame, AllBut, IndexOf;
  }

  lemma RegisteredKeys(cfg: Cfg, s: State, c: nat, name: bytes)
    requires Inv(cfg, s) && c in s.clients && s.clients[c].name != name && name != [] && !Has(s.byName, name)
    ensures Keys(Registered(s, c, name).byName) == KeysBut(Keys(s.byName), s.clients[c].name, s.clients[c].name) + [name]
  {
    var was, d := s.clients[c].name, s.byName;
    EntriesOf(cfg, s, c);
    if was == [] {
      NoEmptyName(cfg, s);
      AbsentKey(d, was);
      KeysButNone(Keys(d), was);
      assert Keys(d + [Entry(name, c)]) == Keys(d) + [name];
    } else {
      Finds(cfg, s, was);
      DelKeys(d, was);
      DelLacks(d, was, name);
      assert Keys(Del(d, was) + [Entry(name, c)]) == Keys(Del(d, was)) + [name];
    }
  }

  lemma DelLacks(d: Dict, was: bytes, name: bytes)
    requires !Has(d, name)
    ensures !Has(Del(d, was), name)
  {
  }

  /** A HELLO under the name the sender has already keeps the order of the lobby; any other takes the name's old
      place and the sender's old name out of it, and puts the sender last. */
  lemma HelloOrder(cfg: Cfg, s: State, c: nat, payload: bytes, made: nat, seed: word)
    requires Inv(cfg, s) && Possible(s, Framed(c, 1, payload, made, seed)) && GoodHello(payload)
    ensures var s', name := Step(cfg, s, Framed(c, 1, payload, made, seed)), Stripped(payload[1..]);
            Keys(s'.byName) == if s.clients[c].name == name then Keys(s.byName)
                               else KeysBut(Keys(s.byName), name, s.clients[c].name) + [name]
  {
    hide Inv, ValidName, Stripped, Drop, Registered, Has, Get, GoodName, KeysBut, Without;
    var name, was := Stripped(payload[1..]), s.clients[c].name;
    GoodIsValid(name);
    assert name != [] by { NameLength(name); }
    Finds(cfg, s, name);
    EntriesOf(cfg, s, c);
    var keys := Keys(s.byName);
    if was == name {
      SameName(s, c, name);
    } else if Has(s.byName, name) {
      var h := Get(s.byName, name);
      var s1 := Drop(s, h);
      DropKeeps(cfg, s, h);
      DropNamesOf(s, h);
      EntriesOf(cfg, s, h);
      WithoutKeys(s.byName, h, name);
      Finds(cfg, s1, name);
      RegisteredKeys(cfg, s1, c, name);
      KeysButTwice(keys, name, was);
    } else {
      RegisteredKeys(cfg, s, c, name);
      AbsentKey(s.byName, name);
      KeysButNone(keys, name);
      KeysButTwice(keys, name, was);
    }
  }

  lemma AbsentKey(d: Dict, name: bytes)
    requires !Has(d, name)
    ensures forall i :: 0 <= i < |d| ==> Keys(d)[i] != name
  {
  }

  lemma SameName(s: State, c: nat, name: bytes)
    requires c in s.clients && s.clients[c].name == name && Has(s.byName, name) && Get(s.byName, name) == c
    ensures Keys(Registered(s, c, name).byName) == Keys(s.byName)
  {
    assert Set(s.byName, name, c) == s.byName;
  }

  // ---- LIST, PING, BYE and the rest ----------------------------------------------------------------------

  /** LIST is answered with the lobby, PING with PONG, and nothing else happens; BYE and every type that no
      console sends cost the sender its connection, and nothing more. */
  lemma SmallLaw(cfg: Cfg, s: State, c: nat, t: byte, payload: bytes, made: nat, seed: word)
    requires Inv(cfg, s) && Possible(s, Framed(c, t, payload, made, seed))
    ensures var s' := Step(cfg, s, Framed(c, t, payload, made, seed));
            && (t == 2 ==> OnlyTold(s, s', c, LobbyFrame(cfg, s, c)) && c in s'.clients && LobbyLast(cfg, s', c))
            && (t == 12 ==> OnlyTold(s, s', c, [1, 13]))
            && (t == 0 || t == 3 || t == 5 || t == 10 || t == 11 || t == 13 || t == 14 || t >= 16 ==>
                  s' == Step(cfg, s, Gone(c)) && OnlyGone(s, s', c))
  {
    hide Inv, Drop, OnlyGone, LobbyFrame, LobbyLast, OnlyTold;
    DropKeeps(cfg, s, c);
    ListTells(cfg, s, c);
    TellOne(s, c, Frame(T_PONG, []));
    assert Frame(T_PONG, []) == [1, 13];
  }

  // ---- match frames ------------------------------------------------------------------------------------------

  /** INPUT, CRC, STATE and RESYNC of a client in a started room go, as they are, once to each other member of
      the room and to nobody else; of any other client, nowhere. */
  lemma MatchFrameLaw(cfg: Cfg, s: State, c: nat, t: byte, payload: bytes, made: nat, seed: word)
    requires Inv(cfg, s) && Possible(s, Framed(c, t, payload, made, seed)) && 6 <= t <= 9
    ensures var s' := Step(cfg, s, Framed(c, t, payload, made, seed));
            var f := [(|payload| + 1) as byte, t] + payload;
            if s.clients[c].room.Some? && s.clients[c].room.value in s.rooms && s.rooms[s.clients[c].room.value].started
            then && s'.clients.Keys == s.clients.Keys && s'.byName == s.byName && s'.rooms == s.rooms
                 && forall x {:trigger s'.clients[x]} :: x in s.clients ==>
                      s'.clients[x] == if x != c && x in s.rooms[s.clients[c].room.value].members then Queue(s.clients[x], f) else s.clients[x]
            else s' == s
  {
    hide NamesOK, CountOK, AllBut, Distinct;
    if s.clients[c].room.Some? {
      var r := s.clients[c].room.value;
      assert RoomOK(cfg, s.clients, r, s.rooms[r]);
      AllButMeans(s.rooms[r].members, c);
    }
  }

  // ---- GO ----------------------------------------------------------------------------------------------------

  /** Every member of room r is queued START for its own seat, all of them with the same rest. */
  ghost predicate AllStarted(cfg: Cfg, s: State, s': State, r: nat)
    requires r in s.rooms && r in s'.rooms
  {
    exists common :: CommonOK(cfg, s'.rooms[r], NamesAt(s, s.rooms[r].members), common)
      && forall i {:trigger s.rooms[r].members[i]} :: 0 <= i < |s.rooms[r].members| ==>
           && s.rooms[r].members[i] in s.clients && s.rooms[r].members[i] in s'.clients
           && s'.clients[s.rooms[r].members[i]] == Queue(s.clients[s.rooms[r].members[i]], [38, 5, i % 256] + common)
  }

  /** The room's match begins under this seed; nobody outside it notices. */
  ghost predicate Begun(cfg: Cfg, s: State, s': State, r: nat, seed: word)
    requires r in s.rooms
  {
    && s'.rooms == s.rooms[r := s.rooms[r].(started := true, seed := seed)] && s'.byName == s.byName
    && s'.clients.Keys == s.clients.Keys
    && (forall x {:trigger s'.clients[x]} :: x in s.clients && x !in s.rooms[r].members ==> s'.clients[x] == s.clients[x])
    && AllStarted(cfg, s, s', r)
  }

  lemma StartBegins(cfg: Cfg, s: State, r: nat, seed: word)
    requires Inv(cfg, s) && r in s.rooms
    ensures Begun(cfg, s, StartRoom(cfg, s, r, seed), r, seed)
  {
    hide NamesOK, CountOK, LinksOK, Roster, StartCommon, CommonOK, NamesAt;
    var s', members := StartRoom(cfg, s, r, seed), s.rooms[r].members;
    var common := StartCommon(cfg, s, members, seed);
    StartCommonOK(cfg, s, r, seed);
    SameNames(s, s', members);
    CommonLength(cfg, s', NamesAt(s', members), common, s'.rooms[r]);
    assert RoomOK(cfg, s.clients, r, s.rooms[r]);
    forall i | 0 <= i < |members|
      ensures members[i] in s.clients && members[i] in s'.clients
      ensures s'.clients[members[i]] == Queue(s.clients[members[i]], [38, 5, i % 256] + common)
    {
      var m := members[i];
      assert m in members && IndexOf(members, m) == i;
      StartBytes(i, common);
    }
  }

  lemma CommonLength(cfg: Cfg, s: State, names: seq<bytes>, common: bytes, room: Room)
    requires CommonOK(cfg, room, names, common)
    ensures |common| == 36
  {
  }

  lemma StartBytes(seat: nat, common: bytes)
    requires |common| == 36
    ensures StartFrame(seat, common) == [38, 5, seat % 256] + common
  {
    assert [seat % 256] + common == [Low(seat)] + common;
  }

  lemma SameNames(s: State, s': State, members: seq<nat>)
    requires SameBut(s.clients, s'.clients)
    ensures NamesAt(s', members) == NamesAt(s, members)
  {
  }

  /** GO of seat 0 of a room that has not started starts it; of anybody else it does nothing. */
  lemma GoLaw(cfg: Cfg, s: State, c: nat, payload: bytes, made: nat, seed: word)
    requires Inv(cfg, s) && Possible(s, Framed(c, 15, payload, made, seed))
    ensures var s' := Step(cfg, s, Framed(c, 15, payload, made, seed));
            if s.clients[c].room.Some? && s.clients[c].room.value in s.rooms
               && !s.rooms[s.clients[c].room.value].started && s.rooms[s.clients[c].room.value].members[0] == c
            then Begun(cfg, s, s', s.clients[c].room.value, seed)
            else s' == s
  {
    hide NamesOK, CountOK, Begun, StartRoom;
    if s.clients[c].room.Some? {
      var r := s.clients[c].room.value;
      assert RoomOK(cfg, s.clients, r, s.rooms[r]);
      StartBegins(cfg, s, r, seed);
    }
  }

  // ---- JOIN --------------------------------------------------------------------------------------------------

  /** Client x bears the name that is asked for, is not the sender, and is alone or in a room that has not
      started and has a seat left. */
  ghost predicate Waits(cfg: Cfg, s: State, c: nat, name: bytes, x: nat) {
    && x != c && x in s.clients && s.clients[x].name == name && name != []
    && (s.clients[x].room.None?
        || (s.clients[x].room.value in s.rooms && !s.rooms[s.clients[x].room.value].started
            && |s.rooms[s.clients[x].room.value].members| < cfg.maxSeats))
  }

  /** The members of the room that a joiner of x enters, before it does. */
  function Company(s: State, x: nat): seq<nat> {
    if x in s.clients && s.clients[x].room.Some? && s.clients[x].room.value in s.rooms then s.rooms[s.clients[x].room.value].members else [x]
  }

  /** c has taken the last seat beside x, in x's room or in the new room r, nobody else has moved, and everyone
      in the room, and nobody outside it, has been told ROOM with the new count. */
  ghost predicate Seated(s: State, s': State, c: nat, x: nat, r: nat) {
    && s'.clients.Keys == s.clients.Keys && s'.byName == s.byName
    && r in s'.rooms && s'.rooms[r].members == Company(s, x) + [c] && !s'.rooms[r].started
    && s'.rooms.Keys == s.rooms.Keys + {r} && (forall q :: q in s.rooms && q != r ==> s'.rooms[q] == s.rooms[q])
    && (forall y {:trigger s'.clients[y]} :: y in s.clients && y !in s'.rooms[r].members ==> s'.clients[y] == s.clients[y])
    && (forall y {:trigger s'.clients[y]} :: y in s.clients && y in s'.rooms[r].members ==>
          && s'.clients[y].room == Some(r) && s'.clients[y].name == s.clients[y].name && s'.clients[y].ip == s.clients[y].ip
          && RoomTold(s.clients[y].tx, s'.clients[y].tx, |Company(s, x)| + 1))
  }

  lemma EnterMoves(cfg: Cfg, s: State, c: nat, x: nat, r: nat)
    requires Inv(cfg, s) && Enterable(cfg, s, c, x, r)
    ensures var s1 := Enter(s, c, x, r);
            && s1.clients.Keys == s.clients.Keys && s1.byName == s.byName
            && r in s1.rooms && s1.rooms[r].members == Company(s, x) + [c] && !s1.rooms[r].started == !(r in s.rooms && s.rooms[r].started)
            && s1.rooms.Keys == s.rooms.Keys + {r} && (forall q :: q in s.rooms && q != r ==> s1.rooms[q] == s.rooms[q])
            && |s1.rooms[r].members| <= 4
  {
    hide NamesOK, CountOK, Distinct, LinksOK;
    if r in s.rooms { assert RoomOK(cfg, s.clients, r, s.rooms[r]); }
  }

  lemma EnterLinked(cfg: Cfg, s: State, c: nat, x: nat, r: nat, y: nat)
    requires Inv(cfg, s) && Enterable(cfg, s, c, x, r) && y in s.clients
    ensures var s1 := Enter(s, c, x, r);
            && y in s1.clients && r in s1.rooms
            && s1.clients[y] == if y in s1.rooms[r].members then s.clients[y].(room := Some(r)) else s.clients[y]
  {
    hide NamesOK, CountOK, Distinct;
    if r in s.rooms { assert RoomOK(cfg, s.clients, r, s.rooms[r]); }
  }

  lemma ToldAll(s1: State, r: nat, f: bytes, y: nat)
    requires r in s1.rooms && y in s1.clients
    ensures Tell(s1, s1.rooms[r].members, f).clients[y] == if y in s1.rooms[r].members then Queue(s1.clients[y], f) else s1.clients[y]
  {
  }

  lemma EnterSeats(cfg: Cfg, s: State, c: nat, x: nat, r: nat)
    requires Inv(cfg, s) && Enterable(cfg, s, c, x, r) && (r in s.rooms ==> !s.rooms[r].started)
    ensures r in Enter(s, c, x, r).rooms && Seated(s, Broadcast(Enter(s, c, x, r), r), c, x, r)
  {
    hide Inv, RoomFrame, Enter, Company, Post;
    var s1 := Enter(s, c, x, r);
    EnterMoves(cfg, s, c, x, r);
    var members := s1.rooms[r].members;
    var f := RoomFrame(s1, members);
    RoomCount(s1, members);
    var s' := Broadcast(s1, r);
    TellKeys(s1, members, f);
    forall y | y in s.clients
      ensures s'.clients[y] == if y in members then Queue(s.clients[y].(room := Some(r)), f) else s.clients[y]
    {
      EnterLinked(cfg, s, c, x, r, y);
      ToldAll(s1, r, f, y);
    }
  }

  lemma TellKeys(s: State, members: seq<nat>, f: bytes)
    ensures var s' := Tell(s, members, f); s'.clients.Keys == s.clients.Keys && s'.byName == s.byName && s'.rooms == s.rooms
  {
  }

  lemma JoinFinds(cfg: Cfg, s: State, c: nat, name: bytes)
    requires Inv(cfg, s)
    ensures Joinable(cfg, s, c, name) ==> Waits(cfg, s, c, name, Get(s.byName, name))
    ensures forall x :: Waits(cfg, s, c, name, x) ==> Joinable(cfg, s, c, name) && Get(s.byName, name) == x
  {
    hide RoomsOK, LinksOK, NamesOK, CountOK, Has, Get;
    if name != [] {
      Finds(cfg, s, name);
    } else {
      NoEmptyName(cfg, s);
    }
  }

  lemma NoEmptyName(cfg: Cfg, s: State)
    requires Inv(cfg, s)
    ensures !Has(s.byName, [])
  {
    hide RoomsOK, LinksOK, CountOK;
    forall i | 0 <= i < |s.byName| ensures s.byName[i].name != [] { assert s.byName[i] in s.byName; }
  }

  /** JOIN before HELLO costs the connection; from inside a room it does nothing; when nobody under the name can
      be joined it is answered with the lobby. */
  lemma JoinRefused(cfg: Cfg, s: State, c: nat, payload: bytes, made: nat, seed: word)
    requires Inv(cfg, s) && Possible(s, Framed(c, 4, payload, made, seed))
    ensures var s' := Step(cfg, s, Framed(c, 4, payload, made, seed));
            && (s.clients[c].name == [] ==> s' == Step(cfg, s, Gone(c)) && OnlyGone(s, s', c))
            && (s.clients[c].name != [] && s.clients[c].room.Some? ==> s' == s)
            && (s.clients[c].name != [] && s.clients[c].room.None? && !(exists x :: Waits(cfg, s, c, Stripped(payload), x)) ==>
                  OnlyTold(s, s', c, LobbyFrame(cfg, s, c)) && c in s'.clients && LobbyLast(cfg, s', c))
  {
    hide Inv, Drop, OnlyGone, LobbyFrame, LobbyLast, OnlyTold, Joinable, Waits, Enter, Broadcast, StartRoom, Get, Has, Stripped;
    DropKeeps(cfg, s, c);
    ListTells(cfg, s, c);
    JoinFinds(cfg, s, c, Stripped(payload));
  }

  /** Otherwise the sender takes the last seat beside whoever bears the name; and if the server starts matches by
      itself at this many players, or more, the match then begins. */
  lemma JoinAccepted(cfg: Cfg, s: State, c: nat, payload: bytes, made: nat, seed: word, x: nat)
    requires Inv(cfg, s) && Possible(s, Framed(c, 4, payload, made, seed))
    requires s.clients[c].name != [] && s.clients[c].room.None? && Waits(cfg, s, c, Stripped(payload), x)
    ensures var s' := Step(cfg, s, Framed(c, 4, payload, made, seed));
            var r := if s.clients[x].room.Some? then s.clients[x].room.value else made;
            if cfg.autoGo != 0 && |Company(s, x)| + 1 >= cfg.autoGo
            then exists s1: State :: Seated(s, s1, c, x, r) && r in s1.rooms && Begun(cfg, s1, s', r, seed)
            else Seated(s, s', c, x, r)
  {
    hide Inv, Drop, Joinable, Enter, StartRoom, Get, Has, Stripped, Seated, Begun, OnList, RoomFrame;
    var r := if s.clients[x].room.Some? then s.clients[x].room.value else made;
    JoinFinds(cfg, s, c, Stripped(payload));
    assert Enterable(cfg, s, c, x, r);
    EnterSeats(cfg, s, c, x, r);
    EnterInv(cfg, s, c, x, r);
    var s1 := Broadcast(Enter(s, c, x, r), r);
    SeatedSize(s, s1, c, x, r);
    PostInv(cfg, Enter(s, c, x, r), s1.clients);
    StartBegins(cfg, s1, r, seed);
  }

  lemma SeatedSize(s: State, s1: State, c: nat, x: nat, r: nat)
    requires Seated(s, s1, c, x, r)
    ensures r in s1.rooms && |s1.rooms[r].members| == |Company(s, x)| + 1
  {
  }
}
