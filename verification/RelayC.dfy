/** The C port's handlers over its fixed arrays, proved to do to the arrays what the functions of
    Relay do to the dictionaries; the branches its comments call unreachable are dead code. */
module RelayC {
  import opened Cells
  import opened Stream
  import opened Names
  import opened Relay
  import opened RelayInv
  import opened RelayRuns
  import opened RelayServer
  import opened RelayArrays

  class CServer {
    const cfg: Cfg
    const clients: array<CClient>
    const rooms: array<CRoom>
    const byName: array<Entry>
    var nByName: nat
    var nClients: nat

    ghost predicate Shaped()
      reads this, clients, rooms, byName
    {
      clients.Length == MAX_CLIENTS && SlotsOK(rooms[..]) && byName.Length == MAX_CLIENTS && nByName <= MAX_CLIENTS
    }

    /** No client is in the middle of its drop. */
    ghost predicate Settled()
      reads clients
    {
      forall i :: 0 <= i < clients.Length && clients[i].inUse ==> !clients[i].dead
    }

    ghost function Abs(): State
      reads this, clients, rooms, byName
      requires nByName <= byName.Length
    {
      State(AbsClients(clients[..]), byName[..nByName], AbsRooms(rooms[..]))
    }

    ghost predicate Valid()
      reads this, clients, rooms, byName
    {
      Shaped() && Settled() && Inv(cfg, Abs()) && nClients == |Abs().clients|
    }

    constructor (cfg: Cfg)
      requires 2 <= cfg.maxSeats <= ROSTER_SLOTS
      ensures this.cfg == cfg && Valid() && Abs() == EMPTY && fresh(clients) && fresh(rooms) && fresh(byName)
    {
      this.cfg := cfg;
      nByName, nClients := 0, 0;
      clients := new CClient[MAX_CLIENTS](_ => CClient(false, false, 0, [], -1, []));
      rooms := new CRoom[MAX_ROOMS](_ => CRoom(false, [0, 0, 0, 0], 0, false, 0));
      byName := new Entry[MAX_CLIENTS](_ => Entry([], 0));
      new;
      assert AbsClients(clients[..]) == map[] && AbsRooms(rooms[..]) == map[];
      RunsInv(cfg, []);
    }

    // ---- names -------------------------------------------------------------------------------------------

    /** strcmp down the array; the length when absent. */
    method NameFind(name: bytes) returns (i: nat)
      requires nByName <= byName.Length && NulFree(byName[..nByName])
      ensures i == Find(byName[..nByName], CString(name))
    {
      i := 0;
      while i < nByName && CString(byName[i].name) != CString(name)
        invariant i <= nByName
        invariant forall j :: 0 <= j < i ==> byName[j].name != CString(name)
      {
        CStringWhole(byName[i].name);
        assert byName[..nByName][i] == byName[i];
        i := i + 1;
      }
      ghost var d := byName[..nByName];
      if i < nByName {
        assert d[i] == byName[i];
        CStringWhole(byName[i].name);
      }
      ghost var f := Find(d, CString(name));
      assert f < |d| ==> d[f] == byName[f];
    }

    method NameSet(name: bytes, ci: nat)
      requires nByName <= byName.Length == MAX_CLIENTS && NulFree(byName[..nByName])
      requires !Has(byName[..nByName], CString(name)) ==> nByName < MAX_CLIENTS
      modifies this`nByName, byName
      ensures nByName <= MAX_CLIENTS && byName[..nByName] == Set(old(byName[..nByName]), CString(name), ci)
    {
      ghost var d := byName[..nByName];
      var i := NameFind(name);
      if i < nByName {
        byName[i] := byName[i].(client := ci);
        assert byName[..nByName] == d[i := Entry(CString(name), ci)];
        return;
      }
      if nByName >= MAX_CLIENTS {
        assert false;   // more names than clients
      }
      byName[nByName] := Entry(CString(name), ci);
      nByName := nByName + 1;
      assert byName[..nByName] == d + [Entry(CString(name), ci)];
    }

    /** memmove over the hole. */
    method NameDelAt(i: nat)
      requires i < nByName <= byName.Length
      modifies this`nByName, byName
      ensures nByName == old(nByName) - 1 && byName[..nByName] == RemoveAt(old(byName[..nByName]), i)
    {
      ghost var d := byName[..nByName];
      forall k | i <= k < nByName - 1 { byName[k] := byName[k + 1]; }
      nByName := nByName - 1;
      assert byName[..nByName] == RemoveAt(d, i);
    }

    /** One turn of drop's loop. */
    method ForgetAt(i: nat, ci: nat)
      requires i < nByName <= byName.Length
      requires forall k :: i < k < nByName ==> byName[k].client != ci
      modifies this`nByName, byName
      ensures i <= nByName <= old(nByName)
      ensures Without(byName[..nByName], ci) == Without(old(byName[..nByName]), ci)
      ensures forall k :: i <= k < nByName ==> byName[k].client != ci
    {
      hide RemoveAt, Without;
      if byName[i].client == ci {
        ghost var d := byName[..nByName];
        assert forall k :: 0 <= k < nByName ==> d[k] == byName[k];
        RemoveWithout(d, i, ci);
        NameDelAt(i);
        ghost var r := byName[..nByName];
        assert forall k :: i <= k < nByName ==> byName[k] == r[k] && r[k] == d[k + 1];
      }
    }

    /** drop's loop: from the last entry down. */
    method ForgetNames(ci: nat)
      requires nByName <= byName.Length
      modifies this`nByName, byName
      ensures nByName <= old(nByName) && byName[..nByName] == Without(old(byName[..nByName]), ci)
    {
      var i: int := nByName - 1;
      while i >= 0
        invariant -1 <= i < nByName <= old(nByName)
        invariant Without(byName[..nByName], ci) == Without(old(byName[..nByName]), ci)
        invariant forall k :: i < k < nByName ==> byName[k].client != ci
      {
        hide Without;
        ForgetAt(i, ci);
        i := i - 1;
      }
      ghost var d := byName[..nByName];
      assert forall k :: 0 <= k < |d| ==> d[k] == byName[k];
      NoneWithout(d, ci);
    }

    // ---- sending -----------------------------------------------------------------------------------------

    method SendRaw(ci: nat, f: bytes)
      requires ci < clients.Length && clients[ci].inUse && !clients[ci].dead
      modifies clients
      ensures TxOnly(old(clients[..]), clients[..])
      ensures var m := old(AbsClients(clients[..])); AbsClients(clients[..]) == m[ci := m[ci].(tx := m[ci].tx + [f])]
    {
      PutClient(clients[..], ci, clients[ci].(tx := clients[ci].tx + [f]));
      ghost var before := clients[..];
      if clients[ci].dead {
        return;
      }
      clients[ci] := clients[ci].(tx := clients[ci].tx + [f]);
      assert clients[..] == before[ci := clients[ci]];
    }

    /** The loop of every broadcast, over a snapshot of the members. */
    method SendEach(mm: seq<nat>, f: bytes)
      requires Distinct(mm) && forall m :: m in mm ==> m < clients.Length && clients[m].inUse && !clients[m].dead
      modifies clients
      ensures TxOnly(old(clients[..]), clients[..])
      ensures AbsClients(clients[..]) == Post(old(AbsClients(clients[..])), ToAll(mm, f))
    {
      hide AbsClients, Post, ToAll;
      ghost var before := AbsClients(clients[..]);
      PostNobody(before);
      ToAllNone(mm, f);
      var i := 0;
      while i < |mm|
        invariant i <= |mm| && TxOnly(old(clients[..]), clients[..])
        invariant AbsClients(clients[..]) == Post(before, ToAll(mm[..i], f))
      {
        ToAllMore(mm, i, f);
        PostMore(before, ToAll(mm[..i], f), mm[i], f);
        assert mm[i] in mm;
        InUseIsIn(clients[..], mm[i]);
        SendRaw(mm[i], f);
        i := i + 1;
      }
      assert mm[..i] == mm;
    }

    // ---- rooms -------------------------------------------------------------------------------------------

    /** Four name slots, the first of them the members'. */
    method RoomRoster(ri: nat) returns (out: bytes)
      requires Shaped() && ri < rooms.Length && forall m :: m in AbsRoom(rooms[ri]).members ==> m < clients.Length && clients[m].inUse
      ensures out == Roster(Abs(), AbsRoom(rooms[ri]).members)
    {
      hide AbsClients, AbsRooms, PadName, Zeros, AbsRoom;
      ghost var members := AbsRoom(rooms[ri]).members;
      MembersAre(rooms[ri]);
      var slots: bytes := [];
      var i := 0;
      while i < rooms[ri].nmembers && i < ROSTER_SLOTS
        invariant i <= |members| && slots == Pads(Abs(), members[..i])
      {
        assert members[..i + 1][..i] == members[..i];
        assert members[i] in members && members[i] == rooms[ri].members[i];
        InUseIsIn(clients[..], members[i]);
        slots := slots + PadName(clients[rooms[ri].members[i]].name);
        i := i + 1;
      }
      assert members[..i] == members;
      out := slots + Zeros(8 * (ROSTER_SLOTS - i));
    }

    method RoomSeat(ri: nat, ci: nat) returns (seat: int)
      requires ri < rooms.Length && rooms[ri].nmembers <= |rooms[ri].members|
      ensures seat == (if ci in AbsRoom(rooms[ri]).members then IndexOf(AbsRoom(rooms[ri]).members, ci) else -1)
    {
      ghost var members := AbsRoom(rooms[ri]).members;
      var i := 0;
      while i < rooms[ri].nmembers
        invariant i <= |members| && ci !in members[..i]
      {
        assert members[i] == rooms[ri].members[i];
        if rooms[ri].members[i] == ci {
          return i;
        }
        assert members[..i + 1] == members[..i] + [members[i]];
        i := i + 1;
      }
      assert members[..i] == members;
      return -1;
    }

    /** memmove of the members behind a seat. */
    method Unseat(ri: nat, seat: nat)
      requires Shaped() && ri < rooms.Length && seat < rooms[ri].nmembers
      requires rooms[ri].used && IndexOf(AbsRoom(rooms[ri]).members, rooms[ri].members[seat]) == seat
      modifies rooms
      ensures Shaped() && rooms[ri].used
      ensures var m := old(AbsRooms(rooms[..]));
              var room := m[ri].(members := AllBut(m[ri].members, old(rooms[ri].members[seat])));
              AbsRooms(rooms[..]) == m[ri := room] && AbsRoom(rooms[ri]) == room
    {
      var r := rooms[ri];
      var moved := seq(ROSTER_SLOTS, k requires 0 <= k < ROSTER_SLOTS =>
                         if seat <= k < r.nmembers - 1 then r.members[k + 1] else r.members[k]);
      var r' := r.(members := moved, nmembers := r.nmembers - 1);
      PutRoom(rooms[..], ri, r');
      ghost var before := rooms[..];
      rooms[ri] := r';
      assert rooms[..] == before[ri := r'];
      assert AbsRoom(r').members == AllBut(AbsRoom(r).members, r.members[seat]);
    }

    method RoomBroadcast(ri: nat)
      requires Shaped() && ri < rooms.Length && rooms[ri].used && Distinct(AbsRoom(rooms[ri]).members)
      requires forall m :: m in AbsRoom(rooms[ri]).members ==> m < clients.Length && clients[m].inUse && !clients[m].dead
      modifies clients
      ensures TxOnly(old(clients[..]), clients[..]) && ri in old(Abs()).rooms
      ensures Abs() == Broadcast(old(Abs()), ri)
    {
      hide AbsClients, Post, Roster, AbsRoom;
      RoomIsIn(rooms[..], ri);
      var roster := RoomRoster(ri);
      ghost var members := AbsRoom(rooms[ri]).members;
      var payload := [Low(rooms[ri].nmembers)] + roster;
      MembersAre(rooms[ri]);
      SendEach(rooms[ri].members[..rooms[ri].nmembers], Frame(T_ROOM, payload));
    }

    /** Every member back to solo; the slot is free once the notices are sent. */
    method DissolveRoom(ri: nat, notify: seq<nat>)
      requires Shaped() && ri < rooms.Length && Distinct(notify)
      requires forall m :: m in AbsRoom(rooms[ri]).members + notify ==> m < clients.Length && clients[m].inUse && !clients[m].dead
      modifies clients, rooms
      ensures Shaped() && SameFlags(old(clients[..]), clients[..])
      ensures AbsClients(clients[..]) == Post(Unroom(old(AbsClients(clients[..])), old(AbsRoom(rooms[ri]).members)), ToAll(notify, GoneFrame()))
      ensures AbsRooms(rooms[..]) == old(AbsRooms(rooms[..])) - {ri}
    {
      hide AbsClients, Post, Roster, AbsRoom, Unroom, AbsRooms, ToAll;
      ghost var members, before := AbsRoom(rooms[ri]).members, AbsClients(clients[..]);
      MembersAre(rooms[ri]);
      UnroomNone(before, members);
      forall m | m in members ensures m in before {
        assert m in members + notify;
        InUseIsIn(clients[..], m);
      }
      var i := 0;
      while i < rooms[ri].nmembers
        invariant i <= |members| && rooms[..] == old(rooms[..]) && SameFlags(old(clients[..]), clients[..])
        invariant AbsClients(clients[..]) == Unroom(before, members[..i])
        invariant forall m :: m in members + notify ==> m < clients.Length && clients[m].inUse && !clients[m].dead
      {
        var m := rooms[ri].members[i];
        assert m == members[i] && m in members && m in members + notify;
        UnroomMore(before, members, i);
        PutClient(clients[..], m, clients[m].(room := -1));
        InUseIsIn(clients[..], m);
        ghost var cs := clients[..];
        clients[m] := clients[m].(room := -1);
        assert clients[..] == cs[m := clients[m]];
        i := i + 1;
      }
      assert members[..i] == members;
      assert forall m :: m in notify ==> m in members + notify;
      SendEach(notify, GoneFrame());
      PutRoom(rooms[..], ri, rooms[ri].(nmembers := 0, used := false));
      ghost var rs := rooms[..];
      rooms[ri] := rooms[ri].(nmembers := 0, used := false);
      assert rooms[..] == rs[ri := rooms[ri]];
    }

    // ---- leaving -----------------------------------------------------------------------------------------

    method ClientFree(ci: nat)
      requires ci < clients.Length && clients[ci].inUse && nClients == |AbsClients(clients[..])|
      modifies this`nClients, clients
      ensures AbsClients(clients[..]) == old(AbsClients(clients[..])) - {ci} && nClients == |AbsClients(clients[..])|
      ensures forall i :: 0 <= i < clients.Length && i != ci ==> clients[i] == old(clients[i])
      ensures !clients[ci].inUse
    {
      ghost var cs := clients[..];
      PutClient(cs, ci, cs[ci].(inUse := false));
      InUseIsIn(cs, ci);
      clients[ci] := clients[ci].(inUse := false);
      assert clients[..] == cs[ci := cs[ci].(inUse := false)];
      nClients := nClients - 1;
      assert (AbsClients(cs) - {ci}).Keys == AbsClients(cs).Keys - {ci};
      assert |AbsClients(cs)| == |AbsClients(cs).Keys| && |AbsClients(cs) - {ci}| == |(AbsClients(cs) - {ci}).Keys|;
    }

    /** drop up to the end of the room's business: the client still holds its slot, dead. */
    method LeaveRoom(ci: nat, ghost s: State)
      requires Shaped() && ci < clients.Length && clients[ci].inUse && clients[ci].dead && clients[ci].room >= 0
      requires forall i :: 0 <= i < clients.Length && clients[i].inUse && i != ci ==> !clients[i].dead
      requires Inv(cfg, s) && ci in s.clients && s.clients[ci].room == Some(clients[ci].room)
      requires Abs() == s.(byName := byName[..nByName])
      modifies clients, rooms
      ensures Shaped() && SameFlags(old(clients[..]), clients[..])
      ensures AbsClients(clients[..]) - {ci} == Drop(s, ci).clients && AbsRooms(rooms[..]) == Drop(s, ci).rooms
      ensures AbsClients(clients[..]).Keys == s.clients.Keys
    {
      hide AbsClients, AbsRooms, AbsRoom, Post, Unroom, ToAll, AllBut, LeftFrame, GoneFrame, Inv, Without, Drop, Broadcast, IndexOf, Distinct;
      var ri: nat, name := clients[ci].room, clients[ci].name;
      LeavingRoom(cfg, s, clients[..], rooms[..], ci);
      DropCases(cfg, s, ci);
      var seat := RoomSeat(ri, ci);
      MembersAre(rooms[ri]);
      ghost var cs := clients[..];
      PutClient(cs, ci, cs[ci].(room := -1));
      clients[ci] := clients[ci].(room := -1);
      assert clients[..] == cs[ci := cs[ci].(room := -1)];
      Unseat(ri, seat);
      MembersAre(rooms[ri]);
      var rest := rooms[ri].members[..rooms[ri].nmembers];
      ghost var x := Abs();
      if rooms[ri].started {
        NobodyTwice();
        DissolveRoom(ri, []);
        TellNobody(Unroom(x.clients, rest), GoneFrame());
        SendEach(rest, LeftFrame(seat, name));
        DropLeft(s, ci, rest, x.clients, LeftFrame(seat, name));
      } else if seat == 0 || rooms[ri].nmembers < 2 {
        DissolveRoom(ri, rest);
        DropLeft(s, ci, rest, x.clients, GoneFrame());
      } else {
        RoomBroadcast(ri);
        DropStay(s, ci, ri, rest, x);
        assert Drop(s, ci) == Broadcast(State(s.clients - {ci}, Without(s.byName, ci), x.rooms), ri);
        assert Abs() == Broadcast(x, ri);
      }
    }

    method DropClient(ci: nat)
      requires Valid() && ci < clients.Length && clients[ci].inUse
      modifies this, clients, rooms, byName
      ensures Valid() && Abs() == Drop(old(Abs()), ci)
    {
      hide AbsClients, AbsRooms, AbsRoom, Inv, Without, Drop;
      ghost var s := Abs();
      ghost var cs := clients[..];
      InUseIsIn(cs, ci);
      DropInv(cfg, s, ci);
      DropSolo(s, ci);
      PutClient(cs, ci, cs[ci].(dead := true));
      DeadSame(cs, ci);
      clients[ci] := clients[ci].(dead := true);
      assert clients[..] == cs[ci := cs[ci].(dead := true)];
      ForgetNames(ci);
      if clients[ci].room >= 0 {
        LeaveRoom(ci, s);
      }
      SameSize(s.clients, AbsClients(clients[..]));
      ClientFree(ci);
    }

    // ---- matchmaking -------------------------------------------------------------------------------------

    method StatusByte(ci: nat) returns (b: byte)
      requires Valid() && ci < clients.Length && clients[ci].inUse
      ensures b == Status(cfg, Abs(), ci)
    {
      hide AbsClients, AbsRooms, AbsRoom, Inv;
      InUseIsIn(clients[..], ci);
      if clients[ci].room < 0 {
        return 1;
      }
      var ri := clients[ci].room;
      LeavingRoom(cfg, Abs(), clients[..], rooms[..], ci);
      MembersAre(rooms[ri]);
      var n := rooms[ri].nmembers;
      b := Low(n + if rooms[ri].started || n >= cfg.maxSeats then 0x80 else 0);
    }

    /** on_list's loop: skip the client itself, stop at eight. */
    method LobbyList(ci: nat) returns (count: nat, entries: bytes)
      requires Valid()
      ensures var others := FirstEight(Others(Abs(), Abs().byName, ci));
              count == |others| && entries == LobbyEntries(cfg, Abs(), others)
    {
      hide AbsClients, AbsRooms, AbsRoom, Inv, PadName, Status, Others, LobbyEntries, NameOf, FirstEight;
      ghost var s := Abs();
      ghost var d := byName[..nByName];
      entries, count := [], 0;
      var i := 0;
      ListNone(cfg, s, ci);
      while i < nByName && count < LOBBY_ENTRIES
        invariant i <= nByName && count <= LOBBY_ENTRIES
        invariant count == |Others(s, d[..i], ci)| && entries == LobbyEntries(cfg, s, Others(s, d[..i], ci))
      {
        var oc := byName[i].client;
        assert d[i] == byName[i] && s.byName[i] == byName[i];
        EntryInUse(cfg, s, i, clients[..]);
        ListMore(cfg, s, d, i, ci);
        if oc != ci && clients[oc].name != [] {
          var status := StatusByte(oc);
          entries := entries + PadName(clients[oc].name) + [status];
          count := count + 1;
        }
        i := i + 1;
      }
      ListEnough(s, d, i, ci);
    }

    method OnListOf(ci: nat)
      requires Valid() && ci < clients.Length && clients[ci].inUse
      modifies clients
      ensures Valid() && Abs() == OnList(cfg, old(Abs()), ci) && TxOnly(old(clients[..]), clients[..])
    {
      hide AbsClients, AbsRooms, AbsRoom, Inv, Others, LobbyEntries, FirstEight, Post;
      ghost var s := Abs();
      InUseIsIn(clients[..], ci);
      Listed(cfg, s, ci);
      var count, entries := LobbyList(ci);
      SendTo(ci, Frame(T_LOBBY, [Low(count)] + entries));
    }

    /** A frame to one client. */
    method SendTo(ci: nat, f: bytes)
      requires Shaped() && Settled() && ci < clients.Length && clients[ci].inUse
      modifies clients
      ensures Shaped() && Settled() && TxOnly(old(clients[..]), clients[..])
      ensures Abs() == Tell(old(Abs()), [ci], f) && Abs().clients.Keys == old(Abs()).clients.Keys
      ensures |Abs().clients| == old(|Abs().clients|)
    {
      hide AbsClients, AbsRooms;
      ghost var m := AbsClients(clients[..]);
      InUseIsIn(clients[..], ci);
      OneIsAll(ci, f);
      PostOne(m, ci, f);
      SendRaw(ci, f);
      SameSize(m, AbsClients(clients[..]));
    }

    method CharsOK(raw: bytes) returns (ok: bool)
      ensures ok <==> forall i :: 0 <= i < |raw| ==> NameByte(raw[i] as int)
    {
      var i := 0;
      while i < |raw|
        invariant i <= |raw| && forall j :: 0 <= j < i ==> NameByte(raw[j] as int)
      {
        if !(0x41 <= raw[i] <= 0x5A || 0x30 <= raw[i] <= 0x39) {
          return false;
        }
        i := i + 1;
      }
      return true;
    }

    /** Does this payload carry a version and a name to take? */
    method Greets(payload: bytes) returns (ok: bool)
      ensures ok <==> |payload| >= 3 && payload[0] == PROTO_VER && ValidName(Stripped(payload[1..]))
    {
      if |payload| < 3 || payload[0] != PROTO_VER {
        return false;
      }
      var raw := Stripped(payload[1..]);
      if |raw| < 2 || |raw| > 8 {
        return false;
      }
      ok := CharsOK(raw);
    }

    /** The old alias of a client that says hello under another name. */
    method FreeAlias(ci: nat, was: bytes, name: bytes)
      requires nByName <= byName.Length && NulFree(byName[..nByName]) && CString(was) == was
      modifies this`nByName, byName
      ensures nByName <= byName.Length
      ensures byName[..nByName] == FreedNames(old(byName[..nByName]), ci, was, name)
    {
      hide RemoveAt, Has, Get, Del;
      ghost var d := byName[..nByName];
      FreedCases(d, ci, was, name);
      if was != [] && was != name {
        var at := NameFind(was);
        assert at < nByName ==> d[at] == byName[at];
        if at < nByName && byName[at].client == ci {
          NameDelAt(at);
        }
      }
    }

    /** on_hello past its checks: the old holder of the name has been dropped. */
    method Rename(ci: nat, name: bytes)
      requires Valid() && ci < clients.Length && clients[ci].inUse && ValidName(name)
      requires forall e :: e in Abs().byName && e.name == name ==> e.client == ci
      modifies this, clients, byName
      ensures Valid() && Abs() == Registered(old(Abs()), ci, name)
      ensures clients[ci].inUse
    {
      hide AbsClients, AbsRooms, Inv, ValidName, Set, Has, FreedNames;
      ghost var s := Abs();
      ghost var cs := clients[..];
      InUseIsIn(cs, ci);
      RegisterInv(cfg, s, ci, name);
      NamesRoom(cfg, s, ci, name);
      RegisteredParts(s, ci, name);
      FreeAlias(ci, clients[ci].name, name);
      PutClient(cs, ci, cs[ci].(name := name));
      clients[ci] := clients[ci].(name := name);
      assert clients[..] == cs[ci := cs[ci].(name := name)];
      NameSet(name, ci);
      SameSize(s.clients, AbsClients(clients[..]));
    }

    method OnHelloFrom(ci: nat, payload: bytes)
      requires Valid() && ci < clients.Length && clients[ci].inUse
      modifies this, clients, rooms, byName
      ensures Valid() && Abs() == OnHello(cfg, old(Abs()), ci, payload)
    {
      hide AbsClients, AbsRooms, Inv, ValidName, Stripped, Drop, Registered, OnList, Has, Get;
      ghost var s := Abs();
      InUseIsIn(clients[..], ci);
      var greets := Greets(payload);
      if !greets {
        DropClient(ci);
        return;
      }
      var name := Stripped(payload[1..]);
      NamesRoom(cfg, s, ci, name);
      HolderOf(cfg, s, name);
      var old_ := NameFind(name);
      NotOurs(s.byName, name, old_, ci);
      FoundIsHeld(s.byName, name, old_);
      if old_ < nByName && byName[old_].client != ci {
        assert s.byName[old_] == byName[old_];
        EntryInUse(cfg, s, old_, clients[..]);
        Evicted(s, name);
        DropInv(cfg, s, byName[old_].client);
        DropClient(byName[old_].client);
        InUseIsIn(clients[..], ci);
      } else {
        assert old_ < nByName ==> s.byName[old_] == byName[old_];
      }
      Rename(ci, name);
      OnListOf(ci);
    }

    /** START to every seat of a snapshot of the members. */
    method StartRoomOf(ri: nat, seed: word)
      requires Valid() && ri < rooms.Length && rooms[ri].used
      modifies clients, rooms
      ensures Valid() && ri in old(Abs()).rooms && Abs() == StartRoom(cfg, old(Abs()), ri, seed)
    {
      hide AbsClients, AbsRooms, AbsRoom, Inv, Roster, StartsTo, StartFrame, Post, Distinct, StartRoom;
      ghost var s := Abs();
      RoomIsIn(rooms[..], ri);
      MembersAre(rooms[ri]);
      RoomMembers(cfg, s, clients[..], ri);
      StartInv(cfg, s, ri, seed);
      var mm := rooms[ri].members[..rooms[ri].nmembers];
      var roster := RoomRoster(ri);
      var common := [Low(|mm|), seed % 256, seed / 256, cfg.delay] + roster;
      StartParts(cfg, s, ri, seed);
      PutRoom(rooms[..], ri, rooms[ri].(started := true, seed := seed));
      StartedRoom(rooms[ri], seed);
      ghost var rs := rooms[..];
      rooms[ri] := rooms[ri].(started := true, seed := seed);
      assert rooms[..] == rs[ri := rooms[ri]];
      SendStarts(mm, common);
      SameSize(s.clients, AbsClients(clients[..]));
    }

    method SendStarts(mm: seq<nat>, common: bytes)
      requires Distinct(mm) && forall m :: m in mm ==> m < clients.Length && clients[m].inUse && !clients[m].dead
      modifies clients
      ensures TxOnly(old(clients[..]), clients[..])
      ensures AbsClients(clients[..]) == Post(old(AbsClients(clients[..])), StartMap(mm, common))
    {
      hide AbsClients, Post, StartsTo, StartFrame, IndexOf;
      ghost var before := AbsClients(clients[..]);
      PostNobody(before);
      StartsNone(mm, common);
      var seat := 0;
      while seat < |mm|
        invariant seat <= |mm| && TxOnly(old(clients[..]), clients[..])
        invariant AbsClients(clients[..]) == Post(before, StartsTo(mm, seat, common))
      {
        StartsMore(mm, seat, common);
        PostMore(before, StartsTo(mm, seat, common), mm[seat], StartFrame(seat, common));
        assert mm[seat] in mm;
        InUseIsIn(clients[..], mm[seat]);
        SendRaw(mm[seat], StartFrame(seat, common));
        seat := seat + 1;
      }
      StartsAll(mm, common);
    }

    method OnGoFrom(ci: nat, seed: word)
      requires Valid() && ci < clients.Length && clients[ci].inUse
      modifies clients, rooms
      ensures Valid() && Abs() == OnGo(cfg, old(Abs()), ci, seed)
    {
      hide AbsClients, AbsRooms, AbsRoom, Inv, StartRoom, IndexOf, Distinct, AllBut;
      ghost var s := Abs();
      InUseIsIn(clients[..], ci);
      if clients[ci].room < 0 {
        return;
      }
      var ri := clients[ci].room;
      LeavingRoom(cfg, s, clients[..], rooms[..], ci);
      MembersAre(rooms[ri]);
      if rooms[ri].started {
        return;
      }
      var seat := RoomSeat(ri, ci);
      if seat != 0 || rooms[ri].nmembers < 2 || rooms[ri].nmembers > cfg.maxSeats {
        return;
      }
      StartRoomOf(ri, seed);
    }

    /** The fan-out loop over a snapshot of the members. */
    method FanOut(ci: nat, t: byte, payload: bytes)
      requires Valid() && ci < clients.Length && clients[ci].inUse && |payload| <= 254
      modifies clients
      ensures Valid() && Abs() == OnRelay(old(Abs()), ci, t, payload)
    {
      hide AbsClients, AbsRooms, AbsRoom, Inv, Distinct, AllBut, Post;
      ghost var s := Abs();
      InUseIsIn(clients[..], ci);
      if clients[ci].room < 0 {
        return;
      }
      var ri := clients[ci].room;
      LeavingRoom(cfg, s, clients[..], rooms[..], ci);
      RoomMembers(cfg, s, clients[..], ri);
      MembersAre(rooms[ri]);
      if !rooms[ri].started {
        return;
      }
      var mm := rooms[ri].members[..rooms[ri].nmembers];
      SendOthers(mm, ci, Frame(t, payload));
      OthersAll(mm, ci, Frame(t, payload));
      RelaySame(s, AbsClients(clients[..]), ToAll(AllBut(mm, ci), Frame(t, payload)));
      PostInv(cfg, s, AbsClients(clients[..]));
      SameSize(s.clients, AbsClients(clients[..]));
    }

    method SendOthers(mm: seq<nat>, ci: nat, f: bytes)
      requires Distinct(mm) && forall m :: m in mm ==> m < clients.Length && clients[m].inUse && !clients[m].dead
      modifies clients
      ensures TxOnly(old(clients[..]), clients[..])
      ensures AbsClients(clients[..]) == Post(old(AbsClients(clients[..])), ToOthers(mm, ci, f))
    {
      hide AbsClients, Post, TxOnly, ToOthers, Distinct;
      ghost var before := AbsClients(clients[..]);
      PostNobody(before);
      RelayServer.OthersNone(ci, f);
      TxOnlySame(clients[..]);
      assert mm[..0] == [];
      var i := 0;
      while i < |mm|
        invariant i <= |mm| && TxOnly(old(clients[..]), clients[..])
        invariant AbsClients(clients[..]) == Post(before, ToOthers(mm[..i], ci, f))
      {
        RelayServer.OthersMore(mm, i, ci, f);
        if mm[i] != ci {
          assert mm[i] in mm;
          ghost var was := clients[..];
          TxOnlyFlags(old(clients[..]), was, mm[i]);
          PostMore(before, ToOthers(mm[..i], ci, f), mm[i], f);
          InUseIsIn(was, mm[i]);
          SendRaw(mm[i], f);
          TxOnlyTwice(old(clients[..]), was, clients[..]);
        }
        i := i + 1;
      }
      assert mm[..i] == mm;
    }

    /** room_alloc: at most half as many rooms as clients exist, so a slot is free. */
    method RoomAlloc(host: nat) returns (ri: nat)
      requires Shaped() && |AbsRooms(rooms[..])| < MAX_ROOMS
      modifies rooms
      ensures Shaped() && ri < rooms.Length && ri !in old(AbsRooms(rooms[..]))
      ensures rooms[ri].used && rooms[ri].nmembers == 1 && AbsRoom(rooms[ri]) == Room([host], false, 0)
      ensures AbsRooms(rooms[..]) == old(AbsRooms(rooms[..]))[ri := Room([host], false, 0)]
    {
      ri := 0;
      while ri < rooms.Length && rooms[ri].used
        invariant ri <= rooms.Length && forall j :: 0 <= j < ri ==> rooms[j].used
      {
        ri := ri + 1;
      }
      if ri == rooms.Length {
        AllRoomsUsed(rooms[..]);
        assert false;   // no room slots free
      }
      ghost var rs := rooms[..];
      PutRoom(rs, ri, CRoom(true, [host, 0, 0, 0], 1, false, 0));
      rooms[ri] := CRoom(true, [host, 0, 0, 0], 1, false, 0);
      assert rooms[..] == rs[ri := rooms[ri]];
    }

    method SetRoom(ci: nat, ri: nat)
      requires ci < clients.Length && clients[ci].inUse
      modifies clients
      ensures ci in old(AbsClients(clients[..]))
      ensures var m := old(AbsClients(clients[..])); AbsClients(clients[..]) == m[ci := m[ci].(room := Some(ri))]
      ensures SameFlags(old(clients[..]), clients[..])
      ensures forall i :: 0 <= i < clients.Length && i != ci ==> clients[i] == old(clients[i])
    {
      ghost var cs := clients[..];
      PutClient(cs, ci, cs[ci].(room := ri));
      clients[ci] := clients[ci].(room := ri);
      assert clients[..] == cs[ci := cs[ci].(room := ri)];
    }

    /** rooms[ri].members[nmembers++] = ci. */
    method AddMember(ri: nat, ci: nat)
      requires Shaped() && ri < rooms.Length && rooms[ri].used && rooms[ri].nmembers < ROSTER_SLOTS
      modifies rooms
      ensures Shaped() && rooms[ri].used && rooms[ri].nmembers == old(rooms[ri].nmembers) + 1
      ensures AbsRoom(rooms[ri]) == var r := old(AbsRoom(rooms[ri])); r.(members := r.members + [ci])
      ensures var m := old(AbsRooms(rooms[..]));
              ri in m && AbsRooms(rooms[..]) == m[ri := m[ri].(members := m[ri].members + [ci])]
    {
      ghost var rs := rooms[..];
      var r := rooms[ri];
      var r' := r.(members := r.members[r.nmembers := ci], nmembers := r.nmembers + 1);
      PutRoom(rs, ri, r');
      rooms[ri] := r';
      assert rooms[..] == rs[ri := r'];
      assert AbsRoom(r').members == AbsRoom(r).members + [ci];
    }

    /** The member of the room a JOIN found, and the room itself, made when the target is solo. */
    method EnterRoom(ci: nat, ti: nat) returns (ri: nat)
      requires Valid() && ci < clients.Length && clients[ci].inUse && ti < clients.Length && clients[ti].inUse && ci != ti
      requires clients[ci].room < 0 && clients[ci].name != [] && clients[ti].name != []
      requires clients[ti].room >= 0 ==>
                 clients[ti].room in Abs().rooms && |Abs().rooms[clients[ti].room as nat].members| < cfg.maxSeats
      modifies clients, rooms
      ensures Valid() && ri < rooms.Length && rooms[ri].used
      ensures old(clients[ti]).room >= 0 ==> ri == old(clients[ti]).room
      ensures old(clients[ti]).room < 0 ==> ri !in old(Abs()).rooms
      ensures ci in old(Abs()).clients && ti in old(Abs()).clients
      ensures Abs() == Enter(old(Abs()), ci, ti, ri)
    {
      hide AbsClients, AbsRooms, AbsRoom, Inv, Enter;
      ghost var s := Abs();
      InUseIsIn(clients[..], ci);
      InUseIsIn(clients[..], ti);
      if clients[ti].room < 0 {
        RoomsSuffice(cfg, s, ci, ti);
        ri := RoomAlloc(ti);
        SetRoom(ti, ri);
      } else {
        ri := clients[ti].room;
        LeavingRoom(cfg, s, clients[..], rooms[..], ti);
        MembersAre(rooms[ri]);
        SeatsFour(cfg, s);
      }
      EnterInv(cfg, s, ci, ti, ri);
      AddMember(ri, ci);
      SetRoom(ci, ri);
      EnteredState(s, Abs(), ci, ti, ri);
      SameSize(s.clients, AbsClients(clients[..]));
    }

    method OnJoinFrom(ci: nat, payload: bytes, seed: word)
      requires Valid() && ci < clients.Length && clients[ci].inUse
      modifies this, clients, rooms, byName
      ensures Valid()
      ensures exists made :: made !in old(Abs()).rooms && Abs() == JoinAs(cfg, old(Abs()), ci, CJoinName(payload), made, seed)
    {
      hide AbsClients, AbsRooms, AbsRoom, Inv, Stripped, Drop, OnList, StartRoom, Has, Get, Enter, Broadcast;
      ghost var s := Abs();
      InUseIsIn(clients[..], ci);
      FreeRoomId(rooms[..]);
      if clients[ci].name == [] {
        DropClient(ci);
        assert Abs() == JoinAs(cfg, s, ci, CJoinName(payload), MAX_ROOMS, seed);
        return;
      }
      if clients[ci].room >= 0 {
        assert Abs() == JoinAs(cfg, s, ci, CJoinName(payload), MAX_ROOMS, seed);
        return;
      }
      var found, ti := FindTarget(ci, payload);
      if !found {
        OnListOf(ci);
        assert Abs() == JoinAs(cfg, s, ci, CJoinName(payload), MAX_ROOMS, seed);
        return;
      }
      InUseIsIn(clients[..], ti);
      LeftRoom(cfg, s, clients[..], rooms[..], ti);
      var ri := EnterRoom(ci, ti);
      RoomIsIn(rooms[..], ri);
      MembersAre(rooms[ri]);
      RoomMembers(cfg, Abs(), clients[..], ri);
      ghost var e := Abs();
      RoomBroadcast(ri);
      TellInv(cfg, e, ri);
      SameSize(e.clients, AbsClients(clients[..]));
      JoinParts(cfg, s, ci, CJoinName(payload), ti, ri, seed);
      if cfg.autoGo != 0 && rooms[ri].nmembers >= cfg.autoGo {
        StartRoomOf(ri, seed);
      }
    }

    /** The client a JOIN may join, looked up as a C string. */
    method FindTarget(ci: nat, payload: bytes) returns (found: bool, ti: nat)
      requires Valid() && ci < clients.Length && clients[ci].inUse
      ensures found <==> Joinable(cfg, Abs(), ci, CJoinName(payload))
      ensures found ==> ti < clients.Length && clients[ti].inUse && ti != ci && clients[ti].name != [] &&
                        Has(Abs().byName, CJoinName(payload)) && ti == Get(Abs().byName, CJoinName(payload))
    {
      hide AbsClients, AbsRooms, AbsRoom, Inv, Stripped, Has, Get, CString;
      ghost var s := Abs();
      found, ti := false, 0;
      var name := Stripped(payload);
      NoEmptyName(cfg, s);
      if |name| > 8 {
        return;
      }
      NamesNulFree(cfg, s);
      var at := NameFind(name);
      FoundIsHeld(s.byName, CString(name), at);
      NotOurs(s.byName, CString(name), at, ci);
      if at >= nByName {
        return;
      }
      assert s.byName[at] == byName[at];
      EntryInUse(cfg, s, at, clients[..]);
      ti := byName[at].client;
      InUseIsIn(clients[..], ti);
      LeftRoom(cfg, s, clients[..], rooms[..], ti);
      if ti == ci || clients[ti].name == [] {
        return;
      }
      if clients[ti].room >= 0 {
        MembersAre(rooms[clients[ti].room]);
        if rooms[clients[ti].room].started || rooms[clients[ti].room].nmembers >= cfg.maxSeats {
          return;
        }
      }
      found := true;
    }

    method HandleFrame(ci: nat, t: byte, payload: bytes, seed: word)
      requires Valid() && ci < clients.Length && clients[ci].inUse && |payload| <= 254
      modifies this, clients, rooms, byName
      ensures Valid()
      ensures exists made :: made !in old(Abs()).rooms && Abs() == HandleC(cfg, old(Abs()), ci, t, payload, made, seed)
    {
      hide AbsClients, AbsRooms, Inv, OnRelay, OnHello, OnList, JoinAs, OnGo, Drop, CJoinName;
      ghost var s := Abs();
      InUseIsIn(clients[..], ci);
      FreeRoomId(rooms[..]);
      if RelayType(t) {
        FanOut(ci, t, payload);
      } else if t == T_HELLO {
        OnHelloFrom(ci, payload);
      } else if t == T_LIST {
        OnListOf(ci);
      } else if t == T_JOIN {
        OnJoinFrom(ci, payload, seed);
        return;
      } else if t == T_GO {
        OnGoFrom(ci, seed);
      } else if t == T_PING {
        SendTo(ci, Frame(T_PONG, []));
        PongInv(cfg, s, ci);
      } else {
        DropClient(ci);
      }
      assert Abs() == HandleC(cfg, s, ci, t, payload, MAX_ROOMS, seed);
    }

    /** accept_client: the caps, then the first free slot. */
    method AcceptFrom(ip: nat) returns (ci: nat)
      requires Valid()
      modifies this, clients
      ensures Valid() && ci !in old(Abs()).clients && Abs() == Accept(old(Abs()), ci, ip)
    {
      hide AbsClients, AbsRooms, Inv, FromIp;
      ghost var s := Abs();
      ghost var cs := clients[..];
      ci := MAX_CLIENTS;
      FreeClientId(cs);
      if nClients >= MAX_CLIENTS {
        return;
      }
      var perIp := CountIp(ip);
      if perIp >= MAX_CONNECTIONS_PER_IP {
        return;
      }
      ci := 0;
      while ci < clients.Length && clients[ci].inUse
        invariant ci <= clients.Length && forall j :: 0 <= j < ci ==> clients[j].inUse
      {
        ci := ci + 1;
      }
      if ci == clients.Length {
        AllClientsUsed(clients[..]);
        assert false;   // n_clients was checked
      }
      InUseIsIn(cs, ci);
      AcceptInv(cfg, s, ci, ip);
      PutClient(cs, ci, CClient(true, false, ip, [], -1, []));
      clients[ci] := CClient(true, false, ip, [], -1, []);
      assert clients[..] == cs[ci := clients[ci]];
      assert AbsClients(clients[..]).Keys == s.clients.Keys + {ci};
      assert |AbsClients(clients[..])| == |AbsClients(clients[..]).Keys| && |s.clients| == |s.clients.Keys|;
      nClients := nClients + 1;
    }

    method CountIp(ip: nat) returns (n: nat)
      requires clients.Length == MAX_CLIENTS
      ensures n == |FromIp(AbsClients(clients[..]), ip)|
    {
      n := 0;
      var i := 0;
      ghost var seen: set<nat> := {};
      while i < clients.Length
        invariant i <= clients.Length && n == |seen|
        invariant forall c: nat :: c in seen <==> c < i && clients[c].inUse && clients[c].ip == ip
      {
        if clients[i].inUse && clients[i].ip == ip {
          n := n + 1;
          seen := seen + {i};
        }
        i := i + 1;
      }
      assert seen == FromIp(AbsClients(clients[..]), ip);
    }
  }

  /** The C port's handle: the Python server's, but for the name a JOIN looks up. */
  function HandleC(cfg: Cfg, s: State, c: nat, t: byte, payload: bytes, made: nat, seed: word): State
    requires c in s.clients && |payload| <= 254
  {
    if t == T_JOIN then JoinAs(cfg, s, c, CJoinName(payload), made, seed) else Handle(cfg, s, c, t, payload, made, seed)
  }

  // ---- where the two servers differ --------------------------------------------------------------------

  /** A JOIN by a named solo client whose name field, stripped, has a NUL in it and starts with the
      name of somebody it could join. */
  predicate CutShort(cfg: Cfg, s: State, c: nat, payload: bytes) {
    && c in s.clients && s.clients[c].name != [] && s.clients[c].room.None?
    && var raw := Stripped(payload);
       |raw| <= 8 && 0 in raw && Joinable(cfg, s, c, CString(raw))
  }

  /** strcmp stops at the first NUL and the Python dictionary does not: on such a JOIN, and on no
      other frame, the two servers act differently. */
  lemma ServersAgree(cfg: Cfg, s: State, c: nat, t: byte, payload: bytes, made: nat, seed: word)
    requires Inv(cfg, s) && c in s.clients && |payload| <= 254 && made !in s.rooms
    ensures HandleC(cfg, s, c, t, payload, made, seed) == Handle(cfg, s, c, t, payload, made, seed)
            <==> !(t == T_JOIN && CutShort(cfg, s, c, payload))
  {
    hide Inv, Stripped, Drop, OnList, OnHello, OnGo, OnRelay, Joinable, Broadcast, StartRoom, Get, Enter;
    if t == T_JOIN && s.clients[c].name != [] && s.clients[c].room.None? {
      var raw := Stripped(payload);
      CStringWhole(raw);
      NotJoinable(cfg, s, c, raw);
      if CutShort(cfg, s, c, payload) {
        JoinSeats(cfg, s, c, CString(raw), made, seed);
        Listed(cfg, s, c);
      }
    }
  }

  lemma NotJoinable(cfg: Cfg, s: State, c: nat, raw: bytes)
    requires Inv(cfg, s)
    ensures 0 in raw || |raw| > 8 || raw == [] ==> !Joinable(cfg, s, c, raw)
    ensures !Joinable(cfg, s, c, [])
  {
    hide RoomsOK, LinksOK, CountOK;
    forall name: bytes | 0 in name || |name| > 8 || name == [] ensures !Has(s.byName, name) {
      assert forall e :: e in s.byName ==> e.name != name;
    }
  }

  /** A JOIN that is accepted leaves its sender in a room, one that is not leaves it where it was. */
  lemma JoinSeats(cfg: Cfg, s: State, c: nat, name: bytes, made: nat, seed: word)
    requires Inv(cfg, s) && c in s.clients && s.clients[c].name != [] && s.clients[c].room.None?
    requires Joinable(cfg, s, c, name) && made !in s.rooms
    ensures c in JoinAs(cfg, s, c, name, made, seed).clients && JoinAs(cfg, s, c, name, made, seed).clients[c].room.Some?
  {
    hide Inv, RoomFrame, StartCommon, StartFrame, Has, Get;
  }

  // ---- over whole runs ---------------------------------------------------------------------------------

  /** The C port's step.  The Python server's clients and rooms are anonymous objects, numbered here as
      one likes as long as no two live ones share a number; so the C port's slots can number them. */
  function StepC(cfg: Cfg, s: State, e: Event): State
    requires Possible(s, e)
  {
    match e
    case Accepted(c, ip) => Accept(s, c, ip)
    case Framed(c, t, payload, made, seed) => HandleC(cfg, s, c, t, payload, made, seed)
    case Gone(c) => Drop(s, c)
  }

  function ExecC(cfg: Cfg, s: State, events: seq<Event>): State
    decreases |events|
  {
    if events == [] then s else
    var s1 := ExecC(cfg, s, events[..|events| - 1]);
    var e := events[|events| - 1];
    if Possible(s1, e) then StepC(cfg, s1, e) else s1
  }

  /** The event is a JOIN that the C port cuts short. */
  predicate Cut(cfg: Cfg, s: State, e: Event) {
    Possible(s, e) && e.Framed? && e.t == T_JOIN && CutShort(cfg, s, e.c, e.payload)
  }

  /** After every event both servers have the same clients, names, rooms and frames queued. */
  ghost predicate AlikeThroughout(cfg: Cfg, events: seq<Event>) {
    forall i {:trigger events[..i]} :: 0 <= i <= |events| ==> ExecC(cfg, EMPTY, events[..i]) == Exec(cfg, EMPTY, events[..i])
  }

  ghost predicate NoneCut(cfg: Cfg, events: seq<Event>) {
    forall i {:trigger events[..i]} :: 0 <= i < |events| ==> !Cut(cfg, Exec(cfg, EMPTY, events[..i]), events[i])
  }

  lemma LastStep(cfg: Cfg, events: seq<Event>)
    requires 2 <= cfg.maxSeats <= ROSTER_SLOTS && events != []
    requires var before := events[..|events| - 1]; ExecC(cfg, EMPTY, before) == Exec(cfg, EMPTY, before)
    ensures ExecC(cfg, EMPTY, events) == Exec(cfg, EMPTY, events)
            <==> !Cut(cfg, Exec(cfg, EMPTY, events[..|events| - 1]), events[|events| - 1])
  {
    hide Handle, HandleC, CutShort, Accept, Drop, Inv;
    var before, e := events[..|events| - 1], events[|events| - 1];
    var s := Exec(cfg, EMPTY, before);
    RunsInv(cfg, before);
    if Possible(s, e) && e.Framed? {
      ServersAgree(cfg, s, e.c, e.t, e.payload, e.made, e.seed);
    }
  }

  lemma Prefixes(cfg: Cfg, events: seq<Event>)
    requires events != []
    ensures var before := events[..|events| - 1];
            && (AlikeThroughout(cfg, events) <==>
                  AlikeThroughout(cfg, before) && ExecC(cfg, EMPTY, events) == Exec(cfg, EMPTY, events))
            && (NoneCut(cfg, events) <==>
                  NoneCut(cfg, before) && !Cut(cfg, Exec(cfg, EMPTY, before), events[|events| - 1]))
            && (AlikeThroughout(cfg, before) ==> ExecC(cfg, EMPTY, before) == Exec(cfg, EMPTY, before))
  {
    hide Exec, ExecC, Cut;
    var n, before := |events| - 1, events[..|events| - 1];
    assert events[..|events|] == events && before[..n] == before;
    assert forall i {:trigger events[..i]} {:trigger before[..i]} :: 0 <= i <= n ==> events[..i] == before[..i];
    assert forall i :: 0 <= i < n ==> events[i] == before[i];
    if AlikeThroughout(cfg, before) && ExecC(cfg, EMPTY, events) == Exec(cfg, EMPTY, events) {
      forall i {:trigger events[..i]} | 0 <= i <= |events| ensures ExecC(cfg, EMPTY, events[..i]) == Exec(cfg, EMPTY, events[..i]) {
        if i <= n { assert events[..i] == before[..i]; }
      }
    }
    if AlikeThroughout(cfg, events) {
      forall i {:trigger before[..i]} | 0 <= i <= n ensures ExecC(cfg, EMPTY, before[..i]) == Exec(cfg, EMPTY, before[..i]) {
        assert events[..i] == before[..i];
      }
    }
    if NoneCut(cfg, events) {
      forall i {:trigger before[..i]} | 0 <= i < n ensures !Cut(cfg, Exec(cfg, EMPTY, before[..i]), before[i]) {
        assert events[..i] == before[..i];
      }
    }
    if NoneCut(cfg, before) && !Cut(cfg, Exec(cfg, EMPTY, before), events[n]) {
      forall i {:trigger events[..i]} | 0 <= i < |events| ensures !Cut(cfg, Exec(cfg, EMPTY, events[..i]), events[i]) {
        if i < n { assert events[..i] == before[..i] && events[i] == before[i]; }
      }
    }
  }

  /** Over a whole run the two servers are alike after every event, every lobby list included, exactly
      when no JOIN of the run is one that the C port cuts short. */
  lemma {:induction false} RunsAgree(cfg: Cfg, events: seq<Event>)
    requires 2 <= cfg.maxSeats <= ROSTER_SLOTS
    ensures AlikeThroughout(cfg, events) <==> NoneCut(cfg, events)
    decreases |events|
  {
    hide Exec, ExecC, Cut, AlikeThroughout, NoneCut;
    if events == [] {
      NoEvents(cfg);
    } else {
      var before := events[..|events| - 1];
      RunsAgree(cfg, before);
      Prefixes(cfg, events);
      if AlikeThroughout(cfg, before) { LastStep(cfg, events); }
    }
  }

  lemma NoEvents(cfg: Cfg)
    ensures AlikeThroughout(cfg, []) && NoneCut(cfg, [])
  {
    var none: seq<Event> := [];
    assert none[..0] == [];
  }

  /** HELLO with a name nobody has. */
  lemma NewName(cfg: Cfg, s: State, c: nat, name: bytes)
    requires c in s.clients && s.clients[c].name == [] && ValidName(name) && !Has(s.byName, name)
    ensures var s' := OnHello(cfg, s, c, [PROTO_VER] + name);
            && s'.clients.Keys == s.clients.Keys && s'.byName == s.byName + [Entry(name, c)] && s'.rooms == s.rooms
            && forall x :: x in s.clients ==>
                 s'.clients[x].room == s.clients[x].room && s'.clients[x].name == if x == c then name else s.clients[x].name
  {
    hide LobbyFrame;
    assert ([PROTO_VER] + name)[1..] == name;
    assert Stripped(name) == name by { assert NameByte(name[|name| - 1] as int); }
  }

  /** AB connects and says HELLO, then CD does. */
  function Hello(c: nat, name: bytes): seq<Event>
    requires |name| <= 8
  {
    [Accepted(c, c), Framed(c, T_HELLO, [PROTO_VER] + name, 0, 0)]
  }

  const AB: bytes := [0x41, 0x42]
  const CD: bytes := [0x43, 0x44]

  function TwoHellos(): seq<Event> { Hello(0, AB) + Hello(1, CD) }

  lemma OneEvent(cfg: Cfg, events: seq<Event>, e: Event)
    ensures Exec(cfg, EMPTY, events + [e]) == var s := Exec(cfg, EMPTY, events); if Possible(s, e) then Step(cfg, s, e) else s
  {
  }

  /** A connection to an almost empty server with no rooms, and its HELLO. */
  lemma HelloNames(cfg: Cfg, events: seq<Event>, c: nat, name: bytes)
    requires ValidName(name)
    requires var s := Exec(cfg, EMPTY, events); c !in s.clients && |s.clients| <= 1 && s.rooms == map[] && !Has(s.byName, name)
    ensures var s, s' := Exec(cfg, EMPTY, events), Exec(cfg, EMPTY, events + Hello(c, name));
            && s'.clients.Keys == s.clients.Keys + {c} && s'.byName == s.byName + [Entry(name, c)] && s'.rooms == map[]
            && s'.clients[c].name == name && s'.clients[c].room.None?
            && forall x :: x in s.clients ==> s'.clients[x].name == s.clients[x].name && s'.clients[x].room == s.clients[x].room
  {
    hide Exec, OnHello, Has;
    var s, mid := Exec(cfg, EMPTY, events), events + [Accepted(c, c)];
    assert |s.clients| == |s.clients.Keys|;
    Smaller(FromIp(s.clients, c), s.clients.Keys);
    OneEvent(cfg, events, Accepted(c, c));
    var s1 := Accept(s, c, c);
    assert s1.clients == s.clients[c := Client(c, [], None, [])];
    NewName(cfg, s1, c, name);
    OneEvent(cfg, mid, Hello(c, name)[1]);
    assert events + Hello(c, name) == mid + [Hello(c, name)[1]];
  }

  lemma TwoNamed(cfg: Cfg)
    ensures var s := Exec(cfg, EMPTY, TwoHellos());
            && s.byName == [Entry(AB, 0), Entry(CD, 1)] && s.clients.Keys == {0, 1} && s.rooms == map[]
            && s.clients[0].name == AB && s.clients[0].room.None? && s.clients[1].name == CD && s.clients[1].room.None?
  {
    hide Step, Accept;
    assert Exec(cfg, EMPTY, []) == EMPTY && [] + Hello(0, AB) == Hello(0, AB);
    HelloNames(cfg, [], 0, AB);
    var clients := Exec(cfg, EMPTY, Hello(0, AB)).clients;
    assert |clients| == |clients.Keys|;
    HelloNames(cfg, Hello(0, AB), 1, CD);
  }

  /** It does happen: from the empty server, AB and CD say HELLO, and CD asks to join "AB" NUL "X". */
  lemma CutShortHappens(cfg: Cfg)
    ensures CutShort(cfg, Exec(cfg, EMPTY, TwoHellos()), 1, [0x41, 0x42, 0, 0x58])
  {
    hide Exec, TwoHellos;
    TwoNamed(cfg);
    var payload: bytes := [0x41, 0x42, 0, 0x58];
    assert Stripped(payload) == payload;
    assert payload[2] == 0;
    assert CString(payload) == [0x41, 0x42] by {
      assert payload[1..][1..] == payload[2..];
      assert CString(payload[2..]) == [];
      assert CString(payload[1..]) == [0x42];
    }
    assert Find(Exec(cfg, EMPTY, TwoHellos()).byName, [0x41, 0x42]) == 0;
  }
}
