/** The relay: names, rooms and seats, the frames it originates and the frames it fans out.

    One event is one accepted connection, one reassembled frame or one dropped connection.  A
    client is in the state from its connection to its drop; `tx` is everything ever queued to it.
    A lookup that the code never makes on an absent client or room has a default here, so that
    every function is total; RelayInv shows that no reachable state needs the defaults. */
module Relay {
  import opened Cells
  import opened Stream
  import opened Names

  const T_HELLO: byte := 0x01
  const T_LIST: byte := 0x02
  const T_LOBBY: byte := 0x03
  const T_JOIN: byte := 0x04
  const T_START: byte := 0x05
  const T_INPUT: byte := 0x06
  const T_CRC: byte := 0x07
  const T_STATE: byte := 0x08
  const T_RESYNC: byte := 0x09
  const T_BYE: byte := 0x0A
  const T_PEER_LEFT: byte := 0x0B
  const T_PING: byte := 0x0C
  const T_PONG: byte := 0x0D
  const T_ROOM: byte := 0x0E
  const T_GO: byte := 0x0F

  const PROTO_VER := 2
  const ROSTER_SLOTS := 4
  const LOBBY_ENTRIES := 8
  const MAX_CLIENTS := 64
  const MAX_CONNECTIONS_PER_IP := 8

  datatype Option<T> = None | Some(value: T)

  /** name is empty until HELLO. */
  datatype Client = Client(ip: nat, name: bytes, room: Option<nat>, tx: seq<bytes>)

  /** Join order is seat order; members[0] is the host. */
  datatype Room = Room(members: seq<nat>, started: bool, seed: word)

  /** The options of a server; autoGo 0 is off. */
  datatype Cfg = Cfg(delay: byte, maxSeats: nat, autoGo: nat)

  datatype State = State(clients: map<nat, Client>, byName: Dict, rooms: map<nat, Room>)

  predicate RelayType(t: byte) {
    t == T_INPUT || t == T_CRC || t == T_STATE || t == T_RESYNC
  }

  // ---- frames --------------------------------------------------------------------------------

  function Frame(t: byte, payload: bytes): (f: bytes)
    requires |payload| <= 254
    ensures |f| == |payload| + 2 && f[0] as int == |f| - 1 && f[1] == t && f[2..] == payload
  {
    [(|payload| + 1) as byte, t] + payload
  }

  function Zeros(n: nat): (r: bytes)
    ensures |r| == n && forall i :: 0 <= i < n ==> r[i] == 0
  {
    seq(n, i requires 0 <= i < n => 0)
  }

  function NameOf(s: State, c: nat): bytes {
    if c in s.clients then s.clients[c].name else []
  }

  /** The names in the given order, 8 bytes each. */
  function Pads(s: State, members: seq<nat>): (r: bytes)
    ensures |r| == 8 * |members|
    decreases |members|
  {
    if members == [] then [] else
    Pads(s, members[..|members| - 1]) + PadName(NameOf(s, members[|members| - 1]))
  }

  function Roster(s: State, members: seq<nat>): (r: bytes)
    ensures |members| <= ROSTER_SLOTS ==> |r| == 8 * ROSTER_SLOTS
  {
    Pads(s, members) + if |members| <= ROSTER_SLOTS then Zeros(8 * (ROSTER_SLOTS - |members|)) else []
  }

  function Low(n: nat): byte { n % 256 }

  function RoomFrame(s: State, members: seq<nat>): bytes {
    var payload := [Low(|members|)] + Roster(s, members);
    if |payload| <= 254 then Frame(T_ROOM, payload) else []
  }

  function GoneFrame(): bytes {
    Frame(T_ROOM, [0] + Zeros(32))
  }

  function LeftFrame(seat: nat, name: bytes): bytes {
    Frame(T_PEER_LEFT, [Low(seat)] + PadName(name))
  }

  /** The part of START that is the same for every seat. */
  function StartCommon(cfg: Cfg, s: State, members: seq<nat>, seed: word): bytes {
    [Low(|members|), seed % 256, seed / 256, cfg.delay] + Roster(s, members)
  }

  function StartFrame(seat: nat, common: bytes): bytes {
    if |common| <= 253 then Frame(T_START, [Low(seat)] + common) else []
  }

  /** LOBBY status: member count, and bit 7 when it cannot be joined. */
  function Status(cfg: Cfg, s: State, c: nat): byte {
    if c !in s.clients || s.clients[c].room.None? || s.clients[c].room.value !in s.rooms then 1 else
    var room := s.rooms[s.clients[c].room.value];
    Low(|room.members| + if room.started || |room.members| >= cfg.maxSeats then 0x80 else 0)
  }

  /** The named clients other than c, in dictionary order. */
  function Others(s: State, d: Dict, c: nat): Dict
    decreases |d|
  {
    if d == [] then [] else
    var last := d[|d| - 1];
    var r := Others(s, d[..|d| - 1], c);
    if last.client == c || NameOf(s, last.client) == [] then r else r + [last]
  }

  function FirstEight(d: Dict): (r: Dict)
    ensures r <= d && |r| <= LOBBY_ENTRIES
  {
    if |d| <= LOBBY_ENTRIES then d else d[..LOBBY_ENTRIES]
  }

  function LobbyEntries(cfg: Cfg, s: State, d: Dict): (r: bytes)
    ensures |r| == 9 * |d|
    decreases |d|
  {
    if d == [] then [] else
    var last := d[|d| - 1];
    LobbyEntries(cfg, s, d[..|d| - 1]) + PadName(NameOf(s, last.client)) + [Status(cfg, s, last.client)]
  }

  function LobbyFrame(cfg: Cfg, s: State, c: nat): bytes {
    var others := FirstEight(Others(s, s.byName, c));
    Frame(T_LOBBY, [Low(|others|)] + LobbyEntries(cfg, s, others))
  }

  // ---- sending -------------------------------------------------------------------------------

  /** Queue one frame to each client named in out; a client no longer connected gets nothing. */
  function Post(clients: map<nat, Client>, out: map<nat, bytes>): map<nat, Client> {
    map c | c in clients :: if c in out then clients[c].(tx := clients[c].tx + [out[c]]) else clients[c]
  }

  function ToAll(members: seq<nat>, f: bytes): map<nat, bytes> {
    map m | m in members :: f
  }

  function Tell(s: State, members: seq<nat>, f: bytes): State {
    s.(clients := Post(s.clients, ToAll(members, f)))
  }

  function Broadcast(s: State, r: nat): State
    requires r in s.rooms
  {
    Tell(s, s.rooms[r].members, RoomFrame(s, s.rooms[r].members))
  }

  function OnList(cfg: Cfg, s: State, c: nat): State {
    Tell(s, [c], LobbyFrame(cfg, s, c))
  }

  // ---- leaving -------------------------------------------------------------------------------

  function IndexOf(members: seq<nat>, c: nat): (i: nat)
    ensures i <= |members| && (i < |members| ==> members[i] == c)
    ensures forall j :: 0 <= j < i ==> members[j] != c
  {
    if members == [] || members[0] == c then 0 else 1 + IndexOf(members[1..], c)
  }

  function AllBut(members: seq<nat>, c: nat): seq<nat> {
    var i := IndexOf(members, c);
    if i < |members| then members[..i] + members[i + 1..] else members
  }

  function Unroom(clients: map<nat, Client>, members: seq<nat>): map<nat, Client> {
    map c | c in clients :: if c in members then clients[c].(room := None) else clients[c]
  }

  /** Every member goes back to solo; the room is gone. */
  function Dissolve(s: State, r: nat, members: seq<nat>): State {
    s.(clients := Unroom(s.clients, members), rooms := s.rooms - {r})
  }

  function Drop(s: State, c: nat): State
    requires c in s.clients
  {
    var cl := s.clients[c];
    var s1 := s.(clients := s.clients - {c}, byName := Without(s.byName, c));
    if cl.room.None? || cl.room.value !in s.rooms then s1 else
    var r := cl.room.value;
    var room := s.rooms[r];
    var seat, rest := IndexOf(room.members, c), AllBut(room.members, c);
    if room.started then Tell(Dissolve(s1, r, rest), rest, LeftFrame(seat, cl.name))
    else if seat == 0 || |rest| < 2 then Tell(Dissolve(s1, r, rest), rest, GoneFrame())
    else Broadcast(s1.(rooms := s1.rooms[r := room.(members := rest)]), r)
  }

  // ---- matchmaking ---------------------------------------------------------------------------

  /** Client c takes a name that nobody else holds, and gives up the one it had. */
  function Registered(s: State, c: nat, name: bytes): State
    requires c in s.clients
  {
    var was := s.clients[c].name;
    var names := if was != [] && was != name && Has(s.byName, was) && Get(s.byName, was) == c
                 then Del(s.byName, was) else s.byName;
    s.(clients := s.clients[c := s.clients[c].(name := name)], byName := Set(names, name, c))
  }

  function OnHello(cfg: Cfg, s: State, c: nat, payload: bytes): State
    requires c in s.clients
  {
    if |payload| < 3 || payload[0] != PROTO_VER then Drop(s, c) else
    var name := Stripped(payload[1..]);
    if !ValidName(name) then Drop(s, c) else
    var s1 := if Has(s.byName, name) && Get(s.byName, name) != c && Get(s.byName, name) in s.clients
              then Drop(s, Get(s.byName, name)) else s;
    if c !in s1.clients then s1 else OnList(cfg, Registered(s1, c, name), c)
  }

  function StartMap(members: seq<nat>, common: bytes): map<nat, bytes> {
    map m | m in members :: StartFrame(IndexOf(members, m), common)
  }

  function StartRoom(cfg: Cfg, s: State, r: nat, seed: word): State
    requires r in s.rooms
  {
    var room := s.rooms[r];
    s.(rooms := s.rooms[r := room.(started := true, seed := seed)],
       clients := Post(s.clients, StartMap(room.members, StartCommon(cfg, s, room.members, seed))))
  }

  /** The client a JOIN asks for can be joined by c. */
  predicate Joinable(cfg: Cfg, s: State, c: nat, name: bytes) {
    && Has(s.byName, name)
    && var t := Get(s.byName, name);
       && t != c && t in s.clients && s.clients[t].name != []
       && (s.clients[t].room.None?
           || (s.clients[t].room.value in s.rooms
               && var room := s.rooms[s.clients[t].room.value];
                  !room.started && |room.members| < cfg.maxSeats))
  }

  /** Adding c to room r, created around target when r is new. */
  function Enter(s: State, c: nat, target: nat, r: nat): State
    requires c in s.clients && target in s.clients
  {
    var room := if r in s.rooms then s.rooms[r] else Room([target], false, 0);
    var clients := s.clients[target := s.clients[target].(room := Some(r))];
    s.(rooms := s.rooms[r := room.(members := room.members + [c])],
       clients := clients[c := clients[c].(room := Some(r))])
  }

  /** A JOIN that asks for `name`; `made` is the room made for a solo target, `seed` the match's
      when it starts at once. */
  function JoinAs(cfg: Cfg, s: State, c: nat, name: bytes, made: nat, seed: word): State
    requires c in s.clients
  {
    if s.clients[c].name == [] then Drop(s, c)
    else if s.clients[c].room.Some? then s
    else if !Joinable(cfg, s, c, name) then OnList(cfg, s, c)
    else
      var t := Get(s.byName, name);
      var r := if s.clients[t].room.Some? then s.clients[t].room.value else made;
      var s1 := Broadcast(Enter(s, c, t, r), r);
      if cfg.autoGo != 0 && |s1.rooms[r].members| >= cfg.autoGo then StartRoom(cfg, s1, r, seed) else s1
  }

  function OnJoin(cfg: Cfg, s: State, c: nat, payload: bytes, made: nat, seed: word): State
    requires c in s.clients
  {
    JoinAs(cfg, s, c, Stripped(payload), made, seed)
  }

  function OnGo(cfg: Cfg, s: State, c: nat, seed: word): State
    requires c in s.clients
  {
    if s.clients[c].room.None? || s.clients[c].room.value !in s.rooms then s else
    var r := s.clients[c].room.value;
    var room := s.rooms[r];
    if room.started || IndexOf(room.members, c) != 0 || |room.members| < 2 || |room.members| > cfg.maxSeats then s
    else StartRoom(cfg, s, r, seed)
  }

  /** A console's match frame goes verbatim to the other members of its started room. */
  function OnRelay(s: State, c: nat, t: byte, payload: bytes): State
    requires c in s.clients && |payload| <= 254
  {
    if s.clients[c].room.None? || s.clients[c].room.value !in s.rooms then s else
    var room := s.rooms[s.clients[c].room.value];
    if !room.started then s else Tell(s, AllBut(room.members, c), Frame(t, payload))
  }

  function Handle(cfg: Cfg, s: State, c: nat, t: byte, payload: bytes, made: nat, seed: word): State
    requires c in s.clients && |payload| <= 254
  {
    if RelayType(t) then OnRelay(s, c, t, payload)
    else if t == T_HELLO then OnHello(cfg, s, c, payload)
    else if t == T_LIST then OnList(cfg, s, c)
    else if t == T_JOIN then OnJoin(cfg, s, c, payload, made, seed)
    else if t == T_GO then OnGo(cfg, s, c, seed)
    else if t == T_PING then Tell(s, [c], Frame(T_PONG, []))
    else Drop(s, c)
  }

  // ---- runs ----------------------------------------------------------------------------------

  /** Accepted: a connection from ip, known as client c; Framed: one frame from c; Gone: c is
      dropped (closed, timed out, a failed send, a bad length byte). */
  datatype Event =
    | Accepted(c: nat, ip: nat)
    | Framed(c: nat, t: byte, payload: bytes, made: nat, seed: word)
    | Gone(c: nat)

  function FromIp(clients: map<nat, Client>, ip: nat): set<nat> {
    set c | c in clients && clients[c].ip == ip
  }

  function Accept(s: State, c: nat, ip: nat): State {
    if |s.clients| >= MAX_CLIENTS || |FromIp(s.clients, ip)| >= MAX_CONNECTIONS_PER_IP then s
    else s.(clients := s.clients[c := Client(ip, [], None, [])])
  }

  /** Identities of connected clients and rooms are not reused while they live. */
  predicate Possible(s: State, e: Event) {
    match e
    case Accepted(c, _) => c !in s.clients
    case Framed(c, _, payload, made, _) => c in s.clients && |payload| < 200 && made !in s.rooms
    case Gone(c) => c in s.clients
  }

  function Step(cfg: Cfg, s: State, e: Event): State
    requires Possible(s, e)
  {
    match e
    case Accepted(c, ip) => Accept(s, c, ip)
    case Framed(c, t, payload, made, seed) => Handle(cfg, s, c, t, payload, made, seed)
    case Gone(c) => Drop(s, c)
  }

  const EMPTY := State(map[], [], map[])

  /** The state after a sequence of events; impossible ones do nothing. */
  function Exec(cfg: Cfg, s: State, events: seq<Event>): State
    decreases |events|
  {
    if events == [] then s else
    var s1 := Exec(cfg, s, events[..|events| - 1]);
    var e := events[|events| - 1];
    if Possible(s1, e) then Step(cfg, s1, e) else s1
  }
}
