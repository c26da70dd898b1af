/** log_crc as the two servers run it: on a dictionary, and on 65 rows of 8 slots changed in place.
    Both compute CrcTable.Take, and the C port's two give-up branches are dead code. */
module CrcRooms {
  import opened Cells
  import opened KeyedSlots
  import opened CrcTable

  /** Take, once its entry and its rows after eviction are known. */
  lemma TakeParts(log: Log, count: nat, r: Report, entry: Entry, rows: Rows)
    requires TicksFit(log.rows) && entry == Row(log.rows, r.tick)[r.seat := r.crc] && rows == Evict(log.rows[r.tick := entry])
    ensures Take(log, count, r) ==
            if |entry| < count then (Log(rows, log.ok), Pending)
            else if AllSame(entry) then (Log(rows - {r.tick}, log.ok + 1), Agreed(r.tick))
            else (Log(rows - {r.tick}, log.ok), Mismatch(r.tick, entry))
  {
  }

  // ---- the Python server -----------------------------------------------------------------------------

  lemma SameValues(entry: Entry)
    requires |entry| >= 1
    ensures |entry.Values| == 1 <==> AllSame(entry)
  {
    var k :| k in entry;
    assert entry[k] in entry.Values;
    if AllSame(entry) {
      assert entry.Values == {entry[k]};
    }
    if |entry.Values| == 1 {
      forall a, b | a in entry && b in entry ensures entry[a] == entry[b] {
        assert entry[a] in entry.Values && entry[b] in entry.Values;
        Singleton(entry.Values, entry[a], entry[b]);
      }
    }
  }

  lemma Singleton(s: set<word>, a: word, b: word)
    requires |s| == 1 && a in s && b in s
    ensures a == b
  {
    assert |s - {a}| == 0;
  }

  class PyRoom {
    const count: nat
    var crc: Rows
    var crcOk: nat

    constructor (count: nat)
      ensures this.count == count && crc == map[] && crcOk == 0
    {
      this.count := count;
      crc, crcOk := map[], 0;
    }

    /** if len(crc) > 64: crc.pop(min(crc)). */
    method EvictLowest()
      requires TicksFit(crc)
      modifies this`crc
      ensures crc == Evict(old(crc))
    {
      if |crc| > CRC_TICKS {
        SomeTick(crc);
        crc := crc - {Lowest(crc, 0)};
      }
    }

    /** entry = crc.setdefault(tick, {}); entry[seat] = crc. */
    method Record(r: Report) returns (entry: Entry)
      requires TicksFit(crc)
      modifies this`crc
      ensures entry == Row(old(crc), r.tick)[r.seat := r.crc] && |entry| >= 1
      ensures crc == old(crc)[r.tick := entry] && TicksFit(crc)
    {
      var tick: nat, seat: nat := r.tick, r.seat;
      entry := if tick in crc then crc[tick] else map[];
      EntrySize(entry, seat, r.crc);
      entry := entry[seat := r.crc];
      crc := crc[tick := entry];
    }

    method LogCrc(r: Report) returns (v: Verdict)
      requires TicksFit(crc) && count >= 1
      modifies this
      ensures (Log(crc, crcOk), v) == Take(Log(old(crc), old(crcOk)), count, r)
    {
      hide AllSame, Evict, Take, Row, TicksFit;
      ghost var log := Log(crc, crcOk);
      var entry := Record(r);
      EvictLowest();
      TakeParts(log, count, r, entry, crc);
      if |entry| < count {
        return Pending;
      }
      SameValues(entry);
      crc := crc - {r.tick as nat};
      if |entry.Values| != 1 {
        v := Mismatch(r.tick, entry);
      } else {
        crcOk := crcOk + 1;
        v := Agreed(r.tick);
      }
    }
  }

  // ---- the C port: one row -----------------------------------------------------------------------------

  datatype Seats = Seats(nseats: nat, s: seq<Slot<word>>)

  ghost predicate SeatsOK(b: Seats) {
    |b.s| == CRC_SEATS && Unique(b.s) && b.nseats == Count(b.s)
  }

  lemma SeatsSize(b: Seats)
    requires SeatsOK(b)
    ensures |Table(b.s)| == b.nseats
  {
    TableSize(b.s);
  }

  const FREE_SEAT: Slot<word> := Slot(false, 0, 0)

  /** A row after memset. */
  function NoSeats(): (b: Seats)
    ensures SeatsOK(b) && Table(b.s) == map[]
  {
    var s := [FREE_SEAT, FREE_SEAT, FREE_SEAT, FREE_SEAT, FREE_SEAT, FREE_SEAT, FREE_SEAT, FREE_SEAT];
    NothingUsed(s);
    Seats(0, s)
  }

  lemma {:induction false} NothingUsed<V>(s: seq<Slot<V>>)
    requires forall i :: 0 <= i < |s| ==> !s[i].inUse
    ensures Table(s) == map[] && Count(s) == 0
    decreases |s|
  {
    if s != [] { NothingUsed(s[..|s| - 1]); }
  }

  /** Insert or replace one seat's checksum; with fewer than 8 seats in use there is room. */
  method PutSeat(b: Seats, seat: byte, crc: word) returns (b': Seats)
    requires SeatsOK(b) && b.nseats < CRC_SEATS
    ensures SeatsOK(b') && Table(b'.s) == Table(b.s)[seat as nat := crc]
  {
    TableKeys(b.s);
    var i, key: nat := 0, seat;
    while i < CRC_SEATS && !(b.s[i].inUse && b.s[i].key == key)
      invariant 0 <= i <= CRC_SEATS
      invariant forall j: nat :: j < i ==> !Holds(b.s, j, key)
    {
      i := i + 1;
    }
    if i == CRC_SEATS {
      i := 0;
      while i < CRC_SEATS && b.s[i].inUse
        invariant 0 <= i <= CRC_SEATS
        invariant forall j :: 0 <= j < i ==> b.s[j].inUse
      {
        i := i + 1;
      }
      if i == CRC_SEATS {
        assert false;   // no free seat
      }
      assert forall j: nat :: !Holds(b.s, j, key);
    }
    TableSet(b.s, i, key, crc);
    CountOne(b.s, i, Slot(true, key, crc));
    b' := Seats(if b.s[i].inUse then b.nseats else b.nseats + 1, b.s[i := Slot(true, key, crc)]);
  }

  /** Do all used slots hold one value? */
  method Agreement(b: Seats) returns (agree: bool)
    requires SeatsOK(b)
    ensures agree <==> AllSame(Table(b.s))
  {
    var nvals, first := 0, 0;
    agree := true;
    var i := 0;
    ghost var at := 0;
    while i < CRC_SEATS
      invariant 0 <= i <= CRC_SEATS
      invariant nvals == 0 ==> agree && forall j :: 0 <= j < i ==> !b.s[j].inUse
      invariant nvals > 0 ==> 0 <= at < i && b.s[at].inUse && b.s[at].val as int == first
      invariant nvals > 0 ==> (agree <==> forall j :: 0 <= j < i && b.s[j].inUse ==> b.s[j].val as int == first)
    {
      if b.s[i].inUse {
        if nvals == 0 {
          first := b.s[i].val as int;
          at := i;
        } else if b.s[i].val as int != first {
          agree := false;
        }
        nvals := nvals + 1;
      }
      i := i + 1;
    }
    AgreementMeans(b.s);
  }

  lemma AgreementMeans(s: seq<Slot<word>>)
    requires Unique(s)
    ensures AllSame(Table(s)) <==> forall i, j :: 0 <= i < |s| && 0 <= j < |s| && s[i].inUse && s[j].inUse ==> s[i].val == s[j].val
  {
    TableKeys(s);
    if AllSame(Table(s)) {
      forall i, j | 0 <= i < |s| && 0 <= j < |s| && s[i].inUse && s[j].inUse ensures s[i].val == s[j].val {
        TableAt(s, i, s[i].key);
        TableAt(s, j, s[j].key);
      }
    }
    if forall i, j :: 0 <= i < |s| && 0 <= j < |s| && s[i].inUse && s[j].inUse ==> s[i].val == s[j].val {
      forall a, b | a in Table(s) && b in Table(s) ensures Table(s)[a] == Table(s)[b] {
        var i: nat :| Holds(s, i, a);
        var j: nat :| Holds(s, j, b);
        TableAt(s, i, a);
        TableAt(s, j, b);
      }
    }
  }

  /** The seats and checksums of a mismatch line. */
  method Listed(b: Seats) returns (entry: Entry)
    requires SeatsOK(b)
    ensures entry == Table(b.s)
  {
    entry := map[];
    var i := 0;
    while i < CRC_SEATS
      invariant 0 <= i <= CRC_SEATS && entry == Table(b.s[..i])
    {
      assert b.s[..i + 1][..i] == b.s[..i];
      if b.s[i].inUse {
        entry := entry[b.s[i].key := b.s[i].val];
      }
      i := i + 1;
    }
    assert b.s[..i] == b.s;
  }

  // ---- the C port: the table ------------------------------------------------------------------------------

  function Entries(t: map<nat, Seats>): Rows {
    map k | k in t :: Table(t[k].s)
  }

  ghost predicate TableOK(rows: seq<Slot<Seats>>, ncrc: nat) {
    && |rows| == CRC_TICKS + 1 && Unique(rows) && ncrc == Count(rows)
    && forall i :: 0 <= i < |rows| && rows[i].inUse ==> SeatsOK(rows[i].val) && rows[i].key < 0x10000
  }

  function Abs(rows: seq<Slot<Seats>>): Rows {
    Entries(Table(rows))
  }

  lemma AbsAt(rows: seq<Slot<Seats>>, i: nat)
    requires Unique(rows) && i < |rows| && rows[i].inUse
    ensures rows[i].key in Abs(rows) && Abs(rows)[rows[i].key] == Table(rows[i].val.s)
  {
    TableAt(rows, i, rows[i].key);
  }

  lemma AbsSize(rows: seq<Slot<Seats>>, ncrc: nat)
    requires TableOK(rows, ncrc)
    ensures |Abs(rows)| == ncrc && TicksFit(Abs(rows))
  {
    TableSize(rows);
    assert Abs(rows).Keys == Table(rows).Keys;
    assert |Abs(rows)| == |Abs(rows).Keys| && |Table(rows)| == |Table(rows).Keys|;
    TableKeys(rows);
  }

  lemma AbsSet(rows: seq<Slot<Seats>>, i: nat, tick: nat, b: Seats)
    requires Unique(rows) && i < |rows|
    requires if rows[i].inUse then rows[i].key == tick else tick !in Abs(rows)
    ensures Unique(rows[i := Slot(true, tick, b)]) && Abs(rows[i := Slot(true, tick, b)]) == Abs(rows)[tick := Table(b.s)]
  {
    TableKeys(rows);
    TableSet(rows, i, tick, b);
  }

  lemma AbsFree(rows: seq<Slot<Seats>>, i: nat)
    requires Unique(rows) && i < |rows| && rows[i].inUse
    ensures Unique(rows[i := rows[i].(inUse := false)]) && Abs(rows[i := rows[i].(inUse := false)]) == Abs(rows) - {rows[i].key}
  {
    TableFree(rows, i);
  }

  class CRoom {
    const count: nat
    const rows: array<Slot<Seats>>
    var ncrc: nat
    var crcOk: nat

    ghost predicate Valid()
      reads this, rows
    {
      TableOK(rows[..], ncrc) && 1 <= count <= CRC_SEATS && OpenRounds(Abs(rows[..]), count)
    }

    constructor (count: nat)
      requires 1 <= count <= CRC_SEATS
      ensures Valid() && fresh(rows) && this.count == count && Abs(rows[..]) == map[] && crcOk == 0
    {
      this.count := count;
      ncrc, crcOk := 0, 0;
      rows := new Slot<Seats>[CRC_TICKS + 1](_ => Slot(false, 0, NoSeats()));
      new;
      NothingUsed(rows[..]);
    }

    method FindRow(tick: nat) returns (i: nat)
      requires rows.Length == CRC_TICKS + 1
      ensures i < rows.Length ==> rows[i].inUse && rows[i].key == tick
      ensures i >= rows.Length ==> tick !in Abs(rows[..])
    {
      TableKeys(rows[..]);
      i := 0;
      while i < rows.Length && !(rows[i].inUse && rows[i].key == tick)
        invariant 0 <= i <= rows.Length
        invariant forall j: nat :: j < i ==> !Holds(rows[..], j, tick)
      {
        i := i + 1;
      }
    }

    method FindFree() returns (i: nat)
      requires TableOK(rows[..], ncrc) && ncrc <= CRC_TICKS
      ensures i < rows.Length && !rows[i].inUse
    {
      i := 0;
      while i < rows.Length && rows[i].inUse
        invariant 0 <= i <= rows.Length
        invariant forall j :: 0 <= j < i ==> rows[j].inUse
      {
        i := i + 1;
      }
      if i == rows.Length {
        assert false;   // no free row
      }
    }

    /** Insert-or-replace; 65 rows suffice for 64 open rounds. */
    method PutRow(i: nat, tick: word, b: Seats)
      requires TableOK(rows[..], ncrc) && i < rows.Length && SeatsOK(b)
      requires if rows[i].inUse then rows[i].key == tick as nat else tick as nat !in Abs(rows[..])
      modifies this`ncrc, rows
      ensures TableOK(rows[..], ncrc) && rows[i] == Slot(true, tick as nat, b)
      ensures Abs(rows[..]) == old(Abs(rows[..]))[tick as nat := Table(b.s)]
    {
      hide Abs, Table, Unique, Count;
      ghost var before := rows[..];
      AbsSet(before, i, tick as nat, b);
      CountOne(before, i, Slot(true, tick as nat, b));
      ncrc := if rows[i].inUse then ncrc else ncrc + 1;
      rows[i] := Slot(true, tick as nat, b);
      assert rows[..] == before[i := Slot(true, tick as nat, b)];
    }

    /** The row of a tick, or a free one, with the report entered. */
    method Enter(r: Report) returns (row: nat, b: Seats)
      requires Valid()
      modifies this`ncrc, rows
      ensures TableOK(rows[..], ncrc) && SeatsOK(b) && row < rows.Length && rows[row] == Slot(true, r.tick as nat, b)
      ensures Table(b.s) == Row(old(Abs(rows[..])), r.tick)[r.seat := r.crc]
      ensures Abs(rows[..]) == old(Abs(rows[..]))[r.tick := Table(b.s)]
    {
      hide Abs, Table, Unique, Count;
      AbsSize(rows[..], ncrc);
      b := NoSeats();
      row := FindRow(r.tick);
      if row < rows.Length {
        AbsAt(rows[..], row);
        b := rows[row].val;
      } else {
        row := FindFree();
      }
      TableSize(b.s);
      SmallRow(b.s, Abs(rows[..]), r.tick, count);
      b := PutSeat(b, r.seat, r.crc);
      PutRow(row, r.tick, b);
    }

    /** The used row of the smallest tick. */
    method LowestRow() returns (low: nat)
      requires TableOK(rows[..], ncrc) && ncrc > 0
      ensures low < rows.Length && rows[low].inUse
      ensures forall j :: 0 <= j < rows.Length && rows[j].inUse ==> rows[low].key <= rows[j].key
    {
      var i := 0;
      low := rows.Length;
      while i < rows.Length
        invariant 0 <= i <= rows.Length
        invariant if low < rows.Length then low < i && rows[low].inUse && forall j :: 0 <= j < i && rows[j].inUse ==> rows[low].key <= rows[j].key
                  else low == rows.Length && forall j :: 0 <= j < i ==> !rows[j].inUse
      {
        if rows[i].inUse && (low == rows.Length || rows[i].key < rows[low].key) {
          low := i;
        }
        i := i + 1;
      }
      if low == rows.Length { NothingUsed(rows[..]); }
    }

    method FreeRow(i: nat)
      requires TableOK(rows[..], ncrc) && i < rows.Length && rows[i].inUse
      modifies this`ncrc, rows
      ensures TableOK(rows[..], ncrc) && Abs(rows[..]) == old(Abs(rows[..])) - {old(rows[i].key)}
      ensures rows[i] == old(rows[i]).(inUse := false)
      ensures forall j :: 0 <= j < rows.Length && j != i ==> rows[j] == old(rows[j])
    {
      ghost var before := rows[..];
      AbsFree(before, i);
      CountOne(before, i, rows[i].(inUse := false));
      CountPositive(before, i);
      rows[i] := rows[i].(inUse := false);
      ncrc := ncrc - 1;
      assert rows[..] == before[i := before[i].(inUse := false)];
    }

    /** Insert, then evict, exactly as the dictionary does; the row just touched stays readable even
        when it is the one evicted. */
    method Evicting()
      requires TableOK(rows[..], ncrc) && |Abs(rows[..])| <= CRC_TICKS + 1
      modifies this`ncrc, rows
      ensures TableOK(rows[..], ncrc) && TicksFit(old(Abs(rows[..]))) && Abs(rows[..]) == Evict(old(Abs(rows[..])))
      ensures forall j :: 0 <= j < rows.Length ==> rows[j] == old(rows[j]) || rows[j] == old(rows[j]).(inUse := false)
    {
      AbsSize(rows[..], ncrc);
      if ncrc > CRC_TICKS {
        var low := LowestRow();
        LowestIs(rows[..], ncrc, low);
        FreeRow(low);
      }
    }

    method LogCrc(r: Report) returns (v: Verdict)
      requires Valid()
      modifies this, rows
      ensures Valid()
      ensures TicksFit(old(Abs(rows[..])))
      ensures (Log(Abs(rows[..]), crcOk), v) == Take(Log(old(Abs(rows[..])), old(crcOk)), count, r)
    {
      hide Abs, Table, Unique, Count, Evict, AllSame, Take, Row, OpenRounds, SeatsOK;
      ghost var log := Log(Abs(rows[..]), crcOk);
      AbsSize(rows[..], ncrc);
      TakeOpen(log, count, r);
      var row, b := Enter(r);
      ghost var before := rows[..];
      Evicting();
      ghost var entry, kept := Table(b.s), Abs(rows[..]);
      TakeParts(log, count, r, entry, kept);
      SeatsSize(b);
      if b.nseats < count {
        return Pending;
      }
      Close(row, before);
      v := Announce(b, r.tick);
      assert Take(log, count, r) == (Log(kept - {r.tick}, crcOk), v);
    }

    /** The log line of a complete round. */
    method Announce(b: Seats, tick: word) returns (v: Verdict)
      requires SeatsOK(b)
      modifies this`crcOk
      ensures AllSame(Table(b.s)) ==> crcOk == old(crcOk) + 1 && v == Agreed(tick)
      ensures !AllSame(Table(b.s)) ==> crcOk == old(crcOk) && v == Mismatch(tick, Table(b.s))
    {
      var agree := Agreement(b);
      if !agree {
        var list := Listed(b);
        v := Mismatch(tick, list);
      } else {
        crcOk := crcOk + 1;
        v := Agreed(tick);
      }
    }

    /** room.crc.pop(tick, None). */
    method Close(row: nat, ghost before: seq<Slot<Seats>>)
      requires TableOK(rows[..], ncrc) && row < rows.Length && Unique(before) && |before| == rows.Length && before[row].inUse
      requires forall j :: 0 <= j < rows.Length ==> rows[j] == before[j] || rows[j] == before[j].(inUse := false)
      modifies this`ncrc, rows
      ensures TableOK(rows[..], ncrc) && Abs(rows[..]) == old(Abs(rows[..])) - {before[row].key}
    {
      hide Abs, Table, Unique, Count;
      if rows[row].inUse {
        FreeRow(row);
      } else {
        FreedRow(before, rows[..], row);
      }
    }
  }

  /** A row evicted just after it was written leaves nothing under its tick. */
  lemma FreedRow(before: seq<Slot<Seats>>, after: seq<Slot<Seats>>, i: nat)
    requires Unique(before) && |before| == |after| && i < |before| && before[i].inUse && !after[i].inUse
    requires forall j :: 0 <= j < |after| ==> after[j] == before[j] || after[j] == before[j].(inUse := false)
    ensures Abs(after) - {before[i].key} == Abs(after)
  {
    TableKeys(after);
    assert forall j: nat :: j < |after| && after[j].inUse ==> after[j].key != before[i].key;
  }

  lemma SmallRow(s: seq<Slot<word>>, rows: Rows, tick: nat, count: nat)
    requires OpenRounds(rows, count) && Table(s) == Row(rows, tick) && 1 <= count <= CRC_SEATS
    ensures |Table(s)| < CRC_SEATS
  {
  }

  lemma {:induction false} CountPositive<V>(cs: seq<Slot<V>>, i: nat)
    requires i < |cs| && cs[i].inUse
    ensures Count(cs) >= 1
    decreases |cs|
  {
    if i < |cs| - 1 { CountPositive(cs[..|cs| - 1], i); }
  }

  lemma LowestIs(rows: seq<Slot<Seats>>, ncrc: nat, low: nat)
    requires TableOK(rows, ncrc) && low < |rows| && rows[low].inUse
    requires forall j :: 0 <= j < |rows| && rows[j].inUse ==> rows[low].key <= rows[j].key
    ensures TicksFit(Abs(rows)) && |Abs(rows)| > 0
    ensures (exists k :: 0 <= k < 0x10000 && k in Abs(rows)) && Lowest(Abs(rows), 0) == rows[low].key
  {
    AbsSize(rows, ncrc);
    AbsAt(rows, low);
    SomeTick(Abs(rows));
    TableKeys(rows);
    var t := Lowest(Abs(rows), 0);
    var j: nat :| Holds(rows, j, t);
  }
}
