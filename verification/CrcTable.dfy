/** The relay's checksum comparator: the Python dictionary of dictionaries, the C port's 65 rows of
    8 seats, and what the verdicts of a match mean. */
module CrcTable {
  import opened Cells
  import opened KeyedSlots

  const CRC_TICKS := 64
  const CRC_SEATS := 8

  /** Checksums reported for one tick, by seat. */
  type Entry = map<nat, word>

  /** Rounds not yet complete, by tick. */
  type Rows = map<nat, Entry>

  /** One CRC frame: the seat and the tick are whatever the sender wrote. */
  datatype Report = Report(seat: byte, tick: word, crc: word)

  datatype Verdict = Pending | Agreed(tick: word) | Mismatch(tick: word, entry: Entry)

  /** Open rounds and the number of rounds agreed. */
  datatype Log = Log(rows: Rows, ok: nat)

  ghost predicate TicksFit(rows: Rows) {
    forall t :: t in rows ==> t < 0x10000
  }

  /** The smallest tick from `from` on. */
  function Lowest(rows: Rows, from: nat): (t: nat)
    requires exists k :: from <= k < 0x10000 && k in rows
    ensures t in rows && from <= t < 0x10000 && forall k :: k in rows && k >= from ==> t <= k
    decreases 0x10000 - from
  {
    if from in rows then from else Lowest(rows, from + 1)
  }

  lemma SomeTick(rows: Rows)
    requires TicksFit(rows) && |rows| > 0
    ensures exists k :: 0 <= k < 0x10000 && k in rows
  {
  }

  function Row(rows: Rows, tick: nat): Entry {
    if tick in rows then rows[tick] else map[]
  }

  /** More than 64 open rounds: the smallest tick goes. */
  function Evict(rows: Rows): Rows
    requires TicksFit(rows)
  {
    if |rows| > CRC_TICKS then
      SomeTick(rows);
      rows - {Lowest(rows, 0)}
    else rows
  }

  predicate AllSame(entry: Entry) {
    forall a, b :: a in entry && b in entry ==> entry[a] == entry[b]
  }

  /** log_crc in a match of `count` players. */
  function Take(log: Log, count: nat, r: Report): (Log, Verdict)
    requires TicksFit(log.rows)
  {
    var entry := Row(log.rows, r.tick)[r.seat := r.crc];
    var rows := Evict(log.rows[r.tick := entry]);
    if |entry| < count then (Log(rows, log.ok), Pending)
    else if AllSame(entry) then (Log(rows - {r.tick}, log.ok + 1), Agreed(r.tick))
    else (Log(rows - {r.tick}, log.ok), Mismatch(r.tick, entry))
  }

  // ---- what stays true ---------------------------------------------------------------------------

  /** Every open round has fewer reports than the match has players. */
  ghost predicate OpenRounds(rows: Rows, count: nat) {
    && TicksFit(rows) && |rows| <= CRC_TICKS
    && forall t :: t in rows ==> 1 <= |rows[t]| < count
  }

  lemma EntrySize(entry: Entry, seat: nat, crc: word)
    ensures |entry| <= |entry[seat := crc]| <= |entry| + 1 && |entry[seat := crc]| >= 1
  {
  }

  lemma RowsSize(rows: Rows, tick: nat, entry: Entry)
    ensures |rows| <= |rows[tick := entry]| <= |rows| + 1
  {
  }

  lemma Fewer(rows: Rows, tick: nat)
    ensures |rows - {tick}| <= |rows|
  {
  }

  lemma EvictSize(rows: Rows)
    requires TicksFit(rows) && |rows| <= CRC_TICKS + 1
    ensures |Evict(rows)| <= CRC_TICKS && TicksFit(Evict(rows))
    ensures forall t :: t in Evict(rows) ==> t in rows && Evict(rows)[t] == rows[t]
    ensures |rows| <= CRC_TICKS ==> Evict(rows) == rows
  {
  }

  lemma TakeSizes(log: Log, count: nat, r: Report)
    requires OpenRounds(log.rows, count) && count >= 1
    ensures 1 <= |Row(log.rows, r.tick)[r.seat := r.crc]| <= count
    ensures |log.rows[r.tick := Row(log.rows, r.tick)[r.seat := r.crc]]| <= CRC_TICKS + 1
  {
  }

  /** A round holds at most as many reports as there are players when it is judged, and closing it
      then keeps every open round smaller; the table never holds more than 64 open rounds. */
  lemma TakeOpen(log: Log, count: nat, r: Report)
    requires OpenRounds(log.rows, count) && count >= 1
    ensures OpenRounds(Take(log, count, r).0.rows, count)
    ensures |Row(log.rows, r.tick)[r.seat := r.crc]| <= count
    ensures |log.rows[r.tick := Row(log.rows, r.tick)[r.seat := r.crc]]| <= CRC_TICKS + 1
  {
    hide Evict, AllSame, Row;
    TakeSizes(log, count, r);
    var entry := Row(log.rows, r.tick)[r.seat := r.crc];
    var all := log.rows[r.tick := entry];
    var rows, last := Evict(all), Take(log, count, r).0.rows;
    EvictSize(all);
    Fewer(rows, r.tick);
    forall t | t in last ensures t in rows && rows[t] == last[t] && 1 <= |last[t]| < count {
      assert all[t] == if t == r.tick as nat then entry else log.rows[t];
    }
  }

  // ---- what the verdicts mean ----------------------------------------------------------------------

  /** The table after a sequence of reports. */
  function Logged(count: nat, reports: seq<Report>): (log: Log)
    requires count >= 1
    ensures OpenRounds(log.rows, count)
    decreases |reports|
  {
    if reports == [] then Log(map[], 0) else
    var log := Logged(count, reports[..|reports| - 1]);
    TakeOpen(log, count, reports[|reports| - 1]);
    Take(log, count, reports[|reports| - 1]).0
  }

  /** The reports for one tick since its last complete round, ignoring every other tick. */
  function Round(count: nat, reports: seq<Report>, tick: nat): Entry
    decreases |reports|
  {
    if reports == [] then map[] else
    var entry, r := Round(count, reports[..|reports| - 1], tick), reports[|reports| - 1];
    if r.tick as nat != tick then entry else
    var next := entry[r.seat := r.crc];
    if |next| < count then next else map[]
  }

  /** No report found 64 other rounds open. */
  ghost predicate NeverFull(count: nat, reports: seq<Report>)
    requires count >= 1
    decreases |reports|
  {
    reports == [] ||
    var before, r := reports[..|reports| - 1], reports[|reports| - 1];
    NeverFull(count, before) && (|Logged(count, before).rows| < CRC_TICKS || r.tick as nat in Logged(count, before).rows)
  }

  lemma TakeRow(log: Log, count: nat, r: Report, tick: nat)
    requires OpenRounds(log.rows, count) && count >= 1
    requires |log.rows| < CRC_TICKS || r.tick as nat in log.rows
    ensures Row(Take(log, count, r).0.rows, tick) ==
            if tick != r.tick as nat then Row(log.rows, tick) else
            var entry := Row(log.rows, r.tick)[r.seat := r.crc];
            if |entry| < count then entry else map[]
  {
    hide Evict, AllSame;
    var all := log.rows[r.tick := Row(log.rows, r.tick)[r.seat := r.crc]];
    if r.tick as nat in log.rows {
      assert all.Keys == log.rows.Keys;
      assert |all.Keys| == |all| && |log.rows| == |log.rows.Keys|;
    } else {
      RowsSize(log.rows, r.tick, Row(log.rows, r.tick)[r.seat := r.crc]);
    }
    EvictSize(all);
  }

  /** As long as the table is never full, each tick is judged on exactly its own reports. */
  lemma {:induction false} RoundsApart(count: nat, reports: seq<Report>, tick: nat)
    requires count >= 1 && NeverFull(count, reports)
    ensures Row(Logged(count, reports).rows, tick) == Round(count, reports, tick)
    decreases |reports|
  {
    if reports != [] {
      hide Row, Take;
      var before, r := reports[..|reports| - 1], reports[|reports| - 1];
      RoundsApart(count, before, tick);
      TakeRow(Logged(count, before), count, r, tick);
    } else {
      assert Row(map[], tick) == map[];
    }
  }

  /** Then a report closes its round exactly when it makes it as large as the match, and is a
      mismatch exactly when two seats of that round reported different checksums. */
  lemma VerdictMeans(count: nat, reports: seq<Report>, r: Report)
    requires count >= 1 && NeverFull(count, reports)
    ensures var entry := Round(count, reports, r.tick)[r.seat := r.crc];
            var v := Take(Logged(count, reports), count, r).1;
            && (v.Pending? <==> |entry| < count)
            && (v.Mismatch? <==> |entry| == count && exists a, b :: a in entry && b in entry && entry[a] != entry[b])
            && (v.Mismatch? ==> v.entry == entry && v.tick == r.tick)
            && (v.Agreed? ==> v.tick == r.tick)
  {
    RoundsApart(count, reports, r.tick);
    TakeOpen(Logged(count, reports), count, r);
  }

  /** The reports so far that completed a round in which all seats agreed. */
  ghost function Agreements(count: nat, reports: seq<Report>): nat
    decreases |reports|
  {
    if reports == [] then 0 else
    var before, r := reports[..|reports| - 1], reports[|reports| - 1];
    var entry := Round(count, before, r.tick)[r.seat := r.crc];
    Agreements(count, before) +
    if |entry| == count && forall a, b :: a in entry && b in entry ==> entry[a] == entry[b] then 1 else 0
  }

  lemma TakeOk(log: Log, count: nat, r: Report)
    requires OpenRounds(log.rows, count) && count >= 1
    ensures var entry := Row(log.rows, r.tick)[r.seat := r.crc];
            Take(log, count, r).0.ok == log.ok +
            if |entry| == count && forall a, b :: a in entry && b in entry ==> entry[a] == entry[b] then 1 else 0
  {
    hide Evict;
    TakeSizes(log, count, r);
  }

  /** The agreed count is the number of complete rounds in which all seats reported the same. */
  lemma {:induction false} OkCounts(count: nat, reports: seq<Report>)
    requires count >= 1 && NeverFull(count, reports)
    ensures Logged(count, reports).ok == Agreements(count, reports)
    decreases |reports|
  {
    if reports != [] {
      hide Take, Round, Row;
      var before, r := reports[..|reports| - 1], reports[|reports| - 1];
      OkCounts(count, before);
      RoundsApart(count, before, r.tick);
      TakeOk(Logged(count, before), count, r);
    }
  }

  /** A report for a new tick that finds 64 rounds open completes nothing in a match of several players, and of
      the 65 rounds then open the one of the smallest tick is forgotten. */
  lemma FullTable(log: Log, count: nat, r: Report) returns (low: nat)
    requires OpenRounds(log.rows, count) && count >= 2 && |log.rows| == 64 && r.tick as nat !in log.rows
    ensures low <= r.tick as nat && (low in log.rows || low == r.tick as nat) && forall t :: t in log.rows ==> low <= t
    ensures Take(log, count, r) == (Log(log.rows[r.tick := map[r.seat := r.crc]] - {low}, log.ok), Pending)
  {
    hide Evict, AllSame;
    var tick: nat, entry := r.tick as nat, map[r.seat := r.crc];
    assert Row(log.rows, tick)[r.seat := r.crc] == entry;
    NewRow(log.rows, tick, entry);
    low := Evicted(log.rows[tick := entry]);
    assert tick in log.rows[tick := entry];
    forall t | t in log.rows ensures low <= t { assert t in log.rows[tick := entry]; }
  }

  lemma Evicted(rows: Rows) returns (low: nat)
    requires TicksFit(rows) && |rows| > 64
    ensures low in rows && (forall t :: t in rows ==> low <= t) && Evict(rows) == rows - {low}
  {
    SomeTick(rows);
    low := Lowest(rows, 0);
  }

  lemma NewRow(rows: Rows, tick: nat, entry: Entry)
    requires tick !in rows
    ensures |rows[tick := entry]| == |rows| + 1
  {
    assert rows[tick := entry].Keys == rows.Keys + {tick};
    assert |rows[tick := entry].Keys| == |rows[tick := entry]| && |rows.Keys| == |rows|;
  }
}
