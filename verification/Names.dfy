/** Player names: what HELLO and JOIN make of the bytes on the wire, and the insertion-ordered
    dictionary from names to clients whose order is the lobby a console displays. */
module Names {
  import opened Cells
  import opened Stream

  predicate NameByte(b: int) {
    0x41 <= b <= 0x5A || 0x30 <= b <= 0x39
  }

  /** Two to eight of A-Z and 0-9. */
  predicate ValidName(name: bytes) {
    2 <= |name| <= 8 && forall i :: 0 <= i < |name| ==> NameByte(name[i] as int)
  }

  /** Trailing NULs and spaces removed. */
  function Stripped(s: bytes): (r: bytes)
    ensures r <= s
    ensures r != [] ==> r[|r| - 1] != 0 && r[|r| - 1] != 0x20
    ensures forall i :: |r| <= i < |s| ==> s[i] == 0 || s[i] == 0x20
  {
    if s != [] && (s[|s| - 1] == 0 || s[|s| - 1] == 0x20) then Stripped(s[..|s| - 1]) else s
  }

  // ---- text and bytes ------------------------------------------------------------------------

  /** A string of code points. */
  type Text = seq<int>

  /** bytes.decode("ascii", "replace"). */
  function Decode(s: bytes): (t: Text)
    ensures |t| == |s|
  {
    seq(|s|, i requires 0 <= i < |s| => if s[i] < 0x80 then s[i] as int else 0xFFFD)
  }

  /** str.rstrip("\0 "). */
  function RStrip(t: Text): Text {
    if t != [] && (t[|t| - 1] == 0 || t[|t| - 1] == 0x20) then RStrip(t[..|t| - 1]) else t
  }

  predicate ValidText(t: Text) {
    2 <= |t| <= 8 && forall i :: 0 <= i < |t| ==> NameByte(t[i])
  }

  lemma {:induction false} StripDecodes(s: bytes)
    ensures RStrip(Decode(s)) == Decode(Stripped(s))
    decreases |s|
  {
    if s != [] && (s[|s| - 1] == 0 || s[|s| - 1] == 0x20) {
      StripDecodes(s[..|s| - 1]);
      assert Decode(s)[..|s| - 1] == Decode(s[..|s| - 1]);
    }
  }

  /** Stripping and testing bytes accepts exactly the names that decoding to text first accepts,
      and finds exactly the same stored names. */
  lemma TextOrBytes(s: bytes, stored: bytes)
    requires ValidName(stored)
    ensures ValidText(RStrip(Decode(s))) <==> ValidName(Stripped(s))
    ensures RStrip(Decode(s)) == Decode(stored) <==> Stripped(s) == stored
  {
    StripDecodes(s);
    var r := Stripped(s);
    assert forall i :: 0 <= i < |r| ==> (NameByte(Decode(r)[i]) <==> NameByte(r[i] as int));
    if ValidText(Decode(r)) {
      assert forall i :: 0 <= i < |r| ==> NameByte(Decode(r)[i]);
    }
    if Decode(r) == Decode(stored) {
      forall i | 0 <= i < |r| ensures r[i] == stored[i] {
        assert NameByte(stored[i] as int) && Decode(r)[i] == Decode(stored)[i];
      }
    }
  }

  /** A name laid out in an 8-byte field. */
  function PadName(name: bytes): (r: bytes)
    ensures |r| == 8
    ensures forall i :: 0 <= i < 8 && i < |name| ==> r[i] == name[i]
    ensures forall i :: |name| <= i < 8 ==> r[i] == 0
  {
    seq(8, i requires 0 <= i < 8 => if i < |name| then name[i] else 0)
  }

  // ---- C strings -----------------------------------------------------------------------------

  /** What strcmp sees of a buffer: the bytes before the first NUL. */
  function CString(s: bytes): (r: bytes)
    ensures r <= s && 0 !in r
    ensures |r| < |s| ==> s[|r|] == 0
  {
    if s == [] || s[0] == 0 then [] else [s[0]] + CString(s[1..])
  }

  lemma {:induction false} CStringWhole(s: bytes)
    ensures CString(s) == s <==> 0 !in s
    decreases |s|
  {
  }

  // ---- the ordered dictionary ------------------------------------------------------------------

  datatype Entry = Entry(name: bytes, client: nat)

  type Dict = seq<Entry>

  ghost predicate DistinctKeys(d: Dict) {
    forall i, j :: 0 <= i < j < |d| ==> d[i].name != d[j].name
  }

  /** The position of a key, or the length when it is absent. */
  function Find(d: Dict, name: bytes): (i: nat)
    ensures i <= |d| && (i < |d| ==> d[i].name == name)
    ensures forall j :: 0 <= j < i ==> d[j].name != name
  {
    if d == [] || d[0].name == name then 0 else 1 + Find(d[1..], name)
  }

  predicate Has(d: Dict, name: bytes) {
    Find(d, name) < |d|
  }

  function Get(d: Dict, name: bytes): nat
    requires Has(d, name)
  {
    d[Find(d, name)].client
  }

  /** A key already present keeps its place, a new one goes to the end. */
  function Set(d: Dict, name: bytes, client: nat): Dict {
    var i := Find(d, name);
    if i < |d| then d[i := Entry(name, client)] else d + [Entry(name, client)]
  }

  function RemoveAt(d: Dict, i: nat): (r: Dict)
    requires i < |d|
    ensures |r| == |d| - 1
    ensures forall j {:trigger r[j]} :: 0 <= j < |r| ==> r[j] == d[if j < i then j else j + 1]
  {
    d[..i] + d[i + 1..]
  }

  function Del(d: Dict, name: bytes): Dict {
    if Has(d, name) then RemoveAt(d, Find(d, name)) else d
  }

  /** Every key of one client removed, the others in their order. */
  function Without(d: Dict, client: nat): (r: Dict)
    ensures forall e :: e in r <==> e in d && e.client != client
    ensures |r| <= |d|
  {
    if d == [] then [] else
    var last := d[|d| - 1];
    var r := Without(d[..|d| - 1], client);
    if last.client == client then r else r + [last]
  }

  /** The keys in order. */
  function Keys(d: Dict): (r: seq<bytes>)
    ensures |r| == |d|
  {
    seq(|d|, i requires 0 <= i < |d| => d[i].name)
  }

  lemma FoundAt(d: Dict, i: nat)
    requires DistinctKeys(d) && i < |d|
    ensures Find(d, d[i].name) == i
  {
  }

  /** Setting a key changes what that key finds and nothing else, and never the order of the keys
      that were there. */
  lemma SetMeans(d: Dict, name: bytes, client: nat)
    requires DistinctKeys(d)
    ensures DistinctKeys(Set(d, name, client))
    ensures Has(Set(d, name, client), name) && Get(Set(d, name, client), name) == client
    ensures forall other {:trigger Has(d, other)} :: other != name && Has(d, other) ==>
              Has(Set(d, name, client), other) && Get(Set(d, name, client), other) == Get(d, other)
    ensures Keys(Set(d, name, client)) == if Has(d, name) then Keys(d) else Keys(d) + [name]
  {
    var i, d' := Find(d, name), Set(d, name, client);
    FoundAt(d', i);
    forall other {:trigger Has(d, other)} | other != name && Has(d, other)
      ensures Has(d', other) && Get(d', other) == Get(d, other)
    {
      assert d'[Find(d, other)] == d[Find(d, other)];
      FoundAt(d', Find(d, other));
    }
  }

  lemma {:induction false} DistinctWithout(d: Dict, client: nat)
    requires DistinctKeys(d)
    ensures DistinctKeys(Without(d, client))
    decreases |d|
  {
    if d != [] {
      DistinctWithout(d[..|d| - 1], client);
      var last, r := d[|d| - 1], Without(d[..|d| - 1], client);
      forall i | 0 <= i < |r| ensures r[i].name != last.name {
        assert r[i] in r;
        var j :| 0 <= j < |d| - 1 && d[j] == r[i];
      }
    }
  }

  lemma DistinctRemoved(d: Dict, i: nat)
    requires DistinctKeys(d) && i < |d|
    ensures DistinctKeys(RemoveAt(d, i))
    ensures forall e :: e in RemoveAt(d, i) <==> e in d && e.name != d[i].name
  {
  }

  /** A list of distinct members of a set is no longer than the set. */
  lemma {:induction false} DistinctFits(s: seq<nat>, all: set<nat>)
    requires forall i, j :: 0 <= i < j < |s| ==> s[i] != s[j]
    requires forall i :: 0 <= i < |s| ==> s[i] in all
    ensures |s| <= |all|
    decreases |s|
  {
    if s != [] {
      DistinctFits(s[1..], all - {s[0]});
    }
  }
}
