/** Virtual input events: what LS_VDISPATCH hands to the game's handlers for one seat and tick, and
    how the action-button events of a whole run bracket. */
module Buttons {
  import opened Cells

  /** A handler call: the slot in the game's handler table and the event value. */
  datatype Call = Call(slot: nat, value: int)

  predicate Button(k: byte) {
    1 <= k <= 3
  }

  function ButtonSlot(k: byte): nat {
    2 * k as nat + 2
  }

  /** Release of the old class, then press or held re-fire of the new one. */
  function ButtonCalls(kp: byte, was: byte): seq<Call> {
    (if Button(was) && was != kp then [Call(ButtonSlot(was), -1)] else []) +
    (if Button(kp) then [Call(ButtonSlot(kp), if kp != was then 1 else 0)] else [])
  }

  predicate Bit6(b: byte) { b / 64 % 2 == 1 }

  predicate Bit7(b: byte) { b >= 128 }

  /** A fresh keypad or disc event, or the disc settling. */
  function DiscCalls(dec: byte, was: byte): seq<Call> {
    if dec == was then []
    else if !Bit6(dec) then [Call(if Bit7(dec) then 2 else 0, dec as int % 128)]
    else if Bit7(dec) then []
    else [Call(0, -1)]
  }

  function Dispatch(cur: Cell, was: Cell): seq<Call> {
    ButtonCalls(cur.kp, was.kp) + DiscCalls(cur.dec, was.dec)
  }

  // ---- what one tick's calls are, in numbers ---------------------------------------------------------

  /** The calls to slots 4, 6 and 8 that a change of the keypad cell from `was` to `kp` makes: the old
      button's release if it changed, then the new one's press, or its repeat while it is held. */
  ghost predicate ButtonLaw(kp: int, was: int, calls: seq<Call>) {
    && (was == kp && 1 <= kp <= 3 ==> calls == [Call(2 * kp + 2, 0)])
    && (was != kp && 1 <= kp <= 3 && 1 <= was <= 3 ==> calls == [Call(2 * was + 2, -1), Call(2 * kp + 2, 1)])
    && (was != kp && 1 <= kp <= 3 && !(1 <= was <= 3) ==> calls == [Call(2 * kp + 2, 1)])
    && (was != kp && !(1 <= kp <= 3) && 1 <= was <= 3 ==> calls == [Call(2 * was + 2, -1)])
    && (!(1 <= kp <= 3) && !(1 <= was <= 3) ==> calls == [])
  }

  /** The calls to slots 0 and 2 that a change of the decoded cell from `was` to `dec` makes: a disc
      direction, a keypad key, the disc's settling, or nothing. */
  ghost predicate DiscLaw(dec: int, was: int, calls: seq<Call>) {
    && (dec == was || dec >= 0xC0 ==> calls == [])
    && (dec != was && dec < 0x40 ==> calls == [Call(0, dec)])
    && (dec != was && 0x80 <= dec < 0xC0 ==> calls == [Call(2, dec - 0x80)])
    && (dec != was && 0x40 <= dec < 0x80 ==> calls == [Call(0, -1)])
  }

  /** One tick's calls for one seat: the buttons', then the disc's and the keypad's. */
  ghost predicate TickLaw(cur: Cell, was: Cell, calls: seq<Call>) {
    exists n {:trigger calls[..n]} :: 0 <= n <= |calls|
      && ButtonLaw(cur.kp as int, was.kp as int, calls[..n]) && DiscLaw(cur.dec as int, was.dec as int, calls[n..])
  }

  lemma DispatchLaw(cur: Cell, was: Cell)
    ensures TickLaw(cur, was, Dispatch(cur, was))
    ensures ButtonLaw(cur.kp as int, was.kp as int, ButtonCalls(cur.kp, was.kp))
    ensures DiscLaw(cur.dec as int, was.dec as int, DiscCalls(cur.dec, was.dec))
  {
    var b, d, calls := ButtonCalls(cur.kp, was.kp), DiscCalls(cur.dec, was.dec), Dispatch(cur, was);
    assert calls[..|b|] == b && calls[|b|..] == d;
  }

  // ---- whole runs ----------------------------------------------------------------------------------

  /** A slot above 2 is an action button's. */
  function ButtonsOf(calls: seq<Call>): seq<Call> {
    if calls == [] then [] else
    ButtonsOf(calls[..|calls| - 1]) + if calls[|calls| - 1].slot > 2 then [calls[|calls| - 1]] else []
  }

  lemma {:induction false} ButtonsJoin(a: seq<Call>, b: seq<Call>)
    ensures ButtonsOf(a + b) == ButtonsOf(a) + ButtonsOf(b)
    decreases |b|
  {
    if b == [] {
      assert a + b == a;
    } else {
      ButtonsJoin(a, b[..|b| - 1]);
      assert (a + b)[..|a + b| - 1] == a + b[..|b| - 1];
    }
  }

  /** Everything dispatched for one seat whose cells, from an idle start, are the given ones. */
  function Run(cells: seq<Cell>): seq<Call> {
    if cells == [] then [] else
    var n := |cells| - 1;
    Run(cells[..n]) + Dispatch(cells[n], Last(cells[..n]))
  }

  function Last(cells: seq<Cell>): Cell {
    if cells == [] then IDLE else cells[|cells| - 1]
  }

  /** Which button is down: its slot, or 0. */
  function Down(k: byte): nat {
    if Button(k) then ButtonSlot(k) else 0
  }

  /** The calls are those of a sequence of presses, each held any number of times and released
      before the next, starting with nothing down and ending with slot `down` down. */
  predicate Brackets(calls: seq<Call>, down: nat) {
    if calls == [] then down == 0 else
    var c, before := calls[|calls| - 1], calls[..|calls| - 1];
    if c.value == 1 then down == c.slot && down != 0 && Brackets(before, 0)
    else if c.value == 0 then down == c.slot && down != 0 && Brackets(before, down)
    else c.value == -1 && down == 0 && c.slot != 0 && Brackets(before, c.slot)
  }

  lemma OneMore(calls: seq<Call>, c: Call)
    ensures (calls + [c])[..|calls|] == calls
  {
  }

  /** For any cells whatever, the action-button events of a seat bracket: at most one class is down
      at a time, each press is of a button that is up, the old one's release comes first, and the
      class left down is the one the last keypad cell shows. */
  lemma {:induction false} ButtonsBracket(cells: seq<Cell>)
    ensures Brackets(ButtonsOf(Run(cells)), Down(Last(cells).kp))
    decreases |cells|
  {
    if cells != [] {
      hide Brackets, ButtonsOf, ButtonCalls, DiscCalls, Down;
      var n := |cells| - 1;
      ButtonsBracket(cells[..n]);
      DispatchButtons(Run(cells[..n]), cells[n], Last(cells[..n]));
      TickBrackets(ButtonsOf(Run(cells[..n])), cells[n].kp, Last(cells[..n]).kp);
    }
  }

  /** The other calls: slots 0 and 2. */
  function DiscsOf(calls: seq<Call>): seq<Call> {
    if calls == [] then [] else
    DiscsOf(calls[..|calls| - 1]) + if calls[|calls| - 1].slot <= 2 then [calls[|calls| - 1]] else []
  }

  lemma {:induction false} DiscsJoin(a: seq<Call>, b: seq<Call>)
    ensures DiscsOf(a + b) == DiscsOf(a) + DiscsOf(b)
    decreases |b|
  {
    if b == [] {
      assert a + b == a;
    } else {
      DiscsJoin(a, b[..|b| - 1]);
      assert (a + b)[..|a + b| - 1] == a + b[..|b| - 1];
    }
  }

  /** The calls to slots 0 and 2 are the given cells' changes, one by one and in order. */
  ghost predicate DiscRun(cells: seq<Cell>, calls: seq<Call>)
    decreases |cells|
  {
    if cells == [] then calls == [] else
    var n := |cells| - 1;
    exists k {:trigger calls[..k]} :: 0 <= k <= |calls|
      && DiscRun(cells[..n], calls[..k]) && DiscLaw(cells[n].dec as int, Last(cells[..n]).dec as int, calls[k..])
  }

  /** The calls to slots 4, 6 and 8 likewise. */
  ghost predicate ButtonRun(cells: seq<Cell>, calls: seq<Call>)
    decreases |cells|
  {
    if cells == [] then calls == [] else
    var n := |cells| - 1;
    exists k {:trigger calls[..k]} :: 0 <= k <= |calls|
      && ButtonRun(cells[..n], calls[..k]) && ButtonLaw(cells[n].kp as int, Last(cells[..n]).kp as int, calls[k..])
  }

  lemma DispatchDiscs(calls: seq<Call>, cur: Cell, was: Cell)
    ensures DiscsOf(calls + Dispatch(cur, was)) == DiscsOf(calls) + DiscCalls(cur.dec, was.dec)
  {
    hide DiscsOf, ButtonCalls, DiscCalls;
    var b, d := ButtonCalls(cur.kp, was.kp), DiscCalls(cur.dec, was.dec);
    NoDiscs(cur.kp, was.kp);
    AllDiscs(cur.dec, was.dec);
    DiscsJoin(calls, b + d);
    DiscsJoin(b, d);
    assert [] + d == d;
  }

  lemma NoDiscs(kp: byte, was: byte)
    ensures DiscsOf(ButtonCalls(kp, was)) == []
  {
    hide DiscsOf;
    NoneLow(ButtonCalls(kp, was));
  }

  lemma {:induction false} NoneLow(calls: seq<Call>)
    requires forall i :: 0 <= i < |calls| ==> calls[i].slot > 2
    ensures DiscsOf(calls) == []
    decreases |calls|
  {
    if calls != [] { NoneLow(calls[..|calls| - 1]); }
  }

  lemma AllDiscs(dec: byte, was: byte)
    ensures DiscsOf(DiscCalls(dec, was)) == DiscCalls(dec, was)
  {
  }

  /** Over any run of cells, from an idle start, what the disc handler and the keypad handler are called
      with is what the changes of the decoded cell say, one by one and in order. */
  lemma {:induction false} DiscsFollow(cells: seq<Cell>)
    ensures DiscRun(cells, DiscsOf(Run(cells)))
    decreases |cells|
  {
    if cells != [] {
      hide DiscsOf, ButtonCalls, DiscCalls, DiscLaw;
      var n := |cells| - 1;
      var before, was := DiscsOf(Run(cells[..n])), Last(cells[..n]);
      DiscsFollow(cells[..n]);
      DispatchDiscs(Run(cells[..n]), cells[n], was);
      DispatchLaw(cells[n], was);
      var calls := DiscsOf(Run(cells));
      assert calls[..|before|] == before && calls[|before|..] == DiscCalls(cells[n].dec, was.dec);
    }
  }

  /** And the action buttons' handlers are called with what the changes of the keypad cell say. */
  lemma {:induction false} ButtonsFollow(cells: seq<Cell>)
    ensures ButtonRun(cells, ButtonsOf(Run(cells)))
    decreases |cells|
  {
    if cells != [] {
      hide ButtonsOf, ButtonCalls, DiscCalls, ButtonLaw;
      var n := |cells| - 1;
      var before, was := ButtonsOf(Run(cells[..n])), Last(cells[..n]);
      ButtonsFollow(cells[..n]);
      DispatchButtons(Run(cells[..n]), cells[n], was);
      DispatchLaw(cells[n], was);
      var calls := ButtonsOf(Run(cells));
      assert calls[..|before|] == before && calls[|before|..] == ButtonCalls(cells[n].kp, was.kp);
    }
  }

  lemma ButtonsKept(kp: byte, was: byte)
    ensures ButtonsOf(ButtonCalls(kp, was)) == ButtonCalls(kp, was)
  {
    hide ButtonsOf;
    AllButtons(ButtonCalls(kp, was));
  }

  lemma DiscsDropped(dec: byte, was: byte)
    ensures ButtonsOf(DiscCalls(dec, was)) == []
  {
  }

  lemma DispatchButtons(calls: seq<Call>, cur: Cell, was: Cell)
    ensures ButtonsOf(calls + Dispatch(cur, was)) == ButtonsOf(calls) + ButtonCalls(cur.kp, was.kp)
  {
    hide ButtonsOf, ButtonCalls, DiscCalls;
    var b, d := ButtonCalls(cur.kp, was.kp), DiscCalls(cur.dec, was.dec);
    ButtonsKept(cur.kp, was.kp);
    DiscsDropped(cur.dec, was.dec);
    ButtonsJoin(calls, b + d);
    ButtonsJoin(b, d);
    assert b + [] == b;
  }

  lemma {:induction false} AllButtons(calls: seq<Call>)
    requires forall i :: 0 <= i < |calls| ==> calls[i].slot > 2
    ensures ButtonsOf(calls) == calls
    decreases |calls|
  {
    if calls != [] {
      AllButtons(calls[..|calls| - 1]);
      assert calls == calls[..|calls| - 1] + [calls[|calls| - 1]];
    }
  }

  lemma TickBrackets(calls: seq<Call>, kp: byte, was: byte)
    requires Brackets(calls, Down(was))
    ensures Brackets(calls + ButtonCalls(kp, was), Down(kp))
  {
    var released := if Button(was) && was != kp then calls + [Call(ButtonSlot(was), -1)] else calls;
    if Button(was) && was != kp { OneMore(calls, Call(ButtonSlot(was), -1)); }
    assert Brackets(released, if was == kp then Down(was) else 0);
    if Button(kp) {
      var c := Call(ButtonSlot(kp), if kp != was then 1 else 0);
      OneMore(released, c);
      assert calls + ButtonCalls(kp, was) == released + [c];
    } else {
      assert calls + ButtonCalls(kp, was) == released;
    }
  }

  /** Between two presses the first button is released. */
  lemma {:induction false} ReleaseBetween(calls: seq<Call>, down: nat, i: nat, j: nat) returns (r: nat)
    requires Brackets(calls, down) && i < j < |calls| && calls[i].value == 1 && calls[j].value == 1
    ensures i < r < j && calls[r] == Call(calls[i].slot, -1)
    decreases |calls|
  {
    if j < |calls| - 1 {
      var c := calls[|calls| - 1];
      r := ReleaseBetween(calls[..|calls| - 1], if c.value == 1 then 0 else c.slot, i, j);
    } else {
      r := ReleaseAfter(calls[..j], i);
    }
  }

  lemma {:induction false} ReleaseAfter(calls: seq<Call>, i: nat) returns (r: nat)
    requires Brackets(calls, 0) && i < |calls| && calls[i].value == 1
    ensures i < r < |calls| && calls[r] == Call(calls[i].slot, -1)
    decreases |calls|, 1
  {
    var n := |calls| - 1;
    var k := PressOf(calls[..n], calls[n].slot);
    if i == k {
      r := n;
    } else if i < k {
      assert calls[..n][..k] == calls[..k];
      r := ReleaseAfter(calls[..k], i);
    } else {
      assert false;
    }
  }

  /** The press that put the button down, with nothing but held re-fires since. */
  lemma {:induction false} PressOf(calls: seq<Call>, down: nat) returns (k: nat)
    requires Brackets(calls, down) && down != 0
    ensures k < |calls| && calls[k] == Call(down, 1) && Brackets(calls[..k], 0)
    ensures forall m :: k < m < |calls| ==> calls[m].value == 0
    decreases |calls|
  {
    var n := |calls| - 1;
    if calls[n].value == 1 {
      k := n;
    } else {
      k := PressOf(calls[..n], down);
      assert calls[..n][..k] == calls[..k];
    }
  }
}
