/** LS_CKSUM: the rotate-add checksum over the game state, as a loop over memory and as a fold,
    and which changes it cannot miss. */
module Checksum {
  import opened Cells
  import opened ImageMemory

  const RNG_LO := 0x8106
  const RNG_HI := 0x8107
  const RS_SPARE0 := 0x8102
  const RS_SPARE1 := 0x810F
  const SC_CNT2 := 0x8196

  /** 16-bit rotate left by one. */
  function Rol(x: word): word {
    if x < 0x8000 then 2 * x else 2 * x - 0xFFFF
  }

  function Mix(acc: word, cell: word): word {
    var s := Rol(acc) as int + cell as int;
    if s < 0x10000 then s else s - 0x10000
  }

  function Fold(acc: word, cells: seq<word>): word
    decreases |cells|
  {
    if cells == [] then acc else Mix(Fold(acc, cells[..|cells| - 1]), cells[|cells| - 1])
  }

  /** The checksummed cells in order: scratch without the latch at $016B, the random number, the
      two spare cells, the eight countdown mirrors. */
  function Summed(m: Memory): seq<word> {
    m[0x15D..0x16B] + m[0x16C..0x1F0] + [m[RNG_LO], m[RNG_HI], m[RS_SPARE0], m[RS_SPARE1]] + m[SC_CNT2..SC_CNT2 + 8]
  }

  function Cksum(m: Memory): word {
    Fold(0, Summed(m))
  }

  lemma FoldNone(acc: word)
    ensures Fold(acc, []) == acc
  {
  }

  lemma SummedParts(m: Memory, cells: seq<word>)
    requires cells == m[0x15D..0x16B] + m[0x16C..0x1F0] + [m[RNG_LO]] + [m[RNG_HI]] + [m[RS_SPARE0]] + [m[RS_SPARE1]] + m[SC_CNT2..SC_CNT2 + 8]
    ensures cells == Summed(m)
  {
  }

  lemma FoldSnoc(acc: word, cells: seq<word>, cell: word)
    ensures Fold(acc, cells + [cell]) == Mix(Fold(acc, cells), cell)
  {
  }

  /** LS_CKSUM itself: three loops over memory with two runs of single cells between them. */
  method LsCksum(mem: array<word>) returns (r0: word)
    requires mem.Length == 0x10000
    ensures r0 == Cksum(mem[..])
  {
    hide Fold, Mix, Summed;
    ghost var done: seq<word> := [];
    FoldNone(0);
    r0 := 0;
    var r4 := 0x15D;
    while r4 < 0x16B
      invariant 0x15D <= r4 <= 0x16B
      invariant done == mem[0x15D..r4] && r0 == Fold(0, done)
    {
      FoldSnoc(0, done, mem[r4]);
      done := done + [mem[r4]];
      r0 := Mix(r0, mem[r4]);
      r4 := r4 + 1;
    }
    r4 := r4 + 1;
    ghost var low := done;
    while r4 < 0x1F0
      invariant 0x16C <= r4 <= 0x1F0
      invariant done == low + mem[0x16C..r4] && r0 == Fold(0, done)
    {
      FoldSnoc(0, done, mem[r4]);
      done := done + [mem[r4]];
      r0 := Mix(r0, mem[r4]);
      r4 := r4 + 1;
    }
    FoldSnoc(0, done, mem[RNG_LO]);
    done := done + [mem[RNG_LO]];
    FoldSnoc(0, done, mem[RNG_HI]);
    done := done + [mem[RNG_HI]];
    FoldSnoc(0, done, mem[RS_SPARE0]);
    done := done + [mem[RS_SPARE0]];
    FoldSnoc(0, done, mem[RS_SPARE1]);
    done := done + [mem[RS_SPARE1]];
    r0 := Mix(Mix(Mix(Mix(r0, mem[RNG_LO]), mem[RNG_HI]), mem[RS_SPARE0]), mem[RS_SPARE1]);
    ghost var head := done;
    r4 := SC_CNT2;
    while r4 < SC_CNT2 + 8
      invariant SC_CNT2 <= r4 <= SC_CNT2 + 8
      invariant done == head + mem[SC_CNT2..r4] && r0 == Fold(0, done)
    {
      FoldSnoc(0, done, mem[r4]);
      done := done + [mem[r4]];
      r0 := Mix(r0, mem[r4]);
      r4 := r4 + 1;
    }
    SummedParts(mem[..], done);
  }

  // ---- detection -----------------------------------------------------------------------

  /** Each step is a bijection in the running sum and in the cell. */
  lemma MixInjective(a: word, b: word, x: word, y: word)
    ensures x == y ==> (Mix(a, x) == Mix(b, y) <==> a == b)
    ensures a == b ==> (Mix(a, x) == Mix(b, y) <==> x == y)
  {
  }

  lemma {:induction false} FoldDiffers(cells: seq<word>, cells': seq<word>, i: nat)
    requires |cells| == |cells'| && i < |cells|
    requires forall j :: 0 <= j < |cells| ==> (cells[j] == cells'[j] <==> j != i)
    ensures Fold(0, cells) != Fold(0, cells')
    decreases |cells|
  {
    var n := |cells| - 1;
    if i == n {
      assert cells[..n] == cells'[..n];
      MixInjective(Fold(0, cells[..n]), Fold(0, cells'[..n]), cells[n], cells'[n]);
    } else {
      FoldDiffers(cells[..n], cells'[..n], i);
      MixInjective(Fold(0, cells[..n]), Fold(0, cells'[..n]), cells[n], cells'[n]);
    }
  }

  /** The place of a checksummed cell in the sum. */
  function Place(a: nat): int {
    if 0x15D <= a < 0x16B then a - 0x15D
    else if 0x16C <= a < 0x1F0 then a - 0x15E
    else if a == RNG_LO then 146
    else if a == RNG_HI then 147
    else if a == RS_SPARE0 then 148
    else if a == RS_SPARE1 then 149
    else if SC_CNT2 <= a < SC_CNT2 + 8 then 150 + a - SC_CNT2
    else -1
  }

  lemma PlaceIsCell(m: Memory, a: nat)
    requires a < 0x10000 && Place(a) >= 0
    ensures Place(a) < |Summed(m)| == 158 && Summed(m)[Place(a)] == m[a]
  {
  }

  lemma CellAtPlace(m: Memory, j: nat) returns (a: nat)
    requires j < 158
    ensures a < 0x10000 && Place(a) == j && |Summed(m)| == 158 && Summed(m)[j] == m[a]
  {
    a := if j < 14 then 0x15D + j else if j < 146 then 0x15E + j
         else if j == 146 then RNG_LO else if j == 147 then RNG_HI
         else if j == 148 then RS_SPARE0 else if j == 149 then RS_SPARE1
         else SC_CNT2 + j - 150;
    PlaceIsCell(m, a);
  }

  /** The cells that are summed, in plain numbers. */
  predicate Checked(a: nat) {
    (0x15D <= a <= 0x1EF && a != 0x16B) || a == 0x8106 || a == 0x8107 || a == 0x8102 || a == 0x810F || 0x8196 <= a <= 0x819D
  }

  /** Two checked cells of which the second is added right after the first. */
  predicate Neighbours(a: nat, b: nat) {
    && Checked(a) && Checked(b)
    && (b == a + 1 || (a == 0x16A && b == 0x16C) || (a == 0x1EF && b == 0x8106) || (a == 0x8107 && b == 0x8102)
        || (a == 0x8102 && b == 0x810F) || (a == 0x810F && b == 0x8196))
  }

  lemma PlacesChecked(a: nat, b: nat)
    ensures Place(a) >= 0 <==> Checked(a)
    ensures Neighbours(a, b) ==> Place(b) == Place(a) + 1
  {
  }

  /** Memories that differ in exactly one checked cell, and anyhow elsewhere, always have
      different checksums, wherever that cell lies. */
  lemma OneCellDetected(m: Memory, m': Memory, a: nat)
    requires a < 0x10000 && Checked(a) && m[a] != m'[a]
    requires forall b :: 0 <= b < 0x10000 && Checked(b) && b != a ==> m[b] == m'[b]
    ensures Cksum(m) != Cksum(m')
  {
    var s, s', i := Summed(m), Summed(m'), Place(a);
    PlacesChecked(a, a);
    PlaceIsCell(m, a);
    PlaceIsCell(m', a);
    forall j | 0 <= j < 158 && j != i ensures s[j] == s'[j] {
      var b := CellAtPlace(m, j);
      PlacesChecked(b, b);
      PlaceIsCell(m', b);
    }
    FoldDiffers(s, s', i);
  }

  /** No other cell changes the checksum, the frame-timing latch $016B among them. */
  lemma OthersExcluded(m: Memory, m': Memory)
    requires forall b :: 0 <= b < 0x10000 && Checked(b) ==> m[b] == m'[b]
    ensures Cksum(m) == Cksum(m')
  {
    hide Summed;
    forall j | 0 <= j < 158 ensures |Summed(m)| == 158 == |Summed(m')| && Summed(m)[j] == Summed(m')[j] {
      var b := CellAtPlace(m, j);
      PlacesChecked(b, b);
      PlaceIsCell(m', b);
    }
    assert Summed(m) == Summed(m') by {
      var a := CellAtPlace(m, 0);
    }
  }

  // ---- the rotation ----------------------------------------------------------------------

  /** Bit i of a word. */
  function Bit(x: word, i: nat): int
    requires i < 16
  {
    x as int / POWERS[i] % 2
  }

  /** SLLC and ADCR: every bit moves up by one place, the top one to the bottom. */
  lemma RolTurns(x: word, i: nat)
    requires i < 16
    ensures Bit(Rol(x), (i + 1) % 16) == Bit(x, i)
  {
    if i < 15 { RolMoves(x, i); }
  }

  const POWERS: seq<nat> := [1, 2, 4, 8, 16, 32, 64, 128, 256, 512, 1024, 2048, 4096, 8192, 16384, 32768]

  lemma {:induction false} AtLeast(d: nat, k: nat)
    requires k >= 1
    ensures d * k >= d
    decreases k
  {
    if k > 1 {
      AtLeast(d, k - 1);
      assert d * k == d * (k - 1) + d;
    }
  }

  lemma DivIs(n: nat, d: nat, q: nat, r: nat)
    requires d > 0 && n == d * q + r && r < d
    ensures n / d == q
  {
    var e, f := n / d, n % d;
    assert d * e + f == d * q + r && 0 <= f < d;
    if e < q {
      AtLeast(d, q - e);
    } else if e > q {
      AtLeast(d, e - q);
    }
  }

  /** The bits below the top one, with the top one set or not and coming in at the bottom. */
  lemma DoubleShifts(y: nat, p: nat, k: nat, top: nat)
    requires p > 0 && 0x8000 == p * (2 * k) && top <= 1
    ensures (2 * y + top) / (2 * p) == y / p && (y + 0x8000 * top) / p == y / p + 2 * k * top
  {
    var q, r := y / p, y % p;
    assert y == p * q + r;
    assert 2 * y + top == (2 * p) * q + (2 * r + top);
    DivIs(2 * y + top, 2 * p, q, 2 * r + top);
    assert y + 0x8000 * top == p * (q + 2 * k * top) + r;
    DivIs(y + 0x8000 * top, p, q + 2 * k * top, r);
  }

  lemma RolMoves(x: word, i: nat)
    requires i < 15
    ensures Bit(Rol(x), i + 1) == Bit(x, i)
  {
    var top := if x >= 0x8000 then 1 else 0;
    var y: nat := x as int - 0x8000 * top;
    var p := POWERS[i];
    var k := POWERS[14 - i];
    assert POWERS[i + 1] == 2 * p && p * (2 * k) == 0x8000;
    DoubleShifts(y, p, k, top);
    assert Rol(x) as int == 2 * y + top;
    assert (y / p + 2 * k * top) % 2 == y / p % 2;
  }

  /** Two bytes at least two apart, mixed in either order, give different sums. */
  lemma OrderMatters(acc: word, x: word, y: word)
    requires x < 256 && y < 256 && (x >= y + 2 || y >= x + 2)
    ensures Mix(Mix(acc, x), y) != Mix(Mix(acc, y), x)
  {
  }

  lemma {:induction false} SwapDiffers(cells: seq<word>, cells': seq<word>, i: nat)
    requires |cells| == |cells'| && i + 1 < |cells|
    requires forall j :: 0 <= j < |cells| && j != i && j != i + 1 ==> cells[j] == cells'[j]
    requires cells[i] == cells'[i + 1] < 256 && cells[i + 1] == cells'[i] < 256
    requires cells[i] >= cells[i + 1] + 2 || cells[i + 1] >= cells[i] + 2
    ensures Fold(0, cells) != Fold(0, cells')
    decreases |cells|
  {
    hide Mix;
    var n := |cells| - 1;
    if i + 1 == n {
      assert cells[..n][..i] == cells[..i] && cells'[..n][..i] == cells'[..i] && cells[..i] == cells'[..i];
      OrderMatters(Fold(0, cells[..i]), cells[i], cells[n]);
    } else {
      SwapDiffers(cells[..n], cells'[..n], i);
      MixInjective(Fold(0, cells[..n]), Fold(0, cells'[..n]), cells[n], cells'[n]);
    }
  }

  /** What a plain sum would miss: exchanging two neighbouring checked byte cells that differ by at
      least two always changes the checksum, whatever the cells that are not checked. */
  lemma SwapDetected(m: Memory, m': Memory, a: nat, b: nat)
    requires a < 0x10000 && b < 0x10000 && Neighbours(a, b)
    requires m'[a] == m[b] < 256 && m'[b] == m[a] < 256 && (m[a] >= m[b] + 2 || m[b] >= m[a] + 2)
    requires forall x :: 0 <= x < 0x10000 && Checked(x) && x != a && x != b ==> m'[x] == m[x]
    ensures Cksum(m) != Cksum(m')
  {
    var s, s', i := Summed(m), Summed(m'), Place(a);
    PlacesChecked(a, b);
    PlacesChecked(b, b);
    PlaceIsCell(m, a);
    PlaceIsCell(m', a);
    PlaceIsCell(m, b);
    PlaceIsCell(m', b);
    forall j | 0 <= j < 158 && j != i && j != i + 1 ensures s[j] == s'[j] {
      var x := CellAtPlace(m, j);
      PlacesChecked(x, x);
      PlaceIsCell(m', x);
    }
    SwapDiffers(s, s', i);
  }

  // ---- the checksum as a function of the image ---------------------------------------------

  /** 8-bit RAM cells hold bytes and the spare cells hold zero. */
  ghost predicate CellsSound(m: Memory) {
    && (forall p :: 0 <= p < IMG_TOTAL && !Wide(p) ==> m[Addr(p)] < 256)
    && m[RS_SPARE0] == 0 && m[RS_SPARE1] == 0
  }

  /** The image position of the j-th summed cell; the spare cells are in no image. */
  function SumPos(j: nat): nat
    requires j < 158 && j != 148 && j != 149
  {
    if j < 14 then j else if j < 146 then j + 1 else if j < 148 then j + 609 else j + 607
  }

  function SummedImage(img: Image): seq<word> {
    seq(158, j requires 0 <= j < 158 => if j == 148 || j == 149 then 0 else img[SumPos(j)])
  }

  function ImageSum(img: Image): word {
    Fold(0, SummedImage(img))
  }

  /** No volatile byte is summed: neither the latch nor any animation counter. */
  lemma VolatileIsExcluded(a: Image, b: Image)
    requires Steady(a) == Steady(b)
    ensures ImageSum(a) == ImageSum(b)
  {
    SteadyMeans(a, b);
    assert SummedImage(a) == SummedImage(b);
  }

  lemma SumOfImage(m: Memory)
    requires CellsSound(m)
    ensures ImageSum(ImageOf(m)) == Cksum(m)
  {
    hide Summed, ImageOf;
    forall j | 0 <= j < 158 ensures |Summed(m)| == 158 && SummedImage(ImageOf(m))[j] == Summed(m)[j] {
      var a := CellAtPlace(m, j);
      if j != 148 && j != 149 { SumPosCell(m, j, a); }
    }
    assert SummedImage(ImageOf(m)) == Summed(m) by {
      var a := CellAtPlace(m, 0);
    }
  }

  lemma SumPosCell(m: Memory, j: nat, a: nat)
    requires CellsSound(m) && j < 158 && j != 148 && j != 149 && a < 0x10000 && Place(a) == j
    ensures SummedImage(ImageOf(m))[j] == m[a]
  {
  }

  /** The image position of the low byte, or the whole, of an image cell. */
  lemma CellInImage(a: nat) returns (p: nat)
    requires ImageCell(a)
    ensures p < IMG_TOTAL && Addr(p) == a && !HighByte(p)
    ensures Wide(p) ==> p + 1 < IMG_TOTAL && Addr(p + 1) == a && HighByte(p + 1)
    ensures 0x15D <= a <= 0x1EF ==> p == a - 0x15D
    ensures 0x200 <= a <= 0x2EF ==> p == 2 * a - 877 && Wide(p)
    ensures 0x31D <= a <= 0x35C ==> p == 2 * a - 967 && Wide(p)
    ensures a == 0x8106 || a == 0x8107 ==> p == a - 0x8106 + 755
    ensures 0x8196 <= a <= 0x819D ==> p == a - 0x8196 + 757
    ensures a == 0x80C0 || a == 0x80C1 ==> p == a - 0x80C0 + 765
  {
    p := if 0x15D <= a <= 0x1EF then a - 0x15D
         else if 0x200 <= a <= 0x2EF then 147 + 2 * (a - 0x200)
         else if 0x31D <= a <= 0x35C then 627 + 2 * (a - 0x31D)
         else if a == 0x8106 then 755 else if a == 0x8107 then 756
         else if a == 0x80C0 then 765 else if a == 0x80C1 then 766
         else 757 + (a - 0x8196);
  }

  /** Where each cell goes: scratch and tail cells as one byte, a word of $0200-$02EF or $031D-$035C as two,
      the low one first. */
  lemma ImageLayout(m: Memory, a: nat)
    requires ImageCell(a)
    ensures a < 0x10000
    ensures 0x15D <= a <= 0x1EF ==> ImageOf(m)[a - 0x15D] == m[a] % 256
    ensures 0x200 <= a <= 0x2EF ==> ImageOf(m)[2 * a - 877] == m[a] % 256 && ImageOf(m)[2 * a - 876] == m[a] / 256
    ensures 0x31D <= a <= 0x35C ==> ImageOf(m)[2 * a - 967] == m[a] % 256 && ImageOf(m)[2 * a - 966] == m[a] / 256
    ensures a == 0x8106 || a == 0x8107 ==> ImageOf(m)[a - 0x8106 + 755] == m[a] % 256
    ensures 0x8196 <= a <= 0x819D ==> ImageOf(m)[a - 0x8196 + 757] == m[a] % 256
    ensures a == 0x80C0 || a == 0x80C1 ==> ImageOf(m)[a - 0x80C0 + 765] == m[a] % 256
  {
    hide ImageOf, Addr, Wide;
    var p := CellInImage(a);
  }

  /** The image misses nothing: memories with the same image agree in all of $015D-$01EF, $0200-$02EF,
      $031D-$035C and the twelve cells of the tail. */
  lemma SameImageSameCells(m: Memory, m': Memory, a: nat)
    requires CellsSound(m) && CellsSound(m') && ImageOf(m) == ImageOf(m') && ImageCell(a)
    ensures a < 0x10000 && m[a] == m'[a]
  {
    var p := CellInImage(a);
    assert ImageOf(m)[p] == ImageOf(m')[p];
    if Wide(p) { assert ImageOf(m)[p + 1] == ImageOf(m')[p + 1]; }
  }

  lemma PutSound(m: Memory, p: nat, b: byte)
    requires CellsSound(m) && p < IMG_TOTAL
    ensures CellsSound(ImgPut(m, p, b))
  {
  }
}
