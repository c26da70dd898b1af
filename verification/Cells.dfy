/** Values shared by every module: bytes, the input cells exchanged for one game tick,
    the 256-slot input ring of one seat, and the pushed state image. */
module Cells {

  type byte = b: int | 0 <= b < 256

  type word = w: int | 0 <= w < 0x10000

  /** One seat's input for one tick: the decoded cell and the keypad cell. */
  datatype Cell = Cell(dec: byte, kp: byte)

  /** What LS_RING_INIT fills every slot with. */
  const IDLE := Cell(0x40, 0)

  /** One seat's pair of ring pages, indexed by the low byte of the tick. */
  type Ring = r: seq<Cell> | |r| == 256 witness seq(256, _ => IDLE)

  function IdleRing(): Ring {
    seq(256, _ => IDLE)
  }

  function At(r: Ring, t: int): Cell {
    r[t % 256]
  }

  function Put(r: Ring, t: int, c: Cell): Ring {
    r[t % 256 := c]
  }

  /** Writing slot u leaves the 255 ticks on either side of u untouched. */
  lemma PutAt(r: Ring, u: int, c: Cell)
    ensures forall t {:trigger At(Put(r, u, c), t)} ::
              -256 < t - u < 256 ==> At(Put(r, u, c), t) == if t == u then c else At(r, t)
  {
  }

  /** What the game tick is given for both seats: this tick's cells and the previous tick's. */
  datatype TickIn = TickIn(cur0: Cell, prev0: Cell, cur1: Cell, prev1: Cell)

  const IMG_TOTAL := 767
  const RS_CHUNK := 96

  /** The bytes of the state image, in wire order. */
  type Image = s: seq<byte> | |s| == IMG_TOTAL witness seq(IMG_TOTAL, _ => 0)

  function Splice(img: Image, pos: nat, data: seq<byte>): (r: Image)
    requires pos + |data| <= IMG_TOTAL
    ensures r[pos..pos + |data|] == data
    ensures r[..pos] == img[..pos] && r[pos + |data|..] == img[pos + |data|..]
  {
    img[..pos] + data + img[pos + |data|..]
  }

  // ---- cells the display's frame interrupt moves ----------------------------------------------

  /** The animation counter of each of the eight objects (field +5, a word each) advances with the
      real frames, and the latch at $016B is set from one of them, so two consoles of the same tick
      may hold different values there: the latch is position 14, the counters 637, 638, 653, ... */
  predicate Volatile(p: nat) {
    p == 14 || (627 <= p < 755 && 10 <= (p - 627) % 16 <= 11)
  }

  /** An image without its volatile bytes. */
  function Steady(img: Image): (r: Image)
    ensures forall p :: 0 <= p < IMG_TOTAL ==> r[p] == if Volatile(p) then 0 else img[p]
  {
    seq(IMG_TOTAL, p requires 0 <= p < IMG_TOTAL => if Volatile(p) then 0 else img[p])
  }

  /** `img` with the volatile bytes of `was`. */
  function Keep(img: Image, was: Image): (r: Image)
    ensures forall p :: 0 <= p < IMG_TOTAL ==> r[p] == if Volatile(p) then was[p] else img[p]
  {
    seq(IMG_TOTAL, p requires 0 <= p < IMG_TOTAL => if Volatile(p) then was[p] else img[p])
  }

  lemma SteadyTwice(img: Image)
    ensures Steady(Steady(img)) == Steady(img)
  {
  }

  lemma SteadyKeep(img: Image, was: Image)
    ensures Steady(Keep(img, was)) == Steady(img)
  {
  }

  lemma SteadyMeans(a: Image, b: Image)
    ensures Steady(a) == Steady(b) <==> forall p :: 0 <= p < IMG_TOTAL && !Volatile(p) ==> a[p] == b[p]
  {
    if Steady(a) == Steady(b) {
      forall p | 0 <= p < IMG_TOTAL && !Volatile(p) ensures a[p] == b[p] {
        assert Steady(a)[p] == Steady(b)[p];
      }
    }
  }
}
