/** The state image as a view of console memory: IMG_GET and IMG_PUT by position, the chunks of
    a push, and what applying them does to every cell. */
module ImageMemory {
  import opened Cells

  type Memory = m: seq<word> | |m| == 0x10000 witness seq(0x10000, _ => 0)

  const IMG_S1 := 147
  const IMG_S2 := 627
  const IMG_S3 := 755

  /** RS_TAILTBL: the random number cells, the eight countdown mirrors, the handler table. */
  function TailAddr(i: nat): nat
    requires i < 12
  {
    [0x8106, 0x8107, 0x8196, 0x8197, 0x8198, 0x8199, 0x819A, 0x819B, 0x819C, 0x819D, 0x80C0, 0x80C1][i]
  }

  /** The cell behind image position p. */
  function Addr(p: nat): (a: nat)
    requires p < IMG_TOTAL
    ensures a < 0x10000
  {
    if p < IMG_S1 then 0x15D + p
    else if p < IMG_S2 then 0x200 + (p - IMG_S1) / 2
    else if p < IMG_S3 then 0x31D + (p - IMG_S2) / 2
    else TailAddr(p - IMG_S3)
  }

  /** BACKTAB and object cells are words, sent low byte first; all others are 8 bits wide. */
  predicate Wide(p: nat) {
    IMG_S1 <= p < IMG_S3
  }

  predicate HighByte(p: nat) {
    Wide(p) && (if p < IMG_S2 then (p - IMG_S1) % 2 == 1 else (p - IMG_S2) % 2 == 1)
  }

  function ImgGet(m: Memory, p: nat): byte
    requires p < IMG_TOTAL
  {
    if HighByte(p) then m[Addr(p)] / 256 else m[Addr(p)] % 256
  }

  function ImgPut(m: Memory, p: nat, b: byte): Memory
    requires p < IMG_TOTAL
  {
    var a := Addr(p);
    if !Wide(p) then m[a := b as word]
    else if HighByte(p) then m[a := m[a] % 256 + 256 * b as word]
    else m[a := m[a] / 256 * 256 + b as word]
  }

  function ImageOf(m: Memory): (img: Image)
    ensures forall p :: 0 <= p < IMG_TOTAL ==> img[p] == ImgGet(m, p)
  {
    seq(IMG_TOTAL, p requires 0 <= p < IMG_TOTAL => ImgGet(m, p))
  }

  /** The cells an image can touch. */
  predicate ImageCell(a: nat) {
    || 0x15D <= a <= 0x1EF || 0x200 <= a <= 0x2EF || 0x31D <= a <= 0x35C
    || a == 0x8106 || a == 0x8107 || 0x8196 <= a <= 0x819D || a == 0x80C0 || a == 0x80C1
  }

  /** The volatile bytes are those of the latch $016B and of the cells $0322, $032A, ..., $035A. */
  lemma VolatileCells(p: nat)
    requires p < IMG_TOTAL
    ensures Volatile(p) <==> Addr(p) == 0x16B || (0x322 <= Addr(p) <= 0x35A && Addr(p) % 8 == 2)
  {
  }

  lemma AddrInImage(p: nat)
    requires p < IMG_TOTAL
    ensures ImageCell(Addr(p))
  {
  }

  /** Two positions share a cell only as the two bytes of one word. */
  lemma AddrApart(p: nat, q: nat)
    requires p < q < IMG_TOTAL
    ensures Addr(p) == Addr(q) ==> Wide(p) && Wide(q) && !HighByte(p) && HighByte(q)
  {
  }

  lemma GetPut(m: Memory, p: nat, b: byte, q: nat)
    requires p < IMG_TOTAL && q < IMG_TOTAL
    ensures ImgGet(ImgPut(m, p, b), q) == if q == p then b else ImgGet(m, q)
  {
    hide Addr;
    if p < q { AddrApart(p, q); }
    if q < p { AddrApart(q, p); }
    hide Wide;
    var w := m[Addr(p)];
    WordParts(w % 256, b);
    WordParts(b, w / 256);
  }

  /** A word of two bytes, taken apart again. */
  lemma WordParts(lo: word, hi: word)
    requires lo < 256 && hi < 256
    ensures var w := lo as int + 256 * hi as int;
            w < 0x10000 && w % 256 == lo as int && w / 256 == hi as int
  {
  }

  /** Writing a run of bytes, one position after the other. */
  function PutRun(m: Memory, pos: nat, data: seq<byte>): Memory
    requires pos + |data| <= IMG_TOTAL
    decreases |data|
  {
    if data == [] then m else PutRun(ImgPut(m, pos, data[0]), pos + 1, data[1..])
  }

  ghost predicate OnlyImageChanged(m: Memory, m': Memory) {
    forall a :: 0 <= a < 0x10000 && !ImageCell(a) ==> m'[a] == m[a]
  }

  /** One write replaces one position of the image and touches no cell outside the image. */
  lemma PutReplaces(m: Memory, pos: nat, b: byte)
    requires pos < IMG_TOTAL
    ensures ImageOf(ImgPut(m, pos, b)) == ImageOf(m)[pos := b] && OnlyImageChanged(m, ImgPut(m, pos, b))
  {
    AddrInImage(pos);
    hide ImgGet;
    var img := ImageOf(ImgPut(m, pos, b));
    forall p | 0 <= p < IMG_TOTAL ensures img[p] == ImageOf(m)[pos := b][p] {
      GetPut(m, pos, b, p);
    }
  }

  lemma OnlyImageTwice(m: Memory, m1: Memory, m2: Memory)
    requires OnlyImageChanged(m, m1) && OnlyImageChanged(m1, m2)
    ensures OnlyImageChanged(m, m2)
  {
  }

  /** A run writes exactly its own positions of the image and no cell outside the image. */
  lemma {:induction false} PutRunSplices(m: Memory, pos: nat, data: seq<byte>)
    requires pos + |data| <= IMG_TOTAL
    ensures ImageOf(PutRun(m, pos, data)) == Splice(ImageOf(m), pos, data)
    ensures OnlyImageChanged(m, PutRun(m, pos, data))
    decreases |data|
  {
    hide ImgPut, ImageOf, Splice;
    if data == [] {
      SpliceNone(ImageOf(m), pos);
    } else {
      hide OnlyImageChanged;
      var m1 := ImgPut(m, pos, data[0]);
      PutReplaces(m, pos, data[0]);
      PutRunSplices(m1, pos + 1, data[1..]);
      SpliceStep(ImageOf(m), pos, data);
      OnlyImageTwice(m, m1, PutRun(m, pos, data));
    }
  }

  lemma SpliceNone(img: Image, pos: nat)
    requires pos <= IMG_TOTAL
    ensures Splice(img, pos, []) == img
  {
  }

  lemma SpliceStep(img: Image, pos: nat, data: seq<byte>)
    requires data != [] && pos + |data| <= IMG_TOTAL
    ensures Splice(img[pos := data[0]], pos + 1, data[1..]) == Splice(img, pos, data)
  {
  }

  /** A whole image written chunk by chunk, 96 bytes at a time. */
  function PutChunks(m: Memory, img: Image, pos: nat): Memory
    requires pos <= IMG_TOTAL
    decreases IMG_TOTAL - pos
  {
    if pos == IMG_TOTAL then m else
    var n := if IMG_TOTAL - pos < RS_CHUNK then IMG_TOTAL - pos else RS_CHUNK;
    PutChunks(PutRun(m, pos, img[pos..pos + n]), img, pos + n)
  }

  lemma {:induction false} PutChunksTail(m: Memory, img: Image, pos: nat)
    requires pos <= IMG_TOTAL && ImageOf(m)[..pos] == img[..pos]
    ensures ImageOf(PutChunks(m, img, pos)) == img && OnlyImageChanged(m, PutChunks(m, img, pos))
    decreases IMG_TOTAL - pos
  {
    if pos == IMG_TOTAL {
      assert ImageOf(m) == ImageOf(m)[..pos] && img == img[..pos];
    } else {
      hide PutRun;
      var n := if IMG_TOTAL - pos < RS_CHUNK then IMG_TOTAL - pos else RS_CHUNK;
      var m1 := PutRun(m, pos, img[pos..pos + n]);
      PutRunSplices(m, pos, img[pos..pos + n]);
      assert ImageOf(m1)[..pos + n] == ImageOf(m1)[..pos] + ImageOf(m1)[pos..pos + n];
      assert img[..pos + n] == img[..pos] + img[pos..pos + n];
      PutChunksTail(m1, img, pos + n);
    }
  }

  /** Pushing the image of any memory into any other makes the images equal at all 767 positions
      and leaves every other cell as it was. */
  lemma ImageRoundTrip(host: Memory, guest: Memory)
    ensures ImageOf(PutChunks(guest, ImageOf(host), 0)) == ImageOf(host)
    ensures OnlyImageChanged(guest, PutChunks(guest, ImageOf(host), 0))
  {
    PutChunksTail(guest, ImageOf(host), 0);
  }
}
