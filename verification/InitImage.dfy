/** The memcpy of init_userspace (kernel/mm.c): the whole image goes to the address of the
  first page, whatever the size. */
module InitImage {
  import opened Bits
  import opened PhysMem
  import opened UserSpace

  /** The word was with its low k bytes taken from c. */
  function Mixed(c: nat, was: nat, k: nat): nat {
    if k == 0 then was else c % 256 + 256 * Mixed(c / 256, was / 256, k - 1)
  }

  /** Word x of frame g after size bytes of the image have been copied to f. */
  function CopiedWord(f: nat, code: seq<Page>, size: nat, g: nat, x: nat, was: nat): nat {
    if g < f || (g - f) / 4096 >= |code| || x >= 512 || g - f + x * 8 >= size then was
    else if g - f + x * 8 + 8 <= size then code[(g - f) / 4096][x]
    else Mixed(code[(g - f) / 4096][x], was, size - (g - f + x * 8))
  }

  function CopiedFrame(f: nat, code: seq<Page>, size: nat, g: nat, was: seq<nat>): (r: seq<nat>)
    ensures |r| == |was|
  {
    seq(|was|, x requires 0 <= x < |was| => CopiedWord(f, code, size, g, x, was[x]))
  }

  function CopyOut(word: Words, f: nat, code: seq<Page>, size: nat): Words {
    map g | g in word :: CopiedFrame(f, code, size, g, word[g])
  }

  /** The page of an image of at most one page. */
  function ImagePage(code: seq<Page>, size: nat): Page {
    CopiedFrame(0, code, size, 0, ZeroPage())
  }

  lemma FreshCopy(word: Words, f: nat, code: seq<Page>, size: nat)
    requires f in word && word[f] == ZeroPage()
    ensures CopyOut(word, f, code, size)[f] == ImagePage(code, size)
  {
  }

  lemma {:induction false} MixedByte(c: nat, was: nat, k: nat, j: nat)
    ensures ByteOf(Mixed(c, was, k), j) == if j < k then ByteOf(c, j) else ByteOf(was, j)
    decreases j
  {
    if k > 0 {
      var m := Mixed(c / 256, was / 256, k - 1);
      assert (c % 256 + 256 * m) % 256 == c % 256 && (c % 256 + 256 * m) / 256 == m;
      if j > 0 {
        MixedByte(c / 256, was / 256, k - 1, j - 1);
      }
    }
  }

  /** After the copy byte b of the frame i pages behind f is byte i * 4096 + b of the image,
      if the image is that long, and as it was otherwise. */
  lemma CopiedByte(word: Words, f: nat, code: seq<Page>, size: nat, i: nat, b: nat)
    requires |code| == Pages(size) && f + i * 4096 in word && |word[f + i * 4096]| == 512 && b < 4096
    ensures var g := f + i * 4096;
      && |CopyOut(word, f, code, size)[g]| == 512 && (i * 4096 + b < size ==> i < |code|)
      && ByteOf(CopyOut(word, f, code, size)[g][b / 8], b % 8) ==
           if i * 4096 + b < size then ByteOf(code[i][b / 8], b % 8) else ByteOf(word[g][b / 8], b % 8)
  {
    var g, x := f + i * 4096, b / 8;
    assert (g - f) / 4096 == i && b == x * 8 + b % 8;
    var left := size - (i * 4096 + x * 8);
    if 0 < left < 8 {
      MixedByte(code[i][x], word[g][x], left, b % 8);
    }
    hide Mixed, ByteOf;
  }

  lemma {:induction false} ZeroByte(j: nat)
    ensures ByteOf(0, j) == 0
  {
    if j > 0 {
      ZeroByte(j - 1);
    }
  }

  /** The code page holds the bytes of the image and zeros behind them. */
  lemma ImageBytes(code: seq<Page>, size: nat, b: nat)
    requires 0 < size <= 4096 && |code| == Pages(size) && b < 4096
    ensures |code| == 1
    ensures ByteOf(ImagePage(code, size)[b / 8], b % 8) == if b < size then ByteOf(code[0][b / 8], b % 8) else 0
  {
    var word: Words := map[0 := ZeroPage()];
    FreshCopy(word, 0, code, size);
    CopiedByte(word, 0, code, size, 0, b);
    ZeroByte(b % 8);
    hide ByteOf, CopyOut, ImagePage;
  }

  /** Frames behind the page are spared, in every memory, exactly by images of one page. */
  lemma SpillExact(f: nat, code: seq<Page>, size: nat)
    requires |code| == Pages(size) && PageAligned(f)
    ensures (forall word: Words, g: nat :: g in word && g != f && PageAligned(g) ==>
               CopyOut(word, f, code, size)[g] == word[g]) <==> size <= 4096
  {
    if size <= 4096 {
      forall word: Words, g: nat | g in word && g != f && PageAligned(g)
        ensures CopyOut(word, f, code, size)[g] == word[g] {
        if g > f {
          AlignedGap(g, f);
        }
      }
    } else {
      var c, g := code[1][0], f + 4096;
      var was := if c % 256 == 0 then 1 else 0;
      var word: Words := map[g := seq(512, _ => was)];
      assert word[g][0] == was;
      assert CopyOut(word, f, code, size)[g][0] == CopiedWord(f, code, size, g, 0, was) != was;
      AlignedGap(f, f);
    }
  }
}
