/** The word-wise bitmap routines, against the set of numbers a bitmap stands for. */
module Bitmap {

  type Word = bv64

  const WORD_BITS: nat := 64
  const ONES: Word := 0xFFFF_FFFF_FFFF_FFFF

  // ---------------------------------------------------------------- bits of a word

  function Pos(i: nat): (p: bv6)
    requires i < WORD_BITS
  {
    i as bv6
  }

  lemma PosValue(i: nat)
    requires i < WORD_BITS
    ensures Pos(i) as nat == i
  {
  }

  lemma PosCompare(a: bv6, b: bv6)
    ensures a <= b <==> a as nat <= b as nat
  {
  }

  lemma PosOrder(i: nat, j: nat)
    requires i < WORD_BITS && j < WORD_BITS
    ensures Pos(i) <= Pos(j) <==> i <= j
  {
    hide Pos;
    PosValue(i);
    PosValue(j);
    PosCompare(Pos(i), Pos(j));
  }

  lemma SuccValue(a: bv6)
    requires a < 63
    ensures (a + 1) as nat == a as nat + 1
  {
  }

  lemma SameValue(a: bv6, b: bv6)
    requires a as nat == b as nat
    ensures a == b
  {
  }

  lemma PosNext(i: nat)
    requires i + 1 < WORD_BITS
    ensures Pos(i) < 63 && Pos(i + 1) == Pos(i) + 1
  {
    hide Pos;
    PosValue(i);
    PosValue(i + 1);
    PosCompare(62, Pos(i));
    PosCompare(Pos(i), 62);
    SuccValue(Pos(i));
    SameValue(Pos(i + 1), Pos(i) + 1);
  }

  predicate BitAt(w: Word, p: bv6) {
    (w >> p) & 1 == 1
  }

  predicate Bit(w: Word, i: nat)
    requires i < WORD_BITS
  {
    BitAt(w, Pos(i))
  }

  /** BITMAP_FIRST_WORD_MASK and BITMAP_LAST_WORD_MASK. */
  function FirstMask(start: nat): (m: Word) {
    ONES << Pos(start % WORD_BITS)
  }

  function LastMask(size: nat): (m: Word) {
    if size % WORD_BITS != 0 then (1 << Pos(size % WORD_BITS)) - 1 else ONES
  }

  lemma FirstBits(p: bv6, q: bv6)
    ensures BitAt(ONES << p, q) <==> q >= p
  {
  }

  lemma LastBits(p: bv6, q: bv6)
    requires p != 0
    ensures BitAt((1 << p) - 1, q) <==> q < p
  {
  }

  function Meet(v: Word, w: Word): (r: Word) {
    v & w
  }

  lemma AndBits(v: Word, w: Word, p: bv6)
    ensures BitAt(Meet(v, w), p) <==> BitAt(v, p) && BitAt(w, p)
  {
  }

  lemma OrBits(v: Word, w: Word, p: bv6)
    ensures BitAt(v | w, p) <==> BitAt(v, p) || BitAt(w, p)
  {
  }

  lemma ClearBits(v: Word, w: Word, p: bv6)
    ensures BitAt(v & !w, p) <==> BitAt(v, p) && !BitAt(w, p)
  {
  }

  lemma FirstMaskBits(start: nat, i: nat)
    requires i < WORD_BITS
    ensures Bit(FirstMask(start), i) <==> i >= start % WORD_BITS
  {
    hide Pos, BitAt;
    FirstBits(Pos(start % WORD_BITS), Pos(i));
    PosOrder(start % WORD_BITS, i);
  }

  lemma LastMaskBits(size: nat, i: nat)
    requires i < WORD_BITS
    ensures Bit(LastMask(size), i) <==> size % WORD_BITS == 0 || i < size % WORD_BITS
  {
    hide Pos, BitAt;
    if size % WORD_BITS == 0 {
      AllBits(Pos(i));
    } else {
      PosNotZero(size % WORD_BITS);
      LastBits(Pos(size % WORD_BITS), Pos(i));
      PosOrder(size % WORD_BITS, i);
    }
  }

  lemma AllBits(p: bv6)
    ensures BitAt(ONES, p)
  {
  }

  lemma PosNotZero(i: nat)
    requires 0 < i < WORD_BITS
    ensures Pos(i) != 0
  {
    PosValue(i);
  }

  // ---------------------------------------------------------------- the numbers in a bitmap

  /** Number n is in the bitmap. */
  predicate Member(words: seq<Word>, n: nat) {
    n / WORD_BITS < |words| && Bit(words[n / WORD_BITS], n % WORD_BITS)
  }

  /** The words hold the old bits, with those of numbers from `from` up to but not including `to` replaced. */
  ghost predicate Replaced(before: seq<Word>, after: seq<Word>, from: nat, to: nat, value: bool) {
    && |after| == |before|
    && forall k, i | 0 <= k < |after| && 0 <= i < WORD_BITS ::
         Bit(after[k], i) <==> if from <= WORD_BITS * k + i < to then value else Bit(before[k], i)
  }

  /** Exactly the numbers of the range are added, or taken out. */
  lemma ReplacedMembers(before: seq<Word>, after: seq<Word>, from: nat, to: nat, value: bool, n: nat)
    requires Replaced(before, after, from, to, value) && to <= WORD_BITS * |before|
    ensures Member(after, n) <==> if from <= n < to then value else Member(before, n)
  {
    hide Bit;
    assert n == WORD_BITS * (n / WORD_BITS) + n % WORD_BITS;
  }

  lemma ReplacedNone(words: seq<Word>, from: nat, value: bool)
    ensures Replaced(words, words, from, from, value)
  {
    hide Bit;
  }

  /** One word changed by a mask that selects the numbers from `at` up to but not including `to` in it. */
  lemma ReplacedMore(before: seq<Word>, mid: seq<Word>, from: nat, at: nat, to: nat, k: nat, w: Word, value: bool)
    requires Replaced(before, mid, from, at, value) && from <= at < to && k < |mid|
    requires WORD_BITS * k <= at && to <= WORD_BITS * (k + 1)
    requires forall i | 0 <= i < WORD_BITS ::
               Bit(w, i) <==> if at <= WORD_BITS * k + i < to then value else Bit(mid[k], i)
    ensures Replaced(before, mid[k := w], from, to, value)
  {
    hide Bit;
  }

  // ---------------------------------------------------------------- the routines

  function Changed(w: Word, mask: Word, value: bool): (r: Word) {
    if value then w | mask else w & !mask
  }

  lemma ChangedBits(w: Word, mask: Word, value: bool, i: nat)
    requires i < WORD_BITS
    ensures Bit(Changed(w, mask, value), i) <==> if Bit(mask, i) then value else Bit(w, i)
  {
    hide Pos, BitAt;
    OrBits(w, mask, Pos(i));
    ClearBits(w, mask, Pos(i));
  }

  lemma WholeTail(mid: seq<Word>, at: nat, k: nat, value: bool)
    requires k < |mid| && at / WORD_BITS == k
    ensures forall i | 0 <= i < WORD_BITS ::
              Bit(Changed(mid[k], FirstMask(at), value), i) <==>
                if at <= WORD_BITS * k + i < WORD_BITS * (k + 1) then value else Bit(mid[k], i)
  {
    hide Bit, Changed, FirstMask;
    forall i | 0 <= i < WORD_BITS
      ensures Bit(Changed(mid[k], FirstMask(at), value), i) <==>
                if at <= WORD_BITS * k + i < WORD_BITS * (k + 1) then value else Bit(mid[k], i)
    {
      ChangedBits(mid[k], FirstMask(at), value, i);
      FirstMaskBits(at, i);
    }
  }

  lemma PartTail(mid: seq<Word>, at: nat, to: nat, k: nat, value: bool)
    requires k < |mid| && at / WORD_BITS == k && at < to < WORD_BITS * (k + 1)
    ensures forall i | 0 <= i < WORD_BITS ::
              Bit(Changed(mid[k], Meet(FirstMask(at), LastMask(to)), value), i) <==>
                if at <= WORD_BITS * k + i < to then value else Bit(mid[k], i)
  {
    hide Pos, BitAt, Changed, FirstMask, LastMask, Meet;
    forall i | 0 <= i < WORD_BITS
      ensures Bit(Changed(mid[k], Meet(FirstMask(at), LastMask(to)), value), i) <==>
                if at <= WORD_BITS * k + i < to then value else Bit(mid[k], i)
    {
      ChangedBits(mid[k], Meet(FirstMask(at), LastMask(to)), value, i);
      AndBits(FirstMask(at), LastMask(to), Pos(i));
      FirstMaskBits(at, i);
      LastMaskBits(to, i);
    }
  }

  lemma FullMask(at: nat)
    requires at % WORD_BITS == 0
    ensures FirstMask(at) == ONES
  {
    assert Pos(0) == 0;
  }

  /** bitmap_set, with value true, and bitmap_clear, with value false: the same walk over the words. */
  method BitmapChange(bitmap: array<Word>, start: nat, count: nat, value: bool)
    requires start + count <= WORD_BITS * bitmap.Length
    modifies bitmap
    ensures Replaced(old(bitmap[..]), bitmap[..], start, start + count, value)
  {
    hide Bit, Changed, FirstMask, LastMask, Meet, Replaced;
    var p := start / WORD_BITS;
    var nr: int := count;
    var bits := WORD_BITS - start % WORD_BITS;
    var mask := FirstMask(start);
    ReplacedNone(bitmap[..], start, value);
    ghost var at: nat := start;
    while nr - bits >= 0
      invariant 0 <= nr && at + nr == start + count && p == at / WORD_BITS
      invariant bits == WORD_BITS - at % WORD_BITS && mask == FirstMask(at)
      invariant start <= at && Replaced(old(bitmap[..]), bitmap[..], start, at, value)
      decreases nr
    {
      ReplacedWhole(old(bitmap[..]), bitmap[..], start, at, p, value);
      UpdateWord(bitmap, p, mask, value);
      nr := nr - bits;
      at := at + bits;
      FullMask(at);
      bits := WORD_BITS;
      mask := ONES;
      p := p + 1;
    }
    if nr != 0 {
      ReplacedPart(old(bitmap[..]), bitmap[..], start, at, start + count, p, value);
      mask := Meet(mask, LastMask(start + count));
      UpdateWord(bitmap, p, mask, value);
    }
  }

  method UpdateWord(bitmap: array<Word>, p: nat, mask: Word, value: bool)
    requires p < bitmap.Length
    modifies bitmap
    ensures bitmap[..] == old(bitmap[..])[p := Changed(old(bitmap[p]), mask, value)]
  {
    if value {
      bitmap[p] := bitmap[p] | mask;
    } else {
      bitmap[p] := bitmap[p] & !mask;
    }
  }

  lemma ReplacedWhole(before: seq<Word>, mid: seq<Word>, from: nat, at: nat, k: nat, value: bool)
    requires Replaced(before, mid, from, at, value) && from <= at && k < |mid| && at / WORD_BITS == k
    ensures
      var mid2 := mid[k := Changed(mid[k], FirstMask(at), value)];
      Replaced(before, mid2, from, at + WORD_BITS - at % WORD_BITS, value)
  {
    hide Bit, Changed, FirstMask, Replaced;
    WholeTail(mid, at, k, value);
    var w := Changed(mid[k], FirstMask(at), value);
    ReplacedMore(before, mid, from, at, at + WORD_BITS - at % WORD_BITS, k, w, value);
  }

  lemma ReplacedPart(before: seq<Word>, mid: seq<Word>, from: nat, at: nat, to: nat, k: nat, value: bool)
    requires Replaced(before, mid, from, at, value)
    requires from <= at < to < WORD_BITS * (k + 1) && k < |mid| && at / WORD_BITS == k
    ensures Replaced(before, mid[k := Changed(mid[k], Meet(FirstMask(at), LastMask(to)), value)], from, to, value)
  {
    hide Bit, Changed, FirstMask, LastMask, Meet, Replaced;
    PartTail(mid, at, to, k, value);
    ReplacedMore(before, mid, from, at, to, k, Changed(mid[k], Meet(FirstMask(at), LastMask(to)), value), value);
  }

  // ---------------------------------------------------------------- the first zero

  function LowMask(p: bv6): (m: Word) {
    (1 << p) - 1
  }

  /** The bits below p are all set. */
  predicate LowFull(w: Word, p: bv6) {
    w & LowMask(p) == LowMask(p)
  }

  lemma LowGrows(w: Word, p: bv6)
    requires LowFull(w, p) && BitAt(w, p)
    ensures p < 63 ==> LowFull(w, p + 1)
    ensures p == 63 ==> w == ONES
  {
  }

  /** _ffz: the lowest clear bit of a word that has one. */
  method Ffz(w: Word) returns (i: nat)
    requires w != ONES
    ensures i < WORD_BITS && !Bit(w, i) && forall j | 0 <= j < i :: Bit(w, j)
  {
    hide Pos, LowFull, BitAt;
    i := 0;
    LowStart(w);
    while Bit(w, i)
      invariant i < WORD_BITS && LowFull(w, Pos(i))
      invariant forall j | 0 <= j < i :: Bit(w, j)
      decreases WORD_BITS - i
    {
      LowGrows(w, Pos(i));
      if i + 1 < WORD_BITS {
        PosNext(i);
      } else {
        PosLast(i);
      }
      i := i + 1;
    }
  }

  lemma LowStart(w: Word)
    ensures LowFull(w, Pos(0))
  {
    assert Pos(0) == 0;
  }

  lemma PosLast(i: nat)
    requires i == WORD_BITS - 1
    ensures Pos(i) == 63
  {
    PosValue(i);
    SameValue(Pos(i), 63);
  }

  /** bitmap_ffz: the least number below numbits that is not in the bitmap, or -1. */
  method BitmapFfz(bitmap: array<Word>, numbits: nat) returns (bit: int)
    requires numbits <= WORD_BITS * bitmap.Length
    ensures bit == -1 ==> forall n | 0 <= n < numbits :: Member(bitmap[..], n)
    ensures bit != -1 ==> 0 <= bit < numbits && !Member(bitmap[..], bit)
    ensures bit != -1 ==> forall n | 0 <= n < bit :: Member(bitmap[..], n)
  {
    hide Pos, BitAt;
    for i := 0 to (numbits + WORD_BITS - 1) / WORD_BITS
      invariant forall n | 0 <= n < WORD_BITS * i :: Member(bitmap[..], n)
    {
      if bitmap[i] == ONES {
        WordFull(bitmap[..], i);
        continue;
      }
      var low := Ffz(bitmap[i]);
      bit := i * WORD_BITS + low;
      WordLow(bitmap[..], i, low);
      if bit < numbits {
        return bit;
      }
      return -1;
    }
    return -1;
  }

  lemma WordFull(words: seq<Word>, k: nat)
    requires k < |words| && words[k] == ONES && forall n | 0 <= n < WORD_BITS * k :: Member(words, n)
    ensures forall n | 0 <= n < WORD_BITS * (k + 1) :: Member(words, n)
  {
    hide Pos, BitAt;
    forall n | WORD_BITS * k <= n < WORD_BITS * (k + 1) ensures Member(words, n) {
      AllBits(Pos(n % WORD_BITS));
    }
  }

  lemma WordLow(words: seq<Word>, k: nat, low: nat)
    requires k < |words| && low < WORD_BITS && !Bit(words[k], low) && forall j | 0 <= j < low :: Bit(words[k], j)
    requires forall n | 0 <= n < WORD_BITS * k :: Member(words, n)
    ensures !Member(words, k * WORD_BITS + low) && forall n | 0 <= n < k * WORD_BITS + low :: Member(words, n)
  {
    hide Bit;
    forall n | WORD_BITS * k <= n < k * WORD_BITS + low ensures Member(words, n) {
      assert n / WORD_BITS == k && n % WORD_BITS == n - WORD_BITS * k;
    }
  }
}
