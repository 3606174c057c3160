/** The meaning of x86-64 page-table entries, and what unmapping, mapping and protecting a
    range of pages do to the translation. */
module X86Pages {
  import opened PageTree

  datatype Option<T> = None | Some(value: T)

  /** The flag bits of an entry that matter to translation.  `bit7` is PS in an upper-level entry
      and PAT in a leaf-table entry; `bit12` is PAT in an upper-level leaf. */
  datatype Bits = Bits(rw: bool, user: bool, global: bool, nx: bool, wt: bool, cd: bool,
                       bit7: bool, bit12: bool)

  /** `Undecodable` stands for the PAT selectors on which the conversion panics. */
  datatype Cache = Cached | Uncached | UncachedDevice | WriteCombining | Undecodable

  datatype MmuFlags = MmuFlags(readOnly: bool, user: bool, noExecute: bool, cache: Cache)

  /** The flags a caller can ask for: the two cache bits always name one of the four types. */
  type MapFlags = f: MmuFlags | f.cache != Undecodable witness MmuFlags(false, false, false, Cached)

  datatype Mapping = Mapping(frame: Frame, flags: MmuFlags)

  type X86Tree = Tree<Bits>

  // ---------------------------------------------------------------- flag conversion

  /** x86_arch_flags: PAT selector 0 is write-back, 3 uncachable, 7 write-combining. */
  function ArchFlags(level: nat, f: MmuFlags): (b: Bits) {
    var pat := f.cache == WriteCombining;
    var selector3 := f.cache != Cached;
    Bits(!f.readOnly, f.user, !f.user, f.noExecute, selector3, selector3,
         level == 0 && pat, level > 0 && pat)
  }

  /** The entry bits of a page mapped at a level: large pages also get PS. */
  function LeafBits(level: nat, f: MmuFlags): (b: Bits) {
    var b := ArchFlags(level, f);
    if level > 0 then b.(bit7 := true) else b
  }

  /** arch_mmu_flags */
  function FlagsOf(level: nat, b: Bits): (f: MmuFlags) {
    var pat := if level > 0 then b.bit12 else b.bit7;
    var cache :=
      if !pat && !b.cd && !b.wt then Cached
      else if !pat && b.cd && b.wt then Uncached
      else if pat && b.cd && b.wt then WriteCombining
      else Undecodable;
    MmuFlags(!b.rw, b.user, b.nx, cache)
  }

  /** The bits x86_mmu_split gives the pages one level down. */
  function SplitBits(level: nat, b: Bits): (b2: Bits) {
    if level == 1 then
      var c := b.(bit7 := false);
      if c.bit12 then c.(bit12 := false, bit7 := true) else c
    else b
  }

  function Readback(f: MmuFlags): (g: MmuFlags) {
    if f.cache == UncachedDevice then f.(cache := Uncached) else f
  }

  /** A leaf of this level carries the bits the kernel writes there. */
  predicate BitsOk(level: nat, b: Bits) {
    && FlagsOf(level, b).cache != Undecodable
    && (level > 0 ==> b.bit7)
    && (level == 0 ==> !b.bit12)
  }

  lemma FlagsRoundTrip(level: nat, f: MmuFlags)
    requires f.cache != Undecodable
    ensures FlagsOf(level, LeafBits(level, f)) == Readback(f)
    ensures BitsOk(level, LeafBits(level, f))
  {
  }

  lemma SplitKeepsMeaning(level: nat, b: Bits)
    requires 0 < level < 3 && BitsOk(level, b)
    ensures FlagsOf(level - 1, SplitBits(level, b)) == FlagsOf(level, b)
    ensures BitsOk(level - 1, SplitBits(level, b))
  {
  }

  ghost predicate BitsWf(t: X86Tree) {
    && Wf(t)
    && forall f, i | f in t.tables && f in t.place && 0 <= i < |t.tables[f]| && t.tables[f][i].Leaf? ::
         BitsOk(t.place[f].level, t.tables[f][i].attr)
  }

  // ---------------------------------------------------------------- the translation

  /** The frame that page v gets from a leaf of the given level: `frame | (v & offset mask)`. */
  function PageFrame(level: nat, frame: Frame, v: nat): (p: Frame)
    requires level <= 3
  {
    frame + (v - AlignDown(level, v))
  }

  function Meaning(r: Found<Bits>, v: nat): (m: Option<Mapping>)
    requires r.level <= 3
  {
    match r
    case Hole(_) => None
    case Hit(level, frame, attr) => Some(Mapping(PageFrame(level, frame, v), FlagsOf(level, attr)))
  }

  /** The address space as a partial map from pages to frames and flags. */
  function Trans(t: X86Tree, v: nat): (m: Option<Mapping>)
    requires Wf(t) && v < LIMIT
  {
    Meaning(Walk(t, v), v)
  }

  /** The level at which the walk of v meets an absent entry, or -1 when v is mapped. */
  function Shape(t: X86Tree, v: nat): (l: int)
    requires Wf(t) && v < LIMIT
    ensures -1 <= l <= 3
  {
    var r := Walk(t, v);
    if r.Hole? then r.level else -1
  }

  // ---------------------------------------------------------------- the pages an unmap visits

  function Min(a: nat, b: nat): (m: nat) { if a <= b then a else b }

  /** Page v is visited by the unmap cursor travelling from cur to e: a mapped page moves the
      cursor by one, a hole of level l moves it by a whole Span(l) wherever it stands. */
  ghost predicate Visits(t: X86Tree, cur: nat, e: nat, v: nat)
    requires Wf(t) && e <= LIMIT
    decreases e - cur
  {
    if cur >= e then false
    else
      var l := Shape(t, cur);
      if l >= 0 then Visits(t, Min(cur + Span(l), e), e, v)
      else v == cur || Visits(t, cur + 1, e, v)
  }

  lemma {:induction false} VisitsBounds(t: X86Tree, cur: nat, e: nat, v: nat)
    requires Wf(t) && e <= LIMIT && Visits(t, cur, e, v)
    ensures cur <= v < e && Shape(t, v) == -1
    decreases e - cur
  {
    hide Wf, Walk, Shape, Span;
    var l := Shape(t, cur);
    if l >= 0 {
      VisitsBounds(t, Min(cur + Span(l), e), e, v);
    } else if v != cur {
      VisitsBounds(t, cur + 1, e, v);
    }
  }

  lemma VisitsHole(t: X86Tree, cur: nat, l: nat, e: nat, v: nat)
    requires Wf(t) && cur < e <= LIMIT && Shape(t, cur) == l
    ensures l <= 3
    ensures Visits(t, cur, e, v) <==> Visits(t, Min(cur + Span(l), e), e, v)
  {
  }

  lemma {:induction false} VisitsFrame(t: X86Tree, t2: X86Tree, cur: nat, e: nat, v: nat)
    requires Wf(t) && Wf(t2) && e <= LIMIT
    requires forall u | cur <= u < e :: Shape(t2, u) == Shape(t, u)
    ensures Visits(t2, cur, e, v) <==> Visits(t, cur, e, v)
    decreases e - cur
  {
    hide Wf, Walk, Shape, Span;
    if cur < e {
      var l := Shape(t, cur);
      assert Shape(t2, cur) == l;
      if l >= 0 {
        VisitsFrame(t, t2, Min(cur + Span(l), e), e, v);
      } else {
        VisitsFrame(t, t2, cur + 1, e, v);
      }
    }
  }

  /** A run of mapped pages is visited page by page. */
  lemma {:induction false} VisitsRun(t: X86Tree, cur: nat, n: nat, e: nat, v: nat)
    requires Wf(t) && e <= LIMIT && cur + n <= e
    requires forall u | cur <= u < cur + n :: Shape(t, u) == -1
    ensures Visits(t, cur, e, v) <==> cur <= v < cur + n || Visits(t, cur + n, e, v)
    decreases n
  {
    hide Wf, Walk, Shape, Span;
    if n > 0 {
      assert Shape(t, cur) == -1;
      VisitsRun(t, cur + 1, n - 1, e, v);
    }
  }

  /** From t0 to t1 the unmap cursor moved from a to b on its way to e. */
  ghost predicate Removed(t0: X86Tree, t1: X86Tree, a: nat, b: nat, e: nat) {
    && Wf(t0) && Wf(t1) && t1.root == t0.root && a <= b <= e <= LIMIT
    && (forall v | 0 <= v < LIMIT ::
          Trans(t1, v) == if a <= v < b && Visits(t0, a, e, v) then None else Trans(t0, v))
    && (forall v | b <= v < e :: Visits(t0, a, e, v) <==> Visits(t0, b, e, v))
    && (forall u | b <= u < e :: Shape(t1, u) == Shape(t0, u))
  }

  lemma RemovedCompose(t0: X86Tree, t1: X86Tree, t2: X86Tree, a: nat, b: nat, c: nat, e: nat)
    requires Removed(t0, t1, a, b, e) && Removed(t1, t2, b, c, e)
    ensures Removed(t0, t2, a, c, e)
  {
    forall v | 0 <= v < LIMIT
      ensures Trans(t2, v) == if a <= v < c && Visits(t0, a, e, v) then None else Trans(t0, v)
    {
      if b <= v < e {
        VisitsFrame(t0, t1, b, e, v);
      }
    }
    forall v | c <= v < e ensures Visits(t0, a, e, v) <==> Visits(t0, c, e, v) {
      VisitsFrame(t0, t1, b, e, v);
      VisitsFrame(t0, t1, c, e, v);
    }
  }

  lemma RemovedNothing(t: X86Tree, a: nat, e: nat)
    requires Wf(t) && a <= e <= LIMIT
    ensures Removed(t, t, a, a, e)
  {
  }

  /** Entry i of table f, of the given level, stands for the page the cursor is on. */
  ghost predicate OnEntry(t: X86Tree, f: Frame, i: nat, cur: nat) {
    At(t, f, i) && InSlot(t, f, i, cur)
  }

  lemma EntryShape(t: X86Tree, f: Frame, i: nat, v: nat)
    requires OnEntry(t, f, i, v)
    ensures v < LIMIT
    ensures t.tables[f][i].Absent? ==> Shape(t, v) == t.place[f].level
    ensures t.tables[f][i].Leaf? ==> Shape(t, v) == -1
  {
    WalkInSlot(t, f, i, v);
  }

  lemma RemovedJump(t: X86Tree, l: nat, cur: nat, e: nat)
    requires Wf(t) && cur < e <= LIMIT && Shape(t, cur) == l
    ensures l <= 3
    ensures Removed(t, t, cur, Min(cur + Span(l), e), e)
  {
    hide Wf, Walk, Trans, Visits, Span;
    var b := Min(cur + Span(l), e);
    forall v | 0 <= v < LIMIT
      ensures Visits(t, cur, e, v) <==> Visits(t, b, e, v)
      ensures v < b ==> !Visits(t, cur, e, v)
    {
      VisitsHole(t, cur, l, e, v);
      if Visits(t, b, e, v) {
        VisitsBounds(t, b, e, v);
      }
    }
  }

  lemma RemovedHole(t: X86Tree, f: Frame, i: nat, cur: nat, e: nat)
    requires OnEntry(t, f, i, cur) && t.tables[f][i].Absent? && cur < e <= LIMIT
    ensures t.place[f].level <= 3
    ensures Removed(t, t, cur, Min(cur + Span(t.place[f].level), e), e)
  {
    hide Wf, Walk, Trans, Visits, Span, Shape, Removed;
    EntryShape(t, f, i, cur);
    RemovedJump(t, t.place[f].level, cur, e);
  }

  lemma RemovedLeafPage(t: X86Tree, f: Frame, i: nat, cur: nat, e: nat, v: nat)
    requires OnEntry(t, f, i, cur) && t.tables[f][i].Leaf? && e <= LIMIT
    requires cur == Slot(t.place[f], i) && cur + Span(t.place[f].level) <= e
    requires forall u | cur <= u < cur + Span(t.place[f].level) :: Shape(t, u) == -1
    requires v < LIMIT
    ensures Wf(SetEntry(t, f, i, Absent))
    ensures var t2 := SetEntry(t, f, i, Absent);
            var b := cur + Span(t.place[f].level);
            && Trans(t2, v) == (if cur <= v < b && Visits(t, cur, e, v) then None else Trans(t, v))
            && (b <= v < e ==> Shape(t2, v) == Shape(t, v))
            && (b <= v < e ==> (Visits(t, cur, e, v) <==> Visits(t, b, e, v)))
  {
    hide Wf, Visits, Walk;
    SetEntryWalk(t, f, i, Absent, v);
    VisitsRun(t, cur, Span(t.place[f].level), e, v);
  }

  lemma RemovedLeaf(t: X86Tree, f: Frame, i: nat, cur: nat, e: nat)
    requires OnEntry(t, f, i, cur) && t.tables[f][i].Leaf? && e <= LIMIT
    requires cur == Slot(t.place[f], i) && cur + Span(t.place[f].level) <= e
    ensures Removed(t, SetEntry(t, f, i, Absent), cur, cur + Span(t.place[f].level), e)
  {
    hide Wf, Walk, Visits, Trans, Shape, Span, Slot;
    SetEntryWf(t, f, i, Absent);
    var b := cur + Span(t.place[f].level);
    var t2 := SetEntry(t, f, i, Absent);
    forall u | cur <= u < b ensures Shape(t, u) == -1 {
      EntryShape(t, f, i, u);
    }
    forall v | 0 <= v < LIMIT
      ensures Trans(t2, v) == if cur <= v < b && Visits(t, cur, e, v) then None else Trans(t, v)
      ensures b <= v < e ==> Shape(t2, v) == Shape(t, v)
      ensures b <= v < e ==> (Visits(t, cur, e, v) <==> Visits(t, b, e, v))
    {
      RemovedLeafPage(t, f, i, cur, e, v);
    }
  }

  /** Taking out a table that has become empty changes no translation. */
  lemma RemovedUnlink(t0: X86Tree, t1: X86Tree, f: Frame, i: nat, g: Frame, a: nat, b: nat, e: nat)
    requires Removed(t0, t1, a, b, e) && Unlinkable(t1, f, i, g)
    requires b == e || Slot(t1.place[f], i) + Span(t1.place[f].level) <= b
    ensures Removed(t0, Unlink(t1, f, i, g), a, b, e)
  {
    hide Wf, Walk, Visits, Slot, Span;
    UnlinkWf(t1, f, i, g);
    var t2 := Unlink(t1, f, i, g);
    forall v | 0 <= v < LIMIT
      ensures Trans(t2, v) == Trans(t1, v)
      ensures b <= v < e ==> Shape(t2, v) == Shape(t1, v)
    {
      UnlinkWalk(t1, f, i, g, v);
    }
  }

  // ---------------------------------------------------------------- splitting a large page

  function SplitEntries(level: nat, frame: Frame, b: Bits): (m: seq<Entry<Bits>>)
    requires 0 < level < 3
  {
    seq(ENTRIES, j requires 0 <= j < ENTRIES => Leaf(frame + Times(level - 1, j), SplitBits(level, b)))
  }

  lemma SlotStart(p: Place, i: nat, v: nat)
    requires PlaceOk(p) && i < ENTRIES && Slot(p, i) <= v < Slot(p, i) + Span(p.level)
    ensures AlignDown(p.level, v) == Slot(p, i)
  {
    hide Times, Over, Span, Aligned;
    var k := UpTimes(p.level, p.base);
    TimesAdd(p.level, k, i);
    Between(p.level, k + i, v);
  }

  lemma PiecesAligned(level: nat, frame: Frame, j: nat)
    requires 0 < level < 3 && Aligned(level, frame)
    ensures Aligned(level - 1, frame + Times(level - 1, j))
  {
  }

  lemma SplitPlain(level: nat, frame: Frame, b: Bits)
    requires 0 < level < 3 && Aligned(level, frame)
    ensures Plain(SplitEntries(level, frame, b), level - 1)
  {
    var m := SplitEntries(level, frame, b);
    forall j | 0 <= j < ENTRIES ensures m[j].Leaf? && Aligned(level - 1, m[j].frame) {
      PiecesAligned(level, frame, j);
    }
  }

  lemma SplitFrame(p: Place, i: nat, frame: Frame, v: nat)
    requires PlaceOk(p) && 0 < p.level < 3 && i < ENTRIES && Slot(p, i) <= v < Slot(p, i) + Span(p.level)
    ensures var q := Place(p.level - 1, Slot(p, i), p.up);
            Covers(q, v) &&
            PageFrame(q.level, frame + Times(q.level, Index(q, v)), v) == PageFrame(p.level, frame, v)
  {
    SlotStart(p, i, v);
    BelowSlot(p, i, p.up);
    var q := Place(p.level - 1, Slot(p, i), p.up);
    SlotStart(q, Index(q, v), v);
  }

  /** Splitting changes no page's frame, permissions or cache type. */
  lemma SplitKeepsTrans(t: X86Tree, f: Frame, i: nat, g: Frame, v: nat)
    requires At(t, f, i) && t.tables[f][i].Leaf? && 0 < t.place[f].level < 3
    requires g !in t.tables && v < LIMIT && Aligned(t.place[f].level, t.tables[f][i].frame)
    requires BitsOk(t.place[f].level, t.tables[f][i].attr)
    ensures var t2 := Link(t, f, i, g, SplitEntries(t.place[f].level, t.tables[f][i].frame, t.tables[f][i].attr));
            && Wf(t2) && Trans(t2, v) == Trans(t, v) && Shape(t2, v) == Shape(t, v)
            && (!InSlot(t, f, i, v) ==> Walk(t2, v) == Walk(t, v))
  {
    hide Wf, Walk, PageFrame, Times, FlagsOf, SplitBits, Slot, Span, Aligned, BitsOk, Plain;
    var p := t.place[f];
    var e := t.tables[f][i];
    SplitPlain(p.level, e.frame, e.attr);
    LinkWalk(t, f, i, g, SplitEntries(p.level, e.frame, e.attr), v);
    if InSlot(t, f, i, v) {
      WalkInSlot(t, f, i, v);
      SplitFrame(p, i, e.frame, v);
      SplitKeepsMeaning(p.level, e.attr);
    }
  }

  // ---------------------------------------------------------------- the bits stay decodable

  lemma SetEntryBits(t: X86Tree, f: Frame, i: nat, e: Entry<Bits>)
    requires BitsWf(t) && At(t, f, i) && Wf(SetEntry(t, f, i, e))
    requires e.Leaf? ==> BitsOk(t.place[f].level, e.attr)
    ensures BitsWf(SetEntry(t, f, i, e))
  {
    hide Wf;
  }

  lemma LinkBits(t: X86Tree, f: Frame, i: nat, g: Frame, entries: seq<Entry<Bits>>)
    requires BitsWf(t) && At(t, f, i) && g !in t.tables && t.place[f].level > 0
    requires Wf(Link(t, f, i, g, entries))
    requires forall j | 0 <= j < |entries| && entries[j].Leaf? :: BitsOk(t.place[f].level - 1, entries[j].attr)
    ensures BitsWf(Link(t, f, i, g, entries))
  {
    hide Wf, BitsOk;
  }

  lemma UnlinkBits(t: X86Tree, f: Frame, i: nat, g: Frame)
    requires BitsWf(t) && At(t, f, i) && Wf(Unlink(t, f, i, g))
    ensures BitsWf(Unlink(t, f, i, g))
  {
    hide Wf, BitsOk;
    var t2 := Unlink(t, f, i, g);
    forall h, j | h in t2.tables && h in t2.place && 0 <= j < |t2.tables[h]| && t2.tables[h][j].Leaf?
      ensures BitsOk(t2.place[h].level, t2.tables[h][j].attr)
    {
      assert h in t.tables && t.tables[h][j].Leaf?;
    }
  }

  // ---------------------------------------------------------------- frames

  /** Tables above the given level are as they were. */
  ghost predicate Kept(t0: X86Tree, t1: X86Tree, level: nat) {
    forall h | h in t0.tables && h in t0.place && t0.place[h].level > level ::
      h in t1.tables && h in t1.place && t1.tables[h] == t0.tables[h] && t1.place[h] == t0.place[h]
  }

  /** The walks of the pages in [b, e) are as they were. */
  ghost predicate SameWalk(t0: X86Tree, t1: X86Tree, b: nat, e: nat) {
    Wf(t0) && Wf(t1) && e <= LIMIT && forall u | b <= u < e :: Walk(t1, u) == Walk(t0, u)
  }

  /** Every page of [a, e) is mapped by a leaf that lies inside [a, e). */
  ghost predicate Packed(t: X86Tree, a: nat, e: nat) {
    && Wf(t) && e <= LIMIT
    && forall u | a <= u < e ::
         var r := Walk(t, u);
         r.Hit? && a <= AlignDown(r.level, u) && AlignDown(r.level, u) + Span(r.level) <= e
  }

  lemma RemovedSame(t0: X86Tree, t1: X86Tree, a: nat, e: nat)
    requires Wf(t0) && Wf(t1) && t1.root == t0.root && a <= e <= LIMIT
    requires forall v | 0 <= v < LIMIT :: Trans(t1, v) == Trans(t0, v) && Shape(t1, v) == Shape(t0, v)
    ensures Removed(t0, t1, a, a, e)
  {
    hide Wf, Walk, Trans, Visits, Shape;
  }

  // ---------------------------------------------------------------- what the processor makes of the bits

  /** The selector of the memory type: bit 2 is PAT, bit 1 is CD, bit 0 is WT. */
  function Selector(level: nat, b: Bits): (n: nat) {
    (if (if level > 0 then b.bit12 else b.bit7) then 4 else 0) + (if b.cd then 2 else 0) + (if b.wt then 1 else 0)
  }

  /** A leaf grants what was asked for: writes unless read-only, user access and no global entry for user pages only,
      execution unless forbidden; selector 0 is write-back, 3 uncachable and 7 write-combining; a leaf above the last
      level says so. Splitting a leaf gives the leaves that mapping its parts one level down would have written. */
  lemma LeafMeans(level: nat, f: MapFlags)
    ensures
      var b := LeafBits(level, f);
      && b.rw == !f.readOnly && b.user == f.user && b.global == !f.user && b.nx == f.noExecute
      && Selector(level, b) ==
           (match f.cache case Cached => 0 case WriteCombining => 7 case Uncached => 3 case UncachedDevice => 3)
      && (level > 0 ==> b.bit7)
      && (0 < level <= 2 ==> SplitBits(level, b) == LeafBits(level - 1, f))
  {
  }
}
