/** The tables that mapping a range needs and the tree does not have: counted, they decide whether memory is enough. */
module X86Need {
  import opened PageTree
  import opened X86Pages
  import opened X86Unmap
  import opened X86Map

  /** Pages [a, e) of tree t are to map the frames from p on. */
  datatype Request = Request(t: X86Tree, a: nat, e: nat, p: Frame)

  ghost predicate HasTable(t: X86Tree, level: nat, base: nat) {
    exists g :: g in t.place && t.place[g].level == level && t.place[g].base == base
  }

  /** The slot that starts at s gets one large page. */
  ghost predicate Large(r: Request, level: nat, s: nat) {
    && 0 < level < 3 && r.a <= s && s + Span(level) <= r.e && Aligned(level, r.p + (s - r.a))
    && !HasTable(r.t, level - 1, s)
  }

  /** The range reaches into the region of a table that is not there, and the region is not part of a large page. */
  ghost predicate Needed(r: Request, level: nat, base: nat) {
    && level < 3 && Aligned(level + 1, base) && r.a < r.e && base < r.e && r.a < base + Span(level + 1)
    && !HasTable(r.t, level, base)
    && (level < 2 ==> !Large(r, 2, AlignDown(2, base)))
    && (level < 1 ==> !Large(r, 1, base))
  }

  ghost function NeededTables(r: Request): (s: set<(nat, nat)>) {
    set level, base | 0 <= level < 3 && 0 <= base < r.e && Needed(r, level, base) :: (level, base)
  }

  // ---------------------------------------------------------------- tables and their places

  lemma BaseUnique(p: Place, q: Place, v: nat)
    requires PlaceOk(p) && PlaceOk(q) && p.level == q.level && Covers(p, v) && Covers(q, v)
    ensures p.base == q.base
  {
    if p.level < 3 {
      var k := AlignedTimes(p.level + 1, p.base);
      var j := AlignedTimes(p.level + 1, q.base);
      hide Times, Over, Aligned;
      Between(p.level + 1, k, v);
      Between(p.level + 1, j, v);
    }
  }

  /** No two tables stand for the same pages. */
  lemma {:induction false} PlaceUnique(t: X86Tree, f: Frame, g: Frame)
    requires Wf(t) && f in t.tables && g in t.tables
    requires t.place[f].level == t.place[g].level && t.place[f].base == t.place[g].base
    ensures f == g
    decreases 3 - t.place[f].level
  {
    assert TableOk(t, f) && TableOk(t, g);
    OnlyRoot(t, f);
    OnlyRoot(t, g);
    if t.place[f].level < 3 {
      assert Linked(t, f) && Linked(t, g);
      var fu, gu := t.place[f].up, t.place[g].up;
      assert TableOk(t, fu) && TableOk(t, gu);
      BaseUnique(t.place[fu], t.place[gu], t.place[f].base);
      PlaceUnique(t, fu, gu);
    }
  }

  lemma OnlyRoot(t: X86Tree, f: Frame)
    requires Wf(t) && f in t.tables
    ensures t.place[f].level < 3 <==> f != t.root
  {
    assert f != t.root ==> Linked(t, f);
  }

  /** Below an absent entry there is no table. */
  lemma AbsentNoTable(t: X86Tree, f: Frame, i: nat)
    requires At(t, f, i) && t.tables[f][i].Absent? && t.place[f].level > 0
    ensures !HasTable(t, t.place[f].level - 1, Slot(t.place[f], i))
  {
    hide Slot, Aligned;
    var s := Slot(t.place[f], i);
    if HasTable(t, t.place[f].level - 1, s) {
      var g :| g in t.place && t.place[g].level == t.place[f].level - 1 && t.place[g].base == s;
      assert Linked(t, g);
      var up := t.place[g].up;
      assert TableOk(t, up) && TableOk(t, f);
      BelowSlot(t.place[f], i, f);
      BaseUnique(t.place[up], t.place[f], s);
      PlaceUnique(t, up, f);
    }
  }

  /** A walk that ends at some level or below goes through a table of that level. */
  lemma {:induction false} WalkHas(t: X86Tree, f: Frame, v: nat, level: nat) returns (g: Frame)
    requires Wf(t) && f in t.tables && Covers(t.place[f], v) && WalkFrom(t, f, v).level <= level <= t.place[f].level
    ensures g in t.tables && t.place[g].level == level && Covers(t.place[g], v)
    decreases t.place[f].level
  {
    if t.place[f].level == level {
      g := f;
    } else {
      assert TableOk(t, f);
      var i := Index(t.place[f], v);
      assert EntryOk(t, f, i);
      g := WalkHas(t, t.tables[f][i].next, v, level);
    }
  }

  // ---------------------------------------------------------------- the tables a map makes

  /** The tables of the request are still there, and every other one was needed. */
  ghost predicate Grown(r: Request, t1: X86Tree) {
    && (forall f | f in r.t.place :: f in t1.place && t1.place[f] == r.t.place[f])
    && (forall g | g in t1.place && g !in r.t.place :: Needed(r, t1.place[g].level, t1.place[g].base))
  }

  ghost predicate Lacks(r: Request, t1: X86Tree) {
    exists level: nat, base: nat :: Needed(r, level, base) && !HasTable(t1, level, base)
  }

  lemma GrownNone(t: X86Tree, a: nat, e: nat, p: Frame)
    ensures Grown(Request(t, a, e, p), t)
  {
  }

  lemma GrownSame(r: Request, t1: X86Tree, t2: X86Tree)
    requires Grown(r, t1) && t2.place == t1.place
    ensures Grown(r, t2)
  {
    hide Needed;
  }

  lemma GrownHas(r: Request, t1: X86Tree, level: nat, base: nat)
    requires Grown(r, t1) && HasTable(r.t, level, base)
    ensures HasTable(t1, level, base)
  {
    hide Needed;
    var g :| g in r.t.place && r.t.place[g].level == level && r.t.place[g].base == base;
    assert t1.place[g] == r.t.place[g];
  }

  /** The cursor stands where the request begins or at the start of the slot, and no large page will do. */
  ghost predicate Descends(r: Request, level: nat, s: nat, v: nat) {
    && level <= 3 && r.a <= v < r.e && s <= v < s + Span(level) && (v == r.a || v == s)
    && !(level < 3 && Aligned(level, v) && Aligned(level, r.p + (v - r.a)) && r.e - v >= Span(level))
  }

  /** The table about to be made is needed. */
  lemma TableNeeded(r: Request, t1: X86Tree, f: Frame, i: nat, v: nat)
    requires Grown(r, t1) && At(t1, f, i) && t1.tables[f][i].Absent? && t1.place[f].level > 0
    requires Descends(r, t1.place[f].level, Slot(t1.place[f], i), v)
    ensures Needed(r, t1.place[f].level - 1, Slot(t1.place[f], i)) && Lacks(r, t1)
    ensures !HasTable(t1, t1.place[f].level - 1, Slot(t1.place[f], i))
  {
    hide Needed, Wf, HasTable;
    var level, s := t1.place[f].level, Slot(t1.place[f], i);
    AbsentNoTable(t1, f, i);
    BelowSlot(t1.place[f], i, f);
    if HasTable(r.t, level - 1, s) {
      GrownHas(r, t1, level - 1, s);
    }
    if level < 3 {
      NotLarge(r, level, s, v);
    }
    if level == 1 {
      NotLargeAbove(r, t1, f, s);
    }
    NeededHere(r, level, s, v);
  }

  lemma NotLarge(r: Request, level: nat, s: nat, v: nat)
    requires 0 < level < 3 && Aligned(level, s) && Descends(r, level, s, v)
    ensures !Large(r, level, s)
  {
  }

  /** Inside a table of 2 MiB slots: had the region been one large page, the table would not be there. */
  lemma NotLargeAbove(r: Request, t1: X86Tree, f: Frame, s: nat)
    requires Grown(r, t1) && f in t1.place && PlaceOk(t1.place[f]) && t1.place[f].level == 1 && Covers(t1.place[f], s)
    ensures !Large(r, 2, AlignDown(2, s))
  {
    var base := t1.place[f].base;
    assert AlignDown(2, s) == base == AlignDown(2, base) by { DownTo(base, s); }
    if f in r.t.place {
      assert HasTable(r.t, 1, base);
    }
  }

  lemma DownTo(base: nat, s: nat)
    requires Aligned(2, base) && base <= s < base + Span(2)
    ensures AlignDown(2, s) == base == AlignDown(2, base)
  {
  }

  lemma NeededHere(r: Request, level: nat, s: nat, v: nat)
    requires 0 < level <= 3 && Aligned(level, s) && !HasTable(r.t, level - 1, s)
    requires r.a <= v < r.e && s <= v < s + Span(level)
    requires level < 3 ==> !Large(r, level, s)
    requires level == 1 ==> !Large(r, 2, AlignDown(2, s))
    ensures Needed(r, level - 1, s)
  {
    hide HasTable, Large;
    if level == 2 {
      DownTo(s, s);
    }
  }

  lemma GrownLink(r: Request, t1: X86Tree, t2: X86Tree, g: Frame, p: Place)
    requires Grown(r, t1) && g !in t1.place && t2.place == t1.place[g := p] && Needed(r, p.level, p.base)
    ensures Grown(r, t2)
  {
    hide Needed;
  }

  // ---------------------------------------------------------------- a finished map has made them all

  lemma SlotAround(level: nat, lower: nat, base: nat, v: nat)
    requires lower < level < 3 && Aligned(lower + 1, base) && base <= v < base + Span(lower + 1)
    ensures AlignDown(level, v) == AlignDown(level, base)
    ensures level == lower + 1 ==> AlignDown(level, base) == base
  {
    if level == 2 && lower == 0 {
      DownTwo(base, v);
    } else {
      Between(level, Over(level, base), v);
    }
  }

  lemma DownTwo(base: nat, v: nat)
    requires base % 512 == 0 && base <= v < base + 512
    ensures v / 262144 == base / 262144
  {
  }

  lemma PageStart(level: nat, frame: Frame, v: nat, q: Frame)
    requires level < 3 && Aligned(level, frame) && PageFrame(level, frame, v) == q
    ensures frame + (v - AlignDown(level, v)) == q
  {
  }

  lemma MadeLarge(r: Request, t1: X86Tree, v: nat, flags: MmuFlags)
    requires Grown(r, t1) && Added(r.t, t1, r.a, r.e, r.p, flags) && r.a <= v < r.e && Walk(t1, v).level > 0
    ensures Large(r, Walk(t1, v).level, AlignDown(Walk(t1, v).level, v))
  {
    hide Wf, AlignDown, Aligned, Walk, Needed, PageFrame;
    var w := Walk(t1, v);
    var s := AlignDown(w.level, v);
    assert w.Hit? && r.a <= s && s + Span(w.level) <= r.e;
    PageStart(w.level, w.frame, v, r.p + (v - r.a));
    if HasTable(r.t, w.level - 1, s) {
      GrownHas(r, t1, w.level - 1, s);
      ThroughTable(t1, w.level - 1, s, v);
    }
  }

  lemma ThroughTable(t: X86Tree, level: nat, base: nat, v: nat)
    requires Wf(t) && level < 3 && HasTable(t, level, base) && base <= v < base + Span(level + 1) && v < LIMIT
    ensures Walk(t, v).level <= level
  {
    var g :| g in t.place && t.place[g].level == level && t.place[g].base == base;
    WalkThrough(t, g, v);
  }

  lemma AllMade(r: Request, t1: X86Tree, flags: MmuFlags, level: nat, base: nat)
    requires Grown(r, t1) && Added(r.t, t1, r.a, r.e, r.p, flags) && Needed(r, level, base)
    ensures HasTable(t1, level, base)
  {
    hide Wf, Walk, Packed, Trans, AlignDown, Large, HasTable;
    var v := if r.a < base then base else r.a;
    if Walk(t1, v).level > level {
      Hits(r, t1, flags, v);
      SlotAround(Walk(t1, v).level, level, base, v);
      MadeLarge(r, t1, v, flags);
    }
    TableFor(t1, v, level, base);
  }

  lemma Hits(r: Request, t1: X86Tree, flags: MmuFlags, v: nat)
    requires Added(r.t, t1, r.a, r.e, r.p, flags) && r.a <= v < r.e
    ensures v < LIMIT && Wf(t1) && Walk(t1, v).Hit? && Walk(t1, v).level < 3
  {
    hide Wf;
  }

  lemma TableFor(t: X86Tree, v: nat, level: nat, base: nat)
    requires Wf(t) && v < LIMIT && level < 3 && Walk(t, v).level <= level
    requires Aligned(level + 1, base) && base <= v < base + Span(level + 1)
    ensures HasTable(t, level, base)
  {
    var g := WalkHas(t, t.root, v, level);
    assert TableOk(t, g);
    var k := AlignedTimes(level + 1, base);
    var j := AlignedTimes(level + 1, t.place[g].base);
    Between(level + 1, k, v);
    Between(level + 1, j, v);
    assert t.place[g].level == level && t.place[g].base == base;
  }

  // ---------------------------------------------------------------- counting

  ghost function PlacesOf(t: X86Tree, s: set<Frame>): (r: set<(nat, nat)>) {
    set g | g in s && g in t.place :: (t.place[g].level, t.place[g].base)
  }

  lemma {:induction false} PlacesCount(t: X86Tree, s: set<Frame>)
    requires Wf(t) && s <= t.place.Keys
    ensures |PlacesOf(t, s)| == |s|
    decreases |s|
  {
    if s != {} {
      var g :| g in s;
      PlacesCount(t, s - {g});
      var here := (t.place[g].level, t.place[g].base);
      if here in PlacesOf(t, s - {g}) {
        var h :| h in s - {g} && (t.place[h].level, t.place[h].base) == here;
        PlaceUnique(t, g, h);
      }
      assert PlacesOf(t, s) == PlacesOf(t, s - {g}) + {here};
    }
  }

  lemma Smaller<T>(a: set<T>, b: set<T>)
    requires a <= b
    ensures |a| <= |b| && (a != b ==> |a| < |b|)
  {
    assert b == a + (b - a);
    if b - a == {} {
      assert a == b;
    }
  }

  /** No more tables are made than are needed, and fewer if one is still missing. */
  lemma CountMade(r: Request, t1: X86Tree)
    requires Wf(t1) && Grown(r, t1)
    ensures
      var made := t1.place.Keys - r.t.place.Keys;
      |made| <= |NeededTables(r)| && (Lacks(r, t1) ==> |made| < |NeededTables(r)|)
  {
    hide Wf, Needed;
    var made := t1.place.Keys - r.t.place.Keys;
    PlacesCount(t1, made);
    forall x | x in PlacesOf(t1, made) ensures x in NeededTables(r) {
      NeededBound(r, x.0, x.1);
    }
    Smaller(PlacesOf(t1, made), NeededTables(r));
    if Lacks(r, t1) {
      var level: nat, base: nat :| Needed(r, level, base) && !HasTable(t1, level, base);
      NeededBound(r, level, base);
      assert (level, base) in NeededTables(r) && (level, base) !in PlacesOf(t1, made);
    }
  }

  lemma NeededBound(r: Request, level: nat, base: nat)
    requires Needed(r, level, base)
    ensures level < 3 && base < r.e
  {
  }

  /** A finished map has made exactly the tables needed. */
  lemma CountAll(r: Request, t1: X86Tree, flags: MmuFlags)
    requires Wf(t1) && Grown(r, t1) && Added(r.t, t1, r.a, r.e, r.p, flags)
    ensures |t1.place.Keys - r.t.place.Keys| == |NeededTables(r)|
  {
    hide Wf, Needed, Added;
    CountMade(r, t1);
    var made := t1.place.Keys - r.t.place.Keys;
    PlacesCount(t1, made);
    forall x | x in NeededTables(r) ensures x in PlacesOf(t1, made) {
      AllMade(r, t1, flags, x.0, x.1);
      var g :| g in t1.place && t1.place[g].level == x.0 && t1.place[g].base == x.1;
      NotThere(r, x.0, x.1);
    }
    Smaller(NeededTables(r), PlacesOf(t1, made));
  }

  lemma NotThere(r: Request, level: nat, base: nat)
    requires Needed(r, level, base)
    ensures !HasTable(r.t, level, base)
  {
  }

  /** Pages that became tables are pages gone from the pool. */
  lemma PoolUsed(pool0: set<Frame>, used0: set<Frame>, pool1: set<Frame>, used1: set<Frame>)
    requires pool0 !! used0 && pool1 !! used1 && pool0 + used0 == pool1 + used1 && used0 <= used1
    ensures |used1 - used0| == |pool0| - |pool1|
  {
    assert used1 - used0 == pool0 - pool1 by {
      assert forall x :: x in used1 - used0 <==> x in pool0 - pool1;
    }
    assert pool0 == pool1 + (pool0 - pool1);
  }
}
