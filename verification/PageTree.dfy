/** Four-level radix page tables held in physical memory.

    A tree is a map from physical frames to 512-entry tables.  The ghost map `place` records
    where each table hangs (its level, the first page it translates and the table that points
    to it); it turns "no table is shared, leaked or dangling" into a flat condition on entries.
    All addresses are counted in 4 KiB pages. */
module PageTree {

  type Frame = nat

  const ENTRIES: nat := 512

  /** Pages translated by one entry at the given level (level 0 is the leaf table). */
  function Span(level: nat): (n: nat)
    requires level <= 4
    ensures n > 0
  {
    if level == 0 then 1
    else if level == 1 then 512
    else if level == 2 then 262144
    else if level == 3 then 134217728
    else 68719476736
  }

  const LIMIT: nat := 68719476736

  /** i * Span(level), spelt so that every case is linear. */
  function Times(level: nat, i: nat): (n: nat)
    requires level <= 3
  {
    if level == 0 then i
    else if level == 1 then 512 * i
    else if level == 2 then 262144 * i
    else 134217728 * i
  }

  function Over(level: nat, n: nat): (q: nat)
    requires level <= 3
  {
    if level == 0 then n
    else if level == 1 then n / 512
    else if level == 2 then n / 262144
    else n / 134217728
  }

  predicate Aligned(level: nat, v: nat)
    requires level <= 4
  {
    if level == 0 then true
    else if level == 1 then v % 512 == 0
    else if level == 2 then v % 262144 == 0
    else if level == 3 then v % 134217728 == 0
    else v % 68719476736 == 0
  }

  /** The start of the level-sized slot that holds page v. */
  function AlignDown(level: nat, v: nat): (s: nat)
    requires level <= 3
    ensures s <= v < s + Span(level) && Aligned(level, s)
  {
    Times(level, Over(level, v))
  }

  datatype Entry<A> = Absent | Leaf(frame: Frame, attr: A) | Table(next: Frame)

  datatype Place = Place(level: nat, base: nat, up: Frame)

  datatype Tree<A> = Tree(root: Frame, tables: map<Frame, seq<Entry<A>>>, place: map<Frame, Place>)

  /** What the hardware walk finds for a page. */
  datatype Found<A> = Hit(level: nat, frame: Frame, attr: A) | Hole(level: nat)

  predicate Covers(p: Place, v: nat)
    requires p.level <= 3
  {
    p.base <= v < p.base + Span(p.level + 1)
  }

  function Slot(p: Place, i: nat): (s: nat)
    requires p.level <= 3
  {
    p.base + Times(p.level, i)
  }

  function Index(p: Place, v: nat): (i: nat)
    requires p.level <= 3 && Covers(p, v)
    ensures i < ENTRIES && Slot(p, i) <= v < Slot(p, i) + Span(p.level)
  {
    Over(p.level, v - p.base)
  }

  // ---------------------------------------------------------------- multiples of a span

  lemma TimesAdd(level: nat, k: nat, i: nat)
    requires level <= 3
    ensures Times(level, k) + Times(level, i) == Times(level, k + i)
  {
  }

  lemma TimesSpan(level: nat, k: nat)
    requires level <= 3
    ensures Times(level, k) + Span(level) == Times(level, k + 1)
  {
  }

  lemma TimesMono(level: nat, j: nat, k: nat)
    requires level <= 3
    ensures Times(level, j) < Times(level, k) <==> j < k
  {
  }

  /** The multiple of the span below a is the only candidate for a itself. */
  lemma Between(level: nat, k: nat, a: nat)
    requires level <= 3 && Times(level, k) <= a < Times(level, k) + Span(level)
    ensures Over(level, a) == k && (Aligned(level, a) <==> a == Times(level, k))
  {
  }

  lemma AlignedTimes(level: nat, a: nat) returns (k: nat)
    requires level <= 3 && Aligned(level, a)
    ensures a == Times(level, k)
  {
    k := Over(level, a);
  }

  lemma UpTimes(level: nat, a: nat) returns (k: nat)
    requires level <= 3 && Aligned(level + 1, a)
    ensures a == Times(level, k) && k % ENTRIES == 0
  {
    if level == 0 {
      k := a;
    } else if level == 1 {
      k := 512 * (a / 262144);
    } else if level == 2 {
      k := 512 * (a / 134217728);
    } else {
      k := 512 * (a / 68719476736);
    }
  }

  lemma IndexUnique(p: Place, v: nat, i: nat)
    requires p.level <= 3 && i < ENTRIES && Slot(p, i) <= v < Slot(p, i) + Span(p.level)
    ensures Covers(p, v) && Index(p, v) == i
  {
  }

  predicate PlaceOk(p: Place) {
    p.level <= 3 && Aligned(p.level + 1, p.base) && p.base + Span(p.level + 1) <= LIMIT
  }

  ghost predicate EntryOk<A>(t: Tree<A>, f: Frame, i: nat)
    requires f in t.tables && f in t.place && t.place[f].level <= 3 && i < |t.tables[f]|
  {
    var p := t.place[f];
    match t.tables[f][i]
    case Absent => true
    case Leaf(frame, _) => p.level < 3 && Aligned(p.level, frame)
    case Table(g) =>
      p.level > 0 && g in t.place && t.place[g] == Place(p.level - 1, Slot(p, i), f)
  }

  ghost predicate TableOk<A>(t: Tree<A>, f: Frame)
    requires f in t.tables && f in t.place
  {
    && PlaceOk(t.place[f])
    && |t.tables[f]| == ENTRIES
    && forall i | 0 <= i < ENTRIES :: EntryOk(t, f, i)
  }

  /** The entry of the table above that refers to g. */
  ghost predicate Linked<A>(t: Tree<A>, g: Frame)
    requires g in t.place && t.place[g].level <= 3
  {
    var p := t.place[g];
    && p.level < 3
    && p.up in t.tables && p.up in t.place
    && t.place[p.up].level == p.level + 1
    && Covers(t.place[p.up], p.base)
    && |t.tables[p.up]| == ENTRIES
    && t.tables[p.up][Index(t.place[p.up], p.base)] == Table(g)
  }

  /** Every table is the root or hangs from exactly one entry, and every entry refers to a live
      table of the next level down at the address the entry stands for. */
  ghost predicate Wf<A>(t: Tree<A>) {
    && t.tables.Keys == t.place.Keys
    && t.root in t.tables
    && t.place[t.root] == Place(3, 0, t.root)
    && (forall f | f in t.tables :: TableOk(t, f))
    && (forall g | g in t.tables && g != t.root :: Linked(t, g))
  }

  /** The walk from table f. */
  function WalkFrom<A>(t: Tree<A>, f: Frame, v: nat): (r: Found<A>)
    requires Wf(t) && f in t.tables && Covers(t.place[f], v)
    ensures r.level <= t.place[f].level
    ensures r.Hit? ==> r.level < 3 && Aligned(r.level, r.frame)
    decreases t.place[f].level
  {
    assert TableOk(t, f);
    var p := t.place[f];
    var i := Index(p, v);
    assert EntryOk(t, f, i);
    match t.tables[f][i]
    case Absent => Hole(p.level)
    case Leaf(frame, attr) => Hit(p.level, frame, attr)
    case Table(g) => WalkFrom(t, g, v)
  }

  /** The walk from the root. */
  function Walk<A>(t: Tree<A>, v: nat): (r: Found<A>)
    requires Wf(t) && v < LIMIT
    ensures r.level <= 3
    ensures r.Hit? ==> r.level < 3 && Aligned(r.level, r.frame)
  {
    WalkFrom(t, t.root, v)
  }

  /** The walk of any page passes through every table that covers it. */
  lemma {:induction false} WalkThrough<A>(t: Tree<A>, f: Frame, v: nat)
    requires Wf(t) && f in t.tables && Covers(t.place[f], v)
    ensures v < LIMIT && Walk(t, v) == WalkFrom(t, f, v)
    decreases 3 - t.place[f].level
  {
    assert TableOk(t, f);
    if f != t.root {
      assert Linked(t, f);
      var up := t.place[f].up;
      assert TableOk(t, up);
      var pu := t.place[up];
      var i := Index(pu, t.place[f].base);
      assert EntryOk(t, up, i);
      assert Slot(pu, i) == t.place[f].base;
      IndexUnique(pu, v, i);
      WalkThrough(t, up, v);
    }
  }

  /** What the walk finds depends only on the entries that stand for the page. */
  lemma {:induction false} WalkFrame<A>(t: Tree<A>, t2: Tree<A>, f: Frame, v: nat)
    requires Wf(t) && Wf(t2) && f in t.tables && Covers(t.place[f], v)
    requires forall k | k in t.tables && Covers(t.place[k], v) ::
               k in t2.tables && t2.place[k] == t.place[k]
               && t2.tables[k][Index(t.place[k], v)] == t.tables[k][Index(t.place[k], v)]
    ensures f in t2.tables && t2.place[f] == t.place[f]
    ensures WalkFrom(t2, f, v) == WalkFrom(t, f, v)
    decreases t.place[f].level
  {
    assert TableOk(t, f);
    var i := Index(t.place[f], v);
    assert EntryOk(t, f, i);
    if t.tables[f][i].Table? {
      WalkFrame(t, t2, t.tables[f][i].next, v);
    }
  }

  // ---------------------------------------------------------------- edits of one entry

  function SetEntry<A>(t: Tree<A>, f: Frame, i: nat, e: Entry<A>): (t2: Tree<A>)
    requires f in t.tables && i < |t.tables[f]|
  {
    t.(tables := t.tables[f := t.tables[f][i := e]])
  }

  /** Write the entry and put the fresh table g below it. */
  function Link<A>(t: Tree<A>, f: Frame, i: nat, g: Frame, entries: seq<Entry<A>>): (t2: Tree<A>)
    requires f in t.tables && f in t.place && i < |t.tables[f]| && g != f
    requires 0 < t.place[f].level <= 3
  {
    Tree(t.root,
         t.tables[g := entries][f := t.tables[f][i := Table(g)]],
         t.place[g := Place(t.place[f].level - 1, Slot(t.place[f], i), f)])
  }

  /** Clear the entry and take the table g below it out of the tree. */
  function Unlink<A>(t: Tree<A>, f: Frame, i: nat, g: Frame): (t2: Tree<A>)
    requires f in t.tables && i < |t.tables[f]|
  {
    Tree(t.root, (t.tables - {g})[f := t.tables[f][i := Absent]], t.place - {g})
  }

  /** Entry i of table f is where an edit happens. */
  ghost predicate At<A>(t: Tree<A>, f: Frame, i: nat) {
    && Wf(t) && f in t.tables && i < ENTRIES
    && f in t.place && PlaceOk(t.place[f]) && |t.tables[f]| == ENTRIES
  }

  lemma InTree<A>(t: Tree<A>, f: Frame, i: nat)
    requires Wf(t) && f in t.tables && i < ENTRIES
    ensures At(t, f, i)
  {
    assert TableOk(t, f);
  }

  ghost predicate InSlot<A>(t: Tree<A>, f: Frame, i: nat, v: nat)
    requires At(t, f, i)
  {
    Slot(t.place[f], i) <= v < Slot(t.place[f], i) + Span(t.place[f].level)
  }

  /** The table an entry refers to is live and covers exactly the entry's slot. */
  lemma TableBelow<A>(t: Tree<A>, f: Frame, i: nat)
    requires At(t, f, i) && t.tables[f][i].Table?
    ensures var g := t.tables[f][i].next;
            && g in t.tables && g in t.place && g != f && t.place[f].level > 0
            && t.place[g] == Place(t.place[f].level - 1, Slot(t.place[f], i), f)
            && PlaceOk(t.place[g]) && |t.tables[g]| == ENTRIES
  {
    assert TableOk(t, f) && EntryOk(t, f, i);
    assert TableOk(t, t.tables[f][i].next);
  }

  lemma WalkInSlot<A>(t: Tree<A>, f: Frame, i: nat, v: nat)
    requires At(t, f, i) && InSlot(t, f, i, v)
    ensures v < LIMIT
    ensures t.tables[f][i].Absent? ==> Walk(t, v) == Hole(t.place[f].level)
    ensures t.tables[f][i].Leaf? ==>
              Walk(t, v) == Hit(t.place[f].level, t.tables[f][i].frame, t.tables[f][i].attr)
  {
    assert TableOk(t, f);
    IndexUnique(t.place[f], v, i);
    WalkThrough(t, f, v);
  }

  lemma SetEntryWf<A>(t: Tree<A>, f: Frame, i: nat, e: Entry<A>)
    requires At(t, f, i) && !t.tables[f][i].Table? && !e.Table?
    requires e.Leaf? ==> t.place[f].level < 3 && Aligned(t.place[f].level, e.frame)
    ensures Wf(SetEntry(t, f, i, e))
  {
    hide TableOk, Linked;
    var t2 := SetEntry(t, f, i, e);
    forall k | k in t2.tables ensures TableOk(t2, k) {
      SetEntryTableOk(t, f, i, e, k);
    }
    forall g | g in t2.tables && g != t2.root
      ensures g in t2.place && t2.place[g].level <= 3 && Linked(t2, g)
    {
      SetEntryLinked(t, f, i, e, g);
    }
  }

  lemma SetEntryTableOk<A>(t: Tree<A>, f: Frame, i: nat, e: Entry<A>, k: Frame)
    requires At(t, f, i) && !t.tables[f][i].Table? && !e.Table? && k in t.tables
    requires e.Leaf? ==> t.place[f].level < 3 && Aligned(t.place[f].level, e.frame)
    ensures k in t.place && TableOk(SetEntry(t, f, i, e), k)
  {
    hide Span, Times, Over, Aligned, PlaceOk;
    var t2 := SetEntry(t, f, i, e);
    OneTable(t, k);
    forall j | 0 <= j < ENTRIES ensures EntryOk(t2, k, j) {
      assert EntryOk(t, k, j);
    }
  }

  lemma SetEntryLinked<A>(t: Tree<A>, f: Frame, i: nat, e: Entry<A>, g: Frame)
    requires At(t, f, i) && !t.tables[f][i].Table? && g in t.tables && g != t.root
    ensures g in t.place && t.place[g].level <= 3 && Linked(SetEntry(t, f, i, e), g)
  {
    hide Span, Times, Over, Aligned, TableOk;
    OneTable(t, g);
  }

  lemma OneTable<A>(t: Tree<A>, k: Frame)
    requires Wf(t) && k in t.tables
    ensures k in t.place && TableOk(t, k) && PlaceOk(t.place[k]) && |t.tables[k]| == ENTRIES
    ensures k != t.root ==> Linked(t, k)
  {
  }

  lemma SetEntryWalkOutside<A>(t: Tree<A>, t2: Tree<A>, f: Frame, i: nat, e: Entry<A>, v: nat)
    requires At(t, f, i) && Wf(t2) && t2 == SetEntry(t, f, i, e) && v < LIMIT && !InSlot(t, f, i, v)
    ensures Walk(t2, v) == Walk(t, v)
  {
    WalkFrame(t, t2, t.root, v);
  }

  lemma SetEntryWalk<A>(t: Tree<A>, f: Frame, i: nat, e: Entry<A>, v: nat)
    requires At(t, f, i) && !t.tables[f][i].Table? && !e.Table? && v < LIMIT
    requires e.Leaf? ==> t.place[f].level < 3 && Aligned(t.place[f].level, e.frame)
    ensures Wf(SetEntry(t, f, i, e))
    ensures Walk(SetEntry(t, f, i, e), v) ==
            if !InSlot(t, f, i, v) then Walk(t, v)
            else if e.Leaf? then Hit(t.place[f].level, e.frame, e.attr)
            else Hole(t.place[f].level)
  {
    hide Wf, Walk;
    SetEntryWf(t, f, i, e);
    var t2 := SetEntry(t, f, i, e);
    InTree(t2, f, i);
    if InSlot(t, f, i, v) {
      WalkInSlot(t2, f, i, v);
    } else {
      SetEntryWalkOutside(t, t2, f, i, e, v);
    }
  }

  /** The place of a table hung below entry i of a table at p. */
  lemma BelowSlot(p: Place, i: nat, up: Frame)
    requires PlaceOk(p) && p.level > 0 && i < ENTRIES
    ensures PlaceOk(Place(p.level - 1, Slot(p, i), up))
    ensures Covers(p, Slot(p, i)) && Index(p, Slot(p, i)) == i
  {
    IndexUnique(p, Slot(p, i), i);
  }

  /** Entries that may stand in a table of the given level without referring to other tables. */
  predicate Plain<A(!new)>(entries: seq<Entry<A>>, level: nat)
    requires level <= 3
  {
    && |entries| == ENTRIES
    && forall j | 0 <= j < ENTRIES ::
         !entries[j].Table? && (entries[j].Leaf? ==> level < 3 && Aligned(level, entries[j].frame))
  }

  ghost predicate Linkable<A(!new)>(t: Tree<A>, f: Frame, i: nat, g: Frame, entries: seq<Entry<A>>) {
    && At(t, f, i) && !t.tables[f][i].Table? && g !in t.tables
    && t.place[f].level > 0 && Plain(entries, t.place[f].level - 1)
  }

  lemma LinkTableOk<A(!new)>(t: Tree<A>, f: Frame, i: nat, g: Frame, entries: seq<Entry<A>>, k: Frame)
    requires Linkable(t, f, i, g, entries) && k in Link(t, f, i, g, entries).tables
    ensures TableOk(Link(t, f, i, g, entries), k)
  {
    var t2 := Link(t, f, i, g, entries);
    assert TableOk(t, f);
    if k == g {
      BelowSlot(t.place[f], i, f);
    } else {
      assert TableOk(t, k);
      forall j | 0 <= j < ENTRIES ensures EntryOk(t2, k, j) {
        assert EntryOk(t, k, j);
      }
    }
  }

  lemma LinkLinked<A(!new)>(t: Tree<A>, f: Frame, i: nat, g: Frame, entries: seq<Entry<A>>, k: Frame)
    requires Linkable(t, f, i, g, entries) && k in Link(t, f, i, g, entries).tables && k != t.root
    ensures k in t.place ==> t.place[k].level <= 3
    ensures k == g || k in t.place
    ensures Linked(Link(t, f, i, g, entries), k)
  {
    assert TableOk(t, f);
    if k == g {
      BelowSlot(t.place[f], i, f);
    } else {
      assert Linked(t, k);
    }
  }

  lemma LinkWf<A(!new)>(t: Tree<A>, f: Frame, i: nat, g: Frame, entries: seq<Entry<A>>)
    requires Linkable(t, f, i, g, entries)
    ensures Wf(Link(t, f, i, g, entries))
  {
    var t2 := Link(t, f, i, g, entries);
    forall k | k in t2.tables ensures TableOk(t2, k) {
      LinkTableOk(t, f, i, g, entries, k);
    }
    forall k | k in t2.tables && k != t2.root ensures Linked(t2, k) {
      LinkLinked(t, f, i, g, entries, k);
    }
  }

  lemma LinkWalkOutside<A>(t: Tree<A>, t2: Tree<A>, f: Frame, i: nat, g: Frame,
                           entries: seq<Entry<A>>, v: nat)
    requires At(t, f, i) && t.place[f].level > 0 && g !in t.tables
    requires Wf(t2) && t2 == Link(t, f, i, g, entries) && v < LIMIT && !InSlot(t, f, i, v)
    ensures Walk(t2, v) == Walk(t, v)
  {
    hide Times, Over, Aligned;
    WalkFrame(t, t2, t.root, v);
  }

  lemma LinkWalk<A(!new)>(t: Tree<A>, f: Frame, i: nat, g: Frame, entries: seq<Entry<A>>, v: nat)
    requires Linkable(t, f, i, g, entries) && v < LIMIT
    ensures Wf(Link(t, f, i, g, entries))
    ensures !InSlot(t, f, i, v) ==> Walk(Link(t, f, i, g, entries), v) == Walk(t, v)
    ensures InSlot(t, f, i, v) ==>
              var p := Place(t.place[f].level - 1, Slot(t.place[f], i), f);
              Covers(p, v) &&
              var e := entries[Index(p, v)];
              Walk(Link(t, f, i, g, entries), v) ==
              if e.Leaf? then Hit(p.level, e.frame, e.attr) else Hole(p.level)
  {
    hide Wf, Walk;
    LinkWf(t, f, i, g, entries);
    var t2 := Link(t, f, i, g, entries);
    if InSlot(t, f, i, v) {
      var p := Place(t.place[f].level - 1, Slot(t.place[f], i), f);
      InTree(t2, g, Index(p, v));
      WalkInSlot(t2, g, Index(p, v), v);
    } else {
      LinkWalkOutside(t, t2, f, i, g, entries, v);
    }
  }

  ghost predicate Unlinkable<A>(t: Tree<A>, f: Frame, i: nat, g: Frame) {
    && At(t, f, i) && t.tables[f][i] == Table(g)
    && g in t.tables && forall j | 0 <= j < |t.tables[g]| :: t.tables[g][j].Absent?
  }

  lemma UnlinkEntryOk<A>(t: Tree<A>, f: Frame, i: nat, g: Frame, k: Frame, j: nat)
    requires f in t.tables && f in t.place && k in t.tables && k in t.place && g != f && g != k
    requires t.place[f].level <= 3 && t.place[k].level <= 3
    requires |t.tables[f]| == ENTRIES && |t.tables[k]| == ENTRIES && i < ENTRIES && j < ENTRIES
    requires t.tables[f][i] == Table(g) && EntryOk(t, f, i) && EntryOk(t, k, j)
    ensures EntryOk(Unlink(t, f, i, g), k, j)
  {
  }

  lemma UnlinkTableOk<A>(t: Tree<A>, f: Frame, i: nat, g: Frame, k: Frame)
    requires Unlinkable(t, f, i, g) && f != g && k in Unlink(t, f, i, g).tables
    ensures k in Unlink(t, f, i, g).place && TableOk(Unlink(t, f, i, g), k)
  {
    var t2 := Unlink(t, f, i, g);
    assert TableOk(t, f) && TableOk(t, k);
    assert EntryOk(t, f, i);
    forall j | 0 <= j < ENTRIES ensures EntryOk(t2, k, j) {
      assert EntryOk(t, k, j);
      UnlinkEntryOk(t, f, i, g, k, j);
    }
  }

  lemma UnlinkLinked<A>(t: Tree<A>, f: Frame, i: nat, g: Frame, k: Frame)
    requires Unlinkable(t, f, i, g) && f != g && k in Unlink(t, f, i, g).tables && k != t.root
    ensures k in Unlink(t, f, i, g).place && t.place[k].level <= 3
    ensures Linked(Unlink(t, f, i, g), k)
  {
    hide Wf, Span, Times, Over, Aligned;
    OneTable(t, f);
    OneTable(t, k);
    OneTable(t, g);
    assert EntryOk(t, f, i);
  }

  lemma UnlinkWf<A>(t: Tree<A>, f: Frame, i: nat, g: Frame)
    requires Unlinkable(t, f, i, g)
    ensures g != f && Wf(Unlink(t, f, i, g))
  {
    var t2 := Unlink(t, f, i, g);
    assert TableOk(t, f) && EntryOk(t, f, i);
    forall k | k in t2.tables ensures k in t2.place && TableOk(t2, k) {
      UnlinkTableOk(t, f, i, g, k);
    }
    forall k | k in t2.tables && k != t2.root ensures Linked(t2, k) {
      UnlinkLinked(t, f, i, g, k);
    }
  }

  lemma UnlinkWalkOutside<A>(t: Tree<A>, t2: Tree<A>, f: Frame, i: nat, g: Frame, v: nat)
    requires Unlinkable(t, f, i, g) && Wf(t2) && t2 == Unlink(t, f, i, g) && v < LIMIT && !InSlot(t, f, i, v)
    ensures Walk(t2, v) == Walk(t, v)
  {
    hide Times, Over, Aligned;
    assert EntryOk(t, f, i);
    WalkFrame(t, t2, t.root, v);
  }

  lemma UnlinkWalk<A>(t: Tree<A>, f: Frame, i: nat, g: Frame, v: nat)
    requires Unlinkable(t, f, i, g) && v < LIMIT
    ensures Wf(Unlink(t, f, i, g))
    ensures Walk(Unlink(t, f, i, g), v) == if InSlot(t, f, i, v) then Hole(t.place[f].level) else Walk(t, v)
    ensures InSlot(t, f, i, v) ==> Walk(t, v).Hole?
  {
    hide Wf, Walk;
    UnlinkWf(t, f, i, g);
    var t2 := Unlink(t, f, i, g);
    InTree(t2, f, i);
    if InSlot(t, f, i, v) {
      WalkInSlot(t2, f, i, v);
      TableBelow(t, f, i);
      InTree(t, g, Index(t.place[g], v));
      WalkInSlot(t, g, Index(t.place[g], v), v);
    } else {
      UnlinkWalkOutside(t, t2, f, i, g, v);
    }
  }
}
