/** What mapping and protecting a range do, entry by entry and table by table. */
module X86Map {
  import opened PageTree
  import opened X86Pages
  import opened X86Unmap

  /** Pages [a, b) were holes and now map consecutive frames from p; mapped pages keep their
      walk and other holes stay holes. */
  ghost predicate Added(t0: X86Tree, t1: X86Tree, a: nat, b: nat, p: Frame, flags: MmuFlags) {
    && Wf(t0) && Wf(t1) && t1.root == t0.root && a <= b <= LIMIT
    && (forall v | 0 <= v < LIMIT && Walk(t0, v).Hit? :: Walk(t1, v) == Walk(t0, v))
    && (forall v | a <= v < b ::
          Walk(t0, v).Hole? && Trans(t1, v) == Some(Mapping(p + (v - a), Readback(flags))))
    && (forall v | 0 <= v < LIMIT && !(a <= v < b) && Walk(t0, v).Hole? :: Walk(t1, v).Hole?)
    && Packed(t1, a, b)
  }

  lemma PackedJoin(t1: X86Tree, t2: X86Tree, a: nat, b: nat, c: nat)
    requires a <= b <= c && Packed(t1, a, b) && Packed(t2, b, c) && SameWalk(t1, t2, a, b)
    ensures Packed(t2, a, c)
  {
    hide Wf, Walk, AlignDown, Span;
    forall u | a <= u < c
      ensures Walk(t2, u).Hit? && a <= AlignDown(Walk(t2, u).level, u)
              && AlignDown(Walk(t2, u).level, u) + Span(Walk(t2, u).level) <= c
    {
      if u < b {
        assert Walk(t2, u) == Walk(t1, u);
      }
    }
  }

  lemma AddedCompose(t0: X86Tree, t1: X86Tree, t2: X86Tree, a: nat, b: nat, c: nat, p: Frame, flags: MmuFlags)
    requires Added(t0, t1, a, b, p, flags) && Added(t1, t2, b, c, p + (b - a), flags)
    ensures Added(t0, t2, a, c, p, flags)
  {
    hide Wf, Walk, Packed, Meaning;
    PackedHits(t1, a, b);
    PackedJoin(t1, t2, a, b, c);
  }

  lemma PackedHits(t: X86Tree, a: nat, b: nat)
    requires Packed(t, a, b)
    ensures forall u | a <= u < b :: Walk(t, u).Hit?
  {
    hide Wf, Walk;
  }

  lemma AddedNothing(t: X86Tree, a: nat, p: Frame, flags: MmuFlags)
    requires Wf(t) && a <= LIMIT
    ensures Added(t, t, a, a, p, flags)
  {
    hide Wf, Walk;
  }

  /** update_entry with a page of the entry's own size. */
  lemma AddedLeaf(t: X86Tree, f: Frame, i: nat, a: nat, p: Frame, flags: MmuFlags)
    requires At(t, f, i) && t.tables[f][i].Absent? && a == Slot(t.place[f], i)
    requires t.place[f].level < 3 && Aligned(t.place[f].level, p) && flags.cache != Undecodable
    ensures var t2 := SetEntry(t, f, i, Leaf(p, LeafBits(t.place[f].level, flags)));
            Added(t, t2, a, SlotEnd(t, f, i), p, flags)
  {
    hide Wf, Walk, LeafBits, FlagsOf, BitsOk, Readback, Slot, Span, Aligned, AlignDown;
    var l := t.place[f].level;
    var e := Leaf(p, LeafBits(l, flags));
    SetEntryWf(t, f, i, e);
    FlagsRoundTrip(l, flags);
    SlotBound(t, f, i);
    forall v | 0 <= v < LIMIT
      ensures InSlot(t, f, i, v) ==> Walk(t, v).Hole? && Walk(SetEntry(t, f, i, e), v) == Hit(l, p, e.attr)
                                     && AlignDown(l, v) == a
      ensures !InSlot(t, f, i, v) ==> Walk(SetEntry(t, f, i, e), v) == Walk(t, v)
    {
      SetEntryWalk(t, f, i, e, v);
      if InSlot(t, f, i, v) {
        WalkInSlot(t, f, i, v);
        SlotStart(t.place[f], i, v);
      }
    }
  }

  lemma SlotBound(t: X86Tree, f: Frame, i: nat)
    requires At(t, f, i)
    ensures Slot(t.place[f], i) < SlotEnd(t, f, i) <= LIMIT
  {
    hide Wf;
  }

  function EmptyTable(): (m: seq<Entry<Bits>>) {
    seq(ENTRIES, _ => Absent)
  }

  /** A new empty table in place of an absent entry changes no translation. */
  lemma AddedLink(t: X86Tree, f: Frame, i: nat, g: Frame, a: nat, p: Frame, flags: MmuFlags)
    requires At(t, f, i) && t.tables[f][i].Absent? && g !in t.tables && t.place[f].level > 0 && a <= LIMIT
    ensures BitsWf(t) ==> BitsWf(Link(t, f, i, g, EmptyTable()))
    ensures Added(t, Link(t, f, i, g, EmptyTable()), a, a, p, flags)
  {
    hide Wf, Walk, Slot, Span;
    LinkWf(t, f, i, g, EmptyTable());
    if BitsWf(t) {
      LinkBits(t, f, i, g, EmptyTable());
    }
    forall v | 0 <= v < LIMIT
      ensures Walk(t, v).Hit? ==> Walk(Link(t, f, i, g, EmptyTable()), v) == Walk(t, v)
      ensures Walk(t, v).Hole? ==> Walk(Link(t, f, i, g, EmptyTable()), v).Hole?
    {
      LinkWalk(t, f, i, g, EmptyTable(), v);
      if InSlot(t, f, i, v) {
        WalkInSlot(t, f, i, v);
      }
    }
  }

  // ---------------------------------------------------------------- the map loop

  /** The map loop of table f has reached entry i with the cursor at b. */
  ghost predicate AddLoop(t0: X86Tree, t1: X86Tree, f: Frame, i: nat, a: nat, b: nat, e: nat,
                          p: Frame, flags: MmuFlags) {
    && Within(t0, t1, f) && i <= ENTRIES && a <= b <= e <= LIMIT
    && Added(t0, t1, a, b, p, flags)
    && (b == e || Slot(t0.place[f], i) <= b < SlotEnd(t0, f, i))
    && (b == a || b == Min(e, Slot(t0.place[f], i)))
  }

  /** Work on entry i of table f took the cursor from a to b. */
  ghost predicate AddEntry(t0: X86Tree, t1: X86Tree, f: Frame, i: nat, a: nat, b: nat, e: nat,
                           p: Frame, flags: MmuFlags) {
    Within(t0, t1, f) && i < ENTRIES && a <= b <= e <= LIMIT && Added(t0, t1, a, b, p, flags)
  }

  lemma AddStart(t: X86Tree, f: Frame, a: nat, e: nat, p: Frame, flags: MmuFlags)
    requires At(t, f, 0) && Covers(t.place[f], a) && a <= e <= LIMIT
    ensures AddLoop(t, t, f, Index(t.place[f], a), a, a, e, p, flags)
  {
    hide Wf, Walk;
    AddedNothing(t, a, p, flags);
  }

  lemma AddHere(t0: X86Tree, t1: X86Tree, f: Frame, i: nat, a: nat, b: nat, e: nat, p: Frame, flags: MmuFlags)
    requires AddLoop(t0, t1, f, i, a, b, e, p, flags) && b < e && i < ENTRIES
    ensures OnEntry(t1, f, i, b) && t1.place[f] == t0.place[f] && a <= b
    ensures Within(t0, t1, f) && Added(t0, t1, a, b, p, flags)
  {
    hide Wf, Added, Kept;
  }

  lemma AddNext(t0: X86Tree, t1: X86Tree, t2: X86Tree, f: Frame, i: nat, a: nat, b: nat, c: nat, e: nat,
                p: Frame, flags: MmuFlags)
    requires AddLoop(t0, t1, f, i, a, b, e, p, flags) && i < ENTRIES && a <= b
    requires AddEntry(t1, t2, f, i, b, c, e, p + (b - a), flags)
    ensures Within(t0, t2, f) && Added(t0, t2, a, c, p, flags) && c <= e
    ensures c == Min(e, SlotEnd(t1, f, i)) ==> AddLoop(t0, t2, f, i + 1, a, c, e, p, flags)
  {
    hide Wf, Added, Slot, Span;
    AddedCompose(t0, t1, t2, a, b, c, p, flags);
    SlotNext(t0.place[f], i);
    SlotNext(t0.place[f], i + 1);
  }

  lemma AddDone(t0: X86Tree, t1: X86Tree, f: Frame, i: nat, a: nat, b: nat, e: nat, p: Frame, flags: MmuFlags)
    requires AddLoop(t0, t1, f, i, a, b, e, p, flags) && (i == ENTRIES || b == e) && Covers(t0.place[f], a)
    ensures Within(t0, t1, f) && Added(t0, t1, a, b, p, flags) && b == Min(e, TableEnd(t0, f))
  {
    hide Wf, Added, Kept;
  }

  /** A page found mapped behind the cursor's progress was mapped from the start. */
  lemma AddConflict(t0: X86Tree, t1: X86Tree, a: nat, b: nat, c: nat, p: Frame, flags: MmuFlags)
    requires Added(t0, t1, a, b, p, flags) && b <= c < LIMIT && Walk(t1, c).Hit?
    ensures Walk(t0, c).Hit?
  {
    hide Wf, Walk;
  }

  /** The entry refers to a table that has just been put there, or was there. */
  lemma AddBelow(t0: X86Tree, t1: X86Tree, t2: X86Tree, f: Frame, i: nat, a: nat, b: nat, e: nat,
                 p: Frame, flags: MmuFlags)
    requires Within(t0, t1, f) && Added(t0, t1, a, a, p, flags) && At(t1, f, i) && t1.tables[f][i].Table?
    requires Within(t1, t2, t1.tables[f][i].next) && Added(t1, t2, a, b, p, flags) && a <= b <= e <= LIMIT
    ensures AddEntry(t0, t2, f, i, a, b, e, p, flags)
  {
    hide Wf, Added, Slot, Span;
    TableBelow(t1, f, i);
    AddedCompose(t0, t1, t2, a, a, b, p, flags);
    InTree(t2, f, 0) by {
      AddedWf(t1, t2, a, b, p, flags);
    }
  }

  lemma AddedWf(t0: X86Tree, t1: X86Tree, a: nat, b: nat, p: Frame, flags: MmuFlags)
    requires Added(t0, t1, a, b, p, flags)
    ensures Wf(t0) && Wf(t1)
  {
    hide Wf, Walk;
  }

  // ---------------------------------------------------------------- rollback

  /** Unmapping exactly what a failed map had put in place restores every translation. */
  lemma RollbackRestores(t0: X86Tree, t1: X86Tree, t2: X86Tree, a: nat, b: nat, p: Frame, flags: MmuFlags)
    requires Added(t0, t1, a, b, p, flags) && Removed(t1, t2, a, b, b)
    ensures forall v | 0 <= v < LIMIT :: Trans(t2, v) == Trans(t0, v)
  {
    hide Wf, Walk, Packed, Visits;
    PackedHits(t1, a, b);
    forall v | 0 <= v < LIMIT ensures Trans(t2, v) == Trans(t0, v) {
      VisitsRun(t1, a, b - a, b, v);
    }
  }

  // ---------------------------------------------------------------- protect

  /** Pages [a, b) keep their frames and get the flags; other translations are as they were. */
  ghost predicate Updated(t0: X86Tree, t1: X86Tree, a: nat, b: nat, flags: MmuFlags) {
    && Wf(t0) && Wf(t1) && t1.root == t0.root && a <= b <= LIMIT
    && (forall v | 0 <= v < LIMIT && !(a <= v < b) :: Trans(t1, v) == Trans(t0, v))
    && (forall v | a <= v < b ::
          Trans(t0, v).Some? && Trans(t1, v) == Some(Mapping(Trans(t0, v).value.frame, Readback(flags))))
  }

  lemma UpdatedCompose(t0: X86Tree, t1: X86Tree, t2: X86Tree, a: nat, b: nat, c: nat, flags: MmuFlags)
    requires Updated(t0, t1, a, b, flags) && Updated(t1, t2, b, c, flags)
    ensures Updated(t0, t2, a, c, flags)
  {
    hide Wf, Trans, Readback;
  }

  /** update_entry on a whole page keeps its frame. */
  lemma UpdatedLeaf(t: X86Tree, f: Frame, i: nat, a: nat, flags: MmuFlags)
    requires At(t, f, i) && t.tables[f][i].Leaf? && a == Slot(t.place[f], i)
    requires t.place[f].level < 3 && Aligned(t.place[f].level, t.tables[f][i].frame) && flags.cache != Undecodable
    ensures var t2 := SetEntry(t, f, i, Leaf(t.tables[f][i].frame, LeafBits(t.place[f].level, flags)));
            Updated(t, t2, a, SlotEnd(t, f, i), flags)
  {
    hide Wf, Walk, LeafBits, FlagsOf, BitsOk, Readback, Slot, Span, Aligned, PageFrame;
    var l := t.place[f].level;
    var e := Leaf(t.tables[f][i].frame, LeafBits(l, flags));
    SetEntryWf(t, f, i, e);
    FlagsRoundTrip(l, flags);
    SlotBound(t, f, i);
    forall v | 0 <= v < LIMIT
      ensures InSlot(t, f, i, v) ==> Walk(t, v) == Hit(l, e.frame, t.tables[f][i].attr)
                                     && Walk(SetEntry(t, f, i, e), v) == Hit(l, e.frame, e.attr)
      ensures !InSlot(t, f, i, v) ==> Walk(SetEntry(t, f, i, e), v) == Walk(t, v)
    {
      SetEntryWalk(t, f, i, e, v);
      if InSlot(t, f, i, v) {
        WalkInSlot(t, f, i, v);
      }
    }
  }

  lemma UpdatedSame(t0: X86Tree, t1: X86Tree, a: nat, flags: MmuFlags)
    requires Wf(t0) && Wf(t1) && t1.root == t0.root && a <= LIMIT
    requires forall v | 0 <= v < LIMIT :: Trans(t1, v) == Trans(t0, v)
    ensures Updated(t0, t1, a, a, flags)
  {
    hide Wf, Trans;
  }

  ghost predicate UpdateLoop(t0: X86Tree, t1: X86Tree, f: Frame, i: nat, a: nat, b: nat, e: nat, flags: MmuFlags) {
    && Within(t0, t1, f) && i <= ENTRIES && a <= b <= e <= LIMIT
    && Updated(t0, t1, a, b, flags)
    && (b == e || Slot(t0.place[f], i) <= b < SlotEnd(t0, f, i))
    && (b == a || b == Min(e, Slot(t0.place[f], i)))
  }

  ghost predicate UpdateEntry(t0: X86Tree, t1: X86Tree, f: Frame, i: nat, a: nat, b: nat, e: nat, flags: MmuFlags) {
    Within(t0, t1, f) && i < ENTRIES && a <= b <= e <= LIMIT && Updated(t0, t1, a, b, flags)
  }

  lemma UpdateStart(t: X86Tree, f: Frame, a: nat, e: nat, flags: MmuFlags)
    requires At(t, f, 0) && Covers(t.place[f], a) && a <= e <= LIMIT
    ensures UpdateLoop(t, t, f, Index(t.place[f], a), a, a, e, flags)
  {
    hide Wf, Trans;
  }

  lemma UpdateHere(t0: X86Tree, t1: X86Tree, f: Frame, i: nat, a: nat, b: nat, e: nat, flags: MmuFlags)
    requires UpdateLoop(t0, t1, f, i, a, b, e, flags) && b < e && i < ENTRIES
    ensures OnEntry(t1, f, i, b) && t1.place[f] == t0.place[f] && a <= b
    ensures Within(t0, t1, f) && Updated(t0, t1, a, b, flags)
  {
    hide Wf, Updated, Kept;
  }

  lemma UpdateNext(t0: X86Tree, t1: X86Tree, t2: X86Tree, f: Frame, i: nat, a: nat, b: nat, c: nat, e: nat,
                   flags: MmuFlags)
    requires UpdateLoop(t0, t1, f, i, a, b, e, flags) && i < ENTRIES
    requires UpdateEntry(t1, t2, f, i, b, c, e, flags)
    ensures Within(t0, t2, f) && Updated(t0, t2, a, c, flags) && c <= e
    ensures c == Min(e, SlotEnd(t1, f, i)) ==> UpdateLoop(t0, t2, f, i + 1, a, c, e, flags)
  {
    hide Wf, Updated, Slot, Span;
    UpdatedCompose(t0, t1, t2, a, b, c, flags);
    SlotNext(t0.place[f], i);
    SlotNext(t0.place[f], i + 1);
  }

  lemma UpdateDone(t0: X86Tree, t1: X86Tree, f: Frame, i: nat, a: nat, b: nat, e: nat, flags: MmuFlags)
    requires UpdateLoop(t0, t1, f, i, a, b, e, flags) && (i == ENTRIES || b == e) && Covers(t0.place[f], a)
    ensures Within(t0, t1, f) && Updated(t0, t1, a, b, flags) && b == Min(e, TableEnd(t0, f))
  {
    hide Wf, Updated, Kept;
  }

  /** A page found unmapped behind the cursor's progress was unmapped from the start. */
  lemma UpdateMissing(t0: X86Tree, t1: X86Tree, a: nat, b: nat, c: nat, flags: MmuFlags)
    requires Updated(t0, t1, a, b, flags) && b <= c < LIMIT && Trans(t1, c).None?
    ensures Trans(t0, c).None?
  {
    hide Wf, Trans;
  }

  lemma UpdateBelow(t0: X86Tree, t1: X86Tree, t2: X86Tree, f: Frame, i: nat, a: nat, b: nat, e: nat, flags: MmuFlags)
    requires Within(t0, t1, f) && Updated(t0, t1, a, a, flags) && At(t1, f, i) && t1.tables[f][i].Table?
    requires Within(t1, t2, t1.tables[f][i].next) && Updated(t1, t2, a, b, flags) && a <= b <= e <= LIMIT
    ensures UpdateEntry(t0, t2, f, i, a, b, e, flags)
  {
    hide Wf, Updated, Slot, Span;
    TableBelow(t1, f, i);
    UpdatedCompose(t0, t1, t2, a, a, b, flags);
    InTree(t2, f, 0) by {
      UpdatedWf(t1, t2, a, b, flags);
    }
  }

  lemma UpdatedWf(t0: X86Tree, t1: X86Tree, a: nat, b: nat, flags: MmuFlags)
    requires Updated(t0, t1, a, b, flags)
    ensures Wf(t0) && Wf(t1)
  {
    hide Wf, Trans;
  }
}
