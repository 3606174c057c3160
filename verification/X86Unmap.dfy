/** What the unmap recursion does, entry by entry and table by table. */
module X86Unmap {
  import opened PageTree
  import opened X86Pages

  function SlotEnd(t: X86Tree, f: Frame, i: nat): (n: nat)
    requires f in t.place && t.place[f].level <= 3
  {
    Slot(t.place[f], i) + Span(t.place[f].level)
  }

  function TableEnd(t: X86Tree, f: Frame): (n: nat)
    requires f in t.place && t.place[f].level <= 3
  {
    t.place[f].base + Span(t.place[f].level + 1)
  }

  /** Table f is the same table, and nothing above its level changed. */
  ghost predicate Within(t0: X86Tree, t1: X86Tree, f: Frame) {
    && At(t0, f, 0) && At(t1, f, 0) && t1.root == t0.root
    && t1.place[f] == t0.place[f] && Kept(t0, t1, t0.place[f].level)
  }

  /** One turn of the unmap loop: the cursor went from a to b over entry i of table f. */
  ghost predicate EntryStep(t0: X86Tree, t1: X86Tree, f: Frame, i: nat, a: nat, b: nat, e: nat) {
    && Within(t0, t1, f) && i < ENTRIES
    && t1.tables[f] == t0.tables[f][i := t1.tables[f][i]]
    && Removed(t0, t1, a, b, e) && SameWalk(t0, t1, b, e)
    && (b == e || SlotEnd(t0, f, i) <= b < SlotEnd(t0, f, i) + Span(t0.place[f].level))
    && (Aligned(t0.place[f].level, a) || Packed(t0, a, e) ==> b == Min(e, SlotEnd(t0, f, i)))
    && (Aligned(t0.place[f].level, a) && SlotEnd(t0, f, i) <= e ==> t1.tables[f][i].Absent?)
  }

  /** Entries of f that lie wholly in [a, e) are absent. */
  ghost predicate Cleared(t: X86Tree, f: Frame, a: nat, e: nat)
    requires At(t, f, 0)
  {
    forall j | 0 <= j < ENTRIES && a <= Slot(t.place[f], j) && SlotEnd(t, f, j) <= e :: t.tables[f][j].Absent?
  }

  /** The loop has reached entry i with the cursor at b. */
  ghost predicate LoopAt(t0: X86Tree, t1: X86Tree, f: Frame, i: nat, a: nat, b: nat, e: nat) {
    && Within(t0, t1, f) && i <= ENTRIES
    && Removed(t0, t1, a, b, e) && SameWalk(t0, t1, b, e)
    && (b == e || Slot(t0.place[f], i) <= b < SlotEnd(t0, f, i))
    && (Aligned(t0.place[f].level, a) || Packed(t0, a, e) ==> b == a || b == Min(e, Slot(t0.place[f], i)))
    && (Packed(t0, a, e) ==> Packed(t1, b, e))
    && (Aligned(t0.place[f].level, a) ==> Aligned(t0.place[f].level, b) || b == e)
    && (Aligned(t0.place[f].level, a) ==> Cleared(t1, f, a, b))
  }

  /** The whole call on table f: the cursor went from a to b. */
  ghost predicate TableStep(t0: X86Tree, t1: X86Tree, f: Frame, a: nat, b: nat, e: nat) {
    && Within(t0, t1, f)
    && Removed(t0, t1, a, b, e) && SameWalk(t0, t1, b, e)
    && (b == e || TableEnd(t0, f) <= b < TableEnd(t0, f) + Span(t0.place[f].level))
    && (Aligned(t0.place[f].level, a) || Packed(t0, a, e) ==> b == Min(e, TableEnd(t0, f)))
    && (Aligned(t0.place[f].level, a) ==> Cleared(t1, f, a, b))
  }

  // ---------------------------------------------------------------- leaves fill whole slots

  lemma OverStep(m: nat, u: nat)
    requires m < 3
    ensures Over(m + 1, u) == Over(m, u) / 512
  {
  }

  lemma {:induction false} SameSlotUp(m: nat, l: nat, u: nat, w: nat)
    requires m <= l <= 3 && Over(m, u) == Over(m, w)
    ensures Over(l, u) == Over(l, w)
    decreases l - m
  {
    if m < l {
      OverStep(m, u);
      OverStep(m, w);
      SameSlotUp(m + 1, l, u, w);
    }
  }

  lemma AlignDownOver(m: nat, u: nat, w: nat)
    requires m <= 3
    ensures AlignDown(m, u) == AlignDown(m, w) <==> Over(m, u) == Over(m, w)
  {
  }

  lemma SameIndex(p: Place, u: nat, w: nat)
    requires PlaceOk(p) && Covers(p, u) && AlignDown(p.level, u) == AlignDown(p.level, w)
    ensures Covers(p, w) && Index(p, w) == Index(p, u)
  {
    SlotStart(p, Index(p, u), u);
    IndexUnique(p, w, Index(p, u));
  }

  /** Every page of the slot where a walk ends is found by the same entry. */
  lemma {:induction false} EndUniform(t: X86Tree, f: Frame, u: nat, w: nat)
    requires Wf(t) && f in t.tables && Covers(t.place[f], u)
    requires var m := WalkFrom(t, f, u).level; AlignDown(m, u) == AlignDown(m, w)
    ensures Covers(t.place[f], w) && WalkFrom(t, f, w) == WalkFrom(t, f, u)
    decreases t.place[f].level
  {
    assert TableOk(t, f);
    var p := t.place[f];
    var i := Index(p, u);
    assert EntryOk(t, f, i);
    AlignDownOver(WalkFrom(t, f, u).level, u, w);
    SameSlotUp(WalkFrom(t, f, u).level, p.level, u, w);
    AlignDownOver(p.level, u, w);
    SameIndex(p, u, w);
    if t.tables[f][i].Table? {
      EndUniform(t, t.tables[f][i].next, u, w);
    }
  }

  lemma AlignedStep(l: nat, b: nat)
    requires 0 < l <= 4 && Aligned(l, b)
    ensures Aligned(l - 1, b)
  {
    hide Times, Over, Span, Aligned;
    var k := UpTimes(l - 1, b);
    TimesSpan(l - 1, k);
    Between(l - 1, k, b);
  }

  lemma {:induction false} AlignedBelow(m: nat, l: nat, b: nat)
    requires m <= l <= 4 && Aligned(l, b)
    ensures Aligned(m, b)
    decreases l
  {
    if m < l {
      AlignedStep(l, b);
      AlignedBelow(m, l - 1, b);
    }
  }

  lemma BelowAlignDown(m: nat, u: nat, b: nat)
    requires m <= 3 && Aligned(m, b) && b <= u
    ensures b <= AlignDown(m, u)
  {
    hide Times, Over, Span, Aligned;
    var k := AlignedTimes(m, b);
    var j := Over(m, u);
    if Times(m, j) < b {
      TimesMono(m, j, k);
      TimesSpan(m, j);
      TimesMono(m, k, j + 1);
    }
  }

  lemma AcrossBoundary(m: nat, u: nat, b: nat)
    requires m <= 3 && AlignDown(m, u) < b <= u
    ensures AlignDown(m, b - 1) == AlignDown(m, u)
  {
    hide Times, Over, Span, Aligned;
    Between(m, Over(m, u), b - 1);
  }

  /** After a whole entry, the rest of a packed range is packed. */
  lemma PackedTail(t: X86Tree, f: Frame, i: nat, a: nat, e: nat)
    requires Packed(t, a, e) && OnEntry(t, f, i, a) && SlotEnd(t, f, i) <= e
    ensures Packed(t, SlotEnd(t, f, i), e)
  {
    var b := SlotEnd(t, f, i);
    forall u | b <= u < e
      ensures b <= AlignDown(Walk(t, u).level, u)
    {
      PackedTailPage(t, f, i, a, e, u);
    }
  }

  lemma PackedTailPage(t: X86Tree, f: Frame, i: nat, a: nat, e: nat, u: nat)
    requires Packed(t, a, e) && OnEntry(t, f, i, a) && SlotEnd(t, f, i) <= u < e
    ensures SlotEnd(t, f, i) <= AlignDown(Walk(t, u).level, u)
  {
    hide Wf, WalkFrom, Slot, Span, Times, Over, Aligned;
    var b := SlotEnd(t, f, i);
    var r := Walk(t, u);
    if AlignDown(r.level, u) < b {
      AcrossBoundary(r.level, u, b);
      WalkUniform(t, u, b - 1);
      LevelBelow(t, f, i);
      SlotEndAligned(t.place[f], i);
      AlignedBelow(r.level, t.place[f].level, b);
      BelowAlignDown(r.level, u, b);
    }
  }

  lemma LevelBelow(t: X86Tree, f: Frame, i: nat)
    requires At(t, f, i)
    ensures 0 < SlotEnd(t, f, i) <= LIMIT && Walk(t, SlotEnd(t, f, i) - 1).level <= t.place[f].level
  {
    hide Wf, Walk, WalkFrom;
    IndexUnique(t.place[f], SlotEnd(t, f, i) - 1, i);
    WalkThrough(t, f, SlotEnd(t, f, i) - 1);
  }

  lemma WalkUniform(t: X86Tree, u: nat, w: nat)
    requires Wf(t) && u < LIMIT
    requires var m := Walk(t, u).level; AlignDown(m, u) == AlignDown(m, w)
    ensures w < LIMIT && Walk(t, w) == Walk(t, u)
  {
    EndUniform(t, t.root, u, w);
  }

  lemma SlotEndAligned(p: Place, i: nat)
    requires PlaceOk(p) && i < ENTRIES
    ensures Aligned(p.level, Slot(p, i)) && Aligned(p.level, Slot(p, i) + Span(p.level))
  {
    hide Times, Over, Span, Aligned;
    var k := UpTimes(p.level, p.base);
    TimesAdd(p.level, k, i);
    TimesSpan(p.level, k + i);
    TimesSpan(p.level, k + i + 1);
    Between(p.level, k + i, Times(p.level, k + i));
    Between(p.level, k + i + 1, Times(p.level, k + i + 1));
  }

  // ---------------------------------------------------------------- turns of the loop

  /** Entry i of table f was a large page and is now a table of its pieces. */
  ghost predicate SplitAt(t: X86Tree, t2: X86Tree, f: Frame, i: nat) {
    && At(t, f, i) && At(t2, f, i) && t2.root == t.root && t2.place[f] == t.place[f]
    && t2.tables[f][i].Table? && t2.tables[f] == t.tables[f][i := t2.tables[f][i]]
    && !t.tables[f][i].Absent? && Kept(t, t2, t.place[f].level) && Tidy(t, t2, f)
    && (forall v | 0 <= v < LIMIT :: Trans(t2, v) == Trans(t, v) && Shape(t2, v) == Shape(t, v))
    && (forall v | 0 <= v < LIMIT && !InSlot(t, f, i, v) :: Walk(t2, v) == Walk(t, v))
  }

  lemma EntryHole(t: X86Tree, f: Frame, i: nat, a: nat, e: nat)
    requires OnEntry(t, f, i, a) && t.tables[f][i].Absent? && a < e <= LIMIT
    ensures t.place[f].level <= 3
    ensures EntryStep(t, t, f, i, a, Min(a + Span(t.place[f].level), e), e)
  {
    hide Wf, Walk, Removed, Span, Slot;
    RemovedHole(t, f, i, a, e);
    AlignedInSlot(t.place[f], i, a);
    EntryShape(t, f, i, a);
  }

  lemma AlignedInSlot(p: Place, i: nat, a: nat)
    requires PlaceOk(p) && i < ENTRIES && Slot(p, i) <= a < Slot(p, i) + Span(p.level)
    ensures Aligned(p.level, a) <==> a == Slot(p, i)
  {
    hide Times, Over, Span, Aligned;
    var k := UpTimes(p.level, p.base);
    TimesAdd(p.level, k, i);
    Between(p.level, k + i, a);
  }

  lemma EntryLeaf(t: X86Tree, f: Frame, i: nat, a: nat, e: nat)
    requires OnEntry(t, f, i, a) && t.tables[f][i].Leaf? && a == Slot(t.place[f], i) && SlotEnd(t, f, i) <= e <= LIMIT
    ensures EntryStep(t, SetEntry(t, f, i, Absent), f, i, a, SlotEnd(t, f, i), e)
  {
    hide Wf, Walk, Removed, Span, Slot, Aligned;
    var t2 := SetEntry(t, f, i, Absent);
    RemovedLeaf(t, f, i, a, e);
    SetEntryWf(t, f, i, Absent);
    InTree(t2, f, 0);
    forall u | SlotEnd(t, f, i) <= u < e ensures Walk(t2, u) == Walk(t, u) {
      SetEntryWalk(t, f, i, Absent, u);
    }
  }

  /** The entry is a table, perhaps because a large page there has just been split. */
  ghost predicate Opened(t0: X86Tree, t1: X86Tree, f: Frame, i: nat, a: nat, e: nat) {
    && OnEntry(t0, f, i, a) && At(t1, f, i) && t1.tables[f][i].Table?
    && (t1 == t0 || (SplitAt(t0, t1, f, i) && !Packed(t0, a, e)))
  }

  lemma OpenedRemoved(t0: X86Tree, t1: X86Tree, t2: X86Tree, f: Frame, i: nat, a: nat, b: nat, e: nat)
    requires Opened(t0, t1, f, i, a, e) && Removed(t1, t2, a, b, e) && SameWalk(t1, t2, b, e)
    requires b == e || SlotEnd(t0, f, i) <= b
    ensures Removed(t0, t2, a, b, e) && SameWalk(t0, t2, b, e)
  {
    if t1 != t0 {
      OpenedSplit(t0, t1, t2, f, i, a, b, e);
    }
  }

  lemma OpenedSplit(t0: X86Tree, t1: X86Tree, t2: X86Tree, f: Frame, i: nat, a: nat, b: nat, e: nat)
    requires SplitAt(t0, t1, f, i) && Removed(t1, t2, a, b, e) && SameWalk(t1, t2, b, e)
    requires b == e || SlotEnd(t0, f, i) <= b
    ensures Removed(t0, t2, a, b, e) && SameWalk(t0, t2, b, e)
  {
    hide Wf, Walk, Trans, Shape, Visits;
    RemovedSame(t0, t1, a, e);
    RemovedCompose(t0, t1, t2, a, a, b, e);
  }

  /** The lower table was worked on and stays. */
  lemma EntryKeep(t0: X86Tree, t1: X86Tree, t2: X86Tree, f: Frame, i: nat, a: nat, b: nat, e: nat)
    requires Opened(t0, t1, f, i, a, e) && TableStep(t1, t2, t1.tables[f][i].next, a, b, e)
    requires !(Aligned(t0.place[f].level, a) && SlotEnd(t0, f, i) <= e)
    ensures EntryStep(t0, t2, f, i, a, b, e)
  {
    hide Wf, Walk, Removed, SameWalk, Packed;
    TableBelow(t1, f, i);
    OpenedRemoved(t0, t1, t2, f, i, a, b, e);
  }

  /** The lower table was emptied and is taken out of the tree. */
  lemma EntryDrop(t0: X86Tree, t1: X86Tree, t2: X86Tree, f: Frame, i: nat, a: nat, b: nat, e: nat)
    requires Opened(t0, t1, f, i, a, e) && TableStep(t1, t2, t1.tables[f][i].next, a, b, e)
    requires Unlinkable(t2, f, i, t1.tables[f][i].next)
    ensures EntryStep(t0, Unlink(t2, f, i, t1.tables[f][i].next), f, i, a, b, e)
  {
    hide Wf, Walk, Removed, SameWalk, Packed, Kept, Span, Slot, Aligned;
    var g := t1.tables[f][i].next;
    DropWithin(t0, t1, t2, f, i, a, b, e);
    DropEnds(t0, t1, t2, f, i, a, b, e);
    OpenedRemoved(t0, t1, t2, f, i, a, b, e);
    RemovedUnlink(t0, t2, f, i, g, a, b, e);
    UnlinkSameWalk(t0, t2, f, i, g, b, e);
  }

  lemma DropWithin(t0: X86Tree, t1: X86Tree, t2: X86Tree, f: Frame, i: nat, a: nat, b: nat, e: nat)
    requires Opened(t0, t1, f, i, a, e) && TableStep(t1, t2, t1.tables[f][i].next, a, b, e)
    requires Unlinkable(t2, f, i, t1.tables[f][i].next)
    ensures var t3 := Unlink(t2, f, i, t1.tables[f][i].next);
            && Within(t0, t3, f) && t3.tables[f] == t0.tables[f][i := Absent]
            && t2.place[f] == t0.place[f]
  {
    hide Wf, Walk, Removed, SameWalk, Packed, Span, Slot, Aligned;
    var g := t1.tables[f][i].next;
    TableBelow(t1, f, i);
    UnlinkWf(t2, f, i, g);
    InTree(Unlink(t2, f, i, g), f, 0);
  }

  lemma DropEnds(t0: X86Tree, t1: X86Tree, t2: X86Tree, f: Frame, i: nat, a: nat, b: nat, e: nat)
    requires Opened(t0, t1, f, i, a, e) && TableStep(t1, t2, t1.tables[f][i].next, a, b, e)
    ensures b == e || SlotEnd(t0, f, i) <= b < SlotEnd(t0, f, i) + Span(t0.place[f].level)
    ensures Aligned(t0.place[f].level, a) || Packed(t0, a, e) ==> b == Min(e, SlotEnd(t0, f, i))
  {
    hide Wf, Walk, Removed, SameWalk, Packed, Slot, Span, Aligned;
    TableBelow(t1, f, i);
    SpanMono(t0.place[f].level);
    if Aligned(t0.place[f].level, a) {
      AlignedStep(t0.place[f].level, a);
    }
  }

  lemma SpanMono(level: nat)
    requires 0 < level <= 4
    ensures Span(level - 1) < Span(level)
  {
  }

  lemma UnlinkSameWalk(t0: X86Tree, t2: X86Tree, f: Frame, i: nat, g: Frame, b: nat, e: nat)
    requires SameWalk(t0, t2, b, e) && Unlinkable(t2, f, i, g) && (b == e || SlotEnd(t2, f, i) <= b)
    ensures SameWalk(t0, Unlink(t2, f, i, g), b, e)
  {
    hide Wf, Walk;
    UnlinkWf(t2, f, i, g);
    forall u | b <= u < e ensures Walk(Unlink(t2, f, i, g), u) == Walk(t0, u) {
      UnlinkWalk(t2, f, i, g, u);
    }
  }

  /** A lower table whose whole range was asked for has no entry left. */
  lemma FullyCleared(t0: X86Tree, t1: X86Tree, t2: X86Tree, f: Frame, i: nat, a: nat, b: nat, e: nat)
    requires Opened(t0, t1, f, i, a, e) && TableStep(t1, t2, t1.tables[f][i].next, a, b, e)
    requires Aligned(t0.place[f].level, a) && SlotEnd(t0, f, i) <= e
    ensures Unlinkable(t2, f, i, t1.tables[f][i].next)
  {
    hide Wf, Walk, Removed, SameWalk, Packed;
    var g := t1.tables[f][i].next;
    TableBelow(t1, f, i);
    AlignedInSlot(t0.place[f], i, a);
    AlignedStep(t0.place[f].level, a);
    forall j | 0 <= j < ENTRIES ensures t2.tables[g][j].Absent? {
      assert a <= Slot(t2.place[g], j) && SlotEnd(t2, g, j) <= b;
    }
  }

  // ---------------------------------------------------------------- the loop

  lemma LoopStart(t: X86Tree, f: Frame, a: nat, e: nat)
    requires At(t, f, 0) && Covers(t.place[f], a) && a <= e <= LIMIT
    ensures LoopAt(t, t, f, Index(t.place[f], a), a, a, e)
  {
    hide Wf, Walk;
    RemovedNothing(t, a, e);
  }

  lemma SlotNext(p: Place, i: nat)
    requires p.level <= 3
    ensures Slot(p, i + 1) == Slot(p, i) + Span(p.level)
  {
  }

  lemma LoopNextPacked(t1: X86Tree, t2: X86Tree, f: Frame, i: nat, b: nat, c: nat, e: nat)
    requires Packed(t1, b, e) && OnEntry(t1, f, i, b) && SameWalk(t1, t2, c, e)
    requires c == Min(e, SlotEnd(t1, f, i))
    ensures Packed(t2, c, e)
  {
    hide Wf, Walk, Span, Slot;
    if c < e {
      PackedTail(t1, f, i, b, e);
    }
  }

  lemma LoopNextCleared(t1: X86Tree, t2: X86Tree, f: Frame, i: nat, a: nat, b: nat, c: nat, e: nat)
    requires At(t1, f, i) && At(t2, f, i) && t2.place[f] == t1.place[f] && Cleared(t1, f, a, b)
    requires t2.tables[f] == t1.tables[f][i := t2.tables[f][i]]
    requires b == Slot(t1.place[f], i) && c == Min(e, SlotEnd(t1, f, i))
    requires SlotEnd(t1, f, i) <= e ==> t2.tables[f][i].Absent?
    ensures Cleared(t2, f, a, c)
  {
    hide Wf;
  }

  lemma LoopNext(t0: X86Tree, t1: X86Tree, t2: X86Tree, f: Frame, i: nat, a: nat, b: nat, c: nat, e: nat)
    requires LoopAt(t0, t1, f, i, a, b, e) && b < e && EntryStep(t1, t2, f, i, b, c, e)
    ensures LoopAt(t0, t2, f, i + 1, a, c, e)
  {
    hide Wf, Walk, Removed, Packed, Cleared, Span, Slot, Aligned;
    RemovedCompose(t0, t1, t2, a, b, c, e);
    SlotNext(t0.place[f], i);
    SlotEndAligned(t0.place[f], i);
    AlignedInSlot(t0.place[f], i, b);
    if Packed(t0, a, e) {
      LoopNextPacked(t1, t2, f, i, b, c, e);
    }
    if Aligned(t0.place[f].level, a) {
      LoopNextCleared(t1, t2, f, i, a, b, c, e);
    }
  }

  lemma LoopDone(t0: X86Tree, t1: X86Tree, f: Frame, i: nat, a: nat, b: nat, e: nat)
    requires LoopAt(t0, t1, f, i, a, b, e) && (i == ENTRIES || b == e) && Covers(t0.place[f], a)
    ensures TableStep(t0, t1, f, a, b, e)
  {
    hide Wf, Walk, Removed, Packed, Cleared, SameWalk;
  }

  // ---------------------------------------------------------------- tables left behind

  ghost predicate Empty(t: X86Tree, g: Frame)
    requires g in t.tables
  {
    forall j | 0 <= j < |t.tables[g]| :: t.tables[g][j].Absent?
  }

  /** Apart from f, a table that is empty now was there and empty before. */
  ghost predicate Tidy(t0: X86Tree, t1: X86Tree, f: Frame) {
    forall g | g in t1.tables && g != f && Empty(t1, g) :: g in t0.tables && Empty(t0, g)
  }

  /** No entry of f went from present to absent. */
  ghost predicate NoneCleared(t0: X86Tree, t1: X86Tree, f: Frame) {
    && f in t0.tables && f in t1.tables && |t1.tables[f]| == |t0.tables[f]|
    && forall j | 0 <= j < |t0.tables[f]| :: t1.tables[f][j].Absent? ==> t0.tables[f][j].Absent?
  }

  lemma TidyCompose(t0: X86Tree, t1: X86Tree, t2: X86Tree, f: Frame)
    requires Tidy(t0, t1, f) && Tidy(t1, t2, f)
    ensures Tidy(t0, t2, f)
  {
    forall g | g in t2.tables && g != f && Empty(t2, g) ensures g in t0.tables && Empty(t0, g) {
      assert Empty(t1, g);
    }
  }

  /** The facts about the lower table that the drop decision rests on. */
  lemma BelowFacts(t0: X86Tree, t1: X86Tree, f: Frame, i: nat, a: nat, e: nat)
    requires Opened(t0, t1, f, i, a, e)
    ensures var g := t1.tables[f][i].next;
            && t1.place[f] == t0.place[f] && At(t1, g, 0) && t1.place[f].level > 0
            && t1.place[g].level == t1.place[f].level - 1 && Covers(t1.place[g], a) && g != f
    ensures Aligned(t0.place[f].level, a) ==> SlotEnd(t0, f, i) == a + Span(t0.place[f].level)
    ensures SlotEnd(t0, f, i) <= LIMIT
  {
    hide Wf, Packed;
    TableBelow(t1, f, i);
    AlignedInSlot(t0.place[f], i, a);
  }

  lemma AfterBelow(t1: X86Tree, t2: X86Tree, f: Frame, i: nat, a: nat, b: nat, e: nat)
    requires At(t1, f, i) && t1.tables[f][i].Table? && TableStep(t1, t2, t1.tables[f][i].next, a, b, e)
    ensures var g := t1.tables[f][i].next;
            && At(t2, f, i) && t2.tables[f] == t1.tables[f] && t2.place[f] == t1.place[f]
            && g in t2.tables && |t2.tables[g]| == ENTRIES
  {
    hide Wf, Packed, Removed, SameWalk, Cleared, Aligned, Span, Slot;
    TableBelow(t1, f, i);
  }

  lemma TidyOpened(t0: X86Tree, t1: X86Tree, f: Frame, i: nat, a: nat, e: nat)
    requires Opened(t0, t1, f, i, a, e)
    ensures Tidy(t0, t1, f) && NoneCleared(t0, t1, f)
  {
    hide Wf, Packed;
  }

  /** The lower table stays only when it kept a present entry or was not touched. */
  lemma TidyKeep(t1: X86Tree, t2: X86Tree, f: Frame, g: Frame)
    requires Tidy(t1, t2, g) && g in t2.tables
    requires NoneCleared(t1, t2, g) || !Empty(t2, g)
    ensures Tidy(t1, t2, f)
  {
  }

  lemma TidyDrop(t1: X86Tree, t2: X86Tree, f: Frame, i: nat, g: Frame)
    requires Tidy(t1, t2, g) && f in t2.tables && i < |t2.tables[f]|
    ensures Tidy(t1, Unlink(t2, f, i, g), f)
  {
    var t3 := Unlink(t2, f, i, g);
    forall h | h in t3.tables && h != f && Empty(t3, h) ensures h in t1.tables && Empty(t1, h) {
      assert Empty(t2, h);
    }
  }

  lemma TidySetEntry(t: X86Tree, f: Frame, i: nat, e: Entry<Bits>)
    requires f in t.tables && i < |t.tables[f]|
    ensures Tidy(t, SetEntry(t, f, i, e), f)
  {
    forall g | g in SetEntry(t, f, i, e).tables && g != f && Empty(SetEntry(t, f, i, e), g) ensures Empty(t, g) {
    }
  }

  lemma TidySelf(t: X86Tree, f: Frame)
    ensures Tidy(t, t, f)
  {
  }

  lemma TidyLink(t: X86Tree, f: Frame, i: nat, g: Frame, m: seq<Entry<Bits>>)
    requires f in t.tables && f in t.place && i < |t.tables[f]| && g != f && 0 < t.place[f].level <= 3
    requires |m| > 0 && !m[0].Absent?
    ensures Tidy(t, Link(t, f, i, g, m), f)
  {
    var t2 := Link(t, f, i, g, m);
    assert t2.tables[g] == m;
    forall h | h in t2.tables && h != f && h != g && Empty(t2, h) ensures h in t.tables && Empty(t, h) {
      assert t2.tables[h] == t.tables[h];
    }
  }

  lemma OpenedBySplit(t0: X86Tree, t1: X86Tree, f: Frame, i: nat, a: nat, e: nat)
    requires SplitAt(t0, t1, f, i) && OnEntry(t0, f, i, a) && !Packed(t0, a, e)
    ensures Opened(t0, t1, f, i, a, e) && t1.place[f] == t0.place[f]
  {
    hide Wf, Packed;
  }
}
