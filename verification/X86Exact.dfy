/** Which pages of the range an unmap removes: all of them when the range starts on a mapped page
    or at the start of the hole it falls in, and otherwise all but the pages that the cursor
    jumps over when it leaves a hole in the middle of the next entry. */
module X86Exact {
  import opened PageTree
  import opened X86Pages
  import opened X86Unmap
  import opened X86Map

  /** The cursor, standing inside a hole of level l but not at its start, moves a whole Span(l)
      and lands inside the next slot; v is one of the pages of that slot left behind. */
  ghost predicate Jumped(t: X86Tree, cur: nat, e: nat, v: nat)
    requires Wf(t) && e <= LIMIT
    decreases e - cur
  {
    if cur >= e then false
    else
      var l := Shape(t, cur);
      if l >= 0 then
        || AlignDown(l, cur) + Span(l) <= v < Min(cur + Span(l), e)
        || Jumped(t, Min(cur + Span(l), e), e, v)
      else Jumped(t, cur + 1, e, v)
  }

  lemma {:induction false} JumpedBounds(t: X86Tree, cur: nat, e: nat, v: nat)
    requires Wf(t) && e <= LIMIT && Jumped(t, cur, e, v)
    ensures cur < v < e
    decreases e - cur
  {
    hide Wf, Shape;
    var l := Shape(t, cur);
    if l >= 0 {
      if Jumped(t, Min(cur + Span(l), e), e, v) {
        JumpedBounds(t, Min(cur + Span(l), e), e, v);
      }
    } else {
      JumpedBounds(t, cur + 1, e, v);
    }
  }

  lemma HoleFills(t: X86Tree, u: nat, w: nat)
    requires Wf(t) && u < LIMIT && Shape(t, u) >= 0 && AlignDown(Shape(t, u), u) == AlignDown(Shape(t, u), w)
    ensures w < LIMIT && Shape(t, w) == Shape(t, u)
  {
    hide Wf, Walk;
    WalkUniform(t, u, w);
  }

  lemma SameSlot(l: nat, u: nat, w: nat)
    requires l <= 3 && AlignDown(l, u) <= w < AlignDown(l, u) + Span(l)
    ensures AlignDown(l, w) == AlignDown(l, u)
  {
    hide Times, Over, Span, Aligned;
    Between(l, Over(l, u), w);
  }

  /** Of the mapped pages in its range, an unmap leaves exactly the ones it jumps over. */
  lemma {:induction false} VisitsOrJumps(t: X86Tree, cur: nat, e: nat, v: nat)
    requires Wf(t) && e <= LIMIT && cur <= v < e && Trans(t, v).Some?
    ensures Visits(t, cur, e, v) <==> !Jumped(t, cur, e, v)
    decreases e - cur
  {
    hide Wf, Walk, AlignDown, Span;
    var l := Shape(t, cur);
    if l >= 0 {
      var next := Min(cur + Span(l), e);
      if v < next {
        if v < AlignDown(l, cur) + Span(l) {
          SameSlot(l, cur, v);
          HoleFills(t, cur, v);
          assert false;
        }
        if Visits(t, next, e, v) {
          VisitsBounds(t, next, e, v);
        }
      } else {
        VisitsOrJumps(t, next, e, v);
      }
    } else if v == cur {
      if Jumped(t, cur + 1, e, v) {
        JumpedBounds(t, cur + 1, e, v);
      }
    } else {
      VisitsOrJumps(t, cur + 1, e, v);
    }
  }

  /** Page a is mapped, or is the first page of the hole it lies in. */
  ghost predicate Boundary(t: X86Tree, a: nat)
    requires Wf(t)
  {
    a < LIMIT ==> Shape(t, a) == -1 || AlignDown(Shape(t, a), a) == a
  }

  lemma BoundaryNext(t: X86Tree, cur: nat, next: nat)
    requires Wf(t) && cur < next < LIMIT && Boundary(t, cur)
    requires next == if Shape(t, cur) >= 0 then cur + Span(Shape(t, cur)) else cur + 1
    ensures Boundary(t, next)
  {
    hide Wf, Walk, Span, AlignDown;
    var m := Shape(t, next);
    if m >= 0 && AlignDown(m, next) < next {
      AcrossBoundary(m, next, next);
      HoleFills(t, next, next - 1);
      if Shape(t, cur) >= 0 {
        SameSlot(Shape(t, cur), cur, next - 1);
        HoleFills(t, cur, next - 1);
      }
    }
  }

  /** From a boundary nothing is jumped over. */
  lemma {:induction false} BoundaryNoJump(t: X86Tree, cur: nat, e: nat, v: nat)
    requires Wf(t) && e <= LIMIT && Boundary(t, cur)
    ensures !Jumped(t, cur, e, v)
    decreases e - cur
  {
    hide Wf, Walk, Shape, Span, AlignDown;
    if cur < e {
      var l := Shape(t, cur);
      var next := if l >= 0 then cur + Span(l) else cur + 1;
      if next < e {
        BoundaryNext(t, cur, next);
        BoundaryNoJump(t, next, e, v);
      }
    }
  }

  /** Every mapped page of [a, e) is removed. */
  ghost predicate RemovesAll(t: X86Tree, a: nat, e: nat)
    requires Wf(t) && e <= LIMIT
  {
    forall v | a <= v < e && Trans(t, v).Some? :: Visits(t, a, e, v)
  }

  /** The unmap is exact if and only if no mapped page of the range is jumped over. */
  lemma ExactIff(t: X86Tree, a: nat, e: nat)
    requires Wf(t) && a <= e <= LIMIT
    ensures RemovesAll(t, a, e) <==> forall v | a <= v < e && Trans(t, v).Some? :: !Jumped(t, a, e, v)
  {
    hide Wf, Trans, Visits, Jumped;
    forall v | a <= v < e && Trans(t, v).Some?
      ensures Visits(t, a, e, v) <==> !Jumped(t, a, e, v)
    {
      VisitsOrJumps(t, a, e, v);
    }
  }

  /** Starting on a mapped page, or at the start of a hole, is enough; so is a fully mapped range. */
  lemma BoundaryExact(t: X86Tree, a: nat, e: nat)
    requires Wf(t) && a <= e <= LIMIT && Boundary(t, a)
    ensures RemovesAll(t, a, e)
  {
    hide Wf, Trans, Visits, Jumped, Shape;
    ExactIff(t, a, e);
    forall v | a <= v < e ensures !Jumped(t, a, e, v) {
      BoundaryNoJump(t, a, e, v);
    }
  }

  // ---------------------------------------------------------------- a range that is not exact

  function OneEntry(i: nat, e: Entry<Bits>): (m: seq<Entry<Bits>>)
    requires i < ENTRIES
  {
    EmptyTable()[i := e]
  }

  /** One 4 KiB page mapped at page 512, nothing below it: tables 1 and 2 are the middle levels,
      table 3 holds pages 512 to 1023, and the entry for pages 0 to 511 is absent. */
  function OnePageTree(frame: Frame, b: Bits): (t: X86Tree) {
    Tree(0,
         map[0 := OneEntry(0, Table(1)), 1 := OneEntry(0, Table(2)),
             2 := OneEntry(1, Table(3)), 3 := OneEntry(0, Leaf(frame, b))],
         map[0 := Place(3, 0, 0), 1 := Place(2, 0, 0), 2 := Place(1, 0, 1), 3 := Place(0, 512, 2)])
  }

  lemma OnePageTable(frame: Frame, b: Bits, f: Frame)
    requires f <= 3
    ensures TableOk(OnePageTree(frame, b), f)
    ensures f > 0 ==> Linked(OnePageTree(frame, b), f)
  {
  }

  lemma OnePageWf(frame: Frame, b: Bits)
    ensures Wf(OnePageTree(frame, b))
  {
    hide TableOk, Linked, OneEntry;
    OnePageTable(frame, b, 0);
    OnePageTable(frame, b, 1);
    OnePageTable(frame, b, 2);
    OnePageTable(frame, b, 3);
  }

  lemma OnePageShape(frame: Frame, b: Bits)
    ensures Wf(OnePageTree(frame, b))
    ensures Shape(OnePageTree(frame, b), 1) == 1 && Shape(OnePageTree(frame, b), 512) == -1
  {
    hide Wf, Walk;
    OnePageWf(frame, b);
    var t := OnePageTree(frame, b);
    InTree(t, 2, 0);
    WalkInSlot(t, 2, 0, 1);
    InTree(t, 3, 0);
    WalkInSlot(t, 3, 0, 512);
  }

  /** Unmapping pages 1 to 1024 of that tree leaves page 512, which lies in the range, mapped. */
  lemma UnmapMissesPage(frame: Frame, b: Bits)
    ensures var t := OnePageTree(frame, b);
            Wf(t) && Trans(t, 512).Some? && !Visits(t, 1, 1025, 512) && !RemovesAll(t, 1, 1025)
  {
    hide Wf, Walk, OnePageTree;
    OnePageShape(frame, b);
    var t := OnePageTree(frame, b);
    VisitsHole(t, 1, 1, 1025, 512);
    if Visits(t, 513, 1025, 512) {
      VisitsBounds(t, 513, 1025, 512);
    }
  }
}
