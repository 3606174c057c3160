/** The x86-64 page-table routines: recursive map, unmap and protect over a table tree that is
    changed in place, with a cursor carried through the recursion. */
module X86Mmu {
  import opened PageTree
  import opened X86Pages
  import opened X86Unmap
  import opened X86Map
  import opened X86Need
  import opened X86Exact

  /** MappingCursor, in pages. */
  datatype Cursor = Cursor(paddr: nat, vaddr: nat, size: nat)

  datatype Status = NoError | AlreadyExists | NotFound | NoMemory | InvalidArgs

  function End(c: Cursor): nat { c.vaddr + c.size }

  function VaddrToIndex(level: nat, v: nat): (i: nat)
    requires level <= 3
  {
    Over(level, v) % ENTRIES
  }

  lemma IndexBits1(b: nat, v: nat)
    requires b % 262144 == 0 && b <= v < b + 262144
    ensures v / 512 % 512 == (v - b) / 512
  {
    assert v / 512 == 512 * (b / 262144) + (v - b) / 512;
  }

  lemma IndexBits2(b: nat, v: nat)
    requires b % 134217728 == 0 && b <= v < b + 134217728
    ensures v / 262144 % 512 == (v - b) / 262144
  {
    assert v / 262144 == 512 * (b / 134217728) + (v - b) / 262144;
  }

  lemma IndexBits3(b: nat, v: nat)
    requires b % 68719476736 == 0 && b <= v < b + 68719476736
    ensures v / 134217728 % 512 == (v - b) / 134217728
  {
    assert v / 134217728 == 512 * (b / 68719476736) + (v - b) / 134217728;
  }

  /** The index taken from the address is the index inside the table. */
  lemma VaddrIndex(p: Place, v: nat)
    requires PlaceOk(p) && Covers(p, v)
    ensures VaddrToIndex(p.level, v) == Index(p, v)
  {
    if p.level == 1 {
      IndexBits1(p.base, v);
    } else if p.level == 2 {
      IndexBits2(p.base, v);
    } else if p.level == 3 {
      IndexBits3(p.base, v);
    }
  }

  // ---------------------------------------------------------------- byte addresses

  const PAGE_SIZE: nat := 4096
  const TWO_47: nat := 0x8000_0000_0000
  const TWO_48: nat := 0x1_0000_0000_0000
  const TWO_64: nat := 0x1_0000_0000_0000_0000

  /** x86_is_vaddr_canonical for 48-bit addresses. */
  predicate Canonical(vaddr: nat) {
    !(vaddr > TWO_47 - 1 && vaddr < TWO_64 - TWO_47)
  }

  predicate CheckVaddr(vaddr: nat) {
    vaddr % PAGE_SIZE == 0 && Canonical(vaddr)
  }

  /** The page number the table indices are taken from. */
  function Vpn(vaddr: nat): (v: nat)
    ensures v < LIMIT
  {
    vaddr % TWO_48 / PAGE_SIZE
  }

  /** Canonical is what the hardware demands: bits 47 to 63 are all alike. */
  lemma CanonicalBits(a: nat)
    requires a < TWO_64
    ensures Canonical(a) <==> a / 0x8000_0000_0000 == 0 || a / 0x8000_0000_0000 == 0x1_FFFF
  {
  }

  /** The page number of a canonical address, low half and high half. */
  lemma VpnHalves(a: nat)
    requires a < TWO_64 && Canonical(a)
    ensures a < 0x8000_0000_0000 ==> Vpn(a) == a / 4096 < 0x8_0000_0000
    ensures a >= 0x8000_0000_0000 ==>
              Vpn(a) == (a - 0xFFFF_0000_0000_0000) / 4096 && 0x8_0000_0000 <= Vpn(a) < 0x10_0000_0000
  {
    if a < 0x8000_0000_0000 {
      LowBits(a, 0, a);
    } else {
      LowBits(a, 0xFFFF, a - 0xFFFF_0000_0000_0000);
    }
  }

  lemma LowBits(a: nat, q: nat, r: nat)
    requires a == 0x1_0000_0000_0000 * q + r && r < 0x1_0000_0000_0000
    ensures a % 0x1_0000_0000_0000 == r
  {
  }

  /** The four table indices are bits 12 to 20, 21 to 29, 30 to 38 and 39 to 47 of the address. */
  lemma VpnIndex(a: nat)
    requires a < TWO_64 && Canonical(a)
    ensures VaddrToIndex(0, Vpn(a)) == a / 0x1000 % 0x200
    ensures VaddrToIndex(1, Vpn(a)) == a / 0x20_0000 % 0x200
    ensures VaddrToIndex(2, Vpn(a)) == a / 0x4000_0000 % 0x200
    ensures VaddrToIndex(3, Vpn(a)) == a / 0x80_0000_0000 % 0x200
  {
    hide Vpn;
    VpnHalves(a);
    if a < 0x8000_0000_0000 {
      IndexOf(a, 0);
    } else {
      IndexOf(a - 0xFFFF_0000_0000_0000, 0xFFFF);
    }
  }

  lemma IndexOf(r: nat, q: nat)
    requires r < 0x1_0000_0000_0000
    ensures
      var a := 0x1_0000_0000_0000 * q + r;
      && r / 4096 % 512 == a / 0x1000 % 0x200
      && r / 4096 / 512 % 512 == a / 0x20_0000 % 0x200
      && r / 4096 / 262144 % 512 == a / 0x4000_0000 % 0x200
      && r / 4096 / 134217728 % 512 == a / 0x80_0000_0000 % 0x200
  {
    var x := r / 4096;
    Index0(r, q, x);
    Index1(r, q, x, x / 512);
    Index2(r, q, x, x / 262144);
    Index3(r, q, x, x / 134217728);
    SameIndex(0x800_0000 * q, x);
    SameIndex(0x4_0000 * q, x / 512);
    SameIndex(0x200 * q, x / 262144);
    SameIndex(q, x / 134217728);
  }

  lemma SameIndex(m: nat, y: nat)
    ensures (512 * m + y) % 512 == y % 512
  {
  }

  lemma Index0(r: nat, q: nat, x: nat)
    requires 4096 * x <= r < 4096 * x + 4096
    ensures (0x1_0000_0000_0000 * q + r) / 0x1000 == 512 * (0x800_0000 * q) + x
  {
  }

  lemma Index1(r: nat, q: nat, x: nat, y: nat)
    requires 4096 * x <= r < 4096 * x + 4096 && 512 * y <= x < 512 * y + 512
    ensures (0x1_0000_0000_0000 * q + r) / 0x20_0000 == 512 * (0x4_0000 * q) + y
  {
  }

  lemma Index2(r: nat, q: nat, x: nat, y: nat)
    requires 4096 * x <= r < 4096 * x + 4096 && 262144 * y <= x < 262144 * y + 262144
    ensures (0x1_0000_0000_0000 * q + r) / 0x4000_0000 == 512 * (0x200 * q) + y
  {
  }

  lemma Index3(r: nat, q: nat, x: nat, y: nat)
    requires 4096 * x <= r < 4096 * x + 4096 && 134217728 * y <= x < 134217728 * y + 134217728
    ensures (0x1_0000_0000_0000 * q + r) / 0x80_0000_0000 == 512 * q + y
  {
  }

  /** Two canonical addresses have the same page number exactly when they are in the same page. */
  lemma VpnUnique(a: nat, b: nat)
    requires a < TWO_64 && Canonical(a) && b < TWO_64 && Canonical(b)
    ensures Vpn(a) == Vpn(b) <==> a / 4096 == b / 4096
  {
    hide Vpn;
    VpnHalves(a);
    VpnHalves(b);
  }

  /** A range of bytes that stays in one half of the canonical addresses. */
  predicate OneHalf(vaddr: nat, count: nat) {
    vaddr + 4096 * count <= 0x8000_0000_0000
    || (0xFFFF_8000_0000_0000 <= vaddr && vaddr + 4096 * count <= 0x1_0000_0000_0000_0000)
  }

  /** The pages of a range of bytes are those of its bytes. */
  lemma RangeBytes(vaddr: nat, count: nat, b: nat)
    requires vaddr % 4096 == 0 && count > 0 && OneHalf(vaddr, count) && b < TWO_64 && Canonical(b)
    ensures Vpn(vaddr) <= Vpn(b) < Vpn(vaddr) + count <==> vaddr <= b < vaddr + 4096 * count
    ensures vaddr <= b < vaddr + 4096 * count ==> Vpn(b) == Vpn(vaddr) + (b - vaddr) / 4096
  {
    hide Vpn;
    VpnHalves(vaddr);
    VpnHalves(b);
    assert vaddr == 4096 * (vaddr / 4096);
  }

  class AddressSpace {
    const root: Frame
    /** The range of byte addresses this space owns, and the largest physical address. */
    const base: nat
    const size: nat
    const maxPaddr: nat
    /** Page-table pages in physical memory, and the pages the allocator can still hand out. */
    var tables: map<Frame, seq<Entry<Bits>>>
    var pool: set<Frame>
    ghost var place: map<Frame, Place>

    ghost function Snap(): X86Tree
      reads this
    {
      Tree(root, tables, place)
    }

    ghost predicate Valid()
      reads this
    {
      BitsWf(Snap()) && pool !! tables.Keys
    }

    /** All page-table pages, used and free: constant over every operation. */
    ghost function Pages(): set<Frame>
      reads this
    {
      pool + tables.Keys
    }

    /** A space with an empty top table. */
    constructor (root0: Frame, free: set<Frame>, base0: nat, size0: nat, maxPaddr0: nat)
      requires root0 !in free
      ensures Valid() && Pages() == free + {root0} && root == root0
      ensures base == base0 && size == size0 && maxPaddr == maxPaddr0
      ensures forall v | 0 <= v < LIMIT :: Trans(Snap(), v) == None
    {
      root, base, size, maxPaddr := root0, base0, size0, maxPaddr0;
      tables, pool := map[root0 := EmptyTable()], free;
      place := map[root0 := Place(3, 0, root0)];
      new;
      EmptySpace(root);
    }

    /** x86_mmu_split: false when no page is left for the new table. */
    method Split(level: nat, f: Frame, i: nat) returns (ok: bool)
      requires Valid() && At(Snap(), f, i) && level == place[f].level && 0 < level < 3
      requires tables[f][i].Leaf?
      modifies this
      ensures Valid() && Pages() == old(Pages())
      ensures !ok ==> pool == {} && Snap() == old(Snap())
      ensures ok ==> SplitAt(old(Snap()), Snap(), f, i)
    {
      hide Wf, BitsWf, SplitAt, PlaceOk, Slot, Span, SplitEntries;
      if pool == {} {
        return false;
      }
      ghost var t := Snap();
      var g :| g in pool;
      var e := tables[f][i];
      var m := SplitTable(level, e.frame, e.attr);
      SplitFacts(t, f, i, g);
      pool := pool - {g};
      place := place[g := Place(level - 1, Slot(place[f], i), f)];
      tables := tables[g := m][f := tables[f][i := Table(g)]];
      assert Snap() == Link(t, f, i, g, m);
      ok := true;
    }

    /** The loop that fills the new table with the pieces of the large page. */
    method SplitTable(level: nat, frame: Frame, b: Bits) returns (m: seq<Entry<Bits>>)
      requires 0 < level < 3
      ensures m == SplitEntries(level, frame, b)
    {
      m := [];
      var newPaddr := frame;
      for i := 0 to ENTRIES
        invariant |m| == i && newPaddr == frame + Times(level - 1, i)
        invariant m == SplitEntries(level, frame, b)[..i]
      {
        m := m + [Leaf(newPaddr, SplitBits(level, b))];
        newPaddr := newPaddr + Span(level - 1);
      }
    }

    /** unmap_entry on a page. */
    method UnmapLeaf(f: Frame, i: nat, ghost a: nat, ghost e: nat)
      requires Valid() && OnEntry(Snap(), f, i, a) && tables[f][i].Leaf?
      requires a == Slot(place[f], i) && SlotEnd(Snap(), f, i) <= e <= LIMIT
      modifies this
      ensures Valid() && Pages() == old(Pages())
      ensures EntryStep(old(Snap()), Snap(), f, i, a, SlotEnd(old(Snap()), f, i), e)
      ensures Tidy(old(Snap()), Snap(), f)
    {
      hide Wf, EntryStep, BitsWf, Tidy;
      ghost var t := Snap();
      EntryLeaf(t, f, i, a, e);
      SetEntryWf(t, f, i, Absent);
      SetEntryBits(t, f, i, Absent);
      TidySetEntry(t, f, i, Absent);
      tables := tables[f := tables[f][i := Absent]];
      assert Snap() == SetEntry(t, f, i, Absent);
    }

    /** unmap_entry on a table, and giving the table's page back. */
    method FreeTable(f: Frame, i: nat, g: Frame)
      requires Valid() && Unlinkable(Snap(), f, i, g)
      modifies this
      ensures Valid() && Pages() == old(Pages())
      ensures Snap() == Unlink(old(Snap()), f, i, g)
    {
      hide Wf, BitsWf;
      ghost var t := Snap();
      UnlinkWf(t, f, i, g);
      UnlinkBits(t, f, i, g);
      tables := (tables - {g})[f := tables[f][i := Absent]];
      place := place - {g};
      pool := pool + {g};
      assert Snap() == Unlink(t, f, i, g);
    }

    /** The scan for a present entry in the lower table. */
    method IsEmpty(g: Frame) returns (empty: bool)
      requires g in tables
      ensures empty <==> forall j | 0 <= j < |tables[g]| :: tables[g][j].Absent?
    {
      for j := 0 to |tables[g]|
        invariant forall k | 0 <= k < j :: tables[g][k].Absent?
      {
        if !tables[g][j].Absent? {
          return false;
        }
      }
      return true;
    }

    /** One turn of the loop of x86_mmu_remove_mapping above the leaf tables.  `ok` is false when
        a large page has to be split and no page-table page is left (the kernel panics there). */
    method RemoveEntry(level: nat, f: Frame, i: nat, start: Cursor)
      returns (unmapped: bool, cur: Cursor, ok: bool)
      requires Valid() && OnEntry(Snap(), f, i, start.vaddr) && level == place[f].level && 0 < level
      requires 0 < start.size && End(start) <= LIMIT
      modifies this
      ensures Valid() && Pages() == old(Pages()) && End(cur) == End(start)
      ensures ok ==> EntryStep(old(Snap()), Snap(), f, i, start.vaddr, cur.vaddr, End(start))
      ensures !ok ==> pool == {} && !Packed(old(Snap()), start.vaddr, End(start))
      ensures ok ==> Tidy(old(Snap()), Snap(), f)
      ensures ok && !unmapped ==> NoneCleared(old(Snap()), Snap(), f)
      decreases level, 1
    {
      hide Wf, BitsWf, EntryStep, Packed, TableStep, SplitAt, Slot, Aligned, Tidy;
      ghost var t0 := Snap();
      ghost var e := End(start);
      cur := start;
      unmapped := false;
      ok := true;
      var ps := Span(level);
      if tables[f][i].Absent? {
        EntryHole(t0, f, i, start.vaddr, e);
        TidySelf(t0, f);
        if cur.size < ps {
          cur := Cursor(cur.paddr, cur.vaddr + cur.size, 0);
        } else {
          cur := Cursor(cur.paddr, cur.vaddr + ps, cur.size - ps);
        }
        return;
      }
      AlignedInSlot(place[f], i, start.vaddr);
      if tables[f][i].Leaf? {
        LeafFacts(t0, f, i);
        if Aligned(level, cur.vaddr) && cur.size >= ps {
          UnmapLeaf(f, i, start.vaddr, e);
          unmapped := true;
          cur := Cursor(cur.paddr, cur.vaddr + ps, cur.size - ps);
          return;
        }
        LeafNotPacked(t0, f, i, start.vaddr, e);
        ok := Split(level, f, i);
        if !ok {
          return;
        }
        OpenedBySplit(t0, Snap(), f, i, start.vaddr, e);
      }
      unmapped, cur, ok := RemoveBelow(level, f, i, start, t0);
    }

    /** The part of the turn that works on the table below the entry: recurse, then take the
        table out if its whole range was asked for or nothing is left in it. */
    method RemoveBelow(level: nat, f: Frame, i: nat, start: Cursor, ghost t0: X86Tree)
      returns (unmapped: bool, cur: Cursor, ok: bool)
      requires Valid() && 0 < start.size && End(start) <= LIMIT
      requires Opened(t0, Snap(), f, i, start.vaddr, End(start)) && level == place[f].level && 0 < level
      modifies this
      ensures Valid() && Pages() == old(Pages()) && End(cur) == End(start)
      ensures ok ==> EntryStep(t0, Snap(), f, i, start.vaddr, cur.vaddr, End(start))
      ensures !ok ==> pool == {} && !Packed(t0, start.vaddr, End(start))
      ensures ok ==> Tidy(t0, Snap(), f)
      ensures ok && !unmapped ==> NoneCleared(t0, Snap(), f)
      decreases level, 0
    {
      hide Wf, BitsWf, EntryStep, Packed, TableStep, SplitAt, Slot, Aligned, Tidy, NoneCleared;
      ghost var t1 := Snap();
      ghost var e := End(start);
      var next := tables[f][i].next;
      BelowFacts(t0, t1, f, i, start.vaddr, e);
      TidyOpened(t0, t1, f, i, start.vaddr, e);
      var lowerUnmapped;
      if level == 1 {
        lowerUnmapped, cur := RemoveMappingPT(next, start);
        ok := true;
      } else {
        lowerUnmapped, cur, ok := RemoveMapping(level - 1, next, start);
      }
      unmapped := false;
      if !ok {
        return;
      }
      ghost var t2 := Snap();
      AfterBelow(t1, t2, f, i, start.vaddr, cur.vaddr, e);
      var unmapTable := Aligned(level, start.vaddr) && start.size >= Span(level);
      if unmapTable {
        FullyCleared(t0, t1, t2, f, i, start.vaddr, cur.vaddr, e);
      } else if lowerUnmapped {
        unmapTable := IsEmpty(next);
      }
      if unmapTable {
        EntryDrop(t0, t1, t2, f, i, start.vaddr, cur.vaddr, e);
        TidyDrop(t1, t2, f, i, next);
        FreeTable(f, i, next);
        unmapped := true;
      } else {
        EntryKeep(t0, t1, t2, f, i, start.vaddr, cur.vaddr, e);
        TidyKeep(t1, t2, f, next);
        SameTable(t0, t1, t2, f);
      }
      TidyCompose(t0, t1, Snap(), f);
    }

    /** x86_mmu_remove_mapping above the leaf tables. */
    method RemoveMapping(level: nat, f: Frame, start: Cursor)
      returns (unmapped: bool, cur: Cursor, ok: bool)
      requires Valid() && At(Snap(), f, 0) && level == place[f].level && 0 < level
      requires Covers(place[f], start.vaddr) && End(start) <= LIMIT
      modifies this
      ensures Valid() && Pages() == old(Pages()) && End(cur) == End(start)
      ensures ok ==> TableStep(old(Snap()), Snap(), f, start.vaddr, cur.vaddr, End(start))
      ensures !ok ==> pool == {} && !Packed(old(Snap()), start.vaddr, End(start))
      ensures ok ==> Tidy(old(Snap()), Snap(), f)
      ensures ok && !unmapped ==> NoneCleared(old(Snap()), Snap(), f)
      decreases level, 2
    {
      hide Wf, BitsWf, EntryStep, Packed, TableStep, LoopAt, Slot, Aligned;
      ghost var t0 := Snap();
      ghost var e := End(start);
      cur := start;
      unmapped := false;
      ok := true;
      var index := VaddrToIndex(level, cur.vaddr);
      VaddrIndex(place[f], cur.vaddr);
      LoopStart(t0, f, start.vaddr, e);
      while index != ENTRIES && cur.size != 0
        invariant Valid() && Pages() == old(Pages()) && End(cur) == e && index <= ENTRIES
        invariant LoopAt(t0, Snap(), f, index, start.vaddr, cur.vaddr, e)
        invariant Tidy(t0, Snap(), f) && (!unmapped ==> NoneCleared(t0, Snap(), f))
        decreases ENTRIES - index
      {
        ghost var t1 := Snap();
        var here := cur;
        LoopHere(t0, t1, f, index, start.vaddr, here.vaddr, e);
        var turn;
        turn, cur, ok := RemoveEntry(level, f, index, here);
        if !ok {
          LoopPacked(t0, t1, f, index, start.vaddr, here.vaddr, e);
          return;
        }
        unmapped := unmapped || turn;
        TidyCompose(t0, t1, Snap(), f);
        LoopNext(t0, t1, Snap(), f, index, start.vaddr, here.vaddr, cur.vaddr, e);
        index := index + 1;
      }
      LoopDone(t0, Snap(), f, index, start.vaddr, cur.vaddr, e);
    }

    /** x86_mmu_remove_mapping on a leaf table. */
    method RemoveMappingPT(f: Frame, start: Cursor) returns (unmapped: bool, cur: Cursor)
      requires Valid() && At(Snap(), f, 0) && place[f].level == 0
      requires Covers(place[f], start.vaddr) && End(start) <= LIMIT
      modifies this
      ensures Valid() && Pages() == old(Pages()) && End(cur) == End(start)
      ensures TableStep(old(Snap()), Snap(), f, start.vaddr, cur.vaddr, End(start))
      ensures Tidy(old(Snap()), Snap(), f)
      ensures !unmapped ==> NoneCleared(old(Snap()), Snap(), f)
    {
      hide Wf, BitsWf, EntryStep, Packed, TableStep, LoopAt, Slot, Aligned;
      ghost var t0 := Snap();
      ghost var e := End(start);
      cur := start;
      unmapped := false;
      var index := VaddrToIndex(0, cur.vaddr);
      VaddrIndex(place[f], cur.vaddr);
      LoopStart(t0, f, start.vaddr, e);
      while index != ENTRIES && cur.size != 0
        invariant Valid() && Pages() == old(Pages()) && End(cur) == e && index <= ENTRIES
        invariant LoopAt(t0, Snap(), f, index, start.vaddr, cur.vaddr, e)
        invariant Tidy(t0, Snap(), f) && (!unmapped ==> NoneCleared(t0, Snap(), f))
        decreases ENTRIES - index
      {
        ghost var t1 := Snap();
        LoopHere(t0, t1, f, index, start.vaddr, cur.vaddr, e);
        LeafTable(t1, f, index, cur.vaddr);
        if tables[f][index].Leaf? {
          UnmapLeaf(f, index, cur.vaddr, e);
          unmapped := true;
        } else {
          EntryHole(t1, f, index, cur.vaddr, e);
        }
        TidyCompose(t0, t1, Snap(), f);
        LoopNext(t0, t1, Snap(), f, index, start.vaddr, cur.vaddr, cur.vaddr + 1, e);
        cur := Cursor(cur.paddr, cur.vaddr + 1, cur.size - 1);
        index := index + 1;
      }
      LoopDone(t0, Snap(), f, index, start.vaddr, cur.vaddr, e);
    }

    // -------------------------------------------------------------- map

    /** update_entry with a page. */
    method MapLeaf(level: nat, f: Frame, i: nat, p: Frame, flags: MapFlags, ghost a: nat)
      requires Valid() && OnEntry(Snap(), f, i, a) && tables[f][i].Absent? && a == Slot(place[f], i)
      requires level == place[f].level < 3 && Aligned(level, p)
      modifies this
      ensures Valid() && Pages() == old(Pages())
      ensures AddEntry(old(Snap()), Snap(), f, i, a, SlotEnd(old(Snap()), f, i), SlotEnd(old(Snap()), f, i), p, flags)
      ensures place == old(place)
    {
      hide Wf, BitsWf, Added, Slot, Span, Aligned, LeafBits, BitsOk;
      ghost var t := Snap();
      var e := Leaf(p, LeafBits(level, flags));
      AddedLeaf(t, f, i, a, p, flags);
      SetEntryWf(t, f, i, e);
      FlagsRoundTrip(level, flags);
      SetEntryBits(t, f, i, e);
      SlotBound(t, f, i);
      tables := tables[f := tables[f][i := e]];
      assert Snap() == SetEntry(t, f, i, e);
      InTree(Snap(), f, 0);
    }

    /** _map_alloc_page and the entry that refers to the new table. */
    method NewTable(level: nat, f: Frame, i: nat, ghost a: nat, ghost p: Frame, ghost flags: MapFlags)
      returns (ok: bool, ghost g: Frame)
      requires Valid() && OnEntry(Snap(), f, i, a) && tables[f][i].Absent?
      requires level == place[f].level && 0 < level
      modifies this
      ensures Valid() && Pages() == old(Pages())
      ensures !ok ==> pool == {} && Snap() == old(Snap())
      ensures ok ==> Within(old(Snap()), Snap(), f) && At(Snap(), f, i) && tables[f][i].Table?
      ensures ok ==> Added(old(Snap()), Snap(), a, a, p, flags)
      ensures ok ==> g !in old(place) && place == old(place)[g := Place(level - 1, Slot(old(place[f]), i), f)]
    {
      hide Wf, BitsWf, Added, Slot, Span, EmptyTable;
      g := root;
      if pool == {} {
        return false, g;
      }
      ghost var t := Snap();
      var h :| h in pool;
      g := h;
      SpareFresh(h);
      SlotBound(t, f, i);
      AddedLink(t, f, i, h, a, p, flags);
      AddedWf(t, Link(t, f, i, h, EmptyTable()), a, a, p, flags);
      pool := pool - {h};
      place := place[h := Place(level - 1, Slot(place[f], i), f)];
      tables := tables[h := EmptyTable()][f := tables[f][i := Table(h)]];
      assert Snap() == Link(t, f, i, h, EmptyTable());
      InTree(Snap(), f, 0);
      InTree(Snap(), f, i);
      ok := true;
    }

    lemma SpareFresh(g: Frame)
      requires Valid() && g in pool
      ensures g !in place
    {
    }

    /** The entry refers to a table, new or old, unless memory is out. */
    method EnsureTable(level: nat, f: Frame, i: nat, flags: MapFlags, start: Cursor, ghost r: Request)
      returns (ok: bool)
      requires Valid() && OnEntry(Snap(), f, i, start.vaddr) && level == place[f].level && 0 < level
      requires !tables[f][i].Leaf? && Grown(r, Snap())
      requires tables[f][i].Absent? ==> Descends(r, level, Slot(place[f], i), start.vaddr)
      modifies this
      ensures Valid() && Pages() == old(Pages()) && Grown(r, Snap())
      ensures !ok ==> pool == {} && Snap() == old(Snap()) && Lacks(r, Snap())
      ensures ok ==> Within(old(Snap()), Snap(), f) && OnEntry(Snap(), f, i, start.vaddr) && tables[f][i].Table?
      ensures ok ==> Added(old(Snap()), Snap(), start.vaddr, start.vaddr, start.paddr, flags)
    {
      hide Wf, BitsWf, Added, Slot, Span, Aligned, Walk, Grown, Lacks, Descends;
      ghost var t := Snap();
      if tables[f][i].Table? {
        InTree(t, f, 0);
        SlotBound(t, f, i);
        AddedNothing(t, start.vaddr, start.paddr, flags);
        return true;
      }
      TableNeeded(r, t, f, i, start.vaddr);
      ghost var g;
      ok, g := NewTable(level, f, i, start.vaddr, start.paddr, flags);
      if ok {
        GrownLink(r, t, Snap(), g, place[g]);
      }
    }

    /** One turn of the loop of x86_mmu_add_mapping above the leaf tables, in the course of request r. */
    method AddToEntry(level: nat, f: Frame, i: nat, flags: MapFlags, start: Cursor, ghost r: Request)
      returns (status: Status, cur: Cursor)
      requires Valid() && OnEntry(Snap(), f, i, start.vaddr) && level == place[f].level && 0 < level
      requires 0 < start.size && End(start) <= LIMIT
      requires Grown(r, Snap()) && OnTrack(r, start) && (start.vaddr == r.a || start.vaddr == Slot(place[f], i))
      modifies this
      ensures Valid() && Pages() == old(Pages()) && End(cur) == End(start)
      ensures start.vaddr <= cur.vaddr && cur.paddr - start.paddr == cur.vaddr - start.vaddr
      ensures Grown(r, Snap()) && (status == NoMemory ==> Lacks(r, Snap()))
      ensures AddEntry(old(Snap()), Snap(), f, i, start.vaddr, cur.vaddr, End(start), start.paddr, flags)
      ensures status in {NoError, AlreadyExists, NoMemory}
      ensures status == NoError ==> cur.vaddr == Min(End(start), SlotEnd(old(Snap()), f, i))
      ensures status == AlreadyExists ==> cur.vaddr < End(start) && Walk(old(Snap()), cur.vaddr).Hit?
      ensures status == NoMemory ==> pool == {}
      decreases level, 1
    {
      hide Wf, BitsWf, Added, Slot, Span, Aligned, Walk, Grown, Lacks;
      ghost var t0 := Snap();
      cur := start;
      var ps := Span(level);
      AlignedInSlot(place[f], i, start.vaddr);
      AddedNothing(t0, start.vaddr, start.paddr, flags);
      InTree(t0, f, 0);
      if tables[f][i].Leaf? {
        WalkInSlot(t0, f, i, start.vaddr);
        return AlreadyExists, cur;
      }
      if level < 3 && tables[f][i].Absent? && Aligned(level, cur.vaddr) && Aligned(level, cur.paddr) && cur.size >= ps {
        MapLeaf(level, f, i, cur.paddr, flags, start.vaddr);
        GrownSame(r, t0, Snap());
        cur := Cursor(cur.paddr + ps, cur.vaddr + ps, cur.size - ps);
        return NoError, cur;
      }
      var ok := EnsureTable(level, f, i, flags, start, r);
      if !ok {
        return NoMemory, cur;
      }
      status, cur := AddUnder(level, f, i, flags, start, r, t0);
    }

    /** The turn goes on in the table below. */
    method AddUnder(level: nat, f: Frame, i: nat, flags: MapFlags, start: Cursor, ghost r: Request, ghost t0: X86Tree)
      returns (status: Status, cur: Cursor)
      requires Valid() && OnEntry(Snap(), f, i, start.vaddr) && level == place[f].level && 0 < level
      requires tables[f][i].Table? && Within(t0, Snap(), f) && 0 < start.size && End(start) <= LIMIT
      requires Added(t0, Snap(), start.vaddr, start.vaddr, start.paddr, flags)
      requires Grown(r, Snap()) && OnTrack(r, start) && (start.vaddr == r.a || start.vaddr == Slot(place[f], i))
      modifies this
      ensures Valid() && Pages() == old(Pages()) && End(cur) == End(start)
      ensures start.vaddr <= cur.vaddr && cur.paddr - start.paddr == cur.vaddr - start.vaddr
      ensures Grown(r, Snap()) && (status == NoMemory ==> Lacks(r, Snap()))
      ensures AddEntry(t0, Snap(), f, i, start.vaddr, cur.vaddr, End(start), start.paddr, flags)
      ensures status in {NoError, AlreadyExists, NoMemory}
      ensures status == NoError ==> cur.vaddr == Min(End(start), SlotEnd(t0, f, i))
      ensures status == AlreadyExists ==> cur.vaddr < End(start) && Walk(t0, cur.vaddr).Hit?
      ensures status == NoMemory ==> pool == {}
      decreases level, 0
    {
      hide Wf, BitsWf, Added, Slot, Span, Aligned, Walk, Grown, Lacks;
      ghost var t1 := Snap();
      var next := tables[f][i].next;
      ChildCovers(t1, f, i, start.vaddr);
      if level == 1 {
        status, cur := AddMappingPT(next, flags, start, r);
      } else {
        status, cur := AddMapping(level - 1, next, flags, start, r);
      }
      AddBelow(t0, t1, Snap(), f, i, start.vaddr, cur.vaddr, End(start), start.paddr, flags);
      if status == AlreadyExists {
        AddConflict(t0, t1, start.vaddr, start.vaddr, cur.vaddr, start.paddr, flags);
      }
    }

    /** x86_mmu_add_mapping above the leaf tables, without the rollback of the top level. */
    method AddMapping(level: nat, f: Frame, flags: MapFlags, start: Cursor, ghost r: Request)
      returns (status: Status, cur: Cursor)
      requires Valid() && At(Snap(), f, 0) && level == place[f].level && 0 < level
      requires Covers(place[f], start.vaddr) && End(start) <= LIMIT
      requires Grown(r, Snap()) && OnTrack(r, start) && (start.vaddr == r.a || start.vaddr == place[f].base)
      modifies this
      ensures Valid() && Pages() == old(Pages()) && End(cur) == End(start)
      ensures start.vaddr <= cur.vaddr && cur.paddr - start.paddr == cur.vaddr - start.vaddr
      ensures Grown(r, Snap())
      ensures Within(old(Snap()), Snap(), f)
      ensures Added(old(Snap()), Snap(), start.vaddr, cur.vaddr, start.paddr, flags)
      ensures status in {NoError, AlreadyExists, NoMemory}
      ensures status == NoError ==> cur.vaddr == Min(End(start), TableEnd(old(Snap()), f))
      ensures status == AlreadyExists ==> cur.vaddr < End(start) && Walk(old(Snap()), cur.vaddr).Hit?
      ensures status == NoMemory ==> pool == {} && Lacks(r, Snap())
      decreases level, 2
    {
      hide Wf, BitsWf, Added, AddLoop, AddEntry, Slot, Span, Walk, Grown, Lacks;
      ghost var t0 := Snap();
      ghost var e := End(start);
      cur := start;
      var index := VaddrToIndex(level, cur.vaddr);
      VaddrIndex(place[f], cur.vaddr);
      AddStart(t0, f, start.vaddr, e, start.paddr, flags);
      while index != ENTRIES && cur.size != 0
        invariant Valid() && Pages() == old(Pages()) && End(cur) == e && index <= ENTRIES
        invariant start.vaddr <= cur.vaddr && cur.paddr - start.paddr == cur.vaddr - start.vaddr
        invariant AddLoop(t0, Snap(), f, index, start.vaddr, cur.vaddr, e, start.paddr, flags)
        invariant Grown(r, Snap())
        decreases ENTRIES - index
      {
        ghost var t1 := Snap();
        var here := cur;
        AddHere(t0, t1, f, index, start.vaddr, here.vaddr, e, start.paddr, flags);
        AtSlot(t0, t1, f, index, start.vaddr, here.vaddr, e, start.paddr, flags);
        status, cur := AddToEntry(level, f, index, flags, here, r);
        AddNext(t0, t1, Snap(), f, index, start.vaddr, here.vaddr, cur.vaddr, e, start.paddr, flags);
        if status != NoError {
          if status == AlreadyExists {
            LoopConflict(t0, t1, f, index, start.vaddr, here.vaddr, cur.vaddr, e, start.paddr, flags);
          }
          return;
        }
        index := index + 1;
      }
      AddDone(t0, Snap(), f, index, start.vaddr, cur.vaddr, e, start.paddr, flags);
      status := NoError;
    }

    /** x86_mmu_add_mapping on a leaf table. */
    method AddMappingPT(f: Frame, flags: MapFlags, start: Cursor, ghost r: Request)
      returns (status: Status, cur: Cursor)
      requires Valid() && At(Snap(), f, 0) && place[f].level == 0
      requires Covers(place[f], start.vaddr) && End(start) <= LIMIT
      requires Grown(r, Snap()) && OnTrack(r, start) && (start.vaddr == r.a || start.vaddr == place[f].base)
      modifies this
      ensures Valid() && Pages() == old(Pages()) && End(cur) == End(start)
      ensures start.vaddr <= cur.vaddr && cur.paddr - start.paddr == cur.vaddr - start.vaddr
      ensures Grown(r, Snap())
      ensures Within(old(Snap()), Snap(), f)
      ensures Added(old(Snap()), Snap(), start.vaddr, cur.vaddr, start.paddr, flags)
      ensures status in {NoError, AlreadyExists}
      ensures status == NoError ==> cur.vaddr == Min(End(start), TableEnd(old(Snap()), f))
      ensures status == AlreadyExists ==> cur.vaddr < End(start) && Walk(old(Snap()), cur.vaddr).Hit?
    {
      hide Wf, BitsWf, Added, AddLoop, Slot, Span, Walk, Aligned, Grown;
      ghost var t0 := Snap();
      ghost var e := End(start);
      cur := start;
      var index := VaddrToIndex(0, cur.vaddr);
      VaddrIndex(place[f], cur.vaddr);
      AddStart(t0, f, start.vaddr, e, start.paddr, flags);
      while index != ENTRIES && cur.size != 0
        invariant Valid() && Pages() == old(Pages()) && End(cur) == e && index <= ENTRIES
        invariant start.vaddr <= cur.vaddr && cur.paddr - start.paddr == cur.vaddr - start.vaddr
        invariant AddLoop(t0, Snap(), f, index, start.vaddr, cur.vaddr, e, start.paddr, flags)
        invariant Grown(r, Snap())
        decreases ENTRIES - index
      {
        ghost var t1 := Snap();
        AddHere(t0, t1, f, index, start.vaddr, cur.vaddr, e, start.paddr, flags);
        LeafTable(t1, f, index, cur.vaddr);
        if tables[f][index].Leaf? {
          WalkInSlot(t1, f, index, cur.vaddr);
          LoopConflict(t0, t1, f, index, start.vaddr, cur.vaddr, cur.vaddr, e, start.paddr, flags);
          return AlreadyExists, cur;
        }
        AlignedPage(cur.paddr);
        MapLeaf(0, f, index, cur.paddr, flags, cur.vaddr);
        GrownSame(r, t1, Snap());
        AddNext(t0, t1, Snap(), f, index, start.vaddr, cur.vaddr, cur.vaddr + 1, e, start.paddr, flags);
        cur := Cursor(cur.paddr + 1, cur.vaddr + 1, cur.size - 1);
        index := index + 1;
      }
      AddDone(t0, Snap(), f, index, start.vaddr, cur.vaddr, e, start.paddr, flags);
      status := NoError;
    }

    // -------------------------------------------------------------- protect

    /** update_entry on a mapped page: same frame, new flags. */
    method ProtectLeaf(level: nat, f: Frame, i: nat, flags: MapFlags, ghost a: nat)
      requires Valid() && OnEntry(Snap(), f, i, a) && tables[f][i].Leaf? && a == Slot(place[f], i)
      requires level == place[f].level
      modifies this
      ensures Valid() && Pages() == old(Pages()) && pool == old(pool)
      ensures UpdateEntry(old(Snap()), Snap(), f, i, a, SlotEnd(old(Snap()), f, i), SlotEnd(old(Snap()), f, i), flags)
      ensures forall v | 0 <= v < LIMIT && !InSlot(old(Snap()), f, i, v) :: Walk(Snap(), v) == Walk(old(Snap()), v)
    {
      hide Wf, BitsWf, Updated, Slot, Span, Aligned, LeafBits, BitsOk, Walk;
      ghost var t := Snap();
      LeafFacts(t, f, i);
      var e := Leaf(tables[f][i].frame, LeafBits(level, flags));
      UpdatedLeaf(t, f, i, a, flags);
      SetEntryWf(t, f, i, e);
      FlagsRoundTrip(level, flags);
      SetEntryBits(t, f, i, e);
      SlotBound(t, f, i);
      tables := tables[f := tables[f][i := e]];
      assert Snap() == SetEntry(t, f, i, e);
      InTree(Snap(), f, 0);
      forall v | 0 <= v < LIMIT && !InSlot(t, f, i, v) ensures Walk(Snap(), v) == Walk(t, v) {
        SetEntryWalk(t, f, i, e, v);
      }
    }

    /** One turn of the loop of x86_mmu_update_mapping above the leaf tables. */
    method UpdateInEntry(level: nat, f: Frame, i: nat, flags: MapFlags, start: Cursor)
      returns (status: Status, cur: Cursor)
      requires Valid() && OnEntry(Snap(), f, i, start.vaddr) && level == place[f].level && 0 < level
      requires 0 < start.size && End(start) <= LIMIT
      modifies this
      ensures Valid() && Pages() == old(Pages()) && End(cur) == End(start) && start.vaddr <= cur.vaddr
      ensures UpdateEntry(old(Snap()), Snap(), f, i, start.vaddr, cur.vaddr, End(start), flags)
      ensures status in {NoError, NotFound, NoMemory}
      ensures status == NoError ==> cur.vaddr == Min(End(start), SlotEnd(old(Snap()), f, i))
      ensures status == NotFound ==> cur.vaddr < End(start) && Trans(old(Snap()), cur.vaddr).None?
      ensures status == NoMemory ==> pool == {}
      ensures Packed(old(Snap()), start.vaddr, End(start)) ==>
                status == NoError && pool == old(pool) && Packed(Snap(), cur.vaddr, End(start))
      decreases level, 1
    {
      hide Wf, BitsWf, Updated, Slot, Span, Aligned, Trans, SplitAt, Packed, Walk;
      ghost var t0 := Snap();
      cur := start;
      var ps := Span(level);
      AlignedInSlot(place[f], i, start.vaddr);
      UpdatedSame(t0, t0, start.vaddr, flags);
      InTree(t0, f, 0);
      if tables[f][i].Absent? {
        EntryTrans(t0, f, i, start.vaddr);
        NotPackedHole(t0, start.vaddr, End(start));
        return NotFound, cur;
      }
      if tables[f][i].Leaf? {
        LeafFacts(t0, f, i);
        if Aligned(level, cur.vaddr) && cur.size >= ps {
          ProtectLeaf(level, f, i, flags, start.vaddr);
          PackedOn(t0, Snap(), f, i, start.vaddr, End(start));
          cur := Cursor(cur.paddr, cur.vaddr + ps, cur.size - ps);
          return NoError, cur;
        }
        LeafNotPacked(t0, f, i, start.vaddr, End(start));
        var ok := Split(level, f, i);
        if !ok {
          return NoMemory, cur;
        }
        SplitUpdated(t0, Snap(), f, i, start.vaddr, flags);
      }
      status, cur := UpdateUnder(level, f, i, flags, start, t0);
    }

    /** The turn goes on in the table below. */
    method UpdateUnder(level: nat, f: Frame, i: nat, flags: MapFlags, start: Cursor, ghost t0: X86Tree)
      returns (status: Status, cur: Cursor)
      requires Valid() && OnEntry(Snap(), f, i, start.vaddr) && level == place[f].level && 0 < level
      requires tables[f][i].Table? && Within(t0, Snap(), f) && 0 < start.size && End(start) <= LIMIT
      requires Updated(t0, Snap(), start.vaddr, start.vaddr, flags)
      modifies this
      ensures Valid() && Pages() == old(Pages()) && End(cur) == End(start) && start.vaddr <= cur.vaddr
      ensures UpdateEntry(t0, Snap(), f, i, start.vaddr, cur.vaddr, End(start), flags)
      ensures status in {NoError, NotFound, NoMemory}
      ensures status == NoError ==> cur.vaddr == Min(End(start), SlotEnd(t0, f, i))
      ensures status == NotFound ==> cur.vaddr < End(start) && Trans(t0, cur.vaddr).None?
      ensures status == NoMemory ==> pool == {}
      ensures Packed(old(Snap()), start.vaddr, End(start)) ==>
                status == NoError && pool == old(pool) && Packed(Snap(), cur.vaddr, End(start))
      decreases level, 0
    {
      hide Wf, BitsWf, Updated, Slot, Span, Trans, Packed, Walk;
      ghost var t1 := Snap();
      var next := tables[f][i].next;
      ChildCovers(t1, f, i, start.vaddr);
      if level == 1 {
        status, cur := UpdateMappingPT(next, flags, start);
      } else {
        status, cur := UpdateMapping(level - 1, next, flags, start);
      }
      UpdateBelow(t0, t1, Snap(), f, i, start.vaddr, cur.vaddr, End(start), flags);
      if status == NotFound {
        UpdateMissing(t0, t1, start.vaddr, start.vaddr, cur.vaddr, flags);
      }
    }

    /** x86_mmu_update_mapping above the leaf tables. */
    method UpdateMapping(level: nat, f: Frame, flags: MapFlags, start: Cursor)
      returns (status: Status, cur: Cursor)
      requires Valid() && At(Snap(), f, 0) && level == place[f].level && 0 < level
      requires Covers(place[f], start.vaddr) && End(start) <= LIMIT
      modifies this
      ensures Valid() && Pages() == old(Pages()) && End(cur) == End(start) && start.vaddr <= cur.vaddr
      ensures Within(old(Snap()), Snap(), f) && Updated(old(Snap()), Snap(), start.vaddr, cur.vaddr, flags)
      ensures status in {NoError, NotFound, NoMemory}
      ensures status == NoError ==> cur.vaddr == Min(End(start), TableEnd(old(Snap()), f))
      ensures status == NotFound ==> cur.vaddr < End(start) && Trans(old(Snap()), cur.vaddr).None?
      ensures status == NoMemory ==> pool == {}
      ensures Packed(old(Snap()), start.vaddr, End(start)) ==>
                status == NoError && pool == old(pool) && Packed(Snap(), cur.vaddr, End(start))
      decreases level, 2
    {
      hide Wf, BitsWf, Updated, UpdateLoop, UpdateEntry, Slot, Span, Trans, Packed;
      ghost var t0 := Snap();
      ghost var e := End(start);
      cur := start;
      var index := VaddrToIndex(level, cur.vaddr);
      VaddrIndex(place[f], cur.vaddr);
      UpdateStart(t0, f, start.vaddr, e, flags);
      while index != ENTRIES && cur.size != 0
        invariant Valid() && Pages() == old(Pages()) && End(cur) == e && index <= ENTRIES && start.vaddr <= cur.vaddr
        invariant UpdateLoop(t0, Snap(), f, index, start.vaddr, cur.vaddr, e, flags)
        invariant Packed(t0, start.vaddr, e) ==> pool == old(pool) && Packed(Snap(), cur.vaddr, e)
        decreases ENTRIES - index
      {
        ghost var t1 := Snap();
        var here := cur;
        UpdateHere(t0, t1, f, index, start.vaddr, here.vaddr, e, flags);
        status, cur := UpdateInEntry(level, f, index, flags, here);
        UpdateNext(t0, t1, Snap(), f, index, start.vaddr, here.vaddr, cur.vaddr, e, flags);
        if status != NoError {
          if status == NotFound {
            UpdateMissing(t0, t1, start.vaddr, here.vaddr, cur.vaddr, flags);
          }
          return;
        }
        index := index + 1;
      }
      UpdateDone(t0, Snap(), f, index, start.vaddr, cur.vaddr, e, flags);
      status := NoError;
    }

    /** x86_mmu_update_mapping on a leaf table. */
    method UpdateMappingPT(f: Frame, flags: MapFlags, start: Cursor) returns (status: Status, cur: Cursor)
      requires Valid() && At(Snap(), f, 0) && place[f].level == 0
      requires Covers(place[f], start.vaddr) && End(start) <= LIMIT
      modifies this
      ensures Valid() && Pages() == old(Pages()) && End(cur) == End(start) && start.vaddr <= cur.vaddr
      ensures Within(old(Snap()), Snap(), f) && Updated(old(Snap()), Snap(), start.vaddr, cur.vaddr, flags)
      ensures status in {NoError, NotFound}
      ensures status == NoError ==> cur.vaddr == Min(End(start), TableEnd(old(Snap()), f))
      ensures status == NotFound ==> cur.vaddr < End(start) && Trans(old(Snap()), cur.vaddr).None?
      ensures Packed(old(Snap()), start.vaddr, End(start)) ==>
                status == NoError && pool == old(pool) && Packed(Snap(), cur.vaddr, End(start))
    {
      hide Wf, BitsWf, Updated, UpdateLoop, Slot, Span, Trans, Packed, Walk;
      ghost var t0 := Snap();
      ghost var e := End(start);
      cur := start;
      var index := VaddrToIndex(0, cur.vaddr);
      VaddrIndex(place[f], cur.vaddr);
      UpdateStart(t0, f, start.vaddr, e, flags);
      while index != ENTRIES && cur.size != 0
        invariant Valid() && Pages() == old(Pages()) && End(cur) == e && index <= ENTRIES && start.vaddr <= cur.vaddr
        invariant UpdateLoop(t0, Snap(), f, index, start.vaddr, cur.vaddr, e, flags)
        invariant Packed(t0, start.vaddr, e) ==> pool == old(pool) && Packed(Snap(), cur.vaddr, e)
        decreases ENTRIES - index
      {
        ghost var t1 := Snap();
        UpdateHere(t0, t1, f, index, start.vaddr, cur.vaddr, e, flags);
        LeafTable(t1, f, index, cur.vaddr);
        if tables[f][index].Absent? {
          EntryTrans(t1, f, index, cur.vaddr);
          NotPackedHole(t1, cur.vaddr, e);
          UpdateMissing(t0, t1, start.vaddr, cur.vaddr, cur.vaddr, flags);
          return NotFound, cur;
        }
        ProtectLeaf(0, f, index, flags, cur.vaddr);
        PackedOn(t1, Snap(), f, index, cur.vaddr, e);
        UpdateNext(t0, t1, Snap(), f, index, start.vaddr, cur.vaddr, cur.vaddr + 1, e, flags);
        cur := Cursor(cur.paddr, cur.vaddr + 1, cur.size - 1);
        index := index + 1;
      }
      UpdateDone(t0, Snap(), f, index, start.vaddr, cur.vaddr, e, flags);
      status := NoError;
    }

    // -------------------------------------------------------------- the arch_mmu interface

    /** is_valid_vaddr */
    predicate InAspace(vaddr: nat) {
      vaddr >= base && vaddr + 1 <= base + size
    }

    predicate CheckPaddr(paddr: nat) {
      paddr % PAGE_SIZE == 0 && paddr <= maxPaddr
    }

    /** What the assertions at the end of map, unmap and protect demand: the top table does not end before the range. */
    predicate Fits(vaddr: nat, count: nat) {
      CheckVaddr(vaddr) && InAspace(vaddr) ==> Vpn(vaddr) + count <= LIMIT
    }

    lemma RootFacts()
      requires Valid()
      ensures Wf(Snap()) && At(Snap(), root, 0) && place[root] == Place(3, 0, root)
      ensures TableEnd(Snap(), root) == LIMIT
    {
      InTree(Snap(), root, 0);
    }

    /** x86_mmu_add_mapping at the top level, with its rollback: on failure what was mapped so far
        is unmapped again. */
    method AddMappingTop(flags: MapFlags, start: Cursor) returns (status: Status)
      requires Valid() && start.vaddr < LIMIT && End(start) <= LIMIT
      modifies this
      ensures Valid() && Pages() == old(Pages())
      ensures status in {NoError, AlreadyExists, NoMemory}
      ensures status == NoError ==> Added(old(Snap()), Snap(), start.vaddr, End(start), start.paddr, flags)
      ensures status != NoError ==> SameTrans(old(Snap()), Snap())
      ensures status == AlreadyExists ==> SomeMapped(old(Snap()), start.vaddr, End(start))
      ensures
        var needed := TableCount(old(Snap()), start.vaddr, End(start), start.paddr);
        && (status == NoMemory ==> |old(pool)| < needed)
        && (status == NoError ==> |old(pool)| == |pool| + needed)
    {
      hide Wf, BitsWf, Added, Walk, Packed, Removed, Tidy, SameWalk, Cleared, Kept, Grown, Lacks, NeededTables;
      ghost var t0 := Snap();
      ghost var r := Request(t0, start.vaddr, End(start), start.paddr);
      var cur;
      RootFacts();
      GrownNone(t0, start.vaddr, End(start), start.paddr);
      status, cur := AddMapping(3, root, flags, start, r);
      ghost var t1 := Snap();
      TablesUsed(r, t1, old(pool), pool, status == NoError, flags) by {
        SpaceKeys(t0, old(pool));
        SpaceKeys(t1, pool);
      }
      if status != NoError {
        if status == AlreadyExists {
          HitIsMapped(t0, cur.vaddr);
        }
        Rollback(Cursor(start.paddr, start.vaddr, start.size - cur.size), t0, flags);
      }
    }

    /** What was mapped so far is unmapped again. */
    method Rollback(done: Cursor, ghost t0: X86Tree, ghost flags: MapFlags)
      requires Valid() && done.vaddr < LIMIT && End(done) <= LIMIT
      requires Added(t0, Snap(), done.vaddr, End(done), done.paddr, flags)
      modifies this
      ensures Valid() && Pages() == old(Pages()) && SameTrans(t0, Snap())
    {
      hide Wf, BitsWf, Added, Walk, Packed, Removed, Tidy, SameWalk, Cleared, Kept;
      ghost var t1 := Snap();
      RootFacts();
      AddedWf(t0, t1, done.vaddr, End(done), done.paddr, flags);
      AddedPacked(t0, t1, done.vaddr, End(done), done.paddr, flags);
      if done.size > 0 {
        var unmapped, result, ok := RemoveMapping(3, root, done);
        WholeRange(t1, Snap(), root, done.vaddr, result.vaddr, End(done));
        RollbackRestores(t0, t1, Snap(), done.vaddr, End(done), done.paddr, flags);
      } else {
        NothingAdded(t0, t1, done.vaddr, done.paddr, flags);
      }
    }

    /** arch_mmu_map once the addresses are checked, in pages. */
    method MapPages(v: nat, p: Frame, count: nat, flags: MapFlags) returns (status: Status)
      requires Valid() && v < LIMIT && v + count <= LIMIT
      modifies this
      ensures Valid() && Pages() == old(Pages())
      ensures status in {NoError, AlreadyExists, NoMemory}
      ensures status == NoError ==> MapsRange(old(Snap()), Snap(), v, v + count, p, Readback(flags))
      ensures status != NoError ==> SameTrans(old(Snap()), Snap())
      ensures status == AlreadyExists ==> SomeMapped(old(Snap()), v, v + count)
      ensures
        var needed := TableCount(old(Snap()), v, v + count, p);
        && (status == NoMemory ==> |old(pool)| < needed)
        && (status == NoError ==> |old(pool)| == |pool| + needed)
        && (!SomeMapped(old(Snap()), v, v + count) ==> (status == NoError <==> |old(pool)| >= needed))
      ensures count == 0 ==> status == NoError
    {
      hide Wf, BitsWf, Added, Walk, MapsRange, SameTrans, SomeMapped, Readback, TableCount;
      RootFacts();
      ghost var t0 := Snap();
      if count == 0 {
        MapsNothing(t0, v, p, Readback(flags));
        NothingNeeded(t0, v, v + count, p);
        return NoError;
      }
      status := AddMappingTop(flags, Cursor(p, v, count));
      if status == NoError {
        AddedTrans(t0, Snap(), v, v + count, p, flags);
      }
    }

    /** arch_mmu_map */
    method Map(vaddr: nat, paddr: nat, count: nat, flags: MapFlags) returns (status: Status)
      requires Valid() && Fits(vaddr, count)
      modifies this
      ensures Valid() && Pages() == old(Pages())
      ensures status == InvalidArgs <==>
                !(paddr % 4096 == 0 && paddr <= maxPaddr && vaddr % 4096 == 0 && base <= vaddr < base + size
                  && !(0x7FFF_FFFF_FFFF < vaddr < 0xFFFF_8000_0000_0000))
      ensures status in {NoError, AlreadyExists, NoMemory, InvalidArgs}
      ensures status == NoError ==>
                MapsRange(old(Snap()), Snap(), Vpn(vaddr), Vpn(vaddr) + count, paddr / PAGE_SIZE, Readback(flags))
      ensures status != NoError ==> SameTrans(old(Snap()), Snap())
      ensures status == AlreadyExists ==> SomeMapped(old(Snap()), Vpn(vaddr), Vpn(vaddr) + count)
      ensures status == NoMemory ==> |old(pool)| < TablesFor(old(Snap()), vaddr, paddr, count)
      ensures status == NoError ==> |old(pool)| == |pool| + TablesFor(old(Snap()), vaddr, paddr, count)
      ensures status != InvalidArgs && !SomeMapped(old(Snap()), Vpn(vaddr), Vpn(vaddr) + count) ==>
                (status == NoError <==> |old(pool)| >= TablesFor(old(Snap()), vaddr, paddr, count))
      ensures status != InvalidArgs && count == 0 ==> status == NoError
    {
      hide Wf, BitsWf, MapsRange, SameTrans, SomeMapped, Readback, TableCount, Vpn;
      RootFacts();
      if !CheckPaddr(paddr) || !CheckVaddr(vaddr) || !InAspace(vaddr) {
        SameTransSelf(Snap());
        return InvalidArgs;
      }
      status := MapPages(Vpn(vaddr), paddr / PAGE_SIZE, count, flags);
    }

    /** arch_mmu_unmap.  `ok` is false where the kernel panics because a split found no memory. */
    method Unmap(vaddr: nat, count: nat) returns (status: Status, ok: bool)
      requires Valid() && Fits(vaddr, count)
      modifies this
      ensures Valid() && Pages() == old(Pages())
      ensures status == InvalidArgs <==>
                !(vaddr % 4096 == 0 && base <= vaddr < base + size
                  && !(0x7FFF_FFFF_FFFF < vaddr < 0xFFFF_8000_0000_0000))
      ensures status in {NoError, InvalidArgs}
      ensures status == InvalidArgs || count == 0 ==> ok && Snap() == old(Snap())
      ensures !ok ==> pool == {} && !Packed(old(Snap()), Vpn(vaddr), Vpn(vaddr) + count)
      ensures ok && status == NoError ==>
                && Vpn(vaddr) + count <= LIMIT
                && (forall v | 0 <= v < LIMIT ::
                      Trans(Snap(), v) == if Visits(old(Snap()), Vpn(vaddr), Vpn(vaddr) + count, v) then None
                                          else Trans(old(Snap()), v))
      ensures ok && status == NoError && Boundary(old(Snap()), Vpn(vaddr)) ==>
                forall v | 0 <= v < LIMIT ::
                  Trans(Snap(), v) == if Vpn(vaddr) <= v < Vpn(vaddr) + count then None
                                      else Trans(old(Snap()), v)
      ensures ok ==> Tidy(old(Snap()), Snap(), root)
    {
      hide Wf, BitsWf, Walk, Packed, Tidy, TableStep, Trans, Visits, Boundary, Shape;
      ghost var t0 := Snap();
      TidySelf(t0, root);
      RootFacts();
      ok := true;
      if !CheckVaddr(vaddr) || !InAspace(vaddr) {
        return InvalidArgs, true;
      }
      status := NoError;
      if count == 0 {
        NothingVisited(t0, Vpn(vaddr));
        return;
      }
      var unmapped, result;
      unmapped, result, ok := RemoveMapping(3, root, Cursor(0, Vpn(vaddr), count));
      if ok {
        UnmapTrans(t0, Snap(), root, Vpn(vaddr), result.vaddr, Vpn(vaddr) + count);
      }
    }

    /** arch_mmu_protect */
    method Protect(vaddr: nat, count: nat, flags: MapFlags) returns (status: Status, ghost reached: nat)
      requires Valid() && Fits(vaddr, count)
      modifies this
      ensures Valid() && Pages() == old(Pages())
      ensures status == InvalidArgs <==>
                !(vaddr % 4096 == 0 && base <= vaddr < base + size
                  && !(0x7FFF_FFFF_FFFF < vaddr < 0xFFFF_8000_0000_0000))
      ensures status in {NoError, NotFound, NoMemory, InvalidArgs}
      ensures status == InvalidArgs ==> Snap() == old(Snap())
      ensures status != InvalidArgs ==>
                && Vpn(vaddr) <= reached <= Vpn(vaddr) + count <= LIMIT
                && Updated(old(Snap()), Snap(), Vpn(vaddr), reached, flags)
      ensures status == NoError ==> reached == Vpn(vaddr) + count
      ensures status == NotFound ==> reached < Vpn(vaddr) + count && Trans(old(Snap()), reached).None?
      ensures status == NoMemory ==> pool == {}
      ensures status != InvalidArgs && Packed(old(Snap()), Vpn(vaddr), Vpn(vaddr) + count) ==>
                status == NoError && pool == old(pool)
    {
      hide Wf, BitsWf, Updated, Trans, Packed;
      RootFacts();
      reached := Vpn(vaddr);
      if !CheckVaddr(vaddr) || !InAspace(vaddr) {
        return InvalidArgs, reached;
      }
      UpdatedSame(Snap(), Snap(), Vpn(vaddr), flags);
      if count == 0 {
        return NoError, reached;
      }
      RootFacts();
      var cur;
      status, cur := UpdateMapping(3, root, flags, Cursor(0, Vpn(vaddr), count));
      reached := cur.vaddr;
    }

    /** x86_mmu_get_mapping */
    method GetMapping(level: nat, f: Frame, v: nat) returns (r: Found<Bits>)
      requires Valid() && At(Snap(), f, 0) && level == place[f].level && Covers(place[f], v)
      ensures v < LIMIT && r == Walk(Snap(), v)
      decreases level
    {
      hide Wf, BitsWf, Walk, Slot, Span;
      var index := VaddrToIndex(level, v);
      VaddrIndex(place[f], v);
      InTree(Snap(), f, index);
      if tables[f][index].Absent? {
        WalkInSlot(Snap(), f, index, v);
        return Hole(level);
      }
      if tables[f][index].Leaf? {
        WalkInSlot(Snap(), f, index, v);
        return Hit(level, tables[f][index].frame, tables[f][index].attr);
      }
      ChildCovers(Snap(), f, index, v);
      r := GetMapping(level - 1, tables[f][index].next, v);
    }

    /** arch_mmu_query */
    method Query(vaddr: nat) returns (status: Status, paddr: nat, flags: MmuFlags)
      requires Valid()
      ensures status == InvalidArgs <==> !(base <= vaddr < base + size)
      ensures status != InvalidArgs ==>
                match ByteQuery(Snap(), vaddr)
                case None => status == NotFound
                case Some(m) => status == NoError && (paddr, flags) == m && flags.cache != Undecodable
    {
      hide Wf, BitsWf, Walk;
      paddr, flags := 0, MmuFlags(false, false, false, Cached);
      if !InAspace(vaddr) {
        return InvalidArgs, paddr, flags;
      }
      RootFacts();
      var v := Vpn(vaddr);
      var r := GetMapping(3, root, v);
      if r.Hole? {
        return NotFound, paddr, flags;
      }
      HitBits(Snap(), v);
      flags := FlagsOf(r.level, r.attr);
      paddr := PageFrame(r.level, r.frame, v) * PAGE_SIZE + vaddr % PAGE_SIZE;
      status := NoError;
    }
  }

  lemma EmptySpace(root: Frame)
    ensures
      var t := Tree(root, map[root := EmptyTable()], map[root := Place(3, 0, root)]);
      BitsWf(t) && forall v | 0 <= v < LIMIT :: Trans(t, v) == None
  {
    var t := Tree(root, map[root := EmptyTable()], map[root := Place(3, 0, root)]);
    assert TableOk(t, root);
    assert Wf(t);
    forall v | 0 <= v < LIMIT ensures Trans(t, v) == None {
      assert Walk(t, v) == Hole(3);
    }
  }

  lemma SplitFacts(t: X86Tree, f: Frame, i: nat, g: Frame)
    requires BitsWf(t) && At(t, f, i) && t.tables[f][i].Leaf? && 0 < t.place[f].level < 3 && g !in t.tables
    ensures var t2 := Link(t, f, i, g, SplitEntries(t.place[f].level, t.tables[f][i].frame, t.tables[f][i].attr));
            BitsWf(t2) && SplitAt(t, t2, f, i)
  {
    LeafFacts(t, f, i);
    SplitBitsWf(t, f, i, g);
    SplitTrans(t, f, i, g);
  }

  lemma SplitBitsWf(t: X86Tree, f: Frame, i: nat, g: Frame)
    requires BitsWf(t) && At(t, f, i) && t.tables[f][i].Leaf? && 0 < t.place[f].level < 3 && g !in t.tables
    requires Aligned(t.place[f].level, t.tables[f][i].frame) && BitsOk(t.place[f].level, t.tables[f][i].attr)
    ensures var t2 := Link(t, f, i, g, SplitEntries(t.place[f].level, t.tables[f][i].frame, t.tables[f][i].attr));
            BitsWf(t2) && At(t2, f, i)
  {
    hide Wf, Walk, BitsOk, SplitBits, Aligned, Slot, Plain;
    var e := t.tables[f][i];
    var m := SplitEntries(t.place[f].level, e.frame, e.attr);
    SplitPlain(t.place[f].level, e.frame, e.attr);
    SplitKeepsMeaning(t.place[f].level, e.attr);
    LinkWf(t, f, i, g, m);
    LinkBits(t, f, i, g, m);
    InTree(Link(t, f, i, g, m), f, i);
  }

  lemma SplitTrans(t: X86Tree, f: Frame, i: nat, g: Frame)
    requires At(t, f, i) && t.tables[f][i].Leaf? && 0 < t.place[f].level < 3 && g !in t.tables
    requires Aligned(t.place[f].level, t.tables[f][i].frame) && BitsOk(t.place[f].level, t.tables[f][i].attr)
    requires At(Link(t, f, i, g, SplitEntries(t.place[f].level, t.tables[f][i].frame, t.tables[f][i].attr)), f, i)
    ensures
      var pieces := SplitEntries(t.place[f].level, t.tables[f][i].frame, t.tables[f][i].attr);
      SplitAt(t, Link(t, f, i, g, pieces), f, i)
  {
    hide Wf, Walk, BitsOk, SplitBits, Aligned, Slot, Trans, Shape, Tidy;
    TidyLink(t, f, i, g, SplitEntries(t.place[f].level, t.tables[f][i].frame, t.tables[f][i].attr));
    forall v | 0 <= v < LIMIT
      ensures var t2 := Link(t, f, i, g, SplitEntries(t.place[f].level, t.tables[f][i].frame, t.tables[f][i].attr));
              && Trans(t2, v) == Trans(t, v) && Shape(t2, v) == Shape(t, v)
              && (!InSlot(t, f, i, v) ==> Walk(t2, v) == Walk(t, v))
    {
      SplitKeepsTrans(t, f, i, g, v);
    }
  }

  lemma LeafFacts(t: X86Tree, f: Frame, i: nat)
    requires BitsWf(t) && At(t, f, i) && t.tables[f][i].Leaf?
    ensures t.place[f].level < 3 && Aligned(t.place[f].level, t.tables[f][i].frame)
    ensures BitsOk(t.place[f].level, t.tables[f][i].attr)
  {
    assert TableOk(t, f) && EntryOk(t, f, i);
  }
  /** A large page the range covers only in part. */
  lemma LeafNotPacked(t: X86Tree, f: Frame, i: nat, a: nat, e: nat)
    requires OnEntry(t, f, i, a) && t.tables[f][i].Leaf? && e <= LIMIT && a < e
    requires !(a == Slot(t.place[f], i) && SlotEnd(t, f, i) <= e)
    ensures !Packed(t, a, e)
  {
    hide Wf, Walk;
    WalkInSlot(t, f, i, a);
    SlotStart(t.place[f], i, a);
  }

  lemma NotPackedHole(t: X86Tree, a: nat, e: nat)
    requires Wf(t) && a < e <= LIMIT && Trans(t, a).None?
    ensures !Packed(t, a, e)
  {
    hide Wf, Walk;
  }

  /** Behind an entry that keeps its page the range is packed as before. */
  lemma PackedOn(t: X86Tree, t2: X86Tree, f: Frame, i: nat, a: nat, e: nat)
    requires OnEntry(t, f, i, a) && a == Slot(t.place[f], i) && SlotEnd(t, f, i) <= e <= LIMIT && Wf(t2)
    requires forall v | 0 <= v < LIMIT && !InSlot(t, f, i, v) :: Walk(t2, v) == Walk(t, v)
    ensures Packed(t, a, e) ==> Packed(t2, SlotEnd(t, f, i), e)
  {
    hide Wf, Walk, Span, Slot, AlignDown;
    if Packed(t, a, e) {
      PackedTail(t, f, i, a, e);
    }
  }

  /** The entry the loop is about to look at. */
  lemma LoopHere(t0: X86Tree, t1: X86Tree, f: Frame, i: nat, a: nat, b: nat, e: nat)
    requires LoopAt(t0, t1, f, i, a, b, e) && b < e && i < ENTRIES
    ensures OnEntry(t1, f, i, b) && t1.place[f] == t0.place[f]
  {
    hide Wf, Removed, SameWalk, Packed, Cleared;
  }

  lemma LoopPacked(t0: X86Tree, t1: X86Tree, f: Frame, i: nat, a: nat, b: nat, e: nat)
    requires LoopAt(t0, t1, f, i, a, b, e) && !Packed(t1, b, e)
    ensures !Packed(t0, a, e)
  {
    hide Wf, Removed, SameWalk, Packed, Cleared;
  }

  /** A leaf table holds pages only, and its slots are single pages. */
  lemma LeafTable(t: X86Tree, f: Frame, i: nat, a: nat)
    requires OnEntry(t, f, i, a) && t.place[f].level == 0
    ensures !t.tables[f][i].Table? && a == Slot(t.place[f], i) && SlotEnd(t, f, i) == a + 1
    ensures Aligned(0, a)
  {
    assert TableOk(t, f) && EntryOk(t, f, i);
  }

  lemma SameTable(t0: X86Tree, t1: X86Tree, t2: X86Tree, f: Frame)
    requires NoneCleared(t0, t1, f) && f in t2.tables && t2.tables[f] == t1.tables[f]
    ensures NoneCleared(t0, t2, f)
  {
  }

  lemma ChildCovers(t: X86Tree, f: Frame, i: nat, a: nat)
    requires OnEntry(t, f, i, a) && t.tables[f][i].Table?
    ensures var g := t.tables[f][i].next;
            && At(t, g, 0) && t.place[f].level > 0 && t.place[g].level == t.place[f].level - 1
            && Covers(t.place[g], a) && TableEnd(t, g) == SlotEnd(t, f, i)
  {
    hide Wf;
    TableBelow(t, f, i);
  }

  lemma LoopConflict(t0: X86Tree, t1: X86Tree, f: Frame, i: nat, a: nat, b: nat, c: nat, e: nat, p: Frame,
                     flags: MmuFlags)
    requires AddLoop(t0, t1, f, i, a, b, e, p, flags) && b <= c < LIMIT && Wf(t1) && Walk(t1, c).Hit?
    ensures Wf(t0) && Walk(t0, c).Hit?
  {
    hide Wf, Walk, Added;
    AddedWf(t0, t1, a, b, p, flags);
    AddConflict(t0, t1, a, b, c, p, flags);
  }

  lemma AlignedPage(p: nat)
    ensures Aligned(0, p)
  {
  }

  lemma EntryTrans(t: X86Tree, f: Frame, i: nat, v: nat)
    requires OnEntry(t, f, i, v) && t.tables[f][i].Absent?
    ensures v < LIMIT && Trans(t, v).None?
  {
    hide Wf, Walk;
    WalkInSlot(t, f, i, v);
  }

  lemma SplitUpdated(t0: X86Tree, t1: X86Tree, f: Frame, i: nat, a: nat, flags: MmuFlags)
    requires SplitAt(t0, t1, f, i) && a < LIMIT && OnEntry(t0, f, i, a)
    ensures Within(t0, t1, f) && Updated(t0, t1, a, a, flags) && OnEntry(t1, f, i, a)
    ensures t1.tables[f][i].Table? && t1.place[f] == t0.place[f]
  {
    hide Wf, Trans, Walk, Shape, Tidy;
    UpdatedSame(t0, t1, a, flags);
    InTree(t0, f, 0);
    InTree(t1, f, 0);
  }

  // ---------------------------------------------------------------- facts for the interface

  /** The union of t0's map with [a, b) to frames from p, the two being disjoint. */
  ghost predicate MapsRange(t0: X86Tree, t1: X86Tree, a: nat, b: nat, p: Frame, flags: MmuFlags) {
    && Wf(t0) && Wf(t1) && b <= LIMIT
    && (forall v | a <= v < b :: Trans(t0, v).None? && Trans(t1, v) == Some(Mapping(p + (v - a), flags)))
    && (forall v | 0 <= v < LIMIT && !(a <= v < b) :: Trans(t1, v) == Trans(t0, v))
  }

  ghost predicate SameTrans(t0: X86Tree, t1: X86Tree) {
    Wf(t0) && Wf(t1) && forall v | 0 <= v < LIMIT :: Trans(t1, v) == Trans(t0, v)
  }

  ghost predicate SomeMapped(t: X86Tree, a: nat, b: nat) {
    Wf(t) && b <= LIMIT && exists v :: a <= v < b && Trans(t, v).Some?
  }

  /** The number of tables that mapping the range needs and the tree does not have. */
  ghost function TableCount(t: X86Tree, a: nat, e: nat, p: Frame): (n: nat) {
    |NeededTables(Request(t, a, e, p))|
  }

  ghost function TablesFor(t: X86Tree, vaddr: nat, paddr: nat, count: nat): (n: nat) {
    TableCount(t, Vpn(vaddr), Vpn(vaddr) + count, paddr / PAGE_SIZE)
  }

  lemma NothingNeeded(t: X86Tree, a: nat, e: nat, p: Frame)
    requires a == e
    ensures TableCount(t, a, e, p) == 0
  {
    assert NeededTables(Request(t, a, a, p)) == {};
  }

  /** The cursor is in step with the request. */
  ghost predicate OnTrack(r: Request, c: Cursor) {
    End(c) == r.e && r.a <= c.vaddr && c.paddr + r.a == r.p + c.vaddr
  }

  /** Past its first slot the loop stands at the start of one. */
  lemma AtSlot(t0: X86Tree, t1: X86Tree, f: Frame, i: nat, a: nat, b: nat, e: nat, p: Frame, flags: MmuFlags)
    requires AddLoop(t0, t1, f, i, a, b, e, p, flags) && b < e
    ensures f in t0.place && f in t1.place && t1.place[f] == t0.place[f] && t0.place[f].level <= 3
    ensures b == a || b == Slot(t1.place[f], i)
    ensures b == t0.place[f].base ==> b == Slot(t1.place[f], i)
  {
    hide Wf, Added;
  }

  lemma SpaceKeys(t: X86Tree, pool: set<Frame>)
    requires BitsWf(t)
    ensures t.place.Keys == t.tables.Keys
  {
  }

  /** Tables made and pages used up are the same number. */
  lemma TablesUsed(r: Request, t1: X86Tree, pool0: set<Frame>, pool1: set<Frame>, done: bool, flags: MmuFlags)
    requires Wf(t1) && Grown(r, t1) && r.t.place.Keys == r.t.tables.Keys && t1.place.Keys == t1.tables.Keys
    requires pool0 !! r.t.tables.Keys && pool1 !! t1.tables.Keys
    requires pool0 + r.t.tables.Keys == pool1 + t1.tables.Keys
    requires done ==> Added(r.t, t1, r.a, r.e, r.p, flags)
    ensures Lacks(r, t1) && pool1 == {} ==> |pool0| < |NeededTables(r)|
    ensures done ==> |pool0| == |pool1| + |NeededTables(r)|
  {
    hide Wf, Added, Lacks, NeededTables, Needed;
    assert r.t.tables.Keys <= t1.tables.Keys;
    PoolUsed(pool0, r.t.tables.Keys, pool1, t1.tables.Keys);
    CountMade(r, t1);
    if done {
      CountAll(r, t1, flags);
    }
  }

  // ---------------------------------------------------------------- bytes

  /** What a query of a byte address answers. */
  ghost function ByteQuery(t: X86Tree, a: nat): (r: Option<(nat, MmuFlags)>)
    requires Wf(t)
  {
    match Trans(t, Vpn(a))
    case None => None
    case Some(m) => Some((m.frame * 4096 + a % 4096, m.flags))
  }

  /** After a successful map every byte of the range queries as the byte equally far into the physical range, with the
      flags, and every other canonical address as before. */
  lemma MapThenQuery(t0: X86Tree, t1: X86Tree, vaddr: nat, paddr: nat, count: nat, flags: MmuFlags, b: nat)
    requires Wf(t0) && Wf(t1) && vaddr % 4096 == 0 && paddr % 4096 == 0 && count > 0 && OneHalf(vaddr, count)
    requires MapsRange(t0, t1, Vpn(vaddr), Vpn(vaddr) + count, paddr / PAGE_SIZE, flags)
    requires b < TWO_64 && Canonical(b)
    ensures ByteQuery(t1, b) == if vaddr <= b < vaddr + 4096 * count then Some((paddr + (b - vaddr), flags))
                                else ByteQuery(t0, b)
  {
    hide Wf, Trans, Vpn;
    RangeBytes(vaddr, count, b);
    if vaddr <= b < vaddr + 4096 * count {
      var off := b - vaddr;
      assert off == 4096 * (off / 4096) + off % 4096 && b % 4096 == off % 4096 by { SameOffset(vaddr, b); }
      assert paddr == 4096 * (paddr / 4096);
    }
  }

  lemma SameOffset(vaddr: nat, b: nat)
    requires vaddr % 4096 == 0 && vaddr <= b
    ensures b % 4096 == (b - vaddr) % 4096
  {
  }

  /** After an unmap that begins at a boundary the bytes of the range are not found, every other canonical address
      queries as before. */
  lemma UnmapThenQuery(t0: X86Tree, t1: X86Tree, vaddr: nat, count: nat, b: nat)
    requires Wf(t0) && Wf(t1) && vaddr % 4096 == 0 && count > 0 && OneHalf(vaddr, count) && b < TWO_64 && Canonical(b)
    requires forall v | 0 <= v < LIMIT ::
               Trans(t1, v) == if Vpn(vaddr) <= v < Vpn(vaddr) + count then None else Trans(t0, v)
    ensures ByteQuery(t1, b) == if vaddr <= b < vaddr + 4096 * count then None else ByteQuery(t0, b)
  {
    hide Wf, Trans, Vpn;
    RangeBytes(vaddr, count, b);
  }

  /** After a successful protect the bytes of the range keep their physical address and get the flags, every other
      canonical address queries as before. */
  lemma ProtectThenQuery(t0: X86Tree, t1: X86Tree, vaddr: nat, count: nat, flags: MmuFlags, b: nat)
    requires Wf(t0) && Wf(t1) && vaddr % 4096 == 0 && count > 0 && OneHalf(vaddr, count) && b < TWO_64 && Canonical(b)
    requires Updated(t0, t1, Vpn(vaddr), Vpn(vaddr) + count, flags)
    ensures
      if vaddr <= b < vaddr + 4096 * count then
        ByteQuery(t0, b).Some? && ByteQuery(t1, b) == Some((ByteQuery(t0, b).value.0, Readback(flags)))
      else ByteQuery(t1, b) == ByteQuery(t0, b)
  {
    hide Wf, Trans, Vpn, Readback;
    RangeBytes(vaddr, count, b);
  }

  lemma SameTransSelf(t: X86Tree)
    requires Wf(t)
    ensures SameTrans(t, t)
  {
  }

  lemma MapsNothing(t: X86Tree, a: nat, p: Frame, flags: MmuFlags)
    requires Wf(t) && a <= LIMIT
    ensures MapsRange(t, t, a, a, p, flags)
  {
  }

  lemma HitIsMapped(t: X86Tree, v: nat)
    requires Wf(t) && v < LIMIT && Walk(t, v).Hit?
    ensures Trans(t, v).Some?
  {
    hide Wf, Walk;
  }

  lemma AddedPacked(t0: X86Tree, t1: X86Tree, a: nat, b: nat, p: Frame, flags: MmuFlags)
    requires Added(t0, t1, a, b, p, flags)
    ensures Packed(t1, a, b)
  {
    hide Wf, Walk, Packed;
  }

  lemma NothingAdded(t0: X86Tree, t1: X86Tree, a: nat, p: Frame, flags: MmuFlags)
    requires Added(t0, t1, a, a, p, flags)
    ensures forall v | 0 <= v < LIMIT :: Trans(t1, v) == Trans(t0, v)
  {
    hide Wf, Walk, Packed;
  }

  lemma AddedTrans(t0: X86Tree, t1: X86Tree, a: nat, b: nat, p: Frame, flags: MmuFlags)
    requires Added(t0, t1, a, b, p, flags)
    ensures MapsRange(t0, t1, a, b, p, Readback(flags))
  {
    hide Wf, Walk, Packed, Readback, PageFrame, FlagsOf;
  }

  /** At the top level the cursor reaches the end of the range. */
  lemma WholeRange(t0: X86Tree, t1: X86Tree, f: Frame, a: nat, b: nat, e: nat)
    requires TableStep(t0, t1, f, a, b, e) && TableEnd(t0, f) == LIMIT
    ensures b == e && Removed(t0, t1, a, e, e)
  {
    hide Wf, SameWalk, Packed, Cleared, Kept, Visits, Trans, Shape;
  }

  lemma NothingVisited(t: X86Tree, a: nat)
    requires Wf(t) && a <= LIMIT
    ensures forall v :: !Visits(t, a, a, v)
  {
  }

  lemma UnmapTrans(t0: X86Tree, t1: X86Tree, f: Frame, a: nat, b: nat, e: nat)
    requires TableStep(t0, t1, f, a, b, e) && TableEnd(t0, f) == LIMIT
    ensures Wf(t0) && Wf(t1) && e <= LIMIT
    ensures forall v | 0 <= v < LIMIT :: Trans(t1, v) == if Visits(t0, a, e, v) then None else Trans(t0, v)
    ensures Boundary(t0, a) ==>
              forall v | 0 <= v < LIMIT :: Trans(t1, v) == if a <= v < e then None else Trans(t0, v)
  {
    hide Wf, TableStep, Trans, Visits, Shape, Boundary;
    WholeRange(t0, t1, f, a, b, e);
    forall v | 0 <= v < LIMIT && Visits(t0, a, e, v) ensures a <= v < e {
      VisitsBounds(t0, a, e, v);
    }
    if Boundary(t0, a) {
      BoundaryExact(t0, a, e);
    }
  }

  /** A walk that hits finds bits the kernel wrote, so their meaning is defined. */
  lemma {:induction false} WalkBits(t: X86Tree, f: Frame, v: nat)
    requires BitsWf(t) && f in t.tables && Covers(t.place[f], v) && WalkFrom(t, f, v).Hit?
    ensures BitsOk(WalkFrom(t, f, v).level, WalkFrom(t, f, v).attr)
    decreases t.place[f].level
  {
    assert TableOk(t, f);
    var i := Index(t.place[f], v);
    assert EntryOk(t, f, i);
    if t.tables[f][i].Table? {
      WalkBits(t, t.tables[f][i].next, v);
    }
  }

  lemma HitBits(t: X86Tree, v: nat)
    requires BitsWf(t) && Wf(t) && v < LIMIT && Walk(t, v).Hit?
    ensures BitsOk(Walk(t, v).level, Walk(t, v).attr)
  {
    WalkBits(t, t.root, v);
  }
}
