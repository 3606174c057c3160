/** VMSAv8-64 translation tables with a 4 KiB granule: map with its rollbacks, unmap and query. Addresses are counted in
    pages; a table of level n has entries of 512^n pages. */
module Arm64 {

  import opened PageTree

  // ---------------------------------------------------------------- attributes

  datatype Memory = Normal | StronglyOrdered | Device

  datatype Attr = Attr(memory: Memory, user: bool, readOnly: bool, uxn: bool, pxn: bool, nonSecure: bool)

  datatype CacheFlag = Cached | WriteCombining | Uncached | UncachedDevice

  datatype Flags = Flags(cache: CacheFlag, user: bool, readOnly: bool, noExecute: bool, ns: bool)

  /** mmu_flags_to_pte_attr */
  function AttrOf(f: Flags): (a: Attr) {
    var m := match f.cache
      case Cached => Normal
      case WriteCombining => StronglyOrdered
      case Uncached => StronglyOrdered
      case UncachedDevice => Device;
    Attr(m, f.user, f.readOnly, f.noExecute, f.noExecute, f.ns)
  }

  /** The flags arch_mmu_query reports. */
  function FlagsOf(a: Attr): (f: Flags) {
    var c := match a.memory
      case Normal => Cached
      case StronglyOrdered => Uncached
      case Device => UncachedDevice;
    Flags(c, a.user, a.readOnly, a.uxn && a.pxn, a.nonSecure)
  }

  /** What is mapped is what is read back, except that write-combining memory reads back as uncached. */
  lemma FlagsRoundTrip(f: Flags)
    ensures FlagsOf(AttrOf(f)) == f.(cache := if f.cache == WriteCombining then Uncached else f.cache)
    ensures forall a: Attr :: a.uxn == a.pxn ==> AttrOf(FlagsOf(a)) == a
  {
  }

  // ---------------------------------------------------------------- tables

  const BLOCK_MAX_LEVEL: nat := 2

  datatype Node = Invalid | Block(pa: nat, attr: Attr) | Subtable(entries: seq<Node>)

  datatype Option<T> = None | Some(value: T)

  function Rem(level: nat, p: nat): (r: nat)
    requires level <= 3
    ensures r < Span(level) && Times(level, Over(level, p)) + r == p
  {
    p - Times(level, Over(level, p))
  }

  predicate NodeOk(level: nat, n: Node)
    requires level <= 3
    decreases level, 0
  {
    match n
    case Invalid => true
    case Block(pa, _) => level <= BLOCK_MAX_LEVEL && Rem(level, pa) == 0
    case Subtable(es) => level > 0 && |es| == ENTRIES && TableOk(level - 1, es)
  }

  predicate TableOk(level: nat, t: seq<Node>)
    requires level <= 3
    decreases level, 1
  {
    forall i | 0 <= i < |t| :: NodeOk(level, t[i])
  }

  lemma SubIndex(level: nat, r: nat)
    requires 0 < level <= 3 && r < Span(level)
    ensures Over(level - 1, r) < ENTRIES
  {
  }

  /** The address and attributes of page r of an entry. */
  function NodeLookup(level: nat, n: Node, r: nat): (a: Option<(nat, Attr)>)
    requires level <= 3 && NodeOk(level, n) && r < Span(level)
    decreases level, 0
  {
    match n
    case Invalid => None
    case Block(pa, attr) => Some((pa + r, attr))
    case Subtable(es) => SubIndex(level, r); Lookup(level - 1, es, r)
  }

  /** arch_mmu_query: the address and attributes of page p of a table. */
  function Lookup(level: nat, t: seq<Node>, p: nat): (a: Option<(nat, Attr)>)
    requires level <= 3 && TableOk(level, t) && Over(level, p) < |t|
    decreases level, 1
  {
    NodeLookup(level, t[Over(level, p)], Rem(level, p))
  }

  /** The table pages hanging below. */
  function NodeTables(level: nat, n: Node): (c: nat)
    requires level <= 3 && NodeOk(level, n)
    decreases level, 0
  {
    if n.Subtable? then 1 + Tables(level - 1, n.entries, ENTRIES) else 0
  }

  function Tables(level: nat, t: seq<Node>, k: nat): (c: nat)
    requires level <= 3 && TableOk(level, t) && k <= |t|
    decreases level, 1, k
  {
    if k == 0 then 0 else NodeTables(level, t[k - 1]) + Tables(level, t, k - 1)
  }

  lemma {:induction false} TablesUpdate(level: nat, t: seq<Node>, i: nat, n: Node, k: nat)
    requires level <= 3 && TableOk(level, t) && i < |t| && NodeOk(level, n) && k <= |t|
    ensures TableOk(level, t[i := n])
    ensures
      Tables(level, t[i := n], k) ==
        Tables(level, t, k) + if i < k then NodeTables(level, n) - NodeTables(level, t[i]) else 0
  {
    if k > 0 {
      TablesUpdate(level, t, i, n, k - 1);
    }
  }

  lemma {:induction false} TablesNone(level: nat, t: seq<Node>, k: nat)
    requires level <= 3 && TableOk(level, t) && k <= |t| && forall i | 0 <= i < k :: t[i] == Invalid
    ensures Tables(level, t, k) == 0
  {
    if k > 0 {
      TablesNone(level, t, k - 1);
    }
  }

  // ---------------------------------------------------------------- pieces of a range

  /** The part of `size` pages from p on that lies in the entry of p. */
  function Chunk(level: nat, p: nat, size: nat): (c: nat)
    requires level <= 3
  {
    var room := Span(level) - Rem(level, p);
    if size < room then size else room
  }

  lemma ChunkFacts(level: nat, p: nat, size: nat)
    requires level <= 3
    ensures
      var c := Chunk(level, p, size);
      && c <= size && (size > 0 ==> c > 0) && Rem(level, p) + c <= Span(level)
      && (c < size ==>
            Rem(level, p) + c == Span(level) && Over(level, p + c) == Over(level, p) + 1 && Rem(level, p + c) == 0)
  {
    hide Times, Over;
    var c := Chunk(level, p, size);
    if c < size {
      TimesSpan(level, Over(level, p));
      Between(level, Over(level, p) + 1, p + c);
    }
  }

  /** The pages of an entry. */
  lemma SlotPage(level: nat, i: nat, p: nat)
    requires level <= 3
    ensures Times(level, i) <= p < Times(level, i) + Span(level) <==> Over(level, p) == i
  {
    hide Times, Over;
    var r := Rem(level, p);
    if Times(level, i) <= p < Times(level, i) + Span(level) {
      Between(level, i, p);
    }
  }

  /** Entry i, seen from inside: the range from lo to hi clipped to it. */
  function ClipLo(level: nat, i: nat, lo: nat): (a: nat)
    requires level <= 3
  {
    if lo <= Times(level, i) then 0 else lo - Times(level, i)
  }

  function ClipHi(level: nat, i: nat, hi: nat): (b: nat)
    requires level <= 3
    ensures b <= Span(level)
  {
    if hi <= Times(level, i) then 0
    else if hi - Times(level, i) < Span(level) then hi - Times(level, i)
    else Span(level)
  }

  /** No block is partly inside the range. */
  predicate WholeNode(level: nat, n: Node, a: nat, b: nat)
    requires level <= 3 && NodeOk(level, n)
    decreases level, 0
  {
    match n
    case Invalid => true
    case Block(_, _) => a == 0 && b == Span(level)
    case Subtable(es) => Whole(level - 1, es, a, b)
  }

  predicate Whole(level: nat, t: seq<Node>, lo: nat, hi: nat)
    requires level <= 3 && TableOk(level, t)
    decreases level, 1
  {
    forall i | 0 <= i < |t| && ClipLo(level, i, lo) < ClipHi(level, i, hi) ::
      WholeNode(level, t[i], ClipLo(level, i, lo), ClipHi(level, i, hi))
  }

  // ---------------------------------------------------------------- unmap

  /** Page r of the entry is mapped by a page or block that the range from a up to b reaches. */
  predicate NodeCut(level: nat, n: Node, r: nat, a: nat, b: nat)
    requires level <= 3 && NodeOk(level, n) && r < Span(level)
    decreases level, 0
  {
    a < b && match n
      case Invalid => false
      case Block(_, _) => true
      case Subtable(es) => SubIndex(level, r); Cut(level - 1, es, r, a, b)
  }

  predicate Cut(level: nat, t: seq<Node>, p: nat, lo: nat, hi: nat)
    requires level <= 3 && TableOk(level, t) && Over(level, p) < |t|
    decreases level, 1
  {
    var i := Over(level, p);
    NodeCut(level, t[i], Rem(level, p), ClipLo(level, i, lo), ClipHi(level, i, hi))
  }

  /** The pages and blocks that the range from lo up to hi reaches are unmapped, all other pages as before. */
  ghost predicate Gone(level: nat, t: seq<Node>, t2: seq<Node>, lo: nat, hi: nat)
    requires level <= 3 && TableOk(level, t) && TableOk(level, t2) && |t2| == |t|
  {
    forall p: nat | Over(level, p) < |t| ::
      Lookup(level, t2, p) == if Cut(level, t, p, lo, hi) then None else Lookup(level, t, p)
  }

  ghost predicate NodeGone(level: nat, n: Node, n2: Node, a: nat, b: nat)
    requires level <= 3 && NodeOk(level, n) && NodeOk(level, n2)
  {
    forall r: nat | r < Span(level) ::
      NodeLookup(level, n2, r) == if NodeCut(level, n, r, a, b) then None else NodeLookup(level, n, r)
  }

  lemma GoneMore(level: nat, t: seq<Node>, mid: seq<Node>, lo: nat, at: nat, left: nat, n: Node)
    requires level <= 3 && TableOk(level, t) && TableOk(level, mid) && |mid| == |t| && Gone(level, t, mid, lo, at)
    requires lo <= at && left > 0 && (at == lo || Rem(level, at) == 0)
    requires Over(level, at) < |t| && NodeOk(level, n) && mid[Over(level, at)] == t[Over(level, at)]
    requires NodeGone(level, t[Over(level, at)], n, Rem(level, at), Rem(level, at) + Chunk(level, at, left))
    ensures TableOk(level, mid[Over(level, at) := n])
    ensures Gone(level, t, mid[Over(level, at) := n], lo, at + Chunk(level, at, left))
  {
    hide Times, Over, Span, NodeOk, NodeLookup, NodeCut, Chunk;
    var i, c := Over(level, at), Chunk(level, at, left);
    var t2 := mid[i := n];
    ChunkFacts(level, at, left);
    ChunkAgain(level, at, left);
    forall p: nat | Over(level, p) < |t|
      ensures Lookup(level, t2, p) == if Cut(level, t, p, lo, at + c) then None else Lookup(level, t, p)
    {
      if Over(level, p) == i {
        ClipHere(level, lo, at, c);
      } else {
        CutOther(level, t, p, lo, at, c);
      }
    }
  }

  lemma CutOther(level: nat, t: seq<Node>, p: nat, lo: nat, at: nat, c: nat)
    requires level <= 3 && TableOk(level, t) && Over(level, p) < |t| && Over(level, p) != Over(level, at)
    requires lo <= at && (at == lo || Rem(level, at) == 0) && Rem(level, at) + c <= Span(level)
    ensures Cut(level, t, p, lo, at + c) <==> Cut(level, t, p, lo, at)
  {
    hide Times, Over, Span;
    var j := Over(level, p);
    if ClipLo(level, j, lo) < ClipHi(level, j, at + c) {
      ClipOther(level, j, lo, at, c);
    }
  }

  /** Inside the range a page that is in no such page or block is not mapped at all. */
  lemma {:induction false} InsideCut(level: nat, t: seq<Node>, p: nat, lo: nat, hi: nat)
    requires level <= 3 && TableOk(level, t) && Over(level, p) < |t| && lo <= p < hi
    ensures Cut(level, t, p, lo, hi) || Lookup(level, t, p) == None
    decreases level
  {
    hide Times, Over, Span;
    var i, r := Over(level, p), Rem(level, p);
    assert ClipLo(level, i, lo) <= r < ClipHi(level, i, hi);
    if t[i].Subtable? {
      SubIndex(level, r);
      InsideCut(level - 1, t[i].entries, r, ClipLo(level, i, lo), ClipHi(level, i, hi));
    }
  }

  /** A range that cuts no block reaches nothing outside. */
  lemma {:induction false} OutsideCut(level: nat, t: seq<Node>, p: nat, lo: nat, hi: nat)
    requires level <= 3 && TableOk(level, t) && Over(level, p) < |t| && Whole(level, t, lo, hi) && !(lo <= p < hi)
    ensures !Cut(level, t, p, lo, hi)
    decreases level
  {
    hide Times, Over, Span;
    var i, r := Over(level, p), Rem(level, p);
    assert !(ClipLo(level, i, lo) <= r < ClipHi(level, i, hi));
    if t[i].Subtable? && ClipLo(level, i, lo) < ClipHi(level, i, hi) {
      SubIndex(level, r);
      OutsideCut(level - 1, t[i].entries, r, ClipLo(level, i, lo), ClipHi(level, i, hi));
    }
  }

  /** On a range that cuts no block, unmapping takes away exactly the range. */
  lemma GoneWhole(level: nat, t: seq<Node>, t2: seq<Node>, lo: nat, hi: nat)
    requires level <= 3 && TableOk(level, t) && TableOk(level, t2) && |t2| == |t| && Whole(level, t, lo, hi)
    requires Gone(level, t, t2, lo, hi)
    ensures forall p: nat | Over(level, p) < |t| ::
              Lookup(level, t2, p) == if lo <= p < hi then None else Lookup(level, t, p)
  {
    hide Times, Over, Span, TableOk, Lookup, Cut, Whole;
    forall p: nat | Over(level, p) < |t|
      ensures Lookup(level, t2, p) == if lo <= p < hi then None else Lookup(level, t, p)
    {
      if lo <= p < hi {
        InsideCut(level, t, p, lo, hi);
      } else {
        OutsideCut(level, t, p, lo, hi);
      }
    }
  }

  /** page_table_is_clear */
  method IsClear(t: seq<Node>) returns (clear: bool)
    ensures clear <==> forall i | 0 <= i < |t| :: t[i] == Invalid
  {
    for i := 0 to |t|
      invariant forall j | 0 <= j < i :: t[j] == Invalid
    {
      if t[i] != Invalid {
        return false;
      }
    }
    return true;
  }

  /** The entries wholly inside the range are clear. */
  ghost predicate Cleared(level: nat, t: seq<Node>, lo: nat, hi: nat)
    requires level <= 3
  {
    forall i | 0 <= i < |t| && ClipLo(level, i, lo) == 0 && ClipHi(level, i, hi) == Span(level) :: t[i] == Invalid
  }

  /** An empty table that hangs here now hung here, empty, before. */
  ghost predicate NodeTidy(n: Node, n2: Node)
    decreases n2
  {
    n2.Subtable? ==>
      && (Blank(n2.entries) ==> n.Subtable? && Blank(n.entries))
      && forall i | 0 <= i < |n2.entries| ::
           NodeTidy(if n.Subtable? && i < |n.entries| then n.entries[i] else Invalid, n2.entries[i])
  }

  ghost predicate Tidy(t: seq<Node>, t2: seq<Node>) {
    |t2| == |t| && forall i | 0 <= i < |t| :: NodeTidy(t[i], t2[i])
  }

  lemma {:induction false} TidyNode(n: Node)
    ensures NodeTidy(n, n)
  {
    if n.Subtable? {
      forall i | 0 <= i < |n.entries| ensures NodeTidy(n.entries[i], n.entries[i]) {
        TidyNode(n.entries[i]);
      }
    }
  }

  lemma TidySelf(t: seq<Node>)
    ensures Tidy(t, t)
  {
    hide NodeTidy;
    forall i | 0 <= i < |t| ensures NodeTidy(t[i], t[i]) {
      TidyNode(t[i]);
    }
  }

  lemma TidyMore(t: seq<Node>, mid: seq<Node>, i: nat, n: Node)
    requires i < |t| && Tidy(t, mid) && NodeTidy(t[i], n)
    ensures Tidy(t, mid[i := n])
  {
    hide NodeTidy;
  }

  /** An entry whose table is not left empty. */
  lemma TidyAbove(n: Node, es: seq<Node>, sub: seq<Node>)
    requires !Blank(sub) && Tidy(es, sub) && (n == Subtable(es) || (n == Invalid && Blank(es)))
    ensures NodeTidy(n, Subtable(sub))
  {
  }

  /** One round of arm64_mmu_unmap_pt, on the entry it comes to; `freed` counts the table pages given back. */
  method UnmapSlot(level: nat, n: Node, a: nat, c: nat) returns (n2: Node, freed: nat)
    requires level <= 3 && NodeOk(level, n) && 0 < c && a + c <= Span(level)
    ensures NodeOk(level, n2) && NodeGone(level, n, n2, a, a + c) && (c == Span(level) ==> n2 == Invalid)
    ensures NodeTables(level, n) == NodeTables(level, n2) + freed && NodeTidy(n, n2)
    decreases level, 0
  {
    hide Times, Over, Lookup, Tables, Cleared, Gone, Cut, Tidy;
    if level > 0 && n.Subtable? {
      SubRange(level, a, c);
      var sub, f := UnmapPt(level - 1, n.entries, a, c);
      var clear := IsClear(sub);
      if c == Span(level) || clear {
        if c == Span(level) {
          AllCleared(level, sub);
        }
        TablesNone(level - 1, sub, ENTRIES);
        n2, freed := Invalid, f + 1;
        SlotCleared(level, n, sub, a, c);
      } else {
        n2, freed := Subtable(sub), f;
        SlotGone(level, n, sub, a, c);
        TidyAbove(n, n.entries, sub);
      }
    } else {
      n2, freed := Invalid, 0;
    }
  }

  /** arm64_mmu_unmap_pt. A block the range cuts goes as a whole. */
  method UnmapPt(level: nat, t: seq<Node>, rel: nat, size: nat) returns (t2: seq<Node>, freed: nat)
    requires level <= 3 && TableOk(level, t) && rel + size <= Times(level, |t|)
    ensures |t2| == |t| && TableOk(level, t2) && Gone(level, t, t2, rel, rel + size)
    ensures Cleared(level, t2, rel, rel + size)
    ensures Tables(level, t, |t|) == Tables(level, t2, |t|) + freed && Tidy(t, t2)
    decreases level, 1
  {
    hide Times, Over, Span, NodeOk, TableOk, Gone, NodeGone, Cleared, Tables, NodeTables, Tidy, NodeTidy;
    t2, freed := t, 0;
    var at, left := rel, size;
    UnmapStart(level, t, rel);
    TidySelf(t);
    while left > 0
      invariant |t2| == |t| && TableOk(level, t2) && at + left == rel + size && rel <= at
      invariant Gone(level, t, t2, rel, at) && Cleared(level, t2, rel, at)
      invariant Tables(level, t, |t|) == Tables(level, t2, |t|) + freed && Tidy(t, t2)
      invariant left > 0 ==> (at == rel || Rem(level, at) == 0)
      invariant left > 0 ==> forall j | Over(level, at) <= j < |t| :: t2[j] == t[j]
      decreases left
    {
      var i, c := Over(level, at), Chunk(level, at, left);
      ChunkFacts(level, at, left);
      InRange(level, at, |t|);
      EntryOk(level, t, i);
      var n, f := UnmapSlot(level, t2[i], Rem(level, at), c);
      GoneMore(level, t, t2, rel, at, left, n);
      ClearedMore(level, t2, rel, at, c, n);
      TidyMore(t, t2, i, n);
      TablesUpdate(level, t2, i, n, |t|);
      t2 := t2[i := n];
      freed := freed + f;
      at, left := at + c, left - c;
    }
  }

  lemma SubRange(level: nat, a: nat, c: nat)
    requires 0 < level <= 3 && a + c <= Span(level)
    ensures a + c <= Times(level - 1, ENTRIES)
  {
  }

  lemma AllCleared(level: nat, sub: seq<Node>)
    requires 0 < level <= 3 && |sub| == ENTRIES && Cleared(level - 1, sub, 0, Span(level))
    ensures forall i | 0 <= i < ENTRIES :: sub[i] == Invalid
  {
    forall i | 0 <= i < ENTRIES ensures sub[i] == Invalid {
      assert ClipLo(level - 1, i, 0) == 0 && ClipHi(level - 1, i, Span(level)) == Span(level - 1);
    }
  }

  lemma SlotCleared(level: nat, n: Node, sub: seq<Node>, a: nat, c: nat)
    requires 0 < level <= 3 && NodeOk(level, n) && n.Subtable? && |sub| == ENTRIES && TableOk(level - 1, sub)
    requires c > 0 && Gone(level - 1, n.entries, sub, a, a + c) && forall i | 0 <= i < ENTRIES :: sub[i] == Invalid
    ensures NodeGone(level, n, Invalid, a, a + c)
  {
    hide Times, Over, Span;
    forall r: nat | r < Span(level)
      ensures NodeLookup(level, Invalid, r) == if NodeCut(level, n, r, a, a + c) then None else NodeLookup(level, n, r)
    {
      SubIndex(level, r);
      assert Lookup(level - 1, sub, r) == None;
    }
  }

  lemma SlotGone(level: nat, n: Node, sub: seq<Node>, a: nat, c: nat)
    requires 0 < level <= 3 && NodeOk(level, n) && n.Subtable? && |sub| == ENTRIES && TableOk(level - 1, sub)
    requires c > 0 && Gone(level - 1, n.entries, sub, a, a + c)
    ensures NodeGone(level, n, Subtable(sub), a, a + c)
  {
    hide Times, Over, Span, Lookup;
    forall r: nat | r < Span(level)
      ensures
        var gone := NodeCut(level, n, r, a, a + c);
        NodeLookup(level, Subtable(sub), r) == if gone then None else NodeLookup(level, n, r)
    {
      SubIndex(level, r);
    }
  }

  lemma UnmapStart(level: nat, t: seq<Node>, rel: nat)
    requires level <= 3 && TableOk(level, t)
    ensures Gone(level, t, t, rel, rel) && Cleared(level, t, rel, rel)
  {
  }

  /** Where the loop stands, the range clipped to the entry is the chunk at hand. */
  lemma ClipHere(level: nat, lo: nat, at: nat, left: nat)
    requires level <= 3 && lo <= at && left > 0 && (at == lo || Rem(level, at) == 0)
    ensures ClipLo(level, Over(level, at), lo) == Rem(level, at)
    ensures ClipHi(level, Over(level, at), at + left) == Rem(level, at) + Chunk(level, at, left)
  {
    hide Times, Over, Span;
  }

  lemma InRange(level: nat, p: nat, n: nat)
    requires level <= 3 && p < Times(level, n)
    ensures Over(level, p) < n
  {
    hide Times, Over, Span;
    var r := Rem(level, p);
    TimesMono(level, Over(level, p), n);
  }

  lemma ClearedMore(level: nat, t: seq<Node>, lo: nat, at: nat, c: nat, n: Node)
    requires level <= 3 && Over(level, at) < |t| && Cleared(level, t, lo, at)
    requires lo <= at && (at == lo || Rem(level, at) == 0)
    requires Rem(level, at) + c <= Span(level) && (c == Span(level) ==> n == Invalid)
    ensures Cleared(level, t[Over(level, at) := n], lo, at + c)
  {
    hide Times, Over, Span;
    var i := Over(level, at);
    var t2 := t[i := n];
    forall j | 0 <= j < |t2| && ClipLo(level, j, lo) == 0 && ClipHi(level, j, at + c) == Span(level)
      ensures t2[j] == Invalid
    {
      TimesSpan(level, j);
      TimesSpan(level, i);
      TimesMono(level, j, i);
      TimesMono(level, i, j);
      if j < i {
        TimesMono(level, i, j + 1);
      }
    }
  }

  // ---------------------------------------------------------------- map

  const ERR_INTERNAL: int := -1

  /** A byte count returned as a 32-bit int. */
  function Returned(pages: nat): (r: int) {
    var b := pages * 4096 % 0x1_0000_0000;
    if b < 0x8000_0000 then b else b - 0x1_0000_0000
  }

  /** The caller takes the count for an error when bit 31 of it is set, and below 2 GiB it never is. */
  lemma ReturnedNegativeIff(pages: nat)
    ensures Returned(pages) < 0 <==> pages % 0x10_0000 >= 0x8_0000
    ensures Returned(pages) >= 0 ==> Returned(pages) / 4096 == pages % 0x10_0000
    ensures pages < 0x8_0000 ==> Returned(pages) == pages * 4096
  {
    var q, r := pages / 0x10_0000, pages % 0x10_0000;
    assert pages * 4096 == 0x1_0000_0000 * q + 4096 * r;
    Remainder(pages * 4096, q, 4096 * r);
  }

  lemma Remainder(b: nat, q: nat, r: nat)
    requires b == 0x1_0000_0000 * q + r && r < 0x1_0000_0000
    ensures b % 0x1_0000_0000 == r
  {
  }

  /** The pages from lo up to hi were free and are mapped in turn from pa on, all others are as before. */
  ghost predicate Mapped(level: nat, t: seq<Node>, t2: seq<Node>, lo: nat, hi: nat, pa: nat, attr: Attr)
    requires level <= 3 && TableOk(level, t) && TableOk(level, t2) && |t2| == |t|
  {
    forall p: nat | Over(level, p) < |t| ::
      if lo <= p < hi then Lookup(level, t, p) == None && Lookup(level, t2, p) == Some((pa + p - lo, attr))
      else Lookup(level, t2, p) == Lookup(level, t, p)
  }

  ghost predicate NodeMapped(level: nat, n: Node, n2: Node, a: nat, b: nat, pa: nat, attr: Attr)
    requires level <= 3 && NodeOk(level, n) && NodeOk(level, n2)
  {
    forall r: nat | r < Span(level) ::
      if a <= r < b then NodeLookup(level, n, r) == None && NodeLookup(level, n2, r) == Some((pa + r - a, attr))
      else NodeLookup(level, n2, r) == NodeLookup(level, n, r)
  }

  lemma MappedMore(level: nat, t: seq<Node>, mid: seq<Node>, lo: nat, at: nat, c: nat, n: Node, pa: nat, attr: Attr)
    requires level <= 3 && TableOk(level, t) && TableOk(level, mid) && |mid| == |t| && lo <= at
    requires Mapped(level, t, mid, lo, at, pa, attr)
    requires Over(level, at) < |t| && Rem(level, at) + c <= Span(level) && NodeOk(level, n)
    requires NodeMapped(level, mid[Over(level, at)], n, Rem(level, at), Rem(level, at) + c, pa + (at - lo), attr)
    ensures TableOk(level, mid[Over(level, at) := n])
    ensures Mapped(level, t, mid[Over(level, at) := n], lo, at + c, pa, attr)
  {
    hide Times, Over, Span, NodeOk, NodeLookup;
    var i := Over(level, at);
    var t2 := mid[i := n];
    forall p: nat | Over(level, p) < |t|
      ensures if lo <= p < at + c then Lookup(level, t, p) == None && Lookup(level, t2, p) == Some((pa + p - lo, attr))
              else Lookup(level, t2, p) == Lookup(level, t, p)
    {
      SlotPage(level, i, p);
      SlotPage(level, i, at);
      if Over(level, p) == i {
        assert Lookup(level, t2, p) == NodeLookup(level, n, Rem(level, p));
        assert Lookup(level, mid, p) == NodeLookup(level, mid[i], Rem(level, p));
      }
    }
  }

  lemma WholeMore(level: nat, t: seq<Node>, lo: nat, at: nat, left: nat, n: Node)
    requires level <= 3 && TableOk(level, t) && Over(level, at) < |t| && NodeOk(level, n)
    requires lo <= at && left > 0 && (at == lo || Rem(level, at) == 0) && Whole(level, t, lo, at)
    requires WholeNode(level, n, Rem(level, at), Rem(level, at) + Chunk(level, at, left))
    ensures TableOk(level, t[Over(level, at) := n])
    ensures Whole(level, t[Over(level, at) := n], lo, at + Chunk(level, at, left))
  {
    hide Times, Over, Span, NodeOk, WholeNode;
    var i, c := Over(level, at), Chunk(level, at, left);
    var t2 := t[i := n];
    ChunkFacts(level, at, left);
    forall j | 0 <= j < |t2| && ClipLo(level, j, lo) < ClipHi(level, j, at + c)
      ensures WholeNode(level, t2[j], ClipLo(level, j, lo), ClipHi(level, j, at + c))
    {
      if j == i {
        ClipHere(level, lo, at, c);
        ChunkAgain(level, at, left);
      } else {
        ClipOther(level, j, lo, at, c);
      }
    }
  }

  lemma ChunkAgain(level: nat, at: nat, left: nat)
    requires level <= 3
    ensures Chunk(level, at, Chunk(level, at, left)) == Chunk(level, at, left)
  {
    hide Times, Over, Span;
  }

  /** The other entries see nothing of the chunk at hand. */
  lemma ClipOther(level: nat, j: nat, lo: nat, at: nat, c: nat)
    requires level <= 3 && lo <= at && (at == lo || Rem(level, at) == 0) && Rem(level, at) + c <= Span(level)
    requires j != Over(level, at) && ClipLo(level, j, lo) < ClipHi(level, j, at + c)
    ensures ClipHi(level, j, at + c) == ClipHi(level, j, at)
  {
    hide Times, Over, Span;
    var i := Over(level, at);
    TimesSpan(level, j);
    TimesSpan(level, i);
    TimesMono(level, i, j);
    TimesMono(level, i, j + 1);
    TimesMono(level, j, i);
    TimesMono(level, i + 1, j);
  }

  /** The entry at hand has no part in the range before it. */
  lemma WholeBefore(level: nat, t: seq<Node>, lo: nat, at: nat, n: Node)
    requires level <= 3 && TableOk(level, t) && Over(level, at) < |t| && NodeOk(level, n)
    requires lo <= at && (at == lo || Rem(level, at) == 0) && Whole(level, t, lo, at)
    ensures TableOk(level, t[Over(level, at) := n]) && Whole(level, t[Over(level, at) := n], lo, at)
  {
    hide Times, Over, Span, NodeOk, WholeNode;
    var i := Over(level, at);
    assert !(ClipLo(level, i, lo) < ClipHi(level, i, at));
  }

  lemma NothingMapped(level: nat, t: seq<Node>, lo: nat, pa: nat, attr: Attr)
    requires level <= 3 && TableOk(level, t)
    ensures Mapped(level, t, t, lo, lo, pa, attr) && Whole(level, t, lo, lo)
  {
    hide Times, Over, Span, NodeOk, WholeNode, Lookup;
  }

  predicate Blank(t: seq<Node>) {
    forall i | 0 <= i < |t| :: t[i] == Invalid
  }

  /** No page from lo up to hi is mapped. */
  ghost predicate Free(level: nat, t: seq<Node>, lo: nat, hi: nat)
    requires level <= 3 && TableOk(level, t)
  {
    forall p: nat | Over(level, p) < |t| && lo <= p < hi :: Lookup(level, t, p) == None
  }

  ghost predicate NodeFree(level: nat, n: Node, a: nat, b: nat)
    requires level <= 3 && NodeOk(level, n)
  {
    forall r: nat | r < Span(level) && a <= r < b :: NodeLookup(level, n, r) == None
  }

  /** A table, be it empty, stands where a block belongs: at an entry of up to 1 GiB that the range from a up to b
      fills, to be mapped to an address aligned to it. */
  predicate NodeInTheWay(level: nat, n: Node, a: nat, b: nat, pa: nat)
    requires level <= 3 && NodeOk(level, n)
    decreases level, 0
  {
    n.Subtable? && ((a == 0 && b == Span(level) && Rem(level, pa) == 0 && level < 3)
                    || TableInTheWay(level - 1, n.entries, a, b, pa))
  }

  predicate TableInTheWay(level: nat, t: seq<Node>, lo: nat, hi: nat, pa: nat)
    requires level <= 3 && TableOk(level, t)
    decreases level, 1
  {
    exists i | 0 <= i < |t| && ClipLo(level, i, lo) < ClipHi(level, i, hi) ::
      NodeInTheWay(level, t[i], ClipLo(level, i, lo), ClipHi(level, i, hi),
                   pa + if lo <= Times(level, i) then Times(level, i) - lo else 0)
  }

  /** The entry the loop stands at, seen on its own. */
  lemma WayHere(level: nat, t: seq<Node>, lo: nat, at: nat, left: nat, pa: nat)
    requires level <= 3 && TableOk(level, t) && lo <= at && left > 0 && (at == lo || Rem(level, at) == 0)
    requires Over(level, at) < |t|
    ensures
      var i := Over(level, at);
      NodeInTheWay(level, t[i], Rem(level, at), Rem(level, at) + Chunk(level, at, left), pa + (at - lo)) ==>
        TableInTheWay(level, t, lo, at + left, pa)
  {
    hide Times, Over, Span, NodeOk, NodeInTheWay;
    var i := Over(level, at);
    ClipHere(level, lo, at, left);
    ChunkFacts(level, at, left);
    assert ClipLo(level, i, lo) < ClipHi(level, i, at + left);
    assert (if lo <= Times(level, i) then Times(level, i) - lo else 0) == at - lo;
  }

  lemma FreeHere(level: nat, t: seq<Node>, lo: nat, hi: nat, at: nat, c: nat)
    requires level <= 3 && TableOk(level, t) && Free(level, t, lo, hi) && lo <= at && at + c <= hi
    requires Over(level, at) < |t| && Rem(level, at) + c <= Span(level) && NodeOk(level, t[Over(level, at)])
    ensures NodeFree(level, t[Over(level, at)], Rem(level, at), Rem(level, at) + c)
  {
    hide Times, Over, Span, NodeOk, NodeLookup;
    var i := Over(level, at);
    forall r: nat | r < Span(level) && Rem(level, at) <= r < Rem(level, at) + c
      ensures NodeLookup(level, t[i], r) == None
    {
      var p := Times(level, i) + r;
      SlotPage(level, i, p);
      assert Rem(level, p) == r;
      assert Lookup(level, t, p) == None;
    }
  }

  /** What is free in an entry is free in its table, and a block is not free. */
  lemma FreeBelow(level: nat, n: Node, a: nat, b: nat)
    requires level <= 3 && NodeOk(level, n) && NodeFree(level, n, a, b) && a < b <= Span(level)
    ensures !n.Block?
    ensures n.Subtable? ==> Free(level - 1, n.entries, a, b)
  {
    hide Times, Over, Span, Lookup;
    assert NodeLookup(level, n, a) == None;
    if n.Subtable? {
      var l, es := level - 1, n.entries;
      forall p: nat | Over(l, p) < |es| && a <= p < b ensures Lookup(l, es, p) == None {
        SubIndex(level, p);
        assert NodeLookup(level, n, p) == None;
      }
    }
  }

  lemma EmptyIsFree(level: nat, lo: nat, hi: nat, pa: nat)
    requires level <= 3
    ensures
      var t := EmptyTable();
      TableOk(level, t) && Blank(t) && Free(level, t, lo, hi) && !TableInTheWay(level, t, lo, hi, pa)
  {
    hide Times, Over, Span;
    var t := EmptyTable();
    forall p: nat | Over(level, p) < |t| && lo <= p < hi ensures Lookup(level, t, p) == None {
      assert t[Over(level, p)] == Invalid;
    }
  }

  lemma MappedWasFree(level: nat, t: seq<Node>, t2: seq<Node>, lo: nat, hi: nat, pa: nat, attr: Attr)
    requires level <= 3 && TableOk(level, t) && TableOk(level, t2) && |t2| == |t|
    requires Mapped(level, t, t2, lo, hi, pa, attr)
    ensures Free(level, t, lo, hi)
  {
    hide Times, Over, Span, Lookup, TableOk;
  }

  lemma MappedNotBlank(level: nat, t: seq<Node>, t2: seq<Node>, lo: nat, hi: nat, pa: nat, attr: Attr)
    requires level <= 3 && TableOk(level, t) && TableOk(level, t2) && |t2| == |t|
    requires Mapped(level, t, t2, lo, hi, pa, attr) && lo < hi <= Times(level, |t|)
    ensures !Blank(t2)
  {
    hide Times, Over, Span;
    InRange(level, lo, |t|);
    assert Lookup(level, t2, lo).Some?;
  }

  lemma NodeSame(level: nat, n: Node, a: nat, pa: nat, attr: Attr)
    requires level <= 3 && NodeOk(level, n)
    ensures NodeMapped(level, n, n, a, a, pa, attr)
  {
    hide NodeLookup;
  }

  lemma BlockMapped(level: nat, pa: nat, attr: Attr)
    requires level <= BLOCK_MAX_LEVEL && Rem(level, pa) == 0
    ensures NodeMapped(level, Invalid, Block(pa, attr), 0, Span(level), pa, attr)
    ensures WholeNode(level, Block(pa, attr), 0, Span(level)) && NodeTidy(Invalid, Block(pa, attr))
  {
  }

  /** The table pages it takes to map c pages of an entry, from page a of it on: one if the entry is empty and cannot be
      a block, and those below. */
  function NodeNeed(level: nat, n: Node, a: nat, c: nat, pa: nat): (k: nat)
    requires level <= 3 && NodeOk(level, n) && 0 < c && a + c <= Span(level)
    decreases level, 0, 0
  {
    if !NeedsTable(level, a, pa, c) || n.Block? then 0
    else
      LevelZero(level, a, c, pa);
      SubRange(level, a, c);
      if n.Subtable? then Need(level - 1, n.entries, a, c, pa) else 1 + Need(level - 1, EmptyTable(), a, c, pa)
  }

  /** The same for `size` pages of a table, entry by entry. */
  function Need(level: nat, t: seq<Node>, at: nat, size: nat, pa: nat): (k: nat)
    requires level <= 3 && TableOk(level, t) && at + size <= Times(level, |t|)
    decreases level, 1, size
  {
    if size == 0 then 0
    else
      var c := Chunk(level, at, size);
      ChunkFacts(level, at, size);
      InRange(level, at, |t|);
      NodeNeed(level, t[Over(level, at)], Rem(level, at), c, pa) + Need(level, t, at + c, size - c, pa + c)
  }

  lemma NeedNext(level: nat, t: seq<Node>, at: nat, size: nat, pa: nat)
    requires level <= 3 && TableOk(level, t) && 0 < size && at + size <= Times(level, |t|)
    ensures
      var c := Chunk(level, at, size);
      && 0 < c <= size && Rem(level, at) + c <= Span(level) && Over(level, at) < |t|
      && NodeOk(level, t[Over(level, at)])
      && Need(level, t, at, size, pa) ==
           NodeNeed(level, t[Over(level, at)], Rem(level, at), c, pa) + Need(level, t, at + c, size - c, pa + c)
  {
    hide Times, Over, Rem, Span, NodeNeed, NodeOk;
    ChunkFacts(level, at, size);
    InRange(level, at, |t|);
    EntryOk(level, t, Over(level, at));
  }

  lemma NeedNone(level: nat, t: seq<Node>, at: nat, pa: nat)
    requires level <= 3 && TableOk(level, t) && at <= Times(level, |t|)
    ensures Need(level, t, at, 0, pa) == 0
  {
  }

  /** No chunk handed down to the next level comes back as a negative int. Only the chunks of a top level of 512 GiB
      entries are large enough for that. */
  ghost predicate ChunksReturn(level: nat, rel: nat, size: nat)
    requires level <= 3
    decreases size
  {
    ChunkFacts(level, rel, size);
    size == 0 || (Returned(Chunk(level, rel, size)) >= 0
                  && ChunksReturn(level, rel + Chunk(level, rel, size), size - Chunk(level, rel, size)))
  }

  lemma {:induction false} SmallChunksReturn(level: nat, rel: nat, size: nat)
    requires level < 3
    ensures ChunksReturn(level, rel, size)
    decreases size
  {
    hide Times, Over, Returned, Rem;
    if size > 0 {
      ChunkFacts(level, rel, size);
      ChunkReturned(level, Chunk(level, rel, size));
      SmallChunksReturn(level, rel + Chunk(level, rel, size), size - Chunk(level, rel, size));
    }
  }

  function EmptyTable(): (t: seq<Node>)
    ensures |t| == ENTRIES && forall i | 0 <= i < ENTRIES :: t[i] == Invalid
  {
    seq(ENTRIES, i => Invalid)
  }

  /** The entry of arm64_mmu_get_page_table: a block is in the way, or the sub-table that is there or can be made. */
  method GetPageTable(level: nat, n: Node, budget: nat) returns (ok: bool, es: seq<Node>, budget2: nat)
    requires 0 < level <= 3 && NodeOk(level, n)
    ensures ok <==> n.Subtable? || (n.Invalid? && budget > 0)
    ensures ok ==> |es| == ENTRIES && TableOk(level - 1, es)
    ensures ok ==> if n.Invalid? then es == EmptyTable() else n == Subtable(es)
    ensures ok ==> forall r: nat | r < Span(level) :: NodeLookup(level, Subtable(es), r) == NodeLookup(level, n, r)
    ensures ok ==> budget2 + NodeTables(level, Subtable(es)) == budget + NodeTables(level, n)
    ensures budget2 == if ok && n.Invalid? then budget - 1 else budget
  {
    es, budget2 := [], budget;
    match n {
      case Invalid =>
        if budget == 0 {
          return false, [], budget;
        }
        es, budget2 := EmptyTable(), budget - 1;
        EmptyLookup(level, es);
        TablesNone(level - 1, es, ENTRIES);
        return true, es, budget2;
      case Subtable(e) => return true, e, budget;
      case Block(_, _) => return false, [], budget;
    }
  }

  lemma EmptyLookup(level: nat, es: seq<Node>)
    requires 0 < level <= 3 && |es| == ENTRIES && forall i | 0 <= i < ENTRIES :: es[i] == Invalid
    ensures NodeOk(level, Subtable(es)) && forall r: nat | r < Span(level) :: NodeLookup(level, Subtable(es), r) == None
  {
    hide Times, Over, Span;
    forall r: nat | r < Span(level) ensures NodeLookup(level, Subtable(es), r) == None {
      SubIndex(level, r);
    }
  }

  /** A block or page entry will not do for this chunk. */
  predicate NeedsTable(level: nat, a: nat, pa: nat, c: nat)
    requires level <= 3
  {
    a != 0 || Rem(level, pa) != 0 || c != Span(level) || level > BLOCK_MAX_LEVEL
  }

  /** One round of arm64_mmu_map_pt, on the entry it comes to. `done` says whether the chunk is mapped now: it can be so
      although the round counts as failed, when the byte count of the chunk comes back as a negative int. */
  method MapSlot(level: nat, n: Node, a: nat, pa: nat, c: nat, attr: Attr, budget: nat)
    returns (n2: Node, ok: bool, budget2: nat, ghost done: bool)
    requires level <= 3 && NodeOk(level, n) && 0 < c && a + c <= Span(level)
    ensures NodeOk(level, n2) && (ok ==> done) && (done && !ok ==> Returned(c) < 0 && level == 3)
    ensures done ==> NodeMapped(level, n, n2, a, a + c, pa, attr) && WholeNode(level, n2, a, a + c)
    ensures !done ==> NodeMapped(level, n, n2, a, a, pa, attr)
    ensures budget2 + NodeTables(level, n2) == budget + NodeTables(level, n)
    ensures ok <==> done && Returned(c) >= 0
    ensures done ==> budget2 + NodeNeed(level, n, a, c, pa) == budget
    ensures done ==> !NodeInTheWay(level, n, a, a + c, pa)
    ensures NodeFree(level, n, a, a + c) && !NodeInTheWay(level, n, a, a + c, pa) ==>
              (done <==> budget >= NodeNeed(level, n, a, c, pa))
    ensures done ==> NodeTidy(n, n2)
    ensures done && level < 3 && a == 0 && c == Span(level) && Rem(level, pa) == 0 ==> n2 == Block(pa, attr)
    decreases level, 0
  {
    hide Times, Over, Whole, Lookup, Tables, Mapped, Returned, Rem, ChunksReturn, NodeFree, NodeLookup,
      TableInTheWay, NodeMapped, Need, NodeTidy, Blank;
    NodeSame(level, n, a, pa, attr);
    if NodeFree(level, n, a, a + c) {
      FreeBelow(level, n, a, a + c);
    }
    if NeedsTable(level, a, pa, c) {
      LevelZero(level, a, c, pa);
      var found, es, b := GetPageTable(level, n, budget);
      if !found {
        return n, false, budget, false;
      }
      SubRange(level, a, c);
      if n.Invalid? {
        EmptyIsFree(level - 1, a, a + c, pa);
      }
      var sub, ret, b2, completed, lo, hi := MapPt(level - 1, es, a, pa, c, attr, b);
      ChunkReturned(level, c);
      SmallChunksReturn(level - 1, a, c);
      if completed {
        SlotMapped(level, n, es, sub, a, c, pa, attr);
        MappedNotBlank(level - 1, es, sub, a, a + c, pa, attr);
        TidyAbove(n, es, sub);
      } else {
        SlotSame(level, n, es, sub, a, pa, attr, lo);
      }
      return Subtable(sub), ret >= 0, b2, completed;
    }
    if n != Invalid {
      return n, false, budget, false;
    }
    ChunkReturned(level, c);
    BlockMapped(level, pa, attr);
    return Block(pa, attr), true, budget, true;
  }

  /** arm64_mmu_map_pt. On success every page of the range was free and is mapped now. On failure everything is as it
      was, save for a chunk from lo up to hi whose byte count came back as a negative int. */
  method MapPt(level: nat, t: seq<Node>, rel: nat, pa: nat, size: nat, attr: Attr, budget: nat)
    returns (t2: seq<Node>, ret: int, budget2: nat, ghost completed: bool, ghost lo: nat, ghost hi: nat)
    requires level <= 3 && TableOk(level, t) && rel + size <= Times(level, |t|)
    ensures |t2| == |t| && TableOk(level, t2) && rel <= lo <= hi <= rel + size
    ensures completed ==> ret == Returned(size) && Mapped(level, t, t2, rel, rel + size, pa, attr)
    ensures completed ==> Whole(level, t2, rel, rel + size)
    ensures !completed ==> ret == ERR_INTERNAL && Mapped(level, t, t2, lo, hi, pa + (lo - rel), attr)
    ensures lo < hi ==> !completed && level == 3 && Returned(hi - lo) < 0
    ensures budget2 + Tables(level, t2, |t|) == budget + Tables(level, t, |t|)
    ensures completed ==> ChunksReturn(level, rel, size) && budget2 + Need(level, t, rel, size, pa) == budget
    ensures ChunksReturn(level, rel, size) ==> lo == hi
    ensures completed ==> !TableInTheWay(level, t, rel, rel + size, pa) && Tidy(t, t2)
    ensures Free(level, t, rel, rel + size) && !TableInTheWay(level, t, rel, rel + size, pa) ==>
              completed || lo < hi || budget < Need(level, t, rel, size, pa)
    decreases level, 1
  {
    hide Times, Over, Span, NodeOk, TableOk, Whole, WholeNode, Mapped, NodeMapped, Tables, NodeTables, Gone, Returned,
      Cleared, Rem, ChunksReturn, Free, NodeFree, TableInTheWay, NodeInTheWay, Need, NodeNeed, NodeTidy, Tidy;
    ghost var clean := Free(level, t, rel, rel + size) && !TableInTheWay(level, t, rel, rel + size, pa);
    t2, budget2, completed, lo, hi := t, budget, true, rel, rel;
    var at: nat, left: nat := rel, size;
    NothingMapped(level, t, rel, pa, attr);
    NothingInTheWay(level, t, rel, pa);
    TidySelf(t);
    while left > 0
      invariant |t2| == |t| && TableOk(level, t2) && at + left == rel + size && rel <= at
      invariant completed && lo == hi == rel
      invariant Mapped(level, t, t2, rel, at, pa, attr) && Whole(level, t2, rel, at)
      invariant budget2 + Tables(level, t2, |t|) == budget + Tables(level, t, |t|)
      invariant left > 0 ==> (at == rel || Rem(level, at) == 0)
      invariant ChunksReturn(level, rel, size) <==> ChunksReturn(level, at, left)
      invariant budget2 + Need(level, t, rel, size, pa) == budget + Need(level, t, at, left, pa + (at - rel))
      invariant left > 0 ==> forall j | Over(level, at) <= j < |t| :: t2[j] == t[j]
      invariant !TableInTheWay(level, t, rel, at, pa) && Tidy(t, t2)
      decreases left
    {
      var i, c := Over(level, at), Chunk(level, at, left);
      ChunkFacts(level, at, left);
      InRange(level, at, |t|);
      EntryOk(level, t2, i);
      ChunksNext(level, at, left);
      NeedNext(level, t, at, left, pa + (at - rel));
      if clean {
        FreeHere(level, t, rel, rel + size, at, c);
        WayHere(level, t, rel, at, left, pa);
      }
      var n, ok, b, done := MapSlot(level, t2[i], Rem(level, at), pa + (at - rel), c, attr, budget2);
      TablesUpdate(level, t2, i, n, |t|);
      if !ok {
        WholeBefore(level, t2, rel, at, n);
        var t3, freed := UnmapPt(level, t2[i := n], rel, at - rel);
        GoneWhole(level, t2[i := n], t3, rel, at);
        RolledBack(level, t, t2, t3, rel, at, c, n, pa, attr, done);
        completed := false;
        lo, hi := at, if done then at + c else at;
        return t3, ERR_INTERNAL, b + freed, false, lo, hi;
      }
      MappedMore(level, t, t2, rel, at, c, n, pa, attr);
      WholeMore(level, t2, rel, at, left, n);
      WayMore(level, t, rel, at, left, pa);
      TidyMore(t, t2, i, n);
      t2 := t2[i := n];
      budget2 := b;
      at, left := at + c, left - c;
    }
    ChunksNone(level, at);
    NeedNone(level, t, at, pa + (at - rel));
    ret := Returned(size);
  }

  lemma NothingInTheWay(level: nat, t: seq<Node>, lo: nat, pa: nat)
    requires level <= 3 && TableOk(level, t)
    ensures !TableInTheWay(level, t, lo, lo, pa)
  {
    hide Times, Over, Span, NodeInTheWay;
  }

  /** One more entry with no table in the way. */
  lemma WayMore(level: nat, t: seq<Node>, lo: nat, at: nat, left: nat, pa: nat)
    requires level <= 3 && TableOk(level, t) && lo <= at && left > 0 && (at == lo || Rem(level, at) == 0)
    requires Over(level, at) < |t| && NodeOk(level, t[Over(level, at)]) && !TableInTheWay(level, t, lo, at, pa)
    requires
      var a := Rem(level, at);
      !NodeInTheWay(level, t[Over(level, at)], a, a + Chunk(level, at, left), pa + (at - lo))
    ensures !TableInTheWay(level, t, lo, at + Chunk(level, at, left), pa)
  {
    hide Times, Over, Span, NodeOk, NodeInTheWay;
    var i, c := Over(level, at), Chunk(level, at, left);
    ChunkFacts(level, at, left);
    ChunkAgain(level, at, left);
    ClipHere(level, lo, at, c);
    forall j | 0 <= j < |t| && ClipLo(level, j, lo) < ClipHi(level, j, at + c)
      ensures !NodeInTheWay(level, t[j], ClipLo(level, j, lo), ClipHi(level, j, at + c),
                            pa + if lo <= Times(level, j) then Times(level, j) - lo else 0)
    {
      if j == i {
        assert (if lo <= Times(level, i) then Times(level, i) - lo else 0) == at - lo;
      } else {
        ClipOther(level, j, lo, at, c);
      }
    }
  }

  lemma ChunksNext(level: nat, rel: nat, size: nat)
    requires level <= 3 && size > 0
    ensures
      var c := Chunk(level, rel, size);
      c <= size && (ChunksReturn(level, rel, size) <==> Returned(c) >= 0 && ChunksReturn(level, rel + c, size - c))
  {
    ChunkFacts(level, rel, size);
  }

  lemma ChunksNone(level: nat, rel: nat)
    requires level <= 3
    ensures ChunksReturn(level, rel, 0)
  {
  }

  lemma EntryOk(level: nat, t: seq<Node>, i: nat)
    requires level <= 3 && TableOk(level, t) && i < |t|
    ensures NodeOk(level, t[i])
  {
  }

  lemma LevelZero(level: nat, a: nat, c: nat, pa: nat)
    requires level <= 3 && 0 < c && a + c <= Span(level) && NeedsTable(level, a, pa, c)
    ensures level > 0
  {
  }

  lemma ChunkReturned(level: nat, c: nat)
    requires level <= 3 && c <= Span(level)
    ensures level < 3 ==> Returned(c) >= 0
  {
    ReturnedNegativeIff(c);
  }

  lemma SlotMapped(level: nat, n: Node, es: seq<Node>, sub: seq<Node>, a: nat, c: nat, pa: nat, attr: Attr)
    requires 0 < level <= 3 && NodeOk(level, n) && |es| == ENTRIES
    requires TableOk(level - 1, es) && |sub| == ENTRIES && TableOk(level - 1, sub)
    requires forall r: nat | r < Span(level) :: NodeLookup(level, Subtable(es), r) == NodeLookup(level, n, r)
    requires Mapped(level - 1, es, sub, a, a + c, pa, attr)
    ensures NodeMapped(level, n, Subtable(sub), a, a + c, pa, attr)
  {
    hide Times, Over, Span, Lookup, NodeLookup, Mapped;
    forall r: nat | r < Span(level)
      ensures
        if a <= r < a + c then
          NodeLookup(level, n, r) == None && NodeLookup(level, Subtable(sub), r) == Some((pa + r - a, attr))
              else NodeLookup(level, Subtable(sub), r) == NodeLookup(level, n, r)
    {
      OneMapped(level, es, sub, a, a + c, pa, attr, r);
    }
  }

  lemma OneMapped(level: nat, es: seq<Node>, sub: seq<Node>, lo: nat, hi: nat, pa: nat, attr: Attr, r: nat)
    requires 0 < level <= 3 && |es| == ENTRIES && TableOk(level - 1, es) && |sub| == ENTRIES && TableOk(level - 1, sub)
    requires Mapped(level - 1, es, sub, lo, hi, pa, attr) && r < Span(level)
    ensures
      if lo <= r < hi then
        NodeLookup(level, Subtable(es), r) == None && NodeLookup(level, Subtable(sub), r) == Some((pa + r - lo, attr))
      else NodeLookup(level, Subtable(sub), r) == NodeLookup(level, Subtable(es), r)
  {
    hide Times, Over, Span, Lookup;
    SubIndex(level, r);
  }

  lemma SlotSame(level: nat, n: Node, es: seq<Node>, sub: seq<Node>, a: nat, pa: nat, attr: Attr, lo: nat)
    requires 0 < level <= 3 && NodeOk(level, n) && |es| == ENTRIES
    requires TableOk(level - 1, es) && |sub| == ENTRIES && TableOk(level - 1, sub)
    requires forall r: nat | r < Span(level) :: NodeLookup(level, Subtable(es), r) == NodeLookup(level, n, r)
    requires a <= lo && Mapped(level - 1, es, sub, lo, lo, pa + (lo - a), attr)
    ensures NodeMapped(level, n, Subtable(sub), a, a, pa, attr)
  {
    hide Times, Over, Span, Lookup, NodeLookup, Mapped;
    forall r: nat | r < Span(level) ensures NodeLookup(level, Subtable(sub), r) == NodeLookup(level, n, r) {
      OneMapped(level, es, sub, lo, lo, pa + (lo - a), attr, r);
    }
  }

  /** The failed round and the rollback together leave only what the round itself has left. */
  lemma RolledBack(level: nat, t: seq<Node>, mid: seq<Node>, t3: seq<Node>, lo: nat, at: nat, c: nat, n: Node,
                   pa: nat, attr: Attr, done: bool)
    requires level <= 3 && TableOk(level, t) && TableOk(level, mid) && |mid| == |t|
    requires lo <= at && Mapped(level, t, mid, lo, at, pa, attr)
    requires Over(level, at) < |t| && Rem(level, at) + c <= Span(level)
    requires NodeOk(level, mid[Over(level, at)]) && NodeOk(level, n)
    requires
      var a := Rem(level, at);
      NodeMapped(level, mid[Over(level, at)], n, a, if done then a + c else a, pa + (at - lo), attr)
    requires |t3| == |t| && TableOk(level, t3) && TableOk(level, mid[Over(level, at) := n])
    requires
      var m := mid[Over(level, at) := n];
      forall p: nat | Over(level, p) < |t| :: Lookup(level, t3, p) == if lo <= p < at then None else Lookup(level, m, p)
    ensures Mapped(level, t, t3, at, if done then at + c else at, pa + (at - lo), attr)
  {
    hide Times, Over, Span, NodeOk, NodeLookup;
    var i := Over(level, at);
    var m := mid[i := n];
    if done {
      MappedMore(level, t, mid, lo, at, c, n, pa, attr);
    } else {
      MappedMore(level, t, mid, lo, at, 0, n, pa, attr);
    }
  }

  // ---------------------------------------------------------------- the interface

  datatype Status = Ok | OutOfRange | InvalidArgs | Internal | NotFound

  /** The requests for which arch_mmu_map is all or nothing: neither the byte count as a whole nor, when the top entries
      are of 512 GiB, that of the first or the last piece of the range has bit 31 set. */
  predicate Safe(level: nat, rel: nat, count: nat)
    requires level <= 3
  {
    && Returned(count) >= 0
    && (level == 3 ==> Returned(Chunk(3, rel, count)) >= 0 && Returned(Min(count, Rem(3, rel + count))) >= 0)
  }

  function Min(a: nat, b: nat): (m: nat) {
    if a < b then a else b
  }

  lemma {:induction false} AlignedChunks(rel: nat, size: nat)
    requires Rem(3, rel) == 0
    ensures ChunksReturn(3, rel, size) <==> Returned(Rem(3, rel + size)) >= 0
    decreases size
  {
    hide Times, Over, Returned, Rem;
    ReturnedNegativeIff(0);
    ReturnedNegativeIff(Span(3));
    if size > 0 {
      ChunksNext(3, rel, size);
      ChunkFacts(3, rel, size);
      var c := Chunk(3, rel, size);
      if c < size {
        AlignedChunks(rel + c, size - c);
      } else {
        ChunksNone(3, rel + c);
        LastRem(rel, size);
      }
    } else {
      ChunksNone(3, rel);
    }
  }

  /** The last piece of a range that ends in the entry it starts in. */
  lemma LastRem(rel: nat, size: nat)
    requires Rem(3, rel) + size <= Span(3)
    ensures Rem(3, rel + size) == if Rem(3, rel) + size == Span(3) then 0 else Rem(3, rel) + size
  {
    hide Times, Over;
    var i := Over(3, rel);
    if Rem(3, rel) + size == Span(3) {
      TimesSpan(3, i);
      Between(3, i + 1, rel + size);
    } else {
      Between(3, i, rel + size);
    }
  }

  /** Only the first and the last piece matter: those between are whole entries, whose byte count comes back as zero. */
  lemma SafeIffChunks(level: nat, rel: nat, count: nat)
    requires level <= 3
    ensures Safe(level, rel, count) <==> Returned(count) >= 0 && ChunksReturn(level, rel, count)
  {
    hide Times, Over, Returned, Rem;
    if level < 3 {
      SmallChunksReturn(level, rel, count);
    } else if count == 0 {
      ChunksNone(3, rel);
      ReturnedNegativeIff(0);
    } else {
      ChunksNext(3, rel, count);
      ChunkFacts(3, rel, count);
      var c := Chunk(3, rel, count);
      if c < count {
        AlignedChunks(rel + c, count - c);
        LastPiece(rel + c, count - c, count);
      } else {
        ChunksNone(3, rel + c);
        LastRem(rel, count);
        ReturnedNegativeIff(0);
      }
    }
  }

  /** Past the first piece, what reaches into the last entry is less than the range. */
  lemma LastPiece(rel: nat, size: nat, count: nat)
    requires Rem(3, rel) == 0 && size <= count
    ensures Rem(3, rel + size) <= count
  {
    assert Over(3, rel) <= Over(3, rel + size);
    assert Times(3, Over(3, rel)) <= Times(3, Over(3, rel + size));
  }

  /** arch_mmu_map for an address space whose top table is of the given level and starts at byte address `base`. The
      pages mapped afterwards that were not before are those from lo up to hi. */
  method ArchMmuMap(level: nat, top: seq<Node>, base: nat, vaddr: nat, paddr: nat, count: nat, flags: Flags,
                    budget: nat)
    returns (t2: seq<Node>, status: Status, mapped: int, budget2: nat, ghost lo: nat, ghost hi: nat)
    requires level <= 3 && TableOk(level, top) && base % 4096 == 0
    ensures |t2| == |top| && TableOk(level, t2)
    ensures
      var rel := PageOf(base, vaddr);
      && rel <= lo <= hi <= rel + count
      && Mapped(level, top, t2, lo, hi, paddr / 4096 + (lo - rel), AttrOf(flags))
      && (status == Ok ==> Safe(level, rel, count) && lo == rel && hi == rel + count && mapped == count % 0x10_0000)
      && (status == Ok ==> Tidy(top, t2))
      && (status != Ok && Safe(level, rel, count) ==> lo == hi)
      && (status in {OutOfRange, InvalidArgs} ==> lo == hi)
      && (Acceptable(level, top, base, vaddr, paddr, count) ==>
            var can := && Free(level, top, rel, rel + count)
                       && !TableInTheWay(level, top, rel, rel + count, paddr / 4096)
                       && budget >= Need(level, top, rel, count, paddr / 4096);
            (status == Ok <==> can && Safe(level, rel, count)) && (can && status != Ok ==> lo < hi))
    ensures status in {Ok, Internal} <==> Acceptable(level, top, base, vaddr, paddr, count)
    ensures budget2 + Tables(level, t2, |top|) == budget + Tables(level, top, |top|)
  {
    hide Times, Over, Span, TableOk, NodeOk, Lookup, Tables, Whole, Returned, Safe, ChunksReturn, Mapped, Free,
      TableInTheWay, Need, Tidy;
    var rel := PageOf(base, vaddr);
    TidySelf(top);
    NothingMapped(level, top, rel, paddr / 4096, AttrOf(flags));
    NothingInTheWay(level, top, rel, paddr / 4096);
    MappedWasFree(level, top, top, rel, rel, paddr / 4096, AttrOf(flags));
    SafeIffChunks(level, rel, count);
    if vaddr < base || rel >= Times(level, |top|) {
      return top, OutOfRange, 0, budget, rel, rel;
    }
    if vaddr % 4096 != 0 || paddr % 4096 != 0 {
      return top, InvalidArgs, 0, budget, rel, rel;
    }
    if count == 0 {
      ChunksNone(level, rel);
      NeedNone(level, top, rel, paddr / 4096);
      ReturnedNegativeIff(0);
      return top, Ok, 0, budget, rel, rel;
    }
    if rel + count > Times(level, |top|) {
      return top, InvalidArgs, 0, budget, rel, rel;
    }
    var ret;
    ghost var completed;
    t2, ret, budget2, completed, lo, hi := MapPt(level, top, rel, paddr / 4096, count, AttrOf(flags), budget);
    ReturnedNegativeIff(count);
    if completed {
      lo, hi := rel, rel + count;
      MappedWasFree(level, top, t2, lo, hi, paddr / 4096, AttrOf(flags));
    }
    if ret < 0 {
      return t2, Internal, ret, budget2, lo, hi;
    }
    return t2, Ok, ret / 4096, budget2, lo, hi;
  }

  /** The page of the space that a byte address stands for. */
  function PageOf(base: nat, vaddr: nat): (p: nat) {
    if vaddr < base then 0 else (vaddr - base) / 4096
  }

  /** The arguments pass the checks of arch_mmu_map and arm64_mmu_map. */
  predicate Acceptable(level: nat, top: seq<Node>, base: nat, vaddr: nat, paddr: nat, count: nat)
    requires level <= 3
  {
    && vaddr >= base && PageOf(base, vaddr) < Times(level, |top|) && vaddr % 4096 == 0 && paddr % 4096 == 0
    && PageOf(base, vaddr) + count <= Times(level, |top|)
  }

  /** Below 2 GiB every request is safe. */
  lemma SmallIsSafe(level: nat, rel: nat, count: nat)
    requires level <= 3 && count < 0x8_0000
    ensures Safe(level, rel, count)
  {
    hide Rem, Times, Over, Span, Returned;
    ReturnedNegativeIff(count);
    if level == 3 {
      ChunkFacts(3, rel, count);
      ReturnedNegativeIff(Chunk(3, rel, count));
      ReturnedNegativeIff(Min(count, Rem(3, rel + count)));
    }
  }

  /** 2 GiB at the start of a space are not; nor are 5 GiB that begin 2 GiB before the end of a 512 GiB entry, although
      bit 31 of their byte count is clear. */
  lemma UnsafeExamples()
    ensures !Safe(2, 0, 0x8_0000) && !Safe(3, 0, 0x8_0000)
    ensures Returned(0x14_0000) >= 0 && !Safe(3, 0x7F8_0000, 0x14_0000)
  {
    hide Rem, Times, Over, Returned;
    ReturnedNegativeIff(0x8_0000);
    ReturnedNegativeIff(0x14_0000);
    SlotPage(3, 0, 0x7F8_0000);
    TimesZero(3);
    assert Rem(3, 0x7F8_0000) == 0x7F8_0000;
  }

  lemma TimesZero(level: nat)
    requires level <= 3
    ensures Times(level, 0) == 0
  {
  }

  /** The loop of arch_mmu_query down the levels. */
  method Query(level: nat, top: seq<Node>, p: nat) returns (r: Option<(nat, Flags)>)
    requires level <= 3 && TableOk(level, top) && Over(level, p) < |top|
    ensures
      match Lookup(level, top, p)
      case None => r == None
      case Some(found) => r == Some((found.0, FlagsOf(found.1)))
  {
    var l, t, rem := level, top, p;
    while true
      invariant l <= 3 && TableOk(l, t) && Over(l, rem) < |t| && Lookup(l, t, rem) == Lookup(level, top, p)
      decreases l
    {
      hide Times, Span;
      var index := Over(l, rem);
      rem := Rem(l, rem);
      match t[index] {
        case Invalid => return None;
        case Block(pa, attr) => return Some((pa + rem, FlagsOf(attr)));
        case Subtable(es) =>
          SubIndex(l, rem);
          l, t := l - 1, es;
      }
    }
  }

  /** arch_mmu_query. */
  method ArchMmuQuery(level: nat, top: seq<Node>, base: nat, vaddr: nat)
    returns (status: Status, paddr: nat, flags: Flags)
    requires level <= 3 && TableOk(level, top)
    ensures status == OutOfRange <==> vaddr < base || vaddr >= base + 4096 * Times(level, |top|)
    ensures status != OutOfRange ==> status == ByteQuery(level, top, base, vaddr).0
    ensures status == Ok ==> (status, paddr, flags) == ByteQuery(level, top, base, vaddr)
  {
    hide Times, Over, Span, TableOk, Lookup;
    flags := FlagsOf(Attr(Normal, false, false, false, false, false));
    if vaddr < base || PageOf(base, vaddr) >= Times(level, |top|) {
      return OutOfRange, 0, flags;
    }
    InRange(level, PageOf(base, vaddr), |top|);
    var r := Query(level, top, PageOf(base, vaddr));
    match r {
      case None => return NotFound, 0, flags;
      case Some(found) => return Ok, found.0 * 4096 + (vaddr - base) % 4096, found.1;
    }
  }

  /** What a query of a byte address in the space answers. */
  function ByteQuery(level: nat, top: seq<Node>, base: nat, vaddr: nat): (r: (Status, nat, Flags))
    requires level <= 3 && TableOk(level, top) && base <= vaddr < base + 4096 * Times(level, |top|)
  {
    var p := PageOf(base, vaddr);
    InRange(level, p, |top|);
    match Lookup(level, top, p)
    case None => (NotFound, 0, FlagsOf(Attr(Normal, false, false, false, false, false)))
    case Some(found) => (Ok, found.0 * 4096 + (vaddr - base) % 4096, FlagsOf(found.1))
  }

  /** After a successful map, a query of any byte of the range answers the byte as far into the physical range, with the
      flags asked for; write-combining memory as uncached. */
  lemma MapThenQuery(level: nat, top: seq<Node>, t2: seq<Node>, base: nat, vaddr: nat, paddr: nat, count: nat,
                     flags: Flags, off: nat)
    requires level <= 3 && TableOk(level, top) && TableOk(level, t2) && |t2| == |top| && base % 4096 == 0
    requires Acceptable(level, top, base, vaddr, paddr, count) && off < 4096 * count
    requires
      var rel := PageOf(base, vaddr);
      Mapped(level, top, t2, rel, rel + count, paddr / 4096, AttrOf(flags))
    ensures
      var seen := flags.(cache := if flags.cache == WriteCombining then Uncached else flags.cache);
      && vaddr + off < base + 4096 * Times(level, |t2|)
      && ByteQuery(level, t2, base, vaddr + off) == (Ok, paddr + off, seen)
  {
    hide Times, Over, Span, TableOk, Lookup;
    var rel, k, r := PageOf(base, vaddr), off / 4096, off % 4096;
    assert vaddr - base == 4096 * rel && paddr == 4096 * (paddr / 4096);
    assert vaddr + off - base == 4096 * (rel + k) + r;
    assert PageOf(base, vaddr + off) == rel + k && (vaddr + off - base) % 4096 == r;
    InRange(level, rel + k, |t2|);
    FlagsRoundTrip(flags);
    assert Lookup(level, t2, rel + k) == Some((paddr / 4096 + (rel + k) - rel, AttrOf(flags)));
  }
}
