/** lk_init_level: the boot hooks of a window of levels, called in order of level and, within a level, of the table. */
module Init {

  datatype Hook = Hook(level: nat, flags: bv32)

  predicate Eligible(table: seq<Hook>, required: bv32, start: nat, stop: nat, i: int) {
    0 <= i < |table| && table[i].flags & required != 0 && start <= table[i].level <= stop
  }

  /** Hook i comes before hook j: a lower level, or the same level and an earlier place in the table. */
  predicate Before(table: seq<Hook>, i: int, j: int)
    requires 0 <= i < |table| && 0 <= j < |table|
  {
    table[i].level < table[j].level || (table[i].level == table[j].level && i < j)
  }

  ghost predicate InTable(table: seq<Hook>, order: seq<nat>) {
    forall k | 0 <= k < |order| :: order[k] < |table|
  }

  ghost predicate Ordered(table: seq<Hook>, order: seq<nat>) {
    InTable(table, order) && forall k, m | 0 <= k < m < |order| :: Before(table, order[k], order[m])
  }

  /** The calls of a window: every eligible hook, and in order. */
  ghost predicate IsWindow(table: seq<Hook>, required: bv32, start: nat, stop: nat, order: seq<nat>) {
    Ordered(table, order) && forall i: nat :: i in order <==> Eligible(table, required, start, stop, i)
  }

  // ---------------------------------------------------------------- a stable sort of the filtered table

  /** Behind all hooks whose level is not higher. */
  function Place(table: seq<Hook>, order: seq<nat>, i: nat): (r: seq<nat>)
    requires i < |table| && InTable(table, order)
  {
    if order == [] then [i]
    else if table[order[0]].level > table[i].level then [i] + order
    else [order[0]] + Place(table, order[1..], i)
  }

  /** Insertion sort by level of the first n hooks, those not eligible left out. */
  function StableSort(table: seq<Hook>, required: bv32, start: nat, stop: nat, n: nat): (r: seq<nat>)
    requires n <= |table|
    ensures InTable(table, r)
    decreases n
  {
    if n == 0 then []
    else
      var r := StableSort(table, required, start, stop, n - 1);
      if Eligible(table, required, start, stop, n - 1) then
        PlaceInTable(table, r, n - 1);
        Place(table, r, n - 1)
      else r
  }

  lemma {:induction false} PlaceInTable(table: seq<Hook>, order: seq<nat>, i: nat)
    requires i < |table| && InTable(table, order)
    ensures InTable(table, Place(table, order, i))
    ensures forall x :: x in Place(table, order, i) <==> x in order || x == i
  {
    if order != [] && table[order[0]].level <= table[i].level {
      PlaceInTable(table, order[1..], i);
      assert order == [order[0]] + order[1..];
    }
  }

  lemma {:induction false} PlaceOrdered(table: seq<Hook>, order: seq<nat>, i: nat)
    requires i < |table| && Ordered(table, order) && forall k | 0 <= k < |order| :: order[k] < i
    ensures Ordered(table, Place(table, order, i))
  {
    PlaceInTable(table, order, i);
    if order != [] {
      if table[order[0]].level <= table[i].level {
        PlaceOrdered(table, order[1..], i);
        PlaceInTable(table, order[1..], i);
        var rest := Place(table, order[1..], i);
        forall m | 0 <= m < |rest| ensures Before(table, order[0], rest[m]) {
          assert rest[m] in rest;
          if rest[m] != i {
            var j :| 0 <= j < |order[1..]| && order[1..][j] == rest[m];
            assert order[j + 1] == rest[m];
          }
        }
        OrderedCons(table, order[0], rest);
      } else {
        forall m | 0 <= m < |order| ensures Before(table, i, order[m]) {
          assert m > 0 ==> Before(table, order[0], order[m]);
        }
        OrderedCons(table, i, order);
      }
    }
  }

  lemma OrderedCons(table: seq<Hook>, x: nat, order: seq<nat>)
    requires x < |table| && Ordered(table, order) && forall m | 0 <= m < |order| :: Before(table, x, order[m])
    ensures Ordered(table, [x] + order)
  {
  }

  lemma {:induction false} StableSortSorts(table: seq<Hook>, required: bv32, start: nat, stop: nat, n: nat)
    requires n <= |table|
    ensures Ordered(table, StableSort(table, required, start, stop, n))
    ensures forall i: nat ::
              i in StableSort(table, required, start, stop, n) <==> i < n && Eligible(table, required, start, stop, i)
  {
    hide Eligible, Ordered, Place;
    if n > 0 {
      StableSortSorts(table, required, start, stop, n - 1);
      var r := StableSort(table, required, start, stop, n - 1);
      if Eligible(table, required, start, stop, n - 1) {
        PlaceInTable(table, r, n - 1);
        forall k | 0 <= k < |r| ensures r[k] < n - 1 { assert r[k] in r; }
        PlaceOrdered(table, r, n - 1);
      }
    } else {
      OrderedNone(table);
    }
  }

  lemma OrderedNone(table: seq<Hook>)
    ensures Ordered(table, [])
  {
  }

  /** There is only one order. */
  lemma {:induction false} OrderUnique(table: seq<Hook>, a: seq<nat>, b: seq<nat>)
    requires Ordered(table, a) && Ordered(table, b) && forall i: nat :: i in a <==> i in b
    ensures a == b
  {
    assert |b| > 0 ==> b[0] in b;
    if a != [] {
      assert a[0] in a && a[0] in b;
      assert b[0] in b && b[0] in a;
      var k :| 0 <= k < |b| && b[k] == a[0];
      var m :| 0 <= m < |a| && a[m] == b[0];
      assert m == 0 && k == 0;
      forall i: nat ensures i in a[1..] <==> i in b[1..] {
        TailHas(table, a, i);
        TailHas(table, b, i);
      }
      OrderUnique(table, a[1..], b[1..]);
    }
  }

  lemma TailHas(table: seq<Hook>, a: seq<nat>, i: nat)
    requires Ordered(table, a) && a != []
    ensures i in a[1..] <==> i in a && i != a[0]
  {
  }

  /** What a window calls is the stable sort by level of the filtered table. */
  lemma WindowIsStableSort(table: seq<Hook>, required: bv32, start: nat, stop: nat, order: seq<nat>)
    requires IsWindow(table, required, start, stop, order)
    ensures order == StableSort(table, required, start, stop, |table|)
  {
    hide StableSort, Place;
    StableSortSorts(table, required, start, stop, |table|);
    OrderUnique(table, order, StableSort(table, required, start, stop, |table|));
  }

  /** Two adjacent windows in turn call what the union of the windows calls. */
  lemma WindowsCompose(table: seq<Hook>, required: bv32, start: nat, mid: nat, stop: nat, a: seq<nat>, b: seq<nat>)
    requires start <= mid <= stop
    requires IsWindow(table, required, start, mid, a) && IsWindow(table, required, mid + 1, stop, b)
    ensures IsWindow(table, required, start, stop, a + b)
  {
    forall k, m | 0 <= k < m < |a + b| ensures Before(table, (a + b)[k], (a + b)[m]) {
      if k < |a| <= m {
        assert a[k] in a && b[m - |a|] in b;
      }
    }
    forall i: nat ensures i in a + b <==> Eligible(table, required, start, stop, i) {
      assert i in a + b <==> i in a || i in b;
    }
  }

  // ---------------------------------------------------------------- the search in place

  /** The hook after `last` in the order, among the eligible ones. */
  ghost predicate IsNext(table: seq<Hook>, required: bv32, start: nat, stop: nat, last: int, found: int) {
    && Eligible(table, required, start, stop, found)
    && (0 <= last < |table| ==> Before(table, last, found))
    && forall j | Eligible(table, required, start, stop, j) && (0 <= last < |table| ==> Before(table, last, j)) ::
         j == found || Before(table, found, j)
  }

  /** The hooks still to be called. */
  ghost function Rest(table: seq<Hook>, required: bv32, start: nat, stop: nat, last: int): (r: set<int>) {
    set j | 0 <= j < |table| && Eligible(table, required, start, stop, j)
            && (0 <= last < |table| ==> Before(table, last, j))
  }

  lemma RestShrinks(table: seq<Hook>, required: bv32, start: nat, stop: nat, last: int, found: int)
    requires IsNext(table, required, start, stop, last, found)
    ensures Rest(table, required, start, stop, found) < Rest(table, required, start, stop, last)
  {
    assert found in Rest(table, required, start, stop, last);
    assert found !in Rest(table, required, start, stop, found);
  }

  method LkInitLevel(table: seq<Hook>, required: bv32, start: nat, stop: nat) returns (called: seq<nat>)
    requires start > 0
    ensures IsWindow(table, required, start, stop, called)
  {
    var lastLevel := start - 1;
    var last := -1;
    called := [];
    while true
      invariant last == -1 ==> called == [] && lastLevel == start - 1
      invariant last != -1 ==> Eligible(table, required, start, stop, last) && lastLevel == table[last].level
      invariant Ordered(table, called)
      invariant forall x | x in called :: last != -1 && (x == last || Before(table, x, last))
      invariant forall j: nat ::
                  j in called <==> Eligible(table, required, start, stop, j) && last != -1 && !Before(table, last, j)
      decreases Rest(table, required, start, stop, last)
    {
      var found := Search(table, required, start, stop, last, lastLevel);
      if found == -1 {
        break;
      }
      RestShrinks(table, required, start, stop, last, found);
      assert found !in called;
      called := called + [found];
      lastLevel := table[found].level;
      last := found;
    }
  }

  /** The inner loop: one pass over the table for the lowest hook not yet called. */
  method Search(table: seq<Hook>, required: bv32, start: nat, stop: nat, last: int, lastLevel: nat) returns (found: int)
    requires last == -1 ==> lastLevel == start - 1
    requires last != -1 ==> Eligible(table, required, start, stop, last) && lastLevel == table[last].level
    ensures found == -1 ==>
              forall j | Eligible(table, required, start, stop, j) :: last != -1 && !Before(table, last, j)
    ensures found != -1 ==> IsNext(table, required, start, stop, last, found)
  {
    found := -1;
    var seenLast := false;
    for ptr := 0 to |table|
      invariant seenLast <==> 0 <= last < ptr
      invariant || found == -1
                || (found < ptr && Eligible(table, required, start, stop, found) && table[found].level > lastLevel)
      invariant forall j | 0 <= j < ptr && Eligible(table, required, start, stop, j) ::
                  table[j].level <= lastLevel || (found != -1 && (j == found || Before(table, found, j)))
      invariant forall j | 0 <= j < ptr && Eligible(table, required, start, stop, j) && table[j].level == lastLevel ::
                  j <= last
    {
      if ptr == last {
        seenLast := true;
      }
      if table[ptr].flags & required == 0 {
        continue;
      }
      if table[ptr].level > stop {
        continue;
      }
      if table[ptr].level < lastLevel {
        continue;
      }
      if found != -1 && table[found].level <= table[ptr].level {
        continue;
      }
      if table[ptr].level >= start && table[ptr].level > lastLevel {
        found := ptr;
        continue;
      }
      if table[ptr].level == lastLevel && ptr != last && seenLast {
        found := ptr;
        break;
      }
    }
  }
}
