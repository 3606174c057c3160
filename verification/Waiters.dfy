/** Threads in a queue and threads at a place in their code: the counting used by the lock models. */
module Waiters {

  type Tid = nat

  datatype Option<T> = None | Some(value: T)

  predicate NoDup(l: seq<Tid>) {
    forall i, j | 0 <= i < j < |l| :: l[i] != l[j]
  }

  function Index(l: seq<Tid>, t: Tid): (i: nat)
    requires t in l
    ensures i < |l| && l[i] == t
  {
    if l[0] == t then 0 else 1 + Index(l[1..], t)
  }

  function RemoveAt(l: seq<Tid>, i: nat): (r: seq<Tid>)
    requires i < |l|
  {
    l[..i] + l[i + 1..]
  }

  lemma NoDupRemove(l: seq<Tid>, i: nat)
    requires NoDup(l) && i < |l|
    ensures NoDup(RemoveAt(l, i))
    ensures forall t :: t in RemoveAt(l, i) <==> t in l && t != l[i]
  {
    forall t | t in l && t != l[i] ensures t in RemoveAt(l, i) {
      var j :| 0 <= j < |l| && l[j] == t;
      assert RemoveAt(l, i)[if j < i then j else j - 1] == t;
    }
  }

  /** The queue without thread t. */
  function Without(l: seq<Tid>, t: Tid): (r: seq<Tid>)
    requires t in l
  {
    RemoveAt(l, Index(l, t))
  }

  lemma WithoutOne(l: seq<Tid>, t: Tid)
    requires t in l && NoDup(l)
    ensures |Without(l, t)| == |l| - 1 && NoDup(Without(l, t))
    ensures forall u :: u in Without(l, t) <==> u in l && u != t
  {
    NoDupRemove(l, Index(l, t));
  }

  lemma TailOne(l: seq<Tid>)
    requires l != [] && NoDup(l)
    ensures NoDup(l[1..]) && forall u :: u in l[1..] <==> u in l && u != l[0]
  {
  }

  lemma AppendOne(l: seq<Tid>, t: Tid)
    requires NoDup(l) && t !in l
    ensures NoDup(l + [t])
  {
  }

  /** The threads that are at place k. */
  ghost function At<P>(pc: map<Tid, P>, k: P): (r: set<Tid>) {
    set t | t in pc && pc[t] == k
  }

  /** Moving one thread changes the head count of the place it leaves and of the place it reaches. */
  lemma AtMove<P>(pc: map<Tid, P>, t: Tid, k: P, j: P)
    requires t in pc
    ensures |At(pc[t := k], j)| == |At(pc, j)| - (if pc[t] == j then 1 else 0) + (if k == j then 1 else 0)
  {
    var a := At(pc, j) - {t};
    if pc[t] == j {
      assert At(pc, j) == a + {t};
    } else {
      assert At(pc, j) == a;
    }
    if k == j {
      assert At(pc[t := k], j) == a + {t};
    } else {
      assert At(pc[t := k], j) == a;
    }
  }

  lemma AtSome<P>(pc: map<Tid, P>, k: P, t: Tid)
    requires t in At(pc, k)
    ensures |At(pc, k)| >= 1
  {
    assert At(pc, k) == (At(pc, k) - {t}) + {t};
  }

  lemma AtOne<P>(pc: map<Tid, P>, k: P, t: Tid, u: Tid)
    requires t in At(pc, k) && u in At(pc, k) && |At(pc, k)| <= 1
    ensures t == u
  {
    if t != u {
      assert |{t, u}| == 2 && {t, u} <= At(pc, k);
      SubsetCard({t, u}, At(pc, k));
    }
  }

  lemma SubsetCard(a: set<Tid>, b: set<Tid>)
    requires a <= b
    ensures |a| <= |b|
  {
    assert b == a + (b - a);
  }

  lemma AtNone<P>(pc: map<Tid, P>, k: P, t: Tid)
    requires |At(pc, k)| == 0 && t in pc
    ensures pc[t] != k
  {
    assert At(pc, k) == {};
    assert t !in At(pc, k);
  }

  // ---------------------------------------------------------------- who stands in front of whom

  /** a stands somewhere in front of b. */
  predicate InFront(l: seq<Tid>, a: Tid, b: Tid) {
    exists i, j | 0 <= i < j < |l| :: l[i] == a && l[j] == b
  }

  /** The line moves on: threads may leave it, but those who stay are not overtaken, and newcomers stand behind them. */
  ghost predicate InTurn(l: seq<Tid>, l2: seq<Tid>) {
    forall a, b | a in l && a in l2 && b in l2 && a != b && !InFront(l, b, a) :: InFront(l2, a, b)
  }

  lemma OneInFront(l: seq<Tid>, a: Tid, b: Tid)
    requires NoDup(l) && InFront(l, a, b)
    ensures !InFront(l, b, a)
  {
  }

  lemma FirstInFront(l: seq<Tid>, b: Tid)
    requires l != [] && b in l && b != l[0]
    ensures InFront(l, l[0], b)
  {
    var j :| 0 <= j < |l| && l[j] == b;
    assert l[0] == l[0] && l[j] == b;
  }

  lemma TurnSame(l: seq<Tid>)
    ensures InTurn(l, l)
  {
    forall a, b | a in l && b in l && a != b && !InFront(l, b, a) ensures InFront(l, a, b) {
      var i :| 0 <= i < |l| && l[i] == a;
      var j :| 0 <= j < |l| && l[j] == b;
    }
  }

  lemma TurnRemoved(l: seq<Tid>, i: nat)
    requires i < |l|
    ensures InTurn(l, RemoveAt(l, i))
  {
    var r := RemoveAt(l, i);
    forall a, b | a in r && b in r && a != b && !InFront(l, b, a) ensures InFront(r, a, b) {
      var m :| 0 <= m < |r| && r[m] == a;
      var n :| 0 <= n < |r| && r[n] == b;
      var m2, n2 := if m < i then m else m + 1, if n < i then n else n + 1;
      assert l[m2] == a && l[n2] == b;
    }
  }

  lemma TurnTail(l: seq<Tid>)
    requires l != []
    ensures InTurn(l, l[1..])
  {
    TurnRemoved(l, 0);
    assert RemoveAt(l, 0) == l[1..];
  }

  lemma TurnAppended(l: seq<Tid>, t: Tid)
    requires t !in l
    ensures InTurn(l, l + [t])
  {
    var r := l + [t];
    forall a, b | a in l && b in r && a != b && !InFront(l, b, a) ensures InFront(r, a, b) {
      var m :| 0 <= m < |l| && l[m] == a;
      var n :| 0 <= n < |r| && r[n] == b;
      assert r[m] == a;
      assert n < |l| ==> l[n] == b;
    }
  }

  lemma TurnNext(l: seq<Tid>, l1: seq<Tid>, l2: seq<Tid>)
    requires InTurn(l, l1) && InTurn(l1, l2) && NoDup(l1) && forall a | a in l && a in l2 :: a in l1
    ensures InTurn(l, l2)
  {
    forall a, b | a in l && a in l2 && b in l2 && a != b && !InFront(l, b, a) ensures InFront(l2, a, b) {
      if b in l1 {
        OneInFront(l1, a, b);
      }
    }
  }

  lemma TurnNobody(l: seq<Tid>)
    ensures InTurn(l, [])
  {
  }

  /** Who is not in front now is not in front later. */
  lemma StaysBehind(l: seq<Tid>, l2: seq<Tid>, a: Tid, b: Tid)
    requires InTurn(l, l2) && NoDup(l2) && a in l && a in l2 && a != b && !InFront(l, b, a)
    ensures !InFront(l2, b, a)
  {
    if b in l2 {
      OneInFront(l2, a, b);
    }
  }
}
