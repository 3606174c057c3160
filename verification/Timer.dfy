/** Per-processor timer queues ordered by 32-bit times that wrap around. */
module Timer {

  type Id = nat
  type Time = t: nat | t < 0x1_0000_0000

  const WRAP: nat := 0x1_0000_0000
  const HALF: nat := 0x8000_0000

  /** TIME_GT and TIME_LT: the sign of the difference taken as a signed 32-bit number. */
  predicate TimeGt(a: Time, b: Time) {
    0 < (a - b) % WRAP < HALF
  }

  predicate TimeLt(a: Time, b: Time) {
    (a - b) % WRAP >= HALF
  }

  function Plus(a: Time, d: nat): (r: Time) {
    (a + d) % WRAP
  }

  datatype Entry = Entry(id: Id, time: Time)

  // ---------------------------------------------------------------- order within half the range

  /** The distance of a time from the start of the window in use. */
  function Rank(base: Time, t: Time): (r: nat) {
    (t - base) % WRAP
  }

  predicate InWindow(base: Time, t: Time) {
    Rank(base, t) < HALF
  }

  lemma WrapUnique(n: int, k: int, r: int)
    requires n == WRAP * k + r && 0 <= r < WRAP
    ensures n % WRAP == r
  {
  }

  lemma Split(n: int) returns (k: int)
    ensures n == WRAP * k + n % WRAP && 0 <= n % WRAP < WRAP
  {
    k := n / WRAP;
  }

  /** Within a window of half the range the comparisons agree with the true order. */
  lemma TimesOrdered(base: Time, a: Time, b: Time)
    requires InWindow(base, a) && InWindow(base, b)
    ensures TimeGt(a, b) <==> Rank(base, a) > Rank(base, b)
    ensures TimeLt(a, b) <==> Rank(base, a) < Rank(base, b)
    ensures Rank(base, a) == Rank(base, b) ==> a == b
  {
    var ra, rb := Rank(base, a), Rank(base, b);
    var ka := Split(a - base);
    var kb := Split(b - base);
    assert a - b == WRAP * (ka - kb) + (ra - rb);
    if ra >= rb {
      WrapUnique(a - b, ka - kb, ra - rb);
    } else {
      WrapUnique(a - b, ka - kb - 1, ra - rb + WRAP);
    }
  }

  lemma PlusRank(base: Time, a: Time, d: nat)
    requires Rank(base, a) + d < HALF
    ensures Rank(base, Plus(a, d)) == Rank(base, a) + d
  {
    var ka := Split(a - base);
    var kd := Split(a + d);
    assert Plus(a, d) - base == WRAP * (ka - kd) + (Rank(base, a) + d);
    WrapUnique(Plus(a, d) - base, ka - kd, Rank(base, a) + d);
  }

  /** A timer set d ticks ahead is held back by timer_tick exactly when d reaches no further than half the range:
      set for longer it counts as due at once. */
  lemma HeldBackIff(now: Time, d: nat)
    requires d < WRAP
    ensures TimeLt(now, Plus(now, d)) <==> 1 <= d <= HALF
  {
    var k := Split(now + d);
    assert now - Plus(now, d) == WRAP * k - d;
    if d == 0 {
      WrapUnique(now - Plus(now, d), k, 0);
    } else {
      WrapUnique(now - Plus(now, d), k - 1, WRAP - d);
    }
  }

  // ---------------------------------------------------------------- insertion

  ghost predicate Sorted(base: Time, q: seq<Entry>) {
    forall i, j | 0 <= i < j < |q| :: Rank(base, q[i].time) <= Rank(base, q[j].time)
  }

  ghost predicate Windowed(base: Time, q: seq<Entry>) {
    forall i | 0 <= i < |q| :: InWindow(base, q[i].time)
  }

  /** Before the first entry that is due later. */
  function Inserted(q: seq<Entry>, e: Entry): (r: seq<Entry>) {
    if q == [] then [e]
    else if TimeGt(q[0].time, e.time) then [e] + q
    else [q[0]] + Inserted(q[1..], e)
  }

  lemma {:induction false} InsertedSorted(base: Time, q: seq<Entry>, e: Entry)
    requires Sorted(base, q) && Windowed(base, q) && InWindow(base, e.time)
    ensures Sorted(base, Inserted(q, e)) && Windowed(base, Inserted(q, e))
    ensures q != [] ==> Inserted(q, e)[0] == q[0] || Inserted(q, e)[0] == e
  {
    hide Rank, TimeGt;
    if q != [] {
      TimesOrdered(base, q[0].time, e.time);
      if !TimeGt(q[0].time, e.time) {
        InsertedSorted(base, q[1..], e);
        SortedCons(base, q[0], Inserted(q[1..], e));
      } else {
        SortedCons(base, e, q);
      }
    }
  }

  /** Nothing is lost or made up. */
  lemma {:induction false} InsertedAll(q: seq<Entry>, e: Entry)
    ensures multiset(Inserted(q, e)) == multiset(q) + multiset{e}
  {
    if q != [] {
      assert q == [q[0]] + q[1..];
      if !TimeGt(q[0].time, e.time) {
        InsertedAll(q[1..], e);
      }
    }
  }

  lemma SortedCons(base: Time, e: Entry, q: seq<Entry>)
    requires Sorted(base, q) && (q != [] ==> Rank(base, e.time) <= Rank(base, q[0].time))
    ensures Sorted(base, [e] + q)
  {
    hide Rank;
  }

  /** The entries for one time, in queue order. */
  function AtTime(q: seq<Entry>, t: Time): (r: seq<Entry>) {
    if q == [] then [] else (if q[0].time == t then [q[0]] else []) + AtTime(q[1..], t)
  }

  lemma {:induction false} AtTimeLater(base: Time, q: seq<Entry>, t: Time)
    requires Windowed(base, q) && Sorted(base, q) && (q != [] ==> Rank(base, q[0].time) > Rank(base, t))
    ensures AtTime(q, t) == []
  {
    hide Rank;
    if q != [] {
      AtTimeLater(base, q[1..], t);
    }
  }

  /** A new timer goes behind those already set for the same time. */
  lemma {:induction false} InsertedLast(base: Time, q: seq<Entry>, e: Entry, t: Time)
    requires Sorted(base, q) && Windowed(base, q) && InWindow(base, e.time)
    ensures AtTime(Inserted(q, e), t) == AtTime(q, t) + (if e.time == t then [e] else [])
  {
    hide Rank, TimeGt;
    if q != [] {
      TimesOrdered(base, q[0].time, e.time);
      if TimeGt(q[0].time, e.time) {
        assert ([e] + q)[1..] == q;
        if e.time == t {
          AtTimeLater(base, q, t);
        }
      } else {
        InsertedLast(base, q[1..], e, t);
        assert ([q[0]] + Inserted(q[1..], e))[1..] == Inserted(q[1..], e);
      }
    }
  }

  // ---------------------------------------------------------------- all queues

  /** `period` is the periodic_time of each timer: zero for a one-shot or cancelled one. */
  datatype State = State(queues: seq<seq<Entry>>, period: map<Id, nat>)

  predicate Has(q: seq<Entry>, id: Id) {
    exists i | 0 <= i < |q| :: q[i].id == id
  }

  /** list_in_list: the timer is in the queue of some processor. */
  predicate Pending(s: State, id: Id) {
    exists c | 0 <= c < |s.queues| :: Has(s.queues[c], id)
  }

  function RemoveId(q: seq<Entry>, id: Id): (r: seq<Entry>)
    ensures forall e :: e in r <==> e in q && e.id != id
  {
    if q == [] then [] else (if q[0].id == id then [] else [q[0]]) + RemoveId(q[1..], id)
  }

  lemma {:induction false} RemoveAbsent(q: seq<Entry>, id: Id)
    requires !Has(q, id)
    ensures RemoveId(q, id) == q
  {
    if q != [] {
      assert q[0].id != id;
      assert forall i | 0 <= i < |q[1..]| :: q[1..][i].id == q[i + 1].id;
      RemoveAbsent(q[1..], id);
    }
  }

  /** What callbacks and other processors may do while a tick has dropped the lock. Setting a timer that is already
      pending is a panic; here it does nothing. */
  datatype Op =
    | Set(c: nat, id: Id, time: Time, period: nat)
    | Cancel(id: Id)
    | Fired(c: nat)       // another processor has taken the head of its own queue

  function Insert(s: State, c: nat, e: Entry): (s2: State)
    requires c < |s.queues|
  {
    s.(queues := s.queues[c := Inserted(s.queues[c], e)])
  }

  function Cancelled(s: State, id: Id): (s2: State) {
    State(seq(|s.queues|, c requires 0 <= c < |s.queues| => RemoveId(s.queues[c], id)), s.period[id := 0])
  }

  function Apply(s: State, op: Op): (s2: State)
    ensures |s2.queues| == |s.queues|
  {
    match op
    case Set(c, id, time, period) =>
      if c < |s.queues| && !Pending(s, id) then Insert(s, c, Entry(id, time)).(period := s.period[id := period]) else s
    case Cancel(id) => Cancelled(s, id)
    case Fired(c) => if c < |s.queues| && s.queues[c] != [] then s.(queues := s.queues[c := s.queues[c][1..]]) else s
  }

  function ApplyAll(s: State, ops: seq<Op>): (s2: State)
    ensures |s2.queues| == |s.queues|
    decreases |ops|
  {
    if ops == [] then s else ApplyAll(Apply(s, ops[0]), ops[1..])
  }

  ghost predicate Distinct(q: seq<Entry>) {
    forall i, j | 0 <= i < j < |q| :: q[i].id != q[j].id
  }

  /** No timer is in two places. */
  ghost predicate Unique(s: State) {
    && (forall c | 0 <= c < |s.queues| :: Distinct(s.queues[c]))
    && (forall c, d, id | 0 <= c < |s.queues| && 0 <= d < |s.queues| ::
          Has(s.queues[c], id) && Has(s.queues[d], id) ==> c == d)
  }

  /** Every queue is in order and every time in the window; no timer is queued twice; periods reach no further than the
      window. */
  ghost predicate Timed(base: Time, now: Time, s: State) {
    && InWindow(base, now) && Unique(s)
    && (forall c | 0 <= c < |s.queues| :: Sorted(base, s.queues[c]) && Windowed(base, s.queues[c]))
    && (forall id | id in s.period :: Rank(base, now) + s.period[id] < HALF)
  }

  /** What is set during a tick of processor cpu lies in the window, and on that processor in the future. */
  ghost predicate OpOk(base: Time, now: Time, cpu: nat, op: Op) {
    match op
    case Set(c, _, time, period) =>
      InWindow(base, time) && Rank(base, now) + period < HALF && (c == cpu ==> Rank(base, time) > Rank(base, now))
    case Cancel(_) => true
    case Fired(c) => c != cpu
  }

  lemma HeadFirst(base: Time, q: seq<Entry>)
    requires Sorted(base, q) && Windowed(base, q) && q != []
    ensures Sorted(base, q[1..]) && Windowed(base, q[1..])
    ensures forall e | e in q[1..] :: Rank(base, q[0].time) <= Rank(base, e.time)
  {
    hide Rank;
  }

  lemma WindowedCons(base: Time, e: Entry, q: seq<Entry>)
    requires Windowed(base, q) && InWindow(base, e.time)
    ensures Windowed(base, [e] + q)
  {
  }

  lemma {:induction false} RemovedSorted(base: Time, q: seq<Entry>, id: Id)
    requires Sorted(base, q) && Windowed(base, q)
    ensures Sorted(base, RemoveId(q, id)) && Windowed(base, RemoveId(q, id))
  {
    hide Rank, Sorted, Windowed;
    if q != [] {
      HeadFirst(base, q);
      RemovedSorted(base, q[1..], id);
      var r := RemoveId(q[1..], id);
      if q[0].id == id {
        assert [] + r == r;
      } else {
        assert r != [] ==> r[0] in r;
        SortedCons(base, q[0], r);
        WindowHead(base, q);
        WindowedCons(base, q[0], r);
      }
    }
  }

  lemma WindowHead(base: Time, q: seq<Entry>)
    requires Windowed(base, q) && q != []
    ensures InWindow(base, q[0].time)
  {
  }

  lemma HasCons(e: Entry, q: seq<Entry>, id: Id)
    ensures Has([e] + q, id) <==> e.id == id || Has(q, id)
    ensures Distinct([e] + q) <==> !Has(q, e.id) && Distinct(q)
  {
    var r := [e] + q;
    assert r[0] == e && r[1..] == q && forall i | 0 <= i < |q| :: r[i + 1] == q[i];
    if Has(q, id) {
      var i :| 0 <= i < |q| && q[i].id == id;
      assert r[i + 1].id == id;
    }
  }

  lemma {:induction false} InsertedDistinct(q: seq<Entry>, e: Entry, id: Id)
    ensures Has(Inserted(q, e), id) <==> e.id == id || Has(q, id)
    ensures Distinct(q) && !Has(q, e.id) ==> Distinct(Inserted(q, e))
  {
    hide Has, Distinct;
    if q == [] {
      HasNone(id);
      HasNone(e.id);
      HasCons(e, q, id);
      assert [e] + q == [e];
    } else if TimeGt(q[0].time, e.time) {
      HasCons(e, q, id);
    } else {
      assert q == [q[0]] + q[1..];
      HasCons(q[0], q[1..], id);
      HasCons(q[0], q[1..], e.id);
      InsertedDistinct(q[1..], e, id);
      InsertedDistinct(q[1..], e, q[0].id);
      HasCons(q[0], Inserted(q[1..], e), id);
    }
  }

  lemma {:induction false} RemovedDistinct(q: seq<Entry>, id: Id, x: Id)
    ensures Has(RemoveId(q, id), x) <==> x != id && Has(q, x)
    ensures Distinct(q) ==> Distinct(RemoveId(q, id))
  {
    hide Has, Distinct;
    if q == [] {
      HasNone(x);
    } else {
      var r := RemoveId(q[1..], id);
      assert q == [q[0]] + q[1..] && [] + r == r;
      HasCons(q[0], q[1..], x);
      HasCons(q[0], r, x);
      RemovedDistinct(q[1..], id, x);
      RemovedDistinct(q[1..], id, q[0].id);
    }
  }

  lemma HasNone(id: Id)
    ensures !Has([], id) && Distinct([])
  {
  }

  /** One queue may take in timers that are in no queue. */
  lemma UniqueUpdate(s: State, c: nat, q: seq<Entry>)
    requires Unique(s) && c < |s.queues| && Distinct(q)
    requires forall id | Has(q, id) :: Has(s.queues[c], id) || !Pending(s, id)
    ensures Unique(s.(queues := s.queues[c := q]))
  {
    hide Has, Distinct;
  }

  lemma PoppedUnique(s: State, c: nat)
    requires Unique(s) && c < |s.queues| && s.queues[c] != []
    ensures Unique(s.(queues := s.queues[c := s.queues[c][1..]]))
  {
    hide Has, Distinct, Unique, Pending;
    var q := s.queues[c];
    assert q == [q[0]] + q[1..];
    HasCons(q[0], q[1..], q[0].id);
    DistinctAt(s, c);
    forall id | Has(q[1..], id) ensures Has(q, id) {
      HasCons(q[0], q[1..], id);
    }
    UniqueUpdate(s, c, q[1..]);
  }

  lemma DistinctAt(s: State, c: nat)
    requires Unique(s) && c < |s.queues|
    ensures Distinct(s.queues[c])
  {
  }

  lemma InsertUnique(s: State, c: nat, e: Entry)
    requires Unique(s) && c < |s.queues| && !Pending(s, e.id)
    ensures Unique(Insert(s, c, e))
  {
    hide Has, Distinct, Unique, Inserted;
    var q := s.queues[c];
    DistinctAt(s, c);
    InsertedDistinct(q, e, e.id);
    forall id | Has(Inserted(q, e), id) ensures Has(q, id) || !Pending(s, id) {
      InsertedDistinct(q, e, id);
    }
    UniqueUpdate(s, c, Inserted(q, e));
  }

  lemma CancelledUnique(s: State, id: Id)
    requires Unique(s)
    ensures Unique(Cancelled(s, id))
  {
    hide Has, Distinct, RemoveId;
    var t := Cancelled(s, id);
    assert forall c | 0 <= c < |s.queues| :: t.queues[c] == RemoveId(s.queues[c], id);
    forall c | 0 <= c < |s.queues| ensures Distinct(t.queues[c]) {
      RemovedDistinct(s.queues[c], id, id);
    }
    forall c, x | 0 <= c < |s.queues| && Has(t.queues[c], x) ensures Has(s.queues[c], x) {
      RemovedDistinct(s.queues[c], id, x);
    }
  }

  lemma ApplyUnique(s: State, op: Op)
    requires Unique(s)
    ensures Unique(Apply(s, op))
  {
    hide Pending, Inserted, Cancelled;
    match op
    case Set(c, id, time, period) =>
      if c < |s.queues| && !Pending(s, id) {
        InsertUnique(s, c, Entry(id, time));
      }
    case Cancel(id) => CancelledUnique(s, id);
    case Fired(c) =>
      if c < |s.queues| && s.queues[c] != [] {
        PoppedUnique(s, c);
      }
  }

  lemma ApplyTimed(base: Time, now: Time, cpu: nat, s: State, op: Op)
    requires Timed(base, now, s) && OpOk(base, now, cpu, op)
    ensures Timed(base, now, Apply(s, op))
  {
    hide Rank, Pending, Unique;
    ApplyUnique(s, op);
    match op
    case Set(c, id, time, period) =>
      if c < |s.queues| {
        InsertedSorted(base, s.queues[c], Entry(id, time));
      }
    case Cancel(id) =>
      forall c | 0 <= c < |s.queues|
        ensures Sorted(base, RemoveId(s.queues[c], id)) && Windowed(base, RemoveId(s.queues[c], id))
      {
        RemovedSorted(base, s.queues[c], id);
      }
    case Fired(c) =>
  }

  // ---------------------------------------------------------------- what a tick fires

  predicate IsDue(base: Time, now: Time, e: Entry) {
    Rank(base, e.time) <= Rank(base, now)
  }

  ghost function Due(base: Time, now: Time, q: seq<Entry>): (r: seq<Id>) {
    if q == [] then [] else (if IsDue(base, now, q[0]) then [q[0].id] else []) + Due(base, now, q[1..])
  }

  function Minus(d: seq<Id>, gone: set<Id>): (r: seq<Id>)
    ensures |r| <= |d| && (forall x :: x in r <==> x in d && x !in gone)
  {
    if d == [] then [] else (if d[0] in gone then [] else [d[0]]) + Minus(d[1..], gone)
  }

  function CancelledIn(ops: seq<Op>): (r: set<Id>) {
    set op | op in ops && op.Cancel? :: op.id
  }

  function OpsOf(script: seq<seq<Op>>, i: nat): (r: seq<Op>) {
    if i < |script| then script[i] else []
  }

  /** Which of the due timers fire when the i-th callback comes with the i-th batch of operations: each in turn,
      except those cancelled before their turn. */
  function Fires(due: seq<Id>, script: seq<seq<Op>>, i: nat): (r: seq<Id>)
    decreases |due|
  {
    if due == [] then []
    else [due[0]] + Fires(Minus(due[1..], CancelledIn(OpsOf(script, i))), script, i + 1)
  }

  lemma {:induction false} DueInserted(base: Time, now: Time, q: seq<Entry>, e: Entry)
    requires !IsDue(base, now, e)
    ensures Due(base, now, Inserted(q, e)) == Due(base, now, q)
  {
    hide Rank, TimeGt;
    if q != [] {
      if TimeGt(q[0].time, e.time) {
        assert ([e] + q)[1..] == q;
      } else {
        DueInserted(base, now, q[1..], e);
        assert ([q[0]] + Inserted(q[1..], e))[1..] == Inserted(q[1..], e);
      }
    } else {
      assert [e][1..] == [];
    }
  }

  lemma {:induction false} DueRemoved(base: Time, now: Time, q: seq<Entry>, id: Id)
    ensures Due(base, now, RemoveId(q, id)) == Minus(Due(base, now, q), {id})
  {
    hide IsDue, Has;
    if q != [] {
      DueRemoved(base, now, q[1..], id);
      var r := RemoveId(q[1..], id);
      var d := Due(base, now, q[1..]);
      DueCons(base, now, q[0], r);
      MinusCons(q[0].id, d, {id});
      assert [] + r == r && [] + d == d;
    }
  }

  lemma DueCons(base: Time, now: Time, e: Entry, q: seq<Entry>)
    ensures Due(base, now, [e] + q) == (if IsDue(base, now, e) then [e.id] else []) + Due(base, now, q)
  {
    assert ([e] + q)[1..] == q;
  }

  lemma MinusCons(x: Id, d: seq<Id>, gone: set<Id>)
    ensures Minus([x] + d, gone) == (if x in gone then [] else [x]) + Minus(d, gone)
  {
    assert ([x] + d)[1..] == d;
  }

  lemma {:induction false} MinusNone(d: seq<Id>)
    ensures Minus(d, {}) == d
  {
    if d != [] {
      MinusNone(d[1..]);
    }
  }

  lemma {:induction false} MinusTwice(d: seq<Id>, a: set<Id>, b: set<Id>)
    ensures Minus(Minus(d, a), b) == Minus(d, a + b)
  {
    if d != [] {
      MinusTwice(d[1..], a, b);
      var r := Minus(d[1..], a);
      assert ([d[0]] + r)[1..] == r && [] + r == r;
    }
  }

  lemma DueApplied(base: Time, now: Time, cpu: nat, s: State, op: Op)
    requires cpu < |s.queues| && OpOk(base, now, cpu, op)
    ensures Due(base, now, Apply(s, op).queues[cpu]) == Minus(Due(base, now, s.queues[cpu]), CancelledIn([op]))
  {
    hide Rank, Pending, Due, Inserted, RemoveId;
    match op
    case Set(c, id, time, period) =>
      assert CancelledIn([op]) == {};
      MinusNone(Due(base, now, s.queues[cpu]));
      if c == cpu {
        assert !IsDue(base, now, Entry(id, time));
        DueInserted(base, now, s.queues[cpu], Entry(id, time));
      }
    case Cancel(id) =>
      assert CancelledIn([op]) == {id} by { assert op in [op]; }
      DueRemoved(base, now, s.queues[cpu], id);
    case Fired(c) =>
      assert CancelledIn([op]) == {};
      MinusNone(Due(base, now, s.queues[cpu]));
  }

  /** The due timers after a batch of operations are those before it, less the cancelled ones. */
  lemma {:induction false} DueAppliedAll(base: Time, now: Time, cpu: nat, s: State, ops: seq<Op>)
    requires cpu < |s.queues| && Timed(base, now, s) && forall op | op in ops :: OpOk(base, now, cpu, op)
    ensures Timed(base, now, ApplyAll(s, ops))
    ensures Due(base, now, ApplyAll(s, ops).queues[cpu]) == Minus(Due(base, now, s.queues[cpu]), CancelledIn(ops))
    decreases |ops|
  {
    hide Due, Timed, OpOk, Apply;
    if ops == [] {
      assert CancelledIn(ops) == {};
      MinusNone(Due(base, now, s.queues[cpu]));
    } else {
      var s1 := Apply(s, ops[0]);
      ApplyTimed(base, now, cpu, s, ops[0]);
      DueApplied(base, now, cpu, s, ops[0]);
      DueAppliedAll(base, now, cpu, s1, ops[1..]);
      assert ops == [ops[0]] + ops[1..];
      assert CancelledIn(ops) == CancelledIn([ops[0]]) + CancelledIn(ops[1..]);
      MinusTwice(Due(base, now, s.queues[cpu]), CancelledIn([ops[0]]), CancelledIn(ops[1..]));
    }
  }

  // ---------------------------------------------------------------- which timers those are

  predicate NoDup(d: seq<Id>) {
    forall i, j | 0 <= i < j < |d| :: d[i] != d[j]
  }

  /** The first sequence is the second with some elements left out. */
  predicate Within(a: seq<Id>, b: seq<Id>) {
    if a == [] then true
    else if b == [] then false
    else (a[0] == b[0] && Within(a[1..], b[1..])) || Within(a, b[1..])
  }

  lemma {:induction false} WithinTrans(a: seq<Id>, b: seq<Id>, c: seq<Id>)
    requires Within(a, b) && Within(b, c)
    ensures Within(a, c)
    decreases |c|
  {
    if a != [] && c != [] {
      if Within(b, c[1..]) {
        WithinTrans(a, b, c[1..]);
      } else if Within(a, b[1..]) {
        WithinTrans(a, b[1..], c[1..]);
      } else {
        WithinTrans(a[1..], b[1..], c[1..]);
      }
    }
  }

  lemma {:induction false} MinusWithin(d: seq<Id>, gone: set<Id>)
    ensures Within(Minus(d, gone), d)
  {
    if d != [] {
      MinusWithin(d[1..], gone);
      var r := Minus(d[1..], gone);
      assert ([d[0]] + r)[1..] == r && [] + r == r;
    }
  }

  lemma {:induction false} MinusNoDup(d: seq<Id>, gone: set<Id>)
    requires NoDup(d)
    ensures NoDup(Minus(d, gone))
  {
    if d != [] {
      assert d[0] !in d[1..];
      MinusNoDup(d[1..], gone);
    }
  }

  /** In d, y comes before x. */
  predicate Before(d: seq<Id>, y: Id, x: Id) {
    d != [] && if d[0] == y then x in d[1..] else Before(d[1..], y, x)
  }

  lemma {:induction false} BeforeKept(d: seq<Id>, gone: set<Id>, y: Id, x: Id)
    requires x !in gone && y !in gone
    ensures Before(Minus(d, gone), y, x) <==> Before(d, y, x)
  {
    if d != [] {
      BeforeKept(d[1..], gone, y, x);
      var r := Minus(d[1..], gone);
      assert ([d[0]] + r)[1..] == r && [] + r == r;
    }
  }

  lemma {:induction false} BeforeIn(d: seq<Id>, y: Id, x: Id)
    requires Before(d, y, x)
    ensures x in d[1..]
  {
    if d[0] != y {
      BeforeIn(d[1..], y, x);
      assert x in d[1..][1..];
    }
  }

  /** In order and at most once each, those due timers have fired that no callback fired before them came with a
      cancellation of. */
  ghost predicate FiredExactly(due: seq<Id>, fired: seq<Id>, script: seq<seq<Op>>, i: nat) {
    && NoDup(fired) && Within(fired, due)
    && forall x :: x in fired <==> x in due && Spared(due, fired, script, i, x)
  }

  lemma {:induction false} FiresExactly(due: seq<Id>, script: seq<seq<Op>>, i: nat)
    requires NoDup(due)
    ensures FiredExactly(due, Fires(due, script, i), script, i)
    decreases |due|
  {
    hide Before, CancelledIn, OpsOf;
    if due != [] {
      var gone := CancelledIn(OpsOf(script, i));
      var rest := Minus(due[1..], gone);
      assert due[0] !in due[1..];
      MinusNoDup(due[1..], gone);
      MinusWithin(due[1..], gone);
      FiresExactly(rest, script, i + 1);
      var f := Fires(rest, script, i + 1);
      WithinTrans(f, rest, due[1..]);
      assert ([due[0]] + f)[1..] == f;
      assert forall y :: y in f ==> y in rest;
      forall x ensures x in [due[0]] + f <==> x in due && Spared(due, [due[0]] + f, script, i, x) {
        if x != due[0] {
          SparedNext(due, f, script, i, x);
        } else {
          SparedFirst(due, [due[0]] + f, script, i);
        }
      }
    }
  }

  /** None of the callbacks fired before x has come with a cancellation of x. */
  predicate Spared(due: seq<Id>, fired: seq<Id>, script: seq<seq<Op>>, i: nat, x: Id) {
    forall j | 0 <= j < |fired| && Before(due, fired[j], x) :: x !in CancelledIn(OpsOf(script, i + j))
  }

  lemma SparedFirst(due: seq<Id>, fired: seq<Id>, script: seq<seq<Op>>, i: nat)
    requires due != [] && due[0] !in due[1..]
    ensures Spared(due, fired, script, i, due[0])
  {
    hide CancelledIn, OpsOf;
    forall j | 0 <= j < |fired| ensures !Before(due, fired[j], due[0]) {
      if Before(due, fired[j], due[0]) {
        BeforeIn(due, fired[j], due[0]);
      }
    }
  }

  lemma SparedNext(due: seq<Id>, f: seq<Id>, script: seq<seq<Op>>, i: nat, x: Id)
    requires due != [] && due[0] !in due[1..] && x != due[0]
    requires
      var rest := Minus(due[1..], CancelledIn(OpsOf(script, i)));
      && (forall y :: y in f ==> y in rest)
      && (x in f <==> x in rest && Spared(rest, f, script, i + 1, x))
    ensures x in f <==> x in due && Spared(due, [due[0]] + f, script, i, x)
  {
    hide CancelledIn, OpsOf;
    var gone := CancelledIn(OpsOf(script, i));
    var rest := Minus(due[1..], gone);
    var g := [due[0]] + f;
    assert x in due <==> x in due[1..];
    if x in due && x !in gone {
      forall j | 0 <= j < |f|
        ensures Before(due, g[j + 1], x) <==> Before(rest, f[j], x)
        ensures OpsOf(script, i + (j + 1)) == OpsOf(script, i + 1 + j)
      {
        assert g[j + 1] == f[j] && f[j] in f && i + (j + 1) == i + 1 + j;
        BeforeKept(due[1..], gone, f[j], x);
      }
      if Spared(rest, f, script, i + 1, x) {
        SparedCons(due, f, rest, script, i, x);
      } else {
        var j :| 0 <= j < |f| && Before(rest, f[j], x) && x in CancelledIn(OpsOf(script, i + 1 + j));
        assert Before(due, g[j + 1], x) && x in CancelledIn(OpsOf(script, i + (j + 1)));
      }
    } else if x in due {
      assert Before(due, g[0], x) && x in CancelledIn(OpsOf(script, i + 0));
    }
  }

  lemma SparedCons(due: seq<Id>, f: seq<Id>, rest: seq<Id>, script: seq<seq<Op>>, i: nat, x: Id)
    requires due != [] && Spared(rest, f, script, i + 1, x) && x !in CancelledIn(OpsOf(script, i))
    requires
      var g := [due[0]] + f;
      forall j | 0 <= j < |f| :: Before(due, g[j + 1], x) <==> Before(rest, f[j], x)
    ensures Spared(due, [due[0]] + f, script, i, x)
  {
    hide CancelledIn, OpsOf, Before;
    var g := [due[0]] + f;
    forall j | 0 <= j < |g| && Before(due, g[j], x) ensures x !in CancelledIn(OpsOf(script, i + j)) {
      if j > 0 {
        var k := j - 1;
        assert g[k + 1] == f[k] && i + j == i + 1 + k;
      }
    }
  }

  /** A queue without doubles has no timer due twice. */
  lemma {:induction false} DueNoDup(base: Time, now: Time, q: seq<Entry>)
    requires Distinct(q)
    ensures NoDup(Due(base, now, q))
    ensures forall id | id in Due(base, now, q) :: Has(q, id)
  {
    hide Has, Distinct, IsDue;
    if q != [] {
      assert q == [q[0]] + q[1..];
      HasCons(q[0], q[1..], q[0].id);
      DueNoDup(base, now, q[1..]);
      forall id | Has(q[1..], id) || id == q[0].id ensures Has(q, id) {
        HasCons(q[0], q[1..], id);
      }
    }
  }

  // ---------------------------------------------------------------- what a tick leaves in the queues

  predicate Periodic(s: State, id: Id) {
    id in s.period && s.period[id] > 0
  }

  /** The timer that would fire next: the head of the queue, if its time has come. */
  predicate Ripe(s: State, cpu: nat, now: Time)
    requires cpu < |s.queues|
  {
    s.queues[cpu] != [] && !TimeLt(now, s.queues[cpu][0].time)
  }

  function Popped(s: State, cpu: nat): (s2: State)
    requires cpu < |s.queues| && s.queues[cpu] != []
  {
    s.(queues := s.queues[cpu := s.queues[cpu][1..]])
  }

  /** A timer that was periodic before its callback goes back, unless it is queued again or no longer periodic. */
  function Requeue(s: State, cpu: nat, now: Time, id: Id, periodic: bool): (s2: State)
    requires cpu < |s.queues|
  {
    if periodic && !Pending(s, id) && Periodic(s, id) then Insert(s, cpu, Entry(id, Plus(now, s.period[id]))) else s
  }

  /** One timer fired, with what happens during its callback. */
  function Round(s: State, cpu: nat, now: Time, ops: seq<Op>): (s2: State)
    requires cpu < |s.queues|
    ensures |s2.queues| == |s.queues|
  {
    if !Ripe(s, cpu, now) then s
    else
      var id := s.queues[cpu][0].id;
      Requeue(ApplyAll(Popped(s, cpu), ops), cpu, now, id, Periodic(s, id))
  }

  function Rounds(s: State, cpu: nat, now: Time, script: seq<seq<Op>>, n: nat): (s2: State)
    requires cpu < |s.queues|
    ensures |s2.queues| == |s.queues|
    decreases n
  {
    if n == 0 then s else Round(Rounds(s, cpu, now, script, n - 1), cpu, now, OpsOf(script, n - 1))
  }

  /** Each round fires the timer that is at the head by then. */
  predicate Heads(s: State, cpu: nat, now: Time, script: seq<seq<Op>>, fired: seq<Id>)
    requires cpu < |s.queues|
  {
    forall j | 0 <= j < |fired| ::
      var r := Rounds(s, cpu, now, script, j);
      Ripe(r, cpu, now) && r.queues[cpu][0].id == fired[j]
  }

  lemma HeadsMore(s: State, cpu: nat, now: Time, script: seq<seq<Op>>, fired: seq<Id>)
    requires cpu < |s.queues| && Heads(s, cpu, now, script, fired)
    ensures
      var r := Rounds(s, cpu, now, script, |fired|);
      Ripe(r, cpu, now) ==> Heads(s, cpu, now, script, fired + [r.queues[cpu][0].id])
  {
    hide Rounds, Ripe;
  }

  lemma {:induction false} InsertedIn(q: seq<Entry>, e: Entry, x: Entry)
    ensures x in Inserted(q, e) <==> x == e || x in q
  {
    InsertedAll(q, e);
    assert x in Inserted(q, e) <==> x in multiset(Inserted(q, e));
    assert x in q <==> x in multiset(q);
  }

  /** Neither cancelled nor fired by its own processor. */
  predicate Untouched(ops: seq<Op>, c: nat, id: Id) {
    forall op | op in ops :: op != Cancel(id) && op != Fired(c)
  }

  lemma {:induction false} OpsKeep(s: State, ops: seq<Op>, c: nat, e: Entry)
    requires c < |s.queues| && e in s.queues[c] && Untouched(ops, c, e.id)
    ensures e in ApplyAll(s, ops).queues[c]
    decreases |ops|
  {
    hide Inserted, Pending;
    if ops != [] {
      var op := ops[0];
      assert op in ops && forall x | x in ops[1..] :: x in ops;
      if op.Set? && op.c == c {
        InsertedIn(s.queues[c], Entry(op.id, op.time), e);
      }
      OpsKeep(Apply(s, op), ops[1..], c, e);
    }
  }

  /** A round loses no timer but the one it fires. */
  lemma RoundKeeps(s: State, cpu: nat, now: Time, ops: seq<Op>, c: nat, e: Entry)
    requires cpu < |s.queues| && c < |s.queues| && e in s.queues[c] && Untouched(ops, c, e.id)
    requires c == cpu ==> TimeLt(now, e.time)
    ensures e in Round(s, cpu, now, ops).queues[c]
  {
    hide TimeLt, Pending, ApplyAll, Untouched, Inserted;
    if Ripe(s, cpu, now) {
      var id := s.queues[cpu][0].id;
      var s1 := Popped(s, cpu);
      assert e in s1.queues[c];
      OpsKeep(s1, ops, c, e);
      var s2 := ApplyAll(s1, ops);
      if Periodic(s2, id) {
        InsertedIn(s2.queues[cpu], Entry(id, Plus(now, s2.period[id])), e);
      }
    }
  }

  /** A timer that is not due, in the queue after k rounds, is still there after n, unless it is cancelled meanwhile or
      fires on its own processor. */
  lemma {:induction false} RoundsKeep(s: State, cpu: nat, now: Time, script: seq<seq<Op>>, k: nat, n: nat, c: nat,
                                      e: Entry)
    requires cpu < |s.queues| && c < |s.queues| && k <= n && e in Rounds(s, cpu, now, script, k).queues[c]
    requires c == cpu ==> TimeLt(now, e.time)
    requires forall j | k <= j < n :: Untouched(OpsOf(script, j), c, e.id)
    ensures e in Rounds(s, cpu, now, script, n).queues[c]
    decreases n
  {
    hide TimeLt, Round, Untouched;
    if k < n {
      RoundsKeep(s, cpu, now, script, k, n - 1, c, e);
      RoundKeeps(Rounds(s, cpu, now, script, n - 1), cpu, now, OpsOf(script, n - 1), c, e);
    }
  }

  /** A timer set by the m-th operation of a callback is in its queue after that round. */
  lemma {:induction false} SetStays(s: State, ops: seq<Op>, m: nat, c: nat, id: Id, time: Time, per: nat)
    requires c < |s.queues| && m < |ops| && ops[m] == Set(c, id, time, per)
    requires !Pending(ApplyAll(s, ops[..m]), id) && Untouched(ops[m + 1..], c, id)
    ensures Entry(id, time) in ApplyAll(s, ops).queues[c]
    decreases m
  {
    hide Inserted, Pending, Apply;
    if m == 0 {
      assert ops[..m] == [];
      SetHere(s, c, id, time, per);
      OpsKeep(Apply(s, ops[0]), ops[1..], c, Entry(id, time));
    } else {
      assert ops[1..][..m - 1] == ops[..m][1..] && ops[1..][m..] == ops[m + 1..];
      SetStays(Apply(s, ops[0]), ops[1..], m - 1, c, id, time, per);
    }
  }

  lemma SetHere(s: State, c: nat, id: Id, time: Time, per: nat)
    requires c < |s.queues| && !Pending(s, id)
    ensures Entry(id, time) in Apply(s, Set(c, id, time, per)).queues[c]
  {
    InsertedIn(s.queues[c], Entry(id, time), Entry(id, time));
  }

  /** timer_set: the timer is queued for its time with its period, and nothing else changes. */
  lemma SetDoes(s: State, c: nat, id: Id, time: Time, per: nat)
    requires c < |s.queues| && !Pending(s, id)
    ensures
      var s2 := Apply(s, Set(c, id, time, per));
      && |s2.queues| == |s.queues| && multiset(s2.queues[c]) == multiset(s.queues[c]) + multiset{Entry(id, time)}
      && (forall d | 0 <= d < |s.queues| && d != c :: s2.queues[d] == s.queues[d])
      && s2.period.Keys == s.period.Keys + {id} && s2.period[id] == per
      && forall x | x in s.period && x != id :: s2.period[x] == s.period[x]
  {
    InsertedAll(s.queues[c], Entry(id, time));
  }

  /** A timer that fires on another processor leaves the head of its queue there, and nothing else changes. */
  lemma FiredDoes(s: State, c: nat)
    requires c < |s.queues| && s.queues[c] != []
    ensures
      var s2 := Apply(s, Fired(c));
      && |s2.queues| == |s.queues| && s.queues[c] == [s.queues[c][0]] + s2.queues[c] && s2.period == s.period
      && forall d | 0 <= d < |s.queues| && d != c :: s2.queues[d] == s.queues[d]
  {
  }

  /** A periodic timer that its callback leaves alone is back for one period later. */
  lemma PeriodicReturns(s: State, cpu: nat, now: Time, ops: seq<Op>)
    requires cpu < |s.queues| && Ripe(s, cpu, now)
    requires
      var id := s.queues[cpu][0].id;
      var s2 := ApplyAll(Popped(s, cpu), ops);
      Periodic(s, id) && !Pending(s2, id) && Periodic(s2, id)
    ensures
      var id := s.queues[cpu][0].id;
      Entry(id, Plus(now, ApplyAll(Popped(s, cpu), ops).period[id])) in Round(s, cpu, now, ops).queues[cpu]
  {
    hide Pending, ApplyAll, Inserted, TimeLt;
    var id := s.queues[cpu][0].id;
    var s2 := ApplyAll(Popped(s, cpu), ops);
    InsertedIn(s2.queues[cpu], Entry(id, Plus(now, s2.period[id])), Entry(id, Plus(now, s2.period[id])));
  }

  /** Nobody sets or cancels the timer. */
  predicate LetBe(ops: seq<Op>, id: Id) {
    forall op | op in ops :: (op.Set? ==> op.id != id) && op != Cancel(id)
  }

  lemma AloneApplied(s: State, op: Op, id: Id)
    requires !Pending(s, id) && (op.Set? ==> op.id != id) && op != Cancel(id)
    ensures !Pending(Apply(s, op), id)
    ensures id in s.period ==> id in Apply(s, op).period && Apply(s, op).period[id] == s.period[id]
  {
    var s2 := Apply(s, op);
    forall c | 0 <= c < |s2.queues| ensures !Has(s2.queues[c], id) {
      assert !Has(s.queues[c], id);
      StillNot(s, op, id, c);
    }
  }

  lemma StillNot(s: State, op: Op, id: Id, c: nat)
    requires c < |s.queues| && !Has(s.queues[c], id) && (op.Set? ==> op.id != id) && op != Cancel(id)
    ensures !Has(Apply(s, op).queues[c], id)
  {
    hide Pending, Inserted;
    match op
    case Set(d, x, time, _) =>
      if d == c {
        InsertedHas(s.queues[c], Entry(x, time), id);
      }
    case Cancel(x) => RemovedHas(s.queues[c], x, id);
    case Fired(d) =>
      if d == c && s.queues[c] != [] {
        assert forall i | 0 <= i < |s.queues[c][1..]| :: s.queues[c][1..][i] == s.queues[c][i + 1];
      }
  }

  lemma InsertedHas(q: seq<Entry>, e: Entry, id: Id)
    requires !Has(q, id) && e.id != id
    ensures !Has(Inserted(q, e), id)
  {
    var r := Inserted(q, e);
    forall i | 0 <= i < |r| ensures r[i].id != id {
      InsertedIn(q, e, r[i]);
      assert r[i] in r;
    }
  }

  lemma RemovedHas(q: seq<Entry>, x: Id, id: Id)
    requires !Has(q, id)
    ensures !Has(RemoveId(q, x), id)
  {
    var r := RemoveId(q, x);
    forall i | 0 <= i < |r| ensures r[i].id != id {
      assert r[i] in r;
    }
  }

  lemma {:induction false} AloneAppliedAll(s: State, ops: seq<Op>, id: Id)
    requires !Pending(s, id) && LetBe(ops, id)
    ensures !Pending(ApplyAll(s, ops), id)
    ensures id in s.period ==> id in ApplyAll(s, ops).period && ApplyAll(s, ops).period[id] == s.period[id]
    decreases |ops|
  {
    hide Pending, Apply;
    if ops != [] {
      assert ops[0] in ops && forall op | op in ops[1..] :: op in ops;
      AloneApplied(s, ops[0], id);
      AloneAppliedAll(Apply(s, ops[0]), ops[1..], id);
    }
  }

  /** A timer set with a period fires once per period: the round that fires it queues it again for one period from now
      and leaves the period as it is, whatever else goes on, as long as nobody sets or cancels it. */
  lemma EveryPeriod(s: State, cpu: nat, now: Time, ops: seq<Op>)
    requires cpu < |s.queues| && Unique(s) && Ripe(s, cpu, now)
    requires Periodic(s, s.queues[cpu][0].id) && LetBe(ops, s.queues[cpu][0].id)
    ensures
      var id := s.queues[cpu][0].id;
      var s2 := Round(s, cpu, now, ops);
      Entry(id, Plus(now, s.period[id])) in s2.queues[cpu] && id in s2.period && s2.period[id] == s.period[id]
  {
    hide Pending, Inserted, TimeLt, ApplyAll, Unique;
    var id := s.queues[cpu][0].id;
    PoppedAway(s, cpu);
    AloneAppliedAll(Popped(s, cpu), ops, id);
    PeriodicReturns(s, cpu, now, ops);
  }

  lemma PoppedAway(s: State, cpu: nat)
    requires cpu < |s.queues| && s.queues[cpu] != [] && Unique(s)
    ensures !Pending(Popped(s, cpu), s.queues[cpu][0].id)
  {
    var id := s.queues[cpu][0].id;
    var t := Popped(s, cpu);
    forall c | 0 <= c < |t.queues| ensures !Has(t.queues[c], id) {
      assert Has(s.queues[cpu], id);
      assert Distinct(s.queues[cpu]);
      if c == cpu {
        assert forall i | 0 <= i < |t.queues[c]| :: t.queues[c][i] == s.queues[c][i + 1];
      }
    }
  }

  /** Set by one of the operations. */
  predicate SetBy(ops: seq<Op>, c: nat, e: Entry) {
    exists op | op in ops :: op.Set? && op.c == c && op.id == e.id && op.time == e.time
  }

  lemma {:induction false} OpsAdd(s: State, ops: seq<Op>, c: nat, e: Entry)
    requires c < |s.queues| && e in ApplyAll(s, ops).queues[c]
    ensures e in s.queues[c] || SetBy(ops, c, e)
    decreases |ops|
  {
    hide Inserted, Pending;
    if ops != [] {
      var op := ops[0];
      assert op in ops && forall x | x in ops[1..] :: x in ops;
      OpsAdd(Apply(s, op), ops[1..], c, e);
      if op.Set? && op.c == c {
        InsertedIn(s.queues[c], Entry(op.id, op.time), e);
      }
    }
  }

  /** A timer in the queue after a round was there before, or was set during the callback, or is the fired timer one
      period later. */
  lemma RoundAdds(s: State, cpu: nat, now: Time, ops: seq<Op>, c: nat, e: Entry)
    requires cpu < |s.queues| && c < |s.queues| && e in Round(s, cpu, now, ops).queues[c]
    ensures e in s.queues[c] || SetBy(ops, c, e) || (c == cpu && Ripe(s, cpu, now) && Back(s, cpu, now, ops, e))
  {
    hide TimeLt, Pending, ApplyAll, Inserted, SetBy;
    if Ripe(s, cpu, now) {
      var id := s.queues[cpu][0].id;
      var s1 := Popped(s, cpu);
      var s2 := ApplyAll(s1, ops);
      if Periodic(s2, id) {
        InsertedIn(s2.queues[cpu], Entry(id, Plus(now, s2.period[id])), e);
      }
      if e in s2.queues[c] {
        OpsAdd(s1, ops, c, e);
      }
    }
  }

  /** Put in the queue of processor c by the j-th round. */
  predicate AddedIn(s: State, cpu: nat, now: Time, script: seq<seq<Op>>, j: nat, c: nat, e: Entry)
    requires cpu < |s.queues|
  {
    var r := Rounds(s, cpu, now, script, j);
    SetBy(OpsOf(script, j), c, e) || (c == cpu && Ripe(r, cpu, now) && Back(r, cpu, now, OpsOf(script, j), e))
  }

  /** Nothing else is added by any number of rounds. */
  lemma {:induction false} RoundsAdd(s: State, cpu: nat, now: Time, script: seq<seq<Op>>, n: nat, c: nat, e: Entry)
    requires cpu < |s.queues| && c < |s.queues| && e in Rounds(s, cpu, now, script, n).queues[c]
    ensures e in s.queues[c] || exists j | 0 <= j < n :: AddedIn(s, cpu, now, script, j, c, e)
    decreases n
  {
    hide Round, SetBy, Back, Ripe;
    if n > 0 {
      RoundAdds(Rounds(s, cpu, now, script, n - 1), cpu, now, OpsOf(script, n - 1), c, e);
      if e in Rounds(s, cpu, now, script, n - 1).queues[c] {
        RoundsAdd(s, cpu, now, script, n - 1, c, e);
      } else {
        assert AddedIn(s, cpu, now, script, n - 1, c, e);
      }
    }
  }

  predicate Back(s: State, cpu: nat, now: Time, ops: seq<Op>, e: Entry)
    requires cpu < |s.queues| && Ripe(s, cpu, now)
  {
    var s2 := ApplyAll(Popped(s, cpu), ops);
    e.id == s.queues[cpu][0].id && Periodic(s, e.id) && Periodic(s2, e.id) && e.time == Plus(now, s2.period[e.id])
  }

  // ---------------------------------------------------------------- moving a queue

  function Moved(q: seq<Entry>, from: seq<Entry>): (r: seq<Entry>)
    decreases |from|
  {
    if from == [] then q else Moved(Inserted(q, from[0]), from[1..])
  }

  lemma {:induction false} MovedSorted(base: Time, q: seq<Entry>, from: seq<Entry>)
    requires Sorted(base, q) && Windowed(base, q) && Windowed(base, from)
    ensures Sorted(base, Moved(q, from)) && Windowed(base, Moved(q, from))
    decreases |from|
  {
    hide Inserted, Sorted;
    if from != [] {
      InsertedSorted(base, q, from[0]);
      MovedSorted(base, Inserted(q, from[0]), from[1..]);
    }
  }

  lemma {:induction false} MovedDistinct(q: seq<Entry>, from: seq<Entry>, id: Id)
    requires Distinct(q) && Distinct(from) && forall x | Has(from, x) :: !Has(q, x)
    ensures Distinct(Moved(q, from))
    ensures Has(Moved(q, from), id) <==> Has(q, id) || Has(from, id)
    decreases |from|
  {
    hide Inserted, Has, Distinct;
    HasNone(id);
    if from != [] {
      var e, rest := from[0], from[1..];
      assert from == [e] + rest;
      HasCons(e, rest, id);
      HasCons(e, rest, e.id);
      InsertedDistinct(q, e, id);
      forall x | Has(rest, x) ensures !Has(Inserted(q, e), x) {
        HasCons(e, rest, x);
        InsertedDistinct(q, e, x);
      }
      MovedDistinct(Inserted(q, e), rest, id);
    }
  }

  /** The state of the queues with those of one processor moved to another. */
  function MovedOff(s: State, from: nat, cpu: nat): (s2: State)
    requires from < |s.queues| && cpu < |s.queues| && from != cpu
  {
    s.(queues := s.queues[from := []][cpu := Moved(s.queues[cpu], s.queues[from])])
  }

  /** timer_transition_off_cpu loses no timer: all that were queued on the processor are queued on the other, for the
      same times and periods. */
  lemma MovedOffAll(s: State, from: nat, cpu: nat)
    requires from < |s.queues| && cpu < |s.queues| && from != cpu
    ensures
      var s2 := MovedOff(s, from, cpu);
      && |s2.queues| == |s.queues| && s2.queues[from] == [] && s2.period == s.period
      && multiset(s2.queues[cpu]) == multiset(s.queues[cpu]) + multiset(s.queues[from])
      && forall c | 0 <= c < |s.queues| && c != from && c != cpu :: s2.queues[c] == s.queues[c]
  {
    MovedAll(s.queues[cpu], s.queues[from]);
  }

  lemma MovedTimed(base: Time, now: Time, s: State, from: nat, cpu: nat)
    requires from < |s.queues| && cpu < |s.queues| && from != cpu && Timed(base, now, s)
    ensures Timed(base, now, MovedOff(s, from, cpu))
  {
    hide Has, Distinct, Moved, Rank;
    var q, r := s.queues[cpu], s.queues[from];
    MovedSorted(base, q, r);
    forall id ensures Has(Moved(q, r), id) <==> Has(q, id) || Has(r, id) {
      MovedDistinct(q, r, id);
    }
    MovedDistinct(q, r, 0);
    HasNone(0);
    forall id ensures !Has([], id) {
      HasNone(id);
    }
  }

  /** No timer is lost and none is doubled. */
  lemma {:induction false} MovedAll(q: seq<Entry>, from: seq<Entry>)
    ensures multiset(Moved(q, from)) == multiset(q) + multiset(from)
    decreases |from|
  {
    hide Inserted;
    if from != [] {
      InsertedAll(q, from[0]);
      MovedAll(Inserted(q, from[0]), from[1..]);
      assert from == [from[0]] + from[1..];
    }
  }

  /** For equal times those that were there come before those that were moved, each in their own order. */
  lemma {:induction false} MovedInOrder(base: Time, q: seq<Entry>, from: seq<Entry>, t: Time)
    requires Sorted(base, q) && Windowed(base, q) && Windowed(base, from)
    ensures AtTime(Moved(q, from), t) == AtTime(q, t) + AtTime(from, t)
    decreases |from|
  {
    hide Inserted, Sorted;
    if from != [] {
      InsertedSorted(base, q, from[0]);
      InsertedLast(base, q, from[0], t);
      MovedInOrder(base, Inserted(q, from[0]), from[1..], t);
    }
  }

  lemma {:induction false} InsertedAt(q: seq<Entry>, e: Entry, i: nat)
    requires i <= |q| && (forall j | 0 <= j < i :: !TimeGt(q[j].time, e.time))
    requires i < |q| ==> TimeGt(q[i].time, e.time)
    ensures Inserted(q, e) == q[..i] + [e] + q[i..]
  {
    if i > 0 {
      InsertedAt(q[1..], e, i - 1);
    }
  }

  // ---------------------------------------------------------------- the window moves on

  /** The window may begin later, as long as nothing queued lies before it. */
  lemma Rebased(base: Time, later: Time, now: Time, s: State)
    requires Timed(base, now, s) && InWindow(base, later) && Rank(base, later) <= Rank(base, now)
    requires forall c, e | 0 <= c < |s.queues| && e in s.queues[c] :: Rank(base, later) <= Rank(base, e.time)
    ensures Timed(later, now, s)
  {
    hide Rank, Unique;
    RankFrom(base, later, now);
    forall c | 0 <= c < |s.queues| ensures Sorted(later, s.queues[c]) && Windowed(later, s.queues[c]) {
      var q := s.queues[c];
      forall i | 0 <= i < |q|
        ensures InWindow(later, q[i].time) && Rank(later, q[i].time) == Rank(base, q[i].time) - Rank(base, later)
      {
        assert q[i] in q;
        RankFrom(base, later, q[i].time);
      }
    }
  }

  lemma RankFrom(base: Time, later: Time, t: Time)
    requires Rank(base, later) <= Rank(base, t)
    ensures Rank(later, t) == Rank(base, t) - Rank(base, later)
  {
    var k := Split(t - base);
    var j := Split(later - base);
    assert t - later == WRAP * (k - j) + (Rank(base, t) - Rank(base, later));
    WrapUnique(t - later, k - j, Rank(base, t) - Rank(base, later));
  }

  /** Time goes on within the window. */
  ghost predicate GoesOn(base: Time, now: Time, now2: Time, s: State) {
    && InWindow(base, now2) && Rank(base, now) <= Rank(base, now2)
    && (forall id | id in s.period :: Rank(base, now2) + s.period[id] < HALF)
  }

  lemma LaterTimed(base: Time, now: Time, now2: Time, s: State)
    requires Timed(base, now, s) && GoesOn(base, now, now2, s)
    ensures Timed(base, now2, s)
  {
    hide Rank, Unique, Sorted;
  }

  // ---------------------------------------------------------------- runs of ticks

  /** The timers at a time, and where the window in use begins. */
  datatype Clock = Clock(s: State, now: Time, base: Time)

  datatype Event =
    | TickOn(cpu: nat, time: Time, script: seq<seq<Op>>)
    | Happens(op: Op)                    // a timer is set or cancelled outside any tick
    | Offline(cpu: nat, to: nat)         // the queue of one processor goes to another
    | Window(begin: Time)

  ghost predicate ScriptOk(base: Time, now: Time, cpu: nat, script: seq<seq<Op>>) {
    forall i, op | 0 <= i < |script| && op in script[i] :: OpOk(base, now, cpu, op)
  }

  /** The timers a tick fires. */
  ghost function FiredBy(k: Clock, e: Event): (r: seq<Id>)
    requires e.TickOn? && e.cpu < |k.s.queues|
  {
    Fires(Due(k.base, e.time, k.s.queues[e.cpu]), e.script, 0)
  }

  ghost predicate ClockNext(k: Clock, e: Event, k2: Clock) {
    match e
    case TickOn(cpu, time, script) =>
      && cpu < |k.s.queues| && GoesOn(k.base, k.now, time, k.s) && ScriptOk(k.base, time, cpu, script)
      && k2 == Clock(Rounds(k.s, cpu, time, script, |FiredBy(k, e)|), time, k.base)
    case Happens(op) => !op.Fired? && OpOk(k.base, k.now, |k.s.queues|, op) && k2 == k.(s := Apply(k.s, op))
    case Offline(cpu, to) =>
      cpu < |k.s.queues| && to < |k.s.queues| && cpu != to && k2 == k.(s := MovedOff(k.s, cpu, to))
    case Window(begin) =>
      && InWindow(k.base, begin) && Rank(k.base, begin) <= Rank(k.base, k.now)
      && (forall c, e | 0 <= c < |k.s.queues| && e in k.s.queues[c] :: Rank(k.base, begin) <= Rank(k.base, e.time))
      && k2 == k.(base := begin)
  }

  ghost predicate ClockOk(k: Clock) {
    Timed(k.base, k.now, k.s)
  }

  /** The rounds of a tick keep the queues sound, and use up the due timers one by one. */
  lemma {:induction false} RoundsTimed(base: Time, now: Time, cpu: nat, s: State, script: seq<seq<Op>>, n: nat)
    requires cpu < |s.queues| && Timed(base, now, s) && ScriptOk(base, now, cpu, script)
    requires n <= |Fires(Due(base, now, s.queues[cpu]), script, 0)|
    ensures
      var r := Rounds(s, cpu, now, script, n);
      var fired := Fires(Due(base, now, s.queues[cpu]), script, 0);
      && Timed(base, now, r) && |r.queues| == |s.queues|
      && fired[n..] == Fires(Due(base, now, r.queues[cpu]), script, n)
  {
    hide Timed, Due, Fires, Round, OpOk;
    var fired := Fires(Due(base, now, s.queues[cpu]), script, 0);
    if n == 0 {
      assert fired[0..] == fired;
    } else {
      RoundsTimed(base, now, cpu, s, script, n - 1);
      var r := Rounds(s, cpu, now, script, n - 1);
      assert fired[n - 1..] != [] && fired[n..] == fired[n - 1..][1..];
      OneRoundTimed(base, now, cpu, r, script, n - 1);
    }
  }

  lemma OneRoundTimed(base: Time, now: Time, cpu: nat, s: State, script: seq<seq<Op>>, i: nat)
    requires cpu < |s.queues| && Timed(base, now, s) && ScriptOk(base, now, cpu, script)
    requires Fires(Due(base, now, s.queues[cpu]), script, i) != []
    ensures
      var r := Round(s, cpu, now, OpsOf(script, i));
      && Timed(base, now, r)
      && Fires(Due(base, now, s.queues[cpu]), script, i)[1..] == Fires(Due(base, now, r.queues[cpu]), script, i + 1)
  {
    hide Timed, Due, Fires, Apply, ApplyAll, OpOk, TimeLt, TimeGt, Pending, Inserted;
    var q := s.queues[cpu];
    var due := Due(base, now, q);
    DueNone(base, now);
    FiresNone(script, i);
    HeadDue(base, now, s, cpu);
    FiresHead(due, script, i);
    var s1 := Popped(s, cpu);
    var ops := OpsOf(script, i);
    DueAppliedAll(base, now, cpu, s1, ops);
    var s2 := ApplyAll(s1, ops);
    var id := q[0].id;
    if Periodic(s, id) && !Pending(s2, id) && Periodic(s2, id) {
      Requeued(base, now, s2, cpu, id);
    }
    assert due[1..] == Due(base, now, q[1..]);
  }

  lemma ClockKeeps(k: Clock, e: Event, k2: Clock)
    requires ClockOk(k) && ClockNext(k, e, k2)
    ensures ClockOk(k2) && |k2.s.queues| == |k.s.queues|
  {
    hide Timed, Rank, Rounds, Apply, OpOk, GoesOn, Fires, Due, Moved;
    match e
    case TickOn(cpu, time, script) =>
      LaterTimed(k.base, k.now, time, k.s);
      RoundsTimed(k.base, time, cpu, k.s, script, |FiredBy(k, e)|);
    case Happens(op) => ApplyTimed(k.base, k.now, |k.s.queues|, k.s, op);
    case Offline(cpu, to) => MovedTimed(k.base, k.now, k.s, cpu, to);
    case Window(begin) => Rebased(k.base, begin, k.now, k.s);
  }

  ghost predicate IsClockRun(es: seq<Event>, ks: seq<Clock>) {
    |ks| == |es| + 1 && ClockOk(ks[0]) && forall i | 0 <= i < |es| :: ClockNext(ks[i], es[i], ks[i + 1])
  }

  lemma {:induction false} ClockRunKeeps(es: seq<Event>, ks: seq<Clock>, i: nat)
    requires IsClockRun(es, ks) && i < |ks|
    ensures ClockOk(ks[i]) && |ks[i].s.queues| == |ks[0].s.queues|
  {
    hide ClockOk, ClockNext;
    if i > 0 {
      ClockRunKeeps(es, ks, i - 1);
      ClockKeeps(ks[i - 1], es[i - 1], ks[i]);
    }
  }

  /** The event neither cancels timer x of processor c, nor moves its queue, nor is a tick that finds it due. */
  ghost predicate Spares(k: Clock, ev: Event, c: nat, x: Entry) {
    match ev
    case TickOn(cpu, time, script) =>
      && (forall i | 0 <= i < |script| :: Untouched(script[i], c, x.id))
      && (cpu == c ==> TimeLt(time, x.time))
    case Happens(op) => op != Cancel(x.id)
    case Offline(cpu, _) => cpu != c
    case Window(_) => true
  }

  lemma SparedStays(k: Clock, ev: Event, k2: Clock, c: nat, x: Entry)
    requires ClockNext(k, ev, k2) && c < |k.s.queues| && x in k.s.queues[c] && Spares(k, ev, c, x)
    ensures c < |k2.s.queues| && x in k2.s.queues[c]
  {
    hide Fires, Due, GoesOn, Rank, OpOk, Inserted, Pending, TimeLt, Rounds;
    match ev
    case TickOn(cpu, time, script) =>
      forall j | 0 <= j < |FiredBy(k, ev)| ensures Untouched(OpsOf(script, j), c, x.id) {
      }
      RoundsNone(k.s, cpu, time, script);
      RoundsKeep(k.s, cpu, time, script, 0, |FiredBy(k, ev)|, c, x);
    case Happens(op) => ApplyKeeps(k.s, op, c, x);
    case Offline(cpu, to) => MovedKeeps(k.s, cpu, to, c, x);
    case Window(_) =>
  }

  lemma ApplyKeeps(s: State, op: Op, c: nat, x: Entry)
    requires c < |s.queues| && x in s.queues[c] && !op.Fired? && op != Cancel(x.id)
    ensures x in Apply(s, op).queues[c]
  {
    hide Inserted, Pending;
    if op.Set? && op.c == c {
      InsertedIn(s.queues[c], Entry(op.id, op.time), x);
    }
  }

  lemma MovedKeeps(s: State, from: nat, to: nat, c: nat, x: Entry)
    requires from < |s.queues| && to < |s.queues| && from != to && c < |s.queues| && c != from && x in s.queues[c]
    ensures x in MovedOff(s, from, to).queues[c]
  {
    hide Moved;
    if c == to {
      MovedAll(s.queues[to], s.queues[from]);
      assert x in multiset(s.queues[to]);
      assert x in multiset(Moved(s.queues[to], s.queues[from]));
    }
  }

  /** Over every run: a timer that nobody cancels stays in its queue until a tick of its processor finds it due. */
  lemma {:induction false} LeftAlone(es: seq<Event>, ks: seq<Clock>, i: nat, k: nat, c: nat, x: Entry)
    requires IsClockRun(es, ks) && i <= k < |ks| && c < |ks[i].s.queues| && x in ks[i].s.queues[c]
    requires forall j | i <= j < k :: Spares(ks[j], es[j], c, x)
    ensures c < |ks[k].s.queues| && x in ks[k].s.queues[c]
    decreases k
  {
    hide ClockOk, ClockNext, Spares;
    if i < k {
      LeftAlone(es, ks, i, k - 1, c, x);
      SparedStays(ks[k - 1], es[k - 1], ks[k], c, x);
    }
  }

  /** That tick fires it, once, unless a callback fired before it in the same tick cancels it, and takes it out of the
      queue; no earlier tick does. */
  lemma FiresWhenDue(es: seq<Event>, ks: seq<Clock>, i: nat, k: nat, c: nat, x: Entry)
    requires IsClockRun(es, ks) && i <= k < |es| && c < |ks[i].s.queues| && x in ks[i].s.queues[c]
    requires forall j | i <= j < k :: Spares(ks[j], es[j], c, x)
    requires es[k].TickOn? && es[k].cpu == c
    ensures c < |ks[k].s.queues| && x in ks[k].s.queues[c]
    ensures
      var due := Due(ks[k].base, es[k].time, ks[k].s.queues[c]);
      var fired := FiredBy(ks[k], es[k]);
      && NoDup(fired)
      && (x.id in fired <==> !TimeLt(es[k].time, x.time) && Spared(due, fired, es[k].script, 0, x.id))
      && (!TimeLt(es[k].time, x.time) ==> x !in ks[k + 1].s.queues[c])
  {
    hide Timed, Due, Fires, GoesOn, ScriptOk, Spares, Spared, TimeLt, Rank, Within, Rounds;
    LeftAlone(es, ks, i, k, c, x);
    ClockRunKeeps(es, ks, k);
    var clock, ev := ks[k], es[k];
    assert ClockNext(clock, ev, ks[k + 1]);
    LaterTimed(clock.base, clock.now, ev.time, clock.s);
    TickFires(clock.base, ev.time, clock.s, c, ev.script);
    InDueIff(clock.base, ev.time, clock.s, c, x);
    NoneLeftDue(clock.base, ev.time, c, clock.s, ev.script, x);
  }

  /** After a tick nothing due is left in the queue. */
  lemma NoneLeftDue(base: Time, now: Time, cpu: nat, s: State, script: seq<seq<Op>>, x: Entry)
    requires cpu < |s.queues| && Timed(base, now, s) && ScriptOk(base, now, cpu, script)
    ensures
      var r := Rounds(s, cpu, now, script, |Fires(Due(base, now, s.queues[cpu]), script, 0)|);
      !TimeLt(now, x.time) ==> x !in r.queues[cpu]
  {
    hide Timed, TimeLt, Due, ScriptOk, Rounds;
    var fired := Fires(Due(base, now, s.queues[cpu]), script, 0);
    RoundsTimed(base, now, cpu, s, script, |fired|);
    var r := Rounds(s, cpu, now, script, |fired|);
    assert fired[|fired|..] == [];
    if x in r.queues[cpu] {
      InDueIff(base, now, r, cpu, x);
    }
  }

  lemma InDueIff(base: Time, now: Time, s: State, c: nat, x: Entry)
    requires Timed(base, now, s) && c < |s.queues| && x in s.queues[c]
    ensures x.id in Due(base, now, s.queues[c]) <==> !TimeLt(now, x.time)
  {
    hide Rank, TimeLt, Unique;
    var q := s.queues[c];
    var i :| 0 <= i < |q| && q[i] == x;
    TimesOrdered(base, now, x.time);
    DistinctAt(s, c);
    DueIffAt(base, now, q, i);
  }

  lemma {:induction false} DueIffAt(base: Time, now: Time, q: seq<Entry>, i: nat)
    requires Distinct(q) && i < |q|
    ensures q[i].id in Due(base, now, q) <==> IsDue(base, now, q[i])
    decreases |q|
  {
    hide IsDue;
    DueNoDup(base, now, q[1..]);
    if i > 0 {
      DueIffAt(base, now, q[1..], i - 1);
      assert q[0].id != q[i].id;
    }
  }

  // ---------------------------------------------------------------- cancelled for good

  /** The timer is in no queue and no tick will put it back. */
  predicate Gone(s: State, id: Id) {
    !Pending(s, id) && (id in s.period ==> s.period[id] == 0)
  }

  /** timer_cancel: the timer is gone, every other timer is where it was and as periodic as it was. */
  lemma CancelClears(s: State, id: Id)
    ensures Gone(Cancelled(s, id), id) && |Cancelled(s, id).queues| == |s.queues|
    ensures forall x | x != id && x in s.period ::
              x in Cancelled(s, id).period && Cancelled(s, id).period[x] == s.period[x]
    ensures forall c, e | 0 <= c < |s.queues| :: e in Cancelled(s, id).queues[c] <==> e in s.queues[c] && e.id != id
  {
    var t := Cancelled(s, id);
    forall c | 0 <= c < |t.queues| ensures !Has(t.queues[c], id) {
      RemovedDistinct(s.queues[c], id, id);
    }
  }

  /** It leaves its queue from where it stands. */
  lemma {:induction false} RemovedOne(q: seq<Entry>, i: nat)
    requires Distinct(q) && i < |q|
    ensures RemoveId(q, q[i].id) == q[..i] + q[i + 1..]
    decreases |q|
  {
    var r := q[1..];
    assert q == [q[0]] + r;
    if i == 0 {
      HasCons(q[0], r, q[0].id);
      RemoveAbsent(r, q[0].id);
      assert RemoveId(q, q[0].id) == r;
    } else {
      assert r[i - 1] == q[i] && q[0].id != q[i].id;
      RemovedOne(r, i - 1);
      assert q[..i] == [q[0]] + r[..i - 1] && q[i + 1..] == r[i..];
      LineBreak(q[0], r[..i - 1], r[i..]);
    }
  }

  lemma LineBreak(e: Entry, a: seq<Entry>, b: seq<Entry>)
    ensures [e] + (a + b) == ([e] + a) + b
  {
  }

  predicate NotSet(ops: seq<Op>, id: Id) {
    forall op | op in ops :: op.Set? ==> op.id != id
  }

  lemma GoneApplied(s: State, op: Op, id: Id)
    requires Gone(s, id) && (op.Set? ==> op.id != id)
    ensures Gone(Apply(s, op), id)
  {
    hide Has, Inserted, RemoveId;
    var t := Apply(s, op);
    forall c | 0 <= c < |t.queues| ensures !Has(t.queues[c], id) {
      assert !Has(s.queues[c], id);
      match op
      case Set(d, x, time, period) =>
        if d == c {
          InsertedDistinct(s.queues[c], Entry(x, time), id);
        }
      case Cancel(x) => RemovedDistinct(s.queues[c], x, id);
      case Fired(d) =>
        if d == c && s.queues[c] != [] {
          var q := s.queues[c];
          assert q == [q[0]] + q[1..];
          HasCons(q[0], q[1..], id);
        }
    }
  }

  lemma {:induction false} GoneAppliedAll(s: State, ops: seq<Op>, id: Id)
    requires Gone(s, id) && NotSet(ops, id)
    ensures Gone(ApplyAll(s, ops), id)
    decreases |ops|
  {
    hide Gone, Apply;
    if ops != [] {
      assert ops[0] in ops && forall op | op in ops[1..] :: op in ops;
      GoneApplied(s, ops[0], id);
      GoneAppliedAll(Apply(s, ops[0]), ops[1..], id);
    }
  }

  /** A batch that cancels the timer and does not set it afterwards leaves it gone, however it began. */
  lemma {:induction false} CancelledInBatch(s: State, ops: seq<Op>, m: nat, id: Id)
    requires m < |ops| && ops[m] == Cancel(id) && NotSet(ops[m + 1..], id)
    ensures Gone(ApplyAll(s, ops), id)
    decreases m
  {
    hide Gone;
    if m == 0 {
      CancelClears(s, id);
      GoneAppliedAll(Apply(s, ops[0]), ops[1..], id);
    } else {
      assert ops[1..][m - 1 + 1..] == ops[m + 1..];
      CancelledInBatch(Apply(s, ops[0]), ops[1..], m - 1, id);
    }
  }

  lemma GoneRequeued(s: State, cpu: nat, now: Time, x: Id, periodic: bool, id: Id)
    requires cpu < |s.queues| && Gone(s, id)
    ensures Gone(Requeue(s, cpu, now, x, periodic), id)
  {
    hide Has, Inserted;
    if Periodic(s, x) {
      var e := Entry(x, Plus(now, s.period[x]));
      InsertedDistinct(s.queues[cpu], e, id);
    }
  }

  /** A timer cancelled during its own callback, or anybody's, is not put back. */
  lemma CancelledInRound(s: State, cpu: nat, now: Time, ops: seq<Op>, m: nat, id: Id)
    requires cpu < |s.queues| && Ripe(s, cpu, now)
    requires m < |ops| && ops[m] == Cancel(id) && NotSet(ops[m + 1..], id)
    ensures Gone(Round(s, cpu, now, ops), id)
  {
    hide Gone, ApplyAll, TimeLt, Requeue;
    CancelledInBatch(Popped(s, cpu), ops, m, id);
    var x := s.queues[cpu][0].id;
    GoneRequeued(ApplyAll(Popped(s, cpu), ops), cpu, now, x, Periodic(s, x), id);
  }

  lemma GoneRound(s: State, cpu: nat, now: Time, ops: seq<Op>, id: Id)
    requires cpu < |s.queues| && Gone(s, id) && NotSet(ops, id)
    ensures Gone(Round(s, cpu, now, ops), id)
  {
    hide Gone, ApplyAll, TimeLt, Requeue;
    if Ripe(s, cpu, now) {
      GonePopped(s, cpu, id);
      GoneAppliedAll(Popped(s, cpu), ops, id);
      var x := s.queues[cpu][0].id;
      GoneRequeued(ApplyAll(Popped(s, cpu), ops), cpu, now, x, Periodic(s, x), id);
    }
  }

  lemma GonePopped(s: State, cpu: nat, id: Id)
    requires cpu < |s.queues| && s.queues[cpu] != [] && Gone(s, id)
    ensures Gone(Popped(s, cpu), id) && s.queues[cpu][0].id != id
  {
    hide Has;
    var q := s.queues[cpu];
    assert q == [q[0]] + q[1..] && !Has(q, id);
    HasCons(q[0], q[1..], id);
  }

  lemma {:induction false} GoneRounds(s: State, cpu: nat, now: Time, script: seq<seq<Op>>, k: nat, n: nat, id: Id)
    requires cpu < |s.queues| && k <= n && Gone(Rounds(s, cpu, now, script, k), id)
    requires forall j | k <= j < n :: NotSet(OpsOf(script, j), id)
    ensures Gone(Rounds(s, cpu, now, script, n), id)
    decreases n
  {
    hide Gone, Round, NotSet;
    if k < n {
      GoneRounds(s, cpu, now, script, k, n - 1, id);
      GoneRound(Rounds(s, cpu, now, script, n - 1), cpu, now, OpsOf(script, n - 1), id);
    }
  }

  /** The event does not set the timer. */
  ghost predicate SetsNot(ev: Event, id: Id) {
    match ev
    case TickOn(_, _, script) => forall i | 0 <= i < |script| :: NotSet(script[i], id)
    case Happens(op) => op.Set? ==> op.id != id
    case Offline(_, _) => true
    case Window(_) => true
  }

  lemma GoneStays(k: Clock, ev: Event, k2: Clock, id: Id)
    requires ClockOk(k) && ClockNext(k, ev, k2) && Gone(k.s, id) && SetsNot(ev, id)
    ensures Gone(k2.s, id) && (ev.TickOn? ==> id !in FiredBy(k, ev))
  {
    hide Gone, Timed, Rounds, Apply, Fires, Due, GoesOn, OpOk, ScriptOk, Rank, NotSet, Moved;
    match ev
    case TickOn(cpu, time, script) =>
      forall j | 0 <= j < |FiredBy(k, ev)| ensures NotSet(OpsOf(script, j), id) {
        NothingSet(id);
      }
      RoundsNone(k.s, cpu, time, script);
      GoneRounds(k.s, cpu, time, script, 0, |FiredBy(k, ev)|, id);
      LaterTimed(k.base, k.now, time, k.s);
      GoneNotFired(k.base, time, k.s, cpu, script, id);
    case Happens(op) => GoneApplied(k.s, op, id);
    case Offline(cpu, to) => GoneMoved(k.s, cpu, to, id);
    case Window(_) =>
  }

  lemma NothingSet(id: Id)
    ensures NotSet([], id)
  {
  }

  lemma GoneNotFired(base: Time, now: Time, s: State, cpu: nat, script: seq<seq<Op>>, id: Id)
    requires cpu < |s.queues| && Timed(base, now, s) && Gone(s, id)
    ensures id !in Fires(Due(base, now, s.queues[cpu]), script, 0)
  {
    hide Due, Fires, Timed;
    TickFires(base, now, s, cpu, script);
    DistinctIn(base, now, s, cpu);
    DueNoDup(base, now, s.queues[cpu]);
  }

  lemma DistinctIn(base: Time, now: Time, s: State, cpu: nat)
    requires cpu < |s.queues| && Timed(base, now, s)
    ensures Distinct(s.queues[cpu])
  {
    DistinctAt(s, cpu);
  }

  lemma GoneMoved(s: State, from: nat, to: nat, id: Id)
    requires from < |s.queues| && to < |s.queues| && from != to && Gone(s, id)
    ensures Gone(MovedOff(s, from, to), id)
  {
    hide Moved;
    var q := Moved(s.queues[to], s.queues[from]);
    MovedAll(s.queues[to], s.queues[from]);
    assert !Has(s.queues[to], id) && !Has(s.queues[from], id);
    forall i | 0 <= i < |q| ensures q[i].id != id {
      assert q[i] in multiset(q);
      if q[i] in s.queues[to] {
        var j :| 0 <= j < |s.queues[to]| && s.queues[to][j] == q[i];
      } else {
        assert q[i] in multiset(s.queues[from]);
        var j :| 0 <= j < |s.queues[from]| && s.queues[from][j] == q[i];
      }
    }
  }

  /** Over every run: a timer that is gone does not fire again before somebody sets it. */
  lemma {:induction false} NeverAgain(es: seq<Event>, ks: seq<Clock>, i: nat, k: nat, id: Id)
    requires IsClockRun(es, ks) && i <= k < |ks| && Gone(ks[i].s, id)
    requires forall j | i <= j < |es| :: SetsNot(es[j], id)
    ensures Gone(ks[k].s, id)
    ensures k < |es| && es[k].TickOn? && es[k].cpu < |ks[k].s.queues| ==> id !in FiredBy(ks[k], es[k])
    decreases k
  {
    hide ClockOk, ClockNext, Gone, SetsNot, FiredBy;
    ClockRunKeeps(es, ks, k);
    if i < k {
      NeverAgain(es, ks, i, k - 1, id);
      ClockRunKeeps(es, ks, k - 1);
      GoneStays(ks[k - 1], es[k - 1], ks[k], id);
    }
    if k < |es| {
      GoneStays(ks[k], es[k], ks[k + 1], id);
    }
  }

  // ---------------------------------------------------------------- the queues in place

  class Timers {
    var queues: seq<seq<Entry>>
    var period: map<Id, nat>

    ghost function Snap(): State
      reads this
    {
      State(queues, period)
    }

    /** insert_timer_in_queue */
    method InsertInQueue(c: nat, e: Entry)
      requires c < |queues|
      modifies `queues
      ensures Snap() == Insert(old(Snap()), c, e)
    {
      var q := queues[c];
      var i := 0;
      while i < |q| && !TimeGt(q[i].time, e.time)
        invariant i <= |q| && forall j | 0 <= j < i :: !TimeGt(q[j].time, e.time)
      {
        i := i + 1;
      }
      InsertedAt(q, e, i);
      queues := queues[c := q[..i] + [e] + q[i..]];
    }

    /** timer_set, called for a one-shot timer with period zero. */
    method TimerSet(c: nat, id: Id, now: Time, delay: nat, per: nat)
      requires c < |queues| && !Pending(Snap(), id)
      modifies this
      ensures Snap() == Apply(old(Snap()), Set(c, id, Plus(now, delay + 1), per))
    {
      InsertInQueue(c, Entry(id, Plus(now, delay + 1)));
      period := period[id := per];
    }

    /** timer_cancel */
    method TimerCancel(id: Id)
      modifies this
      ensures Snap() == Cancelled(old(Snap()), id) && Gone(Snap(), id)
    {
      for c := 0 to |queues|
        invariant |queues| == |old(queues)| && period == old(period)
        invariant forall x | 0 <= x < |queues| ::
                    queues[x] == if x < c then RemoveId(old(queues[x]), id) else old(queues[x])
      {
        if Has(queues[c], id) {
          queues := queues[c := RemoveId(queues[c], id)];
        } else {
          RemoveAbsent(queues[c], id);
        }
      }
      period := period[id := 0];
      assert queues == Cancelled(old(Snap()), id).queues;
      CancelClears(old(Snap()), id);
    }

    /** timer_tick: `script` says what happens during each callback, while the lock is dropped. */
    method Tick(cpu: nat, now: Time, script: seq<seq<Op>>, ghost base: Time) returns (fired: seq<Id>)
      requires cpu < |queues| && Timed(base, now, Snap())
      requires forall i, op | 0 <= i < |script| && op in script[i] :: OpOk(base, now, cpu, op)
      modifies this
      ensures Timed(base, now, Snap()) && Snap() == Rounds(old(Snap()), cpu, now, script, |fired|)
      ensures fired == Fires(Due(base, now, old(queues[cpu])), script, 0)
      ensures FiredExactly(Due(base, now, old(queues[cpu])), fired, script, 0)
      ensures forall e | e in queues[cpu] :: TimeGt(e.time, now)
      ensures !Ripe(Snap(), cpu, now)
      ensures Heads(old(Snap()), cpu, now, script, fired)
    {
      hide Timed, Due, Fires, Inserted, Apply, ApplyAll, OpOk, TimeGt, TimeLt, Pending, Has, IsDue, Rounds, Round,
        Heads, FiredExactly;
      fired := [];
      ghost var all := Fires(Due(base, now, queues[cpu]), script, 0);
      DueNone(base, now);
      RoundsNone(Snap(), cpu, now, script);
      TickFires(base, now, Snap(), cpu, script);
      while queues[cpu] != []
        invariant |queues| == |old(queues)| && Timed(base, now, Snap())
        invariant Snap() == Rounds(old(Snap()), cpu, now, script, |fired|)
        invariant Heads(old(Snap()), cpu, now, script, fired)
        invariant fired + Fires(Due(base, now, queues[cpu]), script, |fired|) == all
        decreases |Due(base, now, queues[cpu])|
      {
        ghost var s := Snap();
        var head := queues[cpu][0];
        HeadDue(base, now, s, cpu);
        if TimeLt(now, head.time) {
          break;
        }
        RoundsNext(old(Snap()), cpu, now, script, |fired|);
        HeadsMore(old(Snap()), cpu, now, script, fired);
        FiresHead(Due(base, now, queues[cpu]), script, |fired|);
        queues := queues[cpu := queues[cpu][1..]];
        var periodic := head.id in period && period[head.id] > 0;
        var ops := OpsOf(script, |fired|);
        DueAppliedAll(base, now, cpu, Snap(), ops);
        fired := fired + [head.id];
        RunCallback(ops);
        if periodic && !Pending(State(queues, period), head.id) && head.id in period && period[head.id] > 0 {
          Requeued(base, now, Snap(), cpu, head.id);
          InsertInQueue(cpu, Entry(head.id, Plus(now, period[head.id])));
        }
        assert Snap() == Round(s, cpu, now, ops) by { OneRound(s, cpu, now, ops); }
      }
      FiresNone(script, |fired|);
      assert fired + [] == fired;
    }

    /** A callback, seen through what it does to the timers. */
    method RunCallback(ops: seq<Op>)
      modifies this
      ensures Snap() == ApplyAll(old(Snap()), ops)
    {
      hide Inserted, Has;
      for i := 0 to |ops|
        invariant ApplyAll(Snap(), ops[i..]) == ApplyAll(old(Snap()), ops)
      {
        assert ops[i..][0] == ops[i] && ops[i..][1..] == ops[i + 1..];
        match ops[i] {
          case Set(c, id, time, per) =>
            if c < |queues| && !Pending(State(queues, period), id) {
              InsertInQueue(c, Entry(id, time));
              period := period[id := per];
            }
          case Cancel(id) => TimerCancel(id);
          case Fired(c) =>
            if c < |queues| && queues[c] != [] {
              queues := queues[c := queues[c][1..]];
            }
        }
      }
    }

    /** timer_transition_off_cpu */
    method TransitionOff(oldCpu: nat, cpu: nat)
      requires oldCpu < |queues| && cpu < |queues| && oldCpu != cpu
      modifies `queues
      ensures Snap() == MovedOff(old(Snap()), oldCpu, cpu)
      ensures forall base, now | Timed(base, now, old(Snap())) :: Timed(base, now, Snap())
    {
      hide Inserted, Timed;
      forall base, now | Timed(base, now, Snap()) ensures Timed(base, now, MovedOff(Snap(), oldCpu, cpu)) {
        MovedTimed(base, now, Snap(), oldCpu, cpu);
      }
      while queues[oldCpu] != []
        invariant |queues| == |old(queues)|
        invariant forall x | 0 <= x < |queues| && x != oldCpu && x != cpu :: queues[x] == old(queues[x])
        invariant Moved(queues[cpu], queues[oldCpu]) == Moved(old(queues[cpu]), old(queues[oldCpu]))
        decreases |queues[oldCpu]|
      {
        var e := queues[oldCpu][0];
        queues := queues[oldCpu := queues[oldCpu][1..]];
        InsertInQueue(cpu, e);
      }
    }
  }

  lemma RoundsNone(s: State, cpu: nat, now: Time, script: seq<seq<Op>>)
    requires cpu < |s.queues|
    ensures Rounds(s, cpu, now, script, 0) == s && Heads(s, cpu, now, script, [])
  {
  }

  lemma RoundsNext(s: State, cpu: nat, now: Time, script: seq<seq<Op>>, n: nat)
    requires cpu < |s.queues|
    ensures
      Rounds(s, cpu, now, script, n + 1) == Round(Rounds(s, cpu, now, script, n), cpu, now, OpsOf(script, n))
  {
  }

  lemma OneRound(s: State, cpu: nat, now: Time, ops: seq<Op>)
    requires cpu < |s.queues| && Ripe(s, cpu, now)
    ensures
      var id := s.queues[cpu][0].id;
      Round(s, cpu, now, ops) == Requeue(ApplyAll(Popped(s, cpu), ops), cpu, now, id, Periodic(s, id))
  {
  }

  lemma TickFires(base: Time, now: Time, s: State, cpu: nat, script: seq<seq<Op>>)
    requires cpu < |s.queues| && Timed(base, now, s)
    ensures
      var due := Due(base, now, s.queues[cpu]);
      FiredExactly(due, Fires(due, script, 0), script, 0)
  {
    hide Due, Fires, FiredExactly;
    DistinctAt(s, cpu);
    DueNoDup(base, now, s.queues[cpu]);
    FiresExactly(Due(base, now, s.queues[cpu]), script, 0);
  }

  /** A timer cancelled during a callback that fires before its turn does not fire in this tick. */
  lemma CancelStops(base: Time, now: Time, s: State, cpu: nat, script: seq<seq<Op>>, j: nat, x: Id)
    requires cpu < |s.queues| && Timed(base, now, s)
    requires
      var due := Due(base, now, s.queues[cpu]);
      var fired := Fires(due, script, 0);
      j < |fired| && Before(due, fired[j], x) && x in CancelledIn(OpsOf(script, j))
    ensures x !in Fires(Due(base, now, s.queues[cpu]), script, 0)
  {
    hide Due, Fires, Before, CancelledIn, Timed;
    TickFires(base, now, s, cpu, script);
    var due := Due(base, now, s.queues[cpu]);
    var fired := Fires(due, script, 0);
    assert Before(due, fired[j], x) && x in CancelledIn(OpsOf(script, 0 + j));
  }

  lemma DueNone(base: Time, now: Time)
    ensures Due(base, now, []) == []
  {
  }

  lemma FiresNone(script: seq<seq<Op>>, i: nat)
    ensures Fires([], script, i) == []
  {
  }

  lemma FiresHead(due: seq<Id>, script: seq<seq<Op>>, i: nat)
    requires due != []
    ensures Fires(due, script, i) == [due[0]] + Fires(Minus(due[1..], CancelledIn(OpsOf(script, i))), script, i + 1)
    ensures |Minus(due[1..], CancelledIn(OpsOf(script, i)))| < |due|
  {
  }

  /** The head of an ordered queue decides whether anything is due. */
  lemma HeadDue(base: Time, now: Time, s: State, cpu: nat)
    requires Timed(base, now, s) && cpu < |s.queues| && s.queues[cpu] != []
    ensures
      var q := s.queues[cpu];
      && (TimeLt(now, q[0].time) ==> Due(base, now, q) == [] && forall e | e in q :: TimeGt(e.time, now))
      && (!TimeLt(now, q[0].time) ==> Due(base, now, q) == [q[0].id] + Due(base, now, q[1..]))
    ensures Timed(base, now, s.(queues := s.queues[cpu := s.queues[cpu][1..]]))
  {
    hide Rank, TimeLt, TimeGt, Unique;
    var q := s.queues[cpu];
    PoppedUnique(s, cpu);
    TimesOrdered(base, now, q[0].time);
    if TimeLt(now, q[0].time) {
      LaterNotDue(base, now, q);
      forall e | e in q ensures TimeGt(e.time, now) {
        var i :| 0 <= i < |q| && q[i] == e;
        TimesOrdered(base, e.time, now);
      }
    }
  }

  lemma {:induction false} LaterNotDue(base: Time, now: Time, q: seq<Entry>)
    requires forall e | e in q :: !IsDue(base, now, e)
    ensures Due(base, now, q) == []
  {
    if q != [] {
      LaterNotDue(base, now, q[1..]);
    }
  }

  /** A periodic timer goes back for a later time, and is not due again in this tick. */
  lemma Requeued(base: Time, now: Time, s: State, cpu: nat, id: Id)
    requires Timed(base, now, s) && cpu < |s.queues| && id in s.period && s.period[id] > 0
    requires !Pending(s, id)
    ensures
      var s2 := Insert(s, cpu, Entry(id, Plus(now, s.period[id])));
      Timed(base, now, s2) && Due(base, now, s2.queues[cpu]) == Due(base, now, s.queues[cpu])
  {
    hide Rank, Inserted, Due, Unique, Pending;
    InsertUnique(s, cpu, Entry(id, Plus(now, s.period[id])));
    var e := Entry(id, Plus(now, s.period[id]));
    PlusRank(base, now, s.period[id]);
    InsertedSorted(base, s.queues[cpu], e);
    DueInserted(base, now, s.queues[cpu], e);
  }

  /** What timer_set does from a callback is admissible in a tick: the delay is never zero. */
  lemma SetIsLater(base: Time, now: Time, cpu: nat, c: nat, id: Id, later: nat, delay: nat, per: nat)
    requires Rank(base, now) + later + delay + 1 < HALF && Rank(base, now) + per < HALF
    ensures OpOk(base, now, cpu, Set(c, id, Plus(Plus(now, later), delay + 1), per))
  {
    PlusRank(base, now, later);
    PlusRank(base, Plus(now, later), delay + 1);
  }
}
