/** The scheduler and wait-queue routines as atomic steps under the thread lock, and the
    invariant over every run of them. */
module SchedOps {

  import opened Sched
  import opened Waiters

  // ---------------------------------------------------------------- choosing the next thread

  predicate MayRun(ts: Threads, t: Tid, c: Cpu) {
    t in ts && (ts[t].pinned < 0 || ts[t].pinned == c)
  }

  datatype Spot = NoSpot | Spot(p: nat, i: nat)

  /** Nothing in the queue before position n may run on the processor. */
  ghost predicate NoneBefore(ts: Threads, l: seq<Tid>, c: Cpu, n: nat) {
    forall j | 0 <= j < n && j < |l| :: !MayRun(ts, l[j], c)
  }

  /** Among the queues below n: the first runnable thread of the highest queue that has one. */
  ghost predicate Best(s: State, c: Cpu, n: nat, r: Spot) {
    match r
    case NoSpot => forall p | 0 <= p < n && p < |s.runQueue| :: NoneBefore(s.threads, s.runQueue[p], c, |s.runQueue[p]|)
    case Spot(p, i) =>
      && p < n && p < |s.runQueue| && i < |s.runQueue[p]| && MayRun(s.threads, s.runQueue[p][i], c)
      && NoneBefore(s.threads, s.runQueue[p], c, i)
      && forall r | p < r < n && r < |s.runQueue| :: NoneBefore(s.threads, s.runQueue[r], c, |s.runQueue[r]|)
  }

  function Scan(ts: Threads, l: seq<Tid>, c: Cpu): (i: nat)
    ensures i <= |l| && NoneBefore(ts, l, c, i) && (i < |l| ==> MayRun(ts, l[i], c))
  {
    if l == [] then 0
    else if MayRun(ts, l[0], c) then 0
    else 1 + Scan(ts, l[1..], c)
  }

  function PickBelow(s: State, c: Cpu, n: nat): (r: Spot)
    requires n <= |s.runQueue|
    ensures Best(s, c, n, r)
  {
    if n == 0 then NoSpot
    else
      var i := Scan(s.threads, s.runQueue[n - 1], c);
      if i < |s.runQueue[n - 1]| then Spot(n - 1, i) else PickBelow(s, c, n - 1)
  }

  /** The choice is unique. */
  lemma BestUnique(s: State, c: Cpu, n: nat, r: Spot, r2: Spot)
    requires n <= |s.runQueue| && Best(s, c, n, r) && Best(s, c, n, r2)
    ensures r == r2
  {
  }

  /** thread_resched: processor c goes over to the best thread, or to its idle thread. */
  function Resched(s: State, c: Cpu): (s2: State)
    requires |s.runQueue| == NUM_PRIORITIES && c in s.current && c in s.idleOf && s.idleOf[c] in s.threads
  {
    match PickBelow(s, c, NUM_PRIORITIES)
    case NoSpot => SwitchTo(s, c, s.idleOf[c])
    case Spot(p, i) => Take(SwitchTo(s, c, s.runQueue[p][i]), p, i)
  }

  ghost predicate CanResched(s: State, c: Cpu) {
    |s.runQueue| == NUM_PRIORITIES && c in s.current && c in s.idleOf && s.idleOf[c] in s.threads
  }

  lemma ReschedReady(s: State, out: set<Cpu>, c: Cpu)
    requires InvOut(s, out) && c in s.current
    ensures CanResched(s, c)
  {
    assert CpuOk(c, s.threads, s.current, s.idleOf, out);
  }

  lemma ReschedKeeps(s: State, c: Cpu)
    requires InvOut(s, {c}) && c in s.current
    ensures CanResched(s, c) && Inv(Resched(s, c))
  {
    hide InvOut, SwitchTo, Take;
    ReschedReady(s, {c}, c);
    match PickBelow(s, c, NUM_PRIORITIES)
    case NoSpot => RunIdleKeeps(s, c);
    case Spot(p, i) => RunFromKeeps(s, c, p, i);
  }

  lemma QueuedSomewhere(s: State, u: Tid)
    requires RunOk(s.threads, s.runQueue) && u in s.threads && s.threads[u].state == Ready && !s.threads[u].idle
    requires s.threads[u].priority < NUM_PRIORITIES
    ensures u in s.runQueue[s.threads[u].priority]
  {
    var p := s.threads[u].priority;
    assert RunList(s.threads, s.runQueue[p], p);
    assert Queued(s.threads, p, u);
  }

  /** A reschedule runs a thread no ready thread allowed on the processor surpasses in priority, and the idle thread
      only when there is none; within the priority it is the first in line. */
  lemma ReschedRunsBest(s: State, c: Cpu, u: Tid)
    requires InvOut(s, {c}) && c in s.current
    requires u in s.threads && s.threads[u].state == Ready && !s.threads[u].idle && MayRun(s.threads, u, c)
    ensures CanResched(s, c) && c in Resched(s, c).current
    ensures
      var t := Resched(s, c).current[c];
      && t in s.threads && !s.threads[t].idle && s.threads[t].state == Ready && MayRun(s.threads, t, c)
      && s.threads[t].priority >= s.threads[u].priority
      && (s.threads[t].priority == s.threads[u].priority && u != t ==>
            var l := s.runQueue[s.threads[t].priority];
            exists i, j :: 0 <= i < j < |l| && l[i] == t && l[j] == u)
  {
    hide PickBelow, WaitOk, JoinOk, CpusOk, BitmapOk, RunList, InvOut;
    ReschedReady(s, {c}, c);
    KnownThread(s, {c}, u);
    InvRun(s, {c});
    QueuedSomewhere(s, u);
    var q := s.threads[u].priority;
    var j :| 0 <= j < |s.runQueue[q]| && s.runQueue[q][j] == u;
    match PickBelow(s, c, NUM_PRIORITIES) {
      case NoSpot => assert false;
      case Spot(p, i) =>
        QueuedReady(s, p, i);
        assert Resched(s, c).current[c] == s.runQueue[p][i];
    }
  }

  lemma InvRun(s: State, out: set<Cpu>)
    requires InvOut(s, out)
    ensures RunOk(s.threads, s.runQueue)
  {
  }

  // ---------------------------------------------------------------- the current thread gives up its processor

  ghost predicate OnCpu(s: State, c: Cpu) {
    CanResched(s, c) && s.current[c] in s.threads && s.threads[s.current[c]].priority < NUM_PRIORITIES
  }

  lemma RunsOnCpu(s: State, c: Cpu)
    requires Inv(s) && c in s.current
    ensures OnCpu(s, c) && s.threads[s.current[c]].state == Running && s.threads[s.current[c]].waiting.None?
    ensures Retcode(s.current[c]) in s.waitQueues
  {
    ReschedReady(s, {}, c);
    assert CpuOk(c, s.threads, s.current, s.idleOf, {});
    var t := s.current[c];
    assert ThreadOk(t, s.threads[t], s.current, s.idleOf, {}, s.waitQueues.Keys);
  }

  function Requeue(s: State, c: Cpu, th: Thread, head: bool): (s2: State)
    requires OnCpu(s, c) && th.priority < NUM_PRIORITIES
    ensures s2.current == s.current && s2.idleOf == s.idleOf
    ensures |s2.runQueue| == |s.runQueue| && s2.threads.Keys == s.threads.Keys
  {
    MakeReady(SetThread(s, s.current[c], th), s.current[c], head)
  }

  /** thread_yield */
  function Yield(s: State, c: Cpu): (s2: State)
    requires OnCpu(s, c)
  {
    Resched(Requeue(s, c, s.threads[s.current[c]].(quantum := 0), false), c)
  }

  /** thread_preempt: back to the front while there is quantum left, to the end otherwise. */
  function Preempt(s: State, c: Cpu): (s2: State)
    requires OnCpu(s, c)
  {
    var th := s.threads[s.current[c]];
    Resched(Requeue(s, c, th, th.quantum > 0), c)
  }

  function Clamp(priority: int): (p: nat)
    ensures IDLE_PRIORITY < p <= HIGHEST_PRIORITY
    ensures IDLE_PRIORITY < priority <= HIGHEST_PRIORITY ==> p == priority
  {
    if priority <= IDLE_PRIORITY then IDLE_PRIORITY + 1
    else if priority > HIGHEST_PRIORITY then HIGHEST_PRIORITY
    else priority
  }

  /** thread_set_priority */
  function SetPriority(s: State, c: Cpu, priority: int): (s2: State)
    requires OnCpu(s, c)
  {
    Resched(Requeue(s, c, s.threads[s.current[c]].(priority := Clamp(priority)), true), c)
  }

  /** thread_sleep_etc up to the switch. */
  function Sleep(s: State, c: Cpu, interruptable: bool): (s2: State)
    requires OnCpu(s, c)
  {
    var t := s.current[c];
    var th := s.threads[t];
    if interruptable && th.killed then s
    else Resched(SetThread(s, t, th.(state := Sleeping, blockedStatus := NoError, interruptable := interruptable)), c)
  }

  /** wait_queue_block with a non-zero timeout, up to the switch. */
  function Block(s: State, c: Cpu, q: Qid): (s2: State)
    requires OnCpu(s, c) && q in s.waitQueues
  {
    Resched(BlockOn(s, q, s.current[c]), c)
  }

  lemma RequeueKeeps(s: State, c: Cpu, th: Thread, head: bool)
    requires Inv(s) && c in s.current
    requires OnCpu(s, c)
    requires
      var o := s.threads[s.current[c]];
      th == o.(quantum := th.quantum, priority := th.priority) && th.priority < NUM_PRIORITIES
    ensures InvOut(Requeue(s, c, th, head), {c})
  {
    hide RunOk, WaitOk, JoinOk, ThreadsOk, CpusOk, BitmapOk;
    var t := s.current[c];
    RunsOnCpu(s, c);
    OffKeeps(s, c);
    var s1 := Off(s, c);
    JoinersOf(s1, t);
    TweakKeeps(s1, {c}, t, th.(state := Suspended));
    var s2 := SetThread(s1, t, th.(state := Suspended));
    MakeReadyKeeps(s2, {c}, t, head);
    assert s2.threads[t := th.(state := Ready)] == SetThread(s, t, th).threads[t := th.(state := Ready)];
    assert MakeReady(s2, t, head) == Requeue(s, c, th, head);
  }

  lemma YieldKeeps(s: State, c: Cpu)
    requires Inv(s) && c in s.current
    ensures OnCpu(s, c) && Inv(Yield(s, c))
  {
    hide InvOut, Requeue, Resched, CanResched;
    RunsOnCpu(s, c);
    RequeueKeeps(s, c, s.threads[s.current[c]].(quantum := 0), false);
    ReschedKeeps(Requeue(s, c, s.threads[s.current[c]].(quantum := 0), false), c);
  }

  lemma PreemptKeeps(s: State, c: Cpu)
    requires Inv(s) && c in s.current
    ensures OnCpu(s, c) && Inv(Preempt(s, c))
  {
    hide InvOut, Requeue, Resched, CanResched;
    RunsOnCpu(s, c);
    var th := s.threads[s.current[c]];
    RequeueKeeps(s, c, th, th.quantum > 0);
    ReschedKeeps(Requeue(s, c, th, th.quantum > 0), c);
  }

  lemma SetPriorityKeeps(s: State, c: Cpu, priority: int)
    requires Inv(s) && c in s.current
    ensures OnCpu(s, c) && Inv(SetPriority(s, c, priority))
  {
    hide InvOut, Requeue, Resched, CanResched, Clamp;
    RunsOnCpu(s, c);
    var th := s.threads[s.current[c]].(priority := Clamp(priority));
    RequeueKeeps(s, c, th, true);
    ReschedKeeps(Requeue(s, c, th, true), c);
  }

  lemma SleepsOff(s: State, c: Cpu, th: Thread)
    requires Inv(s) && c in s.current && OnCpu(s, c) && !s.threads[s.current[c]].idle
    requires
      th == s.threads[s.current[c]].(state := Sleeping, blockedStatus := NoError, interruptable := th.interruptable)
    ensures InvOut(SetThread(s, s.current[c], th), {c})
  {
    hide InvOut, CanResched;
    RunsOnCpu(s, c);
    OffKeeps(s, c);
    var t := s.current[c];
    InvJoin(s, {});
    JoinersOf(s, t);
    TweakKeeps(Off(s, c), {c}, t, th);
    assert SetThread(Off(s, c), t, th) == SetThread(s, t, th);
  }

  lemma SleepKeeps(s: State, c: Cpu, interruptable: bool)
    requires Inv(s) && c in s.current && OnCpu(s, c) && !s.threads[s.current[c]].idle
    ensures Inv(Sleep(s, c, interruptable))
  {
    hide InvOut, Resched, CanResched;
    var t := s.current[c];
    var th := s.threads[t].(state := Sleeping, blockedStatus := NoError, interruptable := interruptable);
    SleepsOff(s, c, th);
    ReschedKeeps(SetThread(s, t, th), c);
  }

  lemma InvJoin(s: State, out: set<Cpu>)
    requires InvOut(s, out)
    ensures JoinOk(s.threads, s.waitQueues) && WaitOk(s.threads, s.waitQueues)
  {
  }

  /** The queue may be blocked on: a thread's own queue only while somebody may still wait for its death. */
  ghost predicate Waitable(s: State, q: Qid) {
    q in s.waitQueues && (q.Retcode? && q.t in s.threads ==> s.threads[q.t].state != Death && !s.threads[q.t].detached)
  }

  lemma BlocksOff(s: State, c: Cpu, q: Qid)
    requires Inv(s) && c in s.current && OnCpu(s, c) && !s.threads[s.current[c]].idle && Waitable(s, q)
    ensures InvOut(BlockOn(s, q, s.current[c]), {c})
  {
    hide InvOut, CanResched;
    RunsOnCpu(s, c);
    OffKeeps(s, c);
    var t := s.current[c];
    BlockOnKeeps(Off(s, c), {c}, q, t);
    assert BlockOn(Off(s, c), q, t) == BlockOn(s, q, t);
  }

  lemma BlockKeeps(s: State, c: Cpu, q: Qid)
    requires Inv(s) && c in s.current && OnCpu(s, c) && !s.threads[s.current[c]].idle && Waitable(s, q)
    ensures Inv(Block(s, c, q))
  {
    hide InvOut, Resched, CanResched;
    BlocksOff(s, c, q);
    ReschedKeeps(BlockOn(s, q, s.current[c]), c);
  }

  lemma RequeuedList(s: State, c: Cpu, th: Thread, head: bool)
    requires Inv(s) && c in s.current && OnCpu(s, c)
    requires th == s.threads[s.current[c]].(quantum := th.quantum) && !th.idle
    ensures
      var s1 := Requeue(s, c, th, head);
      var t := s.current[c];
      && InvOut(s1, {c}) && th.priority < |s.runQueue| && t !in s.runQueue[th.priority]
      && s1.runQueue[th.priority] == Put(s.runQueue[th.priority], t, head) && s1.current == s.current
      && t in s1.threads && s1.threads[t] == th.(state := Ready)
      && (forall u | u in s.threads && u != t :: u in s1.threads && s1.threads[u] == s.threads[u])
      && s1.threads.Keys == s.threads.Keys
  {
    hide RunList, WaitOk, JoinOk, CpusOk, BitmapOk;
    RunsOnCpu(s, c);
    KnownThread(s, {}, s.current[c]);
    RequeueKeeps(s, c, th, head);
    RunningNotQueued(s, s.current[c], th.priority);
  }

  lemma RunningNotQueued(s: State, t: Tid, p: nat)
    requires RunOk(s.threads, s.runQueue) && t in s.threads && s.threads[t].state == Running && p < |s.runQueue|
    ensures t !in s.runQueue[p]
  {
    assert RunList(s.threads, s.runQueue[p], p);
    assert !Queued(s.threads, p, t);
  }

  /** A yield lets another thread run whenever one of no lower priority is ready and allowed here. */
  lemma YieldLetsOthersRun(s: State, c: Cpu, u: Tid)
    requires Inv(s) && c in s.current && OnCpu(s, c) && !s.threads[s.current[c]].idle
    requires u in s.threads && s.threads[u].state == Ready && !s.threads[u].idle && MayRun(s.threads, u, c)
    requires s.threads[u].priority >= s.threads[s.current[c]].priority
    ensures Yield(s, c).current[c] != s.current[c]
  {
    hide InvOut, Resched, Requeue;
    var t := s.current[c];
    var th := s.threads[t].(quantum := 0);
    RunsOnCpu(s, c);
    RequeuedList(s, c, th, false);
    var s1 := Requeue(s, c, th, false);
    ReschedRunsBest(s1, c, u);
    PutAtEnd(s.runQueue[th.priority], t, false);
  }

  /** A thread put at one end of a queue has nobody beyond it. */
  lemma PutAtEnd(l: seq<Tid>, t: Tid, head: bool)
    requires t !in l
    ensures forall i, j | 0 <= i < j < |Put(l, t, head)| ::
              if head then Put(l, t, head)[j] != t else Put(l, t, head)[i] != t
  {
    var r := Put(l, t, head);
    forall i, j | 0 <= i < j < |r| ensures if head then r[j] != t else r[i] != t {
      if head {
        assert r[j] == l[j - 1];
      } else {
        assert r[i] == l[i];
      }
    }
  }

  /** A preempted thread with quantum left goes on unless a ready thread of higher priority is allowed here. */
  lemma PreemptGoesOn(s: State, c: Cpu)
    requires Inv(s) && c in s.current && OnCpu(s, c)
    requires !s.threads[s.current[c]].idle && s.threads[s.current[c]].quantum > 0
    requires MayRun(s.threads, s.current[c], c)
    requires forall u | u in s.threads && s.threads[u].state == Ready && !s.threads[u].idle
                        && MayRun(s.threads, u, c) ::
               s.threads[u].priority <= s.threads[s.current[c]].priority
    ensures Preempt(s, c).current[c] == s.current[c]
  {
    hide InvOut, Resched, Requeue;
    var t := s.current[c];
    var th := s.threads[t];
    RunsOnCpu(s, c);
    RequeuedList(s, c, th, true);
    var s1 := Requeue(s, c, th, true);
    ReschedRunsBest(s1, c, t);
    PutAtEnd(s.runQueue[th.priority], t, true);
  }

  // ---------------------------------------------------------------- wakes

  ghost predicate CanWake(s: State, q: Qid) {
    q in s.waitQueues && forall t | t in s.waitQueues[q].list :: t in s.threads && s.threads[t].priority < |s.runQueue|
  }

  lemma WakeReady(s: State, out: set<Cpu>, q: Qid)
    requires InvOut(s, out) && q in s.waitQueues
    ensures CanWake(s, q)
  {
    forall t | t in s.waitQueues[q].list ensures t in s.threads && s.threads[t].priority < |s.runQueue| {
      assert WaitList(s.threads, s.waitQueues[q], q);
      assert Waits(s.threads, q, t);
      assert ThreadOk(t, s.threads[t], s.current, s.idleOf, out, s.waitQueues.Keys);
    }
  }

  /** The loop of wait_queue_wake_all: one thread after another from the front of the queue. */
  function WakeList(s: State, q: Qid, status: Status): (s2: State)
    requires CanWake(s, q)
    ensures q in s2.waitQueues && s2.waitQueues[q].list == [] && (s.waitQueues[q].list == [] ==> s2 == s)
    ensures s2.current == s.current && s2.idleOf == s.idleOf
    ensures |s2.runQueue| == |s.runQueue| && s2.threads.Keys == s.threads.Keys
    ensures s2.waitQueues.Keys == s.waitQueues.Keys
    decreases |s.waitQueues[q].list|
  {
    if s.waitQueues[q].list == [] then s
    else WakeList(Wake(s, q, 0, status), q, status)
  }

  lemma {:induction false} WakeListKeeps(s: State, out: set<Cpu>, q: Qid, status: Status)
    requires InvOut(s, out) && q in s.waitQueues
    ensures CanWake(s, q) && InvOut(WakeList(s, q, status), out)
    decreases |s.waitQueues[q].list|
  {
    hide InvOut;
    WakeReady(s, out, q);
    if s.waitQueues[q].list != [] {
      WakeKeeps(s, out, q, 0, status);
      WakeListKeeps(Wake(s, q, 0, status), out, q, status);
    }
  }

  lemma WakeFirst(s: State, q: Qid, status: Status)
    requires CanWake(s, q) && s.waitQueues[q].list != [] && NoDup(s.waitQueues[q].list)
    ensures
      var l := s.waitQueues[q].list;
      var s1 := Wake(s, q, 0, status);
      && CanWake(s1, q) && s1.waitQueues.Keys == s.waitQueues.Keys && s1.waitQueues[q].list == l[1..] && NoDup(l[1..])
      && (forall t :: t in l <==> t == l[0] || t in l[1..]) && l[0] !in l[1..]
      && s1.threads == s.threads[l[0] := s.threads[l[0]].(state := Ready, waiting := None, blockedStatus := status)]
      && (forall r | r in s.waitQueues && r != q :: s1.waitQueues[r] == s.waitQueues[r])
  {
    assert RemoveAt(s.waitQueues[q].list, 0) == s.waitQueues[q].list[1..];
  }

  /** Exactly the waiters of the queue are made ready, each with the status; every other thread is left alone. */
  lemma {:induction false} WakeListWakes(s: State, q: Qid, status: Status, t: Tid)
    requires CanWake(s, q) && t in s.threads && NoDup(s.waitQueues[q].list)
    ensures
      WakeList(s, q, status).threads[t] ==
        if t in s.waitQueues[q].list then s.threads[t].(state := Ready, waiting := None, blockedStatus := status)
        else s.threads[t]
    decreases |s.waitQueues[q].list|
  {
    hide Wake;
    var l := s.waitQueues[q].list;
    if l != [] {
      WakeFirst(s, q, status);
      WakeListWakes(Wake(s, q, 0, status), q, status, t);
    }
  }

  lemma {:induction false} WakeListOthers(s: State, q: Qid, status: Status)
    requires CanWake(s, q) && NoDup(s.waitQueues[q].list)
    ensures forall r | r in s.waitQueues && r != q :: WakeList(s, q, status).waitQueues[r] == s.waitQueues[r]
    decreases |s.waitQueues[q].list|
  {
    hide Wake;
    if s.waitQueues[q].list != [] {
      WakeFirst(s, q, status);
      WakeListOthers(Wake(s, q, 0, status), q, status);
    }
  }

  /** A thread outside the queue may as well be changed before as after the wake-up. */
  lemma {:induction false} WakeListCommutes(s: State, q: Qid, status: Status, t: Tid, th: Thread)
    requires CanWake(s, q) && t in s.threads && t !in s.waitQueues[q].list
    ensures CanWake(SetThread(s, t, th), q)
    ensures WakeList(SetThread(s, t, th), q, status) == SetThread(WakeList(s, q, status), t, th)
    decreases |s.waitQueues[q].list|
  {
    hide Wake;
    if s.waitQueues[q].list != [] {
      WakeCommutes(s, q, status, t, th);
      WakeListCommutes(Wake(s, q, 0, status), q, status, t, th);
    }
  }

  lemma WakeCommutes(s: State, q: Qid, status: Status, t: Tid, th: Thread)
    requires CanWake(s, q) && t in s.threads && t !in s.waitQueues[q].list && s.waitQueues[q].list != []
    ensures CanWake(SetThread(s, t, th), q)
    ensures Wake(SetThread(s, t, th), q, 0, status) == SetThread(Wake(s, q, 0, status), t, th)
    ensures
      var s1 := Wake(s, q, 0, status);
      CanWake(s1, q) && t in s1.threads && s1.waitQueues[q].list == s.waitQueues[q].list[1..]
  {
    var u := s.waitQueues[q].list[0];
    var uh := s.threads[u].(state := Ready, waiting := None, blockedStatus := status);
    assert s.threads[t := th][u := uh] == s.threads[u := uh][t := th];
  }

  /** wait_queue_wake_one; with `reschedule` the caller goes to the front of its run queue first. */
  function WakeOne(s: State, c: Cpu, q: Qid, reschedule: bool, status: Status): (s2: State)
    requires CanWake(s, q) && OnCpu(s, c)
    requires s.current[c] !in s.waitQueues[q].list
  {
    if s.waitQueues[q].list == [] then s
    else if !reschedule then Wake(s, q, 0, status)
    else Resched(Wake(Requeue(s, c, s.threads[s.current[c]], true), q, 0, status), c)
  }

  /** wait_queue_wake_all */
  function WakeAll(s: State, c: Cpu, q: Qid, reschedule: bool, status: Status): (s2: State)
    requires CanWake(s, q) && OnCpu(s, c)
    requires s.current[c] !in s.waitQueues[q].list
  {
    if s.waitQueues[q].list == [] then s
    else if !reschedule then WakeList(s, q, status)
    else Resched(WakeList(Requeue(s, c, s.threads[s.current[c]], true), q, status), c)
  }

  lemma CallerNotWaiting(s: State, c: Cpu, q: Qid)
    requires Inv(s) && c in s.current && q in s.waitQueues
    ensures s.current[c] !in s.waitQueues[q].list
  {
    RunsOnCpu(s, c);
    assert WaitList(s.threads, s.waitQueues[q], q);
    assert !Waits(s.threads, q, s.current[c]);
  }

  lemma WakeOneKeeps(s: State, c: Cpu, q: Qid, reschedule: bool, status: Status)
    requires Inv(s) && c in s.current && q in s.waitQueues
    ensures CanWake(s, q) && OnCpu(s, c) && s.current[c] !in s.waitQueues[q].list
    ensures Inv(WakeOne(s, c, q, reschedule, status))
  {
    hide InvOut, Resched, CanResched, Wake;
    WakeReady(s, {}, q);
    RunsOnCpu(s, c);
    CallerNotWaiting(s, c, q);
    if s.waitQueues[q].list != [] {
      if !reschedule {
        WakeKeeps(s, {}, q, 0, status);
      } else {
        var th := s.threads[s.current[c]];
        RequeueKeeps(s, c, th, true);
        var s1 := Requeue(s, c, th, true);
        WakeKeeps(s1, {c}, q, 0, status);
        WakeCurrent(s1, q, 0, status);
        ReschedKeeps(Wake(s1, q, 0, status), c);
      }
    }
  }

  lemma WakeCurrent(s: State, q: Qid, i: nat, status: Status)
    requires q in s.waitQueues && i < |s.waitQueues[q].list| && s.waitQueues[q].list[i] in s.threads
    requires s.threads[s.waitQueues[q].list[i]].priority < |s.runQueue|
    ensures Wake(s, q, i, status).current == s.current
  {
  }

  lemma WakeAllKeeps(s: State, c: Cpu, q: Qid, reschedule: bool, status: Status)
    requires Inv(s) && c in s.current && q in s.waitQueues
    ensures CanWake(s, q) && OnCpu(s, c) && s.current[c] !in s.waitQueues[q].list
    ensures Inv(WakeAll(s, c, q, reschedule, status))
  {
    hide InvOut, Resched, CanResched, WakeList;
    WakeReady(s, {}, q);
    RunsOnCpu(s, c);
    CallerNotWaiting(s, c, q);
    if s.waitQueues[q].list != [] {
      if !reschedule {
        WakeListKeeps(s, {}, q, status);
      } else {
        var th := s.threads[s.current[c]];
        RequeueKeeps(s, c, th, true);
        var s1 := Requeue(s, c, th, true);
        WakeListKeeps(s1, {c}, q, status);
        ReschedKeeps(WakeList(s1, q, status), c);
      }
    }
  }

  /** A blocked thread stands in the queue its blocking_wait_queue names. */
  ghost predicate InItsQueue(s: State, t: Tid) {
    && t in s.threads && s.threads[t].waiting.Some? && s.threads[t].waiting.value in s.waitQueues
    && t in s.waitQueues[s.threads[t].waiting.value].list && s.threads[t].priority < |s.runQueue|
  }

  /** thread_unblock_from_wait_queue: a timeout or an interrupt takes one thread out of its queue. */
  function Unblock(s: State, t: Tid, status: Status): (s2: State)
    requires t in s.threads && (s.threads[t].state == Blocked ==> InItsQueue(s, t))
  {
    if s.threads[t].state != Blocked then s
    else
      var q := s.threads[t].waiting.value;
      Wake(s, q, Index(s.waitQueues[q].list, t), status)
  }

  lemma BlockedInQueue(s: State, out: set<Cpu>, t: Tid)
    requires InvOut(s, out) && t in s.threads && s.threads[t].state == Blocked
    ensures InItsQueue(s, t)
  {
    assert ThreadOk(t, s.threads[t], s.current, s.idleOf, out, s.waitQueues.Keys);
    var q := s.threads[t].waiting.value;
    assert WaitList(s.threads, s.waitQueues[q], q);
    assert Waits(s.threads, q, t);
  }

  lemma UnblockKeeps(s: State, t: Tid, status: Status)
    requires Inv(s) && t in s.threads
    ensures s.threads[t].state == Blocked ==> InItsQueue(s, t)
    ensures Inv(Unblock(s, t, status))
  {
    hide InvOut, Wake;
    if s.threads[t].state == Blocked {
      BlockedInQueue(s, {}, t);
      var q := s.threads[t].waiting.value;
      WakeKeeps(s, {}, q, Index(s.waitQueues[q].list, t), status);
    }
  }

  /** The thread leaves its sleep for the head of its run queue. */
  function EndSleep(s: State, t: Tid, status: Status): (s2: State)
    requires t in s.threads && s.threads[t].priority < |s.runQueue|
  {
    if s.threads[t].state != Sleeping then s
    else MakeReady(SetThread(s, t, s.threads[t].(blockedStatus := status)), t, true)
  }

  lemma EndSleepKeeps(s: State, t: Tid, status: Status)
    requires Inv(s) && t in s.threads
    ensures s.threads[t].priority < |s.runQueue| && Inv(EndSleep(s, t, status))
  {
    hide InvOut, MakeReady;
    KnownThread(s, {}, t);
    if s.threads[t].state == Sleeping {
      var th := s.threads[t].(blockedStatus := status);
      TweakKeeps(s, {}, t, th);
      MakeReadyKeeps(SetThread(s, t, th), {}, t, true);
    }
  }

  lemma KnownThread(s: State, out: set<Cpu>, t: Tid)
    requires InvOut(s, out) && t in s.threads
    ensures |s.runQueue| == NUM_PRIORITIES && s.threads[t].priority < NUM_PRIORITIES && Retcode(t) in s.waitQueues
    ensures s.threads[t].state == Death || s.threads[t].detached ==> s.waitQueues[Retcode(t)].list == []
    ensures s.threads[t].idle ==> s.threads[t].state in {Suspended, Ready, Running}
  {
    assert ThreadOk(t, s.threads[t], s.current, s.idleOf, out, s.waitQueues.Keys);
  }

  // ---------------------------------------------------------------- the end of a thread

  /** thread_exit_locked: a detached thread is torn down, any other one wakes those who wait for its death. */
  function Exit(s: State, c: Cpu): (s2: State)
    requires OnCpu(s, c) && CanWake(s, Retcode(s.current[c]))
    requires s.current[c] !in s.waitQueues[Retcode(s.current[c])].list
    requires s.idleOf[c] != s.current[c]
  {
    var t := s.current[c];
    var s1 := SetThread(s, t, s.threads[t].(state := Death));
    if s.threads[t].detached then Resched(Remove(s1, t), c)
    else Resched(WakeList(s1, Retcode(t), NoError), c)
  }

  lemma CanExit(s: State, c: Cpu)
    requires Inv(s) && c in s.current && OnCpu(s, c) && !s.threads[s.current[c]].idle
    ensures CanWake(s, Retcode(s.current[c])) && s.current[c] !in s.waitQueues[Retcode(s.current[c])].list
    ensures s.idleOf[c] != s.current[c]
  {
    RunsOnCpu(s, c);
    WakeReady(s, {}, Retcode(s.current[c]));
    CallerNotWaiting(s, c, Retcode(s.current[c]));
    assert CpuOk(c, s.threads, s.current, s.idleOf, {});
  }

  lemma ExitKeeps(s: State, c: Cpu)
    requires Inv(s) && c in s.current && OnCpu(s, c) && !s.threads[s.current[c]].idle
    ensures CanWake(s, Retcode(s.current[c])) && s.current[c] !in s.waitQueues[Retcode(s.current[c])].list
    ensures s.idleOf[c] != s.current[c]
    ensures Inv(Exit(s, c))
  {
    hide InvOut, Resched, CanResched, WakeList, CanWake;
    CanExit(s, c);
    if s.threads[s.current[c]].detached {
      ExitDetached(s, c);
    } else {
      ExitJoinable(s, c);
    }
  }

  lemma ExitDetached(s: State, c: Cpu)
    requires Inv(s) && c in s.current && OnCpu(s, c)
    requires !s.threads[s.current[c]].idle && s.threads[s.current[c]].detached
    ensures
      var t := s.current[c];
      var s2 := Remove(SetThread(s, t, s.threads[t].(state := Death)), t);
      CanResched(s2, c) && InvOut(s2, {c}) && Inv(Resched(s2, c))
  {
    hide InvOut, Resched, CanResched;
    var t := s.current[c];
    RunsOnCpu(s, c);
    OffKeeps(s, c);
    KnownThread(s, {}, t);
    RemoveKeeps(Off(s, c), {c}, t);
    assert Remove(Off(s, c), t) == Remove(SetThread(s, t, s.threads[t].(state := Death)), t);
    ReschedKeeps(Remove(Off(s, c), t), c);
  }

  lemma ExitJoinable(s: State, c: Cpu)
    requires Inv(s) && c in s.current && OnCpu(s, c)
    requires !s.threads[s.current[c]].idle && !s.threads[s.current[c]].detached
    requires CanWake(s, Retcode(s.current[c])) && s.current[c] !in s.waitQueues[Retcode(s.current[c])].list
    ensures
      var t := s.current[c];
      var s1 := SetThread(s, t, s.threads[t].(state := Death));
      CanWake(s1, Retcode(t)) && CanResched(WakeList(s1, Retcode(t), NoError), c)
      && InvOut(WakeList(s1, Retcode(t), NoError), {c}) && Inv(Resched(WakeList(s1, Retcode(t), NoError), c))
  {
    hide InvOut, Resched, CanResched, WakeList;
    var t := s.current[c];
    RunsOnCpu(s, c);
    OffKeeps(s, c);
    var off := Off(s, c);
    var q := Retcode(t);
    WakeListKeeps(off, {c}, q, NoError);
    var w := WakeList(off, q, NoError);
    WakeListCommutes(s, q, NoError, t, off.threads[t]);
    var th := s.threads[t].(state := Death);
    WakeListCommutes(off, q, NoError, t, th);
    assert SetThread(off, t, th) == SetThread(s, t, th);
    TweakKeeps(w, {c}, t, th);
    ReschedKeeps(SetThread(w, t, th), c);
  }

  /** thread_detach up to its call of thread_join. */
  function Detach(s: State, t: Tid): (s2: State)
    requires t in s.threads && CanWake(s, Retcode(t))
  {
    var s1 := WakeList(s, Retcode(t), ThreadDetached);
    SetThread(s1, t, s1.threads[t].(detached := s1.threads[t].state != Death))
  }

  lemma DetachKeeps(s: State, t: Tid)
    requires Inv(s) && t in s.threads
    ensures CanWake(s, Retcode(t)) && Inv(Detach(s, t))
  {
    hide InvOut, WakeList, CanWake;
    KnownThread(s, {}, t);
    WakeListKeeps(s, {}, Retcode(t), ThreadDetached);
    var s1 := WakeList(s, Retcode(t), ThreadDetached);
    TweakKeeps(s1, {}, t, s1.threads[t].(detached := s1.threads[t].state != Death));
  }

  /** thread_kill up to the wait: the signal is delivered and an interruptable wait or sleep ended. */
  function Signal(s: State, t: Tid): (s2: State)
    requires t in s.threads && s.threads[t].priority < |s.runQueue|
    requires s.threads[t].state == Blocked ==> InItsQueue(s, t)
  {
    var s1 := SetThread(s, t, s.threads[t].(killed := true));
    if !s.threads[t].interruptable then s1
    else if s.threads[t].state == Blocked then Unblock(s1, t, Interrupted)
    else EndSleep(s1, t, Interrupted)
  }

  lemma SignalKeeps(s: State, t: Tid)
    requires Inv(s) && t in s.threads
    ensures s.threads[t].priority < |s.runQueue| && (s.threads[t].state == Blocked ==> InItsQueue(s, t))
    ensures Inv(Signal(s, t))
  {
    hide InvOut, EndSleep, Unblock;
    KnownThread(s, {}, t);
    var th := s.threads[t].(killed := true);
    TweakKeeps(s, {}, t, th);
    var s1 := SetThread(s, t, th);
    UnblockKeeps(s, t, Interrupted);
    UnblockKeeps(s1, t, Interrupted);
    EndSleepKeeps(s1, t, Interrupted);
  }

  // ---------------------------------------------------------------- runs

  datatype Op =
    | OpYield(c: Cpu)
    | OpPreempt(c: Cpu)
    | OpTick(c: Cpu)
    | OpSetPriority(c: Cpu, wanted: int)
    | OpSleep(c: Cpu, interruptable: bool)
    | OpEndSleep(t: Tid)
    | OpInterruptable(c: Cpu, interruptable: bool)
    | OpBlock(c: Cpu, q: Qid)
    | OpWakeOne(c: Cpu, q: Qid, reschedule: bool, status: Status)
    | OpWakeAll(c: Cpu, q: Qid, reschedule: bool, status: Status)
    | OpTimeout(t: Tid)
    | OpCreate(t: Tid, priority: nat)
    | OpResume(t: Tid)
    | OpExit(c: Cpu)
    | OpJoin(c: Cpu, t: Tid)
    | OpReap(t: Tid)
    | OpDetach(t: Tid)
    | OpSignal(t: Tid)
    | OpAwaitDeath(c: Cpu, t: Tid)
    | OpNewQueue(id: nat)

  /** The caller is a thread other than an idle one. */
  ghost predicate Caller(s: State, c: Cpu) {
    OnCpu(s, c) && !s.threads[s.current[c]].idle
  }

  /** One atomic step. What the callers owe is what the routines assert about them. */
  ghost predicate Next(s: State, op: Op, s2: State) {
    match op
    case OpYield(c) => OnCpu(s, c) && s2 == Yield(s, c)
    case OpPreempt(c) => OnCpu(s, c) && s2 == Preempt(s, c)
    case OpTick(c) =>
      && Caller(s, c)
      && var t := s.current[c]; s2 == SetThread(s, t, s.threads[t].(quantum := s.threads[t].quantum - 1))
    case OpSetPriority(c, p) => Caller(s, c) && s2 == SetPriority(s, c, p)
    case OpSleep(c, i) => Caller(s, c) && s2 == Sleep(s, c, i)
    case OpEndSleep(t) => t in s.threads && s.threads[t].priority < |s.runQueue| && s2 == EndSleep(s, t, NoError)
    case OpInterruptable(c, i) =>
      Caller(s, c) && s2 == SetThread(s, s.current[c], s.threads[s.current[c]].(interruptable := i))
    case OpBlock(c, q) => Caller(s, c) && q.Object? && q in s.waitQueues && s2 == Block(s, c, q)
    case OpWakeOne(c, q, r, st) =>
      && CanWake(s, q) && OnCpu(s, c) && s.current[c] !in s.waitQueues[q].list && (r ==> Caller(s, c))
      && s2 == WakeOne(s, c, q, r, st)
    case OpWakeAll(c, q, r, st) =>
      && CanWake(s, q) && OnCpu(s, c) && s.current[c] !in s.waitQueues[q].list && (r ==> Caller(s, c))
      && s2 == WakeAll(s, c, q, r, st)
    case OpTimeout(t) =>
      t in s.threads && (s.threads[t].state == Blocked ==> InItsQueue(s, t)) && s2 == Unblock(s, t, TimedOut)
    case OpCreate(t, p) =>
      t !in s.threads && Retcode(t) !in s.waitQueues && p < NUM_PRIORITIES && s2 == Create(s, t, p)
    case OpResume(t) =>
      && t in s.threads && s.threads[t].state != Death && !s.threads[t].idle && s.threads[t].priority < |s.runQueue|
      && s2 == if s.threads[t].state == Suspended then MakeReady(s, t, true) else s
    case OpExit(c) =>
      && Caller(s, c) && CanWake(s, Retcode(s.current[c])) && s.current[c] !in s.waitQueues[Retcode(s.current[c])].list
      && s.idleOf[c] != s.current[c] && s2 == Exit(s, c)
    case OpJoin(c, t) =>
      && Caller(s, c) && t in s.threads && t != s.current[c] && Retcode(t) in s.waitQueues
      && s2 == if s.threads[t].detached then s
               else if s.threads[t].state != Death then Block(s, c, Retcode(t))
               else Remove(s, t)
    case OpReap(t) => t in s.threads && s.threads[t].state == Death && !s.threads[t].detached && s2 == Remove(s, t)
    case OpDetach(t) => t in s.threads && CanWake(s, Retcode(t)) && s2 == Detach(s, t)
    case OpSignal(t) =>
      && t in s.threads && s.threads[t].priority < |s.runQueue| && (s.threads[t].state == Blocked ==> InItsQueue(s, t))
      && s2 == Signal(s, t)
    case OpAwaitDeath(c, t) =>
      && Caller(s, c) && t in s.threads && t != s.current[c] && s.threads[t].state != Death && !s.threads[t].detached
      && Retcode(t) in s.waitQueues && s2 == Block(s, c, Retcode(t))
    case OpNewQueue(id) =>
      Object(id) !in s.waitQueues && s2 == s.(waitQueues := s.waitQueues[Object(id) := WaitQueue(0, [])])
  }

  lemma NewQueueKeeps(s: State, id: nat)
    requires Inv(s) && Object(id) !in s.waitQueues
    ensures Inv(s.(waitQueues := s.waitQueues[Object(id) := WaitQueue(0, [])]))
  {
    hide RunOk, BitmapOk, CpusOk;
    var wq := s.waitQueues[Object(id) := WaitQueue(0, [])];
    var none: seq<Tid> := [];
    forall u ensures u in none <==> Waits(s.threads, Object(id), u) {
      if u in s.threads {
        assert ThreadOk(u, s.threads[u], s.current, s.idleOf, {}, s.waitQueues.Keys);
      }
    }
    forall u | u in s.threads ensures ThreadOk(u, s.threads[u], s.current, s.idleOf, {}, wq.Keys) {
      assert ThreadOk(u, s.threads[u], s.current, s.idleOf, {}, s.waitQueues.Keys);
    }
  }

  lemma JoinKeeps(s: State, c: Cpu, t: Tid)
    requires Inv(s) && Caller(s, c) && t in s.threads && t != s.current[c] && Retcode(t) in s.waitQueues
    requires !s.threads[t].detached
    ensures s.threads[t].state != Death ==> Inv(Block(s, c, Retcode(t)))
    ensures s.threads[t].state == Death ==> Inv(Remove(s, t))
  {
    hide InvOut, Block, Remove, CanResched;
    KnownThread(s, {}, t);
    OnCpuRuns(s, c);
    if s.threads[t].state == Death {
      RemoveKeeps(s, {}, t);
    } else {
      BlockKeeps(s, c, Retcode(t));
    }
  }

  /** Steps of a thread on itself, an idle one excepted. */
  predicate ByCaller(op: Op) {
    || op.OpTick? || op.OpSleep? || op.OpInterruptable? || op.OpBlock? || op.OpExit? || op.OpJoin?
    || op.OpAwaitDeath?
  }

  /** A clock tick or a change of the interruptable flag. */
  lemma FlagStep(s: State, op: Op, s2: State)
    requires Inv(s) && Next(s, op, s2) && (op.OpTick? || op.OpInterruptable?)
    ensures Inv(s2)
  {
    hide InvOut, CanResched;
    OnCpuRuns(s, op.c);
    var t := s.current[op.c];
    KnownThread(s, {}, t);
    TweakKeeps(s, {}, t, s2.threads[t]);
  }

  lemma CallerStep(s: State, op: Op, s2: State)
    requires Inv(s) && Next(s, op, s2)
    requires ByCaller(op)
    ensures Inv(s2)
  {
    hide InvOut, CanResched, CanWake, Sleep, Block, Remove, Exit, SetThread;
    OnCpuRuns(s, op.c);
    match op
    case OpTick(c) => FlagStep(s, op, s2);
    case OpInterruptable(c, i) => FlagStep(s, op, s2);
    case OpSleep(c, i) => SleepKeeps(s, c, i);
    case OpBlock(c, q) => BlockKeeps(s, c, q);
    case OpExit(c) => ExitKeeps(s, c);
    case OpJoin(c, t) => if !s.threads[t].detached { JoinKeeps(s, c, t); }
    case OpAwaitDeath(c, t) => JoinKeeps(s, c, t);
  }

  lemma OtherStep(s: State, op: Op, s2: State)
    requires Inv(s) && Next(s, op, s2)
    requires !ByCaller(op)
    ensures Inv(s2)
  {
    hide InvOut, CanResched, Yield, Preempt, SetPriority, EndSleep, WakeOne, WakeAll, Unblock, Create, MakeReady,
      Remove, Detach, Signal;
    match op
    case OpYield(c) => OnCpuRuns(s, c); YieldKeeps(s, c);
    case OpPreempt(c) => OnCpuRuns(s, c); PreemptKeeps(s, c);
    case OpSetPriority(c, p) => OnCpuRuns(s, c); SetPriorityKeeps(s, c, p);
    case OpEndSleep(t) => EndSleepKeeps(s, t, NoError);
    case OpWakeOne(c, q, r, st) => OnCpuRuns(s, c); WakeOneKeeps(s, c, q, r, st);
    case OpWakeAll(c, q, r, st) => OnCpuRuns(s, c); WakeAllKeeps(s, c, q, r, st);
    case OpTimeout(t) => UnblockKeeps(s, t, TimedOut);
    case OpCreate(t, p) => CreateKeeps(s, t, p);
    case OpResume(t) => if s.threads[t].state == Suspended { MakeReadyKeeps(s, {}, t, true); }
    case OpReap(t) => KnownThread(s, {}, t); RemoveKeeps(s, {}, t);
    case OpDetach(t) => DetachKeeps(s, t);
    case OpSignal(t) => SignalKeeps(s, t);
    case OpNewQueue(id) => NewQueueKeeps(s, id);
  }

  lemma OnCpuRuns(s: State, c: Cpu)
    requires OnCpu(s, c)
    ensures c in s.current
  {
  }

  /** Every step of every routine keeps the invariant. */
  lemma StepKeeps(s: State, op: Op, s2: State)
    requires Inv(s) && Next(s, op, s2)
    ensures Inv(s2)
  {
    hide Inv, Next;
    if ByCaller(op) {
      CallerStep(s, op, s2);
    } else {
      OtherStep(s, op, s2);
    }
  }

  /** The state once every processor has an idle thread running: processor c runs thread c. */
  ghost predicate Booted(s: State) {
    && s.runQueue == seq(NUM_PRIORITIES, p => []) && s.bitmap == {}
    && s.current == s.idleOf
    && s.waitQueues.Keys == (set t | t in s.threads :: Retcode(t))
    && (forall q | q in s.waitQueues :: s.waitQueues[q] == WaitQueue(0, []))
    && (forall c | c in s.current :: s.current[c] in s.threads && s.threads[s.current[c]].currCpu == c)
    && (forall t | t in s.threads ::
          var th := s.threads[t];
          && th.state == Running && th.idle && th.priority == IDLE_PRIORITY && th.waiting.None?
          && th.currCpu == th.pinned && th.pinned in s.idleOf && s.idleOf[th.pinned] == t)
  }

  lemma BootedInv(s: State)
    requires Booted(s)
    ensures Inv(s)
  {
    forall c | c in s.current ensures CpuOk(c, s.threads, s.current, s.idleOf, {}) {
    }
  }

  ghost predicate IsRun(ops: seq<Op>, states: seq<State>) {
    |states| == |ops| + 1 && forall i | 0 <= i < |ops| :: Next(states[i], ops[i], states[i + 1])
  }

  /** The invariant holds in every state of every run. */
  lemma {:induction false} RunKeeps(ops: seq<Op>, states: seq<State>, i: nat)
    requires IsRun(ops, states) && Booted(states[0]) && i < |states|
    ensures Inv(states[i])
  {
    hide Inv, Next, Booted;
    if i == 0 {
      BootedInv(states[0]);
    } else {
      RunKeeps(ops, states, i - 1);
      StepKeeps(states[i - 1], ops[i - 1], states[i]);
    }
  }

  // ---------------------------------------------------------------- what the invariant says

  /** Every thread stands in the queues its state calls for, once, and in no other. */
  lemma QueuesOfThread(s: State, t: Tid)
    requires Inv(s) && t in s.threads
    ensures forall p | 0 <= p < NUM_PRIORITIES ::
              t in s.runQueue[p] <==> s.threads[t].state == Ready && !s.threads[t].idle && s.threads[t].priority == p
    ensures forall q | q in s.waitQueues ::
              t in s.waitQueues[q].list <==> s.threads[t].state == Blocked && s.threads[t].waiting == Some(q)
    ensures s.threads[t].state == Ready && !s.threads[t].idle ==>
              s.threads[t].priority < NUM_PRIORITIES && t in s.runQueue[s.threads[t].priority]
    ensures s.threads[t].state == Blocked ==>
              s.threads[t].waiting.Some? && s.threads[t].waiting.value in s.waitQueues
              && t in s.waitQueues[s.threads[t].waiting.value].list
    ensures s.threads[t].state == Running ==>
              exists c ::
                c in s.current && s.current[c] == t && forall d | d in s.current && s.current[d] == t :: d == c
  {
    var th := s.threads[t];
    assert ThreadOk(t, th, s.current, s.idleOf, {}, s.waitQueues.Keys);
    forall p | 0 <= p < NUM_PRIORITIES
      ensures t in s.runQueue[p] <==> th.state == Ready && !th.idle && th.priority == p
    {
      assert RunList(s.threads, s.runQueue[p], p);
      assert Queued(s.threads, p, t) <==> th.state == Ready && !th.idle && th.priority == p;
    }
    forall q | q in s.waitQueues ensures t in s.waitQueues[q].list <==> th.state == Blocked && th.waiting == Some(q) {
      assert WaitList(s.threads, s.waitQueues[q], q);
      assert Waits(s.threads, q, t) <==> th.state == Blocked && th.waiting == Some(q);
    }
    if th.state == Running {
      var c := th.currCpu;
      assert c in s.current && s.current[c] == t;
      forall d | d in s.current && s.current[d] == t ensures d == c {
        assert CpuOk(d, s.threads, s.current, s.idleOf, {});
      }
    }
  }

  /** The queues hold nothing but threads, none twice, their counts are right and the bitmap marks the non-empty
      ones. */
  lemma QueuesSound(s: State)
    requires Inv(s)
    ensures forall p | 0 <= p < NUM_PRIORITIES ::
              && NoDup(s.runQueue[p]) && (p in s.bitmap <==> s.runQueue[p] != [])
              && (forall t | t in s.runQueue[p] :: t in s.threads)
    ensures forall q | q in s.waitQueues ::
              NoDup(s.waitQueues[q].list) && s.waitQueues[q].count == |s.waitQueues[q].list|
              && (forall t | t in s.waitQueues[q].list :: t in s.threads)
    ensures forall t | t in s.threads && (s.threads[t].state == Death || s.threads[t].detached) ::
              Retcode(t) in s.waitQueues && s.waitQueues[Retcode(t)].list == []
  {
    forall p | 0 <= p < NUM_PRIORITIES
      ensures NoDup(s.runQueue[p]) && (p in s.bitmap <==> s.runQueue[p] != [])
              && (forall t | t in s.runQueue[p] :: t in s.threads)
    {
      assert RunList(s.threads, s.runQueue[p], p);
      assert forall t :: Queued(s.threads, p, t) ==> t in s.threads;
    }
    forall q | q in s.waitQueues
      ensures NoDup(s.waitQueues[q].list) && s.waitQueues[q].count == |s.waitQueues[q].list|
              && (forall t | t in s.waitQueues[q].list :: t in s.threads)
    {
      assert WaitList(s.threads, s.waitQueues[q], q);
      assert forall t :: Waits(s.threads, q, t) ==> t in s.threads;
    }
  }

  // ---------------------------------------------------------------- an idle caller

  /** The caller goes to the head of its run queue whoever it is, as thread_set_priority and the wakes with a reschedule
      have it: they do not look for an idle thread. */
  function QueueCaller(s: State, c: Cpu, priority: nat): (s2: State)
    requires OnCpu(s, c) && priority < NUM_PRIORITIES
    ensures CanResched(s2, c)
  {
    var t := s.current[c];
    Insert(SetThread(s, t, s.threads[t].(state := Ready, priority := priority)), t, true)
  }

  /** Called by an idle thread, that is right exactly when nothing else can run and the idle thread goes on: otherwise
      it stays behind in a run queue. */
  lemma IdleCaller(s: State, c: Cpu, priority: nat)
    requires Inv(s) && c in s.current && OnCpu(s, c) && s.threads[s.current[c]].idle && priority < NUM_PRIORITIES
    ensures
      var s2 := Resched(QueueCaller(s, c, priority), c);
      Inv(s2) <==> c in s2.current && s2.current[c] == s.current[c]
  {
    hide PickBelow, InvOut, NoneBefore;
    var t := s.current[c];
    var r := QueueCaller(s, c, priority);
    IdleFacts(s, c);
    match PickBelow(r, c, NUM_PRIORITIES) {
      case NoSpot =>
        IdleInLine(s, c, priority);
        assert false;
      case Spot(p, i) =>
        if r.runQueue[p][i] == t {
          IdleGoesOn(s, c, priority, p, i);
        } else {
          IdleLeftBehind(s, c, priority, p, i);
        }
    }
  }

  lemma IdleFacts(s: State, c: Cpu)
    requires Inv(s) && c in s.current && OnCpu(s, c) && s.threads[s.current[c]].idle
    ensures
      var t := s.current[c];
      && s.threads[t].pinned == c && s.threads[t].state == Running && s.threads[t].currCpu == c
      && forall p | 0 <= p < |s.runQueue| :: t !in s.runQueue[p]
  {
    var t := s.current[c];
    assert CpuOk(c, s.threads, s.current, s.idleOf, {});
    assert ThreadOk(t, s.threads[t], s.current, s.idleOf, {}, s.waitQueues.Keys);
    forall p | 0 <= p < |s.runQueue| ensures t !in s.runQueue[p] {
      assert RunList(s.threads, s.runQueue[p], p);
      assert !Queued(s.threads, p, t);
    }
  }

  lemma IdleInLine(s: State, c: Cpu, priority: nat)
    requires Inv(s) && c in s.current && OnCpu(s, c) && s.threads[s.current[c]].idle && priority < NUM_PRIORITIES
    ensures !PickBelow(QueueCaller(s, c, priority), c, NUM_PRIORITIES).NoSpot?
  {
    hide PickBelow, InvOut;
    IdleFacts(s, c);
    var r := QueueCaller(s, c, priority);
    assert r.runQueue[priority][0] == s.current[c] && MayRun(r.threads, s.current[c], c);
    var spot := PickBelow(r, c, NUM_PRIORITIES);
    assert Best(r, c, NUM_PRIORITIES, spot);
    assert !NoneBefore(r.threads, r.runQueue[priority], c, |r.runQueue[priority]|);
  }

  lemma IdleGoesOn(s: State, c: Cpu, priority: nat, p: nat, i: nat)
    requires Inv(s) && c in s.current && OnCpu(s, c) && s.threads[s.current[c]].idle && priority < NUM_PRIORITIES
    requires
      var r := QueueCaller(s, c, priority);
      p < |r.runQueue| && i < |r.runQueue[p]| && r.runQueue[p][i] == s.current[c]
    ensures
      var r := QueueCaller(s, c, priority);
      Inv(Take(SwitchTo(r, c, s.current[c]), p, i))
  {
    hide RunOk, WaitOk, JoinOk, ThreadsOk, CpusOk;
    IdleFacts(s, c);
    InvJoin(s, {});
    JoinersOf(s, s.current[c]);
    var t := s.current[c];
    var th := s.threads[t].(priority := priority);
    assert p == priority && i == 0;
    var r := QueueCaller(s, c, priority);
    assert RemoveAt(r.runQueue[p], 0) == s.runQueue[p];
    var s2 := Take(SwitchTo(r, c, t), p, i);
    assert s2.runQueue == s.runQueue && s2.bitmap == s.bitmap;
    assert s2.threads == s.threads[t := th];
    assert s2 == SetThread(s, t, th);
    TweakKeeps(s, {}, t, th);
  }

  lemma IdleLeftBehind(s: State, c: Cpu, priority: nat, p: nat, i: nat)
    requires Inv(s) && c in s.current && OnCpu(s, c) && s.threads[s.current[c]].idle && priority < NUM_PRIORITIES
    requires
      var r := QueueCaller(s, c, priority);
      && p < |r.runQueue| && i < |r.runQueue[p]| && r.runQueue[p][i] != s.current[c]
      && r.runQueue[p][i] in r.threads
    ensures
      var r := QueueCaller(s, c, priority);
      var s2 := Take(SwitchTo(r, c, r.runQueue[p][i]), p, i);
      !Inv(s2) && c in s2.current && s2.current[c] != s.current[c]
  {
    hide WaitOk, JoinOk, ThreadsOk, CpusOk, BitmapOk;
    var t := s.current[c];
    var r := QueueCaller(s, c, priority);
    var s2 := Take(SwitchTo(r, c, r.runQueue[p][i]), p, i);
    assert s2.runQueue[priority][0] == t;
    assert !Queued(s2.threads, priority, t);
    assert Inv(s2) ==> RunList(s2.threads, s2.runQueue[priority], priority);
  }
}
