/** What the scheduler routines do to threads and queues, field by field and place by place: a reference description,
    and a theorem per routine that it does exactly that. */
module SchedEffects {

  import opened Sched
  import opened SchedOps
  import opened Waiters

  // ---------------------------------------------------------------- the reference

  /** The thread may run on processor c: it is pinned there or nowhere. */
  predicate Allowed(ts: Threads, t: Tid, c: Cpu) {
    t in ts && (ts[t].pinned < 0 || ts[t].pinned == c)
  }

  function Ahead(lines: seq<seq<Tid>>, p: nat, t: Tid): (r: seq<seq<Tid>>)
    requires p < |lines|
  {
    lines[p := [t] + lines[p]]
  }

  function Behind(lines: seq<seq<Tid>>, p: nat, t: Tid): (r: seq<seq<Tid>>)
    requires p < |lines|
  {
    lines[p := lines[p] + [t]]
  }

  function Less(l: seq<Tid>, t: Tid): (r: seq<Tid>) {
    if l == [] then [] else (if l[0] == t then [] else [l[0]]) + Less(l[1..], t)
  }

  /** Thread u stands first among those that may run on c in line p. */
  ghost predicate FirstIn(ts: Threads, l: seq<Tid>, c: Cpu, u: Tid) {
    exists i | 0 <= i < |l| :: l[i] == u && Allowed(ts, u, c) && forall j | 0 <= j < i :: !Allowed(ts, l[j], c)
  }

  ghost predicate NobodyIn(ts: Threads, l: seq<Tid>, c: Cpu) {
    forall i | 0 <= i < |l| :: !Allowed(ts, l[i], c)
  }

  /** Of the ready threads in the lines, u is to run on c: the first of the highest line, or the idle thread. */
  ghost predicate Winner(ts: Threads, lines: seq<seq<Tid>>, c: Cpu, idle: Tid, u: Tid) {
    || (u == idle && forall p | 0 <= p < |lines| :: NobodyIn(ts, lines[p], c))
    || exists p | 0 <= p < |lines| ::
         FirstIn(ts, lines[p], c, u) && forall r | p < r < |lines| :: NobodyIn(ts, lines[r], c)
  }

  /** Processor c goes over from one thread to another, which gets a quantum of 5 if it has used up its own. */
  ghost predicate Switched(ts: Threads, ts2: Threads, c: Cpu, from: Tid, to: Tid) {
    && to in ts && ts2.Keys == ts.Keys
    && forall v | v in ts ::
         ts2[v] ==
           if v == to && to == from then ts[v].(state := Running)
           else if v == to then
             ts[v].(state := Running, currCpu := c, quantum := if ts[v].quantum <= 0 then 5 else ts[v].quantum)
           else if v == from then ts[v].(currCpu := -1)
           else ts[v]
  }

  /** Starting from these threads and lines of ready threads, processor c has chosen whom to run. */
  ghost predicate Ran(s: State, ts: Threads, lines: seq<seq<Tid>>, c: Cpu, s2: State) {
    && c in s.current && c in s.idleOf && c in s2.current && s2.current == s.current[c := s2.current[c]]
    && s2.idleOf == s.idleOf
    && Winner(ts, lines, c, s.idleOf[c], s2.current[c])
    && Switched(ts, s2.threads, c, s.current[c], s2.current[c])
    && |s2.runQueue| == |lines| && forall p | 0 <= p < |lines| :: s2.runQueue[p] == Less(lines[p], s2.current[c])
  }

  // ---------------------------------------------------------------- the reschedule

  lemma {:induction false} LessOne(l: seq<Tid>, i: nat)
    requires NoDup(l) && i < |l|
    ensures Less(l, l[i]) == RemoveAt(l, i)
    decreases |l|
  {
    if i == 0 {
      LessNone(l[1..], l[0]);
      assert RemoveAt(l, 0) == l[1..] && [] + l[1..] == l[1..];
    } else {
      LessOne(l[1..], i - 1);
      assert RemoveAt(l, i) == [l[0]] + RemoveAt(l[1..], i - 1);
    }
  }

  lemma {:induction false} LessNone(l: seq<Tid>, t: Tid)
    requires t !in l
    ensures Less(l, t) == l
    decreases |l|
  {
    if l != [] {
      LessNone(l[1..], t);
    }
  }

  lemma ReschedDoes(s: State, c: Cpu)
    requires InvOut(s, {c}) && c in s.current
    ensures CanResched(s, c) && Ran(s, s.threads, s.runQueue, c, Resched(s, c))
    ensures Resched(s, c).waitQueues == s.waitQueues
  {
    hide PickBelow, InvOut;
    ReschedReady(s, {c}, c);
    InvRun(s, {c});
    match PickBelow(s, c, NUM_PRIORITIES)
    case NoSpot => IdleRuns(s, c);
    case Spot(p, i) => SpotRuns(s, c, p, i);
  }

  /** The same reschedule, seen from the state before the caller's own part. */
  lemma RanFrom(s: State, ts: Threads, lines: seq<seq<Tid>>, s1: State, c: Cpu, s2: State)
    requires Ran(s1, s1.threads, s1.runQueue, c, s2)
    requires s1.current == s.current && s1.idleOf == s.idleOf && s1.threads == ts && s1.runQueue == lines
    ensures Ran(s, ts, lines, c, s2)
  {
    hide Winner, Switched, Less;
  }

  lemma IdleRuns(s: State, c: Cpu)
    requires InvOut(s, {c}) && c in s.current && CanResched(s, c) && Best(s, c, NUM_PRIORITIES, NoSpot)
    ensures Ran(s, s.threads, s.runQueue, c, SwitchTo(s, c, s.idleOf[c]))
  {
    hide WaitOk, JoinOk, BitmapOk, ThreadsOk;
    var u := s.idleOf[c];
    assert CpuOk(c, s.threads, s.current, s.idleOf, {c});
    forall p | 0 <= p < |s.runQueue| ensures Less(s.runQueue[p], u) == s.runQueue[p] {
      assert RunList(s.threads, s.runQueue[p], p) && !Queued(s.threads, p, u);
      LessNone(s.runQueue[p], u);
    }
    forall p | 0 <= p < |s.runQueue| ensures NobodyIn(s.threads, s.runQueue[p], c) {
      assert NoneBefore(s.threads, s.runQueue[p], c, |s.runQueue[p]|);
      NobodyBefore(s.threads, s.runQueue[p], c, |s.runQueue[p]|);
    }
  }

  lemma NobodyBefore(ts: Threads, l: seq<Tid>, c: Cpu, n: nat)
    requires NoneBefore(ts, l, c, n) && n <= |l|
    ensures forall j | 0 <= j < n :: !Allowed(ts, l[j], c)
  {
    forall j | 0 <= j < n ensures !Allowed(ts, l[j], c) {
      assert !MayRun(ts, l[j], c);
    }
  }

  lemma SpotRuns(s: State, c: Cpu, p: nat, i: nat)
    requires InvOut(s, {c}) && c in s.current && CanResched(s, c) && Best(s, c, NUM_PRIORITIES, Spot(p, i))
    ensures
      var s2 := Take(SwitchTo(s, c, s.runQueue[p][i]), p, i);
      Ran(s, s.threads, s.runQueue, c, s2) && s2.waitQueues == s.waitQueues
  {
    hide WaitOk, JoinOk, BitmapOk, ThreadsOk, CpusOk, Less;
    var u := s.runQueue[p][i];
    var s2 := Take(SwitchTo(s, c, u), p, i);
    NobodyBefore(s.threads, s.runQueue[p], c, i);
    assert MayRun(s.threads, u, c) && Allowed(s.threads, u, c);
    assert FirstIn(s.threads, s.runQueue[p], c, u);
    forall r | p < r < |s.runQueue| ensures NobodyIn(s.threads, s.runQueue[r], c) {
      assert NoneBefore(s.threads, s.runQueue[r], c, |s.runQueue[r]|);
      NobodyBefore(s.threads, s.runQueue[r], c, |s.runQueue[r]|);
    }
    forall r | 0 <= r < |s.runQueue| ensures s2.runQueue[r] == Less(s.runQueue[r], u) {
      LinesLess(s, p, i, r);
    }
  }

  lemma LinesLess(s: State, p: nat, i: nat, r: nat)
    requires RunOk(s.threads, s.runQueue) && p < |s.runQueue| && i < |s.runQueue[p]| && r < |s.runQueue|
    ensures Less(s.runQueue[r], s.runQueue[p][i]) == if r == p then RemoveAt(s.runQueue[p], i) else s.runQueue[r]
  {
    hide Less;
    var u := s.runQueue[p][i];
    assert RunList(s.threads, s.runQueue[p], p) && RunList(s.threads, s.runQueue[r], r);
    assert Queued(s.threads, p, u);
    if r == p {
      LessOne(s.runQueue[p], i);
    } else {
      assert !Queued(s.threads, r, u);
      LessNone(s.runQueue[r], u);
    }
  }

  // ---------------------------------------------------------------- giving up the processor

  lemma RequeueDoes(s: State, c: Cpu, th: Thread, head: bool)
    requires Inv(s) && c in s.current && OnCpu(s, c) && th.priority < NUM_PRIORITIES
    requires th == s.threads[s.current[c]].(quantum := th.quantum, priority := th.priority)
    ensures
      var t := s.current[c];
      var lines := if th.idle then s.runQueue else if head then Ahead(s.runQueue, th.priority, t)
                   else Behind(s.runQueue, th.priority, t);
      var s2 := Resched(Requeue(s, c, th, head), c);
      Ran(s, s.threads[t := th.(state := Ready)], lines, c, s2) && s2.waitQueues == s.waitQueues
  {
    hide InvOut, Resched, Ran;
    RequeueKeeps(s, c, th, head);
    var t := s.current[c];
    var lines := if th.idle then s.runQueue else if head then Ahead(s.runQueue, th.priority, t)
                 else Behind(s.runQueue, th.priority, t);
    var s1 := Requeue(s, c, th, head);
    ReschedDoes(s1, c);
    assert s1.threads == s.threads[t := th.(state := Ready)];
    RanFrom(s, s.threads[t := th.(state := Ready)], lines, s1, c, Resched(s1, c));
  }

  /** thread_yield: the caller has no quantum left and goes to the end of its line; an idle caller to none. */
  lemma YieldDoes(s: State, c: Cpu)
    requires Inv(s) && c in s.current
    ensures OnCpu(s, c)
    ensures
      var t := s.current[c];
      var th := s.threads[t];
      var lines := if th.idle then s.runQueue else Behind(s.runQueue, th.priority, t);
      && Ran(s, s.threads[t := th.(state := Ready, quantum := 0)], lines, c, Yield(s, c))
      && Yield(s, c).waitQueues == s.waitQueues
  {
    hide InvOut, Resched, Requeue, Ran, CanResched;
    RunsOnCpu(s, c);
    RequeueDoes(s, c, s.threads[s.current[c]].(quantum := 0), false);
  }

  /** thread_preempt: the caller goes to the front of its line with quantum left, to the end of it without. */
  lemma PreemptDoes(s: State, c: Cpu)
    requires Inv(s) && c in s.current
    ensures OnCpu(s, c)
    ensures
      var t := s.current[c];
      var th := s.threads[t];
      var lines := if th.idle then s.runQueue
                   else if th.quantum > 0 then Ahead(s.runQueue, th.priority, t)
                   else Behind(s.runQueue, th.priority, t);
      && Ran(s, s.threads[t := th.(state := Ready)], lines, c, Preempt(s, c))
      && Preempt(s, c).waitQueues == s.waitQueues
  {
    hide InvOut, Resched, Requeue, Ran, CanResched;
    RunsOnCpu(s, c);
    var th := s.threads[s.current[c]];
    RequeueDoes(s, c, th, th.quantum > 0);
  }

  /** thread_set_priority: the caller gets the priority wanted, from 1 to 31, and goes to the front of its line. */
  lemma SetPriorityDoes(s: State, c: Cpu, wanted: int)
    requires Inv(s) && c in s.current && OnCpu(s, c) && !s.threads[s.current[c]].idle
    ensures
      var t := s.current[c];
      var p := if wanted < 1 then 1 else if wanted > 31 then 31 else wanted;
      var s2 := SetPriority(s, c, wanted);
      && Ran(s, s.threads[t := s.threads[t].(state := Ready, priority := p)], Ahead(s.runQueue, p, t), c, s2)
      && s2.waitQueues == s.waitQueues
  {
    hide InvOut, Resched, Requeue, Ran, CanResched;
    RequeueDoes(s, c, s.threads[s.current[c]].(priority := Clamp(wanted)), true);
  }

  /** The caller goes on exactly when no ready thread allowed here has a priority above its new one. */
  lemma SetPriorityGoesOn(s: State, c: Cpu, wanted: int)
    requires Inv(s) && c in s.current && OnCpu(s, c) && !s.threads[s.current[c]].idle
    requires Allowed(s.threads, s.current[c], c)
    ensures
      var t := s.current[c];
      var p := if wanted < 1 then 1 else if wanted > 31 then 31 else wanted;
      var s2 := SetPriority(s, c, wanted);
      && s2.threads.Keys == s.threads.Keys && s2.threads[t].priority == p
      && (forall u | u in s.threads && u != t :: s2.threads[u].priority == s.threads[u].priority)
      && c in s2.current
      && (s2.current[c] == t <==>
            forall u |
              u in s.threads && s.threads[u].state == Ready && !s.threads[u].idle && Allowed(s.threads, u, c) ::
              s.threads[u].priority <= p)
  {
    hide InvOut, Resched, SetPriority, Less, Winner;
    SetPriorityDoes(s, c, wanted);
    RunsOnCpu(s, c);
    var t := s.current[c];
    CanExit(s, c);
    var p: nat := if wanted < 1 then 1 else if wanted > 31 then 31 else wanted;
    var ts := s.threads[t := s.threads[t].(state := Ready, priority := p)];
    var lines := Ahead(s.runQueue, p, t);
    var s2 := SetPriority(s, c, wanted);
    InvRun(s, {});
    FrontWins(s, ts, c, t, p, s2.current[c]);
    forall u | u in s.threads ensures s.threads[u].priority < NUM_PRIORITIES {
      KnownThread(s, {}, u);
    }
  }

  /** Whoever is put at the front of line p wins exactly if nobody allowed stands in a higher line. */
  lemma FrontWins(s: State, ts: Threads, c: Cpu, t: Tid, p: nat, u: Tid)
    requires RunOk(s.threads, s.runQueue) && p < NUM_PRIORITIES && |s.runQueue| == NUM_PRIORITIES
    requires t in s.threads && s.threads[t].state == Running
    requires ts.Keys == s.threads.Keys && (forall v | v in s.threads && v != t :: ts[v] == s.threads[v])
    requires Allowed(ts, t, c) && c in s.idleOf && s.idleOf[c] != t
    requires Winner(ts, Ahead(s.runQueue, p, t), c, s.idleOf[c], u)
    ensures u == t <==>
              forall v | v in s.threads && s.threads[v].state == Ready && !s.threads[v].idle && Allowed(s.threads, v, c)
                         && s.threads[v].priority < NUM_PRIORITIES :: s.threads[v].priority <= p
  {
    hide RunOk;
    var lines := Ahead(s.runQueue, p, t);
    assert lines[p][0] == t && !NobodyIn(ts, lines[p], c);
    var q :| 0 <= q < |lines| && FirstIn(ts, lines[q], c, u) && forall r | q < r < |lines| :: NobodyIn(ts, lines[r], c);
    assert q >= p;
    if q == p {
      FirstIsFirst(ts, lines[p], c, u);
      forall v | v in s.threads && s.threads[v].state == Ready && !s.threads[v].idle && Allowed(s.threads, v, c)
                 && s.threads[v].priority < NUM_PRIORITIES
        ensures s.threads[v].priority <= p
      {
        InLine(s, v);
        NotAmong(ts, lines[s.threads[v].priority], c, v);
      }
    } else {
      NotRunning(s, t, q);
      OfLine(s, q, u);
    }
  }

  lemma NotAmong(ts: Threads, l: seq<Tid>, c: Cpu, v: Tid)
    ensures NobodyIn(ts, l, c) && v in l ==> !Allowed(ts, v, c)
  {
  }

  lemma FirstIsFirst(ts: Threads, l: seq<Tid>, c: Cpu, u: Tid)
    requires FirstIn(ts, l, c, u) && l != [] && Allowed(ts, l[0], c)
    ensures u == l[0]
  {
  }

  lemma InLine(s: State, v: Tid)
    requires RunOk(s.threads, s.runQueue) && v in s.threads && s.threads[v].state == Ready && !s.threads[v].idle
    requires s.threads[v].priority < NUM_PRIORITIES
    ensures v in s.runQueue[s.threads[v].priority]
  {
    QueuedSomewhere(s, v);
  }

  lemma OfLine(s: State, q: nat, v: Tid)
    requires RunOk(s.threads, s.runQueue) && q < |s.runQueue| && v in s.runQueue[q]
    ensures v in s.threads && s.threads[v].state == Ready && !s.threads[v].idle && s.threads[v].priority == q
  {
    assert RunList(s.threads, s.runQueue[q], q);
    assert Queued(s.threads, q, v);
  }

  lemma NotRunning(s: State, t: Tid, q: nat)
    requires RunOk(s.threads, s.runQueue) && q < |s.runQueue| && t in s.threads && s.threads[t].state == Running
    ensures t !in s.runQueue[q]
  {
    RunningNotQueued(s, t, q);
  }

  /** thread_sleep_etc up to the switch: the caller sleeps, unless it has been killed and may be interrupted. */
  lemma SleepDoes(s: State, c: Cpu, interruptable: bool)
    requires Inv(s) && c in s.current && OnCpu(s, c) && !s.threads[s.current[c]].idle
    ensures
      var t := s.current[c];
      var th := s.threads[t].(state := Sleeping, blockedStatus := NoError, interruptable := interruptable);
      var s2 := Sleep(s, c, interruptable);
      if interruptable && s.threads[t].killed then s2 == s
      else Ran(s, s.threads[t := th], s.runQueue, c, s2) && s2.waitQueues == s.waitQueues
  {
    hide InvOut, Resched, Ran;
    var t := s.current[c];
    var th := s.threads[t].(state := Sleeping, blockedStatus := NoError, interruptable := interruptable);
    SleepsOff(s, c, th);
    var s1 := SetThread(s, t, th);
    ReschedDoes(s1, c);
    RanFrom(s, s.threads[t := th], s.runQueue, s1, c, Resched(s1, c));
  }

  /** wait_queue_block with a non-zero timeout, up to the switch: the caller blocks at the end of the queue. */
  lemma BlockDoes(s: State, c: Cpu, q: Qid)
    requires Inv(s) && c in s.current && OnCpu(s, c) && !s.threads[s.current[c]].idle && Waitable(s, q)
    ensures
      var t := s.current[c];
      var th := s.threads[t].(state := Blocked, waiting := Some(q), blockedStatus := NoError);
      var s2 := Block(s, c, q);
      && Ran(s, s.threads[t := th], s.runQueue, c, s2)
      && s2.waitQueues == s.waitQueues[q := WaitQueue(s.waitQueues[q].count + 1, s.waitQueues[q].list + [t])]
  {
    hide InvOut, Resched, Ran;
    BlocksOff(s, c, q);
    var s1 := BlockOn(s, q, s.current[c]);
    ReschedDoes(s1, c);
    RanFrom(s, s1.threads, s.runQueue, s1, c, Resched(s1, c));
  }

  // ---------------------------------------------------------------- waking

  /** The thread is ready with the status of its wait. */
  function Woken(th: Thread, status: Status): (r: Thread) {
    th.(state := Ready, waiting := None, blockedStatus := status)
  }

  /** wait_queue_wake_one: the first waiter becomes ready at the front of its line; with a reschedule the caller is
      right behind it, or at the front of its own, and the processor chooses anew. */
  lemma WakeOneDoes(s: State, c: Cpu, q: Qid, reschedule: bool, status: Status)
    requires Inv(s) && c in s.current && q in s.waitQueues
    requires reschedule ==> s.current[c] in s.threads && !s.threads[s.current[c]].idle
    ensures CanWake(s, q) && OnCpu(s, c) && s.current[c] !in s.waitQueues[q].list
    ensures
      var l := s.waitQueues[q].list;
      var s2 := WakeOne(s, c, q, reschedule, status);
      if l == [] then s2 == s
      else
        var u := l[0];
        var t := s.current[c];
        && u in s.threads && s.threads[u].priority < |s.runQueue|
        && s2.waitQueues == s.waitQueues[q := WaitQueue(s.waitQueues[q].count - 1, l[1..])]
        && var woken := s.threads[u := Woken(s.threads[u], status)];
           if !reschedule then
             && s2.threads == woken && s2.runQueue == Ahead(s.runQueue, s.threads[u].priority, u)
             && s2.current == s.current
           else
             && s.threads[t].priority < |s.runQueue|
             && Ran(s, woken[t := s.threads[t].(state := Ready)],
                    Ahead(Ahead(s.runQueue, s.threads[t].priority, t), s.threads[u].priority, u), c, s2)
  {
    hide InvOut, Resched, Ran, CanResched, Requeue, Wake;
    WakeOneKeeps(s, c, q, reschedule, status);
    var l := s.waitQueues[q].list;
    if l != [] {
      RunsOnCpu(s, c);
      if reschedule {
        WakeOneRan(s, c, q, status);
      } else {
        WakeDoes(s, q, status);
      }
    }
  }

  lemma WakeDoes(s: State, q: Qid, status: Status)
    requires CanWake(s, q) && s.waitQueues[q].list != []
    ensures
      var l := s.waitQueues[q].list;
      var u := l[0];
      var s2 := Wake(s, q, 0, status);
      && s2.threads == s.threads[u := Woken(s.threads[u], status)]
      && s2.runQueue == Ahead(s.runQueue, s.threads[u].priority, u) && s2.current == s.current && s2.idleOf == s.idleOf
      && s2.waitQueues == s.waitQueues[q := WaitQueue(s.waitQueues[q].count - 1, l[1..])]
  {
    assert RemoveAt(s.waitQueues[q].list, 0) == s.waitQueues[q].list[1..];
  }

  lemma WakeOneRan(s: State, c: Cpu, q: Qid, status: Status)
    requires Inv(s) && c in s.current && CanWake(s, q) && OnCpu(s, c) && !s.threads[s.current[c]].idle
    requires s.current[c] !in s.waitQueues[q].list && s.waitQueues[q].list != []
    ensures
      var l := s.waitQueues[q].list;
      var u := l[0];
      var t := s.current[c];
      var s2 := WakeOne(s, c, q, true, status);
      && s.threads[t].priority < |s.runQueue|
      && s2.waitQueues == s.waitQueues[q := WaitQueue(s.waitQueues[q].count - 1, l[1..])]
      && Ran(s, s.threads[u := Woken(s.threads[u], status)][t := s.threads[t].(state := Ready)],
             Ahead(Ahead(s.runQueue, s.threads[t].priority, t), s.threads[u].priority, u), c, s2)
  {
    hide InvOut, Resched, Ran, Wake;
    var t, u := s.current[c], s.waitQueues[q].list[0];
    var th := s.threads[t];
    RequeueKeeps(s, c, th, true);
    var s1 := Requeue(s, c, th, true);
    RequeuedLine(s, c, q);
    WakeKeeps(s1, {c}, q, 0, status);
    WakeDoes(s1, q, status);
    var w := Wake(s1, q, 0, status);
    ReschedDoes(w, c);
    assert w.threads == s.threads[u := Woken(s.threads[u], status)][t := th.(state := Ready)];
    RanFrom(s, w.threads, w.runQueue, w, c, Resched(w, c));
  }

  /** A caller that is no idle thread goes to the front of its line, and nobody else is concerned. */
  lemma RequeuedLine(s: State, c: Cpu, q: Qid)
    requires OnCpu(s, c) && CanWake(s, q) && !s.threads[s.current[c]].idle
    ensures
      var t := s.current[c];
      var s1 := Requeue(s, c, s.threads[t], true);
      && s.threads[t].priority < |s.runQueue| && s1.runQueue == Ahead(s.runQueue, s.threads[t].priority, t)
      && s1.threads == s.threads[t := s.threads[t].(state := Ready)] && s1.waitQueues == s.waitQueues
      && CanWake(s1, q) && s1.current == s.current && s1.idleOf == s.idleOf
  {
    var t := s.current[c];
    assert s.threads[t := s.threads[t]] == s.threads;
  }

  /** thread_unblock_from_wait_queue: a blocked thread leaves its queue from wherever it stands and is ready at the
      front of its line, with the status; any other thread is left alone. */
  lemma UnblockDoes(s: State, t: Tid, status: Status)
    requires Inv(s) && t in s.threads
    ensures s.threads[t].state == Blocked ==> InItsQueue(s, t)
    ensures
      var s2 := Unblock(s, t, status);
      if s.threads[t].state != Blocked then s2 == s
      else
        var q := s.threads[t].waiting.value;
        && s2.threads == s.threads[t := Woken(s.threads[t], status)]
        && s2.runQueue == Ahead(s.runQueue, s.threads[t].priority, t) && s2.current == s.current
        && s2.waitQueues ==
             s.waitQueues[q := WaitQueue(s.waitQueues[q].count - 1, Less(s.waitQueues[q].list, t))]
  {
    hide InvOut, Less;
    UnblockKeeps(s, t, status);
    if s.threads[t].state == Blocked {
      BlockedInQueue(s, {}, t);
      var l := s.waitQueues[s.threads[t].waiting.value].list;
      WaitersOnce(s, s.threads[t].waiting.value);
      LessOne(l, Index(l, t));
    }
  }

  lemma WaitersOnce(s: State, q: Qid)
    requires Inv(s) && q in s.waitQueues
    ensures NoDup(s.waitQueues[q].list)
  {
    assert WaitList(s.threads, s.waitQueues[q], q);
  }

  /** The timer of a sleep, or an interrupt: a sleeping thread is ready at the front of its line. */
  lemma EndSleepDoes(s: State, t: Tid, status: Status)
    requires Inv(s) && t in s.threads
    ensures s.threads[t].priority < |s.runQueue|
    ensures
      var s2 := EndSleep(s, t, status);
      if s.threads[t].state != Sleeping then s2 == s
      else
        && s2.threads == s.threads[t := s.threads[t].(state := Ready, blockedStatus := status)]
        && s2.runQueue == Ahead(s.runQueue, s.threads[t].priority, t)
        && s2.current == s.current && s2.waitQueues == s.waitQueues
  {
    hide InvOut;
    KnownThread(s, {}, t);
  }

  /** The waiters of line p, the last one first: each in turn goes to the front. */
  ghost function Fronted(ts: Threads, waiters: seq<Tid>, p: nat): (r: seq<Tid>) {
    if waiters == [] then []
    else Fronted(ts, waiters[1..], p)
         + if waiters[0] in ts && ts[waiters[0]].priority == p then [waiters[0]] else []
  }

  lemma WakeListDoes(s: State, q: Qid, status: Status)
    requires CanWake(s, q) && NoDup(s.waitQueues[q].list)
    ensures
      var l := s.waitQueues[q].list;
      var s2 := WakeList(s, q, status);
      && |s2.runQueue| == |s.runQueue| && s2.current == s.current && s2.idleOf == s.idleOf
      && s2.waitQueues.Keys == s.waitQueues.Keys && s2.waitQueues[q] == WaitQueue(s.waitQueues[q].count - |l|, [])
      && (forall r | r in s.waitQueues && r != q :: s2.waitQueues[r] == s.waitQueues[r])
      && s2.threads == AllWoken(s.threads, l, status) && s2.runQueue == AllAhead(s.threads, s.runQueue, l)
  {
    hide WakeList, Fronted;
    var l := s.waitQueues[q].list;
    WakeListOthers(s, q, status);
    WakeListLines(s, q, status);
    forall u | u in s.threads
      ensures WakeList(s, q, status).threads[u] == if u in l then Woken(s.threads[u], status) else s.threads[u]
    {
      WakeListWakes(s, q, status, u);
    }
  }

  lemma {:induction false} WakeListLines(s: State, q: Qid, status: Status)
    requires CanWake(s, q) && NoDup(s.waitQueues[q].list)
    ensures
      var l := s.waitQueues[q].list;
      var s2 := WakeList(s, q, status);
      && s2.waitQueues[q].count == s.waitQueues[q].count - |l|
      && forall p | 0 <= p < |s.runQueue| :: s2.runQueue[p] == Fronted(s.threads, l, p) + s.runQueue[p]
    decreases |s.waitQueues[q].list|
  {
    hide Wake;
    var l := s.waitQueues[q].list;
    if l != [] {
      var s1 := Wake(s, q, 0, status);
      WakeFirst(s, q, status);
      WakeLines(s, q, status);
      WakeListLines(s1, q, status);
      forall p | 0 <= p < |s.runQueue|
        ensures WakeList(s, q, status).runQueue[p] == Fronted(s.threads, l, p) + s.runQueue[p]
      {
        FrontedSame(s.threads, s1.threads, l[1..], p);
        LineGrows(Fronted(s.threads, l[1..], p), l[0], s.runQueue[p]);
      }
    }
  }

  lemma LineGrows(a: seq<Tid>, u: Tid, b: seq<Tid>)
    ensures a + ([u] + b) == (a + [u]) + b && a + b == (a + []) + b
  {
  }

  lemma WakeLines(s: State, q: Qid, status: Status)
    requires CanWake(s, q) && s.waitQueues[q].list != []
    ensures
      var u := s.waitQueues[q].list[0];
      var s1 := Wake(s, q, 0, status);
      && s1.runQueue == Ahead(s.runQueue, s.threads[u].priority, u)
      && s1.waitQueues[q].count == s.waitQueues[q].count - 1 && s1.threads.Keys == s.threads.Keys
      && forall v | v in s.threads :: s1.threads[v].priority == s.threads[v].priority
  {
  }

  lemma {:induction false} FrontedSame(ts: Threads, ts2: Threads, l: seq<Tid>, p: nat)
    requires ts2.Keys == ts.Keys && forall v | v in ts :: ts2[v].priority == ts[v].priority
    ensures Fronted(ts2, l, p) == Fronted(ts, l, p)
    decreases |l|
  {
    if l != [] {
      FrontedSame(ts, ts2, l[1..], p);
    }
  }

  /** The lines with the waiters of a queue in front, each in its own. */
  ghost function AllAhead(ts: Threads, lines: seq<seq<Tid>>, waiters: seq<Tid>): (r: seq<seq<Tid>>) {
    seq(|lines|, p requires 0 <= p < |lines| => Fronted(ts, waiters, p) + lines[p])
  }

  ghost function AllWoken(ts: Threads, waiters: seq<Tid>, status: Status): (r: Threads) {
    map u | u in ts :: if u in waiters then Woken(ts[u], status) else ts[u]
  }

  /** wait_queue_wake_all: every waiter becomes ready at the front of its line, one after the other; with a reschedule
      the caller is behind them, and the processor chooses anew. */
  lemma WakeAllDoes(s: State, c: Cpu, q: Qid, reschedule: bool, status: Status)
    requires Inv(s) && c in s.current && q in s.waitQueues
    requires reschedule ==> s.current[c] in s.threads && !s.threads[s.current[c]].idle
    ensures CanWake(s, q) && OnCpu(s, c) && s.current[c] !in s.waitQueues[q].list
    ensures
      var l := s.waitQueues[q].list;
      var t := s.current[c];
      var s2 := WakeAll(s, c, q, reschedule, status);
      if l == [] then s2 == s
      else
        && q in s2.waitQueues && s2.waitQueues[q] == WaitQueue(s.waitQueues[q].count - |l|, [])
        && if !reschedule then
             && s2.threads == AllWoken(s.threads, l, status) && s2.runQueue == AllAhead(s.threads, s.runQueue, l)
             && s2.current == s.current
           else
             && s.threads[t].priority < |s.runQueue|
             && Ran(s, AllWoken(s.threads, l, status)[t := s.threads[t].(state := Ready)],
                    AllAhead(s.threads, Ahead(s.runQueue, s.threads[t].priority, t), l), c, s2)
  {
    hide InvOut, Resched, Ran, CanResched, WakeList, Fronted, CanWake, Requeue, AllAhead, AllWoken;
    WakeAllKeeps(s, c, q, reschedule, status);
    if s.waitQueues[q].list != [] {
      WaitersOnce(s, q);
      if reschedule {
        WakeAllRan(s, c, q, status);
      } else {
        WakeListDoes(s, q, status);
      }
    }
  }

  lemma WakeAllRan(s: State, c: Cpu, q: Qid, status: Status)
    requires Inv(s) && c in s.current && q in s.waitQueues && OnCpu(s, c) && !s.threads[s.current[c]].idle
    requires s.current[c] !in s.waitQueues[q].list && NoDup(s.waitQueues[q].list)
    ensures
      var t := s.current[c];
      var l := s.waitQueues[q].list;
      var s1 := Requeue(s, c, s.threads[t], true);
      CanWake(s1, q) && CanResched(WakeList(s1, q, status), c) &&
      var s2 := Resched(WakeList(s1, q, status), c);
      && s.threads[t].priority < |s.runQueue|
      && q in s2.waitQueues && s2.waitQueues[q] == WaitQueue(s.waitQueues[q].count - |l|, [])
      && Ran(s, AllWoken(s.threads, l, status)[t := s.threads[t].(state := Ready)],
             AllAhead(s.threads, Ahead(s.runQueue, s.threads[t].priority, t), l), c, s2)
  {
    hide InvOut, Resched, Ran, WakeList, AllAhead, AllWoken, Requeue;
    var t := s.current[c];
    var l := s.waitQueues[q].list;
    var th := s.threads[t];
    WakeReady(s, {}, q);
    RequeueKeeps(s, c, th, true);
    var s1 := Requeue(s, c, th, true);
    RequeuedLine(s, c, q);
    WakeListKeeps(s1, {c}, q, status);
    WakeListDoes(s1, q, status);
    var w := WakeList(s1, q, status);
    ReschedDoes(w, c);
    WokenAfter(s.threads, l, t, th.(state := Ready), status);
    AheadSame(s.threads, s1.threads, Ahead(s.runQueue, th.priority, t), l);
    RanFrom(s, w.threads, w.runQueue, w, c, Resched(w, c));
  }

  lemma WokenAfter(ts: Threads, l: seq<Tid>, t: Tid, th: Thread, status: Status)
    requires t in ts && t !in l
    ensures AllWoken(ts[t := th], l, status) == AllWoken(ts, l, status)[t := th]
  {
  }

  lemma AheadSame(ts: Threads, ts2: Threads, lines: seq<seq<Tid>>, l: seq<Tid>)
    requires ts2.Keys == ts.Keys && forall v | v in ts :: ts2[v].priority == ts[v].priority
    ensures AllAhead(ts2, lines, l) == AllAhead(ts, lines, l)
  {
    hide Fronted;
    forall p | 0 <= p < |lines| ensures Fronted(ts2, l, p) == Fronted(ts, l, p) {
      FrontedSame(ts, ts2, l, p);
    }
  }

  // ---------------------------------------------------------------- the life of a thread

  /** thread_create and thread_resume. */
  lemma CreateDoes(s: State, t: Tid, p: nat)
    requires Inv(s) && t !in s.threads && Retcode(t) !in s.waitQueues && p < NUM_PRIORITIES
    ensures
      var s2 := Create(s, t, p);
      && s2.threads.Keys == s.threads.Keys + {t} && (forall u | u in s.threads :: s2.threads[u] == s.threads[u])
      && s2.threads[t].state == Suspended && s2.threads[t].priority == p && !s2.threads[t].idle
      && s2.threads[t].pinned == -1 && s2.threads[t].currCpu == -1 && s2.threads[t].waiting == None
      && !s2.threads[t].killed && !s2.threads[t].detached && !s2.threads[t].interruptable
      && s2.threads[t].quantum == 0 && s2.threads[t].blockedStatus == NoError
      && s2.runQueue == s.runQueue && s2.current == s.current
      && s2.waitQueues == s.waitQueues[Retcode(t) := WaitQueue(0, [])]
  {
  }

  /** thread_kill: the thread is marked killed, and an interruptable wait or sleep of it ends with that status. */
  lemma SignalDoes(s: State, t: Tid)
    requires Inv(s) && t in s.threads
    ensures s.threads[t].priority < |s.runQueue| && (s.threads[t].state == Blocked ==> InItsQueue(s, t))
    ensures
      var s2 := Signal(s, t);
      var th := s.threads[t].(killed := true);
      && s2.current == s.current
      && if th.interruptable && th.state == Blocked then
           && s2.threads == s.threads[t := Woken(th, Interrupted)]
           && s2.runQueue == Ahead(s.runQueue, th.priority, t)
           && th.waiting.Some? && th.waiting.value in s.waitQueues && th.waiting.value in s2.waitQueues
           && s2.waitQueues[th.waiting.value].list == Less(s.waitQueues[th.waiting.value].list, t)
         else if th.interruptable && th.state == Sleeping then
           && s2.threads == s.threads[t := th.(state := Ready, blockedStatus := Interrupted)]
           && s2.runQueue == Ahead(s.runQueue, th.priority, t) && s2.waitQueues == s.waitQueues
         else s2 == s.(threads := s.threads[t := th])
  {
    hide InvOut, Less, Unblock, EndSleep;
    SignalKeeps(s, t);
    KnownThread(s, {}, t);
    var s1 := SetThread(s, t, s.threads[t].(killed := true));
    TweakKeeps(s, {}, t, s1.threads[t]);
    UnblockDoes(s1, t, Interrupted);
    EndSleepDoes(s1, t, Interrupted);
  }

  /** thread_detach: those who wait for the thread's death are told, and the thread is detached unless it is dead. */
  lemma DetachDoes(s: State, t: Tid)
    requires Inv(s) && t in s.threads
    ensures CanWake(s, Retcode(t))
    ensures
      var s2 := Detach(s, t);
      var l := s.waitQueues[Retcode(t)].list;
      && s2.threads.Keys == s.threads.Keys && s2.current == s.current && s2.waitQueues[Retcode(t)].list == []
      && s2.threads[t].detached == (s.threads[t].state != Death)
      && (forall u | u in s.threads && u != t ::
            s2.threads[u] == if u in l then Woken(s.threads[u], ThreadDetached) else s.threads[u])
      && s2.runQueue == AllAhead(s.threads, s.runQueue, l)
  {
    hide InvOut, WakeList, AllAhead;
    DetachKeeps(s, t);
    KnownThread(s, {}, t);
    WaitersOnce(s, Retcode(t));
    WakeListDoes(s, Retcode(t), ThreadDetached);
    NotItsOwn(s, t);
  }

  lemma NotItsOwn(s: State, t: Tid)
    requires Inv(s) && t in s.threads && Retcode(t) in s.waitQueues
    ensures s.threads[t].state == Death ==> t !in s.waitQueues[Retcode(t)].list
  {
    assert WaitList(s.threads, s.waitQueues[Retcode(t)], Retcode(t));
    assert s.threads[t].state == Death ==> !Waits(s.threads, Retcode(t), t);
  }

  /** thread_exit_locked: a detached thread is gone; any other is dead, and those who waited for it are ready in
      front. */
  lemma ExitDoes(s: State, c: Cpu)
    requires Inv(s) && c in s.current && OnCpu(s, c) && !s.threads[s.current[c]].idle
    ensures CanWake(s, Retcode(s.current[c])) && s.current[c] !in s.waitQueues[Retcode(s.current[c])].list
    ensures s.idleOf[c] != s.current[c]
    ensures
      var t := s.current[c];
      var s2 := Exit(s, c);
      if s.threads[t].detached then
        && Ran(s, s.threads - {t}, s.runQueue, c, s2) && s2.waitQueues == s.waitQueues - {Retcode(t)}
      else
        var l := s.waitQueues[Retcode(t)].list;
        && Ran(s, AllWoken(s.threads, l, NoError)[t := s.threads[t].(state := Death)],
               AllAhead(s.threads, s.runQueue, l), c, s2)
        && Retcode(t) in s2.waitQueues && s2.waitQueues[Retcode(t)].list == []
  {
    hide InvOut, Resched, Ran, WakeList, CanWake, CanResched, AllAhead, AllWoken;
    CanExit(s, c);
    if s.threads[s.current[c]].detached {
      ExitDetachedDoes(s, c);
    } else {
      ExitJoinableDoes(s, c);
    }
  }

  lemma ExitDetachedDoes(s: State, c: Cpu)
    requires Inv(s) && c in s.current && OnCpu(s, c)
    requires !s.threads[s.current[c]].idle && s.threads[s.current[c]].detached
    requires s.idleOf[c] != s.current[c]
    ensures
      var t := s.current[c];
      var s1 := Remove(SetThread(s, t, s.threads[t].(state := Death)), t);
      && CanResched(s1, c) && Ran(s, s.threads - {t}, s.runQueue, c, Resched(s1, c))
      && Resched(s1, c).waitQueues == s.waitQueues - {Retcode(t)}
  {
    hide InvOut, Resched, Ran;
    ExitDetached(s, c);
    var t := s.current[c];
    var s1 := Remove(SetThread(s, t, s.threads[t].(state := Death)), t);
    assert s1.threads == s.threads - {t};
    ReschedDoes(s1, c);
    RanFrom(s, s1.threads, s.runQueue, s1, c, Resched(s1, c));
  }

  lemma ExitJoinableDoes(s: State, c: Cpu)
    requires Inv(s) && c in s.current && OnCpu(s, c) && !s.threads[s.current[c]].idle
    requires !s.threads[s.current[c]].detached
    requires CanWake(s, Retcode(s.current[c])) && s.current[c] !in s.waitQueues[Retcode(s.current[c])].list
    ensures
      var t := s.current[c];
      var d := SetThread(s, t, s.threads[t].(state := Death));
      var l := s.waitQueues[Retcode(t)].list;
      CanWake(d, Retcode(t)) && CanResched(WakeList(d, Retcode(t), NoError), c) &&
      var s2 := Resched(WakeList(d, Retcode(t), NoError), c);
      && Ran(s, AllWoken(s.threads, l, NoError)[t := s.threads[t].(state := Death)],
             AllAhead(s.threads, s.runQueue, l), c, s2)
      && Retcode(t) in s2.waitQueues && s2.waitQueues[Retcode(t)].list == []
  {
    hide InvOut, Resched, Ran, WakeList, AllAhead, AllWoken;
    var t := s.current[c];
    var d := SetThread(s, t, s.threads[t].(state := Death));
    var l := s.waitQueues[Retcode(t)].list;
    ExitJoinable(s, c);
    WaitersOnce(s, Retcode(t));
    WakeListDoes(d, Retcode(t), NoError);
    var w := WakeList(d, Retcode(t), NoError);
    ReschedDoes(w, c);
    WokenAfter(s.threads, l, t, s.threads[t].(state := Death), NoError);
    AheadSame(s.threads, d.threads, s.runQueue, l);
    RanFrom(s, w.threads, w.runQueue, w, c, Resched(w, c));
  }

  // ---------------------------------------------------------------- the small steps

  /** thread_resume: a suspended thread becomes ready at the front of its line; any other is left alone. */
  lemma ResumeDoes(s: State, t: Tid, s2: State)
    requires Inv(s) && Next(s, OpResume(t), s2)
    ensures
      if s.threads[t].state != Suspended then s2 == s
      else
        && s2.threads == s.threads[t := s.threads[t].(state := Ready)]
        && s.threads[t].priority < |s.runQueue| && s2.runQueue == Ahead(s.runQueue, s.threads[t].priority, t)
        && s2.current == s.current && s2.waitQueues == s.waitQueues
  {
    hide InvOut;
  }

  /** The thread is gone, with the queue of those who wait for its death, and nothing else. */
  ghost predicate Reaped(s: State, t: Tid, s2: State) {
    && s2.threads.Keys == s.threads.Keys - {t} && (forall u | u in s2.threads :: s2.threads[u] == s.threads[u])
    && s2.waitQueues.Keys == s.waitQueues.Keys - {Retcode(t)}
    && (forall q | q in s2.waitQueues :: s2.waitQueues[q] == s.waitQueues[q])
    && s2.runQueue == s.runQueue && s2.bitmap == s.bitmap && s2.current == s.current && s2.idleOf == s.idleOf
  }

  /** thread_join: nothing for a detached thread, the end of a dead one, and otherwise a wait for its death. */
  lemma JoinDoes(s: State, c: Cpu, t: Tid, s2: State)
    requires Inv(s) && Next(s, OpJoin(c, t), s2)
    ensures s.threads[t].detached ==> s2 == s
    ensures !s.threads[t].detached && s.threads[t].state == Death ==> Reaped(s, t, s2)
    ensures !s.threads[t].detached && s.threads[t].state != Death ==> WaitsForDeath(s, c, t, s2)
  {
    hide InvOut, Ran, Block;
    if !s.threads[t].detached && s.threads[t].state != Death {
      BlockDoes(s, c, Retcode(t));
    }
  }

  /** The caller blocks, last among those who wait for the death of t, and the processor goes over to the winner. */
  ghost predicate WaitsForDeath(s: State, c: Cpu, t: Tid, s2: State)
    requires c in s.current && s.current[c] in s.threads
  {
    var me := s.current[c];
    var th := s.threads[me].(state := Blocked, waiting := Some(Retcode(t)), blockedStatus := NoError);
    && Ran(s, s.threads[me := th], s.runQueue, c, s2) && Retcode(t) in s.waitQueues
    && s2.waitQueues ==
         s.waitQueues[Retcode(t) := WaitQueue(s.waitQueues[Retcode(t)].count + 1, s.waitQueues[Retcode(t)].list + [me])]
  }

  /** The rest of a join: the wait for the death, and the reaping once the thread is dead. */
  lemma ReapDoes(s: State, c: Cpu, t: Tid, s2: State)
    requires Inv(s)
    ensures Next(s, OpReap(t), s2) ==> Reaped(s, t, s2)
    ensures Next(s, OpAwaitDeath(c, t), s2) ==> WaitsForDeath(s, c, t, s2)
  {
    hide InvOut, Ran, Block;
    if Next(s, OpAwaitDeath(c, t), s2) {
      BlockDoes(s, c, Retcode(t));
    }
  }

  /** Steps that change one field of the running thread or add an empty queue, and nothing else: a timer tick takes one
      from its quantum. */
  lemma SmallStepsDo(s: State, c: Cpu, i: bool, id: nat, s2: State)
    ensures
      var t := if c in s.current then s.current[c] else 0;
      && (Next(s, OpTick(c), s2) ==>
            t in s.threads && s2 == s.(threads := s.threads[t := s.threads[t].(quantum := s.threads[t].quantum - 1)]))
      && (Next(s, OpInterruptable(c, i), s2) ==>
            t in s.threads && s2 == s.(threads := s.threads[t := s.threads[t].(interruptable := i)]))
      && (Next(s, OpNewQueue(id), s2) ==>
            && Object(id) !in s.waitQueues && s2.waitQueues.Keys == s.waitQueues.Keys + {Object(id)}
            && s2.waitQueues[Object(id)].list == [] && s2.waitQueues[Object(id)].count == 0
            && s2 == s.(waitQueues := s2.waitQueues)
            && forall q | q in s.waitQueues :: s2.waitQueues[q] == s.waitQueues[q])
  {
  }
}
