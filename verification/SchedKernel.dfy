/** The scheduler as it stands: run queues, bitmap, threads and wait queues updated in place,
    each routine proved to take exactly the step of SchedOps. */
module SchedKernel {

  import opened Sched
  import opened Waiters
  import opened SchedOps

  class Kernel {
    var threads: Threads
    var runQueue: seq<seq<Tid>>
    var bitmap: set<nat>
    var waitQueues: map<Qid, WaitQueue>
    var current: map<Cpu, Tid>
    var idleOf: map<Cpu, Tid>

    ghost function Snap(): State
      reads this
    {
      State(threads, runQueue, bitmap, waitQueues, current, idleOf)
    }

    /** insert_in_run_queue_head */
    method InsertHead(t: Tid)
      requires t in threads && threads[t].priority < |runQueue|
      modifies `runQueue, `bitmap
      ensures Snap() == Insert(old(Snap()), t, true)
    {
      var p := threads[t].priority;
      runQueue := runQueue[p := [t] + runQueue[p]];
      bitmap := bitmap + {p};
    }

    /** insert_in_run_queue_tail */
    method InsertTail(t: Tid)
      requires t in threads && threads[t].priority < |runQueue|
      modifies `runQueue, `bitmap
      ensures Snap() == Insert(old(Snap()), t, false)
    {
      var p := threads[t].priority;
      runQueue := runQueue[p := runQueue[p] + [t]];
      bitmap := bitmap + {p};
    }

    /** HIGHEST_PRIORITY less the count of leading zeros: the number of the highest bit set. */
    static method HighestBit(b: set<nat>) returns (p: nat)
      requires b != {} && forall q | q in b :: q <= HIGHEST_PRIORITY
      ensures p in b && forall q | q in b :: q <= p
    {
      p := HIGHEST_PRIORITY;
      while p !in b
        invariant p <= HIGHEST_PRIORITY
        invariant forall q | q in b :: q <= p
        decreases p
      {
        ghost var q :| q in b;
        p := p - 1;
      }
    }

    /** get_top_thread: scan the marked queues from the highest down for a thread that may run here. */
    method GetTopThread(c: Cpu) returns (t: Tid)
      requires RunOk(threads, runQueue) && BitmapOk(runQueue, bitmap) && c in idleOf
      modifies `runQueue, `bitmap
      ensures
        match PickBelow(old(Snap()), c, NUM_PRIORITIES)
        case NoSpot => t == idleOf[c] && Snap() == old(Snap())
        case Spot(p, i) => t == old(runQueue[p][i]) && Snap() == Take(old(Snap()), p, i)
    {
      hide RunOk, BitmapOk, RunList, PickBelow;
      ghost var s := Snap();
      BitmapBound(s);
      var left := bitmap;
      while left != {}
        invariant Snap() == s && left <= bitmap
        invariant forall p | p in bitmap && p !in left :: NoneBefore(threads, runQueue[p], c, |runQueue[p]|)
        decreases |left|
      {
        var q := HighestBit(left);
        var i := 0;
        while i < |runQueue[q]|
          invariant Snap() == s && i <= |runQueue[q]|
          invariant NoneBefore(threads, runQueue[q], c, i)
        {
          var u := runQueue[q][i];
          QueuedReady(s, q, i);
          if threads[u].pinned < 0 || threads[u].pinned == c {
            Found(s, c, q, i, left);
            runQueue := runQueue[q := runQueue[q][..i] + runQueue[q][i + 1..]];
            if runQueue[q] == [] {
              bitmap := bitmap - {q};
            }
            return u;
          }
          i := i + 1;
        }
        left := left - {q};
      }
      NoneFound(s, c);
      return idleOf[c];
    }

    /** thread_resched after the choice: set the thread running and hand the processor over to it. */
    method SwitchThreads(c: Cpu, t: Tid)
      requires t in threads && c in current
      modifies `threads, `current
      ensures Snap() == SwitchTo(old(Snap()), c, t)
    {
      var th := threads[t].(state := Running);
      var prev := current[c];
      if t == prev {
        threads := threads[t := th];
        return;
      }
      if th.quantum <= 0 {
        th := th.(quantum := 5);
      }
      if prev in threads {
        threads := threads[prev := threads[prev].(currCpu := -1)];
      }
      threads := threads[t := th.(currCpu := c)];
      current := current[c := t];
    }

    /** thread_resched */
    method Resched(c: Cpu)
      requires InvOut(Snap(), {c}) && CanResched(Snap(), c)
      modifies this
      ensures Snap() == SchedOps.Resched(old(Snap()), c) && Inv(Snap())
    {
      hide InvOut, RunOk, BitmapOk, PickBelow;
      ghost var s := Snap();
      ReschedKeeps(s, c);
      RunQueuesOk(s, c);
      var t := GetTopThread(c);
      SwitchThreads(c, t);
    }

    /** thread_yield */
    method Yield(c: Cpu)
      requires Inv(Snap()) && c in current
      modifies this
      ensures OnCpu(old(Snap()), c) && Snap() == SchedOps.Yield(old(Snap()), c) && Inv(Snap())
    {
      hide InvOut, CanResched, SchedOps.Resched, SwitchTo, Take;
      ghost var s := Snap();
      RunsOnCpu(s, c);
      var t := current[c];
      ghost var th := threads[t].(quantum := 0);
      RequeueKeeps(s, c, th, false);
      ReschedReady(Requeue(s, c, th, false), {c}, c);
      threads := threads[t := threads[t].(state := Ready, quantum := 0)];
      if !threads[t].idle {
        InsertTail(t);
      }
      RequeueIs(s, c, th, false, threads);
      Resched(c);
    }

    /** thread_preempt */
    method Preempt(c: Cpu)
      requires Inv(Snap()) && c in current
      modifies this
      ensures OnCpu(old(Snap()), c) && Snap() == SchedOps.Preempt(old(Snap()), c) && Inv(Snap())
    {
      hide InvOut, CanResched, SchedOps.Resched, SwitchTo, Take;
      ghost var s := Snap();
      RunsOnCpu(s, c);
      var t := current[c];
      ghost var th := threads[t];
      RequeueKeeps(s, c, th, th.quantum > 0);
      ReschedReady(Requeue(s, c, th, th.quantum > 0), {c}, c);
      threads := threads[t := threads[t].(state := Ready)];
      if !threads[t].idle {
        if threads[t].quantum > 0 {
          InsertHead(t);
        } else {
          InsertTail(t);
        }
      }
      RequeueIs(s, c, th, th.quantum > 0, threads);
      Resched(c);
    }

    /** thread_set_priority */
    method SetPriority(c: Cpu, wanted: int)
      requires Inv(Snap()) && c in current && current[c] in threads && !threads[current[c]].idle
      modifies this
      ensures OnCpu(old(Snap()), c) && Snap() == SchedOps.SetPriority(old(Snap()), c, wanted) && Inv(Snap())
    {
      hide InvOut, CanResched, SchedOps.Resched, SwitchTo, Take;
      ghost var s := Snap();
      RunsOnCpu(s, c);
      var t := current[c];
      var priority := wanted;
      if priority <= IDLE_PRIORITY {
        priority := IDLE_PRIORITY + 1;
      }
      if priority > HIGHEST_PRIORITY {
        priority := HIGHEST_PRIORITY;
      }
      ghost var th := threads[t].(priority := priority);
      RequeueKeeps(s, c, th, true);
      ReschedReady(Requeue(s, c, th, true), {c}, c);
      threads := threads[t := threads[t].(priority := priority, state := Ready)];
      InsertHead(t);
      RequeueIs(s, c, th, true, threads);
      Resched(c);
    }

    /** thread_sleep_etc up to the switch; false when the thread has been killed and may not sleep interruptably. */
    method Sleep(c: Cpu, interruptable: bool) returns (slept: bool)
      requires Inv(Snap()) && c in current && current[c] in threads && !threads[current[c]].idle
      modifies this
      ensures OnCpu(old(Snap()), c) && Snap() == SchedOps.Sleep(old(Snap()), c, interruptable) && Inv(Snap())
      ensures slept == !(interruptable && old(threads[current[c]].killed))
    {
      hide InvOut, CanResched, SchedOps.Resched;
      ghost var s := Snap();
      RunsOnCpu(s, c);
      var t := current[c];
      if interruptable && threads[t].killed {
        return false;
      }
      SleepKeeps(s, c, interruptable);
      SleepsOff(s, c, threads[t].(state := Sleeping, blockedStatus := NoError, interruptable := interruptable));
      threads := threads[t := threads[t].(state := Sleeping, blockedStatus := NoError, interruptable := interruptable)];
      ReschedReady(Snap(), {c}, c);
      Resched(c);
      return true;
    }

    /** wait_queue_block up to the switch; a zero timeout returns at once. */
    method WaitQueueBlock(c: Cpu, q: Qid, timeout: nat) returns (blocked: bool)
      requires Inv(Snap()) && c in current && current[c] in threads && !threads[current[c]].idle && Waitable(Snap(), q)
      modifies this
      ensures OnCpu(old(Snap()), c) && Inv(Snap()) && blocked == (timeout != 0)
      ensures Snap() == if timeout == 0 then old(Snap()) else SchedOps.Block(old(Snap()), c, q)
    {
      hide InvOut, CanResched, SchedOps.Resched;
      ghost var s := Snap();
      RunsOnCpu(s, c);
      if timeout == 0 {
        return false;
      }
      BlocksOff(s, c, q);
      var t := current[c];
      waitQueues := waitQueues[q := WaitQueue(waitQueues[q].count + 1, waitQueues[q].list + [t])];
      threads := threads[t := threads[t].(state := Blocked, waiting := Some(q), blockedStatus := NoError)];
      ReschedReady(Snap(), {c}, c);
      Resched(c);
      return true;
    }

    /** A waiter leaves its queue and becomes ready, not yet in a run queue. */
    method PopWaiter(q: Qid, i: nat, status: Status) returns (t: Tid)
      requires CanWake(Snap(), q) && i < |waitQueues[q].list|
      modifies `waitQueues, `threads
      ensures t == old(waitQueues[q].list[i])
      ensures Snap() == Pop(old(Snap()), q, i, status)
    {
      t := waitQueues[q].list[i];
      waitQueues := waitQueues[q := WaitQueue(waitQueues[q].count - 1, RemoveAt(waitQueues[q].list, i))];
      threads := threads[t := threads[t].(state := Ready, blockedStatus := status, waiting := None)];
    }

    /** wait_queue_wake_one */
    method WakeOne(c: Cpu, q: Qid, reschedule: bool, status: Status) returns (woken: nat)
      requires Inv(Snap()) && c in current && q in waitQueues
      requires reschedule ==> current[c] in threads && !threads[current[c]].idle
      modifies this
      ensures CanWake(old(Snap()), q) && OnCpu(old(Snap()), c) && old(current[c] !in waitQueues[q].list)
      ensures Snap() == SchedOps.WakeOne(old(Snap()), c, q, reschedule, status) && Inv(Snap())
      ensures woken == if old(waitQueues[q].list) == [] then 0 else 1
    {
      hide InvOut, CanResched, SchedOps.Resched, Wake;
      ghost var s := Snap();
      WakeOneKeeps(s, c, q, reschedule, status);
      if waitQueues[q].list == [] {
        return 0;
      }
      WakeIsPop(s, q, status);
      var t := PopWaiter(q, 0, status);
      if reschedule {
        var u := current[c];
        WakeOneOrder(s, c, q, status);
        threads := threads[u := threads[u].(state := Ready)];
        InsertHead(u);
      }
      InsertHead(t);
      if reschedule {
        WakeOneOff(s, c, q, status);
        Resched(c);
      }
      return 1;
    }

    /** wait_queue_wake_all */
    method WakeAll(c: Cpu, q: Qid, reschedule: bool, status: Status) returns (woken: nat)
      requires Inv(Snap()) && c in current && q in waitQueues
      requires reschedule ==> current[c] in threads && !threads[current[c]].idle
      modifies this
      ensures CanWake(old(Snap()), q) && OnCpu(old(Snap()), c) && old(current[c] !in waitQueues[q].list)
      ensures Snap() == SchedOps.WakeAll(old(Snap()), c, q, reschedule, status) && Inv(Snap())
      ensures woken == old(|waitQueues[q].list|)
    {
      hide InvOut, CanResched, SchedOps.Resched, Wake, WakeList, CanWake, Requeue;
      ghost var s := Snap();
      WakeAllKeeps(s, c, q, reschedule, status);
      CountIsLength(s, q);
      if reschedule && waitQueues[q].count > 0 {
        var u := current[c];
        WakeAllOff(s, c, q, status);
        RequeueIs(s, c, threads[u], true, threads[u := threads[u].(state := Ready)]);
        threads := threads[u := threads[u].(state := Ready)];
        InsertHead(u);
      }
      woken := Drain(q, status);
      if woken > 0 && reschedule {
        Resched(c);
      }
    }

    /** The loop of wait_queue_wake_all. */
    method Drain(q: Qid, status: Status) returns (woken: nat)
      requires CanWake(Snap(), q)
      modifies this
      ensures Snap() == WakeList(old(Snap()), q, status)
      ensures woken == old(|waitQueues[q].list|)
    {
      hide Pop, Wake;
      woken := 0;
      while waitQueues[q].list != []
        invariant CanWake(Snap(), q) && WakeList(Snap(), q, status) == WakeList(old(Snap()), q, status)
        invariant woken + |waitQueues[q].list| == old(|waitQueues[q].list|)
        decreases |waitQueues[q].list|
      {
        ghost var s := Snap();
        WakeIsPop(s, q, status);
        var t := PopWaiter(q, 0, status);
        InsertHead(t);
        woken := woken + 1;
      }
    }

    /** thread_unblock_from_wait_queue; false when the thread is not blocked. */
    method UnblockFromWaitQueue(t: Tid, status: Status) returns (unblocked: bool)
      requires Inv(Snap()) && t in threads
      modifies this
      ensures unblocked == old(threads[t].state == Blocked) && (unblocked ==> InItsQueue(old(Snap()), t))
      ensures Snap() == SchedOps.Unblock(old(Snap()), t, status) && Inv(Snap())
    {
      hide InvOut, Pop, Wake;
      ghost var s := Snap();
      UnblockKeeps(s, t, status);
      if threads[t].state != Blocked {
        return false;
      }
      var q := threads[t].waiting.value;
      WakeReady(s, {}, q);
      var i := Index(waitQueues[q].list, t);
      UnblockIsPop(s, q, i, status);
      var u := PopWaiter(q, i, status);
      InsertHead(u);
      return true;
    }

    /** thread_sleep_handler, or the end of an interruptable sleep. */
    method EndSleep(t: Tid, status: Status) returns (woken: bool)
      requires Inv(Snap()) && t in threads
      modifies this
      ensures woken == old(threads[t].state == Sleeping) && t in threads && threads[t].priority < |old(runQueue)|
      ensures old(threads[t].priority) < |old(runQueue)|
      ensures Snap() == SchedOps.EndSleep(old(Snap()), t, status) && Inv(Snap())
    {
      hide InvOut;
      ghost var s := Snap();
      EndSleepKeeps(s, t, status);
      KnownThread(s, {}, t);
      if threads[t].state != Sleeping {
        return false;
      }
      threads := threads[t := threads[t].(state := Ready, blockedStatus := status)];
      InsertHead(t);
      return true;
    }

    /** thread_resume under the lock. */
    method Resume(t: Tid)
      requires Inv(Snap()) && t in threads && threads[t].state != Death && !threads[t].idle
      modifies this
      ensures old(threads[t].priority < |runQueue|) && Inv(Snap())
      ensures Snap() == if old(threads[t].state == Suspended) then MakeReady(old(Snap()), t, true) else old(Snap())
    {
      hide InvOut;
      KnownThread(Snap(), {}, t);
      if threads[t].state == Suspended {
        MakeReadyKeeps(Snap(), {}, t, true);
        threads := threads[t := threads[t].(state := Ready)];
        InsertHead(t);
      }
    }

    /** thread_exit_locked up to the switch, which never comes back. */
    method Exit(c: Cpu)
      requires Inv(Snap()) && c in current && current[c] in threads && !threads[current[c]].idle
      modifies this
      ensures
        var s := old(Snap());
        && OnCpu(s, c) && CanWake(s, Retcode(s.current[c])) && s.current[c] !in s.waitQueues[Retcode(s.current[c])].list
        && s.idleOf[c] != s.current[c]
        && Snap() == SchedOps.Exit(s, c) && Inv(Snap())
    {
      hide InvOut, CanResched, SchedOps.Resched, WakeList, CanWake;
      ghost var s := Snap();
      RunsOnCpu(s, c);
      ExitKeeps(s, c);
      var t := current[c];
      threads := threads[t := threads[t].(state := Death)];
      if threads[t].detached {
        ExitDetached(s, c);
        threads, waitQueues := threads - {t}, waitQueues - {Retcode(t)};
      } else {
        ExitJoinable(s, c);
        var woken := Drain(Retcode(t), NoError);
      }
      Resched(c);
    }

    /** thread_kill up to the wait for the thread's death. */
    method Signal(c: Cpu, t: Tid)
      requires Inv(Snap()) && c in current && t in threads
      modifies this
      ensures old(threads[t].priority < |runQueue|) && (old(threads[t].state == Blocked) ==> InItsQueue(old(Snap()), t))
      ensures Snap() == SchedOps.Signal(old(Snap()), t) && Inv(Snap())
    {
      hide InvOut, SchedOps.EndSleep, SchedOps.Unblock;
      ghost var s := Snap();
      SignalKeeps(s, t);
      RunsOnCpu(s, c);
      KnownThread(s, {}, t);
      TweakKeeps(s, {}, t, threads[t].(killed := true));
      threads := threads[t := threads[t].(killed := true)];
      if t == current[c] {
        SignalOther(s, t);
        return;
      }
      match threads[t].state {
        case Suspended => SignalOther(s, t);
        case Ready => SignalOther(s, t);
        case Running => SignalOther(s, t);
        case Death => SignalOther(s, t);
        case Blocked =>
          if threads[t].interruptable {
            var unblocked := UnblockFromWaitQueue(t, Interrupted);
          }
        case Sleeping =>
          if threads[t].interruptable {
            var woken := EndSleep(t, Interrupted);
          }
      }
    }
  }

  lemma SignalOther(s: State, t: Tid)
    requires t in s.threads && s.threads[t].priority < |s.runQueue| && s.threads[t].state !in {Blocked, Sleeping}
    ensures SchedOps.Signal(s, t) == SetThread(s, t, s.threads[t].(killed := true))
  {
  }

  lemma UnblockIsPop(s: State, q: Qid, i: nat, status: Status)
    requires CanWake(s, q) && i < |s.waitQueues[q].list|
    ensures
      var t := s.waitQueues[q].list[i];
      var s1 := Pop(s, q, i, status);
      && t in s1.threads && s1.threads[t].priority < |s1.runQueue| && Insert(s1, t, true) == Wake(s, q, i, status)
  {
  }

  lemma WakeIsPop(s: State, q: Qid, status: Status)
    requires CanWake(s, q) && s.waitQueues[q].list != []
    ensures
      var t := s.waitQueues[q].list[0];
      var s1 := Pop(s, q, 0, status);
      && t in s1.threads && s1.threads[t].priority < |s1.runQueue| && Insert(s1, t, true) == Wake(s, q, 0, status)
      && s1.current == s.current && s1.idleOf == s.idleOf
      && CanWake(Wake(s, q, 0, status), q) && |Wake(s, q, 0, status).waitQueues[q].list| + 1 == |s.waitQueues[q].list|
      && WakeList(s, q, status) == WakeList(Wake(s, q, 0, status), q, status)
  {
  }

  lemma CountIsLength(s: State, q: Qid)
    requires Inv(s) && q in s.waitQueues
    ensures s.waitQueues[q].count == |s.waitQueues[q].list|
  {
    assert WaitList(s.threads, s.waitQueues[q], q);
  }

  /** The caller may be requeued before or after the waiter is taken out of its queue. */
  lemma WakeOneOrder(s: State, c: Cpu, q: Qid, status: Status)
    requires CanWake(s, q) && OnCpu(s, c) && s.waitQueues[q].list != [] && s.current[c] !in s.waitQueues[q].list
    requires !s.threads[s.current[c]].idle
    ensures
      var u := s.current[c];
      var t := s.waitQueues[q].list[0];
      var s1 := Pop(s, q, 0, status);
      && u in s1.threads && s1.threads[u] == s.threads[u] && s.threads[u].priority < |s.runQueue|
      && var s2 := Insert(SetThread(s1, u, s1.threads[u].(state := Ready)), u, true);
         var s3 := Requeue(s, c, s.threads[u], true);
         && t in s2.threads && s2.threads[t].priority < |s2.runQueue| && CanWake(s3, q) && s3.waitQueues == s.waitQueues
         && Insert(s2, t, true) == Wake(s3, q, 0, status)
  {
    var u := s.current[c];
    var t := s.waitQueues[q].list[0];
    var th := s.threads[t].(state := Ready, waiting := None, blockedStatus := status);
    var uh := s.threads[u].(state := Ready);
    assert s.threads[t := th][u := uh] == s.threads[u := s.threads[u]][u := uh][t := th];
  }

  lemma WakeOneOff(s: State, c: Cpu, q: Qid, status: Status)
    requires Inv(s) && c in s.current && CanWake(s, q) && OnCpu(s, c) && s.waitQueues[q].list != []
    ensures
      var s3 := Requeue(s, c, s.threads[s.current[c]], true);
      && CanWake(s3, q) && s3.waitQueues == s.waitQueues
      && InvOut(Wake(s3, q, 0, status), {c}) && CanResched(Wake(s3, q, 0, status), c)
  {
    hide InvOut, CanResched, Requeue, Wake;
    var th := s.threads[s.current[c]];
    RunsOnCpu(s, c);
    RequeueKeeps(s, c, th, true);
    RequeueWaits(s, c, th, true);
    var s3 := Requeue(s, c, th, true);
    WakeReady(s3, {c}, q);
    WakeKeeps(s3, {c}, q, 0, status);
    WakeCurrent(s3, q, 0, status);
    ReschedReady(Wake(s3, q, 0, status), {c}, c);
  }

  lemma RequeueWaits(s: State, c: Cpu, th: Thread, head: bool)
    requires OnCpu(s, c) && th.priority < NUM_PRIORITIES
    ensures Requeue(s, c, th, head).waitQueues == s.waitQueues
  {
  }

  lemma WakeAllOff(s: State, c: Cpu, q: Qid, status: Status)
    requires Inv(s) && c in s.current && CanWake(s, q) && OnCpu(s, c)
    ensures
      var s3 := Requeue(s, c, s.threads[s.current[c]], true);
      && CanWake(s3, q) && s3.waitQueues == s.waitQueues && s.threads[s.current[c]].priority < |s.runQueue|
      && InvOut(WakeList(s3, q, status), {c}) && CanResched(WakeList(s3, q, status), c)
  {
    hide InvOut, CanResched, Requeue, WakeList;
    var th := s.threads[s.current[c]];
    RunsOnCpu(s, c);
    KnownThread(s, {}, s.current[c]);
    RequeueKeeps(s, c, th, true);
    RequeueWaits(s, c, th, true);
    var s3 := Requeue(s, c, th, true);
    WakeListKeeps(s3, {c}, q, status);
    ReschedReady(WakeList(s3, q, status), {c}, c);
  }

  /** Setting the state last comes to the same as Requeue. */
  lemma RequeueIs(s: State, c: Cpu, th: Thread, head: bool, ts: Threads)
    requires OnCpu(s, c) && th.priority < NUM_PRIORITIES && ts == s.threads[s.current[c] := th.(state := Ready)]
    ensures
      Requeue(s, c, th, head) ==
        if th.idle then s.(threads := ts) else Insert(s.(threads := ts), s.current[c], head)
  {
    assert s.threads[s.current[c] := th][s.current[c] := th.(state := Ready)] == ts;
  }

  lemma RunQueuesOk(s: State, c: Cpu)
    requires InvOut(s, {c}) && CanResched(s, c)
    ensures RunOk(s.threads, s.runQueue) && BitmapOk(s.runQueue, s.bitmap)
    ensures
      match PickBelow(s, c, NUM_PRIORITIES)
      case NoSpot => true
      case Spot(p, i) => s.runQueue[p][i] in s.threads
  {
    hide PickBelow, BitmapOk;
    match PickBelow(s, c, NUM_PRIORITIES)
    case NoSpot =>
    case Spot(p, i) => QueuedReady(s, p, i);
  }

  lemma BitmapBound(s: State)
    requires RunOk(s.threads, s.runQueue) && BitmapOk(s.runQueue, s.bitmap)
    ensures |s.runQueue| == NUM_PRIORITIES && forall p | p in s.bitmap :: p <= HIGHEST_PRIORITY
  {
  }

  lemma Found(s: State, c: Cpu, q: nat, i: nat, left: set<nat>)
    requires |s.runQueue| == NUM_PRIORITIES && BitmapOk(s.runQueue, s.bitmap) && q in left && left <= s.bitmap
    requires forall p | p in s.bitmap && p !in left ::
               p < |s.runQueue| && NoneBefore(s.threads, s.runQueue[p], c, |s.runQueue[p]|)
    requires forall p | p in left :: p <= q
    requires q < NUM_PRIORITIES && i < |s.runQueue[q]| && MayRun(s.threads, s.runQueue[q][i], c)
    requires NoneBefore(s.threads, s.runQueue[q], c, i)
    ensures PickBelow(s, c, NUM_PRIORITIES) == Spot(q, i)
  {
    hide PickBelow;
    forall r | q < r < NUM_PRIORITIES ensures NoneBefore(s.threads, s.runQueue[r], c, |s.runQueue[r]|) {
      assert r in s.bitmap <==> s.runQueue[r] != [];
    }
    BestUnique(s, c, NUM_PRIORITIES, PickBelow(s, c, NUM_PRIORITIES), Spot(q, i));
  }

  lemma NoneFound(s: State, c: Cpu)
    requires |s.runQueue| == NUM_PRIORITIES && BitmapOk(s.runQueue, s.bitmap)
    requires forall p | p in s.bitmap :: p < |s.runQueue| && NoneBefore(s.threads, s.runQueue[p], c, |s.runQueue[p]|)
    ensures PickBelow(s, c, NUM_PRIORITIES) == NoSpot
  {
    hide PickBelow;
    forall r | 0 <= r < NUM_PRIORITIES ensures NoneBefore(s.threads, s.runQueue[r], c, |s.runQueue[r]|) {
      assert r in s.bitmap <==> s.runQueue[r] != [];
    }
    BestUnique(s, c, NUM_PRIORITIES, PickBelow(s, c, NUM_PRIORITIES), NoSpot);
  }
}
