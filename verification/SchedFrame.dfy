/** What a step of the scheduler leaves alone: wait queues it is not about, and threads on their way back from a
    wait. */
module SchedFrame {

  import opened Sched
  import opened SchedOps
  import opened Waiters

  /** Running, or waiting for a processor only. */
  ghost predicate Awake(s: State, u: Tid) {
    u in s.threads && s.threads[u].state in {Ready, Running}
  }

  /** An awake thread is still so and will find the same status when it returns from its wait. */
  ghost predicate Undisturbed(s: State, s2: State, u: Tid) {
    Awake(s, u) ==> Awake(s2, u) && s2.threads[u].blockedStatus == s.threads[u].blockedStatus
  }

  ghost predicate SameQueue(s: State, s2: State, q: Qid) {
    q in s.waitQueues ==> q in s2.waitQueues && s2.waitQueues[q] == s.waitQueues[q]
  }

  ghost predicate Apart(s: State, s2: State, q: Qid, u: Tid) {
    SameQueue(s, s2, q) && Undisturbed(s, s2, u)
  }

  lemma AwakeNotWaiting(s: State, q: Qid, u: Tid)
    requires Inv(s) && q in s.waitQueues && Awake(s, u)
    ensures u !in s.waitQueues[q].list
  {
    assert WaitList(s.threads, s.waitQueues[q], q);
    assert !Waits(s.threads, q, u);
  }

  lemma QueueNoDup(s: State, q: Qid)
    requires Inv(s) && q in s.waitQueues
    ensures NoDup(s.waitQueues[q].list)
  {
    assert WaitList(s.threads, s.waitQueues[q], q);
  }

  lemma SwitchApart(s: State, c: Cpu, t: Tid, q: Qid, u: Tid)
    requires c in s.current && t in s.threads
    ensures Apart(s, SwitchTo(s, c, t), q, u)
  {
  }

  lemma ReschedApart(s: State, c: Cpu, q: Qid, u: Tid)
    requires CanResched(s, c)
    ensures Apart(s, Resched(s, c), q, u)
  {
    hide PickBelow;
    match PickBelow(s, c, NUM_PRIORITIES)
    case NoSpot => SwitchApart(s, c, s.idleOf[c], q, u);
    case Spot(p, i) => SwitchApart(s, c, s.runQueue[p][i], q, u);
  }

  lemma RequeueApart(s: State, c: Cpu, th: Thread, head: bool, q: Qid, u: Tid)
    requires OnCpu(s, c) && th.priority < NUM_PRIORITIES && th.blockedStatus == s.threads[s.current[c]].blockedStatus
    ensures Apart(s, Requeue(s, c, th, head), q, u)
  {
  }

  /** thread_yield, thread_preempt and thread_set_priority. */
  lemma GiveUpApart(s: State, c: Cpu, th: Thread, head: bool, q: Qid, u: Tid)
    requires OnCpu(s, c) && th.priority < NUM_PRIORITIES && th.blockedStatus == s.threads[s.current[c]].blockedStatus
    ensures Apart(s, Resched(Requeue(s, c, th, head), c), q, u)
  {
    hide Requeue, Resched;
    RequeueApart(s, c, th, head, q, u);
    ReschedApart(Requeue(s, c, th, head), c, q, u);
  }

  lemma BlockApart(s: State, c: Cpu, r: Qid, q: Qid, u: Tid)
    requires OnCpu(s, c) && r in s.waitQueues && r != q && s.current[c] != u
    ensures Apart(s, Block(s, c, r), q, u)
  {
    hide Resched;
    ReschedApart(BlockOn(s, r, s.current[c]), c, q, u);
  }

  lemma WakeApart(s: State, r: Qid, i: nat, status: Status, q: Qid, u: Tid)
    requires r in s.waitQueues && i < |s.waitQueues[r].list| && s.waitQueues[r].list[i] in s.threads
    requires s.threads[s.waitQueues[r].list[i]].priority < |s.runQueue| && r != q && s.waitQueues[r].list[i] != u
    ensures Apart(s, Wake(s, r, i, status), q, u)
  {
  }

  lemma WakeListApart(s: State, r: Qid, status: Status, q: Qid, u: Tid)
    requires CanWake(s, r) && NoDup(s.waitQueues[r].list) && r != q && u !in s.waitQueues[r].list
    ensures Apart(s, WakeList(s, r, status), q, u)
  {
    hide WakeList;
    WakeListOthers(s, r, status);
    if u in s.threads {
      WakeListWakes(s, r, status, u);
    }
  }

  lemma WakeOneApart(s: State, c: Cpu, r: Qid, reschedule: bool, status: Status, q: Qid, u: Tid)
    requires CanWake(s, r) && OnCpu(s, c) && s.current[c] !in s.waitQueues[r].list
    requires r != q && u !in s.waitQueues[r].list
    ensures Apart(s, WakeOne(s, c, r, reschedule, status), q, u)
  {
    hide Requeue, Resched, Wake;
    if s.waitQueues[r].list != [] {
      if reschedule {
        var th := s.threads[s.current[c]];
        var s1 := Requeue(s, c, th, true);
        RequeueApart(s, c, th, true, q, u);
        RequeuedWaits(s, c, r);
        WakeApart(s1, r, 0, status, q, u);
        WokenResched(s1, c, r, status);
        ReschedApart(Wake(s1, r, 0, status), c, q, u);
      } else {
        WakeApart(s, r, 0, status, q, u);
      }
    }
  }

  /** Going back to the run queue changes nothing for those who wait. */
  lemma RequeuedWaits(s: State, c: Cpu, r: Qid)
    requires OnCpu(s, c) && CanWake(s, r)
    ensures
      var s1 := Requeue(s, c, s.threads[s.current[c]], true);
      s1.waitQueues == s.waitQueues && CanWake(s1, r) && CanResched(s1, c)
  {
  }

  lemma WokenResched(s: State, c: Cpu, r: Qid, status: Status)
    requires CanWake(s, r) && CanResched(s, c) && s.waitQueues[r].list != []
    ensures CanResched(Wake(s, r, 0, status), c)
  {
  }

  lemma WakeAllApart(s: State, c: Cpu, r: Qid, reschedule: bool, status: Status, q: Qid, u: Tid)
    requires CanWake(s, r) && OnCpu(s, c) && s.current[c] !in s.waitQueues[r].list
    requires r != q && u !in s.waitQueues[r].list
    requires NoDup(s.waitQueues[r].list)
    ensures Apart(s, WakeAll(s, c, r, reschedule, status), q, u)
  {
    hide Requeue, Resched, WakeList;
    if s.waitQueues[r].list != [] {
      if reschedule {
        var th := s.threads[s.current[c]];
        var s1 := Requeue(s, c, th, true);
        RequeueApart(s, c, th, true, q, u);
        RequeuedWaits(s, c, r);
        WakeListApart(s1, r, status, q, u);
        ReschedApart(WakeList(s1, r, status), c, q, u);
      } else {
        WakeListApart(s, r, status, q, u);
      }
    }
  }

  lemma UnblockApart(s: State, t: Tid, status: Status, q: Qid, u: Tid)
    requires t in s.threads && (s.threads[t].state == Blocked ==> InItsQueue(s, t))
    requires q in s.waitQueues ==> t !in s.waitQueues[q].list
    ensures Apart(s, Unblock(s, t, status), q, u)
  {
    hide Wake;
    if s.threads[t].state == Blocked && t != u {
      var r := s.threads[t].waiting.value;
      WakeApart(s, r, Index(s.waitQueues[r].list, t), status, q, u);
    } else if s.threads[t].state == Blocked {
      WakeQueue(s, t, status, q);
    }
  }

  lemma WakeQueue(s: State, t: Tid, status: Status, q: Qid)
    requires InItsQueue(s, t) && (q in s.waitQueues ==> t !in s.waitQueues[q].list)
    ensures
      var r := s.threads[t].waiting.value;
      SameQueue(s, Wake(s, r, Index(s.waitQueues[r].list, t), status), q)
  {
  }

  lemma EndSleepApart(s: State, t: Tid, status: Status, q: Qid, u: Tid)
    requires t in s.threads && s.threads[t].priority < |s.runQueue|
    ensures Apart(s, EndSleep(s, t, status), q, u)
  {
  }

  lemma SignalApart(s: State, t: Tid, q: Qid, u: Tid)
    requires t in s.threads && s.threads[t].priority < |s.runQueue|
    requires s.threads[t].state == Blocked ==> InItsQueue(s, t)
    requires q in s.waitQueues ==> t !in s.waitQueues[q].list
    ensures Apart(s, Signal(s, t), q, u)
  {
    hide Unblock, EndSleep;
    var s1 := SetThread(s, t, s.threads[t].(killed := true));
    assert Apart(s, s1, q, u);
    if s.threads[t].interruptable {
      if s.threads[t].state == Blocked {
        UnblockApart(s1, t, Interrupted, q, u);
      } else {
        EndSleepApart(s1, t, Interrupted, q, u);
      }
    }
  }

  lemma ExitApart(s: State, c: Cpu, q: Qid, u: Tid)
    requires Inv(s) && OnCpu(s, c) && CanWake(s, Retcode(s.current[c])) && s.idleOf[c] != s.current[c]
    requires s.current[c] !in s.waitQueues[Retcode(s.current[c])].list
    requires q.Object? && u != s.current[c]
    ensures Apart(s, Exit(s, c), q, u)
  {
    hide Resched, WakeList, Inv;
    var t := s.current[c];
    var s1 := SetThread(s, t, s.threads[t].(state := Death));
    assert Apart(s, s1, q, u);
    if s.threads[t].detached {
      RemoveApart(s1, t, q, u);
      ReschedApart(Remove(s1, t), c, q, u);
    } else {
      QueueNoDup(s, Retcode(t));
      if Awake(s, u) {
        AwakeNotWaiting(s, Retcode(t), u);
        WakeListApart(s1, Retcode(t), NoError, q, u);
      } else {
        WakeListOthers(s1, Retcode(t), NoError);
      }
      ReschedApart(WakeList(s1, Retcode(t), NoError), c, q, u);
    }
  }

  lemma RemoveApart(s: State, t: Tid, q: Qid, u: Tid)
    requires q != Retcode(t) && u != t
    ensures Apart(s, Remove(s, t), q, u)
  {
  }

  lemma DetachApart(s: State, t: Tid, q: Qid, u: Tid)
    requires Inv(s) && t in s.threads && CanWake(s, Retcode(t)) && q.Object?
    ensures Apart(s, Detach(s, t), q, u)
  {
    hide WakeList, Inv;
    QueueNoDup(s, Retcode(t));
    if Awake(s, u) {
      AwakeNotWaiting(s, Retcode(t), u);
      WakeListApart(s, Retcode(t), ThreadDetached, q, u);
    } else {
      WakeListOthers(s, Retcode(t), ThreadDetached);
    }
  }

  // ---------------------------------------------------------------- every step

  /** The step is not about the queue q. */
  ghost predicate Elsewhere(s: State, op: Op, q: Qid) {
    match op
    case OpBlock(_, r) => r != q
    case OpWakeOne(_, r, _, _) => r != q
    case OpWakeAll(_, r, _, _) => r != q
    case OpTimeout(t) => q in s.waitQueues ==> t !in s.waitQueues[q].list
    case OpSignal(t) => q in s.waitQueues ==> t !in s.waitQueues[q].list
    case _ => true
  }

  /** It is not the thread u that blocks, sleeps or ends. */
  ghost predicate Stays(s: State, op: Op, u: Tid) {
    op.OpBlock? || op.OpSleep? || op.OpExit? || op.OpJoin? || op.OpAwaitDeath? ==>
      op.c in s.current ==> s.current[op.c] != u
  }

  lemma CallerApart(s: State, op: Op, s2: State, q: Qid, u: Tid)
    requires Inv(s) && Next(s, op, s2) && q.Object? && Elsewhere(s, op, q) && Stays(s, op, u)
    requires ByCaller(op)
    ensures Apart(s, s2, q, u)
  {
    hide Inv, Resched, Block, Exit, CanWake, Remove;
    match op
    case OpSleep(c, i) =>
      var th := s.threads[s.current[c]].(state := Sleeping, blockedStatus := NoError, interruptable := i);
      ReschedApart(SetThread(s, s.current[c], th), c, q, u);
    case OpBlock(c, r) => BlockApart(s, c, r, q, u);
    case OpExit(c) => ExitApart(s, c, q, u);
    case OpJoin(c, t) =>
      if !s.threads[t].detached {
        if s.threads[t].state != Death {
          BlockApart(s, c, Retcode(t), q, u);
        } else {
          RemoveDead(s, t, q, u);
        }
      }
    case OpAwaitDeath(c, t) => BlockApart(s, c, Retcode(t), q, u);
    case _ =>
  }

  lemma RemoveDead(s: State, t: Tid, q: Qid, u: Tid)
    requires q.Object? && t in s.threads && s.threads[t].state == Death
    ensures Apart(s, Remove(s, t), q, u)
  {
  }

  lemma WakeStepApart(s: State, op: Op, s2: State, q: Qid, u: Tid)
    requires Inv(s) && Next(s, op, s2) && Elsewhere(s, op, q) && Stays(s, op, u) && (op.OpWakeOne? || op.OpWakeAll?)
    ensures Apart(s, s2, q, u)
  {
    hide Inv, WakeOne, WakeAll;
    var r, st, c, b := op.q, op.status, op.c, op.reschedule;
    QueueNoDup(s, r);
    if Awake(s, u) {
      AwakeNotWaiting(s, r, u);
      WakeOneApart(s, c, r, b, st, q, u);
      WakeAllApart(s, c, r, b, st, q, u);
    } else {
      var v :| v !in s.waitQueues[r].list;
      WakeOneApart(s, c, r, b, st, q, v);
      WakeAllApart(s, c, r, b, st, q, v);
    }
  }

  lemma OtherApart(s: State, op: Op, s2: State, q: Qid, u: Tid)
    requires Inv(s) && Next(s, op, s2) && q.Object? && Elsewhere(s, op, q) && Stays(s, op, u)
    requires !ByCaller(op)
    requires !op.OpWakeOne? && !op.OpWakeAll?
    ensures Apart(s, s2, q, u)
  {
    hide Inv, Resched, Requeue, Unblock, EndSleep, Signal, Detach, Remove, CanWake;
    match op
    case OpYield(c) => GiveUpApart(s, c, s.threads[s.current[c]].(quantum := 0), false, q, u);
    case OpPreempt(c) =>
      var th := s.threads[s.current[c]];
      GiveUpApart(s, c, th, th.quantum > 0, q, u);
    case OpSetPriority(c, p) => GiveUpApart(s, c, s.threads[s.current[c]].(priority := Clamp(p)), true, q, u);
    case OpEndSleep(t) => EndSleepApart(s, t, NoError, q, u);
    case OpTimeout(t) => UnblockApart(s, t, TimedOut, q, u);
    case OpReap(t) => RemoveDead(s, t, q, u);
    case OpDetach(t) => DetachApart(s, t, q, u);
    case OpSignal(t) => SignalApart(s, t, q, u);
    case _ =>
  }

  /** A step of the scheduler that is not about the queue leaves it alone, and leaves alone the status of every awake
      thread but the one that blocks, sleeps or ends. */
  lemma StepElsewhere(s: State, op: Op, s2: State, q: Qid, u: Tid)
    requires Inv(s) && Next(s, op, s2) && q.Object? && q in s.waitQueues && Elsewhere(s, op, q)
    ensures q in s2.waitQueues && s2.waitQueues[q] == s.waitQueues[q]
    ensures Stays(s, op, u) ==> Undisturbed(s, s2, u)
  {
    hide Inv, Next, Elsewhere, Undisturbed;
    if Stays(s, op, u) {
      StepApart(s, op, s2, q, u);
    } else {
      StepApart(s, op, s2, q, u + 1);
    }
  }

  lemma StepApart(s: State, op: Op, s2: State, q: Qid, u: Tid)
    requires Inv(s) && Next(s, op, s2) && q.Object? && Elsewhere(s, op, q) && Stays(s, op, u)
    ensures Apart(s, s2, q, u)
  {
    hide Inv, Next, Elsewhere, Stays, Apart;
    if ByCaller(op) {
      CallerApart(s, op, s2, q, u);
    } else if op.OpWakeOne? || op.OpWakeAll? {
      WakeStepApart(s, op, s2, q, u);
    } else {
      OtherApart(s, op, s2, q, u);
    }
  }
}
