/** Mutexes, condition variables, semaphores and events as they stand: fields beside a wait queue of the
    scheduler, each routine proved to take exactly the step of its transition system. */
module SyncKernel {

  import Sched
  import SchedOps
  import SchedFrame
  import SchedKernel
  import opened Waiters
  import opened Mutex
  import Semaphore
  import Event

  const INFINITE_TIME: nat := 0xFFFF_FFFF

  function Kind(timeout: nat): (k: Timeout) {
    if timeout == 0 then Zero else if timeout == INFINITE_TIME then Infinite else Finite
  }

  // ---------------------------------------------------------------- what the scheduler does to a wait queue

  /** The status the next return from wait_queue_block will give is the same, thread by thread. */
  ghost predicate SameStatus(s: Sched.State, s2: Sched.State) {
    && s2.threads.Keys == s.threads.Keys
    && (forall t | t in s.threads :: s2.threads[t].blockedStatus == s.threads[t].blockedStatus)
    && (forall t | SchedFrame.Awake(s, t) :: SchedFrame.Awake(s2, t))
  }

  lemma ReschedWaits(s: Sched.State, c: Sched.Cpu)
    requires SchedOps.CanResched(s, c)
    ensures SchedOps.Resched(s, c).waitQueues == s.waitQueues && SameStatus(s, SchedOps.Resched(s, c))
  {
    hide SchedOps.PickBelow;
    match SchedOps.PickBelow(s, c, Sched.NUM_PRIORITIES)
    case NoSpot => SwitchStatus(s, c, s.idleOf[c]);
    case Spot(p, i) => SwitchStatus(s, c, s.runQueue[p][i]);
  }

  lemma SwitchStatus(s: Sched.State, c: Sched.Cpu, t: Tid)
    requires c in s.current && t in s.threads
    ensures Sched.SwitchTo(s, c, t).waitQueues == s.waitQueues && SameStatus(s, Sched.SwitchTo(s, c, t))
  {
  }

  /** A block puts the caller at the end of the queue. */
  lemma BlockWaits(s: Sched.State, c: Sched.Cpu, q: Sched.Qid)
    requires SchedOps.OnCpu(s, c) && q in s.waitQueues
    ensures
      var t := s.current[c];
      var s2 := SchedOps.Block(s, c, q);
      && s2.waitQueues.Keys == s.waitQueues.Keys && s2.waitQueues[q].list == s.waitQueues[q].list + [t]
      && (forall r | r in s.waitQueues && r != q :: s2.waitQueues[r] == s.waitQueues[r])
      && s2.threads.Keys == s.threads.Keys
      && (forall u | u in s.threads && u != t :: s2.threads[u].blockedStatus == s.threads[u].blockedStatus)
      && (forall u | SchedFrame.Awake(s, u) && u != t :: SchedFrame.Awake(s2, u))
  {
    hide SchedOps.Resched;
    ReschedWaits(Sched.BlockOn(s, q, s.current[c]), c);
  }

  /** A wake-up takes out the thread at the front, if there is one. */
  lemma WakeOneWaits(s: Sched.State, c: Sched.Cpu, q: Sched.Qid, reschedule: bool, status: Sched.Status)
    requires SchedOps.CanWake(s, q) && SchedOps.OnCpu(s, c) && s.current[c] !in s.waitQueues[q].list
    ensures
      var l := s.waitQueues[q].list;
      var s2 := SchedOps.WakeOne(s, c, q, reschedule, status);
      && s2.waitQueues.Keys == s.waitQueues.Keys && s2.waitQueues[q].list == (if l == [] then [] else l[1..])
      && (forall r | r in s.waitQueues && r != q :: s2.waitQueues[r] == s.waitQueues[r])
      && s2.threads.Keys == s.threads.Keys
      && (forall u | u in s.threads ::
            s2.threads[u].blockedStatus == if l != [] && u == l[0] then status else s.threads[u].blockedStatus)
      && (forall u | SchedFrame.Awake(s, u) || (l != [] && u == l[0]) :: SchedFrame.Awake(s2, u))
      && (l != [] ==> l[0] in s.threads && s2.threads[l[0]].blockedStatus == status && SchedFrame.Awake(s2, l[0]))
  {
    hide SchedOps.Resched, SchedOps.Requeue, Sched.Wake;
    if s.waitQueues[q].list != [] {
      if reschedule {
        var th := s.threads[s.current[c]];
        var s1 := SchedOps.Requeue(s, c, th, true);
        RequeueStatus(s, c, true);
        WakeStatus(s1, q, 0, status);
        ReschedWaits(Sched.Wake(s1, q, 0, status), c);
      } else {
        WakeStatus(s, q, 0, status);
      }
    }
  }

  lemma RequeueStatus(s: Sched.State, c: Sched.Cpu, head: bool)
    requires SchedOps.OnCpu(s, c)
    ensures
      var s2 := SchedOps.Requeue(s, c, s.threads[s.current[c]], head);
      && s2.waitQueues == s.waitQueues && SameStatus(s, s2)
      && (forall u | u in s.threads :: s2.threads[u].priority == s.threads[u].priority)
  {
  }

  lemma WakeStatus(s: Sched.State, q: Sched.Qid, i: nat, status: Sched.Status)
    requires q in s.waitQueues && i < |s.waitQueues[q].list| && s.waitQueues[q].list[i] in s.threads
    requires s.threads[s.waitQueues[q].list[i]].priority < |s.runQueue|
    ensures
      var l := s.waitQueues[q].list;
      var s2 := Sched.Wake(s, q, i, status);
      && s2.waitQueues.Keys == s.waitQueues.Keys && s2.waitQueues[q].list == l[..i] + l[i + 1..]
      && (i == 0 ==> s2.waitQueues[q].list == l[1..])
      && (forall r | r in s.waitQueues && r != q :: s2.waitQueues[r] == s.waitQueues[r])
      && s2.threads.Keys == s.threads.Keys && s2.current == s.current && s2.idleOf == s.idleOf
      && |s2.runQueue| == |s.runQueue|
      && (forall u | u in s.threads ::
            s2.threads[u].blockedStatus == if u == l[i] then status else s.threads[u].blockedStatus)
      && (forall u | SchedFrame.Awake(s, u) || u == l[i] :: SchedFrame.Awake(s2, u))
  {
  }

  lemma WakeAllWaits(s: Sched.State, c: Sched.Cpu, q: Sched.Qid, reschedule: bool, status: Sched.Status)
    requires SchedOps.CanWake(s, q) && SchedOps.OnCpu(s, c) && s.current[c] !in s.waitQueues[q].list
    requires NoDup(s.waitQueues[q].list)
    ensures
      var l := s.waitQueues[q].list;
      var s2 := SchedOps.WakeAll(s, c, q, reschedule, status);
      && s2.waitQueues.Keys == s.waitQueues.Keys && s2.waitQueues[q].list == []
      && (forall r | r in s.waitQueues && r != q :: s2.waitQueues[r] == s.waitQueues[r])
      && s2.threads.Keys == s.threads.Keys
      && (forall u | u in s.threads ::
            s2.threads[u].blockedStatus == if u in l then status else s.threads[u].blockedStatus)
      && (forall u | SchedFrame.Awake(s, u) || u in l :: SchedFrame.Awake(s2, u))
  {
    hide SchedOps.Resched, SchedOps.Requeue, SchedOps.WakeList;
    if s.waitQueues[q].list != [] {
      if reschedule {
        var s1 := SchedOps.Requeue(s, c, s.threads[s.current[c]], true);
        RequeueStatus(s, c, true);
        WakeListStatus(s1, q, status);
        ReschedWaits(SchedOps.WakeList(s1, q, status), c);
      } else {
        WakeListStatus(s, q, status);
      }
    }
  }

  lemma WakeListStatus(s: Sched.State, q: Sched.Qid, status: Sched.Status)
    requires SchedOps.CanWake(s, q) && NoDup(s.waitQueues[q].list)
    ensures
      var l := s.waitQueues[q].list;
      var s2 := SchedOps.WakeList(s, q, status);
      && (forall r | r in s.waitQueues && r != q :: s2.waitQueues[r] == s.waitQueues[r])
      && (forall u | u in s.threads ::
            s2.threads[u].blockedStatus == if u in l then status else s.threads[u].blockedStatus)
      && (forall u | SchedFrame.Awake(s, u) || u in l :: SchedFrame.Awake(s2, u))
  {
    hide SchedOps.WakeList;
    SchedOps.WakeListOthers(s, q, status);
    forall u | u in s.threads
      ensures SchedOps.WakeList(s, q, status).threads[u].blockedStatus ==
              if u in s.waitQueues[q].list then status else s.threads[u].blockedStatus
    {
      SchedOps.WakeListWakes(s, q, status, u);
    }
    forall u | SchedFrame.Awake(s, u) || u in s.waitQueues[q].list
      ensures SchedFrame.Awake(SchedOps.WakeList(s, q, status), u)
    {
      SchedOps.WakeListWakes(s, q, status, u);
    }
  }

  /** A timeout takes out one thread from wherever it stands. */
  lemma UnblockWaits(s: Sched.State, t: Tid, status: Sched.Status)
    requires t in s.threads && s.threads[t].state == Sched.Blocked && SchedOps.InItsQueue(s, t)
    ensures
      var q := s.threads[t].waiting.value;
      var s2 := SchedOps.Unblock(s, t, status);
      && s2.waitQueues.Keys == s.waitQueues.Keys && s2.waitQueues[q].list == Without(s.waitQueues[q].list, t)
      && (forall r | r in s.waitQueues && r != q :: s2.waitQueues[r] == s.waitQueues[r])
      && s2.threads.Keys == s.threads.Keys
      && (forall u | u in s.threads ::
            s2.threads[u].blockedStatus == if u == t then status else s.threads[u].blockedStatus)
      && (forall u | SchedFrame.Awake(s, u) || u == t :: SchedFrame.Awake(s2, u))
  {
    hide Sched.Wake;
    var q := s.threads[t].waiting.value;
    WakeStatus(s, q, Index(s.waitQueues[q].list, t), status);
  }

  // ---------------------------------------------------------------- mutex and condition variable

  // ---------------------------------------------------------------- as steps of the scheduler

  lemma BlockIsStep(s: Sched.State, c: Sched.Cpu, q: Sched.Qid, s2: Sched.State)
    requires SchedOps.Caller(s, c) && q.Object? && q in s.waitQueues && s2 == SchedOps.Block(s, c, q)
    ensures SchedOps.Next(s, SchedOps.OpBlock(c, q), s2)
  {
  }

  lemma WakeIsStep(s: Sched.State, c: Sched.Cpu, q: Sched.Qid, r: bool, status: Sched.Status, s2: Sched.State)
    requires SchedOps.CanWake(s, q) && SchedOps.OnCpu(s, c) && s.current[c] !in s.waitQueues[q].list
    requires r ==> SchedOps.Caller(s, c)
    ensures s2 == SchedOps.WakeOne(s, c, q, r, status) ==>
              SchedOps.Next(s, SchedOps.OpWakeOne(c, q, r, status), s2)
    ensures s2 == SchedOps.WakeAll(s, c, q, r, status) ==>
              SchedOps.Next(s, SchedOps.OpWakeAll(c, q, r, status), s2)
  {
    hide SchedOps.WakeOne, SchedOps.WakeAll;
  }

  lemma TimeoutIsStep(s: Sched.State, t: Tid, s2: Sched.State)
    requires SchedOps.InItsQueue(s, t) && s2 == SchedOps.Unblock(s, t, Sched.TimedOut)
    ensures SchedOps.Next(s, SchedOps.OpTimeout(t), s2)
  {
    hide SchedOps.Unblock;
  }

  /** Out of its wait and not yet running again. */
  predicate Returning(p: Place) {
    p in {Granted, Late, CondWoken, CondLate}
  }

  /** The status a woken or timed-out thread will find when it runs again. */
  ghost predicate StatusIn(pc: map<Tid, Place>, s: Sched.State) {
    forall t | t in pc && Returning(pc[t]) ::
      && SchedFrame.Awake(s, t)
      && s.threads[t].blockedStatus == if pc[t] in {Granted, CondWoken} then Sched.NoError else Sched.TimedOut
  }

  lemma WakeOneStatus(pc: map<Tid, Place>, s: Sched.State, c: Sched.Cpu, q: Sched.Qid, reschedule: bool, place: Place)
    requires SchedOps.CanWake(s, q) && SchedOps.OnCpu(s, c) && s.current[c] !in s.waitQueues[q].list
    requires StatusIn(pc, s) && place in {Granted, CondWoken}
    ensures
      var l := s.waitQueues[q].list;
      StatusIn(if l == [] then pc else pc[l[0] := place], SchedOps.WakeOne(s, c, q, reschedule, Sched.NoError))
  {
    hide SchedOps.WakeOne, SchedOps.OnCpu, SchedOps.CanWake;
    WakeOneWaits(s, c, q, reschedule, Sched.NoError);
  }

  lemma WakeAllStatus(pc: map<Tid, Place>, s: Sched.State, c: Sched.Cpu, q: Sched.Qid)
    requires SchedOps.CanWake(s, q) && SchedOps.OnCpu(s, c) && s.current[c] !in s.waitQueues[q].list
    requires StatusIn(pc, s) && NoDup(s.waitQueues[q].list)
    ensures
      var l := s.waitQueues[q].list;
      StatusIn(map u | u in pc :: if u in l then CondWoken else pc[u], SchedOps.WakeAll(s, c, q, true, Sched.NoError))
  {
    hide SchedOps.WakeAll, SchedOps.OnCpu, SchedOps.CanWake, NoDup;
    WakeAllWaits(s, c, q, true, Sched.NoError);
  }

  lemma BlockStatus(pc: map<Tid, Place>, s: Sched.State, c: Sched.Cpu, q: Sched.Qid, place: Place)
    requires SchedOps.OnCpu(s, c) && q in s.waitQueues && StatusIn(pc, s) && !Returning(place)
    ensures StatusIn(pc[s.current[c] := place], SchedOps.Block(s, c, q))
  {
    hide SchedOps.Block, SchedOps.CanResched;
    BlockWaits(s, c, q);
  }

  lemma TimeoutStatus(pc: map<Tid, Place>, s: Sched.State, t: Tid, place: Place)
    requires t in s.threads && s.threads[t].state == Sched.Blocked && SchedOps.InItsQueue(s, t)
    requires StatusIn(pc, s) && place in {Late, CondLate}
    ensures StatusIn(pc[t := place], SchedOps.Unblock(s, t, Sched.TimedOut))
  {
    hide SchedOps.Unblock, SchedOps.InItsQueue;
    UnblockWaits(s, t, Sched.TimedOut);
  }

  lemma OutOfWait(pc: map<Tid, Place>, s: Sched.State, t: Tid, place: Place)
    requires StatusIn(pc, s) && !Returning(place)
    ensures StatusIn(pc[t := place], s)
  {
  }

  class Lock {
    const k: SchedKernel.Kernel
    const q: Sched.Qid      // the wait queue of the mutex
    const cq: Sched.Qid     // the wait queue of the condition variable
    var count: int
    var holder: Option<Tid>
    ghost var pc: map<Tid, Place>

    ghost predicate Linked()
      reads this, k
    {
      Sched.Inv(k.Snap()) && q in k.waitQueues && cq in k.waitQueues && q != cq && q.Object? && cq.Object?
    }

    ghost function Abs(): Mutex.State
      requires q in k.waitQueues && cq in k.waitQueues
      reads this, k
    {
      Mutex.State(count, holder, k.waitQueues[q].list, k.waitQueues[cq].list, pc)
    }

    ghost predicate Valid()
      reads this, k
    {
      Linked() && Mutex.Inv(Abs()) && StatusIn(pc, k.Snap())
    }

    /** Whatever else happens in the scheduler, the mutex and the condition variable are not touched by it. */
    twostate lemma Undisturbed(op: SchedOps.Op)
      requires old(Valid()) && SchedOps.Next(old(k.Snap()), op, k.Snap()) && unchanged(this)
      requires
        && SchedFrame.Elsewhere(old(k.Snap()), op, q) && SchedFrame.Elsewhere(old(k.Snap()), op, cq)
        && forall t | t in pc && Returning(pc[t]) :: SchedFrame.Stays(old(k.Snap()), op, t)
      ensures Valid() && Abs() == old(Abs())
    {
      hide Sched.Inv, SchedOps.Next, Mutex.Inv, SchedFrame.Elsewhere, SchedFrame.Stays;
      ghost var s, s2 := old(k.Snap()), k.Snap();
      SchedOps.StepKeeps(s, op, s2);
      SchedFrame.StepElsewhere(s, op, s2, q, 0);
      SchedFrame.StepElsewhere(s, op, s2, cq, 0);
      forall t | t in pc && Returning(pc[t]) ensures SchedFrame.Undisturbed(s, s2, t) {
        SchedFrame.StepElsewhere(s, op, s2, q, t);
      }
    }

    /** mutex_init and cond_init, on two empty wait queues. */
    constructor (k0: SchedKernel.Kernel, q0: Sched.Qid, cq0: Sched.Qid)
      requires Sched.Inv(k0.Snap()) && q0.Object? && cq0.Object? && q0 != cq0
      requires q0 in k0.waitQueues && cq0 in k0.waitQueues
      requires k0.waitQueues[q0].list == [] && k0.waitQueues[cq0].list == []
      ensures k == k0 && q == q0 && cq == cq0 && Valid() && Mutex.Init(Abs()) && pc.Keys == k.threads.Keys
    {
      k, q, cq := k0, q0, cq0;
      count, holder := 0, None;
      pc := map t | t in k0.threads :: Out;
      new;
      InitInv(Abs());
    }

    /** A thread made after the mutex takes part from now on. */
    ghost method Enter(t: Tid)
      requires Valid() && t !in pc
      modifies `pc
      ensures Valid() && Abs() == old(Abs()).(pc := old(pc)[t := Out])
    {
      hide Mutex.Inv, Sched.Inv;
      EnterKeeps(Abs(), t);
      pc := pc[t := Out];
    }

    /** The caller is an ordinary thread that takes part. */
    ghost predicate Called(c: Sched.Cpu)
      reads this, k
    {
      c in k.current && k.current[c] in k.threads && !k.threads[k.current[c]].idle && k.current[c] in pc
    }

    /** mutex_acquire_timeout_internal up to the switch, called afresh or at the end of cond_wait. */
    method AcquireInternal(c: Sched.Cpu, timeout: nat) returns (blocked: bool, ok: bool)
      requires Valid() && Called(c) && pc[k.current[c]] in {Out, CondWoken, CondLate}
      modifies this, k
      ensures Valid() && pc.Keys == old(pc.Keys)
      ensures Abs() == Acquired(old(Abs()), old(k.current[c]), Kind(timeout))
      ensures !blocked ==> k.Snap() == old(k.Snap()) && (ok <==> holder == Some(k.current[c]))
      ensures !blocked && !ok ==> timeout == 0 && old(count) >= 1
      ensures blocked ==> SchedOps.Next(old(k.Snap()), SchedOps.OpBlock(c, q), k.Snap())
    {
      hide StatusIn, SchedOps.Next, SchedOps.Block, SchedOps.CanResched, Sched.InvOut, Mutex.Inv;
      ghost var a := Abs();
      ghost var s := k.Snap();
      var t := k.current[c];
      AcquiredKeeps(a, t, Kind(timeout));
      SchedOps.RunsOnCpu(s, c);
      count := count + 1;
      if count > 1 {
        blocked := k.WaitQueueBlock(c, q, timeout);
        if blocked {
          BlockWaits(s, c, q);
          BlockIsStep(s, c, q, k.Snap());
          BlockStatus(pc, s, c, q, if Kind(timeout) == Infinite then QueuedForever else QueuedTimed);
          pc := pc[t := if Kind(timeout) == Infinite then QueuedForever else QueuedTimed];
          return true, false;
        }
        count := count - 1;
        OutOfWait(pc, s, t, Out);
        pc := pc[t := Out];
        NotHolder(a, t);
        return false, false;
      }
      holder := Some(t);
      OutOfWait(pc, s, t, Holding);
      pc := pc[t := Holding];
      return false, true;
    }

    /** wait_queue_wake_one on one of the two queues; the thread it wakes goes to the given place. */
    method WakeFirst(c: Sched.Cpu, wq: Sched.Qid, place: Place, reschedule: bool)
      requires Linked() && StatusIn(pc, k.Snap())
      requires c in k.current && k.current[c] in k.threads && !k.threads[k.current[c]].idle
      requires wq in {q, cq} && place in {Granted, CondWoken} && forall t | t in k.waitQueues[wq].list :: t in pc
      modifies `pc, k
      ensures Linked() && StatusIn(pc, k.Snap())
      ensures
        var l := old(k.waitQueues[wq].list);
        && k.waitQueues[wq].list == (if l == [] then [] else l[1..])
        && k.waitQueues[if wq == q then cq else q] == old(k.waitQueues[if wq == q then cq else q])
        && pc == if l == [] then old(pc) else old(pc)[l[0] := place]
      ensures SchedOps.Next(old(k.Snap()), SchedOps.OpWakeOne(c, wq, reschedule, Sched.NoError), k.Snap())
      ensures !reschedule ==> k.current == old(k.current)
      ensures !reschedule ==> old(k.current[c]) in k.threads && !k.threads[old(k.current[c])].idle
    {
      hide StatusIn, SchedOps.Next, SchedOps.WakeOne, SchedOps.CanResched, SchedOps.CanWake, Sched.InvOut;
      ghost var s := k.Snap();
      ghost var l := k.waitQueues[wq].list;
      var woken := k.WakeOne(c, wq, reschedule, Sched.NoError);
      WakeOneWaits(s, c, wq, reschedule, Sched.NoError);
      WakeOneStatus(pc, s, c, wq, reschedule, place);
      WakeOneStays(s, c, wq, reschedule, Sched.NoError);
      WakeIsStep(s, c, wq, reschedule, Sched.NoError, k.Snap());
      if woken != 0 {
        pc := pc[l[0] := place];
      }
    }

    /** mutex_release_internal */
    method ReleaseInternal(c: Sched.Cpu, reschedule: bool)
      requires Valid() && Called(c) && holder == Some(k.current[c])
      modifies this, k
      ensures Valid() && pc.Keys == old(pc.Keys)
      ensures Abs() == Released(old(Abs()), old(k.current[c]), Out)
      ensures !reschedule ==> k.current == old(k.current)
      ensures !reschedule ==> old(k.current[c]) in k.threads && !k.threads[old(k.current[c])].idle
      ensures if old(count) >= 2
              then SchedOps.Next(old(k.Snap()), SchedOps.OpWakeOne(c, q, reschedule, Sched.NoError), k.Snap())
              else k.Snap() == old(k.Snap())
    {
      hide SchedOps.Next, Sched.InvOut, Mutex.Inv;
      ghost var a := Abs();
      var t := k.current[c];
      ReleasedKeeps(a, t);
      QueuedKnown(a);
      holder := None;
      count := count - 1;
      pc := pc[t := Out];
      if count >= 1 {
        WakeFirst(c, q, Granted, reschedule);
      }
    }

    /** mutex_acquire_timeout_internal once the caller runs again after its wait. */
    method AcquireTail(c: Sched.Cpu) returns (ok: bool)
      requires Valid() && Called(c) && pc[k.current[c]] in {Granted, Late}
      modifies this
      ensures Valid() && pc.Keys == old(pc.Keys)
      ensures Abs() == Resumed(old(Abs()), k.current[c])
      ensures ok <==> holder == Some(k.current[c])
    {
      hide Mutex.Inv, Sched.InvOut;
      ghost var a := Abs();
      var t := k.current[c];
      ResumedKeeps(a, t);
      NotHolder(a, t);
      if k.threads[t].blockedStatus != Sched.NoError {
        if k.threads[t].blockedStatus == Sched.TimedOut {
          count := count - 1;
        }
        pc := pc[t := Out];
        return false;
      }
      holder := Some(t);
      pc := pc[t := Holding];
      return true;
    }

    /** The timer of a timed wait on either queue. */
    method TimerFires(t: Tid)
      requires Valid() && t in pc && pc[t] in {QueuedTimed, CondTimed}
      modifies this, k
      ensures Valid() && pc.Keys == old(pc.Keys)
      ensures old(pc[t]) == QueuedTimed ==> t in old(k.waitQueues[q].list)
      ensures old(pc[t]) == CondTimed ==> t in old(k.waitQueues[cq].list)
      ensures Abs() == TimedOut(old(Abs()), t)
      ensures SchedOps.Next(old(k.Snap()), SchedOps.OpTimeout(t), k.Snap())
    {
      hide StatusIn, SchedOps.Next, Sched.InvOut, SchedOps.Unblock, Without, Mutex.CountOk, Mutex.HolderOk;
      ghost var a := Abs();
      ghost var s := k.Snap();
      InQueueOf(s, if pc[t] == QueuedTimed then q else cq, t);
      TimedOutKeeps(a, t);
      SchedOps.BlockedInQueue(s, {}, t);
      UnblockWaits(s, t, Sched.TimedOut);
      var unblocked := k.UnblockFromWaitQueue(t, Sched.TimedOut);
      TimeoutIsStep(s, t, k.Snap());
      TimeoutStatus(pc, s, t, if pc[t] == QueuedTimed then Late else CondLate);
      pc := pc[t := if pc[t] == QueuedTimed then Late else CondLate];
    }

    /** cond_wait_timeout up to the switch; when it is not blocked the mutex has been taken back at once. */
    method CondWait(c: Sched.Cpu, timeout: nat) returns (ghost mid: Sched.State)
      requires Valid() && Called(c) && holder == Some(k.current[c])
      modifies this, k
      ensures Valid() && pc.Keys == old(pc.Keys)
      ensures Abs() == CondWaits(old(Abs()), old(k.current[c]), Kind(timeout))
      ensures if old(count) >= 2
              then SchedOps.Next(old(k.Snap()), SchedOps.OpWakeOne(c, q, false, Sched.NoError), mid)
              else mid == old(k.Snap())
      ensures timeout > 0 ==> SchedOps.Next(mid, SchedOps.OpBlock(c, cq), k.Snap())
      ensures timeout == 0 ==> SchedOps.Next(mid, SchedOps.OpBlock(c, q), k.Snap()) || k.Snap() == mid
    {
      hide StatusIn, SchedOps.Next, Sched.InvOut, SchedOps.Block, SchedOps.CanResched, Mutex.Inv, Released, Acquired;
      var t := k.current[c];
      ReleasedKeeps(Abs(), t);
      ReleaseInternal(c, false);
      ghost var a := Abs();
      ghost var s := k.Snap();
      mid := s;
      SchedOps.RunsOnCpu(s, c);
      var blocked := k.WaitQueueBlock(c, cq, timeout);
      if blocked {
        CondEnters(a, t, Kind(timeout));
        BlockWaits(s, c, cq);
        BlockIsStep(s, c, cq, k.Snap());
        BlockStatus(pc, s, c, cq, if Kind(timeout) == Infinite then CondForever else CondTimed);
        pc := pc[t := if Kind(timeout) == Infinite then CondForever else CondTimed];
      } else {
        var waits, ok := AcquireInternal(c, INFINITE_TIME);
      }
    }

    /** cond_signal */
    method CondSignal(c: Sched.Cpu)
      requires Valid() && Called(c)
      modifies this, k
      ensures Valid() && pc.Keys == old(pc.Keys)
      ensures Abs() == Signalled(old(Abs()))
      ensures SchedOps.Next(old(k.Snap()), SchedOps.OpWakeOne(c, cq, true, Sched.NoError), k.Snap())
    {
      hide SchedOps.Next, Sched.InvOut, Mutex.Inv;
      ghost var a := Abs();
      SignalledKeeps(a);
      QueuedKnown(a);
      WakeFirst(c, cq, CondWoken, true);
    }

    /** cond_broadcast */
    method CondBroadcast(c: Sched.Cpu)
      requires Valid() && Called(c)
      modifies this, k
      ensures Valid() && pc.Keys == old(pc.Keys)
      ensures Abs() == Broadcast(old(Abs()))
      ensures SchedOps.Next(old(k.Snap()), SchedOps.OpWakeAll(c, cq, true, Sched.NoError), k.Snap())
    {
      hide StatusIn, SchedOps.Next, SchedOps.WakeAll, SchedOps.CanResched, SchedOps.CanWake, Sched.InvOut, Mutex.Inv;
      ghost var a := Abs();
      ghost var s := k.Snap();
      ghost var l := k.waitQueues[cq].list;
      BroadcastKeeps(a);
      QueuedKnown(a);
      var woken := k.WakeAll(c, cq, true, Sched.NoError);
      WakeAllWaits(s, c, cq, true, Sched.NoError);
      WakeAllStatus(pc, s, c, cq);
      WakeIsStep(s, c, cq, true, Sched.NoError, k.Snap());
      pc := map u | u in pc :: if u in l then CondWoken else pc[u];
    }
  }

  /** A thread in a wait queue is blocked on it. */
  lemma InQueueOf(s: Sched.State, q: Sched.Qid, t: Tid)
    requires Sched.Inv(s) && q in s.waitQueues && t in s.waitQueues[q].list
    ensures t in s.threads && s.threads[t].state == Sched.Blocked && s.threads[t].waiting == Some(q)
  {
    assert Sched.WaitList(s.threads, s.waitQueues[q], q);
    assert Sched.Waits(s.threads, q, t);
  }

  lemma CondEnters(a: Mutex.State, t: Tid, timeout: Timeout)
    requires Mutex.Inv(a) && t in a.pc && a.pc[t] == Out && timeout != Zero
    ensures Mutex.Inv(a.(cond := a.cond + [t], pc := a.pc[t := if timeout == Infinite then CondForever else CondTimed]))
  {
    hide At;
    Counts(a, t, if timeout == Infinite then CondForever else CondTimed);
    AppendOne(a.cond, t);
  }

  lemma NotHolder(a: Mutex.State, t: Tid)
    requires Mutex.Inv(a) && t in a.pc && a.pc[t] != Holding
    ensures a.holder != Some(t)
  {
  }

  lemma QueuedKnown(a: Mutex.State)
    requires Mutex.Inv(a)
    ensures forall t | t in a.queue :: t in a.pc
    ensures forall t | t in a.cond :: t in a.pc
    ensures NoDup(a.queue) && NoDup(a.cond)
  {
  }

  /** Without a reschedule the caller keeps its processor. */
  lemma WakeOneStays(s: Sched.State, c: Sched.Cpu, q: Sched.Qid, reschedule: bool, status: Sched.Status)
    requires SchedOps.CanWake(s, q) && SchedOps.OnCpu(s, c) && s.current[c] !in s.waitQueues[q].list
    ensures
      var s2 := SchedOps.WakeOne(s, c, q, reschedule, status);
      !reschedule ==>
        && s2.current == s.current && s.current[c] in s2.threads
        && s2.threads[s.current[c]] == s.threads[s.current[c]]
  {
    hide SchedOps.Resched;
  }

  // ---------------------------------------------------------------- semaphore

  predicate SemReturning(p: Semaphore.Spot) {
    p in {Semaphore.Woken, Semaphore.Overdue}
  }

  class Sem {
    const k: SchedKernel.Kernel
    const q: Sched.Qid
    var count: int
    ghost const initial: nat
    ghost var pc: map<Tid, Semaphore.Spot>
    ghost var posts: nat
    ghost var taken: nat

    ghost function Abs(): Semaphore.Sem
      requires q in k.waitQueues
      reads this, k
    {
      Semaphore.Sem(count, k.waitQueues[q].list, pc, initial, posts, taken)
    }

    ghost predicate StatusOk()
      reads this, k
    {
      forall t | t in pc && SemReturning(pc[t]) ::
        && SchedFrame.Awake(k.Snap(), t)
        && k.threads[t].blockedStatus == if pc[t] == Semaphore.Woken then Sched.NoError else Sched.TimedOut
    }

    ghost predicate Valid()
      reads this, k
    {
      Sched.Inv(k.Snap()) && q in k.waitQueues && q.Object? && Semaphore.SemInv(Abs()) && StatusOk()
    }

    /** Whatever else happens in the scheduler, the semaphore is not touched by it. */
    twostate lemma Undisturbed(op: SchedOps.Op)
      requires old(Valid()) && SchedOps.Next(old(k.Snap()), op, k.Snap()) && unchanged(this)
      requires SchedFrame.Elsewhere(old(k.Snap()), op, q)
      requires forall t | t in pc && SemReturning(pc[t]) :: SchedFrame.Stays(old(k.Snap()), op, t)
      ensures Valid() && Abs() == old(Abs())
    {
      hide Sched.Inv, SchedOps.Next, Semaphore.SemInv, SchedFrame.Elsewhere, SchedFrame.Stays;
      ghost var s, s2 := old(k.Snap()), k.Snap();
      SchedOps.StepKeeps(s, op, s2);
      SchedFrame.StepElsewhere(s, op, s2, q, 0);
      forall t | t in pc && SemReturning(pc[t]) ensures SchedFrame.Undisturbed(s, s2, t) {
        SchedFrame.StepElsewhere(s, op, s2, q, t);
      }
    }

    ghost predicate Called(c: Sched.Cpu)
      reads this, k
    {
      c in k.current && k.current[c] in k.threads && !k.threads[k.current[c]].idle && k.current[c] in pc
    }

    /** A thread made after the semaphore takes part from now on. */
    ghost method Enter(t: Tid)
      requires Valid() && t !in pc
      modifies `pc
      ensures Valid() && Abs() == old(Abs()).(pc := old(pc)[t := Semaphore.Away])
    {
      hide Semaphore.SemInv, Sched.Inv;
      Semaphore.SemEnterKeeps(Abs(), t);
      pc := pc[t := Semaphore.Away];
    }

    /** sem_init */
    constructor (k0: SchedKernel.Kernel, q0: Sched.Qid, value: nat)
      requires Sched.Inv(k0.Snap()) && q0.Object? && q0 in k0.waitQueues && k0.waitQueues[q0].list == []
      ensures k == k0 && q == q0 && Valid() && Semaphore.SemInit(Abs()) && initial == value && pc.Keys == k.threads.Keys
    {
      k, q, count, initial := k0, q0, value, value;
      pc := map t | t in k0.threads :: Semaphore.Away;
      posts, taken := 0, 0;
      new;
      Semaphore.SemInitInv(Abs());
    }

    /** sem_post */
    method Post(c: Sched.Cpu, reschedule: bool) returns (woken: nat)
      requires Valid() && c in k.current
      requires reschedule ==> k.current[c] in k.threads && !k.threads[k.current[c]].idle
      modifies this, k
      ensures Valid() && pc.Keys == old(pc.Keys)
      ensures Abs() == Semaphore.Posted(old(Abs()))
      ensures woken == |old(k.waitQueues[q].list)| - |k.waitQueues[q].list|
      ensures if old(count) < 0
              then SchedOps.Next(old(k.Snap()), SchedOps.OpWakeOne(c, q, reschedule, Sched.NoError), k.Snap())
              else k.Snap() == old(k.Snap())
    {
      hide SchedOps.Next, SchedOps.WakeOne, SchedOps.CanResched, SchedOps.CanWake, Sched.InvOut, Semaphore.SemInv;
      ghost var a := Abs();
      ghost var s := k.Snap();
      ghost var l := k.waitQueues[q].list;
      Semaphore.SemStepKeeps(a, Semaphore.Post, Semaphore.Posted(a));
      SemQueued(a);
      count := count + 1;
      posts := posts + 1;
      woken := 0;
      if count <= 0 {
        woken := k.WakeOne(c, q, reschedule, Sched.NoError);
        WakeOneWaits(s, c, q, reschedule, Sched.NoError);
        WakeIsStep(s, c, q, reschedule, Sched.NoError, k.Snap());
        if woken != 0 {
          pc := pc[l[0] := Semaphore.Woken];
        }
      }
    }

    /** sem_wait, with an infinite timeout, and sem_timedwait, up to the switch. */
    method Wait(c: Sched.Cpu, timeout: nat) returns (blocked: bool, ok: bool)
      requires Valid() && Called(c) && pc[k.current[c]] == Semaphore.Away
      modifies this, k
      ensures Valid() && pc.Keys == old(pc.Keys)
      ensures Abs() == Semaphore.Waited(old(Abs()), old(k.current[c]), Kind(timeout))
      ensures !blocked ==> k.Snap() == old(k.Snap()) && (ok <==> old(count) > 0)
      ensures blocked ==> SchedOps.Next(old(k.Snap()), SchedOps.OpBlock(c, q), k.Snap())
    {
      hide SchedOps.Next, SchedOps.Block, SchedOps.CanResched, Sched.InvOut, Semaphore.SemInv;
      ghost var a := Abs();
      ghost var s := k.Snap();
      var t := k.current[c];
      Semaphore.SemStepKeeps(a, Semaphore.Wait(t, Kind(timeout)), Semaphore.Waited(a, t, Kind(timeout)));
      SchedOps.RunsOnCpu(s, c);
      count := count - 1;
      if count < 0 {
        blocked := k.WaitQueueBlock(c, q, timeout);
        if blocked {
          BlockWaits(s, c, q);
          BlockIsStep(s, c, q, k.Snap());
          pc := pc[t := if Kind(timeout) == Infinite then Semaphore.InForever else Semaphore.InTimed];
        } else {
          count := count + 1;
        }
        return blocked, false;
      }
      taken := taken + 1;
      return false, true;
    }

    /** sem_wait and sem_timedwait once the caller runs again after its wait. */
    method WaitTail(c: Sched.Cpu) returns (ok: bool)
      requires Valid() && Called(c) && pc[k.current[c]] in {Semaphore.Woken, Semaphore.Overdue}
      modifies this
      ensures Valid() && pc.Keys == old(pc.Keys)
      ensures Abs() == Semaphore.Continued(old(Abs()), k.current[c])
      ensures ok <==> old(pc[k.current[c]]) == Semaphore.Woken
    {
      hide Sched.InvOut, Semaphore.SemInv;
      ghost var a := Abs();
      var t := k.current[c];
      Semaphore.SemStepKeeps(a, Semaphore.Continue(t), Semaphore.Continued(a, t));
      pc := pc[t := Semaphore.Away];
      if k.threads[t].blockedStatus != Sched.NoError {
        if k.threads[t].blockedStatus == Sched.TimedOut {
          count := count + 1;
        }
        return false;
      }
      taken := taken + 1;
      return true;
    }

    /** The timer of a timed wait. */
    method TimerFires(t: Tid)
      requires Valid() && t in pc && pc[t] == Semaphore.InTimed
      modifies this, k
      ensures Valid() && pc.Keys == old(pc.Keys)
      ensures t in old(k.waitQueues[q].list) && Abs() == Semaphore.Expired(old(Abs()), t)
      ensures SchedOps.Next(old(k.Snap()), SchedOps.OpTimeout(t), k.Snap())
    {
      hide SchedOps.Next, Sched.InvOut, SchedOps.Unblock, Without, Semaphore.Conserved, Semaphore.Tokens;
      ghost var a := Abs();
      ghost var s := k.Snap();
      InQueueOf(s, q, t);
      Semaphore.SemStepKeeps(a, Semaphore.Expires(t), Semaphore.Expired(a, t));
      SchedOps.BlockedInQueue(s, {}, t);
      UnblockWaits(s, t, Sched.TimedOut);
      var unblocked := k.UnblockFromWaitQueue(t, Sched.TimedOut);
      TimeoutIsStep(s, t, k.Snap());
      pc := pc[t := Semaphore.Overdue];
    }

    /** sem_trywait */
    method TryWait(c: Sched.Cpu) returns (ok: bool)
      requires Valid() && Called(c) && pc[k.current[c]] == Semaphore.Away
      modifies this
      ensures Valid() && Abs() == Semaphore.Tried(old(Abs())) && (ok <==> old(count) > 0)
    {
      hide Sched.InvOut, Semaphore.SemInv;
      ghost var a := Abs();
      Semaphore.SemStepKeeps(a, Semaphore.TryWait(k.current[c]), Semaphore.Tried(a));
      if count <= 0 {
        return false;
      }
      count := count - 1;
      taken := taken + 1;
      return true;
    }
  }

  lemma SemQueued(a: Semaphore.Sem)
    requires Semaphore.SemInv(a)
    ensures forall t | t in a.queue :: t in a.pc
  {
  }

  // ---------------------------------------------------------------- event

  class EventObject {
    const k: SchedKernel.Kernel
    const q: Sched.Qid
    const auto: bool
    var signalled: bool
    ghost const initial: bool
    ghost var signals: nat
    ghost var absorbed: nat
    ghost var released: nat

    ghost function Abs(): Event.Event
      requires q in k.waitQueues
      reads this, k
    {
      Event.Event(signalled, auto, k.waitQueues[q].list, initial, signals, absorbed, released)
    }

    ghost predicate Valid()
      reads this, k
    {
      Sched.Inv(k.Snap()) && q in k.waitQueues && q.Object? && Event.EventInv(Abs())
    }

    /** Whatever else happens in the scheduler, the event is not touched by it. */
    twostate lemma Undisturbed(op: SchedOps.Op)
      requires old(Valid()) && SchedOps.Next(old(k.Snap()), op, k.Snap()) && unchanged(this)
      requires SchedFrame.Elsewhere(old(k.Snap()), op, q)
      ensures Valid() && Abs() == old(Abs())
    {
      hide Sched.Inv, SchedOps.Next, Event.EventInv, SchedFrame.Elsewhere;
      SchedOps.StepKeeps(old(k.Snap()), op, k.Snap());
      SchedFrame.StepElsewhere(old(k.Snap()), op, k.Snap(), q, 0);
    }

    /** event_init */
    constructor (k0: SchedKernel.Kernel, q0: Sched.Qid, initial0: bool, auto0: bool)
      requires Sched.Inv(k0.Snap()) && q0.Object? && q0 in k0.waitQueues && k0.waitQueues[q0].list == []
      ensures k == k0 && q == q0 && auto == auto0 && Valid() && Event.EventInit(Abs()) && initial == initial0
    {
      k, q, auto, signalled, initial := k0, q0, auto0, initial0, initial0;
      signals, absorbed, released := 0, 0, 0;
    }

    /** current_thread->interruptable is set. */
    method SetInterruptable(c: Sched.Cpu, flag: bool)
      requires Valid() && c in k.current && k.current[c] in k.threads
      modifies k`threads
      ensures Valid() && Abs() == old(Abs()) && k.threads.Keys == old(k.threads.Keys)
      ensures k.threads == old(k.threads)[k.current[c] := old(k.threads[k.current[c]]).(interruptable := flag)]
    {
      hide Sched.InvOut, Event.EventInv;
      var t := k.current[c];
      SchedOps.KnownThread(k.Snap(), {}, t);
      Sched.TweakKeeps(k.Snap(), {}, t, k.threads[t].(interruptable := flag));
      k.threads := k.threads[t := k.threads[t].(interruptable := flag)];
    }

    /** The flag lets the caller through, or the caller blocks. */
    method PassOrBlock(c: Sched.Cpu, timeout: nat) returns (blocked: bool)
      requires Valid() && c in k.current && k.current[c] in k.threads && !k.threads[k.current[c]].idle
      modifies this, k
      ensures Valid() && Abs() == Event.Awaited(old(Abs()), old(k.current[c]), Kind(timeout), false)
      ensures blocked <==> |k.waitQueues[q].list| > |old(k.waitQueues[q].list)|
      ensures if blocked then SchedOps.Next(old(k.Snap()), SchedOps.OpBlock(c, q), k.Snap())
              else k.Snap() == old(k.Snap())
    {
      hide SchedOps.Next, SchedOps.Block, SchedOps.CanResched, Sched.InvOut, Event.EventInv;
      ghost var a := Abs();
      ghost var s := k.Snap();
      var t := k.current[c];
      SchedOps.RunsOnCpu(s, c);
      SchedOps.CallerNotWaiting(s, c, q);
      Event.EventStepKeeps(a, Event.Await(t, Kind(timeout), false), Event.Awaited(a, t, Kind(timeout), false));
      if signalled {
        if auto {
          signalled := false;
        }
        released := released + 1;
        return false;
      }
      blocked := k.WaitQueueBlock(c, q, timeout);
      if blocked {
        BlockWaits(s, c, q);
        BlockIsStep(s, c, q, k.Snap());
      }
    }

    /** event_wait_timeout up to the switch. */
    method Wait(c: Sched.Cpu, timeout: nat, interruptable: bool) returns (blocked: bool, ghost mid: Sched.State)
      requires Valid() && c in k.current && k.current[c] in k.threads && !k.threads[k.current[c]].idle
      modifies this, k
      ensures Valid()
      ensures
        var gone := interruptable && old(k.threads[k.current[c]].killed);
        Abs() == Event.Awaited(old(Abs()), old(k.current[c]), Kind(timeout), gone)
      ensures blocked <==> |k.waitQueues[q].list| > |old(k.waitQueues[q].list)|
      ensures
        var t := old(k.current[c]);
        !blocked ==>
          && k.current == old(k.current) && t in k.threads
          && k.threads[t] == if interruptable && old(k.threads[t].killed) then old(k.threads[t])
                             else old(k.threads[t]).(interruptable := false)
      ensures blocked ==>
                && SchedOps.Next(old(k.Snap()), SchedOps.OpInterruptable(c, interruptable), mid)
                && SchedOps.Next(mid, SchedOps.OpBlock(c, q), k.Snap())
    {
      hide Sched.InvOut, Event.EventInv, Event.Awaited, SchedOps.Block, SchedOps.CanResched;
      var t := k.current[c];
      mid := k.Snap();
      SchedOps.RunsOnCpu(mid, c);
      if interruptable && k.threads[t].killed {
        Event.NotAwaited(Abs(), t, Kind(timeout));
        return false, mid;
      }
      SetInterruptable(c, interruptable);
      mid := k.Snap();
      blocked := PassOrBlock(c, timeout);
      if !blocked {
        SetInterruptable(c, false);
      }
    }

    /** event_wait_timeout once the caller runs again after its wait. */
    method WaitTail(c: Sched.Cpu) returns (status: Sched.Status)
      requires Valid() && c in k.current && k.current[c] in k.threads
      modifies k`threads
      ensures Valid() && Abs() == old(Abs()) && k.threads.Keys == old(k.threads.Keys)
      ensures k.threads == old(k.threads)[k.current[c] := old(k.threads[k.current[c]]).(interruptable := false)]
      ensures status == old(k.threads[k.current[c]].blockedStatus)
    {
      status := k.threads[k.current[c]].blockedStatus;
      SetInterruptable(c, false);
    }

    /** A timeout or an interrupt takes one waiter out of the queue. */
    method Leaves(t: Tid, status: Sched.Status)
      requires Valid() && t in k.waitQueues[q].list
      modifies k
      ensures Valid() && Abs() == old(Abs()).(queue := Without(old(Abs().queue), t))
      ensures t in k.threads && k.threads[t].blockedStatus == status && SchedOps.InItsQueue(old(k.Snap()), t)
      ensures k.Snap() == SchedOps.Unblock(old(k.Snap()), t, status)
    {
      hide Sched.InvOut, SchedOps.Unblock, Without, Event.EventInv;
      ghost var a := Abs();
      ghost var s := k.Snap();
      InQueueOf(s, q, t);
      Event.EventStepKeeps(a, Event.Leaves(t), a.(queue := Without(a.queue, t)));
      SchedOps.BlockedInQueue(s, {}, t);
      UnblockWaits(s, t, status);
      var unblocked := k.UnblockFromWaitQueue(t, status);
    }

    /** event_signal_etc */
    method Signal(c: Sched.Cpu, reschedule: bool, status: Sched.Status) returns (woken: nat)
      requires Valid() && c in k.current
      requires reschedule ==> k.current[c] in k.threads && !k.threads[k.current[c]].idle
      modifies this, k
      ensures Valid() && Abs() == Event.SignalledEvent(old(Abs()))
      ensures woken == |old(k.waitQueues[q].list)| - |k.waitQueues[q].list|
      ensures if old(signalled) then k.Snap() == old(k.Snap())
              else if auto then SchedOps.Next(old(k.Snap()), SchedOps.OpWakeOne(c, q, reschedule, status), k.Snap())
              else SchedOps.Next(old(k.Snap()), SchedOps.OpWakeAll(c, q, reschedule, status), k.Snap())
    {
      hide SchedOps.Next, SchedOps.WakeOne, SchedOps.WakeAll, SchedOps.CanResched, SchedOps.CanWake, Sched.InvOut;
      ghost var a := Abs();
      ghost var s := k.Snap();
      Event.EventStepKeeps(a, Event.Signal, Event.SignalledEvent(a));
      woken := 0;
      signals := signals + 1;
      if signalled {
        absorbed := absorbed + 1;
        return;
      }
      if auto {
        woken := k.WakeOne(c, q, reschedule, status);
        WakeOneWaits(s, c, q, reschedule, status);
        WakeIsStep(s, c, q, reschedule, status, k.Snap());
        if woken <= 0 {
          signalled := true;
        } else {
          released := released + 1;
        }
      } else {
        signalled := true;
        woken := k.WakeAll(c, q, reschedule, status);
        WakeAllWaits(s, c, q, reschedule, status);
        WakeIsStep(s, c, q, reschedule, status, k.Snap());
        released := released + woken;
      }
    }

    /** event_unsignal */
    method Unsignal()
      requires Valid()
      modifies this
      ensures Valid() && Abs() == Event.UnsignalledEvent(old(Abs()))
    {
      absorbed := absorbed + if signalled then 1 else 0;
      signalled := false;
    }
  }
}
