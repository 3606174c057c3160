/** Threads, run queues and wait queues: the state kept under the thread lock, its invariant,
    and the elementary moves of one thread between queues. */
module Sched {

  import opened Waiters

  type Cpu = int

  const NUM_PRIORITIES: nat := 32
  const HIGHEST_PRIORITY: nat := 31
  const IDLE_PRIORITY: nat := 0

  datatype ThreadState = Suspended | Ready | Running | Blocked | Sleeping | Death

  /** A wait queue belongs to a kernel object, or to a thread for those who wait for its death. */
  datatype Qid = Object(id: nat) | Retcode(t: Tid)

  datatype Status = NoError | TimedOut | Interrupted | Cancelled | ThreadDetached

  datatype Thread = Thread(
    state: ThreadState, priority: nat, idle: bool, pinned: Cpu, currCpu: Cpu, quantum: int,
    waiting: Option<Qid>, blockedStatus: Status, interruptable: bool, killed: bool, detached: bool)

  type Threads = map<Tid, Thread>

  datatype WaitQueue = WaitQueue(count: int, list: seq<Tid>)

  datatype State = State(
    threads: Threads,
    runQueue: seq<seq<Tid>>,
    bitmap: set<nat>,
    waitQueues: map<Qid, WaitQueue>,
    current: map<Cpu, Tid>,
    idleOf: map<Cpu, Tid>)

  // ---------------------------------------------------------------- invariant

  /** The thread belongs in run queue p. */
  predicate Queued(ts: Threads, p: nat, t: Tid) {
    t in ts && ts[t].state == Ready && !ts[t].idle && ts[t].priority == p
  }

  /** The thread belongs in wait queue q. */
  predicate Waits(ts: Threads, q: Qid, t: Tid) {
    t in ts && ts[t].state == Blocked && ts[t].waiting == Some(q)
  }

  ghost predicate RunList(ts: Threads, l: seq<Tid>, p: nat) {
    NoDup(l) && forall t :: t in l <==> Queued(ts, p, t)
  }

  ghost predicate WaitList(ts: Threads, w: WaitQueue, q: Qid) {
    NoDup(w.list) && w.count == |w.list| && forall t :: t in w.list <==> Waits(ts, q, t)
  }

  ghost predicate RunOk(ts: Threads, rq: seq<seq<Tid>>) {
    |rq| == NUM_PRIORITIES && forall p | 0 <= p < |rq| :: RunList(ts, rq[p], p)
  }

  ghost predicate BitmapOk(rq: seq<seq<Tid>>, bitmap: set<nat>) {
    forall p: nat :: p in bitmap <==> p < |rq| && rq[p] != []
  }

  ghost predicate WaitOk(ts: Threads, wq: map<Qid, WaitQueue>) {
    forall q | q in wq :: WaitList(ts, wq[q], q)
  }

  /** Nobody waits for the death of a thread that is dead or detached. */
  ghost predicate JoinOk(ts: Threads, wq: map<Qid, WaitQueue>) {
    forall t | t in ts :: Retcode(t) in wq && ((ts[t].state == Death || ts[t].detached) ==> wq[Retcode(t)].list == [])
  }

  predicate ThreadOk(t: Tid, th: Thread, current: map<Cpu, Tid>, idleOf: map<Cpu, Tid>, out: set<Cpu>, qs: set<Qid>) {
    && th.priority < NUM_PRIORITIES
    && (th.state == Running ==> th.currCpu in current && th.currCpu !in out && current[th.currCpu] == t)
    && (th.state == Blocked ==> th.waiting.Some? && th.waiting.value in qs)
    && (th.state != Blocked ==> th.waiting.None?)
    && (th.idle ==>
          && th.pinned in idleOf && idleOf[th.pinned] == t
          && th.state in {Suspended, Ready, Running}
          && (th.state == Running ==> th.currCpu == th.pinned))
  }

  ghost predicate ThreadsOk(ts: Threads, current: map<Cpu, Tid>, idleOf: map<Cpu, Tid>, out: set<Cpu>, qs: set<Qid>) {
    forall t | t in ts :: ThreadOk(t, ts[t], current, idleOf, out, qs)
  }

  /** A processor outside `out` runs its current thread; one in `out` is between two threads. */
  predicate CpuOk(c: Cpu, ts: Threads, current: map<Cpu, Tid>, idleOf: map<Cpu, Tid>, out: set<Cpu>)
    requires c in current
  {
    && c in idleOf && idleOf[c] in ts && ts[idleOf[c]].idle && ts[idleOf[c]].pinned == c
    && (current[c] in ts ==> ts[current[c]].currCpu == c)
    && (c !in out ==> current[c] in ts && ts[current[c]].state == Running)
  }

  ghost predicate CpusOk(ts: Threads, current: map<Cpu, Tid>, idleOf: map<Cpu, Tid>, out: set<Cpu>) {
    forall c | c in current :: CpuOk(c, ts, current, idleOf, out)
  }

  ghost predicate InvOut(s: State, out: set<Cpu>) {
    && RunOk(s.threads, s.runQueue)
    && BitmapOk(s.runQueue, s.bitmap)
    && WaitOk(s.threads, s.waitQueues)
    && JoinOk(s.threads, s.waitQueues)
    && ThreadsOk(s.threads, s.current, s.idleOf, out, s.waitQueues.Keys)
    && CpusOk(s.threads, s.current, s.idleOf, out)
  }

  ghost predicate Inv(s: State) {
    InvOut(s, {})
  }

  // ---------------------------------------------------------------- lists

  function Put(l: seq<Tid>, t: Tid, head: bool): (r: seq<Tid>)
    ensures forall u :: u in r <==> u in l || u == t
  {
    if head then [t] + l else l + [t]
  }

  lemma NoDupPut(l: seq<Tid>, t: Tid, head: bool)
    requires NoDup(l) && t !in l
    ensures NoDup(Put(l, t, head))
  {
  }

  lemma RunListPut(ts: Threads, l: seq<Tid>, p: nat, t: Tid, th: Thread, head: bool)
    requires RunList(ts, l, p) && !Queued(ts, p, t) && Queued(ts[t := th], p, t)
    ensures RunList(ts[t := th], Put(l, t, head), p)
  {
    NoDupPut(l, t, head);
    forall u ensures u in Put(l, t, head) <==> Queued(ts[t := th], p, u) {
      assert u != t ==> (Queued(ts[t := th], p, u) <==> Queued(ts, p, u));
    }
  }

  lemma RunListRemove(ts: Threads, l: seq<Tid>, p: nat, i: nat, th: Thread)
    requires RunList(ts, l, p) && i < |l| && !Queued(ts[l[i] := th], p, l[i])
    ensures RunList(ts[l[i] := th], RemoveAt(l, i), p)
  {
    NoDupRemove(l, i);
    forall u ensures u in RemoveAt(l, i) <==> Queued(ts[l[i] := th], p, u) {
      assert u != l[i] ==> (Queued(ts[l[i] := th], p, u) <==> Queued(ts, p, u));
    }
  }

  lemma RunListSame(ts: Threads, l: seq<Tid>, p: nat, t: Tid, th: Thread)
    requires RunList(ts, l, p) && (Queued(ts, p, t) <==> Queued(ts[t := th], p, t))
    ensures RunList(ts[t := th], l, p)
  {
    forall u ensures u in l <==> Queued(ts[t := th], p, u) {
      assert u != t ==> (Queued(ts[t := th], p, u) <==> Queued(ts, p, u));
    }
  }

  lemma WaitListAppend(ts: Threads, w: WaitQueue, q: Qid, t: Tid, th: Thread)
    requires WaitList(ts, w, q) && !Waits(ts, q, t) && Waits(ts[t := th], q, t)
    ensures WaitList(ts[t := th], WaitQueue(w.count + 1, w.list + [t]), q)
  {
    NoDupPut(w.list, t, false);
    forall u ensures u in w.list + [t] <==> Waits(ts[t := th], q, u) {
      assert u in w.list + [t] <==> u in Put(w.list, t, false);
      assert u != t ==> (Waits(ts[t := th], q, u) <==> Waits(ts, q, u));
    }
  }

  lemma WaitListRemove(ts: Threads, w: WaitQueue, q: Qid, i: nat, th: Thread)
    requires WaitList(ts, w, q) && i < |w.list| && !Waits(ts[w.list[i] := th], q, w.list[i])
    ensures WaitList(ts[w.list[i] := th], WaitQueue(w.count - 1, RemoveAt(w.list, i)), q)
  {
    var t := w.list[i];
    NoDupRemove(w.list, i);
    forall u ensures u in RemoveAt(w.list, i) <==> Waits(ts[t := th], q, u) {
      assert u != t ==> (Waits(ts[t := th], q, u) <==> Waits(ts, q, u));
    }
  }

  lemma WaitListSame(ts: Threads, w: WaitQueue, q: Qid, t: Tid, th: Thread)
    requires WaitList(ts, w, q) && (Waits(ts, q, t) <==> Waits(ts[t := th], q, t))
    ensures WaitList(ts[t := th], w, q)
  {
    forall u ensures u in w.list <==> Waits(ts[t := th], q, u) {
      assert u != t ==> (Waits(ts[t := th], q, u) <==> Waits(ts, q, u));
    }
  }

  // ---------------------------------------------------------------- one thread changes

  lemma RunOkSame(ts: Threads, rq: seq<seq<Tid>>, t: Tid, th: Thread)
    requires RunOk(ts, rq)
    requires forall p: nat :: Queued(ts, p, t) <==> Queued(ts[t := th], p, t)
    ensures RunOk(ts[t := th], rq)
  {
    hide RunList, Queued;
    forall p | 0 <= p < |rq| ensures RunList(ts[t := th], rq[p], p) {
      RunListSame(ts, rq[p], p, t, th);
    }
  }

  lemma WaitOkSame(ts: Threads, wq: map<Qid, WaitQueue>, t: Tid, th: Thread)
    requires WaitOk(ts, wq)
    requires forall q :: Waits(ts, q, t) <==> Waits(ts[t := th], q, t)
    ensures WaitOk(ts[t := th], wq)
  {
    hide WaitList, Waits;
    forall q | q in wq ensures WaitList(ts[t := th], wq[q], q) {
      WaitListSame(ts, wq[q], q, t, th);
    }
  }

  lemma ThreadsOkSame(ts: Threads, current: map<Cpu, Tid>, idleOf: map<Cpu, Tid>, out: set<Cpu>, qs: set<Qid>, t: Tid,
                      th: Thread)
    requires ThreadsOk(ts, current, idleOf, out, qs) && ThreadOk(t, th, current, idleOf, out, qs)
    ensures ThreadsOk(ts[t := th], current, idleOf, out, qs)
  {
    hide ThreadOk;
  }

  lemma CpusOkSame(ts: Threads, current: map<Cpu, Tid>, idleOf: map<Cpu, Tid>, out: set<Cpu>, t: Tid, th: Thread)
    requires CpusOk(ts, current, idleOf, out) && t in ts
    requires th.idle == ts[t].idle && th.pinned == ts[t].pinned && th.currCpu == ts[t].currCpu
    requires th.state == Running <==> ts[t].state == Running
    ensures CpusOk(ts[t := th], current, idleOf, out)
  {
  }

  lemma JoinOkSame(ts: Threads, wq: map<Qid, WaitQueue>, t: Tid, th: Thread)
    requires JoinOk(ts, wq) && t in ts
    requires (th.state == Death || th.detached) ==> Retcode(t) in wq && wq[Retcode(t)].list == []
    ensures JoinOk(ts[t := th], wq)
  {
  }

  // ---------------------------------------------------------------- moves

  function SetThread(s: State, t: Tid, th: Thread): (s2: State) {
    s.(threads := s.threads[t := th])
  }

  /** insert_in_run_queue_head and insert_in_run_queue_tail. */
  function Insert(s: State, t: Tid, head: bool): (s2: State)
    requires t in s.threads && s.threads[t].priority < |s.runQueue|
  {
    var p := s.threads[t].priority;
    s.(runQueue := s.runQueue[p := Put(s.runQueue[p], t, head)], bitmap := s.bitmap + {p})
  }

  /** The thread becomes ready; an idle thread does not go into a run queue. */
  function MakeReady(s: State, t: Tid, head: bool): (s2: State)
    requires t in s.threads && s.threads[t].priority < |s.runQueue|
  {
    var s1 := SetThread(s, t, s.threads[t].(state := Ready));
    if s.threads[t].idle then s1 else Insert(s1, t, head)
  }

  /** The thread goes to the end of a wait queue. */
  function BlockOn(s: State, q: Qid, t: Tid): (s2: State)
    requires q in s.waitQueues && t in s.threads
  {
    var w := s.waitQueues[q];
    s.(waitQueues := s.waitQueues[q := WaitQueue(w.count + 1, w.list + [t])],
       threads := s.threads[t := s.threads[t].(state := Blocked, waiting := Some(q), blockedStatus := NoError)])
  }

  /** Thread number i of a wait queue leaves it, with the status its wait returns. */
  function Pop(s: State, q: Qid, i: nat, status: Status): (s2: State)
    requires q in s.waitQueues && i < |s.waitQueues[q].list| && s.waitQueues[q].list[i] in s.threads
  {
    var w := s.waitQueues[q];
    var t := w.list[i];
    s.(waitQueues := s.waitQueues[q := WaitQueue(w.count - 1, RemoveAt(w.list, i))],
       threads := s.threads[t := s.threads[t].(state := Ready, waiting := None, blockedStatus := status)])
  }

  /** ... and goes to the head of its run queue. */
  function Wake(s: State, q: Qid, i: nat, status: Status): (s2: State)
    requires q in s.waitQueues && i < |s.waitQueues[q].list| && s.waitQueues[q].list[i] in s.threads
    requires s.threads[s.waitQueues[q].list[i]].priority < |s.runQueue|
  {
    Insert(Pop(s, q, i, status), s.waitQueues[q].list[i], true)
  }

  /** The thread that was on processor c gives up its mark of ownership. */
  function Unmark(s: State, c: Cpu): (s2: State)
    requires c in s.current
    ensures s2 == s.(threads := s2.threads)
  {
    var prev := s.current[c];
    if prev in s.threads then SetThread(s, prev, s.threads[prev].(currCpu := -1)) else s
  }

  /** Processor c goes over to thread t: the tail of thread_resched. */
  function SwitchTo(s: State, c: Cpu, t: Tid): (s2: State)
    requires t in s.threads && c in s.current
  {
    if t == s.current[c] then SetThread(s, t, s.threads[t].(state := Running))
    else
      var th := s.threads[t];
      var quantum := if th.quantum <= 0 then 5 else th.quantum;
      SetThread(Unmark(s, c), t, th.(state := Running, currCpu := c, quantum := quantum))
      .(current := s.current[c := t])
  }

  /** Thread number i of run queue p is taken out of it: the list_delete of get_top_thread. */
  function Take(s: State, p: nat, i: nat): (s2: State)
    requires p < |s.runQueue| && i < |s.runQueue[p]|
  {
    var l := RemoveAt(s.runQueue[p], i);
    s.(runQueue := s.runQueue[p := l], bitmap := if l == [] then s.bitmap - {p} else s.bitmap)
  }

  /** The thread of processor c stops running; what becomes of it is the next move. */
  function Off(s: State, c: Cpu): (s2: State)
    requires c in s.current && s.current[c] in s.threads
  {
    var t := s.current[c];
    SetThread(s, t, s.threads[t].(state := Suspended))
  }

  // ---------------------------------------------------------------- the moves keep the invariant

  lemma OffKeeps(s: State, c: Cpu)
    requires Inv(s) && c in s.current
    ensures CpuOk(c, s.threads, s.current, s.idleOf, {}) && InvOut(Off(s, c), {c})
  {
    hide RunList, WaitList, RunOk, WaitOk, JoinOk, BitmapOk;
    assert CpuOk(c, s.threads, s.current, s.idleOf, {});
    var t := s.current[c];
    var th := s.threads[t].(state := Suspended);
    assert ThreadOk(t, s.threads[t], s.current, s.idleOf, {}, s.waitQueues.Keys);
    RunOkSame(s.threads, s.runQueue, t, th);
    WaitOkSame(s.threads, s.waitQueues, t, th);
    JoinOkSame(s.threads, s.waitQueues, t, th) by {
      JoinersOf(s, t);
    }
    OffThreads(s, c);
    OffCpus(s, c);
  }

  lemma JoinersOf(s: State, t: Tid)
    requires JoinOk(s.threads, s.waitQueues) && t in s.threads
    ensures Retcode(t) in s.waitQueues
    ensures s.threads[t].state == Death || s.threads[t].detached ==> s.waitQueues[Retcode(t)].list == []
  {
  }

  lemma OffThreads(s: State, c: Cpu)
    requires Inv(s) && c in s.current && CpuOk(c, s.threads, s.current, s.idleOf, {})
    ensures ThreadsOk(Off(s, c).threads, s.current, s.idleOf, {c}, s.waitQueues.Keys)
  {
    hide RunOk, WaitOk, JoinOk, BitmapOk;
    var ts := Off(s, c).threads;
    forall u | u in ts ensures ThreadOk(u, ts[u], s.current, s.idleOf, {c}, s.waitQueues.Keys) {
      assert ThreadOk(u, s.threads[u], s.current, s.idleOf, {}, s.waitQueues.Keys);
    }
  }

  lemma OffCpus(s: State, c: Cpu)
    requires Inv(s) && c in s.current && CpuOk(c, s.threads, s.current, s.idleOf, {})
    ensures CpusOk(Off(s, c).threads, s.current, s.idleOf, {c})
  {
    hide RunOk, WaitOk, JoinOk, BitmapOk, ThreadsOk;
    forall d | d in s.current ensures CpuOk(d, Off(s, c).threads, s.current, s.idleOf, {c}) {
      assert CpuOk(d, s.threads, s.current, s.idleOf, {});
    }
  }

  predicate Resting(state: ThreadState) {
    state in {Suspended, Sleeping, Death}
  }

  /** A change of one thread that concerns no queue. */
  lemma TweakKeeps(s: State, out: set<Cpu>, t: Tid, th: Thread)
    requires InvOut(s, out) && t in s.threads
    requires
      var o := s.threads[t];
      && th.idle == o.idle && th.pinned == o.pinned && th.currCpu == o.currCpu && th.waiting == o.waiting
      && (th.state == o.state || (Resting(o.state) && Resting(th.state) && !th.idle))
      && (th.priority == o.priority || (th.priority < NUM_PRIORITIES && (th.state == Running || Resting(th.state))))
      && ((th.state == Death || th.detached) ==> Retcode(t) in s.waitQueues && s.waitQueues[Retcode(t)].list == [])
    ensures InvOut(SetThread(s, t, th), out)
  {
    hide RunList, WaitList, RunOk, WaitOk, JoinOk, CpusOk, BitmapOk;
    assert ThreadOk(t, s.threads[t], s.current, s.idleOf, out, s.waitQueues.Keys);
    RunOkSame(s.threads, s.runQueue, t, th);
    WaitOkSame(s.threads, s.waitQueues, t, th);
    JoinOkSame(s.threads, s.waitQueues, t, th);
    ThreadsOkSame(s.threads, s.current, s.idleOf, out, s.waitQueues.Keys, t, th);
    CpusOkSame(s.threads, s.current, s.idleOf, out, t, th);
  }

  lemma InsertRun(ts: Threads, rq: seq<seq<Tid>>, t: Tid, th: Thread, head: bool)
    requires RunOk(ts, rq) && th.priority < |rq| && th.state == Ready && !th.idle
    requires t in ts ==> ts[t].state != Ready
    ensures RunOk(ts[t := th], rq[th.priority := Put(rq[th.priority], t, head)])
  {
    hide RunList;
    var p := th.priority;
    var rq2 := rq[p := Put(rq[p], t, head)];
    forall r | 0 <= r < |rq2| ensures RunList(ts[t := th], rq2[r], r) {
      if r == p {
        RunListPut(ts, rq[p], p, t, th, head);
      } else {
        RunListSame(ts, rq[r], r, t, th);
      }
    }
  }

  lemma InsertBitmap(rq: seq<seq<Tid>>, bitmap: set<nat>, p: nat, t: Tid, head: bool)
    requires BitmapOk(rq, bitmap) && p < |rq|
    ensures BitmapOk(rq[p := Put(rq[p], t, head)], bitmap + {p})
  {
    assert t in Put(rq[p], t, head);
  }

  lemma MakeReadyKeeps(s: State, out: set<Cpu>, t: Tid, head: bool)
    requires InvOut(s, out) && t in s.threads && s.threads[t].state in {Suspended, Sleeping}
    ensures s.threads[t].priority < |s.runQueue| && InvOut(MakeReady(s, t, head), out)
  {
    hide RunList, WaitList, RunOk, WaitOk, JoinOk, CpusOk, BitmapOk;
    var th := s.threads[t].(state := Ready);
    assert ThreadOk(t, s.threads[t], s.current, s.idleOf, out, s.waitQueues.Keys);
    RunOkLength(s.threads, s.runQueue);
    if th.idle {
      RunOkSame(s.threads, s.runQueue, t, th);
    } else {
      InsertRun(s.threads, s.runQueue, t, th, head);
      InsertBitmap(s.runQueue, s.bitmap, th.priority, t, head);
    }
    WaitOkSame(s.threads, s.waitQueues, t, th);
    JoinersOf(s, t);
    JoinOkSame(s.threads, s.waitQueues, t, th);
    ThreadsOkSame(s.threads, s.current, s.idleOf, out, s.waitQueues.Keys, t, th);
    CpusOkSame(s.threads, s.current, s.idleOf, out, t, th);
  }

  lemma RunOkLength(ts: Threads, rq: seq<seq<Tid>>)
    requires RunOk(ts, rq)
    ensures |rq| == NUM_PRIORITIES
  {
  }

  lemma AppendWait(ts: Threads, wq: map<Qid, WaitQueue>, q: Qid, t: Tid, th: Thread)
    requires WaitOk(ts, wq) && q in wq && th.state == Blocked
    requires th.waiting == Some(q) && (t in ts ==> ts[t].state != Blocked)
    ensures WaitOk(ts[t := th], wq[q := WaitQueue(wq[q].count + 1, wq[q].list + [t])])
  {
    hide WaitList;
    var wq2 := wq[q := WaitQueue(wq[q].count + 1, wq[q].list + [t])];
    forall r | r in wq2 ensures WaitList(ts[t := th], wq2[r], r) {
      if r == q {
        WaitListAppend(ts, wq[q], q, t, th);
      } else {
        WaitListSame(ts, wq[r], r, t, th);
      }
    }
  }

  lemma BlockOnKeeps(s: State, out: set<Cpu>, q: Qid, t: Tid)
    requires InvOut(s, out) && t in s.threads && s.threads[t].state == Suspended && !s.threads[t].idle
    requires q in s.waitQueues
    requires q.Retcode? && q.t in s.threads ==> s.threads[q.t].state != Death && !s.threads[q.t].detached
    ensures InvOut(BlockOn(s, q, t), out)
  {
    hide RunList, WaitList, RunOk, WaitOk, JoinOk, CpusOk, BitmapOk;
    var th := s.threads[t].(state := Blocked, waiting := Some(q), blockedStatus := NoError);
    assert ThreadOk(t, s.threads[t], s.current, s.idleOf, out, s.waitQueues.Keys);
    RunOkSame(s.threads, s.runQueue, t, th);
    AppendWait(s.threads, s.waitQueues, q, t, th);
    BlockJoin(s, q, t);
    assert BlockOn(s, q, t).waitQueues.Keys == s.waitQueues.Keys;
    ThreadsOkSame(s.threads, s.current, s.idleOf, out, s.waitQueues.Keys, t, th);
    CpusOkSame(s.threads, s.current, s.idleOf, out, t, th);
  }

  lemma BlockJoin(s: State, q: Qid, t: Tid)
    requires JoinOk(s.threads, s.waitQueues) && t in s.threads && q in s.waitQueues
    requires q.Retcode? && q.t in s.threads ==> s.threads[q.t].state != Death && !s.threads[q.t].detached
    ensures JoinOk(BlockOn(s, q, t).threads, BlockOn(s, q, t).waitQueues)
  {
  }

  lemma RemoveWait(ts: Threads, wq: map<Qid, WaitQueue>, q: Qid, i: nat, th: Thread)
    requires WaitOk(ts, wq) && q in wq && i < |wq[q].list| && th.state != Blocked
    requires wq[q].list[i] in ts && ts[wq[q].list[i]].waiting == Some(q)
    ensures WaitOk(ts[wq[q].list[i] := th], wq[q := WaitQueue(wq[q].count - 1, RemoveAt(wq[q].list, i))])
  {
    hide WaitList;
    var t := wq[q].list[i];
    var wq2 := wq[q := WaitQueue(wq[q].count - 1, RemoveAt(wq[q].list, i))];
    forall r | r in wq2 ensures WaitList(ts[t := th], wq2[r], r) {
      if r == q {
        WaitListRemove(ts, wq[q], q, i, th);
      } else {
        WaitListSame(ts, wq[r], r, t, th);
      }
    }
  }

  /** Whoever stands in a wait queue is blocked on it. */
  lemma WaiterBlocked(s: State, q: Qid, i: nat)
    requires WaitOk(s.threads, s.waitQueues) && q in s.waitQueues && i < |s.waitQueues[q].list|
    ensures Waits(s.threads, q, s.waitQueues[q].list[i])
  {
    assert WaitList(s.threads, s.waitQueues[q], q);
  }

  lemma WakeKeeps(s: State, out: set<Cpu>, q: Qid, i: nat, status: Status)
    requires InvOut(s, out) && q in s.waitQueues && i < |s.waitQueues[q].list|
    ensures s.waitQueues[q].list[i] in s.threads && s.threads[s.waitQueues[q].list[i]].priority < |s.runQueue|
    ensures InvOut(Wake(s, q, i, status), out)
  {
    hide RunList, WaitList, RunOk, WaitOk, JoinOk, CpusOk, BitmapOk;
    WaiterBlocked(s, q, i);
    var t := s.waitQueues[q].list[i];
    var th := s.threads[t].(state := Ready, waiting := None, blockedStatus := status);
    assert ThreadOk(t, s.threads[t], s.current, s.idleOf, out, s.waitQueues.Keys);
    RunOkLength(s.threads, s.runQueue);
    InsertRun(s.threads, s.runQueue, t, th, true);
    InsertBitmap(s.runQueue, s.bitmap, th.priority, t, true);
    RemoveWait(s.threads, s.waitQueues, q, i, th);
    WakeJoin(s, q, i, status);
    assert Wake(s, q, i, status).waitQueues.Keys == s.waitQueues.Keys;
    ThreadsOkSame(s.threads, s.current, s.idleOf, out, s.waitQueues.Keys, t, th);
    CpusOkSame(s.threads, s.current, s.idleOf, out, t, th);
  }

  lemma WakeJoin(s: State, q: Qid, i: nat, status: Status)
    requires JoinOk(s.threads, s.waitQueues) && q in s.waitQueues && i < |s.waitQueues[q].list|
    requires s.waitQueues[q].list[i] in s.threads && s.threads[s.waitQueues[q].list[i]].priority < |s.runQueue|
    requires s.threads[s.waitQueues[q].list[i]].state == Blocked
    ensures JoinOk(Wake(s, q, i, status).threads, Wake(s, q, i, status).waitQueues)
  {
  }

  // ---------------------------------------------------------------- a processor takes up a thread

  lemma TakeRun(ts: Threads, rq: seq<seq<Tid>>, p: nat, i: nat, th: Thread)
    requires RunOk(ts, rq) && p < |rq| && i < |rq[p]| && th.state == Running
    requires rq[p][i] in ts && ts[rq[p][i]].priority == p
    ensures RunOk(ts[rq[p][i] := th], rq[p := RemoveAt(rq[p], i)])
  {
    hide RunList;
    var t := rq[p][i];
    var rq2 := rq[p := RemoveAt(rq[p], i)];
    forall r | 0 <= r < |rq2| ensures RunList(ts[t := th], rq2[r], r) {
      if r == p {
        RunListRemove(ts, rq[p], p, i, th);
      } else {
        RunListSame(ts, rq[r], r, t, th);
      }
    }
  }

  lemma TakeBitmap(s: State, p: nat, i: nat)
    requires BitmapOk(s.runQueue, s.bitmap) && p < |s.runQueue| && i < |s.runQueue[p]|
    ensures BitmapOk(Take(s, p, i).runQueue, Take(s, p, i).bitmap)
  {
  }

  /** Whoever stands in a run queue is ready, at that priority, and not idle. */
  lemma QueuedReady(s: State, p: nat, i: nat)
    requires RunOk(s.threads, s.runQueue) && p < |s.runQueue| && i < |s.runQueue[p]|
    ensures Queued(s.threads, p, s.runQueue[p][i])
  {
    assert RunList(s.threads, s.runQueue[p], p);
  }

  lemma SwitchThread(t: Tid, th: Thread, th2: Thread, current: map<Cpu, Tid>, c: Cpu, idleOf: map<Cpu, Tid>,
                     qs: set<Qid>)
    requires ThreadOk(t, th, current, idleOf, {c}, qs)
    requires th.state in {Ready, Suspended} && c in current && th2.currCpu == c
    requires th2 == th.(state := Running, currCpu := c, quantum := th2.quantum) && (th.idle ==> th.pinned == c)
    ensures ThreadOk(t, th2, current[c := t], idleOf, {}, qs)
  {
  }

  lemma StayThread(u: Tid, th: Thread, th2: Thread, current: map<Cpu, Tid>, c: Cpu, t: Tid, idleOf: map<Cpu, Tid>,
                   qs: set<Qid>)
    requires ThreadOk(u, th, current, idleOf, {c}, qs) && u != t
    requires th2 == th || (th2 == th.(currCpu := -1) && th.state != Running)
    ensures ThreadOk(u, th2, current[c := t], idleOf, {}, qs)
  {
  }

  /** The thread a processor is leaving no longer runs, but still bears its mark. */
  lemma OffCpuIdle(s: State, c: Cpu)
    requires InvOut(s, {c}) && c in s.current
    ensures CpuOk(c, s.threads, s.current, s.idleOf, {c})
    ensures s.current[c] in s.threads ==> s.threads[s.current[c]].state != Running
    ensures s.current[c] in s.threads ==> s.threads[s.current[c]].currCpu == c
  {
    assert CpuOk(c, s.threads, s.current, s.idleOf, {c});
    if s.current[c] in s.threads {
      assert ThreadOk(s.current[c], s.threads[s.current[c]], s.current, s.idleOf, {c}, s.waitQueues.Keys);
    }
  }

  lemma SwitchThreads(s: State, c: Cpu, t: Tid)
    requires InvOut(s, {c}) && c in s.current && t in s.threads && s.threads[t].state in {Ready, Suspended}
    requires s.threads[t].idle ==> s.threads[t].pinned == c
    ensures
      var s2 := SwitchTo(s, c, t);
      ThreadsOk(s2.threads, s2.current, s2.idleOf, {}, s2.waitQueues.Keys)
  {
    hide RunOk, WaitOk, JoinOk, BitmapOk, ThreadOk;
    var s2 := SwitchTo(s, c, t);
    OffCpuIdle(s, c);
    assert s2.current == s.current[c := t];
    forall u | u in s2.threads ensures ThreadOk(u, s2.threads[u], s2.current, s2.idleOf, {}, s2.waitQueues.Keys) {
      assert ThreadOk(u, s.threads[u], s.current, s.idleOf, {c}, s.waitQueues.Keys);
      if u == t {
        SwitchThread(t, s.threads[t], s2.threads[t], s.current, c, s.idleOf, s.waitQueues.Keys);
      } else {
        StayThread(u, s.threads[u], s2.threads[u], s.current, c, t, s.idleOf, s.waitQueues.Keys);
      }
    }
  }

  lemma SwitchCpus(s: State, c: Cpu, t: Tid)
    requires InvOut(s, {c}) && c in s.current && t in s.threads && s.threads[t].state != Running
    ensures
      var s2 := SwitchTo(s, c, t);
      CpusOk(s2.threads, s2.current, s2.idleOf, {})
  {
    hide RunOk, WaitOk, JoinOk, BitmapOk, ThreadsOk;
    var s2 := SwitchTo(s, c, t);
    assert CpuOk(c, s.threads, s.current, s.idleOf, {c});
    forall d | d in s2.current ensures CpuOk(d, s2.threads, s2.current, s2.idleOf, {}) {
      assert CpuOk(d, s.threads, s.current, s.idleOf, {c});
      assert d != c ==> s.current[d] != s.current[c];
    }
  }

  lemma UnmarkQueues(s: State, c: Cpu)
    requires InvOut(s, {c}) && c in s.current
    ensures
      var s1 := Unmark(s, c);
      RunOk(s1.threads, s.runQueue) && WaitOk(s1.threads, s.waitQueues) && JoinOk(s1.threads, s.waitQueues)
  {
    hide RunList, WaitList, RunOk, WaitOk, JoinOk, CpusOk, BitmapOk;
    var prev := s.current[c];
    if prev in s.threads {
      var th := s.threads[prev].(currCpu := -1);
      RunOkSame(s.threads, s.runQueue, prev, th);
      WaitOkSame(s.threads, s.waitQueues, prev, th);
      JoinersOf(s, prev);
      JoinOkSame(s.threads, s.waitQueues, prev, th);
    }
  }

  /** The thread table just before thread t is set running on processor c. */
  function Base(s: State, c: Cpu, t: Tid): (ts: Threads)
    requires t in s.threads && c in s.current
    ensures t in ts && ts[t] == s.threads[t]
    ensures SwitchTo(s, c, t).threads == ts[t := SwitchTo(s, c, t).threads[t]]
  {
    if t == s.current[c] then s.threads else Unmark(s, c).threads
  }

  lemma SwitchQueues(s: State, c: Cpu, t: Tid)
    requires InvOut(s, {c}) && c in s.current && t in s.threads && s.threads[t].state in {Ready, Suspended}
    ensures RunOk(Base(s, c, t), s.runQueue)
    ensures WaitOk(SwitchTo(s, c, t).threads, s.waitQueues) && JoinOk(SwitchTo(s, c, t).threads, s.waitQueues)
    ensures SwitchTo(s, c, t).threads[t].state == Running
  {
    hide RunList, WaitList, RunOk, WaitOk, JoinOk, CpusOk, ThreadsOk, BitmapOk;
    UnmarkQueues(s, c);
    var ts := Base(s, c, t);
    var th := SwitchTo(s, c, t).threads[t];
    JoinersOf(s, t);
    WaitOkSame(ts, s.waitQueues, t, th);
    JoinOkSame(ts, s.waitQueues, t, th);
  }

  /** A ready thread of run queue p goes onto processor c. */
  lemma RunFromKeeps(s: State, c: Cpu, p: nat, i: nat)
    requires InvOut(s, {c}) && c in s.current && p < |s.runQueue| && i < |s.runQueue[p]|
    ensures s.runQueue[p][i] in s.threads && Inv(Take(SwitchTo(s, c, s.runQueue[p][i]), p, i))
  {
    hide RunList, WaitList, RunOk, WaitOk, JoinOk, CpusOk, ThreadsOk, BitmapOk, Base, Unmark;
    QueuedReady(s, p, i);
    var t := s.runQueue[p][i];
    SwitchThreads(s, c, t);
    SwitchCpus(s, c, t);
    TakeBitmap(s, p, i);
    SwitchQueues(s, c, t);
    TakeRun(Base(s, c, t), s.runQueue, p, i, SwitchTo(s, c, t).threads[t]);
  }

  lemma IdleState(s: State, c: Cpu)
    requires InvOut(s, {c}) && c in s.current && c in s.idleOf && s.idleOf[c] in s.threads
    ensures s.threads[s.idleOf[c]].state in {Ready, Suspended}
  {
    assert CpuOk(c, s.threads, s.current, s.idleOf, {c});
    assert ThreadOk(s.idleOf[c], s.threads[s.idleOf[c]], s.current, s.idleOf, {c}, s.waitQueues.Keys);
  }

  /** The idle thread goes onto its processor. */
  lemma RunIdleKeeps(s: State, c: Cpu)
    requires InvOut(s, {c}) && c in s.current
    ensures c in s.idleOf && s.idleOf[c] in s.threads && Inv(SwitchTo(s, c, s.idleOf[c]))
  {
    hide RunList, WaitList, RunOk, WaitOk, JoinOk, CpusOk, ThreadsOk, BitmapOk, Base, Unmark;
    OffCpuIdle(s, c);
    var t := s.idleOf[c];
    IdleState(s, c);
    SwitchThreads(s, c, t);
    SwitchCpus(s, c, t);
    SwitchQueues(s, c, t);
    RunOkSame(Base(s, c, t), s.runQueue, t, SwitchTo(s, c, t).threads[t]);
  }

  // ---------------------------------------------------------------- threads come and go

  /** thread_create_etc: a thread structure not in use becomes a suspended thread. */
  function Create(s: State, t: Tid, priority: nat): (s2: State) {
    s.(threads := s.threads[t := Thread(Suspended, priority, false, -1, -1, 0, None, NoError, false, false, false)],
       waitQueues := s.waitQueues[Retcode(t) := WaitQueue(0, [])])
  }

  /** The thread is taken off the thread list and its structure freed. */
  function Remove(s: State, t: Tid): (s2: State) {
    s.(threads := s.threads - {t}, waitQueues := s.waitQueues - {Retcode(t)})
  }

  lemma CreateKeeps(s: State, t: Tid, priority: nat)
    requires Inv(s) && t !in s.threads && Retcode(t) !in s.waitQueues && priority < NUM_PRIORITIES
    ensures Inv(Create(s, t, priority))
  {
    hide RunList, RunOk, CpusOk, BitmapOk;
    var th := Thread(Suspended, priority, false, -1, -1, 0, None, NoError, false, false, false);
    RunOkSame(s.threads, s.runQueue, t, th);
    CreateWait(s, t, th);
    CreateCpus(s, t, th);
  }

  lemma CreateWait(s: State, t: Tid, th: Thread)
    requires WaitOk(s.threads, s.waitQueues) && ThreadsOk(s.threads, s.current, s.idleOf, {}, s.waitQueues.Keys)
    requires t !in s.threads && Retcode(t) !in s.waitQueues && th.state == Suspended
    ensures WaitOk(s.threads[t := th], s.waitQueues[Retcode(t) := WaitQueue(0, [])])
  {
    hide WaitList;
    WaitOkSame(s.threads, s.waitQueues, t, th);
    var ts := s.threads[t := th];
    assert WaitList(ts, WaitQueue(0, []), Retcode(t)) by {
      EmptyWait(s, t, th);
    }
  }

  lemma EmptyWait(s: State, t: Tid, th: Thread)
    requires ThreadsOk(s.threads, s.current, s.idleOf, {}, s.waitQueues.Keys)
    requires t !in s.threads && Retcode(t) !in s.waitQueues && th.state == Suspended
    ensures WaitList(s.threads[t := th], WaitQueue(0, []), Retcode(t))
  {
    var none: seq<Tid> := [];
    forall u ensures u in none <==> Waits(s.threads[t := th], Retcode(t), u) {
      if u in s.threads {
        assert ThreadOk(u, s.threads[u], s.current, s.idleOf, {}, s.waitQueues.Keys);
      }
    }
  }

  lemma CreateCpus(s: State, t: Tid, th: Thread)
    requires CpusOk(s.threads, s.current, s.idleOf, {}) && t !in s.threads
    ensures CpusOk(s.threads[t := th], s.current, s.idleOf, {})
  {
    forall c | c in s.current ensures CpuOk(c, s.threads[t := th], s.current, s.idleOf, {}) {
      assert CpuOk(c, s.threads, s.current, s.idleOf, {});
    }
  }

  lemma RemoveKeeps(s: State, out: set<Cpu>, t: Tid)
    requires InvOut(s, out) && t in s.threads && Resting(s.threads[t].state) && !s.threads[t].idle
    requires Retcode(t) in s.waitQueues && s.waitQueues[Retcode(t)].list == []
    ensures InvOut(Remove(s, t), out)
  {
    hide BitmapOk;
    RemoveRun(s.threads, s.runQueue, t);
    RemoveWaits(s.threads, s.waitQueues, t);
    RemoveThreads(s, out, t);
    RemoveCpus(s, out, t);
  }

  lemma RemoveRun(ts: Threads, rq: seq<seq<Tid>>, t: Tid)
    requires RunOk(ts, rq) && t in ts && ts[t].state != Ready
    ensures RunOk(ts - {t}, rq)
  {
    forall p | 0 <= p < |rq| ensures RunList(ts - {t}, rq[p], p) {
      assert RunList(ts, rq[p], p);
      assert forall u :: Queued(ts - {t}, p, u) <==> Queued(ts, p, u);
    }
  }

  lemma RemoveWaits(ts: Threads, wq: map<Qid, WaitQueue>, t: Tid)
    requires WaitOk(ts, wq) && t in ts && ts[t].state != Blocked
    ensures WaitOk(ts - {t}, wq - {Retcode(t)})
  {
    forall q | q in wq - {Retcode(t)} ensures WaitList(ts - {t}, wq[q], q) {
      assert WaitList(ts, wq[q], q);
      assert forall u :: Waits(ts - {t}, q, u) <==> Waits(ts, q, u);
    }
  }

  lemma RemoveThreads(s: State, out: set<Cpu>, t: Tid)
    requires ThreadsOk(s.threads, s.current, s.idleOf, out, s.waitQueues.Keys) && WaitOk(s.threads, s.waitQueues)
    requires Retcode(t) in s.waitQueues && s.waitQueues[Retcode(t)].list == []
    ensures ThreadsOk(s.threads - {t}, s.current, s.idleOf, out, (s.waitQueues - {Retcode(t)}).Keys)
  {
    var ts := s.threads - {t};
    assert WaitList(s.threads, s.waitQueues[Retcode(t)], Retcode(t));
    forall u | u in ts ensures ThreadOk(u, ts[u], s.current, s.idleOf, out, (s.waitQueues - {Retcode(t)}).Keys) {
      assert ThreadOk(u, s.threads[u], s.current, s.idleOf, out, s.waitQueues.Keys);
      assert !Waits(s.threads, Retcode(t), u);
    }
  }

  lemma RemoveCpus(s: State, out: set<Cpu>, t: Tid)
    requires CpusOk(s.threads, s.current, s.idleOf, out) && t in s.threads
    requires s.threads[t].state != Running && !s.threads[t].idle
    ensures CpusOk(s.threads - {t}, s.current, s.idleOf, out)
  {
    forall c | c in s.current ensures CpuOk(c, s.threads - {t}, s.current, s.idleOf, out) {
      assert CpuOk(c, s.threads, s.current, s.idleOf, out);
    }
  }
}
