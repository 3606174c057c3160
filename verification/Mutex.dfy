/** Mutexes and condition variables: every thread's place in the code, the mutex fields and the two
    wait queues, and the atomic steps between two switches. */
module Mutex {

  import opened Waiters

  /** Zero returns at once, Finite arms a timer, Infinite waits for a wake-up. */
  datatype Timeout = Zero | Finite | Infinite

  datatype Place =
    | Out
    | Holding                       // past mutex_acquire
    | Granted                       // woken by a release, not yet running again
    | Late                          // taken out of the queue by the timer, not yet running again
    | QueuedForever | QueuedTimed   // in the queue of the mutex
    | CondForever | CondTimed       // in the queue of the condition variable
    | CondWoken | CondLate          // out of that queue, not yet running again

  datatype State = State(count: int, holder: Option<Tid>, queue: seq<Tid>, cond: seq<Tid>, pc: map<Tid, Place>)

  datatype Act =
    | Acquire(t: Tid, timeout: Timeout)
    | Release(t: Tid)
    | TimerFires(t: Tid)
    | Resume(t: Tid)
    | CondWait(t: Tid, timeout: Timeout)
    | CondSignal
    | CondBroadcast

  // ---------------------------------------------------------------- steps

  /** mutex_acquire_timeout_internal up to the switch. */
  function Acquired(s: State, t: Tid, timeout: Timeout): (s2: State) {
    if s.count + 1 > 1 then
      if timeout == Zero then s.(pc := s.pc[t := Out])
      else s.(count := s.count + 1, queue := s.queue + [t],
              pc := s.pc[t := if timeout == Infinite then QueuedForever else QueuedTimed])
    else s.(count := s.count + 1, holder := Some(t), pc := s.pc[t := Holding])
  }

  /** mutex_release_internal; the caller goes on to place k. */
  function Released(s: State, t: Tid, k: Place): (s2: State) {
    var s1 := s.(holder := None, count := s.count - 1, pc := s.pc[t := k]);
    if s1.count >= 1 && s1.queue != [] then
      s1.(queue := s1.queue[1..], pc := s1.pc[s1.queue[0] := Granted])
    else s1
  }

  /** What a thread does when it runs again after a wait. */
  function Resumed(s: State, t: Tid): (s2: State)
    requires t in s.pc
  {
    match s.pc[t]
    case Granted => s.(holder := Some(t), pc := s.pc[t := Holding])
    case Late => s.(count := s.count - 1, pc := s.pc[t := Out])
    case CondWoken => Acquired(s, t, Infinite)
    case CondLate => Acquired(s, t, Infinite)
    case _ => s
  }

  function TimedOut(s: State, t: Tid): (s2: State)
    requires t in s.pc && (s.pc[t] == QueuedTimed ==> t in s.queue) && (s.pc[t] == CondTimed ==> t in s.cond)
  {
    match s.pc[t]
    case QueuedTimed => s.(queue := Without(s.queue, t), pc := s.pc[t := Late])
    case CondTimed => s.(cond := Without(s.cond, t), pc := s.pc[t := CondLate])
    case _ => s
  }

  /** cond_wait_timeout up to the switch. */
  function CondWaits(s: State, t: Tid, timeout: Timeout): (s2: State) {
    var s1 := Released(s, t, Out);
    if timeout == Zero then Acquired(s1, t, Infinite)
    else s1.(cond := s1.cond + [t], pc := s1.pc[t := if timeout == Infinite then CondForever else CondTimed])
  }

  function Signalled(s: State): (s2: State) {
    if s.cond == [] then s else s.(cond := s.cond[1..], pc := s.pc[s.cond[0] := CondWoken])
  }

  function Broadcast(s: State): (s2: State) {
    s.(cond := [], pc := map u | u in s.pc :: if u in s.cond then CondWoken else s.pc[u])
  }

  ghost predicate Next(s: State, a: Act, s2: State) {
    match a
    case Acquire(t, timeout) => t in s.pc && s.pc[t] == Out && s2 == Acquired(s, t, timeout)
    case Release(t) => t in s.pc && s.holder == Some(t) && s2 == Released(s, t, Out)
    case TimerFires(t) =>
      && t in s.pc && s.pc[t] in {QueuedTimed, CondTimed}
      && (s.pc[t] == QueuedTimed ==> t in s.queue) && (s.pc[t] == CondTimed ==> t in s.cond)
      && s2 == TimedOut(s, t)
    case Resume(t) => t in s.pc && s.pc[t] in {Granted, Late, CondWoken, CondLate} && s2 == Resumed(s, t)
    case CondWait(t, timeout) => t in s.pc && s.holder == Some(t) && s2 == CondWaits(s, t, timeout)
    case CondSignal => s2 == Signalled(s)
    case CondBroadcast => s2 == Broadcast(s)
  }

  // ---------------------------------------------------------------- invariant

  predicate IsQueued(k: Place) { k in {QueuedForever, QueuedTimed} }

  predicate InCond(k: Place) { k in {CondForever, CondTimed} }

  ghost function Owners(s: State): (n: nat) {
    |At(s.pc, Granted)| + |At(s.pc, Holding)|
  }

  ghost predicate QueuesOk(s: State) {
    && NoDup(s.queue) && (forall t :: t in s.queue <==> t in s.pc && IsQueued(s.pc[t]))
    && NoDup(s.cond) && (forall t :: t in s.cond <==> t in s.pc && InCond(s.pc[t]))
  }

  ghost predicate CountOk(s: State) {
    s.count == Owners(s) + |s.queue| + |At(s.pc, Late)| && Owners(s) <= 1
  }

  ghost predicate HolderOk(s: State) {
    && (s.holder.Some? ==> s.holder.value in s.pc && s.pc[s.holder.value] == Holding)
    && (forall t | t in s.pc && s.pc[t] == Holding :: s.holder == Some(t))
  }

  ghost predicate Inv(s: State) {
    QueuesOk(s) && CountOk(s) && HolderOk(s)
  }

  ghost predicate Init(s: State) {
    s.count == 0 && s.holder == None && s.queue == [] && s.cond == [] && forall t | t in s.pc :: s.pc[t] == Out
  }

  lemma InitInv(s: State)
    requires Init(s)
    ensures Inv(s)
  {
    assert At(s.pc, Granted) == {} && At(s.pc, Holding) == {} && At(s.pc, Late) == {};
  }

  /** The head counts after one thread has moved. */
  lemma Counts(s: State, t: Tid, k: Place)
    requires t in s.pc
    ensures
      var pc2 := s.pc[t := k];
      && |At(pc2, Granted)| ==
           |At(s.pc, Granted)| - (if s.pc[t] == Granted then 1 else 0) + (if k == Granted then 1 else 0)
      && |At(pc2, Holding)| ==
           |At(s.pc, Holding)| - (if s.pc[t] == Holding then 1 else 0) + (if k == Holding then 1 else 0)
      && |At(pc2, Late)| == |At(s.pc, Late)| - (if s.pc[t] == Late then 1 else 0) + (if k == Late then 1 else 0)
  {
    AtMove(s.pc, t, k, Granted);
    AtMove(s.pc, t, k, Holding);
    AtMove(s.pc, t, k, Late);
  }

  /** An acquire by a thread that is in no queue and no owner. */
  lemma AcquiredKeeps(s: State, t: Tid, timeout: Timeout)
    requires Inv(s) && t in s.pc && s.pc[t] in {Out, CondWoken, CondLate}
    ensures Inv(Acquired(s, t, timeout))
  {
    hide At;
    var s2 := Acquired(s, t, timeout);
    Counts(s, t, s2.pc[t]);
    QueuedElsewhere(s, t);
    AppendOne(s.queue, t);
    if s2.pc[t] == Holding {
      NoOwner(s);
    }
  }

  lemma NoOwner(s: State)
    requires Owners(s) == 0
    ensures forall t | t in s.pc :: s.pc[t] != Holding && s.pc[t] != Granted
  {
    forall t | t in s.pc ensures s.pc[t] != Holding && s.pc[t] != Granted {
      AtNone(s.pc, Holding, t);
      AtNone(s.pc, Granted, t);
    }
  }

  /** mutex_release_internal before it looks for a waiter. */
  lemma LetGoKeeps(s: State, t: Tid)
    requires Inv(s) && t in s.pc && s.holder == Some(t)
    ensures
      var s1 := s.(holder := None, count := s.count - 1, pc := s.pc[t := Out]);
      Inv(s1) && Owners(s1) == 0
  {
    hide At;
    Counts(s, t, Out);
    AtSomeHolding(s, t);
  }

  lemma AtSomeHolding(s: State, t: Tid)
    requires t in s.pc && s.pc[t] == Holding
    ensures |At(s.pc, Holding)| >= 1
  {
    AtSome(s.pc, Holding, t);
  }

  lemma HandOverKeeps(s: State)
    requires Inv(s) && Owners(s) == 0 && s.queue != [] && s.holder == None
    ensures Inv(s.(queue := s.queue[1..], pc := s.pc[s.queue[0] := Granted]))
  {
    hide At;
    Counts(s, s.queue[0], Granted);
    TailOne(s.queue);
  }

  lemma ReleasedKeeps(s: State, t: Tid)
    requires Inv(s) && t in s.pc && s.holder == Some(t)
    ensures
      var s2 := Released(s, t, Out);
      Inv(s2) && t in s2.pc && s2.pc[t] == Out
  {
    hide QueuesOk, CountOk;
    LetGoKeeps(s, t);
    var s1 := s.(holder := None, count := s.count - 1, pc := s.pc[t := Out]);
    if s1.count >= 1 && s1.queue != [] {
      HandOverKeeps(s1);
      QueuedElsewhere(s1, t);
    }
  }

  lemma QueuedElsewhere(s: State, t: Tid)
    requires QueuesOk(s) && t in s.pc && !IsQueued(s.pc[t])
    ensures t !in s.queue
  {
  }

  lemma TimedOutKeeps(s: State, t: Tid)
    requires Inv(s) && t in s.pc && s.pc[t] in {QueuedTimed, CondTimed}
    requires (s.pc[t] == QueuedTimed ==> t in s.queue) && (s.pc[t] == CondTimed ==> t in s.cond)
    ensures Inv(TimedOut(s, t))
  {
    hide At, Without;
    if s.pc[t] == QueuedTimed {
      Counts(s, t, Late);
      WithoutOne(s.queue, t);
    } else {
      Counts(s, t, CondLate);
      WithoutOne(s.cond, t);
    }
  }

  lemma CondWaitsKeeps(s: State, t: Tid, timeout: Timeout)
    requires Inv(s) && t in s.pc && s.holder == Some(t)
    ensures Inv(CondWaits(s, t, timeout))
  {
    hide At, Released, Acquired;
    ReleasedKeeps(s, t);
    var s1 := Released(s, t, Out);
    if timeout == Zero {
      AcquiredKeeps(s1, t, Infinite);
    } else {
      Counts(s1, t, if timeout == Infinite then CondForever else CondTimed);
      AppendOne(s1.cond, t);
    }
  }

  lemma BroadcastKeeps(s: State)
    requires Inv(s)
    ensures Inv(Broadcast(s))
  {
    var s2 := Broadcast(s);
    assert At(s2.pc, Granted) == At(s.pc, Granted);
    assert At(s2.pc, Holding) == At(s.pc, Holding);
    assert At(s2.pc, Late) == At(s.pc, Late);
  }

  lemma SignalledKeeps(s: State)
    requires Inv(s)
    ensures Inv(Signalled(s))
  {
    hide At;
    if s.cond != [] {
      Counts(s, s.cond[0], CondWoken);
      TailOne(s.cond);
    }
  }

  lemma ResumedKeeps(s: State, t: Tid)
    requires Inv(s) && t in s.pc && s.pc[t] in {Granted, Late, CondWoken, CondLate}
    ensures Inv(Resumed(s, t))
  {
    hide At, Acquired;
    match s.pc[t]
    case Granted =>
      Counts(s, t, Holding);
      OnlyOwner(s, t);
    case Late => Counts(s, t, Out);
    case CondWoken => AcquiredKeeps(s, t, Infinite);
    case CondLate => AcquiredKeeps(s, t, Infinite);
  }

  /** While one thread has been handed the mutex nobody holds it. */
  lemma OnlyOwner(s: State, t: Tid)
    requires CountOk(s) && t in s.pc && s.pc[t] == Granted
    ensures forall u | u in s.pc :: s.pc[u] != Holding
    ensures forall u | u in s.pc && s.pc[u] == Granted :: u == t
  {
    AtSome(s.pc, Granted, t);
    forall u | u in s.pc ensures s.pc[u] != Holding {
      AtNone(s.pc, Holding, u);
    }
    forall u | u in s.pc && s.pc[u] == Granted ensures u == t {
      AtOne(s.pc, Granted, t, u);
    }
  }

  /** A thread made later enters outside. */
  lemma EnterKeeps(s: State, t: Tid)
    requires Inv(s) && t !in s.pc
    ensures Inv(s.(pc := s.pc[t := Out]))
  {
    var s2 := s.(pc := s.pc[t := Out]);
    assert At(s2.pc, Granted) == At(s.pc, Granted);
    assert At(s2.pc, Holding) == At(s.pc, Holding);
    assert At(s2.pc, Late) == At(s.pc, Late);
  }

  lemma StepKeeps(s: State, a: Act, s2: State)
    requires Inv(s) && Next(s, a, s2)
    ensures Inv(s2)
  {
    hide Inv, Acquired, Released, TimedOut, Resumed, CondWaits, Signalled, Broadcast;
    match a
    case Acquire(t, timeout) => AcquiredKeeps(s, t, timeout);
    case Release(t) => ReleasedKeeps(s, t);
    case TimerFires(t) => TimedOutKeeps(s, t);
    case Resume(t) => ResumedKeeps(s, t);
    case CondWait(t, timeout) => CondWaitsKeeps(s, t, timeout);
    case CondSignal => SignalledKeeps(s);
    case CondBroadcast => BroadcastKeeps(s);
  }

  ghost predicate IsRun(acts: seq<Act>, states: seq<State>) {
    |states| == |acts| + 1 && Init(states[0]) && forall i | 0 <= i < |acts| :: Next(states[i], acts[i], states[i + 1])
  }

  lemma {:induction false} RunKeeps(acts: seq<Act>, states: seq<State>, i: nat)
    requires IsRun(acts, states) && i < |states|
    ensures Inv(states[i])
  {
    hide Inv, Next, Init;
    if i == 0 {
      InitInv(states[0]);
    } else {
      RunKeeps(acts, states, i - 1);
      StepKeeps(states[i - 1], acts[i - 1], states[i]);
    }
  }

  // ---------------------------------------------------------------- mutual exclusion

  predicate Owns(k: Place) { k in {Granted, Holding} }

  /** In no state of any run do two threads own the mutex, and holder names nobody but the owner. */
  lemma MutualExclusion(acts: seq<Act>, states: seq<State>, i: nat, t: Tid, u: Tid)
    requires IsRun(acts, states) && i < |states|
    requires t in states[i].pc && Owns(states[i].pc[t]) && u in states[i].pc && Owns(states[i].pc[u])
    ensures t == u && (states[i].holder == None || states[i].holder == Some(t))
    ensures states[i].count == 1 + |states[i].queue| + |At(states[i].pc, Late)|
  {
    hide IsRun;
    RunKeeps(acts, states, i);
    var s := states[i];
    if s.pc[t] == Granted {
      OnlyOwner(s, t);
    } else if s.pc[u] == Granted {
      OnlyOwner(s, u);
    }
    OwnerCounts(s, t);
  }

  lemma OwnerCounts(s: State, t: Tid)
    requires CountOk(s) && t in s.pc && Owns(s.pc[t])
    ensures Owners(s) == 1
  {
    AtSome(s.pc, s.pc[t], t);
  }

  // ---------------------------------------------------------------- stranded waiters

  /** Threads stand in the queue of a mutex that nobody owns. */
  ghost predicate Stranded(s: State) {
    Owners(s) == 0 && s.queue != []
  }

  /** The step takes the waiting branch of an acquire while nobody owns the mutex: its count is still
      raised by a waiter that has timed out and not yet run again. */
  ghost predicate StrandingStep(s: State, a: Act) {
    match a
    case Acquire(_, timeout) => Owners(s) == 0 && s.count >= 1 && timeout != Zero
    case Resume(t) => Owners(s) == 0 && s.count >= 1 && t in s.pc && s.pc[t] in {CondWoken, CondLate}
    case CondWait(_, timeout) => timeout == Zero && s.queue == [] && s.count >= 2
    case _ => false
  }

  lemma AcquireStrands(s: State, t: Tid, timeout: Timeout)
    requires Inv(s) && !Stranded(s) && t in s.pc && s.pc[t] in {Out, CondWoken, CondLate}
    ensures Stranded(Acquired(s, t, timeout)) <==> Owners(s) == 0 && s.count >= 1 && timeout != Zero
  {
    hide At, QueuesOk, HolderOk;
    Counts(s, t, Acquired(s, t, timeout).pc[t]);
  }

  lemma ReleaseOwners(s: State, t: Tid)
    requires Inv(s) && t in s.pc && s.holder == Some(t)
    ensures
      var s2 := Released(s, t, Out);
      && Owners(s2) == (if s.queue == [] then 0 else 1) && s2.count == s.count - 1
      && (s.queue == [] ==> s2.queue == [])
  {
    hide At;
    var s1 := s.(holder := None, count := s.count - 1, pc := s.pc[t := Out]);
    LetGoKeeps(s, t);
    if s1.queue != [] {
      Counts(s1, s1.queue[0], Granted);
    }
  }

  /** Exactly those steps strand a thread. */
  lemma StrandsIff(s: State, a: Act, s2: State)
    requires Inv(s) && !Stranded(s) && Next(s, a, s2)
    ensures Stranded(s2) <==> StrandingStep(s, a)
  {
    hide At, QueuesOk, Acquired, Released, Without, CountOk, HolderOk;
    match a
    case Acquire(t, timeout) => AcquireStrands(s, t, timeout);
    case Release(t) => ReleaseOwners(s, t);
    case TimerFires(t) => TimerStrands(s, t);
    case Resume(t) => ResumeStrands(s, t);
    case CondWait(t, timeout) => CondWaitStrands(s, t, timeout);
    case CondSignal => SignalOwners(s);
    case CondBroadcast => BroadcastOwners(s);
  }

  lemma TimerStrands(s: State, t: Tid)
    requires Inv(s) && !Stranded(s) && t in s.pc && s.pc[t] in {QueuedTimed, CondTimed}
    requires (s.pc[t] == QueuedTimed ==> t in s.queue) && (s.pc[t] == CondTimed ==> t in s.cond)
    ensures !Stranded(TimedOut(s, t))
  {
    hide At, Without, HolderOk;
    Counts(s, t, TimedOut(s, t).pc[t]);
  }

  lemma ResumeStrands(s: State, t: Tid)
    requires Inv(s) && !Stranded(s) && t in s.pc && s.pc[t] in {Granted, Late, CondWoken, CondLate}
    ensures Stranded(Resumed(s, t)) <==> Owners(s) == 0 && s.count >= 1 && s.pc[t] in {CondWoken, CondLate}
  {
    hide At, Acquired, QueuesOk, HolderOk;
    if s.pc[t] in {CondWoken, CondLate} {
      AcquireStrands(s, t, Infinite);
    } else {
      Counts(s, t, if s.pc[t] == Granted then Holding else Out);
    }
  }

  lemma CondWaitStrands(s: State, t: Tid, timeout: Timeout)
    requires Inv(s) && !Stranded(s) && t in s.pc && s.holder == Some(t)
    ensures Stranded(CondWaits(s, t, timeout)) <==> timeout == Zero && s.queue == [] && s.count >= 2
  {
    hide At, Released, Acquired, QueuesOk, HolderOk;
    ReleasedKeeps(s, t);
    ReleaseOwners(s, t);
    var s1 := Released(s, t, Out);
    if timeout == Zero {
      AcquireStrands(s1, t, Infinite);
    } else {
      Counts(s1, t, if timeout == Infinite then CondForever else CondTimed);
    }
  }

  lemma SignalOwners(s: State)
    requires Inv(s)
    ensures Owners(Signalled(s)) == Owners(s)
  {
    hide At;
    if s.cond != [] {
      Counts(s, s.cond[0], CondWoken);
    }
  }

  lemma BroadcastOwners(s: State)
    requires Inv(s)
    ensures Owners(Broadcast(s)) == Owners(s)
  {
    var s2 := Broadcast(s);
    assert At(s2.pc, Granted) == At(s.pc, Granted);
    assert At(s2.pc, Holding) == At(s.pc, Holding);
  }

  ghost predicate Untimed(a: Act) {
    match a
    case Acquire(_, timeout) => timeout != Finite
    case _ => true
  }

  ghost predicate NoneLate(s: State) {
    forall t | t in s.pc :: s.pc[t] != QueuedTimed && s.pc[t] != Late
  }

  lemma NoneLateKeeps(s: State, a: Act, s2: State)
    requires Next(s, a, s2) && Untimed(a) && NoneLate(s)
    ensures NoneLate(s2)
  {
    hide Without;
  }

  lemma NoneLateCount(s: State)
    requires NoneLate(s)
    ensures |At(s.pc, Late)| == 0
  {
    assert At(s.pc, Late) == {};
  }

  /** In a run without finite timeouts on the mutex no thread is ever queued on an unowned mutex. */
  lemma {:induction false} NeverStranded(acts: seq<Act>, states: seq<State>, i: nat)
    requires IsRun(acts, states) && i < |states|
    requires forall j | 0 <= j < |acts| :: Untimed(acts[j])
    ensures NoneLate(states[i]) && !Stranded(states[i])
  {
    hide Inv, Next, Stranded, Owners, NoneLate, StrandingStep;
    if i == 0 {
      InitFree(states[0]);
    } else {
      NeverStranded(acts, states, i - 1);
      RunKeeps(acts, states, i - 1);
      NoneLateKeeps(states[i - 1], acts[i - 1], states[i]);
      StrandsIff(states[i - 1], acts[i - 1], states[i]);
      UntimedNoStranding(states[i - 1], acts[i - 1], states[i]);
    }
  }

  lemma InitFree(s: State)
    requires Init(s)
    ensures NoneLate(s) && !Stranded(s)
  {
  }

  lemma UntimedNoStranding(s: State, a: Act, s2: State)
    requires Inv(s) && !Stranded(s) && NoneLate(s) && Next(s, a, s2)
    ensures !StrandingStep(s, a)
  {
    hide At, QueuesOk;
    NoneLateCount(s);
    if a.CondWait? {
      OwnerCounts(s, a.t);
    }
  }

  /** A thread that waits without a timeout on an unowned mutex waits for ever: whatever the others do,
      nobody owns the mutex again and the thread stays queued. */
  ghost predicate StuckOn(s: State, t: Tid) {
    Inv(s) && Owners(s) == 0 && t in s.pc && s.pc[t] == QueuedForever
  }

  lemma StuckStep(s: State, t: Tid, a: Act, s2: State)
    requires StuckOn(s, t) && Next(s, a, s2)
    ensures StuckOn(s2, t)
  {
    hide At, Without, QueuesOk, HolderOk, Acquired;
    StepKeeps(s, a, s2);
    StuckFacts(s, t);
    match a
    case Acquire(u, timeout) => StuckAcquire(s, t, u, timeout);
    case Release(u) => assert false;
    case TimerFires(u) => Counts(s, u, s2.pc[u]);
    case Resume(u) =>
      if s.pc[u] in {CondWoken, CondLate} {
        StuckAcquire(s, t, u, Infinite);
      } else {
        Counts(s, u, Out);
      }
    case CondWait(u, timeout) => assert false;
    case CondSignal => SignalOwners(s); CondOther(s, t);
    case CondBroadcast => BroadcastOwners(s); CondOther(s, t);
  }

  lemma StuckFacts(s: State, t: Tid)
    requires StuckOn(s, t)
    ensures t in s.queue && s.count >= 1 && s.holder == None
    ensures forall u | u in s.pc :: s.pc[u] != Holding && s.pc[u] != Granted
  {
    NoOwner(s);
  }

  lemma StuckAcquire(s: State, t: Tid, u: Tid, timeout: Timeout)
    requires StuckOn(s, t) && s.count >= 1 && u in s.pc && s.pc[u] in {Out, CondWoken, CondLate}
    ensures
      var s2 := Acquired(s, u, timeout);
      Owners(s2) == 0 && t in s2.pc && s2.pc[t] == QueuedForever
  {
    hide At, QueuesOk, HolderOk, CountOk;
    Counts(s, u, Acquired(s, u, timeout).pc[u]);
  }

  lemma CondOther(s: State, t: Tid)
    requires QueuesOk(s) && t in s.pc && s.pc[t] == QueuedForever
    ensures t !in s.cond
  {
  }

  lemma {:induction false} StuckForever(t: Tid, acts: seq<Act>, states: seq<State>, i: nat)
    requires |states| == |acts| + 1 && forall j | 0 <= j < |acts| :: Next(states[j], acts[j], states[j + 1])
    requires StuckOn(states[0], t) && i < |states|
    ensures t in states[i].queue && forall u | u in states[i].pc :: !Owns(states[i].pc[u])
    ensures StuckOn(states[i], t)
  {
    hide Next, StuckOn;
    if i == 0 {
      StuckFacts(states[0], t);
    } else {
      StuckForever(t, acts, states, i - 1);
      StuckStep(states[i - 1], t, acts[i - 1], states[i]);
      StuckFacts(states[i], t);
    }
  }

  function Three(a: Place, b: Place, c: Place): (pc: map<Tid, Place>) {
    map[1 := a, 2 := b, 3 := c]
  }

  lemma StrandingStart()
    ensures Next(State(0, None, [], [], Three(Out, Out, Out)), Acquire(1, Infinite),
                 State(1, Some(1), [], [], Three(Holding, Out, Out)))
    ensures Next(State(1, Some(1), [], [], Three(Holding, Out, Out)), Acquire(2, Finite),
                 State(2, Some(1), [2], [], Three(Holding, QueuedTimed, Out)))
  {
  }

  lemma StrandingTimeout()
    ensures Next(State(2, Some(1), [2], [], Three(Holding, QueuedTimed, Out)), TimerFires(2),
                 State(2, Some(1), [], [], Three(Holding, Late, Out)))
  {
    assert Without([2], 2) == [];
  }

  lemma StrandingEnd()
    ensures Next(State(2, Some(1), [], [], Three(Holding, Late, Out)), Release(1),
                 State(1, None, [], [], Three(Out, Late, Out)))
    ensures Next(State(1, None, [], [], Three(Out, Late, Out)), Acquire(3, Infinite),
                 State(2, None, [3], [], Three(Out, Late, QueuedForever)))
    ensures Owners(State(2, None, [3], [], Three(Out, Late, QueuedForever))) == 0
  {
    var pc := Three(Out, Late, QueuedForever);
    assert At(pc, Granted) == {} && At(pc, Holding) == {};
  }

  /** Such a state is reached: thread 1 holds the mutex, thread 2 times out, thread 1 releases before
      thread 2 has run again, and thread 3 then waits on a free mutex. */
  lemma StrandingRun() returns (acts: seq<Act>, states: seq<State>)
    ensures IsRun(acts, states) && |states| == 6
    ensures StuckOn(states[5], 3)
  {
    hide Next, Owners, Inv;
    acts := [Acquire(1, Infinite), Acquire(2, Finite), TimerFires(2), Release(1), Acquire(3, Infinite)];
    states := [
      State(0, None, [], [], Three(Out, Out, Out)),
      State(1, Some(1), [], [], Three(Holding, Out, Out)),
      State(2, Some(1), [2], [], Three(Holding, QueuedTimed, Out)),
      State(2, Some(1), [], [], Three(Holding, Late, Out)),
      State(1, None, [], [], Three(Out, Late, Out)),
      State(2, None, [3], [], Three(Out, Late, QueuedForever))];
    StrandingStart();
    StrandingTimeout();
    StrandingEnd();
    RunKeeps(acts, states, 5);
  }

  // ---------------------------------------------------------------- condition variables

  /** Places inside cond_wait between the release and the return. */
  predicate InCondWait(k: Place) {
    k in {CondForever, CondTimed, CondWoken, CondLate}
  }

  /** A thread leaves cond_wait only for the mutex: it becomes the holder at once, or it queues for it
      without a timeout, and from there it can only be handed the mutex. */
  lemma CondWaitReturnsOwning(s: State, a: Act, s2: State, t: Tid)
    requires Inv(s) && Next(s, a, s2) && t in s.pc
    ensures t in s2.pc
    ensures InCondWait(s.pc[t]) ==> InCondWait(s2.pc[t]) || s2.pc[t] == QueuedForever || s2.pc[t] == Holding
    ensures s.pc[t] == QueuedForever ==> s2.pc[t] == QueuedForever || s2.pc[t] == Granted
    ensures s.pc[t] == Granted ==> s2.pc[t] == Granted || s2.pc[t] == Holding
    ensures a == CondWait(t, Finite) || a == CondWait(t, Infinite) ==> InCondWait(s2.pc[t]) && t in s2.cond
    ensures a == CondWait(t, Zero) ==> s2.pc[t] == QueuedForever || s2.pc[t] == Holding
  {
    hide At, Without, CountOk;
  }

  /** In every run: from a cond_wait on, a thread is inside it or has come back through owning the mutex. */
  lemma {:induction false} CondWaitRun(acts: seq<Act>, states: seq<State>, i: nat, k: nat, t: Tid, timeout: Timeout)
    requires IsRun(acts, states) && i < k < |states| && acts[i] == CondWait(t, timeout)
    requires forall j | i < j < k :: t in states[j].pc ==> states[j].pc[t] != Holding
    ensures t in states[k].pc
    ensures
      var p := states[k].pc[t];
      InCondWait(p) || p in {QueuedForever, Granted} || (p == Holding && states[k].holder == Some(t))
    decreases k
  {
    hide Next, Inv, InCondWait;
    RunKeeps(acts, states, k);
    RunKeeps(acts, states, k - 1);
    HolderIs(states[k], t);
    if k == i + 1 {
      StartsHolding(states[i], t, timeout, states[k]);
    } else {
      CondWaitRun(acts, states, i, k - 1, t, timeout);
    }
    CondWaitReturnsOwning(states[k - 1], acts[k - 1], states[k], t);
  }

  lemma StartsHolding(s: State, t: Tid, timeout: Timeout, s2: State)
    requires Next(s, CondWait(t, timeout), s2)
    ensures t in s.pc
  {
  }

  lemma HolderIs(s: State, t: Tid)
    requires Inv(s)
    ensures t in s.pc && s.pc[t] == Holding ==> s.holder == Some(t)
  {
  }

  /** Releasing the mutex and entering the queue are one step: whenever a thread holds the mutex, every thread
      still waiting for a signal is in the queue, and a signal wakes the one that has waited longest. */
  lemma SignalWakes(acts: seq<Act>, states: seq<State>, i: nat, u: Tid)
    requires IsRun(acts, states) && i < |acts| && acts[i].CondSignal?
    requires u in states[i].pc && InCond(states[i].pc[u])
    ensures u in states[i].cond && states[i].cond != []
    ensures
      var w := states[i].cond[0];
      && w in states[i + 1].pc && states[i + 1].pc[w] == CondWoken && states[i + 1].cond == states[i].cond[1..]
      && forall v | v in states[i].pc && v != w :: v in states[i + 1].pc && states[i + 1].pc[v] == states[i].pc[v]
  {
    RunKeeps(acts, states, i);
    assert Next(states[i], acts[i], states[i + 1]);
  }

  lemma BroadcastWakes(acts: seq<Act>, states: seq<State>, i: nat, u: Tid)
    requires IsRun(acts, states) && i < |acts| && acts[i].CondBroadcast? && u in states[i].pc
    ensures u in states[i + 1].pc && states[i + 1].cond == []
    ensures states[i + 1].pc[u] == if InCond(states[i].pc[u]) then CondWoken else states[i].pc[u]
  {
    RunKeeps(acts, states, i);
    assert Next(states[i], acts[i], states[i + 1]);
  }

  // ---------------------------------------------------------------- first come, first served

  lemma ReleaseInTurn(s: State, t: Tid, k: Place)
    ensures InTurn(s.queue, Released(s, t, k).queue) && Released(s, t, k).cond == s.cond
    ensures NoDup(s.queue) ==> NoDup(Released(s, t, k).queue)
    ensures forall u | u in Released(s, t, k).queue :: u in s.queue
  {
    hide InTurn, NoDup;
    TurnSame(s.queue);
    if s.queue != [] {
      TurnTail(s.queue);
      if NoDup(s.queue) {
        TailOne(s.queue);
      }
    }
  }

  lemma AcquireInTurn(s: State, t: Tid, timeout: Timeout)
    requires t !in s.queue
    ensures InTurn(s.queue, Acquired(s, t, timeout).queue) && Acquired(s, t, timeout).cond == s.cond
    ensures forall u | u in Acquired(s, t, timeout).queue :: u in s.queue || u == t
  {
    hide InTurn;
    TurnSame(s.queue);
    TurnAppended(s.queue, t);
  }

  lemma CondWaitInTurn(s: State, t: Tid, timeout: Timeout)
    requires QueuesOk(s) && t in s.pc && s.pc[t] == Holding
    ensures InTurn(s.queue, CondWaits(s, t, timeout).queue) && InTurn(s.cond, CondWaits(s, t, timeout).cond)
  {
    hide InTurn, NoDup, Released, Acquired;
    var s1 := Released(s, t, Out);
    ReleaseInTurn(s, t, Out);
    assert t !in s.queue && t !in s.cond;
    if timeout == Zero {
      AcquireInTurn(s1, t, Infinite);
      TurnNext(s.queue, s1.queue, Acquired(s1, t, Infinite).queue);
      TurnSame(s.cond);
    } else {
      TurnAppended(s.cond, t);
    }
  }

  /** No step lets a thread overtake another in either queue. */
  lemma MovesInTurn(s: State, a: Act, s2: State)
    requires Inv(s) && Next(s, a, s2)
    ensures InTurn(s.queue, s2.queue) && InTurn(s.cond, s2.cond)
  {
    hide InTurn, NoDup, Released, Acquired, CondWaits, At, Without;
    TurnSame(s.queue);
    TurnSame(s.cond);
    match a
    case Acquire(t, timeout) => AcquireInTurn(s, t, timeout);
    case Release(t) => ReleaseInTurn(s, t, Out);
    case TimerFires(t) => TimedOutInTurn(s, t);
    case Resume(t) => if s.pc[t] in {CondWoken, CondLate} { AcquireInTurn(s, t, Infinite); }
    case CondWait(t, timeout) => CondWaitInTurn(s, t, timeout);
    case CondSignal => if s.cond != [] { TurnTail(s.cond); }
    case CondBroadcast => TurnNobody(s.cond);
  }

  lemma TimedOutInTurn(s: State, t: Tid)
    requires t in s.pc && (s.pc[t] == QueuedTimed ==> t in s.queue) && (s.pc[t] == CondTimed ==> t in s.cond)
    ensures InTurn(s.queue, TimedOut(s, t).queue) && InTurn(s.cond, TimedOut(s, t).cond)
  {
    hide InTurn, RemoveAt;
    TurnSame(s.queue);
    TurnSame(s.cond);
    if s.pc[t] == QueuedTimed {
      TurnRemoved(s.queue, Index(s.queue, t));
    } else if s.pc[t] == CondTimed {
      TurnRemoved(s.cond, Index(s.cond, t));
    }
  }

  /** Nobody comes to own the mutex but the first in the queue, or a caller who finds the queue empty. */
  lemma OnlyFirstServed(s: State, a: Act, s2: State, t: Tid)
    requires Inv(s) && Next(s, a, s2) && t in s.pc && !Owns(s.pc[t])
    ensures t in s2.pc && (Owns(s2.pc[t]) ==> s.queue == [] || s.queue[0] == t)
  {
    hide At, Without, NoDup;
  }

  /** No overtaking, over every run: while thread a waits in the queue of the mutex, nobody who is not in front of it
      comes to own the mutex, neither from the queue nor by a fresh acquire. */
  lemma {:induction false} NoOvertaking(acts: seq<Act>, states: seq<State>, i: nat, k: nat, a: Tid, b: Tid)
    requires IsRun(acts, states) && i <= k < |states| && a != b
    requires forall j | i <= j <= k :: a in states[j].queue
    requires b in states[i].pc && !Owns(states[i].pc[b]) && !InFront(states[i].queue, b, a)
    ensures b in states[k].pc && !Owns(states[k].pc[b]) && !InFront(states[k].queue, b, a)
    decreases k
  {
    hide Next, Init, InTurn, InFront, NoDup;
    if i < k {
      NoOvertaking(acts, states, i, k - 1, a, b);
      var s, s2 := states[k - 1], states[k];
      RunKeeps(acts, states, k - 1);
      RunKeeps(acts, states, k);
      assert a in s.queue;
      StillBehind(s, acts[k - 1], s2, a, b);
    }
  }

  lemma StillBehind(s: State, act: Act, s2: State, a: Tid, b: Tid)
    requires Inv(s) && Inv(s2) && Next(s, act, s2) && a != b && a in s.queue && a in s2.queue
    requires b in s.pc && !Owns(s.pc[b]) && !InFront(s.queue, b, a)
    ensures b in s2.pc && !Owns(s2.pc[b]) && !InFront(s2.queue, b, a)
  {
    hide Next, InTurn, InFront, NoDup, CountOk, HolderOk;
    MovesInTurn(s, act, s2);
    OnlyFirstServed(s, act, s2, b);
    if s.queue[0] == b {
      FirstInFront(s.queue, a);
    }
    StaysBehind(s.queue, s2.queue, a, b);
  }

  // ---------------------------------------------------------------- whom a step concerns

  /** The timer of a wait takes its thread out of the queue it stands in, and nobody else; count and holder stay until
      the thread runs again. */
  lemma TimeoutDoes(s: State, t: Tid, s2: State)
    requires Inv(s) && Next(s, TimerFires(t), s2)
    ensures s2.count == s.count && s2.holder == s.holder
    ensures s2.pc == s.pc[t := if s.pc[t] == QueuedTimed then Late else CondLate]
    ensures t !in s2.queue && t !in s2.cond
    ensures forall u | u != t :: (u in s2.queue <==> u in s.queue) && (u in s2.cond <==> u in s.cond)
  {
    hide CountOk, HolderOk, Without;
    if s.pc[t] == QueuedTimed {
      WithoutOne(s.queue, t);
    } else {
      WithoutOne(s.cond, t);
    }
  }

  /** A step moves no thread but the one it is about and those it wakes: the first in the queue of the mutex on a
      release, the first on the condition variable on a signal, all there on a broadcast. */
  lemma OthersStay(s: State, a: Act, s2: State, u: Tid)
    requires Next(s, a, s2) && u in s.pc
    requires !(a.Acquire? || a.Release? || a.TimerFires? || a.Resume? || a.CondWait?) || a.t != u
    ensures u in s2.pc
    ensures s2.pc[u] != s.pc[u] ==>
              || ((a.Release? || a.CondWait?) && s2.pc[u] == Granted && s.queue != [] && s.queue[0] == u)
              || (a.CondSignal? && s2.pc[u] == CondWoken && s.cond != [] && s.cond[0] == u)
              || (a.CondBroadcast? && s2.pc[u] == CondWoken && u in s.cond)
  {
    hide Without;
  }
}
