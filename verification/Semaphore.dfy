/** Counting semaphores: tokens, waiters and waiters that have timed out but not yet run again. */
module Semaphore {

  import opened Waiters
  import opened Mutex

  datatype Spot = Away | InForever | InTimed | Woken | Overdue

  /** `posts` and `taken` count the posts made and the waits that have returned with a token. */
  datatype Sem = Sem(count: int, queue: seq<Tid>, pc: map<Tid, Spot>, initial: nat, posts: nat, taken: nat)

  datatype SemAct =
    | Post
    | Wait(t: Tid, timeout: Timeout)
    | TryWait(t: Tid)
    | Expires(t: Tid)
    | Continue(t: Tid)

  // ---------------------------------------------------------------- steps

  function Posted(s: Sem): (s2: Sem) {
    var s1 := s.(count := s.count + 1, posts := s.posts + 1);
    if s1.count <= 0 && s1.queue != [] then s1.(queue := s1.queue[1..], pc := s1.pc[s1.queue[0] := Woken]) else s1
  }

  /** sem_wait and sem_timedwait up to the switch. */
  function Waited(s: Sem, t: Tid, timeout: Timeout): (s2: Sem) {
    if s.count - 1 < 0 then
      if timeout == Zero then s
      else s.(count := s.count - 1, queue := s.queue + [t],
              pc := s.pc[t := if timeout == Infinite then InForever else InTimed])
    else s.(count := s.count - 1, taken := s.taken + 1)
  }

  function Tried(s: Sem): (s2: Sem) {
    if s.count <= 0 then s else s.(count := s.count - 1, taken := s.taken + 1)
  }

  function Expired(s: Sem, t: Tid): (s2: Sem)
    requires t in s.queue
  {
    s.(queue := Without(s.queue, t), pc := s.pc[t := Overdue])
  }

  function Continued(s: Sem, t: Tid): (s2: Sem)
    requires t in s.pc
  {
    if s.pc[t] == Woken then s.(taken := s.taken + 1, pc := s.pc[t := Away])
    else s.(count := s.count + 1, pc := s.pc[t := Away])
  }

  ghost predicate SemNext(s: Sem, a: SemAct, s2: Sem) {
    match a
    case Post => s2 == Posted(s)
    case Wait(t, timeout) => t in s.pc && s.pc[t] == Away && s2 == Waited(s, t, timeout)
    case TryWait(t) => t in s.pc && s.pc[t] == Away && s2 == Tried(s)
    case Expires(t) => t in s.pc && s.pc[t] == InTimed && t in s.queue && s2 == Expired(s, t)
    case Continue(t) => t in s.pc && s.pc[t] in {Woken, Overdue} && s2 == Continued(s, t)
  }

  // ---------------------------------------------------------------- invariant

  /** Every post and initial token is accounted for. */
  ghost predicate Conserved(s: Sem) {
    s.count == s.initial + s.posts - s.taken - |At(s.pc, Woken)| - |s.queue| - |At(s.pc, Overdue)|
  }

  /** The tokens not yet given to anybody. */
  ghost function Tokens(s: Sem): (n: int) {
    s.initial + s.posts - s.taken - |At(s.pc, Woken)|
  }

  ghost predicate SemInv(s: Sem) {
    && Conserved(s) && Tokens(s) >= 0
    && NoDup(s.queue) && (forall t :: t in s.queue <==> t in s.pc && s.pc[t] in {InForever, InTimed})
  }

  ghost predicate SemInit(s: Sem) {
    s.count == s.initial && s.posts == 0 && s.taken == 0 && s.queue == [] && forall t | t in s.pc :: s.pc[t] == Away
  }

  lemma SemInitInv(s: Sem)
    requires SemInit(s)
    ensures SemInv(s)
  {
    assert At(s.pc, Woken) == {} && At(s.pc, Overdue) == {};
  }

  lemma SemCounts(s: Sem, t: Tid, k: Spot)
    requires t in s.pc
    ensures
      var pc2 := s.pc[t := k];
      && |At(pc2, Woken)| == |At(s.pc, Woken)| - (if s.pc[t] == Woken then 1 else 0) + (if k == Woken then 1 else 0)
      && |At(pc2, Overdue)| ==
           |At(s.pc, Overdue)| - (if s.pc[t] == Overdue then 1 else 0) + (if k == Overdue then 1 else 0)
  {
    AtMove(s.pc, t, k, Woken);
    AtMove(s.pc, t, k, Overdue);
  }

  /** A thread made later enters outside. */
  lemma SemEnterKeeps(s: Sem, t: Tid)
    requires SemInv(s) && t !in s.pc
    ensures SemInv(s.(pc := s.pc[t := Away]))
  {
    var s2 := s.(pc := s.pc[t := Away]);
    assert At(s2.pc, Woken) == At(s.pc, Woken);
    assert At(s2.pc, Overdue) == At(s.pc, Overdue);
  }

  lemma SemStepKeeps(s: Sem, a: SemAct, s2: Sem)
    requires SemInv(s) && SemNext(s, a, s2)
    ensures SemInv(s2)
  {
    hide At, Without;
    match a
    case Post =>
      if s.count + 1 <= 0 && s.queue != [] {
        SemCounts(s, s.queue[0], Woken);
        TailOne(s.queue);
      }
    case Wait(t, timeout) =>
      SemCounts(s, t, if timeout == Infinite then InForever else InTimed);
      AppendOne(s.queue, t);
    case TryWait(t) =>
    case Expires(t) =>
      SemCounts(s, t, Overdue);
      WithoutOne(s.queue, t);
    case Continue(t) => SemCounts(s, t, Away);
  }

  ghost predicate IsSemRun(acts: seq<SemAct>, states: seq<Sem>) {
    && |states| == |acts| + 1 && SemInit(states[0])
    && forall i | 0 <= i < |acts| :: SemNext(states[i], acts[i], states[i + 1])
  }

  /** In every state of every run: count is the initial value and the posts, less the waits completed or woken,
      the threads queued and the threads that have timed out and not yet run again; and no token is given twice. */
  lemma {:induction false} SemRunKeeps(acts: seq<SemAct>, states: seq<Sem>, i: nat)
    requires IsSemRun(acts, states) && i < |states|
    ensures SemInv(states[i])
  {
    hide SemInv, SemNext, SemInit;
    if i == 0 {
      SemInitInv(states[0]);
    } else {
      SemRunKeeps(acts, states, i - 1);
      SemStepKeeps(states[i - 1], acts[i - 1], states[i]);
    }
  }

  // ---------------------------------------------------------------- lost wake-ups

  /** A thread is queued although a token is available. */
  ghost predicate Starved(s: Sem) {
    Tokens(s) > 0 && s.queue != []
  }

  /** The count hides the tokens: threads that have timed out and not yet run again still draw on it. */
  ghost predicate StarvingStep(s: Sem, a: SemAct) {
    a.Wait? && a.timeout != Zero && s.count <= 0 && Tokens(s) > 0
  }

  /** Exactly one kind of step makes a thread wait for a token that is there. */
  lemma StarvesIff(s: Sem, a: SemAct, s2: Sem)
    requires SemInv(s) && !Starved(s) && SemNext(s, a, s2)
    ensures Starved(s2) <==> StarvingStep(s, a)
  {
    hide At, Without;
    match a
    case Post =>
      if s.count + 1 <= 0 && s.queue != [] {
        SemCounts(s, s.queue[0], Woken);
      }
    case Wait(t, timeout) => SemCounts(s, t, if timeout == Infinite then InForever else InTimed);
    case TryWait(t) =>
    case Expires(t) => SemCounts(s, t, Overdue);
    case Continue(t) => SemCounts(s, t, Away);
  }

  ghost predicate SemUntimed(a: SemAct) {
    a.Wait? ==> a.timeout != Finite
  }

  ghost predicate NoneOverdue(s: Sem) {
    forall t | t in s.pc :: s.pc[t] != InTimed && s.pc[t] != Overdue
  }

  lemma NoneOverdueCount(s: Sem)
    requires NoneOverdue(s)
    ensures |At(s.pc, Overdue)| == 0
  {
    assert At(s.pc, Overdue) == {};
  }

  /** Without finite timeouts no thread is queued while a token is available, and count says how many there are. */
  lemma {:induction false} NeverStarved(acts: seq<SemAct>, states: seq<Sem>, i: nat)
    requires IsSemRun(acts, states) && i < |states|
    requires forall j | 0 <= j < |acts| :: SemUntimed(acts[j])
    ensures NoneOverdue(states[i]) && !Starved(states[i])
    ensures states[i].count > 0 ==> states[i].count == Tokens(states[i])
    ensures states[i].count <= 0 ==> Tokens(states[i]) == 0 && |states[i].queue| == -states[i].count
  {
    hide SemNext, At;
    SemRunKeeps(acts, states, i);
    if i > 0 {
      NeverStarved(acts, states, i - 1);
      SemRunKeeps(acts, states, i - 1);
      NoneOverdueKeeps(states[i - 1], acts[i - 1], states[i]);
      NoneOverdueCount(states[i - 1]);
      StarvesIff(states[i - 1], acts[i - 1], states[i]);
    }
    NoneOverdueCount(states[i]);
  }

  lemma NoneOverdueKeeps(s: Sem, a: SemAct, s2: Sem)
    requires SemNext(s, a, s2) && SemUntimed(a) && NoneOverdue(s)
    ensures NoneOverdue(s2)
  {
    hide Without;
  }

  /** Neither a timeout nor a wait that has to block. */
  predicate Lets(s: Sem, a: SemAct) {
    match a
    case Post => true
    case Wait(_, timeout) => s.count > 0 || timeout == Zero
    case TryWait(_) => true
    case Expires(_) => false
    case Continue(_) => true
  }

  /** Once the count is no longer negative, posts wake nobody: the threads still queued stay queued, however many posts,
      waits that find a token, try-waits and returns follow. */
  lemma {:induction false} PassedOver(acts: seq<SemAct>, states: seq<Sem>, i: nat)
    requires |states| == |acts| + 1 && forall j | 0 <= j < |acts| :: SemNext(states[j], acts[j], states[j + 1])
    requires forall j | 0 <= j < |acts| :: Lets(states[j], acts[j])
    requires states[0].count >= 0 && i < |states|
    ensures states[i].count >= 0 && states[i].queue == states[0].queue
  {
    if i > 0 {
      PassedOver(acts, states, i - 1);
      assert SemNext(states[i - 1], acts[i - 1], states[i]) && Lets(states[i - 1], acts[i - 1]);
    }
  }

  /** The queued threads that no post is owed to. */
  function Forgotten(s: Sem): (n: int) {
    if s.count >= 0 then |s.queue| else |s.queue| + s.count
  }

  lemma ForgottenStep(s: Sem, a: SemAct, s2: Sem)
    requires SemInv(s) && SemNext(s, a, s2)
    ensures if a.Expires? then Forgotten(s2) == Forgotten(s) - 1 else Forgotten(s2) >= Forgotten(s)
  {
    hide At, Without, Conserved, Tokens;
    if a.Expires? {
      WithoutOne(s.queue, a.t);
    }
  }

  function Expiries(acts: seq<SemAct>, i: nat): (n: nat)
    requires i <= |acts|
  {
    if i == 0 then 0 else Expiries(acts, i - 1) + if acts[i - 1].Expires? then 1 else 0
  }

  /** Whatever happens later, blocking waits included, that many threads stay queued, save those that time out. */
  lemma {:induction false} ForgottenForever(acts: seq<SemAct>, states: seq<Sem>, i: nat)
    requires |states| == |acts| + 1 && forall j | 0 <= j < |acts| :: SemNext(states[j], acts[j], states[j + 1])
    requires SemInv(states[0]) && states[0].count >= 0 && i < |states|
    ensures SemInv(states[i]) && |states[i].queue| >= Forgotten(states[i]) >= |states[0].queue| - Expiries(acts, i)
  {
    hide SemInv, SemNext;
    if i > 0 {
      ForgottenForever(acts, states, i - 1);
      SemStepKeeps(states[i - 1], acts[i - 1], states[i]);
      ForgottenStep(states[i - 1], acts[i - 1], states[i]);
    }
  }

  function Pair(a: Spot, b: Spot): (pc: map<Tid, Spot>) {
    map[1 := a, 2 := b]
  }

  lemma StarvingStart()
    ensures SemNext(Sem(0, [], Pair(Away, Away), 0, 0, 0), Wait(1, Finite), Sem(-1, [1], Pair(InTimed, Away), 0, 0, 0))
    ensures SemNext(Sem(-1, [1], Pair(InTimed, Away), 0, 0, 0), Expires(1), Sem(-1, [], Pair(Overdue, Away), 0, 0, 0))
    ensures SemNext(Sem(-1, [], Pair(Overdue, Away), 0, 0, 0), Post, Sem(0, [], Pair(Overdue, Away), 0, 1, 0))
  {
    assert Without([1], 1) == [];
  }

  lemma StarvingEnd()
    ensures SemNext(Sem(0, [], Pair(Overdue, Away), 0, 1, 0), Wait(2, Infinite),
                    Sem(-1, [2], Pair(Overdue, InForever), 0, 1, 0))
    ensures SemNext(Sem(-1, [2], Pair(Overdue, InForever), 0, 1, 0), Continue(1),
                    Sem(0, [2], Pair(Away, InForever), 0, 1, 0))
  {
  }

  /** With finite timeouts it happens: thread 1 times out, the post wakes nobody, and thread 2 then queues
      beside a token. Once thread 1 has run again the count is zero and thread 2 is forgotten. */
  lemma StarvingRun() returns (acts: seq<SemAct>, states: seq<Sem>)
    ensures IsSemRun(acts, states) && |states| == 6 && Starved(states[4])
    ensures states[5].queue == [2] && states[5].count == 0 && Forgotten(states[5]) == 1
  {
    hide At, SemNext, Pair;
    acts := [Wait(1, Finite), Expires(1), Post, Wait(2, Infinite), Continue(1)];
    states := [
      Sem(0, [], Pair(Away, Away), 0, 0, 0),
      Sem(-1, [1], Pair(InTimed, Away), 0, 0, 0),
      Sem(-1, [], Pair(Overdue, Away), 0, 0, 0),
      Sem(0, [], Pair(Overdue, Away), 0, 1, 0),
      Sem(-1, [2], Pair(Overdue, InForever), 0, 1, 0),
      Sem(0, [2], Pair(Away, InForever), 0, 1, 0)];
    StarvingStart();
    StarvingEnd();
    NobodyWoken();
    AllAway();
  }

  lemma AllAway()
    ensures forall t | t in Pair(Away, Away) :: Pair(Away, Away)[t] == Away
  {
  }

  lemma NobodyWoken()
    ensures |At(Pair(Overdue, InForever), Woken)| == 0
  {
    assert At(Pair(Overdue, InForever), Woken) == {};
  }

  // ---------------------------------------------------------------- what a wait does

  /** A wait takes a token exactly when the count shows one; otherwise it queues last, or gives up at once. */
  lemma WaitDoes(s: Sem, t: Tid, timeout: Timeout)
    ensures
      var s2 := Waited(s, t, timeout);
      && s2.posts == s.posts
      && if s.count > 0 then s2.taken == s.taken + 1 && s2.queue == s.queue && s2.pc == s.pc
         else if timeout == Zero then s2 == s
         else s2.taken == s.taken && s2.queue == s.queue + [t] && s2.count == s.count - 1
    ensures
      var s2 := Tried(s);
      && s2.queue == s.queue && s2.pc == s.pc
      && (if s.count > 0 then s2.taken == s.taken + 1 && s2.count == s.count - 1 else s2 == s)
  {
  }

  // ---------------------------------------------------------------- first come, first served

  /** The queue moves in turn, and a post wakes nobody but its first. */
  lemma SemInTurn(s: Sem, a: SemAct, s2: Sem, t: Tid)
    requires SemInv(s) && SemNext(s, a, s2) && t in s.pc && s.pc[t] != Woken
    ensures InTurn(s.queue, s2.queue)
    ensures t in s2.pc && (s2.pc[t] == Woken ==> s.queue != [] && s.queue[0] == t)
  {
    hide InTurn, NoDup, At, RemoveAt;
    TurnSame(s.queue);
    if s.queue != [] {
      TurnTail(s.queue);
    }
    match a
    case Post =>
    case Wait(u, _) => TurnAppended(s.queue, u);
    case TryWait(_) =>
    case Expires(u) => TurnRemoved(s.queue, Index(s.queue, u));
    case Continue(_) =>
  }

  /** While thread a waits, no post wakes a thread that is not in front of it. */
  lemma {:induction false} SemNoOvertaking(acts: seq<SemAct>, states: seq<Sem>, i: nat, k: nat, a: Tid, b: Tid)
    requires IsSemRun(acts, states) && i <= k < |states| && a != b
    requires forall j | i <= j <= k :: a in states[j].queue
    requires b in states[i].pc && states[i].pc[b] != Woken && !InFront(states[i].queue, b, a)
    ensures b in states[k].pc && states[k].pc[b] != Woken && !InFront(states[k].queue, b, a)
    decreases k
  {
    hide SemNext, SemInit, InTurn, InFront, NoDup, Conserved, Tokens;
    if i < k {
      SemNoOvertaking(acts, states, i, k - 1, a, b);
      var s, s2 := states[k - 1], states[k];
      SemRunKeeps(acts, states, k - 1);
      SemRunKeeps(acts, states, k);
      assert a in s.queue;
      SemStillBehind(s, acts[k - 1], s2, a, b);
    }
  }

  lemma SemStillBehind(s: Sem, act: SemAct, s2: Sem, a: Tid, b: Tid)
    requires SemInv(s) && SemInv(s2) && SemNext(s, act, s2) && a != b && a in s.queue && a in s2.queue
    requires b in s.pc && s.pc[b] != Woken && !InFront(s.queue, b, a)
    ensures b in s2.pc && s2.pc[b] != Woken && !InFront(s2.queue, b, a)
  {
    hide SemNext, InTurn, InFront, NoDup, Conserved, Tokens;
    SemInTurn(s, act, s2, b);
    if s.queue[0] == b {
      FirstInFront(s.queue, a);
    }
    StaysBehind(s.queue, s2.queue, a, b);
  }

  /** Without finite timeouts nobody takes a token past the queue either. */
  lemma NoBarging(acts: seq<SemAct>, states: seq<Sem>, i: nat)
    requires IsSemRun(acts, states) && i < |acts| && forall j | 0 <= j < |acts| :: SemUntimed(acts[j])
    requires states[i].queue != [] && !acts[i].Continue?
    ensures states[i + 1].taken == states[i].taken
  {
    hide At;
    NeverStarved(acts, states, i);
    assert SemNext(states[i], acts[i], states[i + 1]);
  }

  /** The timer of a wait takes its thread out of the queue, and nobody else; the count stays until it runs again. */
  lemma ExpiryDoes(s: Sem, t: Tid, s2: Sem)
    requires SemInv(s) && SemNext(s, Expires(t), s2)
    ensures s2 == s.(queue := s2.queue, pc := s.pc[t := Overdue])
    ensures forall u :: u in s2.queue <==> u in s.queue && u != t
  {
    hide Conserved, Tokens, Without;
    WithoutOne(s.queue, t);
  }
}
