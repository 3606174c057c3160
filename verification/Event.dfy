/** Events, with and without the auto-unsignal flag. */
module Event {

  import opened Waiters
  import opened Mutex

  /** `signals` counts the calls of event_signal, `absorbed` those that found the flag up and the flags lowered by
      event_unsignal, `released` the waits let through by the flag or by a signal. */
  datatype Event = Event(signalled: bool, auto: bool, queue: seq<Tid>,
                         initial: bool, signals: nat, absorbed: nat, released: nat)

  datatype EventAct =
    | Await(t: Tid, timeout: Timeout, interrupted: bool)   // interrupted: killed and waiting interruptably
    | Signal
    | Unsignal
    | Leaves(t: Tid)                                       // a timeout or an interrupt takes it out of the queue

  /** event_wait_timeout up to the switch. */
  function Awaited(e: Event, t: Tid, timeout: Timeout, interrupted: bool): (e2: Event) {
    if interrupted then e
    else if e.signalled then e.(signalled := !e.auto, released := e.released + 1)
    else if timeout == Zero then e
    else e.(queue := e.queue + [t])
  }

  lemma NotAwaited(e: Event, t: Tid, timeout: Timeout)
    ensures Awaited(e, t, timeout, true) == e
  {
  }

  /** event_signal_etc; the threads it wakes are those that leave the queue. */
  function SignalledEvent(e: Event): (e2: Event) {
    var e1 := e.(signals := e.signals + 1);
    if e.signalled then e1.(absorbed := e.absorbed + 1)
    else if e.auto then
      if e.queue != [] then e1.(queue := e.queue[1..], released := e.released + 1) else e1.(signalled := true)
    else e1.(signalled := true, queue := [], released := e.released + |e.queue|)
  }

  function UnsignalledEvent(e: Event): (e2: Event) {
    e.(signalled := false, absorbed := e.absorbed + if e.signalled then 1 else 0)
  }

  ghost predicate EventNext(e: Event, a: EventAct, e2: Event) {
    match a
    case Await(t, timeout, interrupted) => t !in e.queue && e2 == Awaited(e, t, timeout, interrupted)
    case Signal => e2 == SignalledEvent(e)
    case Unsignal => e2 == UnsignalledEvent(e)
    case Leaves(t) => t in e.queue && e2 == e.(queue := Without(e.queue, t))
  }

  ghost predicate EventInv(e: Event) {
    && (e.signalled ==> e.queue == [])
    && NoDup(e.queue)
    && (e.auto ==> e.released + e.absorbed + (if e.signalled then 1 else 0) == e.signals + (if e.initial then 1 else 0))
  }

  ghost predicate EventInit(e: Event) {
    e.signalled == e.initial && e.queue == [] && e.signals == 0 && e.absorbed == 0 && e.released == 0
  }

  lemma EventStepKeeps(e: Event, a: EventAct, e2: Event)
    requires EventInv(e) && EventNext(e, a, e2)
    ensures EventInv(e2) && e2.auto == e.auto && e2.initial == e.initial
  {
    hide Without;
    match a
    case Await(t, _, _) => AppendOne(e.queue, t);
    case Signal => if e.queue != [] { TailOne(e.queue); }
    case Unsignal =>
    case Leaves(t) => WithoutOne(e.queue, t);
  }

  ghost predicate IsEventRun(acts: seq<EventAct>, states: seq<Event>) {
    && |states| == |acts| + 1 && EventInit(states[0])
    && forall i | 0 <= i < |acts| :: EventNext(states[i], acts[i], states[i + 1])
  }

  /** In every state of every run a signalled event has no queued waiter, and an auto-unsignal event has let through
      no more waits than it has had signals, counting its initial value: what is missing was absorbed or is still up. */
  lemma {:induction false} EventRunKeeps(acts: seq<EventAct>, states: seq<Event>, i: nat)
    requires IsEventRun(acts, states) && i < |states|
    ensures EventInv(states[i]) && states[i].auto == states[0].auto && states[i].initial == states[0].initial
    ensures states[i].auto ==> states[i].released <= states[i].signals + (if states[0].initial then 1 else 0)
  {
    hide EventNext;
    if i > 0 {
      EventRunKeeps(acts, states, i - 1);
      EventStepKeeps(states[i - 1], acts[i - 1], states[i]);
    }
  }

  /** A signal to an event with waiters is never lost: the longest-waiting one goes, or all of them. */
  lemma SignalReleases(acts: seq<EventAct>, states: seq<Event>, i: nat)
    requires IsEventRun(acts, states) && i < |acts| && acts[i] == Signal && states[i].queue != []
    ensures
      var e := states[i];
      var e2 := states[i + 1];
      if e.auto then !e2.signalled && e.queue == [e.queue[0]] + e2.queue && e2.released == e.released + 1
      else e2.signalled && e2.queue == [] && e2.released == e.released + |e.queue|
  {
    EventRunKeeps(acts, states, i);
    assert EventNext(states[i], acts[i], states[i + 1]);
  }

  /** What a wait does: it passes a raised flag, and lowers it if the event unsignals itself; it gives up at once with a
      zero timeout or a kill; otherwise it queues behind the others. */
  lemma AwaitDoes(e: Event, t: Tid, timeout: Timeout, interrupted: bool)
    ensures
      var e2 := Awaited(e, t, timeout, interrupted);
      && e2.auto == e.auto && e2.initial == e.initial && e2.signals == e.signals && e2.absorbed == e.absorbed
      && (!interrupted && e.signalled ==>
            e2.signalled == !e.auto && e2.released == e.released + 1 && e2.queue == e.queue)
      && (!interrupted && !e.signalled && timeout != Zero ==>
            !e2.signalled && e2.released == e.released && e2.queue == e.queue + [t])
      && (interrupted || (!e.signalled && timeout == Zero) ==> e2 == e)
  {
  }

  /** What a signal does: with waiters it lets go the first of them, or all and raises the flag; without it raises the
      flag; a flag that is up stays up. */
  lemma SignalDoes(e: Event)
    ensures
      var e2 := SignalledEvent(e);
      && e2.auto == e.auto && e2.initial == e.initial && e2.signals == e.signals + 1
      && (e.signalled ==> e2.signalled && e2.queue == e.queue && e2.absorbed == e.absorbed + 1)
      && (!e.signalled && e.queue == [] ==>
            e2.signalled && e2.queue == [] && e2.released == e.released && e2.absorbed == e.absorbed)
      && (!e.signalled && e.queue != [] && e.auto ==>
            !e2.signalled && e2.queue == e.queue[1..] && e2.released == e.released + 1)
      && (!e.signalled && e.queue != [] && !e.auto ==>
            e2.signalled && e2.queue == [] && e2.released == e.released + |e.queue|)
  {
  }

  /** Over every run: an event that does not unsignal itself, once signalled, lets everybody through until somebody
      unsignals it. */
  lemma {:induction false} StaysSignalled(acts: seq<EventAct>, states: seq<Event>, i: nat, k: nat)
    requires IsEventRun(acts, states) && i <= k < |states| && states[i].signalled && !states[i].auto
    requires forall j | i <= j < k :: acts[j] != Unsignal
    ensures states[k].signalled && !states[k].auto && states[k].queue == []
    decreases k
  {
    hide Without;
    EventRunKeeps(acts, states, k);
    if i < k {
      StaysSignalled(acts, states, i, k - 1);
      assert EventNext(states[k - 1], acts[k - 1], states[k]);
      match acts[k - 1]
      case Await(t, timeout, interrupted) => AwaitDoes(states[k - 1], t, timeout, interrupted);
      case Signal => SignalDoes(states[k - 1]);
      case Unsignal =>
      case Leaves(_) =>
    }
  }

  /** A wait on an event that is signalled never queues, and one on an event that is not does so unless it may not wait:
      a signal between two waits is never missed. */
  lemma SignalKept(acts: seq<EventAct>, states: seq<Event>, i: nat)
    requires IsEventRun(acts, states) && i + 1 < |acts| && acts[i] == Signal && states[i].queue == []
    requires acts[i + 1].Await? && !acts[i + 1].interrupted
    ensures states[i + 2].queue == [] && states[i + 2].released == states[i].released + 1
  {
    assert EventNext(states[i], acts[i], states[i + 1]);
    assert EventNext(states[i + 1], acts[i + 1], states[i + 2]);
    SignalDoes(states[i]);
    AwaitDoes(states[i + 1], acts[i + 1].t, acts[i + 1].timeout, false);
  }

  /** event_unsignal lowers the flag and does nothing else: the next wait queues. */
  lemma UnsignalDoes(e: Event, t: Tid, timeout: Timeout)
    ensures
      var e2 := UnsignalledEvent(e);
      && !e2.signalled && e2.queue == e.queue && e2.auto == e.auto && e2.released == e.released
      && e2.signals == e.signals && e2.absorbed == e.absorbed + (if e.signalled then 1 else 0)
      && (timeout != Zero ==> Awaited(e2, t, timeout, false) == e2.(queue := e.queue + [t]))
  {
  }

  /** While thread a waits, nobody who is not in front of it gets in front of it. */
  lemma {:induction false} EventNoOvertaking(acts: seq<EventAct>, states: seq<Event>, i: nat, k: nat, a: Tid, b: Tid)
    requires IsEventRun(acts, states) && i <= k < |states| && a != b
    requires forall j | i <= j <= k :: a in states[j].queue
    requires !InFront(states[i].queue, b, a)
    ensures !InFront(states[k].queue, b, a)
    decreases k
  {
    hide EventNext, EventInit, InTurn, InFront, NoDup;
    if i < k {
      EventNoOvertaking(acts, states, i, k - 1, a, b);
      var e, e2 := states[k - 1], states[k];
      EventRunKeeps(acts, states, k - 1);
      EventRunKeeps(acts, states, k);
      EventInTurn(e, acts[k - 1], e2);
      assert a in e.queue;
      StaysBehind(e.queue, e2.queue, a, b);
    }
  }

  lemma EventInTurn(e: Event, a: EventAct, e2: Event)
    requires EventNext(e, a, e2)
    ensures InTurn(e.queue, e2.queue)
  {
    hide InTurn, RemoveAt;
    TurnSame(e.queue);
    TurnNobody(e.queue);
    if e.queue != [] {
      TurnTail(e.queue);
    }
    match a
    case Await(t, _, _) => TurnAppended(e.queue, t);
    case Signal =>
    case Unsignal =>
    case Leaves(t) => TurnRemoved(e.queue, Index(e.queue, t));
  }

  /** A timeout or an interrupt takes its thread out of the queue, and nobody else. */
  lemma LeaveDoes(e: Event, t: Tid, e2: Event)
    requires EventInv(e) && EventNext(e, Leaves(t), e2)
    ensures e2 == e.(queue := e2.queue) && forall u :: u in e2.queue <==> u in e.queue && u != t
  {
    hide Without;
    WithoutOne(e.queue, t);
  }
}
