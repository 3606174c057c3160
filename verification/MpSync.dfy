/** mp_sync_exec: a task run on a set of processors through per-processor task lists, with any number
    of callers at once and processors going offline between tasks. */
module MpSync {

  import opened Waiters

  type Cpu = nat
  type Id = nat

  /** Where a call stands. Chosen: the targets are picked; Posted: the nodes are in the lists; Waiting and Loaded:
      in the wait loop, before and after its first load; Leaving: out of the loop; Returned: the nodes are unlinked. */
  datatype Phase = Chosen | Posted | Waiting | Loaded | Leaving | Returned

  /** `ran` counts the executions of its task, processor by processor. */
  datatype Call = Call(phase: Phase, local: Cpu, target: set<Cpu>, outstanding: set<Cpu>, loaded: set<Cpu>,
                       ran: multiset<Cpu>)

  /** What a processor is doing with the node it took from its list. */
  datatype Slot = Free | Holds(id: Id, executed: bool)

  datatype State = State(calls: map<Id, Call>, lists: seq<seq<Id>>, slots: seq<Slot>, online: set<Cpu>)

  datatype Act =
    | Choose(id: Id, local: Cpu, wanted: set<Cpu>)
    | Post(id: Id)
    | RunLocal(id: Id)
    | LoadOutstanding(id: Id)
    | LoadOnline(id: Id)
    | Unlink(id: Id)
    | Dequeue(c: Cpu)
    | Execute(c: Cpu)
    | Acknowledge(c: Cpu)
    | GoOffline(c: Cpu)

  // ---------------------------------------------------------------- steps

  function SetCall(s: State, id: Id, call: Call): (s2: State) {
    s.(calls := s.calls[id := call])
  }

  function Others(call: Call): (r: set<Cpu>) {
    call.target - {call.local}
  }

  /** The node of call `id` at the end of the list of each target. */
  ghost function Enqueued(lists: seq<seq<Id>>, targets: set<Cpu>, id: Id): (r: seq<seq<Id>>) {
    seq(|lists|, c requires 0 <= c < |lists| => if c in targets then lists[c] + [id] else lists[c])
  }

  function Drop(l: seq<Id>, id: Id): (r: seq<Id>)
    ensures id !in r && (forall x :: x in r <==> x in l && x != id)
    ensures id !in l ==> r == l
  {
    if l == [] then [] else if l[0] == id then Drop(l[1..], id) else [l[0]] + Drop(l[1..], id)
  }

  /** The node of call `id` in no list. */
  ghost function Unlinked(lists: seq<seq<Id>>, id: Id): (r: seq<seq<Id>>) {
    seq(|lists|, c requires 0 <= c < |lists| => Drop(lists[c], id))
  }

  ghost predicate Next(s: State, a: Act, s2: State) {
    match a
    case Choose(id, local, wanted) =>
      && id !in s.calls && local in s.online
      && s2 == SetCall(s, id, Call(Chosen, local, wanted * s.online, {}, {}, multiset{}))
    case Post(id) =>
      && id in s.calls && s.calls[id].phase == Chosen
      && s2 == SetCall(s, id, s.calls[id].(phase := Posted, outstanding := Others(s.calls[id])))
               .(lists := Enqueued(s.lists, Others(s.calls[id]), id))
    case RunLocal(id) =>
      && id in s.calls && s.calls[id].phase == Posted
      && var call := s.calls[id];
         s2 == SetCall(s, id, if call.local in call.target
                              then call.(phase := Waiting, ran := call.ran + multiset{call.local},
                                         outstanding := call.outstanding - {call.local})
                              else call.(phase := Waiting))
    case LoadOutstanding(id) =>
      && id in s.calls && s.calls[id].phase == Waiting
      && s2 == SetCall(s, id, s.calls[id].(phase := Loaded, loaded := s.calls[id].outstanding))
    case LoadOnline(id) =>
      && id in s.calls && s.calls[id].phase == Loaded
      && s2 == SetCall(s, id, s.calls[id].(phase := if s.calls[id].loaded * s.online == {} then Leaving else Waiting))
    case Unlink(id) =>
      && id in s.calls && s.calls[id].phase == Leaving
      && s2 == SetCall(s, id, s.calls[id].(phase := Returned)).(lists := Unlinked(s.lists, id))
    case Dequeue(c) =>
      && c in s.online && c < |s.lists| && c < |s.slots| && s.slots[c] == Free && s.lists[c] != []
      && s2 == s.(lists := s.lists[c := s.lists[c][1..]], slots := s.slots[c := Holds(s.lists[c][0], false)])
    case Execute(c) =>
      && c < |s.slots| && s.slots[c].Holds? && !s.slots[c].executed && s.slots[c].id in s.calls
      && var id := s.slots[c].id;
         s2 == SetCall(s, id, s.calls[id].(ran := s.calls[id].ran + multiset{c}))
               .(slots := s.slots[c := Holds(id, true)])
    case Acknowledge(c) =>
      && c < |s.slots| && s.slots[c].Holds? && s.slots[c].executed && s.slots[c].id in s.calls
      && var id := s.slots[c].id;
         s2 == SetCall(s, id, s.calls[id].(outstanding := s.calls[id].outstanding - {c})).(slots := s.slots[c := Free])
    case GoOffline(c) =>
      c < |s.slots| && s.slots[c] == Free && s2 == s.(online := s.online - {c})
  }

  // ---------------------------------------------------------------- invariant

  /** Whose node the processor has taken from its list. */
  predicate Has(slot: Slot, id: Id) {
    slot.Holds? && slot.id == id
  }

  /** How far one target has come with one call: its node is in the list, taken, executed, acknowledged, or was
      unlinked unexecuted because the processor went offline. */
  predicate Token(id: Id, call: Call, c: Cpu, l: seq<Id>, slot: Slot, online: bool) {
    if call.phase == Chosen || c !in Others(call) then
      && c !in call.outstanding && id !in l && !Has(slot, id)
      && call.ran[c] == if c == call.local && c in call.target && call.phase !in {Chosen, Posted} then 1 else 0
    else if c in call.outstanding then
      || (id in l && !Has(slot, id) && call.ran[c] == 0 && call.phase != Returned)
      || (id !in l && Has(slot, id) && call.ran[c] == (if slot.executed then 1 else 0) && call.phase != Returned)
      || (id !in l && !Has(slot, id) && call.ran[c] == 0 && call.phase == Returned && !online)
    else
      id !in l && !Has(slot, id) && call.ran[c] == 1
  }

  predicate PhaseOk(call: Call, online: set<Cpu>) {
    && (call.phase == Loaded ==> call.outstanding <= call.loaded)
    && (call.phase in {Leaving, Returned} ==> call.outstanding * online == {})
  }

  ghost predicate CallOk(s: State, id: Id, call: Call)
    requires |s.lists| == |s.slots|
  {
    && PhaseOk(call, s.online)
    && (forall c | c in call.target :: c < |s.lists|) && call.local < |s.lists|
    && (forall c | 0 <= c < |s.lists| :: Token(id, call, c, s.lists[c], s.slots[c], c in s.online))
    && (forall c | c in call.outstanding :: c < |s.lists|)
  }

  ghost predicate CallsOk(s: State)
    requires |s.lists| == |s.slots|
  {
    forall id | id in s.calls :: CallOk(s, id, s.calls[id])
  }

  ghost predicate ListsOk(s: State) {
    && |s.lists| == |s.slots|
    && (forall c | 0 <= c < |s.lists| :: NoDup(s.lists[c]) && (forall id | id in s.lists[c] :: id in s.calls))
    && (forall c | 0 <= c < |s.slots| && s.slots[c].Holds? :: s.slots[c].id in s.calls && c in s.online)
    && (forall c | c in s.online :: c < |s.lists|)
  }

  ghost predicate Inv(s: State) {
    ListsOk(s) && CallsOk(s)
  }

  ghost predicate Init(s: State) {
    && s.calls == map[] && |s.lists| == |s.slots|
    && (forall c | 0 <= c < |s.lists| :: s.lists[c] == [] && s.slots[c] == Free)
    && (forall c | c in s.online :: c < |s.lists|)
  }

  // ---------------------------------------------------------------- every step keeps it

  /** A step that changes only one call. */
  lemma OneCall(s: State, id: Id, call: Call)
    requires Inv(s) && CallOk(s, id, call)
    ensures Inv(SetCall(s, id, call))
  {
    hide Token, PhaseOk;
  }

  lemma ChooseKeeps(s: State, id: Id, local: Cpu, wanted: set<Cpu>)
    requires Inv(s) && id !in s.calls && local in s.online
    ensures Inv(SetCall(s, id, Call(Chosen, local, wanted * s.online, {}, {}, multiset{})))
  {
    OneCall(s, id, Call(Chosen, local, wanted * s.online, {}, {}, multiset{}));
  }

  lemma RunLocalKeeps(s: State, id: Id)
    requires Inv(s) && id in s.calls && s.calls[id].phase == Posted
    ensures
      var call := s.calls[id];
      Inv(SetCall(s, id, if call.local in call.target
                         then call.(phase := Waiting, ran := call.ran + multiset{call.local},
                                    outstanding := call.outstanding - {call.local})
                         else call.(phase := Waiting)))
  {
    var call := s.calls[id];
    assert CallOk(s, id, call);
    var call2 := if call.local in call.target
                 then call.(phase := Waiting, ran := call.ran + multiset{call.local},
                            outstanding := call.outstanding - {call.local})
                 else call.(phase := Waiting);
    forall c | 0 <= c < |s.lists| ensures Token(id, call2, c, s.lists[c], s.slots[c], c in s.online) {
      assert Token(id, call, c, s.lists[c], s.slots[c], c in s.online);
    }
    OneCall(s, id, call2);
  }

  lemma LoadKeeps(s: State, id: Id, call2: Call)
    requires Inv(s) && id in s.calls
    requires
      var call := s.calls[id];
      || (call.phase == Waiting && call2 == call.(phase := Loaded, loaded := call.outstanding))
      || (call.phase == Loaded && call2 == call.(phase := if call.loaded * s.online == {} then Leaving else Waiting))
    ensures Inv(SetCall(s, id, call2))
  {
    var call := s.calls[id];
    assert CallOk(s, id, call);
    forall c | 0 <= c < |s.lists| ensures Token(id, call2, c, s.lists[c], s.slots[c], c in s.online) {
      assert Token(id, call, c, s.lists[c], s.slots[c], c in s.online);
    }
    OneCall(s, id, call2);
  }

  lemma PostKeeps(s: State, id: Id)
    requires Inv(s) && id in s.calls && s.calls[id].phase == Chosen
    ensures Inv(SetCall(s, id, s.calls[id].(phase := Posted, outstanding := Others(s.calls[id])))
                .(lists := Enqueued(s.lists, Others(s.calls[id]), id)))
  {
    hide Token;
    var call := s.calls[id];
    var call2 := call.(phase := Posted, outstanding := Others(call));
    var s2 := SetCall(s, id, call2).(lists := Enqueued(s.lists, Others(call), id));
    assert CallOk(s, id, call);
    forall c | 0 <= c < |s.lists| ensures NoDup(s2.lists[c]) && id !in s.lists[c] {
      TokenChosen(id, call, c, s.lists[c], s.slots[c], c in s.online);
    }
    forall d | d in s2.calls ensures CallOk(s2, d, s2.calls[d]) {
      assert CallOk(s, d, s.calls[d]);
      forall c | 0 <= c < |s2.lists| ensures Token(d, s2.calls[d], c, s2.lists[c], s2.slots[c], c in s2.online) {
        if d == id {
          TokenPosted(id, call, c, s.lists[c], s.slots[c], c in s.online);
        } else {
          TokenOther(d, s.calls[d], c, s.lists[c], s2.lists[c], s.slots[c], s.slots[c], c in s.online, c in s.online);
        }
      }
    }
  }

  lemma TokenChosen(id: Id, call: Call, c: Cpu, l: seq<Id>, slot: Slot, online: bool)
    requires Token(id, call, c, l, slot, online) && call.phase == Chosen
    ensures id !in l
  {
  }

  lemma TokenPosted(id: Id, call: Call, c: Cpu, l: seq<Id>, slot: Slot, online: bool)
    requires Token(id, call, c, l, slot, online) && call.phase == Chosen
    ensures
      var call2 := call.(phase := Posted, outstanding := Others(call));
      Token(id, call2, c, if c in Others(call) then l + [id] else l, slot, online)
  {
  }

  /** What happens to the nodes of other calls does not concern this one. */
  lemma TokenOther(id: Id, call: Call, c: Cpu, l: seq<Id>, l2: seq<Id>, slot: Slot, slot2: Slot, online: bool,
                   online2: bool)
    requires Token(id, call, c, l, slot, online)
    requires (id in l2 <==> id in l) && (Has(slot2, id) <==> Has(slot, id)) && (Has(slot, id) ==> slot2 == slot)
    requires online2 ==> online
    ensures Token(id, call, c, l2, slot2, online2)
  {
  }

  lemma UnlinkKeeps(s: State, id: Id)
    requires Inv(s) && id in s.calls && s.calls[id].phase == Leaving
    ensures Inv(SetCall(s, id, s.calls[id].(phase := Returned)).(lists := Unlinked(s.lists, id)))
  {
    hide Token;
    var call := s.calls[id];
    var s2 := SetCall(s, id, call.(phase := Returned)).(lists := Unlinked(s.lists, id));
    assert CallOk(s, id, call);
    forall c | 0 <= c < |s2.lists| ensures NoDup(s2.lists[c]) {
      DropNoDup(s.lists[c], id);
    }
    forall d | d in s2.calls ensures CallOk(s2, d, s2.calls[d]) {
      assert CallOk(s, d, s.calls[d]);
      forall c | 0 <= c < |s2.lists| ensures Token(d, s2.calls[d], c, s2.lists[c], s2.slots[c], c in s2.online) {
        if d == id {
          TokenReturned(id, call, c, s.lists[c], s.slots[c], s.online);
        } else {
          TokenOther(d, s.calls[d], c, s.lists[c], s2.lists[c], s.slots[c], s.slots[c], c in s.online, c in s.online);
        }
      }
    }
  }

  lemma {:induction false} DropNoDup(l: seq<Id>, id: Id)
    requires NoDup(l)
    ensures NoDup(Drop(l, id))
  {
    if l != [] {
      DropNoDup(l[1..], id);
      assert l[0] !in l[1..];
    }
  }

  /** When the caller is out of the loop no processor holds its node: such a processor would be online with its bit
      set. */
  lemma TokenReturned(id: Id, call: Call, c: Cpu, l: seq<Id>, slot: Slot, online: set<Cpu>)
    requires Token(id, call, c, l, slot, c in online) && call.phase == Leaving && PhaseOk(call, online)
    requires slot.Holds? ==> c in online
    ensures Token(id, call.(phase := Returned), c, Drop(l, id), slot, c in online)
  {
    assert c in call.outstanding && c in online ==> c in call.outstanding * online;
  }

  lemma DequeueKeeps(s: State, c: Cpu)
    requires Inv(s) && c in s.online && c < |s.lists| && s.slots[c] == Free && s.lists[c] != []
    ensures Inv(s.(lists := s.lists[c := s.lists[c][1..]], slots := s.slots[c := Holds(s.lists[c][0], false)]))
  {
    hide Token;
    var id := s.lists[c][0];
    var s2 := s.(lists := s.lists[c := s.lists[c][1..]], slots := s.slots[c := Holds(id, false)]);
    assert id in s.lists[c];
    forall d | d in s2.calls ensures CallOk(s2, d, s2.calls[d]) {
      assert CallOk(s, d, s.calls[d]);
      forall x | 0 <= x < |s2.lists| ensures Token(d, s2.calls[d], x, s2.lists[x], s2.slots[x], x in s2.online) {
        if d == id && x == c {
          TokenTaken(id, s.calls[id], c, s.lists[c], s.slots[c], true);
        } else {
          TokenOther(d, s.calls[d], x, s.lists[x], s2.lists[x], s.slots[x], s2.slots[x], x in s.online, x in s.online);
        }
      }
    }
  }

  lemma TokenTaken(id: Id, call: Call, c: Cpu, l: seq<Id>, slot: Slot, online: bool)
    requires Token(id, call, c, l, slot, online) && NoDup(l) && l != [] && l[0] == id && slot == Free
    ensures Token(id, call, c, l[1..], Holds(id, false), online)
  {
    assert id in l;
  }

  lemma ExecuteKeeps(s: State, c: Cpu)
    requires Inv(s) && c < |s.slots| && s.slots[c].Holds? && !s.slots[c].executed && s.slots[c].id in s.calls
    ensures
      var id := s.slots[c].id;
      Inv(SetCall(s, id, s.calls[id].(ran := s.calls[id].ran + multiset{c})).(slots := s.slots[c := Holds(id, true)]))
  {
    hide Token;
    var id := s.slots[c].id;
    var s2 := SetCall(s, id, s.calls[id].(ran := s.calls[id].ran + multiset{c}))
              .(slots := s.slots[c := Holds(id, true)]);
    forall d | d in s2.calls ensures CallOk(s2, d, s2.calls[d]) {
      assert CallOk(s, d, s.calls[d]);
      forall x | 0 <= x < |s2.lists| ensures Token(d, s2.calls[d], x, s2.lists[x], s2.slots[x], x in s2.online) {
        if d == id {
          TokenExecuted(id, s.calls[id], x, s.lists[x], s.slots[x], x in s.online, c, s2.slots[x]);
        } else {
          TokenOther(d, s.calls[d], x, s.lists[x], s.lists[x], s.slots[x], s2.slots[x], x in s.online, x in s.online);
        }
      }
    }
  }

  lemma TokenExecuted(id: Id, call: Call, x: Cpu, l: seq<Id>, slot: Slot, online: bool, c: Cpu, slot2: Slot)
    requires Token(id, call, x, l, slot, online)
    requires x == c ==> slot == Holds(id, false) && slot2 == Holds(id, true)
    requires x != c ==> slot2 == slot
    ensures Token(id, call.(ran := call.ran + multiset{c}), x, l, slot2, online)
  {
    assert (call.ran + multiset{c})[x] == call.ran[x] + if x == c then 1 else 0;
  }

  lemma AcknowledgeKeeps(s: State, c: Cpu)
    requires Inv(s) && c < |s.slots| && s.slots[c].Holds? && s.slots[c].executed && s.slots[c].id in s.calls
    ensures
      var id := s.slots[c].id;
      Inv(SetCall(s, id, s.calls[id].(outstanding := s.calls[id].outstanding - {c})).(slots := s.slots[c := Free]))
  {
    hide Token;
    var id := s.slots[c].id;
    var s2 := SetCall(s, id, s.calls[id].(outstanding := s.calls[id].outstanding - {c})).(slots := s.slots[c := Free]);
    forall d | d in s2.calls ensures CallOk(s2, d, s2.calls[d]) {
      assert CallOk(s, d, s.calls[d]);
      assert PhaseOk(s2.calls[d], s2.online);
      forall x | 0 <= x < |s2.lists| ensures Token(d, s2.calls[d], x, s2.lists[x], s2.slots[x], x in s2.online) {
        if d == id {
          TokenAcknowledged(id, s.calls[id], x, s.lists[x], s.slots[x], x in s.online, c, s2.slots[x]);
        } else {
          TokenOther(d, s.calls[d], x, s.lists[x], s.lists[x], s.slots[x], s2.slots[x], x in s.online, x in s.online);
        }
      }
    }
  }

  lemma TokenAcknowledged(id: Id, call: Call, x: Cpu, l: seq<Id>, slot: Slot, online: bool, c: Cpu, slot2: Slot)
    requires Token(id, call, x, l, slot, online)
    requires x == c ==> slot == Holds(id, true) && slot2 == Free
    requires x != c ==> slot2 == slot
    ensures Token(id, call.(outstanding := call.outstanding - {c}), x, l, slot2, online)
  {
  }

  lemma OfflineKeeps(s: State, c: Cpu)
    requires Inv(s) && c < |s.slots| && s.slots[c] == Free
    ensures Inv(s.(online := s.online - {c}))
  {
    hide Token;
    var s2 := s.(online := s.online - {c});
    forall d | d in s2.calls ensures CallOk(s2, d, s2.calls[d]) {
      assert CallOk(s, d, s.calls[d]);
      assert s.calls[d].outstanding * s2.online <= s.calls[d].outstanding * s.online;
      forall x | 0 <= x < |s2.lists| ensures Token(d, s2.calls[d], x, s2.lists[x], s2.slots[x], x in s2.online) {
        TokenOther(d, s.calls[d], x, s.lists[x], s.lists[x], s.slots[x], s.slots[x], x in s.online, x in s2.online);
      }
    }
  }

  lemma StepKeeps(s: State, a: Act, s2: State)
    requires Inv(s) && Next(s, a, s2)
    ensures Inv(s2)
  {
    hide CallsOk, Token;
    match a
    case Choose(id, local, wanted) => ChooseKeeps(s, id, local, wanted);
    case Post(id) => PostKeeps(s, id);
    case RunLocal(id) => RunLocalKeeps(s, id);
    case LoadOutstanding(id) => LoadKeeps(s, id, s2.calls[id]);
    case LoadOnline(id) => LoadKeeps(s, id, s2.calls[id]);
    case Unlink(id) => UnlinkKeeps(s, id);
    case Dequeue(c) => DequeueKeeps(s, c);
    case Execute(c) => ExecuteKeeps(s, c);
    case Acknowledge(c) => AcknowledgeKeeps(s, c);
    case GoOffline(c) => OfflineKeeps(s, c);
  }

  ghost predicate IsRun(acts: seq<Act>, states: seq<State>) {
    |states| == |acts| + 1 && Init(states[0]) && forall i | 0 <= i < |acts| :: Next(states[i], acts[i], states[i + 1])
  }

  lemma {:induction false} RunKeeps(acts: seq<Act>, states: seq<State>, i: nat)
    requires IsRun(acts, states) && i < |states|
    ensures Inv(states[i])
  {
    hide Inv, Next, Init;
    if i == 0 {
      InitInv(states[0]);
    } else {
      RunKeeps(acts, states, i - 1);
      StepKeeps(states[i - 1], acts[i - 1], states[i]);
    }
  }

  lemma InitInv(s: State)
    requires Init(s)
    ensures Inv(s)
  {
  }

  // ---------------------------------------------------------------- what a caller may rely on

  /** In every state of every run: a target runs a task at most once, and a set bit of an online processor means
      that its node is in the list of that processor or in its hands, until the call has returned. */
  lemma AtMostOnce(acts: seq<Act>, states: seq<State>, i: nat, id: Id, c: Cpu)
    requires IsRun(acts, states) && i < |states| && id in states[i].calls
    ensures
      var s := states[i];
      var call := s.calls[id];
      && call.ran[c] <= 1 && (call.ran[c] == 1 ==> c in call.target)
      && (c in call.outstanding && c in s.online ==>
            c < |s.lists| && |s.slots| == |s.lists| && (id in s.lists[c] || Has(s.slots[c], id)))
  {
    RunKeeps(acts, states, i);
    var s := states[i];
    var call := s.calls[id];
    assert CallOk(s, id, call);
    if c < |s.lists| {
      assert Token(id, call, c, s.lists[c], s.slots[c], c in s.online);
      assert c in call.outstanding && c in s.online ==> c in call.outstanding * s.online;
    } else {
      RanInside(acts, states, i, id, c);
    }
  }

  /** Nothing outside the machine runs a task. */
  lemma {:induction false} RanInside(acts: seq<Act>, states: seq<State>, i: nat, id: Id, c: Cpu)
    requires IsRun(acts, states) && i < |states| && id in states[i].calls && c >= |states[i].lists|
    ensures states[i].calls[id].ran[c] == 0
  {
    RunKeeps(acts, states, i);
    if i > 0 {
      RunKeeps(acts, states, i - 1);
      assert Next(states[i - 1], acts[i - 1], states[i]);
      if id in states[i - 1].calls {
        RanInside(acts, states, i - 1, id, c);
        assert CallOk(states[i - 1], id, states[i - 1].calls[id]);
      }
    }
  }

  /** When the call has returned every target has run its task exactly once or is offline, no list holds a node of
      the call and no processor has it in its hands: the caller's stack frame may go. */
  lemma ReturnedMeansDone(acts: seq<Act>, states: seq<State>, i: nat, id: Id, c: Cpu)
    requires IsRun(acts, states) && i < |states| && id in states[i].calls && states[i].calls[id].phase == Returned
    requires c < |states[i].lists|
    ensures
      var s := states[i];
      && |s.slots| == |s.lists| && id !in s.lists[c] && !Has(s.slots[c], id)
      && (c in s.calls[id].target ==> s.calls[id].ran[c] == 1 || (s.calls[id].ran[c] == 0 && c !in s.online))
  {
    RunKeeps(acts, states, i);
    var s := states[i];
    var call := s.calls[id];
    assert CallOk(s, id, call);
    assert Token(id, call, c, s.lists[c], s.slots[c], c in s.online);
  }

  /** A call keeps the targets it was made with: the processors wanted that were online then. */
  lemma {:induction false} ChosenAs(acts: seq<Act>, states: seq<State>, j: nat, i: nat, id: Id, local: Cpu,
                                    wanted: set<Cpu>)
    requires IsRun(acts, states) && j < i < |states| && acts[j] == Choose(id, local, wanted)
    ensures id in states[i].calls && states[i].calls[id].local == local
    ensures states[i].calls[id].target == wanted * states[j].online
    decreases i
  {
    assert Next(states[i - 1], acts[i - 1], states[i]);
    if i - 1 > j {
      ChosenAs(acts, states, j, i - 1, id, local, wanted);
    }
  }

  /** When the call has returned, every processor wanted that was online when it was made and still is has run the task
      exactly once, the caller's own included, and no processor that was not wanted or was offline then has run it. */
  lemma ReturnedMeansRan(acts: seq<Act>, states: seq<State>, j: nat, i: nat, id: Id, local: Cpu, wanted: set<Cpu>,
                         c: Cpu)
    requires IsRun(acts, states) && j < i < |states| && acts[j] == Choose(id, local, wanted)
    requires id in states[i].calls && states[i].calls[id].phase == Returned
    ensures c in wanted && c in states[j].online && c in states[i].online ==> states[i].calls[id].ran[c] == 1
    ensures !(c in wanted && c in states[j].online) ==> states[i].calls[id].ran[c] == 0
  {
    hide Next;
    ChosenAs(acts, states, j, i, id, local, wanted);
    AtMostOnce(acts, states, i, id, c);
    RunKeeps(acts, states, i);
    if c < |states[i].lists| {
      ReturnedMeansDone(acts, states, i, id, c);
    }
  }

  /** Already when the wait loop is left no processor has, or will ever again have, the node in its hands. */
  lemma LeavingMeansSafe(acts: seq<Act>, states: seq<State>, i: nat, id: Id, c: Cpu)
    requires IsRun(acts, states) && i < |states| && id in states[i].calls
    requires states[i].calls[id].phase in {Leaving, Returned}
    requires c < |states[i].lists|
    ensures |states[i].slots| == |states[i].lists| && !Has(states[i].slots[c], id)
    ensures id in states[i].lists[c] ==> c !in states[i].online
  {
    RunKeeps(acts, states, i);
    var s := states[i];
    var call := s.calls[id];
    assert CallOk(s, id, call);
    assert Token(id, call, c, s.lists[c], s.slots[c], c in s.online);
    assert c in call.outstanding && c in s.online ==> c in call.outstanding * s.online;
  }

  /** A caller that cannot leave its loop waits for a processor that can make a step. */
  lemma WaitsForAStep(acts: seq<Act>, states: seq<State>, i: nat, id: Id)
    requires IsRun(acts, states) && i < |states| && id in states[i].calls
    requires states[i].calls[id].phase in {Waiting, Loaded}
    requires states[i].calls[id].outstanding * states[i].online != {}
    ensures exists c, s2: State ::
              c in states[i].calls[id].outstanding
              && (Next(states[i], Dequeue(c), s2) || Next(states[i], Execute(c), s2)
                  || Next(states[i], Acknowledge(c), s2))
  {
    RunKeeps(acts, states, i);
    var s := states[i];
    var call := s.calls[id];
    assert CallOk(s, id, call);
    var c :| c in call.outstanding * s.online;
    assert Token(id, call, c, s.lists[c], s.slots[c], true);
    if s.slots[c] == Free {
      var s2 := s.(lists := s.lists[c := s.lists[c][1..]], slots := s.slots[c := Holds(s.lists[c][0], false)]);
      assert Next(s, Dequeue(c), s2);
    } else {
      var d := s.slots[c].id;
      if s.slots[c].executed {
        var s2 := SetCall(s, d, s.calls[d].(outstanding := s.calls[d].outstanding - {c})).(slots := s.slots[c := Free]);
        assert Next(s, Acknowledge(c), s2);
      } else {
        var s2 := SetCall(s, d, s.calls[d].(ran := s.calls[d].ran + multiset{c}))
                  .(slots := s.slots[c := Holds(d, true)]);
        assert Next(s, Execute(c), s2);
      }
    }
  }

  /** The steps the processors still have to make for what is in the lists. */
  function Work(lists: seq<seq<Id>>, slots: seq<Slot>): (n: nat)
    requires |lists| == |slots|
  {
    if lists == [] then 0
    else
      3 * |lists[0]| + (if slots[0] == Free then 0 else if slots[0].executed then 1 else 2)
      + Work(lists[1..], slots[1..])
  }

  lemma {:induction false} WorkAt(lists: seq<seq<Id>>, slots: seq<Slot>, c: Cpu, l: seq<Id>, slot: Slot)
    requires |lists| == |slots| && c < |lists|
    ensures
      Work(lists[c := l], slots[c := slot]) - Work(lists, slots) ==
        3 * (|l| - |lists[c]|)
        + (if slot == Free then 0 else if slot.executed then 1 else 2)
        - (if slots[c] == Free then 0 else if slots[c].executed then 1 else 2)
  {
    if c == 0 {
      assert lists[c := l][1..] == lists[1..] && slots[c := slot][1..] == slots[1..];
    } else {
      WorkAt(lists[1..], slots[1..], c - 1, l, slot);
      assert lists[c := l][1..] == lists[1..][c - 1 := l] && slots[c := slot][1..] == slots[1..][c - 1 := slot];
    }
  }

  predicate IsWork(a: Act) {
    a.Dequeue? || a.Execute? || a.Acknowledge?
  }

  /** Every step of a processor uses up one unit of work. */
  lemma StepsRunOut(s: State, a: Act, s2: State)
    requires Inv(s) && Next(s, a, s2) && IsWork(a)
    ensures |s2.lists| == |s2.slots| && Work(s2.lists, s2.slots) == Work(s.lists, s.slots) - 1
  {
    hide CallsOk, Work;
    var c := a.c;
    assert s.lists[c := s.lists[c]] == s.lists;
    WorkAt(s.lists, s.slots, c, s2.lists[c], s2.slots[c]);
  }

  lemma {:induction false} DropShorter(l: seq<Id>, id: Id)
    ensures |Drop(l, id)| <= |l|
  {
    if l != [] {
      DropShorter(l[1..], id);
    }
  }

  lemma {:induction false} WorkLess(lists: seq<seq<Id>>, lists2: seq<seq<Id>>, slots: seq<Slot>)
    requires |lists| == |lists2| == |slots| && forall c | 0 <= c < |lists| :: |lists2[c]| <= |lists[c]|
    ensures Work(lists2, slots) <= Work(lists, slots)
  {
    if lists != [] {
      WorkLess(lists[1..], lists2[1..], slots[1..]);
    }
  }

  /** No step but the start of a call makes work. */
  lemma NoNewWork(s: State, a: Act, s2: State)
    requires Inv(s) && Next(s, a, s2) && !a.Post?
    ensures |s2.lists| == |s2.slots|
    ensures Work(s2.lists, s2.slots) + (if IsWork(a) then 1 else 0) <= Work(s.lists, s.slots)
  {
    hide CallsOk, Work, Drop;
    if IsWork(a) {
      StepsRunOut(s, a, s2);
    } else if a.Unlink? {
      forall c | 0 <= c < |s.lists| ensures |s2.lists[c]| <= |s.lists[c]| {
        DropShorter(s.lists[c], a.id);
      }
      WorkLess(s.lists, s2.lists, s.slots);
    }
  }

  /** The steps of processors among the acts from i up to n. */
  function WorkDone(acts: seq<Act>, i: nat, n: nat): (k: nat)
    requires i <= n <= |acts|
  {
    if i == n then 0 else WorkDone(acts, i, n - 1) + if IsWork(acts[n - 1]) then 1 else 0
  }

  /** Without new calls no more steps of processors follow than there is work. */
  lemma {:induction false} WorkBounds(acts: seq<Act>, states: seq<State>, i: nat, n: nat)
    requires IsRun(acts, states) && i <= n < |states| && forall j | i <= j < n :: !acts[j].Post?
    ensures |states[i].lists| == |states[i].slots| && |states[n].lists| == |states[n].slots|
    ensures WorkDone(acts, i, n) + Work(states[n].lists, states[n].slots) <= Work(states[i].lists, states[i].slots)
    decreases n
  {
    hide CallsOk, Work, Next;
    RunKeeps(acts, states, i);
    RunKeeps(acts, states, n);
    if i < n {
      WorkBounds(acts, states, i, n - 1);
      RunKeeps(acts, states, n - 1);
      NoNewWork(states[n - 1], acts[n - 1], states[n]);
    }
  }

  /** When that many have been made no caller waits for anybody: whoever is in the wait loop will leave it. */
  lemma WaitingEnds(acts: seq<Act>, states: seq<State>, i: nat, n: nat, id: Id)
    requires IsRun(acts, states) && i <= n < |states| && forall j | i <= j < n :: !acts[j].Post?
    requires |states[i].lists| == |states[i].slots| && WorkDone(acts, i, n) == Work(states[i].lists, states[i].slots)
    requires id in states[n].calls && states[n].calls[id].phase in {Waiting, Loaded}
    ensures states[n].calls[id].outstanding * states[n].online == {}
  {
    hide CallsOk, Work, Next;
    WorkBounds(acts, states, i, n);
    if states[n].calls[id].outstanding * states[n].online != {} {
      WaitsForAStep(acts, states, n, id);
      RunKeeps(acts, states, n);
      var c, s2: State :|
        Next(states[n], Dequeue(c), s2) || Next(states[n], Execute(c), s2) || Next(states[n], Acknowledge(c), s2);
      if Next(states[n], Dequeue(c), s2) {
        StepsRunOut(states[n], Dequeue(c), s2);
      } else if Next(states[n], Execute(c), s2) {
        StepsRunOut(states[n], Execute(c), s2);
      } else {
        StepsRunOut(states[n], Acknowledge(c), s2);
      }
    }
  }

  // ---------------------------------------------------------------- the loops

  class Mp {
    var calls: map<Id, Call>
    var lists: seq<seq<Id>>
    var slots: seq<Slot>
    var online: set<Cpu>

    ghost function Snap(): State
      reads this
    {
      State(calls, lists, slots, online)
    }

    /** The loop of mp_sync_exec that puts a node into the list of each target. */
    method EnqueueTasks(id: Id)
      requires Inv(Snap()) && id in calls && calls[id].phase == Chosen
      modifies `calls, `lists
      ensures Next(old(Snap()), Post(id), Snap()) && Inv(Snap())
    {
      hide Inv;
      PostKeeps(Snap(), id);
      var targets := Others(calls[id]);
      calls := calls[id := calls[id].(phase := Posted, outstanding := targets)];
      var remaining := targets;
      var c := 0;
      while remaining != {} && c < |lists|
        invariant c <= |lists| == |old(lists)|
        invariant calls == old(calls)[id := old(calls[id]).(phase := Posted, outstanding := targets)]
        invariant remaining <= targets && forall x | x in targets :: x in remaining <==> x >= c
        invariant forall x | 0 <= x < |lists| ::
                    lists[x] == if x < c && x in targets then old(lists[x]) + [id] else old(lists[x])
      {
        if c in remaining {
          lists := lists[c := lists[c] + [id]];
          remaining := remaining - {c};
        }
        c := c + 1;
      }
      assert lists == Enqueued(old(lists), targets, id);
    }

    /** The loop of mp_sync_exec that takes whatever nodes are left out of the lists. */
    method UnlinkTasks(id: Id)
      requires Inv(Snap()) && id in calls && calls[id].phase == Leaving
      modifies `calls, `lists
      ensures Next(old(Snap()), Unlink(id), Snap()) && Inv(Snap())
    {
      hide CallsOk;
      UnlinkKeeps(Snap(), id);
      calls := calls[id := calls[id].(phase := Returned)];
      for c := 0 to |lists|
        invariant |lists| == |old(lists)| && calls == old(calls)[id := old(calls[id]).(phase := Returned)]
        invariant forall x | 0 <= x < |lists| :: lists[x] == if x < c then Drop(old(lists[x]), id) else old(lists[x])
      {
        if id in lists[c] {
          lists := lists[c := Drop(lists[c], id)];
        }
      }
      assert lists == Unlinked(old(lists), id);
    }

    /** One round of mp_mbx_generic_irq: take the first node, run its task, clear the bit. */
    method ServeOne(c: Cpu)
      requires Inv(Snap()) && c in online && c < |lists| == |slots|
      requires slots[c] == Free && lists[c] != [] && lists[c][0] in calls
      modifies `calls, `lists, `slots
      ensures Inv(Snap()) && slots == old(slots) && lists == old(lists)[c := old(lists[c])[1..]]
      ensures
        var id := old(lists[c][0]);
        calls == old(calls)[id := Served(old(calls[id]), c)]
    {
      hide Inv;
      DequeueKeeps(Snap(), c);
      var id := lists[c][0];
      slots := slots[c := Holds(id, false)];
      lists := lists[c := lists[c][1..]];
      ExecuteKeeps(Snap(), c);
      calls := calls[id := calls[id].(ran := calls[id].ran + multiset{c})];
      slots := slots[c := Holds(id, true)];
      AcknowledgeKeeps(Snap(), c);
      calls := calls[id := calls[id].(outstanding := calls[id].outstanding - {c})];
      slots := slots[c := Free];
    }

    /** mp_mbx_generic_irq, when nobody else runs meanwhile: every node of the list is taken and its task run once. */
    method GenericIrq(c: Cpu)
      requires Inv(Snap()) && c in online && c < |slots| && slots[c] == Free
      modifies `calls, `lists, `slots
      ensures Inv(Snap()) && c < |old(lists)| && lists == old(lists)[c := []] && slots == old(slots)
      ensures calls == map id | id in old(calls) ::
                         if id in old(lists[c]) then Served(old(calls)[id], c) else old(calls)[id]
    {
      hide CallsOk;
      ghost var n := 0;
      while lists[c] != []
        invariant Inv(Snap()) && slots == old(slots) && calls.Keys == old(calls).Keys
        invariant n <= |old(lists[c])| && lists == old(lists)[c := old(lists[c])[n..]]
        invariant forall id | id in calls ::
                    calls[id] == if id in old(lists[c])[..n] then Served(old(calls)[id], c) else old(calls)[id]
        decreases |lists[c]|
      {
        assert lists[c][0] in lists[c] && lists[c][0] == old(lists[c])[n];
        Distinct(old(lists[c]), n);
        ServeOne(c);
        n := n + 1;
      }
      assert old(lists[c])[..n] == old(lists[c]);
    }
  }

  function Served(call: Call, c: Cpu): (r: Call) {
    call.(ran := call.ran + multiset{c}, outstanding := call.outstanding - {c})
  }

  lemma Distinct(l: seq<Id>, n: nat)
    requires NoDup(l) && n < |l|
    ensures l[n] !in l[..n] && l[..n + 1] == l[..n] + [l[n]] && l[n..][1..] == l[n + 1..]
  {
  }

  // ---------------------------------------------------------------- who goes offline, and in what order tasks run

  lemma OnlineAfter(s: State, a: Act, s2: State)
    requires Next(s, a, s2)
    ensures s2.online == if a.GoOffline? then s.online - {a.c} else s.online
  {
    hide Enqueued, Unlinked, Others;
  }

  /** A processor that has gone offline does no work any more: it takes no node, and the tasks posted to it are not
      run. */
  lemma {:induction false} OfflineRests(acts: seq<Act>, states: seq<State>, i: nat, k: nat, id: Id, c: Cpu)
    requires IsRun(acts, states) && i <= k < |states| && c < |states[i].slots| && c !in states[i].online
    requires id in states[i].calls && states[i].calls[id].local != c
    ensures c !in states[k].online && c < |states[k].slots| && states[k].slots[c] == Free
    ensures
      && id in states[k].calls && states[k].calls[id].local == states[i].calls[id].local
      && states[k].calls[id].ran[c] == states[i].calls[id].ran[c]
    decreases k
  {
    hide Next, CallsOk, Init;
    RunKeeps(acts, states, k);
    if i < k {
      OfflineRests(acts, states, i, k - 1, id, c);
      RunKeeps(acts, states, k - 1);
      OfflineStep(states[k - 1], acts[k - 1], states[k], id, c);
    }
  }

  lemma OfflineStep(s: State, a: Act, s2: State, id: Id, c: Cpu)
    requires Next(s, a, s2) && c < |s.slots| && s.slots[c] == Free && c !in s.online
    requires id in s.calls && s.calls[id].local != c
    ensures c !in s2.online && c < |s2.slots| && s2.slots[c] == Free
    ensures id in s2.calls && s2.calls[id].local == s.calls[id].local && s2.calls[id].ran[c] == s.calls[id].ran[c]
  {
    hide Enqueued, Unlinked, Others;
  }

  lemma {:induction false} TurnDropped(l: seq<Id>, id: Id)
    requires NoDup(l)
    ensures InTurn(l, Drop(l, id))
  {
    hide InTurn;
    TurnSame(l);
    if id in l {
      DropWithout(l, id);
      TurnRemoved(l, Index(l, id));
    }
  }

  lemma {:induction false} DropWithout(l: seq<Id>, id: Id)
    requires NoDup(l) && id in l
    ensures Drop(l, id) == Without(l, id)
  {
    if l[0] == id {
      assert l[1..] == Without(l, id);
    } else {
      DropWithout(l[1..], id);
      assert Without(l, id) == [l[0]] + Without(l[1..], id);
    }
  }

  /** In no list does a node overtake another, and a processor takes the first of its own. */
  lemma ListsInTurn(s: State, a: Act, s2: State, c: Cpu, id: Id)
    requires Inv(s) && Next(s, a, s2) && c < |s.lists| && !Has(s.slots[c], id)
    ensures c < |s2.lists| && c < |s2.slots| && InTurn(s.lists[c], s2.lists[c])
    ensures Has(s2.slots[c], id) ==> s.lists[c] != [] && s.lists[c][0] == id
  {
    hide InTurn, NoDup, Drop, CallOk;
    TurnSame(s.lists[c]);
    match a
    case Post(x) =>
      if c in Others(s.calls[x]) {
        NotPostedYet(s, x, c);
        TurnAppended(s.lists[c], x);
      }
    case Unlink(x) => TurnDropped(s.lists[c], x);
    case Dequeue(d) =>
      if d == c {
        TurnTail(s.lists[c]);
      }
    case _ =>
  }

  lemma NotPostedYet(s: State, id: Id, c: Cpu)
    requires Inv(s) && id in s.calls && s.calls[id].phase == Chosen && c < |s.lists|
    ensures id !in s.lists[c]
  {
    assert CallOk(s, id, s.calls[id]);
    assert Token(id, s.calls[id], c, s.lists[c], s.slots[c], c in s.online);
  }

  /** Over every run a processor takes its tasks in the order in which they were posted: while the node of call a is in
      its list, it takes no node that is not in front of that one. */
  lemma {:induction false} TasksInOrder(acts: seq<Act>, states: seq<State>, i: nat, k: nat, c: Cpu, a: Id, b: Id)
    requires IsRun(acts, states) && i <= k < |states| && a != b
    requires forall j | i <= j <= k :: c < |states[j].lists| && a in states[j].lists[c]
    requires c < |states[i].slots| && !Has(states[i].slots[c], b) && !InFront(states[i].lists[c], b, a)
    ensures c < |states[k].slots| && !Has(states[k].slots[c], b) && !InFront(states[k].lists[c], b, a)
    decreases k
  {
    hide Next, Init, InTurn, InFront, NoDup, CallsOk;
    if i < k {
      TasksInOrder(acts, states, i, k - 1, c, a, b);
      var s, s2 := states[k - 1], states[k];
      RunKeeps(acts, states, k - 1);
      RunKeeps(acts, states, k);
      assert c < |s.lists| && a in s.lists[c];
      ListsInTurn(s, acts[k - 1], s2, c, b);
      if s.lists[c][0] == b {
        FirstInFront(s.lists[c], a);
      }
      StaysBehind(s.lists[c], s2.lists[c], a, b);
    }
  }
}
