/** The codec driver on the rings, step by step with the hardware: how many responses can ever be waiting. */
module HdaSystem {

  import opened HdaCodec
  import opened HdaRings

  // ---------------------------------------------------------------- the longest list

  function Longest(l: seq<nat>): (n: nat) {
    if l == [] then 0 else if l[0] > Longest(l[1..]) then l[0] else Longest(l[1..])
  }

  /** The most commands the driver ever has in flight: those of the longest list of the enumeration. */
  function Burst(tree: seq<Group>): (n: nat) {
    Longest(AllLists(tree))
  }

  lemma LongestCons(n: nat, l: seq<nat>)
    ensures Longest([n] + l) >= n && Longest([n] + l) >= Longest(l)
    ensures Longest([n] + l) == n || Longest([n] + l) == Longest(l)
  {
    assert ([n] + l)[1..] == l;
  }

  lemma {:induction false} LongestAt(l: seq<nat>) returns (k: nat)
    requires Longest(l) > 0
    ensures k < |l| && l[k] == Longest(l)
  {
    if l[0] == Longest(l) {
      k := 0;
    } else {
      var j := LongestAt(l[1..]);
      k := j + 1;
    }
  }

  lemma LongestWidget(w: Widget, rest: seq<nat>)
    ensures Longest(WidgetLists(w, rest)) >= Longest(Before(ConnCmds(w), rest)) >= Longest(rest)
  {
    hide CapsCmds, ConnCmds, Longest;
    LongestCons(ConnCmds(w), rest);
    LongestCons(|CapsCmds(w.kind)|, Before(ConnCmds(w), rest));
  }

  lemma {:induction false} LongestWidgets(ws: seq<Widget>, w: nat, rest: seq<nat>)
    requires w <= |ws|
    ensures Longest(WidgetsLists(ws, rest)) >= Longest(WidgetsLists(ws[w..], rest)) >= Longest(rest)
    decreases |ws|
  {
    hide Longest, WidgetLists;
    if ws == [] {
      assert ws[w..] == ws;
    } else {
      LongestWidgets(ws[1..], if w == 0 then 0 else w - 1, rest);
      assert w > 0 ==> ws[w..] == ws[1..][w - 1..];
      assert w == 0 ==> ws[w..] == ws && ws[1..][0..] == ws[1..];
      LongestWidget(ws[0], WidgetsLists(ws[1..], rest));
      LongestCons(|ID_WIDGET_CMDS|, WidgetLists(ws[0], WidgetsLists(ws[1..], rest)));
    }
  }

  lemma LongestGroup(g: Group, rest: seq<nat>)
    ensures Longest(GroupLists(g, rest)) >= Longest(rest)
  {
    hide Longest, WidgetsLists;
    if g.Audio? {
      LongestWidgets(g.widgets, 0, rest);
      assert g.widgets[0..] == g.widgets;
      LongestCons(|AFG_CMDS|, WidgetsLists(g.widgets, rest));
    }
  }

  lemma {:induction false} LongestGroups(tree: seq<Group>, g: nat)
    requires g <= |tree|
    ensures Longest(GroupsLists(tree)) >= Longest(GroupsLists(tree[g..]))
    decreases |tree|
  {
    hide Longest, GroupLists;
    if g == 0 {
      assert tree[g..] == tree;
    } else {
      LongestGroups(tree[1..], g - 1);
      assert tree[g..] == tree[1..][g - 1..];
      LongestGroup(tree[0], GroupsLists(tree[1..]));
      LongestCons(|ID_GROUP_CMDS|, GroupLists(tree[0], GroupsLists(tree[1..])));
    }
  }

  /** The lists of the groups from g on, taken apart. */
  lemma FromGroup(tree: seq<Group>, g: nat)
    requires g < |tree|
    ensures Burst(tree) >= Longest([|ID_GROUP_CMDS|] + GroupLists(tree[g], GroupsLists(tree[g + 1..])))
    ensures Burst(tree) >= Longest(GroupLists(tree[g], GroupsLists(tree[g + 1..])))
  {
    hide Longest, GroupLists;
    var here := GroupLists(tree[g], GroupsLists(tree[g + 1..]));
    LongestCons(|ROOT_CMDS|, GroupsLists(tree));
    LongestGroups(tree, g);
    assert tree[g..][0] == tree[g] && tree[g..][1..] == tree[g + 1..];
    LongestCons(|ID_GROUP_CMDS|, here);
  }

  lemma FromWidget(tree: seq<Group>, g: nat, w: nat)
    requires g < |tree| && tree[g].Audio? && w < |tree[g].widgets|
    ensures
      var later := WidgetsLists(tree[g].widgets[w + 1..], GroupsLists(tree[g + 1..]));
      && Burst(tree) >= Longest([|ID_WIDGET_CMDS|] + WidgetLists(tree[g].widgets[w], later))
      && Burst(tree) >= Longest(WidgetLists(tree[g].widgets[w], later))
      && Burst(tree) >= Longest(Before(ConnCmds(tree[g].widgets[w]), later))
  {
    hide Longest, WidgetLists, Burst, GroupsLists, Before, ConnCmds;
    var ws, rest := tree[g].widgets, GroupsLists(tree[g + 1..]);
    var later := WidgetsLists(ws[w + 1..], rest);
    FromGroup(tree, g);
    LongestCons(|AFG_CMDS|, WidgetsLists(ws, rest));
    LongestWidgets(ws, w, rest);
    assert ws[w..][0] == ws[w] && ws[w..][1..] == ws[w + 1..];
    LongestCons(|ID_WIDGET_CMDS|, WidgetLists(ws[w], later));
    LongestWidget(ws[w], later);
  }

  lemma ListsBound(tree: seq<Group>, s: State)
    requires Inv(tree, s)
    ensures Longest(Lists(tree, s)) <= Burst(tree)
  {
    hide FoundOf, VisitsBefore, FoundOfWidget, CapsCmds, WidgetLists, WidgetsLists, GroupsLists, Longest, Burst;
    match s.rx
    case NoHandler => EmptyLongest();
    case CmdList =>
      match s.stage {
        case RootStage => RootLongest(tree);
        case IdGroup => FromGroup(tree, s.group);
        case Afg => FromGroup(tree, s.group);
        case IdWidget => FromWidget(tree, s.group, s.widget);
        case Caps =>
          FromWidget(tree, s.group, s.widget);
          CapsLists(HwWidget(tree, s), LaterLists(tree, s));
      }
    case ConnList =>
      FromWidget(tree, s.group, s.widget);
      ConnLists(HwWidget(tree, s), LaterLists(tree, s));
  }

  lemma EmptyLongest()
    ensures Longest([]) == 0
  {
  }

  lemma RootLongest(tree: seq<Group>)
    ensures Longest([|ROOT_CMDS|] + GroupsLists(tree)) == Burst(tree)
  {
  }

  lemma CapsLists(w: Widget, rest: seq<nat>)
    requires CapsCmds(w.kind) != []
    ensures WidgetLists(w, rest) == [|CapsCmds(w.kind)|] + Before(ConnCmds(w), rest)
  {
    hide CapsCmds;
  }

  lemma ConnLists(w: Widget, rest: seq<nat>)
    requires ConnectionListLen in CapsCmds(w.kind) && w.hasConns && |w.conns| > 0
    ensures Before(ConnCmds(w), rest) == [Chunks(|w.conns|, Chunk(w.longForm))] + rest
  {
    hide CapsCmds;
    CapsAsk(w.kind, ConnectionListLen);
  }

  // ---------------------------------------------------------------- commands in flight

  lemma {:induction false} ChunksCount(n: int, c: nat, k: nat)
    requires c > 0
    ensures c * k < n + c ==> k <= Chunks(n, c) || n <= 0
    ensures k < Chunks(n, c) ==> c * k < n
    decreases k
  {
    if k > 0 && n > 0 {
      ChunksCount(n - c, c, k - 1);
      assert c * k == c * (k - 1) + c;
    }
  }

  /** No more commands are in flight than the list at hand is long. */
  lemma FlightBound(tree: seq<Group>, s: State)
    requires Inv(tree, s)
    ensures |s.inFlight| <= if Lists(tree, s) == [] then 0 else Lists(tree, s)[0]
  {
    hide Known, WidgetsOk, CapsCmds, ListsAfter, LaterLists, Complete;
    match s.rx
    case NoHandler => NothingLeft(tree, s);
    case CmdList =>
    case ConnList =>
      var w := HwWidget(tree, s);
      ChunksCount(|w.conns|, Chunk(w.longForm), |s.inFlight|);
  }

  lemma NothingLeft(tree: seq<Group>, s: State)
    requires Complete(tree, s)
    ensures s.inFlight == []
  {
  }

  /** In every state of the driver: never more than the longest list. */
  lemma BurstBound(tree: seq<Group>, s: State)
    requires Inv(tree, s)
    ensures |s.inFlight| <= Burst(tree)
  {
    hide Inv, Lists, Burst;
    FlightBound(tree, s);
    ListsBound(tree, s);
    if Lists(tree, s) != [] {
      var l := Lists(tree, s);
      assert l == [l[0]] + l[1..];
      LongestCons(l[0], l[1..]);
    }
  }

  predicate NoneReceived(s: State) {
    match s.rx
    case NoHandler => true
    case CmdList => s.rxNdx == 0
    case ConnList => s.connRx == 0
  }

  /** Until the list at hand is all in flight there is a command to send. */
  lemma CanSend(tree: seq<Group>, s: State)
    requires Inv(tree, s) && NoneReceived(s) && Lists(tree, s) != [] && |s.inFlight| < Lists(tree, s)[0]
    ensures s.tx != NoHandler && (s.tx == CmdList ==> s.txNdx < |s.cmds|) && (s.tx == ConnList ==> AtWidget(s))
    ensures Inv(tree, Send(s)) && NoneReceived(Send(s)) && Lists(tree, Send(s)) == Lists(tree, s)
    ensures Next(tree, s, Sends, Send(s)) && |Send(s).inFlight| == |s.inFlight| + 1
  {
    hide Known, WidgetsOk, CapsCmds, ListsAfter, LaterLists, Complete;
    if s.rx == ConnList {
      var w := HwWidget(tree, s);
      ChunksCount(|w.conns|, Chunk(w.longForm), |s.inFlight|);
      WidgetAt(tree, s);
    }
    SendLeft(tree, s);
  }

  /** A driver with nothing in flight and work to do sends a command and takes the answer. */
  lemma OneExchange(tree: seq<Group>, s: State) returns (s1: State, s2: State)
    requires Inv(tree, s) && s.inFlight == [] && s.rx != NoHandler
    ensures Next(tree, s, Sends, s1) && Next(tree, s1, Receives, s2) && |s1.inFlight| == 1 && s2.inFlight == []
    ensures Inv(tree, s2) && Left(tree, s2) < Left(tree, s) && ListStep(tree, s, s2)
  {
    hide Left, Lists, Answer, ReceiveCmd, ReceiveConns;
    Unfinished(tree, s);
    s1 := Send(s);
    SendLeft(tree, s);
    if s1.rx == CmdList {
      ReceiveCmdLeft(tree, s1);
      Receivable(tree, s1);
      s2 := ReceiveCmd(s1, Answer(tree, s1.inFlight[0]));
    } else {
      ReceiveConnsLeft(tree, s1);
      s2 := ReceiveConns(s1, Answer(tree, s1.inFlight[0]));
    }
    ReceivesHead(tree, s1, s2);
  }

  lemma Unfinished(tree: seq<Group>, s: State)
    requires Inv(tree, s) && s.inFlight == [] && s.rx != NoHandler
    ensures s.tx != NoHandler && (s.tx == CmdList ==> s.txNdx < |s.cmds|) && (s.tx == ConnList ==> AtWidget(s))
    ensures |Send(s).inFlight| == 1 && Send(s).rx == s.rx
  {
    hide Known, WidgetsOk, CapsCmds;
    if s.rx == ConnList {
      WidgetAt(tree, s);
    }
  }

  lemma Receivable(tree: seq<Group>, s: State)
    requires Inv(tree, s) && s.rx == CmdList
    ensures s.rxNdx < |s.cmds|
  {
    hide Known;
  }

  // ---------------------------------------------------------------- driver, rings and hardware together

  /** `snap` counts the responses copied out of the ring and not yet handed to the driver. */
  datatype System = System(s: State, t: Traffic, snap: nat)

  datatype Action = Rings(m: Move) | Receive

  ghost predicate SysNext(tree: seq<Group>, x: System, a: Action, y: System) {
    match a
    case Receive => x.snap > 0 && Next(tree, x.s, Receives, y.s) && y.t == x.t && y.snap == x.snap - 1
    case Rings(m) =>
      && Enabled(x.t, m) && y.t == Moved(x.t, m)
      && (if m == PutCmd then Next(tree, x.s, Sends, y.s) else y.s == x.s)
      && (if m == CollectAll then x.snap == 0 && y.snap == x.t.answered else y.snap == x.snap)
  }

  function Begin(limit: nat, room: nat): (x: System) {
    System(Start(), Traffic(limit, room, 0, 0, 0, 0), 0)
  }

  /** The driver waits for exactly the commands that are somewhere on their way. */
  ghost predicate SysInv(tree: seq<Group>, x: System) {
    Inv(tree, x.s) && |x.s.inFlight| == Total(x.t) + x.snap
  }

  lemma SysKeeps(tree: seq<Group>, x: System, a: Action, y: System)
    requires SysInv(tree, x) && SysNext(tree, x, a, y)
    ensures SysInv(tree, y) && y.t.room == x.t.room && y.t.limit == x.t.limit
  {
    hide Inv, Next;
    if a == Receive {
      StepKeeps(tree, x.s, Receives, y.s);
      ReceivesHead(tree, x.s, y.s);
    } else if a.m == PutCmd {
      StepKeeps(tree, x.s, Sends, y.s);
      SendsOneMore(tree, x.s, y.s);
    }
  }

  /** A run in which the response ring has not overrun before the last state. */
  ghost predicate IsSysRun(tree: seq<Group>, limit: nat, room: nat, acts: seq<Action>, xs: seq<System>) {
    && |xs| == |acts| + 1 && xs[0] == Begin(limit, room)
    && forall i | 0 <= i < |acts| :: SysNext(tree, xs[i], acts[i], xs[i + 1]) && xs[i].t.answered <= room
  }

  lemma {:induction false} SysRunKeeps(tree: seq<Group>, limit: nat, room: nat, acts: seq<Action>, xs: seq<System>,
                                       i: nat)
    requires IsSysRun(tree, limit, room, acts, xs) && i < |xs|
    ensures SysInv(tree, xs[i]) && xs[i].t.room == room && xs[i].t.limit == limit
    ensures Total(xs[i].t) + xs[i].snap <= Burst(tree)
  {
    hide SysNext, Burst, Inv;
    if i == 0 {
      StartInv(tree);
    } else {
      SysRunKeeps(tree, limit, room, acts, xs, i - 1);
      SysKeeps(tree, xs[i - 1], acts[i - 1], xs[i]);
    }
    BurstBound(tree, xs[i].s);
  }

  ghost predicate Reaches(tree: seq<Group>, limit: nat, room: nat, x: System) {
    exists acts, xs :: IsSysRun(tree, limit, room, acts, xs) && xs[|acts|] == x
  }

  ghost predicate Overruns(tree: seq<Group>, limit: nat, room: nat) {
    exists x :: Reaches(tree, limit, room, x) && x.t.answered > room
  }

  lemma ReachBegin(tree: seq<Group>, limit: nat, room: nat)
    ensures Reaches(tree, limit, room, Begin(limit, room))
  {
    assert IsSysRun(tree, limit, room, [], [Begin(limit, room)]);
  }

  lemma ReachNext(tree: seq<Group>, limit: nat, room: nat, x: System, a: Action, y: System)
    requires Reaches(tree, limit, room, x) && x.t.answered <= room && SysNext(tree, x, a, y)
    ensures Reaches(tree, limit, room, y)
  {
    hide SysNext;
    var acts, xs :| IsSysRun(tree, limit, room, acts, xs) && xs[|acts|] == x;
    var acts2, xs2 := acts + [a], xs + [y];
    forall i | 0 <= i < |acts2| ensures SysNext(tree, xs2[i], acts2[i], xs2[i + 1]) && xs2[i].t.answered <= room {
      if i < |acts| {
        assert xs2[i] == xs[i] && xs2[i + 1] == xs[i + 1] && acts2[i] == acts[i];
      }
    }
    assert IsSysRun(tree, limit, room, acts2, xs2);
  }

  /** Nothing is on its way. */
  predicate AtRest(x: System, limit: nat, room: nat) {
    x.snap == 0 && x.s.inFlight == [] && x.t == Traffic(limit, room, x.t.space, 0, 0, 0)
  }

  /** One command is sent, fetched, answered and its response received. */
  lemma OneByOne(tree: seq<Group>, limit: nat, room: nat, x: System) returns (y: System)
    requires Reaches(tree, limit, room, x) && AtRest(x, limit, room) && limit > 0 && room > 0
    requires Inv(tree, x.s) && x.s.rx != NoHandler
    ensures Reaches(tree, limit, room, y) && AtRest(y, limit, room) && Inv(tree, y.s)
    ensures Left(tree, y.s) < Left(tree, x.s) && ListStep(tree, x.s, y.s)
  {
    hide Inv, Left, ListStep, Next, Reaches;
    var s1, s2 := OneExchange(tree, x.s);
    var x1 := System(x.s, Moved(x.t, LookAtCorb), 0);
    ReachNext(tree, limit, room, x, Rings(LookAtCorb), x1);
    var x2 := System(s1, Moved(x1.t, PutCmd), 0);
    ReachNext(tree, limit, room, x1, Rings(PutCmd), x2);
    var x3 := System(s1, Moved(x2.t, FetchCmd), 0);
    ReachNext(tree, limit, room, x2, Rings(FetchCmd), x3);
    var x4 := System(s1, Moved(x3.t, Reply), 0);
    ReachNext(tree, limit, room, x3, Rings(Reply), x4);
    var x5 := System(s1, Moved(x4.t, CollectAll), 1);
    ReachNext(tree, limit, room, x4, Rings(CollectAll), x5);
    y := System(s2, x5.t, 0);
    ReachNext(tree, limit, room, x5, Receive, y);
  }

  /** A list can be worked off without ever having more than one response in the ring. */
  lemma {:induction false} WorkOff(tree: seq<Group>, limit: nat, room: nat, x: System) returns (y: System)
    requires Reaches(tree, limit, room, x) && AtRest(x, limit, room) && limit > 0 && room > 0
    requires Inv(tree, x.s) && Lists(tree, x.s) != []
    ensures Reaches(tree, limit, room, y) && AtRest(y, limit, room) && Inv(tree, y.s) && Unstarted(y.s)
    ensures Lists(tree, y.s) == Lists(tree, x.s)[1..]
    decreases Left(tree, x.s)
  {
    hide Inv, Left, Reaches, AtRest;
    HasHandler(tree, x.s);
    var z := OneByOne(tree, limit, room, x);
    if Lists(tree, z.s) == Lists(tree, x.s) {
      y := WorkOff(tree, limit, room, z);
    } else {
      y := z;
    }
  }

  lemma HasHandler(tree: seq<Group>, s: State)
    requires Inv(tree, s) && Lists(tree, s) != []
    ensures s.rx != NoHandler
  {
    hide Known, ConnsOk, ConnFlow, ListsAfter, LaterLists;
  }

  lemma {:induction false} ReachList(tree: seq<Group>, limit: nat, room: nat, k: nat) returns (x: System)
    requires limit > 0 && room > 0 && k < |AllLists(tree)|
    ensures Reaches(tree, limit, room, x) && AtRest(x, limit, room) && Inv(tree, x.s) && Unstarted(x.s)
    ensures Lists(tree, x.s) == AllLists(tree)[k..]
  {
    hide Inv, Lists, AllLists, Reaches, Left;
    if k == 0 {
      x := Begin(limit, room);
      ReachBegin(tree, limit, room);
      StartLeft(tree);
      assert AllLists(tree)[0..] == AllLists(tree);
    } else {
      var z := ReachList(tree, limit, room, k - 1);
      assert AllLists(tree)[k - 1..][1..] == AllLists(tree)[k..];
      x := WorkOff(tree, limit, room, z);
    }
  }

  /** The commands of a list can all be with the codec, none of them answered. */
  lemma {:induction false} AllFetched(tree: seq<Group>, limit: nat, room: nat, x: System, j: nat) returns (y: System)
    requires Reaches(tree, limit, room, x) && AtRest(x, limit, room) && limit > 0
    requires Inv(tree, x.s) && Unstarted(x.s) && Lists(tree, x.s) != [] && j <= Lists(tree, x.s)[0]
    ensures Reaches(tree, limit, room, y) && y.snap == 0
    ensures y.t == Traffic(limit, room, y.t.space, 0, j, 0) && |y.s.inFlight| == j
    ensures Inv(tree, y.s) && NoneReceived(y.s) && Lists(tree, y.s) == Lists(tree, x.s)
    decreases j
  {
    hide Inv, Lists, Reaches, Next;
    if j == 0 {
      y := x;
    } else {
      var z := AllFetched(tree, limit, room, x, j - 1);
      CanSend(tree, z.s);
      var x1 := System(z.s, Moved(z.t, LookAtCorb), 0);
      ReachNext(tree, limit, room, z, Rings(LookAtCorb), x1);
      var x2 := System(Send(z.s), Moved(x1.t, PutCmd), 0);
      ReachNext(tree, limit, room, x1, Rings(PutCmd), x2);
      y := System(x2.s, Moved(x2.t, FetchCmd), 0);
      ReachNext(tree, limit, room, x2, Rings(FetchCmd), y);
    }
  }

  lemma {:induction false} AllAnswered(tree: seq<Group>, limit: nat, room: nat, x: System, j: nat) returns (y: System)
    requires Reaches(tree, limit, room, x) && x.t.answered == 0 && j <= x.t.fetched && j <= room + 1
    ensures Reaches(tree, limit, room, y) && y.t == x.t.(fetched := x.t.fetched - j, answered := j)
    ensures y.s == x.s && y.snap == x.snap
    decreases j
  {
    hide Reaches, Next;
    if j == 0 {
      y := x;
    } else {
      var z := AllAnswered(tree, limit, room, x, j - 1);
      y := System(z.s, Moved(z.t, Reply), z.snap);
      ReachNext(tree, limit, room, z, Rings(Reply), y);
    }
  }

  /** The response ring can overrun exactly when it is shorter than the longest list of the codec, whatever the limit on
      commands in flight. */
  lemma OverrunsIff(tree: seq<Group>, limit: nat, room: nat)
    requires limit > 0 && room > 0
    ensures Overruns(tree, limit, room) <==> Burst(tree) > room
  {
    hide Inv, Lists, Reaches, AllLists;
    if Burst(tree) > room {
      var k := LongestAt(AllLists(tree));
      var x := ReachList(tree, limit, room, k);
      assert AllLists(tree)[k..][0] == AllLists(tree)[k];
      var y := AllFetched(tree, limit, room, x, Burst(tree));
      var z := AllAnswered(tree, limit, room, y, room + 1);
      assert Reaches(tree, limit, room, z) && z.t.answered > room;
    } else if Overruns(tree, limit, room) {
      var x :| Reaches(tree, limit, room, x) && x.t.answered > room;
      NeverMore(tree, limit, room, x);
    }
  }

  lemma NeverMore(tree: seq<Group>, limit: nat, room: nat, x: System)
    requires Reaches(tree, limit, room, x)
    ensures Total(x.t) + x.snap <= Burst(tree)
  {
    hide SysNext, Burst;
    var acts, xs :| IsSysRun(tree, limit, room, acts, xs) && xs[|acts|] == x;
    SysRunKeeps(tree, limit, room, acts, xs, |acts|);
  }

  // ---------------------------------------------------------------- which rings are long enough

  lemma {:induction false} WidgetsUpTo(ws: seq<Widget>, rest: seq<nat>, m: nat)
    requires m >= 8 && Longest(rest) <= m && forall i | 0 <= i < |ws| :: ConnCmds(ws[i]) <= m
    ensures Longest(WidgetsLists(ws, rest)) <= m
    decreases |ws|
  {
    hide Longest, CapsCmds, ConnCmds;
    if ws != [] {
      WidgetsUpTo(ws[1..], rest, m);
      var later := WidgetsLists(ws[1..], rest);
      CapsShort(ws[0].kind);
      LongestCons(ConnCmds(ws[0]), later);
      LongestCons(|CapsCmds(ws[0].kind)|, Before(ConnCmds(ws[0]), later));
      LongestCons(|ID_WIDGET_CMDS|, WidgetLists(ws[0], later));
    }
  }

  lemma CapsShort(kind: Kind)
    ensures |CapsCmds(kind)| <= 8
  {
  }

  lemma {:induction false} GroupsUpTo(tree: seq<Group>, m: nat)
    requires m >= 8
    requires forall g, w | 0 <= g < |tree| && tree[g].Audio? && 0 <= w < |tree[g].widgets| ::
               ConnCmds(tree[g].widgets[w]) <= m
    ensures Longest(GroupsLists(tree)) <= m
    decreases |tree|
  {
    hide Longest, ConnCmds, WidgetsLists;
    if tree == [] {
      EmptyLongest();
    } else {
      GroupsUpTo(tree[1..], m);
      var rest := GroupsLists(tree[1..]);
      if tree[0].Audio? {
        WidgetsUpTo(tree[0].widgets, rest, m);
        LongestCons(|AFG_CMDS|, WidgetsLists(tree[0].widgets, rest));
      }
      LongestCons(|ID_GROUP_CMDS|, GroupLists(tree[0], rest));
    }
  }

  /** Connection lists have at most 127 entries, seven bits: a response ring of 256 entries never overruns. */
  lemma LargeRingFits(tree: seq<Group>, limit: nat)
    requires limit > 0
    requires forall g, w | 0 <= g < |tree| && tree[g].Audio? && 0 <= w < |tree[g].widgets| ::
               |tree[g].widgets[w].conns| <= 127
    ensures Burst(tree) <= 64 && !Overruns(tree, limit, 255)
  {
    hide GroupsLists, Overruns, Longest;
    forall g, w | 0 <= g < |tree| && tree[g].Audio? && 0 <= w < |tree[g].widgets|
      ensures ConnCmds(tree[g].widgets[w]) <= 64
    {
      ConnsUpTo(tree[g].widgets[w]);
    }
    GroupsUpTo(tree, 64);
    LongestCons(|ROOT_CMDS|, GroupsLists(tree));
    OverrunsIff(tree, limit, 255);
  }

  lemma ConnsUpTo(w: Widget)
    requires |w.conns| <= 127
    ensures ConnCmds(w) <= 64
  {
    hide CapsCmds;
    ChunksCount(FoundOfWidget(w).connLen, Chunk(w.longForm), 64);
  }

  /** A mixer with 32 inputs in the long form. */
  function Mixer32(): (tree: seq<Group>) {
    [Audio([Widget(Mixer, true, true, seq(32, i => 0))])]
  }

  /** With a response ring of 16 entries its connection list is too long. */
  lemma SmallRingOverruns(limit: nat)
    requires limit > 0
    ensures Overruns(Mixer32(), limit, 15)
  {
    hide Overruns, Longest, WidgetLists;
    var tree := Mixer32();
    var w := tree[0].widgets[0];
    assert ConnectionListLen in CapsCmds(w.kind);
    ChunksCount(32, 2, 16);
    FromWidget(tree, 0, 0);
    LongestCons(ConnCmds(w), WidgetsLists(tree[0].widgets[1..], GroupsLists(tree[1..])));
    OverrunsIff(tree, limit, 15);
  }
}
