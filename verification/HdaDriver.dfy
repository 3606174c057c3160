/** The codec driver as it stands: one structure whose handler pointers, indices and iterators the callbacks change. */
module HdaDriver {

  import opened HdaCodec
  import opened HdaRings
  import opened HdaSystem

  class Codec {
    const dev: Device
    var rx: Handler                 // solicited_response_handler
    var tx: Handler                 // pending_work_handler
    var stage: Stage
    var cmds: seq<Param>
    var txNdx: nat
    var rxNdx: nat
    var fnGroupIter: int
    var widgetIter: int
    var connTx: nat
    var connRx: nat
    var groupCount: nat
    var groups: seq<Found>
    ghost var inFlight: seq<Cmd>
    ghost var visited: seq<(nat, nat)>

    ghost function Abs(): State
      reads this
    {
      State(rx, tx, stage, cmds, txNdx, rxNdx, fnGroupIter, widgetIter, connTx, connRx, groupCount, groups,
            inFlight, visited)
    }

    /** intel_hda_create_codec */
    constructor (dev0: Device)
      ensures dev == dev0 && Abs() == Start()
    {
      dev := dev0;
      rx, tx, stage, cmds, txNdx, rxNdx := CmdList, CmdList, RootStage, ROOT_CMDS, 0, 0;
      fnGroupIter, widgetIter, connTx, connRx, groupCount, groups := 0, 0, 0, 0, 0, [];
      inFlight, visited := [], [];
    }

    /** intel_hda_setup_cmd_list */
    method SetupCmdList(next: Stage, list: seq<Param>)
      modifies this
      ensures Abs() == Setup(old(Abs()), next, list)
    {
      txNdx, rxNdx, cmds, stage := 0, 0, list, next;
      rx, tx := CmdList, CmdList;
    }

    /** intel_hda_fetch_next_function_group */
    method FetchNextFunctionGroup()
      modifies this
      ensures Abs() == NextGroup(old(Abs()))
    {
      fnGroupIter := fnGroupIter + 1;
      if fnGroupIter < groupCount {
        SetupCmdList(IdGroup, ID_GROUP_CMDS);
      }
    }

    /** intel_hda_fetch_next_widget */
    method FetchNextWidget()
      requires AtAudio(Abs()) && widgetIter >= -1
      modifies this
      ensures Abs() == NextWidget(old(Abs()))
    {
      widgetIter := widgetIter + 1;
      if widgetIter < groups[fnGroupIter].count {
        SetupCmdList(IdWidget, ID_WIDGET_CMDS);
        visited := visited + [(fnGroupIter as nat, widgetIter as nat)];
        return;
      }
      FetchNextFunctionGroup();
    }

    /** intel_hda_fetch_widget_connection_list */
    method FetchWidgetConnectionList()
      requires AtWidget(Abs())
      modifies this
      ensures Abs() == FetchConns(old(Abs()))
    {
      var w := groups[fnGroupIter].widgets[widgetIter];
      if w.connLen != 0 {
        connTx, connRx := 0, 0;
        rx, tx := ConnList, ConnList;
        StoreWidget(w.(conns := seq(w.connLen, i => 0)));
      } else {
        FetchNextWidget();
      }
    }

    method StoreWidget(w: FoundWidget)
      requires AtWidget(Abs())
      modifies `groups
      ensures Abs() == SetWidget(old(Abs()), w)
    {
      var g := groups[fnGroupIter];
      groups := groups[fnGroupIter := g.(widgets := g.widgets[widgetIter := w])];
    }

    /** The finished handler of the list just worked off. */
    method Finished()
      requires stage == IdGroup ==> AtGroup(Abs())
      requires stage == Afg ==> AtAudio(Abs())
      requires stage in {IdWidget, Caps} ==> AtWidget(Abs())
      modifies this
      ensures Abs() == Finish(old(Abs()))
    {
      match stage {
        case RootStage =>
          if groupCount == 0 {
            return;
          }
          groups := seq(groupCount, i => NoGroup);
          fnGroupIter := -1;
          FetchNextFunctionGroup();
        case IdGroup =>
          if groups[fnGroupIter].FoundGroup? {
            SetupCmdList(Afg, AFG_CMDS);
          } else {
            FetchNextFunctionGroup();
          }
        case Afg =>
          var g := groups[fnGroupIter];
          groups := groups[fnGroupIter := g.(widgets := seq(g.count, i => BLANK))];
          widgetIter := -1;
          FetchNextWidget();
        case IdWidget =>
          var kind := groups[fnGroupIter].widgets[widgetIter].kind;
          if CapsCmds(kind) == [] {
            FetchNextWidget();
          } else {
            SetupCmdList(Caps, CapsCmds(kind));
          }
        case Caps => FetchWidgetConnectionList();
      }
    }

    /** intel_hda_tx_cmd_list and intel_hda_tx_fetch_conn_list: fill the ring as far as there is space. */
    method ProcessPendingWork(ghost tree: seq<Group>)
      requires Inv(tree, Abs()) && dev.Valid()
      modifies this, dev`corbWr, dev`space, dev`sent, dev.corb
      ensures Inv(tree, Abs()) && dev.Valid() && Abs() == SendMany(tree, old(Abs()), old(dev.space))
      ensures dev.sent == old(dev.sent) + inFlight[|old(inFlight)|..]
      ensures dev.space == old(dev.space) - (|inFlight| - |old(inFlight)|)
    {
      hide Inv, SendMany;
      if tx == CmdList {
        TxCmdList(tree);
      } else if tx == ConnList {
        TxFetchConnList(tree);
      } else {
        SendsNothing(tree, Abs(), dev.space);
      }
    }

    method TxCmdList(ghost tree: seq<Group>)
      requires Inv(tree, Abs()) && dev.Valid() && tx == CmdList
      modifies this, dev`corbWr, dev`space, dev`sent, dev.corb
      ensures Inv(tree, Abs()) && dev.Valid() && Abs() == SendMany(tree, old(Abs()), old(dev.space))
      ensures dev.sent == old(dev.sent) + inFlight[|old(inFlight)|..]
      ensures dev.space == old(dev.space) - (|inFlight| - |old(inFlight)|)
    {
      hide Inv, SendMany, Device.Valid;
      ghost var s0 := Abs();
      ghost var room := dev.space;
      CmdListFlow(tree, Abs());
      while dev.space > 0 && txNdx < |cmds|
        invariant dev.Valid() && txNdx <= |cmds| && rx == CmdList && tx == CmdList
        invariant
          var a := Abs().(tx := if txNdx < |cmds| then CmdList else NoHandler);
          Inv(tree, a) && SendMany(tree, a, dev.space) == SendMany(tree, s0, room)
        invariant s0.inFlight <= inFlight && dev.sent == old(dev.sent) + inFlight[|s0.inFlight|..]
        invariant dev.space + |inFlight| == room + |s0.inFlight|
        decreases |cmds| - txNdx
      {
        SendsOne(tree, Abs(), dev.space);
        CmdListFlow(tree, Send(Abs()));
        TxNextCmd();
      }
      if txNdx == |cmds| {
        tx := NoHandler;
      }
      SendsNothing(tree, Abs(), dev.space);
    }

    method TxNextCmd()
      requires dev.Valid() && dev.space > 0 && txNdx < |cmds|
      modifies `txNdx, `inFlight, dev`corbWr, dev`space, dev`sent, dev.corb
      ensures dev.Valid() && dev.space == old(dev.space) - 1
      ensures
        var cmd := Get(NodeOf(old(Abs())), cmds[old(txNdx)]);
        && Abs() == old(Abs()).(txNdx := old(txNdx) + 1, inFlight := old(inFlight) + [cmd])
        && dev.sent == old(dev.sent) + [cmd]
    {
      var nid := Nid();
      var cmd := Get(nid, cmds[txNdx]);
      dev.SendCmd(cmd);
      txNdx := txNdx + 1;
      inFlight := inFlight + [cmd];
    }

    method TxFetchConnList(ghost tree: seq<Group>)
      requires Inv(tree, Abs()) && dev.Valid() && tx == ConnList
      modifies this, dev`corbWr, dev`space, dev`sent, dev.corb
      ensures Inv(tree, Abs()) && dev.Valid() && Abs() == SendMany(tree, old(Abs()), old(dev.space))
      ensures dev.sent == old(dev.sent) + inFlight[|old(inFlight)|..]
      ensures dev.space == old(dev.space) - (|inFlight| - |old(inFlight)|)
    {
      hide Inv, SendMany, Device.Valid, Left;
      ghost var s0 := Abs();
      ghost var room := dev.space;
      ConnListFlow(tree, Abs());
      var w := groups[fnGroupIter].widgets[widgetIter];
      while dev.space > 0 && connTx < w.connLen
        invariant dev.Valid() && rx == ConnList && tx == ConnList && AtWidget(Abs())
        invariant w == groups[fnGroupIter].widgets[widgetIter]
        invariant
          var a := Abs().(tx := if connTx < w.connLen then ConnList else NoHandler);
          Inv(tree, a) && SendMany(tree, a, dev.space) == SendMany(tree, s0, room)
        invariant s0.inFlight <= inFlight && dev.sent == old(dev.sent) + inFlight[|s0.inFlight|..]
        invariant dev.space + |inFlight| == room + |s0.inFlight|
        decreases w.connLen - connTx
      {
        SendsOne(tree, Abs(), dev.space);
        ConnListFlow(tree, Send(Abs()));
        TxNextConns(w.longForm);
      }
      if connTx >= w.connLen {
        tx := NoHandler;
      }
      SendsNothing(tree, Abs(), dev.space);
    }

    method TxNextConns(longForm: bool)
      requires dev.Valid() && dev.space > 0 && fnGroupIter >= 0 && widgetIter >= 0
      modifies `connTx, `inFlight, dev`corbWr, dev`space, dev`sent, dev.corb
      ensures dev.Valid() && dev.space == old(dev.space) - 1
      ensures
        var cmd := GetConns(WidgetNode(fnGroupIter, widgetIter), old(connTx));
        && Abs() == old(Abs()).(connTx := old(connTx) + Chunk(longForm), inFlight := old(inFlight) + [cmd])
        && dev.sent == old(dev.sent) + [cmd]
    {
      var cmd := GetConns(WidgetNode(fnGroupIter, widgetIter), connTx);
      dev.SendCmd(cmd);
      connTx := connTx + if longForm then 2 else 4;
      inFlight := inFlight + [cmd];
    }

    /** The process_resp handler of the command answered. */
    method ProcessResp(p: Param, r: Response)
      modifies `groupCount, `groups
      ensures Abs() == Process(old(Abs()), p, r)
    {
      match (stage, p, r) {
        case (RootStage, SubordinateNodeCount, NodeCount(n)) => groupCount := n;
        case (IdGroup, FunctionGroupType, GroupType(audio)) =>
          if audio && 0 <= fnGroupIter < |groups| {
            groups := groups[fnGroupIter := FoundGroup(0, [])];
          }
        case (Afg, SubordinateNodeCount, NodeCount(n)) =>
          if 0 <= fnGroupIter < |groups| && groups[fnGroupIter].FoundGroup? {
            groups := groups[fnGroupIter := groups[fnGroupIter].(count := n)];
          }
        case (IdWidget, AwCaps, WidgetCaps(kind, hasConns)) =>
          if HaveWidget() {
            StoreWidget(groups[fnGroupIter].widgets[widgetIter].(kind := kind, hasConns := hasConns));
          }
        case (Caps, ConnectionListLen, ConnLen(len, longForm)) =>
          if HaveWidget() {
            var w := groups[fnGroupIter].widgets[widgetIter];
            if w.hasConns {
              StoreWidget(w.(longForm := longForm, connLen := len));
            } else {
              StoreWidget(w.(longForm := false, connLen := 0));
            }
          }
        case _ =>
      }
    }

    predicate HaveWidget()
      reads this
      ensures HaveWidget() == AtWidget(Abs())
    {
      0 <= fnGroupIter < |groups| && groups[fnGroupIter].FoundGroup? && 0 <= widgetIter < |groups[fnGroupIter].widgets|
    }

    /** intel_hda_rx_cmd_list */
    method RxCmdList(r: Response)
      requires rxNdx < |cmds| && inFlight != []
      requires stage == IdGroup ==> AtGroup(Abs())
      requires stage == Afg ==> AtAudio(Abs())
      requires stage in {IdWidget, Caps} ==> AtWidget(Abs())
      modifies this
      ensures Abs() == ReceiveCmd(old(Abs()), r)
    {
      hide Finish, Process;
      ProcessPlace(Abs(), cmds[rxNdx], r);
      ProcessResp(cmds[rxNdx], r);
      inFlight := inFlight[1..];
      rxNdx := rxNdx + 1;
      if rxNdx == |cmds| {
        rx := NoHandler;
        Finished();
      }
    }

    /** intel_hda_rx_fetch_conn_list */
    method RxFetchConnList(entries: seq<nat>)
      requires AtWidget(Abs()) && inFlight != [] && connRx <= TheWidget(Abs()).connLen == |TheWidget(Abs()).conns|
      modifies this
      ensures Abs() == ReceiveConns(old(Abs()), Conns(entries))
    {
      hide NextWidget;
      var w := groups[fnGroupIter].widgets[widgetIter];
      var conns := TakeEntries(w, entries);
      StoreWidget(w.(conns := conns));
      inFlight := inFlight[1..];
      if connRx == w.connLen {
        rx := NoHandler;
        FetchNextWidget();
      }
    }

    /** The loop over the entries of one response. */
    method TakeEntries(w: FoundWidget, entries: seq<nat>) returns (conns: seq<nat>)
      requires connRx <= w.connLen == |w.conns|
      modifies `connRx
      ensures
        var n := Min(Chunk(w.longForm), w.connLen - old(connRx));
        connRx == old(connRx) + n && conns == Unpack(w.conns, old(connRx), n, entries)
    {
      conns := w.conns;
      var i := 0;
      while i < (if w.longForm then 2 else 4) && connRx < w.connLen
        invariant i <= Min(Chunk(w.longForm), w.connLen - old(connRx)) && connRx == old(connRx) + i
        invariant conns == Unpack(w.conns, old(connRx), i, entries)
        decreases 4 - i
      {
        UnpackNext(w.conns, old(connRx), i, entries);
        conns := conns[connRx := if i < |entries| then entries[i] else 0];
        connRx := connRx + 1;
        i := i + 1;
      }
    }

    /** One solicited response, as intel_hda_codec_process_rirb hands it over. */
    method Response(ghost tree: seq<Group>, r: HdaCodec.Response)
      requires Inv(tree, Abs()) && inFlight != [] && r == Answer(tree, inFlight[0])
      modifies this
      ensures Inv(tree, Abs()) && Next(tree, old(Abs()), Receives, Abs())
    {
      hide Known, ReceiveCmd, ReceiveConns, Answer, Left;
      ghost var s := Abs();
      if rx == CmdList {
        ReceiveCmdLeft(tree, s);
        RxCmdList(r);
      } else if rx == ConnList {
        ReceiveConnsLeft(tree, s);
        AnswerConns(tree, s);
        RxFetchConnList(r.entries);
      }
    }

    /** What the driver waits for is what it has put into the command ring and taken no response to. */
    ghost predicate Linked()
      reads this, dev
    {
      dev.taken <= |dev.sent| && inFlight == dev.sent[dev.taken..]
    }

    /** intel_hda_codec_process_rirb on the snapshot taken: the responses are handed over in order. */
    method ProcessRirb(ghost tree: seq<Group>, rs: seq<HdaCodec.Response>) returns (ghost states: seq<State>)
      requires Inv(tree, Abs()) && |rs| <= |inFlight|
      requires forall i | 0 <= i < |rs| :: rs[i] == Answer(tree, inFlight[i])
      modifies this
      ensures Inv(tree, Abs()) && inFlight == old(inFlight)[|rs|..]
      ensures ReceivedAll(tree, old(Abs()), states, Abs()) && |states| == |rs| + 1
    {
      hide Inv, Answer, Next;
      states := [Abs()];
      for i := 0 to |rs|
        invariant Inv(tree, Abs()) && inFlight == old(inFlight)[i..]
        invariant |states| == i + 1 && ReceivedAll(tree, old(Abs()), states, Abs())
      {
        ghost var s := Abs();
        Response(tree, rs[i]);
        ReceivesHead(tree, s, Abs());
        states := states + [Abs()];
      }
    }

    /** Between two cycles driver and rings are a state of the whole system. */
    lemma InSystem()
      requires Inv(dev.tree, Abs()) && dev.Valid() && Linked()
      ensures SysInv(dev.tree, System(Abs(), dev.Flow(), 0))
    {
      hide Inv, Slice, Replies;
      dev.FetchedSent();
    }

    /** A response ring no shorter than the longest list of the codec does not overrun. */
    lemma RingSuffices()
      requires Inv(dev.tree, Abs()) && dev.Valid() && Linked() && Burst(dev.tree) < dev.rirb.Length
      ensures dev.NoOverrun()
    {
      hide Inv, Burst;
      BurstBound(dev.tree, Abs());
      dev.FetchedSent();
    }

    /** One codec service cycle of intel_hda_process_irq, the hardware running on: between the two snapshots, and while
        the responses are worked off. */
    method ServiceCycle(early: seq<bool>, late: seq<bool>) returns (ghost states: seq<State>, ghost room: nat)
      requires Inv(dev.tree, Abs()) && dev.Valid() && Linked() && dev.corbWr == dev.corbWp && dev.NoOverrun()
      modifies this, dev, dev.corb, dev.rirb
      ensures Inv(dev.tree, Abs()) && dev.Valid() && Linked() && dev.corbWr == dev.corbWp
      ensures dev.taken == old(dev.answered) && old(dev.sent) <= dev.sent
      ensures |states| == old(dev.answered) - old(dev.taken) + 1
      ensures ReceivedAll(dev.tree, old(Abs()), states, states[|states| - 1])
      ensures Inv(dev.tree, states[|states| - 1]) && Abs() == SendMany(dev.tree, states[|states| - 1], room)
      ensures |dev.sent| - |old(dev.sent)| <= room <= dev.maxInFlight
      ensures room + old(Used(dev.corbRp, dev.corbWr, dev.corb.Length)) >= dev.maxInFlight
      ensures Burst(dev.tree) < dev.rirb.Length ==> dev.NoOverrun()
    {
      hide Inv, Answer, Next, SendMany, ReceivedAll, Device.Valid, Burst;
      dev.FetchedSent();
      var rs := dev.BeginCycle(early);
      room := dev.space;
      RightAnswers(dev.tree, dev.sent, old(dev.taken), dev.taken, rs);
      states := ProcessRirb(dev.tree, rs);
      LastState(dev.tree, old(Abs()), states, Abs());
      EndCycle(dev.tree, late);
      if Burst(dev.tree) < dev.rirb.Length {
        RingSuffices();
      }
    }

    /** The end of a service cycle: new commands are put into the ring and committed. */
    method EndCycle(ghost tree: seq<Group>, late: seq<bool>)
      requires Inv(tree, Abs()) && dev.Valid() && Linked()
      modifies this, dev, dev.corb, dev.rirb
      ensures Inv(tree, Abs()) && dev.Valid() && Linked() && Abs() == SendMany(tree, old(Abs()), old(dev.space))
      ensures dev.corbWr == dev.corbWp && dev.taken == old(dev.taken) && old(dev.sent) <= dev.sent
      ensures |dev.sent| - |old(dev.sent)| <= old(dev.space)
    {
      hide Inv, SendMany, Device.Valid;
      dev.Hardware(late);
      ghost var s, room := Abs(), dev.space;
      ProcessPendingWork(tree);
      assert s.inFlight <= inFlight by { assert Abs() == SendMany(tree, s, room); }
      dev.CommitCorb();
    }

    /** The get_nid functions. */
    method Nid() returns (n: Node)
      ensures n == NodeOf(Abs())
    {
      n := match stage
        case RootStage => Root
        case IdGroup => if fnGroupIter >= 0 then GroupNode(fnGroupIter) else Root
        case Afg => if fnGroupIter >= 0 then GroupNode(fnGroupIter) else Root
        case IdWidget => if fnGroupIter >= 0 && widgetIter >= 0 then WidgetNode(fnGroupIter, widgetIter) else Root
        case Caps => if fnGroupIter >= 0 && widgetIter >= 0 then WidgetNode(fnGroupIter, widgetIter) else Root;
    }
  }

  lemma RightAnswers(tree: seq<Group>, sent: seq<Cmd>, from: nat, to: nat, rs: seq<HdaCodec.Response>)
    requires from <= to <= |sent| && rs == Replies(tree, sent[from..to])
    ensures |rs| == to - from <= |sent[from..]|
    ensures forall i | 0 <= i < |rs| :: rs[i] == Answer(tree, sent[from..][i])
    ensures sent[from..][|rs|..] == sent[to..]
  {
    hide Answer;
  }

  /** The states from one to the other, with one response received between each and the next. */
  ghost predicate ReceivedAll(tree: seq<Group>, s: State, states: seq<State>, s2: State) {
    && states != [] && states[0] == s && states[|states| - 1] == s2
    && forall i | 0 <= i < |states| - 1 :: Next(tree, states[i], Receives, states[i + 1])
  }

  lemma LastState(tree: seq<Group>, s: State, states: seq<State>, s2: State)
    requires ReceivedAll(tree, s, states, s2)
    ensures states != [] && states[|states| - 1] == s2
  {
  }

  lemma ProcessPlace(s: State, p: Param, r: Response)
    requires s.stage == IdGroup ==> AtGroup(s)
    requires s.stage == Afg ==> AtAudio(s)
    requires s.stage in {IdWidget, Caps} ==> AtWidget(s)
    ensures
      var s2 := Process(s, p, r);
      && s2 == s.(groupCount := s2.groupCount, groups := s2.groups)
      && (s.stage == IdGroup ==> AtGroup(s2)) && (s.stage == Afg ==> AtAudio(s2))
      && (s.stage in {IdWidget, Caps} ==> AtWidget(s2))
  {
  }

  lemma UnpackNext(conns: seq<nat>, at: nat, n: nat, entries: seq<nat>)
    requires at + n < |conns|
    ensures Unpack(conns, at, n + 1, entries) ==
            Unpack(conns, at, n, entries)[at + n := if n < |entries| then entries[n] else 0]
  {
  }

  lemma SendsNothing(tree: seq<Group>, s: State, room: nat)
    requires Inv(tree, s) && (s.tx == NoHandler || room == 0)
    ensures SendMany(tree, s, room) == s
  {
    hide Inv;
  }

  lemma SendsOne(tree: seq<Group>, s: State, room: nat)
    requires Inv(tree, s) && s.tx != NoHandler && room > 0
    ensures (s.tx == CmdList ==> s.txNdx < |s.cmds|) && (s.tx == ConnList ==> AtWidget(s))
    ensures Inv(tree, Send(s)) && SendMany(tree, s, room) == SendMany(tree, Send(s), room - 1)
  {
    SendKeeps(tree, s);
  }

  lemma CmdListFlow(tree: seq<Group>, s: State)
    requires Inv(tree, s)
    ensures s.tx == CmdList ==> s.rx == CmdList
    ensures s.rx == CmdList ==> s.txNdx <= |s.cmds| && s.tx == (if s.txNdx < |s.cmds| then CmdList else NoHandler)
  {
    hide FoundOf, VisitsBefore, CapsCmds, WidgetsOk, GroupsOk;
  }

  lemma ConnListFlow(tree: seq<Group>, s: State)
    requires Inv(tree, s)
    ensures s.tx == ConnList ==> s.rx == ConnList
    ensures s.rx == ConnList ==> AtWidget(s)
    ensures s.rx == ConnList ==> s.tx == (if s.connTx < TheWidget(s).connLen then ConnList else NoHandler)
  {
    hide FoundOf, VisitsBefore, CapsCmds, FoundOfWidget;
  }
}
