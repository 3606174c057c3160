/** Enumeration of an Intel High Definition Audio codec: a callback-driven state machine that sends commands,
    takes the responses in order and builds up a picture of the codec's function groups and widgets. */
module HdaCodec {

  // ---------------------------------------------------------------- the codec behind the link

  datatype Kind =
    | Output | Input | Mixer | Selector | DigitalPin | AnalogPin | Power | VolumeKnob | BeepGen | Vendor | Unrecognized

  datatype Widget = Widget(kind: Kind, hasConns: bool, longForm: bool, conns: seq<nat>)

  datatype Group = Audio(widgets: seq<Widget>) | NotAudio

  datatype Param =
    | VendorId | RevisionId | SubordinateNodeCount | FunctionGroupType | AfgCaps | PcmSizeRate | StreamFormats
    | InputAmpCaps | OutputAmpCaps | PowerStates | GpioCount | AwCaps | PinCaps | ConnectionListLen | ProcessingCaps
    | VolumeKnobCaps

  datatype Node = Root | GroupNode(g: nat) | WidgetNode(g: nat, w: nat)

  datatype Cmd = Get(node: Node, param: Param) | GetConns(node: Node, offset: nat)

  datatype Response =
    | NodeCount(n: nat)
    | GroupType(audio: bool)
    | WidgetCaps(kind: Kind, hasConns: bool)
    | ConnLen(len: nat, longForm: bool)
    | Conns(entries: seq<nat>)
    | Plain

  function Chunk(longForm: bool): (n: nat) {
    if longForm then 2 else 4
  }

  function Min(a: nat, b: nat): (m: nat) {
    if a < b then a else b
  }

  predicate InTree(tree: seq<Group>, node: Node) {
    match node
    case Root => true
    case GroupNode(g) => g < |tree|
    case WidgetNode(g, w) => g < |tree| && tree[g].Audio? && w < |tree[g].widgets|
  }

  /** What the codec answers. */
  function Answer(tree: seq<Group>, cmd: Cmd): (r: Response) {
    if !InTree(tree, cmd.node) then Plain
    else match cmd
      case Get(Root, SubordinateNodeCount) => NodeCount(|tree|)
      case Get(GroupNode(g), FunctionGroupType) => GroupType(tree[g].Audio?)
      case Get(GroupNode(g), SubordinateNodeCount) => NodeCount(if tree[g].Audio? then |tree[g].widgets| else 0)
      case Get(WidgetNode(g, w), AwCaps) => WidgetCaps(tree[g].widgets[w].kind, tree[g].widgets[w].hasConns)
      case Get(WidgetNode(g, w), ConnectionListLen) => ConnLen(|tree[g].widgets[w].conns|, tree[g].widgets[w].longForm)
      case GetConns(WidgetNode(g, w), offset) =>
        var c := tree[g].widgets[w].conns;
        if offset <= |c| then Conns(c[offset..Min(|c|, offset + Chunk(tree[g].widgets[w].longForm))]) else Conns([])
      case _ => Plain
  }

  // ---------------------------------------------------------------- command lists

  const ROOT_CMDS: seq<Param> := [VendorId, RevisionId, SubordinateNodeCount]
  const ID_GROUP_CMDS: seq<Param> := [FunctionGroupType]
  const AFG_CMDS: seq<Param> :=
    [AfgCaps, PcmSizeRate, StreamFormats, InputAmpCaps, OutputAmpCaps, PowerStates, GpioCount, SubordinateNodeCount]
  const ID_WIDGET_CMDS: seq<Param> := [AwCaps]

  function CapsCmds(kind: Kind): (r: seq<Param>) {
    match kind
    case Output => [PcmSizeRate, StreamFormats, OutputAmpCaps, PowerStates, ProcessingCaps]
    case Input => [PcmSizeRate, StreamFormats, InputAmpCaps, ConnectionListLen, PowerStates, ProcessingCaps]
    case Mixer => [InputAmpCaps, OutputAmpCaps, ConnectionListLen, PowerStates]
    case Selector => [InputAmpCaps, OutputAmpCaps, ConnectionListLen, PowerStates, ProcessingCaps]
    case DigitalPin => [PinCaps, OutputAmpCaps, ConnectionListLen, PowerStates, ProcessingCaps]
    case AnalogPin => [PinCaps, InputAmpCaps, OutputAmpCaps, ConnectionListLen, PowerStates, ProcessingCaps]
    case Power => [ConnectionListLen, PowerStates]
    case VolumeKnob => [ConnectionListLen, PowerStates, VolumeKnobCaps]
    case _ => []
  }

  /** Which list is being worked off, and so which finished handler comes after it. */
  datatype Stage = RootStage | IdGroup | Afg | IdWidget | Caps

  datatype Handler = NoHandler | CmdList | ConnList

  datatype FoundWidget = FoundWidget(kind: Kind, hasConns: bool, longForm: bool, connLen: nat, conns: seq<nat>)

  datatype Found = NoGroup | FoundGroup(count: nat, widgets: seq<FoundWidget>)

  const BLANK := FoundWidget(Output, false, false, 0, [])

  /** `inFlight` are the commands sent and not yet answered, oldest first; `visited` the widgets taken up so far. */
  datatype State = State(
    rx: Handler, tx: Handler, stage: Stage, cmds: seq<Param>, txNdx: nat, rxNdx: nat,
    group: int, widget: int, connTx: nat, connRx: nat,
    groupCount: nat, groups: seq<Found>,
    inFlight: seq<Cmd>, visited: seq<(nat, nat)>)

  predicate AtGroup(s: State) {
    0 <= s.group < |s.groups|
  }

  predicate AtAudio(s: State) {
    AtGroup(s) && s.groups[s.group].FoundGroup?
  }

  predicate AtWidget(s: State) {
    AtAudio(s) && 0 <= s.widget < |s.groups[s.group].widgets|
  }

  function TheWidget(s: State): (w: FoundWidget)
    requires AtWidget(s)
  {
    s.groups[s.group].widgets[s.widget]
  }

  function SetWidget(s: State, w: FoundWidget): (s2: State)
    requires AtWidget(s)
  {
    var g := s.groups[s.group];
    s.(groups := s.groups[s.group := g.(widgets := g.widgets[s.widget := w])])
  }

  function NodeOf(s: State): (n: Node) {
    match s.stage
    case RootStage => Root
    case IdGroup => if s.group >= 0 then GroupNode(s.group) else Root
    case Afg => if s.group >= 0 then GroupNode(s.group) else Root
    case IdWidget => if s.group >= 0 && s.widget >= 0 then WidgetNode(s.group, s.widget) else Root
    case Caps => if s.group >= 0 && s.widget >= 0 then WidgetNode(s.group, s.widget) else Root
  }

  // ---------------------------------------------------------------- setting up the next list

  function Setup(s: State, stage: Stage, cmds: seq<Param>): (s2: State) {
    s.(txNdx := 0, rxNdx := 0, cmds := cmds, stage := stage, rx := CmdList, tx := CmdList)
  }

  function NextGroup(s: State): (s2: State) {
    var s1 := s.(group := s.group + 1);
    if s1.group < s.groupCount then Setup(s1, IdGroup, ID_GROUP_CMDS) else s1
  }

  function NextWidget(s: State): (s2: State)
    requires AtAudio(s) && s.widget >= -1
  {
    var s1 := s.(widget := s.widget + 1);
    if s1.widget < s.groups[s.group].count
    then Setup(s1, IdWidget, ID_WIDGET_CMDS).(visited := s.visited + [(s.group as nat, s1.widget as nat)])
    else NextGroup(s1)
  }

  /** intel_hda_fetch_widget_connection_list */
  function FetchConns(s: State): (s2: State)
    requires AtWidget(s)
  {
    var w := TheWidget(s);
    if w.connLen != 0
    then SetWidget(s, w.(conns := seq(w.connLen, i => 0))).(connTx := 0, connRx := 0, rx := ConnList, tx := ConnList)
    else NextWidget(s)
  }

  /** The finished handlers. */
  function Finish(s: State): (s2: State)
    requires s.stage in {IdGroup} ==> AtGroup(s)
    requires s.stage == Afg ==> AtAudio(s)
    requires s.stage in {IdWidget, Caps} ==> AtWidget(s)
  {
    match s.stage
    case RootStage =>
      if s.groupCount == 0 then s else NextGroup(s.(groups := seq(s.groupCount, i => NoGroup), group := -1))
    case IdGroup => if s.groups[s.group].FoundGroup? then Setup(s, Afg, AFG_CMDS) else NextGroup(s)
    case Afg =>
      var g := s.groups[s.group];
      NextWidget(s.(groups := s.groups[s.group := g.(widgets := seq(g.count, i => BLANK))], widget := -1))
    case IdWidget =>
      if CapsCmds(TheWidget(s).kind) == [] then NextWidget(s) else Setup(s, Caps, CapsCmds(TheWidget(s).kind))
    case Caps => FetchConns(s)
  }

  // ---------------------------------------------------------------- sending and receiving

  /** One command goes out; the pending-work handler is dropped after the last. */
  function Send(s: State): (s2: State)
    requires s.tx == CmdList ==> s.txNdx < |s.cmds|
    requires s.tx == ConnList ==> AtWidget(s)
  {
    match s.tx
    case NoHandler => s
    case CmdList =>
      s.(inFlight := s.inFlight + [Get(NodeOf(s), s.cmds[s.txNdx])], txNdx := s.txNdx + 1,
         tx := if s.txNdx + 1 == |s.cmds| then NoHandler else CmdList)
    case ConnList =>
      var w := TheWidget(s);
      s.(inFlight := s.inFlight + [GetConns(WidgetNode(s.group, s.widget), s.connTx)],
         connTx := s.connTx + Chunk(w.longForm),
         tx := if s.connTx + Chunk(w.longForm) >= w.connLen then NoHandler else ConnList)
  }

  /** The process_resp handlers, as far as they drive the enumeration. */
  function Process(s: State, p: Param, r: Response): (s2: State) {
    match (s.stage, p, r)
    case (RootStage, SubordinateNodeCount, NodeCount(n)) => s.(groupCount := n)
    case (IdGroup, FunctionGroupType, GroupType(audio)) =>
      if audio && AtGroup(s) then s.(groups := s.groups[s.group := FoundGroup(0, [])]) else s
    case (Afg, SubordinateNodeCount, NodeCount(n)) =>
      if AtAudio(s) then s.(groups := s.groups[s.group := s.groups[s.group].(count := n)]) else s
    case (IdWidget, AwCaps, WidgetCaps(kind, hasConns)) =>
      if AtWidget(s) then SetWidget(s, TheWidget(s).(kind := kind, hasConns := hasConns)) else s
    case (Caps, ConnectionListLen, ConnLen(len, longForm)) =>
      if AtWidget(s) then
        SetWidget(s, if TheWidget(s).hasConns then TheWidget(s).(longForm := longForm, connLen := len)
                     else TheWidget(s).(longForm := false, connLen := 0))
      else s
    case _ => s
  }

  /** intel_hda_rx_cmd_list */
  function ReceiveCmd(s: State, r: Response): (s2: State)
    requires s.rxNdx < |s.cmds| && s.inFlight != []
    requires s.stage in {IdGroup} ==> AtGroup(s)
    requires s.stage == Afg ==> AtAudio(s)
    requires s.stage in {IdWidget, Caps} ==> AtWidget(s)
  {
    var s1 := Process(s, s.cmds[s.rxNdx], r).(inFlight := s.inFlight[1..], rxNdx := s.rxNdx + 1);
    if s1.rxNdx == |s1.cmds| then Finish(s1.(rx := NoHandler)) else s1
  }

  /** The list with n entries of a response written from position `at` on. */
  function Unpack(conns: seq<nat>, at: nat, n: nat, entries: seq<nat>): (r: seq<nat>)
    requires at + n <= |conns|
    ensures |r| == |conns|
  {
    conns[..at] + seq(n, i requires 0 <= i < n => if i < |entries| then entries[i] else 0) + conns[at + n..]
  }

  /** intel_hda_rx_fetch_conn_list */
  function ReceiveConns(s: State, r: Response): (s2: State)
    requires AtWidget(s) && s.inFlight != [] && s.connRx <= TheWidget(s).connLen == |TheWidget(s).conns|
  {
    var w := TheWidget(s);
    var n := Min(Chunk(w.longForm), w.connLen - s.connRx);
    var entries := if r.Conns? then r.entries else [];
    var s1 := SetWidget(s, w.(conns := Unpack(w.conns, s.connRx, n, entries)))
              .(inFlight := s.inFlight[1..], connRx := s.connRx + n);
    if s1.connRx == w.connLen then NextWidget(s1.(rx := NoHandler)) else s1
  }

  // ---------------------------------------------------------------- what there is to be found

  function Learnt(w: Widget, lenKnown: bool): (f: FoundWidget) {
    if lenKnown && w.hasConns then FoundWidget(w.kind, true, w.longForm, |w.conns|, [])
    else FoundWidget(w.kind, w.hasConns, false, 0, [])
  }

  /** The kinds of widgets that may have connections. */
  predicate MayConnect(kind: Kind) {
    kind in {Input, Mixer, Selector, DigitalPin, AnalogPin, Power, VolumeKnob}
  }

  /** The kinds of widgets a parameter is asked of once the kind is known. */
  function AskedOf(p: Param): (r: set<Kind>) {
    match p
    case PcmSizeRate => {Output, Input}
    case StreamFormats => {Output, Input}
    case InputAmpCaps => {Input, Mixer, Selector, AnalogPin}
    case OutputAmpCaps => {Output, Mixer, Selector, DigitalPin, AnalogPin}
    case PinCaps => {DigitalPin, AnalogPin}
    case ConnectionListLen => {Input, Mixer, Selector, DigitalPin, AnalogPin, Power, VolumeKnob}
    case PowerStates => {Output, Input, Mixer, Selector, DigitalPin, AnalogPin, Power, VolumeKnob}
    case ProcessingCaps => {Output, Input, Selector, DigitalPin, AnalogPin}
    case VolumeKnobCaps => {VolumeKnob}
    case _ => {}
  }

  /** Each widget is asked exactly the parameters of its kind. */
  lemma CapsAsk(kind: Kind, p: Param)
    ensures p in CapsCmds(kind) <==> kind in AskedOf(p)
  {
    match kind {
      case Output =>
      case Input =>
      case Mixer =>
      case Selector =>
      case DigitalPin =>
      case AnalogPin =>
      case Power =>
      case VolumeKnob =>
      case BeepGen =>
      case Vendor =>
      case Unrecognized =>
    }
  }

  /** No list asks for the same thing twice. */
  lemma AskOnce(kind: Kind)
    ensures forall i, j | 0 <= i < j < |CapsCmds(kind)| :: CapsCmds(kind)[i] != CapsCmds(kind)[j]
  {
  }

  /** The codec, a function group, an audio function group and a widget of unknown kind are asked this and nothing
      else. */
  lemma ListsAsk(p: Param)
    ensures p in ROOT_CMDS <==> p in {VendorId, RevisionId, SubordinateNodeCount}
    ensures p in ID_GROUP_CMDS <==> p == FunctionGroupType
    ensures p in AFG_CMDS <==>
              p in {AfgCaps, PcmSizeRate, StreamFormats, InputAmpCaps, OutputAmpCaps, PowerStates, GpioCount,
                    SubordinateNodeCount}
    ensures p in ID_WIDGET_CMDS <==> p == AwCaps
    ensures |ROOT_CMDS| == 3 && |ID_GROUP_CMDS| == 1 && |AFG_CMDS| == 8 && |ID_WIDGET_CMDS| == 1
  {
  }

  /** All that enumeration asks about a widget: its connections only if its kind may have any. */
  function FoundOfWidget(w: Widget): (f: FoundWidget) {
    if MayConnect(w.kind) && w.hasConns
    then FoundWidget(w.kind, true, w.longForm, |w.conns|, w.conns)
    else FoundWidget(w.kind, w.hasConns, false, 0, [])
  }

  ghost function FoundOf(g: Group): (f: Found) {
    match g
    case NotAudio => NoGroup
    case Audio(ws) => FoundGroup(|ws|, seq(|ws|, i requires 0 <= i < |ws| => FoundOfWidget(ws[i])))
  }

  ghost function WidgetsOf(g: nat, n: nat): (r: seq<(nat, nat)>) {
    seq(n, i => (g, i))
  }

  /** The widgets of the audio groups before group g, in order. */
  ghost function VisitsBefore(tree: seq<Group>, g: nat): (r: seq<(nat, nat)>)
    requires g <= |tree|
  {
    if g == 0 then []
    else VisitsBefore(tree, g - 1) + (if tree[g - 1].Audio? then WidgetsOf(g - 1, |tree[g - 1].widgets|) else [])
  }

  // ---------------------------------------------------------------- invariant

  ghost predicate GroupsOk(tree: seq<Group>, s: State) {
    && s.groupCount == |tree| == |s.groups| && 0 <= s.group < |tree|
    && (forall i | 0 <= i < s.group :: s.groups[i] == FoundOf(tree[i]))
    && (forall i | s.group < i < |tree| :: s.groups[i] == NoGroup)
  }

  ghost predicate WidgetsOk(tree: seq<Group>, s: State) {
    && GroupsOk(tree, s) && tree[s.group].Audio? && s.groups[s.group].FoundGroup?
    && var ws := tree[s.group].widgets;
       var fs := s.groups[s.group].widgets;
       && s.groups[s.group].count == |ws| == |fs| && 0 <= s.widget < |ws|
       && (forall i | 0 <= i < s.widget :: fs[i] == FoundOfWidget(ws[i]))
       && (forall i | s.widget < i < |ws| :: fs[i] == BLANK)
       && s.visited == VisitsBefore(tree, s.group) + WidgetsOf(s.group, s.widget + 1)
  }

  ghost function HwWidget(tree: seq<Group>, s: State): (w: Widget)
    requires WidgetsOk(tree, s)
  {
    tree[s.group].widgets[s.widget]
  }

  /** What has been learnt when rxNdx responses of the list are in. */
  ghost predicate Known(tree: seq<Group>, s: State) {
    match s.stage
    case RootStage =>
      && s.cmds == ROOT_CMDS && s.groups == [] && s.visited == []
      && s.groupCount == (if s.rxNdx == |s.cmds| then |tree| else 0)
    case IdGroup =>
      && GroupsOk(tree, s) && s.cmds == ID_GROUP_CMDS && s.visited == VisitsBefore(tree, s.group)
      && s.groups[s.group] == (if s.rxNdx == |s.cmds| && tree[s.group].Audio? then FoundGroup(0, []) else NoGroup)
    case Afg =>
      && GroupsOk(tree, s) && s.cmds == AFG_CMDS && s.visited == VisitsBefore(tree, s.group) && tree[s.group].Audio?
      && s.groups[s.group] == FoundGroup(if s.rxNdx == |s.cmds| then |tree[s.group].widgets| else 0, [])
    case IdWidget =>
      && WidgetsOk(tree, s) && s.cmds == ID_WIDGET_CMDS
      && TheWidget(s) == (if s.rxNdx == |s.cmds| then Learnt(HwWidget(tree, s), false) else BLANK)
    case Caps =>
      && WidgetsOk(tree, s) && s.cmds == CapsCmds(HwWidget(tree, s).kind) && s.cmds != [] && s.rxNdx <= |s.cmds|
      && TheWidget(s) == Learnt(HwWidget(tree, s), ConnectionListLen in s.cmds[..s.rxNdx])
  }

  /** The commands in flight are those of the list sent and not answered, in order. */
  ghost predicate CmdFlow(s: State) {
    && s.rxNdx < |s.cmds| && s.rxNdx <= s.txNdx <= |s.cmds|
    && s.tx == (if s.txNdx < |s.cmds| then CmdList else NoHandler)
    && |s.inFlight| == s.txNdx - s.rxNdx
    && (forall i | 0 <= i < |s.inFlight| :: s.inFlight[i] == Get(NodeOf(s), s.cmds[s.rxNdx + i]))
  }

  ghost predicate ConnsOk(tree: seq<Group>, s: State) {
    && WidgetsOk(tree, s)
    && var w := HwWidget(tree, s);
       var f := TheWidget(s);
       && ConnectionListLen in CapsCmds(w.kind) && w.hasConns && s.connRx < |w.conns| == |f.conns|
       && f == FoundWidget(w.kind, true, w.longForm, |w.conns|, f.conns)
       && f.conns[..s.connRx] == w.conns[..s.connRx]
  }

  ghost predicate ConnFlow(tree: seq<Group>, s: State)
    requires WidgetsOk(tree, s)
  {
    var w := HwWidget(tree, s);
    var c := Chunk(w.longForm);
    && s.connTx == s.connRx + c * |s.inFlight| && s.connTx < |w.conns| + c
    && s.tx == (if s.connTx < |w.conns| then ConnList else NoHandler)
    && (forall i | 0 <= i < |s.inFlight| :: s.inFlight[i] == GetConns(WidgetNode(s.group, s.widget), s.connRx + c * i))
  }

  ghost predicate Complete(tree: seq<Group>, s: State) {
    && s.tx == NoHandler && s.inFlight == [] && s.groupCount == |tree| == |s.groups|
    && (forall i | 0 <= i < |tree| :: s.groups[i] == FoundOf(tree[i]))
    && s.visited == VisitsBefore(tree, |tree|)
  }

  ghost predicate Inv(tree: seq<Group>, s: State) {
    match s.rx
    case CmdList => Known(tree, s) && CmdFlow(s)
    case ConnList => ConnsOk(tree, s) && ConnFlow(tree, s)
    case NoHandler => Complete(tree, s)
  }

  /** Between two lists: nothing is in flight and no handler is set. */
  predicate Quiet(s: State) {
    s.rx == NoHandler && s.tx == NoHandler && s.inFlight == []
  }

  /** intel_hda_create_codec */
  function Start(): (s: State) {
    State(CmdList, CmdList, RootStage, ROOT_CMDS, 0, 0, 0, 0, 0, 0, 0, [], [], [])
  }

  lemma StartInv(tree: seq<Group>)
    ensures Inv(tree, Start())
  {
  }

  lemma NextGroupKeeps(tree: seq<Group>, s: State)
    requires Quiet(s) && s.groupCount == |tree| == |s.groups| && -1 <= s.group < |tree|
    requires forall i | 0 <= i <= s.group :: s.groups[i] == FoundOf(tree[i])
    requires forall i | s.group < i < |tree| :: s.groups[i] == NoGroup
    requires s.visited == VisitsBefore(tree, s.group + 1)
    ensures Inv(tree, NextGroup(s))
  {
    hide FoundOf, VisitsBefore;
  }

  lemma NextWidgetKeeps(tree: seq<Group>, s: State)
    requires Quiet(s) && GroupsOk(tree, s) && tree[s.group].Audio? && s.groups[s.group].FoundGroup?
    requires
      var ws := tree[s.group].widgets;
      var fs := s.groups[s.group].widgets;
      && s.groups[s.group].count == |ws| == |fs| && -1 <= s.widget < |ws|
      && (forall i | 0 <= i <= s.widget :: fs[i] == FoundOfWidget(ws[i]))
      && (forall i | s.widget < i < |ws| :: fs[i] == BLANK)
      && s.visited == VisitsBefore(tree, s.group) + WidgetsOf(s.group, s.widget + 1)
    ensures Inv(tree, NextWidget(s))
  {
    hide FoundOfWidget, VisitsBefore;
    var ws := tree[s.group].widgets;
    if s.widget + 1 < |ws| {
      assert WidgetsOf(s.group, s.widget + 2) ==
             WidgetsOf(s.group, s.widget + 1) + [(s.group as nat, (s.widget + 1) as nat)];
    } else {
      VisitsNext(tree, s.group);
      assert s.groups[s.group] == FoundOf(tree[s.group]);
      NextGroupKeeps(tree, s.(widget := s.widget + 1));
    }
  }

  lemma VisitsNext(tree: seq<Group>, g: nat)
    requires g < |tree| && tree[g].Audio?
    ensures VisitsBefore(tree, g + 1) == VisitsBefore(tree, g) + WidgetsOf(g, |tree[g].widgets|)
  {
  }

  lemma FinishKeeps(tree: seq<Group>, s: State)
    requires Quiet(s) && Known(tree, s) && s.rxNdx == |s.cmds|
    ensures Inv(tree, Finish(s))
  {
    hide FoundOf, FoundOfWidget, VisitsBefore, CapsCmds, Inv;
    match s.stage
    case RootStage => FinishRoot(tree, s);
    case IdGroup => FinishIdGroup(tree, s);
    case Afg => FinishAfg(tree, s);
    case IdWidget => FinishIdWidget(tree, s);
    case Caps => FinishCaps(tree, s);
  }

  lemma FinishRoot(tree: seq<Group>, s: State)
    requires Quiet(s) && Known(tree, s) && s.rxNdx == |s.cmds| && s.stage == RootStage
    ensures Inv(tree, Finish(s))
  {
    if |tree| != 0 {
      NextGroupKeeps(tree, s.(groups := seq(s.groupCount, i => NoGroup), group := -1));
    }
  }

  lemma FinishIdGroup(tree: seq<Group>, s: State)
    requires Quiet(s) && Known(tree, s) && s.rxNdx == |s.cmds| && s.stage == IdGroup
    ensures Inv(tree, Finish(s))
  {
    if tree[s.group].NotAudio? {
      NextGroupKeeps(tree, s);
    }
  }

  lemma FinishAfg(tree: seq<Group>, s: State)
    requires Quiet(s) && Known(tree, s) && s.rxNdx == |s.cmds| && s.stage == Afg
    ensures Inv(tree, Finish(s))
  {
    hide FoundOf, VisitsBefore;
    var g := s.groups[s.group];
    var s1 := s.(groups := s.groups[s.group := g.(widgets := seq(g.count, i => BLANK))], widget := -1);
    assert WidgetsOf(s.group, 0) == [];
    NextWidgetKeeps(tree, s1);
  }

  lemma FinishIdWidget(tree: seq<Group>, s: State)
    requires Quiet(s) && Known(tree, s) && s.rxNdx == |s.cmds| && s.stage == IdWidget
    ensures Inv(tree, Finish(s))
  {
    hide FoundOf, VisitsBefore;
    if CapsCmds(HwWidget(tree, s).kind) == [] {
      NextWidgetKeeps(tree, s);
    }
  }

  lemma FinishCaps(tree: seq<Group>, s: State)
    requires Quiet(s) && Known(tree, s) && s.rxNdx == |s.cmds| && s.stage == Caps
    ensures Inv(tree, Finish(s))
  {
    hide FoundOf, VisitsBefore, CapsCmds, FoundOfWidget, Learnt;
    assert s.cmds[..s.rxNdx] == s.cmds;
    var w := HwWidget(tree, s);
    LearntAll(w);
    if TheWidget(s).connLen == 0 {
      NextWidgetKeeps(tree, s);
    }
  }

  lemma LearntAll(w: Widget)
    ensures
      var f := Learnt(w, ConnectionListLen in CapsCmds(w.kind));
      if f.connLen == 0 then f == FoundOfWidget(w)
      else ConnectionListLen in CapsCmds(w.kind) && w.hasConns
           && f == FoundWidget(w.kind, true, w.longForm, |w.conns|, [])
  {
    hide CapsCmds;
    CapsAsk(w.kind, ConnectionListLen);
  }

  // ---------------------------------------------------------------- every step keeps the invariant

  lemma SendKeeps(tree: seq<Group>, s: State)
    requires Inv(tree, s) && s.tx != NoHandler
    ensures Inv(tree, Send(s))
  {
    hide Known, WidgetsOk, CapsCmds;
    if s.rx == CmdList {
      KnownFlight(tree, s, Send(s));
    } else {
      WidgetAt(tree, s);
      WidgetsFlight(tree, s, Send(s));
    }
  }

  lemma WidgetAt(tree: seq<Group>, s: State)
    requires WidgetsOk(tree, s)
    ensures AtWidget(s)
  {
  }

  lemma ProcessRoot(tree: seq<Group>, s: State)
    requires Known(tree, s) && CmdFlow(s) && s.stage == RootStage && s.inFlight != []
    ensures Known(tree, Process(s, s.cmds[s.rxNdx], Answer(tree, s.inFlight[0])).(rxNdx := s.rxNdx + 1))
  {
  }

  lemma ProcessGroup(tree: seq<Group>, s: State)
    requires Known(tree, s) && CmdFlow(s) && s.stage in {IdGroup, Afg} && s.inFlight != []
    ensures Known(tree, Process(s, s.cmds[s.rxNdx], Answer(tree, s.inFlight[0])).(rxNdx := s.rxNdx + 1))
  {
    hide FoundOf, VisitsBefore;
  }

  lemma SetWidgetKeeps(tree: seq<Group>, s: State, f: FoundWidget)
    requires WidgetsOk(tree, s)
    ensures WidgetsOk(tree, SetWidget(s, f)) && TheWidget(SetWidget(s, f)) == f
    ensures HwWidget(tree, SetWidget(s, f)) == HwWidget(tree, s)
  {
    hide FoundOf, VisitsBefore, FoundOfWidget;
  }

  lemma ProcessIdWidget(tree: seq<Group>, s: State)
    requires Known(tree, s) && CmdFlow(s) && s.stage == IdWidget && s.inFlight != []
    ensures Known(tree, Process(s, s.cmds[s.rxNdx], Answer(tree, s.inFlight[0])).(rxNdx := s.rxNdx + 1))
  {
    hide FoundOf, VisitsBefore, FoundOfWidget, SetWidget;
    var f := Learnt(HwWidget(tree, s), false);
    SetWidgetKeeps(tree, s, f);
    SetWidgetRest(s, f);
    WidgetsFlight(tree, SetWidget(s, f), SetWidget(s, f).(rxNdx := s.rxNdx + 1));
  }

  lemma ProcessCaps(tree: seq<Group>, s: State)
    requires Known(tree, s) && CmdFlow(s) && s.stage == Caps && s.inFlight != []
    ensures Known(tree, Process(s, s.cmds[s.rxNdx], Answer(tree, s.inFlight[0])).(rxNdx := s.rxNdx + 1))
  {
    hide FoundOf, VisitsBefore, FoundOfWidget, SetWidget, CapsCmds;
    var w := HwWidget(tree, s);
    assert s.cmds[..s.rxNdx + 1] == s.cmds[..s.rxNdx] + [s.cmds[s.rxNdx]];
    assert s.inFlight[0] == Get(WidgetNode(s.group, s.widget), s.cmds[s.rxNdx]);
    var f := Learnt(w, true);
    SetWidgetKeeps(tree, s, f);
    SetWidgetRest(s, f);
    WidgetsFlight(tree, SetWidget(s, f), SetWidget(s, f).(rxNdx := s.rxNdx + 1));
    WidgetsFlight(tree, s, s.(rxNdx := s.rxNdx + 1));
  }

  /** The state once a response of a command list is processed, before the end of the list is looked for. */
  lemma ReceiveCmdStep(tree: seq<Group>, s: State) returns (s1: State)
    requires Known(tree, s) && CmdFlow(s) && s.rx == CmdList && s.inFlight != []
    ensures (s.stage in {IdGroup} ==> AtGroup(s)) && (s.stage == Afg ==> AtAudio(s))
    ensures s.stage in {IdWidget, Caps} ==> AtWidget(s)
    ensures
      s1 == s.(groupCount := s1.groupCount, groups := s1.groups, inFlight := s.inFlight[1..], rxNdx := s.rxNdx + 1)
    ensures Known(tree, s1)
    ensures s1.rxNdx == |s1.cmds| ==> Known(tree, s1.(rx := NoHandler))
    ensures
      ReceiveCmd(s, Answer(tree, s.inFlight[0])) ==
        if s1.rxNdx == |s1.cmds| then Finish(s1.(rx := NoHandler)) else s1
  {
    hide Known, Answer, Finish, CmdFlow, Process;
    match s.stage {
      case RootStage => ProcessRoot(tree, s);
      case IdGroup => ProcessGroup(tree, s);
      case Afg => ProcessGroup(tree, s);
      case IdWidget => ProcessIdWidget(tree, s);
      case Caps => ProcessCaps(tree, s);
    }
    InPlace(tree, s);
    FlowIndex(s);
    var p := Process(s, s.cmds[s.rxNdx], Answer(tree, s.inFlight[0]));
    ProcessFlow(s, s.cmds[s.rxNdx], Answer(tree, s.inFlight[0]));
    s1 := p.(inFlight := s.inFlight[1..], rxNdx := s.rxNdx + 1);
    KnownFlight(tree, p.(rxNdx := s.rxNdx + 1), s1);
    KnownFlight(tree, s1, s1.(rx := NoHandler));
    InPlace(tree, s1.(rx := NoHandler));
  }

  lemma FlowIndex(s: State)
    requires CmdFlow(s)
    ensures s.rxNdx < |s.cmds|
  {
  }

  lemma InPlace(tree: seq<Group>, s: State)
    requires Known(tree, s)
    ensures (s.stage in {IdGroup} ==> AtGroup(s)) && (s.stage == Afg ==> AtAudio(s))
    ensures s.stage in {IdWidget, Caps} ==> AtWidget(s)
  {
    hide FoundOf, VisitsBefore, FoundOfWidget, CapsCmds;
  }

  lemma FlowStep(s: State, s1: State)
    requires CmdFlow(s) && s.inFlight != []
    requires
      s1 == s.(groupCount := s1.groupCount, groups := s1.groups, inFlight := s.inFlight[1..], rxNdx := s.rxNdx + 1)
    ensures s1.rxNdx < |s1.cmds| ==> CmdFlow(s1)
    ensures s1.rxNdx == |s1.cmds| ==> s1.tx == NoHandler && s1.inFlight == []
  {
  }

  lemma ReceiveCmdKeeps(tree: seq<Group>, s: State)
    requires Inv(tree, s) && s.rx == CmdList && s.inFlight != []
    ensures Inv(tree, ReceiveCmd(s, Answer(tree, s.inFlight[0])))
  {
    hide Known, Answer, Finish, CmdFlow, ReceiveCmd;
    var s1 := ReceiveCmdStep(tree, s);
    FlowStep(s, s1);
    FlowIndex(s);
    if s1.rxNdx == |s1.cmds| {
      FinishKeeps(tree, s1.(rx := NoHandler));
    }
  }

  /** What is known does not depend on the handlers and on what is in flight. */
  lemma KnownFlight(tree: seq<Group>, s: State, s2: State)
    requires Known(tree, s) && s2 == s.(inFlight := s2.inFlight, rx := s2.rx, tx := s2.tx, txNdx := s2.txNdx)
    ensures Known(tree, s2)
  {
    hide FoundOf, VisitsBefore, FoundOfWidget, CapsCmds;
  }

  /** The handlers of the responses change nothing but what has been found. */
  lemma ProcessFlow(s: State, p: Param, r: Response)
    ensures
      var s2 := Process(s, p, r);
      s2 == s.(groupCount := s2.groupCount, groups := s2.groups)
  {
  }

  lemma Unpacked(conns: seq<nat>, all: seq<nat>, at: nat, n: nat)
    requires |conns| == |all| && at + n <= |all| && conns[..at] == all[..at]
    ensures Unpack(conns, at, n, all[at..at + n])[..at + n] == all[..at + n]
  {
    var r := Unpack(conns, at, n, all[at..at + n]);
    forall i | 0 <= i < at + n ensures r[i] == all[i] {
      assert i < at ==> conns[..at][i] == all[..at][i];
    }
  }

  /** The state once the entries of a response are in place, before the end of the list is looked for. */
  lemma ReceiveConnsStep(tree: seq<Group>, s: State) returns (s1: State)
    requires ConnsOk(tree, s) && ConnFlow(tree, s) && s.rx == ConnList && s.inFlight != []
    ensures AtWidget(s) && s.connRx <= TheWidget(s).connLen == |TheWidget(s).conns|
    ensures WidgetsOk(tree, s1) && HwWidget(tree, s1) == HwWidget(tree, s) && s1.rx == ConnList
    ensures s1.group == s.group && s1.widget == s.widget
    ensures
      var w := HwWidget(tree, s);
      var n := Min(Chunk(w.longForm), |w.conns| - s.connRx);
      && s1.connRx == s.connRx + n && s1.connTx == s.connTx && s1.tx == s.tx && s1.inFlight == s.inFlight[1..]
      && TheWidget(s1) == FoundWidget(w.kind, true, w.longForm, |w.conns|, TheWidget(s1).conns)
      && |TheWidget(s1).conns| == |w.conns| && TheWidget(s1).conns[..s1.connRx] == w.conns[..s1.connRx]
      && ReceiveConns(s, Answer(tree, s.inFlight[0])) ==
           if s1.connRx == |w.conns| then NextWidget(s1.(rx := NoHandler)) else s1
  {
    hide FoundOf, VisitsBefore, SetWidget, CapsCmds, NextWidget, WidgetsOk;
    WidgetAt(tree, s);
    var w := HwWidget(tree, s);
    var f := TheWidget(s);
    var n := Min(Chunk(w.longForm), |w.conns| - s.connRx);
    AnswerConns(tree, s);
    var conns := Unpack(f.conns, s.connRx, n, w.conns[s.connRx..s.connRx + n]);
    Unpacked(f.conns, w.conns, s.connRx, n);
    var f2 := f.(conns := conns);
    SetWidgetKeeps(tree, s, f2);
    s1 := SetWidget(s, f2).(inFlight := s.inFlight[1..], connRx := s.connRx + n);
    SetWidgetRest(s, f2);
    WidgetsFlight(tree, SetWidget(s, f2), s1);
    WidgetAt(tree, s1);
  }

  /** The last response of a connection list is the last one in flight. */
  lemma LastResponse(tree: seq<Group>, s: State)
    requires ConnsOk(tree, s) && ConnFlow(tree, s) && s.inFlight != []
    requires s.connRx + Chunk(HwWidget(tree, s).longForm) >= |HwWidget(tree, s).conns|
    ensures |s.inFlight| == 1 && s.tx == NoHandler
  {
    hide FoundOf, VisitsBefore, CapsCmds, WidgetsOk;
  }

  lemma ReceiveConnsKeeps(tree: seq<Group>, s: State)
    requires Inv(tree, s) && s.rx == ConnList && s.inFlight != []
    ensures AtWidget(s) && s.connRx <= TheWidget(s).connLen == |TheWidget(s).conns|
    ensures Inv(tree, ReceiveConns(s, Answer(tree, s.inFlight[0])))
  {
    hide FoundOf, VisitsBefore, CapsCmds, NextWidget, WidgetsOk, ReceiveConns, Answer, TheWidget;
    var s1 := ReceiveConnsStep(tree, s);
    var w := HwWidget(tree, s);
    if s1.connRx == |w.conns| {
      LastResponse(tree, s);
      WidgetAt(tree, s1);
      assert TheWidget(s1).conns == w.conns;
      WidgetsFlight(tree, s1, s1.(rx := NoHandler));
      CapsAsk(w.kind, ConnectionListLen);
      LastConns(tree, s1.(rx := NoHandler));
    }
  }

  lemma SetWidgetRest(s: State, f: FoundWidget)
    requires AtWidget(s)
    ensures SetWidget(s, f) == s.(groups := SetWidget(s, f).groups)
  {
  }

  lemma WidgetsFlight(tree: seq<Group>, s: State, s2: State)
    requires WidgetsOk(tree, s)
    requires
      s2 == s.(inFlight := s2.inFlight, connRx := s2.connRx, connTx := s2.connTx, rx := s2.rx, tx := s2.tx,
               rxNdx := s2.rxNdx)
    ensures WidgetsOk(tree, s2) && TheWidget(s2) == TheWidget(s) && HwWidget(tree, s2) == HwWidget(tree, s)
  {
    hide FoundOf, VisitsBefore, FoundOfWidget;
  }

  lemma AnswerConns(tree: seq<Group>, s: State)
    requires ConnsOk(tree, s) && ConnFlow(tree, s) && s.inFlight != []
    ensures
      var w := HwWidget(tree, s);
      Answer(tree, s.inFlight[0]) == Conns(w.conns[s.connRx..s.connRx + Min(Chunk(w.longForm), |w.conns| - s.connRx)])
  {
    hide FoundOf, VisitsBefore, FoundOfWidget, CapsCmds;
    assert s.inFlight[0] == GetConns(WidgetNode(s.group, s.widget), s.connRx);
  }

  lemma LastConns(tree: seq<Group>, s: State)
    requires Quiet(s) && WidgetsOk(tree, s) && TheWidget(s) == FoundOfWidget(HwWidget(tree, s))
    ensures Inv(tree, NextWidget(s))
  {
    hide FoundOf, VisitsBefore, FoundOfWidget, Inv;
    NextWidgetKeeps(tree, s);
  }

  // ---------------------------------------------------------------- the work left

  function Chunks(n: int, c: nat): (r: nat)
    requires c > 0
    decreases if n > 0 then n else 0
  {
    if n <= 0 then 0 else 1 + Chunks(n - c, c)
  }

  function ConnCmds(w: Widget): (n: nat) {
    Chunks(FoundOfWidget(w).connLen, Chunk(w.longForm))
  }

  lemma {:induction false} ChunksUp(n: int, c: nat)
    requires c > 0
    ensures n <= 0 ==> Chunks(n, c) == 0
    ensures n > 0 ==> c * (Chunks(n, c) - 1) < n <= c * Chunks(n, c)
    decreases if n > 0 then n else 0
  {
    if n > 0 {
      ChunksUp(n - c, c);
    }
  }

  /** The connections of a widget that has any are fetched by just as many commands as are needed, at two to a response
      in the long form and four in the short one. */
  lemma ConnCmdsCount(w: Widget)
    ensures
      var per := if w.longForm then 2 else 4;
      var n := if MayConnect(w.kind) && w.hasConns then |w.conns| else 0;
      n <= per * ConnCmds(w) < n + per
  {
    ChunksUp(FoundOfWidget(w).connLen, Chunk(w.longForm));
  }

  // ---------------------------------------------------------------- the lists to work off

  /** One more list, unless it is empty. */
  function Before(n: nat, rest: seq<nat>): (r: seq<nat>) {
    if n == 0 then rest else [n] + rest
  }

  /** The lengths of the lists of commands, in order, ahead of the rest: for a widget once its kind is known, for whole
      widgets, for a group once its type is known, for whole groups, and for the codec. */
  function WidgetLists(w: Widget, rest: seq<nat>): (r: seq<nat>) {
    Before(|CapsCmds(w.kind)|, Before(ConnCmds(w), rest))
  }

  function WidgetsLists(ws: seq<Widget>, rest: seq<nat>): (r: seq<nat>) {
    if ws == [] then rest else [|ID_WIDGET_CMDS|] + WidgetLists(ws[0], WidgetsLists(ws[1..], rest))
  }

  function GroupLists(g: Group, rest: seq<nat>): (r: seq<nat>) {
    if g.Audio? then [|AFG_CMDS|] + WidgetsLists(g.widgets, rest) else rest
  }

  function GroupsLists(tree: seq<Group>): (r: seq<nat>) {
    if tree == [] then [] else [|ID_GROUP_CMDS|] + GroupLists(tree[0], GroupsLists(tree[1..]))
  }

  function AllLists(tree: seq<Group>): (r: seq<nat>) {
    [|ROOT_CMDS|] + GroupsLists(tree)
  }

  function Sum(l: seq<nat>): (n: nat) {
    if l == [] then 0 else l[0] + Sum(l[1..])
  }

  /** Commands and responses of the whole enumeration. */
  function TotalWork(tree: seq<Group>): (n: nat) {
    2 * Sum(AllLists(tree))
  }

  /** What comes after the present command list, or after the present widget. */
  ghost function ListsAfter(tree: seq<Group>, s: State): (r: seq<nat>)
    requires Known(tree, s)
  {
    match s.stage
    case RootStage => GroupsLists(tree)
    case IdGroup => GroupLists(tree[s.group], GroupsLists(tree[s.group + 1..]))
    case Afg => WidgetsLists(tree[s.group].widgets, GroupsLists(tree[s.group + 1..]))
    case IdWidget => WidgetLists(HwWidget(tree, s), LaterLists(tree, s))
    case Caps => Before(ConnCmds(HwWidget(tree, s)), LaterLists(tree, s))
  }

  ghost function LaterLists(tree: seq<Group>, s: State): (r: seq<nat>)
    requires WidgetsOk(tree, s)
  {
    WidgetsLists(tree[s.group].widgets[s.widget + 1..], GroupsLists(tree[s.group + 1..]))
  }

  /** The list at hand and those to come. */
  ghost function Lists(tree: seq<Group>, s: State): (r: seq<nat>)
    requires Inv(tree, s)
  {
    match s.rx
    case NoHandler => []
    case CmdList => [|s.cmds|] + ListsAfter(tree, s)
    case ConnList => [Chunks(|HwWidget(tree, s).conns|, Chunk(HwWidget(tree, s).longForm))] + LaterLists(tree, s)
  }

  /** Nothing of the list at hand has been sent. */
  predicate Unstarted(s: State) {
    match s.rx
    case NoHandler => true
    case CmdList => s.txNdx == 0 && s.rxNdx == 0
    case ConnList => s.connTx == 0 && s.connRx == 0
  }

  /** The commands still to be sent and the responses still to come in the whole enumeration. */
  ghost function Left(tree: seq<Group>, s: State): (n: nat)
    requires Inv(tree, s)
  {
    match s.rx
    case NoHandler => 0
    case CmdList => 2 * |s.cmds| - s.txNdx - s.rxNdx + 2 * Sum(ListsAfter(tree, s))
    case ConnList =>
      var w := HwWidget(tree, s);
      Chunks(|w.conns| - s.connTx, Chunk(w.longForm)) + Chunks(|w.conns| - s.connRx, Chunk(w.longForm))
        + 2 * Sum(LaterLists(tree, s))
  }

  lemma UnstartedLeft(tree: seq<Group>, s: State)
    requires Inv(tree, s) && Unstarted(s)
    ensures Left(tree, s) == 2 * Sum(Lists(tree, s))
  {
    hide ListsAfter, LaterLists, Known, WidgetsOk, ConnFlow, CapsCmds;
    match s.rx
    case NoHandler =>
    case CmdList => assert Lists(tree, s)[1..] == ListsAfter(tree, s);
    case ConnList => assert Lists(tree, s)[1..] == LaterLists(tree, s);
  }

  lemma NextGroupLists(tree: seq<Group>, s: State)
    requires Quiet(s) && s.groupCount == |tree| && -1 <= s.group < |tree| && Inv(tree, NextGroup(s))
    ensures Unstarted(NextGroup(s)) && Lists(tree, NextGroup(s)) == GroupsLists(tree[s.group + 1..])
  {
    hide GroupLists, FoundOf, VisitsBefore, Known, Complete, CapsCmds;
    var g := s.group + 1;
    if g < |tree| {
      assert tree[g..][1..] == tree[g + 1..] && tree[g..][0] == tree[g];
    }
  }

  lemma NextWidgetLists(tree: seq<Group>, s: State)
    requires Quiet(s) && GroupsOk(tree, s) && tree[s.group].Audio? && s.groups[s.group].FoundGroup?
    requires s.groups[s.group].count == |tree[s.group].widgets| && -1 <= s.widget < |tree[s.group].widgets|
    requires Inv(tree, NextWidget(s))
    ensures Unstarted(NextWidget(s))
    ensures
      Lists(tree, NextWidget(s)) ==
        WidgetsLists(tree[s.group].widgets[s.widget + 1..], GroupsLists(tree[s.group + 1..]))
  {
    hide WidgetLists, FoundOf, VisitsBefore, Known, Complete, CapsCmds, GroupsLists;
    var ws := tree[s.group].widgets;
    var w := s.widget + 1;
    if w < |ws| {
      assert ws[w..][1..] == ws[w + 1..] && ws[w..][0] == ws[w];
    } else {
      NextGroupLists(tree, s.(widget := w));
    }
  }

  /** When a list has been worked off, the next one is set up. */
  lemma FinishLists(tree: seq<Group>, s: State)
    requires Quiet(s) && Known(tree, s) && s.rxNdx == |s.cmds|
    ensures Inv(tree, Finish(s)) && Unstarted(Finish(s)) && Lists(tree, Finish(s)) == ListsAfter(tree, s)
  {
    hide FoundOf, VisitsBefore, Inv, Lists;
    FinishKeeps(tree, s);
    match s.stage
    case RootStage => FinishRootLists(tree, s);
    case IdGroup => FinishIdGroupLists(tree, s);
    case Afg => FinishAfgLists(tree, s);
    case IdWidget => FinishIdWidgetLists(tree, s);
    case Caps => FinishCapsLists(tree, s);
  }

  lemma FinishRootLists(tree: seq<Group>, s: State)
    requires Quiet(s) && Known(tree, s) && s.rxNdx == |s.cmds| && s.stage == RootStage && Inv(tree, Finish(s))
    ensures Unstarted(Finish(s)) && Lists(tree, Finish(s)) == GroupsLists(tree)
  {
    hide FoundOf, VisitsBefore;
    if |tree| != 0 {
      assert tree[0..] == tree;
      NextGroupLists(tree, s.(groups := seq(s.groupCount, i => NoGroup), group := -1));
    }
  }

  lemma FinishIdGroupLists(tree: seq<Group>, s: State)
    requires Quiet(s) && Known(tree, s) && s.rxNdx == |s.cmds| && s.stage == IdGroup && Inv(tree, Finish(s))
    ensures Unstarted(Finish(s)) && Lists(tree, Finish(s)) == ListsAfter(tree, s)
  {
    hide FoundOf, VisitsBefore, CapsCmds, WidgetsLists, GroupsLists;
    if tree[s.group].NotAudio? {
      NextGroupLists(tree, s);
    }
  }

  lemma FinishAfgLists(tree: seq<Group>, s: State)
    requires Quiet(s) && Known(tree, s) && s.rxNdx == |s.cmds| && s.stage == Afg && Inv(tree, Finish(s))
    ensures Unstarted(Finish(s)) && Lists(tree, Finish(s)) == ListsAfter(tree, s)
  {
    hide FoundOf, FoundOfWidget, VisitsBefore, Inv, WidgetsLists, GroupsLists, CapsCmds;
    var g := s.groups[s.group];
    var ws := tree[s.group].widgets;
    assert ws[0..] == ws;
    NextWidgetLists(tree, s.(groups := s.groups[s.group := g.(widgets := seq(g.count, i => BLANK))], widget := -1));
  }

  lemma FinishIdWidgetLists(tree: seq<Group>, s: State)
    requires Quiet(s) && Known(tree, s) && s.rxNdx == |s.cmds| && s.stage == IdWidget && Inv(tree, Finish(s))
    ensures Unstarted(Finish(s)) && Lists(tree, Finish(s)) == ListsAfter(tree, s)
  {
    hide FoundOf, VisitsBefore, CapsCmds, GroupsLists, WidgetsLists;
    if CapsCmds(HwWidget(tree, s).kind) == [] {
      NoLists(HwWidget(tree, s), LaterLists(tree, s));
      NextWidgetLists(tree, s);
    }
  }

  lemma NoLists(w: Widget, rest: seq<nat>)
    requires CapsCmds(w.kind) == []
    ensures WidgetLists(w, rest) == rest
  {
  }

  lemma FinishCapsLists(tree: seq<Group>, s: State)
    requires Quiet(s) && Known(tree, s) && s.rxNdx == |s.cmds| && s.stage == Caps && Inv(tree, Finish(s))
    ensures Unstarted(Finish(s)) && Lists(tree, Finish(s)) == ListsAfter(tree, s)
  {
    hide FoundOf, VisitsBefore, CapsCmds, GroupsLists, WidgetsLists;
    CapsAsk(HwWidget(tree, s).kind, ConnectionListLen);
    assert s.cmds[..s.rxNdx] == s.cmds;
    if TheWidget(s).connLen == 0 {
      NextWidgetLists(tree, s);
    }
  }

  lemma SendLeft(tree: seq<Group>, s: State)
    requires Inv(tree, s) && s.tx != NoHandler
    ensures Inv(tree, Send(s)) && Left(tree, Send(s)) == Left(tree, s) - 1 && Lists(tree, Send(s)) == Lists(tree, s)
  {
    hide Known, WidgetsOk, CapsCmds, ListsAfter, LaterLists, Sum;
    SendKeeps(tree, s);
    if s.rx == CmdList {
      AfterSame(tree, s, Send(s));
    } else {
      WidgetAt(tree, s);
      WidgetsFlight(tree, s, Send(s));
      LaterSame(tree, s, Send(s));
    }
  }

  /** The step is within the list at hand, or ends it. */
  ghost predicate ListStep(tree: seq<Group>, s: State, s2: State)
    requires Inv(tree, s) && Inv(tree, s2)
  {
    || Lists(tree, s2) == Lists(tree, s)
    || (Unstarted(s2) && s2.inFlight == [] && Lists(tree, s) != [] && Lists(tree, s2) == Lists(tree, s)[1..])
  }

  lemma ReceiveCmdLeft(tree: seq<Group>, s: State)
    requires Inv(tree, s) && s.rx == CmdList && s.inFlight != []
    ensures (s.stage in {IdGroup} ==> AtGroup(s)) && (s.stage == Afg ==> AtAudio(s))
    ensures s.stage in {IdWidget, Caps} ==> AtWidget(s)
    ensures
      var s2 := ReceiveCmd(s, Answer(tree, s.inFlight[0]));
      Inv(tree, s2) && Left(tree, s2) == Left(tree, s) - 1 && ListStep(tree, s, s2)
  {
    hide Known, Answer, Finish, ListsAfter, GroupsLists, WidgetsLists, ReceiveCmd, Sum;
    ReceiveCmdKeeps(tree, s);
    var s1 := ReceiveCmdStep(tree, s);
    FlowStep(s, s1);
    if s1.rxNdx == |s1.cmds| {
      var q := s1.(rx := NoHandler);
      AfterSame(tree, s, q);
      InPlace(tree, q);
      FinishLists(tree, q);
      UnstartedLeft(tree, Finish(q));
      UnstartedQuiet(tree, Finish(q));
      assert Lists(tree, s)[1..] == ListsAfter(tree, s);
    } else {
      AfterSame(tree, s, s1);
    }
  }

  lemma UnstartedQuiet(tree: seq<Group>, s: State)
    requires Inv(tree, s) && Unstarted(s)
    ensures s.inFlight == []
  {
    hide Known, WidgetsOk, CapsCmds;
  }

  lemma AfterSame(tree: seq<Group>, s: State, s2: State)
    requires Known(tree, s) && Known(tree, s2) && s2.stage == s.stage && s2.group == s.group && s2.widget == s.widget
    ensures ListsAfter(tree, s2) == ListsAfter(tree, s)
  {
    hide FoundOf, FoundOfWidget, VisitsBefore, CapsCmds, GroupsLists, GroupLists, WidgetsLists, WidgetLists, ConnCmds,
      Learnt, WidgetsOf;
  }

  lemma ReceiveConnsLeft(tree: seq<Group>, s: State)
    requires Inv(tree, s) && s.rx == ConnList && s.inFlight != []
    ensures AtWidget(s) && s.connRx <= TheWidget(s).connLen == |TheWidget(s).conns|
    ensures
      var s2 := ReceiveConns(s, Answer(tree, s.inFlight[0]));
      Inv(tree, s2) && Left(tree, s2) == Left(tree, s) - 1 && ListStep(tree, s, s2)
  {
    hide FoundOf, VisitsBefore, CapsCmds, NextWidget, WidgetsOk, ReceiveConns, Answer, TheWidget, LaterLists, Sum;
    ReceiveConnsKeeps(tree, s);
    var s1 := ReceiveConnsStep(tree, s);
    var w := HwWidget(tree, s);
    if s1.connRx == |w.conns| {
      var q := s1.(rx := NoHandler);
      LastResponse(tree, s);
      WidgetsFlight(tree, s1, q);
      WidgetAt(tree, q);
      LastConnsLists(tree, q);
      LaterSame(tree, s, q);
      UnstartedLeft(tree, NextWidget(q));
      UnstartedQuiet(tree, NextWidget(q));
      assert Lists(tree, s)[1..] == LaterLists(tree, s);
    } else {
      LaterSame(tree, s, s1);
    }
  }

  lemma LastConnsLists(tree: seq<Group>, s: State)
    requires Quiet(s) && WidgetsOk(tree, s) && Inv(tree, NextWidget(s))
    ensures Unstarted(NextWidget(s)) && Lists(tree, NextWidget(s)) == LaterLists(tree, s)
  {
    hide FoundOf, VisitsBefore, FoundOfWidget, Inv, Lists, GroupsLists, WidgetsLists;
    NextWidgetLists(tree, s);
  }

  lemma LaterSame(tree: seq<Group>, s: State, s2: State)
    requires WidgetsOk(tree, s) && WidgetsOk(tree, s2) && s2.group == s.group && s2.widget == s.widget
    ensures LaterLists(tree, s2) == LaterLists(tree, s)
  {
    hide FoundOf, VisitsBefore, FoundOfWidget, GroupsLists, WidgetsLists;
  }

  /** As many sends as there is room for in the ring, or until nothing more is to be sent. */
  ghost function SendMany(tree: seq<Group>, s: State, room: nat): (s2: State)
    requires Inv(tree, s)
    ensures Inv(tree, s2) && s2.rx == s.rx && s.inFlight <= s2.inFlight
    ensures |s2.inFlight| == |s.inFlight| + room || (s2.tx == NoHandler && |s2.inFlight| <= |s.inFlight| + room)
    decreases room
  {
    if room == 0 || s.tx == NoHandler then s
    else
      SendKeeps(tree, s);
      SendMany(tree, Send(s), room - 1)
  }

  // ---------------------------------------------------------------- whole enumerations

  datatype Step = Sends | Receives

  /** One command goes out, or the oldest command in flight is answered. */
  ghost predicate Next(tree: seq<Group>, s: State, step: Step, s2: State) {
    match step
    case Sends =>
      && s.tx != NoHandler && (s.tx == CmdList ==> s.txNdx < |s.cmds|) && (s.tx == ConnList ==> AtWidget(s))
      && s2 == Send(s)
    case Receives =>
      && s.inFlight != []
      && match s.rx
         case NoHandler => s2 == s.(inFlight := s.inFlight[1..])
         case CmdList =>
           && s.rxNdx < |s.cmds| && (s.stage in {IdGroup} ==> AtGroup(s)) && (s.stage == Afg ==> AtAudio(s))
           && (s.stage in {IdWidget, Caps} ==> AtWidget(s)) && s2 == ReceiveCmd(s, Answer(tree, s.inFlight[0]))
         case ConnList =>
           && AtWidget(s) && s.connRx <= TheWidget(s).connLen == |TheWidget(s).conns|
           && s2 == ReceiveConns(s, Answer(tree, s.inFlight[0]))
  }

  /** A response takes the oldest command off those in flight and adds none. */
  lemma ReceivesHead(tree: seq<Group>, s: State, s2: State)
    requires Next(tree, s, Receives, s2)
    ensures s.inFlight != [] && s2.inFlight == s.inFlight[1..]
  {
    hide Answer, Unpack, Send;
  }

  lemma SendsOneMore(tree: seq<Group>, s: State, s2: State)
    requires Next(tree, s, Sends, s2)
    ensures |s2.inFlight| == |s.inFlight| + 1
  {
    hide ReceiveCmd, ReceiveConns, Answer;
  }

  lemma StepKeeps(tree: seq<Group>, s: State, step: Step, s2: State)
    requires Inv(tree, s) && Next(tree, s, step, s2)
    ensures Inv(tree, s2) && Left(tree, s2) == Left(tree, s) - 1 && ListStep(tree, s, s2)
  {
    hide Known, ConnsOk, ConnFlow, Left, Lists, ReceiveCmd, ReceiveConns, Send, Answer;
    if step == Sends {
      SendLeft(tree, s);
    } else if s.rx == CmdList {
      ReceiveCmdLeft(tree, s);
    } else if s.rx == ConnList {
      ReceiveConnsLeft(tree, s);
    }
  }

  ghost predicate IsRun(tree: seq<Group>, steps: seq<Step>, states: seq<State>) {
    && |states| == |steps| + 1 && states[0] == Start()
    && forall i | 0 <= i < |steps| :: Next(tree, states[i], steps[i], states[i + 1])
  }

  /** Every run keeps the invariant and every step of it uses up one unit of a work that is fixed by the codec. */
  lemma {:induction false} RunKeeps(tree: seq<Group>, steps: seq<Step>, states: seq<State>, i: nat)
    requires IsRun(tree, steps, states) && i < |states|
    ensures Inv(tree, states[i]) && Left(tree, states[i]) + i == TotalWork(tree)
  {
    hide Inv, Left, Next, TotalWork, AllLists, Lists, ListStep, Unstarted, Start;
    if i == 0 {
      StartInv(tree);
      StartLeft(tree);
    } else {
      RunKeeps(tree, steps, states, i - 1);
      StepKeeps(tree, states[i - 1], steps[i - 1], states[i]);
    }
  }

  lemma StartLeft(tree: seq<Group>)
    ensures Inv(tree, Start()) && Left(tree, Start()) == TotalWork(tree)
    ensures Unstarted(Start()) && Lists(tree, Start()) == AllLists(tree)
  {
    StartInv(tree);
    UnstartedLeft(tree, Start());
  }

  /** A run comes to its end: no run is longer than the work there is, and as long as work is left a command can be sent
      or an answer is on its way. */
  lemma Terminates(tree: seq<Group>, steps: seq<Step>, states: seq<State>)
    requires IsRun(tree, steps, states)
    ensures |steps| <= TotalWork(tree)
    ensures
      var s := states[|steps|];
      |steps| < TotalWork(tree) ==> s.tx != NoHandler || s.inFlight != []
  {
    hide TotalWork, Next;
    RunKeeps(tree, steps, states, |steps|);
    StillGoing(tree, states[|steps|]);
  }

  lemma StillGoing(tree: seq<Group>, s: State)
    requires Inv(tree, s)
    ensures Left(tree, s) > 0 ==> s.tx != NoHandler || s.inFlight != []
    ensures Left(tree, s) == 0 ==> Complete(tree, s)
  {
    hide FoundOf, VisitsBefore, CapsCmds, WidgetsOk, GroupsOk, ListsAfter, LaterLists, FoundOfWidget;
  }

  /** When it has ended the driver's picture of the codec is right: every group, every widget of every audio group,
      every connection list, each visited once and in order. */
  lemma EnumeratesAll(tree: seq<Group>, steps: seq<Step>, states: seq<State>)
    requires IsRun(tree, steps, states) && |steps| == TotalWork(tree)
    ensures
      var s := states[|steps|];
      && s.groupCount == |tree| == |s.groups| && s.visited == VisitsBefore(tree, |tree|) && s.inFlight == []
      && (forall i | 0 <= i < |tree| :: s.groups[i] == FoundOf(tree[i]))
  {
    hide TotalWork, Next, FoundOf, VisitsBefore;
    RunKeeps(tree, steps, states, |steps|);
    StillGoing(tree, states[|steps|]);
  }

  /** The visits before group n are the widgets of the audio groups before n, each exactly once. */
  lemma {:induction false} VisitsExact(tree: seq<Group>, n: nat)
    requires n <= |tree|
    ensures forall g: nat, w: nat ::
              (g, w) in VisitsBefore(tree, n) <==> g < n && tree[g].Audio? && w < |tree[g].widgets|
    ensures forall i, j | 0 <= i < j < |VisitsBefore(tree, n)| :: VisitsBefore(tree, n)[i] != VisitsBefore(tree, n)[j]
  {
    if n > 0 {
      VisitsExact(tree, n - 1);
      var before := VisitsBefore(tree, n - 1);
      if tree[n - 1].Audio? {
        var here := WidgetsOf(n - 1, |tree[n - 1].widgets|);
        forall g: nat, w: nat
          ensures (g, w) in before + here <==> g < n && tree[g].Audio? && w < |tree[g].widgets|
        {
          if g == n - 1 && w < |tree[g].widgets| {
            assert here[w] == (g, w);
          }
        }
        Disjoint(before, here, n - 1);
      }
    }
  }

  lemma Disjoint(before: seq<(nat, nat)>, here: seq<(nat, nat)>, g: nat)
    requires forall v | v in before :: v.0 < g
    requires forall i | 0 <= i < |here| :: here[i] == (g, i)
    requires forall i, j | 0 <= i < j < |before| :: before[i] != before[j]
    ensures forall i, j | 0 <= i < j < |before + here| :: (before + here)[i] != (before + here)[j]
  {
    var all := before + here;
    forall i, j | 0 <= i < j < |all| ensures all[i] != all[j] {
      if i < |before| {
        assert all[i] in before;
      }
    }
  }

  /** The answer that comes next is the answer to the command whose handler will take it, and the answers outstanding
      are the commands sent less the responses taken. */
  lemma AnswersMatch(tree: seq<Group>, steps: seq<Step>, states: seq<State>, i: nat)
    requires IsRun(tree, steps, states) && i < |states|
    ensures
      var s := states[i];
      match s.rx
      case CmdList =>
        |s.inFlight| == s.txNdx - s.rxNdx && s.rxNdx < |s.cmds|
        && (s.inFlight != [] ==> s.inFlight[0] == Get(NodeOf(s), s.cmds[s.rxNdx]))
      case ConnList =>
        AtWidget(s) && s.connTx == s.connRx + Chunk(TheWidget(s).longForm) * |s.inFlight|
        && (s.inFlight != [] ==> s.inFlight[0] == GetConns(WidgetNode(s.group, s.widget), s.connRx))
      case NoHandler => s.inFlight == []
  {
    hide Next, FoundOf, VisitsBefore, CapsCmds;
    RunKeeps(tree, steps, states, i);
  }
}
