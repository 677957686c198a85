/** The Responses stream session as functions on values: semantic events in,
    numbered frames out. Every step returns the state it leaves behind and the
    error it reports. */
module SessionSpec {
  import opened Bridge

  // ----- frames -----

  datatype ItemKey = TextItem(choice: int) | ToolItem(key: ToolKey)

  datatype Status = InProgress | StatusCompleted | StatusIncomplete

  /** An output item as it is written inside a frame. */
  datatype Snapshot =
    | TextSnapshot(id: string, status: Status, content: Option<string>)
    | ToolSnapshot(id: string, status: Status, kind: ToolKind, callId: string, name: string, arguments: string)

  datatype Ending = EndCompleted | EndIncomplete(maxTokens: bool) | EndFailed(code: FailureCode)

  datatype Response = Response(model: string, output: seq<Snapshot>, usage: Option<Usage>)

  datatype Body =
    | CreatedFrame(response: Response)
    | InProgressFrame(response: Response)
    | ItemAdded(index: nat, item: Snapshot)
    | PartAdded(index: nat, itemId: string)
    | TextDeltaFrame(index: nat, itemId: string, delta: string)
    | TextDoneFrame(index: nat, itemId: string, text: string)
    | PartDone(index: nat, itemId: string, text: string)
    | ArgumentsDeltaFrame(index: nat, itemId: string, kind: ToolKind, delta: string)
    | ArgumentsDoneFrame(index: nat, itemId: string, kind: ToolKind, name: string, arguments: string)
    | ItemDone(index: nat, item: Snapshot)
    | TerminalFrame(ending: Ending, response: Response)

  datatype Frame = Frame(seqNo: nat, body: Body)

  // ----- configuration and state -----

  /** writeOk(n) tells whether the write carrying sequence number n succeeds;
      a cancelled request is a failing write. newId is the id generator. */
  datatype Config = Config(
    maxAggregate: int, maxToolArguments: int, maxOutput: int, maxText: int, maxReasoning: int,
    customKinds: set<ToolKind>, newId: (IdPrefix, nat) -> string, writeOk: nat -> bool, utf8: Utf8Test)

  datatype IdPrefix = MessageId | FunctionId | CustomId | OtherToolId | CallId

  datatype Progress = Progress(status: Status, contentDone: bool, itemDone: bool)

  datatype Item = Item(key: ItemKey, id: string, index: nat, tool: Tool, payload: string, progress: Progress)

  /** kind, callId and name of a tool item; unused for text items. */
  datatype Tool = Tool(kind: ToolKind, callId: string, name: string)

  datatype Ledger = Ledger(aggregate: int, text: int, output: int, reasoning: int)

  /** invalid is a ghost mark: the session has been in invalidTransitionLocked. */
  datatype Flags = Flags(started: bool, terminal: bool, failed: bool, invalid: bool)

  datatype Wire = Wire(frames: seq<Frame>, seqNo: nat)

  datatype Table = Table(items: seq<Item>, byKey: map<ItemKey, nat>, nextIndex: nat)

  datatype State = State(wire: Wire, flags: Flags, table: Table, ledger: Ledger, model: string, usage: Option<Usage>)

  datatype Error = NoError | WriteError | TransitionError | TerminalError | LimitError

  datatype Out = Out(st: State, err: Error)

  function Initial(model: string): State {
    State(Wire([], 0), Flags(false, false, false, false), Table([], map[], 0), Ledger(0, 0, 0, 0), model, None)
  }

  const STATE_OVERHEAD := 32

  const MAX_ITEM_ID := 128
  const MAX_CALL_ID := 256
  const MAX_MODEL := 256

  // ----- writing -----

  function Write(c: Config, s: State, body: Body): (o: Out)
    ensures o.st.table == s.table
  {
    if s.flags.failed then Out(s, WriteError)
    else if !c.writeOk(s.wire.seqNo) then Out(s.(flags := s.flags.(failed := true)), WriteError)
    else Out(s.(wire := Wire(s.wire.frames + [Frame(s.wire.seqNo, body)], s.wire.seqNo + 1)), NoError)
  }

  function SnapshotOf(item: Item, status: Status): Snapshot {
    match item.key
    case TextItem(_) =>
      TextSnapshot(item.id, status,
        if item.progress.contentDone || item.progress.itemDone then Some(item.payload) else None)
    case ToolItem(_) =>
      ToolSnapshot(item.id, status, item.tool.kind, item.tool.callId, item.tool.name, item.payload)
  }

  function Outputs(items: seq<Item>): seq<Snapshot> {
    seq(|items|, i requires 0 <= i < |items| => SnapshotOf(items[i], items[i].progress.status))
  }

  function ResponseOf(s: State): Response {
    Response(s.model, Outputs(s.table.items), s.usage)
  }

  function StartSession(c: Config, s: State): (o: Out)
    ensures o.st.table == s.table
  {
    var s1 := s.(flags := s.flags.(started := true));
    var o := Write(c, s1, CreatedFrame(ResponseOf(s1)));
    if o.err != NoError then o else Write(c, o.st, InProgressFrame(ResponseOf(o.st)))
  }

  function EnsureStarted(c: Config, s: State): (o: Out)
    ensures o.st.table == s.table
  {
    if s.flags.started then Out(s, NoError) else StartSession(c, s)
  }

  // ----- items -----

  function SetItem(s: State, i: nat, item: Item): State
    requires i < |s.table.items|
  {
    s.(table := s.table.(items := s.table.items[i := item]))
  }

  function FinishText(c: Config, s: State, i: nat, status: Status): (o: Out)
    requires i < |s.table.items|
    ensures |o.st.table.items| == |s.table.items|
  {
    var item := s.table.items[i];
    if item.progress.contentDone || item.progress.itemDone then Out(s, NoError)
    else
      var o := Write(c, s, TextDoneFrame(item.index, item.id, item.payload));
      if o.err != NoError then o
      else
        var item1 := item.(progress := item.progress.(contentDone := true));
        var o1 := Write(c, SetItem(o.st, i, item1), PartDone(item.index, item.id, item.payload));
        if o1.err != NoError then o1
        else
          var item2 := item.(progress := Progress(status, true, true));
          Write(c, SetItem(o1.st, i, item2), ItemDone(item.index, SnapshotOf(item2, status)))
  }

  function FinishTool(c: Config, s: State, i: nat, status: Status): (o: Out)
    requires i < |s.table.items|
    ensures |o.st.table.items| == |s.table.items|
  {
    var item := s.table.items[i];
    if item.progress.itemDone then Out(s, NoError)
    else
      var o := Write(c, s, ArgumentsDoneFrame(item.index, item.id, item.tool.kind, item.tool.name, item.payload));
      if o.err != NoError then o
      else
        var item1 := item.(progress := Progress(status, item.progress.contentDone, true));
        Write(c, SetItem(o.st, i, item1), ItemDone(item.index, SnapshotOf(item1, status)))
  }

  function FinishOne(c: Config, s: State, i: nat, status: Status): (o: Out)
    requires i < |s.table.items|
    ensures s.wire.frames <= o.st.wire.frames
    ensures |o.st.table.items| == |s.table.items|
  {
    if s.table.items[i].key.TextItem? then FinishText(c, s, i, status) else FinishTool(c, s, i, status)
  }

  predicate LacksIdentity(item: Item) {
    item.key.ToolItem? && (item.tool.callId == "" || item.tool.name == "")
  }

  function FinishItems(c: Config, s: State, status: Status, needIdentity: bool, i: nat): (o: Out)
    requires i <= |s.table.items|
    ensures s.wire.frames <= o.st.wire.frames
    ensures |o.st.table.items| == |s.table.items|
    decreases |s.table.items| - i
  {
    if i == |s.table.items| then Out(s, NoError)
    else
      var item := s.table.items[i];
      if item.progress.itemDone then FinishItems(c, s, status, needIdentity, i + 1)
      else if needIdentity && LacksIdentity(item) then InvalidTransition(c, s)
      else
        var o := FinishOne(c, s, i, status);
        if o.err != NoError then o else FinishItems(c, o.st, status, needIdentity, i + 1)
  }

  // ----- failing -----

  function WriteTerminal(c: Config, s: State, ending: Ending): (o: Out)
  {
    var s1 := s.(flags := s.flags.(terminal := true));
    Write(c, s1, TerminalFrame(ending, ResponseOf(s1)))
  }

  function InvalidTransition(c: Config, s: State): (o: Out)
    ensures s.wire.frames <= o.st.wire.frames
    ensures o.st.table == s.table && o.err != NoError
  {
    var marked := s.(flags := s.flags.(invalid := true));
    if s.flags.terminal then Out(marked, TerminalError)
    else if s.flags.failed then Out(marked, WriteError)
    else
      var o := EnsureStarted(c, marked);
      if o.err != NoError then o
      else
        var o1 := WriteTerminal(c, o.st, EndFailed(StreamInvalidTransition));
        if o1.err != NoError then o1 else Out(o1.st, TransitionError)
  }

  function Limit(c: Config, s: State): (o: Out)
    ensures s.wire.frames <= o.st.wire.frames
    ensures o.err != NoError
  {
    if s.flags.terminal then Out(s, TerminalError)
    else if s.flags.failed then Out(s, WriteError)
    else
      var o := EnsureStarted(c, s);
      if o.err != NoError then o
      else
        var o1 := FinishItems(c, o.st, StatusIncomplete, false, 0);
        if o1.err != NoError then o1
        else
          var o2 := WriteTerminal(c, o1.st, EndFailed(StreamLimitExceeded));
          if o2.err != NoError then o2 else Out(o2.st, LimitError)
  }

  function Spend(s: State, bytes: int): State {
    s.(ledger := s.ledger.(aggregate := s.ledger.aggregate + bytes))
  }

  predicate CanSpend(c: Config, s: State, bytes: int) {
    bytes >= 0 && bytes <= c.maxAggregate && s.ledger.aggregate <= c.maxAggregate - bytes
  }

  // ----- opening items -----

  function NewItem(c: Config, s: State, key: ItemKey, prefix: IdPrefix, tool: Tool): (o: Out)
    ensures o.err == NoError ==> |o.st.table.items| == |s.table.items| + 1
  {
    var id := c.newId(prefix, s.table.nextIndex);
    if !ValidStreamValue(c.utf8, id, MAX_ITEM_ID) then Out(s, TransitionError)
    else if !CanSpend(c, s, |id| + STATE_OVERHEAD) then Limit(c, s)
    else
      var item := Item(key, id, s.table.nextIndex, tool, "", Progress(InProgress, false, false));
      var s1 := Spend(s, |id| + STATE_OVERHEAD);
      Out(s1.(table := Table(s.table.items + [item], s.table.byKey[key := |s.table.items|], s.table.nextIndex + 1)),
        NoError)
  }

  function AnnounceText(c: Config, s: State, i: nat): (o: Out)
    requires i < |s.table.items|
    ensures o.st.table == s.table
  {
    var item := s.table.items[i];
    var o := Write(c, s, ItemAdded(item.index, SnapshotOf(item, InProgress)));
    if o.err != NoError then o else Write(c, o.st, PartAdded(item.index, item.id))
  }

  function NewTextItem(c: Config, s: State, choice: int): (o: Out)
    ensures o.err == NoError ==> |o.st.table.items| == |s.table.items| + 1
  {
    var o := NewItem(c, s, TextItem(choice), MessageId, Tool(KindFunction, "", ""));
    if o.err != NoError then o else AnnounceText(c, o.st, |s.table.items|)
  }

  // ----- one semantic event -----

  function HandleResponseStarted(c: Config, s: State, model: string): (o: Out)
    ensures s.wire.frames <= o.st.wire.frames
  {
    if s.flags.started then Out(s, NoError)
    else if model != "" && !ValidStreamValue(c.utf8, model, MAX_MODEL) then InvalidTransition(c, s)
    else StartSession(c, if model != "" then s.(model := model) else s)
  }

  function AppendText(c: Config, s: State, i: nat, text: string): (o: Out)
    requires i < |s.table.items|
  {
    var item := s.table.items[i];
    if item.progress.itemDone then InvalidTransition(c, s)
    else if text == "" then Out(s, NoError)
    else if |text| > c.maxText - s.ledger.text || |text| > c.maxOutput - s.ledger.output || !CanSpend(c, s, |text|)
      then Limit(c, s)
    else
      var l := s.ledger;
      var s1 := SetItem(s, i, item.(payload := item.payload + text));
      var s2 := s1.(ledger := Ledger(l.aggregate + |text|, l.text + |text|, l.output + |text|, l.reasoning));
      Write(c, s2, TextDeltaFrame(item.index, item.id, text))
  }

  function HandleText(c: Config, s: State, choice: int, text: string): (o: Out)
    ensures s.wire.frames <= o.st.wire.frames
  {
    if choice < 0 then InvalidTransition(c, s)
    else
      var o := EnsureStarted(c, s);
      if o.err != NoError then o
      else if !c.utf8(text) then InvalidTransition(c, o.st)
      else HandleTextItem(c, o.st, choice, text)
  }

  /** The position of the item with this key; TableOk says the map is exact. */
  function Lookup(t: Table, key: ItemKey): (i: Option<nat>)
    ensures i.Some? ==> i.value < |t.items|
  {
    if key in t.byKey && t.byKey[key] < |t.items| then Some(t.byKey[key]) else None
  }

  function HandleTextItem(c: Config, s: State, choice: int, text: string): (o: Out)
    ensures s.wire.frames <= o.st.wire.frames
  {
    var i := Lookup(s.table, TextItem(choice));
    if i.Some? then AppendText(c, s, i.value, text)
    else if text == "" then Out(s, NoError)
    else
      var o := NewTextItem(c, s, choice);
      if o.err != NoError then o else AppendText(c, o.st, |s.table.items|, text)
  }

  function HandleReasoning(c: Config, s: State, choice: int, text: string): (o: Out)
    ensures s.wire.frames <= o.st.wire.frames
  {
    if choice < 0 || !c.utf8(text) then InvalidTransition(c, s)
    else
      var o := EnsureStarted(c, s);
      if o.err != NoError then o
      else if text == "" then o
      else if |text| > c.maxReasoning - o.st.ledger.reasoning || !CanSpend(c, o.st, |text|) then Limit(c, o.st)
      else
        var l := o.st.ledger;
        Out(o.st.(ledger := l.(aggregate := l.aggregate + |text|, reasoning := l.reasoning + |text|)), NoError)
  }

  function HandleUsage(c: Config, s: State, usage: Usage): (o: Out)
    ensures s.wire.frames <= o.st.wire.frames
  {
    var o := EnsureStarted(c, s);
    if o.err != NoError then o else Out(o.st.(usage := Some(usage)), NoError)
  }

  function PrefixOf(kind: ToolKind): IdPrefix {
    if kind == KindFunction then FunctionId else if kind == KindCustom then CustomId else OtherToolId
  }

  function HandleToolStarted(c: Config, s: State, key: ToolKey, givenKind: ToolKind, callId: string,
                             name: string): (o: Out)
    ensures s.wire.frames <= o.st.wire.frames
  {
    var kind := if givenKind == KindUnset then KindFunction else givenKind;
    if key.choice < 0 || key.tool < 0 then InvalidTransition(c, s)
    else if !ValidOptionalStreamValue(c.utf8, callId, MAX_CALL_ID) ||
      !ValidOptionalStreamValue(c.utf8, name, MAX_CALL_ID)
      then InvalidTransition(c, s)
    else
      var o := EnsureStarted(c, s);
      if o.err != NoError then o
      else if Lookup(o.st.table, ToolItem(key)).Some? then InvalidTransition(c, o.st)
      else if kind != KindFunction && kind !in c.customKinds then InvalidTransition(c, o.st)
      else OpenTool(c, o.st, key, kind, callId, name)
  }

  function OpenTool(c: Config, s: State, key: ToolKey, kind: ToolKind, givenId: string, name: string): (o: Out)
    ensures s.wire.frames <= o.st.wire.frames
  {
    var o := NewItem(c, s, ToolItem(key), PrefixOf(kind), Tool(kind, "", ""));
    if o.err != NoError then o else AnnounceTool(c, o.st, |s.table.items|, givenId, name)
  }

  function AnnounceTool(c: Config, s: State, i: nat, givenId: string, name: string): (o: Out)
    requires i < |s.table.items|
    ensures s.wire.frames <= o.st.wire.frames
  {
    var item := s.table.items[i];
    var callId := if givenId == "" then c.newId(CallId, item.index) else givenId;
    var s1 := SetItem(s, i, item.(tool := item.tool.(callId := callId)));
    if !ValidStreamValue(c.utf8, callId, MAX_CALL_ID) then InvalidTransition(c, s1)
    else if !CanSpend(c, s1, |callId| + |name|) then Limit(c, s1)
    else
      var item1 := item.(tool := item.tool.(callId := callId, name := item.tool.name + name));
      var s2 := Spend(SetItem(s, i, item1), |callId| + |name|);
      Write(c, s2, ItemAdded(item.index, SnapshotOf(item1, InProgress)))
  }

  /** The index of the item of a tool call that is still open, if there is one. */
  function ActiveTool(s: State, key: ToolKey): (i: Option<nat>)
    ensures i.Some? ==> i.value < |s.table.items| && !s.table.items[i.value].progress.itemDone
  {
    var i := Lookup(s.table, ToolItem(key));
    if i.Some? && !s.table.items[i.value].progress.itemDone then i else None
  }

  function HandleMetadata(c: Config, s: State, key: ToolKey, callId: string, name: string): (o: Out)
    ensures s.wire.frames <= o.st.wire.frames
  {
    var i := ActiveTool(s, key);
    if i.None? then InvalidTransition(c, s)
    else if !ValidOptionalStreamValue(c.utf8, callId, MAX_CALL_ID) ||
      !ValidOptionalStreamValue(c.utf8, name, MAX_CALL_ID)
      then InvalidTransition(c, s)
    else if !CanSpend(c, s, |callId| + |name|) then Limit(c, s)
    else
      var s1 := Spend(s, |callId| + |name|);
      var item := s.table.items[i.value];
      if callId != "" && item.tool.callId != callId then InvalidTransition(c, s1)
      else Out(SetItem(s1, i.value, item.(tool := item.tool.(name := item.tool.name + name))), NoError)
  }

  function HandleArguments(c: Config, s: State, key: ToolKey, arguments: string): (o: Out)
    ensures s.wire.frames <= o.st.wire.frames
  {
    var i := ActiveTool(s, key);
    if i.None? || !c.utf8(arguments) then InvalidTransition(c, s)
    else if arguments == "" then Out(s, NoError)
    else AppendArguments(c, s, i.value, arguments)
  }

  function AppendArguments(c: Config, s: State, i: nat, arguments: string): (o: Out)
    requires i < |s.table.items|
  {
    var item := s.table.items[i];
    if |arguments| > c.maxOutput - s.ledger.output || |arguments| > c.maxToolArguments - |item.payload| ||
       !CanSpend(c, s, |arguments|)
    then Limit(c, s)
    else
      var l := s.ledger;
      var s1 := SetItem(s, i, item.(payload := item.payload + arguments));
      var s2 := s1.(ledger := l.(aggregate := l.aggregate + |arguments|, output := l.output + |arguments|));
      Write(c, s2, ArgumentsDeltaFrame(item.index, item.id, item.tool.kind, arguments))
  }

  predicate BadCompletion(c: Config, s: State, i: nat, kind: ToolKind, callId: string, name: string, arguments: string)
    requires i < |s.table.items|
  {
    || (kind != KindUnset && kind != s.table.items[i].tool.kind)
    || !ValidOptionalStreamValue(c.utf8, callId, MAX_CALL_ID) || !ValidOptionalStreamValue(c.utf8, name, MAX_CALL_ID)
    || !c.utf8(arguments)
  }

  predicate LargeCompletion(c: Config, s: State, i: nat, callId: string, name: string, arguments: string)
    requires i < |s.table.items|
  {
    || |arguments| > c.maxToolArguments
    || (arguments != "" && |arguments| > c.maxOutput - (s.ledger.output - |s.table.items[i].payload|))
    || !CanSpend(c, s, |callId| + |name| + |arguments|)
  }

  function HandleToolCompleted(c: Config, s: State, key: ToolKey, kind: ToolKind, callId: string, name: string,
                               arguments: string): (o: Out)
    ensures s.wire.frames <= o.st.wire.frames
  {
    var i := ActiveTool(s, key);
    if i.None? || BadCompletion(c, s, i.value, kind, callId, name, arguments) then InvalidTransition(c, s)
    else if LargeCompletion(c, s, i.value, callId, name, arguments) then Limit(c, s)
    else CloseTool(c, Spend(s, |callId| + |name| + |arguments|), i.value, callId, name, arguments)
  }

  /** The item after the completion event has replaced its name and arguments. */
  function RewrittenItem(item: Item, name: string, arguments: string): Item {
    item.(tool := item.tool.(name := if name != "" then name else item.tool.name),
          payload := if arguments != "" || item.payload == "" then arguments else item.payload)
  }

  function Rewritten(s: State, i: nat, name: string, arguments: string): (r: State)
    requires i < |s.table.items|
    ensures |r.table.items| == |s.table.items|
  {
    var item := s.table.items[i];
    var output1 := if arguments != "" then s.ledger.output + |arguments| - |item.payload| else s.ledger.output;
    SetItem(s, i, RewrittenItem(item, name, arguments)).(ledger := s.ledger.(output := output1))
  }

  function CloseTool(c: Config, s: State, i: nat, callId: string, name: string, arguments: string): (o: Out)
    requires i < |s.table.items|
    ensures s.wire.frames <= o.st.wire.frames
  {
    if callId != "" && s.table.items[i].tool.callId != callId then InvalidTransition(c, s)
    else
      var s1 := Rewritten(s, i, name, arguments);
      if LacksIdentity(s1.table.items[i]) then InvalidTransition(c, s1) else FinishTool(c, s1, i, StatusCompleted)
  }

  function SafeCode(c: Config, code: FailureCode): FailureCode {
    if code.OtherCode? && !ValidStreamValue(c.utf8, code.text, 64) then GenericStreamError else code
  }

  function HandleTerminal(c: Config, s: State, status: Status, needIdentity: bool, ending: Ending): (o: Out)
    ensures s.wire.frames <= o.st.wire.frames
  {
    var o := EnsureStarted(c, s);
    if o.err != NoError then o
    else
      var o1 := FinishItems(c, o.st, status, needIdentity, 0);
      if o1.err != NoError then o1 else WriteTerminal(c, o1.st, ending)
  }

  function Dispatch(c: Config, s: State, e: Event): (o: Out)
    ensures s.wire.frames <= o.st.wire.frames
  {
    match e
    case ResponseStarted(_, model) => HandleResponseStarted(c, s, model)
    case TextDelta(choice, text) => HandleText(c, s, choice, text)
    case ReasoningDelta(choice, text) => HandleReasoning(c, s, choice, text)
    case UsageUpdated(usage) => HandleUsage(c, s, usage)
    case ToolCallStarted(key, kind, callId, name) => HandleToolStarted(c, s, key, kind, callId, name)
    case ToolCallMetadata(key, callId, name) => HandleMetadata(c, s, key, callId, name)
    case ToolCallArguments(key, arguments) => HandleArguments(c, s, key, arguments)
    case ToolCallCompleted(key, kind, callId, name, arguments) => HandleToolCompleted(c, s, key, kind, callId, name,
      arguments)
    case Completed => HandleTerminal(c, s, StatusCompleted, true, EndCompleted)
    case Incomplete(maxTokens) => HandleTerminal(c, s, StatusIncomplete, false, EndIncomplete(maxTokens))
    case Failed(code) => HandleTerminal(c, s, StatusIncomplete, false, EndFailed(SafeCode(c, code)))
    case NilEvent => InvalidTransition(c, s)
  }

  function Handle(c: Config, s: State, e: Event): (o: Out)
    ensures s.wire.frames <= o.st.wire.frames
  {
    if s.flags.failed then Out(s, WriteError)
    else if s.flags.terminal then Out(s, TerminalError)
    else Dispatch(c, s, e)
  }

  function Start(c: Config, s: State): (o: Out)
    ensures s.wire.frames <= o.st.wire.frames
  {
    if s.flags.failed then Out(s, WriteError)
    else if s.flags.terminal then Out(s, TerminalError)
    else if s.flags.started then InvalidTransition(c, s)
    else StartSession(c, s)
  }

  /** Positions are output indexes, and the map is the exact inverse of the list. */
  predicate TableOk(t: Table) {
    && t.nextIndex == |t.items|
    && (forall k :: k in t.byKey ==> t.byKey[k] < |t.items| && t.items[t.byKey[k]].key == k)
    && (forall i :: 0 <= i < |t.items| ==>
      t.items[i].index == i && t.items[i].key in t.byKey && t.byKey[t.items[i].key] == i)
  }

  // ----- whole runs -----

  datatype Call = CallStart | CallHandle(event: Event)

  function Apply(c: Config, s: State, call: Call): (o: Out)
    ensures s.wire.frames <= o.st.wire.frames
  {
    match call
    case CallStart => Start(c, s)
    case CallHandle(e) => Handle(c, s, e)
  }

  /** The state after any sequence of calls, whatever they returned. */
  function RunCalls(c: Config, s: State, calls: seq<Call>): State
    decreases |calls|
  {
    if calls == [] then s else Apply(c, RunCalls(c, s, calls[..|calls| - 1]), calls[|calls| - 1]).st
  }
}
