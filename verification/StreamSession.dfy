/** The Responses session as the source writes it: one object whose handlers update
    its counters and its items and write frames as they go. Every method is proved
    to be the function of SessionSpec with the same name. */
module StreamSession {
  import opened Bridge
  import opened SessionSpec

  class Session {
    const config: Config
    var frames: seq<Frame>
    var sequenceNumber: nat
    var started: bool
    var terminalEmitted: bool
    var writeFailed: bool
    ghost var invalid: bool
    var itemOrder: seq<Item>
    var items: map<ItemKey, nat>
    var nextOutputIndex: nat
    var aggregateBytes: int
    var textBytes: int
    var outputBytes: int
    var reasoningBytes: int
    var model: string
    var usage: Option<Usage>

    ghost function State(): State
      reads this
    {
      SessionSpec.State(Wire(frames, sequenceNumber), Flags(started, terminalEmitted, writeFailed, invalid),
        Table(itemOrder, items, nextOutputIndex), Ledger(aggregateBytes, textBytes, outputBytes, reasoningBytes),
          model, usage)
    }

    constructor (config: Config, model: string)
      ensures this.config == config && State() == Initial(model)
    {
      this.config, this.model, usage := config, model, None;
      frames, sequenceNumber, started, terminalEmitted, writeFailed, invalid := [], 0, false, false, false, false;
      itemOrder, items, nextOutputIndex := [], map[], 0;
      aggregateBytes, textBytes, outputBytes, reasoningBytes := 0, 0, 0, 0;
    }

    // ----- writing -----

    /** writeEventLocked. */
    method Write(body: Body) returns (err: Error)
      modifies `frames, `sequenceNumber, `writeFailed
      ensures Out(State(), err) == SessionSpec.Write(config, old(State()), body)
    {
      if writeFailed {
        return WriteError;
      }
      if !config.writeOk(sequenceNumber) {
        writeFailed := true;
        return WriteError;
      }
      frames := frames + [Frame(sequenceNumber, body)];
      sequenceNumber := sequenceNumber + 1;
      return NoError;
    }

    function Response(): Response
      reads this
    {
      SessionSpec.Response(model, Outputs(itemOrder), usage)
    }

    method StartSession() returns (err: Error)
      modifies `frames, `sequenceNumber, `writeFailed, `started
      ensures Out(State(), err) == SessionSpec.StartSession(config, old(State()))
    {
      started := true;
      err := Write(CreatedFrame(Response()));
      if err == NoError {
        err := Write(InProgressFrame(Response()));
      }
    }

    method EnsureStarted() returns (err: Error)
      modifies `frames, `sequenceNumber, `writeFailed, `started
      ensures Out(State(), err) == SessionSpec.EnsureStarted(config, old(State()))
    {
      err := NoError;
      if !started {
        err := StartSession();
      }
    }

    // ----- finishing items -----

    /** finishTextItemLocked. */
    method FinishText(i: nat, status: Status) returns (err: Error)
      requires i < |itemOrder|
      modifies `frames, `sequenceNumber, `writeFailed, `itemOrder
      ensures Out(State(), err) == SessionSpec.FinishText(config, old(State()), i, status)
    {
      var item := itemOrder[i];
      if item.progress.contentDone || item.progress.itemDone {
        return NoError;
      }
      err := Write(TextDoneFrame(item.index, item.id, item.payload));
      if err != NoError {
        return err;
      }
      itemOrder := itemOrder[i := item.(progress := item.progress.(contentDone := true))];
      err := Write(PartDone(item.index, item.id, item.payload));
      if err != NoError {
        return err;
      }
      itemOrder := itemOrder[i := item.(progress := Progress(status, true, true))];
      err := Write(ItemDone(item.index, SnapshotOf(itemOrder[i], status)));
    }

    /** finishToolItemLocked. */
    method FinishTool(i: nat, status: Status) returns (err: Error)
      requires i < |itemOrder|
      modifies `frames, `sequenceNumber, `writeFailed, `itemOrder
      ensures Out(State(), err) == SessionSpec.FinishTool(config, old(State()), i, status)
    {
      var item := itemOrder[i];
      if item.progress.itemDone {
        return NoError;
      }
      err := Write(ArgumentsDoneFrame(item.index, item.id, item.tool.kind, item.tool.name, item.payload));
      if err != NoError {
        return err;
      }
      itemOrder := itemOrder[i := item.(progress := Progress(status, item.progress.contentDone, true))];
      err := Write(ItemDone(item.index, SnapshotOf(itemOrder[i], status)));
    }

    method FinishOne(i: nat, status: Status) returns (err: Error)
      requires i < |itemOrder|
      modifies `frames, `sequenceNumber, `writeFailed, `itemOrder
      ensures Out(State(), err) == SessionSpec.FinishOne(config, old(State()), i, status)
    {
      if itemOrder[i].key.TextItem? {
        err := FinishText(i, status);
      } else {
        err := FinishTool(i, status);
      }
    }

    /** The loop of finishItemsLocked, in item order. */
    method FinishItems(status: Status, needIdentity: bool) returns (err: Error)
      modifies `frames, `sequenceNumber, `writeFailed, `started, `terminalEmitted, `invalid, `itemOrder
      ensures Out(State(), err) == SessionSpec.FinishItems(config, old(State()), status, needIdentity, 0)
    {
      for i := 0 to |itemOrder|
        invariant |itemOrder| == |old(itemOrder)|
        invariant SessionSpec.FinishItems(config, old(State()), status, needIdentity, 0)
               == SessionSpec.FinishItems(config, State(), status, needIdentity, i)
      {
        if !itemOrder[i].progress.itemDone {
          if needIdentity && LacksIdentity(itemOrder[i]) {
            err := InvalidTransition();
            return err;
          }
          err := FinishOne(i, status);
          if err != NoError {
            return err;
          }
        }
      }
      return NoError;
    }

    // ----- failing -----

    method WriteTerminal(ending: Ending) returns (err: Error)
      modifies `frames, `sequenceNumber, `writeFailed, `terminalEmitted
      ensures Out(State(), err) == SessionSpec.WriteTerminal(config, old(State()), ending)
    {
      terminalEmitted := true;
      err := Write(TerminalFrame(ending, Response()));
    }

    /** invalidTransitionLocked. */
    method InvalidTransition() returns (err: Error)
      modifies `frames, `sequenceNumber, `writeFailed, `started, `terminalEmitted, `invalid
      ensures Out(State(), err) == SessionSpec.InvalidTransition(config, old(State()))
    {
      invalid := true;
      if terminalEmitted {
        return TerminalError;
      }
      if writeFailed {
        return WriteError;
      }
      err := EnsureStarted();
      if err != NoError {
        return err;
      }
      err := WriteTerminal(EndFailed(StreamInvalidTransition));
      if err == NoError {
        err := TransitionError;
      }
    }

    /** limitLocked. */
    method Limit() returns (err: Error)
      modifies `frames, `sequenceNumber, `writeFailed, `started, `terminalEmitted, `invalid, `itemOrder
      ensures Out(State(), err) == SessionSpec.Limit(config, old(State()))
    {
      if terminalEmitted {
        return TerminalError;
      }
      if writeFailed {
        return WriteError;
      }
      err := EnsureStarted();
      if err != NoError {
        return err;
      }
      err := FinishItems(StatusIncomplete, false);
      if err != NoError {
        return err;
      }
      err := WriteTerminal(EndFailed(StreamLimitExceeded));
      if err == NoError {
        err := LimitError;
      }
    }

    method Replace(i: nat, item: Item)
      requires i < |itemOrder|
      modifies `itemOrder
      ensures State() == SetItem(old(State()), i, item)
    {
      itemOrder := itemOrder[i := item];
    }

    /** reserveAggregateLocked. */
    method Reserve(bytes: int) returns (ok: bool)
      modifies `aggregateBytes
      ensures ok == CanSpend(config, old(State()), bytes)
      ensures State() == if ok then Spend(old(State()), bytes) else old(State())
    {
      if bytes < 0 || bytes > config.maxAggregate || aggregateBytes > config.maxAggregate - bytes {
        return false;
      }
      aggregateBytes := aggregateBytes + bytes;
      return true;
    }

    // ----- opening items -----

    /** The item with this key, if the session has one. */
    function Find(key: ItemKey): (i: Option<nat>)
      reads this
      ensures i == Lookup(Table(itemOrder, items, nextOutputIndex), key)
    {
      if key in items && items[key] < |itemOrder| then Some(items[key]) else None
    }

    function OpenTool(key: ToolKey): (i: Option<nat>)
      reads this
      ensures i == ActiveTool(State(), key)
    {
      var i := Find(ToolItem(key));
      if i.Some? && !itemOrder[i.value].progress.itemDone then i else None
    }

    /** newItemLocked. */
    method NewItem(key: ItemKey, prefix: IdPrefix, tool: Tool) returns (err: Error)
      modifies `frames, `sequenceNumber, `writeFailed, `started, `terminalEmitted, `invalid, `itemOrder, `items,
               `nextOutputIndex, `aggregateBytes
      ensures Out(State(), err) == SessionSpec.NewItem(config, old(State()), key, prefix, tool)
    {
      var id := config.newId(prefix, nextOutputIndex);
      if !ValidStreamValue(config.utf8, id, MAX_ITEM_ID) {
        return TransitionError;
      }
      var reserved := Reserve(|id| + STATE_OVERHEAD);
      if !reserved {
        err := Limit();
        return err;
      }
      Register(Item(key, id, nextOutputIndex, tool, "", Progress(InProgress, false, false)));
      return NoError;
    }

    method Register(item: Item)
      modifies `itemOrder, `items, `nextOutputIndex
      ensures var t := old(State()).table;
        State() == old(State()).(table := Table(t.items + [item], t.byKey[item.key := |t.items|], t.nextIndex + 1))
    {
      nextOutputIndex := nextOutputIndex + 1;
      items := items[item.key := |itemOrder|];
      itemOrder := itemOrder + [item];
    }

    /** newTextItemLocked. */
    method NewTextItem(choice: int) returns (err: Error)
      modifies `frames, `sequenceNumber, `writeFailed, `started, `terminalEmitted, `invalid, `itemOrder, `items,
               `nextOutputIndex, `aggregateBytes
      ensures Out(State(), err) == SessionSpec.NewTextItem(config, old(State()), choice)
    {
      var i := |itemOrder|;
      err := NewItem(TextItem(choice), MessageId, Tool(KindFunction, "", ""));
      if err != NoError {
        return err;
      }
      var item := itemOrder[i];
      err := Write(ItemAdded(item.index, SnapshotOf(item, InProgress)));
      if err == NoError {
        err := Write(PartAdded(item.index, item.id));
      }
    }

    // ----- text -----

    /** textDeltaLocked, once the item is known. */
    method AppendText(i: nat, text: string) returns (err: Error)
      requires i < |itemOrder|
      modifies this
      ensures Out(State(), err) == SessionSpec.AppendText(config, old(State()), i, text)
    {
      if itemOrder[i].progress.itemDone {
        err := InvalidTransition();
        return err;
      }
      if text == "" {
        return NoError;
      }
      if |text| > config.maxText - textBytes || |text| > config.maxOutput - outputBytes {
        err := Limit();
        return err;
      }
      err := AppendReserved(i, text);
    }

    /** The text is within its own limits; the aggregate has not been asked yet. */
    method AppendReserved(i: nat, text: string) returns (err: Error)
      requires i < |itemOrder|
      modifies this
      ensures var s, bytes := old(State()), |text|; var item, l := s.table.items[i], s.ledger;
        Out(State(), err) ==
          if !CanSpend(config, s, bytes) then SessionSpec.Limit(config, s)
          else
            var s1 := SetItem(s, i, item.(payload := item.payload + text));
            SessionSpec.Write(config,
              s1.(ledger := Ledger(l.aggregate + bytes, l.text + bytes, l.output + bytes, l.reasoning)),
              TextDeltaFrame(item.index, item.id, text))
    {
      var bytes, item := |text|, itemOrder[i];
      var reserved := Reserve(bytes);
      if !reserved {
        err := Limit();
        return err;
      }
      itemOrder := itemOrder[i := item.(payload := item.payload + text)];
      textBytes := textBytes + bytes;
      outputBytes := outputBytes + bytes;
      err := Write(TextDeltaFrame(item.index, item.id, text));
    }

    method HandleTextItem(choice: int, text: string) returns (err: Error)
      modifies this
      ensures Out(State(), err) == SessionSpec.HandleTextItem(config, old(State()), choice, text)
    {
      var i := Find(TextItem(choice));
      if i.None? {
        if text == "" {
          return NoError;
        }
        i := Some(|itemOrder|);
        err := NewTextItem(choice);
        if err != NoError {
          return err;
        }
      }
      err := AppendText(i.value, text);
    }

    /** textDeltaLocked. */
    method HandleText(choice: int, text: string) returns (err: Error)
      modifies this
      ensures Out(State(), err) == SessionSpec.HandleText(config, old(State()), choice, text)
    {
      if choice < 0 {
        err := InvalidTransition();
        return err;
      }
      err := EnsureStarted();
      if err != NoError {
        return err;
      }
      if !config.utf8(text) {
        err := InvalidTransition();
        return err;
      }
      err := HandleTextItem(choice, text);
    }

    /** reasoningDeltaLocked. */
    method HandleReasoning(choice: int, text: string) returns (err: Error)
      modifies this
      ensures Out(State(), err) == SessionSpec.HandleReasoning(config, old(State()), choice, text)
    {
      if choice < 0 || !config.utf8(text) {
        err := InvalidTransition();
        return err;
      }
      err := EnsureStarted();
      if err != NoError || text == "" {
        return err;
      }
      if |text| > config.maxReasoning - reasoningBytes {
        err := Limit();
        return err;
      }
      var reserved := Reserve(|text|);
      if !reserved {
        err := Limit();
        return err;
      }
      reasoningBytes := reasoningBytes + |text|;
    }

    // ----- start and usage -----

    /** responseStartedLocked. */
    method HandleResponseStarted(model: string) returns (err: Error)
      modifies this
      ensures Out(State(), err) == SessionSpec.HandleResponseStarted(config, old(State()), model)
    {
      if started {
        return NoError;
      }
      if model != "" {
        if !ValidStreamValue(config.utf8, model, MAX_MODEL) {
          err := InvalidTransition();
          return err;
        }
        this.model := model;
      }
      err := StartSession();
    }

    /** usageUpdatedLocked. */
    method HandleUsage(usage: Usage) returns (err: Error)
      modifies this
      ensures Out(State(), err) == SessionSpec.HandleUsage(config, old(State()), usage)
    {
      err := EnsureStarted();
      if err == NoError {
        this.usage := Some(usage);
      }
    }

    // ----- tool calls -----

    /** toolCallStartedLocked. */
    method HandleToolStarted(key: ToolKey, givenKind: ToolKind, callId: string, name: string) returns (err: Error)
      modifies this
      ensures Out(State(), err) == SessionSpec.HandleToolStarted(config, old(State()), key, givenKind, callId, name)
    {
      if key.choice < 0 || key.tool < 0 {
        err := InvalidTransition();
        return err;
      }
      var kind := if givenKind == KindUnset then KindFunction else givenKind;
      if !ValidOptionalStreamValue(config.utf8, callId, MAX_CALL_ID) ||
        !ValidOptionalStreamValue(config.utf8, name, MAX_CALL_ID) {
        err := InvalidTransition();
        return err;
      }
      err := EnsureStarted();
      if err != NoError {
        return err;
      }
      if Find(ToolItem(key)).Some? || (kind != KindFunction && kind !in config.customKinds) {
        err := InvalidTransition();
        return err;
      }
      var i := |itemOrder|;
      err := NewItem(ToolItem(key), PrefixOf(kind), Tool(kind, "", ""));
      if err == NoError {
        err := AnnounceTool(i, callId, name);
      }
    }

    /** The rest of toolCallStartedLocked, for the item just registered. */
    method AnnounceTool(i: nat, givenId: string, name: string) returns (err: Error)
      requires i < |itemOrder|
      modifies this
      ensures Out(State(), err) == SessionSpec.AnnounceTool(config, old(State()), i, givenId, name)
    {
      var item := itemOrder[i];
      var callId := if givenId == "" then config.newId(CallId, item.index) else givenId;
      Replace(i, item.(tool := item.tool.(callId := callId)));
      if !ValidStreamValue(config.utf8, callId, MAX_CALL_ID) {
        err := InvalidTransition();
        return err;
      }
      err := AnnounceReserved(i, item.(tool := item.tool.(callId := callId, name := item.tool.name + name)),
        |callId| + |name|);
    }

    /** The item is final up to its arguments; the aggregate has not been asked yet. */
    method AnnounceReserved(i: nat, item: Item, bytes: int) returns (err: Error)
      requires i < |itemOrder|
      modifies this
      ensures Out(State(), err) ==
        if !CanSpend(config, old(State()), bytes) then SessionSpec.Limit(config, old(State()))
        else SessionSpec.Write(config, Spend(SetItem(old(State()), i, item), bytes),
          ItemAdded(item.index, SnapshotOf(item, InProgress)))
    {
      var reserved := Reserve(bytes);
      if !reserved {
        err := Limit();
        return err;
      }
      Replace(i, item);
      err := Write(ItemAdded(item.index, SnapshotOf(item, InProgress)));
    }

    /** toolCallMetadataLocked. */
    method HandleMetadata(key: ToolKey, callId: string, name: string) returns (err: Error)
      modifies this
      ensures Out(State(), err) == SessionSpec.HandleMetadata(config, old(State()), key, callId, name)
    {
      var i := OpenTool(key);
      if i.None? || !ValidOptionalStreamValue(config.utf8, callId, MAX_CALL_ID) ||
        !ValidOptionalStreamValue(config.utf8, name, MAX_CALL_ID) {
        err := InvalidTransition();
        return err;
      }
      err := ExtendName(i.value, callId, name);
    }

    /** The rest of toolCallMetadataLocked, for an open call. */
    method ExtendName(i: nat, callId: string, name: string) returns (err: Error)
      requires i < |itemOrder|
      modifies this
      ensures var s, bytes := old(State()), |callId| + |name|; var item := s.table.items[i];
        Out(State(), err) ==
          if !CanSpend(config, s, bytes) then SessionSpec.Limit(config, s)
          else if callId != "" && item.tool.callId != callId then SessionSpec.InvalidTransition(config, Spend(s, bytes))
          else Out(SetItem(Spend(s, bytes), i, item.(tool := item.tool.(name := item.tool.name + name))), NoError)
    {
      var bytes := |callId| + |name|;
      var reserved := Reserve(bytes);
      if !reserved {
        err := Limit();
        return err;
      }
      var item := itemOrder[i];
      if callId != "" && item.tool.callId != callId {
        err := InvalidTransition();
        return err;
      }
      Replace(i, item.(tool := item.tool.(name := item.tool.name + name)));
      return NoError;
    }

    /** toolCallArgumentsLocked. */
    method HandleArguments(key: ToolKey, arguments: string) returns (err: Error)
      modifies this
      ensures Out(State(), err) == SessionSpec.HandleArguments(config, old(State()), key, arguments)
    {
      var i := OpenTool(key);
      if i.None? || !config.utf8(arguments) {
        err := InvalidTransition();
        return err;
      }
      if arguments == "" {
        return NoError;
      }
      err := AppendArguments(i.value, arguments);
    }

    method AppendArguments(i: nat, arguments: string) returns (err: Error)
      requires i < |itemOrder|
      modifies this
      ensures Out(State(), err) == SessionSpec.AppendArguments(config, old(State()), i, arguments)
    {
      var item := itemOrder[i];
      if |arguments| > config.maxOutput - outputBytes || |arguments| > config.maxToolArguments - |item.payload| {
        err := Limit();
        return err;
      }
      var reserved := Reserve(|arguments|);
      if !reserved {
        err := Limit();
        return err;
      }
      Replace(i, item.(payload := item.payload + arguments));
      outputBytes := outputBytes + |arguments|;
      err := Write(ArgumentsDeltaFrame(item.index, item.id, item.tool.kind, arguments));
    }

    /** toolCallCompletedLocked. */
    method HandleToolCompleted(key: ToolKey, kind: ToolKind, callId: string, name: string, arguments: string)
      returns (err: Error)
      modifies this
      ensures Out(State(), err) ==
        SessionSpec.HandleToolCompleted(config, old(State()), key, kind, callId, name, arguments)
    {
      var i := OpenTool(key);
      if i.None? || (kind != KindUnset && kind != itemOrder[i.value].tool.kind)
         || !ValidOptionalStreamValue(config.utf8, callId, MAX_CALL_ID) ||
           !ValidOptionalStreamValue(config.utf8, name, MAX_CALL_ID)
         || !config.utf8(arguments) {
        err := InvalidTransition();
        return err;
      }
      err := ChargeCompletion(i.value, callId, name, arguments);
    }

    /** The limits of toolCallCompletedLocked. */
    method ChargeCompletion(i: nat, callId: string, name: string, arguments: string) returns (err: Error)
      requires i < |itemOrder|
      modifies this
      ensures var s, bytes := old(State()), |callId| + |name| + |arguments|;
        Out(State(), err) ==
          if LargeCompletion(config, s, i, callId, name, arguments) then SessionSpec.Limit(config, s)
          else SessionSpec.CloseTool(config, Spend(s, bytes), i, callId, name, arguments)
    {
      if |arguments| > config.maxToolArguments {
        err := Limit();
        return err;
      }
      if arguments != "" && |arguments| > config.maxOutput - (outputBytes - |itemOrder[i].payload|) {
        err := Limit();
        return err;
      }
      err := CloseReserved(i, callId, name, arguments, |callId| + |name| + |arguments|);
    }

    method CloseReserved(i: nat, callId: string, name: string, arguments: string, bytes: int) returns (err: Error)
      requires i < |itemOrder|
      modifies this
      ensures Out(State(), err) ==
        if !CanSpend(config, old(State()), bytes) then SessionSpec.Limit(config, old(State()))
        else SessionSpec.CloseTool(config, Spend(old(State()), bytes), i, callId, name, arguments)
    {
      var reserved := Reserve(bytes);
      if !reserved {
        err := Limit();
        return err;
      }
      err := CloseTool(i, callId, name, arguments);
    }

    /** The rest of toolCallCompletedLocked, once the bytes are reserved. */
    method CloseTool(i: nat, callId: string, name: string, arguments: string) returns (err: Error)
      requires i < |itemOrder|
      modifies this
      ensures Out(State(), err) == SessionSpec.CloseTool(config, old(State()), i, callId, name, arguments)
    {
      var item := itemOrder[i];
      if callId != "" && item.tool.callId != callId {
        err := InvalidTransition();
        return err;
      }
      Rewrite(i, name, arguments);
      if LacksIdentity(itemOrder[i]) {
        err := InvalidTransition();
        return err;
      }
      err := FinishTool(i, StatusCompleted);
    }

    /** The completion event replaces the name and the arguments of its item. */
    method Rewrite(i: nat, name: string, arguments: string)
      requires i < |itemOrder|
      modifies `itemOrder, `outputBytes
      ensures State() == Rewritten(old(State()), i, name, arguments)
    {
      var item := itemOrder[i];
      if name != "" {
        item := item.(tool := item.tool.(name := name));
      }
      if arguments != "" || |item.payload| == 0 {
        var previous := |item.payload|;
        item := item.(payload := arguments);
        if arguments != "" {
          outputBytes := outputBytes + |item.payload| - previous;
        }
      }
      itemOrder := itemOrder[i := item];
    }

    // ----- terminals and dispatch -----

    /** completedLocked, incompleteLocked and failedLocked. */
    method HandleTerminal(status: Status, needIdentity: bool, ending: Ending) returns (err: Error)
      modifies this
      ensures Out(State(), err) == SessionSpec.HandleTerminal(config, old(State()), status, needIdentity, ending)
    {
      err := EnsureStarted();
      if err != NoError {
        return err;
      }
      err := FinishItems(status, needIdentity);
      if err == NoError {
        err := WriteTerminal(ending);
      }
    }

    method Dispatch(e: Event) returns (err: Error)
      modifies this
      ensures Out(State(), err) == SessionSpec.Dispatch(config, old(State()), e)
    {
      match e {
        case ResponseStarted(_, model) => err := HandleResponseStarted(model);
        case TextDelta(choice, text) => err := HandleText(choice, text);
        case ReasoningDelta(choice, text) => err := HandleReasoning(choice, text);
        case UsageUpdated(usage) => err := HandleUsage(usage);
        case ToolCallStarted(key, kind, callId, name) => err := HandleToolStarted(key, kind, callId, name);
        case ToolCallMetadata(key, callId, name) => err := HandleMetadata(key, callId, name);
        case ToolCallArguments(key, arguments) => err := HandleArguments(key, arguments);
        case ToolCallCompleted(key, kind, callId, name, arguments) =>
          err := HandleToolCompleted(key, kind, callId, name, arguments);
        case Completed => err := HandleTerminal(StatusCompleted, true, EndCompleted);
        case Incomplete(maxTokens) => err := HandleTerminal(StatusIncomplete, false, EndIncomplete(maxTokens));
        case Failed(code) => err := HandleTerminal(StatusIncomplete, false, EndFailed(SafeCode(config, code)));
        case NilEvent => err := InvalidTransition();
      }
    }

    method Handle(e: Event) returns (err: Error)
      modifies this
      ensures Out(State(), err) == SessionSpec.Handle(config, old(State()), e)
    {
      if writeFailed {
        return WriteError;
      }
      if terminalEmitted {
        return TerminalError;
      }
      err := Dispatch(e);
    }

    method Start() returns (err: Error)
      modifies this
      ensures Out(State(), err) == SessionSpec.Start(config, old(State()))
    {
      if writeFailed {
        return WriteError;
      }
      if terminalEmitted {
        return TerminalError;
      }
      if started {
        err := InvalidTransition();
      } else {
        err := StartSession();
      }
    }
  }
}
