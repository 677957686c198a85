/** What holds of a session after any calls, inside the wire grammar or not: the
    frames are numbered, the items stand at their output indexes, and only a failing
    write marks the session as failed. */
module SessionShape {
  import opened Bridge
  import opened SessionHandlers
  import opened SessionSafety
  import opened SessionSpec
  import opened WireGrammar

  predicate Shape(s: State) {
    s.wire.seqNo == |s.wire.frames| && Numbered(s.wire.frames) && TableOk(s.table)
  }

  ghost predicate Reliable(c: Config) {
    forall n :: c.writeOk(n)
  }

  ghost predicate Steady(c: Config, s: State, t: State) {
    && (Shape(s) ==> Shape(t))
    && (Reliable(c) && !s.flags.failed ==> !t.flags.failed)
  }

  lemma SteadyTwice(c: Config, s: State, t: State, u: State)
    requires Steady(c, s, t) && Steady(c, t, u)
    ensures Steady(c, s, u)
  {
  }

  /** A change of flags other than failed, of the ledger, the model or the usage. */
  lemma SteadyMark(c: Config, s: State, t: State)
    requires t.wire == s.wire && t.table == s.table && t.flags.failed == s.flags.failed
    ensures Steady(c, s, t)
  {
  }

  lemma SteadyWrite(c: Config, s: State, body: Body)
    ensures Steady(c, s, Write(c, s, body).st)
  {
  }

  lemma SteadySet(c: Config, s: State, i: nat, item: Item)
    requires i < |s.table.items| && item.key == s.table.items[i].key && item.index == s.table.items[i].index
    ensures Steady(c, s, SetItem(s, i, item))
  {
    if Shape(s) {
      SetItemTable(s.table, i, item);
    }
  }

  lemma SteadyStart(c: Config, s: State)
    ensures Steady(c, s, StartSession(c, s).st)
  {
    var s1 := s.(flags := s.flags.(started := true));
    SteadyMark(c, s, s1);
    SteadyWrite(c, s1, CreatedFrame(ResponseOf(s1)));
    var o := Write(c, s1, CreatedFrame(ResponseOf(s1)));
    SteadyWrite(c, o.st, InProgressFrame(ResponseOf(o.st)));
  }

  lemma SteadyEnsure(c: Config, s: State)
    ensures Steady(c, s, EnsureStarted(c, s).st)
  {
    SteadyStart(c, s);
  }

  // ----- closing items -----

  lemma SteadyText(c: Config, s: State, i: nat, status: Status)
    requires i < |s.table.items|
    ensures Steady(c, s, FinishText(c, s, i, status).st)
  {
    var item := s.table.items[i];
    var b0, b1 := TextDoneFrame(item.index, item.id, item.payload), PartDone(item.index, item.id, item.payload);
    var item1 := item.(progress := item.progress.(contentDone := true));
    var item2 := item.(progress := Progress(status, true, true));
    var o := Write(c, s, b0);
    SteadyWrite(c, s, b0);
    var s1 := SetItem(o.st, i, item1);
    SteadySet(c, o.st, i, item1);
    SteadyWrite(c, s1, b1);
    var o1 := Write(c, s1, b1);
    SteadySet(c, o1.st, i, item2);
    SteadyWrite(c, SetItem(o1.st, i, item2), ItemDone(item.index, SnapshotOf(item2, status)));
  }

  lemma SteadyTool(c: Config, s: State, i: nat, status: Status)
    requires i < |s.table.items|
    ensures Steady(c, s, FinishTool(c, s, i, status).st)
  {
    var item := s.table.items[i];
    var b0 := ArgumentsDoneFrame(item.index, item.id, item.tool.kind, item.tool.name, item.payload);
    var item1 := item.(progress := Progress(status, item.progress.contentDone, true));
    var o := Write(c, s, b0);
    SteadyWrite(c, s, b0);
    SteadySet(c, o.st, i, item1);
    SteadyWrite(c, SetItem(o.st, i, item1), ItemDone(item.index, SnapshotOf(item1, status)));
  }

  lemma SteadyOne(c: Config, s: State, i: nat, status: Status)
    requires i < |s.table.items|
    ensures Steady(c, s, FinishOne(c, s, i, status).st)
  {
    SteadyText(c, s, i, status);
    SteadyTool(c, s, i, status);
  }

  lemma {:induction false} SteadyItems(c: Config, s: State, status: Status, needIdentity: bool, i: nat)
    requires i <= |s.table.items|
    ensures Steady(c, s, FinishItems(c, s, status, needIdentity, i).st)
    decreases |s.table.items| - i
  {
    if i < |s.table.items| {
      if s.table.items[i].progress.itemDone {
        SteadyItems(c, s, status, needIdentity, i + 1);
      } else if needIdentity && LacksIdentity(s.table.items[i]) {
        SteadyInvalid(c, s);
      } else {
        var o := FinishOne(c, s, i, status);
        FinishItemsStep(c, s, status, needIdentity, i);
        SteadyOne(c, s, i, status);
        if o.err == NoError {
          SteadyItems(c, o.st, status, needIdentity, i + 1);
        }
      }
    }
  }

  // ----- failing -----

  lemma SteadyEnding(c: Config, s: State, ending: Ending)
    ensures Steady(c, s, WriteTerminal(c, s, ending).st)
  {
    var s1 := s.(flags := s.flags.(terminal := true));
    SteadyMark(c, s, s1);
    SteadyWrite(c, s1, TerminalFrame(ending, ResponseOf(s1)));
  }

  lemma SteadyInvalid(c: Config, s: State)
    ensures Steady(c, s, InvalidTransition(c, s).st)
  {
    var marked := s.(flags := s.flags.(invalid := true));
    SteadyMark(c, s, marked);
    SteadyEnsure(c, marked);
    SteadyEnding(c, EnsureStarted(c, marked).st, EndFailed(StreamInvalidTransition));
  }

  lemma SteadyLimit(c: Config, s: State)
    ensures Steady(c, s, Limit(c, s).st)
  {
    var o := EnsureStarted(c, s);
    SteadyEnsure(c, s);
    SteadyItems(c, o.st, StatusIncomplete, false, 0);
    SteadyEnding(c, FinishItems(c, o.st, StatusIncomplete, false, 0).st, EndFailed(StreamLimitExceeded));
  }

  lemma SteadyTerminal(c: Config, s: State, status: Status, needIdentity: bool, ending: Ending)
    ensures Steady(c, s, HandleTerminal(c, s, status, needIdentity, ending).st)
  {
    var o := EnsureStarted(c, s);
    SteadyEnsure(c, s);
    SteadyItems(c, o.st, status, needIdentity, 0);
    SteadyEnding(c, FinishItems(c, o.st, status, needIdentity, 0).st, ending);
  }

  // ----- opening items -----

  lemma SteadyNew(c: Config, s: State, key: ItemKey, prefix: IdPrefix, tool: Tool)
    requires Lookup(s.table, key).None?
    ensures Steady(c, s, NewItem(c, s, key, prefix, tool).st)
  {
    SteadyLimit(c, s);
    if Shape(s) {
      RegisterTable(s.table,
        Item(key, c.newId(prefix, s.table.nextIndex), s.table.nextIndex, tool, "", Progress(InProgress, false, false)));
    }
  }

  lemma SteadyAnnounceText(c: Config, s: State, i: nat)
    requires i < |s.table.items|
    ensures Steady(c, s, AnnounceText(c, s, i).st)
  {
    var item := s.table.items[i];
    var b0 := ItemAdded(item.index, SnapshotOf(item, InProgress));
    SteadyWrite(c, s, b0);
    SteadyWrite(c, Write(c, s, b0).st, PartAdded(item.index, item.id));
  }

  lemma SteadyAppendText(c: Config, s: State, i: nat, text: string)
    requires i < |s.table.items|
    ensures Steady(c, s, AppendText(c, s, i, text).st)
  {
    SteadyInvalid(c, s);
    SteadyLimit(c, s);
    var item, l, n := s.table.items[i], s.ledger, |text|;
    var s1 := SetItem(s, i, item.(payload := item.payload + text));
    var s2 := s1.(ledger := Ledger(l.aggregate + n, l.text + n, l.output + n, l.reasoning));
    SteadySet(c, s, i, item.(payload := item.payload + text));
    SteadyMark(c, s1, s2);
    SteadyWrite(c, s2, TextDeltaFrame(item.index, item.id, text));
  }

  lemma SteadyTextItem(c: Config, s: State, choice: int, text: string)
    ensures Steady(c, s, HandleTextItem(c, s, choice, text).st)
  {
    var i := Lookup(s.table, TextItem(choice));
    if i.Some? {
      SteadyAppendText(c, s, i.value, text);
    } else if text != "" {
      var o := NewItem(c, s, TextItem(choice), MessageId, Tool(KindFunction, "", ""));
      SteadyNew(c, s, TextItem(choice), MessageId, Tool(KindFunction, "", ""));
      if o.err == NoError {
        SteadyAnnounceText(c, o.st, |s.table.items|);
        var o1 := NewTextItem(c, s, choice);
        SteadyTwice(c, s, o.st, o1.st);
        if o1.err == NoError {
          SteadyAppendText(c, o1.st, |s.table.items|, text);
        }
      }
    }
  }

  lemma SteadyHandleText(c: Config, s: State, choice: int, text: string)
    ensures Steady(c, s, HandleText(c, s, choice, text).st)
  {
    SteadyInvalid(c, s);
    SteadyEnsure(c, s);
    SteadyInvalid(c, EnsureStarted(c, s).st);
    SteadyTextItem(c, EnsureStarted(c, s).st, choice, text);
  }

  lemma SteadyReasoning(c: Config, s: State, choice: int, text: string)
    ensures Steady(c, s, HandleReasoning(c, s, choice, text).st)
  {
    SteadyInvalid(c, s);
    SteadyEnsure(c, s);
    SteadyLimit(c, EnsureStarted(c, s).st);
  }

  lemma SteadyStarted(c: Config, s: State, model: string)
    ensures Steady(c, s, HandleResponseStarted(c, s, model).st)
  {
    SteadyInvalid(c, s);
    SteadyStart(c, s);
    SteadyMark(c, s, s.(model := model));
    SteadyStart(c, s.(model := model));
  }

  lemma SteadyUsage(c: Config, s: State, usage: Usage)
    ensures Steady(c, s, HandleUsage(c, s, usage).st)
  {
    SteadyEnsure(c, s);
  }

  // ----- tools -----

  lemma SteadyAnnounceTool(c: Config, s: State, i: nat, givenId: string, name: string)
    requires i < |s.table.items|
    ensures Steady(c, s, AnnounceTool(c, s, i, givenId, name).st)
  {
    var item := s.table.items[i];
    var callId := if givenId == "" then c.newId(CallId, item.index) else givenId;
    var bytes := |callId| + |name|;
    var item0 := item.(tool := item.tool.(callId := callId));
    var s1 := SetItem(s, i, item0);
    SteadySet(c, s, i, item0);
    SteadyInvalid(c, s1);
    SteadyLimit(c, s1);
    var item1 := item.(tool := item.tool.(callId := callId, name := item.tool.name + name));
    SteadySet(c, s, i, item1);
    SteadyMark(c, SetItem(s, i, item1), Spend(SetItem(s, i, item1), bytes));
    SteadyWrite(c, Spend(SetItem(s, i, item1), bytes), ItemAdded(item.index, SnapshotOf(item1, InProgress)));
  }

  lemma SteadyOpenTool(c: Config, s: State, key: ToolKey, kind: ToolKind, givenId: string, name: string)
    requires Lookup(s.table, ToolItem(key)).None?
    ensures Steady(c, s, OpenTool(c, s, key, kind, givenId, name).st)
  {
    var o := NewItem(c, s, ToolItem(key), PrefixOf(kind), Tool(kind, "", ""));
    SteadyNew(c, s, ToolItem(key), PrefixOf(kind), Tool(kind, "", ""));
    if o.err == NoError {
      SteadyAnnounceTool(c, o.st, |s.table.items|, givenId, name);
    }
  }

  lemma SteadyToolStarted(c: Config, s: State, key: ToolKey, givenKind: ToolKind, callId: string, name: string)
    ensures Steady(c, s, HandleToolStarted(c, s, key, givenKind, callId, name).st)
  {
    var o := EnsureStarted(c, s);
    var kind := if givenKind == KindUnset then KindFunction else givenKind;
    SteadyInvalid(c, s);
    SteadyEnsure(c, s);
    SteadyInvalid(c, o.st);
    if Lookup(o.st.table, ToolItem(key)).None? {
      SteadyOpenTool(c, o.st, key, kind, callId, name);
    }
  }

  lemma SteadyMetadata(c: Config, s: State, key: ToolKey, callId: string, name: string)
    ensures Steady(c, s, HandleMetadata(c, s, key, callId, name).st)
  {
    SteadyInvalid(c, s);
    SteadyLimit(c, s);
    var i := ActiveTool(s, key);
    if i.Some? {
      var item := s.table.items[i.value];
      SteadyRenamed(c, s, Spend(s, |callId| + |name|), i.value,
        item.(tool := item.tool.(name := item.tool.name + name)));
    }
  }

  lemma SteadyRenamed(c: Config, s: State, spent: State, i: nat, item: Item)
    requires i < |s.table.items| && item.key == s.table.items[i].key && item.index == s.table.items[i].index
    requires spent == s.(ledger := spent.ledger)
    ensures Steady(c, s, InvalidTransition(c, spent).st) && Steady(c, s, SetItem(spent, i, item))
  {
    SteadyMark(c, s, spent);
    SteadyInvalid(c, spent);
    SteadySet(c, spent, i, item);
  }

  lemma SteadyArguments(c: Config, s: State, key: ToolKey, arguments: string)
    ensures Steady(c, s, HandleArguments(c, s, key, arguments).st)
  {
    SteadyInvalid(c, s);
    SteadyLimit(c, s);
    var i := ActiveTool(s, key);
    if i.Some? {
      var item, l, n := s.table.items[i.value], s.ledger, |arguments|;
      var s1 := SetItem(s, i.value, item.(payload := item.payload + arguments));
      var s2 := s1.(ledger := l.(aggregate := l.aggregate + n, output := l.output + n));
      SteadySet(c, s, i.value, item.(payload := item.payload + arguments));
      SteadyMark(c, s1, s2);
      SteadyWrite(c, s2, ArgumentsDeltaFrame(item.index, item.id, item.tool.kind, arguments));
    }
  }

  lemma SteadyCloseTool(c: Config, s: State, i: nat, callId: string, name: string, arguments: string)
    requires i < |s.table.items|
    ensures Steady(c, s, CloseTool(c, s, i, callId, name, arguments).st)
  {
    SteadyInvalid(c, s);
    var s1, item := Rewritten(s, i, name, arguments), RewrittenItem(s.table.items[i], name, arguments);
    SteadySet(c, s, i, item);
    SteadyMark(c, SetItem(s, i, item), s1);
    SteadyInvalid(c, s1);
    SteadyTool(c, s1, i, StatusCompleted);
  }

  lemma SteadyToolCompleted(c: Config, s: State, key: ToolKey, kind: ToolKind, callId: string, name: string,
                            arguments: string)
    ensures Steady(c, s, HandleToolCompleted(c, s, key, kind, callId, name, arguments).st)
  {
    SteadyInvalid(c, s);
    SteadyLimit(c, s);
    var i := ActiveTool(s, key);
    if i.Some? {
      SteadySpentClose(c, s, Spend(s, |callId| + |name| + |arguments|), i.value, callId, name, arguments);
    }
  }

  lemma SteadySpentClose(c: Config, s: State, spent: State, i: nat, callId: string, name: string, arguments: string)
    requires i < |s.table.items| && spent == s.(ledger := spent.ledger)
    ensures Steady(c, s, CloseTool(c, spent, i, callId, name, arguments).st)
  {
    SteadyMark(c, s, spent);
    SteadyCloseTool(c, spent, i, callId, name, arguments);
  }

  // ----- any call -----

  lemma SteadyDispatch(c: Config, s: State, e: Event)
    ensures Steady(c, s, Dispatch(c, s, e).st)
  {
    match e
    case ResponseStarted(_, model) => SteadyStarted(c, s, model);
    case TextDelta(choice, text) => SteadyHandleText(c, s, choice, text);
    case ReasoningDelta(choice, text) => SteadyReasoning(c, s, choice, text);
    case UsageUpdated(usage) => SteadyUsage(c, s, usage);
    case ToolCallStarted(key, kind, callId, name) => SteadyToolStarted(c, s, key, kind, callId, name);
    case ToolCallMetadata(key, callId, name) => SteadyMetadata(c, s, key, callId, name);
    case ToolCallArguments(key, arguments) => SteadyArguments(c, s, key, arguments);
    case ToolCallCompleted(key, kind, callId, name, arguments) =>
      SteadyToolCompleted(c, s, key, kind, callId, name, arguments);
    case Completed => SteadyTerminal(c, s, StatusCompleted, true, EndCompleted);
    case Incomplete(maxTokens) => SteadyTerminal(c, s, StatusIncomplete, false, EndIncomplete(maxTokens));
    case Failed(code) => SteadyTerminal(c, s, StatusIncomplete, false, EndFailed(SafeCode(c, code)));
    case NilEvent => SteadyInvalid(c, s);
  }

  lemma SteadyHandle(c: Config, s: State, e: Event)
    ensures Steady(c, s, Handle(c, s, e).st)
  {
    SteadyDispatch(c, s, e);
  }

  lemma SteadyApply(c: Config, s: State, call: Call)
    ensures Steady(c, s, Apply(c, s, call).st)
  {
    match call
    case CallStart =>
      SteadyInvalid(c, s);
      SteadyStart(c, s);
    case CallHandle(e) => SteadyHandle(c, s, e);
  }

  lemma {:induction false} SteadyRun(c: Config, s: State, calls: seq<Call>)
    ensures Steady(c, s, RunCalls(c, s, calls))
    decreases |calls|
  {
    if calls != [] {
      var front, last := calls[..|calls| - 1], calls[|calls| - 1];
      SteadyRun(c, s, front);
      SteadyApply(c, RunCalls(c, s, front), last);
    }
  }
}
