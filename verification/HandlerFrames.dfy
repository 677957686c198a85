/** Only the Completed event writes a completed frame, and it writes it last. */
module HandlerFrames {
  import opened Bridge
  import opened SessionSpec

  predicate IsCompleted(body: Body) {
    body.TerminalFrame? && body.ending == EndCompleted
  }

  predicate NoneCompleted(frames: seq<Frame>) {
    forall i :: 0 <= i < |frames| ==> !IsCompleted(frames[i].body)
  }

  lemma StartOther(c: Config, s: State)
    requires NoneCompleted(s.wire.frames)
    ensures NoneCompleted(StartSession(c, s).st.wire.frames) && NoneCompleted(EnsureStarted(c, s).st.wire.frames)
  {
  }

  lemma FinishOneOther(c: Config, s: State, i: nat, status: Status)
    requires i < |s.table.items| && NoneCompleted(s.wire.frames)
    ensures NoneCompleted(FinishOne(c, s, i, status).st.wire.frames)
  {
  }

  lemma InvalidOther(c: Config, s: State)
    requires NoneCompleted(s.wire.frames)
    ensures NoneCompleted(InvalidTransition(c, s).st.wire.frames)
  {
  }

  lemma {:induction false} FinishItemsOther(c: Config, s: State, status: Status, needIdentity: bool, i: nat)
    requires i <= |s.table.items| && NoneCompleted(s.wire.frames)
    ensures NoneCompleted(FinishItems(c, s, status, needIdentity, i).st.wire.frames)
    decreases |s.table.items| - i
  {
    if i < |s.table.items| {
      var item := s.table.items[i];
      if item.progress.itemDone {
        FinishItemsOther(c, s, status, needIdentity, i + 1);
      } else if needIdentity && LacksIdentity(item) {
        InvalidOther(c, s);
      } else {
        FinishOneOther(c, s, i, status);
        FinishItemsOther(c, FinishOne(c, s, i, status).st, status, needIdentity, i + 1);
      }
    }
  }

  lemma LimitOther(c: Config, s: State)
    requires NoneCompleted(s.wire.frames)
    ensures NoneCompleted(Limit(c, s).st.wire.frames)
  {
    StartOther(c, s);
    FinishItemsOther(c, EnsureStarted(c, s).st, StatusIncomplete, false, 0);
  }

  lemma NewItemOther(c: Config, s: State, key: ItemKey, prefix: IdPrefix, tool: Tool)
    requires NoneCompleted(s.wire.frames)
    ensures NoneCompleted(NewItem(c, s, key, prefix, tool).st.wire.frames)
  {
    LimitOther(c, s);
  }

  lemma AppendTextOther(c: Config, s: State, i: nat, text: string)
    requires i < |s.table.items| && NoneCompleted(s.wire.frames)
    ensures NoneCompleted(AppendText(c, s, i, text).st.wire.frames)
  {
    InvalidOther(c, s);
    LimitOther(c, s);
  }

  lemma NewTextItemOther(c: Config, s: State, choice: int)
    requires NoneCompleted(s.wire.frames)
    ensures NoneCompleted(NewTextItem(c, s, choice).st.wire.frames)
  {
    NewItemOther(c, s, TextItem(choice), MessageId, Tool(KindFunction, "", ""));
  }

  lemma HandleTextOther(c: Config, s: State, choice: int, text: string)
    requires NoneCompleted(s.wire.frames)
    ensures NoneCompleted(HandleText(c, s, choice, text).st.wire.frames)
  {
    InvalidOther(c, s);
    StartOther(c, s);
    var s1 := EnsureStarted(c, s).st;
    InvalidOther(c, s1);
    TextItemOther(c, s1, choice, text);
  }

  lemma TextItemOther(c: Config, s: State, choice: int, text: string)
    requires NoneCompleted(s.wire.frames)
    ensures NoneCompleted(HandleTextItem(c, s, choice, text).st.wire.frames)
  {
    var i := Lookup(s.table, TextItem(choice));
    if i.Some? {
      AppendTextOther(c, s, i.value, text);
    } else {
      NewTextItemOther(c, s, choice);
      var o := NewTextItem(c, s, choice);
      if o.err == NoError {
        AppendTextOther(c, o.st, |s.table.items|, text);
      }
    }
  }

  lemma HandleReasoningOther(c: Config, s: State, choice: int, text: string)
    requires NoneCompleted(s.wire.frames)
    ensures NoneCompleted(HandleReasoning(c, s, choice, text).st.wire.frames)
  {
    InvalidOther(c, s);
    StartOther(c, s);
    LimitOther(c, EnsureStarted(c, s).st);
  }

  lemma ToolStartedOther(c: Config, s: State, key: ToolKey, kind: ToolKind, callId: string, name: string)
    requires NoneCompleted(s.wire.frames)
    ensures NoneCompleted(HandleToolStarted(c, s, key, kind, callId, name).st.wire.frames)
  {
    InvalidOther(c, s);
    StartOther(c, s);
    var s1 := EnsureStarted(c, s).st;
    InvalidOther(c, s1);
    OpenToolOther(c, s1, key, if kind == KindUnset then KindFunction else kind, callId, name);
  }

  lemma OpenToolOther(c: Config, s: State, key: ToolKey, kind: ToolKind, callId: string, name: string)
    requires NoneCompleted(s.wire.frames)
    ensures NoneCompleted(OpenTool(c, s, key, kind, callId, name).st.wire.frames)
  {
    NewItemOther(c, s, ToolItem(key), PrefixOf(kind), Tool(kind, "", ""));
    var o := NewItem(c, s, ToolItem(key), PrefixOf(kind), Tool(kind, "", ""));
    if o.err == NoError {
      AnnounceToolOther(c, o.st, |s.table.items|, callId, name);
    }
  }

  lemma AnnounceToolOther(c: Config, s: State, i: nat, givenId: string, name: string)
    requires i < |s.table.items| && NoneCompleted(s.wire.frames)
    ensures NoneCompleted(AnnounceTool(c, s, i, givenId, name).st.wire.frames)
  {
    var item := s.table.items[i];
    var callId := if givenId == "" then c.newId(CallId, item.index) else givenId;
    var s1 := SetItem(s, i, item.(tool := item.tool.(callId := callId)));
    InvalidOther(c, s1);
    LimitOther(c, s1);
  }

  lemma MetadataOther(c: Config, s: State, key: ToolKey, callId: string, name: string)
    requires NoneCompleted(s.wire.frames)
    ensures NoneCompleted(HandleMetadata(c, s, key, callId, name).st.wire.frames)
  {
    InvalidOther(c, s);
    LimitOther(c, s);
    InvalidOther(c, Spend(s, |callId| + |name|));
  }

  lemma ArgumentsOther(c: Config, s: State, key: ToolKey, arguments: string)
    requires NoneCompleted(s.wire.frames)
    ensures NoneCompleted(HandleArguments(c, s, key, arguments).st.wire.frames)
  {
    InvalidOther(c, s);
    LimitOther(c, s);
  }

  lemma ToolCompletedOther(c: Config, s: State, key: ToolKey, kind: ToolKind, callId: string, name: string,
                           arguments: string)
    requires NoneCompleted(s.wire.frames)
    ensures NoneCompleted(HandleToolCompleted(c, s, key, kind, callId, name, arguments).st.wire.frames)
  {
    InvalidOther(c, s);
    LimitOther(c, s);
    var i := ActiveTool(s, key);
    if i.Some? {
      CloseToolOther(c, Spend(s, |callId| + |name| + |arguments|), i.value, callId, name, arguments);
    }
  }

  lemma CloseToolOther(c: Config, s: State, i: nat, callId: string, name: string, arguments: string)
    requires i < |s.table.items| && NoneCompleted(s.wire.frames)
    ensures NoneCompleted(CloseTool(c, s, i, callId, name, arguments).st.wire.frames)
  {
    InvalidOther(c, s);
    var s1 := Rewritten(s, i, name, arguments);
    InvalidOther(c, s1);
  }

  lemma TerminalOther(c: Config, s: State, status: Status, needIdentity: bool, ending: Ending)
    requires NoneCompleted(s.wire.frames)
    ensures var o := HandleTerminal(c, s, status, needIdentity, ending);
      if ending == EndCompleted && o.err == NoError
      then |o.st.wire.frames| > |s.wire.frames| && NoneCompleted(o.st.wire.frames[..|o.st.wire.frames| - 1])
      else NoneCompleted(o.st.wire.frames)
  {
    StartOther(c, s);
    FinishItemsOther(c, EnsureStarted(c, s).st, status, needIdentity, 0);
  }

  /** No other event writes a completed frame. */
  lemma HandleOther(c: Config, s: State, e: Event)
    requires NoneCompleted(s.wire.frames) && !e.Completed?
    ensures NoneCompleted(Handle(c, s, e).st.wire.frames)
  {
    match e
    case ResponseStarted(_, model) => InvalidOther(c, s); StartOther(c, s); StartOther(c, s.(model := model));
    case TextDelta(choice, text) => HandleTextOther(c, s, choice, text);
    case ReasoningDelta(choice, text) => HandleReasoningOther(c, s, choice, text);
    case UsageUpdated(usage) => StartOther(c, s);
    case ToolCallStarted(key, kind, callId, name) => ToolStartedOther(c, s, key, kind, callId, name);
    case ToolCallMetadata(key, callId, name) => MetadataOther(c, s, key, callId, name);
    case ToolCallArguments(key, arguments) => ArgumentsOther(c, s, key, arguments);
    case ToolCallCompleted(key, kind, callId, name, arguments) => ToolCompletedOther(c, s, key, kind, callId, name,
      arguments);
    case Incomplete(maxTokens) => TerminalOther(c, s, StatusIncomplete, false, EndIncomplete(maxTokens));
    case Failed(code) => TerminalOther(c, s, StatusIncomplete, false, EndFailed(SafeCode(c, code)));
    case NilEvent => InvalidOther(c, s);
  }

  /** The Completed event writes the completed frame last, or not at all. */
  lemma HandleCompleted(c: Config, s: State)
    requires NoneCompleted(s.wire.frames)
    ensures var o := Handle(c, s, Completed);
      if o.err == NoError
      then |o.st.wire.frames| > |s.wire.frames| && NoneCompleted(o.st.wire.frames[..|o.st.wire.frames| - 1])
      else NoneCompleted(o.st.wire.frames)
  {
    TerminalOther(c, s, StatusCompleted, true, EndCompleted);
  }
}
