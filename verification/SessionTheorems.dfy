/** The wire grammar holds for every run of a session, except exactly where the
    guard Unannounced fires: a tool call whose item has been registered but whose
    identity no longer fits the aggregate budget is closed without having been
    announced. */
module SessionTheorems {
  import opened Bridge
  import opened SessionHandlers
  import opened SessionSafety
  import opened SessionShape
  import opened SessionSpec
  import opened WireGrammar

  predicate Unannounced(c: Config, s: State, e: Event) {
    && e.ToolCallStarted?
    && e.key.choice >= 0 && e.key.tool >= 0
    && ValidOptionalStreamValue(c.utf8, e.callId, MAX_CALL_ID) && ValidOptionalStreamValue(c.utf8, e.name, MAX_CALL_ID)
    && Lookup(s.table, ToolItem(e.key)).None?
    && var kind := if e.kind == KindUnset then KindFunction else e.kind;
       var id := c.newId(PrefixOf(kind), s.table.nextIndex);
       var callId := if e.callId == "" then c.newId(CallId, s.table.nextIndex) else e.callId;
       && (kind == KindFunction || kind in c.customKinds)
       && ValidStreamValue(c.utf8, id, MAX_ITEM_ID) && CanSpend(c, s, |id| + STATE_OVERHEAD)
       && ValidStreamValue(c.utf8, callId, MAX_CALL_ID)
       && !CanSpend(c, Spend(s, |id| + STATE_OVERHEAD), |callId| + |e.name|)
  }

  // ----- announcing a tool item -----

  lemma RetooledSynced(strict: bool, w: Wire, items: seq<Item>, i: nat, tool: Tool, n: nat)
    requires Synced(strict, w, items, n) && i < |items|
    ensures Synced(strict, w, items[i := items[i].(tool := tool)], n)
  {
  }

  lemma RetooledRegistered(strict: bool, s: State, i: nat, tool: Tool)
    requires Registered(strict, s) && i == |s.table.items| - 1
    ensures Registered(strict, SetItem(s, i, s.table.items[i].(tool := tool)))
  {
    SetItemTable(s.table, i, s.table.items[i].(tool := tool));
    RetooledSynced(strict, s.wire, s.table.items, i, tool, |s.table.items| - 1);
  }

  lemma RegisteredInvalid(strict: bool, c: Config, s: State)
    requires Registered(strict, s)
    ensures Good(strict, InvalidTransition(c, s).st)
  {
    SyncedCovers(strict, s.wire, s.table.items, |s.table.items| - 1);
    InvalidTransitionCloses(strict, c, s);
  }

  lemma RegisteredAnnounced(strict: bool, c: Config, s: State)
    requires Registered(strict, s) && s.table.items[|s.table.items| - 1].key.ToolItem?
    ensures var item := s.table.items[|s.table.items| - 1];
      Good(strict, Write(c, s, ItemAdded(item.index, SnapshotOf(item, InProgress))).st)
  {
    var item := s.table.items[|s.table.items| - 1];
    AnnounceRead(strict, c, s);
    var o := Write(c, s, ItemAdded(item.index, SnapshotOf(item, InProgress)));
    if o.err == NoError {
      SyncedPush(strict, s.wire, o.st.wire, s.table.items);
    }
  }

  lemma AnnounceIdentified(strict: bool, c: Config, s: State, i: nat, callId: string, name: string)
    requires Registered(strict, s) && i == |s.table.items| - 1 && s.table.items[i].key.ToolItem?
    ensures var item := s.table.items[i];
      var item1 := item.(tool := item.tool.(callId := callId, name := item.tool.name + name));
      Good(strict, Write(c, Spend(SetItem(s, i, item1), |callId| + |name|),
        ItemAdded(item.index, SnapshotOf(item1, InProgress))).st)
  {
    var item := s.table.items[i];
    var tool := item.tool.(callId := callId, name := item.tool.name + name);
    RetooledRegistered(strict, s, i, tool);
    RegisteredAnnounced(strict, c, Spend(SetItem(s, i, item.(tool := tool)), |callId| + |name|));
  }

  lemma AnnounceToolGood(strict: bool, c: Config, s: State, i: nat, givenId: string, name: string)
    requires Registered(strict, s) && i == |s.table.items| - 1 && s.table.items[i].key.ToolItem?
    requires var callId := if givenId == "" then c.newId(CallId, s.table.items[i].index) else givenId;
      ValidStreamValue(c.utf8, callId, MAX_CALL_ID) ==> CanSpend(c, s, |callId| + |name|)
    ensures Good(strict, AnnounceTool(c, s, i, givenId, name).st)
  {
    var item := s.table.items[i];
    var callId := if givenId == "" then c.newId(CallId, item.index) else givenId;
    if ValidStreamValue(c.utf8, callId, MAX_CALL_ID) {
      AnnounceIdentified(strict, c, s, i, callId, name);
    } else {
      RetooledRegistered(strict, s, i, item.tool.(callId := callId));
      RegisteredInvalid(strict, c, SetItem(s, i, item.(tool := item.tool.(callId := callId))));
    }
  }

  // ----- closing a registered item breaks the grammar -----

  lemma BrokenStays(strict: bool, c: Config, s: State, body: Body)
    requires Read(strict, s.wire.frames).Broken?
    ensures Read(strict, Write(c, s, body).st.wire.frames).Broken?
  {
    ReadAppend(strict, s.wire.frames, Frame(s.wire.seqNo, body));
  }

  lemma UnannouncedCloseBreaks(strict: bool, c: Config, s: State, n: nat, status: Status)
    requires Open(s) && Synced(strict, s.wire, s.table.items, n) && n < |s.table.items|
    requires s.table.items[n].key.ToolItem? && s.table.items[n].index == n && !s.table.items[n].progress.itemDone
    ensures var o := FinishTool(c, s, n, status);
      if o.err == NoError then Read(strict, o.st.wire.frames).Broken? else o.st.flags.failed
  {
    var item := s.table.items[n];
    var b0 := ArgumentsDoneFrame(item.index, item.id, item.tool.kind, item.tool.name, item.payload);
    ReadAppend(strict, s.wire.frames, Frame(s.wire.seqNo, b0));
    var o := Write(c, s, b0);
    if o.err == NoError {
      var item1 := item.(progress := Progress(status, item.progress.contentDone, true));
      BrokenStays(strict, c, SetItem(o.st, n, item1), ItemDone(item.index, SnapshotOf(item1, status)));
    }
  }

  /** As Closing, with one more item registered behind the announced ones. */
  predicate ClosingBehind(strict: bool, s: State, i: nat) {
    && Open(s) && |s.table.items| > 0 && i <= |s.table.items| - 1
    && (forall j :: 0 <= j < |s.table.items| ==> s.table.items[j].index == j)
    && Synced(strict, s.wire, s.table.items, |s.table.items| - 1)
    && var item := s.table.items[|s.table.items| - 1]; item.key.ToolItem? && !item.progress.itemDone
  }

  lemma StillBehind(strict: bool, s: State, o: Out, i: nat)
    requires ClosingBehind(strict, s, i) && i < |s.table.items| - 1
    requires StillSynced(strict, s, o, s.table.items[i := ClosedItem(s.table.items[i], StatusIncomplete)],
      |s.table.items| - 1)
    ensures if o.err == NoError then ClosingBehind(strict, o.st, i + 1) else o.st.flags.failed
  {
  }

  lemma FinishOneBehind(strict: bool, c: Config, s: State, i: nat)
    requires ClosingBehind(strict, s, i) && i < |s.table.items| - 1 && !s.table.items[i].progress.itemDone
    ensures var o := FinishOne(c, s, i, StatusIncomplete);
      if o.err == NoError then ClosingBehind(strict, o.st, i + 1) else o.st.flags.failed
  {
    if s.table.items[i].key.TextItem? {
      FinishTextSynced(strict, c, s, i, StatusIncomplete, |s.table.items| - 1);
    } else {
      FinishToolSynced(strict, c, s, i, StatusIncomplete, |s.table.items| - 1);
    }
    StillBehind(strict, s, FinishOne(c, s, i, StatusIncomplete), i);
  }

  predicate BreaksOrFails(strict: bool, o: Out) {
    if o.err == NoError then Read(strict, o.st.wire.frames).Broken? else o.st.flags.failed
  }

  lemma {:induction false} FinishItemsBehind(strict: bool, c: Config, s: State, i: nat)
    requires ClosingBehind(strict, s, i)
    ensures BreaksOrFails(strict, FinishItems(c, s, StatusIncomplete, false, i))
    decreases |s.table.items| - i, 1
  {
    if i == |s.table.items| - 1 {
      UnannouncedCloseBreaks(strict, c, s, i, StatusIncomplete);
    } else if s.table.items[i].progress.itemDone {
      FinishItemsBehind(strict, c, s, i + 1);
    } else {
      FinishItemsStep(c, s, StatusIncomplete, false, i);
      FinishOneBehind(strict, c, s, i);
      RestBehind(strict, c, s, i, FinishOne(c, s, i, StatusIncomplete));
    }
  }

  lemma {:induction false} RestBehind(strict: bool, c: Config, s: State, i: nat, o: Out)
    requires i < |s.table.items|
    requires if o.err == NoError then ClosingBehind(strict, o.st, i + 1) && |o.st.table.items| == |s.table.items|
      else o.st.flags.failed
    ensures BreaksOrFails(strict, if o.err != NoError then o else FinishItems(c, o.st, StatusIncomplete, false, i + 1))
    decreases |s.table.items| - i, 0
  {
    if o.err == NoError {
      FinishItemsBehind(strict, c, o.st, i + 1);
    }
  }

  lemma LimitBreaks(strict: bool, c: Config, s: State)
    requires Registered(strict, s) && s.table.items[|s.table.items| - 1].key.ToolItem?
    ensures var o := Limit(c, s); o.st.flags.failed || (o.st.flags.terminal && Read(strict, o.st.wire.frames).Broken?)
  {
    FinishItemsBehind(strict, c, s, 0);
    var o := FinishItems(c, s, StatusIncomplete, false, 0);
    if o.err == NoError {
      var s1 := o.st.(flags := o.st.flags.(terminal := true));
      BrokenStays(strict, c, s1, TerminalFrame(EndFailed(StreamLimitExceeded), ResponseOf(s1)));
    }
  }

  // ----- starting a tool call -----

  lemma OpenToolGood(strict: bool, c: Config, s: State, key: ToolKey, kind: ToolKind, givenId: string, name: string)
    requires Good(strict, s) && Open(s) && Lookup(s.table, ToolItem(key)).None?
    requires var id := c.newId(PrefixOf(kind), s.table.nextIndex);
      var callId := if givenId == "" then c.newId(CallId, s.table.nextIndex) else givenId;
      ValidStreamValue(c.utf8, id, MAX_ITEM_ID) && CanSpend(c, s, |id| + STATE_OVERHEAD) &&
      ValidStreamValue(c.utf8, callId, MAX_CALL_ID) ==>
        CanSpend(c, Spend(s, |id| + STATE_OVERHEAD), |callId| + |name|)
    ensures Good(strict, OpenTool(c, s, key, kind, givenId, name).st)
  {
    NewItemRegisters(strict, c, s, ToolItem(key), PrefixOf(kind), Tool(kind, "", ""));
    var o := NewItem(c, s, ToolItem(key), PrefixOf(kind), Tool(kind, "", ""));
    if o.err == NoError {
      NewItemBudget(c, s, ToolItem(key), PrefixOf(kind), Tool(kind, "", ""));
      AnnounceToolGood(strict, c, o.st, |s.table.items|, givenId, name);
    }
  }

  lemma NewItemBudget(c: Config, s: State, key: ItemKey, prefix: IdPrefix, tool: Tool)
    requires NewItem(c, s, key, prefix, tool).err == NoError && TableOk(s.table)
    ensures var o, id := NewItem(c, s, key, prefix, tool), c.newId(prefix, s.table.nextIndex);
      && ValidStreamValue(c.utf8, id, MAX_ITEM_ID) && CanSpend(c, s, |id| + STATE_OVERHEAD)
      && o.st.ledger == Spend(s, |id| + STATE_OVERHEAD).ledger
      && o.st.table.items[|s.table.items|].index == s.table.nextIndex
      && o.st.flags == s.flags
  {
  }

  lemma HandleToolStartedGood(strict: bool, c: Config, s: State, e: Event)
    requires Good(strict, s) && !s.flags.failed && !s.flags.terminal && e.ToolCallStarted? && !Unannounced(c, s, e)
    ensures Good(strict, HandleToolStarted(c, s, e.key, e.kind, e.callId, e.name).st)
  {
    InvalidTransitionGood(strict, c, s);
    EnsureStartedGood(strict, c, s);
    EnsureStartedKeeps(c, s);
    var o := EnsureStarted(c, s);
    if o.err == NoError {
      InvalidTransitionGood(strict, c, o.st);
      if OpensTool(c, s, e) {
        StartedToolGood(strict, c, s, e, o.st);
      } else {
        NoToolOpened(c, s, e);
      }
    }
  }

  function StartedKind(e: Event): ToolKind
    requires e.ToolCallStarted?
  {
    if e.kind == KindUnset then KindFunction else e.kind
  }

  /** None of the checks on the way to the new item fails. */
  predicate OpensTool(c: Config, s: State, e: Event)
    requires e.ToolCallStarted?
  {
    && e.key.choice >= 0 && e.key.tool >= 0
    && ValidOptionalStreamValue(c.utf8, e.callId, MAX_CALL_ID) && ValidOptionalStreamValue(c.utf8, e.name, MAX_CALL_ID)
    && Lookup(s.table, ToolItem(e.key)).None?
    && (StartedKind(e) == KindFunction || StartedKind(e) in c.customKinds)
  }

  lemma NoToolOpened(c: Config, s: State, e: Event)
    requires e.ToolCallStarted? && EnsureStarted(c, s).err == NoError && !OpensTool(c, s, e)
    ensures var o := HandleToolStarted(c, s, e.key, e.kind, e.callId, e.name);
      o == InvalidTransition(c, s) || o == InvalidTransition(c, EnsureStarted(c, s).st)
  {
  }

  lemma StartedToolGood(strict: bool, c: Config, s: State, e: Event, s1: State)
    requires e.ToolCallStarted? && OpensTool(c, s, e) && !Unannounced(c, s, e)
    requires EnsureStarted(c, s) == Out(s1, NoError) && s1.table == s.table && s1.ledger == s.ledger
    requires Good(strict, s1) && Open(s1)
    ensures Good(strict, HandleToolStarted(c, s, e.key, e.kind, e.callId, e.name).st)
  {
    OpenToolGood(strict, c, s1, e.key, StartedKind(e), e.callId, e.name);
  }

  lemma EnsureStartedKeeps(c: Config, s: State)
    ensures EnsureStarted(c, s).st.ledger == s.ledger && EnsureStarted(c, s).st.table == s.table
    ensures EnsureStarted(c, s).st.flags.invalid == s.flags.invalid
  {
  }

  lemma UnannouncedBreaks(strict: bool, c: Config, s: State, e: Event)
    requires Good(strict, s) && !s.flags.failed && !s.flags.terminal && Unannounced(c, s, e)
    ensures var o := Handle(c, s, e);
      o.st.flags.failed || (o.st.flags.terminal && Read(strict, o.st.wire.frames).Broken?)
  {
    EnsureStartedGood(strict, c, s);
    EnsureStartedKeeps(c, s);
    var o := EnsureStarted(c, s);
    if o.err == NoError {
      var kind := if e.kind == KindUnset then KindFunction else e.kind;
      OpenToolBreaks(strict, c, o.st, e.key, kind, e.callId, e.name);
    } else {
      StartFailure(c, s);
    }
  }

  lemma StartFailure(c: Config, s: State)
    requires EnsureStarted(c, s).err != NoError
    ensures EnsureStarted(c, s).st.flags.failed
  {
  }

  lemma OpenToolBreaks(strict: bool, c: Config, s: State, key: ToolKey, kind: ToolKind, givenId: string, name: string)
    requires Good(strict, s) && Open(s) && Lookup(s.table, ToolItem(key)).None?
    requires var id := c.newId(PrefixOf(kind), s.table.nextIndex);
      var callId := if givenId == "" then c.newId(CallId, s.table.nextIndex) else givenId;
      && ValidStreamValue(c.utf8, id, MAX_ITEM_ID) && CanSpend(c, s, |id| + STATE_OVERHEAD)
      && ValidStreamValue(c.utf8, callId, MAX_CALL_ID)
      && !CanSpend(c, Spend(s, |id| + STATE_OVERHEAD), |callId| + |name|)
    ensures var o := OpenTool(c, s, key, kind, givenId, name);
      o.st.flags.failed || (o.st.flags.terminal && Read(strict, o.st.wire.frames).Broken?)
  {
    NewItemRegisters(strict, c, s, ToolItem(key), PrefixOf(kind), Tool(kind, "", ""));
    NewItemBudget(c, s, ToolItem(key), PrefixOf(kind), Tool(kind, "", ""));
    var s1 := NewItem(c, s, ToolItem(key), PrefixOf(kind), Tool(kind, "", "")).st;
    var i := |s.table.items|;
    var callId := if givenId == "" then c.newId(CallId, s.table.nextIndex) else givenId;
    var tool := s1.table.items[i].tool.(callId := callId);
    RetooledRegistered(strict, s1, i, tool);
    LimitBreaks(strict, c, SetItem(s1, i, s1.table.items[i].(tool := tool)));
  }

  // ----- whole runs -----

  /** The two guards under which a call takes the frames out of the grammar. */
  predicate Escapes(strict: bool, c: Config, s: State, e: Event) {
    Unannounced(c, s, e) || (strict && Diverges(c, s, e))
  }

  lemma DispatchGood(strict: bool, c: Config, s: State, e: Event)
    requires Good(strict, s) && !s.flags.failed && !s.flags.terminal && !Escapes(strict, c, s, e)
    ensures Good(strict, Dispatch(c, s, e).st)
  {
    match e
    case ResponseStarted(_, model) => HandleResponseStartedGood(strict, c, s, model);
    case TextDelta(choice, text) => HandleTextGood(strict, c, s, choice, text);
    case ReasoningDelta(choice, text) => HandleReasoningGood(strict, c, s, choice, text);
    case UsageUpdated(usage) => HandleUsageGood(strict, c, s, usage);
    case ToolCallStarted(_, _, _, _) => HandleToolStartedGood(strict, c, s, e);
    case ToolCallMetadata(key, callId, name) => HandleMetadataGood(strict, c, s, key, callId, name);
    case ToolCallArguments(key, arguments) => HandleArgumentsGood(strict, c, s, key, arguments);
    case ToolCallCompleted(_, _, _, _, _) => HandleToolCompletedGood(strict, c, s, e);
    case Completed => HandleTerminalGood(strict, c, s, StatusCompleted, true, EndCompleted);
    case Incomplete(maxTokens) => HandleTerminalGood(strict, c, s, StatusIncomplete, false, EndIncomplete(maxTokens));
    case Failed(code) => HandleTerminalGood(strict, c, s, StatusIncomplete, false, EndFailed(SafeCode(c, code)));
    case NilEvent => InvalidTransitionGood(strict, c, s);
  }

  predicate Hits(strict: bool, c: Config, s: State, call: Call) {
    call.CallHandle? && !s.flags.failed && !s.flags.terminal && Escapes(strict, c, s, call.event)
  }

  lemma ApplyGood(strict: bool, c: Config, s: State, call: Call)
    requires Good(strict, s) && !Hits(strict, c, s, call)
    ensures Good(strict, Apply(c, s, call).st)
  {
    if !s.flags.failed && !s.flags.terminal {
      match call
      case CallStart =>
        InvalidTransitionGood(strict, c, s);
        EnsureStartedGood(strict, c, s);
      case CallHandle(e) => DispatchGood(strict, c, s, e);
    }
  }

  lemma EscapeBreaks(strict: bool, c: Config, s: State, call: Call)
    requires Good(strict, s) && Hits(strict, c, s, call)
    ensures var s1 := Apply(c, s, call).st; s1.flags.failed || Read(strict, s1.wire.frames).Broken?
  {
    if Unannounced(c, s, call.event) {
      UnannouncedBreaks(strict, c, s, call.event);
    } else {
      DivergesEscapes(c, s, call.event);
    }
  }

  lemma DivergesEscapes(c: Config, s: State, e: Event)
    requires Good(true, s) && !s.flags.failed && !s.flags.terminal && Diverges(c, s, e)
    ensures var s1 := Handle(c, s, e).st; s1.flags.failed || Read(true, s1.wire.frames).Broken?
  {
    DivergesBreaks(c, s, e);
  }

  predicate EverHits(strict: bool, c: Config, s: State, calls: seq<Call>)
    decreases |calls|
  {
    calls != [] &&
    (EverHits(strict, c, s, calls[..|calls| - 1]) ||
      Hits(strict, c, RunCalls(c, s, calls[..|calls| - 1]), calls[|calls| - 1]))
  }

  lemma FailedStays(c: Config, s: State, call: Call)
    requires s.flags.failed
    ensures Apply(c, s, call).st.flags.failed
  {
  }

  lemma BrokenForever(strict: bool, c: Config, s: State, call: Call)
    requires Read(strict, s.wire.frames).Broken?
    ensures Read(strict, Apply(c, s, call).st.wire.frames).Broken?
  {
    var frames := Apply(c, s, call).st.wire.frames;
    assert frames[..|s.wire.frames|] == s.wire.frames;
    if Read(strict, frames) != Broken {
      BrokenPrefix(strict, frames, |s.wire.frames|);
    }
  }

  lemma InitialGood(strict: bool, model: string)
    ensures Good(strict, Initial(model))
  {
  }

  lemma {:induction false} RunGood(strict: bool, c: Config, s: State, calls: seq<Call>)
    requires Good(strict, s)
    ensures !EverHits(strict, c, s, calls) ==> Good(strict, RunCalls(c, s, calls))
    ensures EverHits(strict, c, s, calls) ==>
      RunCalls(c, s, calls).flags.failed || Read(strict, RunCalls(c, s, calls).wire.frames).Broken?
    decreases |calls|
  {
    if calls != [] {
      var before, call := RunCalls(c, s, calls[..|calls| - 1]), calls[|calls| - 1];
      RunGood(strict, c, s, calls[..|calls| - 1]);
      if EverHits(strict, c, s, calls[..|calls| - 1]) {
        if before.flags.failed {
          FailedStays(c, before, call);
        } else {
          BrokenForever(strict, c, before, call);
        }
      } else if Hits(strict, c, before, call) {
        EscapeBreaks(strict, c, before, call);
      } else {
        ApplyGood(strict, c, before, call);
      }
    }
  }

  /** Wire grammar: after any calls in any order the frames are numbered 0, 1, 2,
      ... and the items stand at their output indexes. A run without write failures
      leaves the plain grammar exactly if some call closes an unannounced tool item,
      and the strict one exactly if in addition or instead some completion replaces
      streamed arguments by different ones. */
  lemma WireGrammarExact(strict: bool, c: Config, model: string, calls: seq<Call>)
    ensures var s := RunCalls(c, Initial(model), calls);
      && s.wire.seqNo == |s.wire.frames| && Numbered(s.wire.frames) && TableOk(s.table)
      && (!EverHits(strict, c, Initial(model), calls) ==> Read(strict, s.wire.frames) != Broken)
      && (!s.flags.failed ==> (Read(strict, s.wire.frames).Broken? <==> EverHits(strict, c, Initial(model), calls)))
  {
    InitialGood(strict, model);
    RunGood(strict, c, Initial(model), calls);
    SteadyRun(c, Initial(model), calls);
  }

  /** Read not Broken, spelled out: created and in_progress come first and only
      there, and only the last frame can be terminal. */
  lemma {:induction false} GrammarEnds(strict: bool, frames: seq<Frame>)
    requires Read(strict, frames) != Broken
    ensures |frames| > 0 ==> frames[0].body.CreatedFrame?
    ensures |frames| > 1 ==> frames[1].body.InProgressFrame?
    ensures forall i :: 2 <= i < |frames| ==> !frames[i].body.CreatedFrame? && !frames[i].body.InProgressFrame?
    ensures forall i :: 0 <= i < |frames| - 1 ==> !frames[i].body.TerminalFrame?
    ensures Read(strict, frames).Ended? <==> |frames| > 0 && frames[|frames| - 1].body.TerminalFrame?
    ensures Read(strict, frames).Nothing? <==> |frames| == 0
    ensures Read(strict, frames).CreatedOnly? <==> |frames| == 1
    decreases |frames|
  {
    if frames != [] {
      var front := frames[..|frames| - 1];
      GrammarEnds(strict, front);
      assert forall i :: 0 <= i < |front| ==> front[i] == frames[i];
    }
  }
}
