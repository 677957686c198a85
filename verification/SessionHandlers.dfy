/** Each handler of the session keeps the session good; the one way out of the
    wire grammar is the failed reservation that Unannounced describes. */
module SessionHandlers {
  import opened Bridge
  import opened SessionSafety
  import opened SessionSpec
  import opened WireGrammar

  /** An open session whose last item has been registered but not yet announced. */
  predicate Registered(strict: bool, s: State) {
    && Open(s) && TableOk(s.table) && |s.table.items| > 0
    && Synced(strict, s.wire, s.table.items, |s.table.items| - 1)
    && var item := s.table.items[|s.table.items| - 1];
       item.payload == "" && item.progress == Progress(InProgress, false, false)
  }

  lemma RegisterTable(t: Table, item: Item)
    requires TableOk(t) && item.key !in t.byKey && item.index == |t.items|
    ensures TableOk(Table(t.items + [item], t.byKey[item.key := |t.items|], t.nextIndex + 1))
  {
  }

  lemma NewItemRegisters(strict: bool, c: Config, s: State, key: ItemKey, prefix: IdPrefix, tool: Tool)
    requires Good(strict, s) && Open(s) && key !in s.table.byKey
    ensures var o := NewItem(c, s, key, prefix, tool);
      if o.err == NoError then Registered(strict, o.st) && o.st.table.items[|s.table.items|].key == key
        else Good(strict, o.st)
  {
    var id := c.newId(prefix, s.table.nextIndex);
    if ValidStreamValue(c.utf8, id, MAX_ITEM_ID) {
      if CanSpend(c, s, |id| + STATE_OVERHEAD) {
        var item := Item(key, id, s.table.nextIndex, tool, "", Progress(InProgress, false, false));
        RegisterTable(s.table, item);
      } else {
        LimitGood(strict, c, s);
      }
    }
  }

  lemma AnnounceRead(strict: bool, c: Config, s: State)
    requires Registered(strict, s)
    ensures var item := s.table.items[|s.table.items| - 1];
      var o, slots := Write(c, s, ItemAdded(item.index, SnapshotOf(item, InProgress))),
        Read(strict, s.wire.frames).slots;
      && WireOk(strict, o.st.wire)
      && (o.err == NoError ==> o.st.flags == s.flags)
      && (o.err == NoError ==>
           Read(strict, o.st.wire.frames) ==
             Live(slots + [Slot(item.id, if item.key.TextItem? then TextAnnounced else ToolOpen(""))]))
      && (o.err != NoError ==> o.st.flags == s.flags.(failed := true))
  {
    var item := s.table.items[|s.table.items| - 1];
    WriteAccepted(strict, c, s, ItemAdded(item.index, SnapshotOf(item, InProgress)));
  }

  lemma SyncedPush(strict: bool, w0: Wire, w: Wire, items: seq<Item>)
    requires |items| > 0 && Synced(strict, w0, items, |items| - 1) && WireOk(strict, w)
    requires var item := items[|items| - 1];
      && item.payload == "" && item.progress == Progress(InProgress, false, false)
      && Read(strict, w.frames) ==
        Live(Read(strict, w0.frames).slots + [Slot(item.id, if item.key.TextItem? then TextOpen("") else ToolOpen(""))])
    ensures Synced(strict, w, items, |items|)
  {
  }

  lemma AnnounceTextGood(strict: bool, c: Config, s: State)
    requires Registered(strict, s) && s.table.items[|s.table.items| - 1].key.TextItem?
    ensures var o := AnnounceText(c, s, |s.table.items| - 1); Good(strict, o.st) && (o.err == NoError ==> Open(o.st))
  {
    var n := |s.table.items| - 1;
    var item := s.table.items[n];
    AnnounceRead(strict, c, s);
    var o1 := Write(c, s, ItemAdded(item.index, SnapshotOf(item, InProgress)));
    if o1.err == NoError {
      PartAddedGood(strict, c, s, o1.st, n, item, Read(strict, s.wire.frames).slots);
    }
  }

  /** The part is added to the item that has just been announced. */
  lemma PartAddedGood(strict: bool, c: Config, s: State, s1: State, n: nat, item: Item, slots: seq<Slot>)
    requires Registered(strict, s) && n == |s.table.items| - 1 && item == s.table.items[n] && item.key.TextItem?
    requires slots == Read(strict, s.wire.frames).slots && s1.table == s.table && s1.flags == s.flags
    requires WireOk(strict, s1.wire) && Read(strict, s1.wire.frames) == Live(slots + [Slot(item.id, TextAnnounced)])
    ensures var o := Write(c, s1, PartAdded(item.index, item.id));
      Good(strict, o.st) && (o.err == NoError ==> Open(o.st))
  {
    ReadPartAdded(strict, c, s1, n, slots + [Slot(item.id, TextAnnounced)], item.id);
    LastSlot(slots, Slot(item.id, TextAnnounced), Slot(item.id, TextOpen("")));
    var o := Write(c, s1, PartAdded(item.index, item.id));
    if o.err == NoError {
      SyncedPush(strict, s.wire, o.st.wire, s.table.items);
    }
  }

  lemma LastSlot(slots: seq<Slot>, a: Slot, b: Slot)
    ensures (slots + [a])[|slots| := b] == slots + [b]
  {
  }

  lemma NewTextItemGood(strict: bool, c: Config, s: State, choice: int)
    requires Good(strict, s) && Open(s) && TextItem(choice) !in s.table.byKey
    ensures var o := NewTextItem(c, s, choice);
      && Good(strict, o.st)
      && (o.err == NoError ==> Open(o.st) && o.st.table.items[|s.table.items|].key == TextItem(choice))
  {
    NewItemRegisters(strict, c, s, TextItem(choice), MessageId, Tool(KindFunction, "", ""));
    var o := NewItem(c, s, TextItem(choice), MessageId, Tool(KindFunction, "", ""));
    if o.err == NoError {
      AnnounceTextGood(strict, c, o.st);
    }
  }

  lemma ReadPartAdded(strict: bool, c: Config, s: State, i: nat, slots: seq<Slot>, id: string)
    requires WireOk(strict, s.wire) && i < |slots| && Read(strict, s.wire.frames) == Live(slots) &&
      slots[i] == Slot(id, TextAnnounced)
    ensures var o := Write(c, s, PartAdded(i, id));
      && WireOk(strict, o.st.wire)
      && (o.err == NoError ==>
        o.st.flags == s.flags && Read(strict, o.st.wire.frames) == Live(slots[i := Slot(id, TextOpen(""))]))
      && (o.err != NoError ==> o.st.flags == s.flags.(failed := true))
  {
    WriteAdvances(strict, c, s, PartAdded(i, id), i);
  }

  // ----- deltas -----

  /** Appending a delta frame and the same text to the item keeps them in sync. */
  lemma SyncedDelta(strict: bool, w0: Wire, w: Wire, items: seq<Item>, i: nat, delta: string)
    requires Synced(strict, w0, items, |items|) && i < |items| && !items[i].progress.itemDone && WireOk(strict, w)
    requires var item := items[i];
      Read(strict, w.frames) == Live(Read(strict, w0.frames).slots[i :=
        Slot(item.id, if item.key.TextItem? then TextOpen(item.payload + delta) else ToolOpen(item.payload + delta))])
    ensures Synced(strict, w, items[i := items[i].(payload := items[i].payload + delta)], |items|)
  {
  }

  lemma ReadTextDelta(strict: bool, c: Config, s: State, i: nat, slots: seq<Slot>, id: string, text: string,
                      delta: string)
    requires WireOk(strict, s.wire) && i < |slots| && Read(strict, s.wire.frames) == Live(slots) &&
      slots[i] == Slot(id, TextOpen(text))
    ensures var o := Write(c, s, TextDeltaFrame(i, id, delta));
      && WireOk(strict, o.st.wire)
      && (o.err == NoError ==>
        o.st.flags == s.flags && Read(strict, o.st.wire.frames) == Live(slots[i := Slot(id, TextOpen(text + delta))]))
      && (o.err != NoError ==> o.st.flags == s.flags.(failed := true))
  {
    WriteAdvances(strict, c, s, TextDeltaFrame(i, id, delta), i);
  }

  lemma ReadArgumentsDelta(strict: bool, c: Config, s: State, i: nat, slots: seq<Slot>, id: string, kind: ToolKind,
                           text: string, delta: string)
    requires WireOk(strict, s.wire) && i < |slots| && Read(strict, s.wire.frames) == Live(slots) &&
      slots[i] == Slot(id, ToolOpen(text))
    ensures var o := Write(c, s, ArgumentsDeltaFrame(i, id, kind, delta));
      && WireOk(strict, o.st.wire)
      && (o.err == NoError ==>
        o.st.flags == s.flags && Read(strict, o.st.wire.frames) == Live(slots[i := Slot(id, ToolOpen(text + delta))]))
      && (o.err != NoError ==> o.st.flags == s.flags.(failed := true))
  {
    WriteAdvances(strict, c, s, ArgumentsDeltaFrame(i, id, kind, delta), i);
  }

  lemma SetItemTable(t: Table, i: nat, item: Item)
    requires TableOk(t) && i < |t.items| && item.key == t.items[i].key && item.index == t.items[i].index
    ensures TableOk(t.(items := t.items[i := item]))
  {
  }

  lemma AppendTextGood(strict: bool, c: Config, s: State, i: nat, text: string)
    requires Good(strict, s) && Open(s) && i < |s.table.items| && s.table.items[i].key.TextItem?
    ensures Good(strict, AppendText(c, s, i, text).st)
  {
    var item := s.table.items[i];
    if item.progress.itemDone {
      InvalidTransitionGood(strict, c, s);
    } else if text != "" {
      LimitGood(strict, c, s);
      assert SlotMatches(Read(strict, s.wire.frames).slots[i], item);
      var l := s.ledger;
      var s1 := SetItem(s, i, item.(payload := item.payload + text));
      var s2 := s1.(ledger := Ledger(l.aggregate + |text|, l.text + |text|, l.output + |text|, l.reasoning));
      SetItemTable(s.table, i, item.(payload := item.payload + text));
      ReadTextDelta(strict, c, s2, i, Read(strict, s.wire.frames).slots, item.id, item.payload, text);
      var o := Write(c, s2, TextDeltaFrame(i, item.id, text));
      if o.err == NoError {
        SyncedDelta(strict, s.wire, o.st.wire, s.table.items, i, text);
      }
    }
  }

  lemma AppendArgumentsGood(strict: bool, c: Config, s: State, i: nat, arguments: string)
    requires Good(strict, s) && Open(s) && i < |s.table.items| && s.table.items[i].key.ToolItem? &&
      !s.table.items[i].progress.itemDone
    ensures Good(strict, AppendArguments(c, s, i, arguments).st)
  {
    var item := s.table.items[i];
    LimitGood(strict, c, s);
    assert SlotMatches(Read(strict, s.wire.frames).slots[i], item);
    var l := s.ledger;
    var s1 := SetItem(s, i, item.(payload := item.payload + arguments));
    var s2 := s1.(ledger := l.(aggregate := l.aggregate + |arguments|, output := l.output + |arguments|));
    SetItemTable(s.table, i, item.(payload := item.payload + arguments));
    ReadArgumentsDelta(strict, c, s2, i, Read(strict, s.wire.frames).slots, item.id, item.tool.kind, item.payload,
      arguments);
    var o := Write(c, s2, ArgumentsDeltaFrame(i, item.id, item.tool.kind, arguments));
    if o.err == NoError {
      SyncedDelta(strict, s.wire, o.st.wire, s.table.items, i, arguments);
    }
  }

  // ----- events -----

  lemma HandleResponseStartedGood(strict: bool, c: Config, s: State, model: string)
    requires Good(strict, s) && !s.flags.failed && !s.flags.terminal
    ensures Good(strict, HandleResponseStarted(c, s, model).st)
  {
    if !s.flags.started {
      InvalidTransitionGood(strict, c, s);
      StartSessionGood(strict, c, s);
      StartSessionGood(strict, c, s.(model := model));
    }
  }

  lemma HandleTextGood(strict: bool, c: Config, s: State, choice: int, text: string)
    requires Good(strict, s) && !s.flags.failed && !s.flags.terminal
    ensures Good(strict, HandleText(c, s, choice, text).st)
  {
    if choice < 0 {
      InvalidTransitionGood(strict, c, s);
    } else {
      EnsureStartedGood(strict, c, s);
      var o := EnsureStarted(c, s);
      if o.err == NoError {
        if c.utf8(text) {
          HandleTextItemGood(strict, c, o.st, choice, text);
        } else {
          InvalidTransitionGood(strict, c, o.st);
        }
      }
    }
  }

  lemma HandleTextItemGood(strict: bool, c: Config, s: State, choice: int, text: string)
    requires Good(strict, s) && Open(s)
    ensures Good(strict, HandleTextItem(c, s, choice, text).st)
  {
    var i := Lookup(s.table, TextItem(choice));
    if i.Some? {
      AppendTextGood(strict, c, s, i.value, text);
    } else if text != "" {
      NewTextItemGood(strict, c, s, choice);
      var o := NewTextItem(c, s, choice);
      if o.err == NoError {
        AppendTextGood(strict, c, o.st, |s.table.items|, text);
      }
    }
  }

  lemma HandleReasoningGood(strict: bool, c: Config, s: State, choice: int, text: string)
    requires Good(strict, s) && !s.flags.failed && !s.flags.terminal
    ensures Good(strict, HandleReasoning(c, s, choice, text).st)
  {
    if choice < 0 || !c.utf8(text) {
      InvalidTransitionGood(strict, c, s);
    } else {
      EnsureStartedGood(strict, c, s);
      var o := EnsureStarted(c, s);
      if o.err == NoError {
        LimitGood(strict, c, o.st);
      }
    }
  }

  lemma HandleUsageGood(strict: bool, c: Config, s: State, usage: Usage)
    requires Good(strict, s) && !s.flags.failed && !s.flags.terminal
    ensures Good(strict, HandleUsage(c, s, usage).st)
  {
    EnsureStartedGood(strict, c, s);
  }

  lemma ActiveToolIsTool(s: State, key: ToolKey)
    requires TableOk(s.table) && ActiveTool(s, key).Some?
    ensures s.table.items[ActiveTool(s, key).value].key == ToolItem(key)
  {
  }

  lemma ActiveToolMeansOpen(strict: bool, s: State, key: ToolKey)
    requires Good(strict, s) && !s.flags.failed && !s.flags.terminal && ActiveTool(s, key).Some?
    ensures Open(s)
  {
  }

  lemma HandleArgumentsGood(strict: bool, c: Config, s: State, key: ToolKey, arguments: string)
    requires Good(strict, s) && !s.flags.failed && !s.flags.terminal
    ensures Good(strict, HandleArguments(c, s, key, arguments).st)
  {
    var i := ActiveTool(s, key);
    if i.None? || !c.utf8(arguments) {
      InvalidTransitionGood(strict, c, s);
    } else if arguments != "" {
      ActiveToolIsTool(s, key);
      ActiveToolMeansOpen(strict, s, key);
      AppendArgumentsGood(strict, c, s, i.value, arguments);
    }
  }

  lemma RenamedSynced(strict: bool, w: Wire, items: seq<Item>, i: nat, tool: Tool)
    requires Synced(strict, w, items, |items|) && i < |items|
    ensures Synced(strict, w, items[i := items[i].(tool := tool)], |items|)
  {
  }

  lemma HandleMetadataGood(strict: bool, c: Config, s: State, key: ToolKey, callId: string, name: string)
    requires Good(strict, s) && !s.flags.failed && !s.flags.terminal
    ensures Good(strict, HandleMetadata(c, s, key, callId, name).st)
  {
    var i := ActiveTool(s, key);
    InvalidTransitionGood(strict, c, s);
    if i.Some? {
      ActiveToolMeansOpen(strict, s, key);
      LimitGood(strict, c, s);
      var s1 := Spend(s, |callId| + |name|);
      InvalidTransitionGood(strict, c, s1);
      var item := s.table.items[i.value];
      var tool := item.tool.(name := item.tool.name + name);
      RenamedSynced(strict, s.wire, s.table.items, i.value, tool);
      SetItemTable(s.table, i.value, item.(tool := tool));
    }
  }

  lemma RewrittenInvalid(strict: bool, c: Config, s: State, i: nat, name: string, arguments: string)
    requires Good(strict, s) && Open(s) && i < |s.table.items| && !s.table.items[i].progress.itemDone
    ensures Good(strict, InvalidTransition(c, Rewritten(s, i, name, arguments)).st)
  {
    var s1, item1 := Rewritten(s, i, name, arguments), RewrittenItem(s.table.items[i], name, arguments);
    SetItemTable(s.table, i, item1);
    ReplacedCovers(strict, s.wire, s.table.items, i, item1);
    InvalidTransitionCloses(strict, c, s1);
  }

  /** The completion event replaces streamed arguments by different ones. */
  predicate DivergesAt(s: State, i: nat, callId: string, name: string, arguments: string)
    requires i < |s.table.items|
  {
    && (callId == "" || s.table.items[i].tool.callId == callId)
    && !LacksIdentity(RewrittenItem(s.table.items[i], name, arguments))
    && arguments != "" && arguments != s.table.items[i].payload
  }

  /** The guard of the event as a whole: a completion accepted with such arguments. */
  predicate Diverges(c: Config, s: State, e: Event) {
    && e.ToolCallCompleted? && ActiveTool(s, e.key).Some?
    && var i := ActiveTool(s, e.key).value;
       && !BadCompletion(c, s, i, e.kind, e.callId, e.name, e.arguments)
       && !LargeCompletion(c, s, i, e.callId, e.name, e.arguments)
       && DivergesAt(s, i, e.callId, e.name, e.arguments)
  }

  lemma CloseToolGood(strict: bool, c: Config, s: State, i: nat, callId: string, name: string, arguments: string)
    requires Good(strict, s) && Open(s) && i < |s.table.items| && s.table.items[i].key.ToolItem? &&
      !s.table.items[i].progress.itemDone
    requires strict ==> !DivergesAt(s, i, callId, name, arguments)
    ensures Good(strict, CloseTool(c, s, i, callId, name, arguments).st)
  {
    if callId != "" && s.table.items[i].tool.callId != callId {
      InvalidTransitionGood(strict, c, s);
    } else {
      RewrittenInvalid(strict, c, s, i, name, arguments);
      if !LacksIdentity(RewrittenItem(s.table.items[i], name, arguments)) {
        FinishReplacedTool(strict, c, s, Rewritten(s, i, name, arguments), i,
          RewrittenItem(s.table.items[i], name, arguments));
      }
    }
  }

  lemma ReplacedCovers(strict: bool, w: Wire, items: seq<Item>, i: nat, item: Item)
    requires Synced(strict, w, items, |items|) && i < |items| && !items[i].progress.itemDone
    ensures Covers(strict, w, items[i := item])
  {
    SyncedCovers(strict, w, items, |items|);
    assert SlotMatches(Read(strict, w.frames).slots[i], items[i]);
  }

  lemma FinishReplacedTool(strict: bool, c: Config, s: State, s1: State, i: nat, item: Item)
    requires Good(strict, s) && Open(s) && i < |s.table.items| && s.table.items[i].key.ToolItem? &&
      !s.table.items[i].progress.itemDone
    requires item.key == s.table.items[i].key && item.id == s.table.items[i].id && item.index == s.table.items[i].index
    requires item.progress == s.table.items[i].progress && (strict ==> item.payload == s.table.items[i].payload)
    requires s1.wire == s.wire && s1.flags == s.flags && s1.table == s.table.(items := s.table.items[i := item])
    ensures Good(strict, FinishTool(c, s1, i, StatusCompleted).st)
  {
    var slots, deltas := Read(strict, s.wire.frames).slots, s.table.items[i].payload;
    assert SlotMatches(slots[i], s.table.items[i]);
    SetItemTable(s.table, i, item);
    FinishToolRead(strict, c, s1, i, StatusCompleted, slots, deltas);
    var o := FinishTool(c, s1, i, StatusCompleted);
    FinishToolKeys(c, s1, i);
    KeysKeepTable(s1.table, o.st.table);
    if o.err == NoError {
      var closed := ClosedItem(item, StatusCompleted);
      SyncedClosed(strict, s.wire, o.st.wire, s.table.items, i, closed, deltas, |s.table.items|);
      assert s.table.items[i := item][i := closed] == s.table.items[i := closed];
    }
  }

  lemma FinishToolKeys(c: Config, s: State, i: nat)
    requires i < |s.table.items|
    ensures SameItemKeys(s.table, FinishTool(c, s, i, StatusCompleted).st.table)
  {
  }

  function Completion(c: Config, s: State, e: Event): Out
    requires e.ToolCallCompleted?
  {
    HandleToolCompleted(c, s, e.key, e.kind, e.callId, e.name, e.arguments)
  }

  lemma RejectedCompletionGood(strict: bool, c: Config, s: State, e: Event)
    requires Good(strict, s) && !s.flags.failed && !s.flags.terminal && e.ToolCallCompleted?
    requires var i := ActiveTool(s, e.key);
      i.None? || BadCompletion(c, s, i.value, e.kind, e.callId, e.name, e.arguments)
    ensures Good(strict, Completion(c, s, e).st)
  {
    InvalidTransitionGood(strict, c, s);
  }

  lemma LargeCompletionGood(strict: bool, c: Config, s: State, e: Event)
    requires Good(strict, s) && Open(s) && e.ToolCallCompleted? && ActiveTool(s, e.key).Some?
    requires var i := ActiveTool(s, e.key).value;
      && !BadCompletion(c, s, i, e.kind, e.callId, e.name, e.arguments)
      && LargeCompletion(c, s, i, e.callId, e.name, e.arguments)
    ensures Good(strict, Completion(c, s, e).st)
  {
    LimitGood(strict, c, s);
  }

  lemma AcceptedCompletionGood(strict: bool, c: Config, s: State, e: Event)
    requires Good(strict, s) && Open(s) && e.ToolCallCompleted? && ActiveTool(s, e.key).Some?
    requires var i := ActiveTool(s, e.key).value;
      && !BadCompletion(c, s, i, e.kind, e.callId, e.name, e.arguments)
      && !LargeCompletion(c, s, i, e.callId, e.name, e.arguments)
      && (strict ==> !DivergesAt(s, i, e.callId, e.name, e.arguments))
    ensures Good(strict, Completion(c, s, e).st)
  {
    ActiveToolIsTool(s, e.key);
    var s1 := Spend(s, |e.callId| + |e.name| + |e.arguments|);
    CloseToolGood(strict, c, s1, ActiveTool(s, e.key).value, e.callId, e.name, e.arguments);
  }

  lemma HandleToolCompletedGood(strict: bool, c: Config, s: State, e: Event)
    requires Good(strict, s) && !s.flags.failed && !s.flags.terminal
    requires e.ToolCallCompleted? && (strict ==> !Diverges(c, s, e))
    ensures Good(strict, Completion(c, s, e).st)
  {
    var i := ActiveTool(s, e.key);
    if i.None? || BadCompletion(c, s, i.value, e.kind, e.callId, e.name, e.arguments) {
      RejectedCompletionGood(strict, c, s, e);
    } else {
      ActiveToolMeansOpen(strict, s, e.key);
      if LargeCompletion(c, s, i.value, e.callId, e.name, e.arguments) {
        LargeCompletionGood(strict, c, s, e);
      } else {
        AcceptedCompletionGood(strict, c, s, e);
      }
    }
  }

  /** In the strict grammar such a completion breaks the stream's frames. */
  lemma DivergesBreaks(c: Config, s: State, e: Event)
    requires Good(true, s) && !s.flags.failed && !s.flags.terminal && Diverges(c, s, e)
    ensures var o := HandleToolCompleted(c, s, e.key, e.kind, e.callId, e.name, e.arguments);
      o.st.flags.failed || Read(true, o.st.wire.frames).Broken?
  {
    ActiveToolIsTool(s, e.key);
    ActiveToolMeansOpen(true, s, e.key);
    var i := ActiveTool(s, e.key).value;
    var s1 := Spend(s, |e.callId| + |e.name| + |e.arguments|);
    CloseToolBreaks(c, s1, i, e.callId, e.name, e.arguments);
  }

  lemma CloseToolBreaks(c: Config, s: State, i: nat, callId: string, name: string, arguments: string)
    requires Good(true, s) && Open(s) && i < |s.table.items| && s.table.items[i].key.ToolItem? &&
      !s.table.items[i].progress.itemDone
    requires DivergesAt(s, i, callId, name, arguments)
    ensures var o := CloseTool(c, s, i, callId, name, arguments);
      o.st.flags.failed || Read(true, o.st.wire.frames).Broken?
  {
    assert SlotMatches(Read(true, s.wire.frames).slots[i], s.table.items[i]);
    DivergentCloseBreaks(c, s, Rewritten(s, i, name, arguments), i);
  }

  lemma DivergentCloseBreaks(c: Config, s: State, s1: State, i: nat)
    requires Good(true, s) && Open(s) && i < |s.table.items| == |s1.table.items| && s1.wire == s.wire
    requires s1.table.items[i].index == i && !s1.table.items[i].progress.itemDone
    requires var slot := Read(true, s.wire.frames).slots[i];
      slot.stage.ToolOpen? && slot.id == s1.table.items[i].id && s1.table.items[i].payload != slot.stage.deltas
    ensures var o := FinishTool(c, s1, i, StatusCompleted); o.st.flags.failed || Read(true, o.st.wire.frames).Broken?
  {
    var item := s1.table.items[i];
    var b0 := ArgumentsDoneFrame(item.index, item.id, item.tool.kind, item.tool.name, item.payload);
    ReadAppend(true, s1.wire.frames, Frame(s1.wire.seqNo, b0));
    assert Accept(true, Read(true, s1.wire.frames), b0) == Broken;
    var o := Write(c, s1, b0);
    if o.err == NoError {
      var item1 := item.(progress := Progress(StatusCompleted, item.progress.contentDone, true));
      BrokenWrite(c, SetItem(o.st, i, item1), ItemDone(item.index, SnapshotOf(item1, StatusCompleted)));
    }
  }

  lemma BrokenWrite(c: Config, s: State, body: Body)
    requires Read(true, s.wire.frames).Broken?
    ensures Read(true, Write(c, s, body).st.wire.frames).Broken?
  {
    ReadAppend(true, s.wire.frames, Frame(s.wire.seqNo, body));
  }
}
