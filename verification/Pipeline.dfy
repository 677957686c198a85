/** The composition: every legal event stream, and so every decoder run, drives a
    started session without an invalid transition. */
module Pipeline {
  import opened Bridge
  import opened Protocol
  import opened SessionHandlers
  import opened SessionSafety
  import opened SessionSpec
  import opened SessionTheorems

  /** The session's limits are at least the stream's, its ids are short, and it
      knows the custom tool kind. A generated item id plus the per-item overhead
      then fits the decoder's per-event charge. */
  ghost predicate SessionFits(c: Config, totals: Totals, maxArguments: int) {
    && totals.text <= c.maxText && totals.reasoning <= c.maxReasoning
    && totals.output <= c.maxOutput && totals.cost <= c.maxAggregate && maxArguments <= c.maxToolArguments
    && (forall p, n :: ValidStreamValue(c.utf8, c.newId(p, n), EVENT_COST - STATE_OVERHEAD))
    && KindCustom in c.customKinds
  }

  predicate NoneDone(tools: map<ToolKey, Protocol.Tool>) {
    forall k :: k in tools ==> !tools[k].done
  }

  predicate ItemIs(item: Item, tool: Protocol.Tool) {
    && item.tool == SessionSpec.Tool(tool.kind, tool.callId, tool.name)
    && item.payload == tool.arguments && item.progress.itemDone == tool.done
    && (tool.done ==> item.progress.status == StatusCompleted)
  }

  ghost predicate ToolsLinked(t: Table, tools: map<ToolKey, Protocol.Tool>)
    requires TableOk(t)
  {
    && (forall k :: k in tools ==> ToolItem(k) in t.byKey && ItemIs(t.items[t.byKey[ToolItem(k)]], tools[k]))
    && (forall k :: ToolItem(k) in t.byKey ==> k in tools)
  }

  predicate TextsOpen(t: Table) {
    forall i :: 0 <= i < |t.items| && t.items[i].key.TextItem? ==>
      !t.items[i].progress.itemDone && !t.items[i].progress.contentDone
  }

  /** Every choice that has spoken has its message item, and the item holds what it said. */
  ghost predicate TextsLinked(t: Table, texts: map<int, string>)
    requires TableOk(t)
  {
    && (forall n :: n in texts ==> TextItem(n) in t.byKey && t.items[t.byKey[TextItem(n)]].payload == texts[n])
    && (forall n :: TextItem(n) in t.byKey ==> n in texts)
  }

  predicate LedgerLinked(l: Ledger, m: Monitor) {
    && l.text == m.totals.text && l.output == m.totals.output && l.reasoning == m.totals.reasoning
    && (NoneDone(m.tools) ==> l.aggregate <= m.totals.cost)
  }

  /** The open session holds exactly what the monitor has seen. */
  ghost predicate Linked(m: Monitor, s: State)
    requires TableOk(s.table)
  {
    && Open(s) && !s.flags.invalid && !m.ended
    && LedgerLinked(s.ledger, m)
    && ToolsLinked(s.table, m.tools) && TextsLinked(s.table, m.texts) && TextsOpen(s.table)
  }

  /** What a completed response is made of. */
  ghost predicate Delivered(m: Monitor, t: Table) {
    && TableOk(t) && ToolsLinked(t, m.tools) && TextsLinked(t, m.texts)
    && forall i :: 0 <= i < |t.items| ==>
         t.items[i].progress.itemDone && t.items[i].progress.status == StatusCompleted
  }

  function EndingOf(c: Config, e: Event): Ending
    requires IsTerminal(e)
  {
    match e
    case Completed => EndCompleted
    case Incomplete(maxTokens) => EndIncomplete(maxTokens)
    case Failed(code) => EndFailed(SafeCode(c, code))
  }

  /** The terminal frame for e is the last one, and repeats the items as they are. */
  predicate EndedBy(c: Config, e: Event, s: State)
    requires IsTerminal(e)
  {
    && s.flags.terminal && !s.flags.failed && |s.wire.frames| > 0
    && s.wire.frames[|s.wire.frames| - 1].body == TerminalFrame(EndingOf(c, e), ResponseOf(s))
  }

  /** What may come back from a session that follows a legal stream. */
  ghost predicate Follows(c: Config, m: Monitor, e: Event, o: Out) {
    && !o.st.flags.invalid
    && match o.err
       case NoError =>
         if IsTerminal(e) then EndedBy(c, e, o.st) && TableOk(o.st.table) && (e.Completed? ==> Delivered(m, o.st.table))
         else TableOk(o.st.table) && Linked(Track(m, e), o.st)
       case WriteError => o.st.flags.failed
       case LimitError => o.st.flags.terminal && (!NoneDone(m.tools) || e.ToolCallCompleted?)
       case _ => false
  }

  // ----- closing all items never meets an invalid transition -----

  /** Nothing has become of the flags, unless a write has failed. */
  predicate FlagsKept(s: State, o: Out) {
    if o.err == NoError then o.st.flags == s.flags else o.err == WriteError && o.st.flags == s.flags.(failed := true)
  }

  lemma FinishOneFlags(c: Config, s: State, i: nat, status: Status)
    requires i < |s.table.items| && !s.flags.failed
    ensures FlagsKept(s, FinishOne(c, s, i, status))
  {
  }

  lemma FinishOneOthers(c: Config, s: State, i: nat, status: Status, j: nat)
    requires i < |s.table.items| && j < |s.table.items| && j != i
    ensures FinishOne(c, s, i, status).st.table.items[j] == s.table.items[j]
  {
  }

  predicate IdentityFrom(items: seq<Item>, i: nat) {
    forall j :: i <= j < |items| ==> items[j].progress.itemDone || !LacksIdentity(items[j])
  }

  lemma OneKeepsIdentity(c: Config, s: State, i: nat, status: Status)
    requires i < |s.table.items| && IdentityFrom(s.table.items, i)
    ensures IdentityFrom(FinishOne(c, s, i, status).st.table.items, i + 1)
  {
    forall j | i + 1 <= j < |s.table.items|
      ensures FinishOne(c, s, i, status).st.table.items[j] == s.table.items[j]
    {
      FinishOneOthers(c, s, i, status, j);
    }
  }

  lemma {:induction false} FinishItemsFlags(c: Config, s: State, status: Status, needIdentity: bool, i: nat)
    requires i <= |s.table.items| && !s.flags.failed
    requires needIdentity ==> IdentityFrom(s.table.items, i)
    ensures FlagsKept(s, FinishItems(c, s, status, needIdentity, i))
    decreases |s.table.items| - i, 1
  {
    if i < |s.table.items| {
      if s.table.items[i].progress.itemDone {
        FinishItemsFlags(c, s, status, needIdentity, i + 1);
      } else {
        FinishItemsStep(c, s, status, needIdentity, i);
        FinishOneFlags(c, s, i, status);
        if needIdentity {
          OneKeepsIdentity(c, s, i, status);
        }
        RestFlags(c, s, status, needIdentity, i, FinishOne(c, s, i, status));
      }
    }
  }

  lemma {:induction false} RestFlags(c: Config, s: State, status: Status, needIdentity: bool, i: nat, o: Out)
    requires i < |s.table.items| && |o.st.table.items| == |s.table.items| && !s.flags.failed && FlagsKept(s, o)
    requires needIdentity ==> IdentityFrom(o.st.table.items, i + 1)
    ensures FlagsKept(s, if o.err != NoError then o else FinishItems(c, o.st, status, needIdentity, i + 1))
    decreases |s.table.items| - i, 0
  {
    if o.err == NoError {
      FinishItemsFlags(c, o.st, status, needIdentity, i + 1);
    }
  }

  predicate ClosesText(item: Item) {
    item.key.TextItem? && item.progress.contentDone ==> item.progress.itemDone
  }

  lemma FinishOneCloses(c: Config, s: State, i: nat, status: Status)
    requires i < |s.table.items| && !s.table.items[i].progress.itemDone && ClosesText(s.table.items[i])
    requires FinishOne(c, s, i, status).err == NoError
    ensures FinishOne(c, s, i, status).st.table ==
      s.table.(items := s.table.items[i := ClosedItem(s.table.items[i], status)])
  {
  }

  function Settled(item: Item, status: Status): Item {
    if item.progress.itemDone then item else ClosedItem(item, status)
  }

  /** Closing the items from i on settles each of them and touches no other. */
  predicate SettledAt(before: seq<Item>, after: seq<Item>, status: Status, i: nat, j: nat)
    requires |before| == |after| && j < |before|
  {
    after[j] == if j < i then before[j] else Settled(before[j], status)
  }

  predicate AllCloseText(items: seq<Item>, i: nat) {
    forall k :: i <= k < |items| ==> ClosesText(items[k])
  }

  lemma {:induction false} FinishItemsSettles(c: Config, s: State, status: Status, needIdentity: bool, i: nat, j: nat)
    requires i <= |s.table.items| && j < |s.table.items| && AllCloseText(s.table.items, i)
    requires FinishItems(c, s, status, needIdentity, i).err == NoError
    ensures SettledAt(s.table.items, FinishItems(c, s, status, needIdentity, i).st.table.items, status, i, j)
    decreases |s.table.items| - i, 1
  {
    if i < |s.table.items| {
      if s.table.items[i].progress.itemDone {
        FinishItemsSettles(c, s, status, needIdentity, i + 1, j);
      } else {
        FinishItemsStep(c, s, status, needIdentity, i);
        FinishOneCloses(c, s, i, status);
        RestSettles(c, s, status, needIdentity, i, j, FinishOne(c, s, i, status).st,
          FinishItems(c, s, status, needIdentity, i));
      }
    }
  }

  lemma {:induction false} RestSettles(c: Config, s: State, status: Status, needIdentity: bool, i: nat, j: nat,
                                       s1: State, o: Out)
    requires i < |s.table.items| && j < |s.table.items| && AllCloseText(s.table.items, i)
    requires !s.table.items[i].progress.itemDone && |s1.table.items| == |s.table.items| == |o.st.table.items|
    requires s1.table.items == s.table.items[i := ClosedItem(s.table.items[i], status)]
    requires o == FinishItems(c, s1, status, needIdentity, i + 1) && o.err == NoError
    ensures SettledAt(s.table.items, o.st.table.items, status, i, j)
    decreases |s.table.items| - i, 0
  {
    FinishItemsSettles(c, s1, status, needIdentity, i + 1, j);
  }

  lemma SettledDelivers(m: Monitor, a: Table, b: Table)
    requires TableOk(a) && TableOk(b) && SameItemKeys(a, b)
    requires ToolsLinked(a, m.tools) && TextsLinked(a, m.texts) && TextsOpen(a)
    requires forall k :: k in m.tools ==> m.tools[k].done
    requires forall j :: 0 <= j < |a.items| ==> b.items[j] == Settled(a.items[j], StatusCompleted)
    ensures Delivered(m, b)
  {
    forall j | 0 <= j < |b.items|
      ensures b.items[j].progress.itemDone && b.items[j].progress.status == StatusCompleted
    {
      if a.items[j].key.ToolItem? {
        var k := a.items[j].key.key;
        assert a.items[j].key == ToolItem(k) && ToolItem(k) in a.byKey && a.byKey[ToolItem(k)] == j;
        assert ItemIs(a.items[j], m.tools[k]);
      }
    }
    forall k | k in m.tools
      ensures ToolItem(k) in b.byKey && ItemIs(b.items[b.byKey[ToolItem(k)]], m.tools[k])
    {
      assert ItemIs(a.items[a.byKey[ToolItem(k)]], m.tools[k]);
    }
  }

  lemma FinishItemsDelivers(c: Config, m: Monitor, s: State)
    requires TableOk(s.table) && Linked(m, s) && forall k :: k in m.tools ==> m.tools[k].done
    requires FinishItems(c, s, StatusCompleted, true, 0).err == NoError
    ensures Delivered(m, FinishItems(c, s, StatusCompleted, true, 0).st.table)
  {
    var t := FinishItems(c, s, StatusCompleted, true, 0).st.table;
    FinishItemsKeys(c, s, StatusCompleted, true, 0);
    KeysKeepTable(s.table, t);
    forall j | 0 <= j < |s.table.items|
      ensures t.items[j] == Settled(s.table.items[j], StatusCompleted)
    {
      FinishItemsSettles(c, s, StatusCompleted, true, 0, j);
    }
    SettledDelivers(m, s.table, t);
  }

  lemma FinishItemsTable(c: Config, s: State, status: Status, needIdentity: bool)
    requires TableOk(s.table)
    ensures TableOk(FinishItems(c, s, status, needIdentity, 0).st.table)
  {
    FinishItemsKeys(c, s, status, needIdentity, 0);
    KeysKeepTable(s.table, FinishItems(c, s, status, needIdentity, 0).st.table);
  }

  lemma TerminalFollows(c: Config, m: Monitor, s: State, e: Event, status: Status, needIdentity: bool)
    requires TableOk(s.table) && Linked(m, s) && IsTerminal(e) && Legal(c.utf8, m, e)
    requires needIdentity ==> IdentityFrom(s.table.items, 0)
    requires e.Completed? ==> status == StatusCompleted && needIdentity
    ensures Follows(c, m, e, HandleTerminal(c, s, status, needIdentity, EndingOf(c, e)))
  {
    FinishItemsFlags(c, s, status, needIdentity, 0);
    FinishItemsTable(c, s, status, needIdentity);
    if e.Completed? && FinishItems(c, s, status, needIdentity, 0).err == NoError {
      FinishItemsDelivers(c, m, s);
    }
  }

  lemma AllDoneIdentity(m: Monitor, s: State)
    requires TableOk(s.table) && Linked(m, s) && forall k :: k in m.tools ==> m.tools[k].done
    ensures IdentityFrom(s.table.items, 0)
  {
    forall j | 0 <= j < |s.table.items|
      ensures s.table.items[j].progress.itemDone || !LacksIdentity(s.table.items[j])
    {
      var item := s.table.items[j];
      if item.key.ToolItem? {
        assert item.key in s.table.byKey &&
          ItemIs(s.table.items[s.table.byKey[ToolItem(item.key.key)]], m.tools[item.key.key]);
      }
    }
  }

  lemma LimitFlags(c: Config, s: State)
    requires Open(s)
    ensures var o := Limit(c, s);
      && o.st.flags.invalid == s.flags.invalid
      && (o.err == LimitError || (o.err == WriteError && o.st.flags.failed))
      && (o.err == LimitError ==> o.st.flags.terminal)
  {
    FinishItemsFlags(c, s, StatusIncomplete, false, 0);
  }

  // ----- shapes: what each step does when no limit stops it -----

  /** A write sequence that may only fail by a write failure. */
  predicate Wrote(s: State, o: Out, table: Table, ledger: Ledger) {
    if o.err == NoError then o.st.flags == s.flags && o.st.table == table && o.st.ledger == ledger
    else o.err == WriteError && o.st.flags == s.flags.(failed := true)
  }

  lemma AppendTextShape(c: Config, s: State, i: nat, text: string)
    requires !s.flags.failed && i < |s.table.items| && !s.table.items[i].progress.itemDone && text != ""
    requires |text| <= c.maxText - s.ledger.text && |text| <= c.maxOutput - s.ledger.output && CanSpend(c, s, |text|)
    ensures var item, l := s.table.items[i], s.ledger;
      Wrote(s, AppendText(c, s, i, text),
            s.table.(items := s.table.items[i := item.(payload := item.payload + text)]),
            Ledger(l.aggregate + |text|, l.text + |text|, l.output + |text|, l.reasoning))
  {
  }

  lemma AppendArgumentsShape(c: Config, s: State, i: nat, text: string)
    requires !s.flags.failed && i < |s.table.items|
    requires |text| <= c.maxOutput - s.ledger.output && |text| <= c.maxToolArguments - |s.table.items[i].payload| &&
      CanSpend(c, s, |text|)
    ensures var item, l := s.table.items[i], s.ledger;
      Wrote(s, AppendArguments(c, s, i, text),
            s.table.(items := s.table.items[i := item.(payload := item.payload + text)]),
            Ledger(l.aggregate + |text|, l.text, l.output + |text|, l.reasoning))
  {
  }

  function NewTable(t: Table, item: Item): Table {
    Table(t.items + [item], t.byKey[item.key := |t.items|], t.nextIndex + 1)
  }

  function FreshItem(c: Config, s: State, key: ItemKey, prefix: IdPrefix, tool: SessionSpec.Tool): Item {
    Item(key, c.newId(prefix, s.table.nextIndex), s.table.nextIndex, tool, "", Progress(InProgress, false, false))
  }

  lemma NewItemShape(c: Config, s: State, key: ItemKey, prefix: IdPrefix, tool: SessionSpec.Tool)
    requires var id := c.newId(prefix, s.table.nextIndex);
      ValidStreamValue(c.utf8, id, MAX_ITEM_ID) && CanSpend(c, s, |id| + STATE_OVERHEAD)
    ensures var item, o := FreshItem(c, s, key, prefix, tool), NewItem(c, s, key, prefix, tool);
      && o.err == NoError && o.st.flags == s.flags && o.st.table == NewTable(s.table, item)
      && o.st.ledger == Spend(s, |item.id| + STATE_OVERHEAD).ledger
  {
  }

  lemma NewTextItemShape(c: Config, s: State, choice: int)
    requires !s.flags.failed
    requires var id := c.newId(MessageId, s.table.nextIndex);
      ValidStreamValue(c.utf8, id, MAX_ITEM_ID) && CanSpend(c, s, |id| + STATE_OVERHEAD)
    ensures var item := FreshItem(c, s, TextItem(choice), MessageId, SessionSpec.Tool(KindFunction, "", ""));
      Wrote(s, NewTextItem(c, s, choice), NewTable(s.table, item), Spend(s, |item.id| + STATE_OVERHEAD).ledger)
  {
    NewItemShape(c, s, TextItem(choice), MessageId, SessionSpec.Tool(KindFunction, "", ""));
  }

  lemma OpenToolShape(c: Config, s: State, key: ToolKey, kind: ToolKind, callId: string, name: string)
    requires !s.flags.failed && callId != "" && ValidStreamValue(c.utf8, callId, MAX_CALL_ID)
    requires var id := c.newId(PrefixOf(kind), s.table.nextIndex);
      && ValidStreamValue(c.utf8, id, MAX_ITEM_ID) && CanSpend(c, s, |id| + STATE_OVERHEAD)
      && CanSpend(c, Spend(s, |id| + STATE_OVERHEAD), |callId| + |name|)
    ensures var item := FreshItem(c, s, ToolItem(key), PrefixOf(kind), SessionSpec.Tool(kind, callId, name));
      Wrote(s, OpenTool(c, s, key, kind, callId, name), NewTable(s.table, item),
            Spend(s, |item.id| + STATE_OVERHEAD + |callId| + |name|).ledger)
  {
    var bare := FreshItem(c, s, ToolItem(key), PrefixOf(kind), SessionSpec.Tool(kind, "", ""));
    var item := FreshItem(c, s, ToolItem(key), PrefixOf(kind), SessionSpec.Tool(kind, callId, name));
    NewItemShape(c, s, ToolItem(key), PrefixOf(kind), bare.tool);
    var s1 := NewItem(c, s, ToolItem(key), PrefixOf(kind), bare.tool).st;
    var n := |s.table.items|;
    assert "" + name == name;
    assert (s.table.items + [bare])[n := item] == s.table.items + [item];
    AnnounceToolShape(c, s1, n, callId, name);
  }

  lemma AnnounceToolShape(c: Config, s: State, i: nat, callId: string, name: string)
    requires !s.flags.failed && i < |s.table.items| && callId != "" && ValidStreamValue(c.utf8, callId, MAX_CALL_ID)
    requires CanSpend(c, s, |callId| + |name|)
    ensures var item := s.table.items[i];
      Wrote(s, AnnounceTool(c, s, i, callId, name),
            s.table.(items := s.table.items[i := item.(tool := item.tool.(callId := callId,
              name := item.tool.name + name))]),
            Spend(s, |callId| + |name|).ledger)
  {
  }

  lemma CloseToolShape(c: Config, s: State, i: nat, callId: string, name: string, arguments: string)
    requires !s.flags.failed && i < |s.table.items| && !s.table.items[i].progress.itemDone
    requires var item := s.table.items[i];
      && item.key.ToolItem? && callId != "" && name != ""
      && item.tool.callId == callId && item.tool.name == name && item.payload == arguments
    ensures var item := s.table.items[i];
      Wrote(s, CloseTool(c, s, i, callId, name, arguments),
            s.table.(items := s.table.items[i := ClosedItem(item, StatusCompleted)]), s.ledger)
  {
    var item := s.table.items[i];
    assert RewrittenItem(item, name, arguments) == item;
    assert s.table.items[i := item] == s.table.items;
  }

  // ----- the links survive the table updates -----

  lemma ReplaceTextLinked(t: Table, tools: map<ToolKey, Protocol.Tool>, i: nat, item: Item)
    requires TableOk(t) && ToolsLinked(t, tools) && TextsOpen(t) && i < |t.items|
    requires item.key == t.items[i].key && item.index == t.items[i].index && item.key.TextItem?
    requires !item.progress.itemDone && !item.progress.contentDone
    ensures var t1 := t.(items := t.items[i := item]); TableOk(t1) && ToolsLinked(t1, tools) && TextsOpen(t1)
  {
    SetItemTable(t, i, item);
  }

  lemma NewTextLinked(t: Table, tools: map<ToolKey, Protocol.Tool>, item: Item)
    requires TableOk(t) && ToolsLinked(t, tools) && TextsOpen(t)
    requires item.key.TextItem? && item.key !in t.byKey && item.index == |t.items|
    requires !item.progress.itemDone && !item.progress.contentDone
    ensures var t1 := NewTable(t, item); TableOk(t1) && ToolsLinked(t1, tools) && TextsOpen(t1)
  {
    RegisterTable(t, item);
    var t1 := NewTable(t, item);
    forall k | k in tools
      ensures ToolItem(k) in t1.byKey && ItemIs(t1.items[t1.byKey[ToolItem(k)]], tools[k])
    {
      assert t1.byKey[ToolItem(k)] == t.byKey[ToolItem(k)];
    }
  }

  // The texts follow their items, and a tool item is no one's text.

  lemma TextReplaced(t: Table, texts: map<int, string>, i: nat, item: Item, choice: int)
    requires TableOk(t) && TextsLinked(t, texts) && i < |t.items|
    requires item.key == TextItem(choice) == t.items[i].key && item.index == t.items[i].index
    ensures var t1 := t.(items := t.items[i := item]); TableOk(t1) && TextsLinked(t1, texts[choice := item.payload])
  {
    SetItemTable(t, i, item);
    forall n | n in texts && n != choice
      ensures t.byKey[TextItem(n)] != i
    {
      assert t.items[t.byKey[TextItem(n)]].key == TextItem(n);
    }
  }

  lemma TextRegistered(t: Table, texts: map<int, string>, item: Item, choice: int)
    requires TableOk(t) && TextsLinked(t, texts)
    requires item.key == TextItem(choice) && item.key !in t.byKey && item.index == |t.items|
    ensures TableOk(NewTable(t, item)) && TextsLinked(NewTable(t, item), texts[choice := item.payload])
  {
    RegisterTable(t, item);
  }

  lemma ToolReplaced(t: Table, texts: map<int, string>, i: nat, item: Item)
    requires TableOk(t) && TextsLinked(t, texts) && i < |t.items|
    requires item.key == t.items[i].key && item.index == t.items[i].index && item.key.ToolItem?
    ensures var t1 := t.(items := t.items[i := item]); TableOk(t1) && TextsLinked(t1, texts)
  {
    SetItemTable(t, i, item);
    forall n | n in texts
      ensures t.byKey[TextItem(n)] != i
    {
      assert t.items[t.byKey[TextItem(n)]].key == TextItem(n);
    }
  }

  lemma ToolRegistered(t: Table, texts: map<int, string>, item: Item)
    requires TableOk(t) && TextsLinked(t, texts)
    requires item.key.ToolItem? && item.key !in t.byKey && item.index == |t.items|
    ensures TableOk(NewTable(t, item)) && TextsLinked(NewTable(t, item), texts)
  {
    RegisterTable(t, item);
  }

  lemma NewToolLinked(t: Table, tools: map<ToolKey, Protocol.Tool>, item: Item, tool: Protocol.Tool)
    requires TableOk(t) && ToolsLinked(t, tools) && TextsOpen(t)
    requires item.key.ToolItem? && item.key !in t.byKey && item.index == |t.items| && ItemIs(item, tool)
    ensures var t1 := NewTable(t, item); TableOk(t1) && ToolsLinked(t1, tools[item.key.key := tool]) && TextsOpen(t1)
  {
    RegisterTable(t, item);
    var t1 := NewTable(t, item);
    var tools1 := tools[item.key.key := tool];
    forall k | k in tools1
      ensures ToolItem(k) in t1.byKey && ItemIs(t1.items[t1.byKey[ToolItem(k)]], tools1[k])
    {
      if k != item.key.key {
        assert t1.byKey[ToolItem(k)] == t.byKey[ToolItem(k)];
      }
    }
  }

  lemma ReplaceToolLinked(t: Table, tools: map<ToolKey, Protocol.Tool>, i: nat, item: Item, tool: Protocol.Tool)
    requires TableOk(t) && ToolsLinked(t, tools) && TextsOpen(t) && i < |t.items|
    requires item.key == t.items[i].key && item.index == t.items[i].index && item.key.ToolItem? && ItemIs(item, tool)
    ensures var t1 := t.(items := t.items[i := item]);
      TableOk(t1) && ToolsLinked(t1, tools[item.key.key := tool]) && TextsOpen(t1)
  {
    SetItemTable(t, i, item);
    var t1 := t.(items := t.items[i := item]);
    var tools1 := tools[item.key.key := tool];
    forall k | k in tools1
      ensures ToolItem(k) in t1.byKey && ItemIs(t1.items[t1.byKey[ToolItem(k)]], tools1[k])
    {
      if k != item.key.key {
        assert t.byKey[ToolItem(k)] != i;
      }
    }
  }

  // ----- one legal event -----

  /** What the session needs to know about the stream after e. */
  ghost predicate Roomy(c: Config, m: Monitor, e: Event, maxArguments: int) {
    && Legal(c.utf8, m, e) && SessionFits(c, Track(m, e).totals, maxArguments)
    && ToolsWithin(Track(m, e).tools, maxArguments)
  }

  /** The session has taken the ids of all calls so far. */
  predicate IdsTaken(utf8: Utf8Test, tools: map<ToolKey, Protocol.Tool>) {
    forall k :: k in tools ==> ValidStreamValue(utf8, tools[k].callId, MAX_ID)
  }

  lemma {:induction false} WatchedIds(utf8: Utf8Test, events: seq<Event>)
    requires Watch(utf8, events).Some? && NoBadId(utf8, events)
    ensures IdsTaken(utf8, Watch(utf8, events).value.tools)
    decreases |events|
  {
    if events != [] {
      var n := |events| - 1;
      assert !BadId(utf8, events[n]);
      assert forall i :: 0 <= i < n ==> events[..n][i] == events[i];
      WatchedIds(utf8, events[..n]);
    }
  }

  lemma TextFollows(c: Config, m: Monitor, s: State, e: Event, maxArguments: int)
    requires TableOk(s.table) && Linked(m, s) && Roomy(c, m, e, maxArguments) && e.TextDelta?
    ensures Follows(c, m, e, HandleTextItem(c, s, e.choice, e.text))
  {
    var i := Lookup(s.table, TextItem(e.choice));
    if i.Some? {
      AppendTextShape(c, s, i.value, e.text);
      TextAppended(m, s.table, i.value, e.choice, e.text);
    } else {
      assert |c.newId(MessageId, s.table.nextIndex)| <= EVENT_COST - STATE_OVERHEAD;
      NewTextItemShape(c, s, e.choice);
      var item := FreshItem(c, s, TextItem(e.choice), MessageId, SessionSpec.Tool(KindFunction, "", ""));
      var o := NewTextItem(c, s, e.choice);
      if o.err == NoError {
        AppendTextShape(c, o.st, |s.table.items|, e.text);
        TextOpened(m, s.table, item, e.choice, e.text);
      }
    }
  }

  lemma TextAppended(m: Monitor, t: Table, i: nat, choice: int, text: string)
    requires TableOk(t) && ToolsLinked(t, m.tools) && TextsLinked(t, m.texts) && TextsOpen(t)
    requires i < |t.items| && t.items[i].key == TextItem(choice)
    ensures var t1 := t.(items := t.items[i := t.items[i].(payload := t.items[i].payload + text)]);
      TableOk(t1) && ToolsLinked(t1, m.tools) && TextsOpen(t1) &&
      TextsLinked(t1, m.texts[choice := TextAt(m.texts, choice) + text])
  {
    var item := t.items[i].(payload := t.items[i].payload + text);
    assert TextItem(choice) in t.byKey && t.byKey[TextItem(choice)] == i;
    ReplaceTextLinked(t, m.tools, i, item);
    TextReplaced(t, m.texts, i, item, choice);
  }

  lemma TextOpened(m: Monitor, t: Table, item: Item, choice: int, text: string)
    requires TableOk(t) && ToolsLinked(t, m.tools) && TextsLinked(t, m.texts) && TextsOpen(t)
    requires item.key == TextItem(choice) && item.key !in t.byKey && item.index == |t.items| && item.payload == ""
    requires !item.progress.itemDone && !item.progress.contentDone
    ensures var t1 := NewTable(t, item);
      var t2 := t1.(items := t1.items[|t.items| := item.(payload := "" + text)]);
      TableOk(t2) && ToolsLinked(t2, m.tools) && TextsOpen(t2) &&
      TextsLinked(t2, m.texts[choice := TextAt(m.texts, choice) + text])
  {
    var n, t1, m1 := |t.items|, NewTable(t, item), m.(texts := m.texts[choice := ""]);
    NewTextLinked(t, m.tools, item);
    TextRegistered(t, m.texts, item, choice);
    TextAppended(m1, t1, n, choice, text);
    assert m.texts[choice := ""][choice := "" + text] == m.texts[choice := "" + text];
  }

  lemma ReasoningFollows(c: Config, m: Monitor, s: State, e: Event, maxArguments: int)
    requires TableOk(s.table) && Linked(m, s) && Roomy(c, m, e, maxArguments) && e.ReasoningDelta?
    ensures Follows(c, m, e, HandleReasoning(c, s, e.choice, e.text))
  {
  }

  lemma ToolStartedFollows(c: Config, m: Monitor, s: State, e: Event, maxArguments: int)
    requires TableOk(s.table) && Linked(m, s) && Roomy(c, m, e, maxArguments) && e.ToolCallStarted? && !BadId(c.utf8, e)
    ensures Follows(c, m, e, OpenTool(c, s, e.key, e.kind, e.callId, e.name))
  {
    var id := c.newId(PrefixOf(e.kind), s.table.nextIndex);
    assert |id| <= EVENT_COST - STATE_OVERHEAD;
    OpenToolShape(c, s, e.key, e.kind, e.callId, e.name);
    var item := FreshItem(c, s, ToolItem(e.key), PrefixOf(e.kind), SessionSpec.Tool(e.kind, e.callId, e.name));
    NewToolLinked(s.table, m.tools, item, Protocol.Tool(e.kind, e.callId, e.name, "", false));
    ToolRegistered(s.table, m.texts, item);
  }

  lemma ArgumentsFollow(c: Config, m: Monitor, s: State, e: Event, maxArguments: int)
    requires TableOk(s.table) && Linked(m, s) && Roomy(c, m, e, maxArguments) && e.ToolCallArguments?
    ensures Follows(c, m, e, HandleArguments(c, s, e.key, e.arguments))
  {
    var i := s.table.byKey[ToolItem(e.key)];
    assert ItemIs(s.table.items[i], m.tools[e.key]);
    assert |Track(m, e).tools[e.key].arguments| <= maxArguments;
    if e.arguments == "" {
      NothingTracked(m, e);
      FollowsOn(c, m, e, HandleArguments(c, s, e.key, e.arguments), m);
    } else if CanSpend(c, s, |e.arguments|) {
      var item, l, n := s.table.items[i], s.ledger, |e.arguments|;
      AppendArgumentsShape(c, s, i, e.arguments);
      AppendedLedger(m, e, l, n);
      AppendedFollows(c, m, s, e, i, item.(payload := item.payload + e.arguments),
        Ledger(l.aggregate + n, l.text, l.output + n, l.reasoning), HandleArguments(c, s, e.key, e.arguments));
    } else {
      LimitFlags(c, s);
    }
  }

  lemma AppendedFollows(c: Config, m: Monitor, s: State, e: Event, i: nat, item: Item, ledger: Ledger, o: Out)
    requires TableOk(s.table) && Linked(m, s) && Legal(c.utf8, m, e) && e.ToolCallArguments?
    requires i == s.table.byKey[ToolItem(e.key)]
    requires item == s.table.items[i].(payload := s.table.items[i].payload + e.arguments)
    requires Wrote(s, o, s.table.(items := s.table.items[i := item]), ledger)
    requires LedgerLinked(ledger, Track(m, e))
    ensures Follows(c, m, e, o)
  {
    if o.err == NoError {
      var next := m.tools[e.key := m.tools[e.key].(arguments := m.tools[e.key].arguments + e.arguments)];
      ArgumentsAppended(m, s.table, i, e.key, e.arguments);
      AppendedOn(c, m, e, next, o);
    } else {
      FollowsFailed(c, m, e, o);
    }
  }

  lemma AppendedOn(c: Config, m: Monitor, e: Event, tools: map<ToolKey, Protocol.Tool>, o: Out)
    requires o.err == NoError && e.ToolCallArguments? && e.key in m.tools && !m.ended
    requires Open(o.st) && !o.st.flags.invalid
    requires tools == m.tools[e.key := m.tools[e.key].(arguments := m.tools[e.key].arguments + e.arguments)]
    requires TableOk(o.st.table) && TextsOpen(o.st.table) && TextsLinked(o.st.table, m.texts)
    requires ToolsLinked(o.st.table, tools) && LedgerLinked(o.st.ledger, Track(m, e))
    ensures Follows(c, m, e, o)
  {
    AppendedLinked(m, e, tools, o.st);
    FollowsOn(c, m, e, o, Track(m, e));
  }

  lemma AppendedLinked(m: Monitor, e: Event, tools: map<ToolKey, Protocol.Tool>, s: State)
    requires e.ToolCallArguments? && e.key in m.tools && !m.ended && Open(s) && !s.flags.invalid
    requires tools == m.tools[e.key := m.tools[e.key].(arguments := m.tools[e.key].arguments + e.arguments)]
    requires TableOk(s.table) && TextsOpen(s.table) && TextsLinked(s.table, m.texts) && ToolsLinked(s.table, tools)
    requires LedgerLinked(s.ledger, Track(m, e))
    ensures Linked(Track(m, e), s)
  {
  }

  lemma AppendedLedger(m: Monitor, e: Event, l: Ledger, n: nat)
    requires e.ToolCallArguments? && e.key in m.tools && n == |e.arguments| && LedgerLinked(l, m)
    ensures LedgerLinked(Ledger(l.aggregate + n, l.text, l.output + n, l.reasoning), Track(m, e))
  {
    var tools := Track(m, e).tools;
    assert forall k :: k in m.tools ==> k in tools && tools[k].done == m.tools[k].done;
  }

  lemma NothingTracked(m: Monitor, e: Event)
    requires e.ToolCallArguments? && e.arguments == "" && e.key in m.tools
    ensures Track(m, e) == m
  {
    assert m.tools[e.key].arguments + "" == m.tools[e.key].arguments;
    assert m.tools[e.key := m.tools[e.key]] == m.tools;
  }

  lemma ArgumentsAppended(m: Monitor, t: Table, i: nat, key: ToolKey, text: string)
    requires TableOk(t) && ToolsLinked(t, m.tools) && TextsLinked(t, m.texts) && TextsOpen(t)
    requires key in m.tools && !m.tools[key].done && ToolItem(key) in t.byKey && i == t.byKey[ToolItem(key)]
    ensures var t1 := t.(items := t.items[i := t.items[i].(payload := t.items[i].payload + text)]);
      TableOk(t1) && TextsOpen(t1) && TextsLinked(t1, m.texts) &&
      ToolsLinked(t1, m.tools[key := m.tools[key].(arguments := m.tools[key].arguments + text)])
  {
    var item, tool := t.items[i].(payload := t.items[i].payload + text), m.tools[key];
    assert ItemIs(t.items[i], tool);
    ReplaceToolLinked(t, m.tools, i, item, tool.(arguments := tool.arguments + text));
    ToolReplaced(t, m.texts, i, item);
  }

  lemma CompletionFollows(c: Config, m: Monitor, s: State, e: Event, maxArguments: int)
    requires TableOk(s.table) && Linked(m, s) && Roomy(c, m, e, maxArguments) && e.ToolCallCompleted?
    requires IdsTaken(c.utf8, m.tools)
    ensures Follows(c, m, e, Completion(c, s, e))
  {
    var i, tool := s.table.byKey[ToolItem(e.key)], m.tools[e.key];
    var item := s.table.items[i];
    assert ItemIs(item, tool);
    assert |Track(m, e).tools[e.key].arguments| <= maxArguments;
    CompletionWellFormed(c, m, s, e, maxArguments, i);
    if LargeCompletion(c, s, i, e.callId, e.name, e.arguments) {
      LimitFlags(c, s);
      assert Completion(c, s, e) == Limit(c, s);
    } else {
      AcceptedCompletionFollows(c, m, s, e, i);
    }
  }

  lemma AcceptedCompletionFollows(c: Config, m: Monitor, s: State, e: Event, i: nat)
    requires TableOk(s.table) && Linked(m, s) && Legal(c.utf8, m, e) && e.ToolCallCompleted?
    requires ActiveTool(s, e.key) == Some(i) && i == s.table.byKey[ToolItem(e.key)]
    requires !BadCompletion(c, s, i, e.kind, e.callId, e.name, e.arguments)
    requires !LargeCompletion(c, s, i, e.callId, e.name, e.arguments)
    requires e.callId != "" && e.name != ""
    ensures Follows(c, m, e, Completion(c, s, e))
  {
    assert ItemIs(s.table.items[i], m.tools[e.key]);
    CompletionShape(c, s, e, i);
    CompletedToolFollows(c, m, s, e, i, |e.callId| + |e.name| + |e.arguments|, Completion(c, s, e));
  }

  lemma CompletionShape(c: Config, s: State, e: Event, i: nat)
    requires Open(s) && e.ToolCallCompleted? && ActiveTool(s, e.key) == Some(i) && e.callId != "" && e.name != ""
    requires !BadCompletion(c, s, i, e.kind, e.callId, e.name, e.arguments)
    requires !LargeCompletion(c, s, i, e.callId, e.name, e.arguments)
    requires var item := s.table.items[i];
      item.key.ToolItem? && item.tool.callId == e.callId && item.tool.name == e.name && item.payload == e.arguments
    ensures Wrote(s, Completion(c, s, e),
      s.table.(items := s.table.items[i := ClosedItem(s.table.items[i], StatusCompleted)]),
                  Spend(s, |e.callId| + |e.name| + |e.arguments|).ledger)
  {
    CloseToolShape(c, Spend(s, |e.callId| + |e.name| + |e.arguments|), i, e.callId, e.name, e.arguments);
  }

  lemma CompletedToolFollows(c: Config, m: Monitor, s: State, e: Event, i: nat, bytes: int, o: Out)
    requires TableOk(s.table) && Linked(m, s) && e.ToolCallCompleted? && e.key in m.tools
    requires i < |s.table.items| && s.table.items[i].key == ToolItem(e.key) && ItemIs(s.table.items[i], m.tools[e.key])
    requires Wrote(s, o, s.table.(items := s.table.items[i := ClosedItem(s.table.items[i], StatusCompleted)]),
                   Spend(s, bytes).ledger)
    ensures Follows(c, m, e, o)
  {
    if o.err == NoError {
      CompletedToolLinked(m, s, e.key, i, bytes, o.st);
      CompletedOn(c, m, e, m.tools[e.key].(done := true), o);
    } else {
      FollowsFailed(c, m, e, o);
    }
  }

  lemma CompletedOn(c: Config, m: Monitor, e: Event, tool: Protocol.Tool, o: Out)
    requires o.err == NoError && TableOk(o.st.table)
    requires e.ToolCallCompleted? && e.key in m.tools && tool == m.tools[e.key].(done := true)
    requires Linked(m.(tools := m.tools[e.key := tool]), o.st)
    ensures Follows(c, m, e, o)
  {
    TrackCompleted(m, e);
    FollowsOn(c, m, e, o, m.(tools := m.tools[e.key := tool]));
  }

  lemma FollowsOn(c: Config, m: Monitor, e: Event, o: Out, next: Monitor)
    requires o.err == NoError && !IsTerminal(e) && TableOk(o.st.table)
    requires next == Track(m, e) && Linked(next, o.st)
    ensures Follows(c, m, e, o)
  {
  }

  lemma FollowsFailed(c: Config, m: Monitor, e: Event, o: Out)
    requires o.err == WriteError && o.st.flags.failed && !o.st.flags.invalid
    ensures Follows(c, m, e, o)
  {
  }

  lemma TrackCompleted(m: Monitor, e: Event)
    requires e.ToolCallCompleted? && e.key in m.tools
    ensures Track(m, e) == m.(tools := m.tools[e.key := m.tools[e.key].(done := true)])
  {
  }

  lemma CompletedToolLinked(m: Monitor, s: State, key: ToolKey, i: nat, bytes: int, s1: State)
    requires TableOk(s.table) && Linked(m, s) && key in m.tools
    requires i < |s.table.items| && s.table.items[i].key == ToolItem(key) && ItemIs(s.table.items[i], m.tools[key])
    requires s1.flags == s.flags &&
      s1.table == s.table.(items := s.table.items[i := ClosedItem(s.table.items[i], StatusCompleted)])
    requires s1.ledger == Spend(s, bytes).ledger
    ensures TableOk(s1.table) && Linked(m.(tools := m.tools[key := m.tools[key].(done := true)]), s1)
  {
    var tool := m.tools[key].(done := true);
    ReplaceToolLinked(s.table, m.tools, i, ClosedItem(s.table.items[i], StatusCompleted), tool);
    ToolReplaced(s.table, m.texts, i, ClosedItem(s.table.items[i], StatusCompleted));
    assert !NoneDone(m.tools[key := tool]) by {
      assert m.tools[key := tool][key].done;
    }
  }

  lemma CompletionWellFormed(c: Config, m: Monitor, s: State, e: Event, maxArguments: int, i: nat)
    requires TableOk(s.table) && Linked(m, s) && Roomy(c, m, e, maxArguments) && e.ToolCallCompleted?
    requires IdsTaken(c.utf8, m.tools)
    requires i == s.table.byKey[ToolItem(e.key)]
    ensures ActiveTool(s, e.key) == Some(i)
    ensures !BadCompletion(c, s, i, e.kind, e.callId, e.name, e.arguments)
    ensures e.callId != "" && e.name != ""
  {
    assert ItemIs(s.table.items[i], m.tools[e.key]);
  }

  lemma DispatchFollows(c: Config, m: Monitor, s: State, e: Event, maxArguments: int)
    requires TableOk(s.table) && Linked(m, s) && Roomy(c, m, e, maxArguments)
    requires IdsTaken(c.utf8, m.tools) && !BadId(c.utf8, e)
    ensures Follows(c, m, e, Dispatch(c, s, e))
  {
    match e
    case ResponseStarted(_, _) =>
    case TextDelta(_, _) => TextFollows(c, m, s, e, maxArguments);
    case ReasoningDelta(_, _) => ReasoningFollows(c, m, s, e, maxArguments);
    case UsageUpdated(_) =>
    case ToolCallStarted(_, _, _, _) => ToolStartedDispatch(c, m, s, e, maxArguments);
    case ToolCallArguments(_, _) => ArgumentsFollow(c, m, s, e, maxArguments);
    case ToolCallCompleted(_, _, _, _, _) => CompletionFollows(c, m, s, e, maxArguments);
    case Completed =>
      AllDoneIdentity(m, s);
      TerminalFollows(c, m, s, e, StatusCompleted, true);
    case Incomplete(_) => TerminalFollows(c, m, s, e, StatusIncomplete, false);
    case Failed(_) => TerminalFollows(c, m, s, e, StatusIncomplete, false);
  }

  lemma ToolStartedDispatch(c: Config, m: Monitor, s: State, e: Event, maxArguments: int)
    requires TableOk(s.table) && Linked(m, s) && Roomy(c, m, e, maxArguments) && e.ToolCallStarted? && !BadId(c.utf8, e)
    ensures Follows(c, m, e, HandleToolStarted(c, s, e.key, e.kind, e.callId, e.name))
  {
    ToolStartedFollows(c, m, s, e, maxArguments);
    assert HandleToolStarted(c, s, e.key, e.kind, e.callId, e.name) == OpenTool(c, s, e.key, e.kind, e.callId, e.name);
  }

  /** A legal event neither closes an unannounced item nor changes streamed arguments. */
  lemma NoEscape(c: Config, m: Monitor, s: State, e: Event, maxArguments: int)
    requires TableOk(s.table) && Linked(m, s) && Roomy(c, m, e, maxArguments)
    ensures !Escapes(true, c, s, e)
  {
    if e.ToolCallStarted? {
      var id := c.newId(PrefixOf(e.kind), s.table.nextIndex);
      assert |id| <= EVENT_COST - STATE_OVERHEAD;
    } else if e.ToolCallCompleted? {
      assert ItemIs(s.table.items[s.table.byKey[ToolItem(e.key)]], m.tools[e.key]);
    }
  }
}
