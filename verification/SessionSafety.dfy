/** Every call on a session keeps its frames inside the wire grammar, with one
    exception that the source really has and that Unannounced describes. */
module SessionSafety {
  import opened Bridge
  import opened SessionSpec
  import opened WireGrammar

  // ----- the state an open session is in -----

  /** What the grammar has read of an item agrees with the item. */
  predicate SlotMatches(slot: Slot, item: Item) {
    && slot.id == item.id
    && (if item.progress.itemDone then
          slot.stage.Closed? && slot.stage.final == item.payload && item.progress.status != InProgress &&
          (item.key.TextItem? ==> item.progress.contentDone)
        else
          && !item.progress.contentDone && item.progress.status == InProgress
          && slot.stage == (if item.key.TextItem? then TextOpen(item.payload) else ToolOpen(item.payload)))
  }

  /** The first n items have been read; the frames are numbered and unbroken. */
  predicate Synced(strict: bool, w: Wire, items: seq<Item>, n: nat) {
    && w.seqNo == |w.frames| && Numbered(w.frames)
    && Read(strict, w.frames).Live? && |Read(strict, w.frames).slots| == n <= |items|
    && forall i :: 0 <= i < n ==> SlotMatches(Read(strict, w.frames).slots[i], items[i])
  }

  predicate WireOk(strict: bool, w: Wire) {
    w.seqNo == |w.frames| && Numbered(w.frames) && Read(strict, w.frames) != Broken
  }

  predicate Open(s: State) {
    s.flags.started && !s.flags.failed && !s.flags.terminal
  }

  predicate Good(strict: bool, s: State) {
    && TableOk(s.table) && WireOk(strict, s.wire)
    && (!s.flags.started ==> s.wire.frames == [] && s.table.items == [] && !s.flags.terminal && !s.flags.failed)
    && (Open(s) ==> Synced(strict, s.wire, s.table.items, |s.table.items|))
    && (s.flags.terminal && !s.flags.failed ==> Read(strict, s.wire.frames).Ended?)
  }

  /** How a step ends: either the stream is still open, or a write failed, or the
      terminal frame has been written; the frames stay inside the grammar. */
  predicate ClosedOk(strict: bool, s: State) {
    && WireOk(strict, s.wire) && s.flags.started
    && (s.flags.failed || (s.flags.terminal && Read(strict, s.wire.frames).Ended?))
  }

  // ----- one write -----

  lemma WriteAccepted(strict: bool, c: Config, s: State, body: Body)
    requires WireOk(strict, s.wire) && Accept(strict, Read(strict, s.wire.frames), body) != Broken
    ensures var o := Write(c, s, body);
      && WireOk(strict, o.st.wire)
      && (o.err == NoError ==>
        o.st.flags == s.flags && Read(strict, o.st.wire.frames) == Accept(strict, Read(strict, s.wire.frames), body))
      && (o.err != NoError ==> o.err == WriteError && o.st.flags == s.flags.(failed := true) && o.st.wire == s.wire)
  {
    ReadAppend(strict, s.wire.frames, Frame(s.wire.seqNo, body));
  }

  /** A frame that belongs to one slot moves that slot only. */
  lemma WriteAdvances(strict: bool, c: Config, s: State, body: Body, index: nat)
    requires WireOk(strict, s.wire) && Read(strict, s.wire.frames).Live? && index < |Read(strict, s.wire.frames).slots|
    requires !body.CreatedFrame? && !body.InProgressFrame? && !body.ItemAdded? && !body.TerminalFrame? &&
      body.index == index
    requires Advance(strict, Read(strict, s.wire.frames).slots[index], body).Some?
    ensures var o, slots := Write(c, s, body), Read(strict, s.wire.frames).slots;
      && WireOk(strict, o.st.wire)
      && (o.err == NoError ==> o.st.flags == s.flags)
      && (o.err == NoError ==>
           Read(strict, o.st.wire.frames) ==
             Live(slots[index := slots[index].(stage := Advance(strict, slots[index], body).value)]))
      && (o.err != NoError ==> o.err == WriteError && o.st.flags == s.flags.(failed := true) && o.st.wire == s.wire)
  {
    WriteAccepted(strict, c, s, body);
  }

  // ----- closing items -----

  function ClosedItem(item: Item, status: Status): Item {
    item.(progress := Progress(status, item.progress.contentDone || item.key.TextItem?, true))
  }

  /** The outcome of a write sequence that leaves the stream open unless a write failed. */
  predicate StillSynced(strict: bool, s: State, o: Out, items: seq<Item>, n: nat) {
    && (o.err == NoError ==> o.st.flags == s.flags && o.st.table.items == items && Synced(strict, o.st.wire, items, n))
    && (o.err != NoError ==> o.err == WriteError && o.st.flags == s.flags.(failed := true) && WireOk(strict, o.st.wire))
  }

  /** Once slot i has been read to its end, the closed item is in sync again. */
  lemma SyncedClosed(strict: bool, w0: Wire, w: Wire, items: seq<Item>, i: nat, item: Item, deltas: string, n: nat)
    requires Synced(strict, w0, items, n) && i < n && WireOk(strict, w)
    requires Read(strict, w.frames) ==
      Live(Read(strict, w0.frames).slots[i := Slot(item.id, Closed(deltas, item.payload))])
    requires item.progress.itemDone && item.progress.status != InProgress &&
      (item.key.TextItem? ==> item.progress.contentDone)
    ensures Synced(strict, w, items[i := item], n)
  {
  }

  lemma ReadTextDone(strict: bool, c: Config, s: State, i: nat, slots: seq<Slot>, id: string, text: string)
    requires WireOk(strict, s.wire) && Read(strict, s.wire.frames) == Live(slots) && i < |slots| &&
      slots[i] == Slot(id, TextOpen(text))
    ensures var o := Write(c, s, TextDoneFrame(i, id, text));
      && WireOk(strict, o.st.wire)
      && (o.err == NoError ==>
        o.st.flags == s.flags && Read(strict, o.st.wire.frames) == Live(slots[i := Slot(id, TextFinal(text))]))
      && (o.err != NoError ==> o.err == WriteError && o.st.flags == s.flags.(failed := true))
  {
    WriteAdvances(strict, c, s, TextDoneFrame(i, id, text), i);
  }

  lemma ReadPartDone(strict: bool, c: Config, s: State, i: nat, slots: seq<Slot>, id: string, text: string)
    requires WireOk(strict, s.wire) && i < |slots| &&
      Read(strict, s.wire.frames) == Live(slots[i := Slot(id, TextFinal(text))])
    ensures var o := Write(c, s, PartDone(i, id, text));
      && WireOk(strict, o.st.wire)
      && (o.err == NoError ==>
        o.st.flags == s.flags && Read(strict, o.st.wire.frames) == Live(slots[i := Slot(id, PartFinal(text))]))
      && (o.err != NoError ==> o.err == WriteError && o.st.flags == s.flags.(failed := true))
  {
    WriteAdvances(strict, c, s, PartDone(i, id, text), i);
  }

  lemma ReadItemDone(strict: bool, c: Config, s: State, i: nat, slots: seq<Slot>, id: string, stage: Stage,
                     item: Snapshot)
    requires WireOk(strict, s.wire) && i < |slots| && Read(strict, s.wire.frames) == Live(slots[i := Slot(id, stage)])
    requires item.id == id && item.status != InProgress && Finishes(stage, item)
    ensures var o := Write(c, s, ItemDone(i, item));
      && WireOk(strict, o.st.wire)
      && (o.err == NoError ==>
        o.st.flags == s.flags &&
          Read(strict, o.st.wire.frames) == Live(slots[i := Slot(id, Closed(stage.deltas, OutputText(item)))]))
      && (o.err != NoError ==> o.err == WriteError && o.st.flags == s.flags.(failed := true))
  {
    WriteAdvances(strict, c, s, ItemDone(i, item), i);
  }

  lemma ReadArgumentsDone(strict: bool, c: Config, s: State, i: nat, slots: seq<Slot>, id: string, deltas: string,
                          kind: ToolKind, name: string, final: string)
    requires WireOk(strict, s.wire) && Read(strict, s.wire.frames) == Live(slots) && i < |slots| &&
      slots[i] == Slot(id, ToolOpen(deltas))
    requires strict ==> final == deltas
    ensures var o := Write(c, s, ArgumentsDoneFrame(i, id, kind, name, final));
      && WireOk(strict, o.st.wire)
      && (o.err == NoError ==>
        o.st.flags == s.flags && Read(strict, o.st.wire.frames) == Live(slots[i := Slot(id, ToolFinal(deltas, final))]))
      && (o.err != NoError ==> o.err == WriteError && o.st.flags == s.flags.(failed := true))
  {
    WriteAdvances(strict, c, s, ArgumentsDoneFrame(i, id, kind, name, final), i);
  }

  lemma FinishTextSynced(strict: bool, c: Config, s: State, i: nat, status: Status, n: nat)
    requires Synced(strict, s.wire, s.table.items, n) && i < n && !s.flags.failed && status != InProgress
    requires s.table.items[i].key.TextItem? && !s.table.items[i].progress.itemDone && s.table.items[i].index == i
    ensures StillSynced(strict, s, FinishText(c, s, i, status),
      s.table.items[i := ClosedItem(s.table.items[i], status)], n)
  {
    var item, slots := s.table.items[i], Read(strict, s.wire.frames).slots;
    assert SlotMatches(slots[i], item);
    ReadTextDone(strict, c, s, i, slots, item.id, item.payload);
    var o := Write(c, s, TextDoneFrame(i, item.id, item.payload));
    if o.err == NoError {
      var s1 := SetItem(o.st, i, item.(progress := item.progress.(contentDone := true)));
      ReadPartDone(strict, c, s1, i, slots, item.id, item.payload);
      var o1 := Write(c, s1, PartDone(i, item.id, item.payload));
      if o1.err == NoError {
        var item2 := item.(progress := Progress(status, true, true));
        var s2 := SetItem(o1.st, i, item2);
        ReadItemDone(strict, c, s2, i, slots, item.id, PartFinal(item.payload), SnapshotOf(item2, status));
        var o2 := Write(c, s2, ItemDone(i, SnapshotOf(item2, status)));
        if o2.err == NoError {
          SyncedClosed(strict, s.wire, o2.st.wire, s.table.items, i, item2, item.payload, n);
        }
      }
    }
  }

  lemma FinishToolSynced(strict: bool, c: Config, s: State, i: nat, status: Status, n: nat)
    requires Synced(strict, s.wire, s.table.items, n) && i < n && !s.flags.failed && status != InProgress
    requires s.table.items[i].key.ToolItem? && !s.table.items[i].progress.itemDone && s.table.items[i].index == i
    ensures StillSynced(strict, s, FinishTool(c, s, i, status),
      s.table.items[i := ClosedItem(s.table.items[i], status)], n)
  {
    var item, slots := s.table.items[i], Read(strict, s.wire.frames).slots;
    assert SlotMatches(slots[i], item);
    FinishToolRead(strict, c, s, i, status, slots, item.payload);
    var o := FinishTool(c, s, i, status);
    if o.err == NoError {
      SyncedClosed(strict, s.wire, o.st.wire, s.table.items, i, ClosedItem(item, status), item.payload, n);
    }
  }

  /** Closing a tool item whose payload may differ from the deltas read so far. */
  lemma FinishToolRead(strict: bool, c: Config, s: State, i: nat, status: Status, slots: seq<Slot>, deltas: string)
    requires WireOk(strict, s.wire) && Read(strict, s.wire.frames) == Live(slots) && i < |slots| && i < |s.table.items|
    requires !s.flags.failed && status != InProgress
    requires s.table.items[i].key.ToolItem? && !s.table.items[i].progress.itemDone && s.table.items[i].index == i
    requires slots[i] == Slot(s.table.items[i].id, ToolOpen(deltas))
    requires strict ==> s.table.items[i].payload == deltas
    ensures var item, o := s.table.items[i], FinishTool(c, s, i, status);
      && WireOk(strict, o.st.wire)
      && (o.err == NoError ==>
        o.st.flags == s.flags && o.st.table.items == s.table.items[i := ClosedItem(item, status)])
      && (o.err == NoError ==>
        Read(strict, o.st.wire.frames) == Live(slots[i := Slot(item.id, Closed(deltas, item.payload))]))
      && (o.err != NoError ==> o.err == WriteError && o.st.flags == s.flags.(failed := true))
  {
    var item := s.table.items[i];
    ReadArgumentsDone(strict, c, s, i, slots, item.id, deltas, item.tool.kind, item.tool.name, item.payload);
    var o := Write(c, s, ArgumentsDoneFrame(i, item.id, item.tool.kind, item.tool.name, item.payload));
    if o.err == NoError {
      var item1 := item.(progress := Progress(status, item.progress.contentDone, true));
      ReadItemDone(strict, c, SetItem(o.st, i, item1), i, slots, item.id, ToolFinal(deltas, item.payload),
        SnapshotOf(item1, status));
    }
  }

  // ----- closing all items -----

  predicate SameItemKeys(a: Table, b: Table) {
    && |b.items| == |a.items| && b.byKey == a.byKey && b.nextIndex == a.nextIndex
    && forall i :: 0 <= i < |a.items| ==> b.items[i].key == a.items[i].key && b.items[i].index == a.items[i].index
  }

  lemma FinishOneKeys(c: Config, s: State, i: nat, status: Status)
    requires i < |s.table.items|
    ensures SameItemKeys(s.table, FinishOne(c, s, i, status).st.table)
  {
  }

  lemma {:induction false} FinishItemsKeys(c: Config, s: State, status: Status, needIdentity: bool, i: nat)
    requires i <= |s.table.items|
    ensures SameItemKeys(s.table, FinishItems(c, s, status, needIdentity, i).st.table)
    decreases |s.table.items| - i
  {
    if i < |s.table.items| {
      var item := s.table.items[i];
      if item.progress.itemDone {
        FinishItemsKeys(c, s, status, needIdentity, i + 1);
      } else if !(needIdentity && LacksIdentity(item)) {
        FinishOneKeys(c, s, i, status);
        FinishItemsKeys(c, FinishOne(c, s, i, status).st, status, needIdentity, i + 1);
      }
    }
  }

  predicate DoneUpTo(items: seq<Item>, n: nat) {
    n <= |items| && forall i :: 0 <= i < n ==> items[i].progress.itemDone
  }

  /** Every closed slot shows the final text of its item. */
  predicate Covers(strict: bool, w: Wire, items: seq<Item>) {
    && WireOk(strict, w) && Read(strict, w.frames).Live? && |Read(strict, w.frames).slots| <= |items|
    && forall i :: 0 <= i < |Read(strict, w.frames).slots| && Read(strict, w.frames).slots[i].stage.Closed? ==>
         OutputText(SnapshotOf(items[i], items[i].progress.status)) == Read(strict, w.frames).slots[i].stage.final
  }

  lemma SyncedCovers(strict: bool, w: Wire, items: seq<Item>, n: nat)
    requires Synced(strict, w, items, n)
    ensures Covers(strict, w, items)
  {
    assert forall i :: 0 <= i < n ==> SlotMatches(Read(strict, w.frames).slots[i], items[i]);
  }

  /** The protocol-error ending repeats the closed items and may leave others open. */
  lemma InvalidTransitionCloses(strict: bool, c: Config, s: State)
    requires Open(s) && Covers(strict, s.wire, s.table.items)
    ensures ClosedOk(strict, InvalidTransition(c, s).st)
  {
    var s1 := s.(flags := s.flags.(invalid := true, terminal := true));
    WriteAccepted(strict, c, s1, TerminalFrame(EndFailed(StreamInvalidTransition), ResponseOf(s1)));
  }

  lemma WriteTerminalCloses(strict: bool, c: Config, s: State, ending: Ending)
    requires Open(s) && Synced(strict, s.wire, s.table.items, |s.table.items|) &&
      DoneUpTo(s.table.items, |s.table.items|)
    ensures ClosedOk(strict, WriteTerminal(c, s, ending).st)
  {
    var s1 := s.(flags := s.flags.(terminal := true));
    var slots := Read(strict, s.wire.frames).slots;
    assert forall i :: 0 <= i < |slots| ==> SlotMatches(slots[i], s.table.items[i]);
    WriteAccepted(strict, c, s1, TerminalFrame(ending, ResponseOf(s1)));
  }

  /** An open stream whose items have all been read, the first i of them closed. */
  predicate Closing(strict: bool, s: State, i: nat) {
    && Open(s) && DoneUpTo(s.table.items, i)
    && (forall j :: 0 <= j < |s.table.items| ==> s.table.items[j].index == j)
    && Synced(strict, s.wire, s.table.items, |s.table.items|)
  }

  lemma FinishOneSynced(strict: bool, c: Config, s: State, i: nat, status: Status)
    requires Closing(strict, s, i) && i < |s.table.items| && !s.table.items[i].progress.itemDone && status != InProgress
    ensures var o := FinishOne(c, s, i, status);
      if o.err == NoError then Closing(strict, o.st, i + 1) && o.st.flags == s.flags else ClosedOk(strict, o.st)
  {
    if s.table.items[i].key.TextItem? {
      FinishTextSynced(strict, c, s, i, status, |s.table.items|);
    } else {
      FinishToolSynced(strict, c, s, i, status, |s.table.items|);
    }
  }

  lemma FinishItemsStep(c: Config, s: State, status: Status, needIdentity: bool, i: nat)
    requires i < |s.table.items| && !s.table.items[i].progress.itemDone &&
      !(needIdentity && LacksIdentity(s.table.items[i]))
    ensures FinishItems(c, s, status, needIdentity, i)
         == var o := FinishOne(c, s, i, status);
            if o.err != NoError then o else FinishItems(c, o.st, status, needIdentity, i + 1)
  {
  }

  predicate Closes(strict: bool, s: State, o: Out) {
    if o.err == NoError then Closing(strict, o.st, |o.st.table.items|) && o.st.flags == s.flags
      else ClosedOk(strict, o.st)
  }

  lemma {:induction false} FinishItemsSynced(strict: bool, c: Config, s: State, status: Status, needIdentity: bool,
                                             i: nat)
    requires Closing(strict, s, i) && status != InProgress
    ensures Closes(strict, s, FinishItems(c, s, status, needIdentity, i))
    decreases |s.table.items| - i, 1
  {
    if i < |s.table.items| {
      if s.table.items[i].progress.itemDone {
        FinishItemsSynced(strict, c, s, status, needIdentity, i + 1);
      } else if needIdentity && LacksIdentity(s.table.items[i]) {
        SyncedCovers(strict, s.wire, s.table.items, |s.table.items|);
        InvalidTransitionCloses(strict, c, s);
      } else {
        FinishItemsStep(c, s, status, needIdentity, i);
        FinishOneSynced(strict, c, s, i, status);
        FinishOneThenRest(strict, c, s, status, needIdentity, i, FinishOne(c, s, i, status));
      }
    }
  }

  lemma {:induction false} FinishOneThenRest(strict: bool, c: Config, s: State, status: Status, needIdentity: bool,
                                             i: nat, o: Out)
    requires i < |s.table.items| && status != InProgress && |o.st.table.items| == |s.table.items|
    requires if o.err == NoError then Closing(strict, o.st, i + 1) && o.st.flags == s.flags else ClosedOk(strict, o.st)
    ensures Closes(strict, s, if o.err != NoError then o else FinishItems(c, o.st, status, needIdentity, i + 1))
    decreases |s.table.items| - i, 0
  {
    if o.err == NoError {
      FinishItemsSynced(strict, c, o.st, status, needIdentity, i + 1);
    }
  }

  // ----- every call keeps a good session good -----

  lemma KeysKeepTable(a: Table, b: Table)
    requires SameItemKeys(a, b) && TableOk(a)
    ensures TableOk(b)
  {
    forall i | 0 <= i < |b.items|
      ensures b.items[i].index == i && b.items[i].key in b.byKey && b.byKey[b.items[i].key] == i
    {
      assert b.items[i].key == a.items[i].key;
    }
  }

  lemma StartSessionGood(strict: bool, c: Config, s: State)
    requires Good(strict, s) && !s.flags.started
    ensures var o := StartSession(c, s); Good(strict, o.st) && (o.err == NoError ==> Open(o.st))
  {
    var s1 := s.(flags := s.flags.(started := true));
    var b0 := CreatedFrame(ResponseOf(s1));
    WriteAccepted(strict, c, s1, b0);
    var o := Write(c, s1, b0);
    if o.err == NoError {
      WriteAccepted(strict, c, o.st, InProgressFrame(ResponseOf(o.st)));
    }
  }

  lemma EnsureStartedGood(strict: bool, c: Config, s: State)
    requires Good(strict, s) && !s.flags.failed && !s.flags.terminal
    ensures var o := EnsureStarted(c, s); Good(strict, o.st) && (o.err == NoError ==> Open(o.st))
  {
    if !s.flags.started {
      StartSessionGood(strict, c, s);
    }
  }

  lemma InvalidTransitionGood(strict: bool, c: Config, s: State)
    requires Good(strict, s) && !s.flags.failed && !s.flags.terminal
    ensures Good(strict, InvalidTransition(c, s).st)
  {
    var marked := s.(flags := s.flags.(invalid := true));
    assert Good(strict, marked);
    EnsureStartedGood(strict, c, marked);
    var o := EnsureStarted(c, marked);
    if o.err == NoError {
      SyncedCovers(strict, o.st.wire, o.st.table.items, |o.st.table.items|);
      InvalidTransitionCloses(strict, c, o.st);
      InvalidTransitionMarked(c, s);
    }
  }

  lemma InvalidTransitionMarked(c: Config, s: State)
    requires !s.flags.failed && !s.flags.terminal
    requires EnsureStarted(c, s.(flags := s.flags.(invalid := true))).err == NoError
    ensures var s1 := EnsureStarted(c, s.(flags := s.flags.(invalid := true))).st;
      Open(s1) ==> InvalidTransition(c, s).st == InvalidTransition(c, s1).st
  {
  }

  lemma TerminalGood(strict: bool, c: Config, s: State, status: Status, needIdentity: bool, ending: Ending)
    requires Good(strict, s) && Open(s) && status != InProgress
    ensures var o := FinishItems(c, s, status, needIdentity, 0);
      Good(strict, if o.err != NoError then o.st else WriteTerminal(c, o.st, ending).st)
  {
    FinishItemsSynced(strict, c, s, status, needIdentity, 0);
    FinishItemsKeys(c, s, status, needIdentity, 0);
    var o := FinishItems(c, s, status, needIdentity, 0);
    KeysKeepTable(s.table, o.st.table);
    if o.err == NoError {
      WriteTerminalCloses(strict, c, o.st, ending);
    }
  }

  lemma LimitGood(strict: bool, c: Config, s: State)
    requires Good(strict, s) && Open(s)
    ensures Good(strict, Limit(c, s).st)
  {
    TerminalGood(strict, c, s, StatusIncomplete, false, EndFailed(StreamLimitExceeded));
  }

  lemma HandleTerminalGood(strict: bool, c: Config, s: State, status: Status, needIdentity: bool, ending: Ending)
    requires Good(strict, s) && !s.flags.failed && !s.flags.terminal && status != InProgress
    ensures Good(strict, HandleTerminal(c, s, status, needIdentity, ending).st)
  {
    EnsureStartedGood(strict, c, s);
    var o := EnsureStarted(c, s);
    if o.err == NoError {
      TerminalGood(strict, c, o.st, status, needIdentity, ending);
    }
  }
}
