/** Two short runs that take the frames of a session out of the wire grammar, one for
    each guard of SessionTheorems.Escapes. */
module SessionEscapes {
  import opened Bridge
  import opened SessionHandlers
  import opened SessionSafety
  import opened SessionShape
  import opened SessionSpec
  import opened SessionTheorems
  import opened WireGrammar

  const ANY_TEXT: Utf8Test := (s: string) => true
  const SHORT_IDS: (IdPrefix, nat) -> string := (p: IdPrefix, n: nat) => "x"
  const NEVER_FAILS: nat -> bool := (n: nat) => true

  /** A session whose writes all succeed and whose item ids have one byte. */
  function Sample(maxAggregate: int): Config {
    Config(maxAggregate, 100, 100, 100, 100, {}, SHORT_IDS, NEVER_FAILS, ANY_TEXT)
  }

  const KEY := ToolKey(0, 0)

  const STARTED := ToolCallStarted(KEY, KindFunction, "c", "f")
  const STREAMED := ToolCallArguments(KEY, "a")
  const REPLACED := ToolCallCompleted(KEY, KindFunction, "c", "f", "b")

  lemma RunOne(c: Config, s: State, calls: seq<Call>, call: Call)
    ensures RunCalls(c, s, calls + [call]) == Apply(c, RunCalls(c, s, calls), call).st
  {
    assert (calls + [call])[..|calls|] == calls;
  }

  lemma HitsOne(strict: bool, c: Config, s: State, calls: seq<Call>, call: Call)
    ensures EverHits(strict, c, s, calls + [call]) <==>
      EverHits(strict, c, s, calls) || Hits(strict, c, RunCalls(c, s, calls), call)
  {
    assert (calls + [call])[..|calls|] == calls;
  }

  lemma ValidSample()
    ensures ValidStreamValue(ANY_TEXT, "x", MAX_ITEM_ID) && ValidStreamValue(ANY_TEXT, "c", MAX_CALL_ID)
    ensures ValidStreamValue(ANY_TEXT, "f", MAX_CALL_ID)
  {
  }

  /** Started, and nothing else. */
  predicate Blank(s: State) {
    s.flags == Flags(true, false, false, false) && s.table == Table([], map[], 0) && s.ledger == Ledger(0, 0, 0, 0)
  }

  lemma StartsBlank(c: Config, model: string)
    requires Reliable(c)
    ensures Blank(Apply(c, Initial(model), CallStart).st)
  {
  }

  /** One open tool item with these streamed arguments. */
  predicate OneTool(s: State, payload: string, spent: int) {
    && s.flags == Flags(true, false, false, false)
    && s.table == Table([Item(ToolItem(KEY), "x", 0, Tool(KindFunction, "c", "f"), payload,
      Progress(InProgress, false, false))],
                        map[ToolItem(KEY) := 0], 1)
    && s.ledger == Ledger(spent, 0, |payload|, 0)
  }

  lemma StartOpens(s: State)
    requires Blank(s)
    ensures OneTool(Apply(Sample(1000), s, CallHandle(STARTED)).st, "", 35)
  {
    ValidSample();
    var c, tool := Sample(1000), Tool(KindFunction, "", "");
    assert PrefixOf(KindFunction) == FunctionId && c.newId(FunctionId, 0) == "x";
    var o := NewItem(c, s, ToolItem(KEY), FunctionId, tool);
    assert o.st.table.items == [Item(ToolItem(KEY), "x", 0, tool, "", Progress(InProgress, false, false))];
    assert Apply(c, s, CallHandle(STARTED)) == OpenTool(c, s, KEY, KindFunction, "c", "f");
    assert AnnounceTool(c, o.st, 0, "c", "f").err == NoError;
    assert "" + "f" == "f";
  }

  lemma ArgumentsStream(s: State)
    requires OneTool(s, "", 35)
    ensures OneTool(Apply(Sample(1000), s, CallHandle(STREAMED)).st, "a", 36)
  {
    assert Apply(Sample(1000), s, CallHandle(STREAMED)) == AppendArguments(Sample(1000), s, 0, "a");
    assert "" + "a" == "a";
  }

  lemma CompletionReplaces(s: State)
    requires OneTool(s, "a", 36)
    ensures Diverges(Sample(1000), s, REPLACED) && !Apply(Sample(1000), s, CallHandle(REPLACED)).st.flags.failed
  {
    ValidSample();
    var c := Sample(1000);
    assert ActiveTool(s, KEY) == Some(0);
    assert Apply(c, s, CallHandle(REPLACED)) == HandleToolCompleted(c, s, KEY, KindFunction, "c", "f", "b");
    assert HandleToolCompleted(c, s, KEY, KindFunction, "c", "f", "b") == CloseTool(c, Spend(s, 3), 0, "c", "f", "b");
  }

  /** With 33 bytes there is room for the item of a call, not for its identity. */
  lemma StartCloses(s: State)
    requires Blank(s)
    ensures Unannounced(Sample(33), s, STARTED) && !Apply(Sample(33), s, CallHandle(STARTED)).st.flags.failed
  {
    ValidSample();
    var c, tool := Sample(33), Tool(KindFunction, "", "");
    assert PrefixOf(KindFunction) == FunctionId && c.newId(FunctionId, 0) == "x";
    var o := NewItem(c, s, ToolItem(KEY), FunctionId, tool);
    assert o.st.table.items == [Item(ToolItem(KEY), "x", 0, tool, "", Progress(InProgress, false, false))];
    assert Apply(c, s, CallHandle(STARTED)) == OpenTool(c, s, KEY, KindFunction, "c", "f");
    var s1 := SetItem(o.st, 0, o.st.table.items[0].(tool := Tool(KindFunction, "c", "")));
    assert OpenTool(c, s, KEY, KindFunction, "c", "f") == Limit(c, s1);
    LimitHolds(c, s1);
  }

  lemma LimitHolds(c: Config, s: State)
    requires Reliable(c) && s.flags == Flags(true, false, false, false)
    requires |s.table.items| == 1 && s.table.items[0].key.ToolItem? && !s.table.items[0].progress.itemDone
    ensures !Limit(c, s).st.flags.failed
  {
    FinishItemsStep(c, s, StatusIncomplete, false, 0);
    var o := FinishOne(c, s, 0, StatusIncomplete);
    assert o.err == NoError && !o.st.flags.failed;
    assert FinishItems(c, o.st, StatusIncomplete, false, 1) == Out(o.st, NoError);
  }

  /** With room for the item but not for its identity, the start of a tool call
      closes an item that was never added: the frames leave the plain grammar. */
  lemma UnannouncedExample(model: string)
    ensures var c, calls := Sample(33), [CallStart, CallHandle(STARTED)];
      var s := RunCalls(c, Initial(model), calls);
      EverHits(false, c, Initial(model), calls) && !s.flags.failed && Read(false, s.wire.frames).Broken?
  {
    var c, s0, start := Sample(33), Initial(model), [CallStart];
    var calls := [CallStart, CallHandle(STARTED)];
    RunOne(c, s0, [], CallStart);
    assert [] + [CallStart] == start && start + [CallHandle(STARTED)] == calls;
    HitsOne(false, c, s0, start, CallHandle(STARTED));
    RunOne(c, s0, start, CallHandle(STARTED));
    StartsBlank(c, model);
    StartCloses(RunCalls(c, s0, start));
    WireGrammarExact(false, c, model, calls);
  }

  /** A completion whose arguments differ from the streamed ones: the done frame
      contradicts the deltas, so the frames leave the strict grammar. */
  lemma DivergesExample(model: string)
    ensures var c := Sample(1000);
      var calls := [CallStart, CallHandle(STARTED), CallHandle(STREAMED), CallHandle(REPLACED)];
      var s := RunCalls(c, Initial(model), calls);
      EverHits(true, c, Initial(model), calls) && !s.flags.failed && Read(true, s.wire.frames).Broken?
  {
    var c, s0 := Sample(1000), Initial(model);
    var a, b := [CallStart], [CallStart, CallHandle(STARTED)];
    var d := [CallStart, CallHandle(STARTED), CallHandle(STREAMED)];
    var calls := [CallStart, CallHandle(STARTED), CallHandle(STREAMED), CallHandle(REPLACED)];
    assert [] + [CallStart] == a && a + [CallHandle(STARTED)] == b && b + [CallHandle(STREAMED)] == d;
    assert d + [CallHandle(REPLACED)] == calls;
    RunOne(c, s0, [], CallStart);
    RunOne(c, s0, a, CallHandle(STARTED));
    RunOne(c, s0, b, CallHandle(STREAMED));
    RunOne(c, s0, d, CallHandle(REPLACED));
    HitsOne(true, c, s0, d, CallHandle(REPLACED));
    StartsBlank(c, model);
    StartOpens(RunCalls(c, s0, a));
    ArgumentsStream(RunCalls(c, s0, b));
    CompletionReplaces(RunCalls(c, s0, d));
    WireGrammarExact(true, c, model, calls);
  }
}
