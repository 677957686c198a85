/** Pre-validation is complete: once ValidateChunk accepts a chunk, none of the
    checks that consumption repeats can fail. */
module DecoderGuards {
  import opened Bridge
  import opened DecoderSpec

  /** Both call tables hold the same call, or none, under k. */
  predicate SameAt(a: map<ToolKey, Call>, b: map<ToolKey, Call>, k: ToolKey) {
    (k in a <==> k in b) && (k in a ==> a[k] == b[k])
  }

  lemma ExtendIdFrame(cfg: Config, guarded: bool, st: State, key: ToolKey, tool: ToolDelta)
    requires key in st.calls
    requires ExtendId(cfg, guarded, st, key, tool).err == NoError
    ensures ExtendId(cfg, guarded, st, key, tool).st.calls.Keys == st.calls.Keys
    ensures forall k :: k != key ==> SameAt(ExtendId(cfg, guarded, st, key, tool).st.calls, st.calls, k)
  {
  }

  lemma ExtendCallFrame(cfg: Config, guarded: bool, st: State, key: ToolKey, tool: ToolDelta)
    requires key in st.calls
    requires ExtendCall(cfg, guarded, st, key, tool).err == NoError
    ensures var o := ExtendCall(cfg, guarded, st, key, tool);
      && o.st.calls.Keys == st.calls.Keys
      && forall k :: k != key ==> SameAt(o.st.calls, st.calls, k)
  {
    ExtendIdFrame(cfg, guarded, st, key, tool);
  }

  lemma OpenCallFrame(cfg: Config, guarded: bool, st: State, key: ToolKey, tool: ToolDelta)
    requires OpenCall(cfg, guarded, st, key, tool).err == NoError
    ensures forall k :: k != key ==> SameAt(OpenCall(cfg, guarded, st, key, tool).st.calls, st.calls, k)
  {
  }

  lemma OpenCallKeys(cfg: Config, guarded: bool, st: State, key: ToolKey, tool: ToolDelta)
    requires OpenCall(cfg, guarded, st, key, tool).err == NoError
    ensures OpenCall(cfg, guarded, st, key, tool).st.calls.Keys == st.calls.Keys + {key}
  {
  }

  /** A consumed fragment touches its own call only... */
  lemma ConsumeToolFrame(cfg: Config, guarded: bool, st: State, choice: int, tool: ToolDelta, key: ToolKey)
    requires ConsumeTool(cfg, guarded, st, choice, tool).err == NoError
    requires key == ToolKey(choice, Index(tool))
    ensures forall k :: k != key ==> SameAt(ConsumeTool(cfg, guarded, st, choice, tool).st.calls, st.calls, k)
  {
    var o := OpenCall(cfg, guarded, st, key, tool);
    OpenCallFrame(cfg, guarded, st, key, tool);
    ExtendCallFrame(cfg, guarded, o.st, key, tool);
  }

  /** ... and adds at most that one. */
  lemma ConsumeToolKeys(cfg: Config, guarded: bool, st: State, choice: int, tool: ToolDelta, key: ToolKey)
    requires ConsumeTool(cfg, guarded, st, choice, tool).err == NoError
    requires key == ToolKey(choice, Index(tool))
    ensures ConsumeTool(cfg, guarded, st, choice, tool).st.calls.Keys == st.calls.Keys + {key}
  {
    var o := OpenCall(cfg, guarded, st, key, tool);
    OpenCallKeys(cfg, guarded, st, key, tool);
    ExtendCallFrame(cfg, guarded, o.st, key, tool);
  }

  lemma CountKeys(a: map<ToolKey, Call>, b: map<ToolKey, Call>, key: ToolKey)
    requires b.Keys == a.Keys + {key}
    ensures |b| == |a| + (if key in a then 0 else 1)
  {
    assert |a| == |a.Keys| && |b| == |b.Keys|;
    if key in a {
      assert b.Keys == a.Keys;
    }
  }

  lemma SameAtTransitive(a: map<ToolKey, Call>, b: map<ToolKey, Call>, c: map<ToolKey, Call>, keys: iset<ToolKey>)
    requires forall k :: k in keys ==> SameAt(a, b, k)
    requires forall k :: k in keys ==> SameAt(b, c, k)
    ensures forall k :: k in keys ==> SameAt(a, c, k)
  {
  }

  lemma ToolGuardsRedundant(cfg: Config, st: State, choice: int, tool: ToolDelta)
    requires tool.index.Some? && 0 <= tool.index.value < cfg.maxToolCalls
    requires tool.typ == "" || tool.typ == "function"
    requires var key := ToolKey(choice, tool.index.value);
      if key in st.calls then
        && |tool.name| <= cfg.maxToolName - |st.calls[key].name|
        && IdGrowth(st.calls[key].providerId, tool.id) <= cfg.maxProviderId - |st.calls[key].providerId|
      else |st.calls| < cfg.maxToolCalls && |tool.id| <= cfg.maxProviderId && |tool.name| <= cfg.maxToolName
    ensures ConsumeTool(cfg, true, st, choice, tool) == ConsumeTool(cfg, false, st, choice, tool)
  {
    var key := ToolKey(choice, tool.index.value);
    var o := OpenCall(cfg, true, st, key, tool);
    assert o == OpenCall(cfg, false, st, key, tool) && o.err == NoError;
    assert ExtendId(cfg, true, o.st, key, tool) == ExtendId(cfg, false, o.st, key, tool);
    assert ExtendCall(cfg, true, o.st, key, tool) == ExtendCall(cfg, false, o.st, key, tool);
  }

  /** base is the call table the pre-validation looked at. */
  lemma {:induction false} ToolsGuardsRedundant(cfg: Config, base: map<ToolKey, Call>, st: State, choice: int,
                                                tools: seq<ToolDelta>, seen: set<int>, newCalls: nat)
    requires ValidateTools(cfg, base, choice, tools, seen, newCalls).0 == NoError
    requires ValidateTools(cfg, base, choice, tools, seen, newCalls).1 <= cfg.maxToolCalls - |base|
    requires |st.calls| == |base| + newCalls
    requires forall k: ToolKey :: k.choice == choice && k.tool !in seen ==> SameAt(st.calls, base, k)
    ensures var o := ConsumeTools(cfg, true, st, choice, tools, seen);
      && o == ConsumeTools(cfg, false, st, choice, tools, seen)
      && (o.err == NoError ==> |o.st.calls| == |base| + ValidateTools(cfg, base, choice, tools, seen, newCalls).1)
    decreases |tools|, 0
  {
    if tools != [] {
      var tool := tools[0];
      var key := ToolKey(choice, tool.index.value);
      var rest, seen1, newCalls1 := tools[1..], seen + {key.tool}, newCalls + if key in base then 0 else 1;
      ValidateToolsStep(cfg, base, choice, tools, seen, newCalls, key);
      ConsumeToolsStep(cfg, true, st, choice, tools, seen, key);
      ConsumeToolsStep(cfg, false, st, choice, tools, seen, key);
      FirstToolGuards(cfg, base, st, choice, tools, seen, newCalls);
      var o := ConsumeTool(cfg, true, st, choice, tool);
      if o.err == NoError {
        FirstToolKeeps(cfg, base, st, choice, tool, seen, key);
      }
      RestGuardsRedundant(cfg, base, o, choice, rest, seen1, newCalls1);
    }
  }

  lemma {:induction false} RestGuardsRedundant(cfg: Config, base: map<ToolKey, Call>, o: Out, choice: int,
                                               rest: seq<ToolDelta>, seen: set<int>, newCalls: nat)
    requires ValidateTools(cfg, base, choice, rest, seen, newCalls).0 == NoError
    requires ValidateTools(cfg, base, choice, rest, seen, newCalls).1 <= cfg.maxToolCalls - |base|
    requires o.err == NoError ==> |o.st.calls| == |base| + newCalls
    requires o.err == NoError ==>
      forall k: ToolKey :: k.choice == choice && k.tool !in seen ==> SameAt(o.st.calls, base, k)
    ensures var r := if o.err != NoError then o else ConsumeTools(cfg, true, o.st, choice, rest, seen);
      && r == (if o.err != NoError then o else ConsumeTools(cfg, false, o.st, choice, rest, seen))
      && (r.err == NoError ==> |r.st.calls| == |base| + ValidateTools(cfg, base, choice, rest, seen, newCalls).1)
    decreases |rest|, 1
  {
    if o.err == NoError {
      ToolsGuardsRedundant(cfg, base, o.st, choice, rest, seen, newCalls);
    }
  }

  lemma ValidateToolsStep(cfg: Config, base: map<ToolKey, Call>, choice: int, tools: seq<ToolDelta>, seen: set<int>,
                          newCalls: nat, key: ToolKey)
    requires tools != [] && key == ToolKey(choice, Index(tools[0]))
    requires ValidateTools(cfg, base, choice, tools, seen, newCalls).0 == NoError
    ensures key.tool !in seen && key.tool >= 0
    ensures ValidateTools(cfg, base, choice, tools, seen, newCalls)
         == ValidateTools(cfg, base, choice, tools[1..], seen + {key.tool}, newCalls + if key in base then 0 else 1)
  {
  }

  lemma ConsumeToolsStep(cfg: Config, guarded: bool, st: State, choice: int, tools: seq<ToolDelta>, seen: set<int>,
                         key: ToolKey)
    requires tools != [] && key == ToolKey(choice, Index(tools[0]))
    requires key.tool >= 0 && key.tool !in seen
    ensures ConsumeTools(cfg, guarded, st, choice, tools, seen)
         == var o := ConsumeTool(cfg, guarded, st, choice, tools[0]);
            if o.err != NoError then o
            else ConsumeTools(cfg, guarded, o.st, choice, tools[1..], seen + {key.tool})
  {
  }

  lemma FirstToolGuards(cfg: Config, base: map<ToolKey, Call>, st: State, choice: int,
                        tools: seq<ToolDelta>, seen: set<int>, newCalls: nat)
    requires tools != []
    requires ValidateTools(cfg, base, choice, tools, seen, newCalls).0 == NoError
    requires ValidateTools(cfg, base, choice, tools, seen, newCalls).1 <= cfg.maxToolCalls - |base|
    requires |st.calls| == |base| + newCalls
    requires forall k: ToolKey :: k.choice == choice && k.tool !in seen ==> SameAt(st.calls, base, k)
    ensures ConsumeTool(cfg, true, st, choice, tools[0]) == ConsumeTool(cfg, false, st, choice, tools[0])
  {
    var tool := tools[0];
    var key := ToolKey(choice, tool.index.value);
    assert SameAt(st.calls, base, key);
    ToolGuardsRedundant(cfg, st, choice, tool);
  }

  lemma FirstToolKeeps(cfg: Config, base: map<ToolKey, Call>, st: State, choice: int, tool: ToolDelta,
                       seen: set<int>, key: ToolKey)
    requires ConsumeTool(cfg, true, st, choice, tool).err == NoError
    requires key == ToolKey(choice, Index(tool)) && key.tool !in seen
    requires forall k: ToolKey :: k.choice == choice && k.tool !in seen ==> SameAt(st.calls, base, k)
    ensures var calls := ConsumeTool(cfg, true, st, choice, tool).st.calls;
      && |calls| == |st.calls| + (if key in base then 0 else 1)
      && forall k: ToolKey :: k.choice == choice && k.tool !in seen + {key.tool} ==> SameAt(calls, base, k)
  {
    var calls := ConsumeTool(cfg, true, st, choice, tool).st.calls;
    ConsumeToolFrame(cfg, true, st, choice, tool, key);
    ConsumeToolKeys(cfg, true, st, choice, tool, key);
    CountKeys(st.calls, calls, key);
    assert SameAt(st.calls, base, key);
    SameAtTransitive(calls, st.calls, base, iset k: ToolKey | k.choice == choice && k.tool !in seen + {key.tool});
  }

  lemma {:induction false} ToolsKeepOtherChoices(cfg: Config, st: State, choice: int, tools: seq<ToolDelta>,
                                                 seen: set<int>)
    requires ConsumeTools(cfg, true, st, choice, tools, seen).err == NoError
    ensures forall k: ToolKey :: k.choice != choice ==>
      SameAt(ConsumeTools(cfg, true, st, choice, tools, seen).st.calls, st.calls, k)
    decreases |tools|
  {
    if tools != [] {
      var o := ConsumeTool(cfg, true, st, choice, tools[0]);
      var rest := ConsumeTools(cfg, true, o.st, choice, tools[1..], seen + {Index(tools[0])});
      ConsumeToolFrame(cfg, true, st, choice, tools[0], ToolKey(choice, Index(tools[0])));
      ToolsKeepOtherChoices(cfg, o.st, choice, tools[1..], seen + {Index(tools[0])});
      SameAtTransitive(rest.st.calls, o.st.calls, st.calls, iset k: ToolKey | k.choice != choice);
    }
  }

  lemma ContentKeepsCalls(cfg: Config, st: State, c: Choice)
    ensures ConsumeContent(cfg, st.(phase := RecordFinish(st.phase, c.finish)), c).st.calls == st.calls
    ensures ConsumeReasoning(cfg, st, c).st.calls == st.calls
  {
  }

  lemma {:induction false} ChoicesGuardsRedundant(cfg: Config, base: map<ToolKey, Call>, st: State,
                                                  choices: seq<Choice>, seen: set<int>, newCalls: nat)
    requires ValidateChoices(cfg, base, choices, seen, newCalls).0 == NoError
    requires ValidateChoices(cfg, base, choices, seen, newCalls).1 <= cfg.maxToolCalls - |base|
    requires |st.calls| == |base| + newCalls
    requires forall k: ToolKey :: k.choice !in seen ==> SameAt(st.calls, base, k)
    ensures ConsumeChoices(cfg, true, st, choices, seen) == ConsumeChoices(cfg, false, st, choices, seen)
    decreases |choices|
  {
    if choices != [] {
      var c := choices[0];
      var r := ValidateTools(cfg, base, c.index, c.tools, {}, newCalls);
      var o := ConsumeContent(cfg, st.(phase := RecordFinish(st.phase, c.finish)), c);
      var o1 := ConsumeReasoning(cfg, o.st, c);
      ContentKeepsCalls(cfg, st, c);
      ContentKeepsCalls(cfg, o.st, c);
      ToolsGuardsRedundant(cfg, base, o1.st, c.index, c.tools, {}, newCalls);
      var o2 := ConsumeChoice(cfg, true, st, c);
      assert o2 == ConsumeChoice(cfg, false, st, c);
      if o2.err == NoError {
        var o3 := ConsumeTools(cfg, true, o1.st, c.index, c.tools, {});
        ToolsKeepOtherChoices(cfg, o1.st, c.index, c.tools, {});
        SameAtTransitive(o3.st.calls, o1.st.calls, base, iset k: ToolKey | k.choice !in seen + {c.index});
        ChoicesGuardsRedundant(cfg, base, o2.st, choices[1..], seen + {c.index}, r.1);
      }
    }
  }

  /** A chunk that passes the pre-validation is consumed as if consumption had
      no index, type, call-count, name-length or provider-id-length checks; a
      chunk it rejects changes nothing. */
  lemma PreValidationComplete(cfg: Config, st: State, chunk: Chunk)
    ensures if ValidateChunk(cfg, st.calls, chunk) == NoError
            then ConsumeChunk(cfg, st, chunk) == ConsumeBody(cfg, false, st, chunk)
            else ConsumeChunk(cfg, st, chunk).st == st && ConsumeChunk(cfg, st, chunk).err != NoError
  {
    var o := Announce(cfg, st, chunk);
    if ValidateChunk(cfg, st.calls, chunk) == NoError && o.err == NoError {
      var st1 := AdoptModel(o.st, chunk);
      assert st1.calls == st.calls;
      ChoicesGuardsRedundant(cfg, st.calls, st1, chunk.choices, {}, 0);
    }
  }
}
