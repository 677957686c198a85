/** The byte accounting at every moment of a run: for any input and any
    configuration, the counters say exactly what is retained, and nothing retained
    is over its limit, not even in a step that fails halfway. */
module DecoderCaps {
  import opened Bridge
  import opened DecoderBudget
  import opened DecoderRun
  import opened DecoderSafety
  import opened DecoderSpec

  predicate LimitsOk(cfg: Config) {
    && cfg.maxAggregate >= 0 && cfg.maxOutput >= 0 && cfg.maxText >= 0 && cfg.maxReasoning >= 0
    && cfg.maxToolCalls >= 0 && cfg.maxToolArguments >= 0
  }

  predicate Capped(cfg: Config, key: ToolKey, call: Call) {
    && 0 <= key.choice < cfg.maxChoices && 0 <= key.tool < cfg.maxToolCalls
    && |call.name| <= cfg.maxToolName
    && |call.providerId| <= cfg.maxProviderId
    && |call.arguments| <= cfg.maxToolArguments
  }

  ghost predicate AllCapped(cfg: Config, calls: map<ToolKey, Call>) {
    |calls| <= cfg.maxToolCalls && forall k :: k in calls ==> Capped(cfg, k, calls[k])
  }

  /** outputBytes counts the retained text and arguments, and every cap holds. */
  ghost predicate Accounted(cfg: Config, st: State) {
    BudgetOk(cfg, st.calls, st.budget, st.transcript) && AllCapped(cfg, st.calls)
  }

  // ----- small changes -----

  lemma QueueAccounted(cfg: Config, st: State, e: Event, payload: int)
    requires Accounted(cfg, st)
    ensures Accounted(cfg, Queue(cfg, st, e, payload).st)
  {
  }

  /** A call may change in everything that is not counted. */
  lemma SameBytes(cfg: Config, st: State, key: ToolKey, call: Call)
    requires Accounted(cfg, st) && key in st.calls && |call.arguments| == |st.calls[key].arguments|
    requires Capped(cfg, key, call)
    ensures Accounted(cfg, st.(calls := st.calls[key := call]))
  {
    WeighUpdate(st.calls, key, call, ArgumentBytes);
    assert st.calls[key := call].Keys == st.calls.Keys;
    SizeIsKeys(st.calls, st.calls[key := call]);
  }

  lemma SizeIsKeys(a: map<ToolKey, Call>, b: map<ToolKey, Call>)
    requires a.Keys == b.Keys
    ensures |a| == |b|
  {
    assert |a| == |a.Keys| && |b| == |b.Keys|;
  }

  // ----- one fragment -----

  lemma OpenCallAccounted(cfg: Config, st: State, key: ToolKey, tool: ToolDelta)
    requires LimitsOk(cfg) && Accounted(cfg, st) && 0 <= key.choice < cfg.maxChoices && 0 <= key.tool < cfg.maxToolCalls
    ensures Accounted(cfg, OpenCall(cfg, true, st, key, tool).st)
  {
    if key !in st.calls {
      WeighUpdate(st.calls, key, Call(FirstCallId(key, tool), "", "", "", UNKNOWN), ArgumentBytes);
    }
  }

  lemma ExtendIdAccounted(cfg: Config, st: State, key: ToolKey, tool: ToolDelta)
    requires Accounted(cfg, st) && key in st.calls
    ensures var o := ExtendId(cfg, true, st, key, tool);
      Accounted(cfg, o.st) && key in o.st.calls && o.st.calls[key].name == st.calls[key].name
  {
    var call, growth := st.calls[key], IdGrowth(st.calls[key].providerId, tool.id);
    var longer := call.(providerId := MergeId(call.providerId, tool.id));
    assert Capped(cfg, key, call);
    var o := Reserve(cfg, st, growth);
    assert Accounted(cfg, o.st);
    if growth <= cfg.maxProviderId - |call.providerId| {
      SameBytes(cfg, o.st, key, longer);
    }
  }

  lemma ExtendArgumentsAccounted(cfg: Config, st: State, key: ToolKey, tool: ToolDelta)
    requires Accounted(cfg, st) && key in st.calls
    ensures Accounted(cfg, ExtendArguments(cfg, st, key, tool).st)
  {
    var call := st.calls[key];
    var longer := call.(arguments := call.arguments + tool.arguments);
    assert Capped(cfg, key, call);
    WeighUpdate(st.calls, key, longer, ArgumentBytes);
    SizeIsKeys(st.calls, st.calls[key := longer]);
  }

  lemma ExtendCallAccounted(cfg: Config, st: State, key: ToolKey, tool: ToolDelta)
    requires Accounted(cfg, st) && key in st.calls
    ensures Accounted(cfg, ExtendCall(cfg, true, st, key, tool).st)
  {
    var o := ExtendId(cfg, true, st, key, tool);
    ExtendIdAccounted(cfg, st, key, tool);
    var name := st.calls[key].name + tool.name;
    var named := o.st.calls[key].(name := name);
    assert Capped(cfg, key, o.st.calls[key]);
    if |tool.name| <= cfg.maxToolName - |st.calls[key].name| {
      SameBytes(cfg, o.st, key, named);
      ExtendArgumentsAccounted(cfg, o.st.(calls := o.st.calls[key := named]), key, tool);
    }
  }

  lemma ConsumeToolAccounted(cfg: Config, st: State, choice: int, tool: ToolDelta)
    requires LimitsOk(cfg) && Accounted(cfg, st) && 0 <= choice < cfg.maxChoices
    ensures Accounted(cfg, ConsumeTool(cfg, true, st, choice, tool).st)
  {
    var key := ToolKey(choice, Index(tool));
    if 0 <= key.tool < cfg.maxToolCalls {
      var o := OpenCall(cfg, true, st, key, tool);
      OpenCallAccounted(cfg, st, key, tool);
      if o.err == NoError {
        ExtendCallAccounted(cfg, o.st, key, tool);
      }
    }
  }

  lemma {:induction false} ConsumeToolsAccounted(cfg: Config, st: State, choice: int, tools: seq<ToolDelta>,
                                                 seen: set<int>)
    requires LimitsOk(cfg) && Accounted(cfg, st) && 0 <= choice < cfg.maxChoices
    ensures Accounted(cfg, ConsumeTools(cfg, true, st, choice, tools, seen).st)
    decreases |tools|
  {
    if tools != [] {
      var rest, seen1 := tools[1..], seen + {Index(tools[0])};
      var o := ConsumeTool(cfg, true, st, choice, tools[0]);
      ConsumeToolAccounted(cfg, st, choice, tools[0]);
      ConsumeToolsAccounted(cfg, o.st, choice, rest, seen1);
    }
  }

  // ----- one chunk -----

  lemma PhaseAccounted(cfg: Config, st: State, phase: Phase)
    requires Accounted(cfg, st)
    ensures Accounted(cfg, st.(phase := phase))
  {
  }

  lemma ContentAccounted(cfg: Config, st: State, c: Choice)
    requires Accounted(cfg, st)
    ensures Accounted(cfg, ConsumeContent(cfg, st, c).st)
  {
    QueueAccounted(cfg, st, TextDelta(c.index, c.content), |c.content|);
  }

  lemma ReasoningAccounted(cfg: Config, st: State, c: Choice)
    requires Accounted(cfg, st)
    ensures Accounted(cfg, ConsumeReasoning(cfg, st, c).st)
  {
    QueueAccounted(cfg, st, ReasoningDelta(c.index, c.reasoning), |c.reasoning|);
  }

  lemma ChoiceAccounted(cfg: Config, st: State, c: Choice)
    requires LimitsOk(cfg) && Accounted(cfg, st) && 0 <= c.index < cfg.maxChoices
    ensures Accounted(cfg, ConsumeChoice(cfg, true, st, c).st)
  {
    var st0 := st.(phase := RecordFinish(st.phase, c.finish));
    var o := ConsumeContent(cfg, st0, c);
    PhaseAccounted(cfg, st, RecordFinish(st.phase, c.finish));
    ContentAccounted(cfg, st0, c);
    var o1 := ConsumeReasoning(cfg, o.st, c);
    ReasoningAccounted(cfg, o.st, c);
    ConsumeToolsAccounted(cfg, o1.st, c.index, c.tools, {});
  }

  lemma {:induction false} ChoicesAccounted(cfg: Config, st: State, choices: seq<Choice>, seen: set<int>)
    requires LimitsOk(cfg) && Accounted(cfg, st)
    ensures Accounted(cfg, ConsumeChoices(cfg, true, st, choices, seen).st)
    decreases |choices|
  {
    if choices != [] && 0 <= choices[0].index < cfg.maxChoices {
      var rest, seen1 := choices[1..], seen + {choices[0].index};
      var o := ConsumeChoice(cfg, true, st, choices[0]);
      ChoiceAccounted(cfg, st, choices[0]);
      ChoicesAccounted(cfg, o.st, rest, seen1);
    }
  }

  lemma AnnounceAccounted(cfg: Config, st: State, chunk: Chunk)
    requires Accounted(cfg, st)
    ensures Accounted(cfg, Announce(cfg, st, chunk).st)
    ensures Accounted(cfg, AdoptModel(Announce(cfg, st, chunk).st, chunk))
  {
    var size := |chunk.id| + |chunk.model|;
    QueueAccounted(cfg, st.(phase := st.phase.(started := true)), ResponseStarted(chunk.id, chunk.model), size);
  }

  lemma ChunkAccounted(cfg: Config, st: State, chunk: Chunk)
    requires LimitsOk(cfg) && Accounted(cfg, st)
    ensures Accounted(cfg, ConsumeChunk(cfg, st, chunk).st)
  {
    AnnounceAccounted(cfg, st, chunk);
    var st1 := AdoptModel(Announce(cfg, st, chunk).st, chunk);
    var o1 := ConsumeChoices(cfg, true, st1, chunk.choices, {});
    ChoicesAccounted(cfg, st1, chunk.choices, {});
    if chunk.usage.Some? {
      QueueAccounted(cfg, o1.st, UsageUpdated(chunk.usage.value), 0);
    }
  }

  // ----- the terminal boundary changes stages only -----

  lemma StageAccounted(cfg: Config, st: State, key: ToolKey, stage: Stage)
    requires Accounted(cfg, st) && key in st.calls
    ensures Accounted(cfg, st.(calls := st.calls[key := st.calls[key].(stage := stage)]))
  {
    assert Capped(cfg, key, st.calls[key]);
    SameBytes(cfg, st, key, st.calls[key].(stage := stage));
  }

  lemma EnsureStartedAccounted(cfg: Config, st: State, key: ToolKey)
    requires Accounted(cfg, st) && key in st.calls
    ensures Accounted(cfg, EnsureStarted(cfg, st, key).st)
  {
    var call := st.calls[key];
    var r := CustomRegistration(cfg, call.name);
    var kind, name := PublicKind(cfg, call.name), PublicName(cfg, call.name);
    var known := call.stage.(kind := kind, registration := if r.Some? then r else call.stage.registration);
    var size, e := |call.callId| + |name|, ToolCallStarted(key, kind, call.callId, name);
    var st0 := st.(calls := st.calls[key := call.(stage := known)]);
    StageAccounted(cfg, st, key, known);
    QueueAccounted(cfg, st0, e, size);
    var o := Queue(cfg, st0, e, size);
    var st1 := o.st.(calls := o.st.calls[key := call.(stage := known.(started := true))]);
    StageAccounted(cfg, o.st, key, known.(started := true));
    QueueAccounted(cfg, st1, ToolCallArguments(key, call.arguments), 0);
  }

  lemma {:induction false} StartAllAccounted(cfg: Config, st: State, keys: seq<ToolKey>)
    requires Accounted(cfg, st) && forall k :: k in keys ==> k in st.calls
    ensures Accounted(cfg, StartAll(cfg, st, keys).st)
    decreases |keys|
  {
    if keys != [] {
      var rest := keys[1..];
      EnsureStartedAccounted(cfg, st, keys[0]);
      StartAllAccounted(cfg, if st.calls[keys[0]].stage.completed then st else EnsureStarted(cfg, st, keys[0]).st,
        rest);
    }
  }

  lemma CompleteOneAccounted(cfg: Config, st: State, key: ToolKey)
    requires Accounted(cfg, st) && key in st.calls
    ensures Accounted(cfg, CompleteOne(cfg, st, key).st)
  {
    var call := st.calls[key];
    var st1 := st.(calls := st.calls[key := call.(stage := call.stage.(completed := true))]);
    StageAccounted(cfg, st, key, call.stage.(completed := true));
    CompleteCustomAccounted(cfg, st1, key, call);
    var size := |call.callId| + |call.name|;
    QueueAccounted(cfg, st1, ToolCallCompleted(key, KindFunction, call.callId, call.name, call.arguments), size);
  }

  lemma CompleteCustomAccounted(cfg: Config, st: State, key: ToolKey, call: Call)
    requires Accounted(cfg, st)
    ensures Accounted(cfg, CompleteCustom(cfg, st, key, call).st)
  {
    if cfg.unwrap(call.arguments).Input? {
      var text := cfg.unwrap(call.arguments).text;
      var name := if call.stage.registration.Some? then call.stage.registration.value.inbound else "";
      var size := |call.callId| + |name|;
      QueueAccounted(cfg, st, ToolCallArguments(key, text), 0);
      QueueAccounted(cfg, Queue(cfg, st, ToolCallArguments(key, text), 0).st,
        ToolCallCompleted(key, KindCustom, call.callId, name, text), size);
    }
  }

  lemma {:induction false} CompleteAllAccounted(cfg: Config, st: State, keys: seq<ToolKey>, ids: set<string>)
    requires Accounted(cfg, st) && forall k :: k in keys ==> k in st.calls
    ensures Accounted(cfg, CompleteAll(cfg, st, keys, ids).st)
    decreases |keys|
  {
    if keys != [] {
      var call, rest := st.calls[keys[0]], keys[1..];
      if call.stage.completed {
        CompleteAllAccounted(cfg, st, rest, ids);
      } else {
        CompleteOneAccounted(cfg, st, keys[0]);
        CompleteAllAccounted(cfg, CompleteOne(cfg, st, keys[0]).st, rest,
          if call.callId == "" then ids else ids + {call.callId});
      }
    }
  }

  lemma FinishToolCallsAccounted(cfg: Config, st: State, keys: seq<ToolKey>)
    requires Accounted(cfg, st) && IsKeyOrder(keys, st.calls)
    ensures Accounted(cfg, FinishToolCalls(cfg, st, keys).st)
  {
    StartAllAccounted(cfg, st, keys);
    var o := StartAll(cfg, st, keys);
    CompleteAllAccounted(cfg, o.st, keys, {});
    var st1 := CompleteAll(cfg, o.st, keys, {}).st;
    var phase := st1.phase.(finalized := true, toolTurn := |st1.calls| > 0);
    PhaseAccounted(cfg, st1, phase);
    QueueAccounted(cfg, st1.(phase := phase), Completed, 0);
  }

  lemma FinishAccounted(cfg: Config, st: State, keys: seq<ToolKey>)
    requires Accounted(cfg, st) && IsKeyOrder(keys, st.calls)
    ensures Accounted(cfg, Finish(cfg, st, keys).st)
  {
    if st.phase.finish == ToolCalls && !st.phase.conflict {
      FinishToolCallsAccounted(cfg, st, keys);
    } else {
      PlainFinishAccounted(cfg, st, keys, Finish(cfg, st, keys));
    }
  }

  lemma PlainFinishAccounted(cfg: Config, st: State, keys: seq<ToolKey>, o: Out)
    requires Accounted(cfg, st) && IsKeyOrder(keys, st.calls)
    requires st.phase.finish != ToolCalls || st.phase.conflict
    requires o == Finish(cfg, st, keys)
    ensures Accounted(cfg, o.st)
  {
    assert o.st.calls == st.calls && o.st.transcript == st.transcript;
    assert o.st.budget == st.budget || o.st.budget == Charge(st.budget, OVERHEAD);
  }

  // ----- whole runs -----

  lemma StepAccounted(cfg: Config, st: State, pe: ProviderEvent)
    requires LimitsOk(cfg) && Accounted(cfg, st)
    ensures Accounted(cfg, Step(cfg, st, pe))
  {
    match pe
    case ProviderDone => FinishAccounted(cfg, st, KeyOrder(st.calls.Keys));
    case Data(chunk) => ChunkAccounted(cfg, st, chunk);
    case _ =>
  }

  /** Where a run stands after a list of provider events, and what it has released. */
  ghost function Reached(cfg: Config, st: State, input: seq<ProviderEvent>): Outcome
    decreases |input|
  {
    if st.phase.terminal || input == [] then Outcome(st, [])
    else
      var st1 := Step(cfg, st, input[0]);
      var rest := Reached(cfg, Released(st1), input[1..]);
      Outcome(rest.st, st1.pending + rest.events)
  }

  /** The whole run is what has been released so far and the run from here on. */
  lemma {:induction false} RunResumes(cfg: Config, st: State, input: seq<ProviderEvent>, more: seq<ProviderEvent>)
    ensures var here := Reached(cfg, st, input);
      Run(cfg, st, input + more) == var o := Run(cfg, here.st, more); Outcome(o.st, here.events + o.events)
    decreases |input|
  {
    if st.phase.terminal || input == [] {
      assert input == [] ==> input + more == more;
    } else {
      var first, rest := input[0], input[1..];
      var st1 := Step(cfg, st, first);
      RunResumes(cfg, Released(st1), rest, more);
      RunStep(cfg, st, first, rest + more, st1);
      assert [first] + (rest + more) == input + more;
      Regrouped(st1.pending, Reached(cfg, Released(st1), rest).events,
        Run(cfg, Reached(cfg, Released(st1), rest).st, more).events);
    }
  }

  lemma Regrouped(a: seq<Event>, b: seq<Event>, c: seq<Event>)
    ensures a + (b + c) == (a + b) + c
  {
  }

  lemma {:induction false} ReachedAccounted(cfg: Config, st: State, input: seq<ProviderEvent>)
    requires LimitsOk(cfg) && Accounted(cfg, st)
    ensures Accounted(cfg, Reached(cfg, st, input).st)
    decreases |input|
  {
    if !st.phase.terminal && input != [] {
      StepAccounted(cfg, st, input[0]);
      ReleasedAccounted(cfg, Step(cfg, st, input[0]));
      ReachedAccounted(cfg, Released(Step(cfg, st, input[0])), input[1..]);
    }
  }

  lemma ReleasedAccounted(cfg: Config, st: State)
    requires Accounted(cfg, st)
    ensures Accounted(cfg, Released(st))
  {
  }

  /** After any number of provider events, ended or not, failed or not: outputBytes
      is the retained text plus the argument bytes of all calls, the text and
      reasoning counters count what is retained, and every cap holds. Where the run
      stands is all that its future depends on. */
  lemma AlwaysAccounted(cfg: Config, input: seq<ProviderEvent>, n: nat)
    requires LimitsOk(cfg) && n <= |input|
    ensures var st := Reached(cfg, INITIAL, input[..n]).st;
      && st.budget.output == |st.transcript.assistant| + Weigh(st.calls, ArgumentBytes) <= cfg.maxOutput
      && st.budget.text == |st.transcript.assistant| <= cfg.maxText
      && st.budget.reasoning == |st.transcript.reasoning| <= cfg.maxReasoning
      && st.budget.aggregate <= cfg.maxAggregate
      && AllCapped(cfg, st.calls)
    ensures var here := Reached(cfg, INITIAL, input[..n]);
      Run(cfg, INITIAL, input) == var o := Run(cfg, here.st, input[n..]); Outcome(o.st, here.events + o.events)
  {
    var before, later := input[..n], input[n..];
    assert before + later == input;
    InitialAccounted(cfg);
    ReachedAccounted(cfg, INITIAL, before);
    RunResumes(cfg, INITIAL, before, later);
  }

  lemma InitialAccounted(cfg: Config)
    requires LimitsOk(cfg)
    ensures Accounted(cfg, INITIAL)
  {
    assert Weights(INITIAL.calls, ArgumentBytes) == map[];
  }
}
