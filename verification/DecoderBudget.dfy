/** Every accepted chunk costs at least one event overhead, so even an endless
    upstream body is cut off by the aggregate budget. */
module DecoderBudget {
  import opened Bridge
  import opened DecoderGuards
  import opened DecoderRun
  import opened DecoderSpec

  /** The charge covers every newly queued event and stays within the limit. */
  predicate Charged(cfg: Config, a: State, b: State) {
    && (a.budget.aggregate <= cfg.maxAggregate ==> b.budget.aggregate <= cfg.maxAggregate)
    && |b.pending| >= |a.pending|
    && b.budget.aggregate >= a.budget.aggregate + OVERHEAD * (|b.pending| - |a.pending|)
  }

  lemma ExtendIdCharged(cfg: Config, st: State, key: ToolKey, tool: ToolDelta)
    requires key in st.calls
    ensures Charged(cfg, st, ExtendId(cfg, true, st, key, tool).st)
  {
  }

  lemma ConsumeToolCharged(cfg: Config, st: State, choice: int, tool: ToolDelta)
    requires ConsumeTool(cfg, true, st, choice, tool).err == NoError
    ensures Charged(cfg, st, ConsumeTool(cfg, true, st, choice, tool).st)
  {
    var key := ToolKey(choice, Index(tool));
    ExtendIdCharged(cfg, OpenCall(cfg, true, st, key, tool).st, key, tool);
  }

  lemma {:induction false} ConsumeToolsCharged(cfg: Config, st: State, choice: int, tools: seq<ToolDelta>,
                                               seen: set<int>)
    requires ConsumeTools(cfg, true, st, choice, tools, seen).err == NoError
    ensures Charged(cfg, st, ConsumeTools(cfg, true, st, choice, tools, seen).st)
    decreases |tools|
  {
    if tools != [] {
      ConsumeToolsStep(cfg, true, st, choice, tools, seen, ToolKey(choice, Index(tools[0])));
      ConsumeToolCharged(cfg, st, choice, tools[0]);
      ConsumeToolsCharged(cfg, ConsumeTool(cfg, true, st, choice, tools[0]).st, choice, tools[1..],
        seen + {Index(tools[0])});
    }
  }

  lemma ContentCharged(cfg: Config, st: State, c: Choice)
    ensures Charged(cfg, st, ConsumeContent(cfg, st, c).st) && Charged(cfg, st, ConsumeReasoning(cfg, st, c).st)
  {
  }

  lemma ConsumeChoiceCharged(cfg: Config, st: State, c: Choice)
    requires ConsumeChoice(cfg, true, st, c).err == NoError
    ensures Charged(cfg, st, ConsumeChoice(cfg, true, st, c).st)
  {
    var st0 := st.(phase := RecordFinish(st.phase, c.finish));
    var o := ConsumeContent(cfg, st0, c);
    ContentCharged(cfg, st0, c);
    ContentCharged(cfg, o.st, c);
    ConsumeToolsCharged(cfg, ConsumeReasoning(cfg, o.st, c).st, c.index, c.tools, {});
  }

  lemma {:induction false} ConsumeChoicesCharged(cfg: Config, st: State, choices: seq<Choice>, seen: set<int>)
    requires ConsumeChoices(cfg, true, st, choices, seen).err == NoError
    ensures Charged(cfg, st, ConsumeChoices(cfg, true, st, choices, seen).st)
    decreases |choices|
  {
    if choices != [] {
      ConsumeChoiceCharged(cfg, st, choices[0]);
      ConsumeChoicesCharged(cfg, ConsumeChoice(cfg, true, st, choices[0]).st, choices[1..], seen + {choices[0].index});
    }
  }

  lemma ConsumeChunkCharged(cfg: Config, st: State, chunk: Chunk)
    requires ConsumeChunk(cfg, st, chunk).err == NoError
    ensures Charged(cfg, st, ConsumeChunk(cfg, st, chunk).st)
  {
    ConsumeChoicesCharged(cfg, AdoptModel(Announce(cfg, st, chunk).st, chunk), chunk.choices, {});
  }

  /** An accepted chunk raises the aggregate by at least OVERHEAD. */
  lemma AcceptedChunkCost(cfg: Config, st: State, chunk: Chunk)
    requires st.pending == [] && !Step(cfg, st, Data(chunk)).phase.terminal
    ensures st.budget.aggregate <= cfg.maxAggregate ==> Step(cfg, st, Data(chunk)).budget.aggregate <= cfg.maxAggregate
    ensures Step(cfg, st, Data(chunk)).budget.aggregate >= st.budget.aggregate + OVERHEAD
  {
    ConsumeChunkCharged(cfg, st, chunk);
  }

  /** Chunks a run accepts before it ends or its input does. */
  ghost function Accepted(cfg: Config, st: State, input: seq<ProviderEvent>): nat
    decreases |input|
  {
    if st.phase.terminal || input == [] || Step(cfg, st, input[0]).phase.terminal then 0
    else 1 + Accepted(cfg, Released(Step(cfg, st, input[0])), input[1..])
  }

  lemma {:induction false} AcceptedBound(cfg: Config, st: State, input: seq<ProviderEvent>)
    requires st.pending == [] && st.budget.aggregate <= cfg.maxAggregate
    ensures OVERHEAD * Accepted(cfg, st, input) <= cfg.maxAggregate - st.budget.aggregate
    decreases |input|
  {
    if !(st.phase.terminal || input == [] || Step(cfg, st, input[0]).phase.terminal) {
      var st1 := Step(cfg, st, input[0]);
      AcceptedChunkCost(cfg, st, input[0].chunk);
      AcceptedBound(cfg, Released(st1), input[1..]);
    }
  }

  lemma RunStep(cfg: Config, st: State, first: ProviderEvent, rest: seq<ProviderEvent>, st1: State)
    requires !st.phase.terminal && st1 == Step(cfg, st, first)
    ensures Run(cfg, st, [first] + rest) ==
      var o := Run(cfg, Released(st1), rest); Outcome(o.st, st1.pending + o.events)
  {
    var input := [first] + rest;
    assert input[0] == first && input[1..] == rest;
  }

  lemma {:induction false} CutOff(cfg: Config, st: State, input: seq<ProviderEvent>, more: seq<ProviderEvent>)
    requires Accepted(cfg, st, input) < |input| && !st.phase.terminal
    ensures Run(cfg, st, input + more) == Run(cfg, st, input)
    decreases |input|, 0
  {
    var first, rest := input[0], input[1..];
    var st1 := Step(cfg, st, first);
    CutOffRest(cfg, st1, rest, more);
    RunStep(cfg, st, first, rest, st1);
    RunStep(cfg, st, first, rest + more, st1);
    assert [first] + rest == input && [first] + (rest + more) == input + more;
  }

  lemma {:induction false} CutOffRest(cfg: Config, st: State, rest: seq<ProviderEvent>, more: seq<ProviderEvent>)
    requires st.phase.terminal || Accepted(cfg, Released(st), rest) < |rest|
    ensures Run(cfg, Released(st), rest + more) == Run(cfg, Released(st), rest)
    decreases |rest|, 1
  {
    if !st.phase.terminal {
      CutOff(cfg, Released(st), rest, more);
    }
  }

  /** At most maxAggregate / OVERHEAD chunks are accepted; whatever the upstream
      sends after that many events cannot change the output. */
  lemma EndlessInputCutOff(cfg: Config, input: seq<ProviderEvent>, more: seq<ProviderEvent>)
    requires cfg.maxAggregate >= 0
    ensures OVERHEAD * Accepted(cfg, INITIAL, input) <= cfg.maxAggregate
    ensures OVERHEAD * |input| > cfg.maxAggregate ==> Output(cfg, input + more) == Output(cfg, input)
  {
    AcceptedBound(cfg, INITIAL, input);
    if OVERHEAD * |input| > cfg.maxAggregate {
      CutOff(cfg, INITIAL, input, more);
    }
  }
}
