/** Every run of the decoder releases a legal event stream within its budgets. */
module DecoderSafety {
  import opened Bridge
  import opened DecoderSpec
  import opened DecoderEffects
  import opened DecoderGuards
  import opened Protocol
  import opened Sums

  // ----- what the model takes from JSON decoding and from the tool declarations -----

  predicate FragmentOk(cfg: Config, t: ToolDelta) {
    cfg.utf8(t.arguments)
  }

  predicate ChoiceOk(cfg: Config, c: Choice) {
    cfg.utf8(c.content) && cfg.utf8(c.reasoning) && forall i :: 0 <= i < |c.tools| ==> FragmentOk(cfg, c.tools[i])
  }

  /** Content and arguments, being decoded from JSON, are UTF-8. */
  predicate InputOk(cfg: Config, input: seq<ProviderEvent>) {
    forall i :: 0 <= i < |input| && input[i].Data? ==>
      forall j :: 0 <= j < |input[i].chunk.choices| ==> ChoiceOk(cfg, input[i].chunk.choices[j])
  }

  /** Declared names pass the session's identifier check, ids fit it, and
      unwrapping a JSON string never lengthens it. */
  ghost predicate ConfigOk(cfg: Config) {
    && Utf8Facts(cfg.utf8)
    && cfg.maxAggregate >= 0 && cfg.maxOutput >= 0 && cfg.maxText >= 0 && cfg.maxReasoning >= 0 &&
      cfg.maxToolArguments >= 0
    && cfg.maxProviderId <= MAX_ID
    && (forall a :: a in cfg.allowed ==> ValidStreamValue(cfg.utf8, a, MAX_ID))
    && (forall a {:trigger cfg.unwrap(a)} :: cfg.utf8(a) && cfg.unwrap(a).Input? ==>
          cfg.utf8(cfg.unwrap(a).text) && |cfg.unwrap(a).text| <= |a|)
  }

  // ----- byte accounting over the reconstructed calls -----

  ghost function Weights(calls: map<ToolKey, Call>, w: Call -> nat): map<ToolKey, nat> {
    map k | k in calls :: w(calls[k])
  }

  ghost function Weigh(calls: map<ToolKey, Call>, w: Call -> nat): nat {
    Sum(Weights(calls, w))
  }

  lemma WeighUpdate(calls: map<ToolKey, Call>, key: ToolKey, call: Call, w: Call -> nat)
    ensures Weigh(calls[key := call], w) == Weigh(calls, w) - (if key in calls then w(calls[key]) else 0) + w(call)
  {
    assert Weights(calls[key := call], w) == Weights(calls, w)[key := w(call)];
    SumInsert(Weights(calls, w), key, w(call));
  }

  function ArgumentBytes(call: Call): nat {
    |call.arguments|
  }

  const UNKNOWN := Stage(KindUnset, None, false, false)

  /** A call before the terminal boundary. */
  predicate CallOk(cfg: Config, key: ToolKey, call: Call) {
    && key.choice >= 0 && key.tool >= 0
    && call.stage == UNKNOWN
    && Sized(call.callId)
    && cfg.utf8(call.arguments) && |call.arguments| <= cfg.maxToolArguments
  }

  predicate CallsOk(cfg: Config, calls: map<ToolKey, Call>) {
    forall k :: k in calls ==> CallOk(cfg, k, calls[k])
  }

  /** outputBytes is the retained text plus the argument bytes of all calls. */
  ghost predicate BudgetOk(cfg: Config, calls: map<ToolKey, Call>, b: Budget, t: Transcript) {
    && b.text == |t.assistant| <= cfg.maxText
    && b.reasoning == |t.reasoning| <= cfg.maxReasoning
    && b.output == |t.assistant| + Weigh(calls, ArgumentBytes) <= cfg.maxOutput
    && b.aggregate <= cfg.maxAggregate
  }

  /** The events released and queued so far are legal, and their totals agree with the budgets. */
  ghost predicate LogOk(cfg: Config, log: seq<Event>, calls: map<ToolKey, Call>, b: Budget, p: Phase) {
    && Watch(cfg.utf8, log).Some?
    && var m := Watch(cfg.utf8, log).value;
       && !m.ended && m.tools == map[] && m.open == p.started
       && m.totals.text == b.text && m.totals.reasoning == b.reasoning && m.totals.output == b.text
       && m.totals.cost + Weigh(calls, ArgumentBytes) <= b.aggregate
       && (p.finish != NoFinish ==> p.started) && !p.finalized && !p.toolTurn
  }

  /** The state between two chunks, and at every point inside one; log is all
      events so far, released and queued. */
  ghost predicate Streaming(cfg: Config, log: seq<Event>, st: State) {
    && CallsOk(cfg, st.calls)
    && BudgetOk(cfg, st.calls, st.budget, st.transcript)
    && LogOk(cfg, log, st.calls, st.budget, st.phase)
  }

  /** A fragment that opens a call brings an id the session accepts by length. */
  predicate IdFits(calls: map<ToolKey, Call>, key: ToolKey, tool: ToolDelta) {
    key in calls || |FirstCallId(key, tool)| <= MAX_ID
  }

  predicate IdsFit(calls: map<ToolKey, Call>, choice: int, tools: seq<ToolDelta>) {
    forall i :: 0 <= i < |tools| ==> IdFits(calls, ToolKey(choice, Index(tools[i])), tools[i])
  }

  // ----- one fragment -----

  lemma OpenCallStreaming(cfg: Config, log: seq<Event>, st: State, key: ToolKey, tool: ToolDelta)
    requires ConfigOk(cfg) && Streaming(cfg, log, st) && FragmentOk(cfg, tool)
    requires key.choice >= 0 && key.tool >= 0
    requires key in st.calls || |FirstCallId(key, tool)| <= MAX_ID
    requires OpenCall(cfg, true, st, key, tool).err == NoError
    ensures Streaming(cfg, log, OpenCall(cfg, true, st, key, tool).st)
  {
    if key !in st.calls {
      var call := Call(FirstCallId(key, tool), "", "", "", UNKNOWN);
      WeighUpdate(st.calls, key, call, ArgumentBytes);
      if tool.id == "" {
        SyntheticCallIdValid(cfg.utf8, key, MAX_ID);
      }
      assert CallOk(cfg, key, call);
    }
  }

  lemma ExtendIdStreaming(cfg: Config, log: seq<Event>, st: State, key: ToolKey, tool: ToolDelta)
    requires ConfigOk(cfg) && Streaming(cfg, log, st) && key in st.calls
    requires ExtendId(cfg, true, st, key, tool).err == NoError
    ensures var o := ExtendId(cfg, true, st, key, tool);
      && key in o.st.calls && o.st.calls[key].arguments == st.calls[key].arguments
      && Streaming(cfg, log, o.st)
  {
    var call := st.calls[key];
    WeighUpdate(st.calls, key, call.(providerId := MergeId(call.providerId, tool.id)), ArgumentBytes);
  }

  lemma NameStreaming(cfg: Config, log: seq<Event>, st: State, key: ToolKey, name: string)
    requires Streaming(cfg, log, st) && key in st.calls
    ensures Streaming(cfg, log, st.(calls := st.calls[key := st.calls[key].(name := name)]))
  {
    WeighUpdate(st.calls, key, st.calls[key].(name := name), ArgumentBytes);
  }

  lemma ExtendArgumentsStreaming(cfg: Config, log: seq<Event>, st: State, key: ToolKey, tool: ToolDelta)
    requires ConfigOk(cfg) && Streaming(cfg, log, st) && key in st.calls && FragmentOk(cfg, tool)
    requires ExtendArguments(cfg, st, key, tool).err == NoError
    ensures Streaming(cfg, log, ExtendArguments(cfg, st, key, tool).st)
  {
    var call := st.calls[key];
    var longer := call.(arguments := call.arguments + tool.arguments);
    WeighUpdate(st.calls, key, longer, ArgumentBytes);
    assert CallOk(cfg, key, longer);
  }

  lemma ConsumeToolStreaming(cfg: Config, log: seq<Event>, st: State, choice: int, tool: ToolDelta)
    requires ConfigOk(cfg) && Streaming(cfg, log, st) && FragmentOk(cfg, tool) && choice >= 0
    requires IdFits(st.calls, ToolKey(choice, Index(tool)), tool) && Index(tool) >= 0
    requires ConsumeTool(cfg, true, st, choice, tool).err == NoError
    ensures Streaming(cfg, log, ConsumeTool(cfg, true, st, choice, tool).st)
  {
    var key := ToolKey(choice, Index(tool));
    var o := OpenCall(cfg, true, st, key, tool);
    OpenCallStreaming(cfg, log, st, key, tool);
    ExtendCallStreaming(cfg, log, o.st, key, tool);
  }

  lemma ExtendCallStreaming(cfg: Config, log: seq<Event>, st: State, key: ToolKey, tool: ToolDelta)
    requires ConfigOk(cfg) && Streaming(cfg, log, st) && key in st.calls && FragmentOk(cfg, tool)
    requires ExtendCall(cfg, true, st, key, tool).err == NoError
    ensures Streaming(cfg, log, ExtendCall(cfg, true, st, key, tool).st)
  {
    var o := ExtendId(cfg, true, st, key, tool);
    ExtendIdStreaming(cfg, log, st, key, tool);
    var name := st.calls[key].name + tool.name;
    NameStreaming(cfg, log, o.st, key, name);
    ExtendArgumentsStreaming(cfg, log, o.st.(calls := o.st.calls[key := o.st.calls[key].(name := name)]), key, tool);
  }

  // ----- all fragments of one choice -----

  lemma {:induction false} ValidatedIdsFit(cfg: Config, calls: map<ToolKey, Call>, choice: int, tools: seq<ToolDelta>,
                                           seen: set<int>, newCalls: nat)
    requires ConfigOk(cfg)
    requires ValidateTools(cfg, calls, choice, tools, seen, newCalls).0 == NoError
    ensures IdsFit(calls, choice, tools)
    decreases |tools|
  {
    if tools != [] {
      var key := ToolKey(choice, tools[0].index.value);
      ValidateToolsStep(cfg, calls, choice, tools, seen, newCalls, key);
      ValidatedIdsFit(cfg, calls, choice, tools[1..], seen + {key.tool}, newCalls + if key in calls then 0 else 1);
      forall i | 0 <= i < |tools|
        ensures IdFits(calls, ToolKey(choice, Index(tools[i])), tools[i])
      {
        assert i > 0 ==> tools[i] == tools[1..][i - 1];
      }
    }
  }

  lemma {:induction false} ToolsStreaming(cfg: Config, log: seq<Event>, st: State, choice: int,
                                          tools: seq<ToolDelta>, seen: set<int>)
    requires ConfigOk(cfg) && Streaming(cfg, log, st) && choice >= 0
    requires IdsFit(st.calls, choice, tools)
    requires forall i :: 0 <= i < |tools| ==> FragmentOk(cfg, tools[i])
    requires ConsumeTools(cfg, true, st, choice, tools, seen).err == NoError
    ensures Streaming(cfg, log, ConsumeTools(cfg, true, st, choice, tools, seen).st)
    decreases |tools|
  {
    if tools != [] {
      var key := ToolKey(choice, Index(tools[0]));
      ConsumeToolsStep(cfg, true, st, choice, tools, seen, key);
      ConsumeToolStreaming(cfg, log, st, choice, tools[0]);
      ConsumeToolKeys(cfg, true, st, choice, tools[0], key);
      var st1 := ConsumeTool(cfg, true, st, choice, tools[0]).st;
      forall i | 0 <= i < |tools[1..]|
        ensures IdFits(st1.calls, ToolKey(choice, Index(tools[1..][i])), tools[1..][i])
      {
        assert IdFits(st.calls, ToolKey(choice, Index(tools[i + 1])), tools[i + 1]);
      }
      ToolsStreaming(cfg, log, st1, choice, tools[1..], seen + {key.tool});
    }
  }

  lemma {:induction false} ConsumeToolsKeys(cfg: Config, st: State, choice: int, tools: seq<ToolDelta>, seen: set<int>)
    requires ConsumeTools(cfg, true, st, choice, tools, seen).err == NoError
    ensures st.calls.Keys <= ConsumeTools(cfg, true, st, choice, tools, seen).st.calls.Keys
    decreases |tools|
  {
    if tools != [] {
      var key := ToolKey(choice, Index(tools[0]));
      ConsumeToolsStep(cfg, true, st, choice, tools, seen, key);
      ConsumeToolKeys(cfg, true, st, choice, tools[0], key);
      ConsumeToolsKeys(cfg, ConsumeTool(cfg, true, st, choice, tools[0]).st, choice, tools[1..], seen + {key.tool});
    }
  }

  // ----- one chunk -----

  lemma WatchQueued(cfg: Config, released: seq<Event>, pending: seq<Event>, e: Event)
    requires Watch(cfg.utf8, released + pending).Some? && Legal(cfg.utf8, Watch(cfg.utf8, released + pending).value, e)
    ensures Watch(cfg.utf8, released + (pending + [e])) == Some(Track(Watch(cfg.utf8, released + pending).value, e))
  {
    assert released + (pending + [e]) == (released + pending) + [e];
    WatchAppend(cfg.utf8, released + pending, e);
  }

  lemma AnnounceStreaming(cfg: Config, released: seq<Event>, st: State, chunk: Chunk)
    requires ConfigOk(cfg) && Streaming(cfg, released + st.pending, st)
    requires Announce(cfg, st, chunk).err == NoError
    ensures var o := Announce(cfg, st, chunk); Streaming(cfg, released + o.st.pending, o.st) && o.st.phase.started
  {
    if !st.phase.started {
      WatchQueued(cfg, released, st.pending, ResponseStarted(chunk.id, chunk.model));
    }
  }

  lemma ContentStreaming(cfg: Config, released: seq<Event>, st: State, c: Choice)
    requires ConfigOk(cfg) && Streaming(cfg, released + st.pending, st) && st.phase.started
    requires c.index >= 0 && cfg.utf8(c.content)
    requires ConsumeContent(cfg, st, c).err == NoError
    ensures var o := ConsumeContent(cfg, st, c);
      Streaming(cfg, released + o.st.pending, o.st) && o.st.phase == st.phase && o.st.calls == st.calls
  {
    if c.content != "" {
      WatchQueued(cfg, released, st.pending, TextDelta(c.index, c.content));
    }
  }

  lemma ReasoningStreaming(cfg: Config, released: seq<Event>, st: State, c: Choice)
    requires ConfigOk(cfg) && Streaming(cfg, released + st.pending, st) && st.phase.started
    requires c.index >= 0 && cfg.utf8(c.reasoning)
    requires ConsumeReasoning(cfg, st, c).err == NoError
    ensures var o := ConsumeReasoning(cfg, st, c);
      Streaming(cfg, released + o.st.pending, o.st) && o.st.phase == st.phase && o.st.calls == st.calls
  {
    if c.reasoning != "" {
      WatchQueued(cfg, released, st.pending, ReasoningDelta(c.index, c.reasoning));
    }
  }

  lemma UsageStreaming(cfg: Config, released: seq<Event>, st: State, chunk: Chunk)
    requires ConfigOk(cfg) && Streaming(cfg, released + st.pending, st) && st.phase.started
    requires ConsumeUsage(cfg, st, chunk).err == NoError
    ensures var o := ConsumeUsage(cfg, st, chunk); Streaming(cfg, released + o.st.pending, o.st)
  {
    if chunk.usage.Some? {
      WatchQueued(cfg, released, st.pending, UsageUpdated(chunk.usage.value));
    }
  }

  lemma ChoiceStreaming(cfg: Config, released: seq<Event>, st: State, c: Choice)
    requires ConfigOk(cfg) && Streaming(cfg, released + st.pending, st) && st.phase.started
    requires c.index >= 0 && ChoiceOk(cfg, c) && IdsFit(st.calls, c.index, c.tools)
    requires ConsumeChoice(cfg, true, st, c).err == NoError
    ensures var o := ConsumeChoice(cfg, true, st, c);
      && Streaming(cfg, released + o.st.pending, o.st) && o.st.phase.started
      && st.calls.Keys <= o.st.calls.Keys
  {
    var st0 := st.(phase := RecordFinish(st.phase, c.finish));
    var o := ConsumeContent(cfg, st0, c);
    ContentStreaming(cfg, released, st0, c);
    var o1 := ConsumeReasoning(cfg, o.st, c);
    ReasoningStreaming(cfg, released, o.st, c);
    ToolsStreaming(cfg, released + o1.st.pending, o1.st, c.index, c.tools, {});
    ConsumeToolsOutside(cfg, o1.st, c.index, c.tools, {});
    ConsumeToolsKeys(cfg, o1.st, c.index, c.tools, {});
  }

  predicate ChoicesFit(calls: map<ToolKey, Call>, choices: seq<Choice>) {
    forall j :: 0 <= j < |choices| ==> IdsFit(calls, choices[j].index, choices[j].tools)
  }

  lemma {:induction false} ValidatedChoicesFit(cfg: Config, calls: map<ToolKey, Call>, choices: seq<Choice>,
                                               seen: set<int>, newCalls: nat)
    requires ConfigOk(cfg)
    requires ValidateChoices(cfg, calls, choices, seen, newCalls).0 == NoError
    ensures ChoicesFit(calls, choices)
    decreases |choices|
  {
    if choices != [] {
      var c := choices[0];
      ValidatedIdsFit(cfg, calls, c.index, c.tools, {}, newCalls);
      ValidatedChoicesFit(cfg, calls, choices[1..], seen + {c.index},
        ValidateTools(cfg, calls, c.index, c.tools, {}, newCalls).1);
      forall j | 0 <= j < |choices|
        ensures IdsFit(calls, choices[j].index, choices[j].tools)
      {
        assert j > 0 ==> choices[j] == choices[1..][j - 1];
      }
    }
  }

  lemma FitMonotone(a: map<ToolKey, Call>, b: map<ToolKey, Call>, choices: seq<Choice>)
    requires a.Keys <= b.Keys && choices != [] && ChoicesFit(a, choices)
    ensures ChoicesFit(b, choices[1..])
  {
    forall j | 0 <= j < |choices[1..]|
      ensures IdsFit(b, choices[1..][j].index, choices[1..][j].tools)
    {
      var c := choices[j + 1];
      assert IdsFit(a, c.index, c.tools);
      forall i | 0 <= i < |c.tools|
        ensures IdFits(b, ToolKey(c.index, Index(c.tools[i])), c.tools[i])
      {
        assert IdFits(a, ToolKey(c.index, Index(c.tools[i])), c.tools[i]);
      }
    }
  }

  lemma {:induction false} ChoicesStreaming(cfg: Config, released: seq<Event>, st: State, choices: seq<Choice>,
                                            seen: set<int>)
    requires ConfigOk(cfg) && Streaming(cfg, released + st.pending, st) && st.phase.started
    requires ChoicesFit(st.calls, choices)
    requires forall j :: 0 <= j < |choices| ==> ChoiceOk(cfg, choices[j])
    requires ConsumeChoices(cfg, true, st, choices, seen).err == NoError
    ensures var o := ConsumeChoices(cfg, true, st, choices, seen);
      Streaming(cfg, released + o.st.pending, o.st) && o.st.phase.started
    decreases |choices|
  {
    if choices != [] {
      var o := ConsumeChoice(cfg, true, st, choices[0]);
      ChoiceStreaming(cfg, released, st, choices[0]);
      FitMonotone(st.calls, o.st.calls, choices);
      ChoicesStreaming(cfg, released, o.st, choices[1..], seen + {choices[0].index});
    }
  }

  lemma AdoptStreaming(cfg: Config, log: seq<Event>, st: State, chunk: Chunk)
    requires Streaming(cfg, log, st)
    ensures Streaming(cfg, log, AdoptModel(st, chunk))
  {
  }

  lemma ChunkStreaming(cfg: Config, released: seq<Event>, st: State, chunk: Chunk)
    requires ConfigOk(cfg) && Streaming(cfg, released + st.pending, st)
    requires forall j :: 0 <= j < |chunk.choices| ==> ChoiceOk(cfg, chunk.choices[j])
    requires ConsumeChunk(cfg, st, chunk).err == NoError
    ensures var o := ConsumeChunk(cfg, st, chunk); Streaming(cfg, released + o.st.pending, o.st)
  {
    ValidatedChoicesFit(cfg, st.calls, chunk.choices, {}, 0);
    var o := Announce(cfg, st, chunk);
    AnnounceStreaming(cfg, released, st, chunk);
    var st1 := AdoptModel(o.st, chunk);
    AdoptStreaming(cfg, released + o.st.pending, o.st, chunk);
    ChoicesStreaming(cfg, released, st1, chunk.choices, {});
    var o1 := ConsumeChoices(cfg, true, st1, chunk.choices, {});
    UsageStreaming(cfg, released, o1.st, chunk);
  }
}
