/** What a chunk does when no limit stops it: the limit-free reconstruction that
    the budgeted decoder refines. */
module DecoderEffects {
  import opened Bridge
  import opened DecoderSpec
  import opened DecoderGuards

  datatype Fragment = Fragment(key: ToolKey, delta: ToolDelta)

  // ----- fragments and plain events of a chunk, in wire order -----

  function ToolFragments(choice: int, tools: seq<ToolDelta>): seq<Fragment> {
    if tools == [] then []
    else [Fragment(ToolKey(choice, Index(tools[0])), tools[0])] + ToolFragments(choice, tools[1..])
  }

  function ChoiceFragments(choices: seq<Choice>): seq<Fragment> {
    if choices == [] then []
    else ToolFragments(choices[0].index, choices[0].tools) + ChoiceFragments(choices[1..])
  }

  function ChoiceEvents(c: Choice): seq<Event> {
    (if c.content == "" then [] else [TextDelta(c.index, c.content)]) +
    (if c.reasoning == "" then [] else [ReasoningDelta(c.index, c.reasoning)])
  }

  function ChoicesEvents(choices: seq<Choice>): seq<Event> {
    if choices == [] then [] else ChoiceEvents(choices[0]) + ChoicesEvents(choices[1..])
  }

  function ChunkEvents(first: bool, chunk: Chunk): seq<Event> {
    (if first then [ResponseStarted(chunk.id, chunk.model)] else []) +
    ChoicesEvents(chunk.choices) +
    (if chunk.usage.Some? then [UsageUpdated(chunk.usage.value)] else [])
  }

  // ----- reconstruction without limits -----

  function FreshCall(f: Fragment): Call {
    Call(FirstCallId(f.key, f.delta), "", "", "", Stage(KindUnset, None, false, false))
  }

  function Extended(call: Call, d: ToolDelta): Call {
    call.(providerId := MergeId(call.providerId, d.id), name := call.name + d.name,
      arguments := call.arguments + d.arguments)
  }

  function ApplyFragment(calls: map<ToolKey, Call>, f: Fragment): map<ToolKey, Call> {
    calls[f.key := Extended(if f.key in calls then calls[f.key] else FreshCall(f), f.delta)]
  }

  function Apply(calls: map<ToolKey, Call>, fs: seq<Fragment>): map<ToolKey, Call>
    decreases |fs|
  {
    if fs == [] then calls else Apply(ApplyFragment(calls, fs[0]), fs[1..])
  }

  lemma {:induction false} ApplyConcat(calls: map<ToolKey, Call>, a: seq<Fragment>, b: seq<Fragment>)
    ensures Apply(calls, a + b) == Apply(Apply(calls, a), b)
    decreases |a|
  {
    if a == [] {
      assert a + b == b;
    } else {
      assert (a + b)[1..] == a[1..] + b;
      ApplyConcat(ApplyFragment(calls, a[0]), a[1..], b);
    }
  }

  // ----- the budgeted decoder refines it -----

  lemma ExtendIdEffect(cfg: Config, st: State, key: ToolKey, tool: ToolDelta)
    requires key in st.calls && ExtendId(cfg, true, st, key, tool).err == NoError
    ensures ExtendId(cfg, true, st, key, tool).st.calls
         == st.calls[key := st.calls[key].(providerId := MergeId(st.calls[key].providerId, tool.id))]
  {
    assert tool.id == "" ==> st.calls == st.calls[key := st.calls[key]];
  }

  lemma ExtendCallEffect(cfg: Config, st: State, key: ToolKey, tool: ToolDelta)
    requires key in st.calls && ExtendCall(cfg, true, st, key, tool).err == NoError
    ensures ExtendCall(cfg, true, st, key, tool).st.calls == st.calls[key := Extended(st.calls[key], tool)]
  {
    ExtendIdEffect(cfg, st, key, tool);
  }

  lemma ConsumeToolEffect(cfg: Config, st: State, choice: int, tool: ToolDelta)
    requires ConsumeTool(cfg, true, st, choice, tool).err == NoError
    ensures ConsumeTool(cfg, true, st, choice, tool).st.calls
         == ApplyFragment(st.calls, Fragment(ToolKey(choice, Index(tool)), tool))
  {
    var key := ToolKey(choice, Index(tool));
    ExtendCallEffect(cfg, OpenCall(cfg, true, st, key, tool).st, key, tool);
  }

  lemma {:induction false} ConsumeToolsEffect(cfg: Config, st: State, choice: int, tools: seq<ToolDelta>,
                                              seen: set<int>)
    requires ConsumeTools(cfg, true, st, choice, tools, seen).err == NoError
    ensures ConsumeTools(cfg, true, st, choice, tools, seen).st.calls == Apply(st.calls, ToolFragments(choice, tools))
    decreases |tools|
  {
    if tools != [] {
      var key := ToolKey(choice, Index(tools[0]));
      ConsumeToolsStep(cfg, true, st, choice, tools, seen, key);
      ConsumeToolEffect(cfg, st, choice, tools[0]);
      ConsumeToolsEffect(cfg, ConsumeTool(cfg, true, st, choice, tools[0]).st, choice, tools[1..], seen + {key.tool});
      assert ToolFragments(choice, tools)[1..] == ToolFragments(choice, tools[1..]);
    }
  }

  /** Fragments change calls and budgets, nothing else. */
  predicate SameOutside(a: State, b: State) {
    a.pending == b.pending && a.phase == b.phase && a.transcript == b.transcript && a.choiceFinish == b.choiceFinish
  }

  lemma ConsumeToolOutside(cfg: Config, st: State, choice: int, tool: ToolDelta)
    ensures SameOutside(ConsumeTool(cfg, true, st, choice, tool).st, st)
  {
    var key := ToolKey(choice, Index(tool));
    var o := OpenCall(cfg, true, st, key, tool);
    assert SameOutside(o.st, st);
    if o.err == NoError {
      assert SameOutside(ExtendId(cfg, true, o.st, key, tool).st, st);
    }
  }

  lemma {:induction false} ConsumeToolsOutside(cfg: Config, st: State, choice: int, tools: seq<ToolDelta>,
                                               seen: set<int>)
    ensures SameOutside(ConsumeTools(cfg, true, st, choice, tools, seen).st, st)
    decreases |tools|
  {
    if tools != [] {
      var o := ConsumeTool(cfg, true, st, choice, tools[0]);
      ConsumeToolOutside(cfg, st, choice, tools[0]);
      ConsumeToolsOutside(cfg, o.st, choice, tools[1..], seen + {Index(tools[0])});
    }
  }

  lemma ContentEffect(cfg: Config, st: State, c: Choice)
    requires ConsumeContent(cfg, st, c).err == NoError
    requires ConsumeReasoning(cfg, ConsumeContent(cfg, st, c).st, c).err == NoError
    ensures var o := ConsumeReasoning(cfg, ConsumeContent(cfg, st, c).st, c);
      && o.st.calls == st.calls && o.st.phase == st.phase
      && o.st.pending == st.pending + ChoiceEvents(c)
      && o.st.transcript == st.transcript.(assistant := st.transcript.assistant + c.content,
                                           reasoning := st.transcript.reasoning + c.reasoning)
  {
  }

  /** The fragments rebuilt and the events queued between two states. */
  predicate Consumed(a: State, b: State, fragments: seq<Fragment>, events: seq<Event>) {
    b.calls == Apply(a.calls, fragments) && b.pending == a.pending + events && b.phase.started == a.phase.started
  }

  lemma ConsumedTwice(a: State, b: State, c: State, f: seq<Fragment>, e: seq<Event>, g: seq<Fragment>, d: seq<Event>)
    requires Consumed(a, b, f, e) && Consumed(b, c, g, d)
    ensures Consumed(a, c, f + g, e + d)
  {
    ApplyConcat(a.calls, f, g);
  }

  lemma ConsumeChoiceEffect(cfg: Config, st: State, c: Choice)
    requires ConsumeChoice(cfg, true, st, c).err == NoError
    ensures Consumed(st, ConsumeChoice(cfg, true, st, c).st, ToolFragments(c.index, c.tools), ChoiceEvents(c))
  {
    var st0 := st.(phase := RecordFinish(st.phase, c.finish));
    ContentEffect(cfg, st0, c);
    var o1 := ConsumeReasoning(cfg, ConsumeContent(cfg, st0, c).st, c);
    ConsumeToolsEffect(cfg, o1.st, c.index, c.tools, {});
    ConsumeToolsOutside(cfg, o1.st, c.index, c.tools, {});
  }

  lemma {:induction false} ConsumeChoicesEffect(cfg: Config, st: State, choices: seq<Choice>, seen: set<int>)
    requires ConsumeChoices(cfg, true, st, choices, seen).err == NoError
    ensures Consumed(st, ConsumeChoices(cfg, true, st, choices, seen).st, ChoiceFragments(choices),
      ChoicesEvents(choices))
    decreases |choices|
  {
    if choices != [] {
      var c, rest, seen1 := choices[0], choices[1..], seen + {choices[0].index};
      var o := ConsumeChoice(cfg, true, st, c);
      ConsumeChoiceEffect(cfg, st, c);
      ConsumeChoicesEffect(cfg, o.st, rest, seen1);
      ConsumedTwice(st, o.st, ConsumeChoices(cfg, true, o.st, rest, seen1).st,
        ToolFragments(c.index, c.tools), ChoiceEvents(c), ChoiceFragments(rest), ChoicesEvents(rest));
    }
  }

  lemma AnnounceEffect(cfg: Config, st: State, chunk: Chunk)
    requires Announce(cfg, st, chunk).err == NoError
    ensures var st1 := AdoptModel(Announce(cfg, st, chunk).st, chunk);
      && st1.calls == st.calls && st1.phase.started
      && st1.pending == st.pending + (if st.phase.started then [] else [ResponseStarted(chunk.id, chunk.model)])
  {
  }

  lemma UsageEffect(cfg: Config, st: State, chunk: Chunk)
    requires ConsumeUsage(cfg, st, chunk).err == NoError
    ensures var o := ConsumeUsage(cfg, st, chunk);
      && o.st.calls == st.calls && o.st.phase == st.phase
      && o.st.pending == st.pending + (if chunk.usage.Some? then [UsageUpdated(chunk.usage.value)] else [])
  {
  }

  /** An accepted chunk adds exactly its own fragments ... */
  lemma ConsumeChunkCalls(cfg: Config, st: State, chunk: Chunk)
    requires ConsumeChunk(cfg, st, chunk).err == NoError
    ensures var o := ConsumeChunk(cfg, st, chunk);
      o.st.calls == Apply(st.calls, ChoiceFragments(chunk.choices)) && o.st.phase.started
  {
    var st1 := AdoptModel(Announce(cfg, st, chunk).st, chunk);
    AnnounceEffect(cfg, st, chunk);
    ConsumeChoicesEffect(cfg, st1, chunk.choices, {});
    UsageEffect(cfg, ConsumeChoices(cfg, true, st1, chunk.choices, {}).st, chunk);
  }

  lemma Regroup<T>(p: seq<T>, a: seq<T>, b: seq<T>, c: seq<T>)
    ensures ((p + a) + b) + c == p + (a + b + c)
  {
  }

  /** ... and queues exactly its own events. */
  lemma ConsumeChunkEvents(cfg: Config, st: State, chunk: Chunk)
    requires ConsumeChunk(cfg, st, chunk).err == NoError
    ensures ConsumeChunk(cfg, st, chunk).st.pending == st.pending + ChunkEvents(!st.phase.started, chunk)
  {
    var st1 := AdoptModel(Announce(cfg, st, chunk).st, chunk);
    AnnounceEffect(cfg, st, chunk);
    var o := ConsumeChoices(cfg, true, st1, chunk.choices, {});
    ConsumeChoicesEffect(cfg, st1, chunk.choices, {});
    UsageEffect(cfg, o.st, chunk);
    var a := if st.phase.started then [] else [ResponseStarted(chunk.id, chunk.model)];
    var c := if chunk.usage.Some? then [UsageUpdated(chunk.usage.value)] else [];
    Regroup(st.pending, a, ChoicesEvents(chunk.choices), c);
    assert ConsumeChunk(cfg, st, chunk) == ConsumeUsage(cfg, o.st, chunk);
  }

  // ----- the retained transcript -----

  function ContentText(choices: seq<Choice>): string {
    if choices == [] then "" else choices[0].content + ContentText(choices[1..])
  }

  function ReasoningText(choices: seq<Choice>): string {
    if choices == [] then "" else choices[0].reasoning + ReasoningText(choices[1..])
  }

  lemma ConsumeChoiceTranscript(cfg: Config, st: State, c: Choice)
    requires ConsumeChoice(cfg, true, st, c).err == NoError
    ensures var t := ConsumeChoice(cfg, true, st, c).st.transcript;
      && t.assistant == st.transcript.assistant + c.content
      && t.reasoning == st.transcript.reasoning + c.reasoning
  {
    var st0 := st.(phase := RecordFinish(st.phase, c.finish));
    ContentEffect(cfg, st0, c);
    ConsumeToolsOutside(cfg, ConsumeReasoning(cfg, ConsumeContent(cfg, st0, c).st, c).st, c.index, c.tools, {});
  }

  lemma {:induction false} ConsumeChoicesContent(cfg: Config, st: State, choices: seq<Choice>, seen: set<int>)
    requires ConsumeChoices(cfg, true, st, choices, seen).err == NoError
    ensures ConsumeChoices(cfg, true, st, choices, seen).st.transcript.assistant ==
      st.transcript.assistant + ContentText(choices)
    decreases |choices|
  {
    if choices != [] {
      var st1 := ConsumeChoice(cfg, true, st, choices[0]).st;
      ConsumeChoiceTranscript(cfg, st, choices[0]);
      ConsumeChoicesContent(cfg, st1, choices[1..], seen + {choices[0].index});
      Glue(st.transcript.assistant, choices[0].content, ContentText(choices[1..]));
    }
  }

  lemma {:induction false} ConsumeChoicesReasoning(cfg: Config, st: State, choices: seq<Choice>, seen: set<int>)
    requires ConsumeChoices(cfg, true, st, choices, seen).err == NoError
    ensures ConsumeChoices(cfg, true, st, choices, seen).st.transcript.reasoning ==
      st.transcript.reasoning + ReasoningText(choices)
    decreases |choices|
  {
    if choices != [] {
      var st1 := ConsumeChoice(cfg, true, st, choices[0]).st;
      ConsumeChoiceTranscript(cfg, st, choices[0]);
      ConsumeChoicesReasoning(cfg, st1, choices[1..], seen + {choices[0].index});
      Glue(st.transcript.reasoning, choices[0].reasoning, ReasoningText(choices[1..]));
    }
  }

  lemma Glue<T>(a: seq<T>, b: seq<T>, c: seq<T>)
    ensures a + (b + c) == (a + b) + c
  {
  }

  lemma AnnounceTranscript(cfg: Config, st: State, chunk: Chunk)
    ensures var t := AdoptModel(Announce(cfg, st, chunk).st, chunk).transcript;
      t.assistant == st.transcript.assistant && t.reasoning == st.transcript.reasoning
  {
  }

  lemma UsageTranscript(cfg: Config, st: State, chunk: Chunk)
    ensures ConsumeUsage(cfg, st, chunk).st.transcript == st.transcript
  {
  }

  lemma ConsumeChunkTranscript(cfg: Config, st: State, chunk: Chunk)
    requires ConsumeChunk(cfg, st, chunk).err == NoError
    ensures var t := ConsumeChunk(cfg, st, chunk).st.transcript;
      && t.assistant == st.transcript.assistant + ContentText(chunk.choices)
      && t.reasoning == st.transcript.reasoning + ReasoningText(chunk.choices)
  {
    var st1 := AdoptModel(Announce(cfg, st, chunk).st, chunk);
    AnnounceTranscript(cfg, st, chunk);
    var o := ConsumeChoices(cfg, true, st1, chunk.choices, {});
    ConsumeChoicesContent(cfg, st1, chunk.choices, {});
    ConsumeChoicesReasoning(cfg, st1, chunk.choices, {});
    UsageTranscript(cfg, o.st, chunk);
    assert ConsumeChunk(cfg, st, chunk) == ConsumeUsage(cfg, o.st, chunk);
  }

  // ----- a reconstructed call is the join of its fragments -----

  /** The fragments of one call, in order of arrival. */
  function Pieces(fs: seq<Fragment>, key: ToolKey): seq<ToolDelta> {
    if fs == [] then []
    else if fs[0].key == key then [fs[0].delta] + Pieces(fs[1..], key)
    else Pieces(fs[1..], key)
  }

  function JoinNames(ds: seq<ToolDelta>): string {
    if ds == [] then "" else ds[0].name + JoinNames(ds[1..])
  }

  function JoinArguments(ds: seq<ToolDelta>): string {
    if ds == [] then "" else ds[0].arguments + JoinArguments(ds[1..])
  }

  lemma {:induction false} ApplyExtends(calls: map<ToolKey, Call>, fs: seq<Fragment>, key: ToolKey)
    requires key in calls
    ensures var r := Apply(calls, fs);
      && key in r && r[key].callId == calls[key].callId
      && r[key].name == calls[key].name + JoinNames(Pieces(fs, key))
      && r[key].arguments == calls[key].arguments + JoinArguments(Pieces(fs, key))
    decreases |fs|
  {
    if fs != [] {
      var rest := Pieces(fs[1..], key);
      var d := fs[0].delta;
      ApplyExtends(ApplyFragment(calls, fs[0]), fs[1..], key);
      if fs[0].key == key {
        assert ([d] + rest)[1..] == rest;
        assert (calls[key].name + d.name) + JoinNames(rest) == calls[key].name + (d.name + JoinNames(rest));
        assert (calls[key].arguments + d.arguments) + JoinArguments(rest) ==
          calls[key].arguments + (d.arguments + JoinArguments(rest));
      }
    }
  }

  /** A call exists exactly if it has a fragment; its name and arguments are the
      in-order concatenation of its fragments, whatever came between them, and
      its id is the first fragment's id or the synthetic one. */
  lemma {:induction false} CallIsJoinOfPieces(calls: map<ToolKey, Call>, fs: seq<Fragment>, key: ToolKey)
    requires key !in calls
    ensures var r, ds := Apply(calls, fs), Pieces(fs, key);
      && (key in r <==> ds != [])
      && (ds != [] ==> r[key].callId == FirstCallId(key, ds[0]))
      && (ds != [] ==> r[key].name == JoinNames(ds))
      && (ds != [] ==> r[key].arguments == JoinArguments(ds))
    decreases |fs|
  {
    if fs != [] {
      var rest := Pieces(fs[1..], key);
      var calls1 := ApplyFragment(calls, fs[0]);
      if fs[0].key == key {
        var d := fs[0].delta;
        assert ([d] + rest)[1..] == rest;
        ApplyExtends(calls1, fs[1..], key);
        assert "" + d.name == d.name && "" + d.arguments == d.arguments;
      } else {
        CallIsJoinOfPieces(calls1, fs[1..], key);
      }
    }
  }
}
