/** The tool-turn decoder as functions on values: provider stream events in,
    semantic events out, under the byte budgets of BridgeStreamDecoder.
    Every function returns the state it leaves behind together with the error,
    because a failing step keeps what it had already changed. */
module DecoderSpec {
  import opened Bridge

  // ----- provider input -----

  datatype FinishReason = NoFinish | ToolCalls | Stop | Length | ContentFilter | Refusal | OtherFinish(text: string)

  datatype ToolDelta = ToolDelta(index: Option<int>, id: string, typ: string, name: string, arguments: string)

  /** An absent and an empty content or finish reason are treated alike by the source. */
  datatype Choice = Choice(index: int, finish: FinishReason, content: string, reasoning: string, tools: seq<ToolDelta>)

  datatype Chunk = Chunk(id: string, model: string, choices: seq<Choice>, usage: Option<Usage>)

  datatype ReadError = SseLimit | ReadCanceled | ReadTimeout | ReadInterrupted | Undecodable

  datatype ProviderEvent = Data(chunk: Chunk) | ProviderDone | ProviderError | NoChunk | ReadFailed(cause: ReadError)

  // ----- configuration and state -----

  datatype Unwrapped = Input(text: string) | MalformedWrapper | InputTooLong

  datatype Config = Config(
    maxAggregate: int, maxToolCalls: int, maxChoices: int, maxToolName: int, maxProviderId: int,
    maxToolArguments: int, maxOutput: int, maxText: int, maxReasoning: int,
    allowed: set<string>, registry: map<string, Registration>, unwrap: string -> Unwrapped, utf8: Utf8Test)

  /** What becomes known about a call only at the terminal boundary. */
  datatype Stage = Stage(kind: ToolKind, registration: Option<Registration>, started: bool, completed: bool)

  datatype Call = Call(callId: string, providerId: string, name: string, arguments: string, stage: Stage)

  datatype Error =
    | NoError | Malformed | AggregateLimit | ArgumentLimit | CallLimit | MetadataLimit
    | Undeclared | CustomMalformed | PatchLimit

  datatype Budget = Budget(aggregate: int, output: int, text: int, reasoning: int)

  datatype Phase = Phase(started: bool, terminal: bool, finish: FinishReason, conflict: bool,
                         finalized: bool, toolTurn: bool)

  datatype Transcript = Transcript(model: string, assistant: string, reasoning: string)

  datatype State = State(pending: seq<Event>, calls: map<ToolKey, Call>, budget: Budget, phase: Phase,
                         transcript: Transcript, choiceFinish: map<int, FinishReason>)

  datatype Out = Out(st: State, err: Error)

  const INITIAL := State([], map[], Budget(0, 0, 0, 0), Phase(false, false, NoFinish, false, false, false),
                         Transcript("", "", ""), map[])

  const OVERHEAD := 64

  // ----- budgets -----

  predicate CanQueue(cfg: Config, aggregate: int, payload: int) {
    && payload >= 0 && OVERHEAD <= cfg.maxAggregate && payload <= cfg.maxAggregate - OVERHEAD
    && aggregate <= cfg.maxAggregate - (OVERHEAD + payload)
  }

  function Charge(b: Budget, bytes: int): Budget {
    b.(aggregate := b.aggregate + bytes)
  }

  function Queue(cfg: Config, st: State, e: Event, payload: int): Out {
    if !CanQueue(cfg, st.budget.aggregate, payload) then Out(st, AggregateLimit)
    else Out(st.(budget := Charge(st.budget, OVERHEAD + payload), pending := st.pending + [e]), NoError)
  }

  function Reserve(cfg: Config, st: State, bytes: int): Out {
    if bytes < 0 || st.budget.aggregate > cfg.maxAggregate - bytes then Out(st, AggregateLimit)
    else Out(st.(budget := Charge(st.budget, bytes)), NoError)
  }

  // ----- provider ids and names -----

  function MergeId(current: string, fragment: string): string {
    if fragment == "" then current
    else if current == "" then fragment
    else if current == fragment then current
    else if current <= fragment then fragment
    else current + fragment
  }

  function IdGrowth(current: string, fragment: string): (n: int)
    ensures n == |MergeId(current, fragment)| - |current|
  {
    if fragment == "" then 0
    else if current == "" then |fragment|
    else if current == fragment then 0
    else if current <= fragment then |fragment| - |current|
    else |fragment|
  }

  /** A fragmented name may stay buffered while some declared name extends it. */
  predicate Declarable(cfg: Config, name: string) {
    name == "" || name in cfg.allowed || exists a :: a in cfg.allowed && name <= a
  }

  const APPLY_PATCH_UPSTREAM := "__ocg_apply_patch"
  const APPLY_PATCH_WRAPPER := "input"

  predicate ValidRegistration(r: Registration) {
    r == Registration(KindCustom, APPLY_PATCH, APPLY_PATCH_UPSTREAM, APPLY_PATCH_WRAPPER)
  }

  function CustomRegistration(cfg: Config, name: string): Option<Registration> {
    if name in cfg.registry && ValidRegistration(cfg.registry[name]) then Some(cfg.registry[name]) else None
  }

  function FirstCallId(key: ToolKey, tool: ToolDelta): string {
    if tool.id == "" then SyntheticCallId(key) else tool.id
  }

  function Index(tool: ToolDelta): int {
    if tool.index.Some? then tool.index.value else -1
  }

  // ----- pre-validation of one chunk -----

  /** What the walk over a chunk has seen: the error, or the number of new calls. */
  function ValidateTools(cfg: Config, calls: map<ToolKey, Call>, choice: int, tools: seq<ToolDelta>,
                         seen: set<int>, newCalls: nat): (r: (Error, nat))
    ensures r.1 >= newCalls
  {
    if tools == [] then (NoError, newCalls)
    else
      var tool := tools[0];
      if tool.index.None? || tool.index.value < 0 then (Malformed, newCalls)
      else if tool.typ != "" && tool.typ != "function" then (Malformed, newCalls)
      else if tool.index.value >= cfg.maxToolCalls then (CallLimit, newCalls)
      else if tool.index.value in seen then (Malformed, newCalls)
      else
        var key := ToolKey(choice, tool.index.value);
        if key in calls then
          if |tool.name| > cfg.maxToolName - |calls[key].name| then (MetadataLimit, newCalls)
          else if IdGrowth(calls[key].providerId, tool.id) > cfg.maxProviderId - |calls[key].providerId|
            then (MetadataLimit, newCalls)
          else ValidateTools(cfg, calls, choice, tools[1..], seen + {tool.index.value}, newCalls)
        else if |FirstCallId(key, tool)| > cfg.maxProviderId || |tool.id| > cfg.maxProviderId ||
          |tool.name| > cfg.maxToolName
          then (MetadataLimit, newCalls)
        else ValidateTools(cfg, calls, choice, tools[1..], seen + {tool.index.value}, newCalls + 1)
  }

  function ValidateChoices(cfg: Config, calls: map<ToolKey, Call>, choices: seq<Choice>, seen: set<int>,
                           newCalls: nat): (r: (Error, nat))
    ensures r.1 >= newCalls
  {
    if choices == [] then (NoError, newCalls)
    else
      var c := choices[0];
      if c.index < 0 then (Malformed, newCalls)
      else if c.index >= cfg.maxChoices then (CallLimit, newCalls)
      else if c.index in seen then (Malformed, newCalls)
      else if |c.tools| > cfg.maxToolCalls then (CallLimit, newCalls)
      else
        var r := ValidateTools(cfg, calls, c.index, c.tools, {}, newCalls);
        if r.0 != NoError then r
        else ValidateChoices(cfg, calls, choices[1..], seen + {c.index}, r.1)
  }

  function ValidateChunk(cfg: Config, calls: map<ToolKey, Call>, chunk: Chunk): Error {
    if |chunk.choices| > cfg.maxChoices then CallLimit
    else
      var r := ValidateChoices(cfg, calls, chunk.choices, {}, 0);
      if r.0 != NoError then r.0
      else if r.1 > cfg.maxToolCalls - |calls| then CallLimit
      else NoError
  }

  // ----- consumption of one chunk -----
  // With guarded == false the checks that repeat the pre-validation are dropped.

  function OpenCall(cfg: Config, guarded: bool, st: State, key: ToolKey, tool: ToolDelta): Out {
    if key in st.calls then Out(st, NoError)
    else if guarded && |st.calls| >= cfg.maxToolCalls then Out(st, CallLimit)
    else if guarded && (|tool.id| > cfg.maxProviderId || |tool.name| > cfg.maxToolName) then Out(st, MetadataLimit)
    else
      var call := Call(FirstCallId(key, tool), "", "", "", Stage(KindUnset, None, false, false));
      Out(st.(calls := st.calls[key := call]), NoError)
  }

  function ExtendId(cfg: Config, guarded: bool, st: State, key: ToolKey, tool: ToolDelta): Out
    requires key in st.calls
  {
    if tool.id == "" then Out(st, NoError)
    else
      var call := st.calls[key];
      var growth := IdGrowth(call.providerId, tool.id);
      if guarded && growth > cfg.maxProviderId - |call.providerId| then Out(st, MetadataLimit)
      else
        var o := Reserve(cfg, st, growth);
        if o.err != NoError then o
        else Out(o.st.(calls := o.st.calls[key := call.(providerId := MergeId(call.providerId, tool.id))]), NoError)
  }

  function ExtendArguments(cfg: Config, st: State, key: ToolKey, tool: ToolDelta): Out
    requires key in st.calls
  {
    var call := st.calls[key];
    if |tool.arguments| > cfg.maxToolArguments - |call.arguments| then Out(st, ArgumentLimit)
    else if |tool.arguments| > cfg.maxOutput - st.budget.output then Out(st, AggregateLimit)
    else
      var o := Reserve(cfg, st, |tool.arguments|);
      if o.err != NoError then o
      else Out(o.st.(calls := o.st.calls[key := call.(arguments := call.arguments + tool.arguments)],
                     budget := o.st.budget.(output := o.st.budget.output + |tool.arguments|)), NoError)
  }

  function ExtendCall(cfg: Config, guarded: bool, st: State, key: ToolKey, tool: ToolDelta): (o: Out)
    requires key in st.calls
  {
    var call := st.calls[key];
    if guarded && |tool.name| > cfg.maxToolName - |call.name| then Out(st, MetadataLimit)
    else if !Declarable(cfg, call.name + tool.name) then Out(st, Undeclared)
    else
      var o := ExtendId(cfg, guarded, st, key, tool);
      if o.err != NoError then o
      else
        var named := o.st.calls[key].(name := call.name + tool.name);
        ExtendArguments(cfg, o.st.(calls := o.st.calls[key := named]), key, tool)
  }

  function ConsumeTool(cfg: Config, guarded: bool, st: State, choice: int, tool: ToolDelta): Out {
    if guarded && (tool.index.None? || tool.index.value < 0) then Out(st, Malformed)
    else if guarded && tool.typ != "" && tool.typ != "function" then Out(st, Malformed)
    else if guarded && Index(tool) >= cfg.maxToolCalls then Out(st, CallLimit)
    else
      var key := ToolKey(choice, Index(tool));
      var o := OpenCall(cfg, guarded, st, key, tool);
      if o.err != NoError then o else ExtendCall(cfg, guarded, o.st, key, tool)
  }

  function ConsumeTools(cfg: Config, guarded: bool, st: State, choice: int, tools: seq<ToolDelta>, seen: set<int>): Out
    decreases |tools|
  {
    if tools == [] then Out(st, NoError)
    else if guarded && (tools[0].index.None? || tools[0].index.value < 0) then Out(st, Malformed)
    else if guarded && Index(tools[0]) in seen then Out(st, Malformed)
    else
      var o := ConsumeTool(cfg, guarded, st, choice, tools[0]);
      if o.err != NoError then o
      else ConsumeTools(cfg, guarded, o.st, choice, tools[1..], seen + {Index(tools[0])})
  }

  /** A choice that already finished accepts only further fragments of calls it knows. */
  predicate LateChoiceAllowed(cfg: Config, st: State, c: Choice) {
    c.index in st.choiceFinish ==>
      && (c.finish == NoFinish || c.finish == st.choiceFinish[c.index])
      && st.choiceFinish[c.index] == ToolCalls
      && c.content == "" && c.reasoning == ""
      && forall i :: 0 <= i < |c.tools| ==> Index(c.tools[i]) >= 0 && ToolKey(c.index, Index(c.tools[i])) in st.calls
  }

  function RecordFinish(p: Phase, reason: FinishReason): Phase {
    if reason == NoFinish then p
    else if p.finish == NoFinish then p.(finish := reason)
    else if p.finish != reason then p.(conflict := true)
    else p
  }

  function ConsumeContent(cfg: Config, st: State, c: Choice): Out {
    if c.content == "" then Out(st, NoError)
    else if |c.content| > cfg.maxText - st.budget.text || |c.content| > cfg.maxOutput - st.budget.output
      then Out(st, AggregateLimit)
    else
      var o := Queue(cfg, st, TextDelta(c.index, c.content), |c.content|);
      if o.err != NoError then o
      else Out(o.st.(transcript := o.st.transcript.(assistant := o.st.transcript.assistant + c.content),
                     budget := o.st.budget.(text := o.st.budget.text + |c.content|,
                                            output := o.st.budget.output + |c.content|)), NoError)
  }

  function ConsumeReasoning(cfg: Config, st: State, c: Choice): Out {
    if c.reasoning == "" then Out(st, NoError)
    else if |c.reasoning| > cfg.maxReasoning - st.budget.reasoning then Out(st, AggregateLimit)
    else
      var o := Queue(cfg, st, ReasoningDelta(c.index, c.reasoning), |c.reasoning|);
      if o.err != NoError then o
      else Out(o.st.(transcript := o.st.transcript.(reasoning := o.st.transcript.reasoning + c.reasoning),
                     budget := o.st.budget.(reasoning := o.st.budget.reasoning + |c.reasoning|)), NoError)
  }

  function CloseChoice(st: State, c: Choice): State {
    if c.finish == NoFinish then st else st.(choiceFinish := st.choiceFinish[c.index := c.finish])
  }

  function ConsumeChoice(cfg: Config, guarded: bool, st: State, c: Choice): Out {
    if !LateChoiceAllowed(cfg, st, c) then Out(st, Malformed)
    else
      var o := ConsumeContent(cfg, st.(phase := RecordFinish(st.phase, c.finish)), c);
      if o.err != NoError then o
      else
        var o1 := ConsumeReasoning(cfg, o.st, c);
        if o1.err != NoError then o1
        else
          var o2 := ConsumeTools(cfg, guarded, o1.st, c.index, c.tools, {});
          if o2.err != NoError then o2
          else Out(CloseChoice(o2.st, c), NoError)
  }

  function ConsumeChoices(cfg: Config, guarded: bool, st: State, choices: seq<Choice>, seen: set<int>): Out
    decreases |choices|
  {
    if choices == [] then Out(st, NoError)
    else if guarded && choices[0].index < 0 then Out(st, Malformed)
    else if guarded && choices[0].index >= cfg.maxChoices then Out(st, CallLimit)
    else if guarded && choices[0].index in seen then Out(st, Malformed)
    else
      var o := ConsumeChoice(cfg, guarded, st, choices[0]);
      if o.err != NoError then o
      else ConsumeChoices(cfg, guarded, o.st, choices[1..], seen + {choices[0].index})
  }

  function Announce(cfg: Config, st: State, chunk: Chunk): Out {
    if st.phase.started then Out(st, NoError)
    else
      var o := Queue(cfg, st.(phase := st.phase.(started := true)), ResponseStarted(chunk.id, chunk.model),
        |chunk.id| + |chunk.model|);
      if o.err != NoError then o
      else Out(o.st.(transcript := o.st.transcript.(model := chunk.model)), NoError)
  }

  function AdoptModel(st: State, chunk: Chunk): State {
    if st.transcript.model == "" && chunk.model != ""
    then st.(transcript := st.transcript.(model := chunk.model)) else st
  }

  function ConsumeUsage(cfg: Config, st: State, chunk: Chunk): Out {
    if chunk.usage.None? then Out(st, NoError) else Queue(cfg, st, UsageUpdated(chunk.usage.value), 0)
  }

  /** consumeChunk after the pre-validation has passed. */
  function ConsumeBody(cfg: Config, guarded: bool, st: State, chunk: Chunk): Out {
    var o := Announce(cfg, st, chunk);
    if o.err != NoError then o
    else
      var o1 := ConsumeChoices(cfg, guarded, AdoptModel(o.st, chunk), chunk.choices, {});
      if o1.err != NoError then o1 else ConsumeUsage(cfg, o1.st, chunk)
  }

  function ConsumeChunk(cfg: Config, st: State, chunk: Chunk): Out {
    var err := ValidateChunk(cfg, st.calls, chunk);
    if err != NoError then Out(st, err) else ConsumeBody(cfg, true, st, chunk)
  }

  // ----- the terminal boundary -----

  predicate KeyLess(a: ToolKey, b: ToolKey) {
    if a.choice != b.choice then a.choice < b.choice else a.tool < b.tool
  }

  predicate Sorted(keys: seq<ToolKey>) {
    forall i, j :: 0 <= i < j < |keys| ==> KeyLess(keys[i], keys[j])
  }

  ghost predicate IsKeyOrder(keys: seq<ToolKey>, calls: map<ToolKey, Call>) {
    Sorted(keys) && forall k :: k in keys <==> k in calls
  }

  function PublicName(cfg: Config, name: string): string {
    var r := CustomRegistration(cfg, name);
    if r.Some? then r.value.inbound else name
  }

  function PublicKind(cfg: Config, name: string): ToolKind {
    var r := CustomRegistration(cfg, name);
    if r.Some? then r.value.kind else KindFunction
  }

  function EnsureStarted(cfg: Config, st: State, key: ToolKey): (o: Out)
    requires key in st.calls
    ensures o.st.calls.Keys == st.calls.Keys
  {
    var call := st.calls[key];
    if call.stage.started || call.name == "" || call.name !in cfg.allowed then Out(st, NoError)
    else
      var r := CustomRegistration(cfg, call.name);
      var kind, publicName := PublicKind(cfg, call.name), PublicName(cfg, call.name);
      var known := call.stage.(kind := kind, registration := if r.Some? then r else call.stage.registration);
      var o := Queue(cfg, st.(calls := st.calls[key := call.(stage := known)]),
                     ToolCallStarted(key, kind, call.callId, publicName), |call.callId| + |publicName|);
      if o.err != NoError then o
      else
        var st1 := o.st.(calls := o.st.calls[key := call.(stage := known.(started := true))]);
        if kind != KindCustom && |call.arguments| > 0
        then Queue(cfg, st1, ToolCallArguments(key, call.arguments), 0)
        else Out(st1, NoError)
  }

  function StartAll(cfg: Config, st: State, keys: seq<ToolKey>): (o: Out)
    requires forall k :: k in keys ==> k in st.calls
    ensures o.st.calls.Keys == st.calls.Keys
    decreases |keys|
  {
    if keys == [] then Out(st, NoError)
    else if st.calls[keys[0]].stage.completed then StartAll(cfg, st, keys[1..])
    else
      var o := EnsureStarted(cfg, st, keys[0]);
      if o.err != NoError then o
      else
        var name := o.st.calls[keys[0]].name;
        if name == "" then Out(o.st, Malformed)
        else if name !in cfg.allowed then Out(o.st, Undeclared)
        else StartAll(cfg, o.st, keys[1..])
  }

  function CompleteCustom(cfg: Config, st: State, key: ToolKey, call: Call): (o: Out)
    ensures o.st.calls == st.calls
  {
    match cfg.unwrap(call.arguments)
    case MalformedWrapper => Out(st, CustomMalformed)
    case InputTooLong => Out(st, PatchLimit)
    case Input(text) =>
      var o := Queue(cfg, st, ToolCallArguments(key, text), 0);
      if o.err != NoError then o
      else
        var name := if call.stage.registration.Some? then call.stage.registration.value.inbound else "";
        Queue(cfg, o.st, ToolCallCompleted(key, KindCustom, call.callId, name, text), |call.callId| + |name|)
  }

  function CompleteOne(cfg: Config, st: State, key: ToolKey): (o: Out)
    requires key in st.calls
    ensures o.st.calls.Keys == st.calls.Keys
  {
    var call := st.calls[key];
    var st1 := st.(calls := st.calls[key := call.(stage := call.stage.(completed := true))]);
    if call.stage.kind == KindCustom then CompleteCustom(cfg, st1, key, call)
    else Queue(cfg, st1, ToolCallCompleted(key, KindFunction, call.callId, call.name, call.arguments),
               |call.callId| + |call.name|)
  }

  function CompleteAll(cfg: Config, st: State, keys: seq<ToolKey>, ids: set<string>): (o: Out)
    requires forall k :: k in keys ==> k in st.calls
    ensures o.st.calls.Keys == st.calls.Keys
    decreases |keys|
  {
    if keys == [] then Out(st, NoError)
    else
      var call := st.calls[keys[0]];
      if call.stage.completed then CompleteAll(cfg, st, keys[1..], ids)
      else if call.callId in ids then Out(st, Malformed)
      else
        var o := CompleteOne(cfg, st, keys[0]);
        if o.err != NoError then o
        else CompleteAll(cfg, o.st, keys[1..], if call.callId == "" then ids else ids + {call.callId})
  }

  function FinishToolCalls(cfg: Config, st: State, keys: seq<ToolKey>): Out
    requires IsKeyOrder(keys, st.calls)
  {
    var o := StartAll(cfg, st, keys);
    if o.err != NoError then o
    else
      var o1 := CompleteAll(cfg, o.st, keys, {});
      if o1.err != NoError then o1
      else Queue(cfg, o1.st.(phase := o1.st.phase.(finalized := true, toolTurn := |o1.st.calls| > 0)), Completed, 0)
  }

  function Finish(cfg: Config, st: State, keys: seq<ToolKey>): Out
    requires IsKeyOrder(keys, st.calls)
  {
    if st.phase.conflict || st.phase.finish == NoFinish then Queue(cfg, st, Failed(UpstreamTerminalError), 0)
    else match st.phase.finish
      case ToolCalls => FinishToolCalls(cfg, st, keys)
      case Stop =>
        if |st.calls| > 0 then Queue(cfg, st, Failed(UpstreamTerminalError), 0)
        else Queue(cfg, st.(phase := st.phase.(finalized := true)), Completed, 0)
      case Length => Queue(cfg, st, Incomplete(true), 0)
      case ContentFilter => Queue(cfg, st, Incomplete(false), 0)
      case Refusal => Queue(cfg, st, Incomplete(false), 0)
      case _ => Queue(cfg, st, Failed(UpstreamTerminalError), 0)
  }
}
