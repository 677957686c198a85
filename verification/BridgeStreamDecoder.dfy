/** The decoder as the source writes it: one object whose methods append to its
    queue and its buffers, and walk chunks in loops. Every method is proved to be
    the function of DecoderSpec with the same name, and Next to hand out, one by
    one, exactly the output that DecoderRun defines for the whole input. */
module BridgeStreamDecoder {
  import opened Bridge
  import opened DecoderSpec
  import opened DecoderContent
  import opened DecoderRun

  // ----- sortedToolKeys -----

  predicate Distinct(keys: seq<ToolKey>) {
    forall i, j :: 0 <= i < j < |keys| ==> keys[i] != keys[j]
  }

  /** Up to last, the keys are in order but for the one at place, which has still to
      sink below some of the keys before it. */
  predicate Sinking(keys: seq<ToolKey>, place: nat, last: nat) {
    && place <= last < |keys|
    && (forall i, j :: 0 <= i < j <= last && i != place && j != place ==> KeyLess(keys[i], keys[j]))
    && (forall j :: place < j <= last ==> KeyLess(keys[place], keys[j]))
  }

  predicate SortedUpTo(keys: seq<ToolKey>, n: nat) {
    n <= |keys| && forall i, j :: 0 <= i < j < n ==> KeyLess(keys[i], keys[j])
  }

  lemma SinkOne(keys: seq<ToolKey>, place: nat, next: nat, last: nat)
    requires Sinking(keys, place, last) && Distinct(keys) && place == next + 1 && KeyLess(keys[place], keys[next])
    ensures var swapped := keys[place := keys[next]][next := keys[place]];
      Sinking(swapped, next, last) && Distinct(swapped) && multiset(swapped) == multiset(keys)
  {
    SwapKeeps(keys, place, next);
  }

  /** Swapping two neighbours. */
  lemma SwapKeeps(keys: seq<ToolKey>, place: nat, next: nat)
    requires place == next + 1 < |keys|
    ensures multiset(keys[place := keys[next]][next := keys[place]]) == multiset(keys)
  {
    assert keys == keys[..next] + [keys[next], keys[place]] + keys[place + 1..];
    var swapped := keys[place := keys[next]][next := keys[place]];
    assert swapped == keys[..next] + [keys[place], keys[next]] + keys[place + 1..];
  }

  lemma Sunk(keys: seq<ToolKey>, place: nat, last: nat)
    requires Sinking(keys, place, last) && Distinct(keys)
    requires place > 0 ==> !KeyLess(keys[place], keys[place - 1])
    ensures SortedUpTo(keys, last + 1)
  {
    if place > 0 {
      var before := place - 1;
      assert KeyLess(keys[before], keys[place]);
      assert forall i :: 0 <= i < before ==> KeyLess(keys[i], keys[before]);
    }
  }

  /** The insertion sort over the keys of the call map, walked in any order. */
  method SortedToolKeys(calls: map<ToolKey, Call>) returns (order: seq<ToolKey>)
    ensures IsKeyOrder(order, calls)
  {
    var keys := ListKeys(calls.Keys);
    var a := new ToolKey[|keys|](i requires 0 <= i < |keys| => keys[i]);
    assert a[..] == keys;
    InsertionSort(a);
    order := a[..];
    SameMembers(order, keys);
  }

  lemma SameMembers(a: seq<ToolKey>, b: seq<ToolKey>)
    requires multiset(a) == multiset(b)
    ensures forall k :: k in a <==> k in b
  {
    assert forall k :: k in a <==> k in multiset(a);
    assert forall k :: k in b <==> k in multiset(b);
  }

  /** Any enumeration of the keys, each once. */
  method ListKeys(keys: set<ToolKey>) returns (list: seq<ToolKey>)
    ensures forall k :: k in list <==> k in keys
    ensures Distinct(list)
  {
    list := [];
    var todo := keys;
    while todo != {}
      invariant todo <= keys && forall k :: k in list <==> k in keys && k !in todo
      invariant Distinct(list)
      decreases |todo|
    {
      var k :| k in todo;
      list := list + [k];
      todo := todo - {k};
    }
  }

  method InsertionSort(a: array<ToolKey>)
    requires Distinct(a[..])
    modifies a
    ensures Sorted(a[..]) && multiset(a[..]) == multiset(old(a[..]))
  {
    var index := 1;
    while index < a.Length
      invariant 1 <= index && (index <= a.Length || a.Length == 0)
      invariant multiset(a[..]) == multiset(old(a[..])) && Distinct(a[..])
      invariant index <= a.Length ==> SortedUpTo(a[..], index)
    {
      Insert(a, index);
      index := index + 1;
    }
  }

  /** The inner loop: the key at index sinks to its place. */
  method Insert(a: array<ToolKey>, index: nat)
    requires index < a.Length && SortedUpTo(a[..], index) && Distinct(a[..])
    modifies a
    ensures SortedUpTo(a[..], index + 1) && multiset(a[..]) == multiset(old(a[..])) && Distinct(a[..])
  {
    var position := index;
    while position > 0 && KeyLess(a[position], a[position - 1])
      invariant 0 <= position <= index && Sinking(a[..], position, index)
      invariant multiset(a[..]) == multiset(old(a[..])) && Distinct(a[..])
    {
      var next := position - 1;
      SinkOne(a[..], position, next, index);
      a[position], a[next] := a[next], a[position];
      position := next;
    }
    Sunk(a[..], position, index);
  }

  // ----- the decoder -----

  class Decoder {
    const config: Config
    var upstream: seq<ProviderEvent>
    var pending: seq<Event>
    var calls: map<ToolKey, Call>
    var started: bool
    var terminal: bool
    var finishReason: FinishReason
    var finishConflict: bool
    var choiceFinishReasons: map<int, FinishReason>
    var aggregateBytes: int
    var outputBytes: int
    var textBytes: int
    var reasoningBytes: int
    var providerModel: string
    var assistantContent: string
    var reasoningContent: string
    var finalized: bool
    var toolTurn: bool

    function State(): State
      reads this
    {
      DecoderSpec.State(pending, calls,
        Budget(aggregateBytes, outputBytes, textBytes, reasoningBytes),
        Phase(started, terminal, finishReason, finishConflict, finalized, toolTurn),
        Transcript(providerModel, assistantContent, reasoningContent), choiceFinishReasons)
    }

    constructor (config: Config, upstream: seq<ProviderEvent>)
      ensures this.config == config && this.upstream == upstream && State() == INITIAL
    {
      this.config, this.upstream := config, upstream;
      pending, calls, choiceFinishReasons := [], map[], map[];
      started, terminal, finishReason, finishConflict := false, false, NoFinish, false;
      aggregateBytes, outputBytes, textBytes, reasoningBytes := 0, 0, 0, 0;
      providerModel, assistantContent, reasoningContent := "", "", "";
      finalized, toolTurn := false, false;
    }

    // ----- budgets -----

    method Queue(event: Event, payload: int) returns (err: Error)
      modifies `pending, `aggregateBytes
      ensures Out(State(), err) == DecoderSpec.Queue(config, old(State()), event, payload)
    {
      if payload < 0 || OVERHEAD > config.maxAggregate || payload > config.maxAggregate - OVERHEAD
         || aggregateBytes > config.maxAggregate - (OVERHEAD + payload) {
        return AggregateLimit;
      }
      aggregateBytes := aggregateBytes + OVERHEAD + payload;
      pending := pending + [event];
      return NoError;
    }

    method Reserve(bytes: int) returns (err: Error)
      modifies `aggregateBytes
      ensures Out(State(), err) == DecoderSpec.Reserve(config, old(State()), bytes)
    {
      if bytes < 0 || aggregateBytes > config.maxAggregate - bytes {
        return AggregateLimit;
      }
      aggregateBytes := aggregateBytes + bytes;
      return NoError;
    }

    // ----- pre-validation -----

    /** The inner loop of validateChunkToolBounds. */
    method ValidateTools(choice: int, tools: seq<ToolDelta>, before: nat) returns (err: Error, newCalls: nat)
      ensures (err, newCalls) == DecoderSpec.ValidateTools(config, calls, choice, tools, {}, before)
    {
      newCalls := before;
      var seen: set<int> := {};
      for i := 0 to |tools|
        invariant DecoderSpec.ValidateTools(config, calls, choice, tools, {}, before)
               == DecoderSpec.ValidateTools(config, calls, choice, tools[i..], seen, newCalls)
      {
        var tool := tools[i];
        assert tools[i..][0] == tool && tools[i..][1..] == tools[i + 1..];
        if tool.index.None? || tool.index.value < 0 {
          return Malformed, newCalls;
        }
        if tool.typ != "" && tool.typ != "function" {
          return Malformed, newCalls;
        }
        if tool.index.value >= config.maxToolCalls {
          return CallLimit, newCalls;
        }
        if tool.index.value in seen {
          return Malformed, newCalls;
        }
        seen := seen + {tool.index.value};
        var key := ToolKey(choice, tool.index.value);
        if key in calls {
          if |tool.name| > config.maxToolName - |calls[key].name| {
            return MetadataLimit, newCalls;
          }
          if IdGrowth(calls[key].providerId, tool.id) > config.maxProviderId - |calls[key].providerId| {
            return MetadataLimit, newCalls;
          }
        } else {
          if |FirstCallId(key, tool)| > config.maxProviderId || |tool.id| > config.maxProviderId ||
            |tool.name| > config.maxToolName {
            return MetadataLimit, newCalls;
          }
          newCalls := newCalls + 1;
        }
      }
      return NoError, newCalls;
    }

    /** validateChunkToolBounds: it reads the calls and changes nothing. */
    method ValidateChunk(chunk: Chunk) returns (err: Error)
      ensures err == DecoderSpec.ValidateChunk(config, calls, chunk)
    {
      if |chunk.choices| > config.maxChoices {
        return CallLimit;
      }
      var seen: set<int>, newCalls: nat := {}, 0;
      for i := 0 to |chunk.choices|
        invariant ValidateChoices(config, calls, chunk.choices, {}, 0)
               == ValidateChoices(config, calls, chunk.choices[i..], seen, newCalls)
      {
        var c := chunk.choices[i];
        assert chunk.choices[i..][0] == c && chunk.choices[i..][1..] == chunk.choices[i + 1..];
        if c.index < 0 {
          return Malformed;
        }
        if c.index >= config.maxChoices {
          return CallLimit;
        }
        if c.index in seen {
          return Malformed;
        }
        seen := seen + {c.index};
        if |c.tools| > config.maxToolCalls {
          return CallLimit;
        }
        err, newCalls := ValidateTools(c.index, c.tools, newCalls);
        if err != NoError {
          return err;
        }
      }
      if newCalls > config.maxToolCalls - |calls| {
        return CallLimit;
      }
      return NoError;
    }

    // ----- consuming a chunk -----

    method ConsumeTool(choice: int, tool: ToolDelta) returns (err: Error)
      modifies `calls, `aggregateBytes, `outputBytes
      ensures Out(State(), err) == DecoderSpec.ConsumeTool(config, true, old(State()), choice, tool)
    {
      if tool.index.None? || tool.index.value < 0 {
        return Malformed;
      }
      if tool.typ != "" && tool.typ != "function" {
        return Malformed;
      }
      if tool.index.value >= config.maxToolCalls {
        return CallLimit;
      }
      var key := ToolKey(choice, tool.index.value);
      if key !in calls {
        if |calls| >= config.maxToolCalls {
          return CallLimit;
        }
        if |tool.id| > config.maxProviderId || |tool.name| > config.maxToolName {
          return MetadataLimit;
        }
        calls := calls[key := Call(FirstCallId(key, tool), "", "", "", Stage(KindUnset, None, false, false))];
      }
      err := ExtendCall(key, tool);
    }

    /** The rest of consumeToolCall, for a call that exists. */
    method ExtendCall(key: ToolKey, tool: ToolDelta) returns (err: Error)
      requires key in calls
      modifies `calls, `aggregateBytes, `outputBytes
      ensures Out(State(), err) == DecoderSpec.ExtendCall(config, true, old(State()), key, tool)
    {
      if |tool.name| > config.maxToolName - |calls[key].name| {
        return MetadataLimit;
      }
      if !Declarable(config, calls[key].name + tool.name) {
        return Undeclared;
      }
      err := ExtendId(key, tool);
      if err != NoError {
        return err;
      }
      calls := calls[key := calls[key].(name := calls[key].name + tool.name)];
      err := ExtendArguments(key, tool);
    }

    method ExtendId(key: ToolKey, tool: ToolDelta) returns (err: Error)
      requires key in calls
      modifies `calls, `aggregateBytes
      ensures Out(State(), err) == DecoderSpec.ExtendId(config, true, old(State()), key, tool)
      ensures key in calls && calls[key].name == old(calls[key].name)
    {
      if tool.id == "" {
        return NoError;
      }
      var growth := IdGrowth(calls[key].providerId, tool.id);
      if growth > config.maxProviderId - |calls[key].providerId| {
        return MetadataLimit;
      }
      err := Reserve(growth);
      if err == NoError {
        calls := calls[key := calls[key].(providerId := MergeId(calls[key].providerId, tool.id))];
      }
    }

    method ExtendArguments(key: ToolKey, tool: ToolDelta) returns (err: Error)
      requires key in calls
      modifies `calls, `aggregateBytes, `outputBytes
      ensures Out(State(), err) == DecoderSpec.ExtendArguments(config, old(State()), key, tool)
    {
      if |tool.arguments| > config.maxToolArguments - |calls[key].arguments| {
        return ArgumentLimit;
      }
      if |tool.arguments| > config.maxOutput - outputBytes {
        return AggregateLimit;
      }
      err := Reserve(|tool.arguments|);
      if err == NoError {
        calls := calls[key := calls[key].(arguments := calls[key].arguments + tool.arguments)];
        outputBytes := outputBytes + |tool.arguments|;
      }
    }

    /** The innermost loop of consumeChunk. */
    method ConsumeTools(choice: int, tools: seq<ToolDelta>) returns (err: Error)
      modifies `calls, `aggregateBytes, `outputBytes
      ensures Out(State(), err) == DecoderSpec.ConsumeTools(config, true, old(State()), choice, tools, {})
    {
      var seen: set<int> := {};
      for i := 0 to |tools|
        invariant DecoderSpec.ConsumeTools(config, true, old(State()), choice, tools, {})
               == DecoderSpec.ConsumeTools(config, true, State(), choice, tools[i..], seen)
      {
        var tool := tools[i];
        assert tools[i..][0] == tool && tools[i..][1..] == tools[i + 1..];
        if tool.index.None? || tool.index.value < 0 {
          return Malformed;
        }
        if tool.index.value in seen {
          return Malformed;
        }
        seen := seen + {tool.index.value};
        err := ConsumeTool(choice, tool);
        if err != NoError {
          return err;
        }
      }
      return NoError;
    }

    method RecordFinish(reason: FinishReason)
      modifies `finishReason, `finishConflict
      ensures State() == old(State()).(phase := DecoderSpec.RecordFinish(old(State()).phase, reason))
    {
      if reason == NoFinish {
        return;
      }
      if finishReason == NoFinish {
        finishReason := reason;
      } else if finishReason != reason {
        finishConflict := true;
      }
    }

    /** The checks on a choice that has already finished. */
    method CheckLate(c: Choice) returns (ok: bool)
      ensures ok == LateChoiceAllowed(config, State(), c)
    {
      if c.index !in choiceFinishReasons {
        return true;
      }
      var previous := choiceFinishReasons[c.index];
      if (c.finish != NoFinish && c.finish != previous) || previous != ToolCalls || c.content != "" ||
        c.reasoning != "" {
        return false;
      }
      for i := 0 to |c.tools|
        invariant forall j :: 0 <= j < i ==> Index(c.tools[j]) >= 0 && ToolKey(c.index, Index(c.tools[j])) in calls
      {
        if Index(c.tools[i]) < 0 || ToolKey(c.index, Index(c.tools[i])) !in calls {
          return false;
        }
      }
      return true;
    }

    method ConsumeContent(c: Choice) returns (err: Error)
      modifies `pending, `aggregateBytes, `assistantContent, `textBytes, `outputBytes
      ensures Out(State(), err) == DecoderSpec.ConsumeContent(config, old(State()), c)
    {
      if c.content == "" {
        return NoError;
      }
      if |c.content| > config.maxText - textBytes || |c.content| > config.maxOutput - outputBytes {
        return AggregateLimit;
      }
      err := Queue(TextDelta(c.index, c.content), |c.content|);
      if err == NoError {
        assistantContent := assistantContent + c.content;
        textBytes := textBytes + |c.content|;
        outputBytes := outputBytes + |c.content|;
      }
    }

    method ConsumeReasoning(c: Choice) returns (err: Error)
      modifies `pending, `aggregateBytes, `reasoningContent, `reasoningBytes
      ensures Out(State(), err) == DecoderSpec.ConsumeReasoning(config, old(State()), c)
    {
      if c.reasoning == "" {
        return NoError;
      }
      if |c.reasoning| > config.maxReasoning - reasoningBytes {
        return AggregateLimit;
      }
      err := Queue(ReasoningDelta(c.index, c.reasoning), |c.reasoning|);
      if err == NoError {
        reasoningContent := reasoningContent + c.reasoning;
        reasoningBytes := reasoningBytes + |c.reasoning|;
      }
    }

    method ConsumeChoice(c: Choice) returns (err: Error)
      modifies this
      ensures Out(State(), err) == DecoderSpec.ConsumeChoice(config, true, old(State()), c)
      ensures upstream == old(upstream)
    {
      var allowed := CheckLate(c);
      if !allowed {
        return Malformed;
      }
      RecordFinish(c.finish);
      err := ConsumeContent(c);
      if err != NoError {
        return err;
      }
      err := ConsumeReasoning(c);
      if err != NoError {
        return err;
      }
      err := ConsumeTools(c.index, c.tools);
      if err == NoError {
        Conclude(c);
      }
    }

    /** A choice that has named its finish reason is closed. */
    method Conclude(c: Choice)
      modifies `choiceFinishReasons
      ensures State() == CloseChoice(old(State()), c)
    {
      if c.finish != NoFinish {
        choiceFinishReasons := choiceFinishReasons[c.index := c.finish];
      }
    }

    method ConsumeChoices(choices: seq<Choice>) returns (err: Error)
      modifies this
      ensures Out(State(), err) == DecoderSpec.ConsumeChoices(config, true, old(State()), choices, {})
      ensures upstream == old(upstream)
    {
      var seen: set<int> := {};
      for i := 0 to |choices|
        invariant upstream == old(upstream)
        invariant DecoderSpec.ConsumeChoices(config, true, old(State()), choices, {})
               == DecoderSpec.ConsumeChoices(config, true, State(), choices[i..], seen)
      {
        var c := choices[i];
        assert choices[i..][0] == c && choices[i..][1..] == choices[i + 1..];
        if c.index < 0 {
          return Malformed;
        }
        if c.index >= config.maxChoices {
          return CallLimit;
        }
        if c.index in seen {
          return Malformed;
        }
        seen := seen + {c.index};
        err := ConsumeChoice(c);
        if err != NoError {
          return err;
        }
      }
      return NoError;
    }

    method Announce(chunk: Chunk) returns (err: Error)
      modifies `pending, `aggregateBytes, `started, `providerModel
      ensures Out(State(), err) == DecoderSpec.Announce(config, old(State()), chunk)
    {
      if started {
        return NoError;
      }
      started := true;
      err := Queue(ResponseStarted(chunk.id, chunk.model), |chunk.id| + |chunk.model|);
      if err == NoError {
        providerModel := chunk.model;
      }
    }

    method ConsumeChunk(chunk: Chunk) returns (err: Error)
      modifies this
      ensures Out(State(), err) == DecoderSpec.ConsumeChunk(config, old(State()), chunk)
      ensures upstream == old(upstream)
    {
      err := ValidateChunk(chunk);
      if err == NoError {
        err := ConsumeBody(chunk);
      }
    }

    /** consumeChunk after the pre-validation. */
    method ConsumeBody(chunk: Chunk) returns (err: Error)
      modifies this
      ensures Out(State(), err) == DecoderSpec.ConsumeBody(config, true, old(State()), chunk)
      ensures upstream == old(upstream)
    {
      err := Announce(chunk);
      if err != NoError {
        return err;
      }
      if providerModel == "" && chunk.model != "" {
        providerModel := chunk.model;
      }
      err := ConsumeChoices(chunk.choices);
      if err == NoError && chunk.usage.Some? {
        err := Queue(UsageUpdated(chunk.usage.value), 0);
      }
    }

    // ----- the terminal boundary -----

    method Store(key: ToolKey, call: Call)
      modifies `calls
      ensures State() == old(State()).(calls := old(State()).calls[key := call])
    {
      calls := calls[key := call];
    }

    /** ensureToolStarted. */
    method EnsureStarted(key: ToolKey) returns (err: Error)
      requires key in calls
      modifies `pending, `aggregateBytes, `calls
      ensures Out(State(), err) == DecoderSpec.EnsureStarted(config, old(State()), key)
    {
      var call := calls[key];
      if call.stage.started || call.name == "" || call.name !in config.allowed {
        return NoError;
      }
      var kind, publicName, registration := KindFunction, call.name, CustomRegistration(config, call.name);
      if registration.Some? {
        kind, publicName := registration.value.kind, registration.value.inbound;
        call := call.(stage := call.stage.(registration := registration));
      }
      call := call.(stage := call.stage.(kind := kind));
      Store(key, call);
      err := Queue(ToolCallStarted(key, kind, call.callId, publicName), |call.callId| + |publicName|);
      if err != NoError {
        return err;
      }
      Store(key, call.(stage := call.stage.(started := true)));
      if kind != KindCustom && |call.arguments| > 0 {
        err := Queue(ToolCallArguments(key, call.arguments), 0);
      }
    }

    /** The first loop of finishToolCalls. */
    method StartAll(keys: seq<ToolKey>) returns (err: Error)
      requires forall k :: k in keys ==> k in calls
      modifies `pending, `aggregateBytes, `calls
      ensures Out(State(), err) == DecoderSpec.StartAll(config, old(State()), keys)
    {
      for i := 0 to |keys|
        invariant calls.Keys == old(calls).Keys
        invariant DecoderSpec.StartAll(config, old(State()), keys) == DecoderSpec.StartAll(config, State(), keys[i..])
      {
        var key := keys[i];
        assert keys[i..][0] == key && keys[i..][1..] == keys[i + 1..];
        if !calls[key].stage.completed {
          err := EnsureStarted(key);
          if err != NoError {
            return err;
          }
          if calls[key].name == "" {
            return Malformed;
          }
          if calls[key].name !in config.allowed {
            return Undeclared;
          }
        }
      }
      return NoError;
    }

    method CompleteOne(key: ToolKey) returns (err: Error)
      requires key in calls
      modifies `pending, `aggregateBytes, `calls
      ensures Out(State(), err) == DecoderSpec.CompleteOne(config, old(State()), key)
    {
      var call := calls[key];
      calls := calls[key := call.(stage := call.stage.(completed := true))];
      if call.stage.kind == KindCustom {
        var input := config.unwrap(call.arguments);
        match input {
          case MalformedWrapper => return CustomMalformed;
          case InputTooLong => return PatchLimit;
          case Input(text) =>
            err := Queue(ToolCallArguments(key, text), 0);
            if err != NoError {
              return err;
            }
            var name := if call.stage.registration.Some? then call.stage.registration.value.inbound else "";
            err := Queue(ToolCallCompleted(key, KindCustom, call.callId, name, text), |call.callId| + |name|);
        }
      } else {
        err := Queue(ToolCallCompleted(key, KindFunction, call.callId, call.name, call.arguments),
          |call.callId| + |call.name|);
      }
    }

    /** The second loop of finishToolCalls. */
    method CompleteAll(keys: seq<ToolKey>) returns (err: Error)
      requires forall k :: k in keys ==> k in calls
      modifies `pending, `aggregateBytes, `calls
      ensures Out(State(), err) == DecoderSpec.CompleteAll(config, old(State()), keys, {})
    {
      var ids: set<string> := {};
      for i := 0 to |keys|
        invariant calls.Keys == old(calls).Keys
        invariant DecoderSpec.CompleteAll(config, old(State()), keys, {})
               == DecoderSpec.CompleteAll(config, State(), keys[i..], ids)
      {
        var key := keys[i];
        assert keys[i..][0] == key && keys[i..][1..] == keys[i + 1..];
        if !calls[key].stage.completed {
          var callId := calls[key].callId;
          if callId in ids {
            return Malformed;
          }
          if callId != "" {
            ids := ids + {callId};
          }
          err := CompleteOne(key);
          if err != NoError {
            return err;
          }
        }
      }
      return NoError;
    }

    method FinishToolCalls() returns (err: Error)
      modifies `pending, `aggregateBytes, `calls, `finalized, `toolTurn
      ensures Out(State(), err) == DecoderSpec.FinishToolCalls(config, old(State()), KeyOrder(old(calls).Keys))
    {
      var keys := SortedToolKeys(calls);
      KeyOrderUnique(keys, KeyOrder(calls.Keys));
      err := StartAll(keys);
      if err != NoError {
        return err;
      }
      err := CompleteAll(keys);
      if err != NoError {
        return err;
      }
      MarkFinal();
      err := Queue(Completed, 0);
    }

    method MarkFinal()
      modifies `finalized, `toolTurn
      ensures State() == old(State()).(phase := old(State()).phase.(finalized := true, toolTurn := |calls| > 0))
    {
      finalized := true;
      toolTurn := |calls| > 0;
    }

    method Finish() returns (err: Error)
      modifies `pending, `aggregateBytes, `calls, `finalized, `toolTurn
      ensures Out(State(), err) == DecoderSpec.Finish(config, old(State()), KeyOrder(old(calls).Keys))
    {
      if finishConflict || finishReason == NoFinish {
        err := Queue(Failed(UpstreamTerminalError), 0);
        return err;
      }
      match finishReason {
        case ToolCalls => err := FinishToolCalls();
        case Stop =>
          if |calls| > 0 {
            err := Queue(Failed(UpstreamTerminalError), 0);
          } else {
            finalized := true;
            err := Queue(Completed, 0);
          }
        case Length => err := Queue(Incomplete(true), 0);
        case ContentFilter => err := Queue(Incomplete(false), 0);
        case Refusal => err := Queue(Incomplete(false), 0);
        case OtherFinish(_) => err := Queue(Failed(UpstreamTerminalError), 0);
      }
    }

    // ----- next -----

    /** The events that the source will still hand out. */
    ghost function Remaining(): seq<Event>
      reads this
    {
      pending + Run(config, Released(State()), upstream).events
    }

    method Fail(code: FailureCode) returns (event: Event)
      modifies `terminal, `pending
      ensures State() == old(State()).(pending := [], phase := old(State()).phase.(terminal := true))
      ensures event == Failed(code)
    {
      terminal := true;
      pending := [];
      event := Failed(code);
    }

    method Pop() returns (event: Event)
      requires pending != []
      modifies `pending
      ensures old(pending) == [event] + pending
    {
      event := pending[0];
      pending := pending[1..];
    }

    /** One provider event: the body of the loop of Next up to its result. A failure
        is handed out at once and discards whatever was queued. */
    method Receive(pe: ProviderEvent) returns (direct: Option<Event>)
      requires pending == [] && !terminal
      modifies this
      ensures upstream == old(upstream)
      ensures direct.None? ==> State() == Step(config, old(State()), pe)
      ensures direct.Some? ==> State() == Released(Step(config, old(State()), pe))
      ensures direct.Some? ==> Step(config, old(State()), pe).pending == [direct.value]
    {
      var event;
      match pe {
        case ReadFailed(cause) =>
          event := Fail(ReadFailure(cause));
          return Some(event);
        case ProviderError =>
          event := Fail(UpstreamError);
          return Some(event);
        case NoChunk =>
          event := Fail(UpstreamStreamError);
          return Some(event);
        case ProviderDone => direct := ReceiveDone();
        case Data(chunk) => direct := ReceiveChunk(chunk);
      }
    }

    method ReceiveDone() returns (direct: Option<Event>)
      requires pending == [] && !terminal
      modifies this
      ensures upstream == old(upstream)
      ensures direct.None? ==> State() == Step(config, old(State()), ProviderDone)
      ensures direct.Some? ==> State() == Released(Step(config, old(State()), ProviderDone))
      ensures direct.Some? ==> Step(config, old(State()), ProviderDone).pending == [direct.value]
    {
      var err := Finish();
      if err != NoError {
        var event := Fail(BridgeFailure(err));
        return Some(event);
      }
      terminal := true;
      return None;
    }

    method ReceiveChunk(chunk: Chunk) returns (direct: Option<Event>)
      requires pending == [] && !terminal
      modifies this
      ensures upstream == old(upstream)
      ensures direct.None? ==> State() == Step(config, old(State()), Data(chunk))
      ensures direct.Some? ==> State() == Released(Step(config, old(State()), Data(chunk)))
      ensures direct.Some? ==> Step(config, old(State()), Data(chunk)).pending == [direct.value]
    {
      var err := Absorb(chunk);
      if err != NoError {
        var event := Fail(BridgeFailure(err));
        return Some(event);
      }
      return None;
    }

    /** A chunk, and the charge for one that produced no event. */
    method Absorb(chunk: Chunk) returns (err: Error)
      modifies this
      ensures upstream == old(upstream)
      ensures var o := DecoderSpec.ConsumeChunk(config, old(State()), chunk);
        Out(State(), err) ==
          if o.err != NoError || |o.st.pending| > 0 then o else DecoderSpec.Reserve(config, o.st, OVERHEAD)
    {
      err := ConsumeChunk(chunk);
      if err == NoError && |pending| == 0 {
        err := Reserve(OVERHEAD);
      }
    }

    /** One provider event is taken from upstream. */
    method Advance() returns (direct: Option<Event>)
      requires pending == [] && !terminal && upstream != []
      modifies this
      ensures |upstream| < old(|upstream|)
      ensures old(Remaining()) == (if direct.Some? then [direct.value] else []) + Remaining()
    {
      RunStep(config, State(), upstream);
      ghost var st1 := Step(config, State(), upstream[0]);
      var pe := upstream[0];
      upstream := upstream[1..];
      direct := Receive(pe);
      RemainingSplit(st1.pending, Run(config, Released(st1), upstream).events, direct);
    }

    /** Next: the first of the remaining events, or none at the end of the stream. */
    method Next() returns (event: Option<Event>)
      modifies this
      ensures event == None <==> old(Remaining()) == []
      ensures event.Some? ==> old(Remaining()) == [event.value] + Remaining()
    {
      while true
        invariant Remaining() == old(Remaining())
        decreases |upstream|
      {
        if |pending| > 0 {
          event := Take();
          return event;
        }
        if terminal {
          return None;
        }
        if upstream == [] {
          terminal := true;
          return Some(Failed(UpstreamEof));
        }
        event := Advance();
        if event.Some? {
          return event;
        }
      }
    }

    method Take() returns (event: Option<Event>)
      requires pending != []
      modifies `pending
      ensures event.Some? && old(Remaining()) == [event.value] + Remaining()
    {
      var next := Pop();
      assert Released(State()) == Released(old(State()));
      TakenFirst(old(pending), next, pending, Run(config, Released(State()), upstream).events);
      event := Some(next);
    }

    /** PendingTurn, from the calls in their order. */
    method PendingTurn() returns (turn: Option<PendingTurn>)
      ensures turn == TurnOf(State())
    {
      if !finalized || !toolTurn {
        return None;
      }
      var keys := SortedToolKeys(calls);
      KeyOrderUnique(keys, KeyOrder(calls.Keys));
      var list := RetainAll(calls, keys);
      if list.None? {
        return None;
      }
      return Some(Bridge.PendingTurn(PROVIDER_NAME, providerModel, reasoningContent, assistantContent, list.value));
    }
  }

  /** The loop of PendingTurn. */
  method RetainAll(calls: map<ToolKey, Call>, keys: seq<ToolKey>) returns (list: Option<seq<UpstreamCall>>)
    requires forall k :: k in keys ==> k in calls
    ensures list == RetainedCalls(calls, keys)
  {
    var done: seq<UpstreamCall> := [];
    assert keys[0..] == keys;
    Prefix([], RetainedCalls(calls, keys));
    for i := 0 to |keys|
      invariant RetainedCalls(calls, keys) == Prefixed(done, RetainedCalls(calls, keys[i..]))
    {
      var call := calls[keys[i]];
      assert keys[i..][0] == keys[i] && keys[i..][1..] == keys[i + 1..];
      if !CanRetain(call) {
        return None;
      }
      PrefixOne(done, RetainedCall(call), RetainedCalls(calls, keys[i + 1..]));
      done := done + [RetainedCall(call)];
    }
    assert keys[|keys|..] == [] && done + [] == done;
    return Some(done);
  }

  function Prefixed(front: seq<UpstreamCall>, rest: Option<seq<UpstreamCall>>): Option<seq<UpstreamCall>> {
    if rest.None? then None else Some(front + rest.value)
  }

  lemma Prefix(none: seq<UpstreamCall>, rest: Option<seq<UpstreamCall>>)
    requires none == []
    ensures Prefixed(none, rest) == rest
  {
    if rest.Some? {
      assert none + rest.value == rest.value;
    }
  }

  lemma PrefixOne(front: seq<UpstreamCall>, call: UpstreamCall, rest: Option<seq<UpstreamCall>>)
    ensures Prefixed(front, Prefixed([call], rest)) == Prefixed(front + [call], rest)
  {
    if rest.Some? {
      assert front + ([call] + rest.value) == front + [call] + rest.value;
    }
  }

  lemma TakenFirst(before: seq<Event>, first: Event, after: seq<Event>, rest: seq<Event>)
    requires before == [first] + after
    ensures before + rest == [first] + (after + rest)
  {
  }

  lemma RemainingSplit(pending: seq<Event>, rest: seq<Event>, direct: Option<Event>)
    requires direct.Some? ==> pending == [direct.value]
    ensures direct.Some? ==> pending + rest == [direct.value] + ([] + rest)
    ensures direct.None? ==> pending + rest == [] + (pending + rest)
  {
  }

  lemma RunStep(cfg: Config, st: State, input: seq<ProviderEvent>)
    requires !st.phase.terminal && input != [] && st.pending == []
    ensures Released(st) == st
    ensures Run(cfg, st, input).events ==
      var st1 := Step(cfg, st, input[0]); st1.pending + Run(cfg, Released(st1), input[1..]).events
  {
  }
}
