/** The exact content of a completed run: every text and every tool call is the
    in-order concatenation of what the provider sent, across interleaved chunks. */
module DecoderContent {
  import opened Bridge
  import opened DecoderEffects
  import opened DecoderFinish
  import opened DecoderRun
  import opened DecoderSafety
  import opened DecoderSpec
  import opened DecoderTheorems

  // ----- the tool batch, from the reconstructed calls alone -----

  function CompletedArguments(cfg: Config, call: Call): string {
    if PublicKind(cfg, call.name) != KindCustom then call.arguments
    else match cfg.unwrap(call.arguments) case Input(text) => text case _ => ""
  }

  function StartBatch(cfg: Config, key: ToolKey, call: Call): seq<Event> {
    [StartedEvent(cfg, key, call)] +
    (if PublicKind(cfg, call.name) != KindCustom && call.arguments != "" then [ToolCallArguments(key, call.arguments)]
      else [])
  }

  function DoneBatch(cfg: Config, key: ToolKey, call: Call): seq<Event> {
    var kind, text := PublicKind(cfg, call.name), CompletedArguments(cfg, call);
    (if kind == KindCustom then [ToolCallArguments(key, text)] else []) +
    [ToolCallCompleted(key, kind, call.callId, PublicName(cfg, call.name), text)]
  }

  function StartBatches(cfg: Config, calls: map<ToolKey, Call>, keys: seq<ToolKey>): seq<Event>
    requires forall k :: k in keys ==> k in calls
  {
    if keys == [] then [] else StartBatch(cfg, keys[0], calls[keys[0]]) + StartBatches(cfg, calls, keys[1..])
  }

  function DoneBatches(cfg: Config, calls: map<ToolKey, Call>, keys: seq<ToolKey>): seq<Event>
    requires forall k :: k in keys ==> k in calls
  {
    if keys == [] then [] else DoneBatch(cfg, keys[0], calls[keys[0]]) + DoneBatches(cfg, calls, keys[1..])
  }

  /** Same call up to what the terminal boundary adds. */
  predicate SameCall(a: Call, b: Call) {
    a.callId == b.callId && a.providerId == b.providerId && a.name == b.name && a.arguments == b.arguments
  }

  predicate SameCalls(a: map<ToolKey, Call>, b: map<ToolKey, Call>) {
    a.Keys == b.Keys && forall k :: k in a ==> SameCall(a[k], b[k])
  }

  lemma {:induction false} BatchesFrame(cfg: Config, a: map<ToolKey, Call>, b: map<ToolKey, Call>, keys: seq<ToolKey>)
    requires SameCalls(a, b) && forall k :: k in keys ==> k in a
    ensures StartBatches(cfg, a, keys) == StartBatches(cfg, b, keys)
    ensures DoneBatches(cfg, a, keys) == DoneBatches(cfg, b, keys)
    decreases |keys|
  {
    if keys != [] {
      assert SameCall(a[keys[0]], b[keys[0]]);
      BatchesFrame(cfg, a, b, keys[1..]);
    }
  }

  /** The calls in keys are untouched by the terminal boundary so far. */
  predicate Untouched(calls: map<ToolKey, Call>, keys: seq<ToolKey>) {
    forall k :: k in keys ==> k in calls && calls[k].stage == UNKNOWN
  }

  predicate Ready(cfg: Config, call: Call) {
    call.stage.started && !call.stage.completed && StageOk(cfg, call)
  }

  predicate AllReady(cfg: Config, calls: map<ToolKey, Call>, keys: seq<ToolKey>) {
    forall k :: k in keys ==> k in calls && Ready(cfg, calls[k])
  }

  lemma SortedTail(keys: seq<ToolKey>)
    requires Sorted(keys) && keys != []
    ensures Sorted(keys[1..]) && keys[0] !in keys[1..]
  {
    assert forall i :: 0 <= i < |keys[1..]| ==> keys[1..][i] == keys[i + 1];
  }

  lemma StartOneShape(cfg: Config, st: State, key: ToolKey)
    requires key in st.calls && st.calls[key].stage == UNKNOWN
    requires EnsureStarted(cfg, st, key).err == NoError
    requires st.calls[key].name != "" && st.calls[key].name in cfg.allowed
    ensures var o := EnsureStarted(cfg, st, key);
      && o.st.pending == st.pending + StartBatch(cfg, key, st.calls[key])
      && o.st.calls == st.calls[key := Announced(cfg, st.calls[key])]
  {
    EnsureStartedShape(cfg, st, key);
  }

  lemma {:induction false} StartAllShape(cfg: Config, st: State, keys: seq<ToolKey>)
    requires Sorted(keys) && Untouched(st.calls, keys)
    requires StartAll(cfg, st, keys).err == NoError
    ensures var o := StartAll(cfg, st, keys);
      && o.st.pending == st.pending + StartBatches(cfg, st.calls, keys)
      && SameCalls(o.st.calls, st.calls)
      && (forall k :: k in st.calls && k !in keys ==> o.st.calls[k] == st.calls[k])
      && AllReady(cfg, o.st.calls, keys)
    decreases |keys|
  {
    if keys != [] {
      var o := EnsureStarted(cfg, st, keys[0]);
      StartOneName(cfg, st, keys);
      StartOneShape(cfg, st, keys[0]);
      SortedTail(keys);
      StartAllShape(cfg, o.st, keys[1..]);
      BatchesFrame(cfg, o.st.calls, st.calls, keys[1..]);
      assert forall k :: k in keys ==> k == keys[0] || k in keys[1..];
    }
  }

  lemma StartOneName(cfg: Config, st: State, keys: seq<ToolKey>)
    requires keys != [] && Untouched(st.calls, keys)
    requires StartAll(cfg, st, keys).err == NoError
    ensures keys[0] in st.calls && EnsureStarted(cfg, st, keys[0]).err == NoError
    ensures st.calls[keys[0]].name != "" && st.calls[keys[0]].name in cfg.allowed
    ensures StartAll(cfg, st, keys) == StartAll(cfg, EnsureStarted(cfg, st, keys[0]).st, keys[1..])
  {
  }

  lemma CompleteOneBatch(cfg: Config, st: State, key: ToolKey)
    requires key in st.calls && Ready(cfg, st.calls[key])
    requires CompleteOne(cfg, st, key).err == NoError
    ensures var o := CompleteOne(cfg, st, key);
      && o.st.pending == st.pending + DoneBatch(cfg, key, st.calls[key])
      && o.st.calls == st.calls[key := CompletedCall(st.calls[key])]
  {
    CompleteOneShape(cfg, st, key);
  }

  lemma {:induction false} CompleteAllShape(cfg: Config, st: State, keys: seq<ToolKey>, ids: set<string>)
    requires Sorted(keys) && AllReady(cfg, st.calls, keys)
    requires CompleteAll(cfg, st, keys, ids).err == NoError
    ensures var o := CompleteAll(cfg, st, keys, ids);
      && o.st.pending == st.pending + DoneBatches(cfg, st.calls, keys)
      && SameCalls(o.st.calls, st.calls)
    decreases |keys|
  {
    if keys != [] {
      var call := st.calls[keys[0]];
      var o := CompleteOne(cfg, st, keys[0]);
      CompleteOneBatch(cfg, st, keys[0]);
      SortedTail(keys);
      CompleteAllShape(cfg, o.st, keys[1..], if call.callId == "" then ids else ids + {call.callId});
      BatchesFrame(cfg, o.st.calls, st.calls, keys[1..]);
    }
  }

  /** Call ids that survive completion are new and pairwise different. */
  lemma {:induction false} CompleteAllDistinct(cfg: Config, st: State, keys: seq<ToolKey>, ids: set<string>)
    requires Sorted(keys) && AllReady(cfg, st.calls, keys)
    requires forall k :: k in keys ==> st.calls[k].callId != ""
    requires CompleteAll(cfg, st, keys, ids).err == NoError
    ensures forall k :: k in keys ==> st.calls[k].callId !in ids
    ensures forall j, k :: j in keys && k in keys && j != k ==> st.calls[j].callId != st.calls[k].callId
    decreases |keys|
  {
    if keys != [] {
      var call := st.calls[keys[0]];
      var o := CompleteOne(cfg, st, keys[0]);
      CompleteOneBatch(cfg, st, keys[0]);
      SortedTail(keys);
      CompleteAllDistinct(cfg, o.st, keys[1..], ids + {call.callId});
      assert forall k :: k in keys ==> k == keys[0] || (k in keys[1..] && o.st.calls[k] == st.calls[k]);
    }
  }

  /** Completion marks each call and changes nothing else about it. */
  lemma {:induction false} CompleteAllExact(cfg: Config, st: State, keys: seq<ToolKey>, ids: set<string>)
    requires Sorted(keys) && AllReady(cfg, st.calls, keys)
    requires CompleteAll(cfg, st, keys, ids).err == NoError
    ensures var o := CompleteAll(cfg, st, keys, ids);
      && (forall k :: k in keys ==> o.st.calls[k] == CompletedCall(st.calls[k]))
      && (forall k :: k in st.calls && k !in keys ==> o.st.calls[k] == st.calls[k])
    decreases |keys|
  {
    if keys != [] {
      var call := st.calls[keys[0]];
      CompleteOneBatch(cfg, st, keys[0]);
      SortedTail(keys);
      CompleteAllExact(cfg, CompleteOne(cfg, st, keys[0]).st, keys[1..],
        if call.callId == "" then ids else ids + {call.callId});
      assert forall k :: k in keys ==> k == keys[0] || k in keys[1..];
    }
  }

  /** What a finished run retains about the calls it delivered. */
  predicate FinalTurn(cfg: Config, calls: map<ToolKey, Call>, final: State) {
    && final.phase.finalized && (final.phase.toolTurn <==> calls != map[])
    && SameCalls(final.calls, calls)
    && forall k :: k in final.calls ==>
         final.calls[k].stage.started && final.calls[k].stage.completed && StageOk(cfg, final.calls[k])
  }

  /** The state that FinishToolCalls leaves once the whole batch is queued. */
  lemma FinishedState(cfg: Config, st: State, keys: seq<ToolKey>, done: State)
    requires IsKeyOrder(keys, st.calls) && StartAll(cfg, st, keys).err == NoError
    requires CompleteAll(cfg, StartAll(cfg, st, keys).st, keys, {}) == Out(done, NoError)
    ensures var o := FinishToolCalls(cfg, st, keys);
      && o.st.calls == done.calls && o.st.transcript == done.transcript
      && o.st.phase == done.phase.(finalized := true, toolTurn := |done.calls| > 0)
      && (o.err == NoError <==> CanQueue(cfg, done.budget.aggregate, 0))
  {
  }

  /** The whole batch, on the calls as they were before it. */
  lemma BatchCalls(cfg: Config, log: seq<Event>, st: State, keys: seq<ToolKey>)
    requires Streaming(cfg, log, st) && IsKeyOrder(keys, st.calls) && StartAll(cfg, st, keys).err == NoError
    requires CompleteAll(cfg, StartAll(cfg, st, keys).st, keys, {}).err == NoError
    ensures var done := CompleteAll(cfg, StartAll(cfg, st, keys).st, keys, {}).st;
      && SameCalls(done.calls, st.calls) && done.transcript == st.transcript
      && forall k :: k in done.calls ==>
           done.calls[k].stage.started && done.calls[k].stage.completed && StageOk(cfg, done.calls[k])
  {
    StreamingUntouched(cfg, log, st, keys);
    var o := StartAll(cfg, st, keys);
    StartAllShape(cfg, st, keys);
    StartAllTranscript(cfg, st, keys);
    CompleteAllExact(cfg, o.st, keys, {});
    CompleteAllTranscript(cfg, o.st, keys, {});
    assert forall k :: k in o.st.calls ==> k in keys && Ready(cfg, o.st.calls[k]);
  }

  lemma FinishToolCallsFinal(cfg: Config, log: seq<Event>, st: State, keys: seq<ToolKey>)
    requires Streaming(cfg, log, st) && IsKeyOrder(keys, st.calls)
    requires StartAll(cfg, st, keys).err == NoError
    requires CompleteAll(cfg, StartAll(cfg, st, keys).st, keys, {}).err == NoError
    ensures FinalTurn(cfg, st.calls, FinishToolCalls(cfg, st, keys).st)
    ensures FinishToolCalls(cfg, st, keys).st.transcript == st.transcript
  {
    var done := CompleteAll(cfg, StartAll(cfg, st, keys).st, keys, {}).st;
    BatchCalls(cfg, log, st, keys);
    FinishedState(cfg, st, keys, done);
    SizeOfCalls(done.calls, st.calls);
  }

  lemma SizeOfCalls(a: map<ToolKey, Call>, b: map<ToolKey, Call>)
    requires a.Keys == b.Keys
    ensures |a| > 0 <==> b != map[]
  {
    assert |a| == |a.Keys| && (b == map[] <==> b.Keys == {});
  }

  lemma {:induction false} StartAllTranscript(cfg: Config, st: State, keys: seq<ToolKey>)
    requires forall k :: k in keys ==> k in st.calls
    ensures StartAll(cfg, st, keys).st.transcript == st.transcript
    decreases |keys|
  {
    if keys != [] {
      if st.calls[keys[0]].stage.completed {
        StartAllTranscript(cfg, st, keys[1..]);
      } else {
        StartAllTranscript(cfg, EnsureStarted(cfg, st, keys[0]).st, keys[1..]);
      }
    }
  }

  lemma {:induction false} CompleteAllTranscript(cfg: Config, st: State, keys: seq<ToolKey>, ids: set<string>)
    requires forall k :: k in keys ==> k in st.calls
    ensures CompleteAll(cfg, st, keys, ids).st.transcript == st.transcript
    decreases |keys|
  {
    if keys != [] {
      var call := st.calls[keys[0]];
      if call.stage.completed {
        CompleteAllTranscript(cfg, st, keys[1..], ids);
      } else {
        CompleteAllTranscript(cfg, CompleteOne(cfg, st, keys[0]).st, keys[1..],
          if call.callId == "" then ids else ids + {call.callId});
      }
    }
  }

  // ----- a completed run -----

  function Events(first: bool, input: seq<ProviderEvent>): seq<Event>
    decreases |input|
  {
    if input == [] then []
    else if input[0].Data? then ChunkEvents(first, input[0].chunk) + Events(false, input[1..])
    else Events(first, input[1..])
  }

  function Fragments(input: seq<ProviderEvent>): seq<Fragment>
    decreases |input|
  {
    if input == [] then []
    else if input[0].Data? then ChoiceFragments(input[0].chunk.choices) + Fragments(input[1..])
    else Fragments(input[1..])
  }

  function AllContent(input: seq<ProviderEvent>): string {
    if input == [] then ""
    else (if input[0].Data? then ContentText(input[0].chunk.choices) else "") + AllContent(input[1..])
  }

  function AllReasoning(input: seq<ProviderEvent>): string {
    if input == [] then ""
    else (if input[0].Data? then ReasoningText(input[0].chunk.choices) else "") + AllReasoning(input[1..])
  }

  /** The transcript grew by exactly the text of the input. */
  predicate TextKept(a: Transcript, input: seq<ProviderEvent>, b: Transcript) {
    b.assistant == a.assistant + AllContent(input) && b.reasoning == a.reasoning + AllReasoning(input)
  }

  /** The events of the terminal boundary for a set of reconstructed calls. */
  ghost function Batch(cfg: Config, calls: map<ToolKey, Call>): seq<Event> {
    var order := KeyOrder(calls.Keys);
    StartBatches(cfg, calls, order) + DoneBatches(cfg, calls, order) + [Completed]
  }

  predicate Named(cfg: Config, call: Call) {
    call.name != "" && call.name in cfg.allowed
  }

  predicate Unwraps(cfg: Config, call: Call) {
    PublicKind(cfg, call.name) == KindCustom ==> cfg.unwrap(call.arguments).Input?
  }

  predicate AllNamed(cfg: Config, calls: map<ToolKey, Call>) {
    forall k :: k in calls ==> Named(cfg, calls[k])
  }

  predicate AllUnwrapped(cfg: Config, calls: map<ToolKey, Call>) {
    forall k :: k in calls ==> Unwraps(cfg, calls[k])
  }

  predicate AllDistinct(calls: map<ToolKey, Call>) {
    forall j, k :: j in calls && k in calls && j != k ==> calls[j].callId != calls[k].callId
  }

  /** The calls can be delivered as one tool turn: declared names, custom arguments
      that unwrap, and no two calls under one id. */
  predicate Deliverable(cfg: Config, calls: map<ToolKey, Call>) {
    AllNamed(cfg, calls) && AllDistinct(calls) && AllUnwrapped(cfg, calls)
  }

  lemma StreamingUntouched(cfg: Config, log: seq<Event>, st: State, keys: seq<ToolKey>)
    requires Streaming(cfg, log, st) && IsKeyOrder(keys, st.calls)
    ensures Untouched(st.calls, keys) && forall k :: k in st.calls ==> st.calls[k].callId != ""
  {
    assert forall k :: k in st.calls ==> CallOk(cfg, k, st.calls[k]);
  }

  lemma FinishToolCallsShape(cfg: Config, log: seq<Event>, st: State, keys: seq<ToolKey>)
    requires Streaming(cfg, log, st) && IsKeyOrder(keys, st.calls)
    requires FinishToolCalls(cfg, st, keys).err == NoError
    ensures FinishToolCalls(cfg, st, keys).st.pending
         == st.pending + StartBatches(cfg, st.calls, keys) + DoneBatches(cfg, st.calls, keys) + [Completed]
  {
    StreamingUntouched(cfg, log, st, keys);
    var o := StartAll(cfg, st, keys);
    StartAllShape(cfg, st, keys);
    CompleteAllShape(cfg, o.st, keys, {});
    BatchesFrame(cfg, o.st.calls, st.calls, keys);
  }

  lemma FinishToolCallsDeliverable(cfg: Config, log: seq<Event>, st: State, keys: seq<ToolKey>)
    requires Streaming(cfg, log, st) && IsKeyOrder(keys, st.calls)
    requires StartAll(cfg, st, keys).err == NoError
    requires CompleteAll(cfg, StartAll(cfg, st, keys).st, keys, {}).err == NoError
    ensures Deliverable(cfg, st.calls)
  {
    StreamingUntouched(cfg, log, st, keys);
    var o := StartAll(cfg, st, keys);
    StartAllShape(cfg, st, keys);
    StartAllNames(cfg, st, keys);
    assert forall k :: k in keys ==> SameCall(o.st.calls[k], st.calls[k]);
    CompleteAllDistinct(cfg, o.st, keys, {});
    CompleteAllUnwraps(cfg, o.st, keys, {});
  }

  lemma {:induction false} CompleteAllUnwraps(cfg: Config, st: State, keys: seq<ToolKey>, ids: set<string>)
    requires Sorted(keys) && AllReady(cfg, st.calls, keys)
    requires CompleteAll(cfg, st, keys, ids).err == NoError
    ensures forall k :: k in keys ==> Unwraps(cfg, st.calls[k])
    decreases |keys|
  {
    if keys != [] {
      var call := st.calls[keys[0]];
      var o := CompleteOne(cfg, st, keys[0]);
      CompleteOneBatch(cfg, st, keys[0]);
      CompleteOneShape(cfg, st, keys[0]);
      SortedTail(keys);
      CompleteAllUnwraps(cfg, o.st, keys[1..], if call.callId == "" then ids else ids + {call.callId});
      assert forall k :: k in keys ==> k == keys[0] || (k in keys[1..] && o.st.calls[k] == st.calls[k]);
    }
  }

  lemma {:induction false} StartAllNames(cfg: Config, st: State, keys: seq<ToolKey>)
    requires Sorted(keys) && Untouched(st.calls, keys)
    requires StartAll(cfg, st, keys).err == NoError
    ensures forall k :: k in keys ==> st.calls[k].name in cfg.allowed && st.calls[k].name != ""
    decreases |keys|
  {
    if keys != [] {
      StartOneName(cfg, st, keys);
      StartOneShape(cfg, st, keys[0]);
      SortedTail(keys);
      StartAllNames(cfg, EnsureStarted(cfg, st, keys[0]).st, keys[1..]);
      assert forall k :: k in keys ==> k == keys[0] || k in keys[1..];
    }
  }

  predicate EndsCompleted(events: seq<Event>) {
    events != [] && events[|events| - 1] == Completed
  }

  /** A turn without calls that ends at once. */
  predicate PlainEnd(before: State, after: State) {
    && before.calls == map[]
    && after.calls == map[]
    && after.pending == [Completed]
    && after.phase.finalized
    && after.transcript == before.transcript
  }

  /** Without a tool finish, only a plain stop without calls is answered by Completed. */
  lemma PlainFinish(cfg: Config, st: State, order: seq<ToolKey>)
    requires IsKeyOrder(order, st.calls) && st.pending == []
    requires st.phase.finish != ToolCalls || st.phase.conflict
    ensures var o := Finish(cfg, st, order);
      o.err == NoError && EndsCompleted(o.st.pending) ==> PlainEnd(st, o.st)
  {
  }

  predicate ToolFinish(st: State) {
    st.phase.finish == ToolCalls && !st.phase.conflict
  }

  /** The two ways to Completed: a tool turn, or a plain stop without calls. */
  lemma CompletedEnds(cfg: Config, st: State, order: seq<ToolKey>)
    requires order == KeyOrder(st.calls.Keys) && st.pending == []
    requires EndsCompleted(Step(cfg, st, ProviderDone).pending)
    ensures Finish(cfg, st, order).err == NoError
    ensures Step(cfg, st, ProviderDone) == Close(Finish(cfg, st, order).st)
    ensures ToolFinish(st) ==> Finish(cfg, st, order) == FinishToolCalls(cfg, st, order)
    ensures !ToolFinish(st) ==> PlainEnd(st, Finish(cfg, st, order).st)
  {
    DoneStep(cfg, st, order);
    if !ToolFinish(st) {
      PlainFinish(cfg, st, order);
    }
  }

  lemma DoneStep(cfg: Config, st: State, order: seq<ToolKey>)
    requires order == KeyOrder(st.calls.Keys)
    ensures var o, st1 := Finish(cfg, st, order), Step(cfg, st, ProviderDone);
      if o.err == NoError then st1 == Close(o.st) else !EndsCompleted(st1.pending)
  {
  }

  lemma CompletedStep(cfg: Config, released: seq<Event>, st: State)
    requires ConfigOk(cfg) && Streaming(cfg, released, st) && st.pending == []
    requires EndsCompleted(Step(cfg, st, ProviderDone).pending)
    ensures Step(cfg, st, ProviderDone).pending == Batch(cfg, st.calls)
    ensures Deliverable(cfg, st.calls)
  {
    var order := KeyOrder(st.calls.Keys);
    CompletedEnds(cfg, st, order);
    if ToolFinish(st) {
      FinishToolCallsShape(cfg, released, st, order);
      FinishToolCallsDeliverable(cfg, released, st, order);
      assert [] + StartBatches(cfg, st.calls, order) == StartBatches(cfg, st.calls, order);
    } else {
      NothingToSend(cfg, st.calls, order);
    }
  }

  lemma NothingToSend(cfg: Config, calls: map<ToolKey, Call>, order: seq<ToolKey>)
    requires calls == map[] && order == KeyOrder(calls.Keys)
    ensures order == [] && Batch(cfg, calls) == [Completed] && Deliverable(cfg, calls)
  {
  }

  lemma CompletedStepFinal(cfg: Config, released: seq<Event>, st: State)
    requires ConfigOk(cfg) && Streaming(cfg, released, st) && st.pending == []
    requires EndsCompleted(Step(cfg, st, ProviderDone).pending)
    ensures FinalTurn(cfg, st.calls, Released(Step(cfg, st, ProviderDone)))
    ensures Step(cfg, st, ProviderDone).transcript == st.transcript
  {
    var order := KeyOrder(st.calls.Keys);
    CompletedEnds(cfg, st, order);
    if ToolFinish(st) {
      FinishToolCallsFinal(cfg, released, st, order);
    }
  }

  /** The first n provider events are chunks, the next is the end marker, and
      the output is exactly the plain events of the chunks followed by the batch of
      the limit-free reconstruction of their fragments, which is also what the
      final state retains. */
  ghost predicate CompletedAs(cfg: Config, st: State, input: seq<ProviderEvent>, n: nat, o: Outcome) {
    && n < |input| && input[n].ProviderDone? && (forall i :: 0 <= i < n ==> input[i].Data?)
    && var calls := Apply(st.calls, Fragments(input[..n]));
       && o.events == Events(!st.phase.started, input[..n]) + Batch(cfg, calls)
       && Deliverable(cfg, calls)
       && FinalTurn(cfg, calls, o.st)
       && TextKept(st.transcript, input[..n], o.st.transcript)
  }

  /** If a run ends in Completed, it is CompletedAs its input prescribes. */
  lemma {:induction false} RunContent(cfg: Config, released: seq<Event>, st: State, input: seq<ProviderEvent>)
    returns (n: nat)
    requires ConfigOk(cfg) && InputOk(cfg, input)
    requires Streaming(cfg, released, st) && st.pending == [] && !st.phase.terminal
    requires EndsCompleted(Run(cfg, st, input).events)
    ensures CompletedAs(cfg, st, input, n, Run(cfg, st, input))
    decreases |input|
  {
    var st1 := Step(cfg, st, input[0]);
    var rest := Run(cfg, Released(st1), input[1..]);
    if st1.phase.terminal {
      n := 0;
      assert rest.events == [] && st1.pending + rest.events == st1.pending;
      FinalStepContent(cfg, released, st, input[0]);
      CompletedAtOnce(cfg, st, input, Outcome(Released(st1), st1.pending));
    } else {
      RunContinues(cfg, released, st, input[0], st1);
      InputTail(cfg, input);
      RestEndsAlike(cfg, released + st1.pending, Released(st1), input[1..], rest.events, st1.pending);
      DataStepShape(cfg, st, input[0].chunk);
      DataStepTranscript(cfg, st, input[0].chunk);
      var m := RunContent(cfg, released + st1.pending, Released(st1), input[1..]);
      n := m + 1;
      CompletedLater(cfg, st, input, m, st1, rest);
    }
  }

  lemma RunContinues(cfg: Config, released: seq<Event>, st: State, pe: ProviderEvent, st1: State)
    requires ConfigOk(cfg) && InputOk(cfg, [pe])
    requires Streaming(cfg, released, st) && st.pending == [] && !st.phase.terminal
    requires st1 == Step(cfg, st, pe) && !st1.phase.terminal
    ensures pe.Data? && Streaming(cfg, released + st1.pending, Released(st1))
  {
    assert pe == Data(pe.chunk) && [pe][0] == pe;
    DataStepLegal(cfg, released, st, pe.chunk);
  }

  lemma CompletedAtOnce(cfg: Config, st: State, input: seq<ProviderEvent>, o: Outcome)
    requires input != [] && input[0].ProviderDone?
    requires o.events == Batch(cfg, st.calls) && Deliverable(cfg, st.calls)
    requires FinalTurn(cfg, st.calls, o.st) && o.st.transcript == st.transcript
    ensures CompletedAs(cfg, st, input, 0, o)
  {
    assert input[..0] == [] && [] + Batch(cfg, st.calls) == Batch(cfg, st.calls);
  }

  lemma FinalStepContent(cfg: Config, released: seq<Event>, st: State, pe: ProviderEvent)
    requires ConfigOk(cfg) && Streaming(cfg, released, st) && st.pending == [] && !st.phase.terminal
    requires Step(cfg, st, pe).phase.terminal && EndsCompleted(Step(cfg, st, pe).pending)
    ensures pe.ProviderDone? && Step(cfg, st, pe).pending == Batch(cfg, st.calls) && Deliverable(cfg, st.calls)
    ensures FinalTurn(cfg, st.calls, Released(Step(cfg, st, pe))) && Step(cfg, st, pe).transcript == st.transcript
  {
    if pe.ProviderDone? {
      CompletedStep(cfg, released, st);
      CompletedStepFinal(cfg, released, st);
    } else {
      FailureNotCompleted(cfg, st, pe);
    }
  }

  lemma CompletedLater(cfg: Config, st: State, input: seq<ProviderEvent>, m: nat, st1: State, rest: Outcome)
    requires input != [] && input[0].Data? && st1.phase.started
    requires st1.pending == ChunkEvents(!st.phase.started, input[0].chunk)
    requires st1.calls == Apply(st.calls, ChoiceFragments(input[0].chunk.choices))
    requires st1.transcript.assistant == st.transcript.assistant + ContentText(input[0].chunk.choices)
    requires st1.transcript.reasoning == st.transcript.reasoning + ReasoningText(input[0].chunk.choices)
    requires CompletedAs(cfg, Released(st1), input[1..], m, rest)
    ensures CompletedAs(cfg, st, input, m + 1, Outcome(rest.st, st1.pending + rest.events))
  {
    var chunk, tail := input[0].chunk, input[1..];
    assert input[..m + 1] == [input[0]] + tail[..m];
    assert input[..m + 1][1..] == tail[..m];
    ApplyConcat(st.calls, ChoiceFragments(chunk.choices), Fragments(tail[..m]));
    Glue(st.transcript.assistant, ContentText(chunk.choices), AllContent(tail[..m]));
    Glue(st.transcript.reasoning, ReasoningText(chunk.choices), AllReasoning(tail[..m]));
    Glue(st1.pending, Events(false, tail[..m]), Batch(cfg, Apply(st1.calls, Fragments(tail[..m]))));
  }

  lemma FailureNotCompleted(cfg: Config, st: State, pe: ProviderEvent)
    requires !st.phase.terminal && st.pending == [] && !pe.ProviderDone? && Step(cfg, st, pe).phase.terminal
    ensures var p := Step(cfg, st, pe).pending; |p| == 1 && p[0].Failed?
  {
    if pe.Data? && ConsumeChunk(cfg, st, pe.chunk).err == NoError {
      ChunkKeepsRunning(cfg, st, pe.chunk);
    }
  }

  lemma DataStepShape(cfg: Config, st: State, chunk: Chunk)
    requires st.pending == [] && !Step(cfg, st, Data(chunk)).phase.terminal
    ensures var st1 := Step(cfg, st, Data(chunk));
      && st1.pending == ChunkEvents(!st.phase.started, chunk)
      && st1.calls == Apply(st.calls, ChoiceFragments(chunk.choices))
      && st1.phase.started
  {
    ConsumeChunkCalls(cfg, st, chunk);
    ConsumeChunkEvents(cfg, st, chunk);
    assert [] + ChunkEvents(!st.phase.started, chunk) == ChunkEvents(!st.phase.started, chunk);
  }

  lemma DataStepTranscript(cfg: Config, st: State, chunk: Chunk)
    requires st.pending == [] && !Step(cfg, st, Data(chunk)).phase.terminal
    ensures var t := Step(cfg, st, Data(chunk)).transcript;
      && t.assistant == st.transcript.assistant + ContentText(chunk.choices)
      && t.reasoning == st.transcript.reasoning + ReasoningText(chunk.choices)
  {
    ConsumeChunkTranscript(cfg, st, chunk);
  }

  lemma RestEndsAlike(cfg: Config, log: seq<Event>, st: State, input: seq<ProviderEvent>, rest: seq<Event>,
                      before: seq<Event>)
    requires ConfigOk(cfg) && InputOk(cfg, input)
    requires Streaming(cfg, log, st) && !st.phase.terminal && st.pending == []
    requires rest == Run(cfg, st, input).events
    requires EndsCompleted(before + rest)
    ensures EndsCompleted(rest)
  {
    RunLegal(cfg, log, st, input);
    assert rest == [] ==> log + rest == log;
  }

  // ----- the main statement about tool calls -----

  /** In a run that ends in Completed every call is announced once and completed
      once, in (choice, tool) order, under a declared name and an id of its own;
      its name, id and arguments are those of its fragments, joined in order of
      arrival, with the arguments of a custom tool unwrapped. */
  lemma FragmentConservation(cfg: Config, input: seq<ProviderEvent>) returns (n: nat)
    requires ConfigOk(cfg) && InputOk(cfg, input)
    requires EndsCompleted(Output(cfg, input))
    ensures CompletedAs(cfg, INITIAL, input, n, Run(cfg, INITIAL, input))
    ensures var fs := Fragments(input[..n]); var calls := Apply(map[], fs);
      forall k :: (k in calls <==> Pieces(fs, k) != []) &&
        (k in calls ==>
          && calls[k].callId == FirstCallId(k, Pieces(fs, k)[0])
          && calls[k].name == JoinNames(Pieces(fs, k))
          && calls[k].arguments == JoinArguments(Pieces(fs, k)))
  {
    InitialStreaming(cfg);
    n := RunContent(cfg, [], INITIAL, input);
    var fs := Fragments(input[..n]);
    forall k
      ensures var calls := Apply(map[], fs);
        (k in calls <==> Pieces(fs, k) != []) &&
        (k in calls ==>
          && calls[k].callId == FirstCallId(k, Pieces(fs, k)[0])
          && calls[k].name == JoinNames(Pieces(fs, k))
          && calls[k].arguments == JoinArguments(Pieces(fs, k)))
    {
      CallIsJoinOfPieces(map[], fs, k);
    }
  }

  // ----- the retained provider turn -----

  function UpstreamOf(cfg: Config, call: Call): UpstreamCall {
    var r := CustomRegistration(cfg, call.name);
    UpstreamCall(call.callId, if call.providerId == "" then call.callId else call.providerId,
                 PublicKind(cfg, call.name), if r.Some? then r.value.upstream else call.name, call.arguments)
  }

  function UpstreamCalls(cfg: Config, calls: map<ToolKey, Call>, keys: seq<ToolKey>): seq<UpstreamCall>
    requires forall k :: k in keys ==> k in calls
  {
    if keys == [] then [] else [UpstreamOf(cfg, calls[keys[0]])] + UpstreamCalls(cfg, calls, keys[1..])
  }

  /** The call as PendingTurn reads it from a finished decoder. */
  function RetainedCall(call: Call): UpstreamCall {
    UpstreamCall(call.callId, if call.providerId == "" then call.callId else call.providerId, call.stage.kind,
                 if call.stage.kind == KindCustom && call.stage.registration.Some?
                 then call.stage.registration.value.upstream else call.name,
                 call.arguments)
  }

  predicate CanRetain(call: Call) {
    call.stage.completed && call.stage.started &&
    (call.stage.kind == KindCustom ==> call.stage.registration.Some? && call.stage.registration.value.upstream != "")
  }

  function RetainedCalls(calls: map<ToolKey, Call>, keys: seq<ToolKey>): Option<seq<UpstreamCall>>
    requires forall k :: k in keys ==> k in calls
  {
    if keys == [] then Some([])
    else if !CanRetain(calls[keys[0]]) then None
    else
      var rest := RetainedCalls(calls, keys[1..]);
      if rest.None? then None else Some([RetainedCall(calls[keys[0]])] + rest.value)
  }

  ghost function TurnOf(st: State): Option<PendingTurn> {
    if !st.phase.finalized || !st.phase.toolTurn then None
    else
      var calls := RetainedCalls(st.calls, KeyOrder(st.calls.Keys));
      if calls.None? then None
      else Some(PendingTurn(PROVIDER_NAME, st.transcript.model, st.transcript.reasoning, st.transcript.assistant,
        calls.value))
  }

  lemma {:induction false} RetainedMatch(cfg: Config, calls: map<ToolKey, Call>, final: State, keys: seq<ToolKey>)
    requires FinalTurn(cfg, calls, final) && forall k :: k in keys ==> k in calls
    ensures RetainedCalls(final.calls, keys) == Some(UpstreamCalls(cfg, calls, keys))
    decreases |keys|
  {
    if keys != [] {
      assert SameCall(final.calls[keys[0]], calls[keys[0]]);
      RetainedMatch(cfg, calls, final, keys[1..]);
    }
  }

  /** The turn kept for the continuation lists exactly the calls that the
      completed stream announced, in the same order. */
  lemma TurnMatchesStream(cfg: Config, calls: map<ToolKey, Call>, final: State)
    requires FinalTurn(cfg, calls, final)
    ensures calls == map[] ==> TurnOf(final).None?
    ensures calls != map[] ==>
      TurnOf(final).Some? && TurnOf(final).value.calls == UpstreamCalls(cfg, calls, KeyOrder(calls.Keys))
  {
    RetainedMatch(cfg, calls, final, KeyOrder(calls.Keys));
  }
}
