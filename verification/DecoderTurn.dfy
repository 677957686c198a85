/** When PendingTurn offers a turn. The source marks the turn final before it queues
    the last event, so the turn is available in slightly more runs than the ones
    that end in Completed; the difference is exactly one window of the budget. */
module DecoderTurn {
  import opened Bridge
  import opened DecoderContent
  import opened DecoderFinish
  import opened DecoderRun
  import opened DecoderSafety
  import opened DecoderSpec

  // ----- what the batch costs -----

  /** What queueing an event of the terminal boundary is charged. */
  function QueueCost(e: Event): nat {
    match e
    case ToolCallStarted(key, kind, callId, name) => OVERHEAD + |callId| + |name|
    case ToolCallCompleted(key, kind, callId, name, arguments) => OVERHEAD + |callId| + |name|
    case _ => OVERHEAD
  }

  function Cost(events: seq<Event>): nat {
    if events == [] then 0 else QueueCost(events[0]) + Cost(events[1..])
  }

  lemma {:induction false} CostConcat(a: seq<Event>, b: seq<Event>)
    ensures Cost(a + b) == Cost(a) + Cost(b)
  {
    if a == [] {
      assert a + b == b;
    } else {
      assert (a + b)[1..] == a[1..] + b;
      CostConcat(a[1..], b);
    }
  }

  lemma CostOfOne(e: Event)
    ensures Cost([e]) == QueueCost(e)
  {
  }

  lemma CostOfTwo(a: Event, b: Event)
    ensures Cost([a] + [b]) == QueueCost(a) + QueueCost(b)
  {
    CostOfOne(a);
    CostOfOne(b);
    CostConcat([a], [b]);
  }

  predicate Fits(cfg: Config, aggregate: int, cost: int) {
    aggregate + cost <= cfg.maxAggregate
  }

  // ----- starting -----

  lemma StartCost(cfg: Config, key: ToolKey, call: Call)
    ensures Cost(StartBatch(cfg, key, call)) ==
      OVERHEAD + |call.callId| + |PublicName(cfg, call.name)| +
      if PublicKind(cfg, call.name) != KindCustom && call.arguments != "" then OVERHEAD else 0
  {
    CostOfOne(StartedEvent(cfg, key, call));
    CostOfTwo(StartedEvent(cfg, key, call), ToolCallArguments(key, call.arguments));
  }

  lemma StartOneExact(cfg: Config, st: State, key: ToolKey)
    requires key in st.calls && st.calls[key].stage == UNKNOWN && Named(cfg, st.calls[key])
    requires st.budget.aggregate >= 0
    ensures var o, cost := EnsureStarted(cfg, st, key), Cost(StartBatch(cfg, key, st.calls[key]));
      && (o.err == NoError <==> Fits(cfg, st.budget.aggregate, cost))
      && (o.err == NoError ==> o.st.budget.aggregate == st.budget.aggregate + cost)
  {
    StartCost(cfg, key, st.calls[key]);
  }

  lemma StartAllStep(cfg: Config, st: State, keys: seq<ToolKey>)
    requires keys != [] && Untouched(st.calls, keys)
    ensures !Named(cfg, st.calls[keys[0]]) ==> StartAll(cfg, st, keys).err != NoError
    ensures EnsureStarted(cfg, st, keys[0]).err != NoError ==> StartAll(cfg, st, keys).err != NoError
    ensures var o := EnsureStarted(cfg, st, keys[0]);
      o.err == NoError && Named(cfg, st.calls[keys[0]]) ==> StartAll(cfg, st, keys) == StartAll(cfg, o.st, keys[1..])
  {
  }

  lemma {:induction false} StartAllExact(cfg: Config, st: State, keys: seq<ToolKey>)
    requires Sorted(keys) && Untouched(st.calls, keys) && 0 <= st.budget.aggregate <= cfg.maxAggregate
    ensures var o, cost := StartAll(cfg, st, keys), Cost(StartBatches(cfg, st.calls, keys));
      && (o.err == NoError <==>
        (forall k :: k in keys ==> Named(cfg, st.calls[k])) && Fits(cfg, st.budget.aggregate, cost))
      && (o.err == NoError ==> o.st.budget.aggregate == st.budget.aggregate + cost)
    decreases |keys|, 0
  {
    if keys != [] {
      var key, rest := keys[0], keys[1..];
      SortedTail(keys);
      StartAllStep(cfg, st, keys);
      CostConcat(StartBatch(cfg, key, st.calls[key]), StartBatches(cfg, st.calls, rest));
      assert forall k :: k in keys <==> k == key || k in rest;
      if Named(cfg, st.calls[key]) {
        StartOneExact(cfg, st, key);
        if EnsureStarted(cfg, st, key).err == NoError {
          StartOneShape(cfg, st, key);
          StartRestExact(cfg, st, EnsureStarted(cfg, st, key).st, key, rest);
        }
      }
    }
  }

  lemma {:induction false} StartRestExact(cfg: Config, st: State, st1: State, key: ToolKey, rest: seq<ToolKey>)
    requires Sorted(rest) && Untouched(st.calls, rest) && 0 <= st1.budget.aggregate <= cfg.maxAggregate
    requires key in st.calls && key !in rest && st1.calls == st.calls[key := Announced(cfg, st.calls[key])]
    ensures var o, cost := StartAll(cfg, st1, rest), Cost(StartBatches(cfg, st.calls, rest));
      && (o.err == NoError <==>
        (forall k :: k in rest ==> Named(cfg, st.calls[k])) && Fits(cfg, st1.budget.aggregate, cost))
      && (o.err == NoError ==> o.st.budget.aggregate == st1.budget.aggregate + cost)
    decreases |rest|, 1
  {
    assert forall k :: k in rest ==> k in st1.calls && st1.calls[k] == st.calls[k];
    StartAllExact(cfg, st1, rest);
    BatchesFrame(cfg, st1.calls, st.calls, rest);
  }

  // ----- completing -----

  lemma DoneCost(cfg: Config, key: ToolKey, call: Call)
    ensures Cost(DoneBatch(cfg, key, call)) ==
      OVERHEAD + |call.callId| + |PublicName(cfg, call.name)| +
      if PublicKind(cfg, call.name) == KindCustom then OVERHEAD else 0
  {
    var last := ToolCallCompleted(key, PublicKind(cfg, call.name), call.callId, PublicName(cfg, call.name),
      CompletedArguments(cfg, call));
    CostOfOne(last);
    CostOfTwo(ToolCallArguments(key, CompletedArguments(cfg, call)), last);
    assert [] + [last] == [last];
  }

  lemma CompleteOneExact(cfg: Config, st: State, key: ToolKey)
    requires key in st.calls && Ready(cfg, st.calls[key])
    requires st.budget.aggregate >= 0
    ensures var o, cost := CompleteOne(cfg, st, key), Cost(DoneBatch(cfg, key, st.calls[key]));
      && (o.err == NoError <==> Unwraps(cfg, st.calls[key]) && Fits(cfg, st.budget.aggregate, cost))
      && (o.err == NoError ==> o.st.budget.aggregate == st.budget.aggregate + cost)
  {
    DoneCost(cfg, key, st.calls[key]);
  }

  /** The ids of the calls are new and pairwise different. */
  predicate NewIds(calls: map<ToolKey, Call>, keys: seq<ToolKey>, ids: set<string>)
    requires forall k :: k in keys ==> k in calls
  {
    && (forall k :: k in keys ==> calls[k].callId !in ids)
    && (forall j, k :: j in keys && k in keys && j != k ==> calls[j].callId != calls[k].callId)
  }

  lemma NewIdsStep(calls: map<ToolKey, Call>, keys: seq<ToolKey>, ids: set<string>)
    requires keys != [] && Sorted(keys) && forall k :: k in keys ==> k in calls
    ensures NewIds(calls, keys, ids) <==>
      calls[keys[0]].callId !in ids && NewIds(calls, keys[1..], ids + {calls[keys[0]].callId})
  {
    SortedTail(keys);
    assert forall k :: k in keys <==> k == keys[0] || k in keys[1..];
  }

  lemma NewIdsFrame(a: map<ToolKey, Call>, b: map<ToolKey, Call>, keys: seq<ToolKey>, ids: set<string>)
    requires forall k :: k in keys ==> k in a && k in b && a[k] == b[k]
    ensures NewIds(a, keys, ids) <==> NewIds(b, keys, ids)
  {
  }

  predicate AllUnwrap(cfg: Config, calls: map<ToolKey, Call>, keys: seq<ToolKey>)
    requires forall k :: k in keys ==> k in calls
  {
    forall k :: k in keys ==> Unwraps(cfg, calls[k])
  }

  lemma {:induction false} CompleteAllCost(cfg: Config, st: State, keys: seq<ToolKey>, ids: set<string>)
    requires Sorted(keys) && AllReady(cfg, st.calls, keys) && 0 <= st.budget.aggregate <= cfg.maxAggregate
    requires forall k :: k in keys ==> st.calls[k].callId != ""
    ensures var o, cost := CompleteAll(cfg, st, keys, ids), Cost(DoneBatches(cfg, st.calls, keys));
      && (o.err == NoError <==>
            NewIds(st.calls, keys, ids) && AllUnwrap(cfg, st.calls, keys) && Fits(cfg, st.budget.aggregate, cost))
      && (o.err == NoError ==> o.st.budget.aggregate == st.budget.aggregate + cost)
    decreases |keys|, 0
  {
    if keys != [] {
      var key, rest, call := keys[0], keys[1..], st.calls[keys[0]];
      SortedTail(keys);
      NewIdsStep(st.calls, keys, ids);
      CostConcat(DoneBatch(cfg, key, call), DoneBatches(cfg, st.calls, rest));
      assert forall k :: k in keys <==> k == key || k in rest;
      if call.callId !in ids {
        CompleteOneExact(cfg, st, key);
        if CompleteOne(cfg, st, key).err == NoError {
          CompleteOneBatch(cfg, st, key);
          CompleteRestCost(cfg, st, CompleteOne(cfg, st, key).st, key, rest, ids + {call.callId});
        }
      }
    }
  }

  /** The calls after the first one, in terms of the calls before it was completed. */
  lemma {:induction false} CompleteRestCost(cfg: Config, st: State, st1: State, key: ToolKey, rest: seq<ToolKey>,
                                            ids: set<string>)
    requires Sorted(rest) && AllReady(cfg, st.calls, rest) && 0 <= st1.budget.aggregate <= cfg.maxAggregate
    requires forall k :: k in rest ==> st.calls[k].callId != ""
    requires key in st.calls && key !in rest && st1.calls == st.calls[key := CompletedCall(st.calls[key])]
    ensures var o, cost := CompleteAll(cfg, st1, rest, ids), Cost(DoneBatches(cfg, st.calls, rest));
      && (o.err == NoError <==>
            NewIds(st.calls, rest, ids) && AllUnwrap(cfg, st.calls, rest) && Fits(cfg, st1.budget.aggregate, cost))
      && (o.err == NoError ==> o.st.budget.aggregate == st1.budget.aggregate + cost)
    decreases |rest|, 1
  {
    assert forall k :: k in rest ==> k in st1.calls && st1.calls[k] == st.calls[k];
    CompleteAllCost(cfg, st1, rest, ids);
    BatchesFrame(cfg, st1.calls, st.calls, rest);
    NewIdsFrame(st1.calls, st.calls, rest, ids);
  }

  // ----- the terminal boundary -----

  ghost function BatchCost(cfg: Config, calls: map<ToolKey, Call>): nat {
    var order := KeyOrder(calls.Keys);
    Cost(StartBatches(cfg, calls, order)) + Cost(DoneBatches(cfg, calls, order))
  }

  /** Completing the started calls, in terms of the calls as they were before. */
  lemma CompleteStarted(cfg: Config, calls: map<ToolKey, Call>, st: State, order: seq<ToolKey>)
    requires IsKeyOrder(order, calls) && SameCalls(st.calls, calls) && AllReady(cfg, st.calls, order)
    requires 0 <= st.budget.aggregate <= cfg.maxAggregate && forall k :: k in calls ==> calls[k].callId != ""
    requires AllNamed(cfg, calls)
    ensures var o, cost := CompleteAll(cfg, st, order, {}), Cost(DoneBatches(cfg, calls, order));
      && (o.err == NoError <==> Deliverable(cfg, calls) && Fits(cfg, st.budget.aggregate, cost))
      && (o.err == NoError ==> o.st.budget.aggregate == st.budget.aggregate + cost)
  {
    assert forall k :: k in order ==> SameCall(st.calls[k], calls[k]);
    CompleteAllCost(cfg, st, order, {});
    BatchesFrame(cfg, st.calls, calls, order);
    SameIds(st.calls, calls, order);
    SameUnwraps(cfg, st.calls, calls, order);
  }

  predicate BatchSucceeds(cfg: Config, st: State, order: seq<ToolKey>)
    requires forall k :: k in order ==> k in st.calls
  {
    var o := StartAll(cfg, st, order);
    o.err == NoError && CompleteAll(cfg, o.st, order, {}).err == NoError
  }

  lemma NamedInOrder(cfg: Config, calls: map<ToolKey, Call>, order: seq<ToolKey>)
    requires IsKeyOrder(order, calls)
    ensures AllNamed(cfg, calls) <==> forall k :: k in order ==> Named(cfg, calls[k])
  {
  }

  lemma BatchExact(cfg: Config, log: seq<Event>, st: State, order: seq<ToolKey>, cost: nat)
    requires Streaming(cfg, log, st) && IsKeyOrder(order, st.calls)
    requires cost == Cost(StartBatches(cfg, st.calls, order)) + Cost(DoneBatches(cfg, st.calls, order))
    ensures BatchSucceeds(cfg, st, order) <==> Deliverable(cfg, st.calls) && Fits(cfg, st.budget.aggregate, cost)
    ensures BatchSucceeds(cfg, st, order) ==>
      CompleteAll(cfg, StartAll(cfg, st, order).st, order, {}).st.budget.aggregate == st.budget.aggregate + cost
  {
    StreamingUntouched(cfg, log, st, order);
    StartAllExact(cfg, st, order);
    NamedInOrder(cfg, st.calls, order);
    if StartAll(cfg, st, order).err == NoError {
      StartAllShape(cfg, st, order);
      CompleteStarted(cfg, st.calls, StartAll(cfg, st, order).st, order);
    }
  }

  lemma SameIds(a: map<ToolKey, Call>, b: map<ToolKey, Call>, keys: seq<ToolKey>)
    requires SameCalls(a, b) && forall k :: k in keys <==> k in a
    ensures NewIds(a, keys, {}) <==> AllDistinct(b)
  {
    assert forall k :: k in keys ==> SameCall(a[k], b[k]);
    assert forall k :: k in b ==> k in keys;
  }

  lemma SameUnwraps(cfg: Config, a: map<ToolKey, Call>, b: map<ToolKey, Call>, keys: seq<ToolKey>)
    requires SameCalls(a, b) && forall k :: k in keys <==> k in a
    ensures AllUnwrap(cfg, a, keys) <==> AllUnwrapped(cfg, b)
  {
    assert forall k :: k in keys ==> SameCall(a[k], b[k]);
    assert forall k :: k in b ==> k in keys;
  }

  // ----- what the end marker leaves behind -----

  /** The provider ended a turn of tool calls that can be delivered. */
  predicate ToolTurn(cfg: Config, st: State) {
    st.phase.finish == ToolCalls && !st.phase.conflict && st.calls != map[] && Deliverable(cfg, st.calls)
  }

  lemma NoTurnUnlessFinal(st: State)
    requires !st.phase.finalized || !st.phase.toolTurn
    ensures TurnOf(st).None?
  {
  }

  /** Without a successful batch nothing is marked final. */
  lemma FailedBatch(cfg: Config, log: seq<Event>, st: State, order: seq<ToolKey>)
    requires Streaming(cfg, log, st) && IsKeyOrder(order, st.calls) && !BatchSucceeds(cfg, st, order)
    ensures var o := FinishToolCalls(cfg, st, order); o.err != NoError && !o.st.phase.toolTurn
  {
    StartAllPhase(cfg, st, order);
    if StartAll(cfg, st, order).err == NoError {
      CompleteAllPhase(cfg, StartAll(cfg, st, order).st, order, {});
    }
  }

  lemma {:induction false} StartAllPhase(cfg: Config, st: State, keys: seq<ToolKey>)
    requires forall k :: k in keys ==> k in st.calls
    ensures StartAll(cfg, st, keys).st.phase == st.phase
    decreases |keys|
  {
    if keys != [] {
      if st.calls[keys[0]].stage.completed {
        StartAllPhase(cfg, st, keys[1..]);
      } else {
        StartAllPhase(cfg, EnsureStarted(cfg, st, keys[0]).st, keys[1..]);
      }
    }
  }

  lemma {:induction false} CompleteAllPhase(cfg: Config, st: State, keys: seq<ToolKey>, ids: set<string>)
    requires forall k :: k in keys ==> k in st.calls
    ensures CompleteAll(cfg, st, keys, ids).st.phase == st.phase
    decreases |keys|
  {
    if keys != [] {
      var call := st.calls[keys[0]];
      if call.stage.completed {
        CompleteAllPhase(cfg, st, keys[1..], ids);
      } else {
        CompleteAllPhase(cfg, CompleteOne(cfg, st, keys[0]).st, keys[1..],
          if call.callId == "" then ids else ids + {call.callId});
      }
    }
  }

  /** The state of a finished turn is the same to PendingTurn whether or not the
      last event found room. */
  lemma OfferedTurn(cfg: Config, log: seq<Event>, st: State, order: seq<ToolKey>)
    requires ConfigOk(cfg) && Streaming(cfg, log, st) && IsKeyOrder(order, st.calls)
    requires BatchSucceeds(cfg, st, order) && st.calls != map[]
    ensures TurnOf(FinishToolCalls(cfg, st, order).st).Some?
  {
    FinishToolCallsFinal(cfg, log, st, order);
    TurnMatchesStream(cfg, st.calls, FinishToolCalls(cfg, st, order).st);
  }

  lemma SameTurn(a: State, b: State)
    requires a.phase.finalized == b.phase.finalized && a.phase.toolTurn == b.phase.toolTurn
    requires a.calls == b.calls && a.transcript == b.transcript
    ensures TurnOf(a) == TurnOf(b)
  {
  }

  /** The end marker, when a tool turn was announced. */
  lemma ToolTurnEnd(cfg: Config, log: seq<Event>, st: State, order: seq<ToolKey>, cost: nat)
    requires ConfigOk(cfg) && Streaming(cfg, log, st) && st.calls != map[] && IsKeyOrder(order, st.calls)
    requires cost == Cost(StartBatches(cfg, st.calls, order)) + Cost(DoneBatches(cfg, st.calls, order))
    ensures var o := FinishToolCalls(cfg, st, order);
      && (TurnOf(o.st).Some? <==> Deliverable(cfg, st.calls) && Fits(cfg, st.budget.aggregate, cost))
      && (o.err == NoError <==>
        Deliverable(cfg, st.calls) && st.budget.aggregate + cost + OVERHEAD <= cfg.maxAggregate)
  {
    BatchExact(cfg, log, st, order, cost);
    if BatchSucceeds(cfg, st, order) {
      OfferedTurn(cfg, log, st, order);
      FinishedState(cfg, st, order, CompleteAll(cfg, StartAll(cfg, st, order).st, order, {}).st);
    } else {
      FailedBatch(cfg, log, st, order);
      NoTurnUnlessFinal(FinishToolCalls(cfg, st, order).st);
    }
  }

  /** The end marker runs Finish and keeps what it leaves. */
  lemma EndMarker(cfg: Config, st: State, order: seq<ToolKey>)
    requires order == KeyOrder(st.calls.Keys) && st.pending == []
    ensures var o, st1 := Finish(cfg, st, order), Step(cfg, st, ProviderDone);
      && TurnOf(st1) == TurnOf(o.st)
      && (o.err != NoError ==> !EndsCompleted(st1.pending))
      && (o.err == NoError ==> st1.pending == o.st.pending)
  {
    var o, st1 := Finish(cfg, st, order), Step(cfg, st, ProviderDone);
    SameTurn(st1, o.st);
  }

  lemma OtherEnd(cfg: Config, log: seq<Event>, st: State, order: seq<ToolKey>)
    requires Streaming(cfg, log, st) && IsKeyOrder(order, st.calls) && st.pending == [] && st.calls != map[]
    requires st.phase.finish != ToolCalls || st.phase.conflict
    ensures var o := Finish(cfg, st, order); TurnOf(o.st).None? && !EndsCompleted(o.st.pending)
  {
    NoTurnUnlessFinal(Finish(cfg, st, order).st);
  }

  /** PendingTurn offers a turn after the end marker exactly for a deliverable tool
      turn whose batch fits the aggregate budget; the stream ends in Completed
      exactly if one more event still fits. In between lies the window of one
      event in which the stream fails and the turn is offered all the same. */
  lemma TurnOfferedExactly(cfg: Config, log: seq<Event>, st: State)
    requires ConfigOk(cfg) && Streaming(cfg, log, st) && st.pending == [] && st.calls != map[]
    ensures var st1, need := Step(cfg, st, ProviderDone), st.budget.aggregate + BatchCost(cfg, st.calls);
      && (TurnOf(st1).Some? <==> ToolTurn(cfg, st) && need <= cfg.maxAggregate)
      && (EndsCompleted(st1.pending) <==> ToolTurn(cfg, st) && need <= cfg.maxAggregate - OVERHEAD)
  {
    var order := KeyOrder(st.calls.Keys);
    EndMarker(cfg, st, order);
    if st.phase.finish == ToolCalls && !st.phase.conflict {
      ToolTurnEnd(cfg, log, st, order, BatchCost(cfg, st.calls));
      FinishedToolTurn(cfg, log, st, order);
    } else {
      OtherEnd(cfg, log, st, order);
    }
  }

  lemma FinishedToolTurn(cfg: Config, log: seq<Event>, st: State, order: seq<ToolKey>)
    requires Streaming(cfg, log, st) && IsKeyOrder(order, st.calls)
    requires st.phase.finish == ToolCalls && !st.phase.conflict
    ensures Finish(cfg, st, order) == FinishToolCalls(cfg, st, order)
    ensures FinishToolCalls(cfg, st, order).err == NoError ==> EndsCompleted(FinishToolCalls(cfg, st, order).st.pending)
  {
    if FinishToolCalls(cfg, st, order).err == NoError {
      FinishToolCallsShape(cfg, log, st, order);
    }
  }

  lemma OfferedAlthoughFailed(cfg: Config, log: seq<Event>, st: State)
    requires ConfigOk(cfg) && Streaming(cfg, log, st) && st.pending == [] && st.calls != map[]
    ensures var st1, need := Step(cfg, st, ProviderDone), st.budget.aggregate + BatchCost(cfg, st.calls);
      TurnOf(st1).Some? && !EndsCompleted(st1.pending) <==>
      ToolTurn(cfg, st) && cfg.maxAggregate - OVERHEAD < need <= cfg.maxAggregate
  {
    TurnOfferedExactly(cfg, log, st);
  }

  // ----- an input that lands in the window -----

  const ONE_TOOL := Chunk("", "", [Choice(0, ToolCalls, "", "", [ToolDelta(Some(0), "c", "function", "f", "")])], None)

  const ONE_CALL := Call("c", "c", "f", "", UNKNOWN)

  /** A configuration that declares the tool f and allows 200 bytes in all. */
  predicate Tight(cfg: Config) {
    && cfg.maxAggregate == 200 && cfg.allowed == {"f"} && cfg.registry == map[]
    && cfg.maxToolCalls == 1 && cfg.maxChoices == 1 && cfg.maxToolName == 64 && cfg.maxProviderId == 64
    && cfg.maxToolArguments == 64 && cfg.maxOutput == 64
  }

  const AFTER_ONE_TOOL := State([], map[ToolKey(0, 0) := ONE_CALL], Budget(65, 0, 0, 0),
    Phase(true, false, ToolCalls, false, false, false), Transcript("", "", ""), map[0 := ToolCalls])

  lemma OneToolOpened(cfg: Config, st: State)
    requires Tight(cfg) && st.calls == map[] && st.budget == Budget(64, 0, 0, 0)
    ensures ConsumeTool(cfg, true, st, 0, ONE_TOOL.choices[0].tools[0]) ==
      Out(st.(calls := map[ToolKey(0, 0) := ONE_CALL], budget := Budget(65, 0, 0, 0)), NoError)
  {
    var tool, key := ONE_TOOL.choices[0].tools[0], ToolKey(0, 0);
    var o := OpenCall(cfg, true, st, key, tool);
    assert o == Out(st.(calls := map[key := Call("c", "", "", "", UNKNOWN)]), NoError);
    assert "" + "f" == "f" && "" + "" == "";
    var o1 := ExtendId(cfg, true, o.st, key, tool);
    assert o1 == Out(st.(calls := map[key := Call("c", "c", "", "", UNKNOWN)], budget := Budget(65, 0, 0, 0)), NoError);
  }

  lemma OneToolConsumed(cfg: Config)
    requires Tight(cfg)
    ensures ConsumeChunk(cfg, INITIAL, ONE_TOOL) == Out(AFTER_ONE_TOOL.(pending := [ResponseStarted("", "")]), NoError)
  {
    var c, tools := ONE_TOOL.choices[0], ONE_TOOL.choices[0].tools;
    var st := INITIAL.(pending := [ResponseStarted("", "")], budget := Budget(64, 0, 0, 0),
                       phase := Phase(true, false, NoFinish, false, false, false));
    OneToolValid(cfg);
    assert [] + [ResponseStarted("", "")] == [ResponseStarted("", "")];
    assert Announce(cfg, INITIAL, ONE_TOOL) == Out(st, NoError);
    var st1 := st.(phase := st.phase.(finish := ToolCalls));
    OneToolOpened(cfg, st1);
    assert tools[1..] == [];
    var o := ConsumeTools(cfg, true, st1, 0, tools, {});
    assert o == ConsumeTool(cfg, true, st1, 0, tools[0]);
    assert ConsumeChoice(cfg, true, st, c) == Out(CloseChoice(o.st, c), NoError);
    assert ONE_TOOL.choices[1..] == [];
    assert ConsumeChoices(cfg, true, st, ONE_TOOL.choices, {}) == ConsumeChoice(cfg, true, st, c);
  }

  lemma OneToolValid(cfg: Config)
    requires Tight(cfg)
    ensures ValidateChunk(cfg, map[], ONE_TOOL) == NoError
  {
    var tools := ONE_TOOL.choices[0].tools;
    assert tools[1..] == [] && ONE_TOOL.choices[1..] == [];
    assert ValidateTools(cfg, map[], 0, tools, {}, 0) == (NoError, 1);
    assert ValidateChoices(cfg, map[], ONE_TOOL.choices, {}, 0) == (NoError, 1);
  }

  /** A run that ends in Failed and yet leaves a turn: the events need 197 bytes, the
      end marker 64 more than the 200 allowed. */
  lemma OfferedAlthoughFailedExample(cfg: Config)
    requires Tight(cfg)
    ensures Output(cfg, [Data(ONE_TOOL), ProviderDone]) == [ResponseStarted("", ""), Failed(StreamLimitExceeded)]
    ensures TurnOf(Run(cfg, INITIAL, [Data(ONE_TOOL), ProviderDone]).st).Some?
  {
    var input := [Data(ONE_TOOL), ProviderDone];
    OneToolConsumed(cfg);
    var st1 := Step(cfg, INITIAL, Data(ONE_TOOL));
    assert st1 == AFTER_ONE_TOOL.(pending := [ResponseStarted("", "")]);
    assert Released(st1) == AFTER_ONE_TOOL && input[1..] == [ProviderDone] && [ProviderDone][1..] == [];
    OneToolEnds(cfg);
    var st2 := Step(cfg, AFTER_ONE_TOOL, ProviderDone);
    assert Run(cfg, AFTER_ONE_TOOL, [ProviderDone]) == Outcome(Released(st2), [Failed(StreamLimitExceeded)] + []);
    SameTurn(Released(st2), st2);
  }

  const ONE_STARTED := ONE_CALL.(stage := Stage(KindFunction, None, true, false))
  const ONE_DONE := ONE_CALL.(stage := Stage(KindFunction, None, true, true))

  lemma OneToolStarted(cfg: Config, order: seq<ToolKey>)
    requires Tight(cfg) && order == [ToolKey(0, 0)]
    ensures var o := StartAll(cfg, AFTER_ONE_TOOL, order);
      o.err == NoError && o.st.budget.aggregate == 131 && o.st.calls == map[ToolKey(0, 0) := ONE_STARTED]
      && o.st.transcript == AFTER_ONE_TOOL.transcript
  {
    assert order[1..] == [];
    assert StartAll(cfg, AFTER_ONE_TOOL, order) == EnsureStarted(cfg, AFTER_ONE_TOOL, order[0]);
  }

  lemma OneToolCompleted(cfg: Config, order: seq<ToolKey>, st: State)
    requires Tight(cfg) && order == [ToolKey(0, 0)]
    requires st.budget.aggregate == 131 && st.calls == map[ToolKey(0, 0) := ONE_STARTED]
    ensures var o := CompleteAll(cfg, st, order, {});
      o.err == NoError && o.st.budget.aggregate == 197 && o.st.calls == map[ToolKey(0, 0) := ONE_DONE]
  {
    assert order[1..] == [];
    assert CompleteAll(cfg, st, order, {}) == CompleteOne(cfg, st, order[0]);
  }

  lemma OneToolEnds(cfg: Config)
    requires Tight(cfg)
    ensures var st := Step(cfg, AFTER_ONE_TOOL, ProviderDone);
      st.phase.terminal && st.pending == [Failed(StreamLimitExceeded)] && TurnOf(st).Some?
  {
    var order := KeyOrder(AFTER_ONE_TOOL.calls.Keys);
    KeyOrderUnique(order, [ToolKey(0, 0)]);
    OneToolStarted(cfg, order);
    var st := StartAll(cfg, AFTER_ONE_TOOL, order).st;
    OneToolCompleted(cfg, order, st);
    FinishedState(cfg, AFTER_ONE_TOOL, order, CompleteAll(cfg, st, order, {}).st);
    OneToolMarked(cfg, AFTER_ONE_TOOL, order, FinishToolCalls(cfg, AFTER_ONE_TOOL, order));
  }

  lemma OneToolMarked(cfg: Config, before: State, order: seq<ToolKey>, f: Out)
    requires order == KeyOrder(before.calls.Keys) && before.phase.finish == ToolCalls && !before.phase.conflict
    requires f == FinishToolCalls(cfg, before, order) && f.err == AggregateLimit
    requires f.st.phase.finalized && f.st.phase.toolTurn && f.st.calls == map[ToolKey(0, 0) := ONE_DONE]
    ensures var st := Step(cfg, before, ProviderDone);
      st.phase.terminal && st.pending == [Failed(StreamLimitExceeded)] && TurnOf(st).Some?
  {
    FailedMark(cfg, before, order, f);
    OneTurn(f.st);
    SameTurn(FailWith(f.st, StreamLimitExceeded), f.st);
  }

  lemma FailedMark(cfg: Config, before: State, order: seq<ToolKey>, f: Out)
    requires order == KeyOrder(before.calls.Keys) && before.phase.finish == ToolCalls && !before.phase.conflict
    requires f == FinishToolCalls(cfg, before, order) && f.err == AggregateLimit
    ensures Step(cfg, before, ProviderDone) == FailWith(f.st, StreamLimitExceeded)
  {
  }

  lemma OneTurn(st: State)
    requires st.phase.finalized && st.phase.toolTurn && st.calls == map[ToolKey(0, 0) := ONE_DONE]
    ensures TurnOf(st).Some?
  {
    var order := KeyOrder(st.calls.Keys);
    KeyOrderUnique(order, [ToolKey(0, 0)]);
    assert order[1..] == [];
    assert RetainedCalls(st.calls, order[1..]) == Some([]);
  }
}
