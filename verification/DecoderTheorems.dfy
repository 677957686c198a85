/** Theorems about whole decoder runs: legality of the event stream, termination
    by budget, and the exact content of a completed tool turn. */
module DecoderTheorems {
  import opened Bridge
  import opened DecoderEffects
  import opened DecoderFinish
  import opened DecoderRun
  import opened DecoderSafety
  import opened DecoderSpec
  import opened Protocol

  // ----- every run is legal and ends once -----

  lemma FailLegal(cfg: Config, released: seq<Event>, st: State, before: State, code: FailureCode)
    requires Streaming(cfg, released, before) && before.pending == []
    ensures EndsLegally(cfg, released + FailWith(st, code).pending, FailWith(st, code))
  {
    assert released + [] == released;
    WatchQueued(cfg, released, [], Failed(code));
    assert [] + [Failed(code)] == [Failed(code)];
  }

  lemma DataStepLegal(cfg: Config, released: seq<Event>, st: State, chunk: Chunk)
    requires ConfigOk(cfg) && Streaming(cfg, released, st) && st.pending == []
    requires forall j :: 0 <= j < |chunk.choices| ==> ChoiceOk(cfg, chunk.choices[j])
    requires !Step(cfg, st, Data(chunk)).phase.terminal
    ensures var st1 := Step(cfg, st, Data(chunk)); Streaming(cfg, released + st1.pending, st1)
  {
    assert released + [] == released;
    ChunkStreaming(cfg, released, st, chunk);
  }

  lemma ChunkKeepsRunning(cfg: Config, st: State, chunk: Chunk)
    requires !st.phase.terminal && ConsumeChunk(cfg, st, chunk).err == NoError
    ensures !ConsumeChunk(cfg, st, chunk).st.phase.terminal
  {
    var st1 := AdoptModel(Announce(cfg, st, chunk).st, chunk);
    ChoicesKeepRunning(cfg, st1, chunk.choices, {});
  }

  lemma {:induction false} ChoicesKeepRunning(cfg: Config, st: State, choices: seq<Choice>, seen: set<int>)
    requires !st.phase.terminal && ConsumeChoices(cfg, true, st, choices, seen).err == NoError
    ensures !ConsumeChoices(cfg, true, st, choices, seen).st.phase.terminal
    decreases |choices|
  {
    if choices != [] {
      var c := choices[0];
      var st0 := st.(phase := RecordFinish(st.phase, c.finish));
      ContentEffect(cfg, st0, c);
      ConsumeToolsOutside(cfg, ConsumeReasoning(cfg, ConsumeContent(cfg, st0, c).st, c).st, c.index, c.tools, {});
      ChoicesKeepRunning(cfg, ConsumeChoice(cfg, true, st, c).st, choices[1..], seen + {c.index});
    }
  }

  /** A step that ends the run ends the stream legally. */
  lemma FinalStepLegal(cfg: Config, released: seq<Event>, st: State, pe: ProviderEvent)
    requires ConfigOk(cfg) && Streaming(cfg, released, st) && st.pending == [] && !st.phase.terminal
    requires Step(cfg, st, pe).phase.terminal
    ensures var st1 := Step(cfg, st, pe); EndsLegally(cfg, released + st1.pending, st1)
  {
    assert released + [] == released;
    match pe
    case ReadFailed(cause) => FailLegal(cfg, released, st, st, ReadFailure(cause));
    case ProviderError => FailLegal(cfg, released, st, st, UpstreamError);
    case NoChunk => FailLegal(cfg, released, st, st, UpstreamStreamError);
    case ProviderDone =>
      var o := Finish(cfg, st, KeyOrder(st.calls.Keys));
      if o.err != NoError {
        FailLegal(cfg, released, o.st, st, BridgeFailure(o.err));
      } else {
        FinishLegal(cfg, released, st, KeyOrder(st.calls.Keys));
      }
    case Data(chunk) =>
      var o := ConsumeChunk(cfg, st, chunk);
      if o.err != NoError {
        FailLegal(cfg, released, o.st, st, BridgeFailure(o.err));
      } else {
        ChunkKeepsRunning(cfg, st, chunk);
        var o1 := Reserve(cfg, o.st, OVERHEAD);
        FailLegal(cfg, released, o1.st, st, BridgeFailure(o1.err));
      }
  }

  lemma {:induction false} RunLegal(cfg: Config, released: seq<Event>, st: State, input: seq<ProviderEvent>)
    requires ConfigOk(cfg) && InputOk(cfg, input)
    requires Streaming(cfg, released, st) && st.pending == [] && !st.phase.terminal
    ensures var r := Run(cfg, st, input); EndsLegally(cfg, released + r.events, r.st)
    decreases |input|
  {
    if input == [] {
      FailLegal(cfg, released, st, st, UpstreamEof);
    } else {
      var st1 := Step(cfg, st, input[0]);
      var rest := Run(cfg, Released(st1), input[1..]);
      assert released + (st1.pending + rest.events) == (released + st1.pending) + rest.events;
      if st1.phase.terminal {
        FinalStepLegal(cfg, released, st, input[0]);
        assert rest.events == [] && (released + st1.pending) + [] == released + st1.pending;
      } else {
        DataStepLegal(cfg, released, st, input[0].chunk);
        InputTail(cfg, input);
        RunLegal(cfg, released + st1.pending, Released(st1), input[1..]);
      }
    }
  }

  lemma InputTail(cfg: Config, input: seq<ProviderEvent>)
    requires InputOk(cfg, input) && input != []
    ensures InputOk(cfg, input[1..])
  {
    assert forall i :: 0 <= i < |input[1..]| ==> input[1..][i] == input[i + 1];
  }

  lemma InitialStreaming(cfg: Config)
    requires ConfigOk(cfg)
    ensures Streaming(cfg, [], INITIAL)
  {
    assert Weights(map[], ArgumentBytes) == map[];
  }

  /** Every upstream response yields a legal event stream that is ended by its
      one terminal event, and whose totals fit the decoder's own limits. */
  lemma OutputLegal(cfg: Config, input: seq<ProviderEvent>)
    requires ConfigOk(cfg) && InputOk(cfg, input)
    ensures Watch(cfg.utf8, Output(cfg, input)).Some?
    ensures Watch(cfg.utf8, Output(cfg, input)).value.ended
    ensures TotalsFit(cfg, Watch(cfg.utf8, Output(cfg, input)).value.totals)
    ensures ToolsWithin(Watch(cfg.utf8, Output(cfg, input)).value.tools, cfg.maxToolArguments)
    ensures var tools := Watch(cfg.utf8, Output(cfg, input)).value.tools;
      tools != map[] ==> TurnTracked(cfg, Run(cfg, INITIAL, input).st.calls, tools)
  {
    InitialStreaming(cfg);
    RunLegal(cfg, [], INITIAL, input);
    assert [] + Output(cfg, input) == Output(cfg, input);
  }

  // ----- consequences of legality -----

  /** In a legal stream only the last event can be terminal, and it is exactly when the stream has ended. */
  lemma {:induction false} OneTerminal(utf8: Utf8Test, events: seq<Event>)
    requires Watch(utf8, events).Some?
    ensures forall i :: 0 <= i < |events| - 1 ==> !IsTerminal(events[i])
    ensures Watch(utf8, events).value.ended <==> events != [] && IsTerminal(events[|events| - 1])
    decreases |events|
  {
    if events != [] {
      var n := |events| - 1;
      OneTerminal(utf8, events[..n]);
      assert forall i :: 0 <= i < n ==> events[..n][i] == events[i];
      assert n > 0 ==> IsTerminal(events[n - 1]) == IsTerminal(events[..n][n - 1]);
    }
  }

  predicate IsToolEvent(e: Event) {
    e.ToolCallStarted? || e.ToolCallArguments? || e.ToolCallCompleted?
  }

  lemma {:induction false} ToolEventTracked(utf8: Utf8Test, events: seq<Event>, i: nat)
    requires Watch(utf8, events).Some? && i < |events| && IsToolEvent(events[i])
    ensures events[i].key in Watch(utf8, events).value.tools
    decreases |events|
  {
    var n := |events| - 1;
    if i < n {
      ToolEventTracked(utf8, events[..n], i);
    }
  }

  lemma ToolEventMeansCompleted(utf8: Utf8Test, events: seq<Event>, i: nat)
    requires Watch(utf8, events).Some? && Watch(utf8, events).value.ended
    requires i < |events| && IsToolEvent(events[i])
    ensures events[|events| - 1] == Completed
  {
    var n := |events| - 1;
    OneTerminal(utf8, events);
    assert i < n && events[..n][i] == events[i];
    ToolEventTracked(utf8, events[..n], i);
  }

  /** All or nothing: a run that releases any tool-call event ends in Completed. */
  lemma ToolEventsMeanCompleted(cfg: Config, input: seq<ProviderEvent>, i: nat)
    requires ConfigOk(cfg) && InputOk(cfg, input)
    requires i < |Output(cfg, input)| && IsToolEvent(Output(cfg, input)[i])
    ensures Output(cfg, input)[|Output(cfg, input)| - 1] == Completed
  {
    OutputLegal(cfg, input);
    ToolEventMeansCompleted(cfg.utf8, Output(cfg, input), i);
  }

  /** ResponseStarted comes before every other event except a failure. */
  lemma {:induction false} StartedFirst(utf8: Utf8Test, events: seq<Event>)
    requires Watch(utf8, events).Some? && events != []
    ensures events[0].ResponseStarted? || (events[0].Failed? && |events| == 1)
    ensures forall i :: 0 < i < |events| ==> !events[i].ResponseStarted?
    ensures Watch(utf8, events).value.open <==> events[0].ResponseStarted?
    decreases |events|
  {
    var n := |events| - 1;
    OneTerminal(utf8, events);
    if n > 0 {
      StartedFirst(utf8, events[..n]);
      assert events[..n][0] == events[0];
      assert forall i :: 0 < i < n ==> events[i] == events[..n][i];
    } else {
      assert events[..0] == [];
    }
  }
}
