/** The window of DecoderTurn in whole runs: when a run of the decoder leaves a turn,
    and when it does so although its stream has failed. */
module DecoderOffers {
  import opened Bridge
  import opened DecoderBudget
  import opened DecoderCaps
  import opened DecoderContent
  import opened DecoderEffects
  import opened DecoderRun
  import opened DecoderSafety
  import opened DecoderSpec
  import opened DecoderTheorems
  import opened DecoderTurn

  // ----- the states between two provider events -----

  /** A run that has not ended stands in a legal state. */
  lemma {:induction false} ReachedStreaming(cfg: Config, log: seq<Event>, st: State, input: seq<ProviderEvent>)
    requires ConfigOk(cfg) && InputOk(cfg, input)
    requires Streaming(cfg, log, st) && st.pending == [] && !st.phase.terminal
    requires !Reached(cfg, st, input).st.phase.terminal
    ensures var here := Reached(cfg, st, input); Streaming(cfg, log + here.events, here.st) && here.st.pending == []
    decreases |input|
  {
    if input == [] {
      assert log + [] == log;
    } else {
      var st1, rest := Step(cfg, st, input[0]), input[1..];
      assert !st1.phase.terminal;
      RunContinues(cfg, log, st, input[0], st1);
      InputTail(cfg, input);
      ReachedStreaming(cfg, log + st1.pending, Released(st1), rest);
      Regrouped(log, st1.pending, Reached(cfg, Released(st1), rest).events);
    }
  }

  lemma PrefixOk(cfg: Config, input: seq<ProviderEvent>, n: nat)
    requires InputOk(cfg, input) && n <= |input|
    ensures InputOk(cfg, input[..n])
  {
    assert forall i :: 0 <= i < n ==> input[..n][i] == input[i];
  }

  /** Where a run stands before its event n. */
  ghost function Before(cfg: Config, input: seq<ProviderEvent>, n: nat): State
    requires n <= |input|
  {
    Reached(cfg, INITIAL, input[..n]).st
  }

  /** The run is still going when event n is the end marker. */
  ghost predicate Marked(cfg: Config, input: seq<ProviderEvent>, n: nat) {
    n < |input| && input[n].ProviderDone? && !Before(cfg, input, n).phase.terminal
  }

  // ----- the end marker -----

  /** What the run has become once the marker has been taken. */
  lemma MarkerEnds(cfg: Config, input: seq<ProviderEvent>, n: nat)
    requires Marked(cfg, input, n)
    ensures var st1 := Step(cfg, Before(cfg, input, n), ProviderDone);
      Run(cfg, INITIAL, input) == Outcome(Released(st1), Reached(cfg, INITIAL, input[..n]).events + st1.pending)
  {
    var before, later := input[..n], input[n..];
    var here := Reached(cfg, INITIAL, before);
    RunResumes(cfg, INITIAL, before, later);
    assert before + later == input;
    var st1 := Step(cfg, here.st, ProviderDone);
    assert later[0] == ProviderDone && st1.phase.terminal;
    assert Run(cfg, Released(st1), later[1..]) == Outcome(Released(st1), []);
    assert st1.pending + [] == st1.pending;
  }

  /** Without calls there is no turn. */
  lemma NoCallsNoTurn(cfg: Config, log: seq<Event>, st: State)
    requires Streaming(cfg, log, st) && st.calls == map[]
    ensures TurnOf(Step(cfg, st, ProviderDone)).None?
  {
    var order := KeyOrder(st.calls.Keys);
    assert order == [];
    NoTurnUnlessFinal(Step(cfg, st, ProviderDone));
  }

  lemma SameOffer(st: State)
    ensures TurnOf(Released(st)) == TurnOf(st)
  {
    SameTurn(Released(st), st);
  }

  // ----- only the end marker makes a turn final -----

  predicate AsFinal(a: State, b: State) {
    b.phase.finalized == a.phase.finalized
  }

  lemma ContentAsFinal(cfg: Config, st: State, c: Choice)
    ensures AsFinal(st, ConsumeContent(cfg, st, c).st) && AsFinal(st, ConsumeReasoning(cfg, st, c).st)
  {
  }

  lemma ChoiceAsFinal(cfg: Config, st: State, c: Choice)
    ensures AsFinal(st, ConsumeChoice(cfg, true, st, c).st)
  {
    var st0 := st.(phase := RecordFinish(st.phase, c.finish));
    var o := ConsumeContent(cfg, st0, c);
    ContentAsFinal(cfg, st0, c);
    var o1 := ConsumeReasoning(cfg, o.st, c);
    ContentAsFinal(cfg, o.st, c);
    ConsumeToolsOutside(cfg, o1.st, c.index, c.tools, {});
  }

  lemma {:induction false} ChoicesAsFinal(cfg: Config, st: State, choices: seq<Choice>, seen: set<int>)
    ensures AsFinal(st, ConsumeChoices(cfg, true, st, choices, seen).st)
    decreases |choices|
  {
    if choices != [] {
      var rest, seen1 := choices[1..], seen + {choices[0].index};
      ChoiceAsFinal(cfg, st, choices[0]);
      ChoicesAsFinal(cfg, ConsumeChoice(cfg, true, st, choices[0]).st, rest, seen1);
    }
  }

  lemma ChunkAsFinal(cfg: Config, st: State, chunk: Chunk)
    ensures AsFinal(st, ConsumeChunk(cfg, st, chunk).st)
  {
    var st1 := AdoptModel(Announce(cfg, st, chunk).st, chunk);
    assert AsFinal(st, st1);
    ChoicesAsFinal(cfg, st1, chunk.choices, {});
  }

  lemma StepAsFinal(cfg: Config, st: State, pe: ProviderEvent)
    requires !pe.ProviderDone?
    ensures AsFinal(st, Step(cfg, st, pe))
  {
    if pe.Data? {
      ChunkAsFinal(cfg, st, pe.chunk);
    }
  }

  /** A run that leaves a turn has taken the end marker. */
  lemma {:induction false} MarkerFound(cfg: Config, st: State, input: seq<ProviderEvent>) returns (n: nat)
    requires !st.phase.terminal && !st.phase.finalized && TurnOf(Run(cfg, st, input).st).Some?
    ensures n < |input| && input[n].ProviderDone? && !Reached(cfg, st, input[..n]).st.phase.terminal
    decreases |input|
  {
    if input == [] {
      NoTurnUnlessFinal(Close(st));
      assert false;
    } else if input[0].ProviderDone? {
      n := 0;
    } else {
      var first, rest := input[0], input[1..];
      var st1 := Step(cfg, st, first);
      StepAsFinal(cfg, st, first);
      assert [first] + rest == input;
      RunStep(cfg, st, first, rest, st1);
      if st1.phase.terminal {
        NoTurnUnlessFinal(Released(st1));
        assert false;
      } else {
        var m := MarkerFound(cfg, Released(st1), rest);
        n := m + 1;
        assert input[..m + 1][0] == first && input[..m + 1][1..] == rest[..m];
      }
    }
  }

  // ----- the window, in whole runs -----

  /** What the events so far and the whole batch take from the aggregate. */
  ghost function Need(cfg: Config, st: State): int {
    st.budget.aggregate + BatchCost(cfg, st.calls)
  }

  ghost predicate Offers(cfg: Config, st: State) {
    ToolTurn(cfg, st) && Need(cfg, st) <= cfg.maxAggregate
  }

  ghost predicate InWindow(cfg: Config, st: State) {
    ToolTurn(cfg, st) && cfg.maxAggregate - OVERHEAD < Need(cfg, st) <= cfg.maxAggregate
  }

  lemma PlainPending(cfg: Config, st: State, order: seq<ToolKey>)
    requires IsKeyOrder(order, st.calls) && !ToolFinish(st)
    ensures Finish(cfg, st, order).err == NoError ==> Finish(cfg, st, order).st.pending != []
  {
  }

  /** The end marker always has an answer. */
  lemma MarkerPending(cfg: Config, log: seq<Event>, st: State)
    requires Streaming(cfg, log, st) && st.pending == []
    ensures Step(cfg, st, ProviderDone).pending != []
  {
    var order := KeyOrder(st.calls.Keys);
    MarkerStep(cfg, st, order);
    if ToolFinish(st) {
      FinishedToolTurn(cfg, log, st, order);
    } else {
      PlainPending(cfg, st, order);
    }
  }

  lemma MarkerStep(cfg: Config, st: State, order: seq<ToolKey>)
    requires order == KeyOrder(st.calls.Keys)
    ensures var o, st1 := Finish(cfg, st, order), Step(cfg, st, ProviderDone);
      st1.pending == if o.err == NoError then o.st.pending else [Failed(BridgeFailure(o.err))]
  {
  }

  lemma MarkerOffers(cfg: Config, log: seq<Event>, st: State)
    requires ConfigOk(cfg) && Streaming(cfg, log, st) && st.pending == []
    ensures var st1 := Step(cfg, st, ProviderDone);
      && (TurnOf(st1).Some? <==> Offers(cfg, st))
      && (TurnOf(st1).Some? && !EndsCompleted(st1.pending) <==> InWindow(cfg, st))
  {
    if st.calls == map[] {
      NoCallsNoTurn(cfg, log, st);
    } else {
      TurnOfferedExactly(cfg, log, st);
    }
  }

  lemma EndsAlike(before: seq<Event>, last: seq<Event>)
    requires last != []
    ensures EndsCompleted(before + last) <==> EndsCompleted(last)
  {
  }

  /** What a marked run leaves and how its stream ends. */
  lemma MarkedOffers(cfg: Config, input: seq<ProviderEvent>, n: nat)
    requires ConfigOk(cfg) && InputOk(cfg, input) && Marked(cfg, input, n)
    ensures TurnOf(Run(cfg, INITIAL, input).st).Some? <==> Offers(cfg, Before(cfg, input, n))
    ensures TurnOf(Run(cfg, INITIAL, input).st).Some? && !EndsCompleted(Output(cfg, input)) <==>
      InWindow(cfg, Before(cfg, input, n))
  {
    var before := input[..n];
    var here := Reached(cfg, INITIAL, before);
    PrefixOk(cfg, input, n);
    InitialStreaming(cfg);
    ReachedStreaming(cfg, [], INITIAL, before);
    MarkerEnds(cfg, input, n);
    MarkerOffers(cfg, [] + here.events, here.st);
    MarkerPending(cfg, [] + here.events, here.st);
    var st1 := Step(cfg, here.st, ProviderDone);
    SameOffer(st1);
    EndsAlike(here.events, st1.pending);
  }

  /** A turn is offered after a run exactly if the end marker meets a running
      decoder with a deliverable tool turn whose batch fits the aggregate. */
  lemma TurnOfferedInRun(cfg: Config, input: seq<ProviderEvent>)
    requires ConfigOk(cfg) && InputOk(cfg, input)
    ensures TurnOf(Run(cfg, INITIAL, input).st).Some? <==>
      exists n :: Marked(cfg, input, n) && Offers(cfg, Before(cfg, input, n))
  {
    if TurnOf(Run(cfg, INITIAL, input).st).Some? {
      var n := MarkerFound(cfg, INITIAL, input);
      assert Marked(cfg, input, n);
      MarkedOffers(cfg, input, n);
    }
    if n :| Marked(cfg, input, n) && Offers(cfg, Before(cfg, input, n)) {
      MarkedOffers(cfg, input, n);
    }
  }

  /** The window, for every run: the stream does not end in Completed and a turn is
      offered all the same, exactly if the batch fits and one more event does not. */
  lemma OfferedAlthoughFailedInRun(cfg: Config, input: seq<ProviderEvent>)
    requires ConfigOk(cfg) && InputOk(cfg, input)
    ensures TurnOf(Run(cfg, INITIAL, input).st).Some? && !EndsCompleted(Output(cfg, input)) <==>
      exists n :: Marked(cfg, input, n) && InWindow(cfg, Before(cfg, input, n))
  {
    if TurnOf(Run(cfg, INITIAL, input).st).Some? {
      var n := MarkerFound(cfg, INITIAL, input);
      assert Marked(cfg, input, n);
      MarkedOffers(cfg, input, n);
    }
    if n :| Marked(cfg, input, n) && InWindow(cfg, Before(cfg, input, n)) {
      MarkedOffers(cfg, input, n);
    }
  }
}
