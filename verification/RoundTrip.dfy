/** The gateway's promises over a whole request, and from one request to the next. */
module RoundTrip {
  import opened Bridge
  import ContinuationRuns
  import ContinuationSafety
  import C = ContinuationSpec
  import ContinuationSteps
  import ContinuationTheorems
  import DecoderContent
  import DecoderRun
  import DecoderSafety
  import D = DecoderSpec
  import DecoderTheorems
  import opened HandlerFrames
  import opened HandlerSpec
  import opened HandlerTheorems
  import opened PipelineTheorems
  import opened Protocol
  import opened Replay
  import opened SessionSpec
  import opened ToolResults
  import opened ToolTurns

  /** The handler of one request: a started session, the decoder's whole output,
      and whatever the outside does. */
  ghost function HandleRequest(cfg: D.Config, c: Config, model: string, leased: bool, input: seq<D.ProviderEvent>,
                               moments: seq<Moment>): Handler
    requires |moments| > |DecoderRun.Output(cfg, input)|
  {
    Serve(c, leased, DecoderContent.TurnOf(DecoderRun.Run(cfg, D.INITIAL, input).st),
      Begun(Start(c, Initial(model)).st),
      DecoderRun.Output(cfg, input), moments)
  }

  lemma OutputStartsProperly(cfg: D.Config, input: seq<D.ProviderEvent>)
    requires DecoderSafety.ConfigOk(cfg) && DecoderSafety.InputOk(cfg, input)
    ensures StartsProperly(DecoderRun.Output(cfg, input))
  {
    DecoderTheorems.OutputLegal(cfg, input);
    DecoderTheorems.OneTerminal(cfg.utf8, DecoderRun.Output(cfg, input));
    DecoderTheorems.StartedFirst(cfg.utf8, DecoderRun.Output(cfg, input));
  }

  /** Commit before output, for every request: with a lease every frame written
      before the commit is created, in_progress or failed, and if the lease is not
      committed there are no other frames at all. */
  lemma RequestCommitsFirst(cfg: D.Config, c: Config, model: string, input: seq<D.ProviderEvent>, moments: seq<Moment>)
    requires DecoderSafety.ConfigOk(cfg) && DecoderSafety.InputOk(cfg, input)
    requires Start(c, Initial(model)).err == NoError && |moments| > |DecoderRun.Output(cfg, input)|
    ensures CommittedFirst(HandleRequest(cfg, c, model, true, input, moments))
  {
    OutputStartsProperly(cfg, input);
    StartPlain(c, model);
    CommitBeforeOutput(c, DecoderContent.TurnOf(DecoderRun.Run(cfg, D.INITIAL, input).st),
      Begun(Start(c, Initial(model)).st), DecoderRun.Output(cfg, input), moments);
  }

  lemma StartNone(c: Config, model: string)
    ensures NoneCompleted(Start(c, Initial(model)).st.wire.frames)
  {
    StartOther(c, Initial(model));
  }

  lemma OutputStreamOk(cfg: D.Config, c: Config, input: seq<D.ProviderEvent>)
    requires DecoderSafety.ConfigOk(cfg) && DecoderSafety.InputOk(cfg, input) && SessionMatches(c, cfg)
    ensures StreamOk(c, DecoderRun.Output(cfg, input), cfg.maxToolArguments)
  {
    DecoderTheorems.OutputLegal(cfg, input);
  }

  lemma OutputShows(cfg: D.Config, input: seq<D.ProviderEvent>)
    requires DecoderSafety.ConfigOk(cfg) && DecoderSafety.InputOk(cfg, input)
    ensures Watch(cfg.utf8, DecoderRun.Output(cfg, input)).Some?
    ensures TurnShows(DecoderContent.TurnOf(DecoderRun.Run(cfg, D.INITIAL, input).st), DecoderRun.Output(cfg, input),
      Watch(cfg.utf8, DecoderRun.Output(cfg, input)).value.tools)
  {
    DecoderTheorems.OutputLegal(cfg, input);
    if DecoderContent.EndsCompleted(DecoderRun.Output(cfg, input)) {
      OfferedIsTracked(cfg, input);
    }
  }

  /** Save before completed, for every request: a completed frame with tool items
      comes after the turn with exactly these calls has been saved. */
  lemma RequestSavesFirst(cfg: D.Config, c: Config, model: string, leased: bool, input: seq<D.ProviderEvent>,
                          moments: seq<Moment>)
    requires DecoderSafety.ConfigOk(cfg) && DecoderSafety.InputOk(cfg, input) && SessionMatches(c, cfg)
    requires Start(c, Initial(model)).err == NoError && |moments| > |DecoderRun.Output(cfg, input)|
    ensures SavedFirst(HandleRequest(cfg, c, model, leased, input, moments))
  {
    var events := DecoderRun.Output(cfg, input);
    OutputStreamOk(cfg, c, input);
    OutputStartsProperly(cfg, input);
    OutputShows(cfg, input);
    StartLinked(c, model);
    StartNone(c, model);
    assert events[..0] == [] && events[0..] == events;
    ServeSaves(c, leased, DecoderContent.TurnOf(DecoderRun.Run(cfg, D.INITIAL, input).st), events, 0,
      Begun(Start(c, Initial(model)).st), moments, cfg.maxToolArguments);
  }

  // ----- to the next request -----

  function AnsweredCalls(results: seq<ToolResult>): set<(string, ToolKind)> {
    set i | 0 <= i < |results| :: (results[i].callId, results[i].kind)
  }

  /** One result per tool item of the response, of its kind, in any order. */
  predicate AnswersShown(output: seq<Snapshot>, results: seq<ToolResult>) {
    ContinuationTheorems.DistinctIds(results) && AnsweredCalls(results) == ShownCalls(output)
  }

  lemma ShownAnswers(calls: seq<UpstreamCall>, output: seq<Snapshot>, results: seq<ToolResult>)
    requires KeptCalls(calls) == ShownCalls(output) && AnswersShown(output, results)
    ensures ContinuationTheorems.Answers(calls, results)
  {
    forall i | 0 <= i < |results|
      ensures ContinuationTheorems.Answered(calls, results[i])
    {
      assert (results[i].callId, results[i].kind) in KeptCalls(calls);
    }
    forall id
      ensures id in ContinuationTheorems.ResultIds(results) <==> id in C.CallIds(calls)
    {
      ContinuationSafety.InCallIds(calls, id);
      if i :| 0 <= i < |results| && results[i].callId == id {
        assert (results[i].callId, results[i].kind) in KeptCalls(calls);
      }
      if i :| 0 <= i < |calls| && calls[i].callId == id {
        assert (calls[i].callId, calls[i].kind) in AnsweredCalls(results);
      }
    }
  }

  /** A turn that a request has saved is leased to the results that answer what the
      request has shown. */
  lemma SavedTurnIsLeased(h: Handler, i: nat, sc: C.StoreConfig, w: C.World, at: int, order: seq<string>, gates: nat,
                          kept: C.Reply<nat>, ops: seq<C.Op>, results: seq<ToolResult>, now: int, order': seq<string>)
    requires SavedFirst(h) && i < |h.session.wire.frames| && IsCompleted(h.session.wire.frames[i].body)
    requires ShownCalls(h.session.wire.frames[i].body.response.output) != {} && h.saved.Some?
    requires AnswersShown(h.session.wire.frames[i].body.response.output, results)
    requires Quietly(sc, w, h.saved.value.turn, at, order, gates, kept, ops, now, order')
    ensures ContinuationRuns.Leases(C.Begin(sc, ContinuationRuns.Run(sc, kept.world, ops), results, now, order'),
      kept.value, results)
    ensures kept.value < |ContinuationRuns.Run(sc, kept.world, ops).fixed|
    ensures ContinuationRuns.Run(sc, kept.world, ops).fixed[kept.value].turn == C.Normalized(h.saved.value.turn)
  {
    ShownAnswers(h.saved.value.turn.calls, h.session.wire.frames[i].body.response.output, results);
    ContinuationRuns.SavedTurnIsAccepted(sc, w, h.saved.value.turn, at, order, gates, kept, ops, results, now, order');
  }

  /** The store has accepted the turn, and then come operations short of another
      Begin for these calls, a close, or a clock that runs past the expiry. */
  ghost predicate Quietly(sc: C.StoreConfig, w: C.World, turn: PendingTurn, at: int, order: seq<string>, gates: nat,
                          kept: C.Reply<nat>, ops: seq<C.Op>, now: int, order': seq<string>) {
    && ContinuationSafety.Inv(sc, w) && C.IsOrder(order, w.books.table.Keys)
    && kept == C.Save(sc, w, turn, at, order, gates) && kept.Ok? && C.Shaped(kept.world)
    && ContinuationRuns.RunFits(sc, kept.world, ops)
    && ContinuationRuns.AllQuiet(ops, C.Normalized(turn).calls, C.Later(at, sc.ttl))
    && C.IsOrder(order', ContinuationRuns.Run(sc, kept.world, ops).books.table.Keys)
    && now < C.Later(at, sc.ttl)
  }

  // ----- what the handler saves is what the decoder offers -----

  lemma RoundSaves(c: Config, leased: bool, turn: Option<PendingTurn>, h: Handler, event: Option<Event>, m: Moment)
    requires h.saved.Some? ==> turn == Some(h.saved.value.turn)
    ensures var saved := Round(c, leased, turn, h, event, m).h.saved; saved.Some? ==> turn == Some(saved.value.turn)
  {
    FailKeeps(c, h, StreamTimeout);
    FailKeeps(c, h, UpstreamEof);
    FailKeeps(c, h, ContinuationCapacity);
    if event.Some? {
      DeliverKeeps(c, leased, h, event.value, m);
      if turn.Some? {
        DeliverKeeps(c, leased, h.(saved := Some(Saved(turn.value, Written(h)))), event.value, m);
      }
    }
  }

  lemma {:induction false} ServeSavesTurn(c: Config, leased: bool, turn: Option<PendingTurn>, h: Handler,
                                          events: seq<Event>, moments: seq<Moment>)
    requires |moments| > |events| && (h.saved.Some? ==> turn == Some(h.saved.value.turn))
    ensures var saved := Serve(c, leased, turn, h, events, moments).saved;
      saved.Some? ==> turn == Some(saved.value.turn)
    decreases |events|
  {
    var event, m, rest := if events == [] then None else Some(events[0]), moments[0], moments[1..];
    var p := Round(c, leased, turn, h, event, m);
    RoundSaves(c, leased, turn, h, event, m);
    if p.Going? && events != [] {
      ServeSavesTurn(c, leased, turn, p.h, events[1..], rest);
    }
  }

  lemma RequestSavesOffer(cfg: D.Config, c: Config, model: string, leased: bool, input: seq<D.ProviderEvent>,
                          moments: seq<Moment>)
    requires |moments| > |DecoderRun.Output(cfg, input)|
    ensures var saved := HandleRequest(cfg, c, model, leased, input, moments).saved;
      saved.Some? ==> saved.value.turn.provider == PROVIDER_NAME
  {
    ServeSavesTurn(c, leased, DecoderContent.TurnOf(DecoderRun.Run(cfg, D.INITIAL, input).st),
      Begun(Start(c, Initial(model)).st), DecoderRun.Output(cfg, input), moments);
  }

  // ----- the client's outputs -----

  /** One output per tool item of the response, of its kind, in any order. */
  predicate OutputsAnswer(output: seq<Snapshot>, outputs: seq<OutputItem>) {
    && (forall i, j :: 0 <= i < j < |outputs| ==> outputs[i].callId != outputs[j].callId)
    && (set i | 0 <= i < |outputs| :: (outputs[i].callId, outputs[i].kind)) == ShownCalls(output)
  }

  /** Outputs are translated into results that answer the same calls. */
  lemma OutputsTranslate(failing: StatusTest, calls: seq<UpstreamCall>, output: seq<Snapshot>,
                         items: seq<ToolResults.Item>)
    requires C.NormalCalls(calls) && KeptCalls(calls) == ShownCalls(output)
    requires ToolResults.Calls(items) == [] && OutputsAnswer(output, ToolResults.Outputs(items))
    ensures TwoPass(failing, items).Some? && AnswersShown(output, TwoPass(failing, items).value)
  {
    var outputs := ToolResults.Outputs(items);
    forall i | 0 <= i < |outputs|
      ensures outputs[i].callId != ""
    {
      assert (outputs[i].callId, outputs[i].kind) in KeptCalls(calls);
    }
    SamePairs(failing, [], outputs);
  }

  lemma SamePairs(failing: StatusTest, calls: seq<CallItem>, outputs: seq<OutputItem>)
    ensures AnsweredCalls(ResultsOf(failing, calls, outputs)) ==
      set i | 0 <= i < |outputs| :: (outputs[i].callId, outputs[i].kind)
  {
    var results := ResultsOf(failing, calls, outputs);
    assert forall i :: 0 <= i < |outputs| ==>
      results[i].callId == outputs[i].callId && results[i].kind == outputs[i].kind;
  }

  predicate AllMapped(codec: Codec, items: seq<ToolResults.Item>) {
    forall i :: 0 <= i < |items| && items[i].Message? ==> codec.mapMessage(items[i].text).Some?
  }

  /** The turn of the lease is replayed with the results it was claimed by. */
  lemma LeasedTurnReplays(codec: Codec, failing: StatusTest, turn: PendingTurn, results: seq<ToolResult>,
                          model: string, items: seq<ToolResults.Item>)
    requires turn.provider == PROVIDER_NAME && turn.model == model && C.Normalizable(turn)
    requires ContinuationTheorems.Answers(turn.calls, results)
    requires TwoPass(failing, items) == Some(results) && ToolResults.Calls(items) == [] && AllMapped(codec, items)
    ensures MapContinuation(codec, C.Normalized(turn), results, model, items).Some?
    ensures var messages := MapContinuation(codec, C.Normalized(turn), results, model, items).value;
      multiset(ToolIds(messages)) == multiset(CalledIds(messages)) && |CalledIds(messages)| == |turn.calls|
  {
    var normal := C.Normalized(turn);
    ContinuationSteps.NormalizedNormal(turn);
    ContinuationRuns.NormalizedAnswers(turn, results);
    OutputsAlwaysReplay(codec, failing, normal, results, model, items);
    ReplayShape(codec, normal, results, model, items, MapContinuation(codec, normal, results, model, items).value);
  }

  /** The tool-turn round trip, from one request to the provider message of the next.
      A request has written a completed frame with tool items; the handler has then
      saved the turn with these calls. If the store accepted it, and a later request
      brings one output per tool item, in any order, together with ordinary messages
      that can be mapped, then the outputs translate, Begin leases the stored turn to
      the results at any time before the expiry, and the replay for the same model
      succeeds: one assistant message with the stored calls, all of them answered. */
  lemma ToolTurnRoundTrip(cfg: D.Config, c: Config, model: string, leased: bool, input: seq<D.ProviderEvent>,
                          moments: seq<Moment>,
                          h: Handler, i: nat, sc: C.StoreConfig, w: C.World, at: int, order: seq<string>, gates: nat,
                          kept: C.Reply<nat>, ops: seq<C.Op>, now: int, order': seq<string>,
                          codec: Codec, failing: StatusTest, items: seq<ToolResults.Item>)
    requires DecoderSafety.ConfigOk(cfg) && DecoderSafety.InputOk(cfg, input) && SessionMatches(c, cfg)
    requires Start(c, Initial(model)).err == NoError && |moments| > |DecoderRun.Output(cfg, input)|
    requires h == HandleRequest(cfg, c, model, leased, input, moments)
    requires i < |h.session.wire.frames| && IsCompleted(h.session.wire.frames[i].body)
    requires ShownCalls(h.session.wire.frames[i].body.response.output) != {}
    requires h.saved.Some? ==> Quietly(sc, w, h.saved.value.turn, at, order, gates, kept, ops, now, order')
    requires ToolResults.Calls(items) == [] && AllMapped(codec, items)
    requires OutputsAnswer(h.session.wire.frames[i].body.response.output, ToolResults.Outputs(items))
    ensures h.saved.Some? && TwoPass(failing, items).Some?
    ensures var results, world := TwoPass(failing, items).value, ContinuationRuns.Run(sc, kept.world, ops);
      && kept.value < |world.fixed|
      && ContinuationRuns.Leases(C.Begin(sc, world, results, now, order'), kept.value, results)
      && var turn := world.fixed[kept.value].turn;
         && MapContinuation(codec, turn, results, turn.model, items).Some?
         && var messages := MapContinuation(codec, turn, results, turn.model, items).value;
            multiset(ToolIds(messages)) == multiset(CalledIds(messages)) && |CalledIds(messages)| == |turn.calls|
  {
    RequestSavesFirst(cfg, c, model, leased, input, moments);
    RequestSavesOffer(cfg, c, model, leased, input, moments);
    var output, turn := h.session.wire.frames[i].body.response.output, h.saved.value.turn;
    SavedIsNormal(sc, w, turn, at, order, gates);
    OutputsTranslate(failing, turn.calls, output, items);
    var results := TwoPass(failing, items).value;
    SavedTurnIsLeased(h, i, sc, w, at, order, gates, kept, ops, results, now, order');
    ShownAnswers(turn.calls, output, results);
    LeasedTurnReplays(codec, failing, turn, results, turn.model, items);
  }

  lemma SavedIsNormal(sc: C.StoreConfig, w: C.World, turn: PendingTurn, at: int, order: seq<string>, gates: nat)
    requires ContinuationSafety.Inv(sc, w) && C.Save(sc, w, turn, at, order, gates).Ok?
    ensures C.Normalizable(turn)
  {
    ContinuationRuns.SaveOk(sc, w, turn, at, order, gates);
  }
}
