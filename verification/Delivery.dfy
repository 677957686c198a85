/** What the client receives, against what the provider sent: the completed response
    of a whole run shows every call and every text as its fragments spell it. */
module Delivery {
  import opened Bridge
  import opened DecoderContent
  import opened DecoderEffects
  import DecoderFinish
  import DecoderRun
  import DecoderSafety
  import D = DecoderSpec
  import DecoderTheorems
  import opened Pipeline
  import opened PipelineTheorems
  import opened Protocol
  import S = SessionSpec

  // ----- the text of one choice -----

  /** What an event stream lets one choice say. */
  function Spoken(events: seq<Event>, choice: int): string {
    if events == [] then ""
    else
      var front, e := Spoken(events[..|events| - 1], choice), events[|events| - 1];
      if e.TextDelta? && e.choice == choice then front + e.text else front
  }

  lemma {:induction false} WatchedTexts(utf8: Utf8Test, events: seq<Event>, choice: int)
    requires Watch(utf8, events).Some?
    ensures var texts := Watch(utf8, events).value.texts;
      TextAt(texts, choice) == Spoken(events, choice) && (choice in texts <==> Spoken(events, choice) != "")
    decreases |events|
  {
    if events != [] {
      WatchedTexts(utf8, events[..|events| - 1], choice);
    }
  }

  lemma {:induction false} SpokenConcat(a: seq<Event>, b: seq<Event>, choice: int)
    ensures Spoken(a + b, choice) == Spoken(a, choice) + Spoken(b, choice)
    decreases |b|
  {
    if b == [] {
      assert a + b == a;
    } else {
      var n := |b| - 1;
      assert (a + b)[..|a + b| - 1] == a + b[..n];
      SpokenConcat(a, b[..n], choice);
    }
  }

  predicate Silent(events: seq<Event>) {
    forall i :: 0 <= i < |events| ==> !events[i].TextDelta?
  }

  lemma {:induction false} SilentSaysNothing(events: seq<Event>, choice: int)
    requires Silent(events)
    ensures Spoken(events, choice) == ""
    decreases |events|
  {
    if events != [] {
      SilentSaysNothing(events[..|events| - 1], choice);
    }
  }

  /** What the provider sent as content of one choice, in order of arrival. */
  function Content(choices: seq<D.Choice>, choice: int): string {
    if choices == [] then ""
    else (if choices[0].index == choice then choices[0].content else "") + Content(choices[1..], choice)
  }

  function SentText(input: seq<D.ProviderEvent>, choice: int): string {
    if input == [] then ""
    else (if input[0].Data? then Content(input[0].chunk.choices, choice) else "") + SentText(input[1..], choice)
  }

  lemma ChoiceSpoken(c: D.Choice, choice: int)
    ensures Spoken(ChoiceEvents(c), choice) == if c.index == choice then c.content else ""
  {
    var texts := if c.content == "" then [] else [TextDelta(c.index, c.content)];
    var silent := if c.reasoning == "" then [] else [ReasoningDelta(c.index, c.reasoning)];
    SpokenConcat(texts, silent, choice);
    SilentSaysNothing(silent, choice);
    assert c.content != "" ==> texts[..0] == [];
  }

  lemma {:induction false} ChoicesSpoken(choices: seq<D.Choice>, choice: int)
    ensures Spoken(ChoicesEvents(choices), choice) == Content(choices, choice)
    decreases |choices|
  {
    if choices != [] {
      ChoiceSpoken(choices[0], choice);
      ChoicesSpoken(choices[1..], choice);
      SpokenConcat(ChoiceEvents(choices[0]), ChoicesEvents(choices[1..]), choice);
    }
  }

  lemma ChunkSpoken(first: bool, chunk: D.Chunk, choice: int)
    ensures Spoken(ChunkEvents(first, chunk), choice) == Content(chunk.choices, choice)
  {
    var head := if first then [ResponseStarted(chunk.id, chunk.model)] else [];
    var tail := if chunk.usage.Some? then [UsageUpdated(chunk.usage.value)] else [];
    SilentSaysNothing(head, choice);
    SilentSaysNothing(tail, choice);
    ChoicesSpoken(chunk.choices, choice);
    SpokenConcat(head, ChoicesEvents(chunk.choices), choice);
    SpokenConcat(head + ChoicesEvents(chunk.choices), tail, choice);
  }

  lemma {:induction false} EventsSpoken(first: bool, input: seq<D.ProviderEvent>, choice: int)
    ensures Spoken(Events(first, input), choice) == SentText(input, choice)
    decreases |input|
  {
    if input != [] {
      EventsSpoken(if input[0].Data? then false else first, input[1..], choice);
      if input[0].Data? {
        ChunkSpoken(first, input[0].chunk, choice);
        SpokenConcat(ChunkEvents(first, input[0].chunk), Events(false, input[1..]), choice);
      }
    }
  }

  // ----- the batch says nothing and announces every call -----

  lemma {:induction false} BatchesSilent(cfg: D.Config, calls: map<ToolKey, D.Call>, keys: seq<ToolKey>)
    requires forall k :: k in keys ==> k in calls
    ensures Silent(StartBatches(cfg, calls, keys)) && Silent(DoneBatches(cfg, calls, keys))
    decreases |keys|
  {
    if keys != [] {
      BatchesSilent(cfg, calls, keys[1..]);
    }
  }

  lemma BatchSilent(cfg: D.Config, calls: map<ToolKey, D.Call>)
    ensures Silent(Batch(cfg, calls))
  {
    BatchesSilent(cfg, calls, DecoderRun.KeyOrder(calls.Keys));
  }

  lemma {:induction false} StartsInBatches(cfg: D.Config, calls: map<ToolKey, D.Call>, keys: seq<ToolKey>, k: ToolKey)
    requires (forall j :: j in keys ==> j in calls) && k in keys
    ensures DecoderFinish.StartedEvent(cfg, k, calls[k]) in StartBatches(cfg, calls, keys)
    decreases |keys|
  {
    if k == keys[0] {
      assert StartBatch(cfg, k, calls[k])[0] == DecoderFinish.StartedEvent(cfg, k, calls[k]);
    } else {
      StartsInBatches(cfg, calls, keys[1..], k);
    }
  }

  /** Exactly the reconstructed calls are what the monitor has seen. */
  lemma WatchedTools(cfg: D.Config, events: seq<Event>, plain: seq<Event>, calls: map<ToolKey, D.Call>, k: ToolKey)
    requires Watch(cfg.utf8, events).Some? && events == plain + Batch(cfg, calls) && k in calls
    ensures k in Watch(cfg.utf8, events).value.tools
  {
    StartsInBatches(cfg, calls, DecoderRun.KeyOrder(calls.Keys), k);
    var e := DecoderFinish.StartedEvent(cfg, k, calls[k]);
    assert e in events;
    var i :| 0 <= i < |events| && events[i] == e;
    DecoderTheorems.ToolEventTracked(cfg.utf8, events, i);
  }

  // ----- the completed response -----

  /** A call as its fragments spell it: the first id, the joined name under its
      public form, and the joined arguments, unwrapped for a custom tool. */
  predicate ShowsCall(cfg: D.Config, k: ToolKey, pieces: seq<D.ToolDelta>, s: S.Snapshot)
    requires pieces != []
  {
    var name, arguments := JoinNames(pieces), JoinArguments(pieces);
    && s.ToolSnapshot? && s.status == S.StatusCompleted
    && s.callId == D.FirstCallId(k, pieces[0])
    && s.kind == D.PublicKind(cfg, name) && s.name == D.PublicName(cfg, name)
    && if s.kind == KindCustom then cfg.unwrap(arguments) == D.Input(s.arguments) else s.arguments == arguments
  }

  predicate ShowsItem(cfg: D.Config, input: seq<D.ProviderEvent>, item: S.Item, s: S.Snapshot) {
    match item.key
    case ToolItem(k) =>
      var pieces := Pieces(Fragments(input), k);
      pieces != [] && ShowsCall(cfg, k, pieces, s)
    case TextItem(n) =>
      SentText(input, n) != "" && s == S.TextSnapshot(item.id, S.StatusCompleted, Some(SentText(input, n)))
  }

  /** One item per call and per speaking choice, each with all it was sent. */
  ghost predicate ShowsAll(cfg: D.Config, input: seq<D.ProviderEvent>, t: S.Table, output: seq<S.Snapshot>)
  {
    var fs := Fragments(input);
    && S.TableOk(t) && |output| == |t.items|
    && (forall i :: 0 <= i < |output| ==> ShowsItem(cfg, input, t.items[i], output[i]))
    && (forall k :: Pieces(fs, k) != [] ==> S.ToolItem(k) in t.byKey)
    && (forall n :: SentText(input, n) != "" ==> S.TextItem(n) in t.byKey)
  }

  /** What a run with these chunks leaves in the monitor. */
  ghost predicate Sent(cfg: D.Config, input: seq<D.ProviderEvent>, m: Monitor) {
    var fs := Fragments(input);
    && (forall k :: k in m.tools <==> Pieces(fs, k) != [])
    && (forall k :: k in m.tools ==> ToolSent(cfg, k, Pieces(fs, k), m.tools[k]))
    && (forall n :: n in m.texts <==> SentText(input, n) != "")
    && (forall n :: n in m.texts ==> m.texts[n] == SentText(input, n))
  }

  predicate ToolSent(cfg: D.Config, k: ToolKey, pieces: seq<D.ToolDelta>, tool: Protocol.Tool)
    requires pieces != []
  {
    var name, arguments := JoinNames(pieces), JoinArguments(pieces);
    && tool.callId == D.FirstCallId(k, pieces[0])
    && tool.kind == D.PublicKind(cfg, name) && tool.name == D.PublicName(cfg, name)
    && if tool.kind == KindCustom then cfg.unwrap(arguments) == D.Input(tool.arguments) else tool.arguments == arguments
  }

  lemma CallSent(cfg: D.Config, k: ToolKey, pieces: seq<D.ToolDelta>, call: D.Call, final: D.Call,
                 tools: map<ToolKey, Protocol.Tool>)
    requires pieces != [] && Unwraps(cfg, call) && SameCall(final, call)
    requires call.callId == D.FirstCallId(k, pieces[0])
    requires call.name == JoinNames(pieces) && call.arguments == JoinArguments(pieces)
    requires DecoderFinish.Tracked(cfg, k, final, tools) && final.stage.started && final.stage.completed
    ensures k in tools && ToolSent(cfg, k, pieces, tools[k])
  {
  }

  lemma OutputSent(cfg: D.Config, input: seq<D.ProviderEvent>) returns (n: nat)
    requires DecoderSafety.ConfigOk(cfg) && DecoderSafety.InputOk(cfg, input)
    requires EndsCompleted(DecoderRun.Output(cfg, input))
    ensures CompletedAs(cfg, D.INITIAL, input, n, DecoderRun.Run(cfg, D.INITIAL, input))
    ensures Watch(cfg.utf8, DecoderRun.Output(cfg, input)).Some?
    ensures Sent(cfg, input[..n], Watch(cfg.utf8, DecoderRun.Output(cfg, input)).value)
  {
    n := FragmentConservation(cfg, input);
    DecoderTheorems.OutputLegal(cfg, input);
    var m := Watch(cfg.utf8, DecoderRun.Output(cfg, input)).value;
    ToolsSent(cfg, input, n, m);
    forall choice
      ensures choice in m.texts <==> SentText(input[..n], choice) != ""
      ensures choice in m.texts ==> m.texts[choice] == SentText(input[..n], choice)
    {
      TextSent(cfg, input, n, choice);
    }
  }

  lemma TextSent(cfg: D.Config, input: seq<D.ProviderEvent>, n: nat, choice: int)
    requires CompletedAs(cfg, D.INITIAL, input, n, DecoderRun.Run(cfg, D.INITIAL, input))
    requires Watch(cfg.utf8, DecoderRun.Output(cfg, input)).Some?
    ensures var texts := Watch(cfg.utf8, DecoderRun.Output(cfg, input)).value.texts;
      && (choice in texts <==> SentText(input[..n], choice) != "")
      && (choice in texts ==> texts[choice] == SentText(input[..n], choice))
  {
    var calls := Apply(D.INITIAL.calls, Fragments(input[..n]));
    var plain, batch := Events(true, input[..n]), Batch(cfg, calls);
    SpokenConcat(plain, batch, choice);
    EventsSpoken(true, input[..n], choice);
    BatchSilent(cfg, calls);
    SilentSaysNothing(batch, choice);
    WatchedTexts(cfg.utf8, DecoderRun.Output(cfg, input), choice);
  }

  lemma ToolsSent(cfg: D.Config, input: seq<D.ProviderEvent>, n: nat, m: Monitor)
    requires CompletedAs(cfg, D.INITIAL, input, n, DecoderRun.Run(cfg, D.INITIAL, input))
    requires Watch(cfg.utf8, DecoderRun.Output(cfg, input)) == Some(m)
    requires m.tools != map[] ==>
      DecoderFinish.TurnTracked(cfg, DecoderRun.Run(cfg, D.INITIAL, input).st.calls, m.tools)
    ensures var fs := Fragments(input[..n]);
      && (forall k :: k in m.tools <==> Pieces(fs, k) != [])
      && (forall k :: k in m.tools ==> ToolSent(cfg, k, Pieces(fs, k), m.tools[k]))
  {
    var fs, final := Fragments(input[..n]), DecoderRun.Run(cfg, D.INITIAL, input).st;
    var calls := Apply(D.INITIAL.calls, fs);
    forall k
      ensures k in m.tools <==> Pieces(fs, k) != []
      ensures k in m.tools ==> ToolSent(cfg, k, Pieces(fs, k), m.tools[k])
    {
      CallIsJoinOfPieces(map[], fs, k);
      if k in calls {
        WatchedTools(cfg, DecoderRun.Output(cfg, input), Events(true, input[..n]), calls, k);
        CallSent(cfg, k, Pieces(fs, k), calls[k], final.calls[k], m.tools);
      }
    }
  }

  lemma LinkedShows(cfg: D.Config, input: seq<D.ProviderEvent>, m: Monitor, t: S.Table)
    requires Sent(cfg, input, m) && Delivered(m, t)
    ensures ShowsAll(cfg, input, t, S.Outputs(t.items))
  {
    var output := S.Outputs(t.items);
    forall i | 0 <= i < |output|
      ensures ShowsItem(cfg, input, t.items[i], output[i])
    {
      ItemShows(cfg, input, m, t, i);
    }
  }

  lemma ItemShows(cfg: D.Config, input: seq<D.ProviderEvent>, m: Monitor, t: S.Table, i: nat)
    requires Sent(cfg, input, m) && Delivered(m, t) && i < |t.items|
    ensures ShowsItem(cfg, input, t.items[i], S.SnapshotOf(t.items[i], t.items[i].progress.status))
  {
    var item := t.items[i];
    assert item.key in t.byKey && t.byKey[item.key] == i;
    match item.key
    case ToolItem(k) =>
      assert k in m.tools && ItemIs(item, m.tools[k]) && ToolSent(cfg, k, Pieces(Fragments(input), k), m.tools[k]);
    case TextItem(n) =>
      assert n in m.texts;
  }

  /** Conservation, end to end: when the session accepts a completed run to its end,
      the completed response has exactly one item per call and per choice that sent
      content, and each shows all of it: the call's first id, its name fragments and
      its argument fragments joined (unwrapped for a custom tool), the choice's
      content joined over all chunks. */
  lemma ResponseShowsAll(cfg: D.Config, c: S.Config, model: string, input: seq<D.ProviderEvent>) returns (n: nat)
    requires DecoderSafety.ConfigOk(cfg) && DecoderSafety.InputOk(cfg, input) && SessionMatches(c, cfg)
    requires S.Start(c, S.Initial(model)).err == S.NoError && EndsCompleted(DecoderRun.Output(cfg, input))
    requires Feed(c, S.Start(c, S.Initial(model)).st, DecoderRun.Output(cfg, input)).err == S.NoError
    ensures n < |input| && input[n].ProviderDone? && forall i :: 0 <= i < n ==> input[i].Data?
    ensures var s := Feed(c, S.Start(c, S.Initial(model)).st, DecoderRun.Output(cfg, input)).st;
      && |s.wire.frames| > 0
      && s.wire.frames[|s.wire.frames| - 1].body == S.TerminalFrame(S.EndCompleted, S.ResponseOf(s))
      && ShowsAll(cfg, input[..n], s.table, S.ResponseOf(s).output)
  {
    PipelineExactly(cfg, c, model, input);
    n := OutputSent(cfg, input);
    FedShows(cfg, c, input[..n], DecoderRun.Output(cfg, input),
      Feed(c, S.Start(c, S.Initial(model)).st, DecoderRun.Output(cfg, input)));
  }

  lemma FedShows(cfg: D.Config, c: S.Config, input: seq<D.ProviderEvent>, events: seq<Event>, r: Fed)
    requires FedWell(c, events, 0, r) && r.err == S.NoError && EndsCompleted(events) && c.utf8 == cfg.utf8
    requires Sent(cfg, input, Watch(cfg.utf8, events).value)
    ensures |r.st.wire.frames| > 0
    ensures r.st.wire.frames[|r.st.wire.frames| - 1].body == S.TerminalFrame(S.EndCompleted, S.ResponseOf(r.st))
    ensures ShowsAll(cfg, input, r.st.table, S.ResponseOf(r.st).output)
  {
    LinkedShows(cfg, input, Watch(cfg.utf8, events).value, r.st.table);
  }
}
