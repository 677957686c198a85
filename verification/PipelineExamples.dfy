/** Two runs of one tool call through both machines, for the two ways in which a run
    that the decoder completes can still fail in the session. */
module PipelineExamples {
  import opened Bridge
  import opened DecoderCaps
  import opened DecoderContent
  import opened DecoderGuards
  import opened DecoderOffers
  import opened DecoderRun
  import opened DecoderSafety
  import D = DecoderSpec
  import DecoderTheorems
  import opened DecoderTurn
  import opened PipelineTheorems
  import opened Protocol
  import SessionCost
  import SessionEscapes
  import SessionShape
  import S = SessionSpec

  const KEY := ToolKey(0, 0)

  /** A decoder that declares the tool f, with 800 bytes in all. */
  const UPSTREAM := D.Config(800, 1, 1, 64, 64, 500, 500, 500, 500, {"f"}, map[],
    (a: string) => D.MalformedWrapper, SessionEscapes.ANY_TEXT)

  /** A session with the same limits, one-byte item ids and writes that succeed. */
  const CLIENT := S.Config(800, 500, 500, 500, 500, {KindCustom}, SessionEscapes.SHORT_IDS, SessionEscapes.NEVER_FAILS,
    SessionEscapes.ANY_TEXT)

  function Delta(id: string, a: string): D.ToolDelta {
    D.ToolDelta(Some(0), id, "function", "f", a)
  }

  /** One chunk with one whole call, and the end marker. */
  function OneCall(id: string, a: string): seq<D.ProviderEvent> {
    [D.Data(D.Chunk("", "", [D.Choice(0, D.ToolCalls, "", "", [Delta(id, a)])], None)), D.ProviderDone]
  }

  function Rebuilt(id: string, a: string): D.Call {
    D.Call(id, id, "f", a, UNKNOWN)
  }

  /** The state between the two events. */
  function Between(id: string, a: string): D.State {
    D.State([], map[KEY := Rebuilt(id, a)], D.Budget(64 + |id| + |a|, |a|, 0, 0),
      D.Phase(true, false, D.ToolCalls, false, false, false), D.Transcript("", "", ""), map[0 := D.ToolCalls])
  }

  // ----- the chunk -----

  lemma Valid(id: string, a: string)
    requires |id| == 1
    ensures D.ValidateChunk(UPSTREAM, map[], OneCall(id, a)[0].chunk) == D.NoError
  {
    var choices, tools := OneCall(id, a)[0].chunk.choices, [Delta(id, a)];
    assert tools[1..] == [] && choices[1..] == [];
    assert D.ValidateTools(UPSTREAM, map[], 0, tools, {}, 0) == (D.NoError, 1);
    assert D.ValidateChoices(UPSTREAM, map[], choices, {}, 0) == (D.NoError, 1);
  }

  lemma Opened(id: string, a: string, st: D.State)
    requires |id| == 1 && |a| == 400 && st.calls == map[] && st.budget == D.Budget(64, 0, 0, 0)
    ensures D.ConsumeTool(UPSTREAM, true, st, 0, Delta(id, a)) ==
      D.Out(st.(calls := map[KEY := Rebuilt(id, a)], budget := D.Budget(64 + |id| + |a|, |a|, 0, 0)), D.NoError)
  {
    var tool := Delta(id, a);
    var o := D.OpenCall(UPSTREAM, true, st, KEY, tool);
    assert o == D.Out(st.(calls := map[KEY := D.Call(id, "", "", "", UNKNOWN)]), D.NoError);
    assert "" + "f" == "f" && "" + a == a;
    var o1 := D.ExtendId(UPSTREAM, true, o.st, KEY, tool);
    assert o1 ==
      D.Out(st.(calls := map[KEY := D.Call(id, id, "", "", UNKNOWN)], budget := D.Budget(65, 0, 0, 0)), D.NoError);
  }

  lemma ChunkConsumed(id: string, a: string)
    requires |id| == 1 && |a| == 400
    ensures D.ConsumeChunk(UPSTREAM, D.INITIAL, OneCall(id, a)[0].chunk) ==
      D.Out(Between(id, a).(pending := [ResponseStarted("", "")]), D.NoError)
  {
    var chunk := OneCall(id, a)[0].chunk;
    var c, tools := chunk.choices[0], chunk.choices[0].tools;
    var st := D.INITIAL.(pending := [ResponseStarted("", "")], budget := D.Budget(64, 0, 0, 0),
                         phase := D.Phase(true, false, D.NoFinish, false, false, false));
    Valid(id, a);
    assert [] + [ResponseStarted("", "")] == [ResponseStarted("", "")];
    assert D.Announce(UPSTREAM, D.INITIAL, chunk) == D.Out(st, D.NoError);
    var st1 := st.(phase := st.phase.(finish := D.ToolCalls));
    Opened(id, a, st1);
    assert tools[1..] == [];
    var o := D.ConsumeTool(UPSTREAM, true, st1, 0, tools[0]);
    ConsumeToolsStep(UPSTREAM, true, st1, 0, tools, {}, KEY);
    assert D.ConsumeTools(UPSTREAM, true, st1, 0, tools, {}) == o;
    assert D.ConsumeChoice(UPSTREAM, true, st, c) == D.Out(D.CloseChoice(o.st, c), D.NoError);
    assert chunk.choices[1..] == [];
    assert D.ConsumeChoices(UPSTREAM, true, st, chunk.choices, {}) == D.ConsumeChoice(UPSTREAM, true, st, c);
  }

  // ----- the end of the run -----

  lemma UpstreamOk(id: string, a: string)
    ensures ConfigOk(UPSTREAM) && InputOk(UPSTREAM, OneCall(id, a))
  {
  }

  lemma OneKey(id: string, a: string)
    ensures KeyOrder(map[KEY := Rebuilt(id, a)].Keys) == [KEY]
  {
    KeyOrderUnique(KeyOrder(map[KEY := Rebuilt(id, a)].Keys), [KEY]);
  }

  function Announcement(id: string): Event {
    ToolCallStarted(KEY, KindFunction, id, "f")
  }

  function Completion(id: string, a: string): Event {
    ToolCallCompleted(KEY, KindFunction, id, "f", a)
  }

  function Story(id: string, a: string): seq<Event> {
    [ResponseStarted("", ""), Announcement(id), ToolCallArguments(KEY, a), Completion(id, a), Completed]
  }

  lemma BatchIs(id: string, a: string)
    requires a != ""
    ensures var calls := map[KEY := Rebuilt(id, a)];
      && Batch(UPSTREAM, calls) == [Announcement(id), ToolCallArguments(KEY, a), Completion(id, a), Completed]
      && BatchCost(UPSTREAM, calls) == 194 + 2 * |id|
  {
    var calls, rest: seq<ToolKey>, rest0: seq<Event> := map[KEY := Rebuilt(id, a)], [], [];
    OneKey(id, a);
    assert [KEY][1..] == rest;
    var start, done := [Announcement(id), ToolCallArguments(KEY, a)], [Completion(id, a)];
    assert StartBatch(UPSTREAM, KEY, calls[KEY]) == start && DoneBatch(UPSTREAM, KEY, calls[KEY]) == done;
    assert StartBatches(UPSTREAM, calls, [KEY]) == start + StartBatches(UPSTREAM, calls, rest);
    assert DoneBatches(UPSTREAM, calls, [KEY]) == done + DoneBatches(UPSTREAM, calls, rest);
    assert start + rest0 == start && done + rest0 == done;
    assert Batch(UPSTREAM, calls) == start + done + [Completed];
    CostOfTwo(start[0], start[1]);
    assert start == [start[0]] + [start[1]];
    CostOfOne(done[0]);
  }

  lemma Halfway(id: string, a: string)
    requires |id| == 1 && |a| == 400
    ensures var here := Reached(UPSTREAM, D.INITIAL, OneCall(id, a)[..1]);
      here == Outcome(Between(id, a), [ResponseStarted("", "")])
  {
    var first := OneCall(id, a)[..1];
    ChunkConsumed(id, a);
    var st1 := Step(UPSTREAM, D.INITIAL, first[0]);
    assert st1 == Between(id, a).(pending := [ResponseStarted("", "")]) && Released(st1) == Between(id, a);
    assert first[1..] == [];
    assert Reached(UPSTREAM, Between(id, a), []) == Outcome(Between(id, a), []);
    assert [ResponseStarted("", "")] + [] == [ResponseStarted("", "")];
  }

  lemma HalfwayStreams(id: string, a: string)
    requires |id| == 1 && |a| == 400
    ensures Streaming(UPSTREAM, [ResponseStarted("", "")], Between(id, a))
  {
    var input := OneCall(id, a);
    Halfway(id, a);
    UpstreamOk(id, a);
    PrefixOk(UPSTREAM, input, 1);
    DecoderTheorems.InitialStreaming(UPSTREAM);
    ReachedStreaming(UPSTREAM, [], D.INITIAL, input[..1]);
    assert [] + [ResponseStarted("", "")] == [ResponseStarted("", "")];
  }

  lemma MarkerCompletes(id: string, a: string)
    requires |id| == 1 && |a| == 400
    ensures Step(UPSTREAM, Between(id, a), D.ProviderDone).pending ==
      [Announcement(id), ToolCallArguments(KEY, a), Completion(id, a), Completed]
  {
    var log, st := [ResponseStarted("", "")], Between(id, a);
    UpstreamOk(id, a);
    HalfwayStreams(id, a);
    BatchIs(id, a);
    OneDeliverable(id, a);
    TurnOfferedExactly(UPSTREAM, log, st);
    CompletedStep(UPSTREAM, log, st);
  }

  lemma OneDeliverable(id: string, a: string)
    ensures ToolTurn(UPSTREAM, Between(id, a))
  {
    assert KEY in Between(id, a).calls;
  }

  /** The decoder completes the run within its 800 bytes and releases the call. */
  lemma RunReleases(id: string, a: string)
    requires |id| == 1 && |a| == 400
    ensures Output(UPSTREAM, OneCall(id, a)) == Story(id, a)
  {
    Halfway(id, a);
    MarkerCompletes(id, a);
    MarkerReached(id, a);
    MarkerEnds(UPSTREAM, OneCall(id, a), 1);
    StoryIs(id, a);
  }

  lemma StoryIs(id: string, a: string)
    ensures [ResponseStarted("", "")] + [Announcement(id), ToolCallArguments(KEY, a), Completion(id, a), Completed] ==
      Story(id, a)
  {
  }

  lemma MarkerReached(id: string, a: string)
    requires |id| == 1 && |a| == 400
    ensures Marked(UPSTREAM, OneCall(id, a), 1) && Before(UPSTREAM, OneCall(id, a), 1) == Between(id, a)
  {
    Halfway(id, a);
  }

  // ----- the session -----

  lemma Matches()
    ensures SessionMatches(CLIENT, UPSTREAM) && SessionShape.Reliable(CLIENT)
  {
    SessionEscapes.ValidSample();
  }

  lemma Starts(model: string)
    ensures S.Start(CLIENT, S.Initial(model)).err == S.NoError
  {
  }

  /** A call with an ordinary id: the session charges its arguments twice, 837 bytes
      in all, and stops at the completion that the decoder has paid for. */
  lemma LimitExample(a: string, model: string)
    requires |a| == 400
    ensures var events := Output(UPSTREAM, OneCall("c", a));
      && EndsCompleted(events) && SessionCost.SessionCost(CLIENT, events) == 837
      && Feed(CLIENT, S.Start(CLIENT, S.Initial(model)).st, events).err == S.LimitError
  {
    RunReleases("c", a);
    UpstreamOk("c", a);
    Matches();
    Starts(model);
    OneCallCost(a);
    GoodId(a);
    SessionCost.StreamOutcome(UPSTREAM, CLIENT, model, OneCall("c", a));
  }

  lemma OneCallCost(a: string)
    requires |a| == 400
    ensures SessionCost.SessionCost(CLIENT, Story("c", a)) == 837
  {
    var events := Story("c", a);
    SessionCost.CountNext(CLIENT, events, 0);
    SessionCost.CountNext(CLIENT, events, 1);
    SessionCost.CountNext(CLIENT, events, 2);
    SessionCost.CountNext(CLIENT, events, 3);
    SessionCost.CountNext(CLIENT, events, 4);
    assert events[..0] == [] && events[..5] == events;
  }

  lemma GoodId(a: string)
    ensures NoBadId(CLIENT.utf8, Story("c", a))
  {
    SessionEscapes.ValidSample();
  }

  /** A call whose id is a line break: the decoder completes the run, the session
      refuses the id. */
  lemma BadIdExample(a: string, model: string)
    requires |a| == 400
    ensures var events := Output(UPSTREAM, OneCall("\n", a));
      var r := Feed(CLIENT, S.Start(CLIENT, S.Initial(model)).st, events);
      EndsCompleted(events) && r.err == S.TransitionError && r.st.flags.invalid
  {
    RunReleases("\n", a);
    UpstreamOk("\n", a);
    Matches();
    Starts(model);
    var events := Story("\n", a);
    assert "\n"[0] as int < 0x20 && !Printable("\n");
    assert BadId(CLIENT.utf8, events[1]);
    SessionCost.StreamOutcome(UPSTREAM, CLIENT, model, OneCall("\n", a));
    PipelineExactly(UPSTREAM, CLIENT, model, OneCall("\n", a));
  }
}
