/** The tool-turn round trip: the calls that a completed response shows are the
    calls of the turn saved just before it, so the client's results are accepted. */
module ToolTurns {
  import opened Bridge
  import DecoderContent
  import DecoderEffects
  import DecoderFinish
  import DecoderRun
  import DecoderSafety
  import D = DecoderSpec
  import DecoderTheorems
  import opened HandlerFrames
  import opened HandlerSpec
  import opened Pipeline
  import opened PipelineTheorems
  import opened Protocol
  import opened SessionSafety
  import opened SessionSpec

  // ----- calls as sets of ids and kinds -----

  /** The tool items of a response, by call id and kind. */
  function ShownCalls(output: seq<Snapshot>): set<(string, ToolKind)> {
    set i | 0 <= i < |output| && output[i].ToolSnapshot? :: (output[i].callId, output[i].kind)
  }

  function KeptCalls(calls: seq<UpstreamCall>): set<(string, ToolKind)> {
    set i | 0 <= i < |calls| :: (calls[i].callId, calls[i].kind)
  }

  ghost function TrackedCalls(tools: map<ToolKey, Protocol.Tool>): set<(string, ToolKind)> {
    set k | k in tools :: (tools[k].callId, tools[k].kind)
  }

  lemma ShownIsTracked(t: Table, tools: map<ToolKey, Protocol.Tool>)
    requires TableOk(t) && ToolsLinked(t, tools)
    ensures ShownCalls(Outputs(t.items)) == TrackedCalls(tools)
  {
    var output := Outputs(t.items);
    forall i | 0 <= i < |output| && output[i].ToolSnapshot?
      ensures (output[i].callId, output[i].kind) in TrackedCalls(tools)
    {
      ItemTracked(t, tools, i);
    }
    forall k | k in tools
      ensures (tools[k].callId, tools[k].kind) in ShownCalls(output)
    {
      var i := t.byKey[ToolItem(k)];
      assert ItemIs(t.items[i], tools[k]) && output[i] == SnapshotOf(t.items[i], t.items[i].progress.status);
      assert t.items[i].key == ToolItem(k);
    }
  }

  lemma ItemTracked(t: Table, tools: map<ToolKey, Protocol.Tool>, i: nat)
    requires TableOk(t) && ToolsLinked(t, tools) && i < |t.items| && t.items[i].key.ToolItem?
    ensures (t.items[i].tool.callId, t.items[i].tool.kind) in TrackedCalls(tools)
  {
    var k := t.items[i].key.key;
    assert t.items[i].key == ToolItem(k);
    assert ToolItem(k) in t.byKey && t.byKey[ToolItem(k)] == i;
    assert ItemIs(t.items[i], tools[k]);
  }

  // ----- the retained turn -----

  lemma {:induction false} UpstreamAt(cfg: D.Config, calls: map<ToolKey, D.Call>, keys: seq<ToolKey>, i: nat)
    requires (forall k :: k in keys ==> k in calls) && i < |keys|
    ensures |DecoderContent.UpstreamCalls(cfg, calls, keys)| == |keys|
    ensures DecoderContent.UpstreamCalls(cfg, calls, keys)[i] == DecoderContent.UpstreamOf(cfg, calls[keys[i]])
    decreases |keys|
  {
    if i > 0 {
      UpstreamAt(cfg, calls, keys[1..], i - 1);
    } else if |keys| > 1 {
      UpstreamAt(cfg, calls, keys[1..], 0);
    }
  }

  lemma {:induction false} UpstreamLength(cfg: D.Config, calls: map<ToolKey, D.Call>, keys: seq<ToolKey>)
    requires forall k :: k in keys ==> k in calls
    ensures |DecoderContent.UpstreamCalls(cfg, calls, keys)| == |keys|
    decreases |keys|
  {
    if keys != [] {
      UpstreamLength(cfg, calls, keys[1..]);
    }
  }

  /** The calls of the finished decoder are the ones the event stream showed. */
  lemma KeptIsTracked(cfg: D.Config, calls: map<ToolKey, D.Call>, final: D.State, tools: map<ToolKey, Protocol.Tool>)
    requires DecoderContent.FinalTurn(cfg, calls, final) && DecoderFinish.TurnTracked(cfg, final.calls, tools)
    ensures KeptCalls(DecoderContent.UpstreamCalls(cfg, calls, DecoderRun.KeyOrder(calls.Keys))) == TrackedCalls(tools)
  {
    var keys := DecoderRun.KeyOrder(calls.Keys);
    var kept := DecoderContent.UpstreamCalls(cfg, calls, keys);
    UpstreamLength(cfg, calls, keys);
    forall i | 0 <= i < |kept|
      ensures (kept[i].callId, kept[i].kind) in TrackedCalls(tools)
    {
      UpstreamAt(cfg, calls, keys, i);
      CallTracked(cfg, calls, final, tools, keys[i]);
    }
    forall k | k in tools
      ensures (tools[k].callId, tools[k].kind) in KeptCalls(kept)
    {
      var i :| 0 <= i < |keys| && keys[i] == k;
      UpstreamAt(cfg, calls, keys, i);
      CallTracked(cfg, calls, final, tools, k);
    }
  }

  lemma CallTracked(cfg: D.Config, calls: map<ToolKey, D.Call>, final: D.State, tools: map<ToolKey, Protocol.Tool>,
                    k: ToolKey)
    requires DecoderContent.FinalTurn(cfg, calls, final) && DecoderFinish.TurnTracked(cfg, final.calls, tools)
    requires k in calls
    ensures k in tools && tools[k].callId == calls[k].callId && tools[k].kind == D.PublicKind(cfg, calls[k].name)
  {
    assert DecoderContent.SameCall(final.calls[k], calls[k]);
    assert DecoderFinish.Tracked(cfg, k, final.calls[k], tools);
  }

  /** In a run that ends in Completed, what PendingTurn offers is what was shown. */
  lemma OfferedIsTracked(cfg: D.Config, input: seq<D.ProviderEvent>)
    requires DecoderSafety.ConfigOk(cfg) && DecoderSafety.InputOk(cfg, input)
    requires DecoderContent.EndsCompleted(DecoderRun.Output(cfg, input))
    ensures Watch(cfg.utf8, DecoderRun.Output(cfg, input)).Some?
    ensures var tools := Watch(cfg.utf8, DecoderRun.Output(cfg, input)).value.tools;
      var turn := DecoderContent.TurnOf(DecoderRun.Run(cfg, D.INITIAL, input).st);
      tools != map[] ==> turn.Some? && KeptCalls(turn.value.calls) == TrackedCalls(tools)
  {
    DecoderTheorems.OutputLegal(cfg, input);
    var tools := Watch(cfg.utf8, DecoderRun.Output(cfg, input)).value.tools;
    var n := DecoderContent.FragmentConservation(cfg, input);
    if tools != map[] {
      FinalCalls(cfg, input, n, tools);
    }
  }

  lemma FinalCalls(cfg: D.Config, input: seq<D.ProviderEvent>, n: nat, tools: map<ToolKey, Protocol.Tool>)
    requires DecoderContent.CompletedAs(cfg, D.INITIAL, input, n, DecoderRun.Run(cfg, D.INITIAL, input))
    requires DecoderFinish.TurnTracked(cfg, DecoderRun.Run(cfg, D.INITIAL, input).st.calls, tools) && tools != map[]
    ensures var turn := DecoderContent.TurnOf(DecoderRun.Run(cfg, D.INITIAL, input).st);
      turn.Some? && KeptCalls(turn.value.calls) == TrackedCalls(tools)
  {
    var final := DecoderRun.Run(cfg, D.INITIAL, input).st;
    var calls := DecoderEffects.Apply(D.INITIAL.calls, DecoderContent.Fragments(input[..n]));
    var k :| k in tools;
    assert k in final.calls;
    assert k in calls;
    DecoderContent.TurnMatchesStream(cfg, calls, final);
    KeptIsTracked(cfg, calls, final, tools);
  }

  // ----- save before completed -----

  /** A completed frame with tool items was preceded by the saving of a turn with
      exactly these calls, and every frame since then belongs to the completion. */
  ghost predicate SavedFirst(h: Handler) {
    forall i :: 0 <= i < |h.session.wire.frames| && IsCompleted(h.session.wire.frames[i].body) ==>
      Backed(h, i, h.session.wire.frames[i].body.response.output)
  }

  ghost predicate Backed(h: Handler, i: nat, output: seq<Snapshot>) {
    && i == |h.session.wire.frames| - 1
    && (ShownCalls(output) != {} ==>
          h.saved.Some? && h.saved.value.at <= i && KeptCalls(h.saved.value.turn.calls) == ShownCalls(output))
  }

  /** What the turn has to do with the event stream. */
  ghost predicate TurnShows(turn: Option<PendingTurn>, events: seq<Event>, tools: map<ToolKey, Protocol.Tool>) {
    DecoderContent.EndsCompleted(events) && tools != map[] ==>
      turn.Some? && KeptCalls(turn.value.calls) == TrackedCalls(tools)
  }

  /** The handler before event n: everything before it has been handled well. */
  ghost predicate InStep(c: Config, events: seq<Event>, n: nat, h: Handler)
    requires n <= |events|
  {
    && Good(true, h.session) && Watch(c.utf8, events[..n]).Some?
    && Linked(Watch(c.utf8, events[..n]).value, h.session) && NoneCompleted(h.session.wire.frames)
    && NoBadId(c.utf8, events[..n])
  }

  ghost predicate StreamOk(c: Config, events: seq<Event>, maxArguments: int) {
    && Watch(c.utf8, events).Some? && Watch(c.utf8, events).value.ended
    && SessionFits(c, Watch(c.utf8, events).value.totals, maxArguments)
    && ToolsWithin(Watch(c.utf8, events).value.tools, maxArguments)
  }

  lemma NoneIsBacked(h: Handler)
    requires NoneCompleted(h.session.wire.frames)
    ensures SavedFirst(h)
  {
  }

  lemma FailNone(c: Config, h: Handler, code: FailureCode)
    requires NoneCompleted(h.session.wire.frames)
    ensures NoneCompleted(Fail(c, h, code).session.wire.frames)
  {
    HandleOther(c, h.session, Failed(code));
  }

  /** A round with any event but Completed. */
  lemma OtherRound(c: Config, leased: bool, turn: Option<PendingTurn>, events: seq<Event>, n: nat, h: Handler,
                   m: Moment, maxArguments: int)
    requires StreamOk(c, events, maxArguments) && n < |events| && InStep(c, events, n, h) && !events[n].Completed?
    ensures var p := Round(c, leased, turn, h, Some(events[n]), m);
      && NoneCompleted(p.h.session.wire.frames)
      && (p.Going? ==> n + 1 < |events| && InStep(c, events, n + 1, p.h))
  {
    FailNone(c, h, StreamTimeout);
    OtherDelivered(c, leased, events, n, h, m, maxArguments);
  }

  lemma OtherDelivered(c: Config, leased: bool, events: seq<Event>, n: nat, h: Handler, m: Moment, maxArguments: int)
    requires StreamOk(c, events, maxArguments) && n < |events| && InStep(c, events, n, h) && !events[n].Completed?
    ensures var p := Deliver(c, leased, h, events[n], m);
      && NoneCompleted(p.h.session.wire.frames)
      && (p.Going? ==> n + 1 < |events| && InStep(c, events, n + 1, p.h))
  {
    var o := Handle(c, h.session, events[n]);
    HandleOther(c, h.session, events[n]);
    FailNone(c, WithSession(h, o.st), ContinuationCommit);
    if BadId(c.utf8, events[n]) {
      BadEventAt(c, events, n, h.session, maxArguments, o);
    } else {
      OneMoreGoodId(c.utf8, events, n);
      OneEventAt(c, events, n, h.session, maxArguments, o);
      NextMonitor(c.utf8, events, n);
      if !IsTerminal(events[n]) {
        NotLast(c, events, n);
      }
    }
  }

  /** The turn that has been saved shows the tools of the stream. */
  ghost predicate Kept(h: Handler, tools: map<ToolKey, Protocol.Tool>) {
    tools != map[] ==>
      h.saved.Some? && h.saved.value.at <= Written(h) && KeptCalls(h.saved.value.turn.calls) == TrackedCalls(tools)
  }

  lemma CompletedHandled(c: Config, events: seq<Event>, n: nat, h: Handler, maxArguments: int, o: Out)
    requires StreamOk(c, events, maxArguments) && n < |events| && InStep(c, events, n, h) && events[n].Completed?
    requires o == Handle(c, h.session, Completed)
    ensures o.err == NoError ==>
      TableOk(o.st.table) && ToolsLinked(o.st.table, Watch(c.utf8, events).value.tools) && EndedBy(c, Completed, o.st)
  {
    OneMoreGoodId(c.utf8, events, n);
    OneEventAt(c, events, n, h.session, maxArguments, o);
    LastIsTerminal(c, events, n);
  }

  lemma CompletedDelivered(c: Config, leased: bool, events: seq<Event>, n: nat, h: Handler, m: Moment,
                           maxArguments: int)
    requires StreamOk(c, events, maxArguments) && n < |events| && InStep(c, events, n, h) && events[n].Completed?
    requires Kept(h, Watch(c.utf8, events).value.tools)
    ensures Deliver(c, leased, h, events[n], m).Over? && SavedFirst(Deliver(c, leased, h, events[n], m).h)
  {
    var o := Handle(c, h.session, Completed);
    CompletedHandled(c, events, n, h, maxArguments, o);
    CompletedDelivers(c, leased, h, m);
    CompletedOutcome(c, Watch(c.utf8, events).value.tools, h, o);
  }

  lemma CompletedOutcome(c: Config, tools: map<ToolKey, Protocol.Tool>, h: Handler, o: Out)
    requires o == Handle(c, h.session, Completed) && NoneCompleted(h.session.wire.frames) && Kept(h, tools)
    requires o.err == NoError ==> TableOk(o.st.table) && ToolsLinked(o.st.table, tools) && EndedBy(c, Completed, o.st)
    ensures SavedFirst(WithSession(h, o.st))
  {
    HandleCompleted(c, h.session);
    if o.err == NoError {
      CompletedBacked(c, tools, h, o);
    } else {
      NoneIsBacked(WithSession(h, o.st));
    }
  }

  lemma CompletedDelivers(c: Config, leased: bool, h: Handler, m: Moment)
    requires Handle(c, h.session, Completed).err == NoError ==> Handle(c, h.session, Completed).st.flags.terminal
    ensures var o, p := Handle(c, h.session, Completed), Deliver(c, leased, h, Completed, m);
      p.h == WithSession(h, o.st) && p.Over?
  {
  }

  lemma OnlyLast(frames: seq<Frame>, last: nat)
    requires last + 1 == |frames| && NoneCompleted(frames[..last])
    ensures forall i :: 0 <= i < |frames| && IsCompleted(frames[i].body) ==> i == last
  {
    assert forall i :: 0 <= i < last ==> frames[..last][i] == frames[i];
  }

  /** The completed frame shows the items of the session, and these are the tools. */
  lemma CompletedBacked(c: Config, tools: map<ToolKey, Protocol.Tool>, h: Handler, o: Out)
    requires TableOk(o.st.table) && ToolsLinked(o.st.table, tools) && EndedBy(c, Completed, o.st) && Kept(h, tools)
    requires |o.st.wire.frames| > |h.session.wire.frames| && NoneCompleted(o.st.wire.frames[..|o.st.wire.frames| - 1])
    ensures SavedFirst(WithSession(h, o.st))
  {
    ShownIsTracked(o.st.table, tools);
    OnlyLast(o.st.wire.frames, |o.st.wire.frames| - 1);
  }

  lemma CompletedRound(c: Config, leased: bool, turn: Option<PendingTurn>, events: seq<Event>, n: nat, h: Handler,
                       m: Moment, maxArguments: int)
    requires StreamOk(c, events, maxArguments) && n < |events| && InStep(c, events, n, h) && events[n].Completed?
    requires TurnShows(turn, events, Watch(c.utf8, events).value.tools)
    ensures var p := Round(c, leased, turn, h, Some(events[n]), m); p.Over? && SavedFirst(p.h)
  {
    FailNone(c, h, StreamTimeout);
    FailNone(c, h, ContinuationCapacity);
    NoneIsBacked(h);
    NoneIsBacked(Fail(c, h, StreamTimeout));
    NoneIsBacked(Fail(c, h, ContinuationCapacity));
    LastIsTerminal(c, events, n);
    if turn.Some? {
      var kept := h.(saved := Some(Saved(turn.value, Written(h))));
      CompletedDelivered(c, leased, events, n, kept, m, maxArguments);
    } else {
      CompletedDelivered(c, leased, events, n, h, m, maxArguments);
    }
  }

  lemma {:induction false} ServeSaves(c: Config, leased: bool, turn: Option<PendingTurn>, events: seq<Event>, n: nat,
                                      h: Handler,
                                      moments: seq<Moment>, maxArguments: int)
    requires StreamOk(c, events, maxArguments) && n < |events| && InStep(c, events, n, h)
    requires TurnShows(turn, events, Watch(c.utf8, events).value.tools) && |moments| > |events| - n
    ensures SavedFirst(Serve(c, leased, turn, h, events[n..], moments))
    decreases |events| - n
  {
    assert events[n..][0] == events[n] && events[n..][1..] == events[n + 1..];
    var p := Round(c, leased, turn, h, Some(events[n]), moments[0]);
    if events[n].Completed? {
      CompletedRound(c, leased, turn, events, n, h, moments[0], maxArguments);
    } else {
      OtherRound(c, leased, turn, events, n, h, moments[0], maxArguments);
      if p.Going? {
        ServeSaves(c, leased, turn, events, n + 1, p.h, moments[1..], maxArguments);
      } else {
        NoneIsBacked(p.h);
      }
    }
  }
}
