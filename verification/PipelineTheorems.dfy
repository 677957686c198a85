/** The gateway's stream pipeline as a whole: decoder events fed to a session
    until one of them is refused. */
module PipelineTheorems {
  import opened Bridge
  import D = DecoderSpec
  import DecoderRun
  import DecoderSafety
  import DecoderTheorems
  import opened Pipeline
  import opened Protocol
  import opened SessionSafety
  import opened SessionSpec
  import opened SessionTheorems

  /** used is the number of events the session accepted. */
  datatype Fed = Fed(st: State, err: Error, used: nat)

  function Feed(c: Config, s: State, events: seq<Event>): Fed
    decreases |events|
  {
    if events == [] then Fed(s, NoError, 0)
    else
      var o := Handle(c, s, events[0]);
      if o.err != NoError then Fed(o.st, o.err, 0)
      else
        var rest := Feed(c, o.st, events[1..]);
        rest.(used := rest.used + 1)
  }

  /** The feed after one event that was answered by o. */
  function AfterOne(c: Config, o: Out, rest: seq<Event>): Fed {
    if o.err != NoError then Fed(o.st, o.err, 0)
    else
      var fed := Feed(c, o.st, rest);
      fed.(used := fed.used + 1)
  }

  /** Event n is a completion, or arguments after some completion: the session
      charges completed arguments a second time, the decoder does not. */
  predicate StopsAtTool(c: Config, events: seq<Event>, n: nat)
    requires n < |events|
  {
    events[n].ToolCallCompleted? ||
    (events[n].ToolCallArguments? && exists i :: 0 <= i < n && events[i].ToolCallCompleted?)
  }

  /** How feeding a legal, ended stream can end when no refused call id is met. */
  ghost predicate FedWell(c: Config, events: seq<Event>, first: nat, r: Fed) {
    && !r.st.flags.invalid && WireOk(true, r.st.wire)
    && Watch(c.utf8, events).Some? && events != []
    && match r.err
       case NoError =>
         var last := events[|events| - 1];
         && IsTerminal(last) && EndedBy(c, last, r.st) && TableOk(r.st.table)
         && (last.Completed? ==> Delivered(Watch(c.utf8, events).value, r.st.table))
       case WriteError => r.st.flags.failed
       case LimitError =>
         r.st.flags.terminal && first + r.used < |events| && StopsAtTool(c, events, first + r.used)
       case _ => false
  }

  /** The session is still running when a call with a refused id is announced. */
  predicate MeetsBadId(c: Config, s: State, events: seq<Event>)
    decreases |events|
  {
    events != [] &&
    (BadId(c.utf8, events[0]) ||
      (Handle(c, s, events[0]).err == NoError && MeetsBadId(c, Handle(c, s, events[0]).st, events[1..])))
  }

  /** The stream ends in an invalid transition, still inside the grammar, at the
      event that brought the refused id. */
  ghost predicate FedInvalid(c: Config, events: seq<Event>, first: nat, r: Fed) {
    && r.st.flags.invalid && WireOk(true, r.st.wire)
    && (r.err == TransitionError || (r.err == WriteError && r.st.flags.failed))
    && first + r.used < |events| && BadId(c.utf8, events[first + r.used])
  }

  ghost predicate FedExactly(c: Config, events: seq<Event>, first: nat, refused: bool, r: Fed) {
    if refused then FedInvalid(c, events, first, r) else FedWell(c, events, first, r)
  }

  lemma NextMonitor(utf8: Utf8Test, events: seq<Event>, n: nat)
    requires Watch(utf8, events).Some? && n < |events|
    ensures Watch(utf8, events[..n]).Some?
    ensures var m := Watch(utf8, events[..n]).value;
      && Legal(utf8, m, events[n])
      && Watch(utf8, events[..n + 1]) == Some(Track(m, events[n]))
      && Grows(Track(m, events[n]), Watch(utf8, events).value)
  {
    WatchGrows(utf8, events, n + 1);
    assert events[..n + 1][..n] == events[..n];
    assert events[..n + 1][n] == events[n];
  }

  lemma RoomFor(c: Config, events: seq<Event>, n: nat, maxArguments: int)
    requires Watch(c.utf8, events).Some? && n < |events|
    requires SessionFits(c, Watch(c.utf8, events).value.totals, maxArguments)
    requires ToolsWithin(Watch(c.utf8, events).value.tools, maxArguments)
    ensures Watch(c.utf8, events[..n]).Some? && Roomy(c, Watch(c.utf8, events[..n]).value, events[n], maxArguments)
  {
    NextMonitor(c.utf8, events, n);
  }

  lemma OneEvent(c: Config, m: Monitor, s: State, e: Event, maxArguments: int)
    requires Good(true, s) && Linked(m, s) && Roomy(c, m, e, maxArguments)
    requires IdsTaken(c.utf8, m.tools) && !BadId(c.utf8, e)
    ensures Good(true, Handle(c, s, e).st) && Follows(c, m, e, Handle(c, s, e))
  {
    NoEscape(c, m, s, e, maxArguments);
    ApplyGood(true, c, s, CallHandle(e));
    DispatchFollows(c, m, s, e, maxArguments);
  }

  /** A refused id is an invalid transition, whatever else the event brings. */
  lemma BadEvent(c: Config, m: Monitor, s: State, e: Event, maxArguments: int)
    requires Good(true, s) && Linked(m, s) && Roomy(c, m, e, maxArguments) && BadId(c.utf8, e)
    ensures var o := Handle(c, s, e);
      && Good(true, o.st) && o.st.flags.invalid
      && (o.err == TransitionError || (o.err == WriteError && o.st.flags.failed))
  {
    NoEscape(c, m, s, e, maxArguments);
    ApplyGood(true, c, s, CallHandle(e));
  }

  lemma LimitOnlyAtTools(c: Config, m: Monitor, s: State, e: Event, maxArguments: int)
    requires Good(true, s) && Linked(m, s) && Roomy(c, m, e, maxArguments)
    requires IdsTaken(c.utf8, m.tools) && !BadId(c.utf8, e)
    requires Handle(c, s, e).err == LimitError
    ensures e.ToolCallCompleted? || (e.ToolCallArguments? && !NoneDone(m.tools))
  {
    OneEvent(c, m, s, e, maxArguments);
    if !e.ToolCallCompleted? && !e.ToolCallArguments? {
      LaterEventFits(c, m, s, e);
    }
  }

  /** After a completed call only more tool events, usage or the end can come. */
  lemma LaterEventFits(c: Config, m: Monitor, s: State, e: Event)
    requires Open(s) && TableOk(s.table) && Linked(m, s) && Legal(c.utf8, m, e) && !NoneDone(m.tools)
    requires !e.ToolCallCompleted? && !e.ToolCallArguments?
    ensures Handle(c, s, e).err != LimitError
  {
    if e.Completed? {
      AllDoneIdentity(m, s);
      FinishItemsFlags(c, s, StatusCompleted, true, 0);
    }
  }

  lemma FeedEnds(c: Config, events: seq<Event>, n: nat, o: Out)
    requires Watch(c.utf8, events).Some? && n < |events| && Watch(c.utf8, events[..n]).Some?
    requires Good(true, o.st) && Follows(c, Watch(c.utf8, events[..n]).value, events[n], o)
    requires o.err == NoError && IsTerminal(events[n])
    ensures FedWell(c, events, n, Fed(o.st, NoError, 1)) && events[n + 1..] == []
  {
    LastIsTerminal(c, events, n);
  }

  lemma FeedRefused(c: Config, events: seq<Event>, n: nat, o: Out)
    requires Watch(c.utf8, events).Some? && n < |events| && Watch(c.utf8, events[..n]).Some?
    requires Good(true, o.st) && Follows(c, Watch(c.utf8, events[..n]).value, events[n], o)
    requires o.err != NoError
    requires o.err == LimitError ==> StopsAtTool(c, events, n)
    ensures FedWell(c, events, n, Fed(o.st, o.err, 0))
  {
  }

  lemma FeedContinues(c: Config, events: seq<Event>, n: nat, refused: bool, r: Fed)
    requires FedExactly(c, events, n + 1, refused, r)
    ensures FedExactly(c, events, n, refused, r.(used := r.used + 1))
  {
  }

  lemma FeedStep(c: Config, s: State, events: seq<Event>, n: nat, o: Out)
    requires n < |events| && o == Handle(c, s, events[n])
    ensures Feed(c, s, events[n..]) == AfterOne(c, o, events[n + 1..])
  {
    assert events[n..][0] == events[n] && events[n..][1..] == events[n + 1..];
  }

  lemma OneEventAt(c: Config, events: seq<Event>, n: nat, s: State, maxArguments: int, o: Out)
    requires Watch(c.utf8, events).Some? && n < |events|
    requires SessionFits(c, Watch(c.utf8, events).value.totals, maxArguments)
    requires ToolsWithin(Watch(c.utf8, events).value.tools, maxArguments)
    requires Good(true, s) && Watch(c.utf8, events[..n]).Some? && Linked(Watch(c.utf8, events[..n]).value, s)
    requires o == Handle(c, s, events[n])
    requires NoBadId(c.utf8, events[..n + 1])
    ensures Good(true, o.st) && Follows(c, Watch(c.utf8, events[..n]).value, events[n], o)
    ensures o.err == LimitError ==> StopsAtTool(c, events, n)
  {
    var m := Watch(c.utf8, events[..n]).value;
    RoomFor(c, events, n, maxArguments);
    IdsBefore(c.utf8, events, n);
    OneEvent(c, m, s, events[n], maxArguments);
    if o.err == LimitError {
      LimitOnlyAtTools(c, m, s, events[n], maxArguments);
      if !NoneDone(m.tools) {
        CompletedBefore(c.utf8, events, n);
      }
    }
  }

  lemma CompletedBefore(utf8: Utf8Test, events: seq<Event>, n: nat)
    requires n <= |events| && Watch(utf8, events[..n]).Some? && !NoneDone(Watch(utf8, events[..n]).value.tools)
    ensures exists i :: 0 <= i < n && events[i].ToolCallCompleted?
  {
    DoneMeansCompleted(utf8, events[..n]);
    assert forall i :: 0 <= i < n ==> events[..n][i] == events[i];
  }

  lemma {:induction false} DoneMeansCompleted(utf8: Utf8Test, events: seq<Event>)
    requires Watch(utf8, events).Some? && !NoneDone(Watch(utf8, events).value.tools)
    ensures exists i :: 0 <= i < |events| && events[i].ToolCallCompleted?
    decreases |events|
  {
    var n := |events| - 1;
    if !events[n].ToolCallCompleted? {
      DoneMeansCompleted(utf8, events[..n]);
      var i :| 0 <= i < n && events[..n][i].ToolCallCompleted?;
      assert events[i].ToolCallCompleted?;
    }
  }

  lemma IdsBefore(utf8: Utf8Test, events: seq<Event>, n: nat)
    requires n < |events| && Watch(utf8, events[..n]).Some? && NoBadId(utf8, events[..n + 1])
    ensures IdsTaken(utf8, Watch(utf8, events[..n]).value.tools) && !BadId(utf8, events[n])
  {
    assert events[..n + 1][n] == events[n];
    assert forall i :: 0 <= i < n ==> events[..n][i] == events[..n + 1][i];
    WatchedIds(utf8, events[..n]);
  }

  lemma OneMoreGoodId(utf8: Utf8Test, events: seq<Event>, n: nat)
    requires n < |events| && NoBadId(utf8, events[..n]) && !BadId(utf8, events[n])
    ensures NoBadId(utf8, events[..n + 1])
  {
    assert forall i :: 0 <= i < n ==> events[..n + 1][i] == events[..n][i];
  }

  lemma BadEventAt(c: Config, events: seq<Event>, n: nat, s: State, maxArguments: int, o: Out)
    requires Watch(c.utf8, events).Some? && n < |events| && BadId(c.utf8, events[n])
    requires SessionFits(c, Watch(c.utf8, events).value.totals, maxArguments)
    requires ToolsWithin(Watch(c.utf8, events).value.tools, maxArguments)
    requires Good(true, s) && Watch(c.utf8, events[..n]).Some? && Linked(Watch(c.utf8, events[..n]).value, s)
    requires o == Handle(c, s, events[n])
    ensures o.err != NoError && FedInvalid(c, events, n, Fed(o.st, o.err, 0))
  {
    RoomFor(c, events, n, maxArguments);
    BadEvent(c, Watch(c.utf8, events[..n]).value, s, events[n], maxArguments);
  }

  lemma MeetsStep(c: Config, s: State, events: seq<Event>, n: nat)
    requires n < |events|
    ensures MeetsBadId(c, s, events[n..]) <==>
      BadId(c.utf8, events[n]) ||
      (Handle(c, s, events[n]).err == NoError && MeetsBadId(c, Handle(c, s, events[n]).st, events[n + 1..]))
  {
    assert events[n..][0] == events[n] && events[n..][1..] == events[n + 1..];
  }

  lemma {:induction false} FeedFollows(c: Config, events: seq<Event>, n: nat, s: State, maxArguments: int)
    requires Watch(c.utf8, events).Some? && Watch(c.utf8, events).value.ended && n < |events|
    requires SessionFits(c, Watch(c.utf8, events).value.totals, maxArguments)
    requires ToolsWithin(Watch(c.utf8, events).value.tools, maxArguments)
    requires Good(true, s) && Watch(c.utf8, events[..n]).Some? && Linked(Watch(c.utf8, events[..n]).value, s)
    requires NoBadId(c.utf8, events[..n])
    ensures FedExactly(c, events, n, MeetsBadId(c, s, events[n..]), Feed(c, s, events[n..]))
    decreases |events| - n, 1
  {
    var o := Handle(c, s, events[n]);
    FeedStep(c, s, events, n, o);
    MeetsStep(c, s, events, n);
    var refused, r := MeetsBadId(c, s, events[n..]), Feed(c, s, events[n..]);
    if BadId(c.utf8, events[n]) {
      BadEventAt(c, events, n, s, maxArguments, o);
      SameFed(c, events, n, true, Fed(o.st, o.err, 0), refused, r);
    } else {
      OneMoreGoodId(c.utf8, events, n);
      OneEventAt(c, events, n, s, maxArguments, o);
      FeedRest(c, events, n, o, maxArguments);
      SameFed(c, events, n, o.err == NoError && MeetsBadId(c, o.st, events[n + 1..]), AfterOne(c, o, events[n + 1..]),
        refused, r);
    }
  }

  lemma SameFed(c: Config, events: seq<Event>, n: nat, refused: bool, r: Fed, refused': bool, r': Fed)
    requires FedExactly(c, events, n, refused, r) && refused' == refused && r' == r
    ensures FedExactly(c, events, n, refused', r')
  {
  }

  lemma {:induction false} FeedRest(c: Config, events: seq<Event>, n: nat, o: Out, maxArguments: int)
    requires Watch(c.utf8, events).Some? && Watch(c.utf8, events).value.ended && n < |events|
    requires SessionFits(c, Watch(c.utf8, events).value.totals, maxArguments)
    requires ToolsWithin(Watch(c.utf8, events).value.tools, maxArguments)
    requires Watch(c.utf8, events[..n]).Some? && Good(true, o.st)
    requires Follows(c, Watch(c.utf8, events[..n]).value, events[n], o)
    requires o.err == LimitError ==> StopsAtTool(c, events, n)
    requires NoBadId(c.utf8, events[..n + 1])
    ensures var refused := o.err == NoError && MeetsBadId(c, o.st, events[n + 1..]);
      FedExactly(c, events, n, refused, AfterOne(c, o, events[n + 1..]))
    decreases |events| - n, 0
  {
    if o.err != NoError {
      FeedRefused(c, events, n, o);
    } else if IsTerminal(events[n]) {
      FeedEnds(c, events, n, o);
      assert Feed(c, o.st, events[n + 1..]) == Fed(o.st, NoError, 0);
    } else {
      NotLast(c, events, n);
      NextMonitor(c.utf8, events, n);
      FeedFollows(c, events, n + 1, o.st, maxArguments);
      FeedContinues(c, events, n, MeetsBadId(c, o.st, events[n + 1..]), Feed(c, o.st, events[n + 1..]));
    }
  }

  predicate Delivers(a: Monitor, b: Monitor) {
    a.tools == b.tools && a.texts == b.texts
  }

  lemma LastIsTerminal(c: Config, events: seq<Event>, n: nat)
    requires Watch(c.utf8, events).Some? && n < |events| && IsTerminal(events[n])
    ensures n == |events| - 1 && events[n + 1..] == []
    ensures events[n].Completed? ==>
      Watch(c.utf8, events[..n]).Some? && Delivers(Watch(c.utf8, events[..n]).value, Watch(c.utf8, events).value)
  {
    DecoderTheorems.OneTerminal(c.utf8, events);
    NextMonitor(c.utf8, events, n);
    assert events[..n + 1] == events;
  }

  lemma NotLast(c: Config, events: seq<Event>, n: nat)
    requires Watch(c.utf8, events).Some? && Watch(c.utf8, events).value.ended && n < |events| && !IsTerminal(events[n])
    ensures n + 1 < |events|
  {
    DecoderTheorems.OneTerminal(c.utf8, events);
  }

  // ----- the main theorems -----

  /** The session has at least the decoder's limits, short valid item ids, and the
      custom tool kind. */
  ghost predicate SessionMatches(c: Config, cfg: D.Config) {
    && c.utf8 == cfg.utf8
    && cfg.maxText <= c.maxText && cfg.maxReasoning <= c.maxReasoning && cfg.maxOutput <= c.maxOutput
    && cfg.maxAggregate <= c.maxAggregate && cfg.maxToolArguments <= c.maxToolArguments
    && (forall p, n :: ValidStreamValue(c.utf8, c.newId(p, n), EVENT_COST - STATE_OVERHEAD))
    && KindCustom in c.customKinds
  }

  lemma StartLinked(c: Config, model: string)
    requires Start(c, Initial(model)).err == NoError
    ensures Good(true, Start(c, Initial(model)).st) && Linked(FRESH, Start(c, Initial(model)).st)
  {
    InitialGood(true, model);
    ApplyGood(true, c, Initial(model), CallStart);
  }

  /** Composition: for every upstream response, feeding the decoder's events to a
      started session reaches an invalid transition exactly if a call is announced
      under a provider id that is no valid stream value while the session still
      runs. Otherwise, unless a write fails, the stream ends with the decoder's own
      terminal event, or at a tool completion, or at the arguments of a call that
      follows a completion, which the session's aggregate budget does not admit. In
      both cases the frames stay inside the strict wire grammar, so every item is
      announced and closed once and its deltas concatenate to its done frame and to
      the terminal output. */
  lemma PipelineExactly(cfg: D.Config, c: Config, model: string, input: seq<D.ProviderEvent>)
    requires DecoderSafety.ConfigOk(cfg) && DecoderSafety.InputOk(cfg, input) && SessionMatches(c, cfg)
    requires Start(c, Initial(model)).err == NoError
    ensures var events, s := DecoderRun.Output(cfg, input), Start(c, Initial(model)).st;
      FedExactly(c, events, 0, MeetsBadId(c, s, events), Feed(c, s, events))
  {
    var events := DecoderRun.Output(cfg, input);
    DecoderTheorems.OutputLegal(cfg, input);
    DecoderTheorems.OneTerminal(cfg.utf8, events);
    StartLinked(c, model);
    assert events[..0] == [] && events[0..] == events;
    FeedFollows(c, events, 0, Start(c, Initial(model)).st, cfg.maxToolArguments);
  }

  lemma {:induction false} GoodIdsMeetNone(c: Config, s: State, events: seq<Event>)
    requires NoBadId(c.utf8, events)
    ensures !MeetsBadId(c, s, events)
    decreases |events|
  {
    if events != [] {
      assert !BadId(c.utf8, events[0]);
      assert forall i :: 0 <= i < |events| - 1 ==> events[1..][i] == events[i + 1];
      GoodIdsMeetNone(c, Handle(c, s, events[0]).st, events[1..]);
    }
  }

  /** A stream whose released call ids are valid stream values never reaches an
      invalid transition. */
  lemma PipelineSafe(cfg: D.Config, c: Config, model: string, input: seq<D.ProviderEvent>)
    requires DecoderSafety.ConfigOk(cfg) && DecoderSafety.InputOk(cfg, input) && SessionMatches(c, cfg)
    requires Start(c, Initial(model)).err == NoError
    requires NoBadId(c.utf8, DecoderRun.Output(cfg, input))
    ensures var events := DecoderRun.Output(cfg, input);
      FedWell(c, events, 0, Feed(c, Start(c, Initial(model)).st, events))
  {
    PipelineExactly(cfg, c, model, input);
    GoodIdsMeetNone(c, Start(c, Initial(model)).st, DecoderRun.Output(cfg, input));
  }
}
