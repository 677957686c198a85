/** What a session charges for an event stream, read off the events alone, and how
    every decoder run therefore ends. */
module SessionCost {
  import opened Bridge
  import DecoderRun
  import DecoderSafety
  import D = DecoderSpec
  import DecoderTheorems
  import opened Pipeline
  import opened PipelineTheorems
  import opened Protocol
  import opened SessionHandlers
  import opened SessionSafety
  import opened SessionShape
  import opened SessionSpec

  // ----- the charge -----

  /** The bytes charged so far, the items opened, and the choices that have spoken. */
  datatype Counted = Counted(spent: nat, items: nat, speaking: set<int>)

  const NOTHING := Counted(0, 0, {})

  function ItemBytes(c: Config, prefix: IdPrefix, n: nat): nat {
    |c.newId(prefix, n)| + STATE_OVERHEAD
  }

  function Charge(c: Config, k: Counted, e: Event): Counted {
    match e
    case TextDelta(choice, text) =>
      if choice in k.speaking then k.(spent := k.spent + |text|)
      else Counted(k.spent + ItemBytes(c, MessageId, k.items) + |text|, k.items + 1, k.speaking + {choice})
    case ReasoningDelta(_, text) => k.(spent := k.spent + |text|)
    case ToolCallStarted(_, kind, callId, name) =>
      k.(spent := k.spent + ItemBytes(c, PrefixOf(kind), k.items) + |callId| + |name|, items := k.items + 1)
    case ToolCallArguments(_, arguments) => k.(spent := k.spent + |arguments|)
    case ToolCallCompleted(_, _, callId, name, arguments) => k.(spent := k.spent + |callId| + |name| + |arguments|)
    case _ => k
  }

  function Counting(c: Config, events: seq<Event>): Counted {
    if events == [] then NOTHING else Charge(c, Counting(c, events[..|events| - 1]), events[|events| - 1])
  }

  function SessionCost(c: Config, events: seq<Event>): nat {
    Counting(c, events).spent
  }

  lemma {:induction false} CostGrows(c: Config, events: seq<Event>, n: nat)
    requires n <= |events|
    ensures SessionCost(c, events[..n]) <= SessionCost(c, events)
    decreases |events|
  {
    if n < |events| {
      var front := events[..|events| - 1];
      CostGrows(c, front, n);
      assert front[..n] == events[..n];
    } else {
      assert events[..n] == events;
    }
  }

  lemma CountNext(c: Config, events: seq<Event>, n: nat)
    requires n < |events|
    ensures Counting(c, events[..n + 1]) == Charge(c, Counting(c, events[..n]), events[n])
  {
    assert events[..n + 1][..n] == events[..n];
  }

  // ----- one event -----

  ghost predicate Counts(c: Config, k: Counted, m: Monitor, s: State) {
    && s.ledger.aggregate == k.spent <= c.maxAggregate
    && s.table.nextIndex == k.items && m.texts.Keys == k.speaking
  }

  /** An event is accepted exactly if its charge fits, unless a write fails. */
  ghost predicate Charged(c: Config, k: Counted, m: Monitor, e: Event, o: Out) {
    && (o.err == NoError && !IsTerminal(e) ==> Counts(c, Charge(c, k, e), Track(m, e), o.st))
    && (o.err == LimitError ==> Charge(c, k, e).spent > c.maxAggregate)
  }

  lemma TextCharged(c: Config, m: Monitor, s: State, e: Event, maxArguments: int, k: Counted)
    requires TableOk(s.table) && Linked(m, s) && Roomy(c, m, e, maxArguments) && e.TextDelta? && Counts(c, k, m, s)
    ensures Charged(c, k, m, e, HandleTextItem(c, s, e.choice, e.text))
  {
    var i := Lookup(s.table, TextItem(e.choice));
    if i.Some? {
      AppendTextShape(c, s, i.value, e.text);
    } else {
      assert |c.newId(MessageId, s.table.nextIndex)| <= EVENT_COST - STATE_OVERHEAD;
      NewTextItemShape(c, s, e.choice);
      var o := NewTextItem(c, s, e.choice);
      if o.err == NoError {
        AppendTextShape(c, o.st, |s.table.items|, e.text);
      }
    }
  }

  lemma ReasoningCharged(c: Config, m: Monitor, s: State, e: Event, maxArguments: int, k: Counted)
    requires TableOk(s.table) && Linked(m, s) && Roomy(c, m, e, maxArguments) && e.ReasoningDelta? && Counts(c, k, m, s)
    ensures Charged(c, k, m, e, HandleReasoning(c, s, e.choice, e.text))
  {
  }

  lemma StartedCharged(c: Config, m: Monitor, s: State, e: Event, maxArguments: int, k: Counted)
    requires TableOk(s.table) && Linked(m, s) && Roomy(c, m, e, maxArguments) && e.ToolCallStarted? && !BadId(c.utf8, e)
    requires Counts(c, k, m, s)
    ensures Charged(c, k, m, e, HandleToolStarted(c, s, e.key, e.kind, e.callId, e.name))
  {
    var id := c.newId(PrefixOf(e.kind), s.table.nextIndex);
    assert |id| <= EVENT_COST - STATE_OVERHEAD;
    OpenToolShape(c, s, e.key, e.kind, e.callId, e.name);
    assert HandleToolStarted(c, s, e.key, e.kind, e.callId, e.name) == OpenTool(c, s, e.key, e.kind, e.callId, e.name);
  }

  lemma ArgumentsCharged(c: Config, m: Monitor, s: State, e: Event, maxArguments: int, k: Counted)
    requires TableOk(s.table) && Linked(m, s) && Roomy(c, m, e, maxArguments) && e.ToolCallArguments?
    requires Counts(c, k, m, s)
    ensures Charged(c, k, m, e, HandleArguments(c, s, e.key, e.arguments))
  {
    var i, n := s.table.byKey[ToolItem(e.key)], |e.arguments|;
    assert ItemIs(s.table.items[i], m.tools[e.key]);
    assert |Track(m, e).tools[e.key].arguments| <= maxArguments;
    if e.arguments != "" && CanSpend(c, s, n) {
      AppendArgumentsShape(c, s, i, e.arguments);
    }
  }

  lemma CompletionCharged(c: Config, m: Monitor, s: State, e: Event, maxArguments: int, k: Counted)
    requires TableOk(s.table) && Linked(m, s) && Roomy(c, m, e, maxArguments) && e.ToolCallCompleted?
    requires IdsTaken(c.utf8, m.tools) && Counts(c, k, m, s)
    ensures Charged(c, k, m, e, Completion(c, s, e))
  {
    var i, bytes := s.table.byKey[ToolItem(e.key)], |e.callId| + |e.name| + |e.arguments|;
    assert ItemIs(s.table.items[i], m.tools[e.key]);
    assert |Track(m, e).tools[e.key].arguments| <= maxArguments;
    CompletionWellFormed(c, m, s, e, maxArguments, i);
    LargeByCost(c, m, s, e, maxArguments, i, bytes);
    if CanSpend(c, s, bytes) {
      CompletionShape(c, s, e, i);
      CompletionCounts(c, k, m, s, e, bytes, Completion(c, s, e));
    }
  }

  /** A completion that follows the stream is too large only for the aggregate. */
  lemma LargeByCost(c: Config, m: Monitor, s: State, e: Event, maxArguments: int, i: nat, bytes: nat)
    requires TableOk(s.table) && Linked(m, s) && Roomy(c, m, e, maxArguments) && e.ToolCallCompleted?
    requires i < |s.table.items| && ItemIs(s.table.items[i], m.tools[e.key])
    requires |Track(m, e).tools[e.key].arguments| <= maxArguments && bytes == |e.callId| + |e.name| + |e.arguments|
    ensures LargeCompletion(c, s, i, e.callId, e.name, e.arguments) <==> !CanSpend(c, s, bytes)
  {
  }

  lemma CompletionCounts(c: Config, k: Counted, m: Monitor, s: State, e: Event, bytes: nat, o: Out)
    requires e.ToolCallCompleted? && Counts(c, k, m, s) && CanSpend(c, s, bytes)
    requires bytes == |e.callId| + |e.name| + |e.arguments|
    requires o.err == NoError ==> o.st.table.nextIndex == s.table.nextIndex && o.st.ledger == Spend(s, bytes).ledger
    requires o.err != LimitError
    ensures Charged(c, k, m, e, o)
  {
  }

  lemma TerminalCharged(c: Config, m: Monitor, s: State, e: Event, k: Counted)
    requires TableOk(s.table) && Linked(m, s) && Legal(c.utf8, m, e) && IsTerminal(e)
    ensures Charged(c, k, m, e, Handle(c, s, e))
  {
    if e.Completed? {
      AllDoneIdentity(m, s);
      FinishItemsFlags(c, s, StatusCompleted, true, 0);
    } else {
      FinishItemsFlags(c, s, StatusIncomplete, false, 0);
    }
  }

  lemma EventCharged(c: Config, m: Monitor, s: State, e: Event, maxArguments: int, k: Counted)
    requires TableOk(s.table) && Linked(m, s) && Roomy(c, m, e, maxArguments)
    requires IdsTaken(c.utf8, m.tools) && !BadId(c.utf8, e) && Counts(c, k, m, s)
    ensures Charged(c, k, m, e, Handle(c, s, e))
  {
    match e
    case ResponseStarted(_, _) =>
    case TextDelta(_, _) => TextCharged(c, m, s, e, maxArguments, k);
    case ReasoningDelta(_, _) => ReasoningCharged(c, m, s, e, maxArguments, k);
    case UsageUpdated(_) =>
    case ToolCallStarted(_, _, _, _) => StartedCharged(c, m, s, e, maxArguments, k);
    case ToolCallArguments(_, _) => ArgumentsCharged(c, m, s, e, maxArguments, k);
    case ToolCallCompleted(_, _, _, _, _) => CompletionCharged(c, m, s, e, maxArguments, k);
    case _ => TerminalCharged(c, m, s, e, k);
  }

  // ----- the whole stream -----

  /** How a feed has ended, compared with the whole charge. */
  predicate EndsByCost(c: Config, events: seq<Event>, r: Fed) {
    && (r.err == NoError ==> SessionCost(c, events) <= c.maxAggregate)
    && (r.err == LimitError ==> SessionCost(c, events) > c.maxAggregate)
  }

  /** What FeedFollows asks for, and the charge so far. */
  ghost predicate InStep(c: Config, events: seq<Event>, n: nat, s: State)
    requires n <= |events|
  {
    && Good(true, s) && Watch(c.utf8, events[..n]).Some? && NoBadId(c.utf8, events[..n])
    && Linked(Watch(c.utf8, events[..n]).value, s)
    && Counts(c, Counting(c, events[..n]), Watch(c.utf8, events[..n]).value, s)
  }

  ghost predicate FitStream(c: Config, events: seq<Event>, maxArguments: int) {
    && Watch(c.utf8, events).Some? && Watch(c.utf8, events).value.ended
    && SessionFits(c, Watch(c.utf8, events).value.totals, maxArguments)
    && ToolsWithin(Watch(c.utf8, events).value.tools, maxArguments)
  }

  lemma OneMoreCharged(c: Config, events: seq<Event>, n: nat, s: State, maxArguments: int, o: Out)
    requires FitStream(c, events, maxArguments) && n < |events| && InStep(c, events, n, s)
    requires !BadId(c.utf8, events[n]) && o == Handle(c, s, events[n])
    ensures o.err == NoError && !IsTerminal(events[n]) ==> n + 1 < |events| && InStep(c, events, n + 1, o.st)
    ensures o.err == LimitError ==> SessionCost(c, events) > c.maxAggregate
  {
    var m, k := Watch(c.utf8, events[..n]).value, Counting(c, events[..n]);
    OneMoreGoodId(c.utf8, events, n);
    IdsBefore(c.utf8, events, n);
    RoomFor(c, events, n, maxArguments);
    OneEventAt(c, events, n, s, maxArguments, o);
    EventCharged(c, m, s, events[n], maxArguments, k);
    CountNext(c, events, n);
    NextMonitor(c.utf8, events, n);
    CostGrows(c, events, n + 1);
    if !IsTerminal(events[n]) {
      NotLast(c, events, n);
    }
  }

  lemma TerminalFree(c: Config, events: seq<Event>, n: nat, s: State, maxArguments: int)
    requires FitStream(c, events, maxArguments) && n < |events| && InStep(c, events, n, s) && IsTerminal(events[n])
    ensures events[n + 1..] == [] && SessionCost(c, events) <= c.maxAggregate
  {
    LastIsTerminal(c, events, n);
    TerminalCost(c, events, n);
  }

  lemma TerminalCost(c: Config, events: seq<Event>, n: nat)
    requires n + 1 == |events| && IsTerminal(events[n])
    ensures Counting(c, events) == Counting(c, events[..n])
  {
    CountNext(c, events, n);
    assert events[..n + 1] == events;
  }

  lemma {:induction false} FeedCosts(c: Config, events: seq<Event>, n: nat, s: State, maxArguments: int)
    requires FitStream(c, events, maxArguments) && n < |events| && InStep(c, events, n, s)
    ensures EndsByCost(c, events, Feed(c, s, events[n..]))
    decreases |events| - n
  {
    var o := Handle(c, s, events[n]);
    FeedStep(c, s, events, n, o);
    if BadId(c.utf8, events[n]) {
      BadEventAt(c, events, n, s, maxArguments, o);
    } else {
      OneMoreCharged(c, events, n, s, maxArguments, o);
      if o.err == NoError {
        if IsTerminal(events[n]) {
          TerminalFree(c, events, n, s, maxArguments);
        } else {
          FeedCosts(c, events, n + 1, o.st, maxArguments);
        }
      }
    }
  }

  // ----- refused ids are always met -----

  /** What the session has accepted brought no refused id. */
  lemma {:induction false} ConsumedGood(c: Config, s: State, events: seq<Event>)
    requires !MeetsBadId(c, s, events)
    ensures Feed(c, s, events).used <= |events| && NoBadId(c.utf8, events[..Feed(c, s, events).used])
    ensures Feed(c, s, events).err == NoError ==> Feed(c, s, events).used == |events|
    decreases |events|
  {
    if events != [] {
      var o, rest := Handle(c, s, events[0]), events[1..];
      if o.err == NoError {
        ConsumedGood(c, o.st, rest);
        GoodFront(c.utf8, events, Feed(c, o.st, rest).used);
      }
    }
  }

  lemma GoodFront(utf8: Utf8Test, events: seq<Event>, n: nat)
    requires n < |events| && !BadId(utf8, events[0]) && NoBadId(utf8, events[1..][..n])
    ensures NoBadId(utf8, events[..n + 1])
  {
    assert events[..n + 1] == [events[0]] + events[1..][..n];
  }

  lemma {:induction false} DoneStays(utf8: Utf8Test, events: seq<Event>, i: nat)
    requires Watch(utf8, events).Some? && i < |events| && events[i].ToolCallCompleted?
    ensures var tools := Watch(utf8, events).value.tools; events[i].key in tools && tools[events[i].key].done
    decreases |events|
  {
    var n := |events| - 1;
    if i < n {
      DoneStays(utf8, events[..n], i);
    }
  }

  /** All calls are announced before any is completed. */
  lemma StartsFirst(utf8: Utf8Test, events: seq<Event>, i: nat, j: nat)
    requires Watch(utf8, events).Some? && i < j < |events| && events[i].ToolCallCompleted?
    ensures !events[j].ToolCallStarted?
  {
    NextMonitor(utf8, events, j);
    assert events[..j][i] == events[i];
    DoneStays(utf8, events[..j], i);
  }

  lemma NoneAfterStop(c: Config, events: seq<Event>, n: nat, j: nat)
    requires Watch(c.utf8, events).Some? && n <= j < |events| && StopsAtTool(c, events, n)
    ensures !BadId(c.utf8, events[j])
  {
    if events[n].ToolCallCompleted? {
      if j > n {
        StartsFirst(c.utf8, events, n, j);
      }
    } else {
      var i :| 0 <= i < n && events[i].ToolCallCompleted?;
      StartsFirst(c.utf8, events, i, j);
    }
  }

  /** A feed that ends without meeting a refused id, and without a failed write, has
      no refused id before it. */
  lemma UnmetMeansNone(c: Config, s: State, events: seq<Event>)
    requires Watch(c.utf8, events).Some? && !MeetsBadId(c, s, events)
    requires FedWell(c, events, 0, Feed(c, s, events)) && Feed(c, s, events).err != WriteError
    ensures NoBadId(c.utf8, events)
  {
    var n := Feed(c, s, events).used;
    ConsumedGood(c, s, events);
    forall j | 0 <= j < |events|
      ensures !BadId(c.utf8, events[j])
    {
      if j < n {
        assert events[..n][j] == events[j];
      } else {
        NoneAfterStop(c, events, n, j);
      }
    }
  }

  // ----- with reliable writes nothing else can go wrong -----

  lemma {:induction false} FeedReliable(c: Config, s: State, events: seq<Event>)
    requires Reliable(c) && !s.flags.failed
    ensures !Feed(c, s, events).st.flags.failed
    decreases |events|
  {
    if events != [] {
      SteadyHandle(c, s, events[0]);
      var o := Handle(c, s, events[0]);
      if o.err == NoError {
        FeedReliable(c, o.st, events[1..]);
      }
    }
  }

  // ----- the main theorem -----

  /** How the stream ends when no write fails, from the events alone. */
  ghost function Outcome(c: Config, events: seq<Event>): Error {
    if !NoBadId(c.utf8, events) then TransitionError
    else if SessionCost(c, events) > c.maxAggregate then LimitError
    else NoError
  }

  /** For every upstream response, what the decoder releases decides how the session
      ends: in an invalid transition exactly if some call is announced under an id
      that is no valid stream value; else at the session's limit exactly if the
      charges of the events exceed the aggregate limit; else with the decoder's own
      terminal event. Only a failing write can change that. */
  lemma StreamOutcome(cfg: D.Config, c: Config, model: string, input: seq<D.ProviderEvent>)
    requires DecoderSafety.ConfigOk(cfg) && DecoderSafety.InputOk(cfg, input) && SessionMatches(c, cfg)
    requires Start(c, Initial(model)).err == NoError
    ensures var events, s := DecoderRun.Output(cfg, input), Start(c, Initial(model)).st;
      var r := Feed(c, s, events);
      && (r.err == Outcome(c, events) || (r.err == WriteError && r.st.flags.failed))
      && (Reliable(c) ==> r.err == Outcome(c, events) && !r.st.flags.failed)
      && (r.err != WriteError ==> (MeetsBadId(c, s, events) <==> !NoBadId(c.utf8, events)))
  {
    var events, s := DecoderRun.Output(cfg, input), Start(c, Initial(model)).st;
    var r := Feed(c, s, events);
    PipelineExactly(cfg, c, model, input);
    OutputCosts(cfg, c, model, input);
    if NoBadId(c.utf8, events) {
      GoodIdsMeetNone(c, s, events);
    }
    if !MeetsBadId(c, s, events) && r.err != WriteError {
      UnmetMeansNone(c, s, events);
    }
    if Reliable(c) {
      StartReliable(c, model);
      FeedReliable(c, s, events);
    }
  }

  lemma StartReliable(c: Config, model: string)
    requires Reliable(c)
    ensures !Start(c, Initial(model)).st.flags.failed
  {
    SteadyApply(c, Initial(model), CallStart);
  }

  lemma OutputCosts(cfg: D.Config, c: Config, model: string, input: seq<D.ProviderEvent>)
    requires DecoderSafety.ConfigOk(cfg) && DecoderSafety.InputOk(cfg, input) && SessionMatches(c, cfg)
    requires Start(c, Initial(model)).err == NoError
    ensures var events := DecoderRun.Output(cfg, input);
      EndsByCost(c, events, Feed(c, Start(c, Initial(model)).st, events))
  {
    var events := DecoderRun.Output(cfg, input);
    DecoderTheorems.OutputLegal(cfg, input);
    DecoderTheorems.OneTerminal(cfg.utf8, events);
    StartLinked(c, model);
    StartCounts(c, model);
    assert events[..0] == [] && events[0..] == events;
    FeedCosts(c, events, 0, Start(c, Initial(model)).st, cfg.maxToolArguments);
  }

  lemma StartCounts(c: Config, model: string)
    requires Start(c, Initial(model)).err == NoError && c.maxAggregate >= 0
    ensures Counts(c, NOTHING, FRESH, Start(c, Initial(model)).st)
  {
  }
}
