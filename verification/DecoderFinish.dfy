/** The terminal boundary of the decoder: all tool calls are announced, then all
    are completed, and the stream stays legal; otherwise nothing is released. */
module DecoderFinish {
  import opened Bridge
  import opened DecoderSpec
  import opened DecoderSafety
  import opened Protocol

  /** Argument bytes retained but not yet released as events. */
  function HeldBytes(call: Call): nat {
    if !call.stage.started || (call.stage.kind == KindCustom && !call.stage.completed) then |call.arguments| else 0
  }

  /** The argument text released for a started call so far. */
  function ReleasedArguments(cfg: Config, call: Call): string {
    if call.stage.kind != KindCustom then call.arguments
    else if !call.stage.completed then ""
    else match cfg.unwrap(call.arguments) case Input(text) => text case _ => ""
  }

  function ToolOf(cfg: Config, call: Call): Tool {
    Tool(call.stage.kind, call.callId, PublicName(cfg, call.name), ReleasedArguments(cfg, call), call.stage.completed)
  }

  predicate StageOk(cfg: Config, call: Call) {
    && call.name in cfg.allowed
    && call.stage.kind == PublicKind(cfg, call.name)
    && (call.stage.kind == KindCustom ==> call.stage.registration == CustomRegistration(cfg, call.name))
  }

  /** A call and what the monitor has seen of it. */
  predicate Tracked(cfg: Config, key: ToolKey, call: Call, tools: map<ToolKey, Tool>) {
    if !call.stage.started then call.stage == UNKNOWN && key !in tools
    else StageOk(cfg, call) && key in tools && tools[key] == ToolOf(cfg, call)
  }

  predicate Retained(cfg: Config, key: ToolKey, call: Call) {
    && key.choice >= 0 && key.tool >= 0
    && Sized(call.callId)
    && cfg.utf8(call.arguments) && |call.arguments| <= cfg.maxToolArguments
  }

  predicate AllTracked(cfg: Config, calls: map<ToolKey, Call>, tools: map<ToolKey, Tool>) {
    && (forall k :: k in calls ==> Retained(cfg, k, calls[k]) && Tracked(cfg, k, calls[k], tools))
    && tools.Keys <= calls.Keys
  }

  ghost predicate TotalsOk(cfg: Config, calls: map<ToolKey, Call>, b: Budget, t: Totals) {
    && t.text == b.text <= cfg.maxText
    && t.reasoning == b.reasoning <= cfg.maxReasoning
    && t.output + Weigh(calls, HeldBytes) <= b.output <= cfg.maxOutput
    && t.cost + Weigh(calls, HeldBytes) <= b.aggregate <= cfg.maxAggregate
  }

  ghost predicate Finishing(cfg: Config, log: seq<Event>, st: State) {
    && Watch(cfg.utf8, log).Some?
    && var m := Watch(cfg.utf8, log).value;
       && m.open && !m.ended
       && AllTracked(cfg, st.calls, m.tools)
       && TotalsOk(cfg, st.calls, st.budget, m.totals)
  }

  predicate NoneDone(calls: map<ToolKey, Call>) {
    forall k :: k in calls ==> !calls[k].stage.completed
  }

  lemma {:induction false} WeightsAgree(calls: map<ToolKey, Call>)
    requires forall k :: k in calls ==> calls[k].stage == UNKNOWN
    ensures Weigh(calls, HeldBytes) == Weigh(calls, ArgumentBytes)
  {
    assert Weights(calls, HeldBytes) == Weights(calls, ArgumentBytes);
  }

  lemma StreamingIsFinishing(cfg: Config, log: seq<Event>, st: State)
    requires Streaming(cfg, log, st) && st.phase.started
    ensures Finishing(cfg, log, st) && NoneDone(st.calls)
  {
    assert forall k :: k in st.calls ==> CallOk(cfg, k, st.calls[k]);
    WeightsAgree(st.calls);
  }

  lemma ApplyPatchValid(cfg: Config)
    requires Utf8Facts(cfg.utf8)
    ensures ValidStreamValue(cfg.utf8, APPLY_PATCH, MAX_ID)
  {
    var s := APPLY_PATCH;
    assert forall i :: 0 <= i < |s| ==> Between(s[i], 0x20, 0x7F);
    assert Ascii(s);
  }

  lemma PublicNameValid(cfg: Config, name: string)
    requires ConfigOk(cfg) && name in cfg.allowed
    ensures ValidStreamValue(cfg.utf8, PublicName(cfg, name), MAX_ID)
    ensures PublicKind(cfg, name) in {KindFunction, KindCustom}
  {
    ApplyPatchValid(cfg);
  }

  /** Replacing one call keeps every other call tracked when the monitor moved
      only that call's tool. */
  lemma TrackOne(cfg: Config, calls: map<ToolKey, Call>, tools: map<ToolKey, Tool>, key: ToolKey, call: Call,
                 tool: Tool)
    requires AllTracked(cfg, calls, tools)
    requires key in calls && call.callId == calls[key].callId && call.arguments == calls[key].arguments
    requires StageOk(cfg, call) && call.stage.started && tool == ToolOf(cfg, call)
    ensures AllTracked(cfg, calls[key := call], tools[key := tool])
  {
    var updated := calls[key := call];
    forall k | k in updated
      ensures Retained(cfg, k, updated[k]) && Tracked(cfg, k, updated[k], tools[key := tool])
    {
      assert Retained(cfg, k, calls[k]) && Tracked(cfg, k, calls[k], tools);
    }
  }

  // ----- announcing the calls -----

  function Announced(cfg: Config, call: Call): Call {
    var r := CustomRegistration(cfg, call.name);
    call.(stage := Stage(PublicKind(cfg, call.name), if r.Some? then r else call.stage.registration, true,
      call.stage.completed))
  }

  function StartedEvent(cfg: Config, key: ToolKey, call: Call): Event {
    ToolCallStarted(key, PublicKind(cfg, call.name), call.callId, PublicName(cfg, call.name))
  }

  /** EnsureStarted, read off: one or two events and one updated call. */
  lemma EnsureStartedShape(cfg: Config, st: State, key: ToolKey)
    requires key in st.calls && !st.calls[key].stage.started && st.calls[key].name != "" &&
      st.calls[key].name in cfg.allowed
    requires EnsureStarted(cfg, st, key).err == NoError
    ensures var call, o := st.calls[key], EnsureStarted(cfg, st, key);
      && o.st.calls == st.calls[key := Announced(cfg, call)]
      && o.st.phase == st.phase
      && o.st.pending == st.pending + [StartedEvent(cfg, key, call)] +
           (if PublicKind(cfg, call.name) != KindCustom && call.arguments != ""
             then [ToolCallArguments(key, call.arguments)] else [])
  {
  }

  lemma EnsureStartedBudget(cfg: Config, st: State, key: ToolKey)
    requires key in st.calls && !st.calls[key].stage.started && st.calls[key].name != "" &&
      st.calls[key].name in cfg.allowed
    requires EnsureStarted(cfg, st, key).err == NoError
    ensures var call, o := st.calls[key], EnsureStarted(cfg, st, key);
      && o.st.budget.output == st.budget.output && o.st.budget.text == st.budget.text
      && o.st.budget.reasoning == st.budget.reasoning
      && st.budget.aggregate + OVERHEAD + |call.callId| +
        |PublicName(cfg, call.name)| <= o.st.budget.aggregate <= cfg.maxAggregate
  {
  }

  lemma WatchStarted(cfg: Config, log: seq<Event>, key: ToolKey, call: Call)
    requires ConfigOk(cfg) && Retained(cfg, key, call) && call.name in cfg.allowed
    requires Watch(cfg.utf8, log).Some? && Watch(cfg.utf8, log).value.open && !Watch(cfg.utf8, log).value.ended
    requires var m := Watch(cfg.utf8, log).value; key !in m.tools && forall k :: k in m.tools ==> !m.tools[k].done
    ensures var m, kind, name := Watch(cfg.utf8, log).value, PublicKind(cfg, call.name), PublicName(cfg, call.name);
      Watch(cfg.utf8, log + [StartedEvent(cfg, key, call)])
        == Some(m.(tools := m.tools[key := Tool(kind, call.callId, name, "", false)],
                   totals := m.totals.(cost := m.totals.cost + EVENT_COST + |call.callId| + |name|)))
  {
    PublicNameValid(cfg, call.name);
    WatchAppend(cfg.utf8, log, StartedEvent(cfg, key, call));
  }

  lemma WatchArguments(cfg: Config, log: seq<Event>, key: ToolKey, arguments: string)
    requires Watch(cfg.utf8, log).Some? && !Watch(cfg.utf8, log).value.ended && Watch(cfg.utf8, log).value.open
    requires var m := Watch(cfg.utf8, log).value; key in m.tools && !m.tools[key].done && cfg.utf8(arguments)
    ensures var m := Watch(cfg.utf8, log).value; var tool := m.tools[key];
      Watch(cfg.utf8, log + [ToolCallArguments(key, arguments)])
        == Some(m.(tools := m.tools[key := tool.(arguments := tool.arguments + arguments)],
                   totals := m.totals.(output := m.totals.output + |arguments|, cost := m.totals.cost + |arguments|)))
  {
    WatchAppend(cfg.utf8, log, ToolCallArguments(key, arguments));
  }

  /** What the monitor knows once a call has been announced. */
  lemma WatchAnnounced(cfg: Config, log: seq<Event>, key: ToolKey, call: Call, tail: seq<Event>)
    requires ConfigOk(cfg) && Retained(cfg, key, call) && call.name in cfg.allowed && call.stage == UNKNOWN
    requires Watch(cfg.utf8, log).Some? && Watch(cfg.utf8, log).value.open && !Watch(cfg.utf8, log).value.ended
    requires var m := Watch(cfg.utf8, log).value; key !in m.tools && forall k :: k in m.tools ==> !m.tools[k].done
    requires tail == ArgumentsTail(cfg, key, call)
    ensures var held := if PublicKind(cfg, call.name) == KindCustom then 0 else |call.arguments|;
      Watch(cfg.utf8, log + [StartedEvent(cfg, key, call)] + tail)
        == Some(AnnouncedMonitor(cfg, Watch(cfg.utf8, log).value, key, call, held))
  {
    var log1 := log + [StartedEvent(cfg, key, call)];
    WatchStarted(cfg, log, key, call);
    if tail == [] {
      assert log1 + tail == log1;
    } else {
      WatchArguments(cfg, log1, key, call.arguments);
      ToolReplacedTwice(Watch(cfg.utf8, log).value.tools, key, Watch(cfg.utf8, log1).value.tools[key],
        ToolOf(cfg, Announced(cfg, call)));
      assert "" + call.arguments == call.arguments;
    }
  }

  lemma ToolReplacedTwice(tools: map<ToolKey, Tool>, key: ToolKey, first: Tool, second: Tool)
    ensures tools[key := first][key := second] == tools[key := second]
  {
  }

  /** The totals after a call has been announced. */
  lemma AnnouncedTotals(cfg: Config, calls: map<ToolKey, Call>, key: ToolKey, before: Budget, after: Budget, t: Totals,
                        held: nat, charge: nat)
    requires TotalsOk(cfg, calls, before, t) && key in calls && calls[key].stage == UNKNOWN
    requires after.output == before.output && after.text == before.text && after.reasoning == before.reasoning
    requires before.aggregate + charge <= after.aggregate <= cfg.maxAggregate
    requires held == if PublicKind(cfg, calls[key].name) == KindCustom then 0 else |calls[key].arguments|
    ensures TotalsOk(cfg, calls[key := Announced(cfg, calls[key])], after,
      t.(output := t.output + held, cost := t.cost + charge + held))
  {
    WeighUpdate(calls, key, Announced(cfg, calls[key]), HeldBytes);
  }

  lemma FinishingAs(cfg: Config, log: seq<Event>, st: State, m: Monitor)
    requires Watch(cfg.utf8, log) == Some(m) && m.open && !m.ended
    requires AllTracked(cfg, st.calls, m.tools) && TotalsOk(cfg, st.calls, st.budget, m.totals)
    ensures Finishing(cfg, log, st)
  {
  }

  lemma EnsureStartedFinishing(cfg: Config, released: seq<Event>, st: State, key: ToolKey)
    requires ConfigOk(cfg) && Finishing(cfg, released + st.pending, st) && NoneDone(st.calls)
    requires key in st.calls && !st.calls[key].stage.started && st.calls[key].name != "" &&
      st.calls[key].name in cfg.allowed
    requires EnsureStarted(cfg, st, key).err == NoError
    ensures var o := EnsureStarted(cfg, st, key); Finishing(cfg, released + o.st.pending, o.st)
  {
    EnsureStartedShape(cfg, st, key);
    EnsureStartedBudget(cfg, st, key);
    AnnouncedFinishing(cfg, released, st, key, EnsureStarted(cfg, st, key).st);
  }

  lemma AnnouncedFinishing(cfg: Config, released: seq<Event>, st: State, key: ToolKey, after: State)
    requires ConfigOk(cfg) && Finishing(cfg, released + st.pending, st) && NoneDone(st.calls)
    requires key in st.calls && !st.calls[key].stage.started && st.calls[key].name in cfg.allowed
    requires after.calls == st.calls[key := Announced(cfg, st.calls[key])]
    requires after.pending == st.pending + [StartedEvent(cfg, key, st.calls[key])] +
      ArgumentsTail(cfg, key, st.calls[key])
    requires after.budget.output == st.budget.output && after.budget.text == st.budget.text
    requires after.budget.reasoning == st.budget.reasoning
    requires st.budget.aggregate + AnnounceCharge(cfg, st.calls[key]) <= after.budget.aggregate <= cfg.maxAggregate
    ensures Finishing(cfg, released + after.pending, after)
  {
    var call, log := st.calls[key], released + st.pending;
    var m, tail := Watch(cfg.utf8, log).value, ArgumentsTail(cfg, key, call);
    var held := if PublicKind(cfg, call.name) == KindCustom then 0 else |call.arguments|;
    assert Retained(cfg, key, call) && Tracked(cfg, key, call, m.tools);
    NoToolDone(cfg, st.calls, m.tools);
    WatchAnnounced(cfg, log, key, call, tail);
    TrackOne(cfg, st.calls, m.tools, key, Announced(cfg, call), ToolOf(cfg, Announced(cfg, call)));
    AnnouncedTotals(cfg, st.calls, key, st.budget, after.budget, m.totals, held, AnnounceCharge(cfg, call));
    assert released + after.pending == log + [StartedEvent(cfg, key, call)] + tail;
    FinishingAs(cfg, released + after.pending, after, AnnouncedMonitor(cfg, m, key, call, held));
  }

  function AnnounceCharge(cfg: Config, call: Call): nat {
    EVENT_COST + |call.callId| + |PublicName(cfg, call.name)|
  }

  function ArgumentsTail(cfg: Config, key: ToolKey, call: Call): seq<Event> {
    if PublicKind(cfg, call.name) != KindCustom && call.arguments != ""
    then [ToolCallArguments(key, call.arguments)] else []
  }

  function AnnouncedMonitor(cfg: Config, m: Monitor, key: ToolKey, call: Call, held: nat): Monitor {
    m.(tools := m.tools[key := ToolOf(cfg, Announced(cfg, call))],
       totals := m.totals.(output := m.totals.output + held, cost := m.totals.cost + AnnounceCharge(cfg, call) + held))
  }

  lemma NoToolDone(cfg: Config, calls: map<ToolKey, Call>, tools: map<ToolKey, Tool>)
    requires AllTracked(cfg, calls, tools) && NoneDone(calls)
    ensures forall k :: k in tools ==> !tools[k].done
  {
    forall k | k in tools
      ensures !tools[k].done
    {
      assert Tracked(cfg, k, calls[k], tools);
    }
  }

  predicate AllStarted(calls: map<ToolKey, Call>, keys: seq<ToolKey>) {
    forall k :: k in keys ==> k in calls && calls[k].stage.started
  }

  predicate StartedStay(a: map<ToolKey, Call>, b: map<ToolKey, Call>) {
    a.Keys == b.Keys && forall k :: k in a && a[k].stage.started ==> b[k].stage.started
  }

  lemma EnsureStartedStays(cfg: Config, st: State, key: ToolKey)
    requires key in st.calls && EnsureStarted(cfg, st, key).err == NoError && NoneDone(st.calls)
    ensures var o := EnsureStarted(cfg, st, key);
      && NoneDone(o.st.calls) && StartedStay(st.calls, o.st.calls) && o.st.phase == st.phase
      && (st.calls[key].name != "" && st.calls[key].name in cfg.allowed ==> o.st.calls[key].stage.started)
      && o.st.calls[key].name == st.calls[key].name
  {
    if !st.calls[key].stage.started && st.calls[key].name != "" && st.calls[key].name in cfg.allowed {
      EnsureStartedShape(cfg, st, key);
    }
  }

  lemma {:induction false} StartAllFinishing(cfg: Config, released: seq<Event>, st: State, keys: seq<ToolKey>)
    requires ConfigOk(cfg) && Finishing(cfg, released + st.pending, st) && NoneDone(st.calls)
    requires forall k :: k in keys ==> k in st.calls
    requires StartAll(cfg, st, keys).err == NoError
    ensures var o := StartAll(cfg, st, keys);
      && Finishing(cfg, released + o.st.pending, o.st) && NoneDone(o.st.calls)
      && StartedStay(st.calls, o.st.calls) && AllStarted(o.st.calls, keys) && o.st.phase == st.phase
    decreases |keys|
  {
    if keys != [] {
      var o := EnsureStarted(cfg, st, keys[0]);
      EnsureStartedStays(cfg, st, keys[0]);
      if !st.calls[keys[0]].stage.started {
        EnsureStartedFinishing(cfg, released, st, keys[0]);
      }
      StartAllFinishing(cfg, released, o.st, keys[1..]);
      assert forall k :: k in keys ==> k == keys[0] || k in keys[1..];
    }
  }

  // ----- completing the calls -----

  function CompletedCall(call: Call): Call {
    call.(stage := call.stage.(completed := true))
  }

  lemma CompleteOneShape(cfg: Config, st: State, key: ToolKey)
    requires key in st.calls && CompleteOne(cfg, st, key).err == NoError
    requires st.calls[key].stage.started && StageOk(cfg, st.calls[key]) && !st.calls[key].stage.completed
    ensures var call, o := st.calls[key], CompleteOne(cfg, st, key);
      var done := ToolOf(cfg, CompletedCall(call));
      && o.st.calls == st.calls[key := CompletedCall(call)]
      && o.st.phase == st.phase
      && (call.stage.kind == KindCustom ==> cfg.unwrap(call.arguments).Input?)
      && o.st.pending == st.pending +
           (if call.stage.kind == KindCustom then [ToolCallArguments(key, done.arguments)] else []) +
           [ToolCallCompleted(key, done.kind, done.callId, done.name, done.arguments)]
  {
    assert st.calls[key].stage.kind == PublicKind(cfg, st.calls[key].name);
  }

  lemma CompleteOneBudget(cfg: Config, st: State, key: ToolKey)
    requires key in st.calls && CompleteOne(cfg, st, key).err == NoError
    ensures var o := CompleteOne(cfg, st, key);
      && o.st.budget.output == st.budget.output && o.st.budget.text == st.budget.text
      && o.st.budget.reasoning == st.budget.reasoning
      && st.budget.aggregate <= o.st.budget.aggregate <= cfg.maxAggregate
  {
  }

  /** The arguments that a custom tool still owes when it is completed. */
  lemma WatchOwed(cfg: Config, log: seq<Event>, key: ToolKey, call: Call, tail: seq<Event>, done: Tool)
    requires ConfigOk(cfg) && Retained(cfg, key, call) && done == ToolOf(cfg, CompletedCall(call))
    requires Watch(cfg.utf8, log).Some? && Watch(cfg.utf8, log).value.open && !Watch(cfg.utf8, log).value.ended
    requires var m := Watch(cfg.utf8, log).value; key in m.tools && m.tools[key] == ToolOf(cfg, call)
    requires !call.stage.completed && (call.stage.kind == KindCustom ==> cfg.unwrap(call.arguments).Input?)
    requires tail == if call.stage.kind == KindCustom then [ToolCallArguments(key, done.arguments)] else []
    ensures var m, held := Watch(cfg.utf8, log).value, if call.stage.kind == KindCustom then |done.arguments| else 0;
      Watch(cfg.utf8, log + tail)
        == Some(m.(tools := m.tools[key := done.(done := false)],
                   totals := m.totals.(output := m.totals.output + held, cost := m.totals.cost + held)))
  {
    var m := Watch(cfg.utf8, log).value;
    if tail == [] {
      assert log + tail == log && m.tools[key := m.tools[key]] == m.tools;
    } else {
      WatchArguments(cfg, log, key, done.arguments);
      assert "" + done.arguments == done.arguments;
    }
  }

  lemma WatchClosed(cfg: Config, log: seq<Event>, key: ToolKey, done: Tool)
    requires Watch(cfg.utf8, log).Some? && Watch(cfg.utf8, log).value.open && !Watch(cfg.utf8, log).value.ended
    requires var m := Watch(cfg.utf8, log).value; key in m.tools && m.tools[key] == done.(done := false) && done.done
    requires Sized(done.callId) && ValidStreamValue(cfg.utf8, done.name, MAX_ID) && cfg.utf8(done.arguments)
    ensures var m := Watch(cfg.utf8, log).value;
      Watch(cfg.utf8, log + [ToolCallCompleted(key, done.kind, done.callId, done.name, done.arguments)])
        == Some(m.(tools := m.tools[key := done]))
  {
    WatchAppend(cfg.utf8, log, ToolCallCompleted(key, done.kind, done.callId, done.name, done.arguments));
  }

  /** What the monitor knows once a call has been completed. */
  lemma WatchCompleted(cfg: Config, log: seq<Event>, key: ToolKey, call: Call, tail: seq<Event>, done: Tool)
    requires ConfigOk(cfg) && Retained(cfg, key, call) && StageOk(cfg, call)
    requires done == ToolOf(cfg, CompletedCall(call))
    requires Watch(cfg.utf8, log).Some? && Watch(cfg.utf8, log).value.open && !Watch(cfg.utf8, log).value.ended
    requires var m := Watch(cfg.utf8, log).value; key in m.tools && m.tools[key] == ToolOf(cfg, call)
    requires !call.stage.completed && (call.stage.kind == KindCustom ==> cfg.unwrap(call.arguments).Input?)
    requires tail == if call.stage.kind == KindCustom then [ToolCallArguments(key, done.arguments)] else []
    ensures var m, held := Watch(cfg.utf8, log).value, if call.stage.kind == KindCustom then |done.arguments| else 0;
      Watch(cfg.utf8, log + tail + [ToolCallCompleted(key, done.kind, done.callId, done.name, done.arguments)])
        == Some(m.(tools := m.tools[key := done],
                   totals := m.totals.(output := m.totals.output + held, cost := m.totals.cost + held)))
  {
    PublicNameValid(cfg, call.name);
    WatchOwed(cfg, log, key, call, tail, done);
    WatchClosed(cfg, log + tail, key, done);
    ToolReplacedTwice(Watch(cfg.utf8, log).value.tools, key, done.(done := false), done);
  }

  lemma CompleteOneFinishing(cfg: Config, released: seq<Event>, st: State, key: ToolKey)
    requires ConfigOk(cfg) && Finishing(cfg, released + st.pending, st)
    requires key in st.calls && st.calls[key].stage.started && !st.calls[key].stage.completed
    requires CompleteOne(cfg, st, key).err == NoError
    ensures var o := CompleteOne(cfg, st, key);
      && Finishing(cfg, released + o.st.pending, o.st)
      && o.st.calls == st.calls[key := CompletedCall(st.calls[key])] && o.st.phase == st.phase
  {
    var call, o := st.calls[key], CompleteOne(cfg, st, key);
    var log := released + st.pending;
    var m, done := Watch(cfg.utf8, log).value, ToolOf(cfg, CompletedCall(call));
    assert Retained(cfg, key, call) && Tracked(cfg, key, call, m.tools);
    CompleteOneShape(cfg, st, key);
    CompleteOneBudget(cfg, st, key);
    var tail := if call.stage.kind == KindCustom then [ToolCallArguments(key, done.arguments)] else [];
    WatchCompleted(cfg, log, key, call, tail, done);
    assert released + o.st.pending
        == log + tail + [ToolCallCompleted(key, done.kind, done.callId, done.name, done.arguments)];
    TrackOne(cfg, st.calls, m.tools, key, CompletedCall(call), done);
    WeighUpdate(st.calls, key, CompletedCall(call), HeldBytes);
  }

  predicate AllCompleted(calls: map<ToolKey, Call>, keys: seq<ToolKey>) {
    forall k :: k in keys ==> k in calls && calls[k].stage.completed
  }

  predicate CompletedStay(a: map<ToolKey, Call>, b: map<ToolKey, Call>) {
    a.Keys == b.Keys && forall k :: k in a && a[k].stage.completed ==> b[k].stage.completed
  }

  lemma CompleteOneStays(cfg: Config, st: State, key: ToolKey)
    requires key in st.calls
    ensures var o := CompleteOne(cfg, st, key);
      && o.st.calls == st.calls[key := CompletedCall(st.calls[key])]
      && o.st.phase == st.phase
  {
  }

  lemma {:induction false} CompleteAllCompletes(cfg: Config, st: State, keys: seq<ToolKey>, ids: set<string>)
    requires forall k :: k in keys ==> k in st.calls
    requires CompleteAll(cfg, st, keys, ids).err == NoError
    ensures var o := CompleteAll(cfg, st, keys, ids);
      && CompletedStay(st.calls, o.st.calls) && AllCompleted(o.st.calls, keys) && o.st.phase == st.phase
    decreases |keys|
  {
    if keys != [] {
      var call := st.calls[keys[0]];
      assert forall k :: k in keys ==> k == keys[0] || k in keys[1..];
      if call.stage.completed {
        CompleteAllCompletes(cfg, st, keys[1..], ids);
      } else {
        CompleteOneStays(cfg, st, keys[0]);
        CompleteAllCompletes(cfg, CompleteOne(cfg, st, keys[0]).st, keys[1..],
          if call.callId == "" then ids else ids + {call.callId});
      }
    }
  }

  lemma {:induction false} CompleteAllFinishing(cfg: Config, released: seq<Event>, st: State, keys: seq<ToolKey>,
                                                ids: set<string>)
    requires ConfigOk(cfg) && Finishing(cfg, released + st.pending, st) && AllStarted(st.calls, keys)
    requires CompleteAll(cfg, st, keys, ids).err == NoError
    ensures var o := CompleteAll(cfg, st, keys, ids); Finishing(cfg, released + o.st.pending, o.st)
    decreases |keys|
  {
    if keys != [] {
      var call := st.calls[keys[0]];
      if call.stage.completed {
        CompleteAllFinishing(cfg, released, st, keys[1..], ids);
      } else {
        var o := CompleteOne(cfg, st, keys[0]);
        CompleteOneFinishing(cfg, released, st, keys[0]);
        StillStarted(st.calls, o.st.calls, keys);
        CompleteAllFinishing(cfg, released, o.st, keys[1..], if call.callId == "" then ids else ids + {call.callId});
      }
    }
  }

  lemma StillStarted(a: map<ToolKey, Call>, b: map<ToolKey, Call>, keys: seq<ToolKey>)
    requires keys != [] && AllStarted(a, keys) && b == a[keys[0] := CompletedCall(a[keys[0]])]
    ensures AllStarted(b, keys[1..])
  {
  }

  // ----- the whole terminal boundary -----

  /** A finished tool turn: the queue holds the whole legal batch, ended by Completed. */
  lemma FinishToolCallsLegal(cfg: Config, released: seq<Event>, st: State, keys: seq<ToolKey>)
    requires ConfigOk(cfg) && Streaming(cfg, released + st.pending, st) && st.phase.started
    requires IsKeyOrder(keys, st.calls)
    requires FinishToolCalls(cfg, st, keys).err == NoError
    ensures var o := FinishToolCalls(cfg, st, keys); EndsLegally(cfg, released + o.st.pending, o.st)
  {
    StreamingIsFinishing(cfg, released + st.pending, st);
    var o := StartAll(cfg, st, keys);
    StartAllFinishing(cfg, released, st, keys);
    CompleteAllFinishing(cfg, released, o.st, keys, {});
    CompleteAllCompletes(cfg, o.st, keys, {});
    CompletedQueued(cfg, released, CompleteAll(cfg, o.st, keys, {}).st, FinishToolCalls(cfg, st, keys).st);
  }

  /** Completed, queued behind a batch in which every call has been completed. */
  lemma CompletedQueued(cfg: Config, released: seq<Event>, done: State, last: State)
    requires ConfigOk(cfg) && Finishing(cfg, released + done.pending, done)
    requires forall k :: k in done.calls ==> done.calls[k].stage.completed && done.calls[k].stage.started
    requires last.calls == done.calls && last.pending == done.pending + [Completed]
    ensures EndsLegally(cfg, released + last.pending, last)
  {
    var tools := Watch(cfg.utf8, released + done.pending).value.tools;
    AllToolsDone(cfg, done.calls, tools);
    TrackedToolsWithin(cfg, done.calls, tools);
    WatchQueued(cfg, released, done.pending, Completed);
  }

  lemma AllToolsDone(cfg: Config, calls: map<ToolKey, Call>, tools: map<ToolKey, Tool>)
    requires AllTracked(cfg, calls, tools)
    requires forall k :: k in calls ==> calls[k].stage.completed
    ensures forall k :: k in tools ==> tools[k].done
  {
    forall k | k in tools
      ensures tools[k].done
    {
      assert Tracked(cfg, k, calls[k], tools);
    }
  }

  /** A legal, ended stream whose released totals and arguments fit the decoder's limits. */
  ghost predicate EndsLegally(cfg: Config, log: seq<Event>, st: State) {
    && Watch(cfg.utf8, log).Some?
    && Watch(cfg.utf8, log).value.ended
    && TotalsFit(cfg, Watch(cfg.utf8, log).value.totals)
    && ToolsWithin(Watch(cfg.utf8, log).value.tools, cfg.maxToolArguments)
    && (Watch(cfg.utf8, log).value.tools != map[] ==> TurnTracked(cfg, st.calls, Watch(cfg.utf8, log).value.tools))
  }

  /** Every call of the decoder was released, completely. */
  predicate TurnTracked(cfg: Config, calls: map<ToolKey, Call>, tools: map<ToolKey, Tool>) {
    AllTracked(cfg, calls, tools) && forall k :: k in calls ==> calls[k].stage.completed && calls[k].stage.started
  }

  lemma TrackedToolsWithin(cfg: Config, calls: map<ToolKey, Call>, tools: map<ToolKey, Tool>)
    requires ConfigOk(cfg) && AllTracked(cfg, calls, tools)
    ensures ToolsWithin(tools, cfg.maxToolArguments)
  {
    forall k | k in tools
      ensures |tools[k].arguments| <= cfg.maxToolArguments
    {
      assert Retained(cfg, k, calls[k]) && Tracked(cfg, k, calls[k], tools);
    }
  }

  predicate TotalsFit(cfg: Config, t: Totals) {
    t.text <= cfg.maxText && t.reasoning <= cfg.maxReasoning && t.output <= cfg.maxOutput && t.cost <= cfg.maxAggregate
  }

  lemma FinishLegal(cfg: Config, released: seq<Event>, st: State, keys: seq<ToolKey>)
    requires ConfigOk(cfg) && Streaming(cfg, released + st.pending, st)
    requires IsKeyOrder(keys, st.calls)
    requires Finish(cfg, st, keys).err == NoError
    ensures var o := Finish(cfg, st, keys); EndsLegally(cfg, released + o.st.pending, o.st)
  {
    if st.phase.conflict || st.phase.finish == NoFinish {
      WatchQueued(cfg, released, st.pending, Failed(UpstreamTerminalError));
    } else {
      match st.phase.finish
      case ToolCalls => FinishToolCallsLegal(cfg, released, st, keys);
      case Stop => FinishPlain(cfg, released, st, if |st.calls| > 0 then Failed(UpstreamTerminalError) else Completed);
      case Length => FinishPlain(cfg, released, st, Incomplete(true));
      case ContentFilter => FinishPlain(cfg, released, st, Incomplete(false));
      case Refusal => FinishPlain(cfg, released, st, Incomplete(false));
      case OtherFinish(_) => FinishPlain(cfg, released, st, Failed(UpstreamTerminalError));
    }
  }

  lemma FinishPlain(cfg: Config, released: seq<Event>, st: State, e: Event)
    requires Streaming(cfg, released + st.pending, st) && IsTerminal(e)
    requires st.phase.started || e.Failed?
    ensures EndsLegally(cfg, released + (st.pending + [e]), st)
  {
    WatchQueued(cfg, released, st.pending, e);
  }
}
