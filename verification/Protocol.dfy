/** The event protocol between the decoder and the Responses session, stated as
    a monitor that knows neither of them. The monitor also keeps the totals the
    session will charge for an event stream. */
module Protocol {
  import opened Bridge

  datatype Tool = Tool(kind: ToolKind, callId: string, name: string, arguments: string, done: bool)

  /** text, output and reasoning count released bytes; cost bounds what the
      session charges before the first completed tool call. */
  datatype Totals = Totals(text: nat, output: nat, reasoning: nat, cost: nat)

  /** texts holds the text of every choice that has spoken. */
  datatype Monitor = Monitor(open: bool, ended: bool, tools: map<ToolKey, Tool>, texts: map<int, string>,
                             totals: Totals)

  const FRESH := Monitor(false, false, map[], map[], Totals(0, 0, 0, 0))

  const EVENT_COST := 64

  /** The longest identifier the session accepts for a call id or a tool name. */
  const MAX_ID := 256

  predicate Sized(callId: string) {
    callId != "" && |callId| <= MAX_ID
  }

  /** Call ids are only measured here: see BadId. */
  predicate Legal(utf8: Utf8Test, m: Monitor, e: Event) {
    && !m.ended
    && (m.open || e.ResponseStarted? || e.Failed?)
    && match e
       case ResponseStarted(_, _) => !m.open
       case TextDelta(choice, text) => choice >= 0 && text != "" && utf8(text) && m.tools == map[]
       case ReasoningDelta(choice, text) => choice >= 0 && text != "" && utf8(text) && m.tools == map[]
       case UsageUpdated(_) => true
       case ToolCallStarted(key, kind, callId, name) =>
         && key.choice >= 0 && key.tool >= 0 && key !in m.tools
         && kind in {KindFunction, KindCustom}
         && Sized(callId) && ValidStreamValue(utf8, name, MAX_ID)
         && (forall k :: k in m.tools ==> !m.tools[k].done)
       case ToolCallArguments(key, arguments) => key in m.tools && !m.tools[key].done && utf8(arguments)
       case ToolCallCompleted(key, kind, callId, name, arguments) =>
         && key in m.tools && m.tools[key] == Tool(kind, callId, name, arguments, false)
         && Sized(callId) && ValidStreamValue(utf8, name, MAX_ID) && utf8(arguments)
       case Completed => forall k :: k in m.tools ==> m.tools[k].done
       case Incomplete(_) => m.tools == map[]
       case Failed(_) => m.tools == map[]
       case ToolCallMetadata(_, _, _) => false
       case NilEvent => false
  }

  /** A call announced under an id that the session refuses: the decoder passes the
      provider's id on without looking into it. */
  predicate BadId(utf8: Utf8Test, e: Event) {
    e.ToolCallStarted? && !ValidStreamValue(utf8, e.callId, MAX_ID)
  }

  predicate NoBadId(utf8: Utf8Test, events: seq<Event>) {
    forall i :: 0 <= i < |events| ==> !BadId(utf8, events[i])
  }

  function Count(t: Totals, e: Event): Totals {
    match e
    case TextDelta(_, text) =>
      t.(text := t.text + |text|, output := t.output + |text|, cost := t.cost + EVENT_COST + |text|)
    case ReasoningDelta(_, text) => t.(reasoning := t.reasoning + |text|, cost := t.cost + EVENT_COST + |text|)
    case ToolCallStarted(_, _, callId, name) => t.(cost := t.cost + EVENT_COST + |callId| + |name|)
    case ToolCallArguments(_, arguments) => t.(output := t.output + |arguments|, cost := t.cost + |arguments|)
    case _ => t
  }

  function TextAt(texts: map<int, string>, choice: int): string {
    if choice in texts then texts[choice] else ""
  }

  function Track(m: Monitor, e: Event): Monitor {
    var t := Count(m.totals, e);
    match e
    case ResponseStarted(_, _) => m.(open := true, totals := t)
    case TextDelta(choice, text) => m.(texts := m.texts[choice := TextAt(m.texts, choice) + text], totals := t)
    case ToolCallStarted(key, kind, callId, name) =>
      m.(tools := m.tools[key := Tool(kind, callId, name, "", false)], totals := t)
    case ToolCallArguments(key, arguments) =>
      if key in m.tools
      then m.(tools := m.tools[key := m.tools[key].(arguments := m.tools[key].arguments + arguments)], totals := t)
      else m.(totals := t)
    case ToolCallCompleted(key, _, _, _, _) =>
      if key in m.tools then m.(tools := m.tools[key := m.tools[key].(done := true)], totals := t) else m.(totals := t)
    case _ => if IsTerminal(e) then m.(ended := true, totals := t) else m.(totals := t)
  }

  /** The monitor after a legal event sequence, None after an illegal one. */
  function Watch(utf8: Utf8Test, events: seq<Event>): Option<Monitor> {
    if events == [] then Some(FRESH)
    else
      var before := Watch(utf8, events[..|events| - 1]);
      var e := events[|events| - 1];
      if before.Some? && Legal(utf8, before.value, e) then Some(Track(before.value, e)) else None
  }

  lemma WatchAppend(utf8: Utf8Test, events: seq<Event>, e: Event)
    requires Watch(utf8, events).Some? && Legal(utf8, Watch(utf8, events).value, e)
    ensures Watch(utf8, events + [e]) == Some(Track(Watch(utf8, events).value, e))
  {
    assert (events + [e])[..|events|] == events;
  }

  // ----- totals and tools only grow -----

  predicate TotalsWithin(a: Totals, b: Totals) {
    a.text <= b.text && a.output <= b.output && a.reasoning <= b.reasoning && a.cost <= b.cost
  }

  predicate Grows(a: Monitor, b: Monitor) {
    && TotalsWithin(a.totals, b.totals)
    && forall k :: k in a.tools ==> k in b.tools && |a.tools[k].arguments| <= |b.tools[k].arguments|
  }

  lemma TrackGrows(utf8: Utf8Test, m: Monitor, e: Event)
    requires Legal(utf8, m, e)
    ensures Grows(m, Track(m, e))
  {
  }

  lemma {:induction false} WatchGrows(utf8: Utf8Test, events: seq<Event>, n: nat)
    requires n <= |events| && Watch(utf8, events).Some?
    ensures Watch(utf8, events[..n]).Some?
    ensures Grows(Watch(utf8, events[..n]).value, Watch(utf8, events).value)
    decreases |events|
  {
    if n < |events| {
      var front := events[..|events| - 1];
      WatchGrows(utf8, front, n);
      assert front[..n] == events[..n];
      TrackGrows(utf8, Watch(utf8, front).value, events[|events| - 1]);
    } else {
      assert events[..n] == events;
    }
  }

  predicate ToolsWithin(tools: map<ToolKey, Tool>, limit: int) {
    forall k :: k in tools ==> |tools[k].arguments| <= limit
  }
}
