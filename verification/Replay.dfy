/** Replaying a claimed tool turn to the provider: the client's items become chat
    messages, with the stored turn and its results inserted once, as one block,
    where the first tool item stood. */
module Replay {
  import opened Bridge
  import opened ContinuationSpec
  import opened ContinuationSafety
  import opened ContinuationTheorems
  import opened ToolResults

  datatype ChatCall = ChatCall(id: string, name: string, arguments: string)

  /** What an ordinary item says, and who says it. */
  datatype Ordinary = Ordinary(role: string, content: string)

  datatype ChatMessage =
    | Plain(said: Ordinary)
    | Assistant(content: string, reasoning: string, calls: seq<ChatCall>)
    | Tool(callId: string, content: string)

  /** mapMessage maps an ordinary item, wrap and unwrap convert the arguments of the
      custom tool; each may fail. */
  datatype Codec = Codec(mapMessage: string -> Option<Ordinary>, wrap: string -> Option<string>,
                         unwrap: string -> Option<string>)

  // ----- what has to hold -----

  function CallNamed(calls: seq<UpstreamCall>, id: string): (i: Option<nat>)
    ensures i.Some? ==> i.value < |calls| && calls[i.value].callId == id
    ensures i.None? <==> forall j :: 0 <= j < |calls| ==> calls[j].callId != id
  {
    if calls == [] then None
    else if calls[|calls| - 1].callId == id then Some(|calls| - 1)
    else CallNamed(calls[..|calls| - 1], id)
  }

  function PublicName(call: UpstreamCall): string {
    if call.kind == KindCustom then APPLY_PATCH else call.name
  }

  /** The repeated call is the stored one. */
  predicate SameAsStored(codec: Codec, calls: seq<UpstreamCall>, c: CallItem) {
    var i := CallNamed(calls, c.callId);
    && i.Some? && calls[i.value].kind == c.kind && PublicName(calls[i.value]) == c.name
    && if c.kind == KindCustom then
         codec.wrap(c.arguments).Some? && codec.unwrap(calls[i.value].arguments).Some?
         && codec.unwrap(codec.wrap(c.arguments).value) == codec.unwrap(calls[i.value].arguments)
       else calls[i.value].arguments == c.arguments
  }

  predicate ResultKnown(calls: seq<UpstreamCall>, o: OutputItem) {
    var i := CallNamed(calls, o.callId);
    i.Some? && calls[i.value].kind == o.kind
  }

  predicate NoCallTwice(calls: seq<CallItem>) {
    forall i, j :: 0 <= i < j < |calls| ==> calls[i].callId != calls[j].callId
  }

  predicate NoOutputTwice(outputs: seq<OutputItem>) {
    forall i, j :: 0 <= i < j < |outputs| ==> outputs[i].callId != outputs[j].callId
  }

  /** The part of the conditions that is checked item by item. */
  predicate ItemsOk(codec: Codec, calls: seq<UpstreamCall>, items: seq<Item>) {
    && (forall i :: 0 <= i < |items| && items[i].Message? ==> codec.mapMessage(items[i].text).Some?)
    && (forall i :: 0 <= i < |Calls(items)| ==> SameAsStored(codec, calls, Calls(items)[i]))
    && (forall i :: 0 <= i < |Outputs(items)| ==> ResultKnown(calls, Outputs(items)[i]))
    && NoCallTwice(Calls(items)) && NoOutputTwice(Outputs(items))
  }

  predicate TurnFits(turn: PendingTurn, results: seq<ToolResult>, model: string) {
    && turn.provider == PROVIDER_NAME && (turn.model == "" || turn.model == model)
    && turn.calls != [] && |results| == |turn.calls|
  }

  predicate Replayable(codec: Codec, turn: PendingTurn, results: seq<ToolResult>, model: string, items: seq<Item>) {
    && TurnFits(turn, results, model) && ItemsOk(codec, turn.calls, items)
    && (Calls(items) != [] || Outputs(items) != [])
    && (Calls(items) != [] ==> |Calls(items)| == |turn.calls|) && |Outputs(items)| == |results|
  }

  // ----- what comes out -----

  function ProviderId(calls: seq<UpstreamCall>, id: string): string {
    var i := CallNamed(calls, id);
    if i.Some? then calls[i.value].providerId else ""
  }

  function ReplayedCall(calls: seq<UpstreamCall>, call: UpstreamCall): ChatCall {
    var mapped := ProviderId(calls, call.callId);
    ChatCall(if mapped != "" then mapped else call.providerId, call.name, call.arguments)
  }

  /** continuationMessages: the assistant turn, then one tool message per result. */
  function Block(turn: PendingTurn, results: seq<ToolResult>): seq<ChatMessage> {
    [Asking(turn)] + Answerings(turn.calls, results)
  }

  function Asking(turn: PendingTurn): ChatMessage {
    Assistant(turn.content, turn.reasoning,
      seq(|turn.calls|, i requires 0 <= i < |turn.calls| => ReplayedCall(turn.calls, turn.calls[i])))
  }

  function Answerings(calls: seq<UpstreamCall>, results: seq<ToolResult>): seq<ChatMessage> {
    seq(|results|, i requires 0 <= i < |results| => Tool(ProviderId(calls, results[i].callId), results[i].output))
  }

  function Mapped(codec: Codec, item: Item): seq<ChatMessage> {
    if item.Message? && codec.mapMessage(item.text).Some? then [Plain(codec.mapMessage(item.text).value)] else []
  }

  function PlainMessages(codec: Codec, items: seq<Item>): seq<ChatMessage> {
    if items == [] then []
    else
      var front, last := PlainMessages(codec, items[..|items| - 1]), items[|items| - 1];
      front + Mapped(codec, last)
  }

  /** Where the first tool item stands, |items| if there is none. */
  function FirstTool(items: seq<Item>): (n: nat)
    ensures n <= |items| && (forall i :: 0 <= i < n ==> items[i].Message?) && (n < |items| ==> !items[n].Message?)
  {
    if items == [] then 0
    else
      var n := FirstTool(items[..|items| - 1]);
      if n < |items| - 1 || !items[|items| - 1].Message? then n else |items|
  }

  /** The ordinary messages in order, with the block at the first tool item. */
  function Replayed(codec: Codec, turn: PendingTurn, results: seq<ToolResult>, items: seq<Item>): seq<ChatMessage> {
    var n := FirstTool(items);
    PlainMessages(codec, items[..n]) + Block(turn, results) + PlainMessages(codec, items[n..])
  }

  function MapContinuation(codec: Codec, turn: PendingTurn, results: seq<ToolResult>, model: string,
                           items: seq<Item>): Option<seq<ChatMessage>> {
    if Replayable(codec, turn, results, model, items) then Some(Replayed(codec, turn, results, items)) else None
  }

  // ----- the stored calls as a map -----

  /** The maps that the source builds over the stored calls, as one. */
  function TableOf(calls: seq<UpstreamCall>): map<string, UpstreamCall> {
    if calls == [] then map[] else TableOf(calls[..|calls| - 1])[calls[|calls| - 1].callId := calls[|calls| - 1]]
  }

  lemma {:induction false} TableFinds(calls: seq<UpstreamCall>, id: string)
    ensures id in TableOf(calls) <==> CallNamed(calls, id).Some?
    ensures id in TableOf(calls) ==> TableOf(calls)[id] == calls[CallNamed(calls, id).value]
  {
    if calls != [] && calls[|calls| - 1].callId != id {
      TableFinds(calls[..|calls| - 1], id);
    }
  }

  // ----- one item more -----

  lemma PlainOneMore(codec: Codec, items: seq<Item>, item: Item)
    ensures PlainMessages(codec, items + [item]) == PlainMessages(codec, items) + Mapped(codec, item)
  {
    assert (items + [item])[..|items|] == items;
  }

  lemma FirstToolOneMore(items: seq<Item>, item: Item)
    ensures FirstTool(items + [item]) ==
      if FirstTool(items) < |items| || !item.Message? then FirstTool(items) else |items| + 1
  {
    assert (items + [item])[..|items|] == items;
  }

  /** A tool item adds no message once the block is there. */
  lemma ReplayedOneMore(codec: Codec, turn: PendingTurn, results: seq<ToolResult>, items: seq<Item>, item: Item)
    requires FirstTool(items) < |items|
    ensures FirstTool(items + [item]) < |items + [item]|
    ensures Replayed(codec, turn, results, items + [item]) ==
      Replayed(codec, turn, results, items) + Mapped(codec, item)
  {
    var n, more := FirstTool(items), items + [item];
    FirstToolOneMore(items, item);
    assert more[..n] == items[..n];
    TailOneMore(codec, items, n, item);
  }

  lemma TailOneMore(codec: Codec, items: seq<Item>, n: nat, item: Item)
    requires n <= |items|
    ensures PlainMessages(codec, (items + [item])[n..]) == PlainMessages(codec, items[n..]) + Mapped(codec, item)
  {
    PlainOneMore(codec, items[n..], item);
    assert (items + [item])[n..] == items[n..] + [item];
  }

  /** The first tool item brings the block. */
  lemma ReplayStarts(codec: Codec, turn: PendingTurn, results: seq<ToolResult>, items: seq<Item>, item: Item)
    requires FirstTool(items) == |items| && !item.Message?
    ensures FirstTool(items + [item]) == |items|
    ensures Replayed(codec, turn, results, items + [item]) == PlainMessages(codec, items) + Block(turn, results)
  {
    FirstToolOneMore(items, item);
    assert (items + [item])[..|items|] == items && (items + [item])[|items|..] == [item];
    assert [item][..0] == [];
    assert PlainMessages(codec, [item]) == [];
  }

  predicate ItemOk(codec: Codec, calls: seq<UpstreamCall>, seenCalls: seq<CallItem>, seenOutputs: seq<OutputItem>,
                   item: Item) {
    match item
    case Message(text) => codec.mapMessage(text).Some?
    case Call(c) => SameAsStored(codec, calls, c) && forall i :: 0 <= i < |seenCalls| ==>
      seenCalls[i].callId != c.callId
    case Output(o) => ResultKnown(calls, o) && forall i :: 0 <= i < |seenOutputs| ==> seenOutputs[i].callId != o.callId
  }

  lemma ItemsOkOneMore(codec: Codec, calls: seq<UpstreamCall>, items: seq<Item>, item: Item)
    ensures ItemsOk(codec, calls, items + [item]) <==>
      ItemsOk(codec, calls, items) && ItemOk(codec, calls, Calls(items), Outputs(items), item)
  {
    ItemsOneMore(items, item);
    var more := items + [item];
    assert forall i :: 0 <= i < |items| ==> more[i] == items[i];
    assert more[|items|] == item;
    match item
    case Message(_) =>
      assert Calls(more) == Calls(items) && Outputs(more) == Outputs(items);
    case Call(c) =>
      assert Outputs(more) == Outputs(items);
      CallsMore(codec, calls, Calls(items), c);
    case Output(o) =>
      assert Calls(more) == Calls(items);
      OutputsMore(calls, Outputs(items), o);
  }

  lemma CallsMore(codec: Codec, calls: seq<UpstreamCall>, seen: seq<CallItem>, c: CallItem)
    ensures var more := seen + [c];
      (forall i :: 0 <= i < |more| ==> SameAsStored(codec, calls, more[i])) && NoCallTwice(more) <==>
      && (forall i :: 0 <= i < |seen| ==> SameAsStored(codec, calls, seen[i])) && NoCallTwice(seen)
      && SameAsStored(codec, calls, c) && forall i :: 0 <= i < |seen| ==> seen[i].callId != c.callId
  {
    var more := seen + [c];
    assert forall i :: 0 <= i < |seen| ==> more[i] == seen[i];
    assert more[|seen|] == c;
  }

  lemma OutputsMore(calls: seq<UpstreamCall>, seen: seq<OutputItem>, o: OutputItem)
    ensures var more := seen + [o];
      (forall i :: 0 <= i < |more| ==> ResultKnown(calls, more[i])) && NoOutputTwice(more) <==>
      && (forall i :: 0 <= i < |seen| ==> ResultKnown(calls, seen[i])) && NoOutputTwice(seen)
      && ResultKnown(calls, o) && forall i :: 0 <= i < |seen| ==> seen[i].callId != o.callId
  {
    var more := seen + [o];
    assert forall i :: 0 <= i < |seen| ==> more[i] == seen[i];
    assert more[|seen|] == o;
  }

  lemma {:induction false} StillNotOk(codec: Codec, calls: seq<UpstreamCall>, items: seq<Item>, i: nat)
    requires i <= |items| && !ItemsOk(codec, calls, items[..i])
    ensures !ItemsOk(codec, calls, items)
    decreases |items| - i
  {
    if i == |items| {
      assert items[..i] == items;
    } else {
      assert items[..i + 1] == items[..i] + [items[i]];
      ItemsOkOneMore(codec, calls, items[..i], items[i]);
      StillNotOk(codec, calls, items, i + 1);
    }
  }

  function CallIdSet(calls: seq<CallItem>): set<string> {
    set i | 0 <= i < |calls| :: calls[i].callId
  }

  function OutputIdSet(outputs: seq<OutputItem>): set<string> {
    set i | 0 <= i < |outputs| :: outputs[i].callId
  }

  lemma {:induction false} CallIdCount(calls: seq<CallItem>)
    requires NoCallTwice(calls)
    ensures |CallIdSet(calls)| == |calls|
  {
    if calls != [] {
      var front, last := calls[..|calls| - 1], calls[|calls| - 1];
      CallIdCount(front);
      CallIdMore(front, last);
      assert calls == front + [last];
    }
  }

  lemma CallIdMore(calls: seq<CallItem>, c: CallItem)
    ensures CallIdSet(calls + [c]) == CallIdSet(calls) + {c.callId}
  {
    var more := calls + [c];
    assert forall i :: 0 <= i < |calls| ==> more[i] == calls[i];
    assert more[|calls|] == c;
  }

  lemma {:induction false} OutputIdCount(outputs: seq<OutputItem>)
    requires NoOutputTwice(outputs)
    ensures |OutputIdSet(outputs)| == |outputs|
  {
    if outputs != [] {
      var front, last := outputs[..|outputs| - 1], outputs[|outputs| - 1];
      OutputIdCount(front);
      OutputIdMore(front, last);
      assert outputs == front + [last];
    }
  }

  lemma OutputIdMore(outputs: seq<OutputItem>, o: OutputItem)
    ensures OutputIdSet(outputs + [o]) == OutputIdSet(outputs) + {o.callId}
  {
    var more := outputs + [o];
    assert forall i :: 0 <= i < |outputs| ==> more[i] == outputs[i];
    assert more[|outputs|] == o;
  }

  // ----- the loop of the source -----

  /** The loop over the stored calls that fills the maps. */
  method StoredCalls(calls: seq<UpstreamCall>) returns (table: map<string, UpstreamCall>)
    ensures table == TableOf(calls)
  {
    table := map[];
    for i := 0 to |calls|
      invariant table == TableOf(calls[..i])
    {
      assert calls[..i + 1][..i] == calls[..i];
      table := table[calls[i].callId := calls[i]];
    }
    assert calls[..|calls|] == calls;
  }

  /** validateContinuationCall, but for the mark in seen. */
  method CheckCall(codec: Codec, ghost calls: seq<UpstreamCall>, table: map<string, UpstreamCall>, seen: set<string>,
                   c: CallItem)
    returns (ok: bool)
    requires table == TableOf(calls)
    ensures ok == (SameAsStored(codec, calls, c) && c.callId !in seen)
  {
    TableFinds(calls, c.callId);
    var wrapped := c.arguments;
    if c.kind == KindCustom {
      var w := codec.wrap(c.arguments);
      if w.None? {
        return false;
      }
      wrapped := w.value;
    }
    if c.callId !in table {
      return false;
    }
    var stored := table[c.callId];
    if stored.kind != c.kind || PublicName(stored) != c.name {
      return false;
    }
    if c.kind == KindCustom {
      var storedInput, incomingInput := codec.unwrap(stored.arguments), codec.unwrap(wrapped);
      if storedInput.None? || incomingInput.None? || storedInput != incomingInput {
        return false;
      }
    } else if stored.arguments != wrapped {
      return false;
    }
    return c.callId !in seen;
  }

  /** validateContinuationResult, but for the mark in seen. */
  method CheckResult(ghost calls: seq<UpstreamCall>, table: map<string, UpstreamCall>, seen: set<string>, o: OutputItem)
    returns (ok: bool)
    requires table == TableOf(calls)
    ensures ok == (ResultKnown(calls, o) && o.callId !in seen)
  {
    TableFinds(calls, o.callId);
    if o.callId !in table || table[o.callId].kind != o.kind {
      return false;
    }
    return o.callId !in seen;
  }

  datatype Walk = Walk(messages: seq<ChatMessage>, seenCalls: set<string>, seenResults: set<string>, replayed: bool,
                       localCalls: bool)

  /** The walk has taken the items and found them in order. */
  ghost predicate Walked(codec: Codec, turn: PendingTurn, results: seq<ToolResult>, items: seq<Item>, w: Walk) {
    && ItemsOk(codec, turn.calls, items)
    && w.seenCalls == CallIdSet(Calls(items)) && w.seenResults == OutputIdSet(Outputs(items))
    && w.localCalls == (Calls(items) != []) && w.replayed == (FirstTool(items) < |items|)
    && w.messages == Progress(codec, turn, results, items)
  }

  /** The body of the loop for one item. */
  method TakeItem(codec: Codec, turn: PendingTurn, results: seq<ToolResult>, table: map<string, UpstreamCall>,
                  ghost front: seq<Item>, item: Item, w: Walk) returns (next: Option<Walk>)
    requires table == TableOf(turn.calls) && Walked(codec, turn, results, front, w)
    ensures next.Some? <==> ItemsOk(codec, turn.calls, front + [item])
    ensures next.Some? ==> Walked(codec, turn, results, front + [item], next.value)
  {
    ItemsOkOneMore(codec, turn.calls, front, item);
    ItemsOneMore(front, item);
    ProgressOneMore(codec, turn, results, front, item);
    var after := w;
    match item {
      case Message(text) =>
        var message := codec.mapMessage(text);
        if message.None? {
          return None;
        }
        return Some(w.(messages := w.messages + [Plain(message.value)]));
      case Call(c) =>
        var ok := CheckCall(codec, turn.calls, table, w.seenCalls, c);
        if !ok {
          return None;
        }
        CallIdMore(Calls(front), c);
        after := w.(localCalls := true, seenCalls := w.seenCalls + {c.callId});
      case Output(o) =>
        var ok := CheckResult(turn.calls, table, w.seenResults, o);
        if !ok {
          return None;
        }
        OutputIdMore(Outputs(front), o);
        after := w.(seenResults := w.seenResults + {o.callId});
    }
    if !after.replayed {
      after := after.(messages := after.messages + Block(turn, results), replayed := true);
    }
    return Some(after);
  }

  /** mapContinuationInputItems. */
  method MapContinuationInputItems(codec: Codec, turn: PendingTurn, results: seq<ToolResult>, model: string,
                                   items: seq<Item>)
    returns (mapped: Option<seq<ChatMessage>>)
    ensures mapped == MapContinuation(codec, turn, results, model, items)
  {
    if turn.provider != PROVIDER_NAME || (turn.model != "" && turn.model != model) || |turn.calls| == 0 {
      return None;
    }
    if |results| != |turn.calls| {
      return None;
    }
    var table := StoredCalls(turn.calls);
    var walk := WalkItems(codec, turn, results, table, items);
    if walk.None? {
      return None;
    }
    var w := walk.value;
    WalkedCounts(codec, turn, results, items, w);
    if !w.replayed || (w.localCalls && |w.seenCalls| != |turn.calls|) || |w.seenResults| != |results| {
      return None;
    }
    return Some(w.messages);
  }

  /** The loop over the items. */
  method WalkItems(codec: Codec, turn: PendingTurn, results: seq<ToolResult>, table: map<string, UpstreamCall>,
                   items: seq<Item>)
    returns (walk: Option<Walk>)
    requires table == TableOf(turn.calls)
    ensures walk.Some? <==> ItemsOk(codec, turn.calls, items)
    ensures walk.Some? ==> Walked(codec, turn, results, items, walk.value)
  {
    var w, i := Walk([], {}, {}, false, false), 0;
    ghost var front: seq<Item> := [];
    while i < |items|
      invariant i <= |items| && front == items[..i]
      invariant Walked(codec, turn, results, front, w)
    {
      OneMore(items, i);
      var next := TakeItem(codec, turn, results, table, front, items[i], w);
      i, front := i + 1, front + [items[i]];
      if next.None? {
        StillNotOk(codec, turn.calls, items, i);
        return None;
      }
      w := next.value;
    }
    assert front == items;
    return Some(w);
  }

  lemma WalkedCounts(codec: Codec, turn: PendingTurn, results: seq<ToolResult>, items: seq<Item>, w: Walk)
    requires Walked(codec, turn, results, items, w)
    ensures |w.seenCalls| == |Calls(items)| && |w.seenResults| == |Outputs(items)|
    ensures w.replayed <==> Calls(items) != [] || Outputs(items) != []
  {
    CallIdCount(Calls(items));
    OutputIdCount(Outputs(items));
    SomeTool(items);
  }

  /** A tool item stands somewhere exactly if there are calls or outputs. */
  lemma {:induction false} SomeTool(items: seq<Item>)
    ensures FirstTool(items) < |items| <==> Calls(items) != [] || Outputs(items) != []
  {
    if items != [] {
      var front, last := items[..|items| - 1], items[|items| - 1];
      assert items == front + [last];
      SomeTool(front);
      ItemsOneMore(front, last);
      FirstToolOneMore(front, last);
    }
  }

  /** The messages once the items so far have been walked. */
  function Progress(codec: Codec, turn: PendingTurn, results: seq<ToolResult>, items: seq<Item>): seq<ChatMessage> {
    if FirstTool(items) < |items| then Replayed(codec, turn, results, items) else PlainMessages(codec, items)
  }

  lemma ProgressOneMore(codec: Codec, turn: PendingTurn, results: seq<ToolResult>, items: seq<Item>, item: Item)
    ensures Progress(codec, turn, results, items + [item]) == Progress(codec, turn, results, items) +
      (if !item.Message? && FirstTool(items) == |items| then Block(turn, results)
       else Mapped(codec, item))
    ensures FirstTool(items + [item]) < |items + [item]| <==> FirstTool(items) < |items| || !item.Message?
  {
    FirstToolOneMore(items, item);
    if FirstTool(items) < |items| {
      ReplayedOneMore(codec, turn, results, items, item);
    } else if item.Message? {
      PlainOneMore(codec, items, item);
    } else {
      ReplayStarts(codec, turn, results, items, item);
    }
  }

  // ----- what a replay contains -----

  /** The ids under which the messages answer tool calls, in order. */
  function ToolIds(messages: seq<ChatMessage>): seq<string> {
    if messages == [] then []
    else (if messages[0].Tool? then [messages[0].callId] else []) + ToolIds(messages[1..])
  }

  function Ids(calls: seq<ChatCall>): seq<string> {
    seq(|calls|, i requires 0 <= i < |calls| => calls[i].id)
  }

  /** The ids of all calls that the messages make, in order. */
  function CalledIds(messages: seq<ChatMessage>): seq<string> {
    if messages == [] then []
    else (if messages[0].Assistant? then Ids(messages[0].calls) else []) + CalledIds(messages[1..])
  }

  lemma {:induction false} IdsConcat(a: seq<ChatMessage>, b: seq<ChatMessage>)
    ensures ToolIds(a + b) == ToolIds(a) + ToolIds(b) && CalledIds(a + b) == CalledIds(a) + CalledIds(b)
    decreases |a|
  {
    if a == [] {
      assert a + b == b;
    } else {
      var first, rest := a[0], a[1..];
      IdsConcat(rest, b);
      IdsFirst(first, rest);
      IdsFirst(first, rest + b);
      assert [first] + rest == a && [first] + (rest + b) == a + b;
    }
  }

  lemma IdsFirst(m: ChatMessage, rest: seq<ChatMessage>)
    ensures ToolIds([m] + rest) == (if m.Tool? then [m.callId] else []) + ToolIds(rest)
    ensures CalledIds([m] + rest) == (if m.Assistant? then Ids(m.calls) else []) + CalledIds(rest)
  {
    assert ([m] + rest)[1..] == rest;
  }

  lemma {:induction false} PlainHasNone(codec: Codec, items: seq<Item>)
    ensures ToolIds(PlainMessages(codec, items)) == [] && CalledIds(PlainMessages(codec, items)) == []
    decreases |items|
  {
    if items != [] {
      PlainHasNone(codec, items[..|items| - 1]);
      IdsConcat(PlainMessages(codec, items[..|items| - 1]), Mapped(codec, items[|items| - 1]));
    }
  }

  lemma {:induction false} ResultsHave(calls: seq<UpstreamCall>, results: seq<ToolResult>)
    ensures ToolIds(Answerings(calls, results)) == AnsweredIds(calls, results)
    ensures CalledIds(Answerings(calls, results)) == []
    decreases |results|
  {
    if results != [] {
      var messages, rest := Answerings(calls, results), results[1..];
      assert messages[1..] == Answerings(calls, rest);
      ResultsHave(calls, rest);
      assert AnsweredIds(calls, results) == [ProviderId(calls, results[0].callId)] + AnsweredIds(calls, rest);
    }
  }

  lemma BlockHas(turn: PendingTurn, results: seq<ToolResult>)
    ensures ToolIds(Block(turn, results)) == AnsweredIds(turn.calls, results)
    ensures CalledIds(Block(turn, results)) == ReplayedIds(turn.calls)
  {
    var first, rest := [Asking(turn)], Answerings(turn.calls, results);
    IdsConcat(first, rest);
    ResultsHave(turn.calls, results);
    assert first[1..] == [];
    assert Ids(Asking(turn).calls) == ReplayedIds(turn.calls);
  }

  /** All ids of a replay are those of its one block. */
  lemma ReplayHas(codec: Codec, turn: PendingTurn, results: seq<ToolResult>, items: seq<Item>)
    ensures ToolIds(Replayed(codec, turn, results, items)) == AnsweredIds(turn.calls, results)
    ensures CalledIds(Replayed(codec, turn, results, items)) == ReplayedIds(turn.calls)
  {
    var n := FirstTool(items);
    var before, block, later := PlainMessages(codec, items[..n]), Block(turn, results),
      PlainMessages(codec, items[n..]);
    IdsConcat(before, block);
    IdsConcat(before + block, later);
    PlainHasNone(codec, items[..n]);
    PlainHasNone(codec, items[n..]);
    BlockHas(turn, results);
  }

  /** A call as the provider made it. */
  function OwnCall(call: UpstreamCall): ChatCall {
    ChatCall(call.providerId, call.name, call.arguments)
  }

  /** The shape of a successful replay of what Begin accepted: the mapped ordinary
      messages in order, and between those before and after the first tool item one
      assistant message with the stored calls in stored order, under the provider's
      ids, followed by the answers. No other message calls or answers anything, and
      the answers' ids are a permutation of the calls' ids. */
  lemma ReplayShape(codec: Codec, turn: PendingTurn, results: seq<ToolResult>, model: string, items: seq<Item>,
                    messages: seq<ChatMessage>)
    requires NormalCalls(turn.calls) && Answers(turn.calls, results)
    requires MapContinuation(codec, turn, results, model, items) == Some(messages)
    ensures var n := FirstTool(items);
      var before, later := PlainMessages(codec, items[..n]), PlainMessages(codec, items[n..]);
      && before + later == PlainMessages(codec, items)
      && messages == before + [messages[|before|]] + Answerings(turn.calls, results) + later
      && messages[|before|] == Assistant(turn.content, turn.reasoning, OwnCalls(turn.calls))
    ensures multiset(ToolIds(messages)) == multiset(CalledIds(messages))
    ensures CalledIds(messages) == Ids(OwnCalls(turn.calls))
  {
    var n := FirstTool(items);
    var head, tail := items[..n], items[n..];
    assert head + tail == items;
    ReplayHas(codec, turn, results, items);
    ResultsAnswerCalls(turn.calls, results);
    AskingOwn(turn);
    PlainSplit(codec, head, tail);
    BlockIs(PlainMessages(codec, head), Asking(turn), Answerings(turn.calls, results), PlainMessages(codec, tail));
  }

  function OwnCalls(calls: seq<UpstreamCall>): seq<ChatCall> {
    seq(|calls|, i requires 0 <= i < |calls| => OwnCall(calls[i]))
  }

  lemma BlockIs(before: seq<ChatMessage>, first: ChatMessage, rest: seq<ChatMessage>, later: seq<ChatMessage>)
    ensures before + ([first] + rest) + later == before + [first] + rest + later
    ensures (before + ([first] + rest) + later)[|before|] == first
  {
  }

  lemma {:induction false} PlainSplit(codec: Codec, a: seq<Item>, b: seq<Item>)
    ensures PlainMessages(codec, a + b) == PlainMessages(codec, a) + PlainMessages(codec, b)
    decreases |b|
  {
    if b == [] {
      assert a + b == a;
    } else {
      var front, last := b[..|b| - 1], b[|b| - 1];
      assert a + b == (a + front) + [last] && b == front + [last];
      PlainSplit(codec, a, front);
      PlainOneMore(codec, a + front, last);
      PlainOneMore(codec, front, last);
    }
  }

  lemma AskingOwn(turn: PendingTurn)
    requires NormalCalls(turn.calls)
    ensures Asking(turn) == Assistant(turn.content, turn.reasoning, OwnCalls(turn.calls))
    ensures ReplayedIds(turn.calls) == Ids(OwnCalls(turn.calls))
  {
    forall i | 0 <= i < |turn.calls|
      ensures ReplayedCall(turn.calls, turn.calls[i]) == OwnCall(turn.calls[i])
    {
      OwnProviderId(turn.calls, i);
    }
    assert Asking(turn).calls == OwnCalls(turn.calls);
  }

  function ResultIdList(results: seq<ToolResult>): seq<string> {
    seq(|results|, i requires 0 <= i < |results| => results[i].callId)
  }

  function CallIdList(calls: seq<UpstreamCall>): seq<string> {
    seq(|calls|, i requires 0 <= i < |calls| => calls[i].callId)
  }

  function ProviderIds(calls: seq<UpstreamCall>, ids: seq<string>): seq<string> {
    seq(|ids|, i requires 0 <= i < |ids| => ProviderId(calls, ids[i]))
  }

  /** The ids of the assistant's calls, as they are replayed. */
  function ReplayedIds(calls: seq<UpstreamCall>): seq<string> {
    seq(|calls|, i requires 0 <= i < |calls| => ReplayedCall(calls, calls[i]).id)
  }

  /** The ids under which the results are replayed. */
  function AnsweredIds(calls: seq<UpstreamCall>, results: seq<ToolResult>): seq<string> {
    seq(|results|, i requires 0 <= i < |results| => ProviderId(calls, results[i].callId))
  }

  predicate DistinctSeq(s: seq<string>) {
    forall i, j :: 0 <= i < j < |s| ==> s[i] != s[j]
  }

  lemma {:induction false} DistinctCounts(s: seq<string>, x: string)
    requires DistinctSeq(s)
    ensures multiset(s)[x] == if x in s then 1 else 0
  {
    if s != [] {
      var front, last := s[..|s| - 1], s[|s| - 1];
      assert s == front + [last];
      DistinctCounts(front, x);
      assert last !in front;
    }
  }

  /** Two lists without repetitions and with the same members are permutations. */
  lemma SameMembersPermuted(a: seq<string>, b: seq<string>)
    requires DistinctSeq(a) && DistinctSeq(b) && forall x :: x in a <==> x in b
    ensures multiset(a) == multiset(b)
  {
    forall x
      ensures multiset(a)[x] == multiset(b)[x]
    {
      DistinctCounts(a, x);
      DistinctCounts(b, x);
    }
  }

  /** Renaming every member keeps a permutation a permutation. */
  lemma {:induction false} RenamedPermuted(calls: seq<UpstreamCall>, a: seq<string>, b: seq<string>)
    requires multiset(a) == multiset(b)
    ensures multiset(ProviderIds(calls, a)) == multiset(ProviderIds(calls, b))
    decreases |a|
  {
    if a == [] {
      assert |multiset(b)| == |b|;
    } else {
      var x, rest := a[0], a[1..];
      assert a == [x] + rest;
      assert x in multiset(b);
      var j :| 0 <= j < |b| && b[j] == x;
      var left, right := b[..j], b[j + 1..];
      assert b == left + [x] + right;
      TakenOut(a, rest, b, left, right, x);
      RenamedPermuted(calls, rest, left + right);
      ProviderIdsSplit(calls, left, x, right);
      ProviderIdsFirst(calls, x, rest);
    }
  }

  lemma TakenOut(a: seq<string>, rest: seq<string>, b: seq<string>, left: seq<string>, right: seq<string>, x: string)
    requires a == [x] + rest && b == left + [x] + right && multiset(a) == multiset(b)
    ensures multiset(rest) == multiset(left + right)
  {
    assert multiset(rest) == multiset(a) - multiset{x};
    assert multiset(left + right) == multiset(b) - multiset{x};
  }

  lemma ProviderIdsFirst(calls: seq<UpstreamCall>, x: string, rest: seq<string>)
    ensures multiset(ProviderIds(calls, [x] + rest)) ==
      multiset(ProviderIds(calls, rest)) + multiset{ProviderId(calls, x)}
  {
    assert ProviderIds(calls, [x] + rest) == [ProviderId(calls, x)] + ProviderIds(calls, rest);
  }

  lemma ProviderIdsSplit(calls: seq<UpstreamCall>, a: seq<string>, x: string, b: seq<string>)
    ensures multiset(ProviderIds(calls, a + [x] + b)) ==
      multiset(ProviderIds(calls, a + b)) + multiset{ProviderId(calls, x)}
  {
    assert ProviderIds(calls, a + [x] + b) == ProviderIds(calls, a) + [ProviderId(calls, x)] + ProviderIds(calls, b);
    assert ProviderIds(calls, a + b) == ProviderIds(calls, a) + ProviderIds(calls, b);
  }

  /** What Begin accepted is replayed completely: the ids of the tool messages are
      a permutation of the ids of the assistant's calls. */
  lemma ResultsAnswerCalls(calls: seq<UpstreamCall>, results: seq<ToolResult>)
    requires NormalCalls(calls) && Answers(calls, results)
    ensures multiset(AnsweredIds(calls, results)) == multiset(ReplayedIds(calls))
  {
    var a, b := ResultIdList(results), CallIdList(calls);
    SameIdLists(calls, results);
    SameMembersPermuted(a, b);
    RenamedPermuted(calls, a, b);
    assert AnsweredIds(calls, results) == ProviderIds(calls, a);
    ReplayedIdsAre(calls);
  }

  lemma ReplayedIdsAre(calls: seq<UpstreamCall>)
    requires NormalCalls(calls)
    ensures ReplayedIds(calls) == ProviderIds(calls, CallIdList(calls))
  {
    forall i | 0 <= i < |calls|
      ensures ReplayedCall(calls, calls[i]).id == ProviderId(calls, calls[i].callId)
    {
      OwnProviderId(calls, i);
    }
  }

  lemma SameIdLists(calls: seq<UpstreamCall>, results: seq<ToolResult>)
    requires NormalCalls(calls) && Answers(calls, results)
    ensures DistinctSeq(ResultIdList(results)) && DistinctSeq(CallIdList(calls))
    ensures forall x :: x in ResultIdList(results) <==> x in CallIdList(calls)
  {
    forall x
      ensures x in ResultIdList(results) <==> x in CallIdList(calls)
    {
      InCallIds(calls, x);
      InResultIdList(results, x);
      InCallIdList(calls, x);
    }
  }

  lemma InResultIdList(results: seq<ToolResult>, x: string)
    ensures x in ResultIdList(results) <==> x in ResultIds(results)
  {
    var a := ResultIdList(results);
    assert forall i :: 0 <= i < |results| ==> a[i] == results[i].callId;
    if x in a {
      var i :| 0 <= i < |a| && a[i] == x;
    }
    if i :| 0 <= i < |results| && results[i].callId == x {
      assert a[i] == x;
    }
  }

  lemma InCallIdList(calls: seq<UpstreamCall>, x: string)
    ensures x in CallIdList(calls) <==> exists i :: 0 <= i < |calls| && calls[i].callId == x
  {
    var a := CallIdList(calls);
    assert forall i :: 0 <= i < |calls| ==> a[i] == calls[i].callId;
    if i :| 0 <= i < |calls| && calls[i].callId == x {
      assert a[i] == x;
    }
  }

  lemma OwnProviderId(calls: seq<UpstreamCall>, i: nat)
    requires NormalCalls(calls) && i < |calls|
    ensures CallNamed(calls, calls[i].callId) == Some(i)
    ensures ProviderId(calls, calls[i].callId) == calls[i].providerId
  {
  }

  // ----- output-only requests -----

  /** A request that brings only outputs, accepted by the translation and by Begin,
      is always replayed, given a fitting model and mappable messages. */
  lemma OutputsAlwaysReplay(codec: Codec, failing: StatusTest, turn: PendingTurn, results: seq<ToolResult>,
                            model: string, items: seq<Item>)
    requires turn.provider == PROVIDER_NAME && (turn.model == "" || turn.model == model)
    requires turn.calls != [] && NormalCalls(turn.calls) && Answers(turn.calls, results)
    requires TwoPass(failing, items) == Some(results) && Calls(items) == []
    requires forall i :: 0 <= i < |items| && items[i].Message? ==> codec.mapMessage(items[i].text).Some?
    ensures MapContinuation(codec, turn, results, model, items) == Some(Replayed(codec, turn, results, items))
  {
    OutputsOfResults(failing, items, results);
    AnswersCount(turn.calls, results);
    OutputsKnown(turn.calls, results, Outputs(items));
    OutputsOnlyOk(codec, turn.calls, items);
    OutputsReplay(codec, turn, results, model, items);
  }

  lemma OutputsOfResults(failing: StatusTest, items: seq<Item>, results: seq<ToolResult>)
    requires TwoPass(failing, items) == Some(results)
    ensures |results| == |Outputs(items)| && NoOutputTwice(Outputs(items))
    ensures forall i :: 0 <= i < |results| ==>
      results[i].callId == Outputs(items)[i].callId && results[i].kind == Outputs(items)[i].kind
  {
    ResultsMatchOutputs(failing, items);
  }

  lemma OutputsOnlyOk(codec: Codec, calls: seq<UpstreamCall>, items: seq<Item>)
    requires Calls(items) == [] && NoOutputTwice(Outputs(items))
    requires forall i :: 0 <= i < |items| && items[i].Message? ==> codec.mapMessage(items[i].text).Some?
    requires forall i :: 0 <= i < |Outputs(items)| ==> ResultKnown(calls, Outputs(items)[i])
    ensures ItemsOk(codec, calls, items)
  {
  }

  lemma OutputsReplay(codec: Codec, turn: PendingTurn, results: seq<ToolResult>, model: string, items: seq<Item>)
    requires TurnFits(turn, results, model) && ItemsOk(codec, turn.calls, items)
    requires Calls(items) == [] && |Outputs(items)| == |results|
    ensures MapContinuation(codec, turn, results, model, items) == Some(Replayed(codec, turn, results, items))
  {
    assert Outputs(items) != [];
  }

  lemma AnswersCount(calls: seq<UpstreamCall>, results: seq<ToolResult>)
    requires NormalCalls(calls) && Answers(calls, results)
    ensures |results| == |calls|
  {
    CallIdsCount(calls);
    ResultIdsCount(results);
  }

  lemma OutputsKnown(calls: seq<UpstreamCall>, results: seq<ToolResult>, outputs: seq<OutputItem>)
    requires NormalCalls(calls) && Answers(calls, results) && |results| == |outputs|
    requires forall i :: 0 <= i < |results| ==>
      results[i].callId == outputs[i].callId && results[i].kind == outputs[i].kind
    ensures forall i :: 0 <= i < |outputs| ==> ResultKnown(calls, outputs[i])
  {
    forall i | 0 <= i < |outputs|
      ensures ResultKnown(calls, outputs[i])
    {
      assert Answered(calls, results[i]);
      var j :| 0 <= j < |calls| && calls[j].callId == results[i].callId && calls[j].kind == results[i].kind;
      OwnProviderId(calls, j);
    }
  }
}
