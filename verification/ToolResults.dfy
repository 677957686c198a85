/** Turning the tool items of a client request into results: the single pass of the
    source, which patches results when a call turns up after its output, against a
    reading in two passes that does not care about that order. */
module ToolResults {
  import opened Bridge

  datatype CallItem = CallItem(kind: ToolKind, callId: string, name: string, arguments: string, status: string)

  datatype OutputItem = OutputItem(kind: ToolKind, callId: string, output: string, status: string, error: bool)

  /** The items of a request. Message stands for every ordinary item. */
  datatype Item = Message(text: string) | Call(call: CallItem) | Output(result: OutputItem)

  /** Tells whether a status text means failure: trimmed and lower-cased it is one of
      a few words. */
  type StatusTest = string -> bool

  // ----- the two passes -----

  function Calls(items: seq<Item>): seq<CallItem> {
    if items == [] then []
    else
      var front, last := Calls(items[..|items| - 1]), items[|items| - 1];
      if last.Call? then front + [last.call] else front
  }

  function Outputs(items: seq<Item>): seq<OutputItem> {
    if items == [] then []
    else
      var front, last := Outputs(items[..|items| - 1]), items[|items| - 1];
      if last.Output? then front + [last.result] else front
  }

  predicate CallsOk(calls: seq<CallItem>)
  {
    && (forall i :: 0 <= i < |calls| ==> calls[i].callId != "" && calls[i].name != "")
    && (forall i, j :: 0 <= i < j < |calls| ==> calls[i].callId != calls[j].callId)
  }

  predicate OutputsOk(outputs: seq<OutputItem>)
  {
    && (forall i :: 0 <= i < |outputs| ==> outputs[i].callId != "")
    && (forall i, j :: 0 <= i < j < |outputs| ==> outputs[i].callId != outputs[j].callId)
  }

  predicate KindsAgree(calls: seq<CallItem>, outputs: seq<OutputItem>)
  {
    forall i, j :: 0 <= i < |calls| && 0 <= j < |outputs| && calls[i].callId == outputs[j].callId ==>
      calls[i].kind == outputs[j].kind
  }

  /** A call with this id, wherever it stands, carries a failing status. */
  predicate CallFailed(failing: StatusTest, calls: seq<CallItem>, id: string)
  {
    exists i :: 0 <= i < |calls| && calls[i].callId == id && failing(calls[i].status)
  }

  function ResultOf(failing: StatusTest, calls: seq<CallItem>, o: OutputItem): ToolResult {
    ToolResult(o.callId, o.kind, o.output, o.status,
               o.error || failing(o.status) || CallFailed(failing, calls, o.callId))
  }

  function ResultsOf(failing: StatusTest, calls: seq<CallItem>, outputs: seq<OutputItem>): seq<ToolResult> {
    seq(|outputs|, i requires 0 <= i < |outputs| => ResultOf(failing, calls, outputs[i]))
  }

  predicate Translatable(items: seq<Item>) {
    CallsOk(Calls(items)) && OutputsOk(Outputs(items)) && KindsAgree(Calls(items), Outputs(items))
  }

  /** First the calls, then one result per output, in output order. */
  function TwoPass(failing: StatusTest, items: seq<Item>): Option<seq<ToolResult>> {
    if Translatable(items) then Some(ResultsOf(failing, Calls(items), Outputs(items))) else None
  }

  // ----- what the two passes promise -----

  /** One result per output, in output order, under distinct non-empty ids. */
  lemma ResultsMatchOutputs(failing: StatusTest, items: seq<Item>)
    requires TwoPass(failing, items).Some?
    ensures var r, o := TwoPass(failing, items).value, Outputs(items);
      && |r| == |o|
      && (forall i :: 0 <= i < |r| ==>
        r[i].callId == o[i].callId != "" && r[i].kind == o[i].kind && r[i].output == o[i].output)
      && (forall i, j :: 0 <= i < j < |r| ==> r[i].callId != r[j].callId)
  {
  }

  /** Moving calls around, before or after their outputs, changes nothing. */
  lemma OrderDoesNotMatter(failing: StatusTest, a: seq<Item>, b: seq<Item>)
    requires Outputs(a) == Outputs(b) && multiset(Calls(a)) == multiset(Calls(b))
    ensures TwoPass(failing, a) == TwoPass(failing, b)
  {
    SameChecks(Calls(a), Calls(b), Outputs(a));
    SameChecks(Calls(b), Calls(a), Outputs(a));
    forall i | 0 <= i < |Outputs(a)|
      ensures ResultOf(failing, Calls(a), Outputs(a)[i]) == ResultOf(failing, Calls(b), Outputs(a)[i])
    {
      SameFailed(failing, Calls(a), Calls(b), Outputs(a)[i].callId);
      SameFailed(failing, Calls(b), Calls(a), Outputs(a)[i].callId);
    }
    assert ResultsOf(failing, Calls(a), Outputs(a)) == ResultsOf(failing, Calls(b), Outputs(b));
  }

  lemma SameChecks(a: seq<CallItem>, b: seq<CallItem>, outputs: seq<OutputItem>)
    requires multiset(a) == multiset(b)
    ensures CallsOk(a) && KindsAgree(a, outputs) ==> CallsOk(b) && KindsAgree(b, outputs)
  {
    if CallsOk(a) && KindsAgree(a, outputs) {
      SameCallsOk(a, b);
      SameKinds(a, b, outputs);
    }
  }

  lemma MemberOf(a: seq<CallItem>, b: seq<CallItem>, i: nat)
    requires multiset(a) == multiset(b) && i < |a|
    ensures exists j :: 0 <= j < |b| && b[j] == a[i]
  {
    assert a[i] in multiset(b);
  }

  lemma SameCallsOk(a: seq<CallItem>, b: seq<CallItem>)
    requires multiset(a) == multiset(b) && CallsOk(a)
    ensures CallsOk(b)
  {
    forall j | 0 <= j < |b|
      ensures b[j].callId != "" && b[j].name != ""
    {
      MemberOf(b, a, j);
    }
    forall j, k | 0 <= j < k < |b|
      ensures b[j].callId != b[k].callId
    {
      if b[j].callId == b[k].callId {
        MemberOf(b, a, j);
        MemberOf(b, a, k);
        if b[j] == b[k] {
          TwiceIn(b, j, k);
          OnceIn(a, b[j]);
        }
      }
    }
  }

  lemma TwiceIn(s: seq<CallItem>, j: nat, k: nat)
    requires j < k < |s| && s[j] == s[k]
    ensures multiset(s)[s[j]] >= 2
  {
    assert s == s[..k] + [s[k]] + s[k + 1..];
    assert s[j] in multiset(s[..k]);
  }

  lemma {:induction false} OnceIn(s: seq<CallItem>, x: CallItem)
    requires forall i, j :: 0 <= i < j < |s| ==> s[i] != s[j]
    ensures multiset(s)[x] <= 1
  {
    if s != [] {
      var n := |s| - 1;
      assert s == s[..n] + [s[n]];
      OnceIn(s[..n], x);
      assert s[n] !in multiset(s[..n]);
    }
  }

  lemma SameKinds(a: seq<CallItem>, b: seq<CallItem>, outputs: seq<OutputItem>)
    requires multiset(a) == multiset(b) && KindsAgree(a, outputs)
    ensures KindsAgree(b, outputs)
  {
    forall i, j | 0 <= i < |b| && 0 <= j < |outputs| && b[i].callId == outputs[j].callId
      ensures b[i].kind == outputs[j].kind
    {
      MemberOf(b, a, i);
    }
  }

  lemma SameFailed(failing: StatusTest, a: seq<CallItem>, b: seq<CallItem>, id: string)
    requires multiset(a) == multiset(b)
    ensures CallFailed(failing, a, id) ==> CallFailed(failing, b, id)
  {
    if i :| 0 <= i < |a| && a[i].callId == id && failing(a[i].status) {
      MemberOf(a, b, i);
    }
  }

  // ----- the single pass -----

  datatype Metadata = Metadata(kind: ToolKind, error: bool)

  /** The call map of the source says what the calls so far say. */
  predicate TableIs(failing: StatusTest, table: map<string, Metadata>, calls: seq<CallItem>) {
    && (forall i :: 0 <= i < |calls| ==>
          calls[i].callId in table && table[calls[i].callId] == Metadata(calls[i].kind, failing(calls[i].status)))
    && (forall id :: id in table ==> exists i :: 0 <= i < |calls| && calls[i].callId == id)
  }

  /** The index finds the output with a given id. */
  predicate IndexIs(index: map<string, nat>, outputs: seq<OutputItem>) {
    && (forall i :: 0 <= i < |outputs| ==> outputs[i].callId in index && index[outputs[i].callId] == i)
    && (forall id :: id in index ==> index[id] < |outputs| && outputs[index[id]].callId == id)
  }

  predicate Checked(calls: seq<CallItem>, outputs: seq<OutputItem>) {
    CallsOk(calls) && OutputsOk(outputs) && KindsAgree(calls, outputs)
  }

  lemma FailedFromTable(failing: StatusTest, table: map<string, Metadata>, calls: seq<CallItem>, id: string)
    requires TableIs(failing, table, calls) && CallsOk(calls)
    ensures CallFailed(failing, calls, id) <==> id in table && table[id].error
  {
    if id in table {
      var i :| 0 <= i < |calls| && calls[i].callId == id;
      assert table[id].error == failing(calls[i].status);
    }
  }

  /** One more call: what has to hold for it, and what it adds to the table. */
  lemma CallAdded(failing: StatusTest, table: map<string, Metadata>, index: map<string, nat>,
                  calls: seq<CallItem>, outputs: seq<OutputItem>, c: CallItem)
    requires TableIs(failing, table, calls) && IndexIs(index, outputs) && Checked(calls, outputs)
    ensures Checked(calls + [c], outputs) <==>
      && c.callId != "" && c.name != "" && c.callId !in table
      && (c.callId in index ==> outputs[index[c.callId]].kind == c.kind)
    ensures c.callId !in table ==>
      TableIs(failing, table[c.callId := Metadata(c.kind, failing(c.status))], calls + [c])
  {
    var more := calls + [c];
    assert forall i :: 0 <= i < |calls| ==> more[i] == calls[i];
    assert more[|calls|] == c;
  }

  lemma OutputAdded(table: map<string, Metadata>, failing: StatusTest, index: map<string, nat>,
                    calls: seq<CallItem>, outputs: seq<OutputItem>, o: OutputItem)
    requires TableIs(failing, table, calls) && IndexIs(index, outputs) && Checked(calls, outputs)
    ensures Checked(calls, outputs + [o]) <==>
      o.callId != "" && o.callId !in index && (o.callId in table ==> table[o.callId].kind == o.kind)
    ensures o.callId !in index ==> IndexIs(index[o.callId := |outputs|], outputs + [o])
  {
    var more := outputs + [o];
    assert forall i :: 0 <= i < |outputs| ==> more[i] == outputs[i];
    assert more[|outputs|] == o;
  }

  /** A list that fails a check fails it for good. */
  lemma CheckedFront(calls: seq<CallItem>, outputs: seq<OutputItem>, moreCalls: seq<CallItem>,
                     moreOutputs: seq<OutputItem>)
    requires Checked(calls + moreCalls, outputs + moreOutputs)
    ensures Checked(calls, outputs)
  {
    assert forall i :: 0 <= i < |calls| ==> (calls + moreCalls)[i] == calls[i];
    assert forall i :: 0 <= i < |outputs| ==> (outputs + moreOutputs)[i] == outputs[i];
  }

  lemma {:induction false} CallsConcat(a: seq<Item>, b: seq<Item>)
    ensures Calls(a + b) == Calls(a) + Calls(b) && Outputs(a + b) == Outputs(a) + Outputs(b)
  {
    if b == [] {
      assert a + b == a;
    } else {
      var n := |b| - 1;
      assert (a + b)[..|a + b| - 1] == a + b[..n] && (a + b)[|a + b| - 1] == b[n];
      CallsConcat(a, b[..n]);
    }
  }

  lemma StillFails(items: seq<Item>, i: nat)
    requires i <= |items| && !Checked(Calls(items[..i]), Outputs(items[..i]))
    ensures !Translatable(items)
  {
    assert items == items[..i] + items[i..];
    CallsConcat(items[..i], items[i..]);
    if Translatable(items) {
      CheckedFront(Calls(items[..i]), Outputs(items[..i]), Calls(items[i..]), Outputs(items[i..]));
    }
  }

  lemma ItemsOneMore(items: seq<Item>, item: Item)
    ensures Calls(items + [item]) == Calls(items) + (if item.Call? then [item.call] else [])
    ensures Outputs(items + [item]) == Outputs(items) + (if item.Output? then [item.result] else [])
  {
    assert (items + [item])[..|items|] == items;
  }

  lemma OneMore(items: seq<Item>, i: nat)
    requires i < |items|
    ensures items[..i + 1] == items[..i] + [items[i]]
  {
  }

  /** A late call changes exactly the error flag of its own result. */
  lemma Patched(failing: StatusTest, index: map<string, nat>, calls: seq<CallItem>, outputs: seq<OutputItem>,
                c: CallItem)
    requires IndexIs(index, outputs) && Checked(calls + [c], outputs)
    ensures var before, after := ResultsOf(failing, calls, outputs), ResultsOf(failing, calls + [c], outputs);
      after == if c.callId in index
               then before[index[c.callId] := before[index[c.callId]].(error := before[index[c.callId]].error ||
                 failing(c.status))]
               else before
  {
    var before, after := ResultsOf(failing, calls, outputs), ResultsOf(failing, calls + [c], outputs);
    forall i | 0 <= i < |outputs|
      ensures after[i] == before[i].(error := before[i].error || (outputs[i].callId == c.callId && failing(c.status)))
    {
      FailedGrows(failing, calls, c, outputs[i].callId);
    }
  }

  lemma FailedGrows(failing: StatusTest, calls: seq<CallItem>, c: CallItem, id: string)
    ensures CallFailed(failing, calls + [c], id) <==>
      CallFailed(failing, calls, id) || (c.callId == id && failing(c.status))
  {
    var more := calls + [c];
    assert forall i :: 0 <= i < |calls| ==> more[i] == calls[i];
    assert more[|calls|] == c;
  }

  /** What the single pass keeps: the call map, the ids that have a result, the index
      of each result, and the results. */
  datatype Pass = Pass(calls: map<string, Metadata>, seen: set<string>, index: map<string, nat>,
                       results: seq<ToolResult>)

  /** The pass has taken these calls and outputs. */
  predicate Passed(failing: StatusTest, calls: seq<CallItem>, outputs: seq<OutputItem>, p: Pass) {
    && Checked(calls, outputs) && TableIs(failing, p.calls, calls) && IndexIs(p.index, outputs)
    && p.seen == p.index.Keys && p.results == ResultsOf(failing, calls, outputs)
  }

  /** A call enters the map, and its status may still mark an earlier result. */
  method TakeCall(failing: StatusTest, ghost calls: seq<CallItem>, ghost outputs: seq<OutputItem>, c: CallItem, p: Pass)
    returns (next: Option<Pass>)
    requires Passed(failing, calls, outputs, p)
    ensures next.Some? <==> Checked(calls + [c], outputs)
    ensures next.Some? ==> Passed(failing, calls + [c], outputs, next.value)
  {
    CallAdded(failing, p.calls, p.index, calls, outputs, c);
    if c.callId == "" || c.name == "" || c.callId in p.calls {
      return None;
    }
    var metadata, results := Metadata(c.kind, failing(c.status)), p.results;
    if c.callId in p.index {
      var at := p.index[c.callId];
      if results[at].kind != metadata.kind {
        return None;
      }
      results := results[at := results[at].(error := results[at].error || metadata.error)];
    }
    Patched(failing, p.index, calls, outputs, c);
    return Some(p.(calls := p.calls[c.callId := metadata], results := results));
  }

  method TakeOutput(failing: StatusTest, ghost calls: seq<CallItem>, ghost outputs: seq<OutputItem>, o: OutputItem,
                    p: Pass)
    returns (next: Option<Pass>)
    requires Passed(failing, calls, outputs, p)
    ensures next.Some? <==> Checked(calls, outputs + [o])
    ensures next.Some? ==> Passed(failing, calls, outputs + [o], next.value)
  {
    OutputAdded(p.calls, failing, p.index, calls, outputs, o);
    FailedFromTable(failing, p.calls, calls, o.callId);
    if o.callId == "" || (o.callId in p.calls && p.calls[o.callId].kind != o.kind) || o.callId in p.seen {
      return None;
    }
    var failed := o.error || (o.callId in p.calls && p.calls[o.callId].error) || failing(o.status);
    return Some(p.(seen := p.seen + {o.callId}, index := p.index[o.callId := |p.results|],
      results := p.results + [ToolResult(o.callId, o.kind, o.output, o.status, failed)]));
  }

  /** One item, in the order of the request. */
  method TakeItem(failing: StatusTest, ghost front: seq<Item>, item: Item, p: Pass) returns (next: Option<Pass>)
    requires Passed(failing, Calls(front), Outputs(front), p)
    ensures next.Some? <==> Translatable(front + [item])
    ensures next.Some? ==> Passed(failing, Calls(front + [item]), Outputs(front + [item]), next.value)
  {
    ItemsOneMore(front, item);
    match item {
      case Message(_) => next := Some(p);
      case Call(c) => next := TakeCall(failing, Calls(front), Outputs(front), c, p);
      case Output(o) => next := TakeOutput(failing, Calls(front), Outputs(front), o, p);
    }
  }

  /** TranslateToolResults: one pass over the items. */
  method TranslateToolResults(failing: StatusTest, items: seq<Item>) returns (translated: Option<seq<ToolResult>>)
    ensures translated == TwoPass(failing, items)
  {
    var p, i := Pass(map[], {}, map[], []), 0;
    ghost var front: seq<Item> := [];
    while i < |items|
      invariant i <= |items| && front == items[..i]
      invariant Passed(failing, Calls(front), Outputs(front), p)
    {
      var next := TakeItem(failing, front, items[i], p);
      OneMore(items, i);
      i, front := i + 1, front + [items[i]];
      if next.None? {
        StillFails(items, i);
        return None;
      }
      p := next.value;
    }
    assert front == items;
    return Some(p.results);
  }
}
