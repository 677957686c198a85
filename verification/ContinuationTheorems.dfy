/** The promises of the continuation store, over every run of its operations. */
module ContinuationTheorems {
  import opened Bridge
  import opened ContinuationSpec
  import opened ContinuationSafety
  import opened ContinuationSweep
  import opened ContinuationSteps

  // ----- when Begin succeeds -----

  predicate DistinctIds(results: seq<ToolResult>) {
    forall i, j :: 0 <= i < j < |results| ==> results[i].callId != results[j].callId
  }

  function ResultIds(results: seq<ToolResult>): set<string> {
    set i | 0 <= i < |results| :: results[i].callId
  }

  /** Some call has the result's id and kind. */
  predicate Answered(calls: seq<UpstreamCall>, result: ToolResult) {
    exists i :: 0 <= i < |calls| && calls[i].callId == result.callId && calls[i].kind == result.kind
  }

  /** The results answer exactly the calls, one each, in any order. */
  predicate Answers(calls: seq<UpstreamCall>, results: seq<ToolResult>) {
    && DistinctIds(results) && ResultIds(results) == CallIds(calls)
    && forall i :: 0 <= i < |results| ==> Answered(calls, results[i])
  }

  /** Every result names a call that record r retains. */
  predicate AllNamed(w: World, results: seq<ToolResult>, r: nat) {
    forall i :: 0 <= i < |results| ==> Retains(w, results[i].callId) == Some(r)
  }

  lemma RetainedId(c: StoreConfig, w: World, id: string)
    requires Inv(c, w) && !w.closed && Retains(w, id).Some?
    ensures id != "" && id in Ids(w.fixed[Retains(w, id).value]) && Holds(w, Retains(w, id).value)
  {
    var r := Retains(w, id).value;
    HeldHere(c, w, w.books.index[id]);
    InCallIds(w.fixed[r].turn.calls, id);
  }

  /** The first loop of Begin succeeds exactly on distinct ids that one record
      retains, and changes nothing. */
  lemma {:induction false} ScanFresh(c: StoreConfig, w: World, results: seq<ToolResult>, now: int)
    requires Inv(c, w) && !w.closed && Fresh(w, now)
    ensures Scan(w, results, now).world == w
    ensures Scan(w, results, now).Ok? ==> DistinctIds(results)
    ensures Scan(w, results, now).Ok? && results != [] ==> AllNamed(w, results, Scan(w, results, now).value.value)
    ensures forall r :: DistinctIds(results) && AllNamed(w, results, r) ==> Scan(w, results, now).Ok?
    decreases |results|
  {
    if results != [] {
      var front, last := results[..|results| - 1], results[|results| - 1];
      assert results == front + [last];
      ScanFresh(c, w, front, now);
      ScanLast(c, w, front, last, now);
      forall r | DistinctIds(results) && AllNamed(w, results, r)
        ensures Scan(w, results, now).Ok?
      {
        DistinctLast(front, last);
        NamedLast(w, front, last, r);
        ScanLastOk(c, w, front, last, now, r);
      }
    }
  }

  lemma ScanEquation(w: World, front: seq<ToolResult>, last: ToolResult, now: int)
    requires Shaped(w)
    ensures Scan(w, front + [last], now) ==
      var before := Scan(w, front, now);
      if before.Err? then before
      else if last.callId == "" then Err(before.world, Invalid)
      else if exists i :: 0 <= i < |front| && front[i].callId == last.callId then Err(before.world, Duplicate)
      else
        var found := RecordFor(before.world, last.callId, now);
        if found.Err? then Err(found.world, found.error)
        else if before.value.Some? && before.value.value != found.value then Err(found.world, Mixed)
        else Ok(found.world, Some(found.value))
  {
    var all := front + [last];
    assert all[..|front|] == front && all[|front|] == last;
    assert forall i :: 0 <= i < |front| ==> all[i] == front[i];
  }

  lemma DistinctLast(front: seq<ToolResult>, last: ToolResult)
    ensures DistinctIds(front + [last]) <==>
      DistinctIds(front) && forall i :: 0 <= i < |front| ==> front[i].callId != last.callId
  {
    var all := front + [last];
    assert forall i :: 0 <= i < |front| ==> all[i] == front[i];
    assert all[|front|] == last;
  }

  lemma NamedLast(w: World, front: seq<ToolResult>, last: ToolResult, r: nat)
    ensures AllNamed(w, front + [last], r) <==> AllNamed(w, front, r) && Retains(w, last.callId) == Some(r)
  {
    var all := front + [last];
    assert forall i :: 0 <= i < |front| ==> all[i] == front[i];
    assert all[|front|] == last;
  }

  lemma ScanLast(c: StoreConfig, w: World, front: seq<ToolResult>, last: ToolResult, now: int)
    requires Inv(c, w) && !w.closed && Fresh(w, now)
    requires var before := Scan(w, front, now);
      && before.world == w && (before.Ok? ==> DistinctIds(front))
      && (before.Ok? && front != [] ==> AllNamed(w, front, before.value.value))
    ensures var after := Scan(w, front + [last], now);
      && after.world == w && (after.Ok? ==> DistinctIds(front + [last]))
      && (after.Ok? ==> AllNamed(w, front + [last], after.value.value))
  {
    ScanEquation(w, front, last, now);
    RecordForFresh(c, w, last.callId, now);
    DistinctLast(front, last);
    if Retains(w, last.callId).Some? {
      NamedLast(w, front, last, Retains(w, last.callId).value);
    }
  }

  lemma ScanLastOk(c: StoreConfig, w: World, front: seq<ToolResult>, last: ToolResult, now: int, r: nat)
    requires Inv(c, w) && !w.closed && Fresh(w, now)
    requires Scan(w, front, now).Ok? && Scan(w, front, now).world == w
    requires front != [] ==> AllNamed(w, front, Scan(w, front, now).value.value)
    requires DistinctIds(front + [last]) && AllNamed(w, front + [last], r)
    ensures Scan(w, front + [last], now).Ok?
  {
    ScanEquation(w, front, last, now);
    RecordForFresh(c, w, last.callId, now);
    DistinctLast(front, last);
    NamedLast(w, front, last, r);
    RetainedId(c, w, last.callId);
    if front != [] {
      assert Retains(w, front[0].callId) == Some(r);
    } else {
      assert Scan(w, front, now).value == None;
    }
  }

  // ----- kinds -----

  lemma {:induction false} KindsOfAt(calls: seq<UpstreamCall>, id: string)
    requires forall i, j :: 0 <= i < j < |calls| ==> calls[i].callId != calls[j].callId
    ensures id in KindsOf(calls) <==> id in CallIds(calls)
    ensures id in KindsOf(calls) ==>
      exists i :: 0 <= i < |calls| && calls[i].callId == id && calls[i].kind == KindsOf(calls)[id]
  {
    if calls != [] {
      var n := |calls| - 1;
      KindsOfAt(calls[..n], id);
      if id in KindsOf(calls) && id != calls[n].callId {
        var i :| 0 <= i < n && calls[..n][i].callId == id && calls[..n][i].kind == KindsOf(calls[..n])[id];
        assert calls[i].callId == id && calls[i].kind == KindsOf(calls)[id];
      }
    }
  }

  /** With distinct call ids, the kind table answers what Answered asks. */
  lemma KindsAnswer(calls: seq<UpstreamCall>, result: ToolResult)
    requires forall i, j :: 0 <= i < j < |calls| ==> calls[i].callId != calls[j].callId
    ensures Answered(calls, result) <==>
      result.callId in KindsOf(calls) && KindsOf(calls)[result.callId] == result.kind
  {
    KindsOfAt(calls, result.callId);
    if Answered(calls, result) {
      InCallIds(calls, result.callId);
    }
  }

  lemma {:induction false} KindErrorNone(kinds: map<string, ToolKind>, results: seq<ToolResult>)
    ensures KindError(kinds, results).None? <==>
      forall i :: 0 <= i < |results| ==> results[i].callId in kinds && kinds[results[i].callId] == results[i].kind
  {
    if results != [] {
      var n := |results| - 1;
      KindErrorNone(kinds, results[..n]);
      assert forall i :: 0 <= i < n ==> results[..n][i] == results[i];
    }
  }

  // ----- the pigeonhole -----

  lemma {:induction false} ResultIdsCount(results: seq<ToolResult>)
    requires DistinctIds(results)
    ensures |ResultIds(results)| == |results|
  {
    if results != [] {
      var n := |results| - 1;
      ResultIdsCount(results[..n]);
      assert ResultIds(results) == ResultIds(results[..n]) + {results[n].callId} by {
        assert forall i :: 0 <= i < n ==> results[..n][i] == results[i];
      }
    }
  }

  lemma {:induction false} SameSize<T>(a: set<T>, b: set<T>)
    requires a <= b && |a| == |b|
    ensures a == b
  {
    assert b == a + (b - a);
    assert |b| == |a| + |b - a|;
  }

  /** As many distinct results as calls, all of them answering some call, answer
      every call. */
  lemma Pigeonhole(calls: seq<UpstreamCall>, results: seq<ToolResult>)
    requires forall i, j :: 0 <= i < j < |calls| ==> calls[i].callId != calls[j].callId
    requires DistinctIds(results) && forall i :: 0 <= i < |results| ==> Answered(calls, results[i])
    ensures |results| == |calls| <==> ResultIds(results) == CallIds(calls)
  {
    CallIdsCount(calls);
    ResultIdsCount(results);
    forall id | id in ResultIds(results)
      ensures id in CallIds(calls)
    {
      InCallIds(calls, id);
    }
    if |results| == |calls| {
      SameSize(ResultIds(results), CallIds(calls));
    }
  }

  lemma BeginRecordOk(c: StoreConfig, w: World, r: nat, results: seq<ToolResult>, now: int)
    requires Shaped(w) && r < |w.fixed| && DistinctIds(results) && NormalCalls(w.fixed[r].turn.calls)
    ensures BeginRecord(c, w, r, results, now).Ok? <==>
      w.life[r].status == Pending && Answers(w.fixed[r].turn.calls, results)
    ensures BeginRecord(c, w, r, results, now) ==
      if w.life[r].status == Pending && Answers(w.fixed[r].turn.calls, results)
      then Ok(Granted(c, w, r, results, now), |w.leases|)
      else Err(w, BeginRecord(c, w, r, results, now).error)
  {
    var calls := w.fixed[r].turn.calls;
    KindErrorNone(KindsOf(calls), results);
    forall i | 0 <= i < |results|
      ensures Answered(calls, results[i]) <==>
        results[i].callId in KindsOf(calls) && KindsOf(calls)[results[i].callId] == results[i].kind
    {
      KindsAnswer(calls, results[i]);
    }
    if forall i :: 0 <= i < |results| ==> Answered(calls, results[i]) {
      Pigeonhole(calls, results);
    }
  }

  // ----- Begin -----

  lemma IndexedBy(b: Books, fixed: seq<Fixed>, key: string, id: string)
    requires Inverse(b.table, b.index, fixed) && key in b.table && id in Ids(fixed[b.table[key]])
    ensures id in b.index && b.index[id] == key
  {
  }

  lemma AnswersNamed(w: World, results: seq<ToolResult>, r: nat)
    requires Shaped(w) && Inverse(w.books.table, w.books.index, w.fixed) && Holds(w, r)
    requires ResultIds(results) <= Ids(w.fixed[r])
    ensures AllNamed(w, results, r)
  {
    forall i | 0 <= i < |results|
      ensures Retains(w, results[i].callId) == Some(r)
    {
      IndexedBy(w.books, w.fixed, w.fixed[r].key, results[i].callId);
    }
  }

  lemma HeldNormal(c: StoreConfig, w: World, r: nat)
    requires Inv(c, w) && r < |w.fixed|
    ensures NormalCalls(w.fixed[r].turn.calls) && w.fixed[r].turn.calls != []
  {
    assert Normalizable(w.fixed[r].turn);
  }

  /** Record r is waiting for exactly these results. */
  predicate Awaits(w: World, r: nat, results: seq<ToolResult>)
    requires Shaped(w)
  {
    Holds(w, r) && w.life[r].status == Pending && Answers(w.fixed[r].turn.calls, results)
  }

  lemma AnswersSome(calls: seq<UpstreamCall>, results: seq<ToolResult>)
    requires Answers(calls, results) && calls != []
    ensures results != []
  {
    InCallIds(calls, calls[0].callId);
  }

  lemma BeginFreshOk(c: StoreConfig, w: World, results: seq<ToolResult>, now: int, r: nat)
    requires Inv(c, w) && !w.closed && Fresh(w, now) && Awaits(w, r, results)
    ensures BeginClean(c, w, results, now) == Ok(Granted(c, w, r, results, now), |w.leases|)
  {
    HeldNormal(c, w, r);
    AnswersSome(w.fixed[r].turn.calls, results);
    AnswersNamed(w, results, r);
    ScanFresh(c, w, results, now);
    assert Retains(w, results[0].callId) == Some(r);
    BeginRecordOk(c, w, r, results, now);
  }

  lemma BeginFreshErr(c: StoreConfig, w: World, results: seq<ToolResult>, now: int)
    requires Inv(c, w) && !w.closed && Fresh(w, now)
    requires forall r :: 0 <= r < |w.fixed| ==> !Awaits(w, r, results)
    ensures BeginClean(c, w, results, now).Err? && BeginClean(c, w, results, now).world == w
  {
    if results != [] {
      ScanFresh(c, w, results, now);
      var scan := Scan(w, results, now);
      if scan.Ok? {
        var r := scan.value.value;
        assert Retains(w, results[0].callId) == Some(r);
        RetainedId(c, w, results[0].callId);
        HeldNormal(c, w, r);
        BeginRecordOk(c, w, r, results, now);
        assert !Awaits(w, r, results);
      }
    }
  }

  /** Begin succeeds exactly if the store is open and one Pending record, still
      before its original expiry, has exactly these calls with these kinds. That
      record is then leased; a failed Begin changes nothing beyond the cleanup. */
  lemma BeginExactly(c: StoreConfig, w: World, results: seq<ToolResult>, now: int, order: seq<string>)
    requires Inv(c, w) && IsOrder(order, w.books.table.Keys)
    ensures Begin(c, w, results, now, order).Ok? <==>
      !w.closed && exists r :: 0 <= r < |w.fixed| && Awaits(w, r, results) && now < w.fixed[r].expiry
    ensures Begin(c, w, results, now, order).Err? ==>
      Begin(c, w, results, now, order).world == if w.closed then w else Cleanup(c, w, order, now)
    ensures forall r :: 0 <= r < |w.fixed| && !w.closed && Awaits(w, r, results) && now < w.fixed[r].expiry ==>
      Begin(c, w, results, now, order) == Ok(Granted(c, Cleanup(c, w, order, now), r, results, now), |w.leases|)
  {
    if !w.closed {
      var clean := Cleanup(c, w, order, now);
      CleanupKeeps(c, w, order, now);
      CleanedFresh(c, w, order, now);
      CleanupExact(c, w, order, now);
      forall r | 0 <= r < |w.fixed|
        ensures Awaits(clean, r, results) <==> Awaits(w, r, results) && now < w.fixed[r].expiry
        ensures Awaits(clean, r, results) ==>
          BeginClean(c, clean, results, now) == Ok(Granted(c, clean, r, results, now), |w.leases|)
      {
        PendingSurvives(c, w, order, now, r);
        if Awaits(clean, r, results) {
          BeginFreshOk(c, clean, results, now, r);
        }
      }
      if forall r :: 0 <= r < |w.fixed| ==> !Awaits(clean, r, results) {
        BeginFreshErr(c, clean, results, now);
      }
    }
  }

  /** A cleanup keeps a Pending record exactly until its original expiry. */
  lemma PendingSurvives(c: StoreConfig, w: World, order: seq<string>, now: int, r: nat)
    requires Inv(c, w) && !w.closed && IsOrder(order, w.books.table.Keys) && r < |w.fixed|
    ensures var w' := Cleanup(c, w, order, now);
      (Holds(w', r) && w'.life[r].status == Pending) <==>
      (Holds(w, r) && w.life[r].status == Pending && now < w.fixed[r].expiry)
  {
    CleanupExact(c, w, order, now);
    var w' := Cleanup(c, w, order, now);
    assert w'.life[r] == CleanLife(w, r, now);
    assert Timely(c, w.fixed[r], w.life[r]);
  }

  // ----- every step keeps the invariant -----

  lemma GrantedLeased(w: World, r: nat, results: seq<ToolResult>, next: Life)
    requires Shaped(w) && Leased(w) && Holds(w, r) && w.life[r].status == Pending && next.status == Consuming
    ensures var w' := w.(life := w.life[r := next], leases := w.leases + [Grant(r, results, false)]);
      Leased(w')
  {
    var w' := w.(life := w.life[r := next], leases := w.leases + [Grant(r, results, false)]);
    assert forall s :: Holds(w', s) <==> Holds(w, s);
    assert Unfinished(w', |w.leases|, r);
    forall s | 0 <= s < |w.fixed| && w'.life[s].status == Consuming && s != r
      ensures exists l :: Unfinished(w', l, s)
    {
      var l :| Unfinished(w, l, s);
      assert Unfinished(w', l, s);
    }
  }

  lemma GrantedKeeps(c: StoreConfig, w: World, r: nat, results: seq<ToolResult>, now: int)
    requires Inv(c, w) && !w.closed && Holds(w, r) && w.life[r].status == Pending && now < w.fixed[r].expiry
    ensures Inv(c, Granted(c, w, r, results, now))
  {
    var next := w.life[r].(status := Consuming, deadline := Later(now, c.leaseTtl));
    LivelyUpdate(c, w.fixed, w.life, r, next);
    GrantedLeased(w, r, results, next);
    Assemble(c, Granted(c, w, r, results, now));
  }

  lemma BeginKeeps(c: StoreConfig, w: World, results: seq<ToolResult>, now: int, order: seq<string>)
    requires Inv(c, w) && IsOrder(order, w.books.table.Keys)
    ensures Inv(c, Begin(c, w, results, now, order).world)
  {
    BeginExactly(c, w, results, now, order);
    if !w.closed {
      CleanupKeeps(c, w, order, now);
      if r :| 0 <= r < |w.fixed| && Awaits(w, r, results) && now < w.fixed[r].expiry {
        PendingSurvives(c, w, order, now, r);
        GrantedKeeps(c, Cleanup(c, w, order, now), r, results, now);
      }
    }
  }

  lemma ApplyKeeps(c: StoreConfig, w: World, op: Op)
    requires Inv(c, w) && OrderFits(w, op)
    ensures Inv(c, Apply(c, w, op))
  {
    match op
    case SaveTurn(turn, now, order, gates) => SaveKeeps(c, w, turn, now, order, gates);
    case LookUp(id, now, order) => LookupKeeps(c, w, id, now, order);
    case Claim(results, now, order) => BeginKeeps(c, w, results, now, order);
    case Release(l, commit, now, gates) => if l < |w.leases| { FinishKeeps(c, w, l, commit, now, gates); }
    case Tick(now, order) => if !w.closed { CleanupKeeps(c, w, order, now); }
    case CloseStore => CloseKeeps(c, w);
  }
}
