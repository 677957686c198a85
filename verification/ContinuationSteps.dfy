/** Saving, claiming, finishing and closing keep the store's invariant. */
module ContinuationSteps {
  import opened Bridge
  import opened Sums
  import opened ContinuationSpec
  import opened ContinuationSafety
  import opened ContinuationSweep

  // ----- saving -----

  function Keyed(ids: set<string>, key: string): map<string, string> {
    map id | id in ids :: key
  }

  lemma {:induction false} MoreFixed(table: map<string, nat>, fixed: seq<Fixed>, f: Fixed)
    requires forall k :: k in table ==> table[k] < |fixed|
    ensures Sizes(table, fixed + [f]) == Sizes(table, fixed)
  {
  }

  lemma InverseGrows(table: map<string, nat>, index: map<string, string>, fixed: seq<Fixed>, f: Fixed)
    requires Inverse(table, index, fixed)
    ensures Inverse(table, index, fixed + [f])
  {
    assert forall i :: 0 <= i < |fixed| ==> (fixed + [f])[i] == fixed[i];
  }

  lemma KeysIndexed(table: map<string, nat>, index: map<string, string>, fixed: seq<Fixed>, key: string)
    requires Inverse(table, index, fixed) && key in table
    ensures key in index
  {
    assert key in Ids(fixed[table[key]]);
  }

  lemma InverseInsert(table: map<string, nat>, index: map<string, string>, fixed: seq<Fixed>, r: nat)
    requires Inverse(table, index, fixed) && r < |fixed|
    requires Ids(fixed[r]) !! index.Keys && fixed[r].key in Ids(fixed[r]) && fixed[r].key !in table
    ensures Inverse(table[fixed[r].key := r], index + Keyed(Ids(fixed[r]), fixed[r].key), fixed)
  {
    var table', index' := table[fixed[r].key := r], index + Keyed(Ids(fixed[r]), fixed[r].key);
    forall k, id | k in table' && id in Ids(fixed[table'[k]])
      ensures id in index' && index'[id] == k
    {
      if k != fixed[r].key {
        assert id in index && index[id] == k;
      }
    }
  }

  lemma AccountedGrows(limits: Limits, table: map<string, nat>, total: int, fixed: seq<Fixed>, f: Fixed)
    requires Accounted(limits, table, total, fixed)
    ensures Accounted(limits, table, total, fixed + [f])
  {
    MoreFixed(table, fixed, f);
    assert forall i :: 0 <= i < |fixed| ==> (fixed + [f])[i] == fixed[i];
  }

  lemma SizesInsert(table: map<string, nat>, fixed: seq<Fixed>, r: nat)
    requires r < |fixed| && fixed[r].key !in table
    ensures Sum(Sizes(table[fixed[r].key := r], fixed)) == Sum(Sizes(table, fixed)) + fixed[r].bytes
  {
    assert Sizes(table[fixed[r].key := r], fixed) == Sizes(table, fixed)[fixed[r].key := fixed[r].bytes];
    SumInsert(Sizes(table, fixed), fixed[r].key, fixed[r].bytes);
  }

  lemma AccountedInsert(limits: Limits, table: map<string, nat>, total: int, fixed: seq<Fixed>, r: nat, more: int)
    requires Accounted(limits, table, total, fixed) && r < |fixed| && fixed[r].key !in table
    requires |table| < limits.records && fixed[r].bytes <= limits.recordBytes
    requires more == total + fixed[r].bytes <= limits.bytes
    ensures Accounted(limits, table[fixed[r].key := r], more, fixed)
  {
    SizesInsert(table, fixed, r);
  }

  lemma TombsInsert(limits: Limits, tombs: map<string, int>, index: map<string, string>, ids: set<string>, key: string)
    requires Tombs(limits, tombs, index)
    ensures Tombs(limits, tombs - ids, index + Keyed(ids, key))
  {
    SubsetSize((tombs - ids).Keys, tombs.Keys);
    assert |tombs - ids| == |(tombs - ids).Keys| && |tombs| == |tombs.Keys|;
  }

  /** The conditions under which SaveContext stores the normalised turn. */
  predicate Room(limits: Limits, b: Books, turn: PendingTurn, bytes: nat) {
    && bytes <= limits.recordBytes && |b.table| < limits.records && b.total + bytes <= limits.bytes
    && CallIds(turn.calls) !! b.index.Keys
  }

  lemma StoredBooks(limits: Limits, b: Books, fixed: seq<Fixed>, f: Fixed, r: nat, more: int)
    requires Bookkept(limits, b, fixed) && Room(limits, b, f.turn, f.bytes) && f.key in Ids(f) && f.key !in b.table
    requires r == |fixed| && more == b.total + f.bytes
    ensures Bookkept(limits, Books(b.table[f.key := r], b.index + Keyed(Ids(f), f.key), b.tombs - Ids(f), more),
      fixed + [f])
  {
    var fixed' := fixed + [f];
    InverseGrows(b.table, b.index, fixed, f);
    InverseInsert(b.table, b.index, fixed', r);
    AccountedGrows(limits, b.table, b.total, fixed, f);
    AccountedInsert(limits, b.table, b.total, fixed', r, more);
    TombsInsert(limits, b.tombs, b.index, Ids(f), f.key);
  }

  lemma StoredLeased(w: World, w': World, f: Fixed, life: Life)
    requires Shaped(w) && Leased(w) && f.key !in w.books.table && life.status == Pending
    requires w'.fixed == w.fixed + [f] && w'.life == w.life + [life] && w'.leases == w.leases
    requires w'.books.table == w.books.table[f.key := |w.fixed|]
    ensures Shaped(w') && Leased(w')
  {
    assert forall r :: 0 <= r < |w.fixed| ==> (Holds(w', r) <==> Holds(w, r));
    assert forall l, r :: Unfinished(w', l, r) <==> Unfinished(w, l, r);
  }

  lemma StoredLively(c: StoreConfig, fixed: seq<Fixed>, life: seq<Life>, f: Fixed)
    requires ConfigValid(c) && Lively(c, fixed, life) && Normalizable(f.turn)
    ensures Lively(c, fixed + [f], life + [Life(Pending, f.expiry, 0)])
  {
  }

  lemma NormalizedNormal(turn: PendingTurn)
    requires Normalizable(turn)
    ensures Normalizable(Normalized(turn))
  {
    var calls := Normalized(turn).calls;
    assert forall i :: 0 <= i < |calls| ==> calls[i] == NamedCall(turn.calls[i]);
  }

  lemma StoredParts(c: StoreConfig, w: World, f: Fixed)
    requires Inv(c, w) && !w.closed && Normalizable(f.turn) && Room(c.limits, w.books, f.turn, f.bytes)
    requires f.key == f.turn.calls[0].callId
    ensures f.key in Ids(f) && f.key !in w.books.table
    ensures Lively(c, w.fixed + [f], w.life + [Life(Pending, f.expiry, 0)])
  {
    InCallIds(f.turn.calls, f.key);
    if f.key in w.books.table {
      KeysIndexed(w.books.table, w.books.index, w.fixed, f.key);
    }
    StoredLively(c, w.fixed, w.life, f);
  }

  lemma StoredKeeps(c: StoreConfig, w: World, turn: PendingTurn, bytes: nat, expiry: int)
    requires Inv(c, w) && !w.closed && Normalizable(turn) && Room(c.limits, w.books, turn, bytes)
    ensures Inv(c, Stored(w, turn, bytes, expiry))
  {
    var f := Fixed(turn.calls[0].callId, turn, bytes, expiry);
    var w' := Stored(w, turn, bytes, expiry);
    StoredParts(c, w, f);
    assert w'.books.index == w.books.index + Keyed(Ids(f), f.key);
    StoredBooks(c.limits, w.books, w.fixed, f, |w.fixed|, w'.books.total);
    StoredLeased(w, w', f, Life(Pending, expiry, 0));
    Assemble(c, w');
  }

  lemma NoneIndexed(index: map<string, string>, calls: seq<UpstreamCall>)
    ensures AnyIndexed(index, calls) <==> !(CallIds(calls) !! index.Keys)
  {
    forall i | 0 <= i < |calls|
      ensures calls[i].callId in CallIds(calls)
    {
      InCallIds(calls, calls[i].callId);
    }
    if !(CallIds(calls) !! index.Keys) {
      var id :| id in CallIds(calls) && id in index;
      InCallIds(calls, id);
    }
  }

  /** SaveContext after its cleanup: either the turn is stored as a Pending record
      with the original expiry now + ttl, or nothing changes. */
  lemma SaveCleanOutcome(c: StoreConfig, w: World, turn: PendingTurn, now: int, gates: nat)
    requires Inv(c, w) && !w.closed
    ensures var r := SaveClean(c, w, turn, now, gates);
      && (r.Err? ==> r.world == w)
      && (r.Ok? ==>
            && Normalizable(turn) && c.encode(Normalized(turn), now).Some? && r.value == |w.fixed|
            && Room(c.limits, w.books, Normalized(turn), c.encode(Normalized(turn), now).value)
            && r.world == Stored(w, Normalized(turn), c.encode(Normalized(turn), now).value, Later(now, c.ttl)))
  {
    NoneIndexed(w.books.index, Normalized(turn).calls);
  }

  lemma SaveCleanKeeps(c: StoreConfig, w: World, turn: PendingTurn, now: int, gates: nat)
    requires Inv(c, w) && !w.closed
    ensures Inv(c, SaveClean(c, w, turn, now, gates).world) && !SaveClean(c, w, turn, now, gates).world.closed
  {
    SaveCleanOutcome(c, w, turn, now, gates);
    var r := SaveClean(c, w, turn, now, gates);
    if r.Ok? {
      NormalizedNormal(turn);
      StoredKeeps(c, w, Normalized(turn), c.encode(Normalized(turn), now).value, Later(now, c.ttl));
    }
  }

  lemma SaveKeeps(c: StoreConfig, w: World, turn: PendingTurn, now: int, order: seq<string>, gates: nat)
    requires Inv(c, w)
    ensures Inv(c, Save(c, w, turn, now, order, gates).world)
  {
    SaveOutcome(c, w, turn, now, order, gates, Save(c, w, turn, now, order, gates).world);
  }

  lemma SaveOutcome(c: StoreConfig, w: World, turn: PendingTurn, now: int, order: seq<string>, gates: nat, after: World)
    requires Inv(c, w) && after == Save(c, w, turn, now, order, gates).world
    ensures Inv(c, after)
  {
    if !w.closed {
      CleanupKeeps(c, w, order, now);
      SaveCleanKeeps(c, Cleanup(c, w, order, now), turn, now, gates);
    }
  }

  // ----- looking a call up after a cleanup -----

  /** Nothing retained is past its deadline and every tombstone still counts. */
  ghost predicate Fresh(w: World, now: int)
    requires Shaped(w)
  {
    AllLive(w.books.tombs, now) && forall k :: k in w.books.table ==> now < w.life[w.books.table[k]].deadline
  }

  lemma CleanedFresh(c: StoreConfig, w: World, order: seq<string>, now: int)
    requires Inv(c, w) && !w.closed && IsOrder(order, w.books.table.Keys)
    ensures Fresh(Cleanup(c, w, order, now), now)
  {
    var w' := Cleanup(c, w, order, now);
    CleanupExact(c, w, order, now);
    forall k | k in w'.books.table
      ensures now < w'.life[w'.books.table[k]].deadline
    {
      assert w'.life[w'.books.table[k]] == CleanLife(w, w.books.table[k], now);
    }
  }

  /** The record that retains the call id. */
  function Retains(w: World, id: string): Option<nat> {
    if id in w.books.index && w.books.index[id] in w.books.table then Some(w.books.table[w.books.index[id]]) else None
  }

  /** After a cleanup the expiry branches of recordForCallLocked are dead: it
      changes nothing, and fails exactly for an id that no record retains. */
  lemma RecordForFresh(c: StoreConfig, w: World, id: string, now: int)
    requires Inv(c, w) && !w.closed && Fresh(w, now)
    ensures RecordFor(w, id, now) ==
      if Retains(w, id).Some? then Ok(w, Retains(w, id).value)
      else if id in w.books.tombs then Err(w, ExpiredTurn) else Err(w, Unknown)
  {
    if id in w.books.index {
      var key := w.books.index[id];
      assert key in w.books.table;
      HeldHere(c, w, key);
      assert now < w.life[w.books.table[key]].deadline;
    }
  }

  lemma LookupKeeps(c: StoreConfig, w: World, id: string, now: int, order: seq<string>)
    requires Inv(c, w) && IsOrder(order, w.books.table.Keys)
    ensures Lookup(c, w, id, now, order).world == if w.closed then w else Cleanup(c, w, order, now)
    ensures Inv(c, Lookup(c, w, id, now, order).world)
  {
    if !w.closed {
      CleanupKeeps(c, w, order, now);
      CleanedFresh(c, w, order, now);
      RecordForFresh(c, Cleanup(c, w, order, now), id, now);
    }
  }

  // ----- finishing a lease -----

  /** Marking a lease done whose record is no longer being consumed. */
  lemma DoneKeeps(c: StoreConfig, w: World, l: nat)
    requires Inv(c, w) && l < |w.leases| && (w.closed || w.life[w.leases[l].record].status != Consuming)
    ensures Inv(c, Finished(w, l))
  {
    var w' := Finished(w, l);
    if !w.closed {
      assert forall r :: Holds(w', r) <==> Holds(w, r);
      forall r | 0 <= r < |w.fixed| && w.life[r].status == Consuming
        ensures exists m :: Unfinished(w', m, r)
      {
        var m :| Unfinished(w, m, r);
        assert Unfinished(w', m, r);
      }
    }
  }

  /** Ending an unfinished lease by settling its record. */
  lemma SettleLeased(w: World, l: nat, next: Life)
    requires Shaped(w) && Leased(w) && l < |w.leases| && !w.leases[l].done
    requires next.status == Pending || next.status == Consumed
    requires w.life[w.leases[l].record].status == Consuming
    ensures Leased(Finished(Live(w, w.leases[l].record, next), l))
  {
    var w' := Finished(Live(w, w.leases[l].record, next), l);
    assert forall r :: Holds(w', r) <==> Holds(w, r);
    forall r | 0 <= r < |w.fixed| && w'.life[r].status == Consuming
      ensures exists m :: Unfinished(w', m, r)
    {
      var m :| Unfinished(w, m, r);
      assert Unfinished(w', m, r);
    }
  }

  lemma SettleKeeps(c: StoreConfig, w: World, l: nat, next: Life)
    requires Inv(c, w) && !w.closed && l < |w.leases| && !w.leases[l].done
    requires next.status == Pending || next.status == Consumed
    requires w.life[w.leases[l].record].status == Consuming
    requires Timely(c, w.fixed[w.leases[l].record], next) && Once(next)
    ensures Inv(c, Finished(Live(w, w.leases[l].record, next), l))
  {
    var w' := Finished(Live(w, w.leases[l].record, next), l);
    LivelyUpdate(c, w.fixed, w.life, w.leases[l].record, next);
    SettleLeased(w, l, next);
    Assemble(c, w');
  }

  /** An unfinished lease of an open store: its record has expired, or it is
      being consumed and still the record its key finds. */
  lemma OpenLease(c: StoreConfig, w: World, l: nat)
    requires Inv(c, w) && !w.closed && l < |w.leases| && !w.leases[l].done
    ensures var r := w.leases[l].record;
      w.life[r].status == Expired || (w.life[r].status == Consuming && Holds(w, r))
  {
    assert Owned(w.life[w.leases[l].record].status);
  }

  lemma ReclaimKeeps(c: StoreConfig, w: World, l: nat, now: int)
    requires Inv(c, w) && !w.closed && l < |w.leases| && !w.leases[l].done
    requires w.life[w.leases[l].record].status == Consuming
    ensures Inv(c, Finished(ExpireRecord(c, w, w.leases[l].record, now), l))
  {
    OpenLease(c, w, l);
    ExpireKeeps(c, w, w.leases[l].record, now);
    DoneKeeps(c, ExpireRecord(c, w, w.leases[l].record, now), l);
  }

  /** What finishRecord leaves behind, by the record's state. */
  lemma FinishRecordIs(c: StoreConfig, w: World, l: nat, commit: bool, now: int)
    requires Shaped(w) && l < |w.leases|
    ensures var r, after := w.leases[l].record, FinishRecord(c, w, l, commit, now).world;
      if w.life[r].status != Consuming then after == Finished(w, l)
      else if now >= w.life[r].deadline || (!commit && now >= w.fixed[r].expiry) then
        after == Finished(ExpireRecord(c, w, r, now), l)
      else after == Finished(Live(w, r, Settled(c, w, r, commit, now)), l)
  {
  }

  function Settled(c: StoreConfig, w: World, r: nat, commit: bool, now: int): Life
    requires Shaped(w) && r < |w.fixed|
  {
    if commit then Life(Consumed, Later(now, c.grace), w.life[r].commits + 1)
    else w.life[r].(status := Pending, deadline := w.fixed[r].expiry)
  }

  lemma SettledKeeps(c: StoreConfig, w: World, l: nat, commit: bool, now: int)
    requires Inv(c, w) && !w.closed && l < |w.leases| && !w.leases[l].done
    requires var r := w.leases[l].record;
      w.life[r].status == Consuming && now < w.life[r].deadline && (commit || now < w.fixed[r].expiry)
    ensures Inv(c, Finished(Live(w, w.leases[l].record, Settled(c, w, w.leases[l].record, commit, now)), l))
  {
    var next := Settled(c, w, w.leases[l].record, commit, now);
    SettleKeeps(c, w, l, next);
  }

  lemma FinishRecordKeeps(c: StoreConfig, w: World, l: nat, commit: bool, now: int)
    requires Inv(c, w) && !w.closed && l < |w.leases| && !w.leases[l].done
    ensures Inv(c, FinishRecord(c, w, l, commit, now).world)
  {
    var r, after := w.leases[l].record, FinishRecord(c, w, l, commit, now).world;
    FinishRecordIs(c, w, l, commit, now);
    OpenLease(c, w, l);
    if w.life[r].status != Consuming {
      DoneKeeps(c, w, l);
      Same(c, Finished(w, l), after);
    } else if now >= w.life[r].deadline || (!commit && now >= w.fixed[r].expiry) {
      ReclaimKeeps(c, w, l, now);
      Same(c, Finished(ExpireRecord(c, w, r, now), l), after);
    } else {
      SettledKeeps(c, w, l, commit, now);
      Same(c, Finished(Live(w, r, Settled(c, w, r, commit, now)), l), after);
    }
  }

  lemma Same(c: StoreConfig, a: World, b: World)
    requires Inv(c, a) && a == b
    ensures Inv(c, b)
  {
  }

  lemma FinishKeeps(c: StoreConfig, w: World, l: nat, commit: bool, now: int, gates: nat)
    requires Inv(c, w) && l < |w.leases|
    ensures Inv(c, Finish(c, w, l, commit, now, gates).world)
  {
    var after := Finish(c, w, l, commit, now, gates).world;
    if w.leases[l].done || gates <= 0 {
      Same(c, w, after);
    } else if w.closed {
      DoneKeeps(c, w, l);
      Same(c, Finished(w, l), after);
    } else if gates <= 1 {
      Same(c, w, after);
    } else {
      FinishRecordKeeps(c, w, l, commit, now);
      Same(c, FinishRecord(c, w, l, commit, now).world, after);
    }
  }

  lemma CloseKeeps(c: StoreConfig, w: World)
    requires Inv(c, w)
    ensures Inv(c, Close(w))
  {
    assert Sizes(map[], w.fixed) == map[];
  }
}
