/** Cleanup: exactly the records past their deadline go, whatever the map order. */
module ContinuationSweep {
  import opened Bridge
  import opened ContinuationSpec
  import opened ContinuationSafety

  /** The record found under key is past its deadline. */
  predicate Overdue(w: World, key: string, now: int)
    requires Shaped(w)
  {
    key in w.books.table && now >= w.life[w.books.table[key]].deadline
  }

  ghost function OverdueKeys(w: World, keys: seq<string>, now: int): set<string>
    requires Shaped(w)
  {
    set k | k in keys && Overdue(w, k, now)
  }

  /** The life of record r once the records of keys have been swept. */
  function SweptLife(w: World, r: nat, keys: seq<string>, now: int): Life
    requires Shaped(w) && r < |w.fixed|
  {
    if Holds(w, r) && w.fixed[r].key in keys && now >= w.life[r].deadline && Waiting(w.life[r].status)
    then w.life[r].(status := Expired) else w.life[r]
  }

  /** Exactly the overdue records of keys are gone from w, and nothing else changed. */
  ghost predicate Swept(w: World, keys: seq<string>, now: int, w': World)
    requires Shaped(w)
  {
    && w'.fixed == w.fixed && w'.leases == w.leases && w'.closed == w.closed
    && w'.books.table == w.books.table - OverdueKeys(w, keys, now)
    && |w'.life| == |w.life|
    && forall r :: 0 <= r < |w.fixed| ==> w'.life[r] == SweptLife(w, r, keys, now)
  }

  // ----- one key -----

  lemma SweepKeyCases(c: StoreConfig, w: World, key: string, now: int)
    requires Shaped(w) && (key in w.books.table ==> w.life[w.books.table[key]].status != Expired)
    ensures !Overdue(w, key, now) ==> SweepKey(c, w, key, now) == w
    ensures Overdue(w, key, now) && Waiting(w.life[w.books.table[key]].status) ==>
      SweepKey(c, w, key, now) == ExpireRecord(c, w, w.books.table[key], now)
    ensures Overdue(w, key, now) && w.life[w.books.table[key]].status == Consumed ==>
      SweepKey(c, w, key, now) == w.(books := Removed(w.books, w.fixed[w.books.table[key]]))
  {
  }

  lemma HeldHere(c: StoreConfig, w: World, key: string)
    requires Inv(c, w) && !w.closed && key in w.books.table
    ensures Holds(w, w.books.table[key]) && w.fixed[w.books.table[key]].key == key
    ensures w.life[w.books.table[key]].status != Expired
  {
    assert Holds(w, w.books.table[key]);
  }

  lemma SweepKeyKeeps(c: StoreConfig, w: World, key: string, now: int)
    requires Inv(c, w) && !w.closed
    ensures Inv(c, SweepKey(c, w, key, now))
  {
    if Overdue(w, key, now) {
      var r := w.books.table[key];
      HeldHere(c, w, key);
      SweepKeyCases(c, w, key, now);
      if w.life[r].status == Consumed {
        DropKeeps(c, w, r);
      } else {
        ExpireKeeps(c, w, r, now);
      }
    }
  }

  /** What sweeping one key does. */
  ghost predicate SweptKey(w: World, key: string, now: int, w': World)
    requires Shaped(w)
  {
    && w'.fixed == w.fixed && w'.leases == w.leases && w'.closed == w.closed
    && w'.books.table == (if Overdue(w, key, now) then w.books.table - {key} else w.books.table)
    && w'.life == (if Overdue(w, key, now) && Waiting(w.life[w.books.table[key]].status)
                   then w.life[w.books.table[key] := w.life[w.books.table[key]].(status := Expired)] else w.life)
  }

  lemma SweepKeyExact(c: StoreConfig, w: World, key: string, now: int)
    requires Inv(c, w) && !w.closed
    ensures SweptKey(w, key, now, SweepKey(c, w, key, now))
  {
    if key in w.books.table {
      HeldHere(c, w, key);
      SweepKeyOf(c, w, key, now);
    }
  }

  lemma SweepKeyOf(c: StoreConfig, w: World, key: string, now: int)
    requires Shaped(w) && key in w.books.table && w.fixed[w.books.table[key]].key == key
    requires w.life[w.books.table[key]].status != Expired
    ensures SweptKey(w, key, now, SweepKey(c, w, key, now))
  {
    SweepKeyCases(c, w, key, now);
  }

  // ----- the whole map -----

  lemma {:induction false} SweepKeeps(c: StoreConfig, w: World, order: seq<string>, now: int)
    requires Inv(c, w) && !w.closed
    ensures Inv(c, Sweep(c, w, order, now)) && !Sweep(c, w, order, now).closed
    decreases |order|
  {
    if order != [] {
      var n := |order| - 1;
      var front := Sweep(c, w, order[..n], now);
      SweepKeeps(c, w, order[..n], now);
      SweepKeyKeeps(c, front, order[n], now);
      SweepKeyExact(c, front, order[n], now);
    }
  }

  lemma SweptTable(w: World, keys: seq<string>, key: string, now: int, front: World, w': World)
    requires Shaped(w) && Inverse(w.books.table, w.books.index, w.fixed) && key !in keys
    requires Shaped(front) && Swept(w, keys, now, front) && SweptKey(front, key, now, w')
    ensures w'.books.table == w.books.table - OverdueKeys(w, keys + [key], now)
  {
    Untouched(w, keys, key, now, front);
  }

  /** Sweeping other keys leaves this one and its record alone. */
  lemma Untouched(w: World, keys: seq<string>, key: string, now: int, front: World)
    requires Shaped(w) && Inverse(w.books.table, w.books.index, w.fixed) && key !in keys
    requires Shaped(front) && Swept(w, keys, now, front)
    ensures key in front.books.table <==> key in w.books.table
    ensures key in w.books.table ==> front.books.table[key] == w.books.table[key]
    ensures key in w.books.table ==> front.life[w.books.table[key]] == w.life[w.books.table[key]]
    ensures Overdue(front, key, now) <==> Overdue(w, key, now)
  {
    if key in w.books.table {
      var r := w.books.table[key];
      assert front.life[r] == SweptLife(w, r, keys, now);
    }
  }

  lemma SweptLives(w: World, keys: seq<string>, key: string, now: int, front: World, w': World, r: nat)
    requires Shaped(w) && Inverse(w.books.table, w.books.index, w.fixed) && key !in keys
    requires Shaped(front) && Swept(w, keys, now, front) && SweptKey(front, key, now, w') && r < |w.fixed|
    ensures |w'.life| == |w.life| && w'.life[r] == SweptLife(w, r, keys + [key], now)
  {
    Untouched(w, keys, key, now, front);
    assert front.life[r] == SweptLife(w, r, keys, now);
    assert w.fixed[r].key in keys + [key] <==> w.fixed[r].key in keys || w.fixed[r].key == key;
  }

  lemma SweptOneMore(w: World, keys: seq<string>, key: string, now: int, front: World, w': World)
    requires Shaped(w) && Inverse(w.books.table, w.books.index, w.fixed) && key !in keys
    requires Shaped(front) && Swept(w, keys, now, front) && SweptKey(front, key, now, w')
    ensures Swept(w, keys + [key], now, w')
  {
    SweptTable(w, keys, key, now, front, w');
    forall r | 0 <= r < |w.fixed|
      ensures |w'.life| == |w.life| && w'.life[r] == SweptLife(w, r, keys + [key], now)
    {
      SweptLives(w, keys, key, now, front, w', r);
    }
  }

  predicate Distinct(keys: seq<string>) {
    forall i, j :: 0 <= i < j < |keys| ==> keys[i] != keys[j]
  }

  lemma SweepStep(c: StoreConfig, w: World, keys: seq<string>, key: string, now: int)
    requires Shaped(w)
    ensures Sweep(c, w, keys + [key], now) == SweepKey(c, Sweep(c, w, keys, now), key, now)
  {
    assert (keys + [key])[..|keys|] == keys;
  }

  lemma DistinctInit(keys: seq<string>, key: string)
    requires Distinct(keys + [key])
    ensures Distinct(keys) && key !in keys
  {
    var all := keys + [key];
    assert forall i :: 0 <= i < |keys| ==> all[i] == keys[i];
    assert all[|keys|] == key;
  }

  lemma SweepExactLast(c: StoreConfig, w: World, keys: seq<string>, key: string, now: int, front: World)
    requires Inv(c, w) && Inv(c, front) && !front.closed && key !in keys
    requires Swept(w, keys, now, front)
    ensures Swept(w, keys + [key], now, SweepKey(c, front, key, now))
  {
    SweepKeyExact(c, front, key, now);
    SweptOneMore(w, keys, key, now, front, SweepKey(c, front, key, now));
  }

  lemma SweptNothing(w: World, now: int)
    requires Shaped(w)
    ensures Swept(w, [], now, w)
  {
    assert w.books.table - {} == w.books.table;
  }

  lemma {:induction false} SweepExact(c: StoreConfig, w: World, order: seq<string>, now: int)
    requires Inv(c, w) && !w.closed && Distinct(order)
    ensures Swept(w, order, now, Sweep(c, w, order, now))
    decreases |order|
  {
    if order == [] {
      SweptNothing(w, now);
    } else {
      var keys, key := order[..|order| - 1], order[|order| - 1];
      assert order == keys + [key];
      DistinctInit(keys, key);
      SweepExact(c, w, keys, now);
      SweepKeeps(c, w, keys, now);
      SweepExactLast(c, w, keys, key, now, Sweep(c, w, keys, now));
      SweepStep(c, w, keys, key, now);
    }
  }

  // ----- tombstones -----

  predicate AllLive(tombs: map<string, int>, now: int) {
    forall id :: id in tombs ==> now < tombs[id]
  }

  lemma SweepKeyLive(c: StoreConfig, w: World, key: string, now: int)
    requires Shaped(w) && AllLive(w.books.tombs, now) && c.grace > 0
    ensures AllLive(SweepKey(c, w, key, now).books.tombs, now)
  {
    if key in w.books.table {
      var calls, until := w.fixed[w.books.table[key]].turn.calls, Later(now, c.grace);
      var tombs := Tombstoned(w.books.tombs, calls, until, c.limits.tombs);
      forall id | id in tombs
        ensures now < tombs[id]
      {
        TombstonedUntil(w.books.tombs, calls, until, c.limits.tombs, id);
      }
    }
  }

  lemma {:induction false} SweepLive(c: StoreConfig, w: World, order: seq<string>, now: int)
    requires Shaped(w) && AllLive(w.books.tombs, now) && c.grace > 0
    ensures AllLive(Sweep(c, w, order, now).books.tombs, now)
    decreases |order|
  {
    if order != [] {
      var n := |order| - 1;
      SweepLive(c, w, order[..n], now);
      SweepKeyLive(c, Sweep(c, w, order[..n], now), order[n], now);
    }
  }

  /** The call belongs to a record that a cleanup at now expires. */
  predicate Lost(w: World, now: int, id: string)
    requires Shaped(w)
  {
    id in w.books.index && Expires(w, w.books.index[id], now)
  }

  predicate Expires(w: World, key: string, now: int)
    requires Shaped(w)
  {
    Overdue(w, key, now) && Waiting(w.life[w.books.table[key]].status)
  }

  /** The lost calls of the records of keys. */
  function LostIds(w: World, keys: seq<string>, now: int): set<string>
    requires Shaped(w)
  {
    set id | id in w.books.index && Lost(w, now, id) && w.books.index[id] in keys
  }

  /** The tombstones once the lost calls have been buried: the old ones stay, new ones
      are for lost calls, and a lost call goes without one only in a full map. */
  ghost predicate Buried(before: map<string, int>, lost: set<string>, until: int, limit: nat, tombs: map<string, int>) {
    && (forall id :: id in before ==> id in tombs && tombs[id] == before[id])
    && (forall id :: id in tombs && id !in before ==> tombs[id] == until && id in lost)
    && (forall id :: id in lost ==> id in tombs || |tombs| == limit)
  }

  /** The calls of one more record, none of which has a tombstone yet. */
  lemma BuriedMore(before: map<string, int>, lost: set<string>, until: int, limit: nat, tombs: map<string, int>,
                   calls: seq<UpstreamCall>)
    requires Buried(before, lost, until, limit, tombs) && |tombs| <= limit && CallIds(calls) !! tombs.Keys
    ensures Buried(before, lost + CallIds(calls), until, limit, Tombstoned(tombs, calls, until, limit))
  {
    var after := Tombstoned(tombs, calls, until, limit);
    TombstonedKeys(tombs, calls, until, limit);
    SubsetSize(tombs.Keys, after.Keys);
    assert |tombs| == |tombs.Keys| && |after| == |after.Keys|;
    forall id | id in tombs
      ensures id in after && after[id] == tombs[id]
    {
      TombstonedOthers(tombs, calls, until, limit, id);
    }
    forall id | id in CallIds(calls)
      ensures if id in after then after[id] == until else |after| == limit
    {
      TombstonedOrFull(tombs, calls, until, limit, id);
    }
  }

  lemma LostMore(w: World, keys: seq<string>, key: string, now: int)
    requires Shaped(w) && Inverse(w.books.table, w.books.index, w.fixed)
    ensures LostIds(w, keys + [key], now) ==
      LostIds(w, keys, now) + if Expires(w, key, now) then Ids(w.fixed[w.books.table[key]]) else {}
  {
    var more := keys + [key];
    assert forall k :: k in more <==> k in keys || k == key;
  }

  /** What sweeping one key does to the tombstones. */
  lemma SweepKeyBuries(c: StoreConfig, w: World, key: string, now: int)
    requires Inv(c, w) && !w.closed
    ensures SweepKey(c, w, key, now).books.tombs ==
      if Expires(w, key, now)
      then Tombstoned(w.books.tombs, w.fixed[w.books.table[key]].turn.calls, Later(now, c.grace), c.limits.tombs)
      else w.books.tombs
  {
    if key in w.books.table {
      HeldHere(c, w, key);
      SweepKeyTombs(c, w, key, now);
    }
  }

  lemma SweepKeyTombs(c: StoreConfig, w: World, key: string, now: int)
    requires Shaped(w) && key in w.books.table && w.fixed[w.books.table[key]].key == key
    requires w.life[w.books.table[key]].status != Expired
    ensures SweepKey(c, w, key, now).books.tombs ==
      if Expires(w, key, now)
      then Tombstoned(w.books.tombs, w.fixed[w.books.table[key]].turn.calls, Later(now, c.grace), c.limits.tombs)
      else w.books.tombs
  {
    SweepKeyCases(c, w, key, now);
  }

  lemma BuriedLast(c: StoreConfig, w: World, order: seq<string>, keys: seq<string>, key: string, now: int, front: World,
                   after: World)
    requires Inv(c, w) && Inv(c, front) && !w.closed && !front.closed && key !in keys && Swept(w, keys, now, front)
    requires Buried(w.books.tombs, LostIds(w, keys, now), Later(now, c.grace), c.limits.tombs, front.books.tombs)
    requires order == keys + [key] && after == SweepKey(c, front, key, now)
    ensures Buried(w.books.tombs, LostIds(w, order, now), Later(now, c.grace), c.limits.tombs, after.books.tombs)
  {
    Untouched(w, keys, key, now, front);
    SweepKeyBuries(c, front, key, now);
    LostMore(w, keys, key, now);
    if Expires(w, key, now) {
      NotBuried(c, front, key);
      BuriedMore(w.books.tombs, LostIds(w, keys, now), Later(now, c.grace), c.limits.tombs, front.books.tombs,
        w.fixed[w.books.table[key]].turn.calls);
    }
  }

  /** The calls of a retained record are indexed, and so without tombstones. */
  lemma NotBuried(c: StoreConfig, w: World, key: string)
    requires Inv(c, w) && key in w.books.table
    ensures Ids(w.fixed[w.books.table[key]]) !! w.books.tombs.Keys && |w.books.tombs| <= c.limits.tombs
  {
    IndexedIds(w, key);
  }

  lemma IndexedIds(w: World, key: string)
    requires Shaped(w) && Inverse(w.books.table, w.books.index, w.fixed) && key in w.books.table
    ensures Ids(w.fixed[w.books.table[key]]) <= w.books.index.Keys
  {
  }

  lemma BuriedNothing(w: World, now: int, until: int, limit: nat)
    requires Shaped(w)
    ensures Buried(w.books.tombs, LostIds(w, [], now), until, limit, w.books.tombs)
  {
  }

  lemma {:induction false} SweepBuries(c: StoreConfig, w: World, order: seq<string>, now: int)
    requires Inv(c, w) && !w.closed && Distinct(order)
    ensures Buried(w.books.tombs, LostIds(w, order, now), Later(now, c.grace), c.limits.tombs,
      Sweep(c, w, order, now).books.tombs)
    decreases |order|
  {
    if order == [] {
      BuriedNothing(w, now, Later(now, c.grace), c.limits.tombs);
    } else {
      var keys, key := order[..|order| - 1], order[|order| - 1];
      assert order == keys + [key];
      DistinctInit(keys, key);
      SweepExact(c, w, keys, now);
      SweepKeeps(c, w, keys, now);
      SweepBuries(c, w, keys, now);
      SweepStep(c, w, keys, key, now);
      BuriedLast(c, w, order, keys, key, now, Sweep(c, w, keys, now), Sweep(c, w, order, now));
    }
  }

  lemma LiveTombsKeep(limits: Limits, tombs: map<string, int>, index: map<string, string>, now: int)
    requires Tombs(limits, tombs, index)
    ensures Tombs(limits, LiveTombs(tombs, now), index)
  {
    var live := LiveTombs(tombs, now);
    SubsetSize(live.Keys, tombs.Keys);
    assert |live| == |live.Keys| && |tombs| == |tombs.Keys|;
  }

  lemma LiveKeeps(c: StoreConfig, w: World, now: int)
    requires Inv(c, w) && !w.closed
    ensures Inv(c, w.(books := w.books.(tombs := LiveTombs(w.books.tombs, now))))
  {
    var w' := w.(books := w.books.(tombs := LiveTombs(w.books.tombs, now)));
    LiveTombsKeep(c.limits, w.books.tombs, w.books.index, now);
    SameLeases(w, w');
    Assemble(c, w');
  }

  lemma SameLeases(w: World, w': World)
    requires Shaped(w) && Leased(w) && w'.books.table == w.books.table
    requires w'.fixed == w.fixed && w'.life == w.life && w'.leases == w.leases
    ensures Shaped(w') && Leased(w')
  {
    assert forall r :: Holds(w', r) <==> Holds(w, r);
    assert forall l, r :: Unfinished(w', l, r) <==> Unfinished(w, l, r);
  }

  // ----- cleanup -----

  /** w' is w after a cleanup at now: every record past its deadline is gone and
      unconsumed ones are Expired; exactly the tombstones that still count are left,
      and beside them those of the expired calls, as long as there was room. */
  ghost predicate Cleaned(c: StoreConfig, w: World, now: int, w': World)
    requires Shaped(w)
  {
    && w'.fixed == w.fixed && w'.leases == w.leases && w'.closed == w.closed
    && w'.books.table == (map k | k in w.books.table && !Overdue(w, k, now) :: w.books.table[k])
    && |w'.life| == |w.life|
    && (forall r :: 0 <= r < |w.fixed| ==> w'.life[r] == CleanLife(w, r, now))
    && AllLive(w'.books.tombs, now)
    && Buried(LiveTombs(w.books.tombs, now), LostNow(w, now), Later(now, c.grace), c.limits.tombs, w'.books.tombs)
  }

  /** The calls of all records that a cleanup at now expires. */
  function LostNow(w: World, now: int): set<string>
    requires Shaped(w)
  {
    set id | id in w.books.index && Lost(w, now, id)
  }

  function CleanLife(w: World, r: nat, now: int): Life
    requires Shaped(w) && r < |w.fixed|
  {
    if Holds(w, r) && now >= w.life[r].deadline && Waiting(w.life[r].status)
    then w.life[r].(status := Expired) else w.life[r]
  }

  lemma CleanupKeeps(c: StoreConfig, w: World, order: seq<string>, now: int)
    requires Inv(c, w) && !w.closed
    ensures Inv(c, Cleanup(c, w, order, now)) && !Cleanup(c, w, order, now).closed
  {
    LiveKeeps(c, w, now);
    SweepKeeps(c, w.(books := w.books.(tombs := LiveTombs(w.books.tombs, now))), order, now);
  }

  /** What a cleanup does, whatever the order in which the map is walked; only which
      expired calls go without a tombstone in a full map depends on it. */
  lemma CleanupExact(c: StoreConfig, w: World, order: seq<string>, now: int)
    requires Inv(c, w) && !w.closed && IsOrder(order, w.books.table.Keys)
    ensures Cleaned(c, w, now, Cleanup(c, w, order, now))
  {
    var live := w.(books := w.books.(tombs := LiveTombs(w.books.tombs, now)));
    LiveKeeps(c, w, now);
    SweepExact(c, live, order, now);
    SweepLive(c, live, order, now);
    SweepBuries(c, live, order, now);
    SweptIsCleaned(c, w, live, order, now, Cleanup(c, w, order, now));
  }

  lemma LostAll(w: World, live: World, order: seq<string>, now: int)
    requires Shaped(w) && live == w.(books := w.books.(tombs := live.books.tombs))
    requires Inverse(w.books.table, w.books.index, w.fixed) && IsOrder(order, w.books.table.Keys)
    ensures LostIds(live, order, now) == LostNow(w, now)
  {
    assert forall id :: id in w.books.index ==> (Lost(live, now, id) <==> Lost(w, now, id));
    assert forall id :: id in w.books.index ==> w.books.index[id] in order;
  }

  lemma SweptTableIs(w: World, live: World, order: seq<string>, now: int, w': World)
    requires Shaped(w) && live == w.(books := w.books.(tombs := live.books.tombs))
    requires IsOrder(order, w.books.table.Keys) && Swept(live, order, now, w')
    ensures w'.books.table == map k | k in w.books.table && !Overdue(w, k, now) :: w.books.table[k]
  {
    assert OverdueKeys(live, order, now) == set k | k in w.books.table && Overdue(w, k, now);
  }

  lemma SweptLifeIs(w: World, live: World, order: seq<string>, now: int, w': World, r: nat)
    requires Shaped(w) && live == w.(books := w.books.(tombs := live.books.tombs)) && r < |w.fixed|
    requires IsOrder(order, w.books.table.Keys) && Swept(live, order, now, w')
    ensures |w'.life| == |w.life| && w'.life[r] == CleanLife(w, r, now)
  {
    assert Holds(live, r) <==> Holds(w, r);
    assert w'.life[r] == SweptLife(live, r, order, now);
  }

  lemma SweptIsCleaned(c: StoreConfig, w: World, live: World, order: seq<string>, now: int, w': World)
    requires Shaped(w) && live == w.(books := w.books.(tombs := LiveTombs(w.books.tombs, now)))
    requires Inverse(w.books.table, w.books.index, w.fixed)
    requires IsOrder(order, w.books.table.Keys) && Swept(live, order, now, w') && AllLive(w'.books.tombs, now)
    requires Buried(live.books.tombs, LostIds(live, order, now), Later(now, c.grace), c.limits.tombs, w'.books.tombs)
    ensures Cleaned(c, w, now, w')
  {
    LostAll(w, live, order, now);
    SweptTableIs(w, live, order, now, w');
    forall r | 0 <= r < |w.fixed|
      ensures |w'.life| == |w.life| && w'.life[r] == CleanLife(w, r, now)
    {
      SweptLifeIs(w, live, order, now, w', r);
    }
  }
}
