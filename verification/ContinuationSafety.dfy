/** What every step of the continuation store keeps. */
module ContinuationSafety {
  import opened Bridge
  import opened Sums
  import opened ContinuationSpec

  // ----- the invariant -----

  function Ids(f: Fixed): set<string> {
    CallIds(f.turn.calls)
  }

  /** The record is the one its key finds. */
  predicate Holds(w: World, r: nat) {
    r < |w.fixed| && w.fixed[r].key in w.books.table && w.books.table[w.fixed[r].key] == r
  }

  /** The index is exactly the inverse of the records' call ids. */
  ghost predicate Inverse(table: map<string, nat>, index: map<string, string>, fixed: seq<Fixed>) {
    && (forall k :: k in table ==> table[k] < |fixed| && fixed[table[k]].key == k && k in Ids(fixed[table[k]]))
    && (forall id :: id in index ==> index[id] in table && id in Ids(fixed[table[index[id]]]))
    && (forall k, id :: k in table && id in Ids(fixed[table[k]]) ==> id in index && index[id] == k)
  }

  function Sizes(table: map<string, nat>, fixed: seq<Fixed>): map<string, nat> {
    map k | k in table && table[k] < |fixed| :: fixed[table[k]].bytes
  }

  /** The byte total is the sum of the record sizes, and every limit holds. */
  ghost predicate Accounted(limits: Limits, table: map<string, nat>, total: int, fixed: seq<Fixed>) {
    && total == Sum(Sizes(table, fixed)) && total <= limits.bytes && |table| <= limits.records
    && forall k :: k in table ==> table[k] < |fixed| && fixed[table[k]].bytes <= limits.recordBytes
  }

  /** No retained id has a tombstone. */
  predicate Tombs(limits: Limits, tombs: map<string, int>, index: map<string, string>) {
    |tombs| <= limits.tombs && tombs.Keys !! index.Keys
  }

  ghost predicate Bookkept(limits: Limits, b: Books, fixed: seq<Fixed>) {
    Inverse(b.table, b.index, fixed) && Accounted(limits, b.table, b.total, fixed) && Tombs(limits, b.tombs, b.index)
  }

  /** No deadline passes the original expiry by more than a lease and a grace
      period, and a Pending record waits for exactly its original expiry. */
  predicate Timely(c: StoreConfig, f: Fixed, life: Life) {
    && life.deadline < f.expiry + c.leaseTtl + c.grace
    && (life.status == Pending ==> life.deadline == f.expiry)
    && (life.status == Consuming ==> life.deadline < f.expiry + c.leaseTtl)
  }

  predicate Once(life: Life) {
    life.commits <= 1 && (life.commits == 1 <==> life.status == Consumed)
  }

  predicate Lively(c: StoreConfig, fixed: seq<Fixed>, life: seq<Life>) {
    |life| == |fixed| && forall r :: 0 <= r < |fixed| ==>
      Timely(c, fixed[r], life[r]) && Once(life[r]) && Normalizable(fixed[r].turn)
  }

  predicate Unfinished(w: World, l: nat, r: nat) {
    l < |w.leases| && !w.leases[l].done && w.leases[l].record == r
  }

  /** An open store holds every Pending and Consuming record by identity; a
      Consuming record has exactly one unfinished lease, a Pending one has none,
      and no Expired record is held. */
  ghost predicate Leased(w: World)
    requires Shaped(w)
  {
    && (forall l, m :: 0 <= l < m < |w.leases| && !w.leases[l].done && !w.leases[m].done ==>
          w.leases[l].record != w.leases[m].record)
    && (forall l :: 0 <= l < |w.leases| && !w.leases[l].done ==> Owned(w.life[w.leases[l].record].status))
    && (forall r :: 0 <= r < |w.fixed| && Waiting(w.life[r].status) ==> Holds(w, r))
    && (forall r :: 0 <= r < |w.fixed| && w.life[r].status == Consuming ==> exists l :: Unfinished(w, l, r))
    && (forall r :: 0 <= r < |w.fixed| && Holds(w, r) ==> w.life[r].status != Expired)
  }

  predicate Owned(s: Status) {
    s == Consuming || s == Expired
  }

  predicate Waiting(s: Status) {
    s == Pending || s == Consuming
  }

  ghost predicate Inv(c: StoreConfig, w: World) {
    && ConfigValid(c) && Shaped(w) && Lively(c, w.fixed, w.life)
    && Bookkept(c.limits, w.books, w.fixed)
    && (w.closed ==> w.books == EMPTY_BOOKS)
    && (!w.closed ==> Leased(w))
  }

  lemma NewWorldInv(c: StoreConfig)
    requires ConfigValid(c)
    ensures Inv(c, NEW_WORLD)
  {
    assert Sizes(map[], []) == map[];
  }

  // ----- calls -----

  lemma {:induction false} InCallIds(calls: seq<UpstreamCall>, id: string)
    ensures id in CallIds(calls) <==> exists i :: 0 <= i < |calls| && calls[i].callId == id
  {
    if calls != [] {
      var n := |calls| - 1;
      InCallIds(calls[..n], id);
      assert forall i :: 0 <= i < n ==> calls[..n][i] == calls[i];
      if id in CallIds(calls[..n]) {
        var i :| 0 <= i < n && calls[..n][i].callId == id;
        assert calls[i].callId == id;
      }
    }
  }

  lemma {:induction false} CallIdsCount(calls: seq<UpstreamCall>)
    requires forall i, j :: 0 <= i < j < |calls| ==> calls[i].callId != calls[j].callId
    ensures |CallIds(calls)| == |calls|
  {
    if calls != [] {
      var n := |calls| - 1;
      CallIdsCount(calls[..n]);
      InCallIds(calls[..n], calls[n].callId);
    }
  }

  lemma {:induction false} CallIdsNamed(calls: seq<UpstreamCall>)
    ensures CallIds(NamedCalls(calls)) == CallIds(calls)
  {
    if calls != [] {
      var n := |calls| - 1;
      CallIdsNamed(calls[..n]);
      assert NamedCalls(calls)[..n] == NamedCalls(calls[..n]);
    }
  }

  // ----- removal -----

  lemma RemovedInverse(table: map<string, nat>, index: map<string, string>, fixed: seq<Fixed>, key: string)
    requires Inverse(table, index, fixed) && key in table
    ensures Inverse(table - {key}, index - Ids(fixed[table[key]]), fixed)
  {
    var left := table - {key};
    forall k, id | k in left && id in Ids(fixed[left[k]])
      ensures id in index && id !in Ids(fixed[table[key]]) && index[id] == k
    {
      assert id in index && index[id] == k;
    }
  }

  lemma SizesRemove(table: map<string, nat>, fixed: seq<Fixed>, key: string)
    requires key in table && table[key] < |fixed|
    ensures Sum(Sizes(table, fixed)) == fixed[table[key]].bytes + Sum(Sizes(table - {key}, fixed))
  {
    SumRemove(Sizes(table, fixed), key);
    assert Sizes(table, fixed) - {key} == Sizes(table - {key}, fixed);
  }

  lemma FewerKeys<K, V>(m: map<K, V>, key: K)
    requires key in m
    ensures |m - {key}| == |m| - 1
  {
    assert (m - {key}).Keys == m.Keys - {key};
    assert |m| == |m.Keys| && |m - {key}| == |(m - {key}).Keys|;
  }

  lemma RemovedAccounted(limits: Limits, table: map<string, nat>, total: int, fixed: seq<Fixed>, key: string)
    requires Accounted(limits, table, total, fixed) && key in table
    ensures Accounted(limits, table - {key}, total - fixed[table[key]].bytes, fixed)
  {
    SizesRemove(table, fixed, key);
    FewerKeys(table, key);
  }

  /** The negative clamp of removeLocked never applies to a held record. */
  lemma RemovedExactly(limits: Limits, b: Books, fixed: seq<Fixed>, key: string)
    requires Inverse(b.table, b.index, fixed) && Accounted(limits, b.table, b.total, fixed) && key in b.table
    ensures Removed(b, fixed[b.table[key]]) ==
      Books(b.table - {key}, b.index - Ids(fixed[b.table[key]]), b.tombs, b.total - fixed[b.table[key]].bytes)
  {
    SizesRemove(b.table, fixed, key);
  }

  lemma RemovedBookkept(limits: Limits, b: Books, fixed: seq<Fixed>, key: string)
    requires Bookkept(limits, b, fixed) && key in b.table
    ensures Bookkept(limits, Removed(b, fixed[b.table[key]]), fixed)
  {
    RemovedExactly(limits, b, fixed, key);
    RemovedInverse(b.table, b.index, fixed, key);
    RemovedAccounted(limits, b.table, b.total, fixed, key);
  }

  // ----- tombstones -----

  lemma Grow(m: map<string, int>, id: string, value: int)
    ensures |m[id := value]| == |m| + (if id in m then 0 else 1)
  {
    if id in m {
      assert m[id := value].Keys == m.Keys;
      assert |m[id := value]| == |m[id := value].Keys| && |m| == |m.Keys|;
    }
  }

  lemma {:induction false} TombstonedKeys(tombs: map<string, int>, calls: seq<UpstreamCall>, until: int, limit: nat)
    requires |tombs| <= limit
    ensures |Tombstoned(tombs, calls, until, limit)| <= limit
    ensures tombs.Keys <= Tombstoned(tombs, calls, until, limit).Keys <= tombs.Keys + CallIds(calls)
    decreases |calls|
  {
    if calls != [] {
      var n := |calls| - 1;
      TombstonedKeys(tombs, calls[..n], until, limit);
      Grow(Tombstoned(tombs, calls[..n], until, limit), calls[n].callId, until);
    }
  }

  lemma {:induction false} TombstonedUntil(tombs: map<string, int>, calls: seq<UpstreamCall>, until: int, limit: nat,
                                           id: string)
    requires id in Tombstoned(tombs, calls, until, limit)
    ensures (id in tombs && Tombstoned(tombs, calls, until, limit)[id] == tombs[id]) ||
            Tombstoned(tombs, calls, until, limit)[id] == until
    decreases |calls|
  {
    if calls != [] {
      var n := |calls| - 1;
      if id in Tombstoned(tombs, calls[..n], until, limit) {
        TombstonedUntil(tombs, calls[..n], until, limit, id);
      }
    }
  }

  /** The other tombstones stay as they are. */
  lemma {:induction false} TombstonedOthers(tombs: map<string, int>, calls: seq<UpstreamCall>, until: int, limit: nat,
                                            id: string)
    requires id in tombs && id !in CallIds(calls)
    ensures id in Tombstoned(tombs, calls, until, limit) && Tombstoned(tombs, calls, until, limit)[id] == tombs[id]
    decreases |calls|
  {
    if calls != [] {
      var n := |calls| - 1;
      InCallIds(calls, id);
      InCallIds(calls[..n], id);
      TombstonedOthers(tombs, calls[..n], until, limit, id);
    }
  }

  /** An id of the turn goes without a tombstone only when the map is full. */
  lemma {:induction false} TombstonedOrFull(tombs: map<string, int>, calls: seq<UpstreamCall>, until: int, limit: nat,
                                            id: string)
    requires |tombs| <= limit && id in CallIds(calls)
    ensures var after := Tombstoned(tombs, calls, until, limit);
      if id in after then after[id] == until else |after| == limit
    decreases |calls|
  {
    var n := |calls| - 1;
    var front, last := Tombstoned(tombs, calls[..n], until, limit), calls[n].callId;
    TombstonedKeys(tombs, calls[..n], until, limit);
    Grow(front, last, until);
    InCallIds(calls, id);
    InCallIds(calls[..n], id);
    if id in CallIds(calls[..n]) {
      TombstonedOrFull(tombs, calls[..n], until, limit, id);
    } else {
      assert id == last;
    }
  }

  /** With room for its new ids, every id of an expired turn gets its tombstone. */
  lemma TombstonedAll(tombs: map<string, int>, calls: seq<UpstreamCall>, until: int, limit: nat)
    requires |tombs.Keys + CallIds(calls)| <= limit
    ensures CallIds(calls) <= Tombstoned(tombs, calls, until, limit).Keys
    ensures forall id :: id in CallIds(calls) ==> Tombstoned(tombs, calls, until, limit)[id] == until
  {
    var after, all := Tombstoned(tombs, calls, until, limit), tombs.Keys + CallIds(calls);
    SubsetSize(tombs.Keys, all);
    assert |tombs| == |tombs.Keys| && |after| == |after.Keys|;
    TombstonedKeys(tombs, calls, until, limit);
    forall id | id in CallIds(calls)
      ensures id in after && after[id] == until
    {
      TombstonedOrFull(tombs, calls, until, limit, id);
      if id !in after {
        SubsetSize(after.Keys + {id}, all);
      }
    }
  }

  lemma {:induction false} SubsetSize<T>(a: set<T>, b: set<T>)
    requires a <= b
    ensures |a| <= |b|
    decreases a
  {
    if a != {} {
      var x :| x in a;
      SubsetSize(a - {x}, b - {x});
    }
  }

  lemma TombstonedTombs(limits: Limits, tombs: map<string, int>, index: map<string, string>,
                        calls: seq<UpstreamCall>, until: int)
    requires Tombs(limits, tombs, index)
    ensures Tombs(limits, Tombstoned(tombs, calls, until, limits.tombs), index - CallIds(calls))
  {
    TombstonedKeys(tombs, calls, until, limits.tombs);
  }

  lemma ExpiredBookkept(limits: Limits, b: Books, fixed: seq<Fixed>, key: string, tombs: map<string, int>)
    requires Bookkept(limits, b, fixed) && key in b.table
    requires Tombs(limits, tombs, b.index - Ids(fixed[b.table[key]]))
    ensures Bookkept(limits, Removed(b.(tombs := tombs), fixed[b.table[key]]), fixed)
  {
    RemovedExactly(limits, b.(tombs := tombs), fixed, key);
    RemovedInverse(b.table, b.index, fixed, key);
    RemovedAccounted(limits, b.table, b.total, fixed, key);
  }

  // ----- sweeping -----

  lemma RemovedLeased(w: World, b: Books, r: nat)
    requires Shaped(w) && Leased(w) && Holds(w, r) && w.life[r].status == Consumed
    requires b.table == w.books.table - {w.fixed[r].key}
    ensures Leased(w.(books := b))
  {
    var w' := w.(books := b);
    assert forall s :: Holds(w', s) <==> Holds(w, s) && s != r;
    assert forall l, s :: Unfinished(w', l, s) <==> Unfinished(w, l, s);
  }

  lemma ExpiredLeased(w: World, b: Books, r: nat)
    requires Shaped(w) && Leased(w) && Holds(w, r) && Waiting(w.life[r].status)
    requires b.table == w.books.table - {w.fixed[r].key}
    ensures Leased(w.(books := b, life := w.life[r := w.life[r].(status := Expired)]))
  {
    var w' := w.(books := b, life := w.life[r := w.life[r].(status := Expired)]);
    assert forall s :: Holds(w', s) <==> Holds(w, s) && s != r;
    assert forall l, s :: Unfinished(w', l, s) <==> Unfinished(w, l, s);
  }

  lemma LivelyUpdate(c: StoreConfig, fixed: seq<Fixed>, life: seq<Life>, r: nat, next: Life)
    requires Lively(c, fixed, life) && r < |fixed| && Timely(c, fixed[r], next) && Once(next)
    ensures Lively(c, fixed, life[r := next])
  {
  }

  lemma ExpireParts(c: StoreConfig, w: World, r: nat, tombs: map<string, int>)
    requires Shaped(w) && Holds(w, r) && Lively(c, w.fixed, w.life)
    requires Bookkept(c.limits, w.books, w.fixed)
    requires Tombs(c.limits, tombs, w.books.index - Ids(w.fixed[r])) && Waiting(w.life[r].status)
    ensures var w' := ExpireWith(w, r, tombs);
      && Bookkept(c.limits, w'.books, w.fixed) && Lively(c, w.fixed, w'.life)
      && w'.books.table == w.books.table - {w.fixed[r].key}
  {
    ExpiredBookkept(c.limits, w.books, w.fixed, w.fixed[r].key, tombs);
    LivelyUpdate(c, w.fixed, w.life, r, w.life[r].(status := Expired));
  }

  /** Expiring a held record that nobody has consumed keeps the invariant. */
  lemma ExpireWithKeeps(c: StoreConfig, w: World, r: nat, tombs: map<string, int>)
    requires Inv(c, w) && !w.closed && Holds(w, r) && Waiting(w.life[r].status)
    requires Tombs(c.limits, tombs, w.books.index - Ids(w.fixed[r]))
    ensures Inv(c, ExpireWith(w, r, tombs))
  {
    var w' := ExpireWith(w, r, tombs);
    ExpireParts(c, w, r, tombs);
    ExpiredLeased(w, w'.books, r);
    Assemble(c, w');
  }

  lemma ExpireKeeps(c: StoreConfig, w: World, r: nat, now: int)
    requires Inv(c, w) && !w.closed && Holds(w, r) && Waiting(w.life[r].status)
    ensures Inv(c, ExpireRecord(c, w, r, now))
  {
    var calls := w.fixed[r].turn.calls;
    TombstonedTombs(c.limits, w.books.tombs, w.books.index, calls, Later(now, c.grace));
    ExpireWithKeeps(c, w, r, Tombstoned(w.books.tombs, calls, Later(now, c.grace), c.limits.tombs));
  }

  lemma DropBooks(c: StoreConfig, w: World, r: nat)
    requires Shaped(w) && Bookkept(c.limits, w.books, w.fixed) && Holds(w, r)
    ensures Bookkept(c.limits, Removed(w.books, w.fixed[r]), w.fixed)
    ensures Removed(w.books, w.fixed[r]).table == w.books.table - {w.fixed[r].key}
  {
    RemovedBookkept(c.limits, w.books, w.fixed, w.fixed[r].key);
  }

  lemma DropKeeps(c: StoreConfig, w: World, r: nat)
    requires Inv(c, w) && !w.closed && Holds(w, r) && w.life[r].status == Consumed
    ensures Inv(c, w.(books := Removed(w.books, w.fixed[r])))
  {
    var w' := w.(books := Removed(w.books, w.fixed[r]));
    DropBooks(c, w, r);
    RemovedLeased(w, w'.books, r);
    Assemble(c, w');
  }

  lemma Assemble(c: StoreConfig, w: World)
    requires ConfigValid(c) && Shaped(w) && Lively(c, w.fixed, w.life)
    requires Bookkept(c.limits, w.books, w.fixed)
    requires !w.closed && Leased(w)
    ensures Inv(c, w)
  {
  }
}
