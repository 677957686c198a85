/** The continuation store as the source writes it: one object whose locked methods
    update its maps and its records in place. Every method is proved to be the
    step of ContinuationSpec with the same name. */
module ContinuationStore {
  import opened Bridge
  import opened ContinuationSpec
  import opened ContinuationTheorems

  // ----- loops over calls and results, seen from the front -----

  lemma TakeOne<T>(s: seq<T>, i: nat)
    requires i < |s|
    ensures s[..i + 1] == s[..i] + [s[i]]
    ensures s[..i + 1][..i] == s[..i]
  {
  }

  lemma CallIdsStep(calls: seq<UpstreamCall>, i: nat)
    requires i < |calls|
    ensures CallIds(calls[..i + 1]) == CallIds(calls[..i]) + {calls[i].callId}
  {
    TakeOne(calls, i);
  }

  lemma TombstonedStep(tombs: map<string, int>, calls: seq<UpstreamCall>, until: int, limit: nat, i: nat)
    requires i < |calls|
    ensures var front := Tombstoned(tombs, calls[..i], until, limit);
      var id := calls[i].callId;
      Tombstoned(tombs, calls[..i + 1], until, limit) ==
        if id in front || |front| < limit then front[id := until] else front
  {
    TakeOne(calls, i);
  }

  lemma KindsOfStep(calls: seq<UpstreamCall>, i: nat)
    requires i < |calls|
    ensures KindsOf(calls[..i + 1]) == KindsOf(calls[..i])[calls[i].callId := calls[i].kind]
  {
    TakeOne(calls, i);
  }

  lemma ScanStep(w: World, results: seq<ToolResult>, now: int, i: nat)
    requires Shaped(w) && i < |results|
    ensures Scan(w, results[..i + 1], now) ==
      var before := Scan(w, results[..i], now);
      if before.Err? then before
      else if results[i].callId == "" then Err(before.world, Invalid)
      else if results[i].callId in ResultIds(results[..i]) then Err(before.world, Duplicate)
      else
        var found := RecordFor(before.world, results[i].callId, now);
        if found.Err? then Err(found.world, found.error)
        else if before.value.Some? && before.value.value != found.value then Err(found.world, Mixed)
        else Ok(found.world, Some(found.value))
  {
    TakeOne(results, i);
    ScanEquation(w, results[..i], results[i], now);
  }

  /** A scan that has failed stays failed. */
  lemma {:induction false} ScanFailed(w: World, results: seq<ToolResult>, now: int, i: nat)
    requires Shaped(w) && i <= |results| && Scan(w, results[..i], now).Err?
    ensures Scan(w, results, now) == Scan(w, results[..i], now)
    decreases |results| - i
  {
    if i == |results| {
      assert results[..i] == results;
    } else {
      ScanStep(w, results, now, i);
      ScanFailed(w, results, now, i + 1);
    }
  }

  lemma ResultIdsStep(results: seq<ToolResult>, i: nat)
    requires i < |results|
    ensures ResultIds(results[..i + 1]) == ResultIds(results[..i]) + {results[i].callId}
  {
    assert forall j :: 0 <= j < i ==> results[..i + 1][j] == results[..i][j];
  }

  lemma KindErrorStep(kinds: map<string, ToolKind>, results: seq<ToolResult>, i: nat)
    requires i < |results|
    ensures KindError(kinds, results[..i + 1]) ==
      if KindError(kinds, results[..i]).Some? then KindError(kinds, results[..i])
      else if results[i].callId !in kinds then Some(Unknown)
      else if results[i].kind != kinds[results[i].callId] then Some(KindMismatch)
      else None
  {
    TakeOne(results, i);
  }

  lemma {:induction false} KindErrorFailed(kinds: map<string, ToolKind>, results: seq<ToolResult>, i: nat)
    requires i <= |results| && KindError(kinds, results[..i]).Some?
    ensures KindError(kinds, results) == KindError(kinds, results[..i])
    decreases |results| - i
  {
    if i == |results| {
      assert results[..i] == results;
    } else {
      KindErrorStep(kinds, results, i);
      KindErrorFailed(kinds, results, i + 1);
    }
  }

  lemma SweepNext(c: StoreConfig, w: World, order: seq<string>, key: string, now: int)
    requires Shaped(w)
    ensures Sweep(c, w, order + [key], now) == SweepKey(c, Sweep(c, w, order, now), key, now)
  {
    assert (order + [key])[..|order|] == order;
  }

  // ----- normalisation -----

  /** One more call is normal exactly if it is named and its ids are new. */
  lemma NormalStep(calls: seq<UpstreamCall>, n: nat)
    requires n < |calls| && NormalCalls(calls[..n])
    ensures NormalCalls(calls[..n + 1]) <==>
      && calls[n].callId != "" && calls[n].name != ""
      && (forall i :: 0 <= i < n ==> calls[i].callId != calls[n].callId)
      && (forall i :: 0 <= i < n ==> NamedCall(calls[i]).providerId != NamedCall(calls[n]).providerId)
    ensures NormalCalls(calls) ==> NormalCalls(calls[..n + 1])
  {
    var front := calls[..n + 1];
    assert forall i :: 0 <= i < n ==> front[i] == calls[..n][i];
  }

  /** The loop of normalizePendingTurn over the calls, with its two seen maps. */
  method NormalizeCalls(calls: seq<UpstreamCall>) returns (ok: bool, named: seq<UpstreamCall>)
    ensures ok <==> NormalCalls(calls)
    ensures ok ==> named == NamedCalls(calls)
  {
    named := [];
    var seenCallIds: set<string> := {};
    var seenProviderIds: set<string> := {};
    for index := 0 to |calls|
      invariant named == NamedCalls(calls[..index])
      invariant NormalCalls(calls[..index])
      invariant seenCallIds == set i | 0 <= i < index :: calls[i].callId
      invariant seenProviderIds == set i | 0 <= i < index :: NamedCall(calls[i]).providerId
    {
      NormalStep(calls, index);
      var call := calls[index];
      if call.callId == "" {
        return false, [];
      }
      call := NamedCall(call);
      if call.name == "" || call.callId in seenCallIds || call.providerId in seenProviderIds {
        return false, [];
      }
      seenCallIds := seenCallIds + {call.callId};
      seenProviderIds := seenProviderIds + {call.providerId};
      named := named + [call];
    }
    assert calls[..|calls|] == calls;
    ok := true;
  }

  // ----- the store -----

  class Store {
    const config: StoreConfig
    var records: map<string, nat>
    var byCallId: map<string, string>
    var expiredCallIds: map<string, int>
    var totalBytes: int
    var fixed: seq<Fixed>
    var life: seq<Life>
    var leases: seq<Grant>
    var closed: bool

    function Books(): Books
      reads this
    {
      ContinuationSpec.Books(records, byCallId, expiredCallIds, totalBytes)
    }

    function World(): World
      reads this
    {
      ContinuationSpec.World(Books(), fixed, life, leases, closed)
    }

    constructor (config: StoreConfig)
      ensures this.config == config && World() == NEW_WORLD
    {
      this.config := config;
      records, byCallId, expiredCallIds, totalBytes := map[], map[], map[], 0;
      fixed, life, leases, closed := [], [], [], false;
    }

    // ----- removal and expiry -----

    /** removeLocked. */
    method Remove(f: Fixed)
      modifies `records, `byCallId, `totalBytes
      ensures Books() == Removed(old(Books()), f)
    {
      if f.key !in records {
        return;
      }
      records := records - {f.key};
      var i := 0;
      while i < |f.turn.calls|
        invariant i <= |f.turn.calls|
        invariant byCallId == old(byCallId) - CallIds(f.turn.calls[..i])
        invariant records == old(records) - {f.key} && totalBytes == old(totalBytes)
      {
        CallIdsStep(f.turn.calls, i);
        byCallId := byCallId - {f.turn.calls[i].callId};
        i := i + 1;
      }
      assert f.turn.calls[..i] == f.turn.calls;
      totalBytes := totalBytes - f.bytes;
      if totalBytes < 0 {
        totalBytes := 0;
      }
    }

    /** The loop of expireLocked: tombstones as far as they fit. */
    method AddTombstones(calls: seq<UpstreamCall>, until: int)
      modifies `expiredCallIds
      ensures expiredCallIds == Tombstoned(old(expiredCallIds), calls, until, config.limits.tombs)
    {
      var i := 0;
      while i < |calls|
        invariant i <= |calls|
        invariant expiredCallIds == Tombstoned(old(expiredCallIds), calls[..i], until, config.limits.tombs)
      {
        TombstonedStep(old(expiredCallIds), calls, until, config.limits.tombs, i);
        var id := calls[i].callId;
        if id in expiredCallIds || |expiredCallIds| < config.limits.tombs {
          expiredCallIds := expiredCallIds[id := until];
        }
        i := i + 1;
      }
      assert calls[..i] == calls;
    }

    /** expireLocked. */
    method Expire(r: nat, now: int)
      requires Shaped(World()) && r < |fixed|
      modifies `records, `byCallId, `expiredCallIds, `totalBytes, `life
      ensures World() == ExpireRecord(config, old(World()), r, now)
    {
      AddTombstones(fixed[r].turn.calls, Later(now, config.grace));
      life := life[r := life[r].(status := Expired)];
      Remove(fixed[r]);
    }

    // ----- cleanup -----

    method DropTombstones(now: int)
      modifies `expiredCallIds
      ensures expiredCallIds == LiveTombs(old(expiredCallIds), now)
    {
      var todo := expiredCallIds.Keys;
      while todo != {}
        invariant todo <= old(expiredCallIds).Keys
        invariant expiredCallIds ==
          map id | id in old(expiredCallIds) && (id in todo || now < old(expiredCallIds)[id]) :: old(expiredCallIds)[id]
        decreases |todo|
      {
        var id :| id in todo;
        if now >= expiredCallIds[id] {
          expiredCallIds := expiredCallIds - {id};
        }
        todo := todo - {id};
      }
    }

    /** The switch of cleanupLocked. */
    method SweepOne(key: string, now: int)
      requires Shaped(World())
      modifies `records, `byCallId, `expiredCallIds, `totalBytes, `life
      ensures World() == SweepKey(config, old(World()), key, now)
    {
      if key !in records {
        return;
      }
      var r := records[key];
      match life[r].status {
        case Pending => if now >= life[r].deadline { Expire(r, now); }
        case Consuming => if now >= life[r].deadline { Expire(r, now); }
        case Consumed => if now >= life[r].deadline { Remove(fixed[r]); }
        case Expired => Expire(r, now);
      }
    }

    method SweepAfter(key: string, now: int, ghost start: World, ghost order: seq<string>)
      requires Shaped(start) && World() == Sweep(config, start, order, now)
      modifies `records, `byCallId, `expiredCallIds, `totalBytes, `life
      ensures World() == Sweep(config, start, order + [key], now)
    {
      SweepNext(config, start, order, key, now);
      SweepOne(key, now);
    }

    /** cleanupLocked, walking the record map in any order. */
    method CleanUp(now: int) returns (ghost order: seq<string>)
      requires Shaped(World())
      modifies `records, `byCallId, `expiredCallIds, `totalBytes, `life
      ensures IsOrder(order, old(records).Keys)
      ensures World() == Cleanup(config, old(World()), order, now)
    {
      DropTombstones(now);
      order := SweepAll(now);
    }

    method SweepAll(now: int) returns (ghost order: seq<string>)
      requires Shaped(World())
      modifies `records, `byCallId, `expiredCallIds, `totalBytes, `life
      ensures IsOrder(order, old(records).Keys)
      ensures World() == Sweep(config, old(World()), order, now)
    {
      ghost var start, done := World(), {};
      order := [];
      var todo := records.Keys;
      while todo != {}
        invariant done !! todo && done + todo == start.books.table.Keys
        invariant IsOrder(order, done)
        invariant World() == Sweep(config, start, order, now)
        decreases |todo|
      {
        var key :| key in todo;
        OrderNext(order, done, key);
        SweepAfter(key, now, start, order);
        order, done, todo := order + [key], done + {key}, todo - {key};
      }
      assert done == start.books.table.Keys;
    }

    // ----- saving -----

    method AlreadyRetained(calls: seq<UpstreamCall>) returns (found: bool)
      ensures found == AnyIndexed(byCallId, calls)
    {
      for i := 0 to |calls|
        invariant forall j :: 0 <= j < i ==> calls[j].callId !in byCallId
      {
        if calls[i].callId in byCallId {
          return true;
        }
      }
      return false;
    }

    method ForgetTombstones(calls: seq<UpstreamCall>)
      modifies `expiredCallIds
      ensures expiredCallIds == old(expiredCallIds) - CallIds(calls)
    {
      var i := 0;
      while i < |calls|
        invariant i <= |calls|
        invariant expiredCallIds == old(expiredCallIds) - CallIds(calls[..i])
      {
        CallIdsStep(calls, i);
        expiredCallIds := expiredCallIds - {calls[i].callId};
        i := i + 1;
      }
      assert calls[..i] == calls;
    }

    method IndexCalls(calls: seq<UpstreamCall>, key: string)
      modifies `byCallId
      ensures byCallId == old(byCallId) + map id | id in CallIds(calls) :: key
    {
      var i := 0;
      while i < |calls|
        invariant i <= |calls|
        invariant byCallId == old(byCallId) + map id | id in CallIds(calls[..i]) :: key
      {
        CallIdsStep(calls, i);
        byCallId := byCallId[calls[i].callId := key];
        i := i + 1;
      }
      assert calls[..i] == calls;
    }

    /** The end of SaveContext, where the record becomes visible. */
    method Insert(turn: PendingTurn, size: nat, expiry: int)
      requires turn.calls != []
      requires Shaped(World())
      modifies `records, `byCallId, `expiredCallIds, `totalBytes, `fixed, `life
      ensures World() == Stored(old(World()), turn, size, expiry)
    {
      var key := turn.calls[0].callId;
      ForgetTombstones(turn.calls);
      records := records[key := |fixed|];
      fixed := fixed + [Fixed(key, turn, size, expiry)];
      life := life + [Life(Pending, expiry, 0)];
      IndexCalls(turn.calls, key);
      totalBytes := totalBytes + size;
    }

    /** SaveContext. The request context passes its first gates checks. */
    method SaveContext(turn: PendingTurn, now: int, gates: nat)
      returns (error: Option<StoreError>, ghost order: seq<string>)
      requires Shaped(World())
      modifies this
      ensures gates > 1 && !old(closed) ==> IsOrder(order, old(records).Keys)
      ensures World() == Save(config, old(World()), turn, now, order, gates).world
      ensures error == ErrorOf(Save(config, old(World()), turn, now, order, gates))
    {
      order := [];
      if gates <= 0 {
        return Some(Cancelled), order;
      }
      if closed {
        return Some(Closed), order;
      }
      if gates <= 1 {
        return Some(Cancelled), order;
      }
      order := CleanUp(now);
      error := SaveTurn(turn, now, gates);
    }

    /** SaveContext after its cleanup. */
    method SaveTurn(turn: PendingTurn, now: int, gates: nat) returns (error: Option<StoreError>)
      requires Shaped(World())
      modifies this
      ensures World() == SaveClean(config, old(World()), turn, now, gates).world
      ensures error == ErrorOf(SaveClean(config, old(World()), turn, now, gates))
    {
      if !config.fits(turn, BytesLeft(config.limits, Books())) {
        return Some(Capacity);
      }
      if turn.provider == "" || turn.model == "" || |turn.calls| == 0 {
        return Some(Invalid);
      }
      var ok, named := NormalizeCalls(turn.calls);
      if !ok {
        return Some(Invalid);
      }
      var normal := turn.(calls := named);
      assert normal == Normalized(turn);
      var size := config.encode(normal, now);
      if size.None? {
        return Some(Invalid);
      }
      if gates <= 2 {
        return Some(Cancelled);
      }
      if size.value > config.limits.recordBytes {
        return Some(Capacity);
      }
      if |records| >= config.limits.records || size.value > config.limits.bytes - totalBytes {
        return Some(Capacity);
      }
      if gates <= 3 {
        return Some(Cancelled);
      }
      var retained := AlreadyRetained(normal.calls);
      if retained {
        return Some(Invalid);
      }
      Insert(normal, size.value, Later(now, config.ttl));
      return None;
    }

    // ----- lookup -----

    /** recordForCallLocked. */
    method RecordForCall(id: string, now: int) returns (record: nat, error: Option<StoreError>)
      requires Shaped(World())
      modifies `records, `byCallId, `expiredCallIds, `totalBytes, `life
      ensures World() == RecordFor(old(World()), id, now).world
      ensures error == ErrorOf(RecordFor(old(World()), id, now))
      ensures error == None ==> record == RecordFor(old(World()), id, now).value && record < |fixed|
    {
      record := 0;
      if id !in byCallId {
        if id in expiredCallIds {
          if now < expiredCallIds[id] {
            return record, Some(ExpiredTurn);
          }
          expiredCallIds := expiredCallIds - {id};
        }
        return record, Some(Unknown);
      }
      if byCallId[id] !in records {
        return record, Some(Unknown);
      }
      record := records[byCallId[id]];
      var status, late := life[record].status, now >= life[record].deadline;
      if (status == Pending || status == Consuming) && late {
        life := life[record := life[record].(status := Expired)];
        return record, Some(ExpiredTurn);
      }
      if status == Consumed && late {
        Remove(fixed[record]);
        return record, Some(Unknown);
      }
      if status == Expired {
        return record, Some(ExpiredTurn);
      }
      return record, None;
    }

    method LookUp(id: string, now: int)
      returns (turn: Option<PendingTurn>, error: Option<StoreError>, ghost order: seq<string>)
      requires Shaped(World())
      modifies this
      ensures !old(closed) ==> IsOrder(order, old(records).Keys)
      ensures World() == Lookup(config, old(World()), id, now, order).world
      ensures error == ErrorOf(Lookup(config, old(World()), id, now, order))
      ensures error == None ==> turn == Some(Lookup(config, old(World()), id, now, order).value)
    {
      turn, order := None, [];
      if closed {
        return turn, Some(Closed), order;
      }
      order := CleanUp(now);
      var record;
      record, error := RecordForCall(id, now);
      if error == None {
        turn := Some(fixed[record].turn);
      }
    }

    // ----- begin -----

    /** The first loop of Begin: the results must name one record. */
    method ScanResults(results: seq<ToolResult>, now: int) returns (first: Option<nat>, error: Option<StoreError>)
      requires Shaped(World())
      modifies `records, `byCallId, `expiredCallIds, `totalBytes, `life
      ensures World() == Scan(old(World()), results, now).world
      ensures error == ErrorOf(Scan(old(World()), results, now))
      ensures error == None ==> first == Scan(old(World()), results, now).value
    {
      first := None;
      var seen: set<string> := {};
      for i := 0 to |results|
        invariant Scan(old(World()), results[..i], now) == Ok(World(), first)
        invariant seen == ResultIds(results[..i])
      {
        ScanStep(old(World()), results, now, i);
        var id := results[i].callId;
        if id == "" {
          ScanFailed(old(World()), results, now, i + 1);
          return first, Some(Invalid);
        }
        if id in seen {
          ScanFailed(old(World()), results, now, i + 1);
          return first, Some(Duplicate);
        }
        ResultIdsStep(results, i);
        seen := seen + {id};
        var record, failed := RecordForCall(id, now);
        if failed.Some? {
          ScanFailed(old(World()), results, now, i + 1);
          return first, failed;
        }
        if first == None {
          first := Some(record);
        } else if first.value != record {
          ScanFailed(old(World()), results, now, i + 1);
          return first, Some(Mixed);
        }
      }
      assert results[..|results|] == results;
      return first, None;
    }

    /** The second loop of Begin: every result names a call, with its kind. */
    method CheckKinds(calls: seq<UpstreamCall>, results: seq<ToolResult>) returns (error: Option<StoreError>)
      ensures error == KindError(KindsOf(calls), results)
    {
      var kinds: map<string, ToolKind> := map[];
      for i := 0 to |calls|
        invariant kinds == KindsOf(calls[..i])
      {
        KindsOfStep(calls, i);
        kinds := kinds[calls[i].callId := calls[i].kind];
      }
      assert calls[..|calls|] == calls;
      for i := 0 to |results|
        invariant KindError(kinds, results[..i]) == None
      {
        KindErrorStep(kinds, results, i);
        if results[i].callId !in kinds {
          KindErrorFailed(kinds, results, i + 1);
          return Some(Unknown);
        }
        if results[i].kind != kinds[results[i].callId] {
          KindErrorFailed(kinds, results, i + 1);
          return Some(KindMismatch);
        }
      }
      assert results[..|results|] == results;
      return None;
    }

    /** Begin, from the record that all results name. */
    method Claim(r: nat, results: seq<ToolResult>, now: int) returns (lease: nat, error: Option<StoreError>)
      requires Shaped(World()) && r < |fixed|
      modifies `life, `leases
      ensures World() == BeginRecord(config, old(World()), r, results, now).world
      ensures error == ErrorOf(BeginRecord(config, old(World()), r, results, now))
      ensures lease == old(|leases|)
    {
      lease := |leases|;
      match life[r].status {
        case Consuming => return lease, Some(Busy);
        case Consumed => return lease, Some(AlreadyConsumed);
        case Expired => return lease, Some(ExpiredTurn);
        case Pending =>
      }
      if |results| != |fixed[r].turn.calls| {
        return lease, Some(Missing);
      }
      error := CheckKinds(fixed[r].turn.calls, results);
      if error == None {
        life := life[r := life[r].(status := Consuming, deadline := Later(now, config.leaseTtl))];
        leases := leases + [Grant(r, results, false)];
      }
    }

    /** Begin; on success the new lease is the last one. */
    method BeginLease(results: seq<ToolResult>, now: int)
      returns (lease: nat, error: Option<StoreError>, ghost order: seq<string>)
      requires Shaped(World())
      modifies this
      ensures !old(closed) ==> IsOrder(order, old(records).Keys)
      ensures World() == Begin(config, old(World()), results, now, order).world
      ensures error == ErrorOf(Begin(config, old(World()), results, now, order))
      ensures error == None ==> lease == Begin(config, old(World()), results, now, order).value
    {
      lease, order := 0, [];
      if closed {
        return lease, Some(Closed), order;
      }
      order := CleanUp(now);
      if |results| == 0 {
        return lease, Some(Invalid), order;
      }
      var first;
      first, error := ScanResults(results, now);
      if error == None {
        lease, error := Claim(first.value, results, now);
      }
    }

    // ----- finishing a lease, closing -----

    /** finishContext for lease l: Commit if commit, else Abort. */
    method FinishLease(l: nat, commit: bool, now: int, gates: nat) returns (error: Option<StoreError>)
      requires Shaped(World()) && l < |leases|
      modifies this
      ensures World() == Finish(config, old(World()), l, commit, now, gates).world
      ensures error == ErrorOf(Finish(config, old(World()), l, commit, now, gates))
    {
      if gates <= 0 {
        return Some(Cancelled);
      }
      if leases[l].done {
        return Some(Finalized);
      }
      if closed {
        leases := leases[l := leases[l].(done := true)];
        return Some(Closed);
      }
      if gates <= 1 {
        return Some(Cancelled);
      }
      error := FinishOpen(l, commit, now);
    }

    method FinishOpen(l: nat, commit: bool, now: int) returns (error: Option<StoreError>)
      requires Shaped(World()) && l < |leases|
      modifies this
      ensures World() == FinishRecord(config, old(World()), l, commit, now).world
      ensures error == ErrorOf(FinishRecord(config, old(World()), l, commit, now))
    {
      var r := leases[l].record;
      error := None;
      if life[r].status == Expired {
        error := Some(ExpiredTurn);
      } else if life[r].status != Consuming {
        error := Some(Invalid);
      } else if now >= life[r].deadline {
        Expire(r, now);
        error := Some(ExpiredTurn);
      } else if commit {
        life := life[r := Life(Consumed, Later(now, config.grace), life[r].commits + 1)];
      } else if now < fixed[r].expiry {
        life := life[r := life[r].(status := Pending, deadline := fixed[r].expiry)];
      } else {
        Expire(r, now);
      }
      leases := leases[l := leases[l].(done := true)];
    }

    method Close()
      modifies this
      ensures World() == ContinuationSpec.Close(old(World()))
    {
      closed := true;
      records, byCallId, expiredCallIds, totalBytes := map[], map[], map[], 0;
    }
  }

  function ErrorOf<T>(r: Reply<T>): Option<StoreError> {
    if r.Err? then Some(r.error) else None
  }

  lemma OrderNext(order: seq<string>, keys: set<string>, key: string)
    requires IsOrder(order, keys) && key !in keys
    ensures IsOrder(order + [key], keys + {key})
  {
    var all := order + [key];
    assert forall i :: 0 <= i < |order| ==> all[i] == order[i];
    assert forall k :: k in all <==> k in order || k == key;
  }
}
