/** The continuation store as a state machine: retained tool turns, their
    secondary index, their tombstones, and the leases that own a turn while it is
    being consumed. One function per locked section of the source; time is an
    argument and need not be monotone, and the order in which a map is walked is
    an argument too.

    A record object is a position in fixed and life: fixed holds what never
    changes, life what the store updates in place. Two records saved under the
    same key are two positions, so identity is not lost. A lease object is a
    position in leases. */
module ContinuationSpec {
  import opened Bridge

  datatype Status = Pending | Consuming | Consumed | Expired

  datatype StoreError =
    | Closed | Unknown | ExpiredTurn | Busy | AlreadyConsumed | KindMismatch | Duplicate | Mixed
    | Missing | Capacity | Invalid | Finalized | Cancelled

  /** fits is the cheap lower-bound check before normalisation, encode the size of
      the encoded turn (None if it cannot be encoded); both are left abstract. */
  datatype StoreConfig = StoreConfig(
    ttl: int, leaseTtl: int, grace: int, limits: Limits,
    fits: (PendingTurn, int) -> bool, encode: (PendingTurn, int) -> Option<nat>)

  datatype Limits = Limits(records: nat, recordBytes: int, bytes: int, tombs: nat)

  predicate ConfigValid(c: StoreConfig) {
    && c.ttl > 0 && c.leaseTtl > 0 && c.grace > 0
    && c.limits.records > 0 && c.limits.recordBytes > 0 && c.limits.bytes > 0
  }

  datatype Fixed = Fixed(key: string, turn: PendingTurn, bytes: nat, expiry: int)
  datatype Life = Life(status: Status, deadline: int, commits: nat)
  datatype Grant = Grant(record: nat, results: seq<ToolResult>, done: bool)
  datatype Books = Books(table: map<string, nat>, index: map<string, string>, tombs: map<string, int>, total: int)
  datatype World = World(books: Books, fixed: seq<Fixed>, life: seq<Life>, leases: seq<Grant>, closed: bool)

  datatype Reply<+T> = Ok(world: World, value: T) | Err(world: World, error: StoreError)

  /** Every position named anywhere exists. */
  predicate Shaped(w: World) {
    && |w.life| == |w.fixed|
    && (forall k :: k in w.books.table ==> w.books.table[k] < |w.fixed|)
    && (forall i :: 0 <= i < |w.leases| ==> w.leases[i].record < |w.fixed|)
  }

  const EMPTY_BOOKS := Books(map[], map[], map[], 0)
  const NEW_WORLD := World(EMPTY_BOOKS, [], [], [], false)

  // ----- calls -----

  function CallIds(calls: seq<UpstreamCall>): set<string> {
    if calls == [] then {} else CallIds(calls[..|calls| - 1]) + {calls[|calls| - 1].callId}
  }

  function NamedCall(call: UpstreamCall): UpstreamCall {
    if call.providerId == "" then call.(providerId := call.callId) else call
  }

  predicate NormalCalls(calls: seq<UpstreamCall>) {
    && (forall i :: 0 <= i < |calls| ==> calls[i].callId != "" && calls[i].name != "")
    && (forall i, j :: 0 <= i < j < |calls| ==> calls[i].callId != calls[j].callId)
    && (forall i, j :: 0 <= i < j < |calls| ==> NamedCall(calls[i]).providerId != NamedCall(calls[j]).providerId)
  }

  predicate Normalizable(turn: PendingTurn) {
    turn.provider != "" && turn.model != "" && turn.calls != [] && NormalCalls(turn.calls)
  }

  function NamedCalls(calls: seq<UpstreamCall>): seq<UpstreamCall> {
    seq(|calls|, i requires 0 <= i < |calls| => NamedCall(calls[i]))
  }

  function Normalized(turn: PendingTurn): PendingTurn {
    turn.(calls := NamedCalls(turn.calls))
  }

  // ----- removal, expiry, cleanup -----

  function Later(now: int, span: int): int {
    now + span
  }

  /** The tombstones after the ids of calls have been added while there was room. */
  function Tombstoned(tombs: map<string, int>, calls: seq<UpstreamCall>, until: int, limit: nat): map<string, int>
    decreases |calls|
  {
    if calls == [] then tombs
    else
      var front := Tombstoned(tombs, calls[..|calls| - 1], until, limit);
      var id := calls[|calls| - 1].callId;
      if id in front || |front| < limit then front[id := until] else front
  }

  /** removeLocked: looks the key up, not the record. */
  function Removed(b: Books, f: Fixed): Books {
    if f.key !in b.table then b
    else Books(b.table - {f.key}, b.index - CallIds(f.turn.calls), b.tombs,
               if b.total - f.bytes < 0 then 0 else b.total - f.bytes)
  }

  /** expireLocked, with the tombstones it leaves. */
  function ExpireWith(w: World, r: nat, tombs: map<string, int>): (w': World)
    requires Shaped(w) && r < |w.fixed|
    ensures Shaped(w')
  {
    w.(books := Removed(w.books.(tombs := tombs), w.fixed[r]), life := w.life[r := w.life[r].(status := Expired)])
  }

  function ExpireRecord(c: StoreConfig, w: World, r: nat, now: int): (w': World)
    requires Shaped(w) && r < |w.fixed|
    ensures Shaped(w')
  {
    ExpireWith(w, r, Tombstoned(w.books.tombs, w.fixed[r].turn.calls, Later(now, c.grace), c.limits.tombs))
  }

  /** The switch of cleanupLocked for one entry of the record map. */
  function SweepKey(c: StoreConfig, w: World, key: string, now: int): (w': World)
    requires Shaped(w)
    ensures Shaped(w') && w'.fixed == w.fixed
  {
    if key !in w.books.table then w
    else
      var r := w.books.table[key];
      match w.life[r].status
      case Pending => if now >= w.life[r].deadline then ExpireRecord(c, w, r, now) else w
      case Consuming => if now >= w.life[r].deadline then ExpireRecord(c, w, r, now) else w
      case Consumed => if now >= w.life[r].deadline then w.(books := Removed(w.books, w.fixed[r])) else w
      case Expired => ExpireRecord(c, w, r, now)
  }

  function Sweep(c: StoreConfig, w: World, order: seq<string>, now: int): (w': World)
    requires Shaped(w)
    ensures Shaped(w') && w'.fixed == w.fixed
    decreases |order|
  {
    if order == [] then w
    else SweepKey(c, Sweep(c, w, order[..|order| - 1], now), order[|order| - 1], now)
  }

  function LiveTombs(tombs: map<string, int>, now: int): map<string, int> {
    map id | id in tombs && now < tombs[id] :: tombs[id]
  }

  /** cleanupLocked; order is the order in which the record map is walked. */
  function Cleanup(c: StoreConfig, w: World, order: seq<string>, now: int): (w': World)
    requires Shaped(w)
    ensures Shaped(w') && w'.fixed == w.fixed
  {
    Sweep(c, w.(books := w.books.(tombs := LiveTombs(w.books.tombs, now))), order, now)
  }

  /** order lists every key once. */
  ghost predicate IsOrder(order: seq<string>, keys: set<string>) {
    && (forall i, j :: 0 <= i < j < |order| ==> order[i] != order[j])
    && (forall k :: k in order <==> k in keys)
  }

  // ----- save -----

  /** The record becomes visible. */
  function Stored(w: World, turn: PendingTurn, bytes: nat, expiry: int): (w': World)
    requires Shaped(w) && turn.calls != []
    ensures Shaped(w')
  {
    var key := turn.calls[0].callId;
    var ids := CallIds(turn.calls);
    w.(books := Books(w.books.table[key := |w.fixed|], w.books.index + map id | id in ids :: key,
                      w.books.tombs - ids, w.books.total + bytes),
       fixed := w.fixed + [Fixed(key, turn, bytes, expiry)],
       life := w.life + [Life(Pending, expiry, 0)])
  }

  /** SaveContext; the request context passes its first gates checks. */
  function Save(c: StoreConfig, w: World, turn: PendingTurn, now: int, order: seq<string>, gates: nat): (r: Reply<nat>)
    requires Shaped(w)
    ensures Shaped(r.world)
  {
    if gates <= 0 then Err(w, Cancelled)
    else if w.closed then Err(w, Closed)
    else if gates <= 1 then Err(w, Cancelled)
    else SaveClean(c, Cleanup(c, w, order, now), turn, now, gates)
  }

  predicate AnyIndexed(index: map<string, string>, calls: seq<UpstreamCall>) {
    exists i :: 0 <= i < |calls| && calls[i].callId in index
  }

  function BytesLeft(limits: Limits, b: Books): int {
    limits.bytes - b.total
  }

  function SaveClean(c: StoreConfig, w: World, turn: PendingTurn, now: int, gates: nat): (r: Reply<nat>)
    requires Shaped(w)
    ensures Shaped(r.world)
  {
    if !c.fits(turn, BytesLeft(c.limits, w.books)) then Err(w, Capacity)
    else if !Normalizable(turn) then Err(w, Invalid)
    else
      var normal := Normalized(turn);
      match c.encode(normal, now)
      case None => Err(w, Invalid)
      case Some(size) =>
        if gates <= 2 then Err(w, Cancelled)
        else if size > c.limits.recordBytes then Err(w, Capacity)
        else if |w.books.table| >= c.limits.records || size > BytesLeft(c.limits, w.books) then Err(w, Capacity)
        else if gates <= 3 then Err(w, Cancelled)
        else if AnyIndexed(w.books.index, normal.calls) then Err(w, Invalid)
        else Ok(Stored(w, normal, size, Later(now, c.ttl)), |w.fixed|)
  }

  // ----- lookup and begin -----

  /** recordForCallLocked, with its own expiry branches. */
  function RecordFor(w: World, id: string, now: int): (r: Reply<nat>)
    requires Shaped(w)
    ensures Shaped(r.world) && r.world.fixed == w.fixed && (r.Ok? ==> r.value < |w.fixed|)
  {
    if id !in w.books.index then
      if id in w.books.tombs && now < w.books.tombs[id] then Err(w, ExpiredTurn)
      else if id in w.books.tombs then Err(w.(books := w.books.(tombs := w.books.tombs - {id})), Unknown)
      else Err(w, Unknown)
    else if w.books.index[id] !in w.books.table then Err(w, Unknown)
    else
      var r := w.books.table[w.books.index[id]];
      var late := now >= w.life[r].deadline;
      match w.life[r].status
      case Pending =>
        if late then Err(w.(life := w.life[r := w.life[r].(status := Expired)]), ExpiredTurn) else Ok(w, r)
      case Consuming =>
        if late then Err(w.(life := w.life[r := w.life[r].(status := Expired)]), ExpiredTurn) else Ok(w, r)
      case Consumed =>
        if late then Err(w.(books := Removed(w.books, w.fixed[r])), Unknown) else Ok(w, r)
      case Expired => Err(w, ExpiredTurn)
  }

  function Lookup(c: StoreConfig, w: World, id: string, now: int, order: seq<string>): (r: Reply<PendingTurn>)
    requires Shaped(w)
    ensures Shaped(r.world)
  {
    if w.closed then Err(w, Closed)
    else
      var found := RecordFor(Cleanup(c, w, order, now), id, now);
      if found.Err? then Err(found.world, found.error) else Ok(found.world, w.fixed[found.value].turn)
  }

  /** The loop of Begin over the results: they must name one record. */
  function Scan(w: World, results: seq<ToolResult>, now: int): (r: Reply<Option<nat>>)
    requires Shaped(w)
    ensures Shaped(r.world) && r.world.fixed == w.fixed
    ensures r.Ok? && r.value.Some? ==> r.value.value < |w.fixed|
    ensures r.Ok? && results != [] ==> r.value.Some?
    decreases |results|
  {
    if results == [] then Ok(w, None)
    else
      var n := |results| - 1;
      var front := Scan(w, results[..n], now);
      if front.Err? then front
      else if results[n].callId == "" then Err(front.world, Invalid)
      else if exists i :: 0 <= i < n && results[i].callId == results[n].callId then Err(front.world, Duplicate)
      else
        var found := RecordFor(front.world, results[n].callId, now);
        if found.Err? then Err(found.world, found.error)
        else if front.value.Some? && front.value.value != found.value then Err(found.world, Mixed)
        else Ok(found.world, Some(found.value))
  }

  function KindsOf(calls: seq<UpstreamCall>): map<string, ToolKind> {
    if calls == [] then map[]
    else KindsOf(calls[..|calls| - 1])[calls[|calls| - 1].callId := calls[|calls| - 1].kind]
  }

  /** The second loop of Begin: every result names a call, with its kind. */
  function KindError(kinds: map<string, ToolKind>, results: seq<ToolResult>): Option<StoreError> {
    if results == [] then None
    else
      var n := |results| - 1;
      var front := KindError(kinds, results[..n]);
      if front.Some? then front
      else if results[n].callId !in kinds then Some(Unknown)
      else if results[n].kind != kinds[results[n].callId] then Some(KindMismatch)
      else None
  }

  function Granted(c: StoreConfig, w: World, r: nat, results: seq<ToolResult>, now: int): (w': World)
    requires Shaped(w) && r < |w.fixed|
    ensures Shaped(w')
  {
    w.(life := w.life[r := w.life[r].(status := Consuming, deadline := Later(now, c.leaseTtl))],
       leases := w.leases + [Grant(r, results, false)])
  }

  /** Begin; the value is the new lease. */
  function Begin(c: StoreConfig, w: World, results: seq<ToolResult>, now: int, order: seq<string>): (r: Reply<nat>)
    requires Shaped(w)
    ensures Shaped(r.world)
  {
    if w.closed then Err(w, Closed) else BeginClean(c, Cleanup(c, w, order, now), results, now)
  }

  function BeginClean(c: StoreConfig, w: World, results: seq<ToolResult>, now: int): (reply: Reply<nat>)
    requires Shaped(w)
    ensures Shaped(reply.world)
  {
    if results == [] then Err(w, Invalid)
    else
      var scan := Scan(w, results, now);
      if scan.Err? then Err(scan.world, scan.error)
      else BeginRecord(c, scan.world, scan.value.value, results, now)
  }

  function BeginRecord(c: StoreConfig, w: World, r: nat, results: seq<ToolResult>, now: int): (reply: Reply<nat>)
    requires Shaped(w) && r < |w.fixed|
    ensures Shaped(reply.world)
  {
    match w.life[r].status
    case Consuming => Err(w, Busy)
    case Consumed => Err(w, AlreadyConsumed)
    case Expired => Err(w, ExpiredTurn)
    case Pending =>
      if |results| != |w.fixed[r].turn.calls| then Err(w, Missing)
      else
        var error := KindError(KindsOf(w.fixed[r].turn.calls), results);
        if error.Some? then Err(w, error.value)
        else Ok(Granted(c, w, r, results, now), |w.leases|)
  }

  // ----- finishing a lease, closing -----

  function Finished(w: World, l: nat): (w': World)
    requires l < |w.leases|
    ensures Shaped(w) ==> Shaped(w')
  {
    w.(leases := w.leases[l := w.leases[l].(done := true)])
  }

  function Live(w: World, r: nat, life: Life): (w': World)
    requires r < |w.life|
    ensures Shaped(w) ==> Shaped(w')
  {
    w.(life := w.life[r := life])
  }

  /** finishContext: commit or abort; the value says whether the record is committed. */
  function Finish(c: StoreConfig, w: World, l: nat, commit: bool, now: int, gates: nat): (r: Reply<bool>)
    requires Shaped(w) && l < |w.leases|
    ensures Shaped(r.world)
  {
    if gates <= 0 then Err(w, Cancelled)
    else if w.leases[l].done then Err(w, Finalized)
    else if w.closed then Err(Finished(w, l), Closed)
    else if gates <= 1 then Err(w, Cancelled)
    else FinishRecord(c, w, l, commit, now)
  }

  function FinishRecord(c: StoreConfig, w: World, l: nat, commit: bool, now: int): (reply: Reply<bool>)
    requires Shaped(w) && l < |w.leases|
    ensures Shaped(reply.world)
  {
    var r := w.leases[l].record;
    var life := w.life[r];
    if life.status == Expired then Err(Finished(w, l), ExpiredTurn)
    else if life.status != Consuming then Err(Finished(w, l), Invalid)
    else if now >= life.deadline then Err(Finished(ExpireRecord(c, w, r, now), l), ExpiredTurn)
    else if commit then Ok(Finished(Live(w, r, Life(Consumed, Later(now, c.grace), life.commits + 1)), l), true)
    else if now < w.fixed[r].expiry then
      Ok(Finished(Live(w, r, life.(status := Pending, deadline := w.fixed[r].expiry)), l), false)
    else Ok(Finished(ExpireRecord(c, w, r, now), l), false)
  }

  function Close(w: World): (w': World)
    ensures Shaped(w) ==> Shaped(w')
  {
    w.(books := EMPTY_BOOKS, closed := true)
  }

  // ----- runs -----

  /** One locked section, with its time and its map order. Release is the end of a
      lease by commit or abort; a lease that was never granted is no step. */
  datatype Op =
    | SaveTurn(turn: PendingTurn, now: int, order: seq<string>, gates: nat)
    | LookUp(id: string, now: int, order: seq<string>)
    | Claim(results: seq<ToolResult>, now: int, order: seq<string>)
    | Release(lease: nat, commit: bool, now: int, gates: nat)
    | Tick(now: int, order: seq<string>)
    | CloseStore

  function Apply(c: StoreConfig, w: World, op: Op): (w': World)
    requires Shaped(w)
    ensures Shaped(w')
  {
    match op
    case SaveTurn(turn, now, order, gates) => Save(c, w, turn, now, order, gates).world
    case LookUp(id, now, order) => Lookup(c, w, id, now, order).world
    case Claim(results, now, order) => Begin(c, w, results, now, order).world
    case Release(l, commit, now, gates) => if l < |w.leases| then Finish(c, w, l, commit, now, gates).world else w
    case Tick(now, order) => if w.closed then w else Cleanup(c, w, order, now)
    case CloseStore => Close(w)
  }

  /** The map order of the step fits the record map it walks. */
  ghost predicate OrderFits(w: World, op: Op) {
    (op.SaveTurn? || op.LookUp? || op.Claim? || op.Tick?) ==> IsOrder(op.order, w.books.table.Keys)
  }
}
