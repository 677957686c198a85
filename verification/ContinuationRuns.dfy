/** Whole runs of the continuation store: any interleaving of its locked sections,
    at any times, in any map orders. */
module ContinuationRuns {
  import opened Bridge
  import opened ContinuationSpec
  import opened ContinuationSafety
  import opened ContinuationSweep
  import opened ContinuationSteps
  import opened ContinuationTheorems

  function Run(c: StoreConfig, w: World, ops: seq<Op>): (w': World)
    requires Shaped(w)
    ensures Shaped(w')
    decreases |ops|
  {
    if ops == [] then w
    else
      var front := Run(c, w, ops[..|ops| - 1]);
      Apply(c, front, ops[|ops| - 1])
  }

  /** Every step of the run walks the record map it finds. */
  ghost predicate RunFits(c: StoreConfig, w: World, ops: seq<Op>)
    requires Shaped(w)
    decreases |ops|
  {
    ops == [] ||
    (RunFits(c, w, ops[..|ops| - 1]) && OrderFits(Run(c, w, ops[..|ops| - 1]), ops[|ops| - 1]))
  }

  lemma RunStep(c: StoreConfig, w: World, ops: seq<Op>, op: Op)
    requires Shaped(w)
    ensures Run(c, w, ops + [op]) == Apply(c, Run(c, w, ops), op)
    ensures RunFits(c, w, ops + [op]) <==> RunFits(c, w, ops) && OrderFits(Run(c, w, ops), op)
  {
    assert (ops + [op])[..|ops|] == ops;
  }

  /** Safety over every run: whatever the interleaving of saves, lookups, claims,
      commits, aborts, cleanups and the close, the invariant holds throughout. */
  lemma {:induction false} EveryRunKeeps(c: StoreConfig, w: World, ops: seq<Op>)
    requires Inv(c, w) && RunFits(c, w, ops)
    ensures Inv(c, Run(c, w, ops))
    decreases |ops|
  {
    if ops != [] {
      var front, last := ops[..|ops| - 1], ops[|ops| - 1];
      assert ops == front + [last];
      RunStep(c, w, front, last);
      EveryRunKeeps(c, w, front);
      OneMoreKeeps(c, Run(c, w, front), last, Run(c, w, ops));
    }
  }

  lemma OneMoreKeeps(c: StoreConfig, w: World, op: Op, after: World)
    requires Inv(c, w) && OrderFits(w, op) && after == Apply(c, w, op)
    ensures Inv(c, after)
  {
    ApplyKeeps(c, w, op);
    Same(c, Apply(c, w, op), after);
  }

  lemma EveryRunFromNew(c: StoreConfig, ops: seq<Op>)
    requires ConfigValid(c) && RunFits(c, NEW_WORLD, ops)
    ensures Inv(c, Run(c, NEW_WORLD, ops))
  {
    NewWorldInv(c);
    EveryRunKeeps(c, NEW_WORLD, ops);
  }

  // ----- what the invariant says about leases -----

  /** The lease protocol of an open store: a Consuming record is the one its key
      finds and has exactly one unfinished lease; a Pending one has none. */
  ghost predicate Protocol(w: World, r: nat)
    requires Shaped(w) && r < |w.fixed|
  {
    && (Waiting(w.life[r].status) ==> Holds(w, r))
    && (w.life[r].status == Consuming ==> exists l: nat :: Unfinished(w, l, r))
    && (w.life[r].status == Pending ==> forall l: nat :: !Unfinished(w, l, r))
    && forall l: nat, m: nat :: Unfinished(w, l, r) && Unfinished(w, m, r) ==> l == m
  }

  lemma LeaseProtocol(w: World, r: nat)
    requires Shaped(w) && Leased(w) && r < |w.fixed|
    ensures Protocol(w, r)
  {
    forall l: nat | Unfinished(w, l, r)
      ensures w.life[r].status != Pending
    {
      assert Owned(w.life[w.leases[l].record].status);
    }
  }

  /** Finishing a lease touches at most the record it was granted for: every other
      record stays in place, under its key and with its status, and the lease's own
      record leaves the map only if the key still finds that very record. */
  ghost predicate OnlyOwn(w: World, l: nat, w': World)
    requires Shaped(w) && l < |w.leases|
  {
    && (forall k :: k in w.books.table && w.books.table[k] != w.leases[l].record ==>
          k in w'.books.table && w'.books.table[k] == w.books.table[k])
    && (forall k :: k in w'.books.table ==> k in w.books.table && w'.books.table[k] == w.books.table[k])
    && w'.fixed == w.fixed && |w'.life| == |w.life|
    && (forall r :: 0 <= r < |w.fixed| && r != w.leases[l].record ==> w'.life[r] == w.life[r])
  }

  lemma ExpireOnlyOwn(c: StoreConfig, w: World, l: nat, now: int)
    requires Shaped(w) && l < |w.leases| && Holds(w, w.leases[l].record)
    ensures OnlyOwn(w, l, Finished(ExpireRecord(c, w, w.leases[l].record, now), l))
  {
  }

  lemma FinishOnlyOwn(c: StoreConfig, w: World, l: nat, commit: bool, now: int)
    requires Shaped(w) && l < |w.leases|
    requires w.life[w.leases[l].record].status == Consuming ==> Holds(w, w.leases[l].record)
    ensures OnlyOwn(w, l, FinishRecord(c, w, l, commit, now).world)
  {
    if w.life[w.leases[l].record].status == Consuming {
      ExpireOnlyOwn(c, w, l, now);
    }
  }

  lemma FinishWorld(c: StoreConfig, w: World, l: nat, commit: bool, now: int, gates: nat)
    requires Shaped(w) && l < |w.leases|
    ensures var w' := Finish(c, w, l, commit, now, gates).world;
      || w' == w || w' == Finished(w, l)
      || (!w.closed && !w.leases[l].done && w' == FinishRecord(c, w, l, commit, now).world)
  {
  }

  lemma DoneOnlyOwn(w: World, l: nat)
    requires Shaped(w) && l < |w.leases|
    ensures OnlyOwn(w, l, w) && OnlyOwn(w, l, Finished(w, l))
  {
  }

  lemma StaleLease(c: StoreConfig, w: World, l: nat, commit: bool, now: int, gates: nat)
    requires Inv(c, w) && l < |w.leases|
    ensures OnlyOwn(w, l, Finish(c, w, l, commit, now, gates).world)
  {
    FinishWorld(c, w, l, commit, now, gates);
    DoneOnlyOwn(w, l);
    if !w.closed && !w.leases[l].done {
      OpenLease(c, w, l);
      FinishOnlyOwn(c, w, l, commit, now);
    }
  }

  // ----- identity and commits over a run -----

  /** The frame of a step that commits nothing: records keep what never changes and
      their commit counts; new records have none. */
  ghost predicate SameCommits(w: World, w': World)
    requires Shaped(w) && Shaped(w')
  {
    && w.fixed <= w'.fixed
    && (forall r :: 0 <= r < |w.fixed| ==> w'.life[r].commits == w.life[r].commits)
    && (forall r :: |w.fixed| <= r < |w'.fixed| ==> w'.life[r].commits == 0)
  }

  lemma CleanupCommits(c: StoreConfig, w: World, order: seq<string>, now: int)
    requires Inv(c, w) && !w.closed && IsOrder(order, w.books.table.Keys)
    ensures SameCommits(w, Cleanup(c, w, order, now))
  {
    CleanupExact(c, w, order, now);
    var w' := Cleanup(c, w, order, now);
    forall r | 0 <= r < |w.fixed|
      ensures w'.life[r].commits == w.life[r].commits
    {
      assert w'.life[r] == CleanLife(w, r, now);
    }
  }

  lemma SameCommitsChain(w: World, w1: World, w2: World)
    requires Shaped(w) && Shaped(w1) && Shaped(w2) && SameCommits(w, w1) && SameCommits(w1, w2)
    ensures SameCommits(w, w2)
  {
  }

  lemma StoredCommits(w: World, turn: PendingTurn, bytes: nat, expiry: int)
    requires Shaped(w) && turn.calls != []
    ensures SameCommits(w, Stored(w, turn, bytes, expiry))
  {
  }

  lemma SaveCleanCommits(c: StoreConfig, w: World, turn: PendingTurn, now: int, gates: nat)
    requires Inv(c, w) && !w.closed
    ensures SameCommits(w, SaveClean(c, w, turn, now, gates).world)
  {
    SaveCleanOutcome(c, w, turn, now, gates);
    var r := SaveClean(c, w, turn, now, gates);
    if r.Ok? {
      StoredCommits(w, Normalized(turn), c.encode(Normalized(turn), now).value, Later(now, c.ttl));
    }
  }

  lemma SaveWorld(c: StoreConfig, w: World, turn: PendingTurn, now: int, order: seq<string>, gates: nat)
    requires Shaped(w)
    ensures var w' := Save(c, w, turn, now, order, gates).world;
      w' == w || (!w.closed && w' == SaveClean(c, Cleanup(c, w, order, now), turn, now, gates).world)
  {
  }

  lemma SaveCommits(c: StoreConfig, w: World, turn: PendingTurn, now: int, order: seq<string>, gates: nat)
    requires Inv(c, w) && IsOrder(order, w.books.table.Keys)
    ensures SameCommits(w, Save(c, w, turn, now, order, gates).world)
  {
    SaveWorld(c, w, turn, now, order, gates);
    if !w.closed {
      var clean := Cleanup(c, w, order, now);
      CleanupKeeps(c, w, order, now);
      CleanupCommits(c, w, order, now);
      SaveCleanCommits(c, clean, turn, now, gates);
      SameCommitsChain(w, clean, SaveClean(c, clean, turn, now, gates).world);
    }
  }

  lemma GrantedCommits(c: StoreConfig, w: World, r: nat, results: seq<ToolResult>, now: int)
    requires Shaped(w) && r < |w.fixed|
    ensures SameCommits(w, Granted(c, w, r, results, now))
  {
  }

  lemma BeginCommits(c: StoreConfig, w: World, results: seq<ToolResult>, now: int, order: seq<string>)
    requires Inv(c, w) && IsOrder(order, w.books.table.Keys)
    ensures SameCommits(w, Begin(c, w, results, now, order).world)
  {
    BeginExactly(c, w, results, now, order);
    if !w.closed {
      var clean := Cleanup(c, w, order, now);
      CleanupCommits(c, w, order, now);
      if r :| 0 <= r < |w.fixed| && Awaits(w, r, results) && now < w.fixed[r].expiry {
        GrantedCommits(c, clean, r, results, now);
        SameCommitsChain(w, clean, Granted(c, clean, r, results, now));
      }
    }
  }

  /** The step is the successful commit of a lease on record r. */
  predicate CommitsTo(c: StoreConfig, w: World, op: Op, r: nat)
    requires Shaped(w)
  {
    && op.Release? && op.commit && op.lease < |w.leases| && w.leases[op.lease].record == r
    && Finish(c, w, op.lease, true, op.now, op.gates).Ok?
  }

  lemma FinishCommits(c: StoreConfig, w: World, l: nat, commit: bool, now: int, gates: nat, r: nat)
    requires Shaped(w) && l < |w.leases| && r < |w.fixed|
    ensures var reply := Finish(c, w, l, commit, now, gates);
      && reply.world.fixed == w.fixed
      && reply.world.life[r].commits ==
           w.life[r].commits + (if commit && w.leases[l].record == r && reply.Ok? then 1 else 0)
  {
  }

  lemma ApplyCommits(c: StoreConfig, w: World, op: Op, r: nat)
    requires Inv(c, w) && OrderFits(w, op) && r < |w.fixed|
    ensures var w' := Apply(c, w, op);
      w.fixed <= w'.fixed && w'.life[r].commits == w.life[r].commits + (if CommitsTo(c, w, op, r) then 1 else 0)
  {
    match op
    case SaveTurn(turn, now, order, gates) => SaveCommits(c, w, turn, now, order, gates);
    case LookUp(id, now, order) =>
      LookupKeeps(c, w, id, now, order);
      if !w.closed { CleanupCommits(c, w, order, now); }
    case Claim(results, now, order) => BeginCommits(c, w, results, now, order);
    case Release(l, commit, now, gates) => if l < |w.leases| { FinishCommits(c, w, l, commit, now, gates, r); }
    case Tick(now, order) => if !w.closed { CleanupCommits(c, w, order, now); }
    case CloseStore =>
  }

  /** How often the run commits record r. */
  ghost function Commits(c: StoreConfig, w: World, ops: seq<Op>, r: nat): nat
    requires Shaped(w)
    decreases |ops|
  {
    if ops == [] then 0
    else
      var front := ops[..|ops| - 1];
      Commits(c, w, front, r) + if CommitsTo(c, Run(c, w, front), ops[|ops| - 1], r) then 1 else 0
  }

  lemma CommitsStep(c: StoreConfig, w: World, ops: seq<Op>, op: Op, r: nat)
    requires Shaped(w)
    ensures Commits(c, w, ops + [op], r) == Commits(c, w, ops, r) + if CommitsTo(c, Run(c, w, ops), op, r) then 1 else 0
  {
    assert (ops + [op])[..|ops|] == ops;
  }

  /** A run never changes a record's key, turn, size or original expiry. */
  lemma {:induction false} RunGrows(c: StoreConfig, w: World, ops: seq<Op>)
    requires Inv(c, w) && RunFits(c, w, ops)
    ensures w.fixed <= Run(c, w, ops).fixed
    decreases |ops|
  {
    if ops != [] {
      var front, last := ops[..|ops| - 1], ops[|ops| - 1];
      assert ops == front + [last];
      RunStep(c, w, front, last);
      RunGrows(c, w, front);
      EveryRunKeeps(c, w, front);
      StepGrows(c, Run(c, w, front), last);
    }
  }

  lemma StepGrows(c: StoreConfig, w: World, op: Op)
    requires Inv(c, w) && OrderFits(w, op)
    ensures w.fixed <= Apply(c, w, op).fixed
  {
    if |w.fixed| > 0 {
      ApplyCommits(c, w, op, 0);
    }
  }

  /** A record that a step creates has not been committed, nor does that step commit it. */
  lemma ApplyNew(c: StoreConfig, w: World, op: Op, r: nat)
    requires Inv(c, w) && OrderFits(w, op) && |w.fixed| <= r
    ensures !CommitsTo(c, w, op, r)
    ensures r < |Apply(c, w, op).fixed| ==> Apply(c, w, op).life[r].commits == 0
  {
    match op
    case SaveTurn(turn, now, order, gates) => SaveCommits(c, w, turn, now, order, gates);
    case LookUp(id, now, order) => LookupKeeps(c, w, id, now, order);
    case Claim(results, now, order) => BeginCommits(c, w, results, now, order);
    case Release(l, commit, now, gates) => if l < |w.leases| { FinishSameRecords(c, w, l, commit, now, gates); }
    case Tick(now, order) =>
    case CloseStore =>
  }

  lemma FinishSameRecords(c: StoreConfig, w: World, l: nat, commit: bool, now: int, gates: nat)
    requires Shaped(w) && l < |w.leases|
    ensures Finish(c, w, l, commit, now, gates).world.fixed == w.fixed && w.leases[l].record < |w.fixed|
  {
  }

  /** The commits that the record remembers; one that is still to come has none. */
  function CommitsOf(w: World, r: nat): nat
    requires Shaped(w)
  {
    if r < |w.fixed| then w.life[r].commits else 0
  }

  lemma StepCommits(c: StoreConfig, w: World, op: Op, r: nat)
    requires Inv(c, w) && OrderFits(w, op)
    ensures CommitsOf(Apply(c, w, op), r) == CommitsOf(w, r) + if CommitsTo(c, w, op, r) then 1 else 0
  {
    if r < |w.fixed| {
      ApplyCommits(c, w, op, r);
    } else {
      ApplyNew(c, w, op, r);
    }
  }

  lemma {:induction false} RunCommits(c: StoreConfig, w: World, ops: seq<Op>, r: nat)
    requires Inv(c, w) && RunFits(c, w, ops)
    ensures CommitsOf(Run(c, w, ops), r) == CommitsOf(w, r) + Commits(c, w, ops, r)
    decreases |ops|
  {
    if ops != [] {
      var front, last := ops[..|ops| - 1], ops[|ops| - 1];
      assert ops == front + [last];
      RunStep(c, w, front, last);
      CommitsStep(c, w, front, last, r);
      RunCommits(c, w, front, r);
      EveryRunKeeps(c, w, front);
      StepCommits(c, Run(c, w, front), last, r);
    }
  }

  /** Over any run every record, be it there at the start or saved on the way, is
      committed at most once, and never again if it was consumed at the start. */
  lemma CommittedAtMostOnce(c: StoreConfig, w: World, ops: seq<Op>, r: nat)
    requires Inv(c, w) && RunFits(c, w, ops)
    ensures Commits(c, w, ops, r) <= 1
    ensures r < |w.fixed| && w.life[r].status == Consumed ==> Commits(c, w, ops, r) == 0
  {
    RunCommits(c, w, ops, r);
    EveryRunKeeps(c, w, ops);
    AtMostOne(c, w, r);
    AtMostOne(c, Run(c, w, ops), r);
  }

  lemma AtMostOne(c: StoreConfig, w: World, r: nat)
    requires Inv(c, w)
    ensures CommitsOf(w, r) <= 1
    ensures r < |w.fixed| ==> (CommitsOf(w, r) == 1 <==> w.life[r].status == Consumed)
  {
    if r < |w.fixed| {
      OnceOf(c, w, r);
    }
  }

  /** The same for the whole life of a store: a record has been committed exactly if
      it is consumed, and then exactly once. */
  lemma CommittedFromNew(c: StoreConfig, ops: seq<Op>, r: nat)
    requires ConfigValid(c) && RunFits(c, NEW_WORLD, ops) && r < |Run(c, NEW_WORLD, ops).fixed|
    ensures Commits(c, NEW_WORLD, ops, r) == if Run(c, NEW_WORLD, ops).life[r].status == Consumed then 1 else 0
  {
    NewWorldInv(c);
    RunCommits(c, NEW_WORLD, ops, r);
    EveryRunFromNew(c, ops);
    AtMostOne(c, Run(c, NEW_WORLD, ops), r);
  }

  lemma OnceOf(c: StoreConfig, w: World, r: nat)
    requires Inv(c, w) && r < |w.fixed|
    ensures Once(w.life[r]) && Timely(c, w.fixed[r], w.life[r])
  {
  }

  // ----- the lifetime bound -----

  /** However often a record is claimed and given back, and however the clock jumps:
      a cleanup at now keeps it Pending only before the expiry it was saved with, and
      keeps it at all only before that expiry plus a lease and a grace period. */
  lemma LifetimeBound(c: StoreConfig, w: World, ops: seq<Op>, now: int, order: seq<string>, r: nat)
    requires Inv(c, w) && RunFits(c, w, ops) && r < |w.fixed| && !Run(c, w, ops).closed
    requires IsOrder(order, Run(c, w, ops).books.table.Keys)
    ensures var w' := Cleanup(c, Run(c, w, ops), order, now);
      && w.fixed <= w'.fixed
      && (Holds(w', r) && w'.life[r].status == Pending ==> now < w.fixed[r].expiry)
      && (Holds(w', r) ==> now < w.fixed[r].expiry + c.leaseTtl + c.grace)
  {
    RunGrows(c, w, ops);
    EveryRunKeeps(c, w, ops);
    KeptBefore(c, Run(c, w, ops), now, order, r);
  }

  lemma {:induction false} RunConcat(c: StoreConfig, w: World, a: seq<Op>, b: seq<Op>)
    requires Shaped(w)
    ensures Run(c, w, a + b) == Run(c, Run(c, w, a), b)
    ensures RunFits(c, w, a + b) <==> RunFits(c, w, a) && RunFits(c, Run(c, w, a), b)
    decreases |b|
  {
    if b == [] {
      assert a + b == a;
    } else {
      var front, last := b[..|b| - 1], b[|b| - 1];
      var most := a + front;
      assert most + [last] == a + b && front + [last] == b;
      RunConcat(c, w, a, front);
      RunStep(c, w, most, last);
      RunStep(c, Run(c, w, a), front, last);
    }
  }

  /** The same for the whole life of a store: a record that some operation has saved
      is bound by the expiry it had then, whatever happens after. */
  lemma LifetimeFromNew(c: StoreConfig, before: seq<Op>, later: seq<Op>, now: int, order: seq<string>, r: nat)
    requires ConfigValid(c) && RunFits(c, NEW_WORLD, before + later) && r < |Run(c, NEW_WORLD, before).fixed|
    requires !Run(c, NEW_WORLD, before + later).closed
    requires IsOrder(order, Run(c, NEW_WORLD, before + later).books.table.Keys)
    ensures var w, w' := Run(c, NEW_WORLD, before), Cleanup(c, Run(c, NEW_WORLD, before + later), order, now);
      && w.fixed <= w'.fixed
      && (Holds(w', r) && w'.life[r].status == Pending ==> now < w.fixed[r].expiry)
      && (Holds(w', r) ==> now < w.fixed[r].expiry + c.leaseTtl + c.grace)
  {
    RunConcat(c, NEW_WORLD, before, later);
    EveryRunFromNew(c, before);
    LifetimeBound(c, Run(c, NEW_WORLD, before), later, now, order, r);
  }

  lemma KeptBefore(c: StoreConfig, w: World, now: int, order: seq<string>, r: nat)
    requires Inv(c, w) && !w.closed && IsOrder(order, w.books.table.Keys) && r < |w.fixed|
    ensures var w' := Cleanup(c, w, order, now);
      && (Holds(w', r) && w'.life[r].status == Pending ==> now < w.fixed[r].expiry)
      && (Holds(w', r) ==> now < w.fixed[r].expiry + c.leaseTtl + c.grace)
  {
    var w' := Cleanup(c, w, order, now);
    CleanupKeeps(c, w, order, now);
    CleanedFresh(c, w, order, now);
    OnceOf(c, w', r);
  }

  // ----- a saved turn waits for its results -----

  /** The step leaves a Pending record with these calls and this expiry alone. */
  predicate Quiet(op: Op, calls: seq<UpstreamCall>, expiry: int) {
    match op
    case SaveTurn(turn, now, order, gates) => now < expiry
    case LookUp(id, now, order) => now < expiry
    case Claim(results, now, order) => now < expiry && !Answers(calls, results)
    case Release(l, commit, now, gates) => true
    case Tick(now, order) => now < expiry
    case CloseStore => false
  }

  predicate Waits(w: World, r: nat)
    requires Shaped(w)
  {
    !w.closed && Holds(w, r) && w.life[r].status == Pending
  }

  lemma CleanupWaits(c: StoreConfig, w: World, order: seq<string>, now: int, r: nat)
    requires Inv(c, w) && Waits(w, r) && IsOrder(order, w.books.table.Keys) && now < w.fixed[r].expiry
    ensures Inv(c, Cleanup(c, w, order, now)) && Waits(Cleanup(c, w, order, now), r)
    ensures Cleanup(c, w, order, now).fixed == w.fixed
  {
    CleanupKeeps(c, w, order, now);
    PendingSurvives(c, w, order, now, r);
  }

  lemma SaveCleanWaits(c: StoreConfig, w: World, turn: PendingTurn, now: int, gates: nat, r: nat)
    requires Inv(c, w) && Waits(w, r)
    ensures Waits(SaveClean(c, w, turn, now, gates).world, r)
  {
    SaveCleanOutcome(c, w, turn, now, gates);
    var reply := SaveClean(c, w, turn, now, gates);
    if reply.Ok? {
      NormalizedNormal(turn);
      var size := c.encode(Normalized(turn), now).value;
      StoredWaits(c, w, Normalized(turn), size, Later(now, c.ttl), r);
    }
  }

  lemma SaveWaits(c: StoreConfig, w: World, turn: PendingTurn, now: int, order: seq<string>, gates: nat, r: nat)
    requires Inv(c, w) && Waits(w, r) && IsOrder(order, w.books.table.Keys) && now < w.fixed[r].expiry
    ensures Waits(Save(c, w, turn, now, order, gates).world, r)
  {
    SaveWorld(c, w, turn, now, order, gates);
    CleanupWaits(c, w, order, now, r);
    SaveCleanWaits(c, Cleanup(c, w, order, now), turn, now, gates, r);
  }

  lemma LookupWaits(c: StoreConfig, w: World, id: string, now: int, order: seq<string>, r: nat)
    requires Inv(c, w) && Waits(w, r) && IsOrder(order, w.books.table.Keys) && now < w.fixed[r].expiry
    ensures Waits(Lookup(c, w, id, now, order).world, r)
  {
    CleanupWaits(c, w, order, now, r);
    LookupKeeps(c, w, id, now, order);
  }

  lemma StoredWaits(c: StoreConfig, w: World, turn: PendingTurn, bytes: nat, expiry: int, r: nat)
    requires Inv(c, w) && Waits(w, r) && Normalizable(turn) && Room(c.limits, w.books, turn, bytes)
    ensures Waits(Stored(w, turn, bytes, expiry), r)
  {
    StoredParts(c, w, Fixed(turn.calls[0].callId, turn, bytes, expiry));
    OtherStays(w, turn, bytes, expiry, r);
  }

  /** A record under a new key leaves the others where they are. */
  lemma OtherStays(w: World, turn: PendingTurn, bytes: nat, expiry: int, r: nat)
    requires Shaped(w) && Waits(w, r) && turn.calls != [] && turn.calls[0].callId !in w.books.table
    ensures Waits(Stored(w, turn, bytes, expiry), r)
  {
    var key := w.fixed[r].key;
    assert key in w.books.table && key != turn.calls[0].callId;
  }

  lemma ReleaseWaits(c: StoreConfig, w: World, l: nat, commit: bool, now: int, gates: nat, r: nat)
    requires Inv(c, w) && Waits(w, r) && l < |w.leases|
    ensures Waits(Finish(c, w, l, commit, now, gates).world, r)
  {
    if w.leases[l].done {
      DoneReleases(c, w, l, commit, now, gates);
    } else {
      LeaseProtocol(w, r);
      assert !Unfinished(w, l, r);
      StaleLease(c, w, l, commit, now, gates);
      FinishLeaves(c, w, l, commit, now, gates);
      OtherWaits(w, l, r, Finish(c, w, l, commit, now, gates).world);
    }
  }

  lemma DoneReleases(c: StoreConfig, w: World, l: nat, commit: bool, now: int, gates: nat)
    requires Shaped(w) && l < |w.leases| && w.leases[l].done
    ensures Finish(c, w, l, commit, now, gates).world == w
  {
  }

  lemma FinishLeaves(c: StoreConfig, w: World, l: nat, commit: bool, now: int, gates: nat)
    requires Shaped(w) && l < |w.leases|
    ensures Finish(c, w, l, commit, now, gates).world.closed == w.closed
  {
  }

  /** Finishing a lease on another record leaves a waiting record waiting. */
  lemma OtherWaits(w: World, l: nat, r: nat, after: World)
    requires Shaped(w) && r < |w.fixed| && Waits(w, r) && l < |w.leases| && w.leases[l].record != r
    requires OnlyOwn(w, l, after) && Shaped(after) && after.closed == w.closed
    ensures Waits(after, r)
  {
  }

  lemma ClaimWaits(c: StoreConfig, w: World, results: seq<ToolResult>, now: int, order: seq<string>, r: nat)
    requires Inv(c, w) && Waits(w, r) && IsOrder(order, w.books.table.Keys) && now < w.fixed[r].expiry
    requires !Answers(w.fixed[r].turn.calls, results)
    ensures Waits(Begin(c, w, results, now, order).world, r)
  {
    CleanupWaits(c, w, order, now, r);
    BeginExactly(c, w, results, now, order);
    if s :| 0 <= s < |w.fixed| && Awaits(w, s, results) && now < w.fixed[s].expiry {
      assert s != r;
    }
  }

  lemma QuietStep(c: StoreConfig, w: World, op: Op, r: nat)
    requires Inv(c, w) && OrderFits(w, op) && Waits(w, r)
    requires Quiet(op, w.fixed[r].turn.calls, w.fixed[r].expiry)
    ensures Waits(Apply(c, w, op), r)
  {
    match op
    case SaveTurn(turn, now, order, gates) => SaveWaits(c, w, turn, now, order, gates, r);
    case LookUp(id, now, order) => LookupWaits(c, w, id, now, order, r);
    case Claim(results, now, order) => ClaimWaits(c, w, results, now, order, r);
    case Release(l, commit, now, gates) => if l < |w.leases| { ReleaseWaits(c, w, l, commit, now, gates, r); }
    case Tick(now, order) => CleanupWaits(c, w, order, now, r);
  }

  ghost predicate AllQuiet(ops: seq<Op>, calls: seq<UpstreamCall>, expiry: int) {
    forall i :: 0 <= i < |ops| ==> Quiet(ops[i], calls, expiry)
  }

  lemma {:induction false} QuietRun(c: StoreConfig, w: World, ops: seq<Op>, r: nat)
    requires Inv(c, w) && RunFits(c, w, ops) && Waits(w, r)
    requires AllQuiet(ops, w.fixed[r].turn.calls, w.fixed[r].expiry)
    ensures Waits(Run(c, w, ops), r) && w.fixed <= Run(c, w, ops).fixed
    decreases |ops|
  {
    if ops != [] {
      var front, last := ops[..|ops| - 1], ops[|ops| - 1];
      assert ops == front + [last];
      RunStep(c, w, front, last);
      QuietRun(c, w, front, r);
      EveryRunKeeps(c, w, front);
      QuietStep(c, Run(c, w, front), last, r);
      StepGrows(c, Run(c, w, front), last);
    }
  }

  /** The lease that Begin has issued belongs to this record and these results. */
  predicate Leases(reply: Reply<nat>, r: nat, results: seq<ToolResult>) {
    && reply.Ok? && reply.value < |reply.world.leases|
    && reply.world.leases[reply.value] == Grant(r, results, false)
  }

  /** A waiting turn is claimed by one result per call, in any order, at any time
      before its expiry, whatever happened in between short of another Begin for
      the same calls, a close, or a clock that ran past the expiry. */
  lemma WaitingTurnIsAccepted(c: StoreConfig, w: World, r: nat, ops: seq<Op>,
                              results: seq<ToolResult>, now: int, order: seq<string>)
    requires Inv(c, w) && Waits(w, r) && RunFits(c, w, ops)
    requires AllQuiet(ops, w.fixed[r].turn.calls, w.fixed[r].expiry)
    requires IsOrder(order, Run(c, w, ops).books.table.Keys)
    requires now < w.fixed[r].expiry && Answers(w.fixed[r].turn.calls, results)
    ensures w.fixed <= Run(c, w, ops).fixed
    ensures Leases(Begin(c, Run(c, w, ops), results, now, order), r, results)
  {
    QuietRun(c, w, ops, r);
    EveryRunKeeps(c, w, ops);
    AwaitedIsLeased(c, Run(c, w, ops), r, results, now, order);
  }

  lemma AwaitedIsLeased(c: StoreConfig, w: World, r: nat, results: seq<ToolResult>, now: int, order: seq<string>)
    requires Inv(c, w) && !w.closed && Awaits(w, r, results) && now < w.fixed[r].expiry
    requires IsOrder(order, w.books.table.Keys)
    ensures Leases(Begin(c, w, results, now, order), r, results)
  {
    CleanupExact(c, w, order, now);
    BeginExactly(c, w, results, now, order);
  }

  /** What SaveContext stores waits, with the expiry at + ttl. */
  lemma SavedWaits(c: StoreConfig, w: World, turn: PendingTurn, at: int, order: seq<string>, gates: nat)
    requires Inv(c, w) && Save(c, w, turn, at, order, gates).Ok?
    ensures var reply := Save(c, w, turn, at, order, gates);
      && Inv(c, reply.world) && Waits(reply.world, reply.value)
      && reply.world.fixed[reply.value].turn == Normalized(turn)
      && reply.world.fixed[reply.value].expiry == Later(at, c.ttl)
  {
    SaveOk(c, w, turn, at, order, gates);
    CleanupKeeps(c, w, order, at);
    SaveCleanKeeps(c, Cleanup(c, w, order, at), turn, at, gates);
    SavedCleanWaits(c, Cleanup(c, w, order, at), turn, at, gates);
  }

  lemma SaveOk(c: StoreConfig, w: World, turn: PendingTurn, at: int, order: seq<string>, gates: nat)
    requires Shaped(w) && Save(c, w, turn, at, order, gates).Ok?
    ensures !w.closed && Save(c, w, turn, at, order, gates) == SaveClean(c, Cleanup(c, w, order, at), turn, at, gates)
  {
  }

  lemma SavedCleanWaits(c: StoreConfig, w: World, turn: PendingTurn, at: int, gates: nat)
    requires Inv(c, w) && !w.closed && SaveClean(c, w, turn, at, gates).Ok?
    ensures var reply := SaveClean(c, w, turn, at, gates);
      && Waits(reply.world, reply.value)
      && reply.world.fixed[reply.value].turn == Normalized(turn)
      && reply.world.fixed[reply.value].expiry == Later(at, c.ttl)
  {
    SaveCleanOutcome(c, w, turn, at, gates);
  }

  /** Naming the calls for the provider keeps what the client answers. */
  lemma NormalizedAnswers(turn: PendingTurn, results: seq<ToolResult>)
    ensures Answers(Normalized(turn).calls, results) <==> Answers(turn.calls, results)
  {
    var calls := Normalized(turn).calls;
    assert forall i :: 0 <= i < |calls| ==> calls[i] == NamedCall(turn.calls[i]);
    CallIdsNamed(turn.calls);
    forall k | 0 <= k < |results|
      ensures Answered(calls, results[k]) <==> Answered(turn.calls, results[k])
    {
      if Answered(turn.calls, results[k]) {
        var i :| 0 <= i < |turn.calls| && turn.calls[i].callId == results[k].callId &&
          turn.calls[i].kind == results[k].kind;
        assert calls[i].callId == results[k].callId && calls[i].kind == results[k].kind;
      }
    }
  }

  /** The round trip through the store: a turn that SaveContext has stored is claimed
      by its own results, and the lease carries the stored turn. */
  lemma SavedTurnIsAccepted(c: StoreConfig, w: World, turn: PendingTurn, at: int, order: seq<string>, gates: nat,
                            saved: Reply<nat>, ops: seq<Op>, results: seq<ToolResult>, now: int, order': seq<string>)
    requires Inv(c, w) && saved == Save(c, w, turn, at, order, gates) && saved.Ok? && Shaped(saved.world)
    requires RunFits(c, saved.world, ops) && AllQuiet(ops, Normalized(turn).calls, Later(at, c.ttl))
    requires IsOrder(order', Run(c, saved.world, ops).books.table.Keys)
    requires now < Later(at, c.ttl) && Answers(turn.calls, results)
    ensures Leases(Begin(c, Run(c, saved.world, ops), results, now, order'), saved.value, results)
    ensures saved.value < |saved.world.fixed| && saved.world.fixed <= Run(c, saved.world, ops).fixed
    ensures saved.world.fixed[saved.value].turn == Normalized(turn)
  {
    SavedWaits(c, w, turn, at, order, gates);
    NormalizedAnswers(turn, results);
    WaitingTurnIsAccepted(c, saved.world, saved.value, ops, results, now, order');
  }
}
