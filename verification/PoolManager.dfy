/**
 The manager of all pools: pause tasks, paused ids and the janitor's two passes, run one call at a
 time. PoolProtocol follows the same calls under every interleaving.
 */
module PoolManager {
  import opened Workers
  import opened Ledger
  import opened ContainerPool

  /** The scaling section of a function's configuration, as far as pools look at it. */
  datatype Scaling = Scaling(maxCapacity: Option<int>, acquireTimeout: Option<Time>)
  {
    function Capacity(): int {
      if maxCapacity.Some? then maxCapacity.value else 1
    }

    function Timeout(): Time {
      if acquireTimeout.Some? then acquireTimeout.value else 5.0
    }
  }

  /** A row of the agent's container listing. */
  datatype Row = Row(id: WorkerId, createdAt: Time)

  class PoolManager {
    const pauseEnabled: bool
    var pools: map<string, ContainerPool>
    var pauseTasks: map<WorkerId, nat>  // handles of the pause tasks
    var cancelled: set<nat>             // handles cancel() was called on
    var nextTask: nat
    var pausedIds: set<WorkerId>

    constructor (pauseEnabled: bool, pauseIdleSeconds: Time)
      ensures this.pauseEnabled == (pauseEnabled && pauseIdleSeconds > 0.0)
      ensures pools == map[] && pauseTasks == map[] && pausedIds == {} && cancelled == {}
    {
      this.pauseEnabled := pauseEnabled && pauseIdleSeconds > 0.0;
      pools, pauseTasks, cancelled, nextTask, pausedIds := map[], map[], {}, 0, {};
    }

    method CancelPauseTask(id: WorkerId)
      modifies this`pauseTasks, this`cancelled
      ensures pauseTasks == old(pauseTasks) - {id}
      ensures cancelled == old(cancelled) + if id in old(pauseTasks) then {old(pauseTasks)[id]} else {}
    {
      if id in pauseTasks {
        cancelled := cancelled + {pauseTasks[id]};
        pauseTasks := pauseTasks - {id};
      }
    }

    method SchedulePause(id: WorkerId)
      modifies this`pauseTasks, this`cancelled, this`nextTask
      ensures pauseEnabled ==> pauseTasks == old(pauseTasks)[id := old(nextTask)] && nextTask == old(nextTask) + 1
      ensures pauseEnabled ==> cancelled == old(cancelled) + Handle(old(pauseTasks), id)
      ensures !pauseEnabled ==>
                pauseTasks == old(pauseTasks) && nextTask == old(nextTask) && cancelled == old(cancelled)
    {
      if pauseEnabled {
        CancelPauseTask(id);
        pauseTasks := pauseTasks[id := nextTask];
        nextTask := nextTask + 1;
      }
    }

    method ReleaseWorker(functionName: string, worker: WorkerInfo, now: Time)
      modifies this`pauseTasks, this`cancelled, this`nextTask
      modifies if functionName in pools then {pools[functionName] as object, worker} else {}
      ensures functionName in pools ==>
                && worker.lastUsedAt == now
                && pools[functionName].idle == old(pools[functionName].idle) + [worker]
                && pools[functionName].all == old(pools[functionName].all)
                && pools[functionName].provisioning == old(pools[functionName].provisioning)
                && (pauseEnabled ==> pauseTasks == old(pauseTasks)[worker.id := old(nextTask)])
      ensures functionName in pools && pauseEnabled ==>
                && nextTask == old(nextTask) + 1
                && cancelled == old(cancelled) + Handle(old(pauseTasks), worker.id)
      ensures functionName !in pools || !pauseEnabled ==> pauseTasks == old(pauseTasks) && cancelled == old(cancelled)
    {
      if functionName in pools {
        pools[functionName].Release(worker, now);
        if pauseEnabled { SchedulePause(worker.id); }
      }
    }

    method EvictWorker(functionName: string, worker: WorkerInfo)
      modifies this`pauseTasks, this`cancelled, this`pausedIds
      modifies if functionName in pools then {pools[functionName]} else {}
      ensures functionName in pools ==>
                && pools[functionName].View() == Evicted(old(pools[functionName].View()), worker.id)
                && pauseTasks == old(pauseTasks) - {worker.id} && pausedIds == old(pausedIds) - {worker.id}
                && cancelled == old(cancelled) + Handle(old(pauseTasks), worker.id)
      ensures functionName !in pools ==>
                pauseTasks == old(pauseTasks) && pausedIds == old(pausedIds) && cancelled == old(cancelled)
    {
      if functionName in pools {
        CancelPauseTask(worker.id);
        pausedIds := pausedIds - {worker.id};
        pools[functionName].Evict(worker);
      }
    }

    /** All that acquire_worker looks at. */
    ghost function Snapshot(pool: ContainerPool): Desk
      reads this, pool, pool.idle
    {
      Desk(pool.View(), pausedIds, pauseTasks)
    }

    /** ContainerPool.acquire, its outcome as a value. */
    method Take(pool: ContainerPool, provisioned: Option<WorkerInfo>) returns (r: Result<WorkerInfo, AcquireError>)
      modifies pool
      ensures pool.View() == Taken(old(pool.View()), IdOf(provisioned)).0
      ensures Reports(Some(r), Some(Taken(old(pool.View()), IdOf(provisioned)).1))
    {
      r := pool.Acquire(provisioned);
    }

    /** With pausing on: the worker's pause task is cancelled, and it is resumed or evicted if it is paused. */
    method WakeUp(pool: ContainerPool, worker: WorkerInfo, resumes: WorkerId -> bool) returns (usable: bool)
      modifies this`pauseTasks, this`cancelled, this`pausedIds, pool
      ensures usable <==> !(worker.id in old(pausedIds) && !resumes(worker.id))
      ensures pool.View() == if usable then old(pool.View()) else Evicted(old(pool.View()), worker.id)
      ensures pausedIds == old(pausedIds) - {worker.id} && pauseTasks == old(pauseTasks) - {worker.id}
      ensures Popped(old(Books()), Books())
    {
      GoneOne(pauseTasks, worker.id);
      usable := true;
      CancelPauseTask(worker.id);
      if worker.id in pausedIds {
        pausedIds := pausedIds - {worker.id};
        if !resumes(worker.id) {
          pool.Evict(worker);
          usable := false;
        }
      }
    }

    /** One pass of acquire_worker's loop; `done` is None when it has to try again. */
    method TryOnce(pool: ContainerPool, resumes: WorkerId -> bool, provisioned: Option<WorkerInfo>)
        returns (done: Option<Result<WorkerInfo, AcquireError>>)
      requires provisioned.Some? ==> provisioned.value.id !in pausedIds
      modifies this`pauseTasks, this`cancelled, this`pausedIds, pool
      ensures Snapshot(pool) == Pass(old(Snapshot(pool)), pauseEnabled, resumes, IdOf(provisioned)).desk
      ensures Reports(done, Pass(old(Snapshot(pool)), pauseEnabled, resumes, IdOf(provisioned)).outcome)
      ensures Popped(old(Books()), Books())
    {
      PoppedNothing(Books());
      var r := Take(pool, provisioned);
      done := Some(r);
      if r.Success? && pauseEnabled {
        var usable := WakeUp(pool, r.value, resumes);
        if !usable { done := None; }
      }
    }

    /** A function's pool, made on first use. */
    method GetPool(functionName: string, scaling: Scaling) returns (pool: ContainerPool)
      modifies this`pools
      ensures functionName in pools && pool == pools[functionName]
      ensures functionName in old(pools) ==> pools == old(pools)
      ensures functionName !in old(pools) ==>
                && fresh(pool) && pools == old(pools)[functionName := pool]
                && pool.View() == Empty(if scaling.maxCapacity.Some? then scaling.maxCapacity.value else 1)
                && pool.acquireTimeout == if scaling.acquireTimeout.Some? then scaling.acquireTimeout.value else 5.0
    {
      if functionName !in pools {
        var made := new ContainerPool(functionName, scaling.Capacity(), scaling.Timeout());
        pools := pools[functionName := made];
      }
      return pools[functionName];
    }

    /**
     acquire_worker as one task runs it alone. `resumes` says which resume calls succeed, `provisioned`
     what provisioning yields: a worker of a new id.
     */
    method AcquireWorker(functionName: string, scaling: Scaling, resumes: WorkerId -> bool, provisioned: Option<WorkerInfo>)
        returns (r: Result<WorkerInfo, AcquireError>)
      requires provisioned.Some? ==> provisioned.value.id !in pausedIds
      modifies this`pools, this`pauseTasks, this`cancelled, this`pausedIds
      modifies if functionName in pools then {pools[functionName]} else {}
      ensures functionName in old(pools) ==>
                && pools == old(pools)
                && Ran(old(Snapshot(pools[functionName])), pauseEnabled, resumes, IdOf(provisioned),
                       Snapshot(pools[functionName]), r)
      ensures functionName !in old(pools) ==>
                && functionName in pools && pools == old(pools)[functionName := pools[functionName]]
                && Ran(Desk(Empty(scaling.Capacity()), old(pausedIds), old(pauseTasks)), pauseEnabled, resumes,
                       IdOf(provisioned), Snapshot(pools[functionName]), r)
      ensures Popped(old(Books()), Books())
    {
      var pool := GetPool(functionName, scaling);
      r := AcquireFrom(pool, resumes, provisioned);
    }

    /** The retry loop, once the pool is at hand. */
    method AcquireFrom(pool: ContainerPool, resumes: WorkerId -> bool, provisioned: Option<WorkerInfo>)
        returns (r: Result<WorkerInfo, AcquireError>)
      requires provisioned.Some? ==> provisioned.value.id !in pausedIds
      modifies this`pauseTasks, this`cancelled, this`pausedIds, pool
      ensures Ran(old(Snapshot(pool)), pauseEnabled, resumes, IdOf(provisioned), Snapshot(pool), r)
      ensures Popped(old(Books()), Books())
    {
      ghost var made, d := IdOf(provisioned), Snapshot(pool);
      ghost var end := AcquireAlone(d, pauseEnabled, resumes, made);
      PoppedNothing(Books());
      while true
        invariant Snapshot(pool) == d && end == AcquireAlone(d, pauseEnabled, resumes, made)
        invariant provisioned.Some? ==> provisioned.value.id !in pausedIds
        invariant Popped(old(Books()), Books())
        decreases |d.ledger.idle|
      {
        ghost var books := Books();
        ghost var pass := Pass(d, pauseEnabled, resumes, made);
        var done := TryOnce(pool, resumes, provisioned);
        PoppedTwice(old(Books()), books, Books());
        d := pass.desk;
        if done.Some? { return done.value; }
      }
    }

    /** Cancels the pause tasks of workers just pruned and forgets that they were paused. */
    method ForgetAll(ids: seq<WorkerId>)
      modifies this`pauseTasks, this`cancelled, this`pausedIds
      ensures Books() == Forgotten(old(Books()), ids)
    {
      var i := 0;
      assert ids[..0] == [];
      while i < |ids|
        invariant 0 <= i <= |ids| && Books() == Forgotten(old(Books()), ids[..i])
      {
        ForgottenMore(old(Books()), ids[..i], [ids[i]]);
        assert ids[..i + 1] == ids[..i] + [ids[i]];
        CancelPauseTask(ids[i]);
        pausedIds := pausedIds - {ids[i]};
        i := i + 1;
      }
      assert ids[..i] == ids;
    }

    /**
     The pause task of a released worker, awake after its delay and not cancelled: it pauses the worker if it
     is not paused and still idle, and takes its own entry out of the table. `called` says whether it makes
     the pause call, `pausable` whether that succeeds.
     */
    method PauseAfterDelay(pool: ContainerPool, id: WorkerId, task: nat, pausable: bool) returns (called: bool)
      modifies this`pauseTasks, this`pausedIds
      ensures called <==>
                pauseEnabled && id !in old(pausedIds) && id in pool.all && exists w :: w in pool.idle && w.id == id
      ensures pausedIds == if called && pausable then old(pausedIds) + {id} else old(pausedIds)
      ensures pauseTasks == if id in old(pauseTasks) && old(pauseTasks)[id] == task then old(pauseTasks) - {id}
                            else old(pauseTasks)
    {
      called := false;
      if pauseEnabled && id !in pausedIds {
        called := pool.IsIdle(id);
        if called && pausable { pausedIds := pausedIds + {id}; }
      }
      if id in pauseTasks && pauseTasks[id] == task { pauseTasks := pauseTasks - {id}; }
    }

    /** The pause bookkeeping as a value. */
    ghost function Books(): PauseBooks
      reads this
    {
      PauseBooks(pausedIds, pauseTasks, cancelled)
    }

    /**
     prune_all_pools for one pool: prune, forget the pause state of the pruned, then delete their containers
     in that order; a delete call that fails is logged and the next one follows.
     */
    method PrunePool(pool: ContainerPool, now: Time, idleTimeout: Time) returns (deleteCalls: seq<WorkerId>)
      modifies this`pauseTasks, this`cancelled, this`pausedIds, pool
      ensures pool.View() == Pruned(old(pool.View()), now, idleTimeout)
      ensures deleteCalls == IdsInOrder(Stale(old(pool.View()).idle, now, idleTimeout))
      ensures Books() == Forgotten(old(Books()), deleteCalls)
    {
      var pruned := pool.PruneIdleWorkers(now, idleTimeout);
      deleteCalls := seq(|pruned|, i requires 0 <= i < |pruned| => pruned[i].id);
      assert deleteCalls == IdsInOrder(Entries(pruned));
      ForgetAll(deleteCalls);
    }

    /** One pool of the pass; the others stay as they are. */
    method PruneNext(items: seq<ContainerPool>, n: nat, ghost was: seq<Ledger>, clock: seq<Time>, idleTimeout: Time)
        returns (deleteCalls: seq<WorkerId>)
      requires n < |items| == |was| == |clock| && forall i, j :: 0 <= i < j < |items| ==> items[i] != items[j]
      requires forall i :: 0 <= i < |items| ==> items[i].View() == Halfway(was, clock, idleTimeout, n, i)
      modifies this`pauseTasks, this`cancelled, this`pausedIds, items
      ensures forall i :: 0 <= i < |items| ==> items[i].View() == Halfway(was, clock, idleTimeout, n + 1, i)
      ensures deleteCalls == IdsInOrder(Stale(was[n].idle, clock[n], idleTimeout))
      ensures Books() == Forgotten(old(Books()), deleteCalls)
    {
      deleteCalls := PrunePool(items[n], clock[n], idleTimeout);
      forall i | 0 <= i < |items| && i != n ensures items[i].View() == old(items[i].View()) { assert items[i] != items[n]; }
    }

    /**
     One pass over every pool, in some order; each is pruned at its own reading of the clock. `was` names
     the pools' values before the pass.
     */
    method PruneAllPools(items: seq<ContainerPool>, ghost was: seq<Ledger>, clock: seq<Time>, idleTimeout: Time)
        returns (deleteCalls: seq<WorkerId>)
      requires |items| == |was| == |clock| && forall p :: p in items <==> p in pools.Values
      requires forall i, j :: 0 <= i < j < |items| ==> items[i] != items[j]
      requires forall i :: 0 <= i < |items| ==> items[i].View() == was[i]
      modifies this`pauseTasks, this`cancelled, this`pausedIds, items
      ensures forall i :: 0 <= i < |items| ==> items[i].View() == Pruned(was[i], clock[i], idleTimeout)
      ensures deleteCalls == PassCalls(was, clock, idleTimeout)
      ensures Books() == Forgotten(old(Books()), deleteCalls)
    {
      deleteCalls := [];
      var n := 0;
      while n < |items|
        invariant 0 <= n <= |items|
        invariant forall i :: 0 <= i < |items| ==> items[i].View() == Halfway(was, clock, idleTimeout, n, i)
        invariant deleteCalls == PassCalls(was[..n], clock[..n], idleTimeout)
        invariant Books() == Forgotten(old(Books()), deleteCalls)
      {
        PassCallsMore(was, clock, idleTimeout, n);
        var calls := PruneNext(items, n, was, clock, idleTimeout);
        ForgottenMore(old(Books()), deleteCalls, calls);
        deleteCalls := deleteCalls + calls;
        n := n + 1;
      }
      assert was[..n] == was && clock[..n] == clock;
    }

    /** The ids of every pool, collected pool by pool. */
    method CollectKnown(items: seq<ContainerPool>) returns (known: set<WorkerId>)
      requires forall p :: p in items <==> p in pools.Values
      ensures known == Known(pools)
      ensures forall id :: id in known <==> exists f :: f in pools && id in pools[f].all
    {
      known := {};
      var n := 0;
      while n < |items|
        invariant 0 <= n <= |items|
        invariant forall id :: id in known <==> exists i :: 0 <= i < n && id in items[i].all
      {
        known := known + items[n].all.Keys;
        n := n + 1;
      }
      forall f, id | f in pools && id in pools[f].all ensures id in known { assert pools[f] in items; }
      forall i | 0 <= i < |items| ensures exists f :: f in pools && pools[f] == items[i] { assert items[i] in items; }
    }

    /**
     reconcile_orphans: deletes, in listing order, the containers no pool knows that are not younger
     than the grace period at the time the pass began. `listed` is None when the listing fails, `deletable` says
     which delete calls succeed.
     */
    method ReconcileOrphans(items: seq<ContainerPool>, currentTime: Time, gracePeriod: Time, listed: Option<seq<Row>>,
                            deletable: WorkerId -> bool)
        returns (removed: int, deleteCalls: seq<WorkerId>)
      requires forall p :: p in items <==> p in pools.Values
      ensures deleteCalls == match listed
                             case Some(listing) => OrphansOf(listing, Known(pools), currentTime, gracePeriod)
                             case None => []
      ensures forall id :: id in deleteCalls <==>
                && listed.Some? && (forall f :: f in pools ==> id !in pools[f].all)
                && exists row :: row in listed.value && row.id == id && currentTime - row.createdAt >= gracePeriod
      ensures removed == Count(deleteCalls, deletable)
    {
      removed, deleteCalls := 0, [];
      if listed.None? || listed.value == [] { return; }
      var known := CollectKnown(items);
      removed, deleteCalls := DeleteOrphans(listed.value, known, currentTime, gracePeriod, deletable);
      forall id { OrphansAreUnknownAndOld(listed.value, known, currentTime, gracePeriod, id); }
    }
  }

  /** The deletion loop of a reconcile pass. */
  method DeleteOrphans(listing: seq<Row>, known: set<WorkerId>, currentTime: Time, gracePeriod: Time,
                       deletable: WorkerId -> bool)
      returns (removed: int, deleteCalls: seq<WorkerId>)
    ensures deleteCalls == OrphansOf(listing, known, currentTime, gracePeriod)
    ensures removed == Count(deleteCalls, deletable)
  {
    removed, deleteCalls := 0, [];
    var k := 0;
    while k < |listing|
      invariant 0 <= k <= |listing|
      invariant deleteCalls + OrphansOf(listing[k..], known, currentTime, gracePeriod)
             == OrphansOf(listing, known, currentTime, gracePeriod)
      invariant removed == Count(deleteCalls, deletable)
    {
      var row := listing[k];
      OrphansStep(listing, k, known, currentTime, gracePeriod, deleteCalls);
      if row.id !in known && !(currentTime - row.createdAt < gracePeriod) {
        CountAppend(deleteCalls, row.id, deletable);
        deleteCalls := deleteCalls + [row.id];
        if deletable(row.id) { removed := removed + 1; }
      }
      k := k + 1;
    }
  }

  // ---------- the pause bookkeeping ----------

  datatype PauseBooks = PauseBooks(paused: set<WorkerId>, tasks: map<WorkerId, nat>, cancelled: set<nat>)

  /** The handle of id's pause task, if it has one. */
  function Handle(tasks: map<WorkerId, nat>, id: WorkerId): set<nat> {
    if id in tasks then {tasks[id]} else {}
  }

  ghost function Handles(tasks: map<WorkerId, nat>, ids: set<WorkerId>): set<nat> {
    set id | id in ids && id in tasks :: tasks[id]
  }

  /** Every entry of these ids popped and its task cancelled, every paused mark dropped. */
  ghost function Forgotten(b: PauseBooks, ids: seq<WorkerId>): PauseBooks {
    var gone := set id | id in ids;
    PauseBooks(b.paused - gone, b.tasks - gone, b.cancelled + Handles(b.tasks, gone))
  }

  /** What forgetting does to each id and to each task. */
  lemma ForgottenMeans(b: PauseBooks, ids: seq<WorkerId>)
    ensures var f := Forgotten(b, ids);
            && (forall id :: id in f.paused <==> id in b.paused && id !in ids)
            && (forall id :: id in f.tasks <==> id in b.tasks && id !in ids)
            && (forall id :: id in f.tasks ==> f.tasks[id] == b.tasks[id])
            && (forall h :: h in f.cancelled <==>
                  h in b.cancelled || exists id :: id in ids && id in b.tasks && b.tasks[id] == h)
  {
  }

  lemma HandlesMore(tasks: map<WorkerId, nat>, a: set<WorkerId>, b: set<WorkerId>)
    ensures Handles(tasks, a + b) == Handles(tasks, a) + Handles(tasks - a, b)
  {
    forall h | h in Handles(tasks, a + b) ensures h in Handles(tasks, a) + Handles(tasks - a, b) {
      var id :| id in a + b && id in tasks && h == tasks[id];
      assert id !in a ==> id in tasks - a;
    }
    forall h | h in Handles(tasks - a, b) ensures h in Handles(tasks, a + b) {
      var id :| id in b && id in tasks - a && h == (tasks - a)[id];
      assert id in a + b;
    }
  }

  lemma ForgottenMore(b: PauseBooks, ids: seq<WorkerId>, more: seq<WorkerId>)
    ensures Forgotten(b, ids + more) == Forgotten(Forgotten(b, ids), more)
  {
    var x, y := set id | id in ids, set id | id in more;
    assert (set id | id in ids + more) == x + y;
    HandlesMore(b.tasks, x, y);
  }

  /** The handles whose entries are gone. */
  ghost function Gone(tasks: map<WorkerId, nat>, left: map<WorkerId, nat>): set<nat> {
    set id | id in tasks && id !in left :: tasks[id]
  }

  /** Entries have only been popped. */
  ghost predicate Shrinks(tasks: map<WorkerId, nat>, left: map<WorkerId, nat>) {
    forall id :: id in left ==> id in tasks && left[id] == tasks[id]
  }

  lemma GoneOne(tasks: map<WorkerId, nat>, id: WorkerId)
    ensures Gone(tasks, tasks) == {} && Gone(tasks, tasks - {id}) == Handle(tasks, id)
    ensures Shrinks(tasks, tasks) && Shrinks(tasks, tasks - {id})
  {
  }

  /** Entries were popped and exactly their tasks cancelled. */
  ghost predicate Popped(b: PauseBooks, b': PauseBooks) {
    b'.cancelled == b.cancelled + Gone(b.tasks, b'.tasks) && Shrinks(b.tasks, b'.tasks)
  }

  lemma PoppedNothing(b: PauseBooks)
    ensures Popped(b, b)
  {
    GoneOne(b.tasks, "");
  }

  lemma PoppedTwice(b: PauseBooks, b1: PauseBooks, b2: PauseBooks)
    requires Popped(b, b1) && Popped(b1, b2)
    ensures Popped(b, b2)
  {
    forall h | h in Gone(b.tasks, b2.tasks) ensures h in Gone(b.tasks, b1.tasks) + Gone(b1.tasks, b2.tasks) {
      var id :| id in b.tasks && id !in b2.tasks && h == b.tasks[id];
      assert id in b1.tasks ==> b1.tasks[id] == h;
    }
    forall h | h in Gone(b1.tasks, b2.tasks) ensures h in Gone(b.tasks, b2.tasks) {
      var id :| id in b1.tasks && id !in b2.tasks && h == b1.tasks[id];
      assert b.tasks[id] == h;
    }
  }

  // ---------- a pass over the pools ----------

  function IdsInOrder(q: seq<Entry>): (ids: seq<WorkerId>)
    ensures |ids| == |q| && forall i :: 0 <= i < |q| ==> ids[i] == q[i].id
  {
    seq(|q|, i requires 0 <= i < |q| => q[i].id)
  }

  /** Pool i while the pass has pruned the first n. */
  function Halfway(was: seq<Ledger>, clock: seq<Time>, idleTimeout: Time, n: nat, i: nat): Ledger
    requires i < |was| == |clock|
  {
    if i < n then Pruned(was[i], clock[i], idleTimeout) else was[i]
  }

  /** The delete calls of a pass over these pools, in order. */
  function PassCalls(was: seq<Ledger>, clock: seq<Time>, idleTimeout: Time): seq<WorkerId>
    requires |was| == |clock|
  {
    if was == [] then []
    else
      var n := |was| - 1;
      PassCalls(was[..n], clock[..n], idleTimeout) + IdsInOrder(Stale(was[n].idle, clock[n], idleTimeout))
  }

  lemma PassCallsMore(was: seq<Ledger>, clock: seq<Time>, idleTimeout: Time, n: nat)
    requires n < |was| == |clock|
    ensures PassCalls(was[..n + 1], clock[..n + 1], idleTimeout)
         == PassCalls(was[..n], clock[..n], idleTimeout) + IdsInOrder(Stale(was[n].idle, clock[n], idleTimeout))
  {
    assert was[..n + 1][..n] == was[..n] && clock[..n + 1][..n] == clock[..n];
  }

  lemma InOrderMeansIn(q: seq<Entry>, id: WorkerId)
    ensures id in IdsInOrder(q) <==> exists e :: e in q && e.id == id
  {
    if e :| e in q && e.id == id {
      var i :| 0 <= i < |q| && q[i] == e;
      assert IdsInOrder(q)[i] == id;
    }
    if id in IdsInOrder(q) {
      var i :| 0 <= i < |q| && IdsInOrder(q)[i] == id;
      assert q[i] in q && q[i].id == id;
    }
  }

  /** A worker is deleted if and only if it was stale in its own pool when that pool was pruned. */
  lemma {:induction false} PassPrunesExactlyTheStale(was: seq<Ledger>, clock: seq<Time>, idleTimeout: Time, id: WorkerId)
    requires |was| == |clock|
    ensures id in PassCalls(was, clock, idleTimeout) <==>
            exists i, e :: 0 <= i < |was| && e in was[i].idle && e.id == id && IsStale(e, clock[i], idleTimeout)
  {
    if was != [] {
      var n := |was| - 1;
      PassPrunesExactlyTheStale(was[..n], clock[..n], idleTimeout, id);
      PruneSplits(was[n].idle, clock[n], idleTimeout);
      InOrderMeansIn(Stale(was[n].idle, clock[n], idleTimeout), id);
      if i, e :| 0 <= i < |was| && e in was[i].idle && e.id == id && IsStale(e, clock[i], idleTimeout) {
        if i < n {
          assert e in was[..n][i].idle && IsStale(e, clock[..n][i], idleTimeout);
        } else {
          assert e in Stale(was[n].idle, clock[n], idleTimeout);
        }
      }
      if id in PassCalls(was[..n], clock[..n], idleTimeout) {
        var i, e :| 0 <= i < n && e in was[..n][i].idle && e.id == id && IsStale(e, clock[..n][i], idleTimeout);
        assert e in was[i].idle && IsStale(e, clock[i], idleTimeout);
      }
    }
  }

  /** Every worker id in some pool's ledger. */
  ghost function Known(pools: map<string, ContainerPool>): set<WorkerId>
    reads pools.Values
  {
    set f, id | f in pools && id in pools[f].all :: id
  }

  function OrphansOf(listing: seq<Row>, known: set<WorkerId>, asOf: Time, gracePeriod: Time): seq<WorkerId> {
    if listing == [] then []
    else
      var rest := OrphansOf(listing[1..], known, asOf, gracePeriod);
      if listing[0].id in known || asOf - listing[0].createdAt < gracePeriod then rest else [listing[0].id] + rest
  }

  /** The orphans of a longer listing: the last row comes last, if it is unknown and old enough. */
  lemma {:induction false} OrphansInOrder(listing: seq<Row>, row: Row, known: set<WorkerId>, asOf: Time, gracePeriod: Time)
    ensures OrphansOf(listing + [row], known, asOf, gracePeriod)
         == OrphansOf(listing, known, asOf, gracePeriod)
            + (if row.id !in known && asOf - row.createdAt >= gracePeriod then [row.id] else [])
  {
    if listing != [] {
      assert (listing + [row])[1..] == listing[1..] + [row];
      OrphansInOrder(listing[1..], row, known, asOf, gracePeriod);
    }
  }

  lemma OrphansStep(listing: seq<Row>, k: nat, known: set<WorkerId>, asOf: Time, gracePeriod: Time, calls: seq<WorkerId>)
    requires k < |listing|
    requires calls + OrphansOf(listing[k..], known, asOf, gracePeriod) == OrphansOf(listing, known, asOf, gracePeriod)
    ensures (if listing[k].id in known || asOf - listing[k].createdAt < gracePeriod then calls else calls + [listing[k].id])
            + OrphansOf(listing[k + 1..], known, asOf, gracePeriod) == OrphansOf(listing, known, asOf, gracePeriod)
  {
    assert listing[k..][0] == listing[k] && listing[k..][1..] == listing[k + 1..];
  }

  /** Which ids a pass deletes: the listed rows that are unknown and old enough, every one of them. */
  lemma {:induction false} OrphansAreUnknownAndOld(listing: seq<Row>, known: set<WorkerId>, asOf: Time,
                                                  gracePeriod: Time, id: WorkerId)
    ensures id in OrphansOf(listing, known, asOf, gracePeriod) <==>
            id !in known && exists row :: row in listing && row.id == id && asOf - row.createdAt >= gracePeriod
  {
    if listing != [] {
      OrphansAreUnknownAndOld(listing[1..], known, asOf, gracePeriod, id);
      assert forall row :: row in listing <==> row == listing[0] || row in listing[1..];
    }
  }

  function Count(ids: seq<WorkerId>, ok: WorkerId -> bool): int {
    if ids == [] then 0 else Count(ids[1..], ok) + (if ok(ids[0]) then 1 else 0)
  }

  /** How many of the delete calls succeed. */
  lemma {:induction false} CountIsExact(ids: seq<WorkerId>, ok: WorkerId -> bool)
    ensures Count(ids, ok) == |set i | 0 <= i < |ids| && ok(ids[i])|
  {
    if ids != [] {
      var n := |ids| - 1;
      CountIsExact(ids[..n], ok);
      assert ids == ids[..n] + [ids[n]];
      CountAppend(ids[..n], ids[n], ok);
      var a, b := set i | 0 <= i < n && ok(ids[..n][i]), set i | 0 <= i < |ids| && ok(ids[i]);
      assert b == if ok(ids[n]) then a + {n} else a;
    }
  }

  lemma {:induction false} CountAppend(ids: seq<WorkerId>, id: WorkerId, ok: WorkerId -> bool)
    ensures Count(ids + [id], ok) == Count(ids, ok) + (if ok(id) then 1 else 0)
  {
    if ids != [] {
      assert (ids + [id])[1..] == ids[1..] + [id];
      CountAppend(ids[1..], id, ok);
    }
  }

  // ---------- acquire_worker as a function ----------

  function IdOf(w: Option<WorkerInfo>): Option<WorkerId> {
    if w.Some? then Some(w.value.id) else None
  }

  predicate Reports(done: Option<Result<WorkerInfo, AcquireError>>, outcome: Option<Result<WorkerId, AcquireError>>) {
    match done
    case None => outcome == None
    case Some(Success(w)) => outcome == Some(Success(w.id))
    case Some(Failure(e)) => outcome == Some(Failure(e))
  }

  /** The call found `d`, left `after` and returned r, as its specification says. */
  predicate Ran(d: Desk, enabled: bool, resumes: WorkerId -> bool, made: Option<WorkerId>,
                after: Desk, r: Result<WorkerInfo, AcquireError>) {
    var end := AcquireAlone(d, enabled, resumes, made);
    after == end.desk && Reports(Some(r), Some(end.outcome))
  }

  datatype Desk = Desk(ledger: Ledger, paused: set<WorkerId>, tasks: map<WorkerId, nat>)

  datatype Passed = Passed(desk: Desk, outcome: Option<Result<WorkerId, AcquireError>>)

  datatype End = End(desk: Desk, outcome: Result<WorkerId, AcquireError>)

  function Forget(d: Desk, id: WorkerId): Desk {
    d.(paused := d.paused - {id}, tasks := d.tasks - {id})
  }

  /** A lone ContainerPool.acquire: the pool afterwards and the worker handed over. */
  function Taken(l: Ledger, made: Option<WorkerId>): (Ledger, Result<WorkerId, AcquireError>) {
    if l.idle != [] then (l.(idle := l.idle[1..]), Success(l.idle[0].id))
    else if !l.HasRoom() then (l, Failure(TimedOut))
    else match made
         case None => (Aborted(AfterTurn(l, Reserve)), Failure(ProvisionFailed))
         case Some(id) => (Registered(AfterTurn(l, Reserve), id), Success(id))
  }

  /** One pass of the loop; no outcome means that the idle worker it took was evicted. */
  function Pass(d: Desk, enabled: bool, resumes: WorkerId -> bool, made: Option<WorkerId>): (p: Passed)
    ensures p.outcome.None? ==> |p.desk.ledger.idle| < |d.ledger.idle|
  {
    var (l, r) := Taken(d.ledger, made);
    if r.Failure? || !enabled then Passed(d.(ledger := l), Some(r))
    else if d.ledger.idle != [] && r.value in d.paused && !resumes(r.value) then
      Passed(Forget(d, r.value).(ledger := Evicted(l, r.value)), None)
    else Passed(Forget(d, r.value).(ledger := l), Some(r))
  }

  function AcquireAlone(d: Desk, enabled: bool, resumes: WorkerId -> bool, made: Option<WorkerId>): End
    decreases |d.ledger.idle|
  {
    var p := Pass(d, enabled, resumes, made);
    if p.outcome.Some? then End(p.desk, p.outcome.value) else AcquireAlone(p.desk, enabled, resumes, made)
  }

  /** How many workers at the head of the queue are paused and will not resume. */
  function Stuck(q: seq<Entry>, paused: set<WorkerId>, resumes: WorkerId -> bool): (k: nat)
    ensures k <= |q|
    ensures forall i :: 0 <= i < k ==> q[i].id in paused && !resumes(q[i].id)
    ensures k < |q| ==> !(q[k].id in paused && !resumes(q[k].id))
  {
    if q == [] || !(q[0].id in paused && !resumes(q[0].id)) then 0 else 1 + Stuck(q[1..], paused, resumes)
  }

  lemma StuckIgnoresOthers(q: seq<Entry>, paused: set<WorkerId>, resumes: WorkerId -> bool, id: WorkerId)
    requires id !in Ids(q)
    ensures Stuck(q, paused - {id}, resumes) == Stuck(q, paused, resumes)
  {
  }

  /** The desk once the first k idle workers are evicted and forgotten. */
  function Skipped(d: Desk, k: nat): Desk
    requires k <= |d.ledger.idle|
  {
    var gone := Ids(d.ledger.idle[..k]);
    Desk(d.ledger.(idle := d.ledger.idle[k..], all := d.ledger.all - gone), d.paused - gone, d.tasks - gone)
  }

  lemma TakeHead(q: seq<Entry>, k: nat)
    requires k < |q|
    ensures Ids(q[..k + 1]) == {q[0].id} + Ids(q[1..][..k])
  {
  }

  /** Evicting the first idle worker and then k - 1 more is skipping k. */
  lemma SkipOneMore(d: Desk, k: nat)
    requires DistinctIds(d.ledger.idle) && 0 < k <= |d.ledger.idle|
    ensures var id := d.ledger.idle[0].id;
            var d1 := Forget(d, id).(ledger := Evicted(d.ledger.(idle := d.ledger.idle[1..]), id));
            && d1.ledger.idle == d.ledger.idle[1..] && DistinctIds(d1.ledger.idle)
            && Skipped(d1, k - 1) == Skipped(d, k)
  {
    IdsOfHead(d.ledger.idle);
    WithoutAbsent(d.ledger.idle[1..], d.ledger.idle[0].id);
    TakeHead(d.ledger.idle, k - 1);
  }

  lemma PassStuck(d: Desk, resumes: WorkerId -> bool, made: Option<WorkerId>, k: nat) returns (d1: Desk)
    requires DistinctIds(d.ledger.idle) && 0 < k == Stuck(d.ledger.idle, d.paused, resumes)
    ensures Pass(d, true, resumes, made) == Passed(d1, None)
    ensures DistinctIds(d1.ledger.idle) && k - 1 == Stuck(d1.ledger.idle, d1.paused, resumes)
    ensures Skipped(d1, k - 1) == Skipped(d, k)
  {
    var id := d.ledger.idle[0].id;
    SkipOneMore(d, k);
    IdsOfHead(d.ledger.idle);
    StuckIgnoresOthers(d.ledger.idle[1..], d.paused, resumes, id);
    d1 := Pass(d, true, resumes, made).desk;
  }

  /**
   The retry loop in one step: with pausing on, exactly the stuck head of the queue is evicted, and the
   call ends in the next pass, as if those workers had never been.
   */
  lemma {:induction false} AcquireSkipsExactlyTheStuck(d: Desk, resumes: WorkerId -> bool, made: Option<WorkerId>, k: nat)
    requires DistinctIds(d.ledger.idle) && k == Stuck(d.ledger.idle, d.paused, resumes)
    ensures Pass(Skipped(d, k), true, resumes, made).outcome.Some?
    ensures AcquireAlone(d, true, resumes, made) == AcquireAlone(Skipped(d, k), true, resumes, made)
    decreases k
  {
    if k == 0 {
      assert Skipped(d, 0) == d;
    } else {
      var d1 := PassStuck(d, resumes, made, k);
      AcquireSkipsExactlyTheStuck(d1, resumes, made, k - 1);
    }
  }

  /** What a pool alone must satisfy, whoever holds the workers that are not idle. */
  ghost predicate PoolSound(l: Ledger) {
    DistinctIds(l.idle) && Ids(l.idle) <= l.all && l.provisioning >= 0 && l.Load() <= Max(l.capacity, 0)
  }

  /** What a call returns is in the ledger, not idle, and with pausing on neither paused nor about to be. */
  ghost predicate EndSound(d: Desk, enabled: bool, end: End) {
    && PoolSound(end.desk.ledger)
    && end.desk.ledger.provisioning == d.ledger.provisioning
    && end.desk.paused <= d.paused
    && (end.outcome.Success? ==>
          && end.outcome.value in end.desk.ledger.all && end.outcome.value !in Ids(end.desk.ledger.idle)
          && (enabled ==> end.outcome.value !in end.desk.paused && end.outcome.value !in end.desk.tasks))
    && (end.outcome.Failure? ==> end.desk.ledger.idle == [])
  }

  lemma EvictionKeepsPoolSound(l: Ledger)
    requires PoolSound(l) && l.idle != []
    ensures PoolSound(Evicted(l.(idle := l.idle[1..]), l.idle[0].id))
  {
    IdsOfHead(l.idle);
    WithoutAbsent(l.idle[1..], l.idle[0].id);
  }

  lemma HandKeepsPoolSound(l: Ledger)
    requires PoolSound(l) && l.idle != []
    ensures PoolSound(l.(idle := l.idle[1..])) && l.idle[0].id in l.all && l.idle[0].id !in Ids(l.idle[1..])
  {
  }

  lemma RegistrationKeepsPoolSound(l: Ledger, made: WorkerId)
    requires PoolSound(l) && l.idle == [] && l.HasRoom() && made !in l.all
    ensures PoolSound(Registered(AfterTurn(l, Reserve), made))
  {
  }

  /** A lone acquire call, whatever it evicts on the way, leaves the pool sound. */
  lemma {:induction false} AcquireKeepsPoolSound(d: Desk, enabled: bool, resumes: WorkerId -> bool, made: Option<WorkerId>)
    requires PoolSound(d.ledger) && (made.Some? ==> made.value !in d.ledger.all && made.value !in d.paused)
    ensures EndSound(d, enabled, AcquireAlone(d, enabled, resumes, made))
    decreases |d.ledger.idle|
  {
    var p := Pass(d, enabled, resumes, made);
    if p.outcome.None? {
      EvictionKeepsPoolSound(d.ledger);
      AcquireKeepsPoolSound(p.desk, enabled, resumes, made);
    } else if d.ledger.idle != [] {
      HandKeepsPoolSound(d.ledger);
    } else if made.Some? && d.ledger.HasRoom() {
      RegistrationKeepsPoolSound(d.ledger, made.value);
    }
  }
}
