/**
 The per-function worker pool as the gateway implements it: a queue, a ledger and a counter updated
 in place. Each method is one section under the pool's lock; its contract is a Ledger function.
 */
module ContainerPool {
  import opened Workers
  import opened Ledger

  datatype AcquireError = TimedOut | ProvisionFailed

  class ContainerPool {
    const functionName: string
    const maxCapacity: int
    const acquireTimeout: Time

    var idle: seq<WorkerInfo>
    var all: map<WorkerId, WorkerInfo>  // the worker set: compared by id
    var provisioning: int
    var notifications: nat              // notify_all calls on the condition

    /** The pool as a value. */
    ghost function View(): Ledger
      reads this, idle
    {
      Ledger(Entries(idle), all.Keys, provisioning, maxCapacity)
    }

    constructor (functionName: string, maxCapacity: int, acquireTimeout: Time)
      ensures this.functionName == functionName && this.acquireTimeout == acquireTimeout
      ensures this.maxCapacity == maxCapacity && idle == [] && all == map[] && provisioning == 0
      ensures View() == Empty(maxCapacity) && notifications == 0
    {
      this.functionName := functionName;
      this.maxCapacity := maxCapacity;
      this.acquireTimeout := acquireTimeout;
      idle, all, provisioning, notifications := [], map[], 0, 0;
    }

    /** One pass of the acquire loop. The worker comes with a Hand turn and no other. */
    method TakeTurn(elapsed: Time) returns (turn: Turn, worker: Option<WorkerInfo>)
      modifies this
      ensures turn.Hand? <==> old(idle) != []
      ensures turn.Reserve? <==> old(idle) == [] && |old(all)| + old(provisioning) < maxCapacity
      ensures turn.Wait? <==>
                old(idle) == [] && |old(all)| + old(provisioning) >= maxCapacity && elapsed < acquireTimeout
      ensures turn.Expire? <==>
                old(idle) == [] && |old(all)| + old(provisioning) >= maxCapacity && elapsed >= acquireTimeout
      ensures provisioning == old(provisioning) + (if turn.Reserve? then 1 else 0)
      ensures turn == Decide(old(View()), elapsed, acquireTimeout) && View() == AfterTurn(old(View()), turn)
      ensures idle == if turn.Hand? then old(idle)[1..] else old(idle)
      ensures all == old(all) && notifications == old(notifications)
      ensures worker == if turn.Hand? then Some(old(idle)[0]) else None
    {
      worker := None;
      if idle != [] {
        worker := Some(idle[0]);
        turn := Hand(Entry(idle[0].id, idle[0].lastUsedAt));
        idle := idle[1..];
      } else if |all| + provisioning < maxCapacity {
        provisioning := provisioning + 1;
        turn := Reserve;
      } else {
        var remaining := acquireTimeout - elapsed;
        turn := if remaining <= 0.0 then Expire else Wait;
      }
    }

    /** The provisioned worker joins the ledger in place of its reservation. */
    method Register(worker: WorkerInfo)
      modifies this
      ensures View() == Registered(old(View()), worker.id)
      ensures all.Keys == old(all).Keys + {worker.id} && provisioning == old(provisioning) - 1
      ensures idle == old(idle) && notifications == old(notifications)
      ensures worker.id !in old(all) ==> all == old(all)[worker.id := worker]
    {
      if worker.id !in all { all := all[worker.id := worker]; }
      provisioning := provisioning - 1;
    }

    /** A provision failed or was cancelled. */
    method Abort()
      modifies this
      ensures View() == Aborted(old(View()))
      ensures provisioning == if old(provisioning) > 0 then old(provisioning) - 1 else old(provisioning)
      ensures idle == old(idle) && all == old(all) && notifications == old(notifications) + 1
    {
      if provisioning > 0 { provisioning := provisioning - 1; }
      notifications := notifications + 1;
    }

    /**
     acquire as one task runs it with no other about: whoever has to wait is not woken. `provisioned`
     is the provision callback's outcome.
     */
    method Acquire(provisioned: Option<WorkerInfo>) returns (r: Result<WorkerInfo, AcquireError>)
      modifies this
      ensures var turn := Decide(old(View()), 0.0, acquireTimeout);
              var reserved := AfterTurn(old(View()), turn);
              match turn
              case Hand(_) => View() == reserved && r == Success(old(idle)[0])
              case Reserve =>
                if provisioned.Some? then
                  View() == Registered(reserved, provisioned.value.id) && r == Success(provisioned.value)
                else View() == Aborted(reserved) && r == Failure(ProvisionFailed)
              case _ => View() == old(View()) && r == Failure(TimedOut)
      ensures idle == if old(idle) == [] then [] else old(idle)[1..]
    {
      var turn, worker := TakeTurn(0.0);
      match turn
      case Hand(_) => r := Success(worker.value);
      case Reserve =>
        if provisioned.Some? {
          Register(provisioned.value);
          r := Success(provisioned.value);
        } else {
          Abort();
          r := Failure(ProvisionFailed);
        }
      case Wait => r := Failure(TimedOut);
      case Expire => r := Failure(TimedOut);
    }

    /** The worker is stamped and joins the queue's end; nothing else changes anywhere. */
    method Release(worker: WorkerInfo, now: Time)
      modifies this, worker
      ensures worker.lastUsedAt == now && idle == old(idle) + [worker]
      ensures all == old(all) && provisioning == old(provisioning) && notifications == old(notifications) + 1
      ensures worker !in old(idle) ==> View() == Released(old(View()), worker.id, now)
    {
      worker.lastUsedAt := now;
      idle := idle + [worker];
      notifications := notifications + 1;
      ghost var was := old(idle);
      EntriesAppend(was, worker);
    }

    method Evict(worker: WorkerInfo)
      modifies this
      ensures View() == Evicted(old(View()), worker.id)
      ensures idle == WithoutId(old(idle), worker.id)
      ensures all == old(all) - {worker.id} && notifications == old(notifications) + 1
    {
      if worker.id in all { all := all - {worker.id}; }
      EntriesWithout(idle, worker.id);
      if idle != [] { idle := WithoutId(idle, worker.id); }
      notifications := notifications + 1;
    }

    method IsIdle(id: WorkerId) returns (yes: bool)
      ensures yes <==> (exists w :: w in idle && w.id == id) && id in all
      ensures yes <==> id in Ids(View().idle) && id in View().all
    {
      var i := 0;
      yes := false;
      while i < |idle|
        invariant 0 <= i <= |idle|
        invariant yes <==> exists j :: 0 <= j < i && idle[j].id == id
      {
        if idle[i].id == id { yes := true; }
        i := i + 1;
      }
      ghost var q := Entries(idle);
      assert forall j :: 0 <= j < |idle| ==> q[j] in q && q[j].id == idle[j].id && idle[j] in idle;
      yes := yes && id in all;
    }

    /** Splits the queue at the timeout, in order, and tells the sleepers if anything was freed. */
    method PruneIdleWorkers(now: Time, idleTimeout: Time) returns (pruned: seq<WorkerInfo>)
      modifies this
      ensures View() == Pruned(old(View()), now, idleTimeout)
      ensures Entries(pruned) == Stale(old(View()).idle, now, idleTimeout)
      ensures forall w :: w in pruned || w in idle ==> w in old(idle)
      ensures all == old(all) - Ids(Entries(pruned))
      ensures notifications == old(notifications) + (if pruned == [] then 0 else 1)
    {
      var surviving, left;
      pruned, surviving, left := SplitStale(idle, all, now, idleTimeout);
      idle, all := surviving, left;
      if pruned != [] { notifications := notifications + 1; }
    }

    method Adopt(worker: WorkerInfo, now: Time)
      modifies this, worker
      ensures |old(all)| + old(provisioning) < maxCapacity ==>
                && worker.lastUsedAt == (if old(worker.lastUsedAt) == 0.0 then now else old(worker.lastUsedAt))
                && all.Keys == old(all).Keys + {worker.id}
                && idle == old(idle) + [worker] && notifications == old(notifications) + 1
      ensures |old(all)| + old(provisioning) >= maxCapacity ==>
                && all == old(all)
                && worker.lastUsedAt == old(worker.lastUsedAt) && idle == old(idle) && notifications == old(notifications)
      ensures provisioning == old(provisioning)
      ensures worker !in old(idle) ==>
                View() == Adopted(old(View()), Entry(worker.id, old(worker.lastUsedAt)), now)
    {
      if |all| + provisioning < maxCapacity {
        if worker.lastUsedAt == 0.0 { worker.lastUsedAt := now; }
        Join(worker);
      }
    }

    method Join(worker: WorkerInfo)
      modifies this
      ensures View() == Joined(old(View()), Entry(worker.id, worker.lastUsedAt))
      ensures all.Keys == old(all).Keys + {worker.id} && provisioning == old(provisioning)
      ensures idle == old(idle) + [worker] && notifications == old(notifications) + 1
    {
      EntriesAppend(idle, worker);
      if worker.id !in all { all := all[worker.id := worker]; }
      idle := idle + [worker];
      notifications := notifications + 1;
    }

    method Drain() returns (workers: set<WorkerInfo>)
      modifies this
      ensures View() == Drained(old(View())) && workers == old(all).Values
      ensures idle == [] && all == map[] && provisioning == 0
      ensures notifications == old(notifications) + 1
    {
      workers := all.Values;
      all, idle, provisioning := map[], [], 0;
      notifications := notifications + 1;
    }
  }

  /** The queue of worker objects as a queue of entries. */
  ghost function Entries(ws: seq<WorkerInfo>): (q: seq<Entry>)
    reads ws
    ensures |q| == |ws|
    ensures forall i :: 0 <= i < |ws| ==> q[i] == Entry(ws[i].id, ws[i].lastUsedAt)
  {
    seq(|ws|, i requires 0 <= i < |ws| reads ws => Entry(ws[i].id, ws[i].lastUsedAt))
  }

  lemma EntriesAppend(ws: seq<WorkerInfo>, w: WorkerInfo)
    ensures Entries(ws + [w]) == Entries(ws) + [Entry(w.id, w.lastUsedAt)]
  {
  }

  lemma EntriesHead(ws: seq<WorkerInfo>)
    requires ws != []
    ensures Entries(ws)[0] == Entry(ws[0].id, ws[0].lastUsedAt)
    ensures Entries(ws)[1..] == Entries(ws[1..])
  {
  }

  /** One entry of the queue goes to one side or the other. */
  lemma SplitStep(q: seq<Entry>, i: nat, pruned: seq<Entry>, surviving: seq<Entry>, now: Time, timeout: Time)
    requires i < |q|
    requires pruned + Stale(q[i..], now, timeout) == Stale(q, now, timeout)
    requires surviving + Fresh(q[i..], now, timeout) == Fresh(q, now, timeout)
    ensures IsStale(q[i], now, timeout) ==>
              && pruned + [q[i]] + Stale(q[i + 1..], now, timeout) == Stale(q, now, timeout)
              && surviving + Fresh(q[i + 1..], now, timeout) == Fresh(q, now, timeout)
    ensures !IsStale(q[i], now, timeout) ==>
              && pruned + Stale(q[i + 1..], now, timeout) == Stale(q, now, timeout)
              && surviving + [q[i]] + Fresh(q[i + 1..], now, timeout) == Fresh(q, now, timeout)
  {
  }

  /** The pruning loop: pops the queue dry, discarding the stale workers from the ledger. */
  method SplitStale(workers: seq<WorkerInfo>, all: map<WorkerId, WorkerInfo>, now: Time, idleTimeout: Time)
      returns (pruned: seq<WorkerInfo>, surviving: seq<WorkerInfo>, left: map<WorkerId, WorkerInfo>)
    ensures Entries(pruned) == Stale(Entries(workers), now, idleTimeout)
    ensures Entries(surviving) == Fresh(Entries(workers), now, idleTimeout)
    ensures left == all - Ids(Entries(pruned))
    ensures forall w :: w in pruned || w in surviving ==> w in workers
  {
    var queue := workers;
    pruned, surviving, left := [], [], all;
    ghost var q, i := Entries(workers), 0;
    while queue != []
      invariant 0 <= i <= |workers| && queue == workers[i..]
      invariant forall w :: w in pruned || w in surviving ==> w in workers
      invariant Entries(pruned) + Stale(q[i..], now, idleTimeout) == Stale(q, now, idleTimeout)
      invariant Entries(surviving) + Fresh(q[i..], now, idleTimeout) == Fresh(q, now, idleTimeout)
      invariant left == all - Ids(Entries(pruned))
      decreases |queue|
    {
      var worker := queue[0];
      queue := queue[1..];
      assert q[i] == Entry(worker.id, worker.lastUsedAt);
      SplitStep(q, i, Entries(pruned), Entries(surviving), now, idleTimeout);
      if now - worker.lastUsedAt > idleTimeout {
        left := left - {worker.id};
        EntriesAppend(pruned, worker);
        Enqueue(Entries(pruned), q[i]);
        pruned := pruned + [worker];
      } else {
        EntriesAppend(surviving, worker);
        surviving := surviving + [worker];
      }
      i := i + 1;
    }
  }

  /** deque(w for w in ws if w.id != id) */
  function WithoutId(ws: seq<WorkerInfo>, id: WorkerId): seq<WorkerInfo> {
    if ws == [] then []
    else if ws[0].id == id then WithoutId(ws[1..], id)
    else [ws[0]] + WithoutId(ws[1..], id)
  }

  lemma {:induction false} EntriesWithout(ws: seq<WorkerInfo>, id: WorkerId)
    ensures Entries(WithoutId(ws, id)) == Without(Entries(ws), id)
    ensures forall w :: w in WithoutId(ws, id) ==> w in ws && w.id != id
  {
    if ws != [] {
      EntriesHead(ws);
      EntriesWithout(ws[1..], id);
    }
  }
}
