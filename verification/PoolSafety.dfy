/**
 What the pool protocol promises, on every run: the theorems the other pool modules build up to.
 A run may contain any interleaving of requests, pause jobs, janitor passes, adoptions and drains.
 */
module PoolSafety {
  import opened Workers
  import opened Ledger
  import opened PoolProtocol
  import opened PoolOwnership
  import opened PoolCapacity
  import opened PoolPause
  import opened PoolJanitor

  ghost predicate Invariant(c: Config, s: State) {
    && Owned(s)
    && Bounded(s.ledger, c.capacity)
    && NoneForgotten(s)
    && Counted(s)
    && InOrder(s)
    && PauseSafe(c, s)
    && JanitorSound(c, s)
  }

  lemma InvariantStep(c: Config, s: State, a: Action)
    requires Invariant(c, s) && Enabled(s, a)
    ensures Invariant(c, Apply(c, s, a))
  {
    OwnedStep(c, s, a);
    BoundedStep(c, s, a);
    NoneForgottenStep(c, s, a);
    CountedStep(c, s, a);
    InOrderStep(c, s, a);
    PauseSafeStep(c, s, a);
    JanitorSoundStep(c, s, a);
  }

  lemma {:induction false} InvariantAlways(c: Config, s: State, run: seq<Action>)
    requires Invariant(c, s) && Possible(c, s, run)
    ensures Invariant(c, Exec(c, s, run))
    decreases |run|
  {
    if run != [] {
      InvariantStep(c, s, run[0]);
      InvariantAlways(c, Apply(c, s, run[0]), run[1..]);
    }
  }

  lemma ReachableInvariant(c: Config, s: State)
    requires Reachable(c, s)
    ensures Invariant(c, s)
  {
    var run :| Possible(c, Init(c), run) && Exec(c, Init(c), run) == s;
    InitOwned(c);
    InitCapacity(c);
    InitPauseSafe(c);
    InitJanitorSound(c);
    InvariantAlways(c, Init(c), run);
  }

  // ---------- conservation ----------

  /** The workers in some task's hands. */
  function HeldIds(tasks: map<TaskId, Phase>): set<WorkerId> {
    set t | t in tasks && tasks[t].Having? :: tasks[t].w
  }

  /**
   Worker conservation and exclusivity: no worker is held twice or held while idle, and until drain
   the ledger is the disjoint union of the idle workers, the held ones and those lost to a
   cancellation that nothing gives back.
   */
  lemma WorkersAreConserved(c: Config, s: State)
    requires Reachable(c, s)
    ensures DistinctIds(s.ledger.idle)
    ensures forall t, u | t in s.tasks && u in s.tasks && s.tasks[t].Having? && s.tasks[u].Having?
              :: s.tasks[t].w == s.tasks[u].w ==> t == u
    ensures Ids(s.ledger.idle) !! HeldIds(s.tasks)
    ensures s.past.leaked !! Ids(s.ledger.idle) + HeldIds(s.tasks)
    ensures s.ledger.all <= Ids(s.ledger.idle) + HeldIds(s.tasks) + s.past.leaked
    ensures !s.past.drained ==> s.ledger.all == Ids(s.ledger.idle) + HeldIds(s.tasks) + s.past.leaked
  {
    ReachableInvariant(c, s);
    var m: Whereabouts :| Agrees(s, m);
    forall t | t in s.tasks && s.tasks[t].Having? ensures IsAt(m, s.tasks[t].w, HeldBy(t)) {
      assert PhaseAgrees(t, s.tasks[t], m);
    }
    forall id | id in s.ledger.all
      ensures id in Ids(s.ledger.idle) + HeldIds(s.tasks) + s.past.leaked
    {
      if m[id].HeldBy? { assert s.tasks[m[id].t].w in HeldIds(s.tasks); }
    }
  }

  // ---------- capacity and notification ----------

  /** The capacity bound holds always; until drain the counter is exact, so workers alone obey it. */
  lemma CapacityIsKept(c: Config, s: State)
    requires Reachable(c, s)
    ensures |s.ledger.all| + s.ledger.provisioning <= Max(c.capacity, 0)
    ensures !s.past.drained ==> s.ledger.provisioning == |Reserving(s.tasks)| + s.past.lostSlots
    ensures !s.past.drained ==> |s.ledger.all| <= Max(c.capacity, 0)
    ensures !s.past.drained ==> forall t :: t in s.tasks && s.tasks[t].Reserves() ==> s.ledger.provisioning > 0
  {
    ReachableInvariant(c, s);
    assert forall t :: t in s.tasks && s.tasks[t].Reserves() ==> t in Reserving(s.tasks);
  }

  /** So at most `capacity` workers are ever in use at once. */
  lemma ConcurrencyIsLimited(c: Config, s: State)
    requires Reachable(c, s) && !s.past.drained
    ensures |HeldIds(s.tasks)| <= Max(c.capacity, 0)
  {
    WorkersAreConserved(c, s);
    CapacityIsKept(c, s);
    SubsetCardinality(HeldIds(s.tasks), s.ledger.all);
  }

  lemma {:induction false} SubsetCardinality(a: set<WorkerId>, b: set<WorkerId>)
    requires a <= b
    ensures |a| <= |b|
  {
    assert b == a + (b - a);
  }

  /** No lost wakeup, drain included: whoever sleeps un-notified has nothing to wake up for. */
  lemma NoLostWakeup(c: Config, s: State, t: TaskId)
    requires Reachable(c, s) && t in s.tasks && s.tasks[t].Asleep()
    ensures s.ledger.idle == []
    ensures |s.ledger.all| + s.ledger.provisioning >= c.capacity
  {
    ReachableInvariant(c, s);
  }

  /**
   The acquire section decides exactly: an idle worker if there is one, else a reservation if there is
   room, else the task waits, its clock running since it came, for as long as its timeout is not over.
   */
  lemma AcquirerGetsWaitsOrEnds(c: Config, s: State, t: TaskId)
    requires Reachable(c, s) && Enabled(s, Acquiring(t, TryAcquire))
    ensures var s' := Apply(c, s, Acquiring(t, TryAcquire));
            var since := if s.tasks[t].Arriving? then s.now else s.tasks[t].since;
            var full := |s.ledger.all| + s.ledger.provisioning >= c.capacity;
            && (t in s'.tasks && s'.tasks[t].Having? <==> s.ledger.idle != [])
            && (s.ledger.idle != [] ==> s'.tasks[t].w == s.ledger.idle[0].id && s'.ledger.idle == s.ledger.idle[1..])
            && (t in s'.tasks && s'.tasks[t].Provisioning? <==> s.ledger.idle == [] && !full)
            && (t in s'.tasks && s'.tasks[t] == Waiting(since, false)
                <==> s.ledger.idle == [] && full && s.now - since < c.acquireTimeout)
            && (t !in s'.tasks <==> s.ledger.idle == [] && full && s.now - since >= c.acquireTimeout)
  {
    ReachableInvariant(c, s);
  }

  /**
   What cancellation can cost: once lost workers and lost reservations fill the capacity, nothing is
   idle, held or being made, and an acquirer can only wait or time out.
   */
  lemma LossesExhaustThePool(c: Config, s: State, elapsed: Time)
    requires Reachable(c, s) && !s.past.drained
    requires |s.past.leaked| + s.past.lostSlots >= c.capacity
    ensures s.ledger.idle == [] && HeldIds(s.tasks) == {} && Reserving(s.tasks) == {}
    ensures Decide(s.ledger, elapsed, c.acquireTimeout).Wait? || Decide(s.ledger, elapsed, c.acquireTimeout).Expire?
  {
    WorkersAreConserved(c, s);
    CapacityIsKept(c, s);
    ReachableInvariant(c, s);
    var working := Ids(s.ledger.idle) + HeldIds(s.tasks);
    assert s.ledger.all == working + s.past.leaked;
    assert |s.ledger.all| == |working| + |s.past.leaked|;
    assert working == {};
    NoIdsNoEntries(s.ledger.idle);
  }

  lemma NoIdsNoEntries(q: seq<Entry>)
    ensures Ids(q) == {} ==> q == []
  {
    if q != [] { assert q[0] in q && q[0].id in Ids(q); }
  }

  // ---------- order ----------

  /** The queue is least-recently-used first, and the acquire loop hands out its head. */
  lemma LeastRecentlyUsedFirst(c: Config, s: State, elapsed: Time, e: Entry)
    requires Reachable(c, s) && !s.past.disordered
    requires Decide(s.ledger, elapsed, c.acquireTimeout) == Hand(e)
    ensures e in s.ledger.idle
    ensures forall x :: x in s.ledger.idle ==> e.lastUsedAt <= x.lastUsedAt
  {
    ReachableInvariant(c, s);
    forall x | x in s.ledger.idle ensures e.lastUsedAt <= x.lastUsedAt {
      var i :| 0 <= i < |s.ledger.idle| && s.ledger.idle[i] == x;
    }
  }

  /** Pruning cuts exactly a prefix off that queue and leaves only workers inside the timeout. */
  lemma PruneRemovesAPrefix(c: Config, s: State, t: TaskId, idleTimeout: Time)
      returns (k: nat)
    requires Reachable(c, s) && !s.past.disordered && t !in s.tasks
    ensures k <= |s.ledger.idle|
    ensures var l' := Apply(c, s, Janitor(t, Prune(idleTimeout))).ledger;
            && l'.idle == s.ledger.idle[k..]
            && l'.all == s.ledger.all - Ids(s.ledger.idle[..k])
    ensures forall i :: 0 <= i < k ==> s.now - s.ledger.idle[i].lastUsedAt > idleTimeout
    ensures forall i :: k <= i < |s.ledger.idle| ==> s.now - s.ledger.idle[i].lastUsedAt <= idleTimeout
  {
    ReachableInvariant(c, s);
    var q := s.ledger.idle;
    var gone, kept := Stale(q, s.now, idleTimeout), Fresh(q, s.now, idleTimeout);
    PruneCutsPrefix(q, s.now, idleTimeout);
    PruneSplits(q, s.now, idleTimeout);
    k := |gone|;
    forall i | 0 <= i < k ensures IsStale(q[i], s.now, idleTimeout) { assert q[i] == gone[i] && gone[i] in gone; }
    forall i | k <= i < |q| ensures !IsStale(q[i], s.now, idleTimeout) { assert q[i] == kept[i - k] && kept[i - k] in kept; }
  }

  // ---------- pausing ----------

  /**
   Pause protocol safety: at most one pause job per worker is not cancelled and the table names it;
   its worker is idle or awaits a prune pass; a worker acquire_worker returned is neither paused nor
   about to be, for as long as it is held.
   */
  lemma PausingSparesHeldWorkers(c: Config, s: State)
    requires Reachable(c, s) && !s.past.drained
    ensures forall j, k | j in s.pause.jobs && k in s.pause.jobs && j != k
              && s.pause.jobs[j].worker == s.pause.jobs[k].worker
              :: s.pause.jobs[j].cancelled || s.pause.jobs[k].cancelled
    ensures forall j :: j in s.pause.jobs ==>
              (!s.pause.jobs[j].cancelled
               <==> s.pause.jobs[j].worker in s.pause.taskOf && s.pause.taskOf[s.pause.jobs[j].worker] == j)
    ensures forall id :: id in s.pause.taskOf ==> id in Ids(s.ledger.idle) || Unclean(s.tasks, id)
    ensures forall t :: t in s.tasks && s.tasks[t].Having? && s.tasks[t].use.Working? ==>
              && s.tasks[t].w !in s.pause.ids
              && s.tasks[t].w !in s.pause.taskOf
              && forall j :: j in s.pause.jobs && s.pause.jobs[j].worker == s.tasks[t].w ==> s.pause.jobs[j].cancelled
  {
    ReachableInvariant(c, s);
    forall t | t in s.tasks && s.tasks[t].Having? && s.tasks[t].use.Working?
      ensures s.tasks[t].w !in s.pause.ids && s.tasks[t].w !in s.pause.taskOf
      ensures forall j :: j in s.pause.jobs && s.pause.jobs[j].worker == s.tasks[t].w ==> s.pause.jobs[j].cancelled
    {
      NothingPending(c, s, t);
    }
  }

  /** In particular the cancel calls inside release and evict never find a task to wait for. */
  lemma ReleaseNeverWaits(c: Config, s: State, t: TaskId)
    requires Reachable(c, s) && !s.past.drained && t in s.tasks && s.tasks[t].Having?
    ensures s.tasks[t].w !in s.pause.taskOf
    ensures forall u :: u in s.tasks ==> !s.tasks[u].Rescheduling?
  {
    ReachableInvariant(c, s);
    NothingPending(c, s, t);
  }

  /**
   A released worker is queued with the time of its release, and with pausing on it gets a new pause job;
   without, nothing is scheduled.
   */
  lemma ReleasedWorkerWillBePaused(c: Config, s: State, t: TaskId)
    requires Reachable(c, s) && !s.past.drained && t in s.tasks && s.tasks[t].Having? && s.tasks[t].use.Working?
    ensures Enabled(s, Holding(t, Release))
    ensures var id := s.tasks[t].w; var s' := Apply(c, s, Holding(t, Release));
            && t !in s'.tasks && s'.ledger.idle == s.ledger.idle + [Entry(id, s.now)] && s'.ledger.all == s.ledger.all
            && (if c.pauseEnabled then
                  && s'.pause.taskOf == s.pause.taskOf[id := s.pause.nextJob] && s.pause.nextJob !in s.pause.jobs
                  && s'.pause.jobs == s.pause.jobs[s.pause.nextJob := Job(id, Sleeping, false)]
                  && s'.pause.ids == s.pause.ids
                else s'.pause == s.pause)
  {
    ReleaseNeverWaits(c, s, t);
    ReachableInvariant(c, s);
  }

  lemma HeldIsNotQueued(c: Config, s: State, t: TaskId)
    requires Reachable(c, s) && t in s.tasks && s.tasks[t].Having?
    ensures Without(s.ledger.idle, s.tasks[t].w) == s.ledger.idle
  {
    WorkersAreConserved(c, s);
    assert s.tasks[t].w in HeldIds(s.tasks);
    WithoutAbsent(s.ledger.idle, s.tasks[t].w);
  }

  /** A worker that does not resume leaves the pool, and its task looks for another. */
  lemma UnresumedWorkerIsEvicted(c: Config, s: State, t: TaskId)
    requires Reachable(c, s) && t in s.tasks && s.tasks[t].Having? && s.tasks[t].use.Resuming?
    ensures Enabled(s, Holding(t, ResumeFail))
    ensures var s1 := Apply(c, s, Holding(t, ResumeFail)); Enabled(s1, Holding(t, Discard))
    ensures var id := s.tasks[t].w;
            var s2 := Apply(c, Apply(c, s, Holding(t, ResumeFail)), Holding(t, Discard));
            && id !in s2.pause.ids && t in s2.tasks && s2.tasks[t] == Arriving
            && s2.ledger == s.ledger.(all := s.ledger.all - {id})
  {
    HeldIsNotQueued(c, s, t);
  }

  // ---------- the janitor ----------

  lemma DoomedIsHarmless(c: Config, s: State, id: WorkerId)
    requires JanitorSound(c, s) && Doomed(s, id)
    ensures Harmless(c, s, id)
  {
  }

  /** No pass deletes, or lists for deletion, a pooled worker that registered within its grace. */
  lemma JanitorSparesThePool(c: Config, s: State, id: WorkerId)
    requires Reachable(c, s) && !s.past.drained && Doomed(s, id)
    requires id in Ids(s.ledger.idle) + HeldIds(s.tasks)
    ensures id in s.past.late
  {
    WorkersAreConserved(c, s);
    assert id in s.ledger.all;
    ReachableInvariant(c, s);
    DoomedIsHarmless(c, s, id);
  }

  /** Nor one that will be handed out later on: a deleted container enters the pool only by being late. */
  lemma DeletedIsNeverReceived(c: Config, s: State, run: seq<Action>, id: WorkerId)
    requires Reachable(c, s) && id in s.agent.deleted && Possible(c, s, run)
    requires !Exec(c, s, run).past.drained
    requires id in Ids(Exec(c, s, run).ledger.idle) + HeldIds(Exec(c, s, run).tasks)
    ensures id in Exec(c, s, run).past.late
  {
    DeletionsStay(c, s, run);
    ReachableAfter(c, s, run);
    JanitorSparesThePool(c, Exec(c, s, run), id);
  }

  lemma {:induction false} DeletionsStay(c: Config, s: State, run: seq<Action>)
    requires Possible(c, s, run)
    ensures s.agent.deleted <= Exec(c, s, run).agent.deleted
    decreases |run|
  {
    if run != [] {
      FlagsOnlyRise(c, s, run[0]);
      DeletionsStay(c, Apply(c, s, run[0]), run[1..]);
    }
  }

  // ---------- runs ----------

  lemma {:induction false} RunsCompose(c: Config, s: State, r1: seq<Action>, r2: seq<Action>)
    requires Possible(c, s, r1) && Possible(c, Exec(c, s, r1), r2)
    ensures Possible(c, s, r1 + r2) && Exec(c, s, r1 + r2) == Exec(c, Exec(c, s, r1), r2)
    decreases |r1|
  {
    if r1 == [] {
      assert r1 + r2 == r2;
    } else {
      RunsCompose(c, Apply(c, s, r1[0]), r1[1..], r2);
      assert (r1 + r2)[0] == r1[0] && (r1 + r2)[1..] == r1[1..] + r2;
    }
  }

  lemma ReachableAfter(c: Config, s: State, run: seq<Action>)
    requires Reachable(c, s) && Possible(c, s, run)
    ensures Reachable(c, Exec(c, s, run))
  {
    var r :| Possible(c, Init(c), r) && Exec(c, Init(c), r) == s;
    RunsCompose(c, Init(c), r, run);
  }

  lemma ReachableStep(c: Config, s: State, a: Action)
    requires Reachable(c, s) && Enabled(s, a)
    ensures Reachable(c, Apply(c, s, a))
  {
    var run := [a];
    assert run[1..] == [];
    assert Possible(c, Apply(c, s, a), []);
    assert Possible(c, s, run) && Exec(c, s, run) == Exec(c, Apply(c, s, a), []);
    ReachableAfter(c, s, run);
  }
}
