/**
 Whom the pool can still serve: any newcomer and anyone who waits, for as long as losses leave a slot.
 On the continuations that show it no call fails and no request is cancelled.
 */
module PoolService {
  import opened Workers
  import opened Ledger
  import opened PoolProtocol
  import opened PoolCapacity
  import opened PoolSafety
  import opened PoolLimits

  // ---------- continuations ----------

  ghost predicate LeadsTo(c: Config, s: State, s': State) {
    exists run :: Possible(c, s, run) && Exec(c, s, run) == s'
  }

  /** A state some run without drain leads to from s. */
  ghost predicate Ahead(c: Config, s: State, s': State) {
    Reachable(c, s') && !s'.past.drained && LeadsTo(c, s, s')
  }

  lemma Here(c: Config, s: State)
    requires Reachable(c, s) && !s.past.drained
    ensures Ahead(c, s, s)
  {
    var run: seq<Action> := [];
    assert Possible(c, s, run) && Exec(c, s, run) == s;
  }

  lemma On(c: Config, s: State, s1: State, a: Action) returns (s2: State)
    requires Ahead(c, s, s1) && Enabled(s1, a) && !a.Drain?
    ensures s2 == Apply(c, s1, a) && Ahead(c, s, s2)
  {
    s2 := Apply(c, s1, a);
    var run :| Possible(c, s, run) && Exec(c, s, run) == s1;
    assert [a][1..] == [];
    assert Possible(c, s2, []) && Exec(c, s2, []) == s2;
    assert Possible(c, s1, [a]) && Exec(c, s1, [a]) == Exec(c, s2, [a][1..]);
    RunsCompose(c, s, run, [a]);
    ReachableStep(c, s1, a);
    PastAfterOne(c, s1, a);
  }

  // ---------- fresh ids ----------

  lemma {:induction false} LongerThanAll(ids: set<WorkerId>) returns (n: nat)
    ensures forall id :: id in ids ==> |id| < n
  {
    if ids == {} {
      n := 0;
    } else {
      var x :| x in ids;
      n := LongerThanAll(ids - {x});
      n := if |x| < n then n else |x| + 1;
    }
  }

  /** There is always another id. */
  lemma FreshId(ids: set<WorkerId>) returns (id: WorkerId)
    ensures id !in ids
  {
    var n := LongerThanAll(ids);
    id := seq(n, _ => 'x');
  }

  // ---------- getting out of the way ----------

  /** Only the pause book differs. */
  predicate SamePool(s: State, s': State) {
    s'.ledger == s.ledger && s'.tasks == s.tasks && s'.past == s.past && s'.agent == s.agent && s'.now == s.now
  }

  /** A pause job can always come to its end. */
  lemma JobEnds(c: Config, s: State, s1: State, j: JobId) returns (s2: State)
    requires Ahead(c, s, s1)
    ensures Ahead(c, s, s2) && SamePool(s1, s2) && j !in s2.pause.jobs
  {
    s2 := s1;
    if j in s2.pause.jobs && s2.pause.jobs[j].cancelled { s2 := On(c, s, s2, PauseJob(j, Unwinds)); }
    if j in s2.pause.jobs && s2.pause.jobs[j].stage == Sleeping { s2 := On(c, s, s2, PauseJob(j, Wakes)); }
    if j in s2.pause.jobs && s2.pause.jobs[j].stage == Checking { s2 := On(c, s, s2, PauseJob(j, Checks)); }
    if j in s2.pause.jobs { s2 := On(c, s, s2, PauseJob(j, Pauses)); }
  }

  /** s' is s1 but for the pause book and t, who now uses its worker. */
  predicate Uses(s1: State, s': State, t: TaskId) {
    && t in s1.tasks && s1.tasks[t].Having?
    && s'.ledger == s1.ledger && s'.tasks == s1.tasks[t := Having(s1.tasks[t].w, Working)]
  }

  predicate Evicting(use: Use) {
    use.Discarding? || use.Dropping?
  }

  /** A holder not about to evict can get to use its worker. */
  lemma HolderWorks(c: Config, s: State, s1: State, t: TaskId) returns (s2: State)
    requires Ahead(c, s, s1) && t in s1.tasks && s1.tasks[t].Having? && !Evicting(s1.tasks[t].use)
    ensures Ahead(c, s, s2) && Uses(s1, s2, t)
  {
    s2 := s1;
    if s2.tasks[t].use.AwaitingPause? {
      s2 := JobEnds(c, s, s2, s2.tasks[t].use.job);
      s2 := On(c, s, s2, Holding(t, PauseUnwound));
    }
    if s2.tasks[t].use.Resuming? { s2 := On(c, s, s2, Holding(t, ResumeOk)); }
  }

  /** t has not got a worker or a reservation yet. */
  predicate Asks(s: State, t: TaskId) {
    t in s.tasks ==> s.tasks[t].Arriving? || s.tasks[t].Waiting?
  }

  /** And can look at the pool at once. */
  predicate CanLook(s: State, t: TaskId) {
    Asks(s, t) && (t in s.tasks ==> !s.tasks[t].Asleep())
  }

  predicate HasSome(l: Ledger) {
    l.idle != [] || l.HasRoom()
  }

  lemma EvictionMakesRoom(l: Ledger, capacity: int, id: WorkerId)
    requires Bounded(l, capacity) && id in l.all && l.provisioning >= 0
    ensures Evicted(l, id).HasRoom()
  {
    assert |l.all - {id}| == |l.all| - 1;
  }

  lemma HeldIsInLedger(c: Config, s: State, u: TaskId)
    requires Reachable(c, s) && !s.past.drained && u in s.tasks && s.tasks[u].Having?
    ensures s.tasks[u].w in s.ledger.all && s.ledger.provisioning >= 0 && Bounded(s.ledger, c.capacity)
  {
    CapacityIsKept(c, s);
    WorkersAreConserved(c, s);
    ReachableInvariant(c, s);
    assert s.tasks[u].w in HeldIds(s.tasks);
  }

  lemma EvictingMakesRoom(c: Config, s: State, s1: State, u: TaskId, t: TaskId) returns (s2: State)
    requires Ahead(c, s, s1) && u in s1.tasks && s1.tasks[u].Having? && Evicting(s1.tasks[u].use)
    requires Asks(s1, t) && u != t
    ensures Ahead(c, s, s2) && CanLook(s2, t) && s2.ledger.HasRoom()
  {
    HeldIsInLedger(c, s1, u);
    EvictionMakesRoom(s1.ledger, c.capacity, s1.tasks[u].w);
    s2 := On(c, s, s1, Holding(u, if s1.tasks[u].use.Discarding? then Discard else FinishDrop));
  }

  lemma ReleaseMakesWay(c: Config, s: State, s1: State, u: TaskId, t: TaskId) returns (s2: State)
    requires Ahead(c, s, s1) && u in s1.tasks && s1.tasks[u].Having? && s1.tasks[u].use.Working?
    requires Asks(s1, t) && u != t
    ensures Ahead(c, s, s2) && CanLook(s2, t) && s2.ledger.idle != []
  {
    s2 := On(c, s, s1, Holding(u, Release));
  }

  /** A holder makes way: it releases its worker, or evicts it if it must. */
  lemma HolderMakesWay(c: Config, s: State, s1: State, u: TaskId, t: TaskId) returns (s2: State)
    requires Ahead(c, s, s1) && u in s1.tasks && s1.tasks[u].Having? && Asks(s1, t) && u != t
    ensures Ahead(c, s, s2) && CanLook(s2, t) && HasSome(s2.ledger)
  {
    if Evicting(s1.tasks[u].use) {
      s2 := EvictingMakesRoom(c, s, s1, u, t);
    } else {
      s2 := HolderWorks(c, s, s1, u);
      s2 := ReleaseMakesWay(c, s, s2, u, t);
    }
  }

  /** A reservation can always be made good. */
  lemma ReservationIsFilled(c: Config, s: State, s1: State, u: TaskId) returns (s2: State)
    requires Ahead(c, s, s1) && u in s1.tasks && s1.tasks[u].Reserves()
    ensures Ahead(c, s, s2) && u in s2.tasks && s2.tasks[u].Having? && !Evicting(s2.tasks[u].use)
    ensures forall t :: t != u ==> (t in s2.tasks <==> t in s1.tasks) && (t in s1.tasks ==> s2.tasks[t] == s1.tasks[t])
  {
    s2 := s1;
    if s2.tasks[u].Provisioning? {
      var id := FreshId(s2.agent.created.Keys);
      s2 := On(c, s, s2, Acquiring(u, Create(id)));
    }
    s2 := On(c, s, s2, Acquiring(u, ProvisionOk));
  }

  lemma AskerIsAwake(c: Config, s: State, t: TaskId)
    requires Reachable(c, s) && Asks(s, t) && HasSome(s.ledger)
    ensures CanLook(s, t)
  {
    ReachableInvariant(c, s);
    if t in s.tasks && s.tasks[t].Asleep() { NoLostWakeup(c, s, t); }
  }

  lemma SomeoneReserves(c: Config, s: State) returns (u: TaskId)
    requires Reachable(c, s) && !s.past.drained && !Exhausted(c, s) && !HasSome(s.ledger)
    requires forall v :: v in s.tasks ==> !s.tasks[v].Having?
    ensures u in s.tasks && s.tasks[u].Reserves()
  {
    WorkersAreConserved(c, s);
    CapacityIsKept(c, s);
    ReachableInvariant(c, s);
    assert s.ledger.all == s.past.leaked;
    assert |Reserving(s.tasks)| > 0;
    u :| u in Reserving(s.tasks);
  }

  /** While losses leave a slot, there is something in the pool or somebody who can make way. */
  lemma SomeoneMakesWay(c: Config, s: State, t: TaskId) returns (s2: State)
    requires Reachable(c, s) && !s.past.drained && !Exhausted(c, s) && Asks(s, t)
    ensures Ahead(c, s, s2) && CanLook(s2, t) && HasSome(s2.ledger)
  {
    Here(c, s);
    if HasSome(s.ledger) {
      s2 := s;
      AskerIsAwake(c, s, t);
    } else if u :| u in s.tasks && s.tasks[u].Having? {
      s2 := HolderMakesWay(c, s, s, u, t);
    } else {
      var u := SomeoneReserves(c, s);
      s2 := ReservationIsFilled(c, s, s, u);
      s2 := HolderMakesWay(c, s, s2, u, t);
    }
  }

  // ---------- being served ----------

  lemma AskerTakes(c: Config, s: State, s1: State, t: TaskId) returns (s2: State)
    requires Ahead(c, s, s1) && CanLook(s1, t) && HasSome(s1.ledger)
    ensures Ahead(c, s, s2) && t in s2.tasks && s2.tasks[t].Having? && !Evicting(s2.tasks[t].use)
  {
    s2 := s1;
    if t !in s2.tasks { s2 := On(c, s, s2, Acquiring(t, Arrive)); }
    s2 := On(c, s, s2, Acquiring(t, TryAcquire));
    if s1.ledger.idle == [] { s2 := ReservationIsFilled(c, s, s2, t); }
  }

  /** On some continuation without drain acquire_worker returns to t. */
  ghost predicate CanServe(c: Config, s: State, t: TaskId) {
    exists s', id :: Ahead(c, s, s') && t in s'.tasks && s'.tasks[t] == Having(id, Working)
  }

  lemma SpareCapacityServes(c: Config, s: State, t: TaskId)
    requires Reachable(c, s) && !s.past.drained && !Exhausted(c, s) && Asks(s, t)
    ensures CanServe(c, s, t)
  {
    var s' := SomeoneMakesWay(c, s, t);
    s' := AskerTakes(c, s, s', t);
    s' := HolderWorks(c, s, s', t);
    assert s'.tasks[t] == Having(s'.tasks[t].w, Working);
  }

  lemma ExhaustedServesNobody(c: Config, s: State, t: TaskId)
    requires Reachable(c, s) && Exhausted(c, s)
    ensures !CanServe(c, s, t)
  {
    forall s', id | Ahead(c, s, s') ensures !(t in s'.tasks && s'.tasks[t] == Having(id, Working)) {
      var run :| Possible(c, s, run) && Exec(c, s, run) == s';
      assert t in s'.tasks && s'.tasks[t].Having? ==> s'.tasks[t].w in HeldIds(s'.tasks);
      ExhaustionIsForever(c, s, run, 0.0);
    }
  }

  /**
   Whoever is new, about to look or waiting can still be given a worker if and only if losses do not fill
   the capacity.
   */
  lemma ServesIffNotExhausted(c: Config, s: State, t: TaskId)
    requires Reachable(c, s) && !s.past.drained && Asks(s, t)
    ensures CanServe(c, s, t) <==> !Exhausted(c, s)
  {
    if Exhausted(c, s) { ExhaustedServesNobody(c, s, t); } else { SpareCapacityServes(c, s, t); }
  }
}
