/**
 Where the pool's promises end, exactly: which runs raise the history variables, when a deletion is
 fatal, when an adoption breaks the order, when losses kill the pool.
 */
module PoolLimits {
  import opened Workers
  import opened Ledger
  import opened PoolProtocol
  import opened PoolCapacity
  import opened PoolJanitor
  import opened PoolSafety

  // ---------- the history variables ----------

  /** The state in which a run's action i happens. */
  function StateAt(c: Config, s: State, run: seq<Action>, i: nat): State
    requires Possible(c, s, run) && i <= |run|
    decreases |run|
  {
    if i == 0 then s else StateAt(c, Apply(c, s, run[0]), run[1..], i - 1)
  }

  predicate IsLeak(a: Action) {
    a.Holding? && a.h.Leak?
  }

  predicate IsSlotLost(a: Action) {
    a.Acquiring? && a.a.SlotLost?
  }

  /** An adoption into a pool with room whose stamp is out of turn. */
  predicate Disorders(s: State, a: Action) {
    a.Adopt? && s.ledger.HasRoom() && !InTurn(s.ledger.idle, a.stamp, s.now)
  }

  /** A registration past the deadline. */
  predicate RegistersLate(c: Config, s: State, a: Action, id: WorkerId) {
    && a.Acquiring? && a.a.ProvisionOk? && a.t in s.tasks && s.tasks[a.t] == Starting(id) && !InGrace(c, s, id)
  }

  lemma PastAfterOne(c: Config, s: State, a: Action)
    requires Enabled(s, a)
    ensures var s' := Apply(c, s, a);
            && (s'.past.drained <==> s.past.drained || a.Drain?)
            && (s'.past.leaked != {} <==> s.past.leaked != {} || IsLeak(a))
            && (s'.past.lostSlots > 0 <==> s.past.lostSlots > 0 || IsSlotLost(a))
            && (s'.past.disordered <==> s.past.disordered || Disorders(s, a))
            && (forall id :: id in s'.past.late <==> id in s.past.late || RegistersLate(c, s, a, id))
  {
  }

  /** The history variables mean what they say, so every proviso of a pool theorem is one about the run. */
  lemma {:induction false} PastIsHonest(c: Config, s: State, run: seq<Action>)
    requires Possible(c, s, run)
    ensures var past := Exec(c, s, run).past;
            && (past.drained <==> s.past.drained || exists i :: 0 <= i < |run| && run[i].Drain?)
            && (past.leaked != {} <==> s.past.leaked != {} || exists i :: 0 <= i < |run| && IsLeak(run[i]))
            && (past.lostSlots > 0 <==> s.past.lostSlots > 0 || exists i :: 0 <= i < |run| && IsSlotLost(run[i]))
    ensures Exec(c, s, run).past.disordered <==>
              s.past.disordered || exists i :: 0 <= i < |run| && Disorders(StateAt(c, s, run, i), run[i])
    decreases |run|
  {
    if run != [] {
      var s1, rest := Apply(c, s, run[0]), run[1..];
      PastAfterOne(c, s, run[0]);
      PastIsHonest(c, s1, rest);
      assert forall i :: 0 <= i < |rest| ==> rest[i] == run[i + 1] && StateAt(c, s1, rest, i) == StateAt(c, s, run, i + 1);
      assert forall i :: 0 < i < |run| ==> run[i] == rest[i - 1] && StateAt(c, s, run, i) == StateAt(c, s1, rest, i - 1);
    }
  }

  /** A worker is late if and only if some step of the run registered it past its deadline. */
  lemma {:induction false} LateMeansRegisteredLate(c: Config, s: State, run: seq<Action>, id: WorkerId)
    requires Possible(c, s, run)
    ensures id in Exec(c, s, run).past.late <==>
              id in s.past.late || exists i :: 0 <= i < |run| && RegistersLate(c, StateAt(c, s, run, i), run[i], id)
    decreases |run|
  {
    if run != [] {
      var s1, rest := Apply(c, s, run[0]), run[1..];
      PastAfterOne(c, s, run[0]);
      LateMeansRegisteredLate(c, s1, rest, id);
      assert forall i :: 0 <= i < |rest| ==> rest[i] == run[i + 1] && StateAt(c, s1, rest, i) == StateAt(c, s, run, i + 1);
      assert forall i :: 0 < i < |run| ==> run[i] == rest[i - 1] && StateAt(c, s, run, i) == StateAt(c, s1, rest, i - 1);
    }
  }

  // ---------- runs under construction ----------

  lemma Start(c: Config) returns (s: State)
    ensures s == Init(c) && Reachable(c, s)
  {
    s := Init(c);
    assert Possible(c, s, []) && Exec(c, s, []) == s;
  }

  /** One more action. */
  lemma Then(c: Config, s: State, a: Action) returns (s': State)
    requires Reachable(c, s) && Enabled(s, a)
    ensures s' == Apply(c, s, a) && Reachable(c, s')
  {
    s' := Apply(c, s, a);
    ReachableStep(c, s, a);
  }

  /** A task finds the pool empty and has its container made at the time `born`. */
  lemma ThenStarting(c: Config, t: TaskId, id: WorkerId, born: Time) returns (s: State)
    requires c.capacity >= 1 && born >= 0.0
    ensures Reachable(c, s)
    ensures s.tasks == map[t := Starting(id)] && s.agent == Agent(map[id := born], {})
    ensures s.ledger == Ledger([], {}, 1, c.capacity)
    ensures s.now == born && s.pause == Init(c).pause && s.past == Init(c).past
  {
    s := Start(c);
    s := Then(c, s, Tick(born));
    s := Then(c, s, Acquiring(t, Arrive));
    s := Then(c, s, Acquiring(t, TryAcquire));
    s := Then(c, s, Acquiring(t, Create(id)));
  }

  // ---------- the registration deadline ----------

  /** What a caller wants: if every worker registers in time, no janitor pass ever goes after a pooled one. */
  lemma TimelyRunsAreSafe(c: Config, run: seq<Action>, id: WorkerId)
    requires Possible(c, Init(c), run) && forall i :: 0 <= i < |run| ==> !run[i].Drain?
    requires forall i, w | 0 <= i < |run| :: !RegistersLate(c, StateAt(c, Init(c), run, i), run[i], w)
    ensures var s := Exec(c, Init(c), run);
            id in Ids(s.ledger.idle) + HeldIds(s.tasks) ==> !Doomed(s, id)
  {
    var s := Exec(c, Init(c), run);
    PastIsHonest(c, Init(c), run);
    LateMeansRegisteredLate(c, Init(c), run, id);
    assert Reachable(c, s);
    if id in Ids(s.ledger.idle) + HeldIds(s.tasks) && Doomed(s, id) { JanitorSparesThePool(c, s, id); }
  }

  /** Registering no later than the grace period less one second is in time whatever the birth time rounds to. */
  lemma OneSecondIsEnough(c: Config, s: State, id: WorkerId)
    requires id in s.agent.created && s.now <= s.agent.created[id] + c.gracePeriod - 1.0
    ensures InGrace(c, s, id)
  {
  }

  /** In s, at the time `registered`, t is about to be handed a container born at `born` that the janitor deleted. */
  ghost predicate HandsOutDeleted(c: Config, s: State, t: TaskId, id: WorkerId, born: Time, registered: Time) {
    && Reachable(c, s) && !s.past.drained && s.now == registered
    && t in s.tasks && s.tasks[t] == Starting(id) && id in s.agent.created && s.agent.created[id] == born
    && id in s.agent.deleted && AfterProvision(c, s, t, id).tasks[t] == Having(id, Working)
  }

  ghost predicate FatalHandover(c: Config, born: Time, registered: Time) {
    exists s, t, id :: HandsOutDeleted(c, s, t, id, born, registered)
  }

  /** A reconcile pass at the deadline lists a container still starting. */
  lemma OrphanAtDeadline(c: Config, t: TaskId, janitor: TaskId, id: WorkerId, born: Time, registered: Time)
      returns (s: State)
    requires c.capacity >= 1 && t != janitor && 0.0 <= born <= registered
    requires registered >= born.Floor as real + c.gracePeriod
    ensures Reachable(c, s) && !s.past.drained && s.now == registered
    ensures s.tasks == map[t := Starting(id), janitor := Deleting({id})]
    ensures s.agent == Agent(map[id := born], {}) && s.pause == Init(c).pause
  {
    s := ThenStarting(c, t, id, born);
    s := Then(c, s, Tick(registered));
    s := Then(c, s, Janitor(janitor, StartReconcile));
    s := Then(c, s, Janitor(janitor, AgentLists));
    assert AgentView(s) == map[id := born.Floor];
    assert Orphans(c, s.ledger, s.now, AgentView(s)) == {id};
    s := Then(c, s, Janitor(janitor, CollectOrphans));
  }

  lemma LateRegistrationIsFatal(c: Config, t: TaskId, janitor: TaskId, id: WorkerId, born: Time, registered: Time)
      returns (s: State)
    requires c.capacity >= 1 && t != janitor && 0.0 <= born <= registered
    requires registered >= born.Floor as real + c.gracePeriod
    ensures HandsOutDeleted(c, s, t, id, born, registered)
  {
    s := OrphanAtDeadline(c, t, janitor, id, born, registered);
    s := Then(c, s, Janitor(janitor, Delete(id, true)));
  }

  lemma TimelyRegistrationIsNot(c: Config, s: State, t: TaskId, id: WorkerId, born: Time, registered: Time)
    requires HandsOutDeleted(c, s, t, id, born, registered)
    ensures registered >= born.Floor as real + c.gracePeriod
  {
    ReachableInvariant(c, s);
    DoomedIsHarmless(c, s, id);
  }

  /** The deadline is exact: a deleted container can be handed out if and only if it registers past it. */
  lemma DeadlineIsExact(c: Config, born: Time, registered: Time)
    requires c.capacity >= 1 && 0.0 <= born <= registered
    ensures FatalHandover(c, born, registered) <==> registered >= born.Floor as real + c.gracePeriod
  {
    if registered >= born.Floor as real + c.gracePeriod {
      var s := LateRegistrationIsFatal(c, 0, 1, "w", born, registered);
    }
    if FatalHandover(c, born, registered) {
      var s, t, id :| HandsOutDeleted(c, s, t, id, born, registered);
      TimelyRegistrationIsNot(c, s, t, id, born, registered);
    }
  }

  // ---------- order ----------

  /** Until an adoption is out of turn the queue is in order, and an adoption keeps it so exactly if it is in turn. */
  lemma AdoptionKeepsOrderIff(c: Config, s: State, id: WorkerId, bornAt: Time, stamp: Time)
    requires Reachable(c, s) && !s.past.disordered && Enabled(s, Adopt(id, bornAt, stamp)) && s.ledger.HasRoom()
    ensures Chronological(AfterAdopt(s, id, bornAt, stamp).ledger.idle, s.now) <==> InTurn(s.ledger.idle, stamp, s.now)
  {
    ReachableInvariant(c, s);
    InTurnKeepsOrder(s.ledger.idle, Entry(id, stamp), s.now);
  }

  /** Two past stamps adopted in the wrong order: pruning is no longer a prefix cut. */
  lemma AdoptionCanDisorder(c: Config, a: WorkerId, b: WorkerId) returns (s: State)
    requires c.capacity >= 2 && a != b
    ensures Reachable(c, s) && s.past.disordered && s.now == 10.0
    ensures s.ledger.idle == [Entry(a, 5.0), Entry(b, 1.0)] && !Sorted(s.ledger.idle)
    ensures Fresh(s.ledger.idle, s.now, 7.0) == [Entry(a, 5.0)]
  {
    s := Start(c);
    s := Then(c, s, Tick(10.0));
    s := Then(c, s, Adopt(a, 0.0, 5.0));
    s := Then(c, s, Adopt(b, 0.0, 1.0));
    assert s.ledger.idle[0].lastUsedAt > s.ledger.idle[1].lastUsedAt;
    assert s.ledger.idle[1..] == [Entry(b, 1.0)];
    assert Fresh([Entry(b, 1.0)], 10.0, 7.0) == [];
    assert Fresh(s.ledger.idle, 10.0, 7.0) == [Entry(a, 5.0)] + Fresh(s.ledger.idle[1..], 10.0, 7.0);
  }

  // ---------- drain ----------

  lemma NotifyMovesNoWorker(s: State)
    ensures HeldIds(NotifyAll(s).tasks) == HeldIds(s.tasks)
  {
    forall id | id in HeldIds(s.tasks) ensures id in HeldIds(NotifyAll(s).tasks) {
      var t :| t in s.tasks && s.tasks[t].Having? && s.tasks[t].w == id;
      assert NotifyAll(s).tasks[t].w == id;
    }
  }

  /**
   The first drain keeps the counter equation if and only if no provision is under way and no slot is lost,
   and the ledger equation if and only if no worker is held and none leaked.
   */
  lemma DrainKeepsTheBooksIff(c: Config, s: State)
    requires Reachable(c, s) && !s.past.drained
    ensures var s' := Apply(c, s, Drain);
            && (s'.ledger.provisioning == |Reserving(s'.tasks)| + s'.past.lostSlots
                <==> Reserving(s.tasks) == {} && s.past.lostSlots == 0)
            && (s'.ledger.all == Ids(s'.ledger.idle) + HeldIds(s'.tasks) + s'.past.leaked
                <==> HeldIds(s.tasks) == {} && s.past.leaked == {})
  {
    ReservingAfterNotify(s);
    NotifyMovesNoWorker(s);
    assert |Reserving(s.tasks)| == 0 <==> Reserving(s.tasks) == {};
  }

  /** A provision that a drain overtakes drives the counter below zero and its worker into the emptied ledger. */
  lemma DrainUnbalancesTheCounter(c: Config, s: State, t: TaskId, id: WorkerId)
    requires Reachable(c, s) && t in s.tasks && s.tasks[t] == Starting(id)
    ensures var run := [Drain, Acquiring(t, ProvisionOk)];
            && Possible(c, s, run)
            && Exec(c, s, run).ledger.provisioning == -1 && Exec(c, s, run).ledger.all == {id}
            && t in Exec(c, s, run).tasks && Exec(c, s, run).tasks[t].Holds(id)
  {
    var s1 := Apply(c, s, Drain);
    var s2 := Apply(c, s1, Acquiring(t, ProvisionOk));
    var run := [Drain, Acquiring(t, ProvisionOk)];
    assert run[1..] == [Acquiring(t, ProvisionOk)] && run[1..][1..] == [];
    assert Possible(c, s2, []) && Exec(c, s2, []) == s2;
    assert Possible(c, s1, run[1..]) && Exec(c, s1, run[1..]) == s2;
  }

  // ---------- losses ----------

  /** A worker used once, released, and paused after its idle time. */
  lemma ThenPaused(c: Config, t: TaskId, id: WorkerId) returns (s: State)
    requires c.capacity >= 1 && c.pauseEnabled
    ensures Reachable(c, s) && s.tasks == map[] && s.past.leaked == {} && !s.past.drained
    ensures s.ledger == Ledger([Entry(id, 0.0)], {id}, 0, c.capacity)
    ensures s.pause == PauseBook(map[], map[], {id}, 1)
  {
    s := ThenStarting(c, t, id, 0.0);
    s := Then(c, s, Acquiring(t, ProvisionOk));
    s := Then(c, s, Holding(t, Release));
    assert s.tasks == map[] && s.pause.taskOf == map[id := 0];
    s := Then(c, s, PauseJob(0, Wakes));
    s := Then(c, s, PauseJob(0, Checks));
    s := Then(c, s, PauseJob(0, Pauses));
    assert s.pause.taskOf == map[] && s.pause.jobs == map[];
  }

  /** A request cancelled while it resumes a paused worker leaves the worker to nobody. */
  lemma CancelledHolderLeaks(c: Config, t: TaskId, u: TaskId, id: WorkerId) returns (before: State, s: State)
    requires c.capacity >= 1 && c.pauseEnabled
    ensures Reachable(c, before) && before.tasks == map[u := Having(id, Resuming)] && before.pause.ids == {id}
    ensures Enabled(before, Holding(u, Leak)) && s == Apply(c, before, Holding(u, Leak)) && Reachable(c, s)
    ensures !s.past.drained && s.past.leaked == {id} && s.tasks == map[]
    ensures s.ledger.all == {id} && s.ledger.idle == []
  {
    before := ThenPaused(c, t, id);
    before := Then(c, before, Acquiring(u, Arrive));
    before := Then(c, before, Acquiring(u, TryAcquire));
    assert before.tasks == map[u := Having(id, Resuming)];
    s := Then(c, before, Holding(u, Leak));
    assert s.tasks == map[];
  }

  /** Lost workers and lost reservations fill the capacity. */
  predicate Exhausted(c: Config, s: State) {
    |s.past.leaked| + s.past.lostSlots >= c.capacity
  }

  lemma {:induction false} LossesStay(c: Config, s: State, run: seq<Action>)
    requires Possible(c, s, run)
    ensures s.past.leaked <= Exec(c, s, run).past.leaked && s.past.lostSlots <= Exec(c, s, run).past.lostSlots
    ensures s.past.drained ==> Exec(c, s, run).past.drained
    decreases |run|
  {
    if run != [] {
      FlagsOnlyRise(c, s, run[0]);
      LossesStay(c, Apply(c, s, run[0]), run[1..]);
    }
  }

  /** An exhausted pool hands out nothing on any continuation without drain: acquirers wait or time out. */
  lemma ExhaustionIsForever(c: Config, s: State, run: seq<Action>, elapsed: Time)
    requires Reachable(c, s) && Exhausted(c, s)
    requires Possible(c, s, run) && !Exec(c, s, run).past.drained
    ensures var s' := Exec(c, s, run);
            && s'.ledger.idle == [] && HeldIds(s'.tasks) == {} && Reserving(s'.tasks) == {}
            && (Decide(s'.ledger, elapsed, c.acquireTimeout).Wait? || Decide(s'.ledger, elapsed, c.acquireTimeout).Expire?)
  {
    LossesStay(c, s, run);
    ReachableAfter(c, s, run);
    SubsetCardinality(s.past.leaked, Exec(c, s, run).past.leaked);
    LossesExhaustThePool(c, Exec(c, s, run), elapsed);
  }
}
