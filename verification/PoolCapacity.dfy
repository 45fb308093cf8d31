/**
 Capacity, notification and order: what the pool's ledger and its sleepers keep on every run,
 drain included where it says so.
 */
module PoolCapacity {
  import opened Workers
  import opened Ledger
  import opened PoolProtocol
  import opened PoolOwnership

  /** Workers that exist and workers being made never outnumber the capacity. */
  ghost predicate Bounded(l: Ledger, capacity: int) {
    l.capacity == capacity && l.Load() <= Max(capacity, 0)
  }

  /** Nobody sleeps un-notified while there is something for them. */
  ghost predicate NoneForgotten(s: State) {
    forall t :: t in s.tasks && s.tasks[t].Asleep() ==> s.ledger.idle == [] && !s.ledger.HasRoom()
  }

  function Reserving(tasks: map<TaskId, Phase>): set<TaskId> {
    set t | t in tasks && tasks[t].Reserves()
  }

  /** The counter counts the provisions under way. */
  ghost predicate Counted(s: State) {
    !s.past.drained ==> s.ledger.provisioning == |Reserving(s.tasks)| + s.past.lostSlots
  }

  /** The idle queue is in least-recently-used order, unless a worker was adopted out of turn. */
  ghost predicate InOrder(s: State) {
    !s.past.disordered ==> Chronological(s.ledger.idle, s.now)
  }

  ghost predicate Chronological(q: seq<Entry>, now: Time) {
    Sorted(q) && forall e :: e in q ==> e.lastUsedAt <= now
  }

  lemma InitCapacity(c: Config)
    ensures Bounded(Init(c).ledger, c.capacity) && NoneForgotten(Init(c)) && Counted(Init(c)) && InOrder(Init(c))
  {
  }

  // ---------- capacity ----------

  lemma CardinalitySubset(a: set<WorkerId>, b: set<WorkerId>)
    ensures |a - b| <= |a|
  {
  }

  lemma AcquireBounded(c: Config, s: State, t: TaskId, step: AcquireStep)
    requires Bounded(s.ledger, c.capacity) && AcquireEnabled(s, t, step)
    ensures Bounded(AfterAcquire(c, s, t, step).ledger, c.capacity)
  {
  }

  lemma HolderBounded(c: Config, s: State, t: TaskId, step: HolderStep)
    requires Bounded(s.ledger, c.capacity) && t in s.tasks && HolderEnabled(s, s.tasks[t], step)
    ensures Bounded(AfterHolder(c, s, t, step).ledger, c.capacity)
  {
  }

  lemma BoundedStep(c: Config, s: State, a: Action)
    requires Bounded(s.ledger, c.capacity) && Enabled(s, a)
    ensures Bounded(Apply(c, s, a).ledger, c.capacity)
  {
    match a
    case Acquiring(t, step) => AcquireBounded(c, s, t, step);
    case Holding(t, step) => HolderBounded(c, s, t, step);
    case Janitor(t, step) =>
      if step.Prune? { CardinalitySubset(s.ledger.all, Ids(Stale(s.ledger.idle, s.now, step.idleTimeout))); }
    case Adopt(id, _, _) => Cardinalities(s.ledger.all, id);
    case _ =>
  }

  // ---------- notification ----------

  lemma NobodyAsleep(s: State)
    ensures forall t :: t in NotifyAll(s).tasks ==> !NotifyAll(s).tasks[t].Asleep()
  {
  }

  lemma TurnForgetsNone(c: Config, s: State, t: TaskId, since: Time)
    requires NoneForgotten(s)
    ensures NoneForgotten(AfterTry(c, s, t, since))
  {
  }

  /** A fresh worker replaces its own reservation: the load is what it was, so no one need be told. */
  lemma ProvisionForgetsNone(c: Config, s: State, t: TaskId, id: WorkerId)
    requires NoneForgotten(s) && Owned(s) && t in s.tasks && s.tasks[t] == Starting(id)
    ensures AfterProvision(c, s, t, id).ledger.Load() == s.ledger.Load()
    ensures NoneForgotten(AfterProvision(c, s, t, id))
  {
    var m :| Agrees(s, m);
    assert PhaseAgrees(t, s.tasks[t], m);
    LedgerRegisters(s.ledger, s.past.leaked, s.past.drained, m, t, id);
    Cardinalities(s.ledger.all, id);
  }

  lemma PruneForgetsNone(s: State, t: TaskId, idleTimeout: Time)
    requires NoneForgotten(s)
    ensures NoneForgotten(AfterPrune(s, t, idleTimeout))
  {
  }

  lemma AcquireForgetsNone(c: Config, s: State, t: TaskId, a: AcquireStep)
    requires NoneForgotten(s) && Owned(s) && AcquireEnabled(s, t, a)
    ensures NoneForgotten(AfterAcquire(c, s, t, a))
  {
    if a.TryAcquire? {
      TurnForgetsNone(c, s, t, if s.tasks[t].Arriving? then s.now else s.tasks[t].since);
    } else if a.ProvisionOk? {
      ProvisionForgetsNone(c, s, t, s.tasks[t].made);
    } else if a.ProvisionFail? {
      NobodyAsleep(s.(ledger := Aborted(s.ledger)));
    }
  }

  lemma HolderForgetsNone(c: Config, s: State, t: TaskId, h: HolderStep)
    requires NoneForgotten(s) && t in s.tasks && HolderEnabled(s, s.tasks[t], h)
    ensures NoneForgotten(AfterHolder(c, s, t, h))
  {
    NobodyAsleep(s);
  }

  lemma NoneForgottenStep(c: Config, s: State, a: Action)
    requires NoneForgotten(s) && Owned(s) && Enabled(s, a)
    ensures NoneForgotten(Apply(c, s, a))
  {
    match a
    case Acquiring(t, step) => AcquireForgetsNone(c, s, t, step);
    case Holding(t, step) => HolderForgetsNone(c, s, t, step);
    case Janitor(t, step) => if step.Prune? { PruneForgetsNone(s, t, step.idleTimeout); }
    case Adopt(_, _, _) => NobodyAsleep(s);
    case Drain => NobodyAsleep(s);
    case _ =>
  }

  // ---------- the counter ----------

  lemma ReservingMembers(tasks: map<TaskId, Phase>, t: TaskId, p: Phase)
    ensures Reserving(tasks[t := p]) == if p.Reserves() then Reserving(tasks) + {t} else Reserving(tasks) - {t}
    ensures t in Reserving(tasks) <==> t in tasks && tasks[t].Reserves()
  {
  }

  lemma ReservingAfterSet(tasks: map<TaskId, Phase>, t: TaskId, p: Phase)
    ensures |Reserving(tasks[t := p])| ==
            |Reserving(tasks)| - (if t in tasks && tasks[t].Reserves() then 1 else 0) + (if p.Reserves() then 1 else 0)
  {
    ReservingMembers(tasks, t, p);
    Cardinalities(Reserving(tasks), t);
  }

  lemma ReservingAfterEnd(tasks: map<TaskId, Phase>, t: TaskId)
    ensures |Reserving(tasks - {t})| == |Reserving(tasks)| - (if t in tasks && tasks[t].Reserves() then 1 else 0)
  {
    assert Reserving(tasks - {t}) == Reserving(tasks) - {t};
  }

  lemma ReservingAfterNotify(s: State)
    ensures Reserving(NotifyAll(s).tasks) == Reserving(s.tasks)
  {
  }

  lemma AcquireCounts(c: Config, s: State, t: TaskId, a: AcquireStep)
    requires Counted(s) && AcquireEnabled(s, t, a)
    ensures Counted(AfterAcquire(c, s, t, a))
  {
    var s' := AfterAcquire(c, s, t, a);
    if t in s'.tasks {
      ReservingAfterSet(s.tasks, t, s'.tasks[t]);
    } else {
      ReservingAfterNotify(s);
      ReservingAfterEnd(s.tasks, t);
      ReservingAfterEnd(NotifyAll(s).tasks, t);
      // the guard of the failure handler never bites: this reservation is still counted
      assert s.tasks[t].Reserves() ==> t in Reserving(s.tasks);
    }
  }

  lemma HolderCounts(c: Config, s: State, t: TaskId, h: HolderStep)
    requires Counted(s) && t in s.tasks && HolderEnabled(s, s.tasks[t], h)
    ensures Counted(AfterHolder(c, s, t, h))
  {
    var s' := AfterHolder(c, s, t, h);
    ReservingAfterNotify(s);
    if t in s'.tasks {
      ReservingAfterSet(s.tasks, t, s'.tasks[t]);
      ReservingAfterSet(NotifyAll(s).tasks, t, s'.tasks[t]);
    } else {
      ReservingAfterEnd(s.tasks, t);
      ReservingAfterEnd(NotifyAll(s).tasks, t);
    }
  }

  lemma JanitorCounts(c: Config, s: State, t: TaskId, n: JanitorStep)
    requires Counted(s) && JanitorEnabled(s, t, n)
    ensures Counted(AfterJanitor(c, s, t, n))
  {
    var s' := AfterJanitor(c, s, t, n);
    ReservingAfterNotify(s);
    if t in s'.tasks {
      ReservingAfterSet(s.tasks, t, s'.tasks[t]);
      ReservingAfterSet(NotifyAll(s).tasks, t, s'.tasks[t]);
    } else {
      ReservingAfterEnd(s.tasks, t);
    }
  }

  lemma CountedStep(c: Config, s: State, a: Action)
    requires Counted(s) && Enabled(s, a)
    ensures Counted(Apply(c, s, a))
  {
    match a
    case Acquiring(t, step) => AcquireCounts(c, s, t, step);
    case Holding(t, step) => HolderCounts(c, s, t, step);
    case Janitor(t, step) => JanitorCounts(c, s, t, step);
    case Adopt(_, _, _) => ReservingAfterNotify(s);
    case _ =>
  }

  // ---------- order ----------

  /** Exactly the stamps in turn can join a queue in order. */
  lemma InTurnKeepsOrder(q: seq<Entry>, e: Entry, now: Time)
    requires Chronological(q, now)
    ensures Chronological(q + [Stamped(e, now)], now) <==> InTurn(q, e.lastUsedAt, now)
  {
    var e', q' := Stamped(e, now), q + [Stamped(e, now)];
    Enqueue(q, e');
    assert q'[|q|] == e' && e' in q';
    if Sorted(q') {
      forall x | x in q ensures x.lastUsedAt <= e'.lastUsedAt {
        var i :| 0 <= i < |q| && q[i] == x;
        assert q'[i].lastUsedAt <= q'[|q|].lastUsedAt;
      }
    }
  }

  lemma QueueStaysChronological(q: seq<Entry>, now: Time, id: WorkerId, timeout: Time)
    requires Chronological(q, now)
    ensures q != [] ==> Chronological(q[1..], now)
    ensures Chronological(Without(q, id), now)
    ensures Chronological(Fresh(q, now, timeout), now)
  {
    WithoutKeepsShape(q, id);
    WithoutIsExact(q, id);
    PruneKeepsOrder(q, now, timeout);
    PruneSplits(q, now, timeout);
  }

  /** All that can happen to the idle queue: no waiting worker is ever restamped or reordered. */
  ghost predicate QueueMove(q: seq<Entry>, q': seq<Entry>, now: Time) {
    || q' == q
    || q' == []
    || (q != [] && q' == q[1..])
    || (exists e: Entry :: InTurn(q, e.lastUsedAt, now) && q' == q + [Stamped(e, now)])
    || (exists id :: q' == Without(q, id))
    || (exists timeout :: q' == Fresh(q, now, timeout))
  }

  lemma AdoptMoves(c: Config, s: State, id: WorkerId, bornAt: Time, stamp: Time)
    requires Enabled(s, Adopt(id, bornAt, stamp)) && !AfterAdopt(s, id, bornAt, stamp).past.disordered
    ensures QueueMove(s.ledger.idle, AfterAdopt(s, id, bornAt, stamp).ledger.idle, s.now)
  {
    var q, e := s.ledger.idle, Entry(id, stamp);
    assert s.ledger.HasRoom() ==>
             InTurn(q, e.lastUsedAt, s.now) && AfterAdopt(s, id, bornAt, stamp).ledger.idle == q + [Stamped(e, s.now)];
  }

  lemma QueueMoves(c: Config, s: State, a: Action)
    requires Enabled(s, a)
    ensures !Apply(c, s, a).past.disordered ==> QueueMove(s.ledger.idle, Apply(c, s, a).ledger.idle, s.now)
  {
    var q, q' := s.ledger.idle, Apply(c, s, a).ledger.idle;
    match a
    case Holding(t, step) =>
      if step.Release? { assert q' == q + [Stamped(Entry(s.tasks[t].w, 0.0), s.now)]; }
      else if step.Discard? || step.FinishDrop? { assert q' == Without(q, s.tasks[t].w); }
    case Janitor(t, step) => if step.Prune? { assert q' == Fresh(q, s.now, step.idleTimeout); }
    case Adopt(id, bornAt, stamp) =>
      if !Apply(c, s, a).past.disordered { AdoptMoves(c, s, id, bornAt, stamp); }
    case _ =>
  }

  lemma InOrderStep(c: Config, s: State, a: Action)
    requires InOrder(s) && Enabled(s, a)
    ensures InOrder(Apply(c, s, a))
  {
    var q, s' := s.ledger.idle, Apply(c, s, a);
    if !s'.past.disordered {
      FlagsOnlyRise(c, s, a);
      QueueMoves(c, s, a);
      ChronologicalMove(q, s'.ledger.idle, s.now);
    }
  }

  lemma ChronologicalMove(q: seq<Entry>, q': seq<Entry>, now: Time)
    requires Chronological(q, now) && QueueMove(q, q', now)
    ensures Chronological(q', now)
  {
    QueueStaysChronological(q, now, "", 0.0);
    if e: Entry :| InTurn(q, e.lastUsedAt, now) && q' == q + [Stamped(e, now)] { InTurnKeepsOrder(q, e, now); }
    if id :| q' == Without(q, id) { QueueStaysChronological(q, now, id, 0.0); }
    if timeout :| q' == Fresh(q, now, timeout) { QueueStaysChronological(q, now, "", timeout); }
  }

  /** What has happened stays happened, and the clock does not run backwards. */
  lemma FlagsOnlyRise(c: Config, s: State, a: Action)
    requires Enabled(s, a)
    ensures s.now <= Apply(c, s, a).now
    ensures s.past.disordered ==> Apply(c, s, a).past.disordered
    ensures s.past.drained ==> Apply(c, s, a).past.drained
    ensures s.past.late <= Apply(c, s, a).past.late
    ensures s.past.leaked <= Apply(c, s, a).past.leaked
    ensures s.past.lostSlots <= Apply(c, s, a).past.lostSlots
    ensures s.agent.deleted <= Apply(c, s, a).agent.deleted
  {
  }
}
