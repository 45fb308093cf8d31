/**
 Who has which worker. The proof carries a whereabouts map: one place per worker, so that no two
 parties can have the same one; every action moves at most the workers it names.
 */
module PoolOwnership {
  import opened Workers
  import opened Ledger
  import opened PoolProtocol

  datatype Place = Idle | Lost | MadeBy(t: TaskId) | HeldBy(t: TaskId) | RetiredBy(t: TaskId)

  type Whereabouts = map<WorkerId, Place>

  ghost predicate IsAt(m: Whereabouts, id: WorkerId, p: Place) {
    id in m && m[id] == p
  }

  /** A task's phase says of its workers what the whereabouts say. */
  ghost predicate PhaseAgrees(t: TaskId, p: Phase, m: Whereabouts) {
    && (p.Having? ==> IsAt(m, p.w, HeldBy(t)))
    && (p.Starting? ==> IsAt(m, p.made, MadeBy(t)))
    && (p.Cleaning? ==> forall id :: id in p.pruned ==> IsAt(m, id, RetiredBy(t)))
    && (forall id :: p.StillToClean(id) ==> id in p.pruned)
  }

  ghost predicate TasksAgree(tasks: map<TaskId, Phase>, m: Whereabouts) {
    && (forall t :: t in tasks ==> PhaseAgrees(t, tasks[t], m))
    && (forall id :: id in m && m[id].HeldBy? ==> m[id].t in tasks && tasks[m[id].t].Holds(id))
  }

  /** The ledger says what the whereabouts say; exactly so until drain. */
  ghost predicate LedgerAgrees(l: Ledger, leaked: set<WorkerId>, drained: bool, m: Whereabouts) {
    && DistinctIds(l.idle)
    && (forall id :: id in Ids(l.idle) <==> IsAt(m, id, Idle))
    && (forall id :: id in leaked <==> IsAt(m, id, Lost))
    && (forall id :: id in l.all ==> id in m && (m[id].Idle? || m[id].Lost? || m[id].HeldBy?))
    && (!drained ==> forall id :: id in m && (m[id].Idle? || m[id].Lost? || m[id].HeldBy?) ==> id in l.all)
  }

  ghost predicate Agrees(s: State, m: Whereabouts) {
    && m.Keys <= s.agent.created.Keys
    && TasksAgree(s.tasks, m)
    && LedgerAgrees(s.ledger, s.past.leaked, s.past.drained, m)
  }

  ghost predicate Owned(s: State) {
    exists m :: Agrees(s, m)
  }

  lemma InitOwned(c: Config)
    ensures Owned(Init(c))
  {
    assert Agrees(Init(c), map[]);
  }

  // ---------- one action at a time ----------

  /** Task t moves on while every other task is at most notified. */
  ghost predicate OnlyTaskMoves(s: State, s': State, t: TaskId) {
    && (forall u :: u in s.tasks && u != t ==>
          u in s'.tasks && (s'.tasks[u] == s.tasks[u] || s'.tasks[u] == Wake(s.tasks[u])))
    && (forall u :: u in s'.tasks && u != t ==> u in s.tasks)
  }

  /** If only `moved` changes place, between places that concern t, the other tasks still agree. */
  lemma TasksStillAgree(s: State, s': State, t: TaskId, m: Whereabouts, m': Whereabouts)
    requires TasksAgree(s.tasks, m) && OnlyTaskMoves(s, s', t)
    requires forall id :: id in m && (m[id].MadeBy? || m[id].HeldBy? || m[id].RetiredBy?) && m[id].t != t ==> IsAt(m', id, m[id])
    requires forall id :: id in m' && m'[id].HeldBy? && m'[id].t != t ==> IsAt(m, id, m'[id])
    requires t in s'.tasks ==> PhaseAgrees(t, s'.tasks[t], m')
    requires forall id :: id in m' && m'[id] == HeldBy(t) ==> t in s'.tasks && s'.tasks[t].Holds(id)
    ensures TasksAgree(s'.tasks, m')
  {
  }

  lemma LedgerHands(l: Ledger, leaked: set<WorkerId>, drained: bool, m: Whereabouts, t: TaskId)
    requires LedgerAgrees(l, leaked, drained, m) && l.idle != []
    ensures IsAt(m, l.idle[0].id, Idle)
    ensures LedgerAgrees(l.(idle := l.idle[1..]), leaked, drained, m[l.idle[0].id := HeldBy(t)])
  {
    IdsOfHead(l.idle);
  }

  lemma LedgerRegisters(l: Ledger, leaked: set<WorkerId>, drained: bool, m: Whereabouts, t: TaskId, id: WorkerId)
    requires LedgerAgrees(l, leaked, drained, m) && IsAt(m, id, MadeBy(t))
    ensures id !in l.all
    ensures LedgerAgrees(Registered(l, id), leaked, drained, m[id := HeldBy(t)])
  {
  }

  lemma LedgerReleases(l: Ledger, leaked: set<WorkerId>, drained: bool, m: Whereabouts, t: TaskId, id: WorkerId, now: Time)
    requires LedgerAgrees(l, leaked, drained, m) && IsAt(m, id, HeldBy(t))
    ensures LedgerAgrees(Released(l, id, now), leaked, drained, m[id := Idle])
  {
    Enqueue(l.idle, Entry(id, now));
  }

  lemma LedgerEvicts(l: Ledger, leaked: set<WorkerId>, drained: bool, m: Whereabouts, t: TaskId, id: WorkerId)
    requires LedgerAgrees(l, leaked, drained, m) && IsAt(m, id, HeldBy(t))
    ensures LedgerAgrees(Evicted(l, id), leaked, drained, m - {id})
  {
    WithoutAbsent(l.idle, id);
  }

  lemma LedgerPrunes(l: Ledger, leaked: set<WorkerId>, drained: bool, m: Whereabouts, t: TaskId,
                     now: Time, timeout: Time)
      returns (m': Whereabouts)
    requires LedgerAgrees(l, leaked, drained, m)
    ensures m' == map id | id in m :: if id in Ids(Stale(l.idle, now, timeout)) then RetiredBy(t) else m[id]
    ensures forall id :: id in Ids(Stale(l.idle, now, timeout)) ==> IsAt(m, id, Idle)
    ensures LedgerAgrees(Pruned(l, now, timeout), leaked, drained, m')
  {
    m' := map id | id in m :: if id in Ids(Stale(l.idle, now, timeout)) then RetiredBy(t) else m[id];
    PruneSplits(l.idle, now, timeout);
    PruneKeepsIds(l.idle, now, timeout);
  }

  lemma LedgerAdopts(l: Ledger, leaked: set<WorkerId>, drained: bool, m: Whereabouts, e: Entry)
    requires LedgerAgrees(l, leaked, drained, m) && e.id !in m
    ensures LedgerAgrees(Joined(l, e), leaked, drained, m[e.id := Idle])
  {
    Enqueue(l.idle, e);
  }

  lemma TurnAgrees(c: Config, s: State, t: TaskId, since: Time, turn: Turn, m: Whereabouts)
      returns (m': Whereabouts)
    requires Agrees(s, m) && t in s.tasks && (s.tasks[t].Arriving? || s.tasks[t].Waiting?)
    requires turn.Hand? ==> s.ledger.idle != [] && turn.entry == s.ledger.idle[0]
    ensures Agrees(TakeTurn(c, s, t, since, turn), m')
  {
    m' := m;
    if turn.Hand? {
      m' := m[turn.entry.id := HeldBy(t)];
      LedgerHands(s.ledger, s.past.leaked, s.past.drained, m, t);
    }
    TasksStillAgree(s, TakeTurn(c, s, t, since, turn), t, m, m');
  }

  lemma ProvisionAgrees(c: Config, s: State, t: TaskId, id: WorkerId, m: Whereabouts) returns (m': Whereabouts)
    requires Agrees(s, m) && t in s.tasks && s.tasks[t] == Starting(id)
    ensures Agrees(AfterProvision(c, s, t, id), m')
  {
    m' := m[id := HeldBy(t)];
    assert PhaseAgrees(t, s.tasks[t], m);
    LedgerRegisters(s.ledger, s.past.leaked, s.past.drained, m, t, id);
    TasksStillAgree(s, AfterProvision(c, s, t, id), t, m, m');
  }

  lemma AcquireAgrees(c: Config, s: State, t: TaskId, a: AcquireStep, m: Whereabouts) returns (m': Whereabouts)
    requires Agrees(s, m) && AcquireEnabled(s, t, a)
    ensures Agrees(AfterAcquire(c, s, t, a), m')
  {
    if a.TryAcquire? {
      var since := if s.tasks[t].Arriving? then s.now else s.tasks[t].since;
      m' := TurnAgrees(c, s, t, since, Decide(s.ledger, s.now - since, c.acquireTimeout), m);
    } else if a.ProvisionOk? {
      m' := ProvisionAgrees(c, s, t, s.tasks[t].made, m);
    } else {
      // a failed or cancelled provision leaves its container to no one
      m' := if a.Create? then m[a.id := MadeBy(t)] else m;
      TasksStillAgree(s, AfterAcquire(c, s, t, a), t, m, m');
    }
  }

  lemma HolderAgrees(c: Config, s: State, t: TaskId, h: HolderStep, m: Whereabouts) returns (m': Whereabouts)
    requires Agrees(s, m) && t in s.tasks && HolderEnabled(s, s.tasks[t], h)
    ensures Agrees(AfterHolder(c, s, t, h), m')
  {
    m' := m;
    assert PhaseAgrees(t, s.tasks[t], m);
    if h.Discard? || h.FinishDrop? {
      m' := EvictionAgrees(c, s, t, h, m);
    } else if h.Release? {
      m' := ReleaseAgrees(c, s, t, m);
    } else {
      if h.Leak? { m' := m[s.tasks[t].w := Lost]; }
      TasksStillAgree(s, AfterHolder(c, s, t, h), t, m, m');
    }
  }

  lemma EvictionAgrees(c: Config, s: State, t: TaskId, h: HolderStep, m: Whereabouts) returns (m': Whereabouts)
    requires Agrees(s, m) && t in s.tasks && HolderEnabled(s, s.tasks[t], h)
    requires h.Discard? || h.FinishDrop?
    ensures Agrees(AfterHolder(c, s, t, h), m')
  {
    var id := s.tasks[t].w;
    m' := m - {id};
    assert PhaseAgrees(t, s.tasks[t], m);
    LedgerEvicts(s.ledger, s.past.leaked, s.past.drained, m, t, id);
    TasksStillAgree(s, AfterHolder(c, s, t, h), t, m, m');
  }

  lemma ReleaseAgrees(c: Config, s: State, t: TaskId, m: Whereabouts) returns (m': Whereabouts)
    requires Agrees(s, m) && t in s.tasks && HolderEnabled(s, s.tasks[t], Release)
    ensures Agrees(AfterRelease(c, s, t, s.tasks[t].w), m')
  {
    var id := s.tasks[t].w;
    m' := m[id := Idle];
    assert PhaseAgrees(t, s.tasks[t], m);
    LedgerReleases(s.ledger, s.past.leaked, s.past.drained, m, t, id, s.now);
    TasksStillAgree(s, AfterRelease(c, s, t, id), t, m, m');
  }

  lemma JanitorAgrees(c: Config, s: State, t: TaskId, n: JanitorStep, m: Whereabouts) returns (m': Whereabouts)
    requires Agrees(s, m) && JanitorEnabled(s, t, n)
    ensures Agrees(AfterJanitor(c, s, t, n), m')
  {
    m' := m;
    if n.Prune? {
      m' := LedgerPrunes(s.ledger, s.past.leaked, s.past.drained, m, t, s.now, n.idleTimeout);
    } else if t in s.tasks {
      assert PhaseAgrees(t, s.tasks[t], m);
    }
    TasksStillAgree(s, AfterJanitor(c, s, t, n), t, m, m');
  }

  lemma AdoptionAgrees(s: State, id: WorkerId, bornAt: Time, stamp: Time, m: Whereabouts) returns (m': Whereabouts)
    requires Agrees(s, m) && id !in s.agent.created
    ensures Agrees(AfterAdopt(s, id, bornAt, stamp), m')
  {
    m' := m;
    if s.ledger.HasRoom() {
      m' := m[id := Idle];
      LedgerAdopts(s.ledger, s.past.leaked, s.past.drained, m, Stamped(Entry(id, stamp), s.now));
      var s' := AfterAdopt(s, id, bornAt, stamp);
      forall u | u in s'.tasks ensures PhaseAgrees(u, s'.tasks[u], m') { assert PhaseAgrees(u, s.tasks[u], m); }
    }
  }

  lemma DrainAgrees(s: State, m: Whereabouts) returns (m': Whereabouts)
    requires Agrees(s, m)
    ensures Agrees(NotifyAll(s.(ledger := Drained(s.ledger), past := s.past.(drained := true))), m')
  {
    m' := map id | id in m && !m[id].Idle? :: m[id];
    var s' := NotifyAll(s.(ledger := Drained(s.ledger), past := s.past.(drained := true)));
    forall u | u in s'.tasks ensures PhaseAgrees(u, s'.tasks[u], m') { assert PhaseAgrees(u, s.tasks[u], m); }
  }

  /** Every action keeps every worker in one place. */
  lemma OwnedStep(c: Config, s: State, a: Action)
    requires Owned(s) && Enabled(s, a)
    ensures Owned(Apply(c, s, a))
  {
    var m :| Agrees(s, m);
    var m' := m;
    match a {
    case Acquiring(t, step) => m' := AcquireAgrees(c, s, t, step, m);
    case Holding(t, step) => m' := HolderAgrees(c, s, t, step, m);
    case Janitor(t, step) => m' := JanitorAgrees(c, s, t, step, m);
    case Adopt(id, bornAt, stamp) => m' := AdoptionAgrees(s, id, bornAt, stamp, m);
    case Drain => m' := DrainAgrees(s, m);
    case PauseJob(_, _) =>
    case Tick(_) =>
    }
    assert Agrees(Apply(c, s, a), m');
  }
}
