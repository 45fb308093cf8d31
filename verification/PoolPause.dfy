/**
 The pause protocol: the manager's pause tasks and paused ids never concern a worker somebody uses.
 The claims hold until drain, which empties the pool under everybody's feet.
 */
module PoolPause {
  import opened Workers
  import opened Ledger
  import opened PoolProtocol
  import opened PoolOwnership

  /** At most one pause job per worker is not cancelled, and the table names it. */
  ghost predicate BookSound(b: PauseBook) {
    && (forall id :: id in b.taskOf ==>
          b.taskOf[id] in b.jobs && b.jobs[b.taskOf[id]].worker == id && !b.jobs[b.taskOf[id]].cancelled)
    && (forall j :: j in b.jobs && !b.jobs[j].cancelled ==>
          b.jobs[j].worker in b.taskOf && b.taskOf[b.jobs[j].worker] == j)
    && (forall j :: j in b.jobs ==> j < b.nextJob)
  }

  /** A prune pass has id still to clean up. */
  ghost predicate Unclean(tasks: map<TaskId, Phase>, id: WorkerId) {
    exists t :: t in tasks && tasks[t].StillToClean(id)
  }

  /** Some task took id from the queue and has not resumed it yet. */
  ghost predicate Waking(tasks: map<TaskId, Phase>, id: WorkerId) {
    exists t :: t in tasks && tasks[t].Holds(id) && (tasks[t].use.AwaitingPause? || tasks[t].use.Resuming?)
  }

  ghost predicate Parked(s: State, id: WorkerId) {
    id in Ids(s.ledger.idle) || Unclean(s.tasks, id)
  }

  ghost predicate PauseSound(c: Config, s: State) {
    && BookSound(s.pause)
    && (forall id :: id in s.pause.taskOf ==> Parked(s, id))
    && (forall id :: id in s.pause.ids ==> Parked(s, id) || id in s.past.leaked || Waking(s.tasks, id))
    && (forall t :: t in s.tasks ==> !s.tasks[t].Rescheduling?)
    && (forall t :: t in s.tasks && s.tasks[t].Cleaning? && s.tasks[t].awaited.Some? ==>
          s.tasks[t].awaited.value.cleaned !in s.pause.taskOf)
    && (!c.pauseEnabled ==> s.pause.taskOf == map[] && s.pause.ids == {})
  }

  ghost predicate PauseSafe(c: Config, s: State) {
    !s.past.drained ==> PauseSound(c, s)
  }

  lemma InitPauseSafe(c: Config)
    ensures PauseSafe(c, Init(c))
  {
  }

  // ---------- the book alone ----------

  lemma CancelKeepsBook(b: PauseBook, id: WorkerId)
    requires BookSound(b)
    ensures BookSound(CancelPause(b, id)) && CancelPause(b, id).taskOf == b.taskOf - {id}
    ensures CancelPause(b, id).ids == b.ids
  {
  }

  lemma StartKeepsBook(b: PauseBook, id: WorkerId)
    requires BookSound(b) && id !in b.taskOf
    ensures BookSound(StartPause(b, id))
  {
  }

  lemma JobStepKeepsBook(l: Ledger, b: PauseBook, j: JobId, p: JobStep)
    requires BookSound(b) && j in b.jobs && JobEnabled(b.jobs[j], p)
    ensures BookSound(AfterJobStep(l, b, j, p))
    ensures AfterJobStep(l, b, j, p).taskOf.Keys <= b.taskOf.Keys
    ensures AfterJobStep(l, b, j, p).ids <= b.ids + (if p.Pauses? then {b.jobs[j].worker} else {})
    ensures p.Pauses? ==> b.jobs[j].worker in b.taskOf
  {
  }

  // ---------- exclusivity, as the pause protocol needs it ----------

  /** A held worker is not parked, and its holder is its only one. */
  lemma HeldIsApart(s: State, t: TaskId)
    requires Owned(s) && t in s.tasks && s.tasks[t].Having?
    ensures !Parked(s, s.tasks[t].w) && s.tasks[t].w !in s.past.leaked
    ensures forall u :: u in s.tasks && s.tasks[u].Holds(s.tasks[t].w) ==> u == t
  {
  }

  /** Hence nothing is pending against a worker that is used, dropped or discarded. */
  lemma NothingPending(c: Config, s: State, t: TaskId)
    requires Owned(s) && PauseSound(c, s) && t in s.tasks && s.tasks[t].Having?
    ensures s.tasks[t].w !in s.pause.taskOf
    ensures !s.tasks[t].use.AwaitingPause? && !s.tasks[t].use.Resuming? ==> s.tasks[t].w !in s.pause.ids
    ensures forall j :: j in s.pause.jobs && s.pause.jobs[j].worker == s.tasks[t].w ==> s.pause.jobs[j].cancelled
  {
  }

  lemma OthersStay(s: State, s': State, t: TaskId)
    requires OnlyTaskMoves(s, s', t)
    ensures forall id :: Unclean(s.tasks, id) ==> Unclean(s'.tasks, id) || (t in s.tasks && s.tasks[t].StillToClean(id))
    ensures forall id :: Waking(s.tasks, id) ==> Waking(s'.tasks, id) || (t in s.tasks && s.tasks[t].Holds(id))
  {
  }

  // ---------- every action ----------

  lemma ReceiveIsSafe(c: Config, s: State, s1: State, t: TaskId, id: WorkerId)
    requires PauseSound(c, s) && t in s.tasks && !s.tasks[t].Cleaning? && !s.tasks[t].Having?
    requires s1.tasks == s.tasks && s1.pause == s.pause && s1.past.leaked == s.past.leaked
    requires Ids(s.ledger.idle) - {id} <= Ids(s1.ledger.idle)
    requires !Unclean(s.tasks, id)
    ensures PauseSound(c, Receive(c, s1, t, id))
  {
    var s' := Receive(c, s1, t, id);
    OthersStay(s, s', t);
    CancelKeepsBook(s.pause, id);
    assert s'.tasks[t].Holds(id);
    assert id in s'.pause.ids ==> Waking(s'.tasks, id);
  }

  /** A task that has no worker and cleans up for none moves without touching queue or book. */
  lemma BystanderIsSafe(c: Config, s: State, s': State, t: TaskId)
    requires PauseSound(c, s) && OnlyTaskMoves(s, s', t)
    requires s'.pause == s.pause && s'.ledger.idle == s.ledger.idle && s'.past.leaked == s.past.leaked
    requires t in s.tasks ==> !s.tasks[t].Having? && !s.tasks[t].Cleaning?
    requires t in s'.tasks ==> !s'.tasks[t].Cleaning? && !s'.tasks[t].Rescheduling?
    ensures PauseSound(c, s')
  {
    OthersStay(s, s', t);
  }

  lemma HandIsSafe(c: Config, s: State, t: TaskId, since: Time)
    requires Owned(s) && PauseSound(c, s) && t in s.tasks && (s.tasks[t].Arriving? || s.tasks[t].Waiting?)
    requires s.ledger.idle != []
    ensures PauseSound(c, AfterTry(c, s, t, since))
  {
    var m :| Agrees(s, m);
    var e := s.ledger.idle[0];
    IdsOfHead(s.ledger.idle);
    forall u | u in s.tasks ensures !s.tasks[u].StillToClean(e.id) { assert PhaseAgrees(u, s.tasks[u], m); }
    ReceiveIsSafe(c, s, s.(ledger := AfterTurn(s.ledger, Hand(e))), t, e.id);
  }

  lemma ProvisionIsSafe(c: Config, s: State, t: TaskId, id: WorkerId)
    requires Owned(s) && PauseSound(c, s) && t in s.tasks && s.tasks[t] == Starting(id)
    ensures PauseSound(c, AfterProvision(c, s, t, id))
  {
    var m :| Agrees(s, m);
    assert PhaseAgrees(t, s.tasks[t], m);
    forall u | u in s.tasks ensures !s.tasks[u].StillToClean(id) { assert PhaseAgrees(u, s.tasks[u], m); }
    var s1 := s.(ledger := Registered(s.ledger, id),
                 past := s.past.(late := s.past.late + (if InGrace(c, s, id) then {} else {id})));
    ReceiveIsSafe(c, s, s1, t, id);
  }

  lemma AcquireIsSafe(c: Config, s: State, t: TaskId, a: AcquireStep)
    requires Owned(s) && PauseSound(c, s) && AcquireEnabled(s, t, a)
    ensures PauseSound(c, AfterAcquire(c, s, t, a))
  {
    if a.TryAcquire? && s.ledger.idle != [] {
      HandIsSafe(c, s, t, if s.tasks[t].Arriving? then s.now else s.tasks[t].since);
    } else if a.ProvisionOk? {
      ProvisionIsSafe(c, s, t, s.tasks[t].made);
    } else {
      BystanderIsSafe(c, s, AfterAcquire(c, s, t, a), t);
    }
  }

  /** The holder evicts its worker: nothing was pending against it. */
  lemma EvictionIsSafe(c: Config, s: State, s': State, t: TaskId)
    requires Owned(s) && PauseSound(c, s) && t in s.tasks && s.tasks[t].Having?
    requires !s.tasks[t].use.AwaitingPause? && !s.tasks[t].use.Resuming?
    requires OnlyTaskMoves(s, s', t) && (t in s'.tasks ==> s'.tasks[t].Arriving?)
    requires s'.pause == s.pause && s'.past.leaked == s.past.leaked
    requires s'.ledger == Evicted(s.ledger, s.tasks[t].w)
    ensures PauseSound(c, s')
  {
    NothingPending(c, s, t);
    OthersStay(s, s', t);
    WithoutIsExact(s.ledger.idle, s.tasks[t].w);
  }

  /** The holder goes on with its worker, which it may have taken out of the paused ids. */
  lemma UseIsSafe(c: Config, s: State, s': State, t: TaskId)
    requires PauseSound(c, s) && t in s.tasks && s.tasks[t].Having?
    requires OnlyTaskMoves(s, s', t) && t in s'.tasks && s'.tasks[t].Holds(s.tasks[t].w)
    requires s'.pause == s.pause || s'.pause == s.pause.(ids := s.pause.ids - {s.tasks[t].w})
    requires s'.past.leaked == s.past.leaked && s'.ledger == s.ledger
    requires s.tasks[t].w in s'.pause.ids ==> s'.tasks[t].use.Resuming?
    ensures PauseSound(c, s')
  {
    OthersStay(s, s', t);
    assert s.tasks[t].w in s'.pause.ids ==> Waking(s'.tasks, s.tasks[t].w);
  }

  lemma LeakIsSafe(c: Config, s: State, t: TaskId)
    requires PauseSound(c, s) && t in s.tasks && HolderEnabled(s, s.tasks[t], Leak)
    ensures PauseSound(c, AfterHolder(c, s, t, Leak))
  {
    OthersStay(s, AfterHolder(c, s, t, Leak), t);
  }

  lemma HolderIsSafe(c: Config, s: State, t: TaskId, h: HolderStep)
    requires Owned(s) && PauseSound(c, s) && t in s.tasks && HolderEnabled(s, s.tasks[t], h)
    ensures PauseSound(c, AfterHolder(c, s, t, h))
  {
    var s' := AfterHolder(c, s, t, h);
    if h.Release? {
      ReleaseIsSafe(c, s, t);
    } else if h.Discard? || h.FinishDrop? {
      EvictionIsSafe(c, s, s', t);
    } else if h.Leak? {
      LeakIsSafe(c, s, t);
    } else {
      NothingPending(c, s, t);
      UseIsSafe(c, s, s', t);
    }
  }

  /** The cancel inside _schedule_pause finds nothing: a released worker has no pause task. */
  lemma ReleaseIsSafe(c: Config, s: State, t: TaskId)
    requires Owned(s) && PauseSound(c, s) && t in s.tasks && HolderEnabled(s, s.tasks[t], Release)
    ensures PauseSound(c, AfterRelease(c, s, t, s.tasks[t].w))
  {
    var id := s.tasks[t].w;
    var s' := AfterRelease(c, s, t, id);
    HeldIsApart(s, t);
    NothingPending(c, s, t);
    OthersStay(s, s', t);
    Enqueue(s.ledger.idle, Entry(id, s.now));
    StartKeepsBook(s.pause, id);
  }

  lemma PruneIsSafe(c: Config, s: State, t: TaskId, idleTimeout: Time)
    requires PauseSound(c, s) && t !in s.tasks
    ensures PauseSound(c, AfterPrune(s, t, idleTimeout))
  {
    var s' := AfterPrune(s, t, idleTimeout);
    OthersStay(s, s', t);
    PruneSplits(s.ledger.idle, s.now, idleTimeout);
    forall id | id in Ids(Stale(s.ledger.idle, s.now, idleTimeout)) ensures Unclean(s'.tasks, id) {
      assert s'.tasks[t].StillToClean(id);
    }
  }

  lemma CleanedIsSafe(c: Config, s: State, t: TaskId)
    requires PauseSound(c, s) && JanitorEnabled(s, t, Cleaned)
    ensures PauseSound(c, AfterJanitor(c, s, t, Cleaned))
  {
    var s' := AfterJanitor(c, s, t, Cleaned);
    OthersStay(s, s', t);
    forall id | s.tasks[t].StillToClean(id) && id != s.tasks[t].awaited.value.cleaned
      ensures Unclean(s'.tasks, id) { assert s'.tasks[t].StillToClean(id); }
  }

  lemma StartDeletingIsSafe(c: Config, s: State, t: TaskId)
    requires PauseSound(c, s) && JanitorEnabled(s, t, StartDeleting)
    ensures PauseSound(c, AfterJanitor(c, s, t, StartDeleting))
  {
    OthersStay(s, AfterJanitor(c, s, t, StartDeleting), t);
  }

  lemma JanitorIsSafe(c: Config, s: State, t: TaskId, n: JanitorStep)
    requires PauseSound(c, s) && JanitorEnabled(s, t, n)
    ensures PauseSound(c, AfterJanitor(c, s, t, n))
  {
    match n
    case Prune(idleTimeout) => PruneIsSafe(c, s, t, idleTimeout);
    case Clean(id) => CleanIsSafe(c, s, t, id);
    case Cleaned => CleanedIsSafe(c, s, t);
    case StartDeleting => StartDeletingIsSafe(c, s, t);
    case _ => BystanderIsSafe(c, s, AfterJanitor(c, s, t, n), t);
  }

  lemma CleanIsSafe(c: Config, s: State, t: TaskId, id: WorkerId)
    requires PauseSound(c, s) && JanitorEnabled(s, t, Clean(id))
    ensures PauseSound(c, AfterJanitor(c, s, t, Clean(id)))
  {
    var s' := AfterJanitor(c, s, t, Clean(id));
    OthersStay(s, s', t);
    CancelKeepsBook(s.pause, id);
    forall w | s.tasks[t].StillToClean(w) && (w != id || id in s.pause.taskOf)
      ensures Unclean(s'.tasks, w) { assert s'.tasks[t].StillToClean(w); }
  }

  lemma AdoptIsSafe(c: Config, s: State, id: WorkerId, bornAt: Time, stamp: Time)
    requires PauseSound(c, s)
    ensures PauseSound(c, AfterAdopt(s, id, bornAt, stamp))
  {
    var s' := AfterAdopt(s, id, bornAt, stamp);
    forall w | Unclean(s.tasks, w) ensures Unclean(s'.tasks, w) {
      var u :| u in s.tasks && s.tasks[u].StillToClean(w);
      assert s'.tasks[u].StillToClean(w);
    }
    forall w | Waking(s.tasks, w) ensures Waking(s'.tasks, w) {
      var u :| u in s.tasks && s.tasks[u].Holds(w) && (s.tasks[u].use.AwaitingPause? || s.tasks[u].use.Resuming?);
      assert s'.tasks[u].Holds(w) && s'.tasks[u].use == s.tasks[u].use;
    }
    if s.ledger.HasRoom() { Enqueue(s.ledger.idle, Stamped(Entry(id, stamp), s.now)); }
  }

  lemma PauseSafeStep(c: Config, s: State, a: Action)
    requires Owned(s) && PauseSafe(c, s) && Enabled(s, a)
    ensures PauseSafe(c, Apply(c, s, a))
  {
    if !Apply(c, s, a).past.drained {
      match a
      case Acquiring(t, step) => AcquireIsSafe(c, s, t, step);
      case Holding(t, step) => HolderIsSafe(c, s, t, step);
      case Janitor(t, step) => JanitorIsSafe(c, s, t, step);
      case PauseJob(j, step) => JobStepKeepsBook(s.ledger, s.pause, j, step);
      case Adopt(id, bornAt, stamp) => AdoptIsSafe(c, s, id, bornAt, stamp);
      case _ =>
    }
  }
}
