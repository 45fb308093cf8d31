/**
 The worker-pool protocol of one function as a state machine: every stretch of gateway code between
 two suspension points is one action, and a run is any interleaving of actions. Request tasks,
 pause jobs, the janitor's prune and reconcile passes, and the agent's containers all take part.
 */
module PoolProtocol {
  import opened Workers
  import opened Ledger

  type TaskId = nat
  type JobId = nat

  datatype Config = Config(capacity: int, acquireTimeout: Time, pauseEnabled: bool, gracePeriod: Time)

  /** What the holder of a worker is about to do with it. */
  datatype Use =
    | AwaitingPause(job: JobId)               // its cancelled pause job has yet to unwind
    | Resuming                                // resume call in flight
    | Discarding                              // resume failed, about to evict and try again
    | Working                                 // acquire_worker returned
    | Dropping                                // connection error, about to evict

  /** A pause job a prune pass cancelled and waits for. */
  datatype Unwinding = Unwinding(cleaned: WorkerId, byJob: JobId)

  /** Where a gateway task stands. */
  datatype Phase =
    | Arriving                                // about to enter the acquire section for the first time
    | Waiting(since: Time, notified: bool)    // on the condition variable, or about to look again
    | Provisioning                            // slot reserved, the agent is making a container
    | Starting(made: WorkerId)                // container made, not yet registered
    | Having(w: WorkerId, use: Use)
    | Rescheduling(idle: WorkerId, older: JobId) // released, waits for an older pause job to unwind
    | Cleaning(todo: set<WorkerId>, pruned: set<WorkerId>, awaited: Option<Unwinding>)
    | Reconciling(asOf: Time, listing: Option<map<WorkerId, int>>)
    | Deleting(orphans: set<WorkerId>)        // delete calls, of either kind of pass
  {
    predicate Asleep() {
      Waiting? && !notified
    }

    predicate Holds(id: WorkerId) {
      Having? && w == id
    }

    predicate Reserves() {
      Provisioning? || Starting?
    }

    /** A prune pass took id out of the pool and has not yet cleared its pause state. */
    predicate StillToClean(id: WorkerId) {
      Cleaning? && (id in todo || (awaited.Some? && id == awaited.value.cleaned))
    }
  }

  datatype Stage = Sleeping | Checking | Pausing

  datatype Job = Job(worker: WorkerId, stage: Stage, cancelled: bool)

  /** The manager's pause bookkeeping. */
  datatype PauseBook = PauseBook(
    jobs: map<JobId, Job>,             // pause jobs not yet finished, cancelled ones included
    taskOf: map<WorkerId, JobId>,      // the table of pause tasks
    ids: set<WorkerId>,                // the paused ids
    nextJob: JobId)

  /** The agent's containers. */
  datatype Agent = Agent(
    created: map<WorkerId, Time>,      // every container ever made, with its birth time
    deleted: set<WorkerId>)            // those a janitor pass deleted

  /** What properties need to know of the past; no action reads it. */
  datatype Past = Past(
    leaked: set<WorkerId>,             // workers whose holder was cancelled out of giving them back
    lostSlots: nat,                    // reservations whose clean-up was itself cancelled
    drained: bool,                     // drain has run
    late: set<WorkerId>,               // workers registered past their deadline
    disordered: bool)                  // some adopted worker's stamp was out of turn

  datatype State = State(
    ledger: Ledger,
    now: Time,
    tasks: map<TaskId, Phase>,
    pause: PauseBook,
    agent: Agent,
    past: Past)

  function Init(c: Config): State {
    State(Empty(c.capacity), 0.0, map[], PauseBook(map[], map[], {}, 0), Agent(map[], {}),
          Past({}, 0, false, {}, false))
  }

  // ---------- building blocks ----------

  function SetTask(s: State, t: TaskId, p: Phase): State {
    s.(tasks := s.tasks[t := p])
  }

  function EndTask(s: State, t: TaskId): State {
    s.(tasks := s.tasks - {t})
  }

  function Wake(p: Phase): Phase {
    if p.Waiting? then p.(notified := true) else p
  }

  /** notify_all */
  function NotifyAll(s: State): State {
    s.(tasks := map t | t in s.tasks :: Wake(s.tasks[t]))
  }

  /** Takes id's pause task out of the table and cancels it, if there is one. */
  function CancelPause(b: PauseBook, id: WorkerId): PauseBook {
    if id in b.taskOf then
      var j := b.taskOf[id];
      b.(taskOf := b.taskOf - {id},
         jobs := if j in b.jobs then b.jobs[j := b.jobs[j].(cancelled := true)] else b.jobs)
    else b
  }

  function StartPause(b: PauseBook, id: WorkerId): PauseBook {
    b.(jobs := b.jobs[b.nextJob := Job(id, Sleeping, false)],
       taskOf := b.taskOf[id := b.nextJob],
       nextJob := b.nextJob + 1)
  }

  /** The end of a pause job: its own table entry goes with it. */
  function FinishJob(b: PauseBook, j: JobId): PauseBook
    requires j in b.jobs
  {
    var id := b.jobs[j].worker;
    b.(jobs := b.jobs - {j},
       taskOf := if id in b.taskOf && b.taskOf[id] == j then b.taskOf - {id} else b.taskOf)
  }

  function Unpause(s: State, id: WorkerId): State {
    s.(pause := s.pause.(ids := s.pause.ids - {id}))
  }

  /** acquire_worker once no pause task of id can act any more. */
  function Settle(s: State, t: TaskId, id: WorkerId): State {
    SetTask(s, t, Having(id, if id in s.pause.ids then Resuming else Working))
  }

  /** acquire_worker as ContainerPool.acquire returns id. */
  function Receive(c: Config, s: State, t: TaskId, id: WorkerId): State {
    if !c.pauseEnabled then SetTask(s, t, Having(id, Working))
    else if id in s.pause.taskOf then
      SetTask(s.(pause := CancelPause(s.pause, id)), t, Having(id, AwaitingPause(s.pause.taskOf[id])))
    else Settle(s, t, id)
  }

  // ---------- actions ----------

  /** Up to the moment acquire hands over a worker. */
  datatype AcquireStep =
    | Arrive
    | TryAcquire
    | GiveUp                       // timeout or cancellation before a worker was assigned
    | Create(id: WorkerId)         // the agent makes the container
    | ProvisionOk
    | ProvisionFail
    | SlotLost                     // cancelled again before the failure handler got the lock

  /** From there until the worker is given back. */
  datatype HolderStep =
    | PauseUnwound
    | ResumeOk
    | ResumeFail
    | Discard
    | Release
    | Reschedule
    | BeginDrop
    | FinishDrop
    | CancelDrop
    | Leak                         // cancelled where nothing gives the worker back

  datatype JanitorStep =
    | Prune(idleTimeout: Time)
    | Clean(id: WorkerId)
    | Cleaned
    | StartDeleting
    | StartReconcile
    | AgentLists
    | CollectOrphans
    | Delete(id: WorkerId, ok: bool)
    | EndPass

  datatype JobStep =
    | Wakes
    | Checks
    | Pauses
    | Fails
    | Unwinds

  datatype Action =
    | Acquiring(t: TaskId, a: AcquireStep)
    | Holding(t: TaskId, h: HolderStep)
    | Janitor(t: TaskId, n: JanitorStep)
    | PauseJob(j: JobId, p: JobStep)
    | Adopt(id: WorkerId, bornAt: Time, stamp: Time)
    | Drain
    | Tick(to: Time)

  predicate Enabled(s: State, a: Action) {
    match a
    case Acquiring(t, step) => AcquireEnabled(s, t, step)
    case Holding(t, step) => t in s.tasks && HolderEnabled(s, s.tasks[t], step)
    case Janitor(t, step) => JanitorEnabled(s, t, step)
    case PauseJob(j, step) => j in s.pause.jobs && JobEnabled(s.pause.jobs[j], step)
    case Adopt(id, _, _) =>
      && id !in s.agent.created
      && forall t | t in s.tasks :: !(s.tasks[t].Reconciling? || s.tasks[t].Deleting?)
    case Drain => true
    case Tick(to) => s.now <= to
  }

  function Apply(c: Config, s: State, a: Action): State
    requires Enabled(s, a)
  {
    match a
    case Acquiring(t, step) => AfterAcquire(c, s, t, step)
    case Holding(t, step) => AfterHolder(c, s, t, step)
    case Janitor(t, step) => AfterJanitor(c, s, t, step)
    case PauseJob(j, step) => AfterJob(s, j, step)
    case Adopt(id, bornAt, stamp) => AfterAdopt(s, id, bornAt, stamp)
    case Drain => NotifyAll(s.(ledger := Drained(s.ledger), past := s.past.(drained := true)))
    case Tick(to) => s.(now := to)
  }

  // ---------- acquiring ----------

  predicate AcquireEnabled(s: State, t: TaskId, a: AcquireStep) {
    if a.Arrive? then t !in s.tasks
    else
      t in s.tasks &&
      match a
      case Arrive => false
      case TryAcquire => s.tasks[t].Arriving? || (s.tasks[t].Waiting? && s.tasks[t].notified)
      case GiveUp => s.tasks[t].Arriving? || s.tasks[t].Waiting?
      case Create(id) => s.tasks[t].Provisioning? && id !in s.agent.created
      case ProvisionOk => s.tasks[t].Starting?
      case ProvisionFail => s.tasks[t].Reserves()
      case SlotLost => s.tasks[t].Reserves()
  }

  function AfterAcquire(c: Config, s: State, t: TaskId, a: AcquireStep): State
    requires AcquireEnabled(s, t, a)
  {
    match a
    case Arrive => SetTask(s, t, Arriving)
    case TryAcquire => AfterTry(c, s, t, if s.tasks[t].Arriving? then s.now else s.tasks[t].since)
    case GiveUp => EndTask(s, t)
    case Create(id) => SetTask(s.(agent := s.agent.(created := s.agent.created[id := s.now])), t, Starting(id))
    case ProvisionOk => AfterProvision(c, s, t, s.tasks[t].made)
    case ProvisionFail => EndTask(NotifyAll(s.(ledger := Aborted(s.ledger))), t)
    case SlotLost => EndTask(s.(past := s.past.(lostSlots := s.past.lostSlots + 1)), t)
  }

  /** One pass of the acquire loop, on the lock. */
  function AfterTry(c: Config, s: State, t: TaskId, since: Time): State {
    TakeTurn(c, s, t, since, Decide(s.ledger, s.now - since, c.acquireTimeout))
  }

  function TakeTurn(c: Config, s: State, t: TaskId, since: Time, turn: Turn): State {
    var s1 := s.(ledger := AfterTurn(s.ledger, turn));
    match turn
    case Hand(e) => Receive(c, s1, t, e.id)
    case Reserve => SetTask(s1, t, Provisioning)
    case Wait => SetTask(s1, t, Waiting(since, false))
    case Expire => EndTask(s1, t)
  }

  function AfterProvision(c: Config, s: State, t: TaskId, id: WorkerId): State {
    Receive(c, s.(ledger := Registered(s.ledger, id),
                  past := s.past.(late := s.past.late + (if InGrace(c, s, id) then {} else {id}))), t, id)
  }

  /**
   Before its deadline: no reconcile pass can have found the container old enough yet. The agent reports
   birth times rounded down to whole seconds.
   */
  predicate InGrace(c: Config, s: State, id: WorkerId) {
    id in s.agent.created && s.now < s.agent.created[id].Floor as real + c.gracePeriod
  }

  // ---------- holding a worker ----------

  predicate HolderEnabled(s: State, p: Phase, h: HolderStep) {
    if h.Reschedule? then p.Rescheduling? && p.older !in s.pause.jobs
    else
      p.Having? &&
      match h
      case PauseUnwound => p.use.AwaitingPause? && p.use.job !in s.pause.jobs
      case ResumeOk => p.use.Resuming?
      case ResumeFail => p.use.Resuming?
      case Discard => p.use.Discarding?
      case Release => p.use.Working?
      case Reschedule => false
      case BeginDrop => p.use.Working?
      case FinishDrop => p.use.Dropping?
      case CancelDrop => p.use.Dropping?
      case Leak => p.use.Working? || p.use.Resuming? || p.use.Discarding?
  }

  function AfterHolder(c: Config, s: State, t: TaskId, h: HolderStep): State
    requires t in s.tasks && HolderEnabled(s, s.tasks[t], h)
  {
    if h.Reschedule? then EndTask(s.(pause := StartPause(s.pause, s.tasks[t].idle)), t)
    else
      var id := s.tasks[t].w;
      match h
      case PauseUnwound => Settle(s, t, id)
      case ResumeOk => SetTask(Unpause(s, id), t, Having(id, Working))
      case ResumeFail => SetTask(Unpause(s, id), t, Having(id, Discarding))
      case Discard => SetTask(NotifyAll(s.(ledger := Evicted(s.ledger, id))), t, Arriving)
      case Release => AfterRelease(c, s, t, id)
      case BeginDrop => SetTask(Unpause(s.(pause := CancelPause(s.pause, id)), id), t, Having(id, Dropping))
      case FinishDrop => EndTask(NotifyAll(s.(ledger := Evicted(s.ledger, id))), t)
      case CancelDrop => SetTask(s, t, Having(id, Working))
      case Leak => EndTask(s.(past := s.past.(leaked := s.past.leaked + {id})), t)
  }

  function AfterRelease(c: Config, s: State, t: TaskId, id: WorkerId): State {
    var s1 := NotifyAll(s.(ledger := Released(s.ledger, id, s.now)));
    if !c.pauseEnabled then EndTask(s1, t)
    else if id in s.pause.taskOf then
      SetTask(s1.(pause := CancelPause(s.pause, id)), t, Rescheduling(id, s.pause.taskOf[id]))
    else EndTask(s1.(pause := StartPause(s.pause, id)), t)
  }

  // ---------- the janitor ----------

  predicate JanitorEnabled(s: State, t: TaskId, n: JanitorStep) {
    if n.Prune? || n.StartReconcile? then t !in s.tasks
    else
      t in s.tasks &&
      match n
      case Clean(id) => s.tasks[t].Cleaning? && s.tasks[t].awaited.None? && id in s.tasks[t].todo
      case Cleaned => s.tasks[t].Cleaning? && s.tasks[t].awaited.Some? && s.tasks[t].awaited.value.byJob !in s.pause.jobs
      case StartDeleting => s.tasks[t].Cleaning? && s.tasks[t].awaited.None? && s.tasks[t].todo == {}
      case AgentLists => s.tasks[t].Reconciling? && s.tasks[t].listing.None?
      case CollectOrphans => s.tasks[t].Reconciling? && s.tasks[t].listing.Some?
      case Delete(id, _) => s.tasks[t].Deleting? && id in s.tasks[t].orphans
      case EndPass => s.tasks[t].Reconciling? || (s.tasks[t].Deleting? && s.tasks[t].orphans == {})
      case _ => false
  }

  function AfterJanitor(c: Config, s: State, t: TaskId, n: JanitorStep): State
    requires JanitorEnabled(s, t, n)
  {
    match n
    case Prune(idleTimeout) => AfterPrune(s, t, idleTimeout)
    case Clean(id) => AfterClean(s, t, id, s.tasks[t].todo - {id}, s.tasks[t].pruned)
    case Cleaned =>
      var p := s.tasks[t];
      SetTask(Unpause(s, p.awaited.value.cleaned), t, p.(awaited := None))
    case StartDeleting => SetTask(s, t, Deleting(s.tasks[t].pruned))
    case StartReconcile => SetTask(s, t, Reconciling(s.now, None))
    case AgentLists => SetTask(s, t, s.tasks[t].(listing := Some(AgentView(s))))
    case CollectOrphans =>
      SetTask(s, t, Deleting(Orphans(c, s.ledger, s.tasks[t].asOf, s.tasks[t].listing.value)))
    case Delete(id, ok) =>
      SetTask(if ok then s.(agent := s.agent.(deleted := s.agent.deleted + {id})) else s, t, Deleting(s.tasks[t].orphans - {id}))
    case EndPass => EndTask(s, t)
  }

  function AfterPrune(s: State, t: TaskId, idleTimeout: Time): State {
    var gone := Ids(Stale(s.ledger.idle, s.now, idleTimeout));
    var s1 := s.(ledger := Pruned(s.ledger, s.now, idleTimeout));
    if gone == {} then s1 else SetTask(NotifyAll(s1), t, Cleaning(gone, gone, None))
  }

  function AfterClean(s: State, t: TaskId, id: WorkerId, todo: set<WorkerId>, pruned: set<WorkerId>): State {
    if id in s.pause.taskOf then
      SetTask(s.(pause := CancelPause(s.pause, id)), t, Cleaning(todo, pruned, Some(Unwinding(id, s.pause.taskOf[id]))))
    else SetTask(Unpause(s, id), t, Cleaning(todo, pruned, None))
  }

  /** The agent's answer: the containers that exist, birth times in whole seconds. */
  function AgentView(s: State): map<WorkerId, int> {
    map id | id in s.agent.created && id !in s.agent.deleted :: s.agent.created[id].Floor
  }

  /** Listed containers unknown to the pool and not younger than the grace period. */
  function Orphans(c: Config, l: Ledger, asOf: Time, listing: map<WorkerId, int>): set<WorkerId> {
    set id | id in listing && id !in l.all && !(asOf - listing[id] as real < c.gracePeriod)
  }

  function AfterAdopt(s: State, id: WorkerId, bornAt: Time, stamp: Time): State {
    var s1 := s.(agent := s.agent.(created := s.agent.created[id := bornAt]));
    if s.ledger.HasRoom() then Join(s1, Stamped(Entry(id, stamp), s.now), !InTurn(s.ledger.idle, stamp, s.now)) else s1
  }

  function Join(s: State, e: Entry, outOfTurn: bool): State {
    NotifyAll(s.(ledger := Joined(s.ledger, e), past := s.past.(disordered := s.past.disordered || outOfTurn)))
  }

  // ---------- pause jobs ----------

  predicate JobEnabled(job: Job, p: JobStep) {
    match p
    case Wakes => !job.cancelled && job.stage == Sleeping
    case Checks => !job.cancelled && job.stage == Checking
    case Pauses => !job.cancelled && job.stage == Pausing
    case Fails => !job.cancelled && job.stage == Pausing
    case Unwinds => job.cancelled
  }

  function AfterJob(s: State, j: JobId, p: JobStep): State
    requires j in s.pause.jobs && JobEnabled(s.pause.jobs[j], p)
  {
    s.(pause := AfterJobStep(s.ledger, s.pause, j, p))
  }

  function AfterJobStep(l: Ledger, b: PauseBook, j: JobId, p: JobStep): PauseBook
    requires j in b.jobs
  {
    var id := b.jobs[j].worker;
    match p
    case Wakes =>
      if id in b.ids then FinishJob(b, j) else b.(jobs := b.jobs[j := Job(id, Checking, false)])
    case Checks =>
      if id in Ids(l.idle) && id in l.all then b.(jobs := b.jobs[j := Job(id, Pausing, false)])
      else FinishJob(b, j)
    case Pauses => FinishJob(b, j).(ids := b.ids + {id})
    case Fails => FinishJob(b, j)
    case Unwinds => FinishJob(b, j)
  }

  // ---------- runs ----------

  predicate Possible(c: Config, s: State, run: seq<Action>)
    decreases |run|
  {
    run == [] || (Enabled(s, run[0]) && Possible(c, Apply(c, s, run[0]), run[1..]))
  }

  function Exec(c: Config, s: State, run: seq<Action>): State
    requires Possible(c, s, run)
    decreases |run|
  {
    if run == [] then s else Exec(c, Apply(c, s, run[0]), run[1..])
  }

  /** A state some interleaving leads to. */
  ghost predicate Reachable(c: Config, s: State) {
    exists run :: Possible(c, Init(c), run) && Exec(c, Init(c), run) == s
  }
}
