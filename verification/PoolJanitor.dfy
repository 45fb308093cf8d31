/**
 The janitor's passes delete by id, long after they looked. The grace period is what keeps them from
 deleting a container that a request is about to receive.
 */
module PoolJanitor {
  import opened Workers
  import opened Ledger
  import opened PoolProtocol
  import opened PoolOwnership

  /** A janitor pass deleted id, or is about to. */
  ghost predicate Doomed(s: State, id: WorkerId) {
    id in s.agent.deleted || exists t :: t in s.tasks && s.tasks[t].Deleting? && id in s.tasks[t].orphans
  }

  /** Deleting id harms nobody: it is not in the pool, and can only enter it past its deadline. */
  ghost predicate Harmless(c: Config, s: State, id: WorkerId) {
    && id in s.agent.created
    && (id in s.ledger.all ==> id in s.past.late)
    && (forall t :: t in s.tasks && s.tasks[t].Starting? && s.tasks[t].made == id ==> !InGrace(c, s, id))
  }

  /** A reconcile pass read the clock before it asked the agent, who answered in whole seconds. */
  ghost predicate PassSound(s: State, p: Phase) {
    p.Reconciling? ==>
      && p.asOf <= s.now
      && (p.listing.Some? ==>
            forall id :: id in p.listing.value ==>
              id in s.agent.created && p.listing.value[id] == s.agent.created[id].Floor)
  }

  ghost predicate JanitorSound(c: Config, s: State) {
    && (forall id :: id in s.agent.deleted ==> Harmless(c, s, id))
    && (forall t, id :: t in s.tasks && s.tasks[t].Deleting? && id in s.tasks[t].orphans ==> Harmless(c, s, id))
    && (forall t :: t in s.tasks ==> PassSound(s, s.tasks[t]))
  }

  lemma InitJanitorSound(c: Config)
    ensures JanitorSound(c, Init(c))
  {
  }

  lemma AcquireHarmsNone(c: Config, s: State, t: TaskId, a: AcquireStep, id: WorkerId)
    requires AcquireEnabled(s, t, a) && Harmless(c, s, id)
    ensures Harmless(c, AfterAcquire(c, s, t, a), id)
  {
  }

  lemma HolderHarmsNone(c: Config, s: State, t: TaskId, h: HolderStep, id: WorkerId)
    requires t in s.tasks && HolderEnabled(s, s.tasks[t], h) && Harmless(c, s, id)
    ensures Harmless(c, AfterHolder(c, s, t, h), id)
  {
  }

  lemma JanitorHarmsNone(c: Config, s: State, t: TaskId, n: JanitorStep, id: WorkerId)
    requires JanitorEnabled(s, t, n) && Harmless(c, s, id)
    ensures Harmless(c, AfterJanitor(c, s, t, n), id)
  {
  }

  /** Registering past the deadline is on record, so a harmless deletion stays harmless. */
  lemma HarmlessStep(c: Config, s: State, a: Action, id: WorkerId)
    requires Enabled(s, a) && Harmless(c, s, id)
    ensures Harmless(c, Apply(c, s, a), id)
  {
    match a
    case Acquiring(t, step) => AcquireHarmsNone(c, s, t, step, id);
    case Holding(t, step) => HolderHarmsNone(c, s, t, step, id);
    case Janitor(t, step) => JanitorHarmsNone(c, s, t, step, id);
    case _ =>
  }

  /** A pruned worker is in nobody's hands. */
  lemma PrunedIsHarmless(c: Config, s: State, t: TaskId, id: WorkerId)
    requires Owned(s) && t in s.tasks && s.tasks[t].Cleaning? && id in s.tasks[t].pruned
    ensures Harmless(c, s, id)
  {
  }

  /** A listed container that is unknown and old enough has missed its deadline already. */
  lemma OrphanIsHarmless(c: Config, s: State, p: Phase, id: WorkerId)
    requires PassSound(s, p) && p.Reconciling? && p.listing.Some?
    requires id in Orphans(c, s.ledger, p.asOf, p.listing.value)
    ensures Harmless(c, s, id)
  {
  }

  lemma BirthsStay(c: Config, s: State, a: Action)
    requires Enabled(s, a)
    ensures forall id :: id in s.agent.created ==>
              id in Apply(c, s, a).agent.created && Apply(c, s, a).agent.created[id] == s.agent.created[id]
    ensures s.now <= Apply(c, s, a).now
  {
  }

  /** Where a reconcile pass's view comes from. */
  lemma PassMoves(c: Config, s: State, a: Action, t: TaskId)
    requires Enabled(s, a) && t in Apply(c, s, a).tasks && Apply(c, s, a).tasks[t].Reconciling?
    ensures var p' := Apply(c, s, a).tasks[t];
            || (t in s.tasks && s.tasks[t].Reconciling? && p'.asOf == s.tasks[t].asOf
                && (p'.listing == s.tasks[t].listing || p'.listing == Some(AgentView(s))))
            || p' == Reconciling(s.now, None)
  {
  }

  lemma PassSoundStep(c: Config, s: State, a: Action, t: TaskId)
    requires Enabled(s, a) && (t in s.tasks ==> PassSound(s, s.tasks[t])) && t in Apply(c, s, a).tasks
    ensures PassSound(Apply(c, s, a), Apply(c, s, a).tasks[t])
  {
    if Apply(c, s, a).tasks[t].Reconciling? {
      BirthsStay(c, s, a);
      PassMoves(c, s, a, t);
    }
  }

  /** Where a new entry on a deletion list comes from. */
  lemma NewlyDoomed(c: Config, s: State, a: Action, t: TaskId, id: WorkerId)
    requires Enabled(s, a)
    requires t in Apply(c, s, a).tasks && Apply(c, s, a).tasks[t].Deleting? && id in Apply(c, s, a).tasks[t].orphans
    ensures t in s.tasks
    ensures || (s.tasks[t].Deleting? && id in s.tasks[t].orphans)
            || (s.tasks[t].Cleaning? && id in s.tasks[t].pruned)
            || (s.tasks[t].Reconciling? && s.tasks[t].listing.Some?
                && id in Orphans(c, s.ledger, s.tasks[t].asOf, s.tasks[t].listing.value))
  {
  }

  lemma NewlyDeleted(c: Config, s: State, a: Action, id: WorkerId)
    requires Enabled(s, a) && id in Apply(c, s, a).agent.deleted
    ensures Doomed(s, id)
  {
  }

  lemma JanitorSoundStep(c: Config, s: State, a: Action)
    requires Owned(s) && JanitorSound(c, s) && Enabled(s, a)
    ensures JanitorSound(c, Apply(c, s, a))
  {
    var s' := Apply(c, s, a);
    forall t | t in s'.tasks ensures PassSound(s', s'.tasks[t]) { PassSoundStep(c, s, a, t); }
    forall id | id in s'.agent.deleted ensures Harmless(c, s', id) {
      NewlyDeleted(c, s, a, id);
      HarmlessStep(c, s, a, id);
    }
    forall t, id | t in s'.tasks && s'.tasks[t].Deleting? && id in s'.tasks[t].orphans ensures Harmless(c, s', id) {
      NewlyDoomed(c, s, a, t, id);
      if s.tasks[t].Cleaning? { PrunedIsHarmless(c, s, t, id); }
      if s.tasks[t].Reconciling? { OrphanIsHarmless(c, s, s.tasks[t], id); }
      HarmlessStep(c, s, a, id);
    }
  }
}
