/**
 What the pool's steps bring about. PoolSafety says what no run does; a pool that never paused a worker or
 never deleted one would be as safe. Here is what pausing, waking and pruning do achieve.
 */
module PoolEffects {
  import opened Workers
  import opened Ledger
  import opened PoolProtocol

  // ---------- pausing ----------

  /** The pause job of a worker, its delay not yet over. */
  ghost predicate WillPause(b: PauseBook, id: WorkerId, j: JobId) {
    id in b.taskOf && b.taskOf[id] == j && j in b.jobs && b.jobs[j] == Job(id, Sleeping, false)
  }

  /** A pause job left alone from the end of its delay: look at the paused ids, look at the pool, call. */
  function PauseRun(j: JobId, ok: bool): seq<Action> {
    [PauseJob(j, Wakes), PauseJob(j, Checks), PauseJob(j, if ok then Pauses else Fails)]
  }

  lemma FirstStep(c: Config, s: State, a: Action, rest: seq<Action>)
    ensures Possible(c, s, [a] + rest) <==> Enabled(s, a) && Possible(c, Apply(c, s, a), rest)
    ensures Possible(c, s, [a] + rest) ==> Exec(c, s, [a] + rest) == Exec(c, Apply(c, s, a), rest)
  {
    assert ([a] + rest)[1..] == rest;
  }

  lemma OneStep(c: Config, s: State, a: Action)
    ensures Possible(c, s, [a]) <==> Enabled(s, a)
    ensures Possible(c, s, [a]) ==> Exec(c, s, [a]) == Apply(c, s, a)
  {
    FirstStep(c, s, a, []);
    assert [a] + [] == [a];
  }

  /**
   The pause call of a job left alone is reached exactly for a worker that is not paused, idle and in the
   ledger; when it succeeds the worker is paused and nothing else changes, and either way the job is over.
   */
  lemma PauseCallIsReachedIff(c: Config, s: State, id: WorkerId, j: JobId, ok: bool)
    requires WillPause(s.pause, id, j)
    ensures Possible(c, s, PauseRun(j, ok)) <==>
              id !in s.pause.ids && (exists e :: e in s.ledger.idle && e.id == id) && id in s.ledger.all
    ensures Possible(c, s, PauseRun(j, ok)) ==>
              var s' := Exec(c, s, PauseRun(j, ok));
              && s'.pause.ids == s.pause.ids + (if ok then {id} else {})
              && s'.pause.taskOf == s.pause.taskOf - {id} && s'.pause.jobs == s.pause.jobs - {j}
              && s'.ledger == s.ledger && s'.tasks == s.tasks
  {
    var a, b, d := PauseJob(j, Wakes), PauseJob(j, Checks), PauseJob(j, if ok then Pauses else Fails);
    assert PauseRun(j, ok) == [a] + ([b] + [d]);
    FirstStep(c, s, a, [b] + [d]);
    var s1 := Apply(c, s, a);
    FirstStep(c, s1, b, [d]);
    if Enabled(s1, b) { OneStep(c, Apply(c, s1, b), d); }
  }

  /** Otherwise the job ends before the call, and nothing is paused. */
  lemma PauseJobEndsEarly(c: Config, s: State, id: WorkerId, j: JobId)
    requires WillPause(s.pause, id, j)
    ensures Enabled(s, PauseJob(j, Wakes))
    ensures var s1 := Apply(c, s, PauseJob(j, Wakes));
            && (id in s.pause.ids ==> j !in s1.pause.jobs && s1.pause.ids == s.pause.ids)
            && (id !in s.pause.ids ==> Enabled(s1, PauseJob(j, Checks)))
            && (id !in s.pause.ids && !((exists e :: e in s.ledger.idle && e.id == id) && id in s.ledger.all) ==>
                  var s2 := Apply(c, s1, PauseJob(j, Checks)); j !in s2.pause.jobs && s2.pause.ids == s.pause.ids)
  {
  }

  // ---------- waking ----------

  /**
   A worker that comes out of the queue without a pause task is resumed exactly if it is paused; what
   resuming comes to decides whether the task works with it or evicts it and looks for another.
   */
  lemma ResumedIffPaused(c: Config, s: State, t: TaskId)
    requires Enabled(s, Acquiring(t, TryAcquire)) && s.ledger.idle != []
    ensures var s' := Apply(c, s, Acquiring(t, TryAcquire)); var id := s.ledger.idle[0].id;
            && t in s'.tasks && s'.tasks[t].Having? && s'.tasks[t].w == id
            && (s'.tasks[t].use.AwaitingPause? <==> c.pauseEnabled && id in s.pause.taskOf)
            && (s'.tasks[t].use.Resuming? <==> c.pauseEnabled && id !in s.pause.taskOf && id in s.pause.ids)
            && (s'.tasks[t].use.Working? <==> !c.pauseEnabled || (id !in s.pause.taskOf && id !in s.pause.ids))
  {
  }

  /** The same once its cancelled pause task has unwound. */
  lemma ResumedIffPausedMeanwhile(c: Config, s: State, t: TaskId)
    requires Enabled(s, Holding(t, PauseUnwound))
    ensures var s' := Apply(c, s, Holding(t, PauseUnwound));
            && s' == s.(tasks := s'.tasks) && s'.tasks.Keys == s.tasks.Keys
            && s'.tasks[t] == Having(s.tasks[t].w, if s.tasks[t].w in s.pause.ids then Resuming else Working)
  {
  }

  lemma ResumedWorkerIsUsed(c: Config, s: State, t: TaskId)
    requires t in s.tasks && s.tasks[t].Having? && s.tasks[t].use.Resuming?
    ensures Enabled(s, Holding(t, ResumeOk))
    ensures var id := s.tasks[t].w; var s' := Apply(c, s, Holding(t, ResumeOk));
            && s'.tasks == s.tasks[t := Having(id, Working)] && s'.pause == s.pause.(ids := s.pause.ids - {id})
            && s'.ledger == s.ledger
  {
  }

  // ---------- pruning ----------

  /** A prune pass that prunes nothing is over at once; else it knows the pruned ids and has them all to clean. */
  lemma PassKnowsWhatItPruned(c: Config, s: State, t: TaskId, idleTimeout: Time)
    requires t !in s.tasks
    ensures Enabled(s, Janitor(t, Prune(idleTimeout)))
    ensures var gone := set e | e in s.ledger.idle && s.now - e.lastUsedAt > idleTimeout :: e.id;
            var s' := Apply(c, s, Janitor(t, Prune(idleTimeout)));
            && (gone == {} ==> t !in s'.tasks)
            && (gone != {} ==> t in s'.tasks && s'.tasks[t] == Cleaning(gone, gone, None))
  {
    PruneSplits(s.ledger.idle, s.now, idleTimeout);
    var gone := set e | e in s.ledger.idle && s.now - e.lastUsedAt > idleTimeout :: e.id;
    assert gone == Ids(Stale(s.ledger.idle, s.now, idleTimeout));
  }

  /** What a reconcile pass lists for deletion. */
  lemma PassKnowsItsOrphans(c: Config, s: State, t: TaskId)
    requires t in s.tasks && s.tasks[t].Reconciling? && s.tasks[t].listing.Some?
    ensures Enabled(s, Janitor(t, CollectOrphans))
    ensures var listing := s.tasks[t].listing.value;
            Apply(c, s, Janitor(t, CollectOrphans)).tasks[t]
            == Deleting(set id | id in listing && id !in s.ledger.all
                                 && s.tasks[t].asOf - listing[id] as real >= c.gracePeriod)
  {
  }

  /** The ids a janitor pass is to delete, before and while it does. */
  function Condemned(p: Phase): set<WorkerId> {
    match p
    case Cleaning(_, pruned, _) => pruned
    case Deleting(orphans) => orphans
    case _ => {}
  }

  ghost predicate InPass(s: State, t: TaskId) {
    t in s.tasks && (s.tasks[t].Cleaning? || s.tasks[t].Deleting?)
  }

  /** A step of another task leaves a pass where it was. */
  lemma OthersKeepPass(c: Config, s: State, a: Action, t: TaskId)
    requires Enabled(s, a) && InPass(s, t) && !(a.Janitor? && a.t == t)
    ensures InPass(Apply(c, s, a), t) && Apply(c, s, a).tasks[t] == s.tasks[t]
  {
    match a
    case Acquiring(u, step) => assert u != t;
    case Holding(u, step) => assert u != t;
    case Janitor(u, step) => assert u != t;
    case _ =>
  }

  /** Only its own delete call takes an id off a pass's list, and the pass is not over before the list is empty. */
  lemma CondemnedStep(c: Config, s: State, a: Action, t: TaskId, id: WorkerId)
    requires Enabled(s, a) && InPass(s, t) && id in Condemned(s.tasks[t])
    ensures a in {Janitor(t, Delete(id, true)), Janitor(t, Delete(id, false))}
         || (InPass(Apply(c, s, a), t) && id in Condemned(Apply(c, s, a).tasks[t]))
  {
    if !(a.Janitor? && a.t == t) { OthersKeepPass(c, s, a, t); }
  }

  /** A pass cleans up after the pruned, one at a time, deletes what it lists, and ends with an empty list. */
  lemma PassMovesOn(s: State, t: TaskId, id: WorkerId)
    requires InPass(s, t)
    ensures var p := s.tasks[t];
            && (p.Cleaning? && p.awaited.None? && id in p.todo ==> Enabled(s, Janitor(t, Clean(id))))
            && (p.Cleaning? && p.awaited.Some? ==> (Enabled(s, Janitor(t, Cleaned)) <==> p.awaited.value.byJob !in s.pause.jobs))
            && (p.Cleaning? && p.awaited.None? && p.todo == {} ==> Enabled(s, Janitor(t, StartDeleting)))
            && (Enabled(s, Janitor(t, EndPass)) <==> p.Deleting? && p.orphans == {})
  {
  }

  /** Cleaning up after a pruned worker cancels its pause task, if it has one, and drops its paused mark. */
  lemma CleanedIsForgotten(c: Config, s: State, t: TaskId, id: WorkerId)
    ensures Enabled(s, Janitor(t, Clean(id))) ==>
              var s' := Apply(c, s, Janitor(t, Clean(id)));
              && id !in s'.pause.taskOf
              && (id in s.pause.taskOf && s.pause.taskOf[id] in s.pause.jobs ==> s'.pause.jobs[s.pause.taskOf[id]].cancelled)
              && (id !in s.pause.taskOf ==> id !in s'.pause.ids)
    ensures Enabled(s, Janitor(t, Cleaned)) ==>
              s.tasks[t].awaited.value.cleaned !in Apply(c, s, Janitor(t, Cleaned)).pause.ids
  {
  }

  /** So when a pass is over, each id it pruned, or found to be an orphan, has had its delete call. */
  lemma {:induction false} PassDeletesEveryCondemned(c: Config, s: State, run: seq<Action>, t: TaskId, id: WorkerId)
    requires Possible(c, s, run) && InPass(s, t) && id in Condemned(s.tasks[t])
    requires t !in Exec(c, s, run).tasks
    ensures exists ok :: Janitor(t, Delete(id, ok)) in run
    decreases |run|
  {
    if run != [] {
      CondemnedStep(c, s, run[0], t, id);
      if run[0] == Janitor(t, Delete(id, true)) {
        assert Janitor(t, Delete(id, true)) in run;
      } else if run[0] == Janitor(t, Delete(id, false)) {
        assert Janitor(t, Delete(id, false)) in run;
      } else {
        PassDeletesEveryCondemned(c, Apply(c, s, run[0]), run[1..], t, id);
        var ok :| Janitor(t, Delete(id, ok)) in run[1..];
        assert Janitor(t, Delete(id, ok)) in run;
      }
    }
  }

  /** A delete call reaches the agent if it succeeds; it is made for ids on the list only. */
  lemma DeleteReachesTheAgent(c: Config, s: State, t: TaskId, id: WorkerId, ok: bool)
    requires t in s.tasks
    ensures Enabled(s, Janitor(t, Delete(id, ok))) <==> s.tasks[t].Deleting? && id in Condemned(s.tasks[t])
    ensures Enabled(s, Janitor(t, Delete(id, ok))) ==>
              Apply(c, s, Janitor(t, Delete(id, ok))).agent
              == Agent(s.agent.created, s.agent.deleted + if ok then {id} else {})
  {
  }
}
