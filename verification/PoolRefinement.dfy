/**
 The manager's acquire_worker, run alone, is a run of the protocol: the steps of one task and the
 unwinding of the pause jobs it cancels, nothing else. Its reconcile pass deletes the protocol's orphans.
 */
module PoolRefinement {
  import opened Workers
  import opened Ledger
  import opened PoolProtocol
  import opened PoolPause
  import opened PoolSafety
  import opened ContainerPool
  import M = PoolManager

  /** What acquire_worker looks at, in a protocol state. */
  function DeskOf(s: State): M.Desk {
    M.Desk(s.ledger, s.pause.ids, s.pause.taskOf)
  }

  /** A step of task t, or of a pause job that t may be waiting for. */
  predicate Own(t: TaskId, a: Action) {
    (a.Acquiring? && a.t == t) || (a.Holding? && a.t == t) || (a.PauseJob? && a.p == Unwinds)
  }

  ghost predicate Leads(c: Config, s: State, t: TaskId, s': State) {
    exists run :: Possible(c, s, run) && Exec(c, s, run) == s' && forall a :: a in run ==> Own(t, a)
  }

  lemma LeadsNowhere(c: Config, s: State, t: TaskId)
    ensures Leads(c, s, t, s)
  {
    var run: seq<Action> := [];
    assert Possible(c, s, run) && Exec(c, s, run) == s;
  }

  lemma LeadsOn(c: Config, s: State, t: TaskId, s1: State, s2: State)
    requires Leads(c, s, t, s1) && Leads(c, s1, t, s2)
    ensures Leads(c, s, t, s2)
  {
    var r1 :| Possible(c, s, r1) && Exec(c, s, r1) == s1 && forall a :: a in r1 ==> Own(t, a);
    var r2 :| Possible(c, s1, r2) && Exec(c, s1, r2) == s2 && forall a :: a in r2 ==> Own(t, a);
    RunsCompose(c, s, r1, r2);
    assert forall a :: a in r1 + r2 ==> Own(t, a);
  }

  lemma Step(c: Config, s: State, t: TaskId, s1: State, a: Action) returns (s2: State)
    requires Leads(c, s, t, s1) && Enabled(s1, a) && Own(t, a)
    ensures s2 == Apply(c, s1, a) && Leads(c, s, t, s2)
  {
    s2 := Apply(c, s1, a);
    var run := [a];
    assert run[1..] == [];
    assert Possible(c, s2, []) && Exec(c, s2, []) == s2;
    assert Possible(c, s1, run) && Exec(c, s1, run) == Exec(c, s2, run[1..]);
    LeadsOn(c, s, t, s1, s2);
  }

  /** Where t stands when the manager's call has come to `outcome`. */
  predicate StandsAt(s: State, t: TaskId, outcome: Option<Result<WorkerId, AcquireError>>) {
    match outcome
    case None => t in s.tasks && s.tasks[t] == Arriving
    case Some(Success(id)) => t in s.tasks && s.tasks[t] == Having(id, Working)
    case Some(Failure(_)) => t !in s.tasks
  }

  /** t is about to look, and the agent has not made the container it may be given. */
  ghost predicate Ready(s: State, t: TaskId, made: Option<WorkerId>) {
    && BookSound(s.pause) && t in s.tasks && s.tasks[t] == Arriving
    && (made.Some? ==> made.value !in s.agent.created && made.value !in s.pause.ids && made.value !in s.pause.taskOf)
  }

  /** The idle worker at the head of the queue, its pause task unwound if it has one. */
  lemma TakeHead(c: Config, s: State, t: TaskId, made: Option<WorkerId>) returns (s': State)
    requires Ready(s, t, made) && s.ledger.idle != [] && c.pauseEnabled
    ensures Leads(c, s, t, s') && BookSound(s'.pause) && s'.agent == s.agent && t in s'.tasks
    ensures var id := s.ledger.idle[0].id;
            && s'.ledger == s.ledger.(idle := s.ledger.idle[1..])
            && s'.pause.ids == s.pause.ids && s'.pause.taskOf == s.pause.taskOf - {id}
            && s'.tasks[t] == Having(id, if id in s.pause.ids then Resuming else Working)
  {
    var id := s.ledger.idle[0].id;
    LeadsNowhere(c, s, t);
    CancelKeepsBook(s.pause, id);
    s' := Step(c, s, t, s, Acquiring(t, TryAcquire));
    if id in s.pause.taskOf {
      var j := s.pause.taskOf[id];
      JobStepKeepsBook(s'.ledger, s'.pause, j, Unwinds);
      s' := Step(c, s, t, s', PauseJob(j, Unwinds));
      s' := Step(c, s, t, s', Holding(t, PauseUnwound));
    }
  }

  lemma PassWithIdle(c: Config, s: State, t: TaskId, resumes: WorkerId -> bool, made: Option<WorkerId>) returns (s': State)
    requires Ready(s, t, made) && s.ledger.idle != []
    ensures var p := M.Pass(DeskOf(s), c.pauseEnabled, resumes, made);
            && Leads(c, s, t, s') && DeskOf(s') == p.desk && StandsAt(s', t, p.outcome)
            && (p.outcome == None ==> Ready(s', t, made))
  {
    var id := s.ledger.idle[0].id;
    if !c.pauseEnabled {
      LeadsNowhere(c, s, t);
      s' := Step(c, s, t, s, Acquiring(t, TryAcquire));
    } else {
      s' := TakeHead(c, s, t, made);
      if id in s.pause.ids {
        if resumes(id) {
          s' := Step(c, s, t, s', Holding(t, ResumeOk));
        } else {
          s' := Step(c, s, t, s', Holding(t, ResumeFail));
          s' := Step(c, s, t, s', Holding(t, Discard));
        }
      }
    }
  }

  lemma PassReserves(c: Config, s: State, t: TaskId, made: Option<WorkerId>) returns (s': State)
    requires Ready(s, t, made) && s.ledger.idle == [] && s.ledger.HasRoom()
    ensures var (l, r) := M.Taken(s.ledger, made);
            Leads(c, s, t, s') && DeskOf(s') == DeskOf(s).(ledger := l) && StandsAt(s', t, Some(r))
  {
    LeadsNowhere(c, s, t);
    s' := Step(c, s, t, s, Acquiring(t, TryAcquire));
    if made.None? {
      s' := Step(c, s, t, s', Acquiring(t, ProvisionFail));
    } else {
      s' := Step(c, s, t, s', Acquiring(t, Create(made.value)));
      s' := Step(c, s, t, s', Acquiring(t, ProvisionOk));
    }
  }

  lemma PassTimesOut(c: Config, s: State, t: TaskId, made: Option<WorkerId>) returns (s': State)
    requires Ready(s, t, made) && s.ledger.idle == [] && !s.ledger.HasRoom()
    ensures Leads(c, s, t, s') && DeskOf(s') == DeskOf(s) && t !in s'.tasks
  {
    LeadsNowhere(c, s, t);
    s' := Step(c, s, t, s, Acquiring(t, TryAcquire));
    if t in s'.tasks { s' := Step(c, s, t, s', Acquiring(t, GiveUp)); }
  }

  lemma PassWithoutIdle(c: Config, s: State, t: TaskId, resumes: WorkerId -> bool, made: Option<WorkerId>)
      returns (s': State)
    requires Ready(s, t, made) && s.ledger.idle == []
    ensures var p := M.Pass(DeskOf(s), c.pauseEnabled, resumes, made);
            Leads(c, s, t, s') && DeskOf(s') == p.desk && p.outcome.Some? && StandsAt(s', t, p.outcome)
  {
    if s.ledger.HasRoom() {
      s' := PassReserves(c, s, t, made);
      if made.Some? {
        assert s.pause.taskOf - {made.value} == s.pause.taskOf;
        assert s.pause.ids - {made.value} == s.pause.ids;
      }
    } else {
      s' := PassTimesOut(c, s, t, made);
    }
  }

  /** The manager's call ends as some run of the protocol ends in which only this task moves. */
  lemma {:induction false} AcquireAloneIsARun(c: Config, s: State, t: TaskId, resumes: WorkerId -> bool,
                                              made: Option<WorkerId>)
      returns (s': State)
    requires Ready(s, t, made)
    ensures var end := M.AcquireAlone(DeskOf(s), c.pauseEnabled, resumes, made);
            Leads(c, s, t, s') && DeskOf(s') == end.desk && StandsAt(s', t, Some(end.outcome))
    decreases |s.ledger.idle|
  {
    if s.ledger.idle == [] {
      s' := PassWithoutIdle(c, s, t, resumes, made);
    } else {
      s' := PassWithIdle(c, s, t, resumes, made);
      if M.Pass(DeskOf(s), c.pauseEnabled, resumes, made).outcome == None {
        var s1 := s';
        s' := AcquireAloneIsARun(c, s1, t, resumes, made);
        LeadsOn(c, s, t, s1, s');
      }
    }
  }

  /** So whatever the protocol keeps on every run holds after the manager's call. */
  lemma AcquireAloneStaysReachable(c: Config, s: State, t: TaskId, resumes: WorkerId -> bool, made: Option<WorkerId>)
      returns (s': State)
    requires Reachable(c, s) && Ready(s, t, made)
    ensures Reachable(c, s')
    ensures DeskOf(s') == M.AcquireAlone(DeskOf(s), c.pauseEnabled, resumes, made).desk
    ensures StandsAt(s', t, Some(M.AcquireAlone(DeskOf(s), c.pauseEnabled, resumes, made).outcome))
  {
    s' := AcquireAloneIsARun(c, s, t, resumes, made);
    var run :| Possible(c, s, run) && Exec(c, s, run) == s' && forall a :: a in run ==> Own(t, a);
    ReachableAfter(c, s, run);
  }

  /** The manager's reconcile pass deletes exactly the orphans the protocol speaks of. */
  lemma PassesAgree(c: Config, l: Ledger, asOf: Time, rows: seq<M.Row>, listing: map<WorkerId, int>)
    requires forall row :: row in rows ==> row.id in listing && row.createdAt == listing[row.id] as real
    requires forall id :: id in listing ==> exists row :: row in rows && row.id == id
    ensures forall id :: id in M.OrphansOf(rows, l.all, asOf, c.gracePeriod)
                    <==> id in Orphans(c, l, asOf, listing)
  {
    forall id ensures id in M.OrphansOf(rows, l.all, asOf, c.gracePeriod) <==> id in Orphans(c, l, asOf, listing) {
      M.OrphansAreUnknownAndOld(rows, l.all, asOf, c.gracePeriod, id);
    }
  }
}
