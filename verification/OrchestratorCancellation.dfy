/**
 Single flight under cancellation: who shares the leader's verdict, who fails with it, and who is left
 waiting. Every condition is about the actions of the run or the state a caller finds.
 */
module OrchestratorCancellation {
  import opened Workers
  import opened OrchestratorClient

  // ---------- the history variables ----------

  /** The state in which a run's action i happens. */
  function StateAt(caching: bool, s: State, run: seq<Action>, i: nat): State
    requires Possible(caching, s, run) && i <= |run|
    decreases |run|
  {
    if i == 0 then s else StateAt(caching, Apply(caching, s, run[0]), run[1..], i - 1)
  }

  /** Cancels f's leader, or a follower while f is pending. */
  predicate Disturbs(s: State, a: Action, f: FutureId) {
    && a.Cancel? && a.t in s.calls
    && match s.calls[a.t]
       case Leading(_, own) => own == f
       case Following(shared) => shared == f && f in s.table.futures && s.table.futures[f].promise.Pending?
       case Over(_, _, _) => false
  }

  /** The remote call of f's leader ends with `remote`. */
  predicate Ends(s: State, a: Action, f: FutureId, remote: Outcome) {
    a.Finish? && a.remote == remote && a.t in s.calls && s.calls[a.t].Leading? && s.calls[a.t].own == f
  }

  predicate Disturbed(s: State, f: FutureId) {
    f in s.table.futures && s.table.futures[f].disturbed
  }

  predicate Decided(s: State, f: FutureId, remote: Outcome) {
    f in s.table.futures && s.table.futures[f].verdict == Some(remote)
  }

  lemma DisturbedAfterOne(caching: bool, s: State, a: Action, f: FutureId)
    requires Enabled(s, a)
    ensures Disturbed(Apply(caching, s, a), f) <==> Disturbed(s, f) || Disturbs(s, a, f)
    ensures forall t :: t in Apply(caching, s, a).cancelled <==> t in s.cancelled || a == Cancel(t)
  {
  }

  lemma DecidedAfterOne(caching: bool, s: State, a: Action, f: FutureId, remote: Outcome)
    requires Invariant(s) && Enabled(s, a)
    ensures Decided(Apply(caching, s, a), f, remote) <==> Decided(s, f, remote) || Ends(s, a, f, remote)
  {
    if a.Finish? { assert PhaseSound(s.table, s.produced, a.t in s.cancelled, a.t, s.calls[a.t]); }
  }

  /** The states of a run's tail are those of the run, one on. */
  lemma Tail(caching: bool, s: State, run: seq<Action>)
    requires Possible(caching, s, run) && run != []
    ensures var s1, rest := Apply(caching, s, run[0]), run[1..];
            && (forall i :: 0 <= i < |rest| ==>
                  rest[i] == run[i + 1] && StateAt(caching, s1, rest, i) == StateAt(caching, s, run, i + 1))
            && (forall i :: 0 < i < |run| ==>
                  run[i] == rest[i - 1] && StateAt(caching, s, run, i) == StateAt(caching, s1, rest, i - 1))
  {
  }

  /** A future is disturbed if and only if its leader was cancelled, or a follower while it was pending. */
  lemma {:induction false} DisturbedMeansCancelled(caching: bool, s: State, run: seq<Action>, f: FutureId)
    requires Possible(caching, s, run)
    ensures Disturbed(Exec(caching, s, run), f) <==>
              Disturbed(s, f) || exists i :: 0 <= i < |run| && Disturbs(StateAt(caching, s, run, i), run[i], f)
    decreases |run|
  {
    if run != [] {
      DisturbedAfterOne(caching, s, run[0], f);
      DisturbedMeansCancelled(caching, Apply(caching, s, run[0]), run[1..], f);
      Tail(caching, s, run);
    }
  }

  lemma {:induction false} CancelledMeansCancel(caching: bool, s: State, run: seq<Action>, t: CallId)
    requires Possible(caching, s, run)
    ensures t in Exec(caching, s, run).cancelled <==> t in s.cancelled || Cancel(t) in run
    decreases |run|
  {
    if run != [] {
      DisturbedAfterOne(caching, s, run[0], 0);
      CancelledMeansCancel(caching, Apply(caching, s, run[0]), run[1..], t);
      assert run == [run[0]] + run[1..];
    }
  }

  /** A future's verdict is what the remote call of its leader ended with, and there is one such call. */
  lemma {:induction false} DecidedMeansEnded(caching: bool, s: State, run: seq<Action>, f: FutureId, remote: Outcome)
    requires Invariant(s) && Possible(caching, s, run)
    ensures Decided(Exec(caching, s, run), f, remote) <==>
              Decided(s, f, remote) || exists i :: 0 <= i < |run| && Ends(StateAt(caching, s, run, i), run[i], f, remote)
    decreases |run|
  {
    if run != [] {
      InvariantStep(caching, s, run[0]);
      DecidedAfterOne(caching, s, run[0], f, remote);
      DecidedMeansEnded(caching, Apply(caching, s, run[0]), run[1..], f, remote);
      Tail(caching, s, run);
    }
  }

  // ---------- the shared verdict ----------

  lemma UndisturbedShare(caching: bool, s: State, t: CallId, f: FutureId)
    requires Reachable(caching, s) && t in s.calls && s.calls[t].Over? && s.calls[t].via == Some(f)
    requires t !in s.cancelled
    ensures Decided(s, f, s.calls[t].outcome) <==> !Disturbed(s, f)
    ensures Disturbed(s, f) ==> s.calls[t].outcome.Raised? && !s.calls[t].outcome.exn.RemoteError?
  {
    ReachableInvariant(caching, s);
    assert PhaseSound(s.table, s.produced, t in s.cancelled, t, s.calls[t]);
    assert SlotSound(s.table.futures[f], s.produced);
  }

  /**
   On every run, a leader or follower of f that was not cancelled itself comes away with what the leader's
   remote call ended with if and only if nobody cancelled f's leader, or a follower of f while it was
   pending; otherwise it comes away with an error of the gateway's own.
   */
  lemma VerdictIsSharedIffUndisturbed(caching: bool, run: seq<Action>, t: CallId, f: FutureId)
    requires Possible(caching, Init(), run) && Cancel(t) !in run
    requires var s := Exec(caching, Init(), run); t in s.calls && s.calls[t].Over? && s.calls[t].via == Some(f)
    ensures var outcome := Exec(caching, Init(), run).calls[t].outcome;
            var disturbed := exists i :: 0 <= i < |run| && Disturbs(StateAt(caching, Init(), run, i), run[i], f);
            && ((exists i :: 0 <= i < |run| && Ends(StateAt(caching, Init(), run, i), run[i], f, outcome)) <==> !disturbed)
            && (disturbed ==> outcome.Raised? && !outcome.exn.RemoteError?)
  {
    var s := Exec(caching, Init(), run);
    assert Reachable(caching, s);
    CancelledMeansCancel(caching, Init(), run, t);
    DisturbedMeansCancelled(caching, Init(), run, f);
    DecidedMeansEnded(caching, Init(), run, f, s.calls[t].outcome);
    UndisturbedShare(caching, s, t, f);
  }

  /** So on runs without cancellation everyone gets the leader's host or exception. */
  lemma FollowersShareTheVerdict(caching: bool, run: seq<Action>, t: CallId, f: FutureId)
    requires Possible(caching, Init(), run) && forall i :: 0 <= i < |run| ==> !run[i].Cancel?
    requires var s := Exec(caching, Init(), run); t in s.calls && s.calls[t].Over? && s.calls[t].via == Some(f)
    ensures exists i :: 0 <= i < |run|
              && Ends(StateAt(caching, Init(), run, i), run[i], f, Exec(caching, Init(), run).calls[t].outcome)
  {
    VerdictIsSharedIffUndisturbed(caching, run, t, f);
  }

  /**
   A follower that is cancelled while it waits makes the leader fail although its remote call returned a
   host, which was even cached, and makes every other follower fail as well.
   */
  lemma CancelledFollowerFailsTheLeader(caching: bool, s: State, t: CallId, u: CallId, v: CallId, host: Host)
    requires Reachable(caching, s) && t in s.calls && u in s.calls && v in s.calls && u != v && host != ""
    requires s.calls[t].Leading? && s.calls[u] == s.calls[v] == Following(s.calls[t].own)
    requires s.calls[t].own in s.table.futures && s.table.futures[s.calls[t].own].promise.Pending?
    ensures var run := [Cancel(u), Finish(t, Got(host)), Resume(v)];
            && Possible(caching, s, run)
            && var s' := Exec(caching, s, run);
            && t in s'.calls && v in s'.calls
            && (s.calls[t].led, host) in s'.produced && (caching ==> s.calls[t].led in s'.cache)
            && s'.calls[t] == Over(s.calls[t].led, Some(s.calls[t].own), Raised(InvalidState))
            && s'.calls[v].Over? && s'.calls[v].outcome == Raised(CancelledError)
  {
    var s1 := Apply(caching, s, Cancel(u));
    var s2 := Apply(caching, s1, Finish(t, Got(host)));
    var run := [Cancel(u), Finish(t, Got(host)), Resume(v)];
    assert run[1..] == [Finish(t, Got(host)), Resume(v)] && run[1..][1..] == [Resume(v)];
    assert Exec(caching, s2, [Resume(v)]) == Apply(caching, s2, Resume(v));
    assert Exec(caching, s1, run[1..]) == Exec(caching, s2, [Resume(v)]);
  }

  // ---------- who can still come away ----------

  /** Pending, its leader cancelled. */
  predicate Abandoned(s: State, f: FutureId) {
    f in s.table.futures && s.table.futures[f].promise.Pending? && s.table.futures[f].disturbed
  }

  /** Nobody is cancelled while following f. */
  predicate Spares(caching: bool, s: State, run: seq<Action>, f: FutureId)
    requires Possible(caching, s, run)
    decreases |run|
  {
    run == []
    || (!(run[0].Cancel? && s.calls[run[0].t] == Following(f)) && Spares(caching, Apply(caching, s, run[0]), run[1..], f))
  }

  lemma LeaderCancelAbandons(caching: bool, s: State, t: CallId)
    requires t in s.calls && s.calls[t].Leading? && Enabled(s, Cancel(t))
    requires s.table.futures[s.calls[t].own].promise.Pending?
    ensures Abandoned(Apply(caching, s, Cancel(t)), s.calls[t].own)
  {
  }

  lemma AbandonedStep(caching: bool, s: State, a: Action, f: FutureId)
    requires Invariant(s) && Abandoned(s, f) && Enabled(s, a)
    requires a.Cancel? ==> s.calls[a.t] != Following(f)
    ensures Abandoned(Apply(caching, s, a), f)
    ensures forall u :: u in s.calls && s.calls[u] == Following(f) ==>
              u in Apply(caching, s, a).calls && Apply(caching, s, a).calls[u] == Following(f)
  {
    match a
    case Call(t, name, _) => assert name in s.table.inflight ==>
        var u := s.table.futures[s.table.inflight[name]].leader;
        PhaseSound(s.table, s.produced, u in s.cancelled, u, s.calls[u]);
    case Forget(_) =>
    case _ => assert PhaseSound(s.table, s.produced, a.t in s.cancelled, a.t, s.calls[a.t]);
  }

  /** An abandoned future stays pending, and its followers wait, while none of them is cancelled. */
  lemma {:induction false} AbandonedFollowersHang(caching: bool, s: State, run: seq<Action>, f: FutureId, u: CallId)
    requires Invariant(s) && Abandoned(s, f) && Possible(caching, s, run) && Spares(caching, s, run, f)
    requires u in s.calls && s.calls[u] == Following(f)
    ensures u in Exec(caching, s, run).calls && Exec(caching, s, run).calls[u] == Following(f)
    decreases |run|
  {
    if run != [] {
      AbandonedStep(caching, s, run[0], f);
      InvariantStep(caching, s, run[0]);
      AbandonedFollowersHang(caching, Apply(caching, s, run[0]), run[1..], f, u);
    }
  }

  /** The leader is cancelled, then anything happens but a cancelled follower: the followers wait for ever. */
  lemma CancelledLeaderStrandsFollowers(caching: bool, s: State, t: CallId, u: CallId, run: seq<Action>)
    requires Reachable(caching, s) && t in s.calls && s.calls[t].Leading? && s.calls[t].own in s.table.futures
    requires s.table.futures[s.calls[t].own].promise.Pending?
    requires u in s.calls && s.calls[u] == Following(s.calls[t].own)
    requires var s1 := Apply(caching, s, Cancel(t)); Possible(caching, s1, run) && Spares(caching, s1, run, s.calls[t].own)
    ensures var end := Exec(caching, Apply(caching, s, Cancel(t)), run);
            u in end.calls && end.calls[u] == Following(s.calls[t].own)
  {
    ReachableInvariant(caching, s);
    InvariantStep(caching, s, Cancel(t));
    LeaderCancelAbandons(caching, s, t);
    AbandonedFollowersHang(caching, Apply(caching, s, Cancel(t)), run, s.calls[t].own, u);
  }

  /** A future that is pending and undisturbed has its leader at work. */
  ghost predicate Attended(s: State) {
    forall f :: f in s.table.futures && s.table.futures[f].promise.Pending? && !s.table.futures[f].disturbed ==>
      var slot := s.table.futures[f];
      slot.leader in s.calls && s.calls[slot.leader] == Leading(slot.name, f)
  }

  lemma AttendedStep(caching: bool, s: State, a: Action)
    requires Invariant(s) && Attended(s) && Enabled(s, a)
    ensures Attended(Apply(caching, s, a))
  {
    if a.Finish? || a.Cancel? { assert PhaseSound(s.table, s.produced, a.t in s.cancelled, a.t, s.calls[a.t]); }
  }

  lemma {:induction false} AttendedAlways(caching: bool, s: State, run: seq<Action>)
    requires Invariant(s) && Attended(s) && Possible(caching, s, run)
    ensures Attended(Exec(caching, s, run))
    decreases |run|
  {
    if run != [] {
      AttendedStep(caching, s, run[0]);
      InvariantStep(caching, s, run[0]);
      AttendedAlways(caching, Apply(caching, s, run[0]), run[1..]);
    }
  }

  lemma ReachableAttended(caching: bool, s: State)
    requires Reachable(caching, s)
    ensures Attended(s)
  {
    var run :| Possible(caching, Init(), run) && Exec(caching, Init(), run) == s;
    AttendedAlways(caching, Init(), run);
  }

  /** Some continuation that cancels no follower of f ends with u through. */
  ghost predicate CanComeAway(caching: bool, s: State, u: CallId, f: FutureId) {
    exists run :: Possible(caching, s, run) && Spares(caching, s, run, f)
      && u in Exec(caching, s, run).calls && Exec(caching, s, run).calls[u].Over?
  }

  lemma SettledComesAway(caching: bool, s: State, u: CallId, f: FutureId)
    requires u in s.calls && s.calls[u] == Following(f) && f in s.table.futures && !s.table.futures[f].promise.Pending?
    ensures CanComeAway(caching, s, u, f)
  {
    var s1 := Apply(caching, s, Resume(u));
    assert [Resume(u)][1..] == [] && Possible(caching, s1, []) && Exec(caching, s1, []) == s1 && Spares(caching, s1, [], f);
    assert Possible(caching, s, [Resume(u)]) && Exec(caching, s, [Resume(u)]) == s1;
  }

  lemma AttendedComesAway(caching: bool, s: State, u: CallId, f: FutureId)
    requires Attended(s) && u in s.calls && s.calls[u] == Following(f) && f in s.table.futures
    requires s.table.futures[f].promise.Pending? && !s.table.futures[f].disturbed
    ensures CanComeAway(caching, s, u, f)
  {
    var a := Finish(s.table.futures[f].leader, Got("host"));
    var s1 := Apply(caching, s, a);
    SettledComesAway(caching, s1, u, f);
    var run :| Possible(caching, s1, run) && Spares(caching, s1, run, f)
      && u in Exec(caching, s1, run).calls && Exec(caching, s1, run).calls[u].Over?;
    assert ([a] + run)[1..] == run;
    assert Possible(caching, s, [a] + run) && Exec(caching, s, [a] + run) == Exec(caching, s1, run);
    assert Spares(caching, s, [a] + run, f);
  }

  /** A waiting follower can still get an answer if and only if its future is not abandoned. */
  lemma ComesAwayIffNotAbandoned(caching: bool, s: State, u: CallId, f: FutureId)
    requires Reachable(caching, s) && u in s.calls && s.calls[u] == Following(f)
    ensures CanComeAway(caching, s, u, f) <==> !Abandoned(s, f)
  {
    ReachableInvariant(caching, s);
    ReachableAttended(caching, s);
    assert PhaseSound(s.table, s.produced, u in s.cancelled, u, s.calls[u]);
    if CanComeAway(caching, s, u, f) && Abandoned(s, f) {
      var run :| Possible(caching, s, run) && Spares(caching, s, run, f)
        && u in Exec(caching, s, run).calls && Exec(caching, s, run).calls[u].Over?;
      AbandonedFollowersHang(caching, s, run, f, u);
    }
    if !Abandoned(s, f) {
      if s.table.futures[f].promise.Pending? { AttendedComesAway(caching, s, u, f); }
      else { SettledComesAway(caching, s, u, f); }
    }
  }

  /** Abandoned means that the run cancelled the leader while the future was pending. */
  lemma AbandonedMeansLeaderCancelled(caching: bool, run: seq<Action>, f: FutureId)
    requires Possible(caching, Init(), run)
    requires var s := Exec(caching, Init(), run); f in s.table.futures && s.table.futures[f].promise.Pending?
    ensures Abandoned(Exec(caching, Init(), run), f) <==>
              exists i :: 0 <= i < |run| && Disturbs(StateAt(caching, Init(), run, i), run[i], f)
  {
    DisturbedMeansCancelled(caching, Init(), run, f);
  }
}
