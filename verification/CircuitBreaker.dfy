/**
 The circuit breaker. `call` awaits the wrapped function between its check and its update, so calls
 overlap; each half is one atomic step.
 */
module CircuitBreaker {
  import opened Workers

  datatype Mode = Closed | Open | HalfOpen

  datatype Breaker = Breaker(failures: int, lastFailure: Time, mode: Mode)

  datatype Settings = Settings(threshold: int, recovery: Time)

  const FRESH := Breaker(0, 0.0, Closed)

  /** The check at the top of call. */
  function Admit(c: Settings, b: Breaker, now: Time): Option<Breaker> {
    if b.mode != Open then Some(b)
    else if now - b.lastFailure > c.recovery then Some(b.(mode := HalfOpen))
    else None
  }

  function Succeeded(b: Breaker): Breaker {
    if b.mode == HalfOpen then FRESH else b
  }

  function Failed(c: Settings, b: Breaker, now: Time): Breaker {
    var n := b.failures + 1;
    Breaker(n, now, if n >= c.threshold || b.mode == HalfOpen then Open else b.mode)
  }

  /** How the wrapped function ended; a cancellation is no Exception and is not counted. */
  datatype Ending = Returned | Raised | Cancelled

  class CircuitBreaker {
    const failureThreshold: int
    const recoveryTimeout: Time
    var failures: int
    var lastFailureTime: Time
    var mode: Mode

    ghost function View(): Breaker
      reads this
    {
      Breaker(failures, lastFailureTime, mode)
    }

    function Config(): Settings {
      Settings(failureThreshold, recoveryTimeout)
    }

    constructor (failureThreshold: int, recoveryTimeout: Time)
      ensures failures == 0 && mode == Closed && lastFailureTime == 0.0
      ensures View() == FRESH && Config() == Settings(failureThreshold, recoveryTimeout)
    {
      this.failureThreshold := failureThreshold;
      this.recoveryTimeout := recoveryTimeout;
      failures, lastFailureTime, mode := 0, 0.0, Closed;
    }

    /** The first half of call: may the wrapped function start? */
    method Begin(now: Time) returns (admitted: bool)
      modifies this
      ensures admitted <==> old(mode) != Open || now - old(lastFailureTime) > recoveryTimeout
      ensures mode == if admitted && old(mode) == Open then HalfOpen else old(mode)
      ensures failures == old(failures) && lastFailureTime == old(lastFailureTime)
      ensures admitted <==> Admit(Config(), old(View()), now).Some?
      ensures View() == if admitted then Admit(Config(), old(View()), now).value else old(View())
    {
      admitted := true;
      if mode == Open {
        if now - lastFailureTime > recoveryTimeout {
          mode := HalfOpen;
        } else {
          admitted := false;
        }
      }
    }

    /** The second half: the wrapped function has ended. */
    method End(ending: Ending, now: Time)
      modifies this
      ensures ending.Returned? && old(mode) == HalfOpen ==> mode == Closed && failures == 0 && lastFailureTime == 0.0
      ensures ending.Raised? ==> failures == old(failures) + 1 && lastFailureTime == now
      ensures ending.Raised? ==>
                mode == if old(failures) + 1 >= failureThreshold || old(mode) == HalfOpen then Open else old(mode)
      ensures ending.Cancelled? || (ending.Returned? && old(mode) != HalfOpen) ==>
                mode == old(mode) && failures == old(failures) && lastFailureTime == old(lastFailureTime)
      ensures View() == match ending
                        case Returned => Succeeded(old(View()))
                        case Raised => Failed(Config(), old(View()), now)
                        case Cancelled => old(View())
    {
      match ending
      case Returned => if mode == HalfOpen { Reset(); }
      case Raised =>
        failures := failures + 1;
        lastFailureTime := now;
        if failures >= failureThreshold || mode == HalfOpen { mode := Open; }
      case Cancelled =>
    }

    method Reset()
      modifies this
      ensures failures == 0 && mode == Closed && lastFailureTime == 0.0 && View() == FRESH
    {
      failures, mode, lastFailureTime := 0, Closed, 0.0;
    }
  }

  // ---------- overlapping calls ----------

  type CallId = nat

  datatype State = State(breaker: Breaker, now: Time, running: set<CallId>)

  datatype Action =
    | Tick(to: Time)
    | Start(id: CallId)                    // admitted: the wrapped function starts
    | Reject(id: CallId)                   // CircuitBreakerOpenError
    | Finish(id: CallId, ending: Ending)

  function Init(start: Time): State {
    State(FRESH, start, {})
  }

  predicate Enabled(c: Settings, s: State, a: Action) {
    match a
    case Tick(to) => s.now <= to
    case Start(id) => id !in s.running && Admit(c, s.breaker, s.now).Some?
    case Reject(id) => id !in s.running && Admit(c, s.breaker, s.now).None?
    case Finish(id, _) => id in s.running
  }

  function Apply(c: Settings, s: State, a: Action): State
    requires Enabled(c, s, a)
  {
    match a
    case Tick(to) => s.(now := to)
    case Start(id) => s.(breaker := Admit(c, s.breaker, s.now).value, running := s.running + {id})
    case Reject(_) => s
    case Finish(id, ending) =>
      var s1 := s.(running := s.running - {id});
      match ending
      case Returned => s1.(breaker := Succeeded(s.breaker))
      case Raised => s1.(breaker := Failed(c, s.breaker, s.now))
      case Cancelled => s1
  }

  predicate Possible(c: Settings, s: State, run: seq<Action>)
    decreases |run|
  {
    run == [] || (Enabled(c, s, run[0]) && Possible(c, Apply(c, s, run[0]), run[1..]))
  }

  function Exec(c: Settings, s: State, run: seq<Action>): State
    requires Possible(c, s, run)
    decreases |run|
  {
    if run == [] then s else Exec(c, Apply(c, s, run[0]), run[1..])
  }

  ghost predicate Reachable(c: Settings, s: State) {
    exists start, run :: Possible(c, Init(start), run) && Exec(c, Init(start), run) == s
  }

  // ---------- the mode is determined by the counter ----------

  ghost predicate Determined(c: Settings, s: State) {
    s.breaker.mode != Closed <==> s.breaker.failures >= c.threshold
  }

  lemma {:induction false} DeterminedAlways(c: Settings, s: State, run: seq<Action>)
    requires c.threshold >= 1 && Determined(c, s) && Possible(c, s, run)
    ensures Determined(c, Exec(c, s, run))
    decreases |run|
  {
    if run != [] { DeterminedAlways(c, Apply(c, s, run[0]), run[1..]); }
  }

  ghost predicate CounterDecides(c: Settings) {
    forall s :: Reachable(c, s) ==> (s.breaker.mode != Closed <==> s.breaker.failures >= c.threshold)
  }

  /**
   The mode is a function of the counter in every reachable state exactly when the threshold is at
   least one, which a caller can check.
   */
  lemma ModeIsDetermined(c: Settings)
    ensures CounterDecides(c) <==> c.threshold >= 1
  {
    if c.threshold >= 1 {
      forall s | Reachable(c, s) ensures s.breaker.mode != Closed <==> s.breaker.failures >= c.threshold {
        var start, run :| Possible(c, Init(start), run) && Exec(c, Init(start), run) == s;
        DeterminedAlways(c, Init(start), run);
      }
    } else {
      assert Possible(c, Init(0.0), []) && Exec(c, Init(0.0), []) == Init(0.0);
      assert Reachable(c, Init(0.0));
    }
  }

  /** So the HALF_OPEN disjunct in the failure handler never changes its outcome. */
  lemma HalfOpenDisjunctIsIdle(c: Settings, s: State)
    requires c.threshold >= 1 && Reachable(c, s)
    ensures Failed(c, s.breaker, s.now).mode == if s.breaker.failures + 1 >= c.threshold then Open else s.breaker.mode
  {
    var start, run :| Possible(c, Init(start), run) && Exec(c, Init(start), run) == s;
    DeterminedAlways(c, Init(start), run);
  }

  // ---------- what the counter counts ----------

  /** A success in HALF_OPEN. */
  predicate Resets(s: State, a: Action) {
    a.Finish? && a.ending == Returned && s.breaker.mode == HalfOpen
  }

  predicate EverResets(c: Settings, s: State, run: seq<Action>)
    requires Possible(c, s, run)
    decreases |run|
  {
    run != [] && (Resets(s, run[0]) || EverResets(c, Apply(c, s, run[0]), run[1..]))
  }

  /** The part of the run after its last reset; all of it if there was none. */
  function SinceReset(c: Settings, s: State, run: seq<Action>): seq<Action>
    requires Possible(c, s, run)
    decreases |run|
  {
    if !EverResets(c, s, run) then run else SinceReset(c, Apply(c, s, run[0]), run[1..])
  }

  function FailuresIn(run: seq<Action>): nat {
    if run == [] then 0
    else (if run[0].Finish? && run[0].ending == Raised then 1 else 0) + FailuresIn(run[1..])
  }

  /** The counter is the number of calls that failed since the last reset, consecutive or not. */
  lemma {:induction false} CountsFailuresSinceReset(c: Settings, s: State, run: seq<Action>)
    requires Possible(c, s, run)
    ensures Exec(c, s, run).breaker.failures ==
            FailuresIn(SinceReset(c, s, run)) + (if EverResets(c, s, run) then 0 else s.breaker.failures)
    decreases |run|
  {
    if run != [] {
      CountsFailuresSinceReset(c, Apply(c, s, run[0]), run[1..]);
    }
  }

  /** So a breaker opens with the failure that makes `threshold` of them since its last reset. */
  lemma OpenMeansEnoughFailures(c: Settings, start: Time, run: seq<Action>)
    requires c.threshold >= 1 && Possible(c, Init(start), run)
    ensures Exec(c, Init(start), run).breaker.mode != Closed
            <==> FailuresIn(SinceReset(c, Init(start), run)) >= c.threshold
  {
    DeterminedAlways(c, Init(start), run);
    CountsFailuresSinceReset(c, Init(start), run);
  }

  // ---------- no start before the recovery time ----------

  /** No call starts at or before `deadline` any more: the breaker is open until then, or then is past. */
  ghost predicate Blocked(c: Settings, s: State, deadline: Time) {
    (s.breaker.mode == Open && s.breaker.lastFailure + c.recovery >= deadline && s.breaker.lastFailure <= s.now)
    || s.now > deadline
  }

  lemma BlockedStep(c: Settings, s: State, a: Action, deadline: Time)
    requires Blocked(c, s, deadline) && Enabled(c, s, a)
    ensures Blocked(c, Apply(c, s, a), deadline)
    ensures a.Start? ==> s.now > deadline
  {
  }

  /**
   Whole-run safety: once a failure at time t leaves the breaker open, no wrapped function starts until
   a time strictly after t plus the recovery timeout, whatever the calls in flight do meanwhile.
   */
  lemma {:induction false} NoStartBeforeRecovery(c: Settings, s: State, run: seq<Action>, deadline: Time, k: nat)
    requires Possible(c, s, run) && Blocked(c, s, deadline)
    requires k < |run| && run[k].Start?
    ensures Possible(c, s, run[..k]) && Exec(c, s, run[..k]).now > deadline
    decreases |run|
  {
    BlockedStep(c, s, run[0], deadline);
    if k > 0 {
      NoStartBeforeRecovery(c, Apply(c, s, run[0]), run[1..], deadline, k - 1);
      assert run[..k][0] == run[0] && run[..k][1..] == run[1..][..k - 1];
    } else {
      assert run[..0] == [];
    }
  }

  lemma OpenedByFailure(c: Settings, s: State, id: CallId)
    requires Enabled(c, s, Finish(id, Raised))
    requires Apply(c, s, Finish(id, Raised)).breaker.mode == Open
    ensures Blocked(c, Apply(c, s, Finish(id, Raised)), s.now + c.recovery)
  {
  }

  /** The two together: failure at time t, open, then any continuation. */
  lemma FailureBlocksStarts(c: Settings, s: State, id: CallId, run: seq<Action>, k: nat)
    requires Enabled(c, s, Finish(id, Raised))
    requires var s1 := Apply(c, s, Finish(id, Raised));
             s1.breaker.mode == Open && Possible(c, s1, run) && k < |run| && run[k].Start?
    ensures var s1 := Apply(c, s, Finish(id, Raised));
            Possible(c, s1, run[..k]) && Exec(c, s1, run[..k]).now > s.now + c.recovery
  {
    OpenedByFailure(c, s, id);
    NoStartBeforeRecovery(c, Apply(c, s, Finish(id, Raised)), run, s.now + c.recovery, k);
  }

  // ---------- starts again once the recovery time is over ----------

  /** When the last call of the run that failed did so. */
  function LastFailureAt(c: Settings, s: State, run: seq<Action>): Option<Time>
    requires Possible(c, s, run)
    decreases |run|
  {
    if run == [] then None
    else
      var later := LastFailureAt(c, Apply(c, s, run[0]), run[1..]);
      if later.Some? then later
      else if run[0].Finish? && run[0].ending == Raised then Some(s.now)
      else None
  }

  lemma {:induction false} LastFailureIsKept(c: Settings, s: State, run: seq<Action>)
    requires Possible(c, s, run) && Exec(c, s, run).breaker.mode != Closed
    ensures match LastFailureAt(c, s, run)
            case Some(t) => Exec(c, s, run).breaker.lastFailure == t
            case None => s.breaker.mode != Closed && Exec(c, s, run).breaker.lastFailure == s.breaker.lastFailure
    decreases |run|
  {
    if run != [] { LastFailureIsKept(c, Apply(c, s, run[0]), run[1..]); }
  }

  /**
   When calls start again, exactly: with the breaker open, a call starts if the recovery timeout is over
   since the run's last failure and is rejected if not; otherwise it starts at any time.
   */
  lemma RecoveryIsExact(c: Settings, start: Time, run: seq<Action>, id: CallId)
    requires Possible(c, Init(start), run) && id !in Exec(c, Init(start), run).running
    ensures var s := Exec(c, Init(start), run);
            if s.breaker.mode == Open then
              && LastFailureAt(c, Init(start), run).Some?
              && var t := LastFailureAt(c, Init(start), run).value;
              && (Enabled(c, s, Start(id)) <==> s.now > t + c.recovery)
              && (Enabled(c, s, Reject(id)) <==> s.now <= t + c.recovery)
              && (s.now > t + c.recovery ==> Apply(c, s, Start(id)).breaker.mode == HalfOpen)
            else
              && Enabled(c, s, Start(id)) && !Enabled(c, s, Reject(id))
              && Apply(c, s, Start(id)).breaker == s.breaker
  {
    if Exec(c, Init(start), run).breaker.mode == Open { LastFailureIsKept(c, Init(start), run); }
  }

  /** A success in HALF_OPEN closes the breaker, and no other success changes it; a cancellation never does. */
  lemma WhatEndingsDo(c: Settings, s: State, id: CallId)
    requires id in s.running
    ensures Apply(c, s, Finish(id, Returned)).breaker
         == if s.breaker.mode == HalfOpen then Breaker(0, 0.0, Closed) else s.breaker
    ensures Apply(c, s, Finish(id, Cancelled)).breaker == s.breaker
    ensures var b := Apply(c, s, Finish(id, Raised)).breaker;
            && b.failures == s.breaker.failures + 1 && b.lastFailure == s.now
            && b.mode == if s.breaker.failures + 1 >= c.threshold || s.breaker.mode == HalfOpen then Open else s.breaker.mode
  {
  }

  // ---------- where the documentation and the code part ----------

  /** Some run leads from s to s'. */
  ghost predicate LeadsTo(c: Settings, s: State, s': State) {
    exists run :: Possible(c, s, run) && Exec(c, s, run) == s'
  }

  lemma {:induction false} RunsCompose(c: Settings, s: State, r1: seq<Action>, r2: seq<Action>)
    requires Possible(c, s, r1) && Possible(c, Exec(c, s, r1), r2)
    ensures Possible(c, s, r1 + r2) && Exec(c, s, r1 + r2) == Exec(c, Exec(c, s, r1), r2)
    decreases |r1|
  {
    if r1 == [] {
      assert r1 + r2 == r2;
    } else {
      RunsCompose(c, Apply(c, s, r1[0]), r1[1..], r2);
      assert (r1 + r2)[0] == r1[0] && (r1 + r2)[1..] == r1[1..] + r2;
    }
  }

  lemma Stay(c: Settings, s: State)
    ensures LeadsTo(c, s, s)
  {
    assert Possible(c, s, []) && Exec(c, s, []) == s;
  }

  lemma On(c: Settings, s: State, s1: State, a: Action) returns (s2: State)
    requires LeadsTo(c, s, s1) && Enabled(c, s1, a)
    ensures s2 == Apply(c, s1, a) && LeadsTo(c, s, s2)
  {
    s2 := Apply(c, s1, a);
    var run :| Possible(c, s, run) && Exec(c, s, run) == s1;
    assert [a][1..] == [] && Possible(c, s2, []) && Exec(c, s2, []) == s2;
    assert Possible(c, s1, [a]) && Exec(c, s1, [a]) == s2;
    RunsCompose(c, s, run, [a]);
  }

  /** One call after the other fails; up to the threshold the breaker stays closed in between. */
  lemma {:induction false} FailTimes(c: Settings, now: Time, k: nat) returns (s: State)
    requires k <= if c.threshold >= 1 then c.threshold else 1
    ensures LeadsTo(c, Init(now), s) && s.now == now && s.running == {} && s.breaker.failures == k
    ensures k > 0 ==> s.breaker.lastFailure == now
    ensures s.breaker.mode == if k > 0 && k >= c.threshold then Open else Closed
  {
    if k == 0 {
      s := Init(now);
      Stay(c, s);
    } else {
      s := FailTimes(c, now, k - 1);
      s := On(c, Init(now), s, Start(0));
      s := On(c, Init(now), s, Finish(0, Raised));
    }
  }

  lemma {:induction false} StartTimes(c: Settings, s0: State, s: State, n: nat) returns (s': State)
    requires LeadsTo(c, s0, s) && s.breaker.mode == HalfOpen && s.running == {}
    ensures LeadsTo(c, s0, s') && s'.breaker.mode == HalfOpen && forall id: CallId :: id in s'.running <==> id < n
  {
    if n == 0 {
      s' := s;
    } else {
      s' := StartTimes(c, s0, s, n - 1);
      s' := On(c, s0, s', Start(n - 1));
    }
  }

  /**
   HALF_OPEN is not limited to one trial under any setting: whatever the threshold, the recovery time and
   n, some run has n calls under way at once while the breaker is half open.
   */
  lemma AnyNumberOfTrials(c: Settings, now: Time, n: nat) returns (s: State)
    ensures Reachable(c, s) && LeadsTo(c, Init(now), s)
    ensures s.breaker.mode == HalfOpen && forall id: CallId :: id in s.running <==> id < n
  {
    s := FailTimes(c, now, if c.threshold >= 1 then c.threshold else 1);
    s := On(c, Init(now), s, Tick(now + 1.0 + if c.recovery > 0.0 then c.recovery else 0.0));
    s := On(c, Init(now), s, Start(0));
    s := On(c, Init(now), s, Finish(0, Cancelled));
    s := StartTimes(c, Init(now), s, n);
    var run :| Possible(c, Init(now), run) && Exec(c, Init(now), run) == s;
  }

  /** How the calls of a run ended, in order. */
  function Endings(run: seq<Action>): seq<Ending> {
    if run == [] then [] else (if run[0].Finish? then [run[0].ending] else []) + Endings(run[1..])
  }

  function Round(rest: seq<Action>): seq<Action> {
    [Start(0)] + ([Finish(0, Raised)] + ([Start(0)] + ([Finish(0, Returned)] + rest)))
  }

  /** k failures, each followed by a success, and one more failure. */
  function Opening(k: nat): seq<Action> {
    if k == 0 then [Start(0)] + ([Finish(0, Raised)] + []) else Round(Opening(k - 1))
  }

  predicate TwoFailuresInARow(endings: seq<Ending>) {
    exists i :: 0 <= i < |endings| - 1 && endings[i] == Raised && endings[i + 1] == Raised
  }

  lemma First(c: Settings, s: State, a: Action, rest: seq<Action>)
    requires Enabled(c, s, a) && Possible(c, Apply(c, s, a), rest)
    ensures Possible(c, s, [a] + rest) && Exec(c, s, [a] + rest) == Exec(c, Apply(c, s, a), rest)
  {
    assert ([a] + rest)[1..] == rest;
  }

  lemma {:induction false} OpeningOpens(c: Settings, s: State, k: nat)
    requires s.breaker.mode == Closed && s.running == {} && 0 <= s.breaker.failures
    requires s.breaker.failures + k + 1 == c.threshold
    ensures Possible(c, s, Opening(k)) && Exec(c, s, Opening(k)).breaker.mode == Open
    decreases k
  {
    var s1 := Apply(c, s, Start(0));
    var s2 := Apply(c, s1, Finish(0, Raised));
    if k == 0 {
      First(c, s1, Finish(0, Raised), []);
      First(c, s, Start(0), [Finish(0, Raised)] + []);
    } else {
      var s3 := Apply(c, s2, Start(0));
      var s4 := Apply(c, s3, Finish(0, Returned));
      var r4 := Opening(k - 1);
      OpeningOpens(c, s4, k - 1);
      First(c, s3, Finish(0, Returned), r4);
      First(c, s2, Start(0), [Finish(0, Returned)] + r4);
      First(c, s1, Finish(0, Raised), [Start(0)] + ([Finish(0, Returned)] + r4));
      First(c, s, Start(0), [Finish(0, Raised)] + ([Start(0)] + ([Finish(0, Returned)] + r4)));
    }
  }

  lemma FirstEnding(a: Action, rest: seq<Action>)
    ensures Endings([a] + rest) == (if a.Finish? then [a.ending] else []) + Endings(rest)
  {
    assert ([a] + rest)[1..] == rest;
  }

  lemma {:induction false} OpeningAlternates(k: nat)
    ensures var e := Endings(Opening(k)); e != [] && e[0] == Raised && !TwoFailuresInARow(e)
  {
    if k == 0 {
      FirstEnding(Finish(0, Raised), []);
      FirstEnding(Start(0), [Finish(0, Raised)] + []);
    } else {
      OpeningAlternates(k - 1);
      var rest := Opening(k - 1);
      var e := Endings(rest);
      FirstEnding(Finish(0, Returned), rest);
      FirstEnding(Start(0), [Finish(0, Returned)] + rest);
      FirstEnding(Finish(0, Raised), [Start(0)] + ([Finish(0, Returned)] + rest));
      FirstEnding(Start(0), [Finish(0, Raised)] + ([Start(0)] + ([Finish(0, Returned)] + rest)));
      assert Endings(Opening(k)) == [Raised, Returned] + e;
      forall i | 0 <= i < |e| + 1 && ([Raised, Returned] + e)[i] == Raised
        ensures ([Raised, Returned] + e)[i + 1] != Raised
      {
        assert i > 1 ==> ([Raised, Returned] + e)[i] == e[i - 2];
      }
    }
  }

  /** Failures need not be consecutive under any threshold: a run opens the breaker without two in a row. */
  lemma OpensWithoutConsecutiveFailures(c: Settings, now: Time)
    requires c.threshold >= 1
    ensures var run := Opening(c.threshold - 1);
            && Possible(c, Init(now), run) && Exec(c, Init(now), run).breaker.mode == Open
            && !TwoFailuresInARow(Endings(run))
  {
    OpeningOpens(c, Init(now), c.threshold - 1);
    OpeningAlternates(c.threshold - 1);
  }
}
