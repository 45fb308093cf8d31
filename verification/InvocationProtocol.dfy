/**
 An invocation among all the others: its backend calls are steps of the pool protocol, and whatever the
 other tasks do between them, it can take each one in its turn and holds nothing when it is through.
 */
module InvocationProtocol {
  import opened Workers
  import opened PoolProtocol
  import opened PoolCapacity
  import opened PoolLimits
  import opened PoolSafety
  import I = LambdaInvoker
  import CB = CircuitBreaker

  // ---------- calls as protocol steps ----------

  /** The protocol steps of a call; a release that fails leaves the worker to nobody. */
  function StepsFor(call: I.BackendCall): seq<HolderStep> {
    match call
    case AcquireCall(_) => []
    case ReleaseCall(_, ok) => [if ok then Release else Leak]
    case EvictCall(_, ok) => [BeginDrop, if ok then FinishDrop else CancelDrop]
  }

  function StepsOf(calls: seq<I.BackendCall>): seq<HolderStep> {
    if calls == [] then [] else StepsFor(calls[0]) + StepsOf(calls[1..])
  }

  /** What the holder is doing after a step; nothing once the worker is out of its hands. */
  function After(use: Option<Use>, step: HolderStep): Option<Use> {
    match step
    case BeginDrop => Some(Dropping)
    case CancelDrop => Some(Working)
    case _ => None
  }

  function AfterAll(use: Option<Use>, steps: seq<HolderStep>): Option<Use>
    decreases |steps|
  {
    if steps == [] then use else AfterAll(After(use, steps[0]), steps[1..])
  }

  /** A step the holder can take where it stands. */
  predicate Takes(use: Option<Use>, step: HolderStep) {
    match step
    case BeginDrop => use == Some(Working)
    case Release => use == Some(Working)
    case Leak => use == Some(Working)
    case FinishDrop => use == Some(Dropping)
    case CancelDrop => use == Some(Dropping)
    case _ => false
  }

  predicate TakesAll(use: Option<Use>, steps: seq<HolderStep>)
    decreases |steps|
  {
    steps == [] || (Takes(use, steps[0]) && TakesAll(After(use, steps[0]), steps[1..]))
  }

  lemma Sequences(last: HolderStep)
    requires last == Release || last == Leak
    ensures TakesAll(Some(Working), [last]) && AfterAll(Some(Working), [last]) == None
    ensures TakesAll(Some(Working), [BeginDrop, FinishDrop]) && AfterAll(Some(Working), [BeginDrop, FinishDrop]) == None
    ensures var steps := [BeginDrop, CancelDrop, last];
            TakesAll(Some(Working), steps) && AfterAll(Some(Working), steps) == None
  {
    assert [BeginDrop, FinishDrop][1..] == [FinishDrop];
    assert [BeginDrop, CancelDrop, last][1..] == [CancelDrop, last] && [CancelDrop, last][1..] == [last];
  }

  /** The steps an invocation takes with its worker: release or evict it, or release it after failing to evict it. */
  lemma TraceIs(c: CB.Settings, b: CB.Breaker, w: I.World)
    requires I.Acquires(w)
    ensures var last := if w.releasing.Done? then Release else Leak;
            StepsOf(I.Trace(c, b, w)) ==
            if !I.FindsDead(c, b, w) then [last]
            else if w.evicting.Done? then [BeginDrop, FinishDrop]
            else [BeginDrop, CancelDrop, last]
  {
    var id := w.acquisition.worker.id;
    var calls, release := I.Trace(c, b, w), I.ReleaseCall(id, w.releasing.Done?);
    assert calls[0] == I.AcquireCall(Some(id)) && StepsOf(calls) == StepsOf(calls[1..]);
    assert StepsOf([release]) == StepsFor(release);
    if !I.FindsDead(c, b, w) {
      assert calls[1..] == [release];
    } else if w.evicting.Done? {
      assert calls[1..] == [I.EvictCall(id, true)];
    } else {
      assert calls[1..] == [I.EvictCall(id, false), release] && calls[1..][1..] == [release];
    }
  }

  /** Each step fits the last, and the worker is lost exactly if the invocation loses it. */
  lemma TraceSteps(c: CB.Settings, b: CB.Breaker, w: I.World)
    requires I.Acquires(w)
    ensures var steps := StepsOf(I.Trace(c, b, w));
            && TakesAll(Some(Working), steps) && AfterAll(Some(Working), steps) == None
            && (Leak in steps <==> I.EndOf(c, b, w) == I.Lost)
  {
    TraceIs(c, b, w);
    Sequences(if w.releasing.Done? then Release else Leak);
  }

  /** The step that completes a call does to the ledger what the call does to the pool. */
  lemma StepServesCall(c: Config, s: State, t: TaskId, id: WorkerId, call: I.BackendCall)
    requires t in s.tasks && s.tasks[t] == Having(id, if call.EvictCall? then Dropping else Working)
    requires call == I.ReleaseCall(id, true) || call == I.EvictCall(id, true)
             || call == I.ReleaseCall(id, false) || call == I.EvictCall(id, false)
    ensures var steps := StepsFor(call); var step := steps[|steps| - 1];
            HolderEnabled(s, s.tasks[t], step) && AfterHolder(c, s, t, step).ledger == I.Serve(s.ledger, call, s.now)
  {
  }

  // ---------- interleaved ----------

  /** An action of task t itself. */
  predicate By(t: TaskId, a: Action) {
    (a.Acquiring? || a.Holding? || a.Janitor?) && a.t == t
  }

  function ActionsBy(t: TaskId, run: seq<Action>): seq<Action> {
    if run == [] then []
    else (if By(t, run[0]) then [run[0]] else []) + ActionsBy(t, run[1..])
  }

  function AsActions(t: TaskId, steps: seq<HolderStep>): seq<Action> {
    seq(|steps|, i requires 0 <= i < |steps| => Holding(t, steps[i]))
  }

  ghost predicate Stands(s: State, t: TaskId, id: WorkerId, use: Option<Use>) {
    match use
    case None => t !in s.tasks
    case Some(u) => t in s.tasks && s.tasks[t] == Having(id, u)
  }

  /** Nobody else moves a holder, or makes a task that is over. */
  lemma OthersDoNotMoveIt(c: Config, s: State, a: Action, t: TaskId, id: WorkerId, use: Option<Use>)
    requires Enabled(s, a) && !By(t, a) && Stands(s, t, id, use)
    ensures Stands(Apply(c, s, a), t, id, use)
  {
  }

  lemma ItsStepMovesIt(c: Config, s: State, t: TaskId, id: WorkerId, use: Option<Use>, step: HolderStep)
    requires Reachable(c, s) && !s.past.drained && Stands(s, t, id, use) && Takes(use, step)
    ensures Enabled(s, Holding(t, step)) && Stands(Apply(c, s, Holding(t, step)), t, id, After(use, step))
  {
    ReleaseNeverWaits(c, s, t);
  }

  /** Wherever the holder's own steps have got to, that is where it stands. */
  lemma {:induction false} HolderStands(c: Config, s: State, t: TaskId, id: WorkerId, use: Option<Use>,
                                        run: seq<Action>, steps: seq<HolderStep>)
    requires Reachable(c, s) && Possible(c, s, run) && !Exec(c, s, run).past.drained
    requires Stands(s, t, id, use) && ActionsBy(t, run) == AsActions(t, steps) && TakesAll(use, steps)
    ensures Stands(Exec(c, s, run), t, id, AfterAll(use, steps))
    decreases |run|
  {
    if run != [] {
      var s1 := Apply(c, s, run[0]);
      LossesStay(c, s1, run[1..]);
      FlagsOnlyRise(c, s, run[0]);
      ReachableStep(c, s, run[0]);
      if By(t, run[0]) {
        assert ActionsBy(t, run)[0] == run[0] && ActionsBy(t, run)[1..] == ActionsBy(t, run[1..]);
        assert AsActions(t, steps)[1..] == AsActions(t, steps[1..]);
        ItsStepMovesIt(c, s, t, id, use, steps[0]);
        HolderStands(c, s1, t, id, After(use, steps[0]), run[1..], steps[1..]);
      } else {
        assert ActionsBy(t, run) == ActionsBy(t, run[1..]);
        OthersDoNotMoveIt(c, s, run[0], t, id, use);
        HolderStands(c, s1, t, id, use, run[1..], steps);
      }
    } else {
      assert steps == [];
    }
  }

  lemma {:induction false} TakesFirst(use: Option<Use>, steps: seq<HolderStep>, k: nat)
    requires TakesAll(use, steps) && k <= |steps|
    ensures TakesAll(use, steps[..k])
    ensures k < |steps| ==> Takes(AfterAll(use, steps[..k]), steps[k])
    ensures k == |steps| ==> AfterAll(use, steps[..k]) == AfterAll(use, steps)
    decreases k
  {
    if k > 0 {
      TakesFirst(After(use, steps[0]), steps[1..], k - 1);
      assert steps[..k][0] == steps[0] && steps[..k][1..] == steps[1..][..k - 1];
    }
    if k == |steps| { assert steps[..k] == steps; }
  }

  /**
   Linear use under every interleaving. An invocation in possession of its worker has taken the first k
   steps of its give-back, others have done what they liked in between: it can take the next one at once,
   and after the last it is over and holds nothing.
   */
  lemma InvocationIsLinear(c: Config, s: State, t: TaskId, run: seq<Action>, k: nat,
                           settings: CB.Settings, b: CB.Breaker, w: I.World)
    requires Reachable(c, s) && I.Acquires(w) && Stands(s, t, w.acquisition.worker.id, Some(Working))
    requires Possible(c, s, run) && !Exec(c, s, run).past.drained
    requires k <= |StepsOf(I.Trace(settings, b, w))|
    requires ActionsBy(t, run) == AsActions(t, StepsOf(I.Trace(settings, b, w))[..k])
    ensures var steps := StepsOf(I.Trace(settings, b, w)); var s' := Exec(c, s, run);
            && (k < |steps| ==> Enabled(s', Holding(t, steps[k])))
            && (k < |steps| ==> t in s'.tasks && s'.tasks[t].Holds(w.acquisition.worker.id))
            && (k == |steps| ==> t !in s'.tasks)
  {
    var steps, id := StepsOf(I.Trace(settings, b, w)), w.acquisition.worker.id;
    TraceSteps(settings, b, w);
    TakesFirst(Some(Working), steps, k);
    HolderStands(c, s, t, id, Some(Working), run, steps[..k]);
    if k < |steps| {
      ReachableAfter(c, s, run);
      ItsStepMovesIt(c, Exec(c, s, run), t, id, AfterAll(Some(Working), steps[..k]), steps[k]);
    }
  }
}
