/**
 The per-function throttle: a slot count and a queue of futures. Releasing hands the slot straight to
 the first waiter, whose future may by then be done, because its task timed out or was cancelled.
 */
module FunctionThrottle {
  import opened Workers

  type CallId = nat

  /** A throttle as its lock sections see it. */
  datatype Throttle = Throttle(limit: int, current: int, waiters: seq<CallId>)

  /** The section at the top of acquire: a free slot, or a place in the queue. */
  function Entered(h: Throttle, id: CallId): Throttle {
    if h.current < h.limit then h.(current := h.current + 1) else h.(waiters := h.waiters + [id])
  }

  /** release */
  function Released(h: Throttle): Throttle {
    if h.waiters != [] then h.(waiters := h.waiters[1..])
    else if h.current > 0 then h.(current := h.current - 1)
    else h
  }

  /** The clean-up of a waiter that gave up. */
  function Withdrawn(h: Throttle, id: CallId): Throttle {
    h.(waiters := Remove(h.waiters, id))
  }

  /** deque.remove: the first occurrence. */
  function Remove(q: seq<CallId>, id: CallId): seq<CallId> {
    if q == [] then [] else if q[0] == id then q[1..] else [q[0]] + Remove(q[1..], id)
  }

  datatype Outcome = Pending | Granted | Dropped

  /** An asyncio future nobody sets twice. */
  class Future {
    const id: CallId
    var outcome: Outcome

    constructor (id: CallId)
      ensures this.id == id && outcome == Pending
    {
      this.id := id;
      outcome := Pending;
    }
  }

  class FunctionThrottle {
    const limit: int
    var current: int
    var waiters: seq<Future>

    ghost function View(): Throttle
      reads this
    {
      Throttle(limit, current, seq(|waiters|, i requires 0 <= i < |waiters| reads this => waiters[i].id))
    }

    constructor (limit: int)
      ensures View() == Throttle(limit, 0, [])
    {
      this.limit := limit;
      current, waiters := 0, [];
    }

    /** acquire up to its first suspension: None when a slot was free. */
    method Enter(id: CallId) returns (waiter: Option<Future>)
      modifies this
      ensures View() == Entered(old(View()), id)
      ensures current == old(current) + if old(current) < limit then 1 else 0
      ensures waiter.None? <==> old(current) < limit
      ensures waiter.Some? ==> fresh(waiter.value) && waiter.value.id == id && waiter.value.outcome == Pending
      ensures waiters == if waiter.Some? then old(waiters) + [waiter.value] else old(waiters)
    {
      if current < limit {
        current := current + 1;
        return None;
      }
      var w := new Future(id);
      waiters := waiters + [w];
      waiter := Some(w);
    }

    /** The clean-up after a timeout or a cancellation. */
    method Withdraw(waiter: Future)
      requires forall i, j :: 0 <= i < |waiters| && 0 <= j < |waiters| && waiters[i].id == waiters[j].id ==> i == j
      requires forall w :: w in waiters && w.id == waiter.id ==> w == waiter
      modifies this
      ensures View() == Withdrawn(old(View()), waiter.id) && current == old(current)
      ensures waiter !in old(waiters) ==> waiters == old(waiters)
      ensures waiter in old(waiters) ==>
                exists i :: 0 <= i < |old(waiters)| && old(waiters)[i] == waiter
                            && waiters == old(waiters)[..i] + old(waiters)[i + 1..]
    {
      if waiter in waiters {
        var i := 0;
        while waiters[i] != waiter
          invariant 0 <= i < |waiters| && waiter in waiters[i..]
          decreases |waiters| - i
        {
          i := i + 1;
        }
        ghost var q := View().waiters;
        RemoveAt(q, i);
        waiters := waiters[..i] + waiters[i + 1..];
        assert View().waiters == q[..i] + q[i + 1..];
      } else {
        RemoveAbsent(View().waiters, waiter.id);
      }
    }

    /** release: a pending waiter gets the slot, a done one swallows it. */
    method Release()
      modifies this, if waiters != [] then {waiters[0]} else {}
      ensures View() == Released(old(View()))
      ensures old(waiters) != [] ==>
                && waiters == old(waiters)[1..]
                && old(waiters)[0].outcome
                   == (if old(waiters[0].outcome) == Pending then Granted else old(waiters[0].outcome))
      ensures old(waiters) == [] ==> waiters == []
      ensures current == if old(waiters) == [] && old(current) > 0 then old(current) - 1 else old(current)
    {
      if waiters != [] {
        var next := waiters[0];
        waiters := waiters[1..];
        if next.outcome == Pending { next.outcome := Granted; }
      } else {
        if current > 0 { current := current - 1; }
      }
    }
  }

  lemma {:induction false} RemoveAt(q: seq<CallId>, i: nat)
    requires i < |q| && forall j :: 0 <= j < i ==> q[j] != q[i]
    ensures Remove(q, q[i]) == q[..i] + q[i + 1..]
  {
    if i > 0 {
      RemoveAt(q[1..], i - 1);
      assert q[..i] == [q[0]] + q[1..][..i - 1];
    }
  }

  lemma {:induction false} RemoveAbsent(q: seq<CallId>, id: CallId)
    requires id !in q
    ensures Remove(q, id) == q
  {
    if q != [] { RemoveAbsent(q[1..], id); }
  }

  // ---------- overlapping calls ----------

  /** Where a call stands. Calls are numbered in the order they enter. */
  datatype Phase =
    | Queued       // waiting on its future
    | Resumable    // its future was granted, it has not run yet
    | Leaving      // timed out or cancelled, about to clean up
    | Holder

  /** `lost` and `grants` are history: slots nobody has any more, and who was handed a slot when. */
  datatype State = State(
    throttle: Throttle, next: CallId, calls: map<CallId, Phase>, lost: nat, grants: seq<CallId>)

  datatype Action =
    | Acquire
    | Resume(id: CallId)
    | GiveUp(id: CallId)         // timeout or cancellation while the future is pending
    | CancelGranted(id: CallId)  // timeout or cancellation after the grant, before the task ran
    | Withdraw(id: CallId)
    | Release(id: CallId)

  function Init(limit: int): State {
    State(Throttle(limit, 0, []), 0, map[], 0, [])
  }

  predicate Enabled(s: State, a: Action) {
    match a
    case Acquire => true
    case Resume(id) => id in s.calls && s.calls[id] == Resumable
    case GiveUp(id) => id in s.calls && s.calls[id] == Queued
    case CancelGranted(id) => id in s.calls && s.calls[id] == Resumable
    case Withdraw(id) => id in s.calls && s.calls[id] == Leaving
    case Release(id) => id in s.calls && s.calls[id] == Holder
  }

  function Apply(s: State, a: Action): State
    requires Enabled(s, a)
  {
    match a
    case Acquire =>
      s.(throttle := Entered(s.throttle, s.next), next := s.next + 1,
         calls := s.calls[s.next := if s.throttle.current < s.throttle.limit then Holder else Queued])
    case Resume(id) => s.(calls := s.calls[id := Holder])
    case GiveUp(id) => s.(calls := s.calls[id := Leaving])
    case CancelGranted(id) => s.(calls := s.calls[id := Leaving], lost := s.lost + 1)
    case Withdraw(id) => s.(throttle := Withdrawn(s.throttle, id), calls := s.calls - {id})
    case Release(id) => AfterRelease(s.(calls := s.calls - {id}))
  }

  /** The slot of a call already gone is handed on. */
  function AfterRelease(s: State): State {
    var s1 := s.(throttle := Released(s.throttle));
    if s.throttle.waiters == [] then s1
    else
      var w := s.throttle.waiters[0];
      if w in s.calls && s.calls[w] == Queued then
        s1.(calls := s.calls[w := Resumable], grants := s.grants + [w])
      else s1.(lost := s.lost + 1)
  }

  predicate Possible(s: State, run: seq<Action>)
    decreases |run|
  {
    run == [] || (Enabled(s, run[0]) && Possible(Apply(s, run[0]), run[1..]))
  }

  function Exec(s: State, run: seq<Action>): State
    requires Possible(s, run)
    decreases |run|
  {
    if run == [] then s else Exec(Apply(s, run[0]), run[1..])
  }

  ghost predicate Reachable(limit: int, s: State) {
    exists run :: Possible(Init(limit), run) && Exec(Init(limit), run) == s
  }

  // ---------- invariant ----------

  function In(calls: map<CallId, Phase>, p: Phase): set<CallId> {
    set id | id in calls && calls[id] == p
  }

  /** Every slot taken is with a holder, on its way to one, or lost. */
  ghost predicate Accounted(s: State) {
    s.throttle.current == |In(s.calls, Holder)| + |In(s.calls, Resumable)| + s.lost
  }

  ghost predicate Increasing(q: seq<CallId>) {
    forall i, j :: 0 <= i < j < |q| ==> q[i] < q[j]
  }

  /** The queue is in arrival order and holds every pending call, and else only calls about to leave. */
  ghost predicate QueueOk(q: seq<CallId>, calls: map<CallId, Phase>, next: CallId) {
    && Increasing(q)
    && (forall id :: id in calls ==> id < next)
    && (forall id :: id in q ==> id in calls && (calls[id] == Queued || calls[id] == Leaving))
    && (forall id :: id in calls && calls[id] == Queued ==> id in q)
  }

  ghost predicate QueueSound(s: State) {
    QueueOk(s.throttle.waiters, s.calls, s.next)
  }

  ghost predicate Full(s: State, limit: int) {
    && s.throttle.limit == limit
    && s.throttle.current <= Max(limit, 0)
    && (s.throttle.waiters != [] ==> s.throttle.current == Max(limit, 0))
  }

  /** Slots were handed out in arrival order, and everyone still queued came after. */
  ghost predicate Fifo(s: State) {
    && Increasing(s.grants)
    && (forall g :: g in s.grants ==> g < s.next)
    && (forall g, w :: g in s.grants && w in s.throttle.waiters ==> g < w)
  }

  ghost predicate Invariant(s: State, limit: int) {
    Accounted(s) && QueueSound(s) && Full(s, limit) && Fifo(s)
  }

  lemma InAfterSet(calls: map<CallId, Phase>, id: CallId, p: Phase, q: Phase)
    ensures |In(calls[id := p], q)| ==
            |In(calls, q)| - (if id in calls && calls[id] == q then 1 else 0) + (if p == q then 1 else 0)
  {
    GroupAfterSet(calls, id, p, q);
    Cardinalities(In(calls, q), id);
  }

  lemma GroupAfterSet(calls: map<CallId, Phase>, id: CallId, p: Phase, q: Phase)
    ensures In(calls[id := p], q) == if p == q then In(calls, q) + {id} else In(calls, q) - {id}
    ensures id in In(calls, q) <==> id in calls && calls[id] == q
  {
  }

  lemma InAfterEnd(calls: map<CallId, Phase>, id: CallId, q: Phase)
    ensures |In(calls - {id}, q)| == |In(calls, q)| - (if id in calls && calls[id] == q then 1 else 0)
  {
    assert In(calls - {id}, q) == In(calls, q) - {id};
    Cardinalities(In(calls, q), id);
  }

  lemma {:induction false} RemoveMembers(q: seq<CallId>, id: CallId, w: CallId)
    requires Increasing(q)
    ensures w in Remove(q, id) <==> w in q && w != id
  {
    if q != [] {
      assert forall x :: x in q[1..] ==> q[0] < x;
      RemoveMembers(q[1..], id, w);
      assert w in q <==> w == q[0] || w in q[1..];
    }
  }

  lemma {:induction false} RemoveKeepsOrder(q: seq<CallId>, id: CallId)
    requires Increasing(q)
    ensures Increasing(Remove(q, id))
  {
    if q != [] && q[0] != id {
      var rest := Remove(q[1..], id);
      RemoveKeepsOrder(q[1..], id);
      forall j | 0 <= j < |rest| ensures q[0] < rest[j] {
        RemoveMembers(q[1..], id, rest[j]);
      }
    }
  }

  lemma AccountedStep(s: State, a: Action, limit: int)
    requires Invariant(s, limit) && Enabled(s, a)
    ensures Accounted(Apply(s, a))
  {
    match a
    case Acquire =>
      var p := if s.throttle.current < s.throttle.limit then Holder else Queued;
      InAfterSet(s.calls, s.next, p, Holder);
      InAfterSet(s.calls, s.next, p, Resumable);
    case Resume(id) => InAfterSet(s.calls, id, Holder, Holder); InAfterSet(s.calls, id, Holder, Resumable);
    case GiveUp(id) => InAfterSet(s.calls, id, Leaving, Holder); InAfterSet(s.calls, id, Leaving, Resumable);
    case CancelGranted(id) => InAfterSet(s.calls, id, Leaving, Holder); InAfterSet(s.calls, id, Leaving, Resumable);
    case Withdraw(id) => InAfterEnd(s.calls, id, Holder); InAfterEnd(s.calls, id, Resumable);
    case Release(id) =>
      var rest := s.calls - {id};
      InAfterEnd(s.calls, id, Holder);
      InAfterEnd(s.calls, id, Resumable);
      assert id in In(s.calls, Holder);
      if s.throttle.waiters != [] {
        var w := s.throttle.waiters[0];
        InAfterSet(rest, w, Resumable, Holder);
        InAfterSet(rest, w, Resumable, Resumable);
      }
  }

  lemma PopKeepsOrder(q: seq<CallId>)
    requires Increasing(q) && q != []
    ensures Increasing(q[1..])
    ensures forall w :: w in q <==> w == q[0] || w in q[1..]
    ensures forall w :: w in q[1..] ==> q[0] < w
  {
  }

  lemma WithdrawKeepsQueue(s: State, id: CallId)
    requires QueueSound(s) && Fifo(s) && Enabled(s, Withdraw(id))
    ensures QueueSound(Apply(s, Withdraw(id))) && Fifo(Apply(s, Withdraw(id)))
  {
    RemoveKeepsOrder(s.throttle.waiters, id);
    forall w ensures w in Remove(s.throttle.waiters, id) <==> w in s.throttle.waiters && w != id {
      RemoveMembers(s.throttle.waiters, id, w);
    }
  }

  lemma PushKeepsOrder(q: seq<CallId>, id: CallId)
    requires Increasing(q) && forall w :: w in q ==> w < id
    ensures Increasing(q + [id])
    ensures forall w :: w in q + [id] <==> w in q || w == id
  {
    assert forall i :: 0 <= i < |q| ==> q[i] in q;
  }

  lemma AcquireKeepsQueue(s: State)
    requires QueueSound(s) && Fifo(s)
    ensures QueueSound(Apply(s, Acquire)) && Fifo(Apply(s, Acquire))
  {
    PushKeepsOrder(s.throttle.waiters, s.next);
  }

  lemma QueueWithoutHolder(q: seq<CallId>, calls: map<CallId, Phase>, next: CallId, id: CallId)
    requires QueueOk(q, calls, next) && id in calls && calls[id] == Holder
    ensures QueueOk(q, calls - {id}, next)
  {
  }

  lemma QueueServed(q: seq<CallId>, calls: map<CallId, Phase>, next: CallId)
    requires QueueOk(q, calls, next) && q != []
    ensures calls[q[0]] == Queued ==> QueueOk(q[1..], calls[q[0] := Resumable], next)
    ensures calls[q[0]] != Queued ==> QueueOk(q[1..], calls, next)
  {
  }

  lemma ReleaseKeepsQueue(s: State, id: CallId)
    requires QueueSound(s) && Enabled(s, Release(id))
    ensures QueueSound(Apply(s, Release(id)))
  {
    QueueWithoutHolder(s.throttle.waiters, s.calls, s.next, id);
    if s.throttle.waiters != [] { QueueServed(s.throttle.waiters, s.calls - {id}, s.next); }
  }

  lemma ReleaseKeepsFifo(s: State, id: CallId)
    requires QueueSound(s) && Fifo(s) && Enabled(s, Release(id))
    ensures Fifo(Apply(s, Release(id)))
  {
    if s.throttle.waiters != [] {
      PopKeepsOrder(s.throttle.waiters);
      assert s.throttle.waiters[0] in s.throttle.waiters;
      PushKeepsOrder(s.grants, s.throttle.waiters[0]);
    }
  }

  lemma QueueSoundStep(s: State, a: Action)
    requires QueueSound(s) && Fifo(s) && Enabled(s, a)
    ensures QueueSound(Apply(s, a)) && Fifo(Apply(s, a))
  {
    match a
    case Acquire => AcquireKeepsQueue(s);
    case Withdraw(id) => WithdrawKeepsQueue(s, id);
    case Release(id) => ReleaseKeepsQueue(s, id); ReleaseKeepsFifo(s, id);
    case _ =>
  }

  lemma FullStep(s: State, a: Action, limit: int)
    requires Invariant(s, limit) && Enabled(s, a)
    ensures Full(Apply(s, a), limit)
  {
  }

  lemma InvariantStep(s: State, a: Action, limit: int)
    requires Invariant(s, limit) && Enabled(s, a)
    ensures Invariant(Apply(s, a), limit)
  {
    AccountedStep(s, a, limit);
    QueueSoundStep(s, a);
    FullStep(s, a, limit);
  }

  lemma {:induction false} InvariantAlways(s: State, run: seq<Action>, limit: int)
    requires Invariant(s, limit) && Possible(s, run)
    ensures Invariant(Exec(s, run), limit)
    decreases |run|
  {
    if run != [] {
      InvariantStep(s, run[0], limit);
      InvariantAlways(Apply(s, run[0]), run[1..], limit);
    }
  }

  lemma ReachableInvariant(limit: int, s: State)
    requires Reachable(limit, s)
    ensures Invariant(s, limit)
  {
    var run :| Possible(Init(limit), run) && Exec(Init(limit), run) == s;
    InvariantAlways(Init(limit), run, limit);
  }

  // ---------- what the throttle promises ----------

  /** Slot accounting on every run, timeouts and cancellations included; hence holders stay within the limit. */
  lemma SlotsAreAccounted(limit: int, s: State)
    requires Reachable(limit, s)
    ensures s.throttle.current == |In(s.calls, Holder)| + |In(s.calls, Resumable)| + s.lost
    ensures |In(s.calls, Holder)| <= Max(limit, 0) - s.lost
    ensures In(s.calls, Holder) != {} ==> s.throttle.current > 0
  {
    ReachableInvariant(limit, s);
  }

  /** Nobody queues while a slot is free, so a newcomer that gets one at once overtakes no one. */
  lemma NoBarging(limit: int, s: State)
    requires Reachable(limit, s)
    ensures s.throttle.waiters != [] ==> s.throttle.current == Max(limit, 0)
    ensures Apply(s, Acquire).calls[s.next] == Holder ==> In(s.calls, Queued) == {}
  {
    ReachableInvariant(limit, s);
  }

  /** Slots are granted in arrival order: whoever arrived before a granted call and was not granted gave up. */
  lemma GrantsAreFifo(limit: int, s: State)
    requires Reachable(limit, s)
    ensures Increasing(s.grants)
    ensures forall g, id :: g in s.grants && id in s.calls && s.calls[id] == Queued ==> g < id
  {
    ReachableInvariant(limit, s);
  }

  /** The two events that lose a slot. */
  predicate Loses(s: State, a: Action)
    requires Enabled(s, a)
  {
    a.CancelGranted?
    || (a.Release? && s.throttle.waiters != []
        && !(s.throttle.waiters[0] in s.calls - {a.id} && s.calls[s.throttle.waiters[0]] == Queued))
  }

  function LossesOf(s: State, run: seq<Action>): nat
    requires Possible(s, run)
    decreases |run|
  {
    if run == [] then 0 else (if Loses(s, run[0]) then 1 else 0) + LossesOf(Apply(s, run[0]), run[1..])
  }

  /** Slots are lost exactly there, one at a time, and never come back. */
  lemma {:induction false} LossesAreCounted(s: State, run: seq<Action>)
    requires Possible(s, run)
    ensures Exec(s, run).lost == s.lost + LossesOf(s, run)
    decreases |run|
  {
    if run != [] { LossesAreCounted(Apply(s, run[0]), run[1..]); }
  }

  ghost predicate Patient(s: State) {
    s.lost == 0 && forall id :: id in s.calls ==> s.calls[id] != Leaving
  }

  lemma PatientStep(s: State, a: Action)
    requires QueueSound(s) && Patient(s) && Enabled(s, a) && !a.GiveUp? && !a.CancelGranted?
    ensures Patient(Apply(s, a))
  {
  }

  /** Without timeouts and cancellations nothing is lost and the count is exact. */
  lemma {:induction false} PatientRunsLoseNothing(s: State, run: seq<Action>, limit: int)
    requires Invariant(s, limit) && Patient(s) && Possible(s, run)
    requires forall i :: 0 <= i < |run| ==> !run[i].GiveUp? && !run[i].CancelGranted?
    ensures var s' := Exec(s, run);
            s'.lost == 0 && s'.throttle.current == |In(s'.calls, Holder)| + |In(s'.calls, Resumable)|
    decreases |run|
  {
    if run != [] {
      InvariantStep(s, run[0], limit);
      PatientStep(s, run[0]);
      PatientRunsLoseNothing(Apply(s, run[0]), run[1..], limit);
    }
  }

  /** Once every slot is lost no call ever holds one again. */
  lemma {:induction false} AllLostIsForever(s: State, run: seq<Action>, limit: int)
    requires Invariant(s, limit) && Possible(s, run) && s.lost >= Max(limit, 0)
    ensures In(Exec(s, run).calls, Holder) == {} && In(Exec(s, run).calls, Resumable) == {}
    decreases |run|
  {
    if run != [] {
      InvariantStep(s, run[0], limit);
      AllLostIsForever(Apply(s, run[0]), run[1..], limit);
    }
  }

  // ---------- whom the throttle can still serve ----------

  ghost predicate LeadsTo(s: State, s': State) {
    exists run :: Possible(s, run) && Exec(s, run) == s'
  }

  lemma Stay(s: State)
    ensures LeadsTo(s, s)
  {
    assert Possible(s, []) && Exec(s, []) == s;
  }

  lemma Onward(s: State, a: Action, s': State)
    requires Enabled(s, a) && LeadsTo(Apply(s, a), s')
    ensures LeadsTo(s, s')
  {
    var run :| Possible(Apply(s, a), run) && Exec(Apply(s, a), run) == s';
    assert ([a] + run)[1..] == run;
    assert Possible(s, [a] + run) && Exec(s, [a] + run) == s';
  }

  /** On some continuation the call holds a slot. */
  ghost predicate CanServe(s: State, id: CallId) {
    exists s' :: LeadsTo(s, s') && id in s'.calls && s'.calls[id] == Holder
  }

  lemma ServedLater(s: State, a: Action, id: CallId)
    requires Enabled(s, a) && CanServe(Apply(s, a), id)
    ensures CanServe(s, id)
  {
    var s' :| LeadsTo(Apply(s, a), s') && id in s'.calls && s'.calls[id] == Holder;
    Onward(s, a, s');
  }

  lemma ResumedServes(s: State, id: CallId)
    requires id in s.calls && s.calls[id] == Resumable
    ensures CanServe(s, id)
  {
    Stay(Apply(s, Resume(id)));
    ServedLater(s, Resume(id), id);
  }

  /** While a call queues, every slot that is not lost has a holder or a granted call. */
  lemma SomeoneHasASlot(s: State, limit: int)
    requires Invariant(s, limit) && s.lost < Max(limit, 0) && s.throttle.waiters != []
    ensures In(s.calls, Holder) != {} || In(s.calls, Resumable) != {}
  {
  }

  /**
   A queued call gets its turn: those ahead of it that gave up withdraw, and each release serves the
   first of the rest.
   */
  lemma {:induction false} QueuedIsServed(s: State, limit: int, id: CallId)
    requires Invariant(s, limit) && s.lost < Max(limit, 0) && id in s.calls && s.calls[id] == Queued
    ensures CanServe(s, id)
    decreases |s.throttle.waiters|, |In(s.calls, Resumable)|
  {
    var q := s.throttle.waiters;
    assert id in q;
    var first := q[0];
    assert first in q;
    if s.calls[first] == Leaving {
      var s1 := Apply(s, Withdraw(first));
      InvariantStep(s, Withdraw(first), limit);
      RemoveAt(q, 0);
      QueuedIsServed(s1, limit, id);
      ServedLater(s, Withdraw(first), id);
    } else if u :| u in In(s.calls, Holder) {
      var s1 := Apply(s, Release(u));
      InvariantStep(s, Release(u), limit);
      if first == id { ResumedServes(s1, id); } else { QueuedIsServed(s1, limit, id); }
      ServedLater(s, Release(u), id);
    } else {
      SomeoneHasASlot(s, limit);
      var u :| u in In(s.calls, Resumable);
      var s1 := Apply(s, Resume(u));
      InvariantStep(s, Resume(u), limit);
      InAfterSet(s.calls, u, Holder, Resumable);
      QueuedIsServed(s1, limit, id);
      ServedLater(s, Resume(u), id);
    }
  }

  lemma NewcomerIsServed(s: State, limit: int)
    requires Invariant(s, limit) && s.lost < Max(limit, 0)
    ensures CanServe(s, s.next)
  {
    var s1 := Apply(s, Acquire);
    InvariantStep(s, Acquire, limit);
    if s1.calls[s.next] == Holder { Stay(s1); } else { QueuedIsServed(s1, limit, s.next); }
    ServedLater(s, Acquire, s.next);
  }

  lemma NobodyIsServed(s: State, limit: int, id: CallId)
    requires Invariant(s, limit) && s.lost >= Max(limit, 0)
    ensures !CanServe(s, id)
  {
    forall s' | LeadsTo(s, s') ensures !(id in s'.calls && s'.calls[id] == Holder) {
      var run :| Possible(s, run) && Exec(s, run) == s';
      AllLostIsForever(s, run, limit);
      assert id in In(s'.calls, Holder) <==> id in s'.calls && s'.calls[id] == Holder;
    }
  }

  /** The throttle can still serve the next call, or any queued one, if and only if a slot is left. */
  lemma ServesIffASlotIsLeft(limit: int, s: State, id: CallId)
    requires Reachable(limit, s) && (id == s.next || (id in s.calls && s.calls[id] == Queued))
    ensures CanServe(s, id) <==> s.lost < Max(limit, 0)
  {
    ReachableInvariant(limit, s);
    if s.lost < Max(limit, 0) {
      if id == s.next { NewcomerIsServed(s, limit); } else { QueuedIsServed(s, limit, id); }
    } else {
      NobodyIsServed(s, limit, id);
    }
  }

  /** It takes one timeout: with limit one, a release between a waiter's timeout and its clean-up is the end. */
  lemma OneTimeoutCanBlockForever()
    ensures var run := [Acquire, Acquire, GiveUp(1), Release(0), Withdraw(1)];
            Possible(Init(1), run) && Exec(Init(1), run).lost == 1 && Exec(Init(1), run).calls == map[]
            && Exec(Init(1), run).throttle == Throttle(1, 1, [])
  {
  }
}
