/**
 One invocation: take a worker from the backend, post to it through the function's circuit breaker,
 give the worker back. Python's exceptions are values here; `raised` is the exception in flight.
 */
module LambdaInvoker {
  import opened Workers
  import opened CircuitBreaker
  import L = Ledger

  // ---------- what the outside world answers ----------

  datatype Json = Malformed | Dict(keys: set<string>) | NoDict

  datatype Reply =
    | Response(status: int, functionError: string, size: nat, body: Json)
    | Broken(exn: Exn)                     // what the POST raises

  datatype Exn =
    | ConnectError
    | RequestError                         // any other transport error
    | HTTPStatusError
    | CircuitBreakerOpenError
    | ContainerStartError
    | LambdaExecutionError(functionName: string)
    | CancelledError                       // no Exception: the handlers for those let it pass
    | OtherError

  datatype Acquisition = Got(worker: WorkerInfo) | NotGot(exn: Exn)

  /** How a call that gives a worker back ends. */
  datatype Fate = Done | Raises(exn: Exn)

  /** `meanwhile` is what overlapping calls make of the function's breaker while the POST is under way. */
  datatype World = World(
    registered: bool, acquisition: Acquisition, reply: Reply, evicting: Fate, releasing: Fate,
    postedAt: Time, meanwhile: Breaker -> Breaker, answeredAt: Time)

  datatype Outcome = Returned(reply: Reply) | Raised(exn: Exn)

  /** The backend calls of an invocation, in order. */
  datatype BackendCall =
    | AcquireCall(got: Option<WorkerId>)
    | ReleaseCall(released: WorkerId, ok: bool)
    | EvictCall(evicted: WorkerId, ok: bool)

  class Backend {
    var log: seq<BackendCall>

    constructor ()
      ensures log == []
    {
      log := [];
    }

    method Note(call: BackendCall)
      modifies this
      ensures log == old(log) + [call]
    {
      log := log + [call];
    }
  }

  // ---------- the reply ----------

  const SMALL_BODY := 10240

  /** A reply that is raised as an HTTPStatusError. */
  predicate IsFailure(r: Reply)
    requires r.Response?
  {
    || r.status >= 500
    || r.functionError != ""
    || (r.status == 200 && r.size < SMALL_BODY && r.body.Dict?
        && ("errorType" in r.body.keys || "errorMessage" in r.body.keys))
  }

  /** The wrapped POST: the response it returns or the exception it raises. */
  method DoPost(reply: Reply) returns (outcome: Outcome)
    ensures reply.Broken? ==> outcome == Outcome.Raised(reply.exn)
    ensures reply.Response? ==>
              outcome ==
              if reply.status >= 500 || reply.functionError != ""
                 || (reply.status == 200 && reply.size < 10240 && reply.body.Dict?
                     && ("errorType" in reply.body.keys || "errorMessage" in reply.body.keys))
              then Outcome.Raised(HTTPStatusError) else Outcome.Returned(reply)
    ensures outcome == PostOutcome(reply)
  {
    match reply
    case Broken(exn) => return Outcome.Raised(exn);
    case Response(status, functionError, size, body) =>
      var isFailure := false;
      if status >= 500 {
        isFailure := true;
      } else if functionError != "" {
        isFailure := true;
      } else if status == 200 {
        if size < SMALL_BODY {
          if body.Dict? && ("errorType" in body.keys || "errorMessage" in body.keys) { isFailure := true; }
        }
      }
      if isFailure { return Outcome.Raised(HTTPStatusError); }
      return Outcome.Returned(reply);
  }

  function PostOutcome(reply: Reply): Outcome {
    match reply
    case Broken(exn) => Outcome.Raised(exn)
    case Response(_, _, _, _) => if IsFailure(reply) then Outcome.Raised(HTTPStatusError) else Outcome.Returned(reply)
  }

  function EndingOf(o: Outcome): Ending {
    match o
    case Returned(_) => Ending.Returned
    case Raised(e) => if e == CancelledError then Ending.Cancelled else Ending.Raised
  }

  // ---------- the invoker ----------

  class LambdaInvoker {
    const settings: Settings
    const backend: Backend
    var breakers: map<string, CircuitBreaker>

    /** One breaker per function, all set up alike. */
    ghost predicate Valid()
      reads this, breakers.Values
    {
      && (forall f :: f in breakers ==> breakers[f].Config() == settings)
      && (forall f, g :: f in breakers && g in breakers && f != g ==> breakers[f] != breakers[g])
    }

    /** The breaker of a function; one not made yet is as good as new. */
    ghost function BreakerOf(f: string): Breaker
      reads this, breakers.Values
    {
      if f in breakers then breakers[f].View() else FRESH
    }

    constructor (settings: Settings, backend: Backend)
      ensures Valid() && this.settings == settings && this.backend == backend && breakers == map[]
    {
      this.settings := settings;
      this.backend := backend;
      breakers := map[];
    }

    method GetBreaker(f: string) returns (b: CircuitBreaker)
      requires Valid()
      modifies this`breakers
      ensures Valid() && f in breakers && b == breakers[f]
      ensures f in old(breakers) ==> breakers == old(breakers)
      ensures f !in old(breakers) ==> fresh(b) && breakers == old(breakers)[f := b] && b.View() == FRESH
    {
      if f !in breakers {
        var made := new CircuitBreaker(settings.threshold, settings.recovery);
        breakers := breakers[f := made];
      }
      return breakers[f];
    }

    /** CircuitBreaker.call around the POST. */
    method CallThrough(b: CircuitBreaker, w: World) returns (outcome: Outcome)
      modifies b
      ensures b.View() == Through(b.Config(), old(b.View()), w).0
      ensures outcome == Through(b.Config(), old(b.View()), w).1
    {
      var admitted := b.Begin(w.postedAt);
      if !admitted { return Outcome.Raised(CircuitBreakerOpenError); }
      outcome := DoPost(w.reply);
      var seen := w.meanwhile(Breaker(b.failures, b.lastFailureTime, b.mode));
      b.failures, b.lastFailureTime, b.mode := seen.failures, seen.lastFailure, seen.mode;
      b.End(EndingOf(outcome), w.answeredAt);
    }

    /** The try block: acquire, then post. A worker that came with it is the caller's to give back. */
    method Attempt(breaker: CircuitBreaker, w: World) returns (worker: Option<WorkerInfo>, outcome: Outcome)
      requires breaker.Config() == settings
      modifies backend, breaker
      ensures breaker.View() == BreakerAfter(settings, old(breaker.View()), w.(registered := true))
      ensures w.acquisition.Got? ==>
                && worker == Some(w.acquisition.worker)
                && outcome == Through(settings, old(breaker.View()), w).1
                && backend.log == old(backend.log) + [AcquireCall(Some(w.acquisition.worker.id))]
      ensures w.acquisition.NotGot? ==>
                && worker == None && backend.log == old(backend.log) + [AcquireCall(None)]
                && outcome == Outcome.Raised(if w.acquisition.exn == CancelledError then CancelledError else ContainerStartError)
    {
      worker := None;
      match w.acquisition
      case Got(got) =>
        backend.Note(AcquireCall(Some(got.id)));
        worker := Some(got);
        outcome := CallThrough(breaker, w);
      case NotGot(exn) =>
        backend.Note(AcquireCall(None));
        outcome := Outcome.Raised(if exn == CancelledError then exn else ContainerStartError);
    }

    /** The except clauses; a worker found dead is evicted and no longer the caller's. */
    method Handle(f: string, exn: Exn, worker: Option<WorkerInfo>, evicting: Fate)
        returns (left: Option<WorkerInfo>, raised: Exn)
      modifies backend
      ensures exn == ConnectError && worker.Some? ==>
                && backend.log == old(backend.log) + [EvictCall(worker.value.id, evicting.Done?)]
                && left == (if evicting.Done? then None else worker)
                && raised == (if evicting.Done? then LambdaExecutionError(f) else evicting.exn)
      ensures !(exn == ConnectError && worker.Some?) ==>
                && backend.log == old(backend.log) && left == worker
                && raised == (if exn == CancelledError then exn else LambdaExecutionError(f))
    {
      left, raised := worker, exn;
      match exn
      case CancelledError =>
      case ConnectError =>
        raised := LambdaExecutionError(f);
        if worker.Some? {
          backend.Note(EvictCall(worker.value.id, evicting.Done?));
          if evicting.Done? { left := None; } else { raised := evicting.exn; }
        }
      case _ => raised := LambdaExecutionError(f);
    }

    /** The finally clause: whoever still has a worker releases it; only a cancellation gets out of it. */
    method GiveBack(worker: Option<WorkerInfo>, outcome: Outcome, releasing: Fate) returns (answer: Outcome)
      modifies backend
      ensures worker.None? ==> backend.log == old(backend.log) && answer == outcome
      ensures worker.Some? ==> backend.log == old(backend.log) + [ReleaseCall(worker.value.id, releasing.Done?)]
      ensures worker.Some? ==> answer == if releasing == Raises(CancelledError) then Outcome.Raised(CancelledError) else outcome
    {
      answer := outcome;
      if worker.Some? {
        backend.Note(ReleaseCall(worker.value.id, releasing.Done?));
        if releasing == Raises(CancelledError) { answer := Outcome.Raised(CancelledError); }
      }
    }

    /** The whole try statement, once the function's breaker is at hand. */
    method Invoke(f: string, breaker: CircuitBreaker, w: World) returns (outcome: Outcome)
      requires breaker.Config() == settings && w.registered
      modifies backend, breaker
      ensures breaker.View() == BreakerAfter(settings, old(breaker.View()), w)
      ensures backend.log == old(backend.log) + Trace(settings, old(breaker.View()), w)
      ensures outcome == Answer(settings, old(breaker.View()), f, w)
    {
      ghost var b := breaker.View();
      var worker: Option<WorkerInfo>;
      worker, outcome := Attempt(breaker, w);
      AttemptFacts(settings, b, w);
      if outcome.Raised? {
        var raised: Exn;
        worker, raised := Handle(f, outcome.exn, worker, w.evicting);
        outcome := Outcome.Raised(raised);
      }
      outcome := GiveBack(worker, outcome, w.releasing);
    }

    method InvokeFunction(f: string, w: World) returns (outcome: Outcome)
      requires Valid()
      modifies this`breakers, backend, breakers.Values
      ensures Valid() && breakers.Keys == old(breakers.Keys) + (if w.registered then {f} else {})
      ensures BreakerOf(f) == BreakerAfter(settings, old(BreakerOf(f)), w)
      ensures forall g :: g in old(breakers) && g != f ==> BreakerOf(g) == old(BreakerOf(g))
      ensures backend.log == old(backend.log) + Trace(settings, old(BreakerOf(f)), w)
      ensures outcome == Answer(settings, old(BreakerOf(f)), f, w)
      ensures outcome == Outcome.Returned(w.reply) <==>
                && w.registered && w.acquisition.Got?
                && (old(BreakerOf(f)).mode != Open || w.postedAt - old(BreakerOf(f)).lastFailure > settings.recovery)
                && PassedOn(w.reply) && w.releasing != Raises(CancelledError)
    {
      ResponseIsReturnedIff(settings, BreakerOf(f), f, w, w.reply);
      if !w.registered { return Outcome.Raised(LambdaExecutionError(f)); }
      var breaker := GetBreaker(f);
      outcome := Invoke(f, breaker, w);
    }
  }

  /** A ConnectError comes only from the POST of an admitted call. */
  lemma AttemptFacts(c: Settings, b: Breaker, w: World)
    requires w.registered
    ensures FindsDead(c, b, w) <==> w.acquisition.Got? && Through(c, b, w).1 == Outcome.Raised(ConnectError)
  {
  }

  // ---------- what an invocation comes to ----------

  /** The breaker after a call through it, and how the call ends. */
  function Through(c: Settings, b: Breaker, w: World): (Breaker, Outcome) {
    match Admit(c, b, w.postedAt)
    case None => (b, Outcome.Raised(CircuitBreakerOpenError))
    case Some(open) =>
      var o := PostOutcome(w.reply);
      (match EndingOf(o)
       case Returned => Succeeded(w.meanwhile(open))
       case Raised => Failed(c, w.meanwhile(open), w.answeredAt)
       case Cancelled => w.meanwhile(open), o)
  }

  predicate Acquires(w: World) {
    w.registered && w.acquisition.Got?
  }

  /** The invocation finds its worker dead. */
  predicate FindsDead(c: Settings, b: Breaker, w: World) {
    Acquires(w) && Admit(c, b, w.postedAt).Some? && w.reply == Broken(ConnectError)
  }

  function BreakerAfter(c: Settings, b: Breaker, w: World): Breaker {
    if Acquires(w) then Through(c, b, w).0 else b
  }

  /** Evict a dead worker; release every other, and a dead one that could not be evicted. */
  function Trace(c: Settings, b: Breaker, w: World): seq<BackendCall> {
    if !w.registered then []
    else if w.acquisition.NotGot? then [AcquireCall(None)]
    else
      var id := w.acquisition.worker.id;
      [AcquireCall(Some(id))]
      + (if FindsDead(c, b, w) then [EvictCall(id, w.evicting.Done?)] else [])
      + (if FindsDead(c, b, w) && w.evicting.Done? then [] else [ReleaseCall(id, w.releasing.Done?)])
  }

  function Answer(c: Settings, b: Breaker, f: string, w: World): Outcome {
    if !w.registered then Outcome.Raised(LambdaExecutionError(f))
    else if w.acquisition.NotGot? then
      Outcome.Raised(if w.acquisition.exn == CancelledError then CancelledError else LambdaExecutionError(f))
    else
      var gaveBack := FindsDead(c, b, w) && w.evicting.Done?;
      if !gaveBack && w.releasing == Raises(CancelledError) then Outcome.Raised(CancelledError)
      else if FindsDead(c, b, w) && !gaveBack then Outcome.Raised(w.evicting.exn)
      else match Through(c, b, w).1
           case Returned(r) => Outcome.Returned(r)
           case Raised(e) => Outcome.Raised(if e == CancelledError then e else LambdaExecutionError(f))
  }

  // ---------- workers are used linearly ----------

  function GivesBack(call: BackendCall, id: WorkerId): nat {
    match call
    case AcquireCall(_) => 0
    case ReleaseCall(r, _) => if r == id then 1 else 0
    case EvictCall(e, _) => if e == id then 1 else 0
  }

  function GiveBacks(log: seq<BackendCall>, id: WorkerId): nat {
    if log == [] then 0 else GivesBack(log[0], id) + GiveBacks(log[1..], id)
  }

  lemma {:induction false} GiveBacksAppend(log: seq<BackendCall>, more: seq<BackendCall>, id: WorkerId)
    ensures GiveBacks(log + more, id) == GiveBacks(log, id) + GiveBacks(more, id)
  {
    if log == [] {
      assert log + more == more;
    } else {
      assert (log + more)[1..] == log[1..] + more;
      GiveBacksAppend(log[1..], more, id);
    }
  }

  /**
   An acquired worker is given back exactly once, evicted or released and never both, if and only if it
   was not found dead or its eviction goes through. A failed eviction is followed by a release. Without
   an acquisition nothing is given back.
   */
  lemma GivenBackExactlyOnce(c: Settings, b: Breaker, w: World, id: WorkerId)
    ensures Acquires(w) && id == w.acquisition.worker.id ==>
              (GiveBacks(Trace(c, b, w), id) == 1 <==> !FindsDead(c, b, w) || w.evicting.Done?)
    ensures Acquires(w) && id == w.acquisition.worker.id ==> 1 <= GiveBacks(Trace(c, b, w), id) <= 2
    ensures !(Acquires(w) && id == w.acquisition.worker.id) ==> GiveBacks(Trace(c, b, w), id) == 0
  {
    if Acquires(w) {
      var got := w.acquisition.worker.id;
      var evict := if FindsDead(c, b, w) then [EvictCall(got, w.evicting.Done?)] else [];
      var release := if FindsDead(c, b, w) && w.evicting.Done? then [] else [ReleaseCall(got, w.releasing.Done?)];
      assert Trace(c, b, w) == [AcquireCall(Some(got))] + evict + release;
      GiveBacksAppend([AcquireCall(Some(got))] + evict, release, id);
      GiveBacksAppend([AcquireCall(Some(got))], evict, id);
    }
  }

  // ---------- composed with the pool ----------

  /** Workers in callers' hands. */
  function Held(l: L.Ledger): set<WorkerId> {
    l.all - L.Ids(l.idle)
  }

  ghost predicate Sound(l: L.Ledger) {
    L.DistinctIds(l.idle) && L.Ids(l.idle) <= l.all
  }

  /** The pool's answer to acquire: its first idle worker, or a new one if it has none and has room. */
  predicate HandsOver(l: L.Ledger, id: WorkerId) {
    match L.Decide(l, 0.0, 0.0)
    case Hand(e) => e.id == id
    case Reserve => id !in l.all
    case _ => false
  }

  /** What a backend call does to the pool; one that fails changes nothing. */
  function Serve(l: L.Ledger, call: BackendCall, now: Time): L.Ledger {
    match call
    case AcquireCall(None) => l
    case AcquireCall(Some(id)) =>
      var turn := L.Decide(l, 0.0, 0.0);
      if turn.Hand? then L.AfterTurn(l, turn) else L.Registered(L.AfterTurn(l, turn), id)
    case ReleaseCall(id, ok) => if ok then L.Released(l, id, now) else l
    case EvictCall(id, ok) => if ok then L.Evicted(l, id) else l
  }

  function ServeAll(l: L.Ledger, calls: seq<BackendCall>, now: Time): L.Ledger
    decreases |calls|
  {
    if calls == [] then l else ServeAll(Serve(l, calls[0], now), calls[1..], now)
  }

  /** What becomes of the worker an invocation acquired. */
  datatype End = Back | Gone | Lost

  function EndOf(c: Settings, b: Breaker, w: World): End {
    if FindsDead(c, b, w) && w.evicting.Done? then Gone else if w.releasing.Done? then Back else Lost
  }

  function AfterEnd(l: L.Ledger, id: WorkerId, end: End, now: Time): L.Ledger {
    match end
    case Back => L.Released(l, id, now)
    case Gone => L.Evicted(l, id)
    case Lost => l
  }

  function LostBy(c: Settings, b: Breaker, w: World): set<WorkerId> {
    if Acquires(w) && EndOf(c, b, w) == Lost then {w.acquisition.worker.id} else {}
  }

  lemma AcquireTakesOne(l: L.Ledger, id: WorkerId, now: Time)
    requires Sound(l) && HandsOver(l, id)
    ensures var l1 := Serve(l, AcquireCall(Some(id)), now);
            Sound(l1) && id in l1.all && id !in L.Ids(l1.idle) && Held(l1) == Held(l) + {id} && id !in Held(l)
  {
    if l.idle != [] { L.IdsOfHead(l.idle); }
  }

  lemma GivingBackReturnsOne(l: L.Ledger, id: WorkerId, end: End, now: Time)
    requires Sound(l) && id in l.all && id !in L.Ids(l.idle)
    ensures var l' := AfterEnd(l, id, end, now);
            && Sound(l') && Held(l') == (if end == Lost then Held(l) else Held(l) - {id})
            && (end == Gone ==> id !in l'.all)
            && (end == Back ==> l'.idle == l.idle + [Entry(id, now)] && l'.all == l.all)
  {
    L.Enqueue(l.idle, Entry(id, now));
    L.WithoutAbsent(l.idle, id);
  }

  /** How the pool looks after a worker was taken out of it and came to this end. */
  ghost predicate Settled(l: L.Ledger, l': L.Ledger, id: WorkerId, end: End, now: Time) {
    && Sound(l') && id !in Held(l) && Held(l') == (if end == Lost then Held(l) + {id} else Held(l))
    && (end == Gone ==> id !in l'.all)
    && (end == Back ==> l'.idle != [] && l'.idle[|l'.idle| - 1] == Entry(id, now))
  }

  /** Out of the pool and back, on the pool alone. */
  lemma BorrowAndReturn(l: L.Ledger, id: WorkerId, end: End, now: Time)
    requires Sound(l) && HandsOver(l, id)
    ensures Settled(l, AfterEnd(Serve(l, AcquireCall(Some(id)), now), id, end, now), id, end, now)
  {
    AcquireTakesOne(l, id, now);
    GivingBackReturnsOne(Serve(l, AcquireCall(Some(id)), now), id, end, now);
  }

  lemma ServeOne(l: L.Ledger, call: BackendCall, now: Time)
    ensures ServeAll(l, [call], now) == Serve(l, call, now)
  {
  }

  /** The calls of an invocation, run on the pool one after the other. */
  lemma TraceOnPool(c: Settings, b: Breaker, w: World, l: L.Ledger, now: Time)
    ensures !Acquires(w) ==> ServeAll(l, Trace(c, b, w), now) == l
    ensures Acquires(w) ==>
              var id := w.acquisition.worker.id;
              ServeAll(l, Trace(c, b, w), now) == AfterEnd(Serve(l, AcquireCall(Some(id)), now), id, EndOf(c, b, w), now)
  {
    var calls := Trace(c, b, w);
    if Acquires(w) {
      var id := w.acquisition.worker.id;
      var l1 := Serve(l, AcquireCall(Some(id)), now);
      assert calls[0] == AcquireCall(Some(id));
      var release := ReleaseCall(id, w.releasing.Done?);
      ServeOne(l1, release, now);
      ServeOne(l1, EvictCall(id, true), now);
      if FindsDead(c, b, w) && w.evicting.Raises? {
        assert calls[1..] == [EvictCall(id, false), release];
        assert calls[1..][1..] == [release];
        assert ServeAll(l1, calls[1..], now) == ServeAll(l1, calls[1..][1..], now);
      } else if FindsDead(c, b, w) {
        assert calls[1..] == [EvictCall(id, true)];
      } else {
        assert calls[1..] == [release];
      }
      assert ServeAll(l, calls, now) == ServeAll(l1, calls[1..], now);
    } else {
      assert calls == [] || calls == [AcquireCall(None)];
    }
  }

  /**
   One invocation on any pool: the callers hold afterwards exactly what they held before, unless the
   worker is lost to a release that fails. A dead worker is gone, any other is back at the end of the queue.
   */
  lemma InvocationReturnsItsWorker(c: Settings, b: Breaker, w: World, l: L.Ledger, now: Time)
    requires Sound(l) && (Acquires(w) ==> HandsOver(l, w.acquisition.worker.id))
    ensures !Acquires(w) ==> ServeAll(l, Trace(c, b, w), now) == l
    ensures Acquires(w) ==> Settled(l, ServeAll(l, Trace(c, b, w), now), w.acquisition.worker.id, EndOf(c, b, w), now)
  {
    TraceOnPool(c, b, w, l, now);
    if Acquires(w) { BorrowAndReturn(l, w.acquisition.worker.id, EndOf(c, b, w), now); }
  }

  /** An invocation among others: the breaker as it finds it, and the time of its give-back. */
  datatype Visit = Visit(breaker: Breaker, world: World, now: Time)

  ghost predicate Feasible(c: Settings, l: L.Ledger, visits: seq<Visit>)
    decreases |visits|
  {
    visits == []
    || (var v := visits[0];
        (Acquires(v.world) ==> HandsOver(l, v.world.acquisition.worker.id))
        && Feasible(c, ServeAll(l, Trace(c, v.breaker, v.world), v.now), visits[1..]))
  }

  function AfterVisits(c: Settings, l: L.Ledger, visits: seq<Visit>): L.Ledger
    decreases |visits|
  {
    if visits == [] then l
    else AfterVisits(c, ServeAll(l, Trace(c, visits[0].breaker, visits[0].world), visits[0].now), visits[1..])
  }

  function LostIn(c: Settings, visits: seq<Visit>): set<WorkerId> {
    if visits == [] then {} else LostBy(c, visits[0].breaker, visits[0].world) + LostIn(c, visits[1..])
  }

  /** After any number of invocations the only workers still held are those whose release failed. */
  lemma {:induction false} OnlyFailedReleasesStayHeld(c: Settings, l: L.Ledger, visits: seq<Visit>)
    requires Sound(l) && Feasible(c, l, visits)
    ensures Held(AfterVisits(c, l, visits)) == Held(l) + LostIn(c, visits)
    decreases |visits|
  {
    if visits != [] {
      var v := visits[0];
      InvocationReturnsItsWorker(c, v.breaker, v.world, l, v.now);
      OnlyFailedReleasesStayHeld(c, ServeAll(l, Trace(c, v.breaker, v.world), v.now), visits[1..]);
    }
  }

  // ---------- the answer, spelled out ----------

  /** A reply that is passed on to the caller. */
  predicate PassedOn(r: Reply) {
    && r.Response? && r.status < 500 && r.functionError == ""
    && !(r.status == 200 && r.size < 10240 && r.body.Dict?
         && ("errorType" in r.body.keys || "errorMessage" in r.body.keys))
  }

  /** The caller gets the response exactly for an admitted POST with a good reply whose worker was not lost to a cancellation. */
  lemma ResponseIsReturnedIff(c: Settings, b: Breaker, f: string, w: World, r: Reply)
    ensures Answer(c, b, f, w) == Outcome.Returned(r) <==>
            && r == w.reply && w.registered && w.acquisition.Got?
            && (b.mode != Open || w.postedAt - b.lastFailure > c.recovery)
            && r.Response? && r.status < 500 && r.functionError == ""
            && !(r.status == 200 && r.size < 10240 && r.body.Dict?
                 && ("errorType" in r.body.keys || "errorMessage" in r.body.keys))
            && w.releasing != Raises(CancelledError)
  {
  }

  /** And in every other case this exception. */
  lemma ElseItRaises(c: Settings, b: Breaker, f: string, w: World)
    ensures !w.registered ==> Answer(c, b, f, w) == Outcome.Raised(LambdaExecutionError(f))
    ensures w.registered && w.acquisition.NotGot? ==>
              Answer(c, b, f, w) ==
              Outcome.Raised(if w.acquisition.exn == CancelledError then CancelledError else LambdaExecutionError(f))
    ensures w.registered && w.acquisition.Got? ==>
              var admitted := b.mode != Open || w.postedAt - b.lastFailure > c.recovery;
              var dead := admitted && w.reply == Broken(ConnectError);
              var good := admitted && PassedOn(w.reply);
              if !(dead && w.evicting.Done?) && w.releasing == Raises(CancelledError) then
                Answer(c, b, f, w) == Outcome.Raised(CancelledError)
              else if dead && w.evicting.Raises? then Answer(c, b, f, w) == Outcome.Raised(w.evicting.exn)
              else if admitted && w.reply == Broken(CancelledError) then
                Answer(c, b, f, w) == Outcome.Raised(CancelledError)
              else if !good then Answer(c, b, f, w) == Outcome.Raised(LambdaExecutionError(f))
              else Answer(c, b, f, w) == Outcome.Returned(w.reply)
  {
  }

  /** The backend calls of every invocation, in order. */
  lemma CallsAreExactly(c: Settings, b: Breaker, w: World)
    ensures !w.registered ==> Trace(c, b, w) == []
    ensures w.registered && w.acquisition.NotGot? ==> Trace(c, b, w) == [AcquireCall(None)]
    ensures w.registered && w.acquisition.Got? ==>
              var id := w.acquisition.worker.id;
              var admitted := b.mode != Open || w.postedAt - b.lastFailure > c.recovery;
              var release := ReleaseCall(id, w.releasing == Done);
              Trace(c, b, w) ==
              if !(admitted && w.reply == Broken(ConnectError)) then [AcquireCall(Some(id)), release]
              else if w.evicting == Done then [AcquireCall(Some(id)), EvictCall(id, true)]
              else [AcquireCall(Some(id)), EvictCall(id, false), release]
  {
  }

  /** The breaker after every invocation; without an admitted POST it is as it was. */
  lemma BreakerIsExactly(c: Settings, b: Breaker, w: World)
    ensures var admitted := b.mode != Open || w.postedAt - b.lastFailure > c.recovery;
            if !(w.registered && w.acquisition.Got? && admitted) then BreakerAfter(c, b, w) == b
            else
              var seen := w.meanwhile(if b.mode == Open then Breaker(b.failures, b.lastFailure, HalfOpen) else b);
              BreakerAfter(c, b, w) ==
              if w.reply == Broken(CancelledError) then seen
              else if PassedOn(w.reply) then if seen.mode == HalfOpen then Breaker(0, 0.0, Closed) else seen
              else
                var n := seen.failures + 1;
                Breaker(n, w.answeredAt, if n >= c.threshold || seen.mode == HalfOpen then Open else seen.mode)
  {
  }

  // ---------- errors ----------

  /**
   Callers see a response, LambdaExecutionError or a cancellation, and otherwise only what a failing
   eviction raises. In particular a ContainerStartError never leaves: the outer handler wraps it.
   */
  lemma OnlyLambdaErrorsLeave(c: Settings, b: Breaker, f: string, w: World)
    ensures match Answer(c, b, f, w)
            case Returned(r) => Acquires(w) && Admit(c, b, w.postedAt).Some? && r == w.reply && r.Response? && !IsFailure(r)
            case Raised(e) => e == LambdaExecutionError(f) || e == CancelledError
                              || (FindsDead(c, b, w) && w.evicting == Raises(e))
    ensures Answer(c, b, f, w) == Outcome.Raised(ContainerStartError) ==> w.evicting == Raises(ContainerStartError)
  {
  }

  /** The call counts a failure of its own exactly for an admitted POST that raises or answers with a failure. */
  lemma OnlyPostsAreCounted(c: Settings, b: Breaker, w: World)
    ensures Acquires(w) && Admit(c, b, w.postedAt).Some? ==>
              var seen := w.meanwhile(Admit(c, b, w.postedAt).value);
              seen.failures >= 0 ==>
                (BreakerAfter(c, b, w).failures == seen.failures + 1
                 <==> match w.reply case Broken(e) => e != CancelledError case Response(_, _, _, _) => IsFailure(w.reply))
    ensures !(Acquires(w) && Admit(c, b, w.postedAt).Some?) ==> BreakerAfter(c, b, w) == b
  {
  }
}
