/**
 Single-flight container lookup: concurrent calls for one function share the first one's future. The
 first caller leads and asks the orchestrator; the others follow and wait on its future.

 The lock is never held across a suspension, so taking it never suspends: a call runs from its start
 to its first wait, and from the end of that wait to its own end, without interruption.
 */
module OrchestratorClient {
  import opened Workers

  type Name = string
  type Host = string

  datatype Exn = RemoteError(status: int) | InvalidState | CancelledError

  datatype Outcome = Got(host: Host) | Raised(exn: Exn)

  /** An asyncio future; cancelling a task that awaits it cancels it too. */
  datatype Promise = Pending | Resolved(value: Host) | Rejected(error: Exn) | Cancelled

  /** What awaiting a finished future yields. */
  function Read(p: Promise): Outcome
    requires !p.Pending?
  {
    match p
    case Resolved(h) => Got(h)
    case Rejected(e) => Raised(e)
    case Cancelled => Raised(CancelledError)
  }

  /**
   The leader settles its future: the future's new value, and what the leader itself comes away with.
   set_result and set_exception refuse a future that is no longer pending.
   */
  function Settle(p: Promise, remote: Outcome): (Promise, Outcome) {
    if !p.Pending? then (p, Raised(InvalidState))
    else match remote
         case Got(h) => (Resolved(h), remote)
         case Raised(e) => (Rejected(e), remote)
  }

  /** What the remote call can end with: a host that is not empty, or an error. */
  predicate Plausible(remote: Outcome) {
    match remote
    case Got(h) => h != ""
    case Raised(e) => e.RemoteError?
  }

  class Future {
    var promise: Promise

    constructor ()
      ensures promise == Pending
    {
      promise := Pending;
    }
  }

  datatype Role = Hit(host: Host) | Lead(own: Future) | Follow(shared: Future)

  class OrchestratorClient {
    const caching: bool
    var cache: map<Name, Host>
    var inflight: map<Name, Future>

    constructor (caching: bool)
      ensures this.caching == caching && cache == map[] && inflight == map[]
    {
      this.caching := caching;
      cache, inflight := map[], map[];
    }

    /** Up to the first wait: hit, follow whoever is in flight, or lead. A cached host counts only if not empty. */
    method Enter(name: Name) returns (role: Role)
      modifies this`inflight
      ensures role.Hit? <==> caching && name in cache && cache[name] != ""
      ensures role.Hit? ==> role.host == cache[name] && inflight == old(inflight)
      ensures !role.Hit? && name in old(inflight) ==>
                role == Follow(old(inflight)[name]) && inflight == old(inflight)
      ensures !role.Hit? && name !in old(inflight) ==>
                && role.Lead? && fresh(role.own) && role.own.promise == Pending
                && inflight == old(inflight)[name := role.own]
    {
      if caching && name in cache && cache[name] != "" {
        return Hit(cache[name]);
      }
      if name in inflight {
        return Follow(inflight[name]);
      }
      var f := new Future();
      inflight := inflight[name := f];
      return Lead(f);
    }

    /** The leader's remote call has ended. */
    method Finish(name: Name, own: Future, remote: Outcome) returns (mine: Outcome)
      modifies this`cache, this`inflight, own
      ensures (own.promise, mine) == Settle(old(own.promise), remote)
      ensures old(own.promise) == Pending ==>
                own.promise == (match remote case Got(h) => Resolved(h) case Raised(e) => Rejected(e)) && mine == remote
      ensures old(own.promise) != Pending ==> own.promise == old(own.promise) && mine == Raised(InvalidState)
      ensures cache == if caching && remote.Got? then old(cache)[name := remote.host] else old(cache)
      ensures inflight == if name in old(inflight) && old(inflight)[name] == own then old(inflight) - {name}
                          else old(inflight)
    {
      mine := remote;
      match remote {
        case Got(host) =>
          if caching { cache := cache[name := host]; }
          if own.promise == Pending { own.promise := Resolved(host); } else { mine := Raised(InvalidState); }
        case Raised(exn) =>
          if own.promise == Pending { own.promise := Rejected(exn); } else { mine := Raised(InvalidState); }
      }
      CleanUp(name, own);
    }

    /** The leader's finally clause, all that a cancelled leader still runs. */
    method CleanUp(name: Name, own: Future)
      modifies this`inflight
      ensures inflight == if name in old(inflight) && old(inflight)[name] == own then old(inflight) - {name}
                          else old(inflight)
    {
      if name in inflight && inflight[name] == own { inflight := inflight - {name}; }
    }
  }

  // ---------- overlapping calls ----------

  type CallId = nat
  type FutureId = nat

  datatype Phase =
    | Leading(led: Name, own: FutureId)
    | Following(shared: FutureId)
    | Over(asked: Name, via: Option<FutureId>, outcome: Outcome)

  /**
   A future with its history: who leads it, what the leader's remote call ended with, and whether a task
   that was waiting on it or for it has been cancelled.
   */
  datatype Slot = Slot(name: Name, leader: CallId, promise: Promise, verdict: Option<Outcome>, disturbed: bool)

  datatype Table = Table(inflight: map<Name, FutureId>, futures: map<FutureId, Slot>)

  /** `produced` and `cancelled` are history: the hosts that remote calls returned, the calls cancelled. */
  datatype State = State(
    cache: map<Name, Host>, table: Table, calls: map<CallId, Phase>,
    produced: set<(Name, Host)>, cancelled: set<CallId>)

  datatype Action =
    | Call(t: CallId, name: Name, f: FutureId)   // f is the future it creates if it leads
    | Finish(t: CallId, remote: Outcome)
    | Resume(t: CallId)
    | Forget(name: Name)                         // the cache drops an entry
    | Cancel(t: CallId)                          // the task is cancelled at its current await

  function Init(): State {
    State(map[], Table(map[], map[]), map[], {}, {})
  }

  predicate Enabled(s: State, a: Action) {
    match a
    case Call(t, _, f) => t !in s.calls && f !in s.table.futures
    case Finish(t, r) =>
      t in s.calls && s.calls[t].Leading? && s.calls[t].own in s.table.futures && Plausible(r)
    case Resume(t) =>
      t in s.calls && s.calls[t].Following? && s.calls[t].shared in s.table.futures
      && !s.table.futures[s.calls[t].shared].promise.Pending?
    case Forget(_) => true
    case Cancel(t) =>
      t in s.calls && match s.calls[t]
                      case Leading(_, f) => f in s.table.futures
                      case Following(f) => f in s.table.futures
                      case Over(_, _, _) => false
  }

  function Hit(caching: bool, cache: map<Name, Host>, name: Name): Option<Host> {
    if caching && name in cache && cache[name] != "" then Some(cache[name]) else None
  }

  function Opened(tb: Table, name: Name, f: FutureId, t: CallId): Table {
    Table(tb.inflight[name := f], tb.futures[f := Slot(name, t, Pending, None, false)])
  }

  function Closed(inflight: map<Name, FutureId>, name: Name, f: FutureId): map<Name, FutureId> {
    if name in inflight && inflight[name] == f then inflight - {name} else inflight
  }

  function AfterCall(caching: bool, s: State, t: CallId, name: Name, f: FutureId): State {
    var hit := Hit(caching, s.cache, name);
    if hit.Some? then s.(calls := s.calls[t := Over(name, None, Got(hit.value))])
    else if name in s.table.inflight then s.(calls := s.calls[t := Following(s.table.inflight[name])])
    else s.(table := Opened(s.table, name, f, t), calls := s.calls[t := Leading(name, f)])
  }

  function AfterFinish(caching: bool, s: State, t: CallId, name: Name, f: FutureId, r: Outcome): State
    requires f in s.table.futures
  {
    var slot := s.table.futures[f];
    var (promise, mine) := Settle(slot.promise, r);
    s.(cache := if caching && r.Got? then s.cache[name := r.host] else s.cache,
       table := Table(Closed(s.table.inflight, name, f),
                      s.table.futures[f := slot.(promise := promise, verdict := Some(r))]),
       calls := s.calls[t := Over(name, Some(f), mine)],
       produced := if r.Got? then s.produced + {(name, r.host)} else s.produced)
  }

  function AfterResume(s: State, t: CallId, f: FutureId): State
    requires f in s.table.futures && !s.table.futures[f].promise.Pending?
  {
    s.(calls := s.calls[t := Over(s.table.futures[f].name, Some(f), Read(s.table.futures[f].promise))])
  }

  /** A cancelled leader skips both handlers and cleans up, its future unsettled. */
  function AfterLeaderCancel(s: State, t: CallId, name: Name, f: FutureId): State
    requires f in s.table.futures
  {
    s.(table := Table(Closed(s.table.inflight, name, f),
                      s.table.futures[f := s.table.futures[f].(disturbed := true)]),
       calls := s.calls[t := Over(name, Some(f), Raised(CancelledError))],
       cancelled := s.cancelled + {t})
  }

  /** A cancelled follower takes the future it waits on with it. */
  function AfterFollowerCancel(s: State, t: CallId, f: FutureId): State
    requires f in s.table.futures
  {
    var slot := s.table.futures[f];
    s.(table := if slot.promise.Pending?
                then s.table.(futures := s.table.futures[f := slot.(promise := Cancelled, disturbed := true)])
                else s.table,
       calls := s.calls[t := Over(slot.name, Some(f), Raised(CancelledError))],
       cancelled := s.cancelled + {t})
  }

  function Apply(caching: bool, s: State, a: Action): State
    requires Enabled(s, a)
  {
    match a
    case Call(t, name, f) => AfterCall(caching, s, t, name, f)
    case Finish(t, r) => AfterFinish(caching, s, t, s.calls[t].led, s.calls[t].own, r)
    case Resume(t) => AfterResume(s, t, s.calls[t].shared)
    case Forget(name) => s.(cache := s.cache - {name})
    case Cancel(t) =>
      match s.calls[t]
      case Leading(name, f) => AfterLeaderCancel(s, t, name, f)
      case Following(f) => AfterFollowerCancel(s, t, f)
      case Over(_, _, _) => s
  }

  predicate Possible(caching: bool, s: State, run: seq<Action>)
    decreases |run|
  {
    run == [] || (Enabled(s, run[0]) && Possible(caching, Apply(caching, s, run[0]), run[1..]))
  }

  function Exec(caching: bool, s: State, run: seq<Action>): State
    requires Possible(caching, s, run)
    decreases |run|
  {
    if run == [] then s else Exec(caching, Apply(caching, s, run[0]), run[1..])
  }

  ghost predicate Reachable(caching: bool, s: State) {
    exists run :: Possible(caching, Init(), run) && Exec(caching, Init(), run) == s
  }

  // ---------- the invariant ----------

  predicate SlotSound(slot: Slot, produced: set<(Name, Host)>) {
    && (slot.verdict.Some? ==> Plausible(slot.verdict.value))
    && (slot.verdict.Some? && slot.verdict.value.Got? ==> (slot.name, slot.verdict.value.host) in produced)
    && match slot.promise
       case Pending => slot.verdict.None?
       case Resolved(h) => slot.verdict == Some(Got(h)) && !slot.disturbed
       case Rejected(e) => slot.verdict == Some(Raised(e)) && !slot.disturbed
       case Cancelled => slot.disturbed
  }

  /** What a call that went through a future may come away with. */
  predicate Fair(slot: Slot, wasCancelled: bool, outcome: Outcome) {
    if wasCancelled then outcome == Raised(CancelledError)
    else if slot.disturbed then outcome == Raised(InvalidState) || outcome == Raised(CancelledError)
    else slot.verdict == Some(outcome)
  }

  predicate PhaseSound(tb: Table, produced: set<(Name, Host)>, wasCancelled: bool, t: CallId, p: Phase) {
    match p
    case Leading(name, f) =>
      && name in tb.inflight && tb.inflight[name] == f && f in tb.futures && !wasCancelled
      && tb.futures[f].name == name && tb.futures[f].leader == t && tb.futures[f].verdict == None
      && tb.futures[f].disturbed == tb.futures[f].promise.Cancelled?
    case Following(f) => f in tb.futures && !wasCancelled
    case Over(name, None, outcome) => (outcome.Got? ==> (name, outcome.host) in produced) && !wasCancelled
    case Over(name, Some(f), outcome) =>
      && f in tb.futures && tb.futures[f].name == name && Fair(tb.futures[f], wasCancelled, outcome)
      && (wasCancelled || tb.futures[f].disturbed || tb.futures[f].verdict.Some?)
  }

  /** The table lists only futures that their leader still leads. */
  ghost predicate TableSound(tb: Table, calls: map<CallId, Phase>) {
    forall name :: name in tb.inflight ==>
      && tb.inflight[name] in tb.futures
      && tb.futures[tb.inflight[name]].leader in calls
      && calls[tb.futures[tb.inflight[name]].leader] == Leading(name, tb.inflight[name])
  }

  ghost predicate SlotsSound(s: State) {
    && (forall f :: f in s.table.futures ==> SlotSound(s.table.futures[f], s.produced))
    && (forall name :: name in s.cache ==> (name, s.cache[name]) in s.produced)
  }

  ghost predicate PhasesSound(s: State) {
    && s.cancelled <= s.calls.Keys
    && forall t :: t in s.calls ==> PhaseSound(s.table, s.produced, t in s.cancelled, t, s.calls[t])
  }

  ghost predicate Invariant(s: State) {
    SlotsSound(s) && TableSound(s.table, s.calls) && PhasesSound(s)
  }

  lemma SlotsStep(caching: bool, s: State, a: Action)
    requires Invariant(s) && Enabled(s, a)
    ensures SlotsSound(Apply(caching, s, a))
  {
    match a
    case Finish(t, _) => assert PhaseSound(s.table, s.produced, t in s.cancelled, t, s.calls[t]);
    case Cancel(t) => assert PhaseSound(s.table, s.produced, t in s.cancelled, t, s.calls[t]);
    case _ =>
  }

  lemma LeaderEnds(s: State, t: CallId, slot: Slot, over: Phase)
    requires Invariant(s) && t in s.calls && s.calls[t].Leading? && s.calls[t].own in s.table.futures && over.Over?
    requires slot.leader == s.table.futures[s.calls[t].own].leader
    ensures var f := s.calls[t].own;
            TableSound(Table(Closed(s.table.inflight, s.calls[t].led, f), s.table.futures[f := slot]), s.calls[t := over])
  {
    assert PhaseSound(s.table, s.produced, t in s.cancelled, t, s.calls[t]);
  }

  lemma CallKeepsTable(caching: bool, s: State, t: CallId, name: Name, f: FutureId)
    requires TableSound(s.table, s.calls) && t !in s.calls && f !in s.table.futures
    ensures TableSound(AfterCall(caching, s, t, name, f).table, AfterCall(caching, s, t, name, f).calls)
  {
  }

  /** A follower that comes away, cancelled or not, leaves every leader where it was. */
  lemma FollowerKeepsTable(tb: Table, calls: map<CallId, Phase>, t: CallId, over: Phase, futures: map<FutureId, Slot>)
    requires TableSound(tb, calls) && t in calls && calls[t].Following?
    requires forall f :: f in tb.futures ==> f in futures && futures[f].leader == tb.futures[f].leader
    ensures TableSound(tb.(futures := futures), calls[t := over])
  {
  }

  lemma TableStep(caching: bool, s: State, a: Action)
    requires Invariant(s) && Enabled(s, a)
    ensures TableSound(Apply(caching, s, a).table, Apply(caching, s, a).calls)
  {
    var s' := Apply(caching, s, a);
    match a
    case Call(t, name, f) => CallKeepsTable(caching, s, t, name, f);
    case Forget(_) =>
    case Finish(t, _) => LeaderEnds(s, t, s'.table.futures[s.calls[t].own], s'.calls[t]);
    case Resume(t) => FollowerKeepsTable(s.table, s.calls, t, s'.calls[t], s'.table.futures);
    case Cancel(t) =>
      if s.calls[t].Leading? { LeaderEnds(s, t, s'.table.futures[s.calls[t].own], s'.calls[t]); }
      else { FollowerKeepsTable(s.table, s.calls, t, s'.calls[t], s'.table.futures); }
  }

  ghost predicate Unmoved(s: State, s': State, u: CallId)
    requires u in s.calls
  {
    && u in s'.calls && s'.calls[u] == s.calls[u] && (u in s'.cancelled <==> u in s.cancelled)
    && PhaseSound(s'.table, s'.produced, u in s.cancelled, u, s.calls[u])
  }

  lemma FinishSparesOthers(caching: bool, s: State, t: CallId, name: Name, f: FutureId, r: Outcome, u: CallId)
    requires Invariant(s) && t in s.calls && s.calls[t] == Leading(name, f) && u in s.calls && u != t
    requires f in s.table.futures
    ensures Unmoved(s, AfterFinish(caching, s, t, name, f, r), u)
  {
    assert PhaseSound(s.table, s.produced, t in s.cancelled, t, s.calls[t]);
    assert PhaseSound(s.table, s.produced, u in s.cancelled, u, s.calls[u]);
  }

  lemma LeaderCancelSparesOthers(s: State, t: CallId, name: Name, f: FutureId, u: CallId)
    requires Invariant(s) && t in s.calls && s.calls[t] == Leading(name, f) && u in s.calls && u != t
    requires f in s.table.futures
    ensures Unmoved(s, AfterLeaderCancel(s, t, name, f), u)
  {
    assert PhaseSound(s.table, s.produced, t in s.cancelled, t, s.calls[t]);
    assert PhaseSound(s.table, s.produced, u in s.cancelled, u, s.calls[u]);
  }

  lemma FollowerCancelSparesOthers(s: State, t: CallId, f: FutureId, u: CallId)
    requires Invariant(s) && t in s.calls && s.calls[t] == Following(f) && u in s.calls && u != t
    requires f in s.table.futures
    ensures Unmoved(s, AfterFollowerCancel(s, t, f), u)
  {
    assert SlotSound(s.table.futures[f], s.produced);
    assert PhaseSound(s.table, s.produced, u in s.cancelled, u, s.calls[u]);
  }

  /** The call u that does not move stays sound: slots change only under their own leader or follower. */
  lemma OtherPhaseStep(caching: bool, s: State, a: Action, u: CallId)
    requires Invariant(s) && Enabled(s, a) && u in s.calls && (a.Forget? || a.t != u)
    ensures Unmoved(s, Apply(caching, s, a), u)
  {
    match a
    case Finish(t, r) => FinishSparesOthers(caching, s, t, s.calls[t].led, s.calls[t].own, r, u);
    case Cancel(t) =>
      if s.calls[t].Leading? { LeaderCancelSparesOthers(s, t, s.calls[t].led, s.calls[t].own, u); }
      else { FollowerCancelSparesOthers(s, t, s.calls[t].shared, u); }
    case _ => assert PhaseSound(s.table, s.produced, u in s.cancelled, u, s.calls[u]);
  }

  lemma OwnPhaseStep(caching: bool, s: State, a: Action)
    requires Invariant(s) && Enabled(s, a) && !a.Forget?
    ensures var s' := Apply(caching, s, a);
            a.t in s'.calls && PhaseSound(s'.table, s'.produced, a.t in s'.cancelled, a.t, s'.calls[a.t])
  {
    match a
    case Call(_, _, _) =>
    case Finish(t, r) =>
      assert PhaseSound(s.table, s.produced, t in s.cancelled, t, s.calls[t]);
      assert SlotSound(s.table.futures[s.calls[t].own], s.produced);
    case Resume(t) =>
      assert PhaseSound(s.table, s.produced, t in s.cancelled, t, s.calls[t]);
      assert SlotSound(s.table.futures[s.calls[t].shared], s.produced);
    case Cancel(t) => assert PhaseSound(s.table, s.produced, t in s.cancelled, t, s.calls[t]);
  }

  lemma InvariantStep(caching: bool, s: State, a: Action)
    requires Invariant(s) && Enabled(s, a)
    ensures Invariant(Apply(caching, s, a))
  {
    SlotsStep(caching, s, a);
    TableStep(caching, s, a);
    var s' := Apply(caching, s, a);
    forall u | u in s'.calls ensures PhaseSound(s'.table, s'.produced, u in s'.cancelled, u, s'.calls[u]) {
      if a.Forget? || a.t != u { OtherPhaseStep(caching, s, a, u); } else { OwnPhaseStep(caching, s, a); }
    }
  }

  lemma {:induction false} InvariantAlways(caching: bool, s: State, run: seq<Action>)
    requires Invariant(s) && Possible(caching, s, run)
    ensures Invariant(Exec(caching, s, run))
    decreases |run|
  {
    if run != [] {
      InvariantStep(caching, s, run[0]);
      InvariantAlways(caching, Apply(caching, s, run[0]), run[1..]);
    }
  }

  lemma ReachableInvariant(caching: bool, s: State)
    requires Reachable(caching, s)
    ensures Invariant(s)
  {
    var run :| Possible(caching, Init(), run) && Exec(caching, Init(), run) == s;
    InvariantAlways(caching, Init(), run);
  }

  // ---------- on every run, cancellations included ----------

  /** At most one remote call per name is in progress at any time. */
  lemma SingleFlight(caching: bool, s: State, t: CallId, u: CallId)
    requires Reachable(caching, s) && t in s.calls && u in s.calls
    requires s.calls[t].Leading? && s.calls[u].Leading? && s.calls[t].led == s.calls[u].led
    ensures t == u
  {
    ReachableInvariant(caching, s);
    assert forall v :: v in {t, u} ==> PhaseSound(s.table, s.produced, v in s.cancelled, v, s.calls[v]);
  }

  /** The in-flight table holds exactly the running leaders. */
  lemma TableIsTheRunningLeaders(caching: bool, s: State, name: Name, f: FutureId)
    requires Reachable(caching, s)
    ensures (name in s.table.inflight && s.table.inflight[name] == f)
            <==> exists t :: t in s.calls && s.calls[t] == Leading(name, f)
  {
    ReachableInvariant(caching, s);
    forall t | t in s.calls && s.calls[t] == Leading(name, f)
      ensures name in s.table.inflight && s.table.inflight[name] == f
    {
      assert PhaseSound(s.table, s.produced, t in s.cancelled, t, s.calls[t]);
    }
  }

  /** Any host a call comes away with was produced by a remote call for that name. */
  lemma HostsAreGenuine(caching: bool, s: State, t: CallId)
    requires Reachable(caching, s) && t in s.calls && s.calls[t].Over? && s.calls[t].outcome.Got?
    ensures (s.calls[t].asked, s.calls[t].outcome.host) in s.produced
  {
    ReachableInvariant(caching, s);
    assert PhaseSound(s.table, s.produced, t in s.cancelled, t, s.calls[t]);
    match s.calls[t].via
    case None =>
    case Some(f) => assert SlotSound(s.table.futures[f], s.produced);
  }

  /**
   Where a call goes: away at once with the cached host, if there is one and it is not empty; else to the
   future of the call that leads for its name; else it leads.
   */
  lemma CallHitsFollowsOrLeads(caching: bool, s: State, t: CallId, name: Name, f: FutureId)
    requires Reachable(caching, s) && Enabled(s, Call(t, name, f))
    ensures var s' := Apply(caching, s, Call(t, name, f)); var hit := caching && name in s.cache && s.cache[name] != "";
            && t in s'.calls && s'.cache == s.cache
            && (hit ==> s'.calls[t] == Over(name, None, Got(s.cache[name])))
            && (s'.calls[t].Over? ==> hit)
            && (s'.calls[t].Following? <==> !hit && exists u: CallId :: u in s.calls && s.calls[u].Leading? && s.calls[u].led == name)
            && (s'.calls[t].Following? ==> exists u: CallId :: u in s.calls && s.calls[u] == Leading(name, s'.calls[t].shared))
            && (s'.calls[t].Leading? ==> s'.calls[t] == Leading(name, f) && s'.table.futures[f].promise == Pending)
  {
    if name in s.table.inflight { TableIsTheRunningLeaders(caching, s, name, s.table.inflight[name]); }
    forall u: CallId | u in s.calls && s.calls[u].Leading? && s.calls[u].led == name ensures name in s.table.inflight {
      assert s.calls[u] == Leading(name, s.calls[u].own);
      TableIsTheRunningLeaders(caching, s, name, s.calls[u].own);
    }
  }

  /** The host is cached under the name, and no call leads for it any more. */
  ghost predicate Served(s: State, name: Name, host: Host) {
    && name in s.cache && s.cache[name] == host && host != ""
    && forall t: CallId :: t in s.calls && s.calls[t].Leading? ==> s.calls[t].led != name
  }

  lemma FinishServes(s: State, t: CallId, host: Host)
    requires Reachable(true, s) && Enabled(s, Finish(t, Got(host)))
    ensures Served(Apply(true, s, Finish(t, Got(host))), s.calls[t].led, host)
  {
    forall u: CallId | u in s.calls && u != t && s.calls[u].Leading? ensures s.calls[u].led != s.calls[t].led {
      if s.calls[u].led == s.calls[t].led { SingleFlight(true, s, t, u); }
    }
  }

  lemma ServedStays(s: State, a: Action, name: Name, host: Host)
    requires Served(s, name, host) && Enabled(s, a) && a != Forget(name)
    ensures Served(Apply(true, s, a), name, host)
  {
    match a
    case Finish(t, _) => assert s.calls[t].led != name;
    case _ =>
  }

  lemma {:induction false} ServedThroughout(s: State, run: seq<Action>, name: Name, host: Host)
    requires Served(s, name, host) && Possible(true, s, run) && Forget(name) !in run
    ensures Served(Exec(true, s, run), name, host)
    decreases |run|
  {
    if run != [] {
      ServedStays(s, run[0], name, host);
      ServedThroughout(Apply(true, s, run[0]), run[1..], name, host);
    }
  }

  /**
   With caching, a host that a remote call found answers every later call for the name at once, with no
   remote call in between, until the cache drops it.
   */
  lemma FoundHostIsServed(s: State, t: CallId, host: Host, run: seq<Action>, u: CallId, f: FutureId)
    requires Reachable(true, s) && Enabled(s, Finish(t, Got(host)))
    requires var s1 := Apply(true, s, Finish(t, Got(host))); var name := s.calls[t].led;
             && Possible(true, s1, run) && Forget(name) !in run
             && Enabled(Exec(true, s1, run), Call(u, name, f))
    ensures var s2 := Exec(true, Apply(true, s, Finish(t, Got(host))), run); var name := s.calls[t].led;
            && Apply(true, s2, Call(u, name, f)).calls[u] == Over(name, None, Got(host))
            && forall v: CallId :: v in s2.calls && s2.calls[v].Leading? ==> s2.calls[v].led != name
  {
    FinishServes(s, t, host);
    ServedThroughout(Apply(true, s, Finish(t, Got(host))), run, s.calls[t].led, host);
  }

  /** Without caching nothing is ever cached. */
  lemma {:induction false} NothingCachedWithoutCaching(s: State, run: seq<Action>)
    requires s.cache == map[] && Possible(false, s, run)
    ensures Exec(false, s, run).cache == map[]
    decreases |run|
  {
    if run != [] { NothingCachedWithoutCaching(Apply(false, s, run[0]), run[1..]); }
  }
}
