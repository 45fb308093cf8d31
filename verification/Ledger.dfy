/**
 The pool's bookkeeping as a value, and each lock section of the pool as a function on it.
 ContainerPool implements these functions; PoolProtocol interleaves them.
 */
module Ledger {
  import opened Workers

  datatype Ledger = Ledger(idle: seq<Entry>, all: set<WorkerId>, provisioning: int, capacity: int) {

    /** Workers that exist plus workers being made. */
    function Load(): int {
      |all| + provisioning
    }

    predicate HasRoom() {
      Load() < capacity
    }
  }

  /** What one pass through the acquire loop decides. */
  datatype Turn = Hand(entry: Entry) | Reserve | Wait | Expire

  function Empty(capacity: int): Ledger {
    Ledger([], {}, 0, capacity)
  }

  function Decide(l: Ledger, elapsed: Time, timeout: Time): Turn {
    if l.idle != [] then Hand(l.idle[0])
    else if l.HasRoom() then Reserve
    else if timeout - elapsed <= 0.0 then Expire
    else Wait
  }

  function AfterTurn(l: Ledger, turn: Turn): Ledger {
    match turn
    case Hand(_) => if l.idle == [] then l else l.(idle := l.idle[1..])
    case Reserve => l.(provisioning := l.provisioning + 1)
    case Wait => l
    case Expire => l
  }

  function Registered(l: Ledger, id: WorkerId): Ledger {
    l.(all := l.all + {id}, provisioning := l.provisioning - 1)
  }

  function Aborted(l: Ledger): Ledger {
    if l.provisioning > 0 then l.(provisioning := l.provisioning - 1) else l
  }

  function Released(l: Ledger, id: WorkerId, now: Time): Ledger {
    l.(idle := l.idle + [Entry(id, now)])
  }

  function Evicted(l: Ledger, id: WorkerId): Ledger {
    l.(all := l.all - {id}, idle := Without(l.idle, id))
  }

  function Pruned(l: Ledger, now: Time, timeout: Time): Ledger {
    l.(idle := Fresh(l.idle, now, timeout), all := l.all - Ids(Stale(l.idle, now, timeout)))
  }

  /** An adopted worker keeps the stamp it came with, unless that was never set. */
  function Stamped(e: Entry, now: Time): Entry {
    if e.lastUsedAt == 0.0 then e.(lastUsedAt := now) else e
  }

  /** A stamp that belongs at the end of the queue: unset, or neither ahead of the clock nor behind anyone. */
  predicate InTurn(q: seq<Entry>, stamp: Time, now: Time) {
    stamp == 0.0 || (stamp <= now && forall e | e in q :: e.lastUsedAt <= stamp)
  }

  function Joined(l: Ledger, e: Entry): Ledger {
    l.(all := l.all + {e.id}, idle := l.idle + [e])
  }

  function Adopted(l: Ledger, e: Entry, now: Time): Ledger {
    if l.HasRoom() then Joined(l, Stamped(e, now)) else l
  }

  function Drained(l: Ledger): Ledger {
    Empty(l.capacity)
  }

  // ---------- the idle queue ----------

  function Ids(q: seq<Entry>): set<WorkerId> {
    set e | e in q :: e.id
  }

  ghost predicate DistinctIds(q: seq<Entry>) {
    forall i, j :: 0 <= i < j < |q| ==> q[i].id != q[j].id
  }

  /** Least recently used first. */
  ghost predicate Sorted(q: seq<Entry>) {
    forall i, j :: 0 <= i < j < |q| ==> q[i].lastUsedAt <= q[j].lastUsedAt
  }

  predicate IsStale(e: Entry, now: Time, timeout: Time) {
    now - e.lastUsedAt > timeout
  }

  function Without(q: seq<Entry>, id: WorkerId): (r: seq<Entry>)
    ensures |r| <= |q|
  {
    if q == [] then []
    else if q[0].id == id then Without(q[1..], id)
    else [q[0]] + Without(q[1..], id)
  }

  function Fresh(q: seq<Entry>, now: Time, timeout: Time): seq<Entry> {
    if q == [] then []
    else if IsStale(q[0], now, timeout) then Fresh(q[1..], now, timeout)
    else [q[0]] + Fresh(q[1..], now, timeout)
  }

  function Stale(q: seq<Entry>, now: Time, timeout: Time): seq<Entry> {
    if q == [] then []
    else if IsStale(q[0], now, timeout) then [q[0]] + Stale(q[1..], now, timeout)
    else Stale(q[1..], now, timeout)
  }

  // ---------- facts about the idle queue ----------

  lemma IdsOfHead(q: seq<Entry>)
    requires q != []
    ensures Ids(q) == {q[0].id} + Ids(q[1..])
    ensures DistinctIds(q) ==> q[0].id !in Ids(q[1..]) && DistinctIds(q[1..])
  {
  }

  /** A released or adopted worker joins at the back. */
  lemma Enqueue(q: seq<Entry>, e: Entry)
    ensures Ids(q + [e]) == Ids(q) + {e.id}
    ensures DistinctIds(q) && e.id !in Ids(q) ==> DistinctIds(q + [e])
    ensures Sorted(q) && (forall x :: x in q ==> x.lastUsedAt <= e.lastUsedAt) ==> Sorted(q + [e])
  {
  }

  /** A queue grows at the front without losing its shape. */
  lemma ConsShape(e: Entry, q: seq<Entry>)
    ensures Ids([e] + q) == {e.id} + Ids(q)
    ensures DistinctIds(q) && e.id !in Ids(q) ==> DistinctIds([e] + q)
    ensures Sorted(q) && (forall x :: x in q ==> e.lastUsedAt <= x.lastUsedAt) ==> Sorted([e] + q)
  {
  }

  lemma {:induction false} WithoutMembers(q: seq<Entry>, id: WorkerId, e: Entry)
    ensures e in Without(q, id) <==> e in q && e.id != id
  {
    if q != [] {
      WithoutMembers(q[1..], id, e);
      assert e in q <==> e == q[0] || e in q[1..];
    }
  }

  /** Evicting an id removes every entry of that id and no other. */
  lemma {:induction false} WithoutIsExact(q: seq<Entry>, id: WorkerId)
    ensures forall e :: e in Without(q, id) <==> e in q && e.id != id
    ensures Ids(Without(q, id)) == Ids(q) - {id}
  {
    forall e ensures e in Without(q, id) <==> e in q && e.id != id { WithoutMembers(q, id, e); }
  }

  /** The order of the queue stays. */
  lemma {:induction false} WithoutInOrder(q: seq<Entry>, e: Entry, id: WorkerId)
    ensures Without(q + [e], id) == Without(q, id) + (if e.id == id then [] else [e])
  {
    if q != [] {
      assert (q + [e])[1..] == q[1..] + [e];
      WithoutInOrder(q[1..], e, id);
    }
  }

  lemma {:induction false} WithoutAbsent(q: seq<Entry>, id: WorkerId)
    requires id !in Ids(q)
    ensures Without(q, id) == q
  {
    if q != [] {
      IdsOfHead(q);
      WithoutAbsent(q[1..], id);
    }
  }

  /** Eviction disturbs neither the distinctness nor the order of the others. */
  lemma {:induction false} WithoutKeepsShape(q: seq<Entry>, id: WorkerId)
    ensures DistinctIds(q) ==> DistinctIds(Without(q, id))
    ensures Sorted(q) ==> Sorted(Without(q, id))
  {
    if q != [] {
      var rest := Without(q[1..], id);
      WithoutKeepsShape(q[1..], id);
      WithoutIsExact(q[1..], id);
      IdsOfHead(q);
      ConsShape(q[0], rest);
      if Sorted(q) {
        assert forall e :: e in q[1..] ==> q[0].lastUsedAt <= e.lastUsedAt;
      }
    }
  }

  lemma {:induction false} PruneMembers(q: seq<Entry>, now: Time, timeout: Time, e: Entry)
    ensures e in Fresh(q, now, timeout) <==> e in q && !IsStale(e, now, timeout)
    ensures e in Stale(q, now, timeout) <==> e in q && IsStale(e, now, timeout)
  {
    if q != [] {
      PruneMembers(q[1..], now, timeout, e);
      assert e in q <==> e == q[0] || e in q[1..];
    }
  }

  /** Pruning splits the queue in two: exactly the entries idle for longer than `timeout` leave it. */
  lemma {:induction false} PruneSplits(q: seq<Entry>, now: Time, timeout: Time)
    ensures forall e :: e in Fresh(q, now, timeout) <==> e in q && !IsStale(e, now, timeout)
    ensures forall e :: e in Stale(q, now, timeout) <==> e in q && IsStale(e, now, timeout)
    ensures Ids(q) == Ids(Fresh(q, now, timeout)) + Ids(Stale(q, now, timeout))
  {
    forall e
      ensures e in Fresh(q, now, timeout) <==> e in q && !IsStale(e, now, timeout)
      ensures e in Stale(q, now, timeout) <==> e in q && IsStale(e, now, timeout)
    {
      PruneMembers(q, now, timeout, e);
    }
  }

  /** What is left keeps its order. */
  lemma {:induction false} PruneKeepsOrder(q: seq<Entry>, now: Time, timeout: Time)
    requires Sorted(q)
    ensures Sorted(Fresh(q, now, timeout))
  {
    if q != [] {
      PruneKeepsOrder(q[1..], now, timeout);
      PruneSplits(q[1..], now, timeout);
      assert forall e :: e in q[1..] ==> q[0].lastUsedAt <= e.lastUsedAt;
      ConsShape(q[0], Fresh(q[1..], now, timeout));
    }
  }

  /** What is left keeps its distinctness and shares no id with what was pruned. */
  lemma {:induction false} PruneKeepsIds(q: seq<Entry>, now: Time, timeout: Time)
    requires DistinctIds(q)
    ensures DistinctIds(Fresh(q, now, timeout)) && DistinctIds(Stale(q, now, timeout))
    ensures Ids(Fresh(q, now, timeout)) !! Ids(Stale(q, now, timeout))
  {
    if q != [] {
      IdsOfHead(q);
      PruneKeepsIds(q[1..], now, timeout);
      PruneSplits(q[1..], now, timeout);
      ConsShape(q[0], Fresh(q[1..], now, timeout));
      ConsShape(q[0], Stale(q[1..], now, timeout));
    }
  }

  /** On a queue in least-recently-used order, pruning cuts off a prefix and keeps the suffix. */
  lemma {:induction false} PruneCutsPrefix(q: seq<Entry>, now: Time, timeout: Time)
    requires Sorted(q)
    ensures |Stale(q, now, timeout)| <= |q|
    ensures Stale(q, now, timeout) == q[..|Stale(q, now, timeout)|]
    ensures Fresh(q, now, timeout) == q[|Stale(q, now, timeout)|..]
  {
    if q != [] {
      PruneCutsPrefix(q[1..], now, timeout);
      if !IsStale(q[0], now, timeout) {
        forall e | e in q[1..] ensures !IsStale(e, now, timeout) {}
        var gone := Stale(q[1..], now, timeout);
        assert gone != [] ==> gone[0] in gone;
        PruneSplits(q[1..], now, timeout);
      }
    }
  }

  /** Either side of a pruned queue keeps the order of the queue: the last entry comes last where it belongs. */
  lemma {:induction false} PruneInOrder(q: seq<Entry>, e: Entry, now: Time, timeout: Time)
    ensures Stale(q + [e], now, timeout) == Stale(q, now, timeout) + (if now - e.lastUsedAt > timeout then [e] else [])
    ensures Fresh(q + [e], now, timeout) == Fresh(q, now, timeout) + (if now - e.lastUsedAt > timeout then [] else [e])
  {
    if q != [] {
      assert (q + [e])[1..] == q[1..] + [e];
      PruneInOrder(q[1..], e, now, timeout);
    }
  }
}
