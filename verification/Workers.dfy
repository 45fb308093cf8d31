/** The entities every gateway component talks about. */
module Workers {

  type WorkerId = string

  /** Seconds since the epoch, as the gateway's float clock reports them. */
  type Time = real

  datatype Option<+T> = None | Some(value: T)

  datatype Result<+T, +E> = Success(value: T) | Failure(error: E)

  function Max(a: int, b: int): (m: int)
    ensures m >= a && m >= b && (m == a || m == b)
  {
    if a < b then b else a
  }

  lemma Cardinalities<T>(a: set<T>, x: T)
    ensures |a + {x}| == |a| + (if x in a then 0 else 1)
    ensures |a - {x}| == |a| - (if x in a then 1 else 0)
  {
    if x in a { assert a + {x} == a; } else { assert a - {x} == a; }
  }

  /** A worker as the pools see it. Only the last-use stamp is ever updated. */
  class WorkerInfo {
    const id: WorkerId
    var lastUsedAt: Time

    constructor (id: WorkerId, lastUsedAt: Time)
      ensures this.id == id && this.lastUsedAt == lastUsedAt
    {
      this.id := id;
      this.lastUsedAt := lastUsedAt;
    }
  }

  /** What the idle queue knows of a worker: workers are compared by id alone. */
  datatype Entry = Entry(id: WorkerId, lastUsedAt: Time)
}
