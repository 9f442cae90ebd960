/** The values the relay passes around: events, deliveries, instants and errors. */
module Core {

  /** Instants and durations are whole nanoseconds. An instant that may be Go's zero
      `time.Time` is an `Option<Time>`, with `None` for the zero value. */
  type Time = int
  type Duration = int

  const SECOND: Duration := 1_000_000_000
  const HOUR: Duration := 3600 * SECOND
  const MAX_DURATION: Duration := 0x7FFF_FFFF_FFFF_FFFF

  datatype Option<+T> = None | Some(value: T)

  datatype Result<+T> = Ok(value: T) | Err(error: Error)

  datatype Error =
    | InvalidState
    | LeaseConflict
    | QueueFull
    | CircuitOpen
    | JournalRejected
    | SendFailed(text: string)
  {
    function Text(): string {
      match this
      case InvalidState => "invalid delivery state"
      case LeaseConflict => "delivery lease conflict"
      case QueueFull => "delivery queue is full"
      case CircuitOpen => "endpoint circuit is open"
      case JournalRejected => "journal rejected entry"
      case SendFailed(text) => text
    }
  }

  datatype Event = Event(
    id: string, tenant: string, endpoint: string, key: string,
    payload: seq<bv8>, priority: int, createdAt: Time)
  {
    predicate Valid() {
      id != "" && tenant != "" && endpoint != "" && key != "" && payload != []
    }
  }

  datatype DeliveryState = Pending | Leased | Delivered | Dead

  datatype Delivery = Delivery(
    id: string, event: Event, state: DeliveryState, attempt: nat, nextAttempt: Time,
    leaseOwner: string, leaseEpoch: nat, leaseUntil: Option<Time>, lastError: string)
  {
    predicate Terminal() {
      state == Delivered || state == Dead
    }
  }

  function Pow2(k: nat): nat {
    if k == 0 then 1 else 2 * Pow2(k - 1)
  }

  lemma {:induction false} Pow2Monotone(j: nat, k: nat)
    requires j <= k
    ensures 1 <= Pow2(j) <= Pow2(k)
  {
    if k > 0 {
      Pow2Monotone(if j < k then j else k - 1, k - 1);
    }
    if j == k && j > 0 {
      Pow2Monotone(j - 1, j - 1);
    }
  }

  /** `t.After(now)`; the zero instant is after nothing. */
  predicate After(t: Option<Time>, now: Time) {
    t.Some? && t.value > now
  }

  function Lookup<K, V>(m: map<K, V>, k: K): Option<V> {
    if k in m then Some(m[k]) else None
  }

  /** A delivery id is a hash of the idempotency key; two keys must not collide. */
  ghost predicate Injective(idOf: string -> string) {
    forall k, l :: idOf(k) == idOf(l) ==> k == l
  }

  lemma {:induction false} SubsetSize<T>(a: set<T>, b: set<T>)
    requires a <= b
    ensures |a| <= |b|
  {
    if a != {} {
      var x :| x in a;
      SubsetSize(a - {x}, b - {x});
    }
  }
}
