/**
 * The capability a coordinator needs from one cache tier, with the tier's store
 * abstracted to a map and its expiry to a logical clock. A tier can be made to
 * fail on get, set or del, standing for a broken backend.
 */
module Backend {
  import opened Wrappers
  import opened Outcomes

  type Key = string

  /** An entry with this expiry is still readable at time `now`. */
  predicate Unexpired(expiresAt: Option<nat>, now: nat) {
    expiresAt.None? || now < expiresAt.value
  }

  /** A stored value and the clock reading at which it expires (None: never). */
  datatype Entry<V> = Entry(value: V, expiresAt: Option<nat>) {
    predicate LiveAt(now: nat) {
      Unexpired(expiresAt, now)
    }
  }

  /** What a failing `get` hands back: its error and its accompanying value. */
  datatype Failure<V> = Failure(error: string, value: Option<V>)

  /** Failures injected into one tier; None means the call behaves normally. */
  datatype Faults<V> = Faults(onGet: Option<Failure<V>>, onSet: Option<string>, onDel: Option<string>)

  datatype Tier<V> = Tier(entries: map<Key, Entry<V>>, faults: Faults<V>)

  function EmptyTier<V>(): Tier<V> {
    Tier(map[], Faults(None, None, None))
  }

  /** The value a reader of the tier would find at time `now`. */
  function Visible<V>(t: Tier<V>, key: Key, now: nat): Option<V> {
    if key in t.entries && t.entries[key].LiveAt(now) then Some(t.entries[key].value) else None
  }

  /** A tier's `get`: its injected error, the live value, or a miss. */
  function TierGet<V>(t: Tier<V>, key: Key, now: nat): (o: Outcome<V>)
    ensures o.Ok? || o.KeyNotFound? || o.BackendError?
    ensures o.BackendError? <==> t.faults.onGet.Some?
    ensures o.BackendError? ==> o.error == t.faults.onGet.value.error && o.result == t.faults.onGet.value.value
    ensures o.Ok? <==> t.faults.onGet.None? && Visible(t, key, now).Some?
    ensures o.Ok? ==> key in t.entries && t.entries[key].LiveAt(now) && o.result == Some(t.entries[key].value)
  {
    match t.faults.onGet
    case Some(f) => BackendError(f.error, f.value)
    case None =>
      match Visible(t, key, now)
      case Some(v) => Ok(Some(v))
      case None => KeyNotFound
  }

  /** A tier's `set`: stores the entry unless the tier fails, in which case it is unchanged. */
  function TierSet<V>(t: Tier<V>, key: Key, value: V, expiresAt: Option<nat>): (r: (Tier<V>, Outcome<bool>))
    ensures r.0.faults == t.faults
    ensures r.0.entries - {key} == t.entries - {key}
    ensures r.1.Ok? || r.1.BackendError?
    ensures r.1.Ok? <==> t.faults.onSet.None?
    ensures r.1.Ok? ==> key in r.0.entries && r.0.entries[key] == Entry(value, expiresAt)
    ensures r.1.BackendError? ==> r.0 == t && r.1 == BackendError(t.faults.onSet.value, None)
  {
    match t.faults.onSet
    case Some(e) => (t, BackendError(e, None))
    case None => (t.(entries := t.entries[key := Entry(value, expiresAt)]), Ok(Some(true)))
  }

  /** A tier's `del`: removes the key, absent or not, unless the tier fails. */
  function TierDel<V>(t: Tier<V>, key: Key): (r: (Tier<V>, Outcome<bool>))
    ensures r.0.faults == t.faults
    ensures r.0.entries - {key} == t.entries - {key}
    ensures r.1.Ok? || r.1.BackendError?
    ensures r.1.Ok? <==> t.faults.onDel.None?
    ensures r.1.Ok? ==> key !in r.0.entries && r.1.result.None?
    ensures r.1.BackendError? ==> r.0 == t && r.1 == BackendError(t.faults.onDel.value, None)
  {
    match t.faults.onDel
    case Some(e) => (t, BackendError(e, None))
    case None => (t.(entries := t.entries - {key}), Ok(None))
  }
}
