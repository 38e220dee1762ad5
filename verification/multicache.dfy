/**
 * The two-tier cache coordinator: a local and a remote tier, the instance
 * defaults, and a logical clock. `Set`, `Get` and `Del` are step functions that
 * return the next state together with what the caller's callback receives.
 */
module MultiCache {
  import opened Wrappers
  import opened Outcomes
  import opened Options
  import opened Backend

  datatype Cache<V> = Cache(local: Tier<V>, remote: Tier<V>, config: Config, now: nat)

  /** The state after one operation and the outcome reported for it. */
  datatype Step<V, T> = Step(cache: Cache<V>, outcome: Outcome<T>)

  /**
   * A coordinator over two tiers, built with the given constructor options;
   * it starts at time 0.
   */
  function New<V>(local: Tier<V>, remote: Tier<V>, o: ConfigOptions): (c: Cache<V>)
    ensures o == NoConfigOptions ==> c.config.useLocalCache && c.config.useRemoteCache && !c.config.disabled
    ensures c.config == MakeConfig(o)
    ensures c.local == local && c.remote == remote && c.now == 0
  {
    Cache(local, remote, MakeConfig(o), 0)
  }

  /** Lets `seconds` of logical time pass. */
  function Tick<V>(c: Cache<V>, seconds: nat): (r: Cache<V>)
    ensures r.now == c.now + seconds
    ensures r.(now := c.now) == c
  {
    c.(now := c.now + seconds)
  }

  /**
   * The absolute expiry of a write made at `now` with the given time-to-live:
   * the entry is readable exactly until `ttl` seconds have passed.
   */
  function ExpiryFor(ttl: Option<Seconds>, now: nat): (e: Option<nat>)
    ensures ttl.None? <==> e.None?
    ensures forall t: nat :: Unexpired(e, t) <==> Alive(ttl, now, t)
  {
    match ttl
    case None => None
    case Some(t) => Some(now + t)
  }

  /** A value written at `written` with time-to-live `ttl` is still readable at time `t`. */
  predicate Alive(ttl: Option<Seconds>, written: nat, t: nat) {
    ttl.None? || t < written + ttl.value
  }

  /** Joins the outcomes of the participating tiers: the first error, local before remote. */
  function Aggregate(local: Outcome<bool>, remote: Outcome<bool>, success: Option<bool>): (o: Outcome<bool>)
    requires local.Ok? || local.BackendError?
    requires remote.Ok? || remote.BackendError?
    ensures o.Ok? <==> local.Ok? && remote.Ok?
    ensures o.Ok? ==> o.result == success
    ensures local.BackendError? ==> o == BackendError(local.error, None)
    ensures local.Ok? && remote.BackendError? ==> o == BackendError(remote.error, None)
  {
    if local.BackendError? then BackendError(local.error, None)
    else if remote.BackendError? then BackendError(remote.error, None)
    else Ok(success)
  }

  /** `set(key, value, options)`: writes to every selected tier with the call's ttl. */
  function Set<V>(c: Cache<V>, key: Key, value: V, opts: CallOptions): (r: Step<V, bool>)
    ensures r.cache.config == c.config && r.cache.now == c.now
    ensures r.cache.local.faults == c.local.faults && r.cache.remote.faults == c.remote.faults
    // only `key` can change, and only in a selected tier
    ensures r.cache.local.entries - {key} == c.local.entries - {key}
    ensures r.cache.remote.entries - {key} == c.remote.entries - {key}
    ensures !Resolve(opts, c.config).UsesLocal() ==> r.cache.local == c.local
    ensures !Resolve(opts, c.config).UsesRemote() ==> r.cache.remote == c.remote
    // disabled: a silent no-op with an undefined result
    ensures Resolve(opts, c.config).disabled ==> r == Step(c, Ok(None))
    // nothing selected: a configuration error, nothing written
    ensures !Resolve(opts, c.config).disabled && Resolve(opts, c.config).NoTier() ==>
              r == Step(c, ConfigError(SetConfigMessage))
    // success exactly when every selected tier accepted the write
    ensures r.outcome.Ok? || r.outcome.ConfigError? || r.outcome.BackendError?
    ensures r.outcome.ConfigError? ==> !Resolve(opts, c.config).disabled && Resolve(opts, c.config).NoTier()
    ensures r.outcome.Ok? <==>
              var e := Resolve(opts, c.config);
              e.disabled ||
              (!e.NoTier() &&
               (e.useLocalCache ==> c.local.faults.onSet.None?) &&
               (e.useRemoteCache ==> c.remote.faults.onSet.None?))
    // `Some(true)` stands for the backend's non-empty success reply, not the JavaScript value `true`
    ensures r.outcome.Ok? && !Resolve(opts, c.config).disabled ==> r.outcome.result == Some(true)
    ensures r.outcome.IsError() ==> r.outcome.Value().None?
    // a tier that accepted the write holds the value, even if the other tier failed,
    // until the call's ttl has passed
    ensures Resolve(opts, c.config).UsesLocal() && c.local.faults.onSet.None? ==>
              Visible(r.cache.local, key, c.now) == Some(value) &&
              forall t: nat :: Visible(r.cache.local, key, t) ==
                (if Alive(Resolve(opts, c.config).ttl, c.now, t) then Some(value) else None)
    ensures Resolve(opts, c.config).UsesRemote() && c.remote.faults.onSet.None? ==>
              Visible(r.cache.remote, key, c.now) == Some(value) &&
              forall t: nat :: Visible(r.cache.remote, key, t) ==
                (if Alive(Resolve(opts, c.config).ttl, c.now, t) then Some(value) else None)
    // a tier that refused the write is left as it was
    ensures c.local.faults.onSet.Some? ==> r.cache.local == c.local
    ensures c.remote.faults.onSet.Some? ==> r.cache.remote == c.remote
    // a failed write reports the refusing tier's error, the local one when both refuse
    ensures r.outcome.BackendError? ==>
              r.outcome.error ==
                (if Resolve(opts, c.config).useLocalCache && c.local.faults.onSet.Some?
                 then c.local.faults.onSet.value else c.remote.faults.onSet.value)
  {
    var e := Resolve(opts, c.config);
    if e.disabled then Step(c, Ok(None))
    else if e.NoTier() then Step(c, ConfigError(SetConfigMessage))
    else
      var expiry := ExpiryFor(e.ttl, c.now);
      var (local, lo) := if e.useLocalCache then TierSet(c.local, key, value, expiry) else (c.local, Ok(None));
      var (remote, ro) := if e.useRemoteCache then TierSet(c.remote, key, value, expiry) else (c.remote, Ok(None));
      Step(c.(local := local, remote := remote), Aggregate(lo, ro, Some(true)))
  }

  /** Copies a remote entry, with its expiry, into the local tier; the write's outcome is dropped. */
  function Backfill<V>(local: Tier<V>, key: Key, entry: Entry<V>): Tier<V> {
    TierSet(local, key, entry.value, entry.expiresAt).0
  }

  /**
   * `get(key, options)`: a single selected tier answers verbatim; with both, the
   * local tier answers unless it misses, and then the remote one does.
   */
  function Get<V>(c: Cache<V>, key: Key, opts: CallOptions): (r: Step<V, V>)
    ensures r.cache.config == c.config && r.cache.now == c.now
    ensures r.cache.remote == c.remote
    ensures r.cache.local.faults == c.local.faults
    ensures r.cache.local.entries - {key} == c.local.entries - {key}
    // disabled: behaves as if nothing is ever cached
    ensures Resolve(opts, c.config).disabled ==> r == Step(c, KeyNotFound)
    ensures !Resolve(opts, c.config).disabled && Resolve(opts, c.config).NoTier() ==>
              r == Step(c, ConfigError(GetConfigMessage))
    // one selected tier: its reply is passed on and the other tier is not consulted
    ensures Resolve(opts, c.config).UsesLocal() && !Resolve(opts, c.config).useRemoteCache ==>
              r == Step(c, TierGet(c.local, key, c.now))
    ensures Resolve(opts, c.config).UsesRemote() && !Resolve(opts, c.config).useLocalCache ==>
              r == Step(c, TierGet(c.remote, key, c.now))
    // both selected: a local hit or a local error is final
    ensures Resolve(opts, c.config).UsesLocal() && Resolve(opts, c.config).UsesRemote() &&
            !TierGet(c.local, key, c.now).KeyNotFound? ==>
              r == Step(c, TierGet(c.local, key, c.now))
    // both selected, local miss: the remote reply is passed on
    ensures Resolve(opts, c.config).UsesLocal() && Resolve(opts, c.config).UsesRemote() &&
            TierGet(c.local, key, c.now).KeyNotFound? ==>
              r.outcome == TierGet(c.remote, key, c.now)
    // the local tier changes only by back-filling a remote hit when setLocal is asked for
    ensures r.cache.local != c.local ==>
              Resolve(opts, c.config).UsesLocal() && Resolve(opts, c.config).UsesRemote() &&
              Resolve(opts, c.config).setLocal && c.local.faults.onSet.None? &&
              TierGet(c.local, key, c.now).KeyNotFound? && TierGet(c.remote, key, c.now).Ok?
    ensures Resolve(opts, c.config).UsesLocal() && Resolve(opts, c.config).UsesRemote() &&
            Resolve(opts, c.config).setLocal && c.local.faults.onSet.None? &&
            TierGet(c.local, key, c.now).KeyNotFound? && TierGet(c.remote, key, c.now).Ok? ==>
              key in r.cache.local.entries && key in c.remote.entries &&
              r.cache.local.entries[key] == c.remote.entries[key]
  {
    var e := Resolve(opts, c.config);
    if e.disabled then Step(c, KeyNotFound)
    else if e.NoTier() then Step(c, ConfigError(GetConfigMessage))
    else if !e.useRemoteCache then Step(c, TierGet(c.local, key, c.now))
    else if !e.useLocalCache then Step(c, TierGet(c.remote, key, c.now))
    else
      var lo := TierGet(c.local, key, c.now);
      if !lo.KeyNotFound? then Step(c, lo)
      else
        var ro := TierGet(c.remote, key, c.now);
        if ro.Ok? && e.setLocal then Step(c.(local := Backfill(c.local, key, c.remote.entries[key])), ro)
        else Step(c, ro)
  }

  /** `del(key, options)`: removes the key from every selected tier. */
  function Del<V>(c: Cache<V>, key: Key, opts: CallOptions): (r: Step<V, bool>)
    ensures r.cache.config == c.config && r.cache.now == c.now
    ensures r.cache.local.faults == c.local.faults && r.cache.remote.faults == c.remote.faults
    ensures r.cache.local.entries - {key} == c.local.entries - {key}
    ensures r.cache.remote.entries - {key} == c.remote.entries - {key}
    ensures !Resolve(opts, c.config).UsesLocal() ==> r.cache.local == c.local
    ensures !Resolve(opts, c.config).UsesRemote() ==> r.cache.remote == c.remote
    // disabled, or nothing selected: success and nothing changes
    ensures Resolve(opts, c.config).disabled || Resolve(opts, c.config).NoTier() ==> r == Step(c, Ok(None))
    // never a configuration error; success carries no result
    ensures r.outcome.Ok? || r.outcome.BackendError?
    ensures r.outcome.Value().None?
    ensures r.outcome.Ok? <==>
              (Resolve(opts, c.config).UsesLocal() ==> c.local.faults.onDel.None?) &&
              (Resolve(opts, c.config).UsesRemote() ==> c.remote.faults.onDel.None?)
    ensures Resolve(opts, c.config).UsesLocal() && c.local.faults.onDel.None? ==> key !in r.cache.local.entries
    ensures Resolve(opts, c.config).UsesRemote() && c.remote.faults.onDel.None? ==> key !in r.cache.remote.entries
    // a tier whose del fails is left as it was, and its error is reported, the local one first
    ensures c.local.faults.onDel.Some? ==> r.cache.local == c.local
    ensures c.remote.faults.onDel.Some? ==> r.cache.remote == c.remote
    ensures r.outcome.BackendError? ==>
              r.outcome.error ==
                (if Resolve(opts, c.config).UsesLocal() && c.local.faults.onDel.Some?
                 then c.local.faults.onDel.value else c.remote.faults.onDel.value)
  {
    var e := Resolve(opts, c.config);
    if e.disabled || e.NoTier() then Step(c, Ok(None))
    else
      var (local, lo) := if e.useLocalCache then TierDel(c.local, key) else (c.local, Ok(None));
      var (remote, ro) := if e.useRemoteCache then TierDel(c.remote, key) else (c.remote, Ok(None));
      Step(c.(local := local, remote := remote), Aggregate(lo, ro, None))
  }
}
