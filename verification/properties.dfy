/**
 * Properties relating several coordinator calls: round trips, tier isolation,
 * fallback with back-fill, error passthrough, deletion per tier and expiry.
 */
module Properties {
  import opened Wrappers
  import opened Outcomes
  import opened Options
  import opened Backend
  import opened MultiCache

  /** A tier none of whose calls has been made to fail. */
  predicate Healthy<V>(t: Tier<V>) {
    t.faults == Faults(None, None, None)
  }

  /** An instance whose defaults select both tiers and which is enabled. */
  predicate BothByDefault(cfg: Config) {
    cfg.useLocalCache && cfg.useRemoteCache && !cfg.disabled
  }

  /** An absent option falls back to the instance default; a given one overrides it. */
  lemma LemmaResolveDefaults(cfg: Config, local: bool, remote: bool)
    ensures Resolve(NoOptions, cfg) == Effective(cfg.useLocalCache, cfg.useRemoteCache, false, cfg.disabled, None)
    ensures Resolve(Tiers(local, remote), cfg) == Effective(local, remote, false, cfg.disabled, None)
  {
  }

  /** With both tiers written, each tier alone and the pair give back the stored value. */
  lemma LemmaSetThenGetRoundTrip<V>(c: Cache<V>, key: Key, value: V, opts: CallOptions)
    requires Healthy(c.local) && Healthy(c.remote)
    requires Resolve(opts, c.config).UsesLocal() && Resolve(opts, c.config).UsesRemote()
    ensures Set(c, key, value, opts).outcome == Ok(Some(true))
    ensures Get(Set(c, key, value, opts).cache, key, LocalOnly) == Step(Set(c, key, value, opts).cache, Ok(Some(value)))
    ensures Get(Set(c, key, value, opts).cache, key, RemoteOnly) == Step(Set(c, key, value, opts).cache, Ok(Some(value)))
    ensures c.config.useLocalCache || c.config.useRemoteCache ==>
              Get(Set(c, key, value, opts).cache, key, NoOptions).outcome == Ok(Some(value))
  {
  }

  /** A local-only write is seen locally and leaves what a remote read reports unchanged. */
  lemma LemmaLocalOnlySetIsolated<V>(c: Cache<V>, key: Key, value: V, opts: CallOptions)
    requires Healthy(c.local) && Healthy(c.remote)
    requires Resolve(opts, c.config).UsesLocal() && !Resolve(opts, c.config).useRemoteCache
    ensures Set(c, key, value, opts).outcome == Ok(Some(true))
    ensures Set(c, key, value, opts).cache.remote == c.remote
    ensures Get(Set(c, key, value, opts).cache, key, LocalOnly).outcome == Ok(Some(value))
    ensures Get(Set(c, key, value, opts).cache, key, RemoteOnly).outcome == Get(c, key, RemoteOnly).outcome
    ensures Visible(c.remote, key, c.now).None? ==>
              var g := Get(Set(c, key, value, opts).cache, key, RemoteOnly).outcome;
              g == KeyNotFound && g.Value().None?
  {
  }

  /** A remote-only write is seen remotely and leaves what a local read reports unchanged. */
  lemma LemmaRemoteOnlySetIsolated<V>(c: Cache<V>, key: Key, value: V, opts: CallOptions)
    requires Healthy(c.local) && Healthy(c.remote)
    requires Resolve(opts, c.config).UsesRemote() && !Resolve(opts, c.config).useLocalCache
    ensures Set(c, key, value, opts).outcome == Ok(Some(true))
    ensures Set(c, key, value, opts).cache.local == c.local
    ensures Get(Set(c, key, value, opts).cache, key, RemoteOnly).outcome == Ok(Some(value))
    ensures Get(Set(c, key, value, opts).cache, key, LocalOnly).outcome == Get(c, key, LocalOnly).outcome
    ensures Visible(c.local, key, c.now).None? ==>
              var g := Get(Set(c, key, value, opts).cache, key, LocalOnly).outcome;
              g == KeyNotFound && g.Value().None?
  {
  }

  /** With no tier selected, set and get are configuration errors; set without a callback throws. */
  lemma LemmaNoTierIsConfigError<V>(c: Cache<V>, key: Key, value: V, opts: CallOptions)
    requires !Resolve(opts, c.config).disabled && Resolve(opts, c.config).NoTier()
    ensures Set(c, key, value, opts) == Step(c, ConfigError(SetConfigMessage))
    ensures Set(c, key, value, opts).outcome.Value().None?
    ensures Deliver(Set(c, key, value, opts).outcome, false) == Thrown(SetConfigMessage)
    ensures Get(c, key, opts) == Step(c, ConfigError(GetConfigMessage))
    ensures Get(c, key, opts).outcome.Value().None?
  {
  }

  /** A disabled instance stores nothing, finds nothing and deletes nothing, without errors for set and del. */
  lemma LemmaDisabledIsNoop<V>(c: Cache<V>, key: Key, value: V, opts: CallOptions, getOpts: CallOptions, delOpts: CallOptions)
    requires c.config.disabled
    ensures Set(c, key, value, opts) == Step(c, Ok(None))
    ensures Deliver(Set(c, key, value, opts).outcome, false) == Dropped
    ensures var g := Get(Set(c, key, value, opts).cache, key, getOpts).outcome;
            g == KeyNotFound && g.ErrorName() == Some(MultiErrorName) && g.Value().None?
    ensures Del(c, key, delOpts) == Step(c, Ok(None))
  {
  }

  /** The read-through reference: the first tier that holds the key supplies the value. */
  function ReadThrough<V>(local: Option<V>, remote: Option<V>): Option<V> {
    if local.Some? then local else remote
  }

  /** With both tiers selected and answering, get agrees with the read-through reference. */
  lemma LemmaGetIsReadThrough<V>(c: Cache<V>, key: Key, opts: CallOptions)
    requires c.local.faults.onGet.None? && c.remote.faults.onGet.None?
    requires Resolve(opts, c.config).UsesLocal() && Resolve(opts, c.config).UsesRemote()
    ensures var o := Get(c, key, opts).outcome;
            var expected := ReadThrough(Visible(c.local, key, c.now), Visible(c.remote, key, c.now));
            (o.Ok? <==> expected.Some?) && (o.KeyNotFound? <==> expected.None?) &&
            (o.Ok? ==> o.result == expected)
  {
  }

  /** A local miss falls through to the remote value, leaving the cache unchanged without setLocal. */
  lemma LemmaRemoteFallback<V>(c: Cache<V>, key: Key, value: V)
    requires Healthy(c.local) && Healthy(c.remote) && BothByDefault(c.config)
    requires Visible(c.local, key, c.now).None?
    ensures var s := Set(c, key, value, RemoteOnly);
            var g := Get(s.cache, key, NoOptions);
            g == Step(s.cache, Ok(Some(value))) &&
            Get(g.cache, key, LocalOnly).outcome == KeyNotFound &&
            Get(g.cache, key, LocalOnly).outcome.Value().None?
  {
  }

  /** With setLocal, a remote hit is copied into the local tier, where a local-only read then finds it. */
  lemma LemmaSetLocalBackfills<V>(c: Cache<V>, key: Key, value: V)
    requires Healthy(c.local) && Healthy(c.remote) && BothByDefault(c.config)
    requires Visible(c.local, key, c.now).None?
    ensures var s := Set(c, key, value, RemoteOnly);
            var g := Get(s.cache, key, WithSetLocal);
            g.outcome == Ok(Some(value)) &&
            Get(g.cache, key, LocalOnly).outcome == Ok(Some(value))
  {
  }

  /** A back-filled local entry shows what the remote entry shows, at every later time. */
  lemma LemmaBackfillTracksRemote<V>(c: Cache<V>, key: Key, opts: CallOptions)
    requires c.local.faults.onSet.None?
    requires Get(c, key, opts).cache.local != c.local
    ensures forall t: nat :: Visible(Get(c, key, opts).cache.local, key, t) == Visible(c.remote, key, t)
  {
  }

  /** An error from the local tier is reported verbatim with its value; the remote tier is not consulted. */
  lemma LemmaLocalGetErrorPassthrough<V>(c: Cache<V>, key: Key, opts: CallOptions, f: Failure<V>)
    requires c.local.faults.onGet == Some(f)
    requires Resolve(opts, c.config).UsesLocal()
    ensures Get(c, key, opts) == Step(c, BackendError(f.error, f.value))
    ensures Get(c, key, opts).outcome.Value() == f.value
  {
  }

  /** After a local miss, an error from the remote tier is reported verbatim with its value. */
  lemma LemmaRemoteGetErrorPassthrough<V>(c: Cache<V>, key: Key, opts: CallOptions, f: Failure<V>)
    requires c.local.faults.onGet.None? && Visible(c.local, key, c.now).None?
    requires c.remote.faults.onGet == Some(f)
    requires Resolve(opts, c.config).UsesRemote()
    ensures Get(c, key, opts) == Step(c, BackendError(f.error, f.value))
    ensures Get(c, key, opts).outcome.Value() == f.value
  {
  }

  /** After writing both tiers, del empties exactly the selected tiers and the others keep the value. */
  lemma LemmaDelOnlySelectedTiers<V>(c: Cache<V>, key: Key, value: V, opts: CallOptions)
    requires Healthy(c.local) && Healthy(c.remote) && BothByDefault(c.config)
    ensures var s := Set(c, key, value, NoOptions);
            var d := Del(s.cache, key, opts);
            d.outcome == Ok(None) &&
            (Resolve(opts, c.config).UsesLocal() <==> Get(d.cache, key, LocalOnly).outcome == KeyNotFound) &&
            (!Resolve(opts, c.config).UsesLocal() <==> Get(d.cache, key, LocalOnly).outcome == Ok(Some(value))) &&
            (Resolve(opts, c.config).UsesRemote() <==> Get(d.cache, key, RemoteOnly).outcome == KeyNotFound) &&
            (!Resolve(opts, c.config).UsesRemote() <==> Get(d.cache, key, RemoteOnly).outcome == Ok(Some(value)))
  {
  }

  /** A write with a ttl is visible in both tiers until the ttl has passed, and a miss from then on. */
  lemma LemmaTtlExpiry<V>(c: Cache<V>, key: Key, value: V, ttl: Seconds, wait: nat)
    requires Healthy(c.local) && Healthy(c.remote) && BothByDefault(c.config)
    ensures Set(c, key, value, TtlOnly(ttl)).outcome == Ok(Some(true))
    ensures var s := Set(c, key, value, TtlOnly(ttl)).cache;
            Get(s, key, LocalOnly).outcome == Ok(Some(value)) &&
            Get(s, key, RemoteOnly).outcome == Ok(Some(value))
    ensures var later := Tick(Set(c, key, value, TtlOnly(ttl)).cache, wait);
            (wait < ttl ==> Get(later, key, LocalOnly).outcome == Ok(Some(value)) &&
                            Get(later, key, RemoteOnly).outcome == Ok(Some(value))) &&
            (wait >= ttl ==> Get(later, key, LocalOnly).outcome == KeyNotFound &&
                             Get(later, key, RemoteOnly).outcome == KeyNotFound)
  {
  }
}
