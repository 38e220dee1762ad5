/**
 * Instance defaults and per-call options of the coordinator, and how a call's
 * options are resolved against the defaults into the flags that drive one
 * operation.
 */
module Options {
  import opened Wrappers

  /** A time-to-live in whole seconds, as the tests pass it. */
  type Seconds = n: nat | n > 0 witness 1

  /** The defaults an instance keeps for its whole life. */
  datatype Config = Config(useLocalCache: bool, useRemoteCache: bool, disabled: bool)

  /** The optional third constructor argument; None is an absent field. */
  datatype ConfigOptions = ConfigOptions(useLocalCache: Option<bool>, useRemoteCache: Option<bool>, disabled: Option<bool>)

  const NoConfigOptions := ConfigOptions(None, None, None)

  /** Both tiers are on and the instance is enabled unless the options say otherwise. */
  function MakeConfig(o: ConfigOptions): (c: Config)
    ensures c.useLocalCache <==> o.useLocalCache != Some(false)
    ensures c.useRemoteCache <==> o.useRemoteCache != Some(false)
    ensures c.disabled <==> o.disabled == Some(true)
  {
    Config(o.useLocalCache.GetOr(true), o.useRemoteCache.GetOr(true), o.disabled.GetOr(false))
  }

  /** Options given to one `set`, `get` or `del` call; None is an absent field. */
  datatype CallOptions = CallOptions(
    useLocalCache: Option<bool>,
    useRemoteCache: Option<bool>,
    setLocal: Option<bool>,
    disabled: Option<bool>,
    ttl: Option<Seconds>)

  const NoOptions := CallOptions(None, None, None, None, None)

  /** An options object naming both tier flags, like the tests' fixtures. */
  function Tiers(local: bool, remote: bool): CallOptions {
    CallOptions(Some(local), Some(remote), None, None, None)
  }

  const LocalOnly := Tiers(true, false)
  const RemoteOnly := Tiers(false, true)
  const BothActive := Tiers(true, true)
  const BothInactive := Tiers(false, false)

  /** `{setLocal: true}`: read through and back-fill the local tier. */
  const WithSetLocal := CallOptions(None, None, Some(true), None, None)

  /** A bare number in the options position of `set` stands for `{ttl: t}`. */
  function TtlOnly(t: Seconds): CallOptions {
    CallOptions(None, None, None, None, Some(t))
  }

  /** The fully resolved flags of one operation. */
  datatype Effective = Effective(
    useLocalCache: bool,
    useRemoteCache: bool,
    setLocal: bool,
    disabled: bool,
    ttl: Option<Seconds>)
  {
    predicate NoTier() {
      !useLocalCache && !useRemoteCache
    }

    /** The operation goes to the local tier. */
    predicate UsesLocal() {
      !disabled && useLocalCache
    }

    /** The operation goes to the remote tier. */
    predicate UsesRemote() {
      !disabled && useRemoteCache
    }
  }

  /**
   * A flag given in the call wins over the instance default; `disabled` holds
   * when either the instance or the call says so.
   */
  function Resolve(call: CallOptions, cfg: Config): (e: Effective)
    ensures e.disabled <==> cfg.disabled || call.disabled == Some(true)
    ensures call.useLocalCache.None? ==> e.useLocalCache == cfg.useLocalCache
    ensures call.useLocalCache.Some? ==> e.useLocalCache == call.useLocalCache.value
    ensures call.useRemoteCache.None? ==> e.useRemoteCache == cfg.useRemoteCache
    ensures call.useRemoteCache.Some? ==> e.useRemoteCache == call.useRemoteCache.value
    ensures e.setLocal <==> call.setLocal == Some(true)
    ensures e.ttl == call.ttl
  {
    Effective(
      call.useLocalCache.GetOr(cfg.useLocalCache),
      call.useRemoteCache.GetOr(cfg.useRemoteCache),
      call.setLocal.GetOr(false),
      cfg.disabled || call.disabled.GetOr(false),
      call.ttl)
  }
}
