# Two-tier cache coordinator (multi-level-cache), modelled in Dafny

The system puts a fast *local* cache and a shared *remote* cache behind one
key/value interface. For each `set`, `get` and `del` the coordinator resolves
the call's options against the instance defaults (`useLocalCache`,
`useRemoteCache`, `disabled`) and decides which tiers take part:

- `set` writes to every selected tier. A disabled instance makes it a silent no-op. With no tier selected it is a configuration error, which is thrown when there is no callback.
- `get` reads one selected tier verbatim. With both tiers it reads local first and falls back to remote on a miss, optionally back-filling local (`setLocal`). A backend error is passed on with its value.
- `del` removes the key from the selected tiers. When nothing is selected or the instance is disabled it does nothing and succeeds.

The coordinator's implementation file is not part of this model. Its behaviour
comes from the test suite `test/lib/test.multi.js`, and the model is an abstract
specification of it. Where the suite is silent (a tier failing on set or del,
the order in which two tier errors are reported), the model adopts the rules
listed under "Left out". The tiers are maps from key
to entry. Expiry runs on a logical clock (`Cache.now`, advanced by `Tick`). A
broken backend is a per-tier injected failure.

Files:

- `wrappers.dfy` — `Option`, standing for a present value versus `undefined`.
- `outcomes.dfy` — the closed outcome type: `Ok`, `ConfigError`, `KeyNotFound` (named `MultiError`) and `BackendError`. Also delivery through a callback, a synchronous throw, or dropping.
- `options.dfy` — instance defaults, per-call options, the ttl shorthand and option resolution.
- `backend.dfy` — one tier: entries with expiry, injected failures, and the tier's get/set/del.
- `multicache.dfy` — the coordinator state and the `Set`, `Get` and `Del` step functions.
- `properties.dfy` — lemmas relating several calls: round trips, isolation, fallback, back-fill, error passthrough, deletion and expiry. Also a read-through reference for `get`.
- `traces.dfy` — runs of arbitrarily many calls, with induction proofs of tier frame conditions and of the inertness of a disabled instance.
- `scenarios.dfy` — concrete replays of the suite's cases, including the deeply nested value.

## Model

| member | source | states |
|---|---|---|
| Options.MakeConfig | test/lib/test.multi.js:52-56 | both tiers are on and the instance is enabled unless the constructor options turn them off; `disabled` holds only when given as true |
| Options.Resolve | test/lib/test.multi.js:112-150 | a flag given in the call overrides the instance default and an absent one falls back to it; `disabled` holds if the instance or the call says so; `setLocal` defaults to false |
| Properties.LemmaResolveDefaults | test/lib/test.multi.js:58-63 | a call without options runs with exactly the instance defaults; a call naming both tier flags runs with those flags |
| MultiCache.New | test/lib/test.multi.js:52-56 | a coordinator built without options has both tiers on and is enabled; it keeps the two tiers it was given and starts its clock at 0 |
| Outcomes.Deliver | test/lib/test.multi.js:193-201 | with a callback the outcome is delivered; without one, a configuration error is thrown with its message and anything else is dropped |
| Backend.TierGet | test/lib/test.multi.js:315-317 | a tier's get reports its injected error with the accompanying value, otherwise the live stored value, otherwise a miss |
| MultiCache.ExpiryFor | test/lib/test.multi.js:528-554 | an entry written with a ttl is readable at a time exactly when fewer than ttl seconds have passed since the write; without a ttl it never expires |
| MultiCache.Set | test/lib/test.multi.js:112-212 | only the key changes, and only in selected tiers; disabled is a no-op with an undefined result; no tier is the set configuration error, and a configuration error means exactly that; success iff every selected tier accepted; an accepting tier holds the value even when the other failed, readable exactly until the call's ttl has passed; a refusing tier is unchanged; a failure reports the refusing tier's error, the local one when both refuse, and carries no result |
| MultiCache.Get | test/lib/test.multi.js:214-345 | remote never changes; disabled is a miss; no tier is the get configuration error; one selected tier answers verbatim; with both, a local hit or error is final and a local miss yields the remote reply; local changes only by back-filling a remote hit under setLocal into a local tier that accepts writes, with the remote entry |
| MultiCache.Del | test/lib/test.multi.js:351-448 | only the key changes, and only in selected tiers; disabled or no tier succeeds and changes nothing; never a configuration error; the result is undefined; a selected working tier no longer holds the key; a failing tier is unchanged and its error is reported, the local one when both fail |
| Properties.LemmaSetThenGetRoundTrip | test/lib/test.multi.js:152-169 | after a set to both tiers, a local-only, a remote-only and a default read each return the stored value unchanged |
| Properties.LemmaLocalOnlySetIsolated | test/lib/test.multi.js:112-130 | a local-only set is read back locally; a remote read reports what it reported before, a miss with undefined value if remote lacked the key |
| Properties.LemmaRemoteOnlySetIsolated | test/lib/test.multi.js:132-150 | a remote-only set is read back remotely; a local read reports what it reported before, a miss with undefined value if local lacked the key |
| Properties.LemmaNoTierIsConfigError | test/lib/test.multi.js:193-227 | with no tier selected set reports the set message with an undefined result and throws it without a callback; get reports the get message with an undefined value |
| Properties.LemmaDisabledIsNoop | test/lib/test.multi.js:231-265 | a disabled instance's set succeeds with an undefined result and changes nothing, a later get is a miss named MultiError with undefined value, del succeeds with an undefined result and changes nothing |
| Properties.LemmaGetIsReadThrough | test/lib/test.multi.js:276-311 | with both tiers answering, get returns a value iff some tier holds the key, the local value first, and misses iff neither does |
| Properties.LemmaRemoteFallback | test/lib/test.multi.js:276-293 | after a remote-only set, a default get returns the remote value and leaves local without the key |
| Properties.LemmaSetLocalBackfills | test/lib/test.multi.js:295-311 | after a remote-only set, a get with setLocal returns the value and a later local-only get finds it |
| Properties.LemmaBackfillTracksRemote | test/lib/test.multi.js:295-311 | a back-filled local entry shows at every time what the remote entry shows, expiry included |
| Properties.LemmaLocalGetErrorPassthrough | test/lib/test.multi.js:313-328 | a failing local get yields exactly its error and value, whatever the remote tier holds |
| Properties.LemmaRemoteGetErrorPassthrough | test/lib/test.multi.js:330-345 | after a local miss, a failing remote get yields exactly its error and value |
| Properties.LemmaDelOnlySelectedTiers | test/lib/test.multi.js:351-448 | after a set to both tiers, del makes a tier miss iff it was selected, and a tier keeps the value iff it was not; del succeeds |
| Properties.LemmaTtlExpiry | test/lib/test.multi.js:524-558 | a set with a ttl is read back from both tiers at once; after waiting it is still found iff the wait is shorter than the ttl, and misses in both tiers otherwise |
| Traces.Run | test/lib/test.multi.js:524-558 | running a chain of calls with waits yields one reply of the matching kind per call, keeps the defaults, and advances the clock by the total of the waits |
| Traces.LemmaRunStepwise | test/lib/test.multi.js:58-73 | in a chain of calls each call acts on the state its predecessors left: its reply and the state after it are those it gives on that state |
| Traces.LemmaRemoteWrittenOnlyWhenSelected | test/lib/test.multi.js:112-130 | any run in which no set or del selects the remote tier leaves the remote tier unchanged |
| Traces.LemmaLocalWrittenOnlyWhenSelected | test/lib/test.multi.js:132-150 | any run in which no set or del selects the local tier and no get back-fills leaves the local tier unchanged |
| Traces.LemmaLocalOnlyInstanceKeepsRemote | test/lib/test.multi.js:76-98 | on a local-only instance, a run whose calls never ask for the remote tier leaves it unchanged |
| Traces.LemmaDisabledRunIsInert | test/lib/test.multi.js:231-265 | on a disabled instance every run leaves both tiers unchanged, every get misses and every set or del succeeds with an undefined result |
| Scenarios.ScenarioCreateWithoutOptions | test/lib/test.multi.js:52-74 | a fresh default instance's set is read back by a default and by a remote-only get |
| Scenarios.ScenarioLocalOnlyInstance | test/lib/test.multi.js:76-98 | an instance built local-only reads its value back with a local-only get and misses remotely |
| Scenarios.ScenarioSetWithoutCallback | test/lib/test.multi.js:171-191 | a set without a callback drops its outcome, and after a wait a local-only and a remote-only get each return the value |
| Scenarios.ScenarioNeitherTier | test/lib/test.multi.js:193-227 | on an instance with neither tier, set reports the set configuration error with an undefined result and throws it without a callback; a get naming neither tier reports the get configuration error |
| Scenarios.ScenarioComplexObject | test/lib/test.multi.js:453-521 | the deeply nested value with arrays, two separately taken dates and booleans comes back unchanged from each tier |
| Scenarios.ScenarioExpiry | test/lib/test.multi.js:524-558 | with a one-second ttl the value is found in both tiers at once and missing from both two seconds later |
| Scenarios.ScenarioLocalGetFails | test/lib/test.multi.js:313-328 | a local tier stubbed to fail yields "fake error" with "fake value" although both tiers hold the key |

## Left out

- Concrete backends (the in-process expiring store and the networked store) and the choice of backend pair by environment variable are left out. Each tier is a map with an injected-failure record.
- Construction from a backend name is left out. `New` takes two tier values, and the scenarios pass two fresh empty tiers (`EmptyTier`).
- MultiCache.New: tiers are values owned by one coordinator, not shared handles. The model cannot express one store shared by two coordinators, as injecting the same handle into both would give and as the suite's clean-up through a second instance relies on. The distinctness of the local and remote handles is structural: the two tiers are separate fields, even when their contents are equal.
- MultiCache.ExpiryFor: a write without a ttl never expires in the model. A real backend would apply its own default expiry, which is not modelled.
- Asynchronous delivery and real timers are left out. Every call completes in one step, and waiting is `Tick` on a logical clock. A set or del without a callback has its outcome dropped (`Deliver`).
- Test doubles replacing a tier's `get` become the tier's `onGet` failure. Failures of a tier's set and del (`onSet`, `onDel`) are not exercised by any test: the model reports such a failure as the call's error and does not undo the other tier's write.
- MultiCache.Set: when both selected tiers fail, the model reports the local tier's error. The test suite does not fix which error is reported.
- MultiCache.Del: when both selected tiers fail, the model reports the local tier's error. The test suite does not fix which error is reported.
- MultiCache.Get: a falsy or empty value stored by a backend is a hit in the model. The JavaScript truthiness used to detect misses is not modelled.
- JavaScript value details are not modelled: `Date` serialisation, `_.isEmpty` and deep-equality semantics. Values are an opaque type with equality; the nested case uses a JSON-like datatype.
- Outcomes.Outcome: only a miss has an error name ("MultiError"). A configuration error carries only its message, and a backend error is the backend's own value.
- Options.Seconds: a ttl is a positive whole number of seconds. A zero or fractional ttl is backend-specific and left out.
- MultiCache.Get: a back-fill copies the remote entry's expiry into the local tier; the test suite does not pin down the expiry of a back-filled entry.
- Options.Resolve: an instance-level `disabled` cannot be switched off by a per-call `disabled: false`; the model treats `disabled` as set when either the instance or the call sets it. The tests do not exercise a per-call `disabled`.
