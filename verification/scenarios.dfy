/**
 * Concrete runs matching the test suite's cases, on fresh coordinators with the
 * key "myKey". Values in the complex-object case are JSON-like trees.
 */
module Scenarios {
  import opened Wrappers
  import opened Outcomes
  import opened Options
  import opened Backend
  import opened MultiCache
  import opened Properties
  import opened Traces

  /** Structured values: objects keep their fields in order, dates are instants in milliseconds. */
  datatype Json =
    | JNull
    | JBool(b: bool)
    | JNumber(n: int)
    | JString(s: string)
    | JDate(millis: int)
    | JArray(items: seq<Json>)
    | JObject(fields: seq<(string, Json)>)

  /** Wraps `inner` in one single-field object per name, outermost first. */
  function Nest(names: seq<string>, inner: Json): Json
    decreases |names|
  {
    if names == [] then inner else JObject([(names[0], Nest(names[1..], inner))])
  }

  /** A value shaped like the suite's deeply nested object; its two dates are taken separately. */
  function ComplexValue(first: int, second: int): Json {
    Nest(["nested", "obj", "which", "keeps", "getting", "deeper", "and", "deeper", "and", "has", "an", "array"],
      JObject([
        ("inside", JObject([
          ("it", JArray([JNumber(1), JNumber(1), JNumber(2), JNumber(6), JNumber(24),
                         JObject([("an", JString("object"))]), JString("a string"),
                         JDate(first), JBool(true), JBool(false)])),
          ("and", JObject([("a", JObject([("date", JDate(second))]))])),
          ("a", JObject([("number", JNumber(1234))])),
          ("bool", JBool(true)),
          ("string", JString("another string"))]))]))
  }

  const Key := "myKey"

  /** A fresh default instance writes both tiers; both a default and a remote-only read find the value. */
  lemma ScenarioCreateWithoutOptions()
    ensures var c := New<string>(EmptyTier(), EmptyTier(), NoConfigOptions);
            var s := Set(c, Key, "myValue", NoOptions);
            s.outcome == Ok(Some(true)) &&
            Get(s.cache, Key, NoOptions).outcome == Ok(Some("myValue")) &&
            Get(s.cache, Key, RemoteOnly).outcome == Ok(Some("myValue"))
  {
    var c := New<string>(EmptyTier(), EmptyTier(), NoConfigOptions);
    LemmaSetThenGetRoundTrip(c, Key, "myValue", NoOptions);
  }

  /** A local-only instance: the value is read back locally and missing remotely. */
  lemma ScenarioLocalOnlyInstance()
    ensures var c := New<string>(EmptyTier(), EmptyTier(), ConfigOptions(Some(true), Some(false), None));
            var s := Set(c, Key, "myValue", NoOptions);
            s.outcome == Ok(Some(true)) &&
            Get(s.cache, Key, LocalOnly).outcome == Ok(Some("myValue")) &&
            Get(s.cache, Key, RemoteOnly).outcome == KeyNotFound
  {
    var c := New<string>(EmptyTier(), EmptyTier(), ConfigOptions(Some(true), Some(false), None));
    LemmaLocalOnlySetIsolated(c, Key, "myValue", NoOptions);
  }

  /** The nested value comes back unchanged from each tier. */
  lemma ScenarioComplexObject(first: int, second: int)
    ensures var c := New<Json>(EmptyTier(), EmptyTier(), NoConfigOptions);
            var s := Set(c, Key, ComplexValue(first, second), BothActive);
            s.outcome == Ok(Some(true)) &&
            Get(s.cache, Key, LocalOnly).outcome == Ok(Some(ComplexValue(first, second))) &&
            Get(s.cache, Key, RemoteOnly).outcome == Ok(Some(ComplexValue(first, second)))
  {
    LemmaSetThenGetRoundTrip(New<Json>(EmptyTier(), EmptyTier(), NoConfigOptions), Key, ComplexValue(first, second), BothActive);
  }

  /** A one-second ttl: found in both tiers at once, missing from both two seconds later. */
  lemma ScenarioExpiry()
    ensures var s := Set(New<string>(EmptyTier(), EmptyTier(), NoConfigOptions), Key, "myValue", TtlOnly(1)).cache;
            Get(s, Key, LocalOnly).outcome == Ok(Some("myValue")) &&
            Get(s, Key, RemoteOnly).outcome == Ok(Some("myValue")) &&
            Get(Tick(s, 2), Key, LocalOnly).outcome == KeyNotFound &&
            Get(Tick(s, 2), Key, RemoteOnly).outcome == KeyNotFound
  {
    LemmaTtlExpiry(New<string>(EmptyTier(), EmptyTier(), NoConfigOptions), Key, "myValue", 1, 2);
  }

  /** A local tier whose get fails hands its error and value to the caller, though both tiers hold the key. */
  lemma ScenarioLocalGetFails()
    ensures var s := Set(New<string>(EmptyTier(), EmptyTier(), ConfigOptions(Some(true), Some(true), None)), Key, "myValue", NoOptions).cache;
            var broken := s.(local := s.local.(faults := s.local.faults.(onGet := Some(Failure("fake error", Some("fake value"))))));
            Get(broken, Key, NoOptions).outcome == BackendError("fake error", Some("fake value"))
  {
  }

  /**
   * A set without a callback drops its outcome, yet after a wait both tiers
   * return the value. The half-second wait is shorter than the whole-second
   * clock's tick, so it is `Wait(0)`.
   */
  lemma ScenarioSetWithoutCallback()
    ensures var c := New<string>(EmptyTier(), EmptyTier(), ConfigOptions(Some(true), Some(true), None));
            var ops := [SetOp(Key, "myValue", NoOptions), Wait(0), GetOp(Key, LocalOnly), GetOp(Key, RemoteOnly)];
            var replies := Run(c, ops).1;
            Deliver(replies[0].stored, false) == Dropped &&
            replies[2] == GetReply(Ok(Some("myValue"))) &&
            replies[3] == GetReply(Ok(Some("myValue")))
  {
    var c := New<string>(EmptyTier(), EmptyTier(), ConfigOptions(Some(true), Some(true), None));
    var ops := [SetOp(Key, "myValue", NoOptions), Wait(0), GetOp(Key, LocalOnly), GetOp(Key, RemoteOnly)];
    LemmaRunStepwise(c, ops, 0);
    LemmaRunStepwise(c, ops, 1);
    LemmaRunStepwise(c, ops, 2);
    LemmaRunStepwise(c, ops, 3);
    assert ops[..0] == [] && ops[..1] == [ops[0]] && ops[..2] == ops[..1] + [ops[1]];
    assert ops[..3] == ops[..2] + [ops[2]];
    var s1 := Run(c, ops[..1]).0;
    var s2 := Run(c, ops[..2]).0;
    var s3 := Run(c, ops[..3]).0;
    assert s1 == Set(c, Key, "myValue", NoOptions).cache;
    assert s2 == Tick(s1, 0);
    assert s3 == s2;
  }

  /** With neither tier selected, set and get report their configuration errors. */
  lemma ScenarioNeitherTier()
    ensures var c := New<string>(EmptyTier(), EmptyTier(), ConfigOptions(Some(false), Some(false), None));
            var s := Set(c, Key, "myValue", NoOptions);
            s.outcome == ConfigError(SetConfigMessage) && s.outcome.Value().None? &&
            Deliver(s.outcome, false) == Thrown(SetConfigMessage)
    ensures var c := New<string>(EmptyTier(), EmptyTier(), ConfigOptions(Some(true), Some(true), None));
            var s := Set(c, Key, "myValue", NoOptions);
            s.outcome == Ok(Some(true)) &&
            Get(s.cache, Key, BothInactive).outcome == ConfigError(GetConfigMessage) &&
            Get(s.cache, Key, BothInactive).outcome.Value().None?
  {
  }
}
