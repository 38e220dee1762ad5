/**
 * Sequences of coordinator calls, as a test's chain of callbacks runs them, with
 * the clock advanced between calls by `Wait`. The properties here hold for every
 * such run, not only for the pairs of calls the tests make.
 */
module Traces {
  import opened Wrappers
  import opened Outcomes
  import opened Options
  import opened Backend
  import opened MultiCache

  datatype Op<V> =
    | SetOp(key: Key, value: V, opts: CallOptions)
    | GetOp(key: Key, opts: CallOptions)
    | DelOp(key: Key, opts: CallOptions)
    | Wait(seconds: nat)

  datatype Reply<V> = SetReply(stored: Outcome<bool>) | GetReply(got: Outcome<V>) | DelReply(deleted: Outcome<bool>) | Waited

  /** The reply has the kind of the call it answers. */
  predicate Answers<V>(op: Op<V>, reply: Reply<V>) {
    match op
    case SetOp(_, _, _) => reply.SetReply?
    case GetOp(_, _) => reply.GetReply?
    case DelOp(_, _) => reply.DelReply?
    case Wait(_) => reply.Waited?
  }

  /** The call may write the remote tier. */
  predicate WritesRemote<V>(cfg: Config, op: Op<V>) {
    match op
    case SetOp(_, _, o) => Resolve(o, cfg).UsesRemote()
    case DelOp(_, o) => Resolve(o, cfg).UsesRemote()
    case _ => false
  }

  /** The call may write the local tier: a set or del that selects it, or a back-filling get. */
  predicate WritesLocal<V>(cfg: Config, op: Op<V>) {
    match op
    case SetOp(_, _, o) => Resolve(o, cfg).UsesLocal()
    case DelOp(_, o) => Resolve(o, cfg).UsesLocal()
    case GetOp(_, o) => Resolve(o, cfg).UsesLocal() && Resolve(o, cfg).UsesRemote() && Resolve(o, cfg).setLocal
    case Wait(_) => false
  }

  function Apply<V>(c: Cache<V>, op: Op<V>): (r: (Cache<V>, Reply<V>))
    ensures r.0.config == c.config
    ensures Answers(op, r.1)
    ensures r.0.now == c.now + (if op.Wait? then op.seconds else 0)
    ensures !WritesRemote(c.config, op) ==> r.0.remote == c.remote
    ensures !WritesLocal(c.config, op) ==> r.0.local == c.local
    ensures c.config.disabled ==> r.0 == Tick(c, r.0.now - c.now)
    ensures c.config.disabled && op.GetOp? ==> r.1 == GetReply(KeyNotFound)
    ensures c.config.disabled && (op.SetOp? || op.DelOp?) ==> r.1 == (if op.SetOp? then SetReply(Ok(None)) else DelReply(Ok(None)))
  {
    match op
    case SetOp(k, v, o) => var s := Set(c, k, v, o); (s.cache, SetReply(s.outcome))
    case GetOp(k, o) => var s := Get(c, k, o); (s.cache, GetReply(s.outcome))
    case DelOp(k, o) => var s := Del(c, k, o); (s.cache, DelReply(s.outcome))
    case Wait(n) => (Tick(c, n), Waited)
  }

  /** The logical time a run lets pass. */
  function Elapsed<V>(ops: seq<Op<V>>): nat
    decreases |ops|
  {
    if ops == [] then 0 else (if ops[0].Wait? then ops[0].seconds else 0) + Elapsed(ops[1..])
  }

  /** Runs the calls in order, each on the state the previous one left. */
  function Run<V>(c: Cache<V>, ops: seq<Op<V>>): (r: (Cache<V>, seq<Reply<V>>))
    ensures |r.1| == |ops|
    ensures forall i :: 0 <= i < |ops| ==> Answers(ops[i], r.1[i])
    ensures r.0.config == c.config
    ensures r.0.now == c.now + Elapsed(ops)
    decreases |ops|
  {
    if ops == [] then (c, [])
    else
      var (c1, reply) := Apply(c, ops[0]);
      var (cn, replies) := Run(c1, ops[1..]);
      (cn, [reply] + replies)
  }

  /**
   * The `i`-th call of a run acts on the state its predecessors left: its reply
   * is the one it gives on that state, and the state after it is the one it
   * produces.
   */
  lemma {:induction false} LemmaRunStepwise<V>(c: Cache<V>, ops: seq<Op<V>>, i: nat)
    requires i < |ops|
    ensures Run(c, ops).1[i] == Apply(Run(c, ops[..i]).0, ops[i]).1
    ensures Run(c, ops[..i + 1]).0 == Apply(Run(c, ops[..i]).0, ops[i]).0
    decreases i
  {
    var c1 := Apply(c, ops[0]).0;
    assert ops[..i + 1][0] == ops[0] && ops[..i + 1][1..] == ops[1..][..i];
    if i == 0 {
      assert ops[..0] == [];
    } else {
      LemmaRunStepwise(c1, ops[1..], i - 1);
      assert ops[..i][0] == ops[0] && ops[..i][1..] == ops[1..][..i - 1];
      assert ops[1..][i - 1] == ops[i];
      assert Run(c, ops[..i]).0 == Run(c1, ops[1..][..i - 1]).0;
    }
  }

  /** A run none of whose calls selects the remote tier for writing leaves it as it was. */
  lemma {:induction false} LemmaRemoteWrittenOnlyWhenSelected<V>(c: Cache<V>, ops: seq<Op<V>>)
    requires forall i :: 0 <= i < |ops| ==> !WritesRemote(c.config, ops[i])
    ensures Run(c, ops).0.remote == c.remote
    decreases |ops|
  {
    if ops != [] {
      var c1 := Apply(c, ops[0]).0;
      assert !WritesRemote(c.config, ops[0]);
      forall i | 0 <= i < |ops[1..]|
        ensures !WritesRemote(c1.config, ops[1..][i])
      {
        assert ops[1..][i] == ops[i + 1];
      }
      LemmaRemoteWrittenOnlyWhenSelected(c1, ops[1..]);
    }
  }

  /** A run none of whose calls writes or back-fills the local tier leaves it as it was. */
  lemma {:induction false} LemmaLocalWrittenOnlyWhenSelected<V>(c: Cache<V>, ops: seq<Op<V>>)
    requires forall i :: 0 <= i < |ops| ==> !WritesLocal(c.config, ops[i])
    ensures Run(c, ops).0.local == c.local
    decreases |ops|
  {
    if ops != [] {
      var c1 := Apply(c, ops[0]).0;
      assert !WritesLocal(c.config, ops[0]);
      forall i | 0 <= i < |ops[1..]|
        ensures !WritesLocal(c1.config, ops[1..][i])
      {
        assert ops[1..][i] == ops[i + 1];
      }
      LemmaLocalWrittenOnlyWhenSelected(c1, ops[1..]);
    }
  }

  /** An instance with only the local tier on by default never writes the remote tier unless a call asks for it. */
  lemma {:induction false} LemmaLocalOnlyInstanceKeepsRemote<V>(c: Cache<V>, ops: seq<Op<V>>)
    requires c.config.useLocalCache && !c.config.useRemoteCache
    requires forall i :: 0 <= i < |ops| && !ops[i].Wait? ==> ops[i].opts.useRemoteCache != Some(true)
    ensures Run(c, ops).0.remote == c.remote
  {
    forall i | 0 <= i < |ops|
      ensures !WritesRemote(c.config, ops[i])
    {
      if !ops[i].Wait? {
        assert ops[i].opts.useRemoteCache != Some(true);
      }
    }
    LemmaRemoteWrittenOnlyWhenSelected(c, ops);
  }

  /**
   * On a disabled instance every run leaves both tiers as they were, every get
   * reports a miss and every set or del reports success with an undefined result.
   */
  lemma {:induction false} LemmaDisabledRunIsInert<V>(c: Cache<V>, ops: seq<Op<V>>)
    requires c.config.disabled
    ensures Run(c, ops).0 == Tick(c, Elapsed(ops))
    ensures forall i :: 0 <= i < |ops| && ops[i].GetOp? ==> Run(c, ops).1[i] == GetReply(KeyNotFound)
    ensures forall i :: 0 <= i < |ops| && ops[i].SetOp? ==> Run(c, ops).1[i] == SetReply(Ok(None))
    ensures forall i :: 0 <= i < |ops| && ops[i].DelOp? ==> Run(c, ops).1[i] == DelReply(Ok(None))
    decreases |ops|
  {
    if ops != [] {
      var (c1, reply) := Apply(c, ops[0]);
      LemmaDisabledRunIsInert(c1, ops[1..]);
      var replies := Run(c1, ops[1..]).1;
      assert Run(c, ops).1 == [reply] + replies;
      forall i | 1 <= i < |ops|
        ensures ops[i] == ops[1..][i - 1] && Run(c, ops).1[i] == replies[i - 1]
      {
      }
    }
  }
}
