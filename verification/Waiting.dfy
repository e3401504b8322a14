/**
  How long entries wait: the age of the batch is the time at which the oldest of the
  pending entries came, and that is what the maximum age is measured from
  (addData, ShouldShip and Reset in accumulator/batch.go).
 */
module Waiting {
  import opened ByteStrings
  import opened Invocations
  import opened BatchSpec

  /** What the clock says at an operation that can add entries. */
  function TimeOf(op: Op): int {
    match op
    case AgentData(_, now) => now
    case LambdaData(_, now) => now
    case RuntimeDone(_, _, _, now) => now
    case Shutdown(_, _, now) => now
    case _ => 0
  }

  /** The state after the first `n` operations. */
  ghost function After(cfg: Config, s: State, ops: seq<Op>, n: nat): State
    requires n <= |ops|
  {
    Run(cfg, s, ops[..n]).state
  }

  /** The first of the entries that are pending after `n` operations came with the one at `i`. */
  ghost predicate OldestCame(cfg: Config, s: State, ops: seq<Op>, n: nat, i: int)
    requires n <= |ops|
  {
    && 0 <= i < n && After(cfg, s, ops, i).entries == []
    && forall j | i < j <= n :: After(cfg, s, ops, j).entries != []
  }

  /** The first entry sets the age, and further ones keep it. */
  ghost predicate AgeKept(s: State, s': State, now: int) {
    && (s'.entries == [] ==> s.entries == [] && s'.age == s.age)
    && (s.entries == [] && s'.entries != [] ==> s'.age == Some(now))
    && (s.entries != [] ==> s'.age == s.age)
  }

  lemma {:induction false} ShutdownAge(lib: Library, s: State, status: string, order: seq<string>, now: int)
    ensures AgeKept(s, OnShutdown(lib, s, status, order, now).state, now)
  {
    if order != [] {
      ShutdownAge(lib, s, status, order[..|order| - 1], now);
    }
  }

  lemma StepAge(cfg: Config, s: State, op: Op)
    requires op != ResetBatch
    ensures AgeKept(s, Step(cfg, s, op).state, TimeOf(op))
  {
    match op
    case Shutdown(status, order, now) => ShutdownAge(cfg.lib, s, status, order, now);
    case _ =>
  }

  lemma AfterNext(cfg: Config, s: State, ops: seq<Op>, n: nat)
    requires n < |ops|
    ensures After(cfg, s, ops, n + 1) == Step(cfg, After(cfg, s, ops, n), ops[n]).state
  {
    assert ops[..n + 1][..n] == ops[..n];
  }

  lemma OldestNext(cfg: Config, s: State, ops: seq<Op>, n: nat, i: int)
    requires n < |ops| && After(cfg, s, ops, n + 1).entries != []
    ensures OldestCame(cfg, s, ops, n + 1, i)
      <==> if After(cfg, s, ops, n).entries == [] then i == n else OldestCame(cfg, s, ops, n, i)
  {
  }

  /** In every run from an empty batch: the age is when the oldest pending entry came, and there is one. */
  lemma {:induction false} AgeIsOldest(cfg: Config, s: State, ops: seq<Op>, n: nat)
    requires n <= |ops| && s.entries == []
    ensures After(cfg, s, ops, n).entries != [] ==> exists i :: OldestCame(cfg, s, ops, n, i)
    ensures After(cfg, s, ops, n).entries != [] ==>
      forall i | OldestCame(cfg, s, ops, n, i) :: After(cfg, s, ops, n).age == Some(TimeOf(ops[i]))
  {
    if n > 0 && After(cfg, s, ops, n).entries != [] {
      AgeIsOldest(cfg, s, ops, n - 1);
      AfterNext(cfg, s, ops, n - 1);
      StepAge(cfg, After(cfg, s, ops, n - 1), ops[n - 1]);
      var i := n - 1;
      if After(cfg, s, ops, n - 1).entries != [] {
        i :| OldestCame(cfg, s, ops, n - 1, i);
      }
      OldestNext(cfg, s, ops, n - 1, i);
      forall i | OldestCame(cfg, s, ops, n, i) ensures After(cfg, s, ops, n).age == Some(TimeOf(ops[i])) {
        OldestNext(cfg, s, ops, n - 1, i);
      }
    }
  }

  /**
    So after any run a batch is due exactly if it has reached the threshold or the oldest
    of its entries has been waiting for longer than the maximum age.
   */
  lemma DueExactlyWhen(cfg: Config, maxAge: int, s: State, ops: seq<Op>, now: int)
    requires WellFormed(cfg.lib, s) && s.entries == []
    ensures
      var s' := After(cfg, s, ops, |ops|);
      ShouldShip(cfg.maxSize, maxAge, s', now) <==>
        || |s'.entries| >= Threshold(cfg.maxSize)
        || exists i :: OldestCame(cfg, s, ops, |ops|, i) && now - TimeOf(ops[i]) > maxAge
  {
    RunKeeps(cfg, s, ops[..|ops|]);
    AgeIsOldest(cfg, s, ops, |ops|);
  }
}
