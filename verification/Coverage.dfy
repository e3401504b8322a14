/**
  Transaction coverage over whole runs: every transaction that an agent registers reaches
  the batch, as the agent's own line or as a proxy, by the time the shutdown sequence ends.
 */
module Coverage {
  import opened ByteStrings
  import opened Invocations
  import opened Iteration
  import opened BatchSpec
  import opened ShutdownDrain

  /** `op` is a registration, which the batch accepts, of transaction `id` for invocation `k`. */
  ghost predicate Announces(cfg: Config, op: Op, k: string, id: string) {
    && op.AgentInit? && op.reqID == k
    && var parsed := ParseRegistration(cfg.lib, op.encoding, op.raw);
       parsed.Accepted? && parsed.registration.transactionID == id
  }

  ghost predicate IsInit(cfg: Config, op: Op, k: string) {
    op.AgentInit? && op.reqID == k && ParseRegistration(cfg.lib, op.encoding, op.raw).Accepted?
  }

  predicate IsRegister(op: Op, k: string) { op.Register? && op.reqID == k }

  predicate IsDone(op: Op, k: string) { op.RuntimeDone? && op.reqID == k }

  predicate IsReport(op: Op, k: string) { op.PlatformReport? && op.reqID == k }

  ghost predicate AnyDone(ops: seq<Op>, n: int, k: string)
    requires n <= |ops|
  {
    exists d :: 0 <= d < n && IsDone(ops[d], k)
  }

  ghost predicate AnyReportOp(ops: seq<Op>, n: int, k: string)
    requires n <= |ops|
  {
    exists d :: 0 <= d < n && IsReport(ops[d], k)
  }

  ghost predicate AnyRegister(ops: seq<Op>, n: int, k: string)
    requires n <= |ops|
  {
    exists d :: 0 <= d < n && IsRegister(ops[d], k)
  }

  /**
    The order of events that the Lambda environment keeps: for each invocation at most one
    agent init, no agent init after a runtimeDone, no report before a runtimeDone, and an
    INVOKE event for each that the agent announces; one shutdown, at the very end.
   */
  ghost predicate WellOrdered(cfg: Config, ops: seq<Op>) {
    && InitOnce(cfg, ops) && InitBeforeDone(cfg, ops) && DoneBeforeReport(ops)
    && InitRegistered(cfg, ops) && ShutdownLast(ops)
  }

  ghost predicate InitOnce(cfg: Config, ops: seq<Op>) {
    forall i, j, k {:trigger IsInit(cfg, ops[i], k), IsInit(cfg, ops[j], k)}
      | 0 <= i < j < |ops| && IsInit(cfg, ops[i], k) :: !IsInit(cfg, ops[j], k)
  }

  ghost predicate InitBeforeDone(cfg: Config, ops: seq<Op>) {
    forall i, j, k {:trigger IsDone(ops[i], k), IsInit(cfg, ops[j], k)}
      | 0 <= i < j < |ops| && IsDone(ops[i], k) :: !IsInit(cfg, ops[j], k)
  }

  ghost predicate DoneBeforeReport(ops: seq<Op>) {
    forall j, k {:trigger IsReport(ops[j], k)}
      | 0 <= j < |ops| && IsReport(ops[j], k) :: AnyDone(ops, j, k)
  }

  ghost predicate InitRegistered(cfg: Config, ops: seq<Op>) {
    forall j, k {:trigger IsInit(cfg, ops[j], k)}
      | 0 <= j < |ops| && IsInit(cfg, ops[j], k) :: AnyRegister(ops, |ops|, k)
  }

  ghost predicate ShutdownLast(ops: seq<Op>) {
    forall j | 0 <= j < |ops| :: ops[j].Shutdown? <==> j == |ops| - 1
  }

  ghost function At(cfg: Config, ops: seq<Op>, n: nat): RunResult
    requires n <= |ops|
  {
    Run(cfg, NEW_BATCH, ops[..n])
  }

  /** Metadata is there before any finalisation. */
  ghost predicate MetadataInTime(cfg: Config, ops: seq<Op>) {
    forall n | 0 <= n < |ops| ::
      var s := At(cfg, ops, n).state;
      match ops[n]
      case RuntimeDone(_, _, _, _) => s.metadata != []
      case Shutdown(_, order, _) => s.metadata != [] && IsIterationOrder(order, s.invocations.Keys)
      case _ => true
  }

  /** `e` is the agent's line for the transaction, or a proxy made for the invocation that announced it. */
  ghost predicate Covers(lib: Library, e: Entry, k: string, id: string) {
    || (e.AgentLine? && ReportsTransaction(lib, e.data, id))
    || (e.ProxyTxn? && e.reqID == k && lib.txnIDText(e.data) == id)
  }

  ghost predicate Covered(lib: Library, accepted: seq<Entry>, k: string, id: string) {
    exists e :: e in accepted && Covers(lib, e, k, id)
  }

  /** The transaction is still owed: nothing has been seen of it, and it is not final. */
  ghost predicate Owed(s: State, k: string, id: string) {
    k in s.invocations && s.invocations[k].transactionID == id && s.invocations[k].NeedProxyTransaction()
  }

  /**
    An agent request that loses the transaction: it neither finds metadata nor brings it
    on its first line, and its first entry is the transaction that is owed. Module
    LostTransaction shows that this, and nothing else, goes wrong.
   */
  ghost predicate LosesTransaction(cfg: Config, s: State, data: APMData, k: string, id: string) {
    var (refused, raw) := AgentBody(cfg, s, data);
    && refused.None? && s.current == k
    && MetadataAfter(s, raw) == [] && BodyEntries(raw) != []
    && ReportsTransaction(cfg.lib, BodyEntries(raw)[0].data, id)
  }

  ghost predicate LosesNow(cfg: Config, s: State, op: Op, k: string, id: string) {
    op.AgentData? && Owed(s, k, id) && LosesTransaction(cfg, s, op.data, k, id)
  }

  ghost predicate NeverLost(cfg: Config, ops: seq<Op>, k: string, id: string) {
    forall n | 0 <= n < |ops| :: !LosesNow(cfg, At(cfg, ops, n).state, ops[n], k, id)
  }

  lemma AtNext(cfg: Config, ops: seq<Op>, n: nat)
    requires n < |ops|
    ensures
      var o := Step(cfg, At(cfg, ops, n).state, ops[n]);
      At(cfg, ops, n + 1) == RunResult(o.state, At(cfg, ops, n).accepted + o.added)
    ensures WellFormed(cfg.lib, At(cfg, ops, n).state)
  {
    assert ops[..n + 1] == ops[..n] + [ops[n]];
    RunSnoc(cfg, NEW_BATCH, ops[..n], ops[n]);
    RunKeeps(cfg, NEW_BATCH, ops[..n]);
  }

  /** What an operation that is not about `k`, unless it registers it, leaves of `k`. */
  ghost predicate KeepsIdentity(s: State, op: Op, s': State, k: string) {
    && (k in s.invocations ==>
          && k in s'.invocations
          && s'.invocations[k].transactionID == s.invocations[k].transactionID
          && s'.invocations[k].finalized == s.invocations[k].finalized
          && (s'.invocations[k].transactionObserved != s.invocations[k].transactionObserved ==>
                op.AgentData? && s.invocations[k].NeedProxyTransaction())
          && s'.invocations[k].requestID == (if IsRegister(op, k) then k else s.invocations[k].requestID))
    && (k !in s.invocations && k in s'.invocations ==>
          IsRegister(op, k) && s'.invocations[k].transactionID == "" && !s'.invocations[k].finalized
          && s'.invocations[k].requestID == k)
    && (IsRegister(op, k) ==> k in s'.invocations)
  }

  lemma AgentDataFrame(cfg: Config, s: State, op: Op, k: string)
    requires op.AgentData?
    ensures KeepsIdentity(s, op, Step(cfg, s, op).state, k)
  {
    var (refused, raw) := AgentBody(cfg, s, op.data);
    if refused.None? {
      ObserveFrame(cfg.lib, s.(metadata := MetadataAfter(s, raw)), op, BodyEntries(raw), k);
      ObserveFrame(cfg.lib, s.(metadata := MetadataAfter(s, raw)), op, LinesSeen(MetadataAfter(s, raw), raw), k);
    }
  }

  lemma ObserveFrame(lib: Library, s: State, op: Op, lines: seq<Entry>, k: string)
    requires op.AgentData? && s.current in s.invocations
    ensures KeepsIdentity(s, op, Observe(lib, s, lines), k)
  {
  }

  lemma DoneFrame(cfg: Config, s: State, op: Op, k: string)
    requires op.RuntimeDone? && op.reqID != k
    ensures KeepsIdentity(s, op, Step(cfg, s, op).state, k)
  {
  }

  lemma StepFrame(cfg: Config, s: State, op: Op, k: string)
    requires !IsInit(cfg, op, k) && !IsDone(op, k) && !IsReport(op, k) && !op.Shutdown?
    ensures KeepsIdentity(s, op, Step(cfg, s, op).state, k)
  {
    match op
    case AgentData(_, _) => AgentDataFrame(cfg, s, op, k);
    case RuntimeDone(_, _, _, _) => DoneFrame(cfg, s, op, k);
    case _ =>
  }

  // ---------------------------------------------------------------- before the announcement

  ghost predicate Blank(s: State, k: string) {
    k in s.invocations ==> s.invocations[k].transactionID == "" && !s.invocations[k].finalized
  }

  lemma {:induction false} BlankBefore(cfg: Config, ops: seq<Op>, a: nat, n: nat, k: string)
    requires InitOnce(cfg, ops) && InitBeforeDone(cfg, ops) && ShutdownLast(ops)
    requires n <= a < |ops| && IsInit(cfg, ops[a], k)
    ensures Blank(At(cfg, ops, n).state, k)
  {
    if n > 0 {
      BlankBefore(cfg, ops, a, n - 1, k);
      AtNext(cfg, ops, n - 1);
      var op := ops[n - 1];
      assert !IsInit(cfg, op, k) && !IsDone(op, k) && !op.Shutdown?;
      if !IsReport(op, k) {
        StepFrame(cfg, At(cfg, ops, n - 1).state, op, k);
      }
    }
  }

  /** The announcement leaves the transaction owed. */
  lemma OwedAfter(cfg: Config, ops: seq<Op>, a: nat, k: string, id: string)
    requires InitOnce(cfg, ops) && InitBeforeDone(cfg, ops) && ShutdownLast(ops)
    requires a < |ops| && Announces(cfg, ops[a], k, id)
    ensures a + 1 < |ops| && id != "" && Owed(At(cfg, ops, a + 1).state, k, id)
  {
    BlankBefore(cfg, ops, a, a, k);
    AtNext(cfg, ops, a);
    assert !ops[a].Shutdown?;
  }

  // ---------------------------------------------------------------- until the shutdown

  /** An agent request that raises the observed flag has added the line that reports it. */
  lemma ObservedIsCovered(cfg: Config, s: State, op: Op, k: string, id: string)
    requires op.AgentData? && Owed(s, k, id) && !LosesNow(cfg, s, op, k, id)
    ensures var o := Step(cfg, s, op); Owed(o.state, k, id) || Covered(cfg.lib, o.added, k, id)
  {
    var o := Step(cfg, s, op);
    var (refused, raw) := AgentBody(cfg, s, op.data);
    var lines := BodyEntries(raw);
    if refused.None? && s.current == k && lines != [] {
      assert lines[..1] == [lines[0]];
      if MetadataAfter(s, raw) != [] && AnyLineReports(cfg.lib, lines, id) {
        var e :| e in lines && ReportsTransaction(cfg.lib, e.data, id);
        AgentEntriesMembers(Lines(raw)[1..]);
        assert e in o.added && Covers(cfg.lib, e, k, id);
      }
    }
  }

  lemma FinalizedIsCovered(lib: Library, s: State, k: string, id: string, status: string, endTime: int, now: int)
    requires JsonLaws(lib) && WellFormed(lib, s) && Owed(s, k, id) && s.metadata != []
    ensures Covered(lib, Finalize(lib, s, k, status, endTime, now).added, k, id)
  {
    var inc := s.invocations[k];
    ProxyKeepsTransaction(lib, inc, status, endTime);
    var e := ProxyTxn(k, inc.MaybeCreateProxyTxn(lib, status, endTime).value);
    assert e in Finalize(lib, s, k, status, endTime, now).added && Covers(lib, e, k, id);
  }

  lemma StillCovered(lib: Library, accepted: seq<Entry>, added: seq<Entry>, k: string, id: string)
    ensures Covered(lib, accepted + added, k, id) <==> Covered(lib, accepted, k, id) || Covered(lib, added, k, id)
  {
    assert forall e :: e in accepted + added <==> e in accepted || e in added;
  }

  /** What one operation before the shutdown does to an owed transaction. */
  lemma OwedStep(cfg: Config, s: State, op: Op, k: string, id: string)
    requires JsonLaws(cfg.lib) && WellFormed(cfg.lib, s) && Owed(s, k, id)
    requires !IsInit(cfg, op, k) && !IsReport(op, k) && !op.Shutdown?
    requires IsDone(op, k) ==> s.metadata != []
    requires !LosesNow(cfg, s, op, k, id)
    ensures var o := Step(cfg, s, op);
      Covered(cfg.lib, o.added, k, id) || (Owed(o.state, k, id) && !IsDone(op, k))
  {
    if op.AgentData? {
      ObservedIsCovered(cfg, s, op, k, id);
    } else if IsDone(op, k) {
      FinalizedIsCovered(cfg.lib, s, k, id, op.status, op.endTime, op.now);
    } else {
      StepFrame(cfg, s, op, k);
    }
  }

  /** After `n` operations the transaction is covered, or it is owed and no runtimeDone has come. */
  ghost predicate Safe(cfg: Config, ops: seq<Op>, n: nat, k: string, id: string)
    requires n <= |ops|
  {
    || Covered(cfg.lib, At(cfg, ops, n).accepted, k, id)
    || (Owed(At(cfg, ops, n).state, k, id) && !AnyDone(ops, n, k))
  }

  lemma SafeNext(cfg: Config, ops: seq<Op>, n: nat, k: string, id: string)
    requires JsonLaws(cfg.lib) && MetadataInTime(cfg, ops) && NeverLost(cfg, ops, k, id) && 0 < n <= |ops|
    requires Safe(cfg, ops, n - 1, k, id)
    requires !IsInit(cfg, ops[n - 1], k) && !ops[n - 1].Shutdown?
    requires IsReport(ops[n - 1], k) ==> AnyDone(ops, n - 1, k)
    ensures Safe(cfg, ops, n, k, id)
  {
    AtNext(cfg, ops, n - 1);
    var before, op := At(cfg, ops, n - 1), ops[n - 1];
    var added := Step(cfg, before.state, op).added;
    StillCovered(cfg.lib, before.accepted, added, k, id);
    if !Covered(cfg.lib, before.accepted, k, id) {
      NotReportedYet(ops, n, k);
      OwedStep(cfg, before.state, op, k, id);
    }
  }

  /** Before its runtimeDone there is no report for an invocation, and after another operation none yet either. */
  lemma NotReportedYet(ops: seq<Op>, n: nat, k: string)
    requires 0 < n <= |ops| && !AnyDone(ops, n - 1, k)
    requires IsReport(ops[n - 1], k) ==> AnyDone(ops, n - 1, k)
    ensures !IsReport(ops[n - 1], k)
    ensures !IsDone(ops[n - 1], k) ==> !AnyDone(ops, n, k)
  {
  }

  /** What may not happen between an announcement and the shutdown. */
  lemma BetweenInitAndShutdown(cfg: Config, ops: seq<Op>, a: nat, m: nat, k: string)
    requires InitOnce(cfg, ops) && DoneBeforeReport(ops) && ShutdownLast(ops)
    requires a < m < |ops| - 1 && IsInit(cfg, ops[a], k)
    ensures !IsInit(cfg, ops[m], k) && !ops[m].Shutdown?
    ensures IsReport(ops[m], k) ==> AnyDone(ops, m, k)
  {
  }

  /** From its announcement to the shutdown, a transaction is safe. */
  lemma {:induction false} SafeUntilShutdown(cfg: Config, ops: seq<Op>, a: nat, n: nat, k: string, id: string)
    requires JsonLaws(cfg.lib) && InitOnce(cfg, ops) && InitBeforeDone(cfg, ops) && DoneBeforeReport(ops)
    requires ShutdownLast(ops) && MetadataInTime(cfg, ops) && NeverLost(cfg, ops, k, id)
    requires a < n < |ops| && Announces(cfg, ops[a], k, id)
    ensures Safe(cfg, ops, n, k, id)
  {
    assert IsInit(cfg, ops[a], k);
    if n == a + 1 {
      OwedAfter(cfg, ops, a, k, id);
    } else {
      SafeUntilShutdown(cfg, ops, a, n - 1, k, id);
      BetweenInitAndShutdown(cfg, ops, a, n - 1, k);
      SafeNext(cfg, ops, n, k, id);
    }
  }

  // ---------------------------------------------------------------- at the shutdown

  /** The last operation before `n` registers `k`, or an earlier one does; it does not end the lifetime of `k`. */
  lemma RegisteredBack(ops: seq<Op>, n: nat, k: string)
    requires ShutdownLast(ops) && n < |ops| && AnyRegister(ops, n, k) && !AnyReportOp(ops, n, k)
    ensures n > 0 && !ops[n - 1].Shutdown? && !IsReport(ops[n - 1], k)
    ensures IsRegister(ops[n - 1], k) || (AnyRegister(ops, n - 1, k) && !AnyReportOp(ops, n - 1, k))
  {
  }

  /** An INVOKE event that no report has followed leaves its invocation in the map. */
  lemma {:induction false} RegisteredStays(cfg: Config, ops: seq<Op>, n: nat, k: string)
    requires ShutdownLast(ops) && n < |ops|
    requires AnyRegister(ops, n, k) && !AnyReportOp(ops, n, k)
    ensures k in At(cfg, ops, n).state.invocations
  {
    RegisteredBack(ops, n, k);
    if !IsRegister(ops[n - 1], k) {
      RegisteredStays(cfg, ops, n - 1, k);
    }
    AtNext(cfg, ops, n - 1);
    StaysUnlessReported(cfg, At(cfg, ops, n - 1).state, ops[n - 1], k);
  }

  lemma StaysUnlessReported(cfg: Config, s: State, op: Op, k: string)
    requires k in s.invocations || IsRegister(op, k)
    requires !IsReport(op, k) && !op.Shutdown?
    ensures k in Step(cfg, s, op).state.invocations
  {
  }

  lemma UnregisteredStep(cfg: Config, s: State, op: Op, k: string)
    requires !op.Shutdown?
    requires var s' := Step(cfg, s, op).state; k in s'.invocations && s'.invocations[k].requestID != k
    ensures !IsRegister(op, k)
    ensures if k in s.invocations then s.invocations[k].requestID != k else IsInit(cfg, op, k)
  {
  }

  /** An invocation without a request id was announced, and its INVOKE event is yet to come. */
  lemma {:induction false} UnregisteredIsNew(cfg: Config, ops: seq<Op>, n: nat, k: string)
    requires InitBeforeDone(cfg, ops) && DoneBeforeReport(ops) && ShutdownLast(ops) && n < |ops|
    requires Unregistered(cfg, ops, n, k)
    ensures !AnyRegister(ops, n, k) && exists a :: 0 <= a < n && IsInit(cfg, ops[a], k)
  {
    if n > 0 {
      assert !ops[n - 1].Shutdown?;
      UnregisteredBack(cfg, ops, n, k);
      if IsInit(cfg, ops[n - 1], k) && k !in At(cfg, ops, n - 1).state.invocations {
        NotRegisteredBeforeInit(cfg, ops, n - 1, k);
      } else {
        UnregisteredIsNew(cfg, ops, n - 1, k);
      }
    }
  }

  ghost predicate Unregistered(cfg: Config, ops: seq<Op>, n: nat, k: string)
    requires n <= |ops|
  {
    var s := At(cfg, ops, n).state;
    k in s.invocations && s.invocations[k].requestID != k
  }

  lemma UnregisteredBack(cfg: Config, ops: seq<Op>, n: nat, k: string)
    requires 0 < n <= |ops| && Unregistered(cfg, ops, n, k) && !ops[n - 1].Shutdown?
    ensures !IsRegister(ops[n - 1], k)
    ensures Unregistered(cfg, ops, n - 1, k)
         || (IsInit(cfg, ops[n - 1], k) && k !in At(cfg, ops, n - 1).state.invocations)
  {
    AtNext(cfg, ops, n - 1);
    UnregisteredStep(cfg, At(cfg, ops, n - 1).state, ops[n - 1], k);
  }

  lemma NotRegisteredBeforeInit(cfg: Config, ops: seq<Op>, n: nat, k: string)
    requires InitBeforeDone(cfg, ops) && DoneBeforeReport(ops) && ShutdownLast(ops)
    requires n < |ops| && IsInit(cfg, ops[n], k)
    requires k !in At(cfg, ops, n).state.invocations
    ensures !AnyRegister(ops, n, k)
  {
    if AnyRegister(ops, n, k) {
      assert !AnyReportOp(ops, n, k);
      RegisteredStays(cfg, ops, n, k);
    }
  }

  lemma RegisteredBeforeShutdown(cfg: Config, ops: seq<Op>, a: nat, k: string)
    requires InitRegistered(cfg, ops) && ShutdownLast(ops) && a < |ops| && IsInit(cfg, ops[a], k)
    ensures AnyRegister(ops, |ops| - 1, k)
  {
    var r :| 0 <= r < |ops| && IsRegister(ops[r], k);
    assert r < |ops| - 1;
  }

  lemma AllRegisteredAtShutdown(cfg: Config, ops: seq<Op>)
    requires WellOrdered(cfg, ops) && MetadataInTime(cfg, ops) && ops != []
    ensures AllDrainable(At(cfg, ops, |ops| - 1).state)
  {
    var n := |ops| - 1;
    var s := At(cfg, ops, n).state;
    forall k | k in s.invocations ensures Drainable(s, k) {
      if s.invocations[k].requestID != k {
        UnregisteredIsNew(cfg, ops, n, k);
        var a :| 0 <= a < n && IsInit(cfg, ops[a], k);
        RegisteredBeforeShutdown(cfg, ops, a, k);
        assert false;
      }
    }
  }

  /**
    Every registered transaction that no agent request loses is covered once the run, with
    its shutdown, is over; and that shutdown ended without leaving an invocation behind.
   */
  lemma EveryTransactionCovered(cfg: Config, ops: seq<Op>)
    requires JsonLaws(cfg.lib) && WellOrdered(cfg, ops) && MetadataInTime(cfg, ops) && ops != []
    ensures Run(cfg, NEW_BATCH, ops).state.invocations == map[]
    ensures forall a, k, id | 0 <= a < |ops| && Announces(cfg, ops[a], k, id) ::
      NeverLost(cfg, ops, k, id) ==> Covered(cfg.lib, Run(cfg, NEW_BATCH, ops).accepted, k, id)
  {
    var n := |ops| - 1;
    var s, op := At(cfg, ops, n).state, ops[n];
    var o := Step(cfg, s, op);
    AtNext(cfg, ops, n);
    assert ops[..|ops|] == ops;
    AllRegisteredAtShutdown(cfg, ops);
    ShutdownDrains(cfg.lib, s, op.status, op.order, op.now);
    forall a, k, id | 0 <= a < |ops| && Announces(cfg, ops[a], k, id) && NeverLost(cfg, ops, k, id)
      ensures Covered(cfg.lib, Run(cfg, NEW_BATCH, ops).accepted, k, id)
    {
      OwedAfter(cfg, ops, a, k, id);
      SafeUntilShutdown(cfg, ops, a, n, k, id);
      if !Covered(cfg.lib, At(cfg, ops, n).accepted, k, id) {
        var inc := s.invocations[k];
        ProxyKeepsTransaction(cfg.lib, inc, op.status, inc.deadlineMs * NANOS_PER_MILLI);
        var e := ProxyTxn(k, ProxyAtShutdown(cfg.lib, inc, op.status).value);
        assert multiset(o.added)[e] == 1;
        assert e in o.added && Covers(cfg.lib, e, k, id);
      }
      StillCovered(cfg.lib, At(cfg, ops, n).accepted, o.added, k, id);
    }
  }
}
