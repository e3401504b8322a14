/**
  What RegisterInvocation stores is what OnPlatformReport returns for the same id, and so
  what the metrics of that invocation are computed from; and its proxy tells of the time
  since it was registered.
 */
module Registration {
  import opened ByteStrings
  import opened Invocations
  import opened BatchSpec
  import opened Coverage
  import opened ProxyExclusivity
  import opened ProxyDescription

  predicate SameRegistration(a: Invocation, b: Invocation) {
    a.functionARN == b.functionARN && a.deadlineMs == b.deadlineMs && a.timestamp == b.timestamp
  }

  lemma StepKeepsRegistration(cfg: Config, s: State, op: Op, k: string)
    requires k in s.invocations && !IsRegister(op, k)
    ensures var s' := Step(cfg, s, op).state;
      k in s'.invocations ==> SameRegistration(s'.invocations[k], s.invocations[k])
  {
    match op
    case Shutdown(status, order, now) => ShutdownProxies(cfg.lib, s, status, order, now, k);
    case RuntimeDone(reqID, status, endTime, now) => FinalizeProxies(cfg.lib, s, reqID, status, endTime, now, k);
    case _ =>
  }

  lemma {:induction false} RegistrationKept(cfg: Config, s: State, ops: seq<Op>, k: string)
    requires k in s.invocations && Lives(cfg, s, ops, k) && forall op | op in ops :: !IsRegister(op, k)
    ensures var s' := Run(cfg, s, ops).state;
      k in s'.invocations ==> SameRegistration(s'.invocations[k], s.invocations[k])
  {
    if ops != [] {
      var n := |ops| - 1;
      var init := ops[..n];
      assert forall i | 0 <= i <= n :: init[..i] == ops[..i];
      RegistrationKept(cfg, s, init, k);
      assert k in Run(cfg, s, init).state.invocations;
      StepKeepsRegistration(cfg, Run(cfg, s, init).state, ops[n], k);
    }
  }

  /** The state after an INVOKE event for `k` and then `ops`, none of which registers it again or ends it. */
  ghost function Later(
    cfg: Config, s: State, k: string, arn: string, deadlineMs: int, timestamp: int, ops: seq<Op>): State
  {
    Run(cfg, Step(cfg, s, Register(k, arn, deadlineMs, timestamp)).state, ops).state
  }

  ghost predicate StaysRegistered(
    cfg: Config, s: State, k: string, arn: string, deadlineMs: int, timestamp: int, ops: seq<Op>)
  {
    && Lives(cfg, Step(cfg, s, Register(k, arn, deadlineMs, timestamp)).state, ops, k)
    && k in Later(cfg, s, k, arn, deadlineMs, timestamp, ops).invocations
    && forall op | op in ops :: !IsRegister(op, k)
  }

  /**
    Whatever happens between an INVOKE event and the report for it, as long as the id is
    not registered again: the report finds the registered function, deadline and time.
   */
  lemma ReportOfRegistered(
    cfg: Config, s: State, k: string, arn: string, deadlineMs: int, timestamp: int, ops: seq<Op>)
    requires StaysRegistered(cfg, s, k, arn, deadlineMs, timestamp, ops)
    ensures
      var inc := Later(cfg, s, k, arn, deadlineMs, timestamp, ops).invocations[k];
      inc.functionARN == arn && inc.deadlineMs == deadlineMs && inc.timestamp == timestamp
  {
    RegistrationKept(cfg, Step(cfg, s, Register(k, arn, deadlineMs, timestamp)).state, ops, k);
  }

  /**
    And a proxy that a runtimeDone then adds has the status of that event, and lasts from
    the registered time to the time of that event.
   */
  lemma ProxyOfRegistered(
    cfg: Config, s: State, k: string, arn: string, deadlineMs: int, timestamp: int, ops: seq<Op>,
    status: string, endTime: int, now: int)
    requires Laws(cfg.lib) && WellFormed(cfg.lib, s)
    requires StaysRegistered(cfg, s, k, arn, deadlineMs, timestamp, ops)
    ensures
      var added := Step(cfg, Later(cfg, s, k, arn, deadlineMs, timestamp, ops),
                        RuntimeDone(k, status, endTime, now)).added;
      forall e | e in added ::
        && added == [e] && e.ProxyTxn? && e.reqID == k
        && cfg.lib.result(e.data) == status
        && cfg.lib.duration(e.data) == Milliseconds(endTime - timestamp)
  {
    ReportOfRegistered(cfg, s, k, arn, deadlineMs, timestamp, ops);
    var begun := Step(cfg, s, Register(k, arn, deadlineMs, timestamp)).state;
    StepKeeps(cfg, s, Register(k, arn, deadlineMs, timestamp));
    RunKeeps(cfg, begun, ops);
    FinalizeDescribes(cfg.lib, Run(cfg, begun, ops).state, k, status, endTime, now);
  }

  /** One that a shutdown adds has its reason as status, and lasts from the registered time to the deadline. */
  lemma ShutdownProxyOfRegistered(
    cfg: Config, s: State, k: string, arn: string, deadlineMs: int, timestamp: int, ops: seq<Op>,
    reason: string, order: seq<string>, now: int)
    requires Laws(cfg.lib) && WellFormed(cfg.lib, s) && k != ""
    requires StaysRegistered(cfg, s, k, arn, deadlineMs, timestamp, ops)
    ensures
      var added := Step(cfg, Later(cfg, s, k, arn, deadlineMs, timestamp, ops), Shutdown(reason, order, now)).added;
      forall e | e in added && e.ProxyTxn? && e.reqID == k ::
        && cfg.lib.result(e.data) == reason
        && cfg.lib.duration(e.data) == Milliseconds(deadlineMs * NANOS_PER_MILLI - timestamp)
  {
    ReportOfRegistered(cfg, s, k, arn, deadlineMs, timestamp, ops);
    var begun := Step(cfg, s, Register(k, arn, deadlineMs, timestamp)).state;
    StepKeeps(cfg, s, Register(k, arn, deadlineMs, timestamp));
    RunKeeps(cfg, begun, ops);
    ShutdownDescribes(cfg.lib, Run(cfg, begun, ops).state, reason, order, now);
  }
}
