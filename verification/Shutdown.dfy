/**
  OnShutdown drains the batch: exactly when it can, and with the same proxies whatever
  order the runtime iterates the invocation map in.
 */
module ShutdownDrain {
  import opened ByteStrings
  import opened Invocations
  import opened Iteration
  import opened BatchSpec

  ghost function ProxyAtShutdown(lib: Library, inc: Invocation, status: string): Option<Bytes> {
    inc.MaybeCreateProxyTxn(lib, status, inc.deadlineMs * NANOS_PER_MILLI)
  }

  /** The invocation is registered, and there is metadata if it needs a proxy. */
  ghost predicate Drainable(s: State, k: string)
    requires k in s.invocations
  {
    s.invocations[k].requestID == k && (s.invocations[k].NeedProxyTransaction() ==> s.metadata != [])
  }

  ghost predicate AllDrainable(s: State) {
    forall k | k in s.invocations :: Drainable(s, k)
  }

  /** `e` is the proxy of an invocation of `s` that needs one. */
  ghost predicate IsProxyOf(lib: Library, s: State, status: string, e: Entry) {
    && e.ProxyTxn? && e.reqID in s.invocations
    && s.invocations[e.reqID].NeedProxyTransaction()
    && ProxyAtShutdown(lib, s.invocations[e.reqID], status) == Some(e.data)
  }

  /** An invocation leaves the map only if it was drainable; until then it is untouched. */
  lemma {:induction false} OnlyDrainableLeave(lib: Library, s: State, status: string, order: seq<string>, now: int)
    requires JsonLaws(lib) && WellFormed(lib, s)
    ensures
      var s' := OnShutdown(lib, s, status, order, now).state;
      && s'.metadata == s.metadata
      && s'.invocations.Keys <= s.invocations.Keys
      && (forall k | k in s'.invocations :: s'.invocations[k] == s.invocations[k])
      && (forall k | k in s.invocations && k !in s'.invocations :: Drainable(s, k))
  {
    if order != [] {
      var init, k := order[..|order| - 1], order[|order| - 1];
      OnlyDrainableLeave(lib, s, status, init, now);
      var before := OnShutdown(lib, s, status, init, now);
      if before.err.None? && k in before.state.invocations {
        var inc := before.state.invocations[k];
        var r := inc.requestID;
        if r in before.state.invocations && before.state.invocations[r].NeedProxyTransaction() {
          ProxyKeepsTransaction(lib, before.state.invocations[r], status, inc.deadlineMs * NANOS_PER_MILLI);
        }
      }
    }
  }

  /** The proxies of the invocations of `order`, in that order. */
  ghost function ProxiesIn(lib: Library, s: State, status: string, order: seq<string>): seq<Entry>
    requires forall k | k in order :: k in s.invocations
  {
    if order == [] then []
    else ProxiesIn(lib, s, status, order[..|order| - 1]) + ProxyDue(lib, s, status, order[|order| - 1])
  }

  ghost function ProxyDue(lib: Library, s: State, status: string, k: string): seq<Entry>
    requires k in s.invocations
  {
    var proxy := ProxyAtShutdown(lib, s.invocations[k], status);
    if s.invocations[k].NeedProxyTransaction() && proxy.Some? then [ProxyTxn(k, proxy.value)] else []
  }

  /** A drainable invocation leaves with its proxy, and the others stay. */
  lemma LeaveOne(lib: Library, s: State, status: string, k: string, now: int)
    requires JsonLaws(lib) && k in s.invocations && WellFormedInvocation(lib, k, s.invocations[k]) && Drainable(s, k)
    ensures
      var o := ShutdownOne(lib, s, status, k, now);
      && o.err == None && o.state.metadata == s.metadata
      && o.state.invocations == s.invocations - {k}
      && o.added == ProxyDue(lib, s, status, k)
  {
    var inc := s.invocations[k];
    if inc.NeedProxyTransaction() {
      ProxyKeepsTransaction(lib, inc, status, inc.deadlineMs * NANOS_PER_MILLI);
    }
  }

  /** If all can leave, each does as it is visited, and adds its proxy. */
  lemma {:induction false} AllLeaveInTurn(lib: Library, s: State, status: string, order: seq<string>, now: int)
    requires JsonLaws(lib) && WellFormed(lib, s) && AllDrainable(s)
    requires forall k | k in order :: k in s.invocations
    requires forall i, j | 0 <= i < j < |order| :: order[i] != order[j]
    ensures
      var o := OnShutdown(lib, s, status, order, now);
      && o.err == None
      && o.state.metadata == s.metadata
      && o.state.invocations == (map k | k in s.invocations && k !in order :: s.invocations[k])
      && o.added == ProxiesIn(lib, s, status, order)
  {
    if order != [] {
      var init, k := order[..|order| - 1], order[|order| - 1];
      AllLeaveInTurn(lib, s, status, init, now);
      var before := OnShutdown(lib, s, status, init, now);
      assert k !in init && Drainable(s, k);
      assert forall x :: x in order <==> x in init || x == k;
      LeaveOne(lib, before.state, status, k, now);
    }
  }

  lemma {:induction false} ProxiesCounted(lib: Library, s: State, status: string, order: seq<string>, e: Entry)
    requires forall k | k in order :: k in s.invocations
    requires forall i, j | 0 <= i < j < |order| :: order[i] != order[j]
    ensures multiset(ProxiesIn(lib, s, status, order))[e]
         == if IsProxyOf(lib, s, status, e) && e.reqID in order then 1 else 0
  {
    if order != [] {
      var init, k := order[..|order| - 1], order[|order| - 1];
      ProxiesCounted(lib, s, status, init, e);
      assert k !in init;
      assert forall x :: x in order <==> x in init || x == k;
    }
  }

  /**
    Whatever the order: OnShutdown succeeds and empties the map if and only if every
    invocation has been registered and, where a proxy is due, there is metadata. Then
    it has added one proxy for each invocation that needed one, and nothing else.
   */
  lemma ShutdownDrains(lib: Library, s: State, status: string, order: seq<string>, now: int)
    requires JsonLaws(lib) && WellFormed(lib, s) && IsIterationOrder(order, s.invocations.Keys)
    ensures
      var o := OnShutdown(lib, s, status, order, now);
      && (o.err.None? && o.state.invocations == map[] <==> AllDrainable(s))
      && (AllDrainable(s) ==>
            && o.state.entries == s.entries + o.added
            && forall e :: multiset(o.added)[e] == if IsProxyOf(lib, s, status, e) then 1 else 0)
  {
    OnlyDrainableLeave(lib, s, status, order, now);
    if AllDrainable(s) {
      AllLeaveInTurn(lib, s, status, order, now);
      ShutdownKeeps(lib, s, status, order, now);
      forall e ensures multiset(OnShutdown(lib, s, status, order, now).added)[e]
                    == if IsProxyOf(lib, s, status, e) then 1 else 0 {
        ProxiesCounted(lib, s, status, order, e);
      }
    }
  }

  /** Hence two iteration orders give the same proxies, as a multiset. */
  lemma ShutdownOrderIrrelevant(
    lib: Library, s: State, status: string, order: seq<string>, order': seq<string>, now: int)
    requires JsonLaws(lib) && WellFormed(lib, s) && AllDrainable(s)
    requires IsIterationOrder(order, s.invocations.Keys) && IsIterationOrder(order', s.invocations.Keys)
    ensures multiset(OnShutdown(lib, s, status, order, now).added)
         == multiset(OnShutdown(lib, s, status, order', now).added)
  {
    ShutdownDrains(lib, s, status, order, now);
    ShutdownDrains(lib, s, status, order', now);
  }
}
