/**
  How the extension ends (Run in app/run.go, from the SHUTDOWN event on): the buffered
  logs, then the queues, then the invocations that are still open, and at last, on the way
  out, one more flush for what those have added.
 */
module App {
  import opened ByteStrings
  import opened Invocations
  import opened Iteration
  import opened ShutdownDrain
  import opened ProxyExclusivity
  import opened Clients
  import opened Forwarding
  import opened LogStream
  import Spec = BatchSpec
  import T = Transport

  /** What has been added is one proxy for each invocation that needed one, and nothing else. */
  ghost predicate ProxiesAdded(
    lib: Library, s: Spec.State, status: string, before: seq<Spec.Entry>, after: seq<Spec.Entry>)
  {
    && before <= after
    && forall e :: multiset(after[|before|..])[e] == if IsProxyOf(lib, s, status, e) then 1 else 0
  }

  /** Entries have been appended, and those that are proxies are for invocations that needed one. */
  ghost predicate OnlyDueProxiesAdded(s: Spec.State, before: seq<Spec.Entry>, after: seq<Spec.Entry>) {
    && before <= after
    && forall i | |before| <= i < |after| && after[i].ProxyTxn? ::
         after[i].reqID in s.invocations && s.invocations[after[i].reqID].NeedProxyTransaction()
  }

  ghost predicate NoProxyFor(k: string, before: seq<Spec.Entry>, after: seq<Spec.Entry>) {
    before <= after && forall i | |before| <= i < |after| :: !(after[i].ProxyTxn? && after[i].reqID == k)
  }

  /**
    The stages of the end: `start`, then `mid` when the buffered logs have been consumed,
    `open` when the queues have been flushed, `closed` when the invocations are closed,
    and `end`.
   */
  datatype Stages = Stages(start: View, mid: View, open: View, closed: View, end: View)

  /** The buffered events and then the queues have been taken in, and nothing but the last flush is after `closed`. */
  ghost predicate InOrder(cfg: Spec.Config, maxAge: int, effects: seq<Effect>, items: seq<Item>, st: Stages) {
    && st.mid.agentQueue == st.start.agentQueue && st.mid.lambdaQueue == st.start.lambdaQueue
    && Reached(st.mid.state, st.mid.accepted)
       == HandledAll(cfg, maxAge, Direct, Reached(st.start.state, st.start.accepted), effects)
    && st.start.accepted <= st.mid.accepted
    && Flushed(cfg.lib, cfg.maxSize, st.mid, items, st.open)
    && OnlyDueProxiesAdded(st.open.state, st.open.accepted, st.closed.accepted)
    && NoProxyAdded(st.closed.accepted, st.end.accepted)
  }

  /** All that was queued has been taken in by the first flush. */
  ghost predicate AllTaken(items: seq<Item>, st: Stages) {
    && items == AgentItems(st.mid.agentQueue) + LambdaItems(st.mid.lambdaQueue)
    && st.open.agentQueue == []
  }

  /**
    What the flush before the closing is for: if the agent's own transaction for the
    current invocation is still queued, then no proxy is made for it.
   */
  lemma QueuedTransactionNeedsNoProxy(
    cfg: Spec.Config, maxAge: int, effects: seq<Effect>, items: seq<Item>, st: Stages, i: nat)
    requires InOrder(cfg, maxAge, effects, items, st) && AllTaken(items, st)
    requires QueueBringsTransaction(cfg.lib, cfg.maxSize, st.mid, i)
    ensures NoProxyFor(st.mid.state.current, st.mid.accepted, st.end.accepted)
  {
    FlushObserves(cfg.lib, cfg.maxSize, st.mid, items, st.open, i);
    FlushAddsNoProxy(cfg.lib, cfg.maxSize, st.mid, items, st.open);
  }

  /** And nothing that was accepted gets out of the accepted entries again. */
  lemma AcceptedStaysAccepted(cfg: Spec.Config, maxAge: int, effects: seq<Effect>, items: seq<Item>, st: Stages)
    requires InOrder(cfg, maxAge, effects, items, st)
    ensures st.start.accepted <= st.mid.accepted <= st.open.accepted <= st.closed.accepted <= st.end.accepted
  {
    FlushAddsNoProxy(cfg.lib, cfg.maxSize, st.mid, items, st.open);
  }

  /**
    The whole sequence. By the time the invocations are closed the buffered logs are used
    up or the last awaited report has been seen; and unless the first flush was skipped
    or interrupted, all that was queued has been taken in. Closing leaves no invocation
    behind exactly if each was registered and metadata is there where a proxy is due; and
    if the last flush then runs, which it does unless the connection is failing by then,
    the payloads posted carry, in order, all that was ever accepted, proxies included.
   */
  method ShutDown(
    logsClient: LogsClient, requestID: string, invokedFnArn: string, reason: string, arrivals: nat, mayCancel: bool)
    returns (err: Option<Spec.Error>, flushed: bool,
             ghost effects: seq<Effect>, ghost items: seq<Item>, ghost st: Stages)
    requires logsClient.Valid() && JsonLaws(logsClient.client.batch.lib)
    modifies logsClient, logsClient.client, logsClient.client.batch
    ensures logsClient.client.Valid()
    ensures st.start == old(logsClient.client.Look()) && st.end == logsClient.client.Look()
    ensures InOrder(logsClient.client.batch.Config(), logsClient.client.batch.maxAge, effects, items, st)
    ensures old(logsClient.client.batch.accepted) <= logsClient.client.batch.accepted
    ensures old(logsClient.logsChannel) == Events(effects) + logsClient.logsChannel
    ensures !mayCancel ==> logsClient.logsChannel == [] || st.open.state.invocations == map[]
    ensures st.mid.link.status != T.Failing && !mayCancel && arrivals == 0 ==> AllTaken(items, st)
    ensures err.None? && logsClient.client.batch.invocations == map[] <==> AllDrainable(st.open.state)
    ensures AllDrainable(st.open.state) ==>
      ProxiesAdded(logsClient.client.batch.lib, st.open.state, reason, st.open.accepted, st.closed.accepted)
    ensures st.closed.link.status != T.Failing && !mayCancel ==> flushed
    ensures flushed ==>
      && logsClient.client.batch.entries == [] && logsClient.client.lambdaDataChannel == []
      && Carried(logsClient.client.batch.metadata, logsClient.client.posts, logsClient.client.batch.accepted)
  {
    var client := logsClient.client;
    ghost var start, mid := client.Look(), client.Look();
    mid, effects, items := Drain(logsClient, requestID, invokedFnArn, arrivals, mayCancel);
    ghost var open := client.Look();
    ghost var closed;
    err, flushed, closed := CloseAndFlush(client, reason, arrivals, mayCancel);
    st := Stages(start, mid, open, closed, client.Look());
    AcceptedStaysAccepted(client.batch.Config(), client.batch.maxAge, effects, items, st);
  }

  /** The last two stages. */
  method CloseAndFlush(client: Client, reason: string, arrivals: nat, mayCancel: bool)
    returns (err: Option<Spec.Error>, flushed: bool, ghost closed: View)
    requires client.Valid() && JsonLaws(client.batch.lib)
    modifies client, client.batch
    ensures client.Valid()
    ensures err.None? && client.batch.invocations == map[] <==> AllDrainable(old(client.batch.Abstract()))
    ensures OnlyDueProxiesAdded(old(client.batch.Abstract()), old(client.batch.accepted), closed.accepted)
    ensures AllDrainable(old(client.batch.Abstract())) ==>
      ProxiesAdded(client.batch.lib, old(client.batch.Abstract()), reason,
                   old(client.batch.accepted), closed.accepted)
    ensures NoProxyAdded(closed.accepted, client.batch.accepted)
    ensures closed.link.status != T.Failing && !mayCancel ==> flushed
    ensures flushed ==>
      && client.batch.entries == [] && client.lambdaDataChannel == []
      && Carried(client.batch.metadata, client.posts, client.batch.accepted)
  {
    err := CloseInvocations(client, reason);
    closed := client.Look();
    flushed := LastFlush(client, arrivals, mayCancel);
    assert client.batch.invocations.Keys == {} <==> client.batch.invocations == map[];
  }

  /** Takes in what the log stream and then the queues still hold. */
  method Drain(logsClient: LogsClient, requestID: string, invokedFnArn: string, arrivals: nat, mayCancel: bool)
    returns (ghost mid: View, ghost effects: seq<Effect>, ghost items: seq<Item>)
    requires logsClient.Valid()
    modifies logsClient, logsClient.client, logsClient.client.batch
    ensures logsClient.client.Valid()
    ensures mid.agentQueue == old(logsClient.client.agentDataChannel)
    ensures mid.lambdaQueue == old(logsClient.client.lambdaDataChannel)
    ensures Reached(mid.state, mid.accepted)
         == HandledAll(logsClient.client.batch.Config(), logsClient.client.batch.maxAge, Direct,
                       old(logsClient.Batch()), effects)
    ensures old(logsClient.client.batch.accepted) <= mid.accepted
    ensures old(logsClient.logsChannel) == Events(effects) + logsClient.logsChannel
    ensures Flushed(logsClient.client.batch.lib, logsClient.client.batch.maxSize, mid, items, logsClient.client.Look())
    ensures !mayCancel ==> logsClient.logsChannel == [] || logsClient.client.batch.invocations == map[]
    ensures mid.link.status != T.Failing && !mayCancel && arrivals == 0 ==>
      && items == AgentItems(mid.agentQueue) + LambdaItems(mid.lambdaQueue)
      && logsClient.client.agentDataChannel == []
  {
    effects := ConsumeBuffered(logsClient, requestID, invokedFnArn, mayCancel);
    mid := logsClient.client.Look();
    var interrupted;
    interrupted, items := logsClient.client.FlushAPMData(arrivals, mayCancel);
    assert logsClient.client.batch.invocations.Keys == {} <==> logsClient.client.batch.invocations == map[];
  }

  /** What the log stream still holds goes into the batch. */
  method ConsumeBuffered(logsClient: LogsClient, requestID: string, invokedFnArn: string, mayCancel: bool)
    returns (ghost effects: seq<Effect>)
    requires logsClient.Valid()
    modifies logsClient, logsClient.client, logsClient.client.batch
    ensures logsClient.client.Valid()
    ensures logsClient.client.agentDataChannel == old(logsClient.client.agentDataChannel)
    ensures logsClient.client.lambdaDataChannel == old(logsClient.client.lambdaDataChannel)
    ensures logsClient.Batch()
         == HandledAll(logsClient.client.batch.Config(), logsClient.client.batch.maxAge, Direct,
                       old(logsClient.Batch()), effects)
    ensures old(logsClient.client.batch.accepted) <= logsClient.client.batch.accepted
    ensures old(logsClient.logsChannel) == Events(effects) + logsClient.logsChannel
    ensures !mayCancel ==> logsClient.logsChannel == [] || logsClient.client.batch.invocations.Keys == {}
  {
    ghost var live := logsClient.client.batch.invocations.Keys;
    var outcome;
    outcome, effects := logsClient.FlushData(requestID, invokedFnArn, true, mayCancel);
    AppendNothing(logsClient.client.lambdaDataChannel);
    FinishedMeansNoneLive(live, effects, requestID, outcome == Finished);
  }

  /** At shutdown, the last event to be expected is the one after which no invocation is live. */
  lemma FinishedMeansNoneLive(awaited: set<string>, effects: seq<Effect>, requestID: string, finished: bool)
    requires EndedWith(awaited, effects, requestID, true, finished)
    ensures finished ==> awaited - Reported(effects) == {}
  {
    if finished {
      assert IsLast(effects, |effects| - 1, requestID, true, awaited);
      assert effects[..|effects|] == effects;
    }
  }

  /** The deferred flush, which runs unless the connection is failing. */
  method LastFlush(client: Client, arrivals: nat, mayCancel: bool) returns (flushed: bool)
    requires client.Valid()
    modifies client, client.batch
    ensures client.Valid() && client.batch.invocations.Keys == old(client.batch.invocations.Keys)
    ensures NoProxyAdded(old(client.batch.accepted), client.batch.accepted)
    ensures old(client.status) != T.Failing && !mayCancel ==> flushed
    ensures flushed ==>
      && client.batch.entries == [] && client.lambdaDataChannel == []
      && Carried(client.batch.metadata, client.posts, client.batch.accepted)
  {
    var failing := client.IsUnhealthy();
    ghost var before := client.Look();
    var interrupted, items := client.FlushAPMData(arrivals, mayCancel);
    FlushAddsNoProxy(client.batch.lib, client.batch.maxSize, before, items, client.Look());
    flushed := !failing && !interrupted;
  }

  /** OnShutdown, called by the loop. */
  method CloseInvocations(client: Client, reason: string) returns (err: Option<Spec.Error>)
    requires client.Valid() && JsonLaws(client.batch.lib)
    modifies client.batch
    ensures client.Valid()
    ensures err.None? && client.batch.invocations == map[] <==> AllDrainable(old(client.batch.Abstract()))
    ensures OnlyDueProxiesAdded(old(client.batch.Abstract()), old(client.batch.accepted), client.batch.accepted)
    ensures AllDrainable(old(client.batch.Abstract())) ==>
      ProxiesAdded(client.batch.lib, old(client.batch.Abstract()), reason,
                   old(client.batch.accepted), client.batch.accepted)
  {
    ghost var s, lib, h := client.batch.Abstract(), client.batch.lib, client.batch.accepted;
    var now: int := *;
    ghost var order;
    err, order := client.batch.OnShutdown(reason, now);
    ghost var added := Spec.OnShutdown(lib, s, reason, order, now).added;
    Spec.ShutdownKeeps(lib, s, reason, order, now);
    ShutdownDrains(lib, s, reason, order, now);
    Reassociate(client.shipped, s.entries, added);
    OnlyDueAdded(lib, s, reason, order, now, h);
    AllDueAdded(lib, s, reason, order, now, h);
    CarriedStays(s.metadata, client.batch.metadata, client.posts, client.shipped);
  }

  lemma OnlyDueAdded(lib: Library, s: Spec.State, status: string, order: seq<string>, now: int, h: seq<Spec.Entry>)
    ensures OnlyDueProxiesAdded(s, h, h + Spec.OnShutdown(lib, s, status, order, now).added)
  {
    var added := Spec.OnShutdown(lib, s, status, order, now).added;
    forall i | 0 <= i < |added| && added[i].ProxyTxn?
      ensures added[i].reqID in s.invocations && s.invocations[added[i].reqID].NeedProxyTransaction()
    {
      ShutdownProxies(lib, s, status, order, now, added[i].reqID);
      if Proxies(added, added[i].reqID) == 0 {
        ProxiesCountAll(added, added[i].reqID);
      }
    }
  }

  lemma AllDueAdded(lib: Library, s: Spec.State, status: string, order: seq<string>, now: int, h: seq<Spec.Entry>)
    requires JsonLaws(lib) && Spec.WellFormed(lib, s) && IsIterationOrder(order, s.invocations.Keys)
    ensures AllDrainable(s) ==> ProxiesAdded(lib, s, status, h, h + Spec.OnShutdown(lib, s, status, order, now).added)
  {
    var added := Spec.OnShutdown(lib, s, status, order, now).added;
    ShutdownDrains(lib, s, status, order, now);
    assert (h + added)[|h|..] == added;
  }
}
