/**
  The client of apmproxy/apmserver.go: the two queues that the HTTP handlers and the log
  consumer fill, and the goroutine that feeds them to the batch and ships it. What the
  server answers, when a grace period ends, what arrives meanwhile and what the clock says
  are left open. A forward runs here without finalisations in between; those
  interleavings are the subject of module Shipping.
 */
module Clients {
  import opened ByteStrings
  import opened Invocations
  import opened Batches
  import opened Forwarding
  import T = Transport
  import Spec = BatchSpec

  class Client {
    const batch: Batch
    // Whether compressing the data or building a request may fail.
    const requestsFail: bool
    var agentDataChannel: seq<Spec.APMData>
    var lambdaDataChannel: seq<Bytes>
    var status: T.Status
    var reconnectionCount: int
    var graceTimers: nat

    // All entries ever handed to PostToApmServer, all calls of it, and these as a run of the status machine.
    ghost var shipped: seq<Spec.Entry>
    ghost var posts: seq<Post>
    ghost var run: seq<T.Action>

    ghost predicate Valid()
      reads this, batch
    {
      && batch.Valid()
      && Connected()
      && batch.accepted == shipped + batch.entries
      && Carried(batch.metadata, posts, shipped)
    }

    /** The posts are a run of the status machine that ends with the link as it is. */
    ghost predicate Connected()
      reads this
    {
      T.Steady(Link()) && Replays(run, Link(), posts) && RequestsMade(requestsFail, posts)
    }

    function Link(): T.Link
      reads this
    {
      T.Link(status, reconnectionCount, graceTimers)
    }

    constructor (batch: Batch, requestsFail: bool)
      requires batch.Valid() && batch.accepted == batch.entries
      ensures Valid() && this.batch == batch && this.requestsFail == requestsFail && shipped == [] && posts == []
      ensures agentDataChannel == [] && lambdaDataChannel == [] && Link() == T.NEW_LINK
    {
      this.batch, this.requestsFail := batch, requestsFail;
      agentDataChannel, lambdaDataChannel := [], [];
      status, reconnectionCount, graceTimers := T.Started, -1, 0;
      shipped, posts, run := [], [], [];
    }

    method IsUnhealthy() returns (unhealthy: bool)
      ensures unhealthy <==> status == T.Failing
    {
      unhealthy := status == T.Failing;
    }

    /** The end of a grace period, if there is one. */
    method EndGrace()
      requires Connected()
      modifies this`status, this`graceTimers, this`run
      ensures Connected()
      ensures Link() == if old(status) == T.Failing then T.GraceOver(old(Link())) else old(Link())
    {
      if graceTimers > 0 {
        ReplaysGrace(run, Link(), posts);
        run := run + [T.Grace];
        status := T.Started;
        graceTimers := graceTimers - 1;
      }
    }

    method UpdateStatus(target: T.Status)
      modifies this`status, this`reconnectionCount, this`graceTimers
      ensures Link() == T.UpdateStatus(old(Link()), target)
    {
      if target == status {
        return;
      }
      match target {
        case Healthy =>
          status := target;
          reconnectionCount := -1;
        case RateLimited =>
          status := target;
        case ClientFailing =>
          status := target;
        case Failing =>
          status := target;
          reconnectionCount := reconnectionCount + 1;
          graceTimers := graceTimers + 1;
        case Started =>
      }
    }

    /**
      Compressing the data or building the request can fail too, with no effect on the
      status. The error that is returned does not tell of answers other than 202.
     */
    method PostToApmServer(apmData: Spec.APMData) returns (failed: bool, ghost post: Post)
      requires Connected()
      modifies this`status, this`reconnectionCount, this`graceTimers, this`posts, this`run
      ensures Connected()
      ensures posts == old(posts) + [post] && post.data == apmData && (failed <==> post.Failed())
      ensures post.link == old(Link()) || (old(status) == T.Failing && post.link == T.GraceOver(old(Link())))
      ensures Link() == if post.answer.Some? then T.AfterAnswer(post.link, post.answer.value) else post.link
    {
      // A grace period may end at any moment.
      var graceEnds: bool := *;
      if graceEnds {
        EndGrace();
      }
      var unhealthy := IsUnhealthy();
      var noRequest: bool := *;
      if unhealthy || (requestsFail && noRequest) {
        post := Post(apmData, Link(), None);
        ReplaysNoCall(run, posts, post);
        posts := posts + [post];
        return true, post;
      }
      failed, post := Request(apmData);
    }

    /** The request, and what the answer does to the status. */
    method Request(apmData: Spec.APMData) returns (failed: bool, ghost post: Post)
      requires Connected() && status != T.Failing
      modifies this`status, this`reconnectionCount, this`graceTimers, this`posts, this`run
      ensures Connected() && posts == old(posts) + [post] && (failed <==> post.Failed())
      ensures post.data == apmData && post.link == old(Link()) && post.answer.Some?
      ensures Link() == T.AfterAnswer(post.link, post.answer.value)
    {
      var response: T.Response := *;
      post := Post(apmData, Link(), Some(response));
      var verdict := T.Verdict(response);
      if verdict.Some? {
        UpdateStatus(verdict.value);
      }
      Remember(post);
      failed := response.NoResponse?;
    }

    ghost method Remember(post: Post)
      requires post.answer.Some? && post.link.status != T.Failing
      requires Replays(run, post.link, posts) && RequestsMade(requestsFail, posts)
      requires Link() == T.AfterAnswer(post.link, post.answer.value)
      modifies this`posts, this`run
      ensures Connected() && posts == old(posts) + [post]
    {
      ReplaysCall(run, posts, post);
      posts, run := posts + [post], T.CallSteps(run, post.answer.value);
      HealthyCount(run);
    }

    method SendBatch() returns (failed: bool, ghost post: Post)
      requires Valid()
      modifies this`status, this`reconnectionCount, this`graceTimers, this`posts, this`run, this`shipped, batch
      ensures Valid() && batch.accepted == old(batch.accepted)
      ensures batch.Abstract() == if old(batch.Abstract()).entries == [] then old(batch.Abstract())
                                  else Spec.Reset(old(batch.Abstract()))
      ensures shipped == old(shipped) + old(batch.Abstract()).entries
      ensures old(batch.Abstract()).entries == [] ==> !failed && posts == old(posts) && Link() == old(Link())
      ensures old(batch.Abstract()).entries != [] ==>
        && posts == old(posts) + [post] && post.data == Payload(old(batch.Abstract()))
        && (failed <==> post.Failed())
    {
      failed, post := false, NO_POST;
      var count := batch.Count();
      if count == 0 {
        AppendNothing(shipped);
      } else {
        var data := batch.ToAPMData();
        ghost var before := posts;
        failed, post := PostToApmServer(data);
        CarriedNext(batch.metadata, before, shipped, post, batch.entries);
        shipped := shipped + batch.entries;
        batch.Reset();
        AppendNothing(shipped);
      }
    }

    /** A batch that refuses the data drops it; either way the batch is shipped when due. */
    method ForwardAgentData(apmData: Spec.APMData, now: int) returns (failed: bool)
      requires Valid()
      modifies this`status, this`reconnectionCount, this`graceTimers, this`posts, this`run, this`shipped, batch
      ensures Valid()
      ensures
        var o := Spec.AddAgentData(batch.Config(), old(batch.Abstract()), apmData, now);
        && batch.Abstract() == Ship(batch.maxSize, batch.maxAge, o.state, now)
        && batch.accepted == old(batch.accepted) + o.added
      ensures HasRoom(batch.maxSize, batch.Abstract()) && NotOverdue(batch.maxAge, batch.Abstract(), now)
      ensures OnlyLastFailed(|old(posts)|, posts, failed) && old(posts) <= posts
      ensures SameInvocations(old(batch.Abstract()))
    {
      ghost var s := batch.Abstract();
      ghost var o := Spec.AddAgentData(batch.Config(), s, apmData, now);
      AgentDataFeeds(batch.Config(), s, apmData, now);
      Reassociate(shipped, s.entries, o.added);
      var err := batch.AddAgentData(apmData, now);
      failed := ShipIfDue(now);
    }

    method ForwardLambdaData(data: Bytes, now: int) returns (failed: bool)
      requires Valid()
      modifies this`status, this`reconnectionCount, this`graceTimers, this`posts, this`run, this`shipped, batch
      ensures Valid()
      ensures
        var o := Spec.AddLambdaData(batch.Config(), old(batch.Abstract()), data, now);
        && batch.Abstract() == Ship(batch.maxSize, batch.maxAge, o.state, now)
        && batch.accepted == old(batch.accepted) + o.added
      ensures HasRoom(batch.maxSize, batch.Abstract()) && NotOverdue(batch.maxAge, batch.Abstract(), now)
      ensures OnlyLastFailed(|old(posts)|, posts, failed) && old(posts) <= posts
      ensures SameInvocations(old(batch.Abstract()))
    {
      ghost var s := batch.Abstract();
      ghost var o := Spec.AddLambdaData(batch.Config(), s, data, now);
      LambdaDataFeeds(batch.Config(), s, data, now);
      Reassociate(shipped, s.entries, o.added);
      var err := batch.AddLambdaData(data, now);
      failed := ShipIfDue(now);
    }

    method ShipIfDue(now: int) returns (failed: bool)
      requires Valid()
      modifies this`status, this`reconnectionCount, this`graceTimers, this`posts, this`run, this`shipped, batch
      ensures Valid() && batch.accepted == old(batch.accepted)
      ensures batch.Abstract() == Ship(batch.maxSize, batch.maxAge, old(batch.Abstract()), now)
      ensures HasRoom(batch.maxSize, batch.Abstract()) && NotOverdue(batch.maxAge, batch.Abstract(), now)
      ensures OnlyLastFailed(|old(posts)|, posts, failed) && old(posts) <= posts
      ensures |old(batch.entries)| < Spec.Threshold(batch.maxSize)
              && NotOverdue(batch.maxAge, old(batch.Abstract()), now) ==>
        !failed && posts == old(posts) && batch.Abstract() == old(batch.Abstract())
    {
      var due := batch.ShouldShip(now);
      if due {
        ghost var post;
        failed, post := SendBatch();
      } else {
        failed := false;
      }
    }

    /** Up to `budget` items arrive; the handlers only ever append to the queues. */
    method Arrive(budget: nat) returns (left: nat)
      modifies this`agentDataChannel, this`lambdaDataChannel
      ensures left <= budget
      ensures left == budget ==>
        agentDataChannel == old(agentDataChannel) && lambdaDataChannel == old(lambdaDataChannel)
      ensures old(agentDataChannel) <= agentDataChannel && old(lambdaDataChannel) <= lambdaDataChannel
      ensures |agentDataChannel| + |lambdaDataChannel| + left
           == old(|agentDataChannel| + |lambdaDataChannel|) + budget
    {
      left := budget;
      while left > 0
        invariant left <= budget
        invariant left == budget ==>
          agentDataChannel == old(agentDataChannel) && lambdaDataChannel == old(lambdaDataChannel)
        invariant old(agentDataChannel) <= agentDataChannel && old(lambdaDataChannel) <= lambdaDataChannel
        invariant |agentDataChannel| + |lambdaDataChannel| + left
               == old(|agentDataChannel| + |lambdaDataChannel|) + budget
      {
        if * {
          return;
        } else if * {
          var d: Spec.APMData := *;
          agentDataChannel := agentDataChannel + [d];
        } else {
          var d: Bytes := *;
          lambdaDataChannel := lambdaDataChannel + [d];
        }
        left := left - 1;
      }
    }

    ghost predicate SameInvocations(s: Spec.State)
      reads this, batch
    {
      SameMap(s, batch.Abstract())
    }

    ghost function Look(): View
      reads this, batch
    {
      View(agentDataChannel, lambdaDataChannel, posts, Link(), batch.Abstract(), batch.accepted)
    }

    /** Takes one agent payload off its queue and forwards it. */
    method ForwardNextAgentData() returns (failed: bool, ghost item: Item)
      requires Valid() && agentDataChannel != []
      modifies this, batch
      ensures Valid() && Advanced(batch.lib, batch.maxSize, old(Look()), item, failed, Look())
      ensures item == AgentItem(old(agentDataChannel)[0])
    {
      ghost var before := Look();
      var data := agentDataChannel[0];
      item := AgentItem(data);
      agentDataChannel := agentDataChannel[1..];
      var now: int := *;
      failed := ForwardAgentData(data, now);
      BodyAdvances(batch.Config(), batch.maxAge, before, data, failed, Look(), now);
    }

    /** Takes one record off the queue of lambda data and forwards it. */
    method ForwardNextLambdaData() returns (failed: bool, ghost item: Item)
      requires Valid() && lambdaDataChannel != []
      modifies this, batch
      ensures Valid() && Advanced(batch.lib, batch.maxSize, old(Look()), item, failed, Look())
      ensures item == LambdaItem(old(lambdaDataChannel)[0])
    {
      ghost var before := Look();
      var data := lambdaDataChannel[0];
      item := LambdaItem(data);
      lambdaDataChannel := lambdaDataChannel[1..];
      var now: int := *;
      failed := ForwardLambdaData(data, now);
      RecordAdvances(batch.Config(), batch.maxAge, before, data, failed, Look(), now);
    }

    /** What arrives between two items. */
    method ArriveMeanwhile(budget: nat, ghost begun: View, ghost items: seq<Item>) returns (left: nat)
      requires Valid() && Accounted(batch.lib, batch.maxSize, begun, items, Look())
      modifies this`agentDataChannel, this`lambdaDataChannel
      ensures Valid() && Accounted(batch.lib, batch.maxSize, begun, items, Look())
      ensures left <= budget
      ensures left == budget ==>
        agentDataChannel == old(agentDataChannel) && lambdaDataChannel == old(lambdaDataChannel)
      ensures |agentDataChannel| >= old(|agentDataChannel|)
      ensures |agentDataChannel| + |lambdaDataChannel| + left
           == old(|agentDataChannel| + |lambdaDataChannel|) + budget
    {
      ghost var before := Look();
      left := Arrive(budget);
      AccountedArrival(batch.lib, batch.maxSize, begun, items, before, Look());
    }

    /**
      Takes everything off the queues, agent data first, and ships the batch. At most
      `arrivals` items come in meanwhile; `mayCancel` is whether the context may end.
      Without arrivals or interruption both queues end empty, and all that was accepted
      has been handed over.
     */
    method FlushAPMData(arrivals: nat, mayCancel: bool) returns (interrupted: bool, ghost items: seq<Item>)
      requires Valid()
      modifies this, batch
      ensures Valid() && (interrupted ==> mayCancel)
      ensures Flushed(batch.lib, batch.maxSize, old(Look()), items, Look())
      ensures old(status) == T.Failing ==>
        !interrupted && items == [] && Look() == old(Look())
      ensures old(status) != T.Failing ==> AgentItems(old(agentDataChannel)) <= items
      ensures old(status) != T.Failing && !interrupted ==>
        lambdaDataChannel == [] && batch.entries == [] && Carried(batch.metadata, posts, batch.accepted)
      ensures old(status) != T.Failing && !interrupted && arrivals == 0 ==>
        && agentDataChannel == []
        && items == AgentItems(old(agentDataChannel)) + LambdaItems(old(lambdaDataChannel))
    {
      var unhealthy := IsUnhealthy();
      if unhealthy {
        NothingFlushed(batch.lib, batch.maxSize, Look());
        return false, [];
      }
      interrupted, items := FlushQueues(arrivals, mayCancel);
    }

    /** The two loops, one after the other, and the last batch. */
    method FlushQueues(arrivals: nat, mayCancel: bool) returns (interrupted: bool, ghost items: seq<Item>)
      requires Valid()
      modifies this, batch
      ensures Valid() && (interrupted ==> mayCancel)
      ensures Flushed(batch.lib, batch.maxSize, old(Look()), items, Look())
      ensures AgentItems(old(agentDataChannel)) <= items
      ensures !interrupted ==>
        lambdaDataChannel == [] && batch.entries == [] && Carried(batch.metadata, posts, batch.accepted)
      ensures !interrupted && arrivals == 0 ==>
        && agentDataChannel == []
        && items == AgentItems(old(agentDataChannel)) + LambdaItems(old(lambdaDataChannel))
    {
      ghost var begun := Look();
      var budget: nat;
      budget, items := FlushAgentData(arrivals);
      interrupted, items := FlushLambdaData(budget, mayCancel, begun, items);
      if interrupted {
        AccountedIsFlushed(batch.lib, batch.maxSize, begun, items, Look(), Look());
      } else {
        SendRest(begun, items);
      }
    }

    /** What is left in the batch in the end is shipped. */
    method SendRest(ghost begun: View, ghost items: seq<Item>)
      requires Valid() && Accounted(batch.lib, batch.maxSize, begun, items, Look())
      modifies this`status, this`reconnectionCount, this`graceTimers, this`posts, this`run, this`shipped, batch
      ensures Valid() && Flushed(batch.lib, batch.maxSize, begun, items, Look())
      ensures batch.entries == [] && Carried(batch.metadata, posts, batch.accepted)
    {
      ghost var before := Look();
      var failed, post := SendBatch();
      AccountedIsFlushed(batch.lib, batch.maxSize, begun, items, before, Look());
      AppendNothing(shipped);
    }

    /** The second loop of FlushAPMData, until the queue of lambda data is empty or the context ends. */
    method FlushLambdaData(arrivals: nat, mayCancel: bool, ghost begun: View, ghost agentItems: seq<Item>)
      returns (interrupted: bool, ghost items: seq<Item>)
      requires Valid() && Accounted(batch.lib, batch.maxSize, begun, agentItems, Look())
      modifies this, batch
      ensures Valid() && Accounted(batch.lib, batch.maxSize, begun, items, Look())
      ensures (interrupted ==> mayCancel) && (!interrupted ==> lambdaDataChannel == []) && agentItems <= items
      ensures arrivals == 0 ==> agentDataChannel == old(agentDataChannel)
      ensures arrivals == 0 && !interrupted ==> items == agentItems + LambdaItems(old(lambdaDataChannel))
    {
      interrupted := false;
      items := agentItems;
      ghost var queue, taken := lambdaDataChannel, [];
      var budget := arrivals;
      while true
        invariant Valid() && Accounted(batch.lib, batch.maxSize, begun, items, Look())
        invariant items == agentItems + LambdaItems(taken)
        invariant arrivals == 0 ==>
          budget == 0 && agentDataChannel == old(agentDataChannel) && queue == taken + lambdaDataChannel
        decreases |lambdaDataChannel| + |agentDataChannel| + budget
      {
        budget := ArriveMeanwhile(budget, begun, items);
        if mayCancel {
          interrupted := *;
          if interrupted {
            return;
          }
        }
        if |lambdaDataChannel| == 0 {
          break;
        }
        ghost var before := Look();
        TakeNext(taken, lambdaDataChannel);
        var failed, item := ForwardNextLambdaData();
        AccountedNext(batch.lib, batch.maxSize, begun, items, before, item, failed, Look());
        LambdaItemsSnoc(agentItems, taken, item.record);
        items, taken := items + [item], taken + [item.record];
      }
    }

    /**
      The first loop of FlushAPMData: as many receives as the queue was long. The queue
      never runs short, since nobody else takes from it, so no receive blocks.
     */
    method FlushAgentData(arrivals: nat) returns (budget: nat, ghost items: seq<Item>)
      requires Valid()
      modifies this, batch
      ensures Valid() && Accounted(batch.lib, batch.maxSize, old(Look()), items, Look()) && budget <= arrivals
      ensures items == AgentItems(old(agentDataChannel))
      ensures arrivals == 0 ==> agentDataChannel == [] && lambdaDataChannel == old(lambdaDataChannel)
    {
      budget, items := arrivals, [];
      ghost var begun := Look();
      var i := |agentDataChannel|;
      while i > 0
        invariant Valid() && Accounted(batch.lib, batch.maxSize, begun, items, Look()) && budget <= arrivals
        invariant 0 <= i <= |begun.agentQueue| && items == AgentItems(begun.agentQueue[..|begun.agentQueue| - i])
        invariant i <= |agentDataChannel|
        invariant arrivals == 0 ==> i == |agentDataChannel| && lambdaDataChannel == begun.lambdaQueue
      {
        budget, items := FlushNextAgentData(budget, begun, items, |begun.agentQueue| - i);
        i := i - 1;
      }
      assert begun.agentQueue[..|begun.agentQueue|] == begun.agentQueue;
    }

    /** One turn of that loop; the next of the queue as it was is the next of the queue as it is. */
    method FlushNextAgentData(arrivals: nat, ghost begun: View, ghost taken: seq<Item>, ghost n: nat)
      returns (budget: nat, ghost items: seq<Item>)
      requires Valid() && Accounted(batch.lib, batch.maxSize, begun, taken, Look())
      requires n < |begun.agentQueue| && taken == AgentItems(begun.agentQueue[..n]) && agentDataChannel != []
      modifies this, batch
      ensures Valid() && Accounted(batch.lib, batch.maxSize, begun, items, Look()) && budget <= arrivals
      ensures items == AgentItems(begun.agentQueue[..n + 1])
      ensures |agentDataChannel| >= old(|agentDataChannel|) - 1
      ensures arrivals == 0 ==>
        agentDataChannel == old(agentDataChannel)[1..] && lambdaDataChannel == old(lambdaDataChannel)
    {
      budget := ArriveMeanwhile(arrivals, begun, taken);
      ghost var before := Look();
      NextInLine(begun.agentQueue, n, agentDataChannel, taken);
      var failed, item := ForwardNextAgentData();
      AccountedNext(batch.lib, batch.maxSize, begun, taken, before, item, failed, Look());
      items := taken + [item];
    }

    /** The forwarder receives agent data; what holds nothing is not forwarded. */
    method ReceiveAgentData() returns (failed: bool, ghost item: Item)
      requires Valid() && agentDataChannel != []
      modifies this, batch
      ensures Valid() && Advanced(batch.lib, batch.maxSize, old(Look()), item, failed, Look())
      ensures var data := old(agentDataChannel)[0]; item == if data.data == [] then Skipped(data) else AgentItem(data)
    {
      if |agentDataChannel[0].data| == 0 {
        item := Skipped(agentDataChannel[0]);
        agentDataChannel := agentDataChannel[1..];
        failed := false;
      } else {
        failed, item := ForwardNextAgentData();
      }
    }

    /**
      The forwarder of one invocation, until the context ends (which it does at the latest
      when nothing more arrives; before that only if `mayCancel`) or a post fails. Lambda
      data is not taken off its queue before an agent payload that holds something has been.
     */
    method ForwardApmData(arrivals: nat, mayCancel: bool)
      returns (failed: bool, cancelled: bool, ghost items: seq<Item>)
      requires Valid()
      modifies this, batch
      ensures Valid() && Forwarded(batch.lib, batch.maxSize, old(Look()), items, failed, Look())
      ensures cancelled ==> mayCancel
      ensures old(status) == T.Failing ==> !failed && items == [] && Look() == old(Look())
      ensures old(status) != T.Failing && !failed && !cancelled ==>
        Drained(old(Look()), items, Look()) && (arrivals == 0 ==> DrainedExactly(old(Look()), items, Look()))
    {
      failed, cancelled, items := false, false, [];
      ghost var begun := Look();
      var unhealthy := IsUnhealthy();
      if unhealthy {
        return;
      }
      var budget, lambdaOpen := arrivals, false;
      while !failed
        invariant Valid() && Forwarded(batch.lib, batch.maxSize, begun, items, failed, Look())
        invariant lambdaOpen <==> GateOpen(items)
        invariant arrivals == 0 ==> budget == 0 && NothingArrived(begun, items, Look())
        decreases |agentDataChannel| + |lambdaDataChannel| + budget
      {
        budget := ArriveForForwarder(budget, begun, items);
        var done: bool, agentFirst: bool := *, *;
        if mayCancel && done {
          cancelled := true;
          return;
        }
        var lambdaReady := lambdaOpen && |lambdaDataChannel| > 0;
        if |agentDataChannel| == 0 && !lambdaReady {
          DrainedIsExact(batch.lib, batch.maxSize, begun, items, Look());
          return;
        }
        var fromAgent := |agentDataChannel| > 0 && (agentFirst || !lambdaReady);
        lambdaOpen := lambdaOpen || (fromAgent && |agentDataChannel[0].data| > 0);
        failed, items := ForwardNext(fromAgent, begun, items);
      }
    }

    method ArriveForForwarder(budget: nat, ghost begun: View, ghost items: seq<Item>) returns (left: nat)
      requires Valid() && Forwarded(batch.lib, batch.maxSize, begun, items, false, Look())
      modifies this`agentDataChannel, this`lambdaDataChannel
      ensures Valid() && Forwarded(batch.lib, batch.maxSize, begun, items, false, Look())
      ensures budget == 0 ==> left == 0 && Look() == old(Look())
      ensures |agentDataChannel| + |lambdaDataChannel| + left
           == old(|agentDataChannel| + |lambdaDataChannel|) + budget
    {
      left := ArriveMeanwhile(budget, begun, items);
    }

    /** One turn of that loop, once it is known which queue to take from. */
    method ForwardNext(fromAgent: bool, ghost begun: View, ghost taken: seq<Item>)
      returns (failed: bool, ghost items: seq<Item>)
      requires Valid() && Forwarded(batch.lib, batch.maxSize, begun, taken, false, Look())
      requires if fromAgent then agentDataChannel != [] else lambdaDataChannel != [] && GateOpen(taken)
      modifies this, batch
      ensures Valid() && Forwarded(batch.lib, batch.maxSize, begun, items, failed, Look())
      ensures GateOpen(items) <==> GateOpen(taken) || (fromAgent && old(agentDataChannel)[0].data != [])
      ensures NothingArrived(begun, taken, old(Look())) ==> NothingArrived(begun, items, Look())
      ensures |agentDataChannel| + |lambdaDataChannel| == old(|agentDataChannel| + |lambdaDataChannel|) - 1
    {
      ghost var before, item := Look(), LambdaItem([]);
      if fromAgent {
        failed, item := ReceiveAgentData();
      } else {
        failed, item := ForwardNextLambdaData();
      }
      ForwardedNext(batch.lib, batch.maxSize, begun, taken, before, item, failed, Look());
      if NothingArrived(begun, taken, before) {
        NothingArrivedNext(batch.lib, batch.maxSize, begun, taken, before, item, failed, Look());
      }
      items := taken + [item];
    }
  }
}
