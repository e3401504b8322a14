/**
  What the client makes of its two queues and of the batch, as values: what shipping does,
  what the batch takes in of the items that are forwarded to it, and the account of a
  flush or a forwarder. Class `Client` is proved against this.
 */
module Forwarding {
  import opened ByteStrings
  import opened Invocations
  import T = Transport
  import Spec = BatchSpec

  /** What shipping makes of a batch: it empties one that is due and not empty. */
  function Ship(maxSize: int, maxAge: int, s: Spec.State, now: int): Spec.State {
    if Spec.ShouldShip(maxSize, maxAge, s, now) && s.entries != [] then Spec.Reset(s) else s
  }

  /** After a forward there is room again: fewer entries than the threshold, or none. */
  predicate HasRoom(maxSize: int, s: Spec.State) {
    s.entries == [] || |s.entries| < Spec.Threshold(maxSize)
  }

  /**
    No request is made while the link is failing; and otherwise every post gets an answer,
    where requests cannot fail before they are made.
   */
  ghost predicate RequestsMade(requestsFail: bool, posts: seq<Post>) {
    && (forall p | p in posts && p.answer.Some? :: p.link.status != T.Failing)
    && (forall p | p in posts && p.answer.None? :: p.link.status == T.Failing || requestsFail)
  }

  const NO_POST := Post(Spec.APMData([], ""), T.NEW_LINK, None)

  /**
    The posts carry the shipped entries: `shipped` falls, in order, into one segment for
    each post, none of them empty, and each post's data are the metadata and its segment.
   */
  ghost predicate Carried(metadata: Bytes, posts: seq<Post>, shipped: seq<Spec.Entry>) {
    if posts == [] then
      shipped == []
    else
      metadata != [] && exists n :: LastCarries(metadata, posts, shipped, n)
  }

  ghost predicate LastCarries(metadata: Bytes, posts: seq<Post>, shipped: seq<Spec.Entry>, n: int)
    requires posts != []
  {
    && 0 <= n < |shipped|
    && posts[|posts| - 1].data == Spec.APMData(Encode(metadata, Spec.Data(shipped[n..])), "")
    && Carried(metadata, posts[..|posts| - 1], shipped[..n])
  }

  lemma CarriedNext(metadata: Bytes, posts: seq<Post>, shipped: seq<Spec.Entry>, post: Post, entries: seq<Spec.Entry>)
    requires Carried(metadata, posts, shipped) && metadata != [] && entries != []
    requires post.data == Spec.APMData(Encode(metadata, Spec.Data(entries)), "")
    ensures Carried(metadata, posts + [post], shipped + entries)
  {
    var more, all := posts + [post], shipped + entries;
    assert more[..|more| - 1] == posts;
    assert all[..|shipped|] == shipped && all[|shipped|..] == entries;
    assert LastCarries(metadata, more, all, |shipped|);
  }

  /** Metadata may come while nothing has been posted, and does not change after that. */
  lemma CarriedStays(metadata: Bytes, metadata': Bytes, posts: seq<Post>, shipped: seq<Spec.Entry>)
    requires Carried(metadata, posts, shipped) && (metadata != [] ==> metadata' == metadata)
    ensures Carried(metadata', posts, shipped)
  {
  }

  /** The entries of the payloads, as lines. */
  function LinesAfterMetadata(posts: seq<Post>): seq<Bytes> {
    if posts == [] then []
    else LinesAfterMetadata(posts[..|posts| - 1]) + Lines(posts[|posts| - 1].data.data)[1..]
  }

  /** So the payloads posted, read back as lines, are the shipped entries, each behind the same metadata. */
  lemma {:induction false} PostsReadBack(metadata: Bytes, posts: seq<Post>, shipped: seq<Spec.Entry>)
    requires Carried(metadata, posts, shipped) && NEWLINE !in metadata
    requires forall e | e in shipped :: NEWLINE !in e.data
    ensures LinesAfterMetadata(posts) == Spec.Data(shipped)
    ensures forall p | p in posts :: Lines(p.data.data)[0] == metadata
  {
    if posts != [] {
      var n :| LastCarries(metadata, posts, shipped, n);
      var init, last, segment := posts[..|posts| - 1], posts[|posts| - 1], shipped[n..];
      assert shipped[..n] + segment == shipped;
      PostsReadBack(metadata, init, shipped[..n]);
      Spec.DataMembers(segment);
      LinesOfEncode(metadata, Spec.Data(segment));
      Spec.DataConcat(shipped[..n], segment);
      assert ([metadata] + Spec.Data(segment))[1..] == Spec.Data(segment);
    }
  }

  /** What ToAPMData hands over. */
  function Payload(s: Spec.State): Spec.APMData {
    Spec.APMData(Encode(s.metadata, Spec.Data(s.entries)), "")
  }

  /** No entry has been waiting for longer than the maximum age. */
  predicate NotOverdue(maxAge: int, s: Spec.State, now: int) {
    s.age.Some? ==> now - s.age.value <= maxAge
  }

  /** A call of PostToApmServer: the link as it found it, and the answer if it made a request. */
  datatype Post = Post(data: Spec.APMData, link: T.Link, answer: Option<T.Response>) {
    predicate Failed() {
      answer.None? || answer.value.NoResponse?
    }
  }

  // ---------------------------------------------------------------- posts and the link

  /** The requests, by the status at which each was made, and by their answers. */
  function StatusesAsked(posts: seq<Post>): seq<T.Status> {
    if posts == [] then []
    else StatusesAsked(posts[..|posts| - 1])
         + if posts[|posts| - 1].answer.Some? then [posts[|posts| - 1].link.status] else []
  }

  function Answers(posts: seq<Post>): seq<T.Response> {
    if posts == [] then []
    else Answers(posts[..|posts| - 1])
         + if posts[|posts| - 1].answer.Some? then [posts[|posts| - 1].answer.value] else []
  }

  function AnswersIn(run: seq<T.Action>): seq<T.Response> {
    if run == [] then []
    else AnswersIn(run[..|run| - 1])
         + if run[|run| - 1].Request? then [run[|run| - 1].response] else []
  }

  predicate IsFailure(r: T.Response) {
    r.NoResponse? || r.code == 401 || r.code == 403 || r.code == 500 || r.code == 503
  }

  /** How many answers since the last 202 have been failures. */
  function FailuresInARow(posts: seq<Post>): nat {
    if posts == [] then
      0
    else
      var before, answer := FailuresInARow(posts[..|posts| - 1]), posts[|posts| - 1].answer;
      if answer == Some(T.Answer(202)) then 0
      else if answer.Some? && IsFailure(answer.value) then before + 1
      else before
  }

  /**
    The posts are a run of the status machine with one poster: the same requests at the
    same statuses with the same answers, and this link in the end. The reconnection count
    is one less than the failures in a row.
   */
  ghost predicate Replays(run: seq<T.Action>, link: T.Link, posts: seq<Post>) {
    && T.Exec(1, run).link == link && T.Exec(1, run).posters == [T.Idle]
    && T.Exec(1, run).requests == StatusesAsked(posts)
    && AnswersIn(run) == Answers(posts)
    && link.reconnectionCount == FailuresInARow(posts) - 1
  }

  lemma PostsSnoc(posts: seq<Post>, post: Post)
    ensures StatusesAsked(posts + [post])
         == StatusesAsked(posts) + if post.answer.Some? then [post.link.status] else []
    ensures Answers(posts + [post]) == Answers(posts) + if post.answer.Some? then [post.answer.value] else []
    ensures post.answer.None? ==> FailuresInARow(posts + [post]) == FailuresInARow(posts)
    ensures post.answer.Some? ==>
      FailuresInARow(posts + [post])
      == if post.answer.value == T.Answer(202) then 0
         else if IsFailure(post.answer.value) then FailuresInARow(posts) + 1 else FailuresInARow(posts)
  {
    assert (posts + [post])[..|posts|] == posts;
  }

  lemma AnswersInSnoc(run: seq<T.Action>, a: T.Action)
    ensures AnswersIn(run + [a]) == AnswersIn(run) + if a.Request? then [a.response] else []
  {
    assert (run + [a])[..|run|] == run;
  }

  lemma AnswersInCall(run: seq<T.Action>, r: T.Response)
    ensures AnswersIn(T.CallSteps(run, r)) == AnswersIn(run) + [r]
  {
    var checked := run + [T.Check(0)];
    AnswersInSnoc(run, T.Check(0));
    AnswersInSnoc(checked, T.Request(0, r));
    AnswersInSnoc(checked + [T.Request(0, r)], T.Compare(0));
    AnswersInSnoc(checked + [T.Request(0, r)] + [T.Compare(0)], T.Commit(0));
  }

  /** A healthy link has no failures in a row, so that the count is right whether or not Healthy is written again. */
  lemma HealthyCount(run: seq<T.Action>)
    ensures var link := T.Exec(1, run).link; link.status == T.Healthy ==> link.reconnectionCount == -1
    ensures T.Steady(T.Exec(1, run).link)
  {
    T.OnePosterIsSafe(1, run);
  }

  lemma ReplaysCall(run: seq<T.Action>, posts: seq<Post>, post: Post)
    requires Replays(run, post.link, posts) && post.answer.Some? && post.link.status != T.Failing
    ensures Replays(T.CallSteps(run, post.answer.value), T.AfterAnswer(post.link, post.answer.value), posts + [post])
  {
    T.CallInRun(run, post.answer.value);
    T.CallDoes(T.Exec(1, run), 0, post.answer.value);
    AnswersInCall(run, post.answer.value);
    PostsSnoc(posts, post);
    HealthyCount(run);
  }

  lemma ReplaysNoCall(run: seq<T.Action>, posts: seq<Post>, post: Post)
    requires Replays(run, post.link, posts) && post.answer.None?
    ensures Replays(run, post.link, posts + [post])
  {
    PostsSnoc(posts, post);
  }

  lemma ReplaysGrace(run: seq<T.Action>, link: T.Link, posts: seq<Post>)
    requires Replays(run, link, posts) && link.graceTimers > 0
    ensures Replays(run + [T.Grace], T.GraceOver(link), posts)
  {
    T.OnePosterIsSafe(1, run);
    T.ExecSnoc(1, run, T.Grace);
    AnswersInSnoc(run, T.Grace);
  }

  /** Of the posts since there were `n`, only the last may have failed, and it has if `failed`. */
  ghost predicate OnlyLastFailed(n: nat, posts: seq<Post>, failed: bool) {
    && n <= |posts|
    && (forall i | n <= i < |posts| :: posts[i].Failed() <==> failed && i == |posts| - 1)
    && (failed ==> n < |posts|)
  }

  lemma OnlyLastFailedSince(n: nat, before: seq<Post>, after: seq<Post>, failed: bool)
    requires OnlyLastFailed(n, before, false) && OnlyLastFailed(|before|, after, failed) && before <= after
    ensures OnlyLastFailed(n, after, failed)
  {
    forall i | n <= i < |before| ensures !after[i].Failed() {
      assert after[i] == before[i];
    }
  }

  // ---------------------------------------------------------------- what the batch takes in

  /** What is forwarded, or skipped by the forwarder because it holds nothing. */
  datatype Item = AgentItem(data: Spec.APMData) | Skipped(data: Spec.APMData) | LambdaItem(record: Bytes)

  /** The batch as one that feeds it sees it; `entries` are all that it has ever accepted. */
  datatype Intake = Intake(
    full: bool, metadata: Bytes, entries: seq<Spec.Entry>, invocations: map<string, Invocation>)

  /**
    Agent data counts only when it can be decoded and its invocation is known. Without
    metadata its lines are refused; the current transaction may have been observed by then.
   */
  ghost function TakeBody(lib: Library, current: string, before: Intake, d: Spec.APMData): Intake {
    var raw := Uncompress(lib, d.data, d.contentEncoding);
    if current == "" || current !in before.invocations || d.data == [] || raw.None? then
      before
    else
      var metadata := if before.metadata == [] then Lines(raw.value)[0] else before.metadata;
      Intake(
        before.full, metadata,
        before.entries + (if metadata == [] then [] else Spec.BodyEntries(raw.value)),
        Spec.Observed(lib, before.invocations, current, Spec.LinesSeen(metadata, raw.value)))
  }

  /** Lambda data needs metadata. */
  function TakeRecord(before: Intake, d: Bytes): Intake {
    if d == [] || before.metadata == [] then before
    else before.(entries := before.entries + [Spec.LambdaEntry(d)])
  }

  /** A full batch takes nothing in; but after each item it is shipped, so that it is not full for the next. */
  ghost function Take(lib: Library, maxSize: int, current: string, before: Intake, item: Item): Intake {
    if item.Skipped? then
      before
    else
      var taken :=
        if before.full then before
        else if item.AgentItem? then TakeBody(lib, current, before, item.data)
        else TakeRecord(before, item.record);
      taken.(full := maxSize <= 0)
  }

  ghost function TakeAll(lib: Library, maxSize: int, current: string, before: Intake, items: seq<Item>): Intake {
    if items == [] then before
    else Take(lib, maxSize, current, TakeAll(lib, maxSize, current, before, items[..|items| - 1]), items[|items| - 1])
  }

  lemma TakeAllSnoc(lib: Library, maxSize: int, current: string, before: Intake, items: seq<Item>, item: Item)
    ensures TakeAll(lib, maxSize, current, before, items + [item])
         == Take(lib, maxSize, current, TakeAll(lib, maxSize, current, before, items), item)
  {
    assert (items + [item])[..|items|] == items;
  }

  /** Entries have been appended, none of them a proxy. */
  ghost predicate NoProxyAdded(before: seq<Spec.Entry>, after: seq<Spec.Entry>) {
    before <= after && forall i | |before| <= i < |after| :: !after[i].ProxyTxn?
  }

  lemma TakeAddsNoProxy(lib: Library, maxSize: int, current: string, before: Intake, item: Item)
    ensures NoProxyAdded(before.entries, Take(lib, maxSize, current, before, item).entries)
    ensures Take(lib, maxSize, current, before, item).invocations.Keys == before.invocations.Keys
  {
    if item.AgentItem? {
      var raw := Uncompress(lib, item.data.data, item.data.contentEncoding);
      if raw.Some? {
        Spec.AgentEntriesMembers(Lines(raw.value)[1..]);
        assert forall i | 0 <= i < |Spec.BodyEntries(raw.value)| ::
          Spec.BodyEntries(raw.value)[i] in Spec.BodyEntries(raw.value);
      }
    }
  }

  lemma {:induction false} TakingAddsNoProxy(
    lib: Library, maxSize: int, current: string, before: Intake, items: seq<Item>)
    ensures NoProxyAdded(before.entries, TakeAll(lib, maxSize, current, before, items).entries)
    ensures TakeAll(lib, maxSize, current, before, items).invocations.Keys == before.invocations.Keys
  {
    if items != [] {
      var init := items[..|items| - 1];
      TakingAddsNoProxy(lib, maxSize, current, before, init);
      TakeAddsNoProxy(lib, maxSize, current, TakeAll(lib, maxSize, current, before, init), items[|items| - 1]);
    }
  }

  lemma {:induction false} TakeAllConcat(
    lib: Library, maxSize: int, current: string, before: Intake, a: seq<Item>, b: seq<Item>)
    ensures TakeAll(lib, maxSize, current, before, a + b)
         == TakeAll(lib, maxSize, current, TakeAll(lib, maxSize, current, before, a), b)
  {
    if b == [] {
      AppendNothing(a);
    } else {
      var init := b[..|b| - 1];
      TakeAllConcat(lib, maxSize, current, before, a, init);
      assert (a + b)[..|a + b| - 1] == a + init;
    }
  }

  /** The current invocation stays as it is, unless its transaction is observed; metadata stays once it is there. */
  ghost predicate KeepsCurrent(current: string, before: Intake, after: Intake) {
    && current in before.invocations && current in after.invocations
    && (|| after.invocations[current] == before.invocations[current]
        || after.invocations[current] == before.invocations[current].(transactionObserved := true))
    && (before.metadata != [] ==> after.metadata == before.metadata)
  }

  lemma {:induction false} TakingKeepsCurrent(
    lib: Library, maxSize: int, current: string, before: Intake, items: seq<Item>)
    requires current in before.invocations
    ensures KeepsCurrent(current, before, TakeAll(lib, maxSize, current, before, items))
    ensures items != [] && (forall item | item in items :: !item.Skipped?) ==>
      TakeAll(lib, maxSize, current, before, items).full == (maxSize <= 0)
  {
    if items != [] {
      TakingKeepsCurrent(lib, maxSize, current, before, items[..|items| - 1]);
    }
  }

  /**
    This payload is read, with metadata, either known or on its first line, and one of its
    lines reports the transaction of the current invocation, for which a proxy would be due.
   */
  ghost predicate BringsTransaction(lib: Library, current: string, before: Intake, d: Spec.APMData) {
    var raw := Uncompress(lib, d.data, d.contentEncoding);
    && current != "" && current in before.invocations && before.invocations[current].NeedProxyTransaction()
    && d.data != [] && raw.Some? && (before.metadata != [] || Lines(raw.value)[0] != [])
    && Spec.AnyLineReports(lib, Spec.BodyEntries(raw.value), before.invocations[current].transactionID)
  }

  /** Such a payload, taken in sooner or later, has the transaction observed. */
  lemma BroughtIsObserved(
    lib: Library, maxSize: int, current: string, before: Intake, first: seq<Item>, d: Spec.APMData, rest: seq<Item>)
    requires BringsTransaction(lib, current, before, d) && maxSize >= 1 && (before.full ==> first != [])
    requires forall item | item in first :: !item.Skipped?
    ensures
      var after := TakeAll(lib, maxSize, current, before, first + [AgentItem(d)] + rest);
      current in after.invocations && after.invocations[current].transactionObserved
  {
    var at := TakeAll(lib, maxSize, current, before, first);
    TakingKeepsCurrent(lib, maxSize, current, before, first);
    TakeAllSnoc(lib, maxSize, current, before, first, AgentItem(d));
    var seen := Take(lib, maxSize, current, at, AgentItem(d));
    assert seen.invocations[current].transactionObserved;
    TakeAllConcat(lib, maxSize, current, before, first + [AgentItem(d)], rest);
    TakingKeepsCurrent(lib, maxSize, current, seen, rest);
  }

  // ---------------------------------------------------------------- forwarding takes in

  /** The same invocations, and the same of them current. */
  ghost predicate SameMap(s: Spec.State, s': Spec.State) {
    s'.current == s.current && s'.invocations.Keys == s.invocations.Keys && s'.platformStart == s.platformStart
  }

  /** Feeding the batch appends, and changes neither which invocations there are nor which is current. */
  ghost predicate Feeds(s: Spec.State, o: Spec.Outcome) {
    o.state.entries == s.entries + o.added && SameMap(s, o.state)
  }

  lemma AgentDataFeeds(cfg: Spec.Config, s: Spec.State, data: Spec.APMData, now: int)
    requires Spec.WellFormed(cfg.lib, s)
    ensures Feeds(s, Spec.AddAgentData(cfg, s, data, now))
  {
    Spec.StepKeeps(cfg, s, Spec.AgentData(data, now));
  }

  lemma LambdaDataFeeds(cfg: Spec.Config, s: Spec.State, data: Bytes, now: int)
    requires Spec.WellFormed(cfg.lib, s)
    ensures Feeds(s, Spec.AddLambdaData(cfg, s, data, now))
  {
    Spec.StepKeeps(cfg, s, Spec.LambdaData(data, now));
  }

  lemma FinalizeFeeds(lib: Library, s: Spec.State, reqID: string, status: string, endTime: int, now: int)
    requires Spec.WellFormed(lib, s)
    ensures
      var o := Spec.Finalize(lib, s, reqID, status, endTime, now);
      Feeds(s, o) && o.state.metadata == s.metadata
  {
    Spec.FinalizeKeeps(lib, s, reqID, status, endTime, now);
  }

  /** The batch after a forward, as the next one sees it. */
  function IntakeAfter(maxSize: int, maxAge: int, o: Spec.Outcome, accepted: seq<Spec.Entry>, now: int): Intake {
    var s := Ship(maxSize, maxAge, o.state, now);
    Intake(|s.entries| >= maxSize, s.metadata, accepted + o.added, s.invocations)
  }

  lemma ShippedIsNotFull(maxSize: int, maxAge: int, s: Spec.State, now: int)
    ensures |Ship(maxSize, maxAge, s, now).entries| >= maxSize <==> maxSize <= 0
  {
  }

  lemma ForwardTakesBody(
    cfg: Spec.Config, maxAge: int, s: Spec.State, accepted: seq<Spec.Entry>, d: Spec.APMData, now: int)
    ensures IntakeAfter(cfg.maxSize, maxAge, Spec.AddAgentData(cfg, s, d, now), accepted, now)
         == Take(cfg.lib, cfg.maxSize, s.current,
                 Intake(|s.entries| >= cfg.maxSize, s.metadata, accepted, s.invocations), AgentItem(d))
  {
    ShippedIsNotFull(cfg.maxSize, maxAge, Spec.AddAgentData(cfg, s, d, now).state, now);
    AppendNothing(accepted);
  }

  lemma ForwardTakesRecord(
    cfg: Spec.Config, maxAge: int, s: Spec.State, accepted: seq<Spec.Entry>, d: Bytes, now: int)
    ensures IntakeAfter(cfg.maxSize, maxAge, Spec.AddLambdaData(cfg, s, d, now), accepted, now)
         == Take(cfg.lib, cfg.maxSize, s.current,
                 Intake(|s.entries| >= cfg.maxSize, s.metadata, accepted, s.invocations), LambdaItem(d))
  {
    ShippedIsNotFull(cfg.maxSize, maxAge, Spec.AddLambdaData(cfg, s, d, now).state, now);
    AppendNothing(accepted);
  }

  lemma MetadataAfterBody(cfg: Spec.Config, s: Spec.State, body: Spec.APMData, now: int)
    ensures
      var (refused, raw) := Spec.AgentBody(cfg, s, body);
      Spec.AddAgentData(cfg, s, body, now).state.metadata
      == if refused.None? then Spec.MetadataAfter(s, raw) else s.metadata
  {
  }

  /**
    Once the forwarder has been through one agent payload it starts on the lambda data,
    expecting metadata. What follows is accepted exactly if there was metadata before or
    the payload was one that the batch reads, with a first line; otherwise it is dropped.
   */
  lemma LambdaDataAfterAgentData(
    cfg: Spec.Config, maxAge: int, s: Spec.State, body: Spec.APMData, d: Bytes, now: int, later: int)
    requires Spec.WellFormed(cfg.lib, s) && cfg.maxSize >= 1 && d != []
    ensures
      var s' := Ship(cfg.maxSize, maxAge, Spec.AddAgentData(cfg, s, body, now).state, now);
      var (refused, raw) := Spec.AgentBody(cfg, s, body);
      var o := Spec.AddLambdaData(cfg, s', d, later);
      && o.added == (if s.metadata != [] || (refused.None? && Lines(raw)[0] != []) then [Spec.LambdaEntry(d)] else [])
      && (o.added == [] ==> o.err == Some(Spec.MetadataUnavailable))
  {
    var o := Spec.AddAgentData(cfg, s, body, now);
    MetadataAfterBody(cfg, s, body, now);
    var s' := Ship(cfg.maxSize, maxAge, o.state, now);
    assert |s'.entries| < cfg.maxSize by { assert HasRoom(cfg.maxSize, s'); }
  }

  // ---------------------------------------------------------------- what has been taken

  function AgentItems(queue: seq<Spec.APMData>): (items: seq<Item>)
    ensures |items| == |queue|
  {
    seq(|queue|, i requires 0 <= i < |queue| => AgentItem(queue[i]))
  }

  function LambdaItems(queue: seq<Bytes>): (items: seq<Item>)
    ensures |items| == |queue|
  {
    seq(|queue|, i requires 0 <= i < |queue| => LambdaItem(queue[i]))
  }

  function AgentData(items: seq<Item>): seq<Spec.APMData> {
    if items == [] then []
    else AgentData(items[..|items| - 1])
         + if items[|items| - 1].LambdaItem? then [] else [items[|items| - 1].data]
  }

  function LambdaData(items: seq<Item>): seq<Bytes> {
    if items == [] then []
    else LambdaData(items[..|items| - 1])
         + if items[|items| - 1].LambdaItem? then [items[|items| - 1].record] else []
  }

  lemma DataSnoc(items: seq<Item>, item: Item)
    ensures AgentData(items + [item]) == AgentData(items) + if item.LambdaItem? then [] else [item.data]
    ensures LambdaData(items + [item]) == LambdaData(items) + if item.LambdaItem? then [item.record] else []
  {
    assert (items + [item])[..|items|] == items;
  }

  /** An agent payload that holds something is among these items. */
  ghost predicate GateOpen(items: seq<Item>) {
    exists i :: i in items && i.AgentItem?
  }

  /** Lambda data comes only after such a payload. */
  ghost predicate GateKept(items: seq<Item>) {
    forall i | 0 <= i < |items| && items[i].LambdaItem? :: GateOpen(items[..i])
  }

  /** Skipped are exactly the payloads that hold nothing. */
  ghost predicate RightlySkipped(item: Item) {
    !item.LambdaItem? ==> (item.Skipped? <==> item.data.data == [])
  }

  lemma GateSnoc(items: seq<Item>, item: Item)
    ensures GateOpen(items + [item]) <==> GateOpen(items) || item.AgentItem?
    ensures GateKept(items + [item]) <==> GateKept(items) && (item.LambdaItem? ==> GateOpen(items))
  {
    var more := items + [item];
    assert forall i | 0 <= i < |items| :: more[i] == items[i] && more[..i] == items[..i];
    assert more[|items|] == item && more[..|items|] == items;
    assert forall i :: i in more <==> i in items || i == item;
  }

  // ---------------------------------------------------------------- accounts

  /** The queues, the posts and the batch of a client, and what the batch has ever accepted. */
  datatype View = View(
    agentQueue: seq<Spec.APMData>, lambdaQueue: seq<Bytes>, posts: seq<Post>, link: T.Link,
    state: Spec.State, accepted: seq<Spec.Entry>)
  {
    function AsIntake(maxSize: int): Intake {
      Intake(|state.entries| >= maxSize, state.metadata, accepted, state.invocations)
    }
  }

  /** One item has been taken off its queue, and is what the batch has taken in. */
  ghost predicate Advanced(lib: Library, maxSize: int, before: View, item: Item, failed: bool, now: View) {
    && SameMap(before.state, now.state)
    && (if item.LambdaItem?
        then before.lambdaQueue == [item.record] + now.lambdaQueue && now.agentQueue == before.agentQueue
        else before.agentQueue == [item.data] + now.agentQueue && now.lambdaQueue == before.lambdaQueue)
    && before.posts <= now.posts && OnlyLastFailed(|before.posts|, now.posts, failed)
    && now.AsIntake(maxSize) == Take(lib, maxSize, before.state.current, before.AsIntake(maxSize), item)
  }

  /** The next agent payload has been taken off its queue and forwarded. */
  lemma BodyAdvances(
    cfg: Spec.Config, maxAge: int, before: View, d: Spec.APMData, failed: bool, now: View, clock: int)
    requires before.agentQueue == [d] + now.agentQueue && now.lambdaQueue == before.lambdaQueue
    requires before.posts <= now.posts && OnlyLastFailed(|before.posts|, now.posts, failed)
    requires SameMap(before.state, now.state)
    requires
      var o := Spec.AddAgentData(cfg, before.state, d, clock);
      now.state == Ship(cfg.maxSize, maxAge, o.state, clock) && now.accepted == before.accepted + o.added
    ensures Advanced(cfg.lib, cfg.maxSize, before, AgentItem(d), failed, now)
  {
    ForwardTakesBody(cfg, maxAge, before.state, before.accepted, d, clock);
  }

  lemma RecordAdvances(cfg: Spec.Config, maxAge: int, before: View, d: Bytes, failed: bool, now: View, clock: int)
    requires before.lambdaQueue == [d] + now.lambdaQueue && now.agentQueue == before.agentQueue
    requires before.posts <= now.posts && OnlyLastFailed(|before.posts|, now.posts, failed)
    requires SameMap(before.state, now.state)
    requires
      var o := Spec.AddLambdaData(cfg, before.state, d, clock);
      now.state == Ship(cfg.maxSize, maxAge, o.state, clock) && now.accepted == before.accepted + o.added
    ensures Advanced(cfg.lib, cfg.maxSize, before, LambdaItem(d), failed, now)
  {
    ForwardTakesRecord(cfg, maxAge, before.state, before.accepted, d, clock);
  }

  /** From `begun` to `now`, `items` have been taken, each queue in order, and are what the batch has taken in. */
  ghost predicate Accounted(lib: Library, maxSize: int, begun: View, items: seq<Item>, now: View) {
    && SameMap(begun.state, now.state) && begun.posts <= now.posts
    && begun.agentQueue <= AgentData(items) + now.agentQueue
    && begun.lambdaQueue <= LambdaData(items) + now.lambdaQueue
    && now.AsIntake(maxSize) == TakeAll(lib, maxSize, begun.state.current, begun.AsIntake(maxSize), items)
  }

  lemma AccountedNext(
    lib: Library, maxSize: int, begun: View, items: seq<Item>, before: View, item: Item, failed: bool, now: View)
    requires Accounted(lib, maxSize, begun, items, before) && Advanced(lib, maxSize, before, item, failed, now)
    ensures Accounted(lib, maxSize, begun, items + [item], now)
  {
    TakeAllSnoc(lib, maxSize, begun.state.current, begun.AsIntake(maxSize), items, item);
    DataSnoc(items, item);
    if item.LambdaItem? {
      Reassociate(LambdaData(items), [item.record], now.lambdaQueue);
    } else {
      Reassociate(AgentData(items), [item.data], now.agentQueue);
    }
  }

  /** What arrives goes behind what has yet to be taken. */
  lemma AccountedArrival(lib: Library, maxSize: int, begun: View, items: seq<Item>, before: View, now: View)
    requires Accounted(lib, maxSize, begun, items, before)
    requires now.(agentQueue := before.agentQueue, lambdaQueue := before.lambdaQueue) == before
    requires before.agentQueue <= now.agentQueue && before.lambdaQueue <= now.lambdaQueue
    ensures Accounted(lib, maxSize, begun, items, now)
  {
    assert AgentData(items) + before.agentQueue <= AgentData(items) + now.agentQueue;
    assert LambdaData(items) + before.lambdaQueue <= LambdaData(items) + now.lambdaQueue;
  }

  /** What a flush has taken in. The batch may have been shipped in the end, so that it is not full. */
  ghost predicate Flushed(lib: Library, maxSize: int, begun: View, items: seq<Item>, now: View) {
    && begun.agentQueue <= AgentData(items) + now.agentQueue
    && begun.lambdaQueue <= LambdaData(items) + now.lambdaQueue
    && SameMap(begun.state, now.state) && begun.posts <= now.posts
    && var taken := TakeAll(lib, maxSize, begun.state.current, begun.AsIntake(maxSize), items);
       now.AsIntake(maxSize) == taken.(full := now.AsIntake(maxSize).full)
  }

  lemma AccountedIsFlushed(lib: Library, maxSize: int, begun: View, items: seq<Item>, before: View, now: View)
    requires Accounted(lib, maxSize, begun, items, before)
    requires now.agentQueue == before.agentQueue && now.lambdaQueue == before.lambdaQueue
    requires now.accepted == before.accepted && before.posts <= now.posts
    requires now.state == before.state || now.state == Spec.Reset(before.state)
    ensures Flushed(lib, maxSize, begun, items, now)
  {
  }

  lemma NothingFlushed(lib: Library, maxSize: int, v: View)
    ensures Flushed(lib, maxSize, v, [], v)
  {
    assert AgentData([]) + v.agentQueue == v.agentQueue && LambdaData([]) + v.lambdaQueue == v.lambdaQueue;
  }

  lemma LambdaItemsSnoc(items: seq<Item>, queue: seq<Bytes>, record: Bytes)
    ensures items + LambdaItems(queue) + [LambdaItem(record)] == items + LambdaItems(queue + [record])
  {
    assert LambdaItems(queue) + [LambdaItem(record)] == LambdaItems(queue + [record]);
  }

  lemma {:induction false} AgentDataOfItems(queue: seq<Spec.APMData>)
    ensures AgentData(AgentItems(queue)) == queue
  {
    if queue != [] {
      var init := queue[..|queue| - 1];
      AgentDataOfItems(init);
      assert AgentItems(queue) == AgentItems(init) + [AgentItem(queue[|queue| - 1])];
      DataSnoc(AgentItems(init), AgentItem(queue[|queue| - 1]));
    }
  }

  /** After the first `n` of a queue have been taken, its next is the first that is left. */
  lemma NextInLine(queue: seq<Spec.APMData>, n: nat, rest: seq<Spec.APMData>, items: seq<Item>)
    requires n < |queue| && items == AgentItems(queue[..n]) && queue <= AgentData(items) + rest
    ensures rest != [] && rest[0] == queue[n] && items + [AgentItem(rest[0])] == AgentItems(queue[..n + 1])
  {
    AgentDataOfItems(queue[..n]);
    assert queue[n] == (AgentData(items) + rest)[n];
  }

  /** The queue of agent data holds such a payload, and it is not the one that a full batch refuses. */
  ghost predicate QueueBringsTransaction(lib: Library, maxSize: int, v: View, i: nat) {
    && maxSize >= 1 && i < |v.agentQueue| && (i == 0 ==> |v.state.entries| < maxSize)
    && BringsTransaction(lib, v.state.current, v.AsIntake(maxSize), v.agentQueue[i])
  }

  /** A flush of the whole queues has the transaction observed, for which such a payload is queued. */
  lemma FlushObserves(lib: Library, maxSize: int, begun: View, items: seq<Item>, now: View, i: nat)
    requires items == AgentItems(begun.agentQueue) + LambdaItems(begun.lambdaQueue)
    requires Flushed(lib, maxSize, begun, items, now) && QueueBringsTransaction(lib, maxSize, begun, i)
    ensures
      var current := begun.state.current;
      current in now.state.invocations && now.state.invocations[current].transactionObserved
  {
    var agent, lambda := AgentItems(begun.agentQueue), LambdaItems(begun.lambdaQueue);
    var first, d, rest := agent[..i], begun.agentQueue[i], agent[i + 1..] + lambda;
    assert items == first + [AgentItem(d)] + rest;
    BroughtIsObserved(lib, maxSize, begun.state.current, begun.AsIntake(maxSize), first, d, rest);
  }

  lemma FlushAddsNoProxy(lib: Library, maxSize: int, begun: View, items: seq<Item>, now: View)
    requires Flushed(lib, maxSize, begun, items, now)
    ensures NoProxyAdded(begun.accepted, now.accepted)
  {
    TakingAddsNoProxy(lib, maxSize, begun.state.current, begun.AsIntake(maxSize), items);
  }

  /** What a forwarder has done: the gate was kept, and only the last post may have failed. */
  ghost predicate Forwarded(lib: Library, maxSize: int, begun: View, items: seq<Item>, failed: bool, now: View) {
    && Accounted(lib, maxSize, begun, items, now)
    && GateKept(items) && (forall item | item in items :: RightlySkipped(item))
    && OnlyLastFailed(|begun.posts|, now.posts, failed)
  }

  /** Nothing has arrived: each queue is what has been taken off it and what is left. */
  ghost predicate NothingArrived(begun: View, items: seq<Item>, now: View) {
    begun.agentQueue == AgentData(items) + now.agentQueue && begun.lambdaQueue == LambdaData(items) + now.lambdaQueue
  }

  lemma NothingArrivedNext(
    lib: Library, maxSize: int, begun: View, items: seq<Item>, before: View, item: Item, failed: bool, now: View)
    requires NothingArrived(begun, items, before) && Advanced(lib, maxSize, before, item, failed, now)
    ensures NothingArrived(begun, items + [item], now)
  {
    DataSnoc(items, item);
    if item.LambdaItem? {
      Reassociate(LambdaData(items), [item.record], now.lambdaQueue);
    } else {
      Reassociate(AgentData(items), [item.data], now.agentQueue);
    }
  }

  /** Whether some agent payload holds something; that is what opens the gate. */
  ghost predicate AnyHolds(queue: seq<Spec.APMData>) {
    exists d :: d in queue && d.data != []
  }

  lemma {:induction false} GateOpensFor(items: seq<Item>)
    requires forall item | item in items :: RightlySkipped(item)
    ensures GateOpen(items) <==> AnyHolds(AgentData(items))
  {
    if items != [] {
      var init, item := items[..|items| - 1], items[|items| - 1];
      GateOpensFor(init);
      assert init + [item] == items;
      GateSnoc(init, item);
      DataSnoc(init, item);
      assert item in items;
      assert forall d :: d in AgentData(items) <==> d in AgentData(init) || (!item.LambdaItem? && d == item.data);
    }
  }

  lemma {:induction false} ClosedTakesNoRecord(items: seq<Item>)
    requires GateKept(items) && !GateOpen(items)
    ensures LambdaData(items) == []
  {
    if items != [] {
      var init, item := items[..|items| - 1], items[|items| - 1];
      assert init + [item] == items;
      GateSnoc(init, item);
      ClosedTakesNoRecord(init);
    }
  }

  /** What a forwarder that is neither cancelled nor failed has done by the time it has nothing more to take. */
  ghost predicate Drained(begun: View, items: seq<Item>, now: View) {
    && now.agentQueue == [] && (GateOpen(items) ==> now.lambdaQueue == [])
    && (AnyHolds(begun.agentQueue) ==> GateOpen(items))
  }

  /**
    Without arrivals it has taken all agent data, and all records exactly if some of the
    agent data holds something.
   */
  ghost predicate DrainedExactly(begun: View, items: seq<Item>, now: View) {
    && AgentData(items) == begun.agentQueue && now.agentQueue == []
    && LambdaData(items) == (if AnyHolds(begun.agentQueue) then begun.lambdaQueue else [])
    && now.lambdaQueue == (if AnyHolds(begun.agentQueue) then [] else begun.lambdaQueue)
  }

  lemma DrainedIsExact(lib: Library, maxSize: int, begun: View, items: seq<Item>, now: View)
    requires Forwarded(lib, maxSize, begun, items, false, now)
    requires now.agentQueue == [] && (GateOpen(items) ==> now.lambdaQueue == [])
    ensures Drained(begun, items, now)
    ensures NothingArrived(begun, items, now) ==> DrainedExactly(begun, items, now)
  {
    GateOpensFor(items);
    AppendNothing(AgentData(items));
    if GateOpen(items) {
      AppendNothing(LambdaData(items));
    } else {
      ClosedTakesNoRecord(items);
    }
  }

  lemma ForwardedNext(
    lib: Library, maxSize: int, begun: View, items: seq<Item>, before: View, item: Item, failed: bool, now: View)
    requires Forwarded(lib, maxSize, begun, items, false, before)
    requires Advanced(lib, maxSize, before, item, failed, now)
    requires (item.LambdaItem? ==> GateOpen(items)) && RightlySkipped(item)
    ensures Forwarded(lib, maxSize, begun, items + [item], failed, now)
    ensures GateOpen(items + [item]) <==> GateOpen(items) || item.AgentItem?
  {
    AccountedNext(lib, maxSize, begun, items, before, item, failed, now);
    GateSnoc(items, item);
    OnlyLastFailedSince(|begun.posts|, before.posts, now.posts, failed);
  }
}
