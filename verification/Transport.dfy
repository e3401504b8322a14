/**
  The health of the connection to APM Server (apmproxy/apmserver.go, apmproxy/status.go):
  what an answer means, what UpdateStatus writes, and the grace period that follows a
  failure, at the end of which a goroutine writes Started.
 */
module Transport {
  import opened ByteStrings

  datatype Status = Started | Healthy | Failing | RateLimited | ClientFailing

  /** `graceTimers` counts the goroutines that still have to write Started. */
  datatype Link = Link(status: Status, reconnectionCount: int, graceTimers: nat)

  const NEW_LINK := Link(Started, -1, 0)

  datatype Response = NoResponse | Answer(code: int)

  /** The status that an answer calls for; None leaves the status alone. */
  function Verdict(r: Response): (v: Option<Status>)
    ensures v == Some(Healthy) <==> r == Answer(202)
    ensures v == Some(RateLimited) <==> r == Answer(429)
    ensures v == Some(Failing) <==> r.NoResponse? || r.code in {401, 403, 500, 503}
    ensures v == Some(ClientFailing) <==> r.Answer? && 400 <= r.code < 500 && r.code !in {401, 403, 429}
    ensures v != Some(Started)
  {
    if r.NoResponse? then Some(Failing)
    else if r.code == 202 then Some(Healthy)
    else if r.code == 429 then Some(RateLimited)
    else if r.code == 401 || r.code == 403 then Some(Failing)
    else if 400 <= r.code < 500 then Some(ClientFailing)
    else if r.code == 500 || r.code == 503 then Some(Failing)
    else None
  }

  /** The write-locked part of UpdateStatus. */
  function Write(link: Link, target: Status): Link {
    match target
    case Healthy => link.(status := Healthy, reconnectionCount := -1)
    case RateLimited => link.(status := RateLimited)
    case ClientFailing => link.(status := ClientFailing)
    case Failing => Link(Failing, link.reconnectionCount + 1, link.graceTimers + 1)
    case Started => link
  }

  function UpdateStatus(link: Link, target: Status): Link {
    if target == link.status then link else Write(link, target)
  }

  /** What an answer makes of the link; an unhandled one leaves it alone. */
  function AfterAnswer(link: Link, r: Response): Link {
    match Verdict(r)
    case None => link
    case Some(status) => UpdateStatus(link, status)
  }

  function GraceOver(link: Link): Link
    requires link.graceTimers > 0
  {
    link.(status := Started, graceTimers := link.graceTimers - 1)
  }

  /** One grace goroutine is outstanding when the link is failing, and none otherwise. */
  predicate Steady(link: Link) {
    link.graceTimers == (if link.status == Failing then 1 else 0) && link.reconnectionCount >= -1
  }

  // ---------------------------------------------------------------- grace periods

  /** ComputeGracePeriod in seconds; `random` is what rand.Float64 returns. */
  function GracePeriod(reconnectionCount: nat, random: real): real {
    if reconnectionCount == 0 then
      random * 5.0
    else
      var base := Square(reconnectionCount);
      base + (random / 5.0 - 0.1) * base
  }

  function Square(reconnectionCount: nat): real {
    var n := if reconnectionCount < 6 then reconnectionCount else 6;
    (n * n) as real
  }

  predicate IsRandom(x: real) { 0.0 <= x < 1.0 }

  lemma GracePeriodBounds(n: nat, random: real)
    requires IsRandom(random)
    ensures var p := GracePeriod(n, random);
      && (n == 0 ==> 0.0 <= p < 5.0)
      && (n >= 1 ==> 0.9 * Square(n) <= p < 1.1 * Square(n))
      && 0.0 <= p < 39.6
  {
    if n >= 1 {
      SquareValues(n);
      Scale(Square(n), random);
    }
  }

  lemma SquareValues(n: nat)
    ensures Square(0) == 0.0 && Square(1) == 1.0 && Square(2) == 4.0 && Square(3) == 9.0
    ensures Square(4) == 16.0 && Square(5) == 25.0 && (n >= 6 ==> Square(n) == 36.0)
    ensures n >= 1 ==> 1.0 <= Square(n) <= 36.0
  {
  }

  lemma Scale(base: real, random: real)
    requires base > 0.0 && IsRandom(random)
    ensures 0.9 * base <= base + (random / 5.0 - 0.1) * base < 1.1 * base
  {
    var jitter := random / 5.0 - 0.1;
    assert -0.1 <= jitter < 0.1;
    assert (jitter + 0.1) * base >= 0.0;
    assert (0.1 - jitter) * base > 0.0;
  }

  /** The jitter is never lost: two clients that draw different numbers wait differently long. */
  lemma JitterSpreads(n: nat, x: real, y: real)
    requires IsRandom(x) && IsRandom(y) && x < y
    ensures GracePeriod(n, x) < GracePeriod(n, y)
    ensures n >= 1 ==> GracePeriod(n, 0.0) == 0.9 * Square(n) && GracePeriod(n, 0.5) == Square(n)
  {
    SquareValues(n);
    if n >= 1 {
      assert (y / 5.0 - x / 5.0) * Square(n) > 0.0;
    }
  }

  /** And every period in the range is drawn by some number. */
  lemma JitterCovers(n: nat, p: real) returns (random: real)
    requires if n == 0 then 0.0 <= p < 5.0 else 0.9 * Square(n) <= p < 1.1 * Square(n)
    ensures IsRandom(random) && GracePeriod(n, random) == p
  {
    SquareValues(n);
    if n == 0 {
      random := p / 5.0;
    } else {
      var base := Square(n);
      var share := p / base;
      assert share * base == p;
      assert 0.9 <= share < 1.1;
      random := (share - 0.9) * 5.0;
      assert base + (random / 5.0 - 0.1) * base == share * base;
    }
  }

  lemma GraceGrows(n: nat, x: real, y: real)
    requires 1 <= n <= 5 && IsRandom(x) && IsRandom(y)
    ensures GracePeriod(n, x) < GracePeriod(n + 1, y)
  {
    SquareValues(n);
    GracePeriodBounds(n, x);
    GracePeriodBounds(n + 1, y);
  }

  /**
    The next grace period is longer whatever the jitter exactly from the first
    reconnection up to the sixth.
   */
  lemma GraceGrowsExactlyWhen(n: nat)
    ensures (forall x, y | IsRandom(x) && IsRandom(y) :: GracePeriod(n, x) < GracePeriod(n + 1, y)) <==> 1 <= n <= 5
  {
    SquareValues(n);
    SquareValues(n + 1);
    if 1 <= n <= 5 {
      forall x, y | IsRandom(x) && IsRandom(y) ensures GracePeriod(n, x) < GracePeriod(n + 1, y) {
        GraceGrows(n, x, y);
      }
    } else {
      assert IsRandom(0.5) && IsRandom(0.0);
      assert GracePeriod(n, 0.5) >= GracePeriod(n + 1, 0.0);
    }
  }

  // ---------------------------------------------------------------- interleavings

  /**
    A caller of PostToApmServer: before it; past the health check; with an answer, in
    UpdateStatus; past the read-locked comparison there.
   */
  datatype Poster = Idle | Posting | Answered(target: Status) | Deciding(target: Status)

  /** `requests` has the status at each HTTP request, `log` every status that was written. */
  datatype System = System(
    link: Link,
    lockHeld: bool,
    posters: seq<Poster>,
    requests: seq<Status>,
    log: seq<Status>)

  datatype Action =
    | Check(i: nat)
    | Request(i: nat, response: Response)
    | Compare(i: nat)
    | Commit(i: nat)
    | Grace

  function Init(n: nat): System {
    System(NEW_LINK, false, seq(n, _ => Idle), [], [])
  }

  /**
    One step. Whoever needs the mutex waits while it is held. In Commit, finding Healthy
    already written, the code returns without unlocking.
   */
  function Next(sys: System, a: Action): System {
    match a
    case Check(i) =>
      if i < |sys.posters| && sys.posters[i] == Idle && !sys.lockHeld && sys.link.status != Failing then
        sys.(posters := sys.posters[i := Posting])
      else sys
    case Request(i, response) =>
      if i < |sys.posters| && sys.posters[i] == Posting then
        var verdict := Verdict(response);
        sys.(posters := sys.posters[i := if verdict.Some? then Answered(verdict.value) else Idle],
             requests := sys.requests + [sys.link.status])
      else sys
    case Compare(i) =>
      if i < |sys.posters| && sys.posters[i].Answered? && !sys.lockHeld then
        var target := sys.posters[i].target;
        sys.(posters := sys.posters[i := if target == sys.link.status then Idle else Deciding(target)])
      else sys
    case Commit(i) =>
      if i < |sys.posters| && sys.posters[i].Deciding? && !sys.lockHeld then
        var target := sys.posters[i].target;
        var posters := sys.posters[i := Idle];
        if target == Healthy && sys.link.status == Healthy then
          sys.(posters := posters, lockHeld := true)
        else
          sys.(posters := posters, link := Write(sys.link, target), log := sys.log + [target])
      else sys
    case Grace =>
      if sys.link.graceTimers > 0 && !sys.lockHeld then
        sys.(link := GraceOver(sys.link), log := sys.log + [Started])
      else sys
  }

  function Exec(n: nat, actions: seq<Action>): System {
    if actions == [] then Init(n) else Next(Exec(n, actions[..|actions| - 1]), actions[|actions| - 1])
  }

  function FailuresSinceHealthy(log: seq<Status>): nat {
    if log == [] || log[|log| - 1] == Healthy then 0
    else FailuresSinceHealthy(log[..|log| - 1]) + if log[|log| - 1] == Failing then 1 else 0
  }

  lemma FailuresSnoc(log: seq<Status>, status: Status)
    ensures FailuresSinceHealthy(log + [status])
         == if status == Healthy then 0 else FailuresSinceHealthy(log) + if status == Failing then 1 else 0
  {
    assert (log + [status])[..|log|] == log;
  }

  ghost predicate Safe(sys: System) {
    && !sys.lockHeld
    && Steady(sys.link)
    && Failing !in sys.requests
    && sys.link.reconnectionCount == FailuresSinceHealthy(sys.log) - 1
    && sys.link.status == (if sys.log == [] then Started else sys.log[|sys.log| - 1])
    && (forall i | 0 <= i < |sys.posters| :: SafePoster(sys.link, sys.posters[i]))
  }

  /** A poster past the health check sees a link that is not failing, hence has no timer. */
  predicate SafePoster(link: Link, p: Poster) {
    match p
    case Idle => true
    case Posting => link.status != Failing
    case Answered(target) => link.status != Failing && target != Started
    case Deciding(target) => link.status != Failing && target != Started && link.status != target
  }

  /** Nobody but poster `i` is inside PostToApmServer. */
  ghost predicate Alone(sys: System, i: nat) {
    forall j | 0 <= j < |sys.posters| && j != i :: sys.posters[j] == Idle
  }

  /** One step is safe if whoever takes it is alone; a grace goroutine need not be. */
  lemma NextSafe(sys: System, a: Action)
    requires Safe(sys) && (a.Grace? || Alone(sys, a.i))
    ensures Safe(Next(sys, a)) && |Next(sys, a).posters| == |sys.posters|
    ensures forall j | 0 <= j < |sys.posters| && (a.Grace? || j != a.i) :: Next(sys, a).posters[j] == sys.posters[j]
  {
    match a
    case Check(_) =>
    case Request(_, _) =>
    case Compare(_) =>
    case Commit(i) => CommitSafe(sys, i);
    case Grace => GraceSafe(sys);
  }

  lemma GraceSafe(sys: System)
    requires Safe(sys)
    ensures Safe(Next(sys, Grace))
  {
    FailuresSnoc(sys.log, Started);
  }

  lemma CommitSafe(sys: System, i: nat)
    requires Safe(sys) && Alone(sys, i)
    ensures Safe(Next(sys, Commit(i)))
  {
    if i < |sys.posters| && sys.posters[i].Deciding? {
      FailuresSnoc(sys.log, sys.posters[i].target);
    }
  }

  /**
    With one poster, in every interleaving with the grace goroutines: the mutex is never
    left held; one goroutine is outstanding exactly while the link is failing; no request
    is made then; the status is the last one written; and ReconnectionCount is one less
    than the failures since the link was last healthy.
   */
  lemma {:induction false} OnePosterIsSafe(n: nat, actions: seq<Action>)
    requires n <= 1
    ensures Safe(Exec(n, actions)) && |Exec(n, actions).posters| == n
  {
    if actions != [] {
      OnePosterIsSafe(n, actions[..|actions| - 1]);
      var a := actions[|actions| - 1];
      if !a.Grace? && a.i > 0 {
        NotAPoster(Exec(n, actions[..|actions| - 1]), a);
      } else {
        NextSafe(Exec(n, actions[..|actions| - 1]), a);
      }
    }
  }

  lemma NotAPoster(sys: System, a: Action)
    requires !a.Grace? && a.i >= |sys.posters|
    ensures Next(sys, a) == sys
  {
  }

  /** So a grace goroutine only ever replaces Failing. */
  lemma GraceReplacesOnlyFailing(n: nat, actions: seq<Action>)
    requires n <= 1
    ensures var sys := Exec(n, actions); Next(sys, Grace) != sys ==> sys.link.status == Failing
  {
    OnePosterIsSafe(n, actions);
  }

  lemma ExecSnoc(n: nat, actions: seq<Action>, a: Action)
    ensures Exec(n, actions + [a]) == Next(Exec(n, actions), a)
  {
    assert (actions + [a])[..|actions|] == actions;
  }

  // ---------------------------------------------------------------- one call, undisturbed

  /** The steps of one call of PostToApmServer by poster `i`, if it gets this answer. */
  function Call(sys: System, i: nat, r: Response): System {
    Next(Next(Next(Next(sys, Check(i)), Request(i, r)), Compare(i)), Commit(i))
  }

  /** What UpdateStatus computes is what its comparison and its write do, one after the other. */
  lemma UpdateIsCompareAndCommit(sys: System, i: nat, target: Status)
    requires !sys.lockHeld && i < |sys.posters| && sys.posters[i] == Answered(target) && target != Started
    ensures Next(Next(sys, Compare(i)), Commit(i))
         == sys.(posters := sys.posters[i := Idle],
                 link := UpdateStatus(sys.link, target),
                 log := if target == sys.link.status then sys.log else sys.log + [target])
  {
  }

  /** A lone call makes a request unless the link is failing, and then makes of the link what the answer calls for. */
  lemma CallDoes(sys: System, i: nat, r: Response)
    requires Safe(sys) && Alone(sys, i) && i < |sys.posters| && sys.posters[i] == Idle
    ensures Safe(Call(sys, i, r)) && Call(sys, i, r).posters == sys.posters
    ensures Call(sys, i, r).link == if sys.link.status == Failing then sys.link else AfterAnswer(sys.link, r)
    ensures Call(sys, i, r).requests
         == sys.requests + if sys.link.status == Failing then [] else [sys.link.status]
  {
    AppendNothing(sys.requests);
    if sys.link.status != Failing {
      var answered := Next(Next(sys, Check(i)), Request(i, r));
      NextSafe(sys, Check(i));
      NextSafe(Next(sys, Check(i)), Request(i, r));
      if Verdict(r).Some? {
        UpdateIsCompareAndCommit(answered, i, Verdict(r).value);
        NextSafe(answered, Compare(i));
        NextSafe(Next(answered, Compare(i)), Commit(i));
      }
    }
  }

  function CallSteps(actions: seq<Action>, r: Response): seq<Action> {
    actions + [Check(0)] + [Request(0, r)] + [Compare(0)] + [Commit(0)]
  }

  lemma CallInRun(actions: seq<Action>, r: Response)
    requires Exec(1, actions).posters == [Idle]
    ensures Exec(1, CallSteps(actions, r)) == Call(Exec(1, actions), 0, r)
    ensures Safe(Exec(1, actions)) && Alone(Exec(1, actions), 0)
  {
    OnePosterIsSafe(1, actions);
    ExecTwo(1, actions, Check(0), Request(0, r));
    ExecTwo(1, actions + [Check(0)] + [Request(0, r)], Compare(0), Commit(0));
  }

  const ACCEPTED := Answer(202)

  /** Both posters are past the comparison when the first of them commits Healthy. */
  const CHECKED: seq<Action> := [] + [Check(0)] + [Check(1)]
  const ANSWERED := CHECKED + [Request(0, ACCEPTED)] + [Request(1, ACCEPTED)]
  const COMPARED := ANSWERED + [Compare(0)] + [Compare(1)]
  const RACE := COMPARED + [Commit(0)] + [Commit(1)]

  /** The first two posters are at the same point, before any status has been written. */
  predicate Level(sys: System, p: Poster) {
    |sys.posters| >= 2 && sys.posters[0] == sys.posters[1] == p && !sys.lockHeld && sys.link.status == Started
  }

  lemma RaceToDecision(sys: System)
    ensures Level(sys, Idle) ==> Level(Next(Next(sys, Check(0)), Check(1)), Posting)
    ensures Level(sys, Posting) ==>
      Level(Next(Next(sys, Request(0, ACCEPTED)), Request(1, ACCEPTED)), Answered(Healthy))
    ensures Level(sys, Answered(Healthy)) ==> Level(Next(Next(sys, Compare(0)), Compare(1)), Deciding(Healthy))
  {
  }

  lemma RaceToLock(sys: System)
    requires Level(sys, Deciding(Healthy))
    ensures Next(Next(sys, Commit(0)), Commit(1)).lockHeld
  {
    var sys' := Next(sys, Commit(0));
    assert sys'.link.status == Healthy && sys'.posters[1] == Deciding(Healthy);
  }

  lemma ExecTwo(n: nat, actions: seq<Action>, a: Action, b: Action)
    ensures Exec(n, actions + [a] + [b]) == Next(Next(Exec(n, actions), a), b)
  {
    ExecSnoc(n, actions, a);
    ExecSnoc(n, actions + [a], b);
  }

  lemma TwoPostersCanLock(n: nat)
    requires n >= 2
    ensures Exec(n, RACE).lockHeld
  {
    assert Level(Exec(n, []), Idle);
    ExecTwo(n, [], Check(0), Check(1));
    RaceToDecision(Exec(n, []));
    ExecTwo(n, CHECKED, Request(0, ACCEPTED), Request(1, ACCEPTED));
    RaceToDecision(Exec(n, CHECKED));
    ExecTwo(n, ANSWERED, Compare(0), Compare(1));
    RaceToDecision(Exec(n, ANSWERED));
    ExecTwo(n, COMPARED, Commit(0), Commit(1));
    RaceToLock(Exec(n, COMPARED));
  }

  /** The early return under the lock is harmless exactly when there is at most one poster. */
  lemma LockSafeExactlyWhen(n: nat)
    ensures (forall actions :: !Exec(n, actions).lockHeld) <==> n <= 1
  {
    if n <= 1 {
      forall actions ensures !Exec(n, actions).lockHeld {
        OnePosterIsSafe(n, actions);
      }
    } else {
      TwoPostersCanLock(n);
    }
  }

  // ---------------------------------------------------------------- backoff over runs

  lemma {:induction false} QuietLog(log: seq<Status>, quiet: seq<Status>)
    requires Healthy !in quiet && Failing !in quiet
    ensures FailuresSinceHealthy(log + quiet) == FailuresSinceHealthy(log)
  {
    if quiet == [] {
      assert log + quiet == log;
    } else {
      var init, last := quiet[..|quiet| - 1], quiet[|quiet| - 1];
      QuietLog(log, init);
      FailuresSnoc(log + init, last);
      assert log + init + [last] == log + quiet;
    }
  }

  /** From one failure to the next without success in between, the count goes up by one. */
  lemma FailuresInARow(
    actions: seq<Action>, actions': seq<Action>, before: seq<Status>, quiet: seq<Status>)
    requires Exec(1, actions).log == before + [Failing]
    requires Exec(1, actions').log == before + [Failing] + quiet + [Failing]
    requires Healthy !in quiet && Failing !in quiet
    ensures Exec(1, actions).link.reconnectionCount == FailuresSinceHealthy(before + [Failing]) - 1
    ensures Exec(1, actions').link.reconnectionCount == FailuresSinceHealthy(before + [Failing])
  {
    OnePosterIsSafe(1, actions);
    OnePosterIsSafe(1, actions');
    var log := before + [Failing];
    QuietLog(log, quiet);
    FailuresSnoc(log + quiet, Failing);
  }

  /**
    In any run, from one failure to the next without success in between, the grace period
    grows whatever the jitter, from the second failure in a row up to the seventh.
   */
  lemma BackoffGrows(
    actions: seq<Action>, actions': seq<Action>, before: seq<Status>, quiet: seq<Status>, x: real, y: real)
    requires Exec(1, actions).log == before + [Failing]
    requires Exec(1, actions').log == before + [Failing] + quiet + [Failing]
    requires Healthy !in quiet && Failing !in quiet
    requires 2 <= FailuresSinceHealthy(before + [Failing]) <= 6
    requires IsRandom(x) && IsRandom(y)
    ensures
      var n, n' := Exec(1, actions).link.reconnectionCount, Exec(1, actions').link.reconnectionCount;
      0 <= n && n' == n + 1 && GracePeriod(n, x) < GracePeriod(n', y)
  {
    FailuresInARow(actions, actions', before, quiet);
    GraceGrows(FailuresSinceHealthy(before + [Failing]) - 1, x, y);
  }
}
