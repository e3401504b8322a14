/**
  The loop of Run in app/run.go, as far as it decides who calls PostToApmServer: the loop
  itself, while it flushes, and the forwarder goroutine of each invocation. Between the
  two stands the wait group. Composed with the status machine of module Transport.
 */
module RunLoop {
  import T = Transport

  /**
    Where the loop is: in its select; in processEvent before and while an invocation runs;
    at the wait group; in the flushes, after an invocation or at shutdown; in OnShutdown;
    in the deferred flush.
   */
  datatype Main =
    | Selecting
    | InEvent
    | InInvocation(shutdown: bool)
    | AtWaitGroup(shutdown: bool)
    | FlushingLogs(shutdown: bool)
    | FlushingQueues(shutdown: bool)
    | Closing
    | LastFlush
    | Ended

  /**
    `running` says of each forwarder that was ever started whether it has yet to call Done.
    The loop is poster 0, forwarder `j` is poster `j + 1`.
   */
  datatype System = System(main: Main, running: seq<bool>, transport: T.System)

  const START := System(Selecting, [], T.Init(1))

  datatype Action =
    | ReceiveSignal
    | ProcessEvent
    | FailNextEvent
    | SkipInvocation
    | StartForwarder(shutdown: bool)
    | ReturnEvent
    | EndForwarder(j: nat)
    | PassWaitGroup(flush: bool)
    | EndLogs
    | EndQueues
    | EndClosing
    | EndLastFlush
    | Transport(a: T.Action)

  predicate NoneRunning(sys: System) {
    forall j | 0 <= j < |sys.running| :: !sys.running[j]
  }

  /** Who is in a part of the code that calls PostToApmServer. */
  predicate MayPost(sys: System, i: nat) {
    if i == 0 then sys.main.FlushingLogs? || sys.main.FlushingQueues? || sys.main.LastFlush?
    else i <= |sys.running| && sys.running[i - 1]
  }

  predicate IsIdle(sys: System, i: nat) {
    i < |sys.transport.posters| && sys.transport.posters[i] == T.Idle
  }

  /** `waits` is whether the loop waits at the wait group, as it does. A step that is not enabled changes nothing. */
  function Next(waits: bool, sys: System, action: Action): System {
    match action
    case ReceiveSignal => if sys.main == Selecting then sys.(main := LastFlush) else sys
    case ProcessEvent => if sys.main == Selecting then sys.(main := InEvent) else sys
    case FailNextEvent => if sys.main == InEvent then sys.(main := LastFlush) else sys
    case SkipInvocation => if sys.main == InEvent then sys.(main := AtWaitGroup(true)) else sys
    case StartForwarder(shutdown) =>
      if sys.main == InEvent then
        System(InInvocation(shutdown), sys.running + [true],
               sys.transport.(posters := sys.transport.posters + [T.Idle]))
      else sys
    case ReturnEvent => if sys.main.InInvocation? then sys.(main := AtWaitGroup(sys.main.shutdown)) else sys
    case EndForwarder(j) =>
      if j < |sys.running| && IsIdle(sys, j + 1) then sys.(running := sys.running[j := false]) else sys
    case PassWaitGroup(flush) =>
      if sys.main.AtWaitGroup? && (waits ==> NoneRunning(sys)) then
        sys.(main := if flush || sys.main.shutdown then FlushingLogs(sys.main.shutdown) else Selecting)
      else sys
    case EndLogs =>
      if sys.main.FlushingLogs? && IsIdle(sys, 0) then sys.(main := FlushingQueues(sys.main.shutdown)) else sys
    case EndQueues =>
      if sys.main.FlushingQueues? && IsIdle(sys, 0) then
        sys.(main := if sys.main.shutdown then Closing else Selecting)
      else sys
    case EndClosing => if sys.main == Closing then sys.(main := LastFlush) else sys
    case EndLastFlush => if sys.main == LastFlush && IsIdle(sys, 0) then sys.(main := Ended) else sys
    case Transport(a) =>
      if a.Grace? || MayPost(sys, a.i) then sys.(transport := T.Next(sys.transport, a)) else sys
  }

  function Exec(waits: bool, actions: seq<Action>): System {
    if actions == [] then START
    else Next(waits, Exec(waits, actions[..|actions| - 1]), actions[|actions| - 1])
  }

  // ---------------------------------------------------------------- with the wait group

  /** A forwarder runs only in its own invocation or while it is waited for, and only who may post is posting. */
  ghost predicate Turns(sys: System) {
    && |sys.transport.posters| == |sys.running| + 1
    && (forall j | 0 <= j < |sys.running| && sys.running[j] ::
          j == |sys.running| - 1 && (sys.main.InInvocation? || sys.main.AtWaitGroup?))
    && (forall i | 0 <= i < |sys.transport.posters| && sys.transport.posters[i] != T.Idle :: MayPost(sys, i))
  }

  /** So whoever may post is alone. */
  lemma MayPostAlone(sys: System, i: nat)
    requires Turns(sys) && MayPost(sys, i)
    ensures T.Alone(sys.transport, i)
  {
    forall j | 0 <= j < |sys.transport.posters| && j != i ensures sys.transport.posters[j] == T.Idle {}
  }

  lemma PostKeepsTurns(sys: System, a: T.Action)
    requires Turns(sys) && T.Safe(sys.transport) && (a.Grace? || MayPost(sys, a.i))
    ensures Turns(sys.(transport := T.Next(sys.transport, a))) && T.Safe(T.Next(sys.transport, a))
  {
    if !a.Grace? {
      MayPostAlone(sys, a.i);
    }
    T.NextSafe(sys.transport, a);
  }

  lemma StartKeepsTurns(sys: System, shutdown: bool)
    requires Turns(sys) && T.Safe(sys.transport) && sys.main == InEvent
    ensures var sys' := Next(true, sys, StartForwarder(shutdown)); Turns(sys') && T.Safe(sys'.transport)
  {
  }

  lemma EndKeepsTurns(sys: System, j: nat)
    requires Turns(sys)
    ensures Turns(Next(true, sys, EndForwarder(j)))
  {
  }

  lemma NextKeepsTurns(sys: System, action: Action)
    requires Turns(sys) && T.Safe(sys.transport)
    ensures var sys' := Next(true, sys, action); Turns(sys') && T.Safe(sys'.transport)
  {
    match action
    case StartForwarder(shutdown) => if sys.main == InEvent { StartKeepsTurns(sys, shutdown); }
    case EndForwarder(j) => EndKeepsTurns(sys, j);
    case Transport(a) => if a.Grace? || MayPost(sys, a.i) { PostKeepsTurns(sys, a); }
    case _ =>
  }

  /**
    In every run of the loop, with any number of invocations: whoever may post is alone in
    posting, and so the link is safe; in particular, the mutex is never left held.
   */
  lemma {:induction false} LoopIsSafe(actions: seq<Action>)
    ensures var sys := Exec(true, actions);
      && Turns(sys) && T.Safe(sys.transport)
      && forall i, j | 0 <= i < |sys.transport.posters| && 0 <= j < |sys.transport.posters| ::
           sys.transport.posters[i] != T.Idle && sys.transport.posters[j] != T.Idle ==> i == j
  {
    if actions != [] {
      LoopIsSafe(actions[..|actions| - 1]);
      NextKeepsTurns(Exec(true, actions[..|actions| - 1]), actions[|actions| - 1]);
    }
    var sys := Exec(true, actions);
    forall i, j | 0 <= i < |sys.transport.posters| && 0 <= j < |sys.transport.posters|
      ensures sys.transport.posters[i] != T.Idle && sys.transport.posters[j] != T.Idle ==> i == j
    {
      if sys.transport.posters[i] != T.Idle {
        MayPostAlone(sys, i);
      }
    }
  }

  // ---------------------------------------------------------------- a whole turn of the loop

  /** One call of PostToApmServer by poster `i`. */
  function Posts(sys: System, i: nat, r: T.Response): System {
    Next(true, Next(true, Next(true, Next(true, sys,
      Transport(T.Check(i))), Transport(T.Request(i, r))), Transport(T.Compare(i))), Transport(T.Commit(i)))
  }

  lemma PostsCalls(sys: System, i: nat, r: T.Response)
    requires MayPost(sys, i)
    ensures Posts(sys, i, r) == sys.(transport := T.Call(sys.transport, i, r))
  {
  }

  /** What a post that gets this answer makes of the link. */
  function Answered(link: T.Link, r: T.Response): T.Link {
    if link.status == T.Failing then link else T.AfterAnswer(link, r)
  }

  /** An invocation begins, its forwarder posts, the invocation ends, the forwarder ends. */
  function Invocation(sys: System, r: T.Response): System {
    var begun := Next(true, Next(true, sys, ProcessEvent), StartForwarder(false));
    Next(true, Next(true, Posts(begun, |sys.running| + 1, r), ReturnEvent), EndForwarder(|sys.running|))
  }

  /** The loop is let past the wait group, and flushes. */
  function Flush(sys: System, r: T.Response): System {
    var flushing := Next(true, Next(true, sys, PassWaitGroup(true)), EndLogs);
    Next(true, Posts(flushing, 0, r), EndQueues)
  }

  lemma BeginsInvocation(sys: System)
    requires Turns(sys) && T.Safe(sys.transport) && sys.main == Selecting
    ensures
      var begun := Next(true, Next(true, sys, ProcessEvent), StartForwarder(false));
      && Turns(begun) && T.Safe(begun.transport) && begun.main == InInvocation(false)
      && begun.running == sys.running + [true] && begun.transport.link == sys.transport.link
      && IsIdle(begun, |sys.running| + 1) && MayPost(begun, |sys.running| + 1)
  {
    NextKeepsTurns(sys, ProcessEvent);
    NextKeepsTurns(Next(true, sys, ProcessEvent), StartForwarder(false));
  }

  lemma EndsInvocation(sys: System, running: seq<bool>)
    requires Turns(sys) && T.Safe(sys.transport) && sys.main == InInvocation(false)
    requires sys.running == running + [true] && IsIdle(sys, |running| + 1)
    ensures
      var after := Next(true, Next(true, sys, ReturnEvent), EndForwarder(|running|));
      && Turns(after) && T.Safe(after.transport) && after.main == AtWaitGroup(false)
      && after.running == running + [false] && after.transport == sys.transport
  {
    NextKeepsTurns(sys, ReturnEvent);
    NextKeepsTurns(Next(true, sys, ReturnEvent), EndForwarder(|running|));
  }

  lemma ForwarderHasItsTurn(sys: System, r: T.Response)
    requires Turns(sys) && T.Safe(sys.transport) && sys.main == Selecting
    ensures
      var after := Invocation(sys, r);
      && Turns(after) && T.Safe(after.transport) && NoneRunning(after)
      && after.main == AtWaitGroup(false) && after.running == sys.running + [false]
      && after.transport.link == Answered(sys.transport.link, r)
  {
    var n := |sys.running|;
    BeginsInvocation(sys);
    var begun := Next(true, Next(true, sys, ProcessEvent), StartForwarder(false));
    MayPostAlone(begun, n + 1);
    PostsCalls(begun, n + 1, r);
    T.CallDoes(begun.transport, n + 1, r);
    EndsInvocation(begun.(transport := T.Call(begun.transport, n + 1, r)), sys.running);
  }

  lemma PassesToFlush(sys: System)
    requires Turns(sys) && T.Safe(sys.transport) && sys.main == AtWaitGroup(false) && NoneRunning(sys)
    ensures
      var flushing := Next(true, Next(true, sys, PassWaitGroup(true)), EndLogs);
      flushing == sys.(main := FlushingQueues(false)) && Turns(flushing)
  {
    NextKeepsTurns(sys, PassWaitGroup(true));
    NextKeepsTurns(Next(true, sys, PassWaitGroup(true)), EndLogs);
  }

  lemma FlushHasItsTurn(sys: System, r: T.Response)
    requires Turns(sys) && T.Safe(sys.transport) && sys.main == AtWaitGroup(false) && NoneRunning(sys)
    ensures
      var after := Flush(sys, r);
      && Turns(after) && T.Safe(after.transport)
      && after.main == Selecting && after.running == sys.running
      && after.transport.link == Answered(sys.transport.link, r)
  {
    PassesToFlush(sys);
    var flushing := sys.(main := FlushingQueues(false));
    MayPostAlone(flushing, 0);
    PostsCalls(flushing, 0, r);
    T.CallDoes(flushing.transport, 0, r);
    NextKeepsTurns(Posts(flushing, 0, r), EndQueues);
  }

  /**
    The wait group does not keep anybody from posting: from wherever the loop waits for
    events, an invocation can come in which the forwarder posts, after which the loop
    flushes, posting too, and waits for events again.
   */
  lemma LoopComesRound(sys: System, r: T.Response, r': T.Response)
    requires Turns(sys) && T.Safe(sys.transport) && sys.main == Selecting
    ensures
      var after := Flush(Invocation(sys, r), r');
      && Turns(after) && T.Safe(after.transport)
      && after.main == Selecting && after.running == sys.running + [false]
      && after.transport.link == Answered(Answered(sys.transport.link, r), r')
  {
    ForwarderHasItsTurn(sys, r);
    FlushHasItsTurn(Invocation(sys, r), r');
  }

  /**
    Shutdown: whatever the flushing strategy, the loop flushes, closes the invocations,
    flushes a last time and ends, if nobody is posting.
   */
  lemma ShutdownEnds(sys: System, flush: bool)
    requires Turns(sys) && T.Safe(sys.transport) && sys.main == AtWaitGroup(true) && NoneRunning(sys)
    ensures
      var logs := Next(true, sys, PassWaitGroup(flush));
      var queues := Next(true, logs, EndLogs);
      var closing := Next(true, queues, EndQueues);
      var last := Next(true, closing, EndClosing);
      && logs == sys.(main := FlushingLogs(true)) && queues == sys.(main := FlushingQueues(true))
      && closing == sys.(main := Closing) && last == sys.(main := LastFlush)
      && Next(true, last, EndLastFlush) == sys.(main := Ended)
      && MayPost(logs, 0) && MayPost(queues, 0) && !MayPost(closing, 0) && MayPost(last, 0)
  {
    assert !MayPost(sys, 0);
  }

  /** Between invocations the loop flushes exactly if the strategy asks for it. */
  lemma FlushesExactlyWhen(sys: System, flush: bool)
    requires sys.main == AtWaitGroup(false) && NoneRunning(sys)
    ensures MayPost(Next(true, sys, PassWaitGroup(flush)), 0) <==> flush
    ensures !flush ==> Next(true, sys, PassWaitGroup(flush)) == sys.(main := Selecting)
  {
  }

  // ---------------------------------------------------------------- without it

  lemma ExecSnoc(waits: bool, actions: seq<Action>, action: Action)
    ensures Exec(waits, actions + [action]) == Next(waits, Exec(waits, actions), action)
  {
    assert (actions + [action])[..|actions|] == actions;
  }

  /** The loop flushes while a forwarder is running, and both are at the same point of PostToApmServer. */
  predicate BothAt(sys: System, p: T.Poster) {
    && sys.main == FlushingLogs(false) && sys.running == [true]
    && T.Level(sys.transport, p)
  }

  /** Without waiting, the loop can be flushing when its forwarder is still running. */
  lemma FlushTooEarly() returns (actions: seq<Action>)
    ensures BothAt(Exec(false, actions), T.Idle)
  {
    var a := [] + [ProcessEvent];
    var b := a + [StartForwarder(false)];
    var c := b + [ReturnEvent];
    actions := c + [PassWaitGroup(true)];
    ExecSnoc(false, [], ProcessEvent);
    ExecSnoc(false, a, StartForwarder(false));
    ExecSnoc(false, b, ReturnEvent);
    ExecSnoc(false, c, PassWaitGroup(true));
    assert Exec(false, []) == START;
    assert Exec(false, b).transport.posters == [T.Idle, T.Idle];
  }

  lemma BothTake(actions: seq<Action>, p: T.Poster, a: T.Action, b: T.Action) returns (more: seq<Action>)
    requires BothAt(Exec(false, actions), p) && !a.Grace? && !b.Grace? && a.i == 0 && b.i == 1
    ensures Exec(false, more) == Exec(false, actions).(
      transport := T.Next(T.Next(Exec(false, actions).transport, a), b))
  {
    more := actions + [Transport(a)] + [Transport(b)];
    ExecSnoc(false, actions, Transport(a));
    ExecSnoc(false, actions + [Transport(a)], Transport(b));
  }

  lemma RaceInLoop() returns (actions: seq<Action>)
    ensures Exec(false, actions).transport.lockHeld
  {
    actions := FlushTooEarly();
    T.RaceToDecision(Exec(false, actions).transport);
    actions := BothTake(actions, T.Idle, T.Check(0), T.Check(1));
    T.RaceToDecision(Exec(false, actions).transport);
    actions := BothTake(actions, T.Posting, T.Request(0, T.ACCEPTED), T.Request(1, T.ACCEPTED));
    T.RaceToDecision(Exec(false, actions).transport);
    actions := BothTake(actions, T.Answered(T.Healthy), T.Compare(0), T.Compare(1));
    T.RaceToLock(Exec(false, actions).transport);
    actions := BothTake(actions, T.Deciding(T.Healthy), T.Commit(0), T.Commit(1));
  }

  /** It is the wait group that the early return under the lock depends on. */
  lemma SafeExactlyWithWaitGroup(waits: bool)
    ensures (forall actions :: !Exec(waits, actions).transport.lockHeld) <==> waits
  {
    if waits {
      forall actions ensures !Exec(true, actions).transport.lockHeld {
        LoopIsSafe(actions);
      }
    } else {
      var actions := RaceInLoop();
    }
  }
}
