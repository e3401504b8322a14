/**
  One invocation in app/run.go's processEvent, with the goroutines it starts: the
  forwarder, which the wait group counts, and the log consumer. Only the lengths of the
  queues matter here. The HTTP handlers that fill the queues are the environment.
 */
module EventLoop {
  import opened ByteStrings

  /** How many items the two queues of the client hold. */
  datatype Capacity = Capacity(agent: nat, lambda: nat)

  /** processEvent waits in its three-way select; when it returns it cancels the invocation's context. */
  datatype Main = Waiting | Returned

  /** `lambdaOpen`: agent data has been forwarded, so that lambda data may be. */
  datatype ForwarderState = Selecting(lambdaOpen: bool) | Posting(lambdaOpen: bool, fromAgent: bool) | Stopped

  /** `Sending` has a record for the lambda queue in hand; `last` if the consumer ends after it. */
  datatype Logger = Reading | Sending(last: bool) | Closed

  datatype System = System(
    main: Main, forwarder: ForwarderState, logger: Logger,
    agentQueue: nat, lambdaQueue: nat, logQueue: nat,
    flushed: bool)

  datatype LogEffect = NoRecord | RecordToSend(last: bool) | LastEvent

  datatype Action =
    // processEvent
    | ReturnOnFlush
    | ReturnOnLogsDone
    | ReturnOnDeadline
    // ForwardApmData
    | StopForwarding
    | TakeAgentData(isEmpty: bool)
    | TakeLambdaData
    | FinishForward(ok: bool)
    // ProcessLogs
    | ReadLog(effect: LogEffect)
    | SendRecord
    | DropRecord
    | StopReading
    // environment
    | AgentDataArrives
    | LogArrives
    | FlushRequested

  predicate ByEnvironment(a: Action) {
    a.AgentDataArrives? || a.LogArrives? || a.FlushRequested?
  }

  predicate Enabled(cap: Capacity, sys: System, a: Action) {
    var cancelled := sys.main == Returned;
    match a
    case ReturnOnFlush => sys.main == Waiting && sys.flushed
    case ReturnOnLogsDone => sys.main == Waiting && sys.logger == Closed
    case ReturnOnDeadline => sys.main == Waiting
    case StopForwarding => sys.forwarder.Selecting? && cancelled
    case TakeAgentData(_) => sys.forwarder.Selecting? && sys.agentQueue > 0
    case TakeLambdaData => sys.forwarder.Selecting? && sys.forwarder.lambdaOpen && sys.lambdaQueue > 0
    case FinishForward(_) => sys.forwarder.Posting?
    case ReadLog(_) => sys.logger == Reading && sys.logQueue > 0
    case SendRecord => sys.logger.Sending? && sys.lambdaQueue < cap.lambda
    case DropRecord => sys.logger.Sending? && cancelled
    case StopReading => sys.logger == Reading && cancelled
    case AgentDataArrives => sys.agentQueue < cap.agent
    case LogArrives => true
    case FlushRequested => true
  }

  function Next(cap: Capacity, sys: System, a: Action): System
    requires Enabled(cap, sys, a)
  {
    match a
    case ReturnOnFlush => sys.(main := Returned)
    case ReturnOnLogsDone => sys.(main := Returned)
    case ReturnOnDeadline => sys.(main := Returned)
    case StopForwarding => sys.(forwarder := Stopped)
    case TakeAgentData(isEmpty) =>
      sys.(agentQueue := sys.agentQueue - 1,
           forwarder := if isEmpty then sys.forwarder else Posting(sys.forwarder.lambdaOpen, true))
    case TakeLambdaData => sys.(lambdaQueue := sys.lambdaQueue - 1, forwarder := Posting(true, false))
    case FinishForward(ok) =>
      sys.(forwarder := if ok then Selecting(sys.forwarder.lambdaOpen || sys.forwarder.fromAgent) else Stopped)
    case ReadLog(effect) =>
      sys.(logQueue := sys.logQueue - 1,
           logger := match effect
                     case NoRecord => Reading
                     case RecordToSend(last) => Sending(last)
                     case LastEvent => Closed)
    case SendRecord =>
      sys.(lambdaQueue := sys.lambdaQueue + 1, logger := if sys.logger.last then Closed else Reading)
    case DropRecord => sys.(logger := if sys.logger.last then Closed else Reading)
    case StopReading => sys.(logger := Closed)
    case AgentDataArrives => sys.(agentQueue := sys.agentQueue + 1)
    case LogArrives => sys.(logQueue := sys.logQueue + 1)
    case FlushRequested => sys.(flushed := true)
  }

  /** The state after these actions, if each was enabled in its turn. */
  function Exec(cap: Capacity, sys: System, actions: seq<Action>): (r: Option<System>) {
    if actions == [] then
      Some(sys)
    else
      match Exec(cap, sys, actions[..|actions| - 1])
      case None => None
      case Some(before) =>
        var a := actions[|actions| - 1];
        if Enabled(cap, before, a) then Some(Next(cap, before, a)) else None
  }

  /** The steps taken by the extension itself. */
  function OwnSteps(actions: seq<Action>): nat {
    if actions == [] then 0
    else OwnSteps(actions[..|actions| - 1]) + if ByEnvironment(actions[|actions| - 1]) then 0 else 1
  }

  /** backgroundDataSendWg */
  function WaitGroup(sys: System): nat {
    if sys.forwarder == Stopped then 0 else 1
  }

  // ---------------------------------------------------------------- termination

  function Weight(sys: System): nat {
    (if sys.main == Waiting then 1 else 0)
    + (match sys.forwarder case Selecting(_) => 1 case Posting(_, _) => 2 case Stopped => 0)
    + (match sys.logger case Reading => 1 case Sending(_) => 4 case Closed => 0)
    + 2 * sys.agentQueue + 2 * sys.lambdaQueue + 5 * sys.logQueue
  }

  lemma StepWeight(cap: Capacity, sys: System, a: Action)
    requires Enabled(cap, sys, a)
    ensures if ByEnvironment(a) then Weight(Next(cap, sys, a)) <= Weight(sys) + 5
            else Weight(Next(cap, sys, a)) < Weight(sys)
  {
  }

  /**
    In every run from every state, the steps of the extension are bounded by the weight of
    the state and the number of things that the environment does meanwhile.
   */
  lemma {:induction false} StepsAreBounded(cap: Capacity, sys: System, actions: seq<Action>)
    requires Exec(cap, sys, actions).Some?
    ensures Weight(Exec(cap, sys, actions).value) + OwnSteps(actions)
         <= Weight(sys) + 5 * (|actions| - OwnSteps(actions))
  {
    if actions != [] {
      var init := actions[..|actions| - 1];
      StepsAreBounded(cap, sys, init);
      StepWeight(cap, Exec(cap, sys, init).value, actions[|actions| - 1]);
    }
  }

  predicate Finished(sys: System) {
    sys.main == Returned && sys.forwarder == Stopped && sys.logger == Closed
  }

  /** The extension is never stuck: it has a step to take until all three parts have ended. */
  lemma AlwaysAStep(cap: Capacity, sys: System)
    ensures Finished(sys) <==> forall a | !ByEnvironment(a) :: !Enabled(cap, sys, a)
  {
    if !Finished(sys) {
      var a :=
        if sys.main == Waiting then ReturnOnDeadline
        else if sys.forwarder.Posting? then FinishForward(true)
        else if sys.forwarder.Selecting? then StopForwarding
        else if sys.logger.Sending? then DropRecord
        else StopReading;
      assert !ByEnvironment(a) && Enabled(cap, sys, a);
    }
  }

  /**
    No stuck invocation: a run in which the environment does no more than `arrivals`
    things, and at whose end the extension has nothing left to do, has ended with the
    forwarder done and the wait group at zero, after a bounded number of steps.
   */
  lemma NoStuckInvocation(cap: Capacity, sys: System, actions: seq<Action>, arrivals: nat)
    requires Exec(cap, sys, actions).Some? && |actions| - OwnSteps(actions) <= arrivals
    ensures OwnSteps(actions) <= Weight(sys) + 5 * arrivals
    ensures var end := Exec(cap, sys, actions).value;
      (forall a | !ByEnvironment(a) :: !Enabled(cap, end, a)) <==> Finished(end)
    ensures Finished(Exec(cap, sys, actions).value) ==> WaitGroup(Exec(cap, sys, actions).value) == 0
  {
    StepsAreBounded(cap, sys, actions);
    AlwaysAStep(cap, Exec(cap, sys, actions).value);
  }

  lemma ExecSnoc(cap: Capacity, sys: System, actions: seq<Action>, a: Action)
    requires Exec(cap, sys, actions).Some? && Enabled(cap, Exec(cap, sys, actions).value, a)
    ensures Exec(cap, sys, actions + [a]) == Some(Next(cap, Exec(cap, sys, actions).value, a))
  {
    assert (actions + [a])[..|actions|] == actions;
  }

  // ---------------------------------------------------------------- what the state tells of the run

  predicate IsReturn(a: Action) {
    a == ReturnOnFlush || a == ReturnOnLogsDone || a == ReturnOnDeadline
  }

  /** The consumer has read the last event that it awaits. */
  predicate ReadsLast(a: Action) {
    a == ReadLog(LastEvent) || a == ReadLog(RecordToSend(true))
  }

  predicate AnyReturn(actions: seq<Action>) {
    exists a :: a in actions && IsReturn(a)
  }

  predicate AnyReadsLast(actions: seq<Action>) {
    exists a :: a in actions && ReadsLast(a)
  }

  const FRESH := System(Waiting, Selecting(false), Reading, 0, 0, 0, false)

  /**
    The invocation is over exactly if it was ended; the signal is there exactly if it was
    given; the forwarder has stopped exactly if a post failed or it was cancelled; and
    before the end the log consumer is done, or about to be, exactly if it has read its
    last event.
   */
  ghost predicate Tells(sys: System, actions: seq<Action>) {
    && (sys.main == Returned <==> AnyReturn(actions))
    && (sys.flushed <==> FlushRequested in actions)
    && (sys.forwarder == Stopped <==> FinishForward(false) in actions || StopForwarding in actions)
    && (StopForwarding in actions ==> sys.main == Returned)
    && (sys.main == Waiting ==> (sys.logger == Closed || sys.logger == Sending(true) <==> AnyReadsLast(actions)))
    && (ReturnOnLogsDone in actions ==> AnyReadsLast(actions))
    && (ReturnOnFlush in actions ==> FlushRequested in actions)
  }

  /** The forwarder takes lambda data once it has forwarded agent data, and not before. */
  ghost predicate GateTells(sys: System, actions: seq<Action>) {
    && (sys.forwarder.Selecting? ==> (sys.forwarder.lambdaOpen <==> TakeAgentData(false) in actions))
    && (sys.forwarder.Posting? ==>
          TakeAgentData(false) in actions && (sys.forwarder.fromAgent || sys.forwarder.lambdaOpen))
    && (TakeLambdaData in actions ==> TakeAgentData(false) in actions)
  }

  lemma GateTellsNext(cap: Capacity, sys: System, actions: seq<Action>, a: Action)
    requires GateTells(sys, actions) && Enabled(cap, sys, a)
    ensures GateTells(Next(cap, sys, a), actions + [a])
  {
    assert forall x :: x in actions + [a] <==> x in actions || x == a;
  }

  lemma AnySnoc(actions: seq<Action>, a: Action)
    ensures AnyReturn(actions + [a]) <==> AnyReturn(actions) || IsReturn(a)
    ensures AnyReadsLast(actions + [a]) <==> AnyReadsLast(actions) || ReadsLast(a)
    ensures forall x :: x in actions + [a] <==> x in actions || x == a
  {
    assert forall x :: x in actions + [a] <==> x in actions || x == a;
  }

  lemma TellsNext(cap: Capacity, sys: System, actions: seq<Action>, a: Action)
    requires Tells(sys, actions) && Enabled(cap, sys, a)
    ensures Tells(Next(cap, sys, a), actions + [a])
  {
    AnySnoc(actions, a);
  }

  lemma {:induction false} StateTells(cap: Capacity, actions: seq<Action>)
    requires Exec(cap, FRESH, actions).Some?
    ensures Tells(Exec(cap, FRESH, actions).value, actions) && GateTells(Exec(cap, FRESH, actions).value, actions)
  {
    if actions != [] {
      var init, a := actions[..|actions| - 1], actions[|actions| - 1];
      StateTells(cap, init);
      TellsNext(cap, Exec(cap, FRESH, init).value, init, a);
      GateTellsNext(cap, Exec(cap, FRESH, init).value, init, a);
      assert actions == init + [a];
    }
  }

  /**
    So an invocation can end before its deadline exactly if the agent has signalled that it
    has flushed, or the log consumer has read its last event and got rid of the record.
   */
  lemma EndsEarlyExactlyWhen(cap: Capacity, actions: seq<Action>)
    requires Exec(cap, FRESH, actions).Some? && !AnyReturn(actions)
    ensures
      var sys := Exec(cap, FRESH, actions).value;
      (exists a :: a != ReturnOnDeadline && Enabled(cap, sys, a) && Next(cap, sys, a).main == Returned) <==>
        FlushRequested in actions || (AnyReadsLast(actions) && !sys.logger.Sending?)
  {
    StateTells(cap, actions);
    var sys := Exec(cap, FRESH, actions).value;
    if sys.flushed {
      assert Enabled(cap, sys, ReturnOnFlush) && Next(cap, sys, ReturnOnFlush).main == Returned;
    } else if sys.logger == Closed {
      assert Enabled(cap, sys, ReturnOnLogsDone) && Next(cap, sys, ReturnOnLogsDone).main == Returned;
    }
  }

  // ---------------------------------------------------------------- when it is stuck until the deadline

  /** The queue for lambda data is full, and nobody will read it before agent data comes. */
  predicate Jammed(cap: Capacity, sys: System) {
    && sys.main == Waiting && !sys.flushed
    && sys.forwarder == Selecting(false) && sys.agentQueue == 0
    && sys.logger.Sending? && sys.lambdaQueue >= cap.lambda
  }

  /** Then the deadline is all that keeps the extension going. */
  lemma OnlyTheDeadlineHelps(cap: Capacity, sys: System, a: Action)
    requires Jammed(cap, sys) && !ByEnvironment(a)
    ensures Enabled(cap, sys, a) <==> a == ReturnOnDeadline
  {
  }

  /** A log event comes in and its record is put into the queue of lambda data, `n` times. */
  function Fill(n: nat): seq<Action> {
    if n == 0 then [] else Fill(n - 1) + [LogArrives] + [ReadLog(RecordToSend(false))] + [SendRecord]
  }

  lemma {:induction false} QueueFills(cap: Capacity, sys: System, n: nat)
    requires sys.logger == Reading && sys.lambdaQueue == 0 && n <= cap.lambda
    ensures Exec(cap, sys, Fill(n)) == Some(sys.(lambdaQueue := n))
  {
    if n > 0 {
      QueueFills(cap, sys, n - 1);
      var before := Fill(n - 1);
      ExecSnoc(cap, sys, before, LogArrives);
      ExecSnoc(cap, sys, before + [LogArrives], ReadLog(RecordToSend(false)));
      ExecSnoc(cap, sys, before + [LogArrives] + [ReadLog(RecordToSend(false))], SendRecord);
    }
  }

  /** And it does come to that, from empty queues, when an invocation logs enough and no agent data comes. */
  lemma JammedIsReachable(cap: Capacity, sys: System)
    requires sys == FRESH
    ensures exists actions :: Exec(cap, sys, actions).Some? && Jammed(cap, Exec(cap, sys, actions).value)
  {
    QueueFills(cap, sys, cap.lambda);
    var full := Fill(cap.lambda);
    ExecSnoc(cap, sys, full, LogArrives);
    ExecSnoc(cap, sys, full + [LogArrives], ReadLog(RecordToSend(false)));
    var actions := full + [LogArrives] + [ReadLog(RecordToSend(false))];
    assert Jammed(cap, Exec(cap, sys, actions).value);
  }

  /** Agent data arrives, and is taken and forwarded, `n` times. */
  function Busy(n: nat): seq<Action> {
    if n == 0 then [] else Busy(n - 1) + [AgentDataArrives] + [TakeAgentData(false)] + [FinishForward(true)]
  }

  lemma OwnStepsSnoc(actions: seq<Action>, a: Action)
    ensures OwnSteps(actions + [a]) == OwnSteps(actions) + if ByEnvironment(a) then 0 else 1
  {
    assert (actions + [a])[..|actions|] == actions;
  }

  /**
    The bound on arrivals cannot be dropped: a cancelled forwarder whose select keeps
    picking newly arrived data instead of the cancellation runs on for any number of steps.
   */
  lemma {:induction false} ArrivalsPostponeTheEnd(cap: Capacity, sys: System, n: nat)
    requires cap.agent > 0 && sys.main == Returned && sys.forwarder == Selecting(true) && sys.agentQueue == 0
    ensures Exec(cap, sys, Busy(n)) == Some(sys) && OwnSteps(Busy(n)) == 2 * n && WaitGroup(sys) == 1
  {
    if n > 0 {
      ArrivalsPostponeTheEnd(cap, sys, n - 1);
      var before := Busy(n - 1);
      var arrived := before + [AgentDataArrives];
      var taken := arrived + [TakeAgentData(false)];
      ExecSnoc(cap, sys, before, AgentDataArrives);
      ExecSnoc(cap, sys, arrived, TakeAgentData(false));
      ExecSnoc(cap, sys, taken, FinishForward(true));
      OwnStepsSnoc(before, AgentDataArrives);
      OwnStepsSnoc(arrived, TakeAgentData(false));
      OwnStepsSnoc(taken, FinishForward(true));
    }
  }
}
