/**
  Two consumers of the log stream at a time. processEvent does not wait for its ProcessLogs
  goroutine (app/run.go), so that this can still be handling an event while FlushData
  takes the next ones. To take an event off the channel and to handle it are two steps.
 */
module LogOverlap {
  import opened ByteStrings

  datatype Event = Start(id: string) | Log | Other

  /** `first` and `second` are the positions of the events that the consumers have in hand. */
  datatype System = System(
    taken: nat, first: Option<nat>, second: Option<nat>, current: string, attributed: seq<Attribution>)

  datatype Attribution = Attribution(position: nat, id: string)

  datatype Consumer = First | Second

  datatype Action = Take(c: Consumer) | Handle(c: Consumer)

  function Held(sys: System, c: Consumer): Option<nat> {
    if c == First then sys.first else sys.second
  }

  function SetHeld(sys: System, c: Consumer, held: Option<nat>): System {
    if c == First then sys.(first := held) else sys.(second := held)
  }

  function Begin(current: string): System {
    System(0, None, None, current, [])
  }

  /** A step that is not enabled changes nothing. */
  function Next(events: seq<Event>, sys: System, a: Action): System {
    match a
    case Take(c) =>
      if Held(sys, c).None? && sys.taken < |events| then SetHeld(sys, c, Some(sys.taken)).(taken := sys.taken + 1)
      else sys
    case Handle(c) =>
      if Held(sys, c).Some? && Held(sys, c).value < |events| then
        Handled(events, SetHeld(sys, c, None), Held(sys, c).value)
      else sys
  }

  function Handled(events: seq<Event>, sys: System, i: nat): System
    requires i < |events|
  {
    match events[i]
    case Start(id) => sys.(current := id)
    case Log => sys.(attributed := sys.attributed + [Attribution(i, sys.current)])
    case Other => sys
  }

  function Exec(events: seq<Event>, current: string, actions: seq<Action>): System {
    if actions == [] then Begin(current)
    else Next(events, Exec(events, current, actions[..|actions| - 1]), actions[|actions| - 1])
  }

  /** The id of the last start among these events; `before` if there is none. */
  function Latest(events: seq<Event>, before: string): string {
    if events == [] then before
    else if events[|events| - 1].Start? then events[|events| - 1].id
    else Latest(events[..|events| - 1], before)
  }

  function Starts(events: seq<Event>): nat {
    if events == [] then 0
    else Starts(events[..|events| - 1]) + if events[|events| - 1].Start? then 1 else 0
  }

  /** Each log that has been handled was attributed to the latest start before it. */
  ghost predicate Right(events: seq<Event>, current: string, sys: System) {
    forall a | a in sys.attributed ::
      a.position < |events| && a.id == Latest(events[..a.position], current)
  }

  /**
    All starts are for the invocation that each log belongs to; and if that was not current
    in the beginning, there is not just one start before the log.
   */
  ghost predicate Harmless(events: seq<Event>, current: string) {
    forall p | 0 <= p < |events| && events[p] == Log ::
      var right := Latest(events[..p], current);
      && (forall q | 0 <= q < |events| && events[q].Start? :: events[q].id == right)
      && (current == right || Starts(events[..p]) != 1)
  }

  // ---------------------------------------------------------------- when it is harmless

  /** The starts taken are in hand, or the current id is theirs; and nobody holds what has not been taken. */
  ghost predicate Kept(events: seq<Event>, current: string, sys: System) {
    && sys.taken <= |events|
    && (sys.first.Some? ==> sys.first.value < sys.taken) && (sys.second.Some? ==> sys.second.value < sys.taken)
    && (sys.first.Some? ==> sys.first != sys.second)
    && (|| sys.current == current
        || exists q :: 0 <= q < sys.taken && events[q].Start? && events[q].id == sys.current)
    && (forall q | 0 <= q < sys.taken && events[q].Start? && Some(q) != sys.first && Some(q) != sys.second ::
          SomeStart(events, sys.current))
  }

  ghost predicate SomeStart(events: seq<Event>, id: string) {
    exists q :: 0 <= q < |events| && events[q].Start? && events[q].id == id
  }

  lemma {:induction false} TwoStarts(events: seq<Event>, avoid: int)
    requires Starts(events) >= 2
    ensures exists q :: 0 <= q < |events| && events[q].Start? && q != avoid
  {
    var last := |events| - 1;
    if events[last].Start? && last != avoid {
    } else if Starts(events[..last]) >= 2 {
      TwoStarts(events[..last], avoid);
    } else {
      OneStart(events[..last]);
    }
  }

  lemma {:induction false} OneStart(events: seq<Event>)
    requires Starts(events) >= 1
    ensures exists q :: 0 <= q < |events| && events[q].Start?
  {
    var last := |events| - 1;
    if !events[last].Start? {
      OneStart(events[..last]);
    }
  }

  lemma {:induction false} LatestIs(events: seq<Event>, before: string)
    ensures Starts(events) == 0 ==> Latest(events, before) == before
  {
    if events != [] {
      LatestIs(events[..|events| - 1], before);
    }
  }

  /** When a log is handled, the current id is the right one. */
  lemma HandledRight(events: seq<Event>, current: string, sys: System, c: Consumer, p: nat)
    requires Harmless(events, current) && Kept(events, current, sys)
    requires Held(sys, c) == Some(p) && p < |events| && events[p] == Log
    ensures sys.current == Latest(events[..p], current)
  {
    if Starts(events[..p]) >= 2 {
      var other := if c == First then sys.second else sys.first;
      var avoid := if other.Some? then other.value else -1;
      TwoStarts(events[..p], avoid);
      var q :| 0 <= q < p && events[..p][q].Start? && q != avoid;
      assert events[q].Start? && SomeStart(events, sys.current);
    } else {
      LatestIs(events[..p], current);
    }
  }

  lemma TakeKept(events: seq<Event>, current: string, sys: System, c: Consumer)
    requires Kept(events, current, sys)
    ensures Kept(events, current, Next(events, sys, Take(c)))
  {
  }

  lemma HandleKept(events: seq<Event>, current: string, sys: System, c: Consumer)
    requires Kept(events, current, sys)
    ensures Kept(events, current, Next(events, sys, Handle(c)))
  {
    if Held(sys, c).Some? {
      var i := Held(sys, c).value;
      if events[i].Start? {
        assert SomeStart(events, events[i].id);
      }
    }
  }

  lemma {:induction false} HarmlessIsRight(events: seq<Event>, current: string, actions: seq<Action>)
    requires Harmless(events, current)
    ensures var sys := Exec(events, current, actions); Kept(events, current, sys) && Right(events, current, sys)
  {
    if actions != [] {
      var init, a := actions[..|actions| - 1], actions[|actions| - 1];
      HarmlessIsRight(events, current, init);
      var sys := Exec(events, current, init);
      match a
      case Take(c) => TakeKept(events, current, sys, c);
      case Handle(c) =>
        HandleKept(events, current, sys, c);
        if Held(sys, c).Some? && events[Held(sys, c).value] == Log {
          HandledRight(events, current, sys, c, Held(sys, c).value);
        }
    }
  }

  // ---------------------------------------------------------------- when it is not

  lemma ExecSnoc(events: seq<Event>, current: string, actions: seq<Action>, a: Action)
    ensures Exec(events, current, actions + [a]) == Next(events, Exec(events, current, actions), a)
  {
    assert (actions + [a])[..|actions|] == actions;
  }

  lemma LatestSnoc(events: seq<Event>, before: string, from: nat, to: nat)
    requires from <= to < |events|
    ensures Latest(events[from..to + 1], before)
         == if events[to].Start? then events[to].id else Latest(events[from..to], before)
  {
    assert events[from..to + 1][..to - from] == events[from..to];
  }

  lemma SecondHandles(events: seq<Event>, sys: System)
    requires sys.taken < |events| && sys.second.None?
    ensures
      var sys' := Next(events, Next(events, sys, Take(Second)), Handle(Second));
      && sys'.taken == sys.taken + 1 && sys'.first == sys.first && sys'.second == None
      && sys'.current == if events[sys.taken].Start? then events[sys.taken].id else sys.current
  {
  }

  lemma ExecTwo(events: seq<Event>, current: string, actions: seq<Action>, a: Action, b: Action)
    ensures Exec(events, current, actions + [a] + [b])
         == Next(events, Next(events, Exec(events, current, actions), a), b)
  {
    ExecSnoc(events, current, actions, a);
    ExecSnoc(events, current, actions + [a], b);
  }

  /** The second consumer handles the events up to `to`, one after the other; the first keeps what it holds. */
  lemma {:induction false} Sweep(events: seq<Event>, current: string, before: seq<Action>, from: nat, to: nat)
    returns (actions: seq<Action>)
    requires from <= to <= |events|
    requires Exec(events, current, before).taken == from && Exec(events, current, before).second.None?
    ensures
      var sys, sys' := Exec(events, current, before), Exec(events, current, actions);
      && sys'.taken == to && sys'.first == sys.first && sys'.second == None
      && sys'.current == Latest(events[from..to], sys.current)
  {
    if from == to {
      actions := before;
    } else {
      var init := Sweep(events, current, before, from, to - 1);
      LatestSnoc(events, Exec(events, current, before).current, from, to - 1);
      SecondHandles(events, Exec(events, current, init));
      ExecTwo(events, current, init, Take(Second), Handle(Second));
      actions := init + [Take(Second)] + [Handle(Second)];
    }
  }

  /** Up to `at`, whose event the first consumer then has in hand. */
  lemma HoldAt(events: seq<Event>, current: string, at: nat) returns (actions: seq<Action>)
    requires at < |events|
    ensures
      var sys := Exec(events, current, actions);
      && sys.taken == at + 1 && sys.first == Some(at) && sys.second == None
      && sys.current == Latest(events[..at], current)
  {
    var init := Sweep(events, current, [], 0, at);
    assert events[0..at] == events[..at];
    ExecSnoc(events, current, init, Take(First));
    actions := init + [Take(First)];
  }

  /** A log in hand while a later start is handled. */
  lemma LateLog(events: seq<Event>, current: string, p: nat, q: nat) returns (actions: seq<Action>)
    requires p < q < |events| && events[p] == Log && events[q].Start?
    ensures Attribution(p, events[q].id) in Exec(events, current, actions).attributed
  {
    var held := HoldAt(events, current, p);
    var swept := Sweep(events, current, held, p + 1, q + 1);
    LatestSnoc(events, Exec(events, current, held).current, p + 1, q);
    ExecSnoc(events, current, swept, Handle(First));
    actions := swept + [Handle(First)];
    LastAttributed(Exec(events, current, swept), p);
  }

  lemma LastAttributed(sys: System, p: nat)
    ensures Attribution(p, sys.current) in sys.attributed + [Attribution(p, sys.current)]
  {
  }

  /** A start in hand while later events are taken, and handled just before a log. */
  lemma LateStart(events: seq<Event>, current: string, q: nat, p: nat) returns (actions: seq<Action>)
    requires q < p < |events| && events[p] == Log && events[q].Start?
    ensures Attribution(p, events[q].id) in Exec(events, current, actions).attributed
  {
    var held := HoldAt(events, current, q);
    var swept := Sweep(events, current, held, q + 1, p);
    ExecSnoc(events, current, swept, Handle(First));
    ExecSnoc(events, current, swept + [Handle(First)], Take(Second));
    ExecSnoc(events, current, swept + [Handle(First)] + [Take(Second)], Handle(Second));
    actions := swept + [Handle(First)] + [Take(Second)] + [Handle(Second)];
    LastAttributed(Exec(events, current, swept + [Handle(First)]), p);
  }

  /** A start in hand when a log is handled. */
  lemma MissedStart(events: seq<Event>, current: string, q: nat, p: nat) returns (actions: seq<Action>)
    requires q < p < |events| && events[p] == Log
    ensures Attribution(p, Latest(events[q + 1..p], Latest(events[..q], current)))
         in Exec(events, current, actions).attributed
  {
    var held := HoldAt(events, current, q);
    var swept := Sweep(events, current, held, q + 1, p);
    ExecSnoc(events, current, swept, Take(Second));
    ExecSnoc(events, current, swept + [Take(Second)], Handle(Second));
    actions := swept + [Take(Second)] + [Handle(Second)];
    LastAttributed(Exec(events, current, swept), p);
  }

  lemma {:induction false} StartsConcat(a: seq<Event>, b: seq<Event>)
    ensures Starts(a + b) == Starts(a) + Starts(b)
  {
    if b == [] {
      AppendNothing(a);
    } else {
      StartsConcat(a, b[..|b| - 1]);
      assert (a + b)[..|a + b| - 1] == a + b[..|b| - 1];
    }
  }

  /** Without the only start before a log, the id is the one from the beginning. */
  lemma OnlyStart(events: seq<Event>, current: string, p: nat) returns (q: nat)
    requires p < |events| && Starts(events[..p]) == 1
    ensures q < p && events[q].Start?
    ensures Latest(events[q + 1..p], Latest(events[..q], current)) == current
  {
    OneStart(events[..p]);
    q :| 0 <= q < p && events[..p][q].Start?;
    assert events[..p] == events[..q] + [events[q]] + events[q + 1..p];
    StartsConcat(events[..q] + [events[q]], events[q + 1..p]);
    StartsConcat(events[..q], [events[q]]);
    assert [events[q]][..0] == [];
    LatestIs(events[..q], current);
    LatestIs(events[q + 1..p], current);
  }

  lemma NotHarmlessGoesWrong(events: seq<Event>, current: string) returns (actions: seq<Action>)
    requires !Harmless(events, current)
    ensures !Right(events, current, Exec(events, current, actions))
  {
    var p :| 0 <= p < |events| && events[p] == Log
      && !(var right := Latest(events[..p], current);
           && (forall q | 0 <= q < |events| && events[q].Start? :: events[q].id == right)
           && (current == right || Starts(events[..p]) != 1));
    var right := Latest(events[..p], current);
    if q :| 0 <= q < |events| && events[q].Start? && events[q].id != right {
      if q < p {
        actions := LateStart(events, current, q, p);
      } else {
        actions := LateLog(events, current, p, q);
      }
    } else {
      var q := OnlyStart(events, current, p);
      actions := MissedStart(events, current, q, p);
    }
  }

  /**
    With two consumers, function logs are attributed rightly in every interleaving if and
    only if the events are harmless: in effect, if all of them are of one invocation.
   */
  lemma AttributionSafeExactlyWhen(events: seq<Event>, current: string)
    ensures (forall actions :: Right(events, current, Exec(events, current, actions))) <==> Harmless(events, current)
  {
    if Harmless(events, current) {
      forall actions ensures Right(events, current, Exec(events, current, actions)) {
        HarmlessIsRight(events, current, actions);
      }
    } else {
      var actions := NotHarmlessGoesWrong(events, current);
    }
  }
}
