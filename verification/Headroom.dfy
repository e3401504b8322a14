/**
  Between two forwards there is always room in the batch for a number of proxies: the
  distance from the shipping threshold to the maximum size.
 */
module Headroom {
  import opened ByteStrings
  import opened Invocations
  import opened BatchSpec
  import opened Forwarding

  /** A forward adds data and ships what is due; every other operation only touches the batch. */
  datatype Event = ForwardAgent(data: APMData, now: int) | ForwardLambda(d: Bytes, now: int) | Other(op: Op)

  predicate Sensible(e: Event) {
    e.Other? ==> !e.op.AgentData? && !e.op.LambdaData? && e.op != ResetBatch
  }

  /** The outcome of the data operation in a forward, or of the other operation. */
  ghost function Inner(cfg: Config, s: State, e: Event): Outcome {
    match e
    case ForwardAgent(data, now) => AddAgentData(cfg, s, data, now)
    case ForwardLambda(d, now) => AddLambdaData(cfg, s, d, now)
    case Other(op) => Step(cfg, s, op)
  }

  ghost function After(cfg: Config, maxAge: int, s: State, e: Event): State {
    var s' := Inner(cfg, s, e).state;
    if e.Other? then s' else Ship(cfg.maxSize, maxAge, s', e.now)
  }

  /** `backlog` counts the entries that other operations have added since the last forward. */
  datatype Position = Position(state: State, backlog: nat)

  ghost function Advance(cfg: Config, maxAge: int, p: Position, e: Event): Position {
    Position(After(cfg, maxAge, p.state, e),
             if e.Other? then p.backlog + |Inner(cfg, p.state, e).added| else 0)
  }

  ghost function Play(cfg: Config, maxAge: int, events: seq<Event>): Position {
    if events == [] then Position(NEW_BATCH, 0)
    else Advance(cfg, maxAge, Play(cfg, maxAge, events[..|events| - 1]), events[|events| - 1])
  }

  function Room(maxSize: int): int {
    var t := Threshold(maxSize);
    maxSize - if t >= 1 then t else 1
  }

  /** A run of sensible events with at most `extra` entries added between consecutive forwards. */
  ghost predicate Allowed(cfg: Config, maxAge: int, events: seq<Event>, extra: nat) {
    && (forall e | e in events :: Sensible(e))
    && (forall i | 0 <= i <= |events| :: Play(cfg, maxAge, events[..i]).backlog <= extra)
  }

  lemma AfterKeeps(cfg: Config, maxAge: int, s: State, e: Event)
    requires WellFormed(cfg.lib, s) && Sensible(e)
    ensures
      var s' := After(cfg, maxAge, s, e);
      && WellFormed(cfg.lib, s')
      && (if e.Other? then s'.entries == s.entries + Inner(cfg, s, e).added else HasRoom(cfg.maxSize, s'))
  {
    match e
    case ForwardAgent(data, now) => StepKeeps(cfg, s, AgentData(data, now));
    case ForwardLambda(d, now) => StepKeeps(cfg, s, LambdaData(d, now));
    case Other(op) => StepKeeps(cfg, s, op);
  }

  lemma {:induction false} FillLevel(cfg: Config, maxAge: int, events: seq<Event>)
    requires cfg.maxSize >= 1 && forall e | e in events :: Sensible(e)
    ensures var p := Play(cfg, maxAge, events);
      WellFormed(cfg.lib, p.state) && |p.state.entries| < cfg.maxSize - Room(cfg.maxSize) + p.backlog
  {
    if events != [] {
      FillLevel(cfg, maxAge, events[..|events| - 1]);
      AfterKeeps(cfg, maxAge, Play(cfg, maxAge, events[..|events| - 1]).state, events[|events| - 1]);
    }
  }

  /**
    No forward is refused for want of room, as long as at most `Room` entries are added
    between consecutive forwards. POST failures do not matter: shipping always resets.
   */
  lemma NoForwardRefused(cfg: Config, maxAge: int, events: seq<Event>, extra: nat, i: nat)
    requires cfg.maxSize >= 1 && Allowed(cfg, maxAge, events, extra) && extra <= Room(cfg.maxSize)
    requires i < |events| && !events[i].Other?
    ensures Inner(cfg, Play(cfg, maxAge, events[..i]).state, events[i]).err != Some(BatchFull)
  {
    FillLevel(cfg, maxAge, events[..i]);
  }

  /** Some forward of the run is refused for want of room. */
  ghost predicate Refuses(cfg: Config, maxAge: int, events: seq<Event>) {
    exists i :: 0 <= i < |events| && !events[i].Other?
      && Inner(cfg, Play(cfg, maxAge, events[..i]).state, events[i]).err == Some(BatchFull)
  }

  // ---------------------------------------------------------------- a run that needs more room

  /** A registration body that brings metadata along. */
  ghost predicate BringsMetadata(lib: Library, raw: Bytes) {
    var parsed := ParseRegistration(lib, "", raw);
    parsed.Accepted? && parsed.registration.metadata != []
  }

  const ID := "request"

  lemma AllowedNext(cfg: Config, maxAge: int, events: seq<Event>, e: Event, extra: nat)
    requires Allowed(cfg, maxAge, events, extra) && Sensible(e)
    requires Advance(cfg, maxAge, Play(cfg, maxAge, events), e).backlog <= extra
    ensures Allowed(cfg, maxAge, events + [e], extra)
    ensures Play(cfg, maxAge, events + [e]) == Advance(cfg, maxAge, Play(cfg, maxAge, events), e)
  {
    var more := events + [e];
    assert more[..|events|] == events;
    forall i | 0 <= i <= |more| ensures Play(cfg, maxAge, more[..i]).backlog <= extra {
      if i <= |events| {
        assert more[..i] == events[..i];
      } else {
        assert more[..i] == more;
      }
    }
  }

  /** Nothing is live, metadata is known, and the batch holds `count` entries of age 0. */
  ghost predicate AtRest(p: Position, count: nat, backlog: nat) {
    && p.state.metadata != [] && p.state.invocations == map[] && |p.state.entries| == count
    && (p.state.age == if count == 0 then None else Some(0)) && p.backlog == backlog
  }

  lemma FirstAdvances(cfg: Config, maxAge: int, raw: Bytes)
    requires BringsMetadata(cfg.lib, raw)
    ensures
      var a := Advance(cfg, maxAge, Position(NEW_BATCH, 0), Other(AgentInit(ID, "", raw)));
      a.backlog == 0 && AtRest(Advance(cfg, maxAge, a, Other(PlatformReport(ID))), 0, 0)
  {
    var a := Advance(cfg, maxAge, Position(NEW_BATCH, 0), Other(AgentInit(ID, "", raw)));
    assert a.state.invocations.Keys == {ID};
    assert a.state.invocations - {ID} == map[];
  }

  lemma LogAdvances(cfg: Config, maxAge: int, p: Position, n: nat)
    requires maxAge >= 0 && AtRest(p, n, 0) && n + 1 < cfg.maxSize && n + 1 < Threshold(cfg.maxSize)
    ensures AtRest(Advance(cfg, maxAge, p, ForwardLambda([0], 0)), n + 1, 0)
  {
    var o := AddLambdaData(cfg, p.state, [0], 0);
    assert |o.state.entries| == n + 1 && o.state.age == Some(0);
    assert !ShouldShip(cfg.maxSize, maxAge, o.state, 0);
  }

  /** The proxy of an invocation from rest to rest. */
  lemma DoneAdds(cfg: Config, s: State)
    requires JsonLaws(cfg.lib) && s.metadata != [] && s.invocations.Keys == {ID}
    requires
      var inc := s.invocations[ID];
      inc.NeedProxyTransaction() && cfg.lib.txnIDText(inc.agentPayload) == inc.transactionID
    ensures
      var o := Finalize(cfg.lib, s, ID, "success", 0, 0);
      && |o.added| == 1 && o.state.entries == s.entries + o.added && o.state.metadata == s.metadata
      && o.state.invocations.Keys == {ID} && o.state.age == if s.entries == [] then Some(0) else s.age
  {
    ProxyKeepsTransaction(cfg.lib, s.invocations[ID], "success", 0);
  }

  /** The one live invocation has announced a transaction. */
  ghost predicate Announced(lib: Library, p: Position, count: nat, backlog: nat) {
    && p.state.metadata != [] && p.state.invocations.Keys == {ID} && |p.state.entries| == count
    && (p.state.age == if count == 0 then None else Some(0)) && p.backlog == backlog
    && var inc := p.state.invocations[ID];
       inc.NeedProxyTransaction() && lib.txnIDText(inc.agentPayload) == inc.transactionID
  }

  lemma AnnounceAdvances(cfg: Config, maxAge: int, p: Position, raw: Bytes, count: nat, backlog: nat)
    requires BringsMetadata(cfg.lib, raw) && AtRest(p, count, backlog)
    ensures
      var a := Advance(cfg, maxAge, p, Other(Register(ID, "", 0, 0)));
      a.backlog == backlog && Announced(cfg.lib, Advance(cfg, maxAge, a, Other(AgentInit(ID, "", raw))), count, backlog)
  {
    var a := Advance(cfg, maxAge, p, Other(Register(ID, "", 0, 0)));
    assert a.state.invocations.Keys == {ID};
    assert Advance(cfg, maxAge, a, Other(AgentInit(ID, "", raw))).state.invocations.Keys == {ID};
  }

  lemma DoneAdvances(cfg: Config, maxAge: int, p: Position, count: nat, backlog: nat)
    requires JsonLaws(cfg.lib) && Announced(cfg.lib, p, count, backlog)
    ensures
      var c := Advance(cfg, maxAge, p, Other(RuntimeDone(ID, "success", 0, 0)));
      c.backlog == backlog + 1 && AtRest(Advance(cfg, maxAge, c, Other(PlatformReport(ID))), count + 1, backlog + 1)
  {
    DoneAdds(cfg, p.state);
    var c := Advance(cfg, maxAge, p, Other(RuntimeDone(ID, "success", 0, 0)));
    assert c.state.invocations - {ID} == map[];
  }

  /** A run allowed with `extra`, at whose end the batch is at rest. */
  ghost predicate RestsAt(cfg: Config, maxAge: int, events: seq<Event>, count: nat, backlog: nat, extra: nat) {
    Allowed(cfg, maxAge, events, extra) && AtRest(Play(cfg, maxAge, events), count, backlog)
  }

  lemma FirstRests(cfg: Config, maxAge: int, raw: Bytes, extra: nat) returns (events: seq<Event>)
    requires BringsMetadata(cfg.lib, raw)
    ensures RestsAt(cfg, maxAge, events, 0, 0, extra)
  {
    var init := [] + [Other(AgentInit(ID, "", raw))];
    FirstAdvances(cfg, maxAge, raw);
    AllowedNext(cfg, maxAge, [], Other(AgentInit(ID, "", raw)), extra);
    AllowedNext(cfg, maxAge, init, Other(PlatformReport(ID)), extra);
    events := init + [Other(PlatformReport(ID))];
  }

  /** Log records below the threshold stay in the batch. */
  lemma {:induction false} LogsRest(cfg: Config, maxAge: int, before: seq<Event>, n: nat, extra: nat)
    returns (events: seq<Event>)
    requires maxAge >= 0 && RestsAt(cfg, maxAge, before, 0, 0, extra) && n < cfg.maxSize
    requires n == 0 || n < Threshold(cfg.maxSize)
    ensures RestsAt(cfg, maxAge, events, n, 0, extra)
  {
    if n == 0 {
      events := before;
    } else {
      var init := LogsRest(cfg, maxAge, before, n - 1, extra);
      LogAdvances(cfg, maxAge, Play(cfg, maxAge, init), n - 1);
      AllowedNext(cfg, maxAge, init, ForwardLambda([0], 0), extra);
      events := init + [ForwardLambda([0], 0)];
    }
  }

  /** One invocation from start to end, whose agent announces a transaction and does not report it. */
  lemma InvokeRests(cfg: Config, maxAge: int, before: seq<Event>, raw: Bytes, count: nat, backlog: nat, extra: nat)
    returns (events: seq<Event>)
    requires JsonLaws(cfg.lib) && BringsMetadata(cfg.lib, raw)
    requires RestsAt(cfg, maxAge, before, count, backlog, extra) && backlog < extra
    ensures RestsAt(cfg, maxAge, events, count + 1, backlog + 1, extra)
  {
    var a := before + [Other(Register(ID, "", 0, 0))];
    var b := a + [Other(AgentInit(ID, "", raw))];
    var c := b + [Other(RuntimeDone(ID, "success", 0, 0))];
    AnnounceAdvances(cfg, maxAge, Play(cfg, maxAge, before), raw, count, backlog);
    AllowedNext(cfg, maxAge, before, Other(Register(ID, "", 0, 0)), extra);
    AllowedNext(cfg, maxAge, a, Other(AgentInit(ID, "", raw)), extra);
    DoneAdvances(cfg, maxAge, Play(cfg, maxAge, b), count, backlog);
    AllowedNext(cfg, maxAge, b, Other(RuntimeDone(ID, "success", 0, 0)), extra);
    AllowedNext(cfg, maxAge, c, Other(PlatformReport(ID)), extra);
    events := c + [Other(PlatformReport(ID))];
  }

  lemma {:induction false} InvocationsRest(
    cfg: Config, maxAge: int, before: seq<Event>, raw: Bytes, count: nat, n: nat, extra: nat)
    returns (events: seq<Event>)
    requires JsonLaws(cfg.lib) && BringsMetadata(cfg.lib, raw)
    requires RestsAt(cfg, maxAge, before, count, 0, extra) && n <= extra
    ensures RestsAt(cfg, maxAge, events, count + n, n, extra)
  {
    if n == 0 {
      events := before;
    } else {
      events := InvocationsRest(cfg, maxAge, before, raw, count, n - 1, extra);
      events := InvokeRests(cfg, maxAge, events, raw, count + n - 1, n - 1, extra);
    }
  }

  lemma FullRefuses(cfg: Config, maxAge: int, full: seq<Event>, count: nat, backlog: nat, extra: nat)
    requires RestsAt(cfg, maxAge, full, count, backlog, extra) && count >= cfg.maxSize
    ensures Allowed(cfg, maxAge, full + [ForwardLambda([0], 0)], extra)
    ensures Refuses(cfg, maxAge, full + [ForwardLambda([0], 0)])
  {
    var events := full + [ForwardLambda([0], 0)];
    AllowedNext(cfg, maxAge, full, ForwardLambda([0], 0), extra);
    assert events[..|full|] == full && !events[|full|].Other?;
  }

  /** Records up to the threshold, then one proxy more than there is room for, then another record. */
  lemma OverfillRefuses(cfg: Config, maxAge: int, raw: Bytes, extra: nat) returns (events: seq<Event>)
    requires cfg.maxSize >= 1 && maxAge >= 0 && JsonLaws(cfg.lib) && BringsMetadata(cfg.lib, raw)
    requires extra > Room(cfg.maxSize)
    ensures Allowed(cfg, maxAge, events, extra) && Refuses(cfg, maxAge, events)
  {
    var room := Room(cfg.maxSize);
    var level := cfg.maxSize - room - 1;
    var full := FirstRests(cfg, maxAge, raw, extra);
    full := LogsRest(cfg, maxAge, full, level, extra);
    full := InvocationsRest(cfg, maxAge, full, raw, level, room + 1, extra);
    FullRefuses(cfg, maxAge, full, level + room + 1, room + 1, extra);
    events := full + [ForwardLambda([0], 0)];
  }

  /**
    The bound is exact, whatever agents and the platform send: for a batch that keeps
    entries for a while, no run with at most `extra` entries between consecutive forwards
    has a forward refused if and only if `extra` is at most `Room`. Beyond that, proxies
    of invocations whose agents do not report fill the batch.
   */
  lemma RoomIsExact(cfg: Config, maxAge: int, raw: Bytes, extra: nat)
    requires cfg.maxSize >= 1 && maxAge >= 0 && JsonLaws(cfg.lib) && BringsMetadata(cfg.lib, raw)
    ensures (forall events: seq<Event> | Allowed(cfg, maxAge, events, extra) :: !Refuses(cfg, maxAge, events))
      <==> extra <= Room(cfg.maxSize)
  {
    if extra <= Room(cfg.maxSize) {
      forall events: seq<Event> | Allowed(cfg, maxAge, events, extra) ensures !Refuses(cfg, maxAge, events) {
        forall i | 0 <= i < |events| && !events[i].Other?
          ensures Inner(cfg, Play(cfg, maxAge, events[..i]).state, events[i]).err != Some(BatchFull)
        {
          NoForwardRefused(cfg, maxAge, events, extra, i);
        }
      }
    } else {
      var events := OverfillRefuses(cfg, maxAge, raw, extra);
    }
  }
}
