/**
  Shipping (sendBatch in apmproxy/apmserver.go): the poster checks the count, takes a
  snapshot of the buffer, posts it and resets the batch, each in a critical section of its
  own. In between, other goroutines may run any operation of the batch.
 */
module Shipping {
  import opened ByteStrings
  import opened BatchSpec

  /** Where the poster is; `late` is what has been accepted since it took its snapshot. */
  datatype Poster =
    | Idle
    | Counted
    | InFlight(payload: Bytes, shipped: seq<Entry>, late: seq<Entry>)

  /** One completed round: what was handed to PostToApmServer, and what the reset then dropped. */
  datatype Round = Round(payload: Bytes, shipped: seq<Entry>, late: seq<Entry>)

  datatype System = System(batch: State, poster: Poster, rounds: seq<Round>, accepted: seq<Entry>)

  datatype Action = Operate(op: Op) | CheckCount | Snapshot | Reset

  const START := System(NEW_BATCH, Idle, [], [])

  function Absorb(sys: System, o: Outcome): System {
    var poster := if sys.poster.InFlight? then sys.poster.(late := sys.poster.late + o.added) else sys.poster;
    sys.(batch := o.state, poster := poster, accepted := sys.accepted + o.added)
  }

  /** An action that is not enabled leaves the system as it is. */
  ghost function Next(cfg: Config, sys: System, a: Action): System {
    match a
    case Operate(op) =>
      if op == ResetBatch then sys else Absorb(sys, Step(cfg, sys.batch, op))
    case CheckCount =>
      if sys.poster.Idle? && |sys.batch.entries| != 0 then sys.(poster := Counted) else sys
    case Snapshot =>
      if sys.poster.Counted? then
        sys.(poster := InFlight(Encode(sys.batch.metadata, Data(sys.batch.entries)), sys.batch.entries, []))
      else sys
    case Reset =>
      if sys.poster.InFlight? then
        var p := sys.poster;
        sys.(batch := BatchSpec.Reset(sys.batch), poster := Idle,
             rounds := sys.rounds + [Round(p.payload, p.shipped, p.late)])
      else sys
  }

  ghost function Exec(cfg: Config, actions: seq<Action>): System {
    if actions == [] then START else Next(cfg, Exec(cfg, actions[..|actions| - 1]), actions[|actions| - 1])
  }

  function Segments(rounds: seq<Round>): seq<Entry> {
    if rounds == [] then
      []
    else
      var r := rounds[|rounds| - 1];
      Segments(rounds[..|rounds| - 1]) + r.shipped + r.late
  }

  function Shipped(rounds: seq<Round>): seq<Entry> {
    if rounds == [] then [] else Shipped(rounds[..|rounds| - 1]) + rounds[|rounds| - 1].shipped
  }

  /** The payload is the batch's metadata followed by at least one entry. */
  ghost predicate GoodPayload(metadata: Bytes, payload: Bytes, shipped: seq<Entry>) {
    metadata != [] && shipped != [] && payload == Encode(metadata, Data(shipped))
  }

  ghost predicate Conserved(cfg: Config, sys: System) {
    && WellFormed(cfg.lib, sys.batch)
    && sys.accepted == Segments(sys.rounds) + sys.batch.entries
    && (sys.poster.Counted? ==> sys.batch.entries != [])
    && (sys.poster.InFlight? ==>
          && sys.batch.entries == sys.poster.shipped + sys.poster.late
          && GoodPayload(sys.batch.metadata, sys.poster.payload, sys.poster.shipped))
    && (forall r | r in sys.rounds :: GoodPayload(sys.batch.metadata, r.payload, r.shipped))
    && (forall e | e in sys.accepted :: e.AgentLine? ==> NEWLINE !in e.data)
  }

  lemma AbsorbConserves(cfg: Config, sys: System, o: Outcome)
    requires Conserved(cfg, sys) && OnlyAppends(sys.batch, o) && WellFormed(cfg.lib, o.state)
    ensures Conserved(cfg, Absorb(sys, o))
  {
    Reassociate(Segments(sys.rounds), sys.batch.entries, o.added);
    if sys.poster.InFlight? {
      Reassociate(sys.poster.shipped, sys.poster.late, o.added);
    }
  }

  lemma ResetConserves(cfg: Config, sys: System)
    requires Conserved(cfg, sys) && sys.poster.InFlight?
    ensures Conserved(cfg, Next(cfg, sys, Reset))
  {
    var p := sys.poster;
    var rounds := sys.rounds + [Round(p.payload, p.shipped, p.late)];
    assert rounds[..|rounds| - 1] == sys.rounds;
    Reassociate(Segments(sys.rounds), p.shipped, p.late);
    AppendNothing(Segments(rounds));
  }

  lemma NextConserves(cfg: Config, sys: System, a: Action)
    requires Conserved(cfg, sys)
    ensures Conserved(cfg, Next(cfg, sys, a))
  {
    match a
    case Operate(op) =>
      if op != ResetBatch {
        StepKeeps(cfg, sys.batch, op);
        AbsorbConserves(cfg, sys, Step(cfg, sys.batch, op));
      }
    case Reset => if sys.poster.InFlight? { ResetConserves(cfg, sys); }
    case CheckCount =>
    case Snapshot => assert sys.batch.entries + [] == sys.batch.entries;
  }

  /**
    Conservation, in every interleaving: the accepted entries are, in order, those of each
    payload followed by those accepted while that payload was in flight, and then those
    still pending. So what the server is never sent is exactly what came in those windows.
    All payloads begin with the same metadata, and none is without an entry.
   */
  lemma {:induction false} NothingElseIsLost(cfg: Config, actions: seq<Action>)
    ensures Conserved(cfg, Exec(cfg, actions))
  {
    if actions != [] {
      NothingElseIsLost(cfg, actions[..|actions| - 1]);
      NextConserves(cfg, Exec(cfg, actions[..|actions| - 1]), actions[|actions| - 1]);
    }
  }

  /**
    So every payload reads back: split on newlines it is the metadata, shared by all
    payloads, and then the shipped entries in order; provided that log records and proxies
    hold no newline, which lines from an agent cannot.
   */
  lemma EveryPayloadReadsBack(cfg: Config, actions: seq<Action>, r: Round)
    requires r in Exec(cfg, actions).rounds
    requires forall e | e in Exec(cfg, actions).accepted :: e.AgentLine? || NEWLINE !in e.data
    ensures Lines(r.payload) == [Exec(cfg, actions).batch.metadata] + Data(r.shipped)
  {
    var sys := Exec(cfg, actions);
    NothingElseIsLost(cfg, actions);
    ShippedAccepted(sys.rounds, r);
    DataMembers(r.shipped);
    LinesOfEncode(sys.batch.metadata, Data(r.shipped));
  }

  lemma {:induction false} ShippedAccepted(rounds: seq<Round>, r: Round)
    requires r in rounds
    ensures forall e | e in r.shipped :: e in Segments(rounds)
  {
    if r != rounds[|rounds| - 1] {
      ShippedAccepted(rounds[..|rounds| - 1], r);
    }
  }

  /** No operation of the batch runs between a snapshot and its reset. */
  ghost predicate AtomicShipping(cfg: Config, actions: seq<Action>) {
    forall i | 0 <= i < |actions| && actions[i].Operate? :: !Exec(cfg, actions[..i]).poster.InFlight?
  }

  /** With shipping atomic nothing at all is lost or duplicated, and the order is kept. */
  lemma AtomicShippingLosesNothing(cfg: Config, actions: seq<Action>)
    requires AtomicShipping(cfg, actions)
    ensures var sys := Exec(cfg, actions); sys.accepted == Shipped(sys.rounds) + sys.batch.entries
  {
    NothingElseIsLost(cfg, actions);
    NothingLate(cfg, actions);
    WithoutLate(Exec(cfg, actions).rounds);
  }

  lemma {:induction false} NothingLate(cfg: Config, actions: seq<Action>)
    requires AtomicShipping(cfg, actions)
    ensures var sys := Exec(cfg, actions);
      && (sys.poster.InFlight? ==> sys.poster.late == [])
      && (forall r | r in sys.rounds :: r.late == [])
  {
    if actions != [] {
      var init := actions[..|actions| - 1];
      assert forall i | 0 <= i < |init| :: init[..i] == actions[..i];
      NothingLate(cfg, init);
    }
  }

  lemma {:induction false} WithoutLate(rounds: seq<Round>)
    requires forall r | r in rounds :: r.late == []
    ensures Segments(rounds) == Shipped(rounds)
  {
    if rounds != [] {
      WithoutLate(rounds[..|rounds| - 1]);
    }
  }

  /**
    A round that nothing comes between, from wherever the poster has none in hand: a batch
    that holds entries is posted with its metadata and all of them, and is reset.
   */
  lemma RoundShips(cfg: Config, sys: System)
    requires sys.poster.Idle?
    ensures Next(cfg, Next(cfg, Next(cfg, sys, CheckCount), Snapshot), Reset)
         == if sys.batch.entries == [] then sys
            else
              var payload := Encode(sys.batch.metadata, Data(sys.batch.entries));
              sys.(batch := sys.batch.(entries := [], age := None),
                   rounds := sys.rounds + [Round(payload, sys.batch.entries, [])])
  {
  }

  /** Which entries get lost depends on the interleaving alone: one added in the window always is. */
  lemma LateIsLost(cfg: Config, sys: System, op: Op)
    requires Conserved(cfg, sys) && sys.poster.InFlight? && op != ResetBatch
    ensures
      var sys' := Next(cfg, Next(cfg, sys, Operate(op)), Reset);
      && Shipped(sys'.rounds) == Shipped(sys.rounds) + sys.poster.shipped
      && sys'.batch.entries == []
      && sys'.accepted == sys.accepted + Step(cfg, sys.batch, op).added
  {
    var after := Next(cfg, sys, Operate(op));
    var rounds := Next(cfg, after, Reset).rounds;
    assert rounds[..|rounds| - 1] == sys.rounds;
  }
}
