/**
  A run in which everything happens in the order that is expected, and an announced
  transaction is lost all the same.
 */
module LosingRun {
  import opened ByteStrings
  import opened Invocations
  import opened Iteration
  import opened BatchSpec
  import opened Coverage
  import opened LostTransaction

  /** A library for which every text that has a transaction has this one. */
  const PLAIN := Library(
    b => Some(b), b => Some(b), b => ID, b => ID, (b, x) => Some([0]), (b, x) => Some([0]), b => Some([0]),
    b => "", b => 0, b => false)

  const ID := "transaction"
  const REQUEST := "request"
  const CONFIG := Config(PLAIN, 100)

  /** The shortest transaction: a quoted key. */
  const LINE := [DOUBLE_QUOTE] + TRANSACTION_KEY + [DOUBLE_QUOTE]

  const LOSING_BODY := APMData([NEWLINE] + LINE, "")
  const METADATA_BODY := APMData([0], "")

  /** The transaction is announced without metadata, sent behind an empty line, and then metadata comes. */
  const LOSING_RUN := [
    Register(REQUEST, "", 0, 0), AgentInit(REQUEST, "", LINE), AgentData(LOSING_BODY, 0), AgentData(METADATA_BODY, 0),
    Shutdown("timeout", [REQUEST], 0)]

  lemma LineIsTransaction()
    ensures EventTypeOf(LINE) == TransactionEvent && NEWLINE !in LINE
  {
    assert LINE[1..12] == TRANSACTION_KEY;
    assert forall m | 0 < m < 12 :: LINE[m] == TRANSACTION_KEY[m - 1];
    assert FirstKeyAt(LINE, TRANSACTION_KEY, 0, 12);
    FirstKeyIs(LINE, TRANSACTION_KEY);
  }

  lemma PlainIsLawful()
    ensures JsonLaws(PLAIN)
  {
    forall b, x ensures KeepsTransaction(PLAIN, b, PLAIN.setResult(b, x)) {}
    forall b, x ensures KeepsTransaction(PLAIN, b, PLAIN.setDuration(b, x)) {}
  }

  lemma LosingRunIsWellOrdered()
    ensures WellOrdered(CONFIG, LOSING_RUN)
    ensures Announces(CONFIG, LOSING_RUN[1], REQUEST, ID)
  {
    LineIsTransaction();
    assert IsRegister(LOSING_RUN[0], REQUEST);
    forall j, k | 0 <= j < 5 && IsInit(CONFIG, LOSING_RUN[j], k) ensures j == 1 && k == REQUEST {}
  }

  /** The announced invocation, and how the batch knows it after the request that loses the transaction. */
  const OWED := Invocation(REQUEST, 0, 0, "", ID, LINE, false, false)
  const LOST := OWED.(transactionObserved := true)

  const REGISTERED := State([], [], None, map[REQUEST := OWED.(transactionID := "", agentPayload := [])], REQUEST, "")
  const BEFORE := State([], [], None, map[REQUEST := OWED], REQUEST, "")
  const AFTER := State([], [], None, map[REQUEST := LOST], REQUEST, "")

  lemma LosingStep()
    ensures LosesNow(CONFIG, BEFORE, AgentData(LOSING_BODY, 0), REQUEST, ID)
    ensures Step(CONFIG, BEFORE, AgentData(LOSING_BODY, 0)) == Outcome(AFTER, [], Some(MetadataUnavailable))
    ensures !Sends(CONFIG, BEFORE, AgentData(LOSING_BODY, 0), ID)
  {
    LineIsTransaction();
    EmptyFirstLineLoses(CONFIG, BEFORE, LINE, REQUEST, ID);
    var body := BodyEntries(LOSING_BODY.data);
    assert body[..1] == [body[0]] && body[0] in body[..1];
    assert AnyLineReports(PLAIN, body[..1], ID);
  }

  lemma MetadataStep()
    ensures Step(CONFIG, AFTER, AgentData(METADATA_BODY, 0)) == Outcome(AFTER.(metadata := [0]), [], None)
    ensures !Sends(CONFIG, AFTER, AgentData(METADATA_BODY, 0), ID)
  {
    assert Lines(METADATA_BODY.data) == [[0]];
    assert Lines(METADATA_BODY.data)[1..] == [];
  }

  lemma RegisterStep()
    ensures Step(CONFIG, NEW_BATCH, LOSING_RUN[0]) == Outcome(REGISTERED, [], None)
  {
  }

  lemma AnnounceStep()
    ensures Step(CONFIG, REGISTERED, LOSING_RUN[1]) == Outcome(BEFORE, [], None)
  {
    LineIsTransaction();
    assert REGISTERED.invocations[REQUEST := OWED] == map[REQUEST := OWED];
  }

  lemma Next(n: nat, s: State, o: Outcome)
    requires n < |LOSING_RUN| && At(CONFIG, LOSING_RUN, n) == RunResult(s, [])
    requires Step(CONFIG, s, LOSING_RUN[n]) == o && o.added == []
    ensures At(CONFIG, LOSING_RUN, n + 1) == RunResult(o.state, [])
  {
    AtNext(CONFIG, LOSING_RUN, n);
  }

  lemma StateBefore()
    ensures At(CONFIG, LOSING_RUN, 2) == RunResult(BEFORE, [])
  {
    RegisterStep();
    Next(0, NEW_BATCH, Outcome(REGISTERED, [], None));
    AnnounceStep();
    Next(1, REGISTERED, Outcome(BEFORE, [], None));
  }

  lemma StateAfter()
    ensures At(CONFIG, LOSING_RUN, 3) == RunResult(AFTER, [])
  {
    StateBefore();
    LosingStep();
    Next(2, BEFORE, Outcome(AFTER, [], Some(MetadataUnavailable)));
  }

  lemma StateAtShutdown()
    ensures At(CONFIG, LOSING_RUN, 4) == RunResult(AFTER.(metadata := [0]), [])
  {
    StateAfter();
    MetadataStep();
    Next(3, AFTER, Outcome(AFTER.(metadata := [0]), [], None));
  }

  lemma LosingRunHasMetadata()
    ensures MetadataInTime(CONFIG, LOSING_RUN)
  {
    StateAtShutdown();
    assert IsIterationOrder([REQUEST], AFTER.invocations.Keys);
    assert forall n | 0 <= n < 4 :: !LOSING_RUN[n].RuntimeDone? && !LOSING_RUN[n].Shutdown?;
  }

  lemma NeverSent()
    ensures !SentBy(CONFIG, LOSING_RUN, 5, ID)
  {
    StateBefore();
    StateAfter();
    LosingStep();
    MetadataStep();
    forall i | 0 <= i < 5 ensures !Sends(CONFIG, At(CONFIG, LOSING_RUN, i).state, LOSING_RUN[i], ID) {
      assert LOSING_RUN[i].AgentData? ==> i == 2 || i == 3;
    }
  }

  /** So a transaction can be lost although everything happens in the order that is expected. */
  lemma LossHappens()
    ensures JsonLaws(CONFIG.lib) && WellOrdered(CONFIG, LOSING_RUN) && MetadataInTime(CONFIG, LOSING_RUN)
    ensures Announces(CONFIG, LOSING_RUN[1], REQUEST, ID)
    ensures !Covered(PLAIN, Run(CONFIG, NEW_BATCH, LOSING_RUN).accepted, REQUEST, ID)
  {
    PlainIsLawful();
    LosingRunIsWellOrdered();
    LosingRunHasMetadata();
    NeverSent();
    StateBefore();
    LosingStep();
    assert LosesNow(CONFIG, At(CONFIG, LOSING_RUN, 2).state, LOSING_RUN[2], REQUEST, ID);
    CoveredExactlyWhen(CONFIG, LOSING_RUN, 1, REQUEST, ID);
  }
}
