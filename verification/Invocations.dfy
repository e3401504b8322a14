/**
  One function invocation and the proxy transaction made for it
  (accumulator/invocation.go), with the third-party JSON and decompression routines it
  and the batch call. Those routines are values of a `Library`: nothing is known of them
  beyond what a lemma asks for with `JsonLaws`.
 */
module Invocations {
  import opened ByteStrings

  /**
    `txnIDText` is gjson's `Get(_, "transaction.id").String()`, `txnIDString` its `.Str`
    (which is "" unless the id is a JSON string). The `set` routines are sjson's SetBytes
    of transaction.result, transaction.duration and transaction.outcome; the last three
    functions read these fields.
   */
  datatype Library = Library(
    inflate: Bytes -> Option<Bytes>,
    gunzip: Bytes -> Option<Bytes>,
    txnIDText: Bytes -> string,
    txnIDString: Bytes -> string,
    setResult: (Bytes, string) -> Option<Bytes>,
    setDuration: (Bytes, int) -> Option<Bytes>,
    setFailure: Bytes -> Option<Bytes>,
    result: Bytes -> string,
    duration: Bytes -> int,
    isFailure: Bytes -> bool)

  /** The result of one sjson call on a payload that has a transaction id. */
  ghost predicate KeepsTransaction(lib: Library, payload: Bytes, result: Option<Bytes>) {
    lib.txnIDText(payload) != "" ==>
      result.Some? && result.value != [] && lib.txnIDText(result.value) == lib.txnIDText(payload)
  }

  /**
    What is asked of gjson and sjson: a string id has itself as text, and setting another
    field of a payload that has a transaction id succeeds, keeps the id, and is not empty.
   */
  ghost predicate JsonLaws(lib: Library) {
    && (forall b :: lib.txnIDString(b) != "" ==> lib.txnIDText(b) == lib.txnIDString(b))
    && (forall b, result :: KeepsTransaction(lib, b, lib.setResult(b, result)))
    && (forall b, ms :: KeepsTransaction(lib, b, lib.setDuration(b, ms)))
    && (forall b :: KeepsTransaction(lib, b, lib.setFailure(b)))
  }

  /** Times are nanoseconds since the epoch, as in Go's `time.Time`; deadlines are milliseconds. */
  const NANOS_PER_MILLI := 1_000_000

  datatype Invocation = Invocation(
    requestID: string,
    timestamp: int,
    deadlineMs: int,
    functionARN: string,
    transactionID: string,
    agentPayload: Bytes,
    transactionObserved: bool,
    finalized: bool)
  {
    predicate NeedProxyTransaction() {
      !finalized && transactionID != "" && !transactionObserved
    }

    /** None is an sjson failure, Some([]) means that no proxy is called for. */
    function MaybeCreateProxyTxn(lib: Library, status: string, endTime: int): (r: Option<Bytes>)
      ensures !NeedProxyTransaction() ==> r == Some([])
    {
      if !NeedProxyTransaction() then
        Some([])
      else
        match lib.setResult(agentPayload, status)
        case None => None
        case Some(withResult) =>
          match lib.setDuration(withResult, Milliseconds(endTime - timestamp))
          case None => None
          case Some(withDuration) =>
            if status != "success" then lib.setFailure(withDuration) else Some(withDuration)
    }
  }

  const EMPTY_INVOCATION := Invocation("", 0, 0, "", "", [], false, false)

  /** Go's Duration.Milliseconds truncates toward zero. */
  function Milliseconds(nanos: int): (ms: int)
    ensures -NANOS_PER_MILLI < nanos - ms * NANOS_PER_MILLI < NANOS_PER_MILLI
    ensures nanos >= 0 <==> ms * NANOS_PER_MILLI <= nanos && ms >= 0
  {
    if nanos >= 0 then nanos / NANOS_PER_MILLI else -((-nanos) / NANOS_PER_MILLI)
  }

  /** The proxy made for a registered transaction is a non-empty payload with the same id. */
  lemma ProxyKeepsTransaction(lib: Library, inc: Invocation, status: string, endTime: int)
    requires JsonLaws(lib) && inc.NeedProxyTransaction()
    requires lib.txnIDText(inc.agentPayload) == inc.transactionID
    ensures var proxy := inc.MaybeCreateProxyTxn(lib, status, endTime);
      proxy.Some? && proxy.value != [] && lib.txnIDText(proxy.value) == inc.transactionID
  {
    var withResult := lib.setResult(inc.agentPayload, status);
    assert KeepsTransaction(lib, inc.agentPayload, withResult);
    var withDuration := lib.setDuration(withResult.value, Milliseconds(endTime - inc.timestamp));
    assert KeepsTransaction(lib, withResult.value, withDuration);
    assert KeepsTransaction(lib, withDuration.value, lib.setFailure(withDuration.value));
  }

  /** Setting a field of a payload sets that field and leaves the others alone. */
  ghost predicate FieldLaws(lib: Library) {
    && (forall b, x :: var r := lib.setResult(b, x); r.Some? ==>
          lib.result(r.value) == x && lib.duration(r.value) == lib.duration(b)
          && lib.isFailure(r.value) == lib.isFailure(b))
    && (forall b, ms :: var r := lib.setDuration(b, ms); r.Some? ==>
          lib.result(r.value) == lib.result(b) && lib.duration(r.value) == ms
          && lib.isFailure(r.value) == lib.isFailure(b))
    && (forall b :: var r := lib.setFailure(b); r.Some? ==>
          lib.result(r.value) == lib.result(b) && lib.duration(r.value) == lib.duration(b)
          && lib.isFailure(r.value))
  }

  /** What a proxy says: the status, the time from start to end, and failure unless it is "success". */
  lemma ProxyContents(lib: Library, inc: Invocation, status: string, endTime: int)
    requires FieldLaws(lib) && inc.NeedProxyTransaction() && inc.MaybeCreateProxyTxn(lib, status, endTime).Some?
    ensures var proxy := inc.MaybeCreateProxyTxn(lib, status, endTime).value;
      && lib.result(proxy) == status
      && lib.duration(proxy) == Milliseconds(endTime - inc.timestamp)
      && (lib.isFailure(proxy) <==> status != "success" || lib.isFailure(inc.agentPayload))
  {
    var withResult := lib.setResult(inc.agentPayload, status);
    var withDuration := lib.setDuration(withResult.value, Milliseconds(endTime - inc.timestamp));
    assert lib.result(withDuration.value) == status;
  }

  /** GetUncompressedBytes: an encoding other than these two is passed through. */
  function Uncompress(lib: Library, raw: Bytes, encoding: string): Option<Bytes> {
    if encoding == "deflate" then lib.inflate(raw)
    else if encoding == "gzip" then lib.gunzip(raw)
    else Some(raw)
  }
}
