/**
 * What the Go callers make of the records the inner.rs path produces: each
 * cache client result, translated and marshalled, then decoded and
 * classified on the Go side. The entry points in the callback module use a
 * `result.into()` conversion that is not part of this model, so these
 * lemmas speak of the inner.rs path only.
 */
module EndToEnd {
  import opened Common
  import opened Momento
  import opened CacheClient
  import opened Inner
  import opened GoClient

  /** The record the inner.rs path hands over for a set result. */
  function SetRecord(result: SetRes, operationId: u64): ProtosocketResult
  {
    ToProtosocketResult(FromSetResult(result, operationId))
  }

  /** The record the inner.rs path hands over for a get result. */
  function GetRecord(result: GetRes, operationId: u64): ProtosocketResult
  {
    ToProtosocketResult(FromGetResult(result, operationId))
  }

  /**
   * A set caller sees success exactly when the client succeeded; a failure
   * arrives without its message, because the record's `error_message` is null.
   */
  lemma SetSeenByGo(result: SetRes, operationId: u64)
    ensures DecodeSet(SetRecord(result, operationId)) == SetResponse(result.SetOk?, "")
    ensures ClassifySet(DecodeSet(SetRecord(result, operationId))) ==
      if result.SetOk? then SetSucceeded else SetFailed("")
  {
  }

  /**
   * Every record of the get path can be decoded once the hit is short enough
   * for `C.GoBytes`.
   */
  lemma GetRecordDecodable(result: GetRes, operationId: u64)
    requires result.Hit? ==> |result.value| < C_INT_LIMIT
    ensures Decodable(GetRecord(result, operationId))
  {
  }

  /**
   * A get caller sees a hit with exactly the client's bytes; a miss and an
   * error both read as a miss, because the error's message never arrives and
   * an empty `Error` field is classified as a miss.
   */
  lemma GetSeenByGo(result: GetRes, operationId: u64)
    requires result.Hit? ==> |result.value| < C_INT_LIMIT
    ensures Decodable(GetRecord(result, operationId))
    ensures ClassifyGet(DecodeGet(GetRecord(result, operationId))) ==
      if result.Hit? then GetHitReport(result.value) else GetMissReport
  {
    GetRecordDecodable(result, operationId);
  }

  /** In particular, no get result ever reaches a Go caller as an error. */
  lemma NoGetErrorReported(result: GetRes, operationId: u64)
    requires result.Hit? ==> |result.value| < C_INT_LIMIT
    ensures Decodable(GetRecord(result, operationId))
    ensures !ClassifyGet(DecodeGet(GetRecord(result, operationId))).GetErrorReport?
  {
    GetSeenByGo(result, operationId);
  }
}
