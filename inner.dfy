/**
 * Translation of the cache client's results into tagged outcomes, their
 * marshalling into the boundary record, and the request handler that turns
 * each request envelope into exactly one outcome on the response channel.
 */
module Inner {
  import opened Common
  import opened Momento
  import opened CacheClient

  /** `ProtosocketRequestType`, with its owned request data. */
  datatype Request =
    | SetRequest(cacheName: string, key: seq<byte>, value: seq<byte>)
    | GetRequest(cacheName: string, key: seq<byte>)

  /** `ProcessingResult`: a request tagged with its operation id. */
  datatype ProcessingResult = ProcessingResult(request: Request, operationId: u64)

  /** `InnerProtosocketResult`: a tagged outcome before it crosses the boundary. */
  datatype InnerResult = InnerResult(
    responseType: ResponseType,
    value: seq<byte>,
    errorMessage: string,
    operationId: u64)

  /** Every translated outcome has a value only on a hit and a message only on an error. */
  predicate WellFormed(r: InnerResult)
  {
    && (r.responseType != GetHit ==> r.value == [])
    && (r.responseType != Error ==> r.errorMessage == "")
  }

  /** `from_set_result_to_inner_protosocket_result`. */
  function FromSetResult(result: SetRes, operationId: u64): (r: InnerResult)
    ensures WellFormed(r) && r.operationId == operationId
    ensures r.responseType == SetSuccess <==> result.SetOk?
    ensures r.responseType == Error <==> result.SetErr?
    ensures result.SetErr? ==> r.errorMessage == result.display
  {
    match result
    case SetOk => InnerResult(SetSuccess, [], "", operationId)
    case SetErr(display) => InnerResult(Error, [], display, operationId)
  }

  /** `from_get_result_to_inner_protosocket_result`. */
  function FromGetResult(result: GetRes, operationId: u64): (r: InnerResult)
    ensures WellFormed(r) && r.operationId == operationId
    ensures r.responseType == GetHit <==> result.Hit?
    ensures r.responseType == GetMiss <==> result.Miss?
    ensures r.responseType == Error <==> result.GetErr?
    ensures result.Hit? ==> r.value == result.value
    ensures result.GetErr? ==> r.errorMessage == result.display
  {
    match result
    case Hit(value) => InnerResult(GetHit, value, "", operationId)
    case Miss => InnerResult(GetMiss, [], "", operationId)
    case GetErr(display) => InnerResult(Error, [], display, operationId)
  }

  /** The set translation loses nothing: distinct inputs give distinct outcomes. */
  lemma FromSetResultInjective(a: SetRes, i: u64, b: SetRes, j: u64)
    ensures FromSetResult(a, i) == FromSetResult(b, j) <==> a == b && i == j
  {
  }

  /** The get translation loses nothing: distinct inputs give distinct outcomes. */
  lemma FromGetResultInjective(a: GetRes, i: u64, b: GetRes, j: u64)
    ensures FromGetResult(a, i) == FromGetResult(b, j) <==> a == b && i == j
  {
  }

  /**
   * `From<InnerProtosocketResult> for ProtosocketResult`: the kind becomes its
   * name, a hit's bytes move into a `Bytes` record of the same length, and
   * `error_message` is null on every branch, `Error` included.
   */
  function ToProtosocketResult(r: InnerResult): (b: ProtosocketResult)
    ensures b.responseType == ResponseTypeName(r.responseType)
    ensures b.value.Some? <==> r.responseType == GetHit
    ensures b.value.Some? ==> Readable(b.value.value) && b.value.value.length == |r.value|
    ensures b.value.Some? ==> ToVec(b.value.value) == r.value
    ensures b.errorMessage == None
  {
    match r.responseType
    case SetSuccess => ProtosocketResult(IntoCharP(SetSuccess).value, None, None)
    case GetHit =>
      var item := r.value;
      ProtosocketResult(IntoCharP(GetHit).value, Some(Bytes(item, |item|)), None)
    case GetMiss => ProtosocketResult(IntoCharP(GetMiss).value, None, None)
    case Error => ProtosocketResult(IntoCharP(Error).value, None, None)
  }

  /**
   * The boundary record drops the error text: two errors that differ only in
   * their message (or operation id) marshal to the same record.
   */
  lemma ErrorMessageDropped(r: InnerResult, message: string, operationId: u64)
    requires r.responseType == Error
    ensures ToProtosocketResult(r) == ToProtosocketResult(r.(errorMessage := message, operationId := operationId))
    ensures ToProtosocketResult(r).errorMessage == None
  {
  }

  /**
   * The outcome `handle_received` produces for an envelope: the client is
   * called with the request's owned data and its result translated, keeping
   * the envelope's operation id.
   */
  function Handled(envelope: ProcessingResult, client: Client, service: Service): (r: InnerResult)
    ensures r.operationId == envelope.operationId
    ensures WellFormed(r)
    ensures envelope.request.SetRequest? ==> r.responseType in {SetSuccess, Error}
    ensures envelope.request.GetRequest? ==> r.responseType in {GetHit, GetMiss, Error}
  {
    match envelope.request
    case SetRequest(cacheName, key, value) =>
      FromSetResult(service.cacheSet(client, cacheName, key, value), envelope.operationId)
    case GetRequest(cacheName, key) =>
      FromGetResult(service.cacheGet(client, cacheName, key), envelope.operationId)
  }

  /** `RESPONSE_SENDER`: the sending end of the response channel, as the outcomes sent so far. */
  class ResponseSender {
    var sent: seq<InnerResult>

    constructor ()
      ensures sent == []
    {
      sent := [];
    }
  }

  /**
   * `handle_received`: one call sends exactly one outcome, the one `Handled`
   * describes, and nothing else.
   */
  method HandleReceived(envelope: ProcessingResult, client: Client, service: Service, sender: ResponseSender)
    modifies sender
    ensures sender.sent == old(sender.sent) + [Handled(envelope, client, service)]
  {
    var outcome: InnerResult;
    match envelope.request {
      case SetRequest(cacheName, key, value) =>
        var result := service.cacheSet(client, cacheName, key, value);
        outcome := FromSetResult(result, envelope.operationId);
      case GetRequest(cacheName, key) =>
        var result := service.cacheGet(client, cacheName, key);
        outcome := FromGetResult(result, envelope.operationId);
    }
    sender.sent := sender.sent + [outcome];
  }
}
