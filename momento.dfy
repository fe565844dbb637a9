/**
 * The interface of the wrapped momento cache client, which is not part of
 * this model. Its calls are left uninterpreted: a `Service` is any pair of
 * functions from a client and the request data to a result.
 */
module Momento {
  import opened Common

  /** `Result<SetResponse, MomentoError>`; an error is known by its display text. */
  datatype SetRes = SetOk | SetErr(display: string)

  /** `Result<GetResponse, MomentoError>`: a hit with its bytes, a miss, or an error. */
  datatype GetRes = Hit(value: seq<byte>) | Miss | GetErr(display: string)

  /** The settings a `ProtosocketCacheClient` is built from. */
  datatype Client = Client(
    defaultTtlMillis: u64,
    timeoutMillis: u64,
    connectionCount: u32,
    apiKey: string)

  /** What the client's `set` and `get` calls return, for each client and request. */
  datatype Service = Service(
    cacheSet: (Client, string, seq<byte>, seq<byte>) -> SetRes,
    cacheGet: (Client, string, seq<byte>) -> GetRes)
}
