/**
 * The boundary side of the Rust bridge: the response kinds and their C-string
 * names, the records handed to the foreign caller, the set-once client slot and
 * the two callback-style submission entry points.
 *
 * The tokio runtime is not modelled: a submission runs its spawned task to
 * completion as one sequential step.
 */
module CacheClient {
  import opened Common
  import opened Momento

  /** `ProtosocketResponseType`: the closed set of result kinds. */
  datatype ResponseType = SetSuccess | GetHit | GetMiss | Error

  /** The text a response kind is sent across the boundary as. */
  function ResponseTypeName(t: ResponseType): (name: string)
    ensures |name| > 0
    ensures '\0' !in name
  {
    match t
    case SetSuccess => "SetSuccess"
    case GetHit => "GetHit"
    case GetMiss => "GetMiss"
    case Error => "Error"
  }

  /** Distinct kinds have distinct names, so a receiver can tell them apart. */
  lemma ResponseTypeNameInjective(a: ResponseType, b: ResponseType)
    ensures ResponseTypeName(a) == ResponseTypeName(b) <==> a == b
  {
  }

  /** A `char_p::Box`: an owned, NUL-terminated C string, so its text holds no NUL. */
  type CharP = s: string | '\0' !in s

  /** `String::try_into::<char_p::Box>()`, which fails on an interior NUL. */
  function TryIntoCharP(s: string): Option<CharP>
  {
    if '\0' in s then None else Some(s)
  }

  /**
   * `From<ProtosocketResponseType> for char_p::Box`: the conversion ends in an
   * `expect`, which is proved never to fire.
   */
  function IntoCharP(t: ResponseType): (r: Outcome<CharP>)
    ensures r == Done(ResponseTypeName(t))
  {
    match TryIntoCharP(ResponseTypeName(t))
    case Some(text) => Done(text)
    case None => Panic("ResponseType string contained null byte")
  }

  /**
   * `Bytes { data, length }`: `data` is modelled by the bytes readable from
   * that address, never by the address itself.
   */
  datatype Bytes = Bytes(data: seq<byte>, length: nat)

  /** The caller's promise that `length` bytes can be read from `data`. */
  predicate Readable(b: Bytes)
  {
    b.length <= |b.data|
  }

  /** `slice::from_raw_parts(data, length).to_vec()`: an owned copy of the buffer. */
  function ToVec(b: Bytes): (v: seq<byte>)
    requires Readable(b)
    ensures |v| == b.length
    ensures forall i :: 0 <= i < b.length ==> v[i] == b.data[i]
  {
    b.data[..b.length]
  }

  /**
   * `ProtosocketResult`: the record handed to the foreign callback; a null
   * `value` or `error_message` is `None`.
   */
  datatype ProtosocketResult = ProtosocketResult(
    responseType: CharP,
    value: Option<Bytes>,
    errorMessage: Option<CharP>)

  /** `ProtosocketClientConfiguration`: two `usize` fields (64-bit target). */
  datatype Configuration = Configuration(timeoutMillis: u64, connectionCount: u64)

  /**
   * The client `init_protosocket_cache_client` builds; `connection_count as u32`
   * keeps the low 32 bits.
   */
  function BuildClient(defaultTtlMillis: u64, config: Configuration, apiKey: string): (c: Client)
    ensures c.connectionCount == config.connectionCount % U32_MODULUS
    ensures config.connectionCount < U32_MODULUS ==> c.connectionCount == config.connectionCount
  {
    Client(defaultTtlMillis, config.timeoutMillis, config.connectionCount % U32_MODULUS, apiKey)
  }

  /** The address of a foreign callback function. */
  type CallbackPtr = nat

  /** The opaque `callback_data` pointer, passed back untouched. */
  type UserData = nat

  /** One invocation of a foreign callback: `callback(result, user_data)`. */
  datatype Invocation = Invocation(callback: CallbackPtr, result: ProtosocketResult, userData: UserData)

  /**
   * The panic `Handle::current()` raises when no tokio runtime is running on
   * the calling thread.
   */
  const NO_RUNTIME_PANIC: string := "there is no reactor running, must be called from the context of a Tokio 1.x runtime"

  /**
   * Process-wide state of the bridge: the `PROTOSOCKET_CLIENT` slot, whether
   * the lazy `RUNTIME_HANDLE` has been forced inside the runtime, and the
   * callback invocations made so far, in order. `aborted` records that an
   * entry point panicked: a panic cannot unwind out of an exported function,
   * so the process ends there and no later call can happen.
   */
  class Bridge {
    var client: Option<Client>
    var handleReady: bool
    var invocations: seq<Invocation>
    ghost var aborted: bool

    /**
     * In a live process the handle is forced exactly when the slot is filled:
     * only `init_protosocket_cache_client` forces it, just before filling the slot.
     */
    ghost predicate Valid()
      reads this
    {
      !aborted ==> (handleReady <==> client.Some?)
    }

    /** At load time the slot is empty, the handle unforced and no callback has run. */
    constructor ()
      ensures client == None && !handleReady && invocations == [] && !aborted
      ensures Valid()
    {
      client := None;
      handleReady := false;
      invocations := [];
      aborted := false;
    }

    /**
     * `init_protosocket_cache_client`: builds a client inside the runtime,
     * which forces the handle, and stores it in the set-once slot; a second
     * call panics, which ends the process.
     */
    method Init(defaultTtlMillis: u64, config: Configuration, apiKey: string) returns (outcome: Outcome<()>)
      requires !aborted
      modifies this`client, this`handleReady, this`aborted
      ensures handleReady
      ensures old(client).None? <==> outcome == Done(())
      ensures old(client).None? ==> client == Some(BuildClient(defaultTtlMillis, config, apiKey)) && !aborted
      ensures old(client).Some? ==>
        client == old(client) && outcome == Panic("Client already initialized") && aborted
      ensures Valid()
    {
      var built := BuildClient(defaultTtlMillis, config, apiKey);
      handleReady := true;
      if client.None? {
        client := Some(built);
        outcome := Done(());
      } else {
        outcome := Panic("Client already initialized");
        aborted := true;
      }
    }

    /**
     * `protosocket_cache_client_set`: copies the cache name, key and value and
     * takes the runtime handle. Before any `Init` the handle cannot be had
     * and the call panics, ending the process; otherwise a task is spawned
     * (`task`), which calls the client and invokes the callback once with the
     * converted result and the caller's `callback_data`, or panics inside the
     * task when the slot is empty. `intoResult` stands for the `result.into()`
     * conversion, which is not part of this model.
     */
    method Set(cacheName: CharP, key: Bytes, value: Bytes, callback: CallbackPtr, callbackData: UserData,
               service: Service, intoResult: SetRes -> ProtosocketResult)
      returns (outcome: Outcome<()>, task: Option<Outcome<()>>)
      requires !aborted
      requires Readable(key) && Readable(value)
      modifies this`invocations, this`aborted
      ensures !handleReady ==>
        outcome == Panic(NO_RUNTIME_PANIC) && task == None && aborted && invocations == old(invocations)
      ensures handleReady ==> outcome == Done(()) && task.Some? && !aborted
      ensures handleReady && client.Some? ==> (task == Some(Done(())) && invocations == old(invocations) +
        [Invocation(callback, intoResult(service.cacheSet(client.value, cacheName, ToVec(key), ToVec(value))), callbackData)])
      ensures handleReady && client.None? ==>
        task == Some(Panic("Client not initialized")) && invocations == old(invocations)
      ensures old(Valid()) ==> Valid()
    {
      var ownedName := cacheName;
      var ownedKey := ToVec(key);
      var ownedValue := ToVec(value);
      if !handleReady {
        outcome := Panic(NO_RUNTIME_PANIC);
        task := None;
        aborted := true;
        return;
      }
      outcome := Done(());
      if client.None? {
        task := Some(Panic("Client not initialized"));
        return;
      }
      var result := service.cacheSet(client.value, ownedName, ownedKey, ownedValue);
      invocations := invocations + [Invocation(callback, intoResult(result), callbackData)];
      task := Some(Done(()));
    }

    /** `protosocket_cache_client_get`: as `Set`, without a value. */
    method Get(cacheName: CharP, key: Bytes, callback: CallbackPtr, callbackData: UserData,
               service: Service, intoResult: GetRes -> ProtosocketResult)
      returns (outcome: Outcome<()>, task: Option<Outcome<()>>)
      requires !aborted
      requires Readable(key)
      modifies this`invocations, this`aborted
      ensures !handleReady ==>
        outcome == Panic(NO_RUNTIME_PANIC) && task == None && aborted && invocations == old(invocations)
      ensures handleReady ==> outcome == Done(()) && task.Some? && !aborted
      ensures handleReady && client.Some? ==> (task == Some(Done(())) && invocations == old(invocations) +
        [Invocation(callback, intoResult(service.cacheGet(client.value, cacheName, ToVec(key))), callbackData)])
      ensures handleReady && client.None? ==>
        task == Some(Panic("Client not initialized")) && invocations == old(invocations)
      ensures old(Valid()) ==> Valid()
    {
      var ownedName := cacheName;
      var ownedKey := ToVec(key);
      if !handleReady {
        outcome := Panic(NO_RUNTIME_PANIC);
        task := None;
        aborted := true;
        return;
      }
      outcome := Done(());
      if client.None? {
        task := Some(Panic("Client not initialized"));
        return;
      }
      var result := service.cacheGet(client.value, ownedName, ownedKey);
      invocations := invocations + [Invocation(callback, intoResult(result), callbackData)];
      task := Some(Done(()));
    }
  }

  /**
   * A submission made before any `Init` panics at the runtime handle and
   * ends the process: no task is spawned and no callback is ever invoked.
   */
  method EarlySubmission(key: Bytes, service: Service, intoResult: GetRes -> ProtosocketResult)
    returns (outcome: Outcome<()>, task: Option<Outcome<()>>, delivered: nat)
    requires Readable(key)
    ensures outcome == Panic(NO_RUNTIME_PANIC) && task == None
    ensures delivered == 0
  {
    var bridge := new Bridge();
    outcome, task := bridge.Get("cache", key, 0, 0, service, intoResult);
    delivered := |bridge.invocations|;
  }

  /**
   * The slot's lifecycle from process start: the first `Init` fills the slot,
   * a submission then spawns a task that invokes its callback exactly once,
   * and a second `Init` panics, which ends the process with the first client
   * still in the slot.
   */
  method Lifecycle(ttl: u64, config: Configuration, apiKey: string,
                   ttl2: u64, config2: Configuration, apiKey2: string,
                   key: Bytes, service: Service, intoResult: GetRes -> ProtosocketResult)
    returns (first: Outcome<()>, submitted: Outcome<()>, task: Option<Outcome<()>>, delivered: nat,
             slot: Option<Client>, second: Outcome<()>)
    requires Readable(key)
    ensures first == Done(())
    ensures submitted == Done(()) && task == Some(Done(())) && delivered == 1
    ensures slot == Some(BuildClient(ttl, config, apiKey))
    ensures second == Panic("Client already initialized")
  {
    var bridge := new Bridge();
    first := bridge.Init(ttl, config, apiKey);
    submitted, task := bridge.Get("cache", key, 0, 0, service, intoResult);
    delivered := |bridge.invocations|;
    slot := bridge.client;
    second := bridge.Init(ttl2, config2, apiKey2);
  }
}
