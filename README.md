# momento-protosocket-ffi bridge, modelled in Dafny

This project models the sequential logic of the momento protosocket FFI bridge. Rust exposes asynchronous
cache `set`/`get` calls to foreign callers with no async runtime of their own, and Go is one such caller.
The model covers four parts:

- **Outcome translation** (`inner.dfy`, module `Inner`). The cache client's `Result`s become tagged
  `InnerProtosocketResult`s, which are marshalled into the boundary record `ProtosocketResult`.
  `handle_received` turns each request envelope into exactly one outcome on the response channel.
- **Boundary naming and client lifecycle** (`cache_client.dfy`, module `CacheClient`). This covers:
  - the response-kind names;
  - the proof that their C-string conversion never panics;
  - the set-once `PROTOSOCKET_CLIENT` slot, as class `Bridge`;
  - the lazy `RUNTIME_HANDLE`, which only init forces inside the runtime;
  - the two callback-style submission entry points. Each copies the caller's buffers and invokes the
    callback exactly once, with `callback_data` unchanged, once the client is initialized. Before any
    init, a submission panics at the runtime handle and the process ends.
- **The Go caller** (`go_client.dfy`, module `GoClient`). This covers:
  - decoding the record into `SetResponse`/`GetResponse`;
  - the caller's classification into hit, error or miss;
  - the callback registry: the atomic `nextID` counter and the `setContexts`/`getContexts` maps from
    id to a one-slot channel.

  The registry is a class (`Registry`). Each of its methods is specified by a function on a
  `RegistryState` value. The invariants and trace properties are proved about those functions:
  - every callback frees its record exactly once;
  - an entry is taken at most once;
  - ids are strictly increasing until the counter wraps;
  - a set timeout leaves its entry registered.

  Both Go programs (`examples/golang/callbacks.go`, `examples/golang/main.go`) share the callback and
  registry code. They differ in how the caller waits: without a deadline (`Forever`), or for 30 seconds
  and then a cleanup (`Timeout`).
- **End to end** (`end_to_end.dfy`, module `EndToEnd`). This is what a Go caller would make of a record
  if that record came from the inner.rs path. The entry points in `cache_client.rs` build their records
  with a `result.into()` conversion that is not part of this model, so these lemmas are conditional on
  the records being the inner.rs ones. Because such a record's `error_message` is always null:
  - a set error would arrive with an empty message;
  - a get error would be classified as a miss.

Shared machine types are in `common.dfy`: bytes, `u64` with explicit wrap-around, `Option`, and the
`Outcome` of code that may panic. A panic inside a spawned tokio task ends that task only. A panic in an
exported entry point cannot unwind into the foreign caller, so it ends the process; the `Bridge` then
records `aborted` and no method may be called after it. `momento.dfy` holds the interface of the wrapped momento client. Its
`set`/`get` calls are function-typed parameters, which leaves them uninterpreted.

Points of the code worth knowing:
- The record has an `error_message` field, but every branch of the conversion in `inner.rs` leaves it
  null, `Error` included.
- `RUNTIME_HANDLE` is `Lazy::new(|| Handle::current())`, and only `init_protosocket_cache_client`
  forces it inside the runtime (in its `block_on`). A submission before any init forces it on the
  caller's thread, where `Handle::current()` panics; the process ends and no callback is invoked.
  The task's `expect("Client not initialized")` is never reached on that path.
- `cache_client.rs` has no null-argument validation, no polling entry point and no operation-id
  allocator.
- `inner.rs` imports a `RESPONSE_SENDER` that `cache_client.rs` does not define. It is modelled by
  the `ResponseSender` class.

## Model

| member | source | states |
|---|---|---|
| `CacheClient.ResponseTypeName` | src/protosocket/cache_client.rs:105-110 | every kind's name is non-empty and holds no NUL byte |
| `CacheClient.ResponseTypeNameInjective` | src/protosocket/cache_client.rs:105-110 | two kinds have the same name iff they are the same kind |
| `CacheClient.IntoCharP` | src/protosocket/cache_client.rs:103-115 | the conversion to `char_p::Box` always succeeds with the kind's name; its `expect` never fires |
| `CacheClient.ToVec` | src/protosocket/cache_client.rs:137-138 | the owned copy has exactly `length` bytes, equal to the caller's `data[0..length]` |
| `CacheClient.BuildClient` | src/protosocket/cache_client.rs:45-63 | the client keeps the low 32 bits of `connection_count` (`as u32`), unchanged when it fits |
| `CacheClient.Bridge.constructor` | src/protosocket/cache_client.rs:37 | the client slot starts empty and no callback has run |
| `CacheClient.Bridge.Init` | src/protosocket/cache_client.rs:39-68 | the runtime handle is forced; the first call fills the empty slot with the built client; a later call panics with "Client already initialized", keeps the first client and ends the process; the handle is forced exactly when the slot is filled |
| `CacheClient.Bridge.Set` | src/protosocket/cache_client.rs:124-152 | before any init: the call panics at the runtime handle, ends the process, spawns nothing and invokes no callback; otherwise a task is spawned that, with the slot filled, makes exactly one callback invocation with the caller's `callback_data` unchanged and the converted result of the client's `set` on the copied name, key and value, and with the slot empty panics without invoking it |
| `CacheClient.Bridge.Get` | src/protosocket/cache_client.rs:154-179 | as `Set`, for `get` on the copied name and key |
| `CacheClient.EarlySubmission` | src/protosocket/cache_client.rs:154-170 | from process start, a get submission panics at the runtime handle: no task, no callback |
| `CacheClient.Lifecycle` | src/protosocket/cache_client.rs:34-68 | from process start: the first init succeeds, a submission then spawns a task that invokes its callback exactly once, and a second init panics, ending the process with the first client in the slot |
| `Inner.FromSetResult` | src/protosocket/inner.rs:84-102 | success gives `SetSuccess` and failure gives `Error` with the error's text; value empty, message empty unless `Error`; the operation id is kept |
| `Inner.FromGetResult` | src/protosocket/inner.rs:104-128 | hit gives `GetHit` with exactly the hit bytes, miss gives `GetMiss`, failure gives `Error` with the error's text; otherwise empty fields; the operation id is kept |
| `Inner.FromSetResultInjective` | src/protosocket/inner.rs:84-102 | the set translation is lossless: equal outcomes come from equal results and ids |
| `Inner.FromGetResultInjective` | src/protosocket/inner.rs:104-128 | the get translation is lossless: equal outcomes come from equal results and ids |
| `Inner.ToProtosocketResult` | src/protosocket/inner.rs:41-82 | the kind is sent by name; `value` is present iff the kind is `GetHit`, and then has the inner value's length and contents; `error_message` is always null |
| `Inner.ErrorMessageDropped` | src/protosocket/inner.rs:75-79 | two `Error` outcomes that differ in message or operation id marshal to the same record, with no message |
| `Inner.Handled` | src/protosocket/inner.rs:130-178 | the outcome carries the envelope's operation id and is well formed; a set request yields only `SetSuccess`/`Error`, a get request only `GetHit`/`GetMiss`/`Error` |
| `Inner.ResponseSender.constructor` | src/protosocket/inner.rs:7-9 | the response channel starts with nothing sent |
| `Inner.HandleReceived` | src/protosocket/inner.rs:130-178 | one call appends exactly one outcome, the one `Handled` describes, to what has been sent |
| `GoClient.DecodeSet` | examples/golang/callbacks.go:97-104 | `Success` iff "SetSuccess"; "Error" gives `Success=false` with the message text; any other kind gives an empty `Error` |
| `GoClient.DecodeGet` | examples/golang/callbacks.go:121-131 | `Hit` iff "GetHit", then `Value` is a copy of the record's bytes; "GetMiss" gives the zero value; "Error" gives the message text and no value |
| `GoClient.ClassifySet` | examples/golang/callbacks.go:161-167 | reported as success iff `Success`, otherwise as failure with the `Error` text |
| `GoClient.ClassifyGet` | examples/golang/callbacks.go:189-197 | a hit iff `Hit` (with its value); else an error iff `Error` is non-empty; else a miss |
| `GoClient.InitialInv` | examples/golang/main.go:34-38 | the registry invariant holds at program start |
| `GoClient.SetCallbackStep` | examples/golang/callbacks.go:86-108 | the entry is taken once (`LoadAndDelete`); if it was there, the decoded response fills its channel; without an entry, nothing changes except that the record is freed; exactly one free either way; the invariant is kept |
| `GoClient.GetCallbackStep` | examples/golang/callbacks.go:110-135 | as `SetCallbackStep`, over `getContexts` with the get decoding; the record need be decodable only when the entry is found |
| `GoClient.SetCallSpec` | examples/golang/main.go:146-183 | the call takes the next id; when the callback arrives, the caller receives its decoded response, the entry is gone and `getContexts` is untouched; without a callback the entry stays in `setContexts` under the new channel, and on a timeout the cleanup deletes the id from `getContexts` instead; the get channels never change |
| `GoClient.GetCallSpec` | examples/golang/main.go:185-221 | the call takes the next id; when the callback arrives, the caller receives its decoded response and the entry is gone; on a timeout the get entry is deleted, otherwise it stays under the new channel; `setContexts` and the set channels never change |
| `GoClient.SetCallbackTakesOnce` | examples/golang/callbacks.go:90-94 | a second set callback for the same id changes nothing but the free count |
| `GoClient.GetCallbackTakesOnce` | examples/golang/callbacks.go:114-118 | a second get callback for the same id changes nothing but the free count |
| `GoClient.LateSetCallbackAfterTimeout` | examples/golang/main.go:178-181 | after a set timeout the entry is still registered, and a late callback sends into the abandoned channel |
| `GoClient.LateGetCallbackAfterTimeout` | examples/golang/main.go:216-219 | after a get timeout, a late callback finds no entry and only frees its record |
| `GoClient.Step` | examples/golang/main.go:34-38 | every registry event keeps the invariant |
| `GoClient.Run` | examples/golang/main.go:34-38 | any sequence of calls and callbacks keeps the registry invariant |
| `GoClient.FreedOncePerCallback` | examples/golang/main.go:87-144 | over any run, `free_response` is called exactly once per callback invocation |
| `GoClient.Allocations` | examples/golang/main.go:37 | `n` counter increments hand out `n` ids |
| `GoClient.AllocationAt` | examples/golang/main.go:159 | before the counter wraps, the k-th id handed out is `start + k + 1` |
| `GoClient.StepNextId` | examples/golang/main.go:196 | a call advances the counter by one (mod 2^64); a callback leaves it alone |
| `GoClient.IssuedIdsAreAllocations` | examples/golang/main.go:159-160 | the calls of any run take exactly the successive counter values, in order |
| `GoClient.IssuedIdsIncrease` | examples/golang/callbacks.go:149-151 | without wrap-around, the ids taken by a run's calls are strictly increasing, hence distinct, and above the starting counter |
| `GoClient.CounterWraps` | examples/golang/callbacks.go:178 | the `uint64` counter wraps from 2^64-1 to 0, so the second call after the wrap reissues id 1, the id the first call took |
| `GoClient.Registry.constructor` | examples/golang/callbacks.go:33-37 | the counter starts at zero and the maps empty, with the invariant holding |
| `GoClient.Registry.AllocateId` | examples/golang/callbacks.go:149 | the id is the incremented counter value, which is also the new counter |
| `GoClient.Registry.SetCallback` | examples/golang/main.go:87-113 | the new state is `SetCallbackStep` of the old one; the invariant is kept |
| `GoClient.Registry.GetCallback` | examples/golang/main.go:115-144 | the new state is `GetCallbackStep` of the old one; the invariant is kept |
| `GoClient.Registry.SetCall` | examples/golang/main.go:155-168 | the new state and outcome are those of `SetCallSpec`: the channel is stored under the id before the bridge is called |
| `GoClient.Registry.GetCall` | examples/golang/main.go:192-204 | the new state and outcome are those of `GetCallSpec`, with the id stored before the bridge is called |
| `GoClient.Registry.MakeSetCallWithCallback` | examples/golang/callbacks.go:137-168 | as `SetCallSpec` with no deadline: it never returns if no callback arrives |
| `GoClient.Registry.MakeGetCallWithCallback` | examples/golang/callbacks.go:170-198 | as `GetCallSpec` with no deadline |
| `GoClient.Registry.MakeSetCall` | examples/golang/main.go:146-183 | as `SetCallSpec` with the 30-second timeout |
| `GoClient.Registry.MakeGetCall` | examples/golang/main.go:185-221 | as `GetCallSpec` with the 30-second timeout |
| `EndToEnd.SetSeenByGo` | examples/golang/callbacks.go:97-104 | for the inner.rs records, a Go set caller sees success iff the client succeeded, and a failure always with an empty message |
| `EndToEnd.GetRecordDecodable` | examples/golang/callbacks.go:124-126 | every inner.rs get record can be decoded by `getCallback`, provided a hit fits the C `int` length of `C.GoBytes` |
| `EndToEnd.GetSeenByGo` | examples/golang/callbacks.go:191-197 | for the inner.rs records, a Go get caller sees a hit with exactly the client's bytes, and a miss for both a miss and an error |
| `EndToEnd.NoGetErrorReported` | examples/golang/main.go:209-215 | no get result ever reaches the Go caller's error branch |

## Left out

- The tokio runtime (`RUNTIME`, `block_on`, `spawn`) and the crypto-provider installation are not modelled; of `RUNTIME_HANDLE` only whether it has been forced inside the runtime is kept. A submission runs its spawned task to completion as one sequential step, so there is no interleaving and no ordering between callbacks.
- The momento client's `set`/`get`, `CredentialProvider::from_string` and the configuration builder are foreign code. The calls are uninterpreted functions (`Momento.Service`). `Bridge.Init` assumes the `expect`s on the credentials and on building the client succeed.
- `CacheClient.Bridge.Set`: the `result.into()` conversion that the entry points use is not part of this model, so it is a parameter. The Bridge methods do not claim that it equals the inner.rs path.
- `Inner.HandleReceived`: `(*PROTOSOCKET_CLIENT)` dereferences the `OnceLock` itself, so the client is a parameter. The `expect("failed to send message")` on a closed channel is not modelled; the channel is never closed here.
- Raw-pointer and memory mechanics are not modelled: `from_raw_parts`, `Box::leak`, `Box::into_raw`, `drop` in `free_response`, cgo `malloc`/`memcpy`/`C.free`. A pointer is modelled by the bytes readable from it. Only a ghost count of `free_response` calls is kept.
- `char_p::Ref::to_str` and `C.GoString` are modelled as plain text copies. UTF-8 validation and reading up to the first NUL are not modelled.
- The Go buffer conversion `convertGoBytesToCBytes` is not modelled, including its index of `bytes[0]`, which panics on an empty key or value.
- Go channels, `select` with `time.After`, and `sync.Map` atomicity are sequential here. A channel is its one buffered slot, and whether a callback arrives before the deadline is a parameter of each call.
- All `println!` and `fmt.Printf` logging is left out. The Go callers' report branch is returned as a value (`SetReport`, `GetReport`).
- The Go `main` functions, `destroy_protosocket_cache_client` and `main_macos.go` are not part of this model. The last of these uses a polling entry point that is absent from the Rust code.
- `src/protosocket/configuration.rs` and `src/lib.rs` are not part of this model. They hold plain field-copying constructors and header generation.
- `GoClient.GetCallbackStep` requires, when the id's entry is found, that a "GetHit" record carries a readable buffer shorter than 2^31 bytes. On that path Go dereferences the buffer and passes its length to `C.GoBytes` as a C `int`; other records are not modelled.
- `CacheClient.Bridge.Set` and `CacheClient.Bridge.Get`: the task's `expect("Client not initialized")` branch is modelled, but in a sequential run it is never taken, because the handle is ready only once the slot is filled (`Bridge.Valid`). It could be taken only by a submission racing a first init on another thread, and threads are not modelled.
