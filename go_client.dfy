/**
 * The Go caller of the bridge: decoding the boundary record into Go response
 * structs, classifying them, and the callback registry — an atomic id counter
 * and two maps from operation id to the one-slot channel its caller waits on.
 *
 * Both Go programs share this code: the callbacks and the registry are the
 * same in each, the callback-only program waits for its response without a
 * deadline and the other gives up after a timeout. Channels are modelled by
 * their one buffered slot; a channel is known by its index in the sequence
 * of channels made so far.
 */
module GoClient {
  import opened Common
  import opened CacheClient

  /** Go `SetResponse`. */
  datatype SetResponse = SetResponse(success: bool, error: string)

  /** Go `GetResponse`; a nil `Value` is the empty sequence. */
  datatype GetResponse = GetResponse(hit: bool, value: seq<byte>, error: string)

  /** `C.GoString`: a null pointer reads as the empty string. */
  function GoString(p: Option<CharP>): string
  {
    if p.Some? then p.value else ""
  }

  /** Largest length `C.GoBytes` accepts: its length argument is a C `int`. */
  const C_INT_LIMIT: int := 0x8000_0000

  /**
   * What `getCallback` needs of a record: on "GetHit" it dereferences `value`
   * and copies `length` bytes with `C.GoBytes`.
   */
  predicate Decodable(result: ProtosocketResult)
  {
    result.responseType == "GetHit" ==>
      && result.value.Some?
      && Readable(result.value.value)
      && result.value.value.length < C_INT_LIMIT
  }

  /** The decode block of `setCallback`. */
  function DecodeSet(result: ProtosocketResult): (r: SetResponse)
    ensures r.success <==> result.responseType == "SetSuccess"
    ensures result.responseType == "Error" ==> r == SetResponse(false, GoString(result.errorMessage))
    ensures result.responseType != "Error" ==> r.error == ""
  {
    if result.responseType == "SetSuccess" then SetResponse(true, "")
    else if result.responseType == "Error" then SetResponse(false, GoString(result.errorMessage))
    else SetResponse(false, "")
  }

  /** The decode block of `getCallback`. */
  function DecodeGet(result: ProtosocketResult): (r: GetResponse)
    requires Decodable(result)
    ensures r.hit <==> result.responseType == "GetHit"
    ensures r.hit ==> r.value == ToVec(result.value.value) && r.error == ""
    ensures result.responseType == "GetMiss" ==> r == GetResponse(false, [], "")
    ensures result.responseType == "Error" ==> r == GetResponse(false, [], GoString(result.errorMessage))
    ensures result.responseType != "Error" ==> r.error == ""
  {
    if result.responseType == "GetHit" then GetResponse(true, ToVec(result.value.value), "")
    else if result.responseType == "GetMiss" then GetResponse(false, [], "")
    else if result.responseType == "Error" then GetResponse(false, [], GoString(result.errorMessage))
    else GetResponse(false, [], "")
  }

  /** What a set caller reports once it has its response. */
  datatype SetReport = SetSucceeded | SetFailed(message: string)

  /** The report branch of the set callers. */
  function ClassifySet(response: SetResponse): (k: SetReport)
    ensures k.SetSucceeded? <==> response.success
    ensures k.SetFailed? ==> k.message == response.error
  {
    if response.success then SetSucceeded else SetFailed(response.error)
  }

  /** What a get caller reports once it has its response. */
  datatype GetReport = GetHitReport(value: seq<byte>) | GetErrorReport(message: string) | GetMissReport

  /**
   * The report branch of the get callers: a hit if `Hit`, else an error if
   * `Error` is not empty, else a miss — so an error with an empty message
   * reads as a miss.
   */
  function ClassifyGet(response: GetResponse): (k: GetReport)
    ensures k.GetHitReport? <==> response.hit
    ensures k.GetHitReport? ==> k.value == response.value
    ensures k.GetErrorReport? <==> !response.hit && response.error != ""
    ensures k.GetErrorReport? ==> k.message == response.error
    ensures k.GetMissReport? <==> !response.hit && response.error == ""
  {
    if response.hit then GetHitReport(response.value)
    else if response.error != "" then GetErrorReport(response.error)
    else GetMissReport
  }

  /** `atomic.AddUint64(&nextID, 1)`: the counter wraps after 2^64 - 1. */
  function NextId(n: u64): u64
  {
    (n + 1) % U64_MODULUS
  }

  /** A channel, known by the order in which it was made. */
  type Chan = nat

  /** The registry's whole state, as the specification of its operations. */
  datatype RegistryState = RegistryState(
    nextId: u64,
    setContexts: map<u64, Chan>,
    getContexts: map<u64, Chan>,
    setChannels: seq<Option<SetResponse>>,
    getChannels: seq<Option<GetResponse>>,
    frees: nat)

  /** At program start: the counter at zero, no entries, no channels, nothing freed. */
  function Initial(): RegistryState
  {
    RegistryState(0, map[], map[], [], [], 0)
  }

  /**
   * The registry invariant: every registered id names an existing channel
   * whose slot is still empty, and no two registered ids share a channel.
   * It is what lets each callback's send go through without blocking.
   */
  ghost predicate Inv(s: RegistryState)
  {
    && (forall id :: id in s.setContexts ==>
          s.setContexts[id] < |s.setChannels| && s.setChannels[s.setContexts[id]].None?)
    && (forall id :: id in s.getContexts ==>
          s.getContexts[id] < |s.getChannels| && s.getChannels[s.getContexts[id]].None?)
    && (forall i, j :: i in s.setContexts && j in s.setContexts && i != j ==> s.setContexts[i] != s.setContexts[j])
    && (forall i, j :: i in s.getContexts && j in s.getContexts && i != j ==> s.getContexts[i] != s.getContexts[j])
  }

  lemma InitialInv()
    ensures Inv(Initial())
  {
  }

  /**
   * `setCallback` on the id in `user_data`: take the entry with
   * `LoadAndDelete`; if there is one, decode the record and send it on the
   * entry's channel; free the record exactly once on either path.
   */
  function SetCallbackStep(s: RegistryState, result: ProtosocketResult, id: u64): (t: RegistryState)
    requires Inv(s)
    ensures Inv(t)
    ensures t.frees == s.frees + 1
    ensures id !in t.setContexts
    ensures id !in s.setContexts ==> t == s.(frees := s.frees + 1)
    ensures id in s.setContexts ==>
      && t.setChannels == s.setChannels[s.setContexts[id] := Some(DecodeSet(result))]
      && t.setContexts == s.setContexts - {id}
      && t.nextId == s.nextId && t.getContexts == s.getContexts && t.getChannels == s.getChannels
  {
    if id in s.setContexts then
      var ch := s.setContexts[id];
      s.(setContexts := s.setContexts - {id},
         setChannels := s.setChannels[ch := Some(DecodeSet(result))],
         frees := s.frees + 1)
    else
      s.(frees := s.frees + 1)
  }

  /**
   * `getCallback`: as `setCallback`, over the get entries and with the get
   * decoding; the record is read only when the entry is found.
   */
  function GetCallbackStep(s: RegistryState, result: ProtosocketResult, id: u64): (t: RegistryState)
    requires Inv(s)
    requires id in s.getContexts ==> Decodable(result)
    ensures Inv(t)
    ensures t.frees == s.frees + 1
    ensures id !in t.getContexts
    ensures id !in s.getContexts ==> t == s.(frees := s.frees + 1)
    ensures id in s.getContexts ==>
      && t.getChannels == s.getChannels[s.getContexts[id] := Some(DecodeGet(result))]
      && t.getContexts == s.getContexts - {id}
      && t.nextId == s.nextId && t.setContexts == s.setContexts && t.setChannels == s.setChannels
  {
    if id in s.getContexts then
      var ch := s.getContexts[id];
      s.(getContexts := s.getContexts - {id},
         getChannels := s.getChannels[ch := Some(DecodeGet(result))],
         frees := s.frees + 1)
    else
      s.(frees := s.frees + 1)
  }

  /** How a caller waits for its response: forever, or until a 30-second timeout. */
  datatype Wait = Forever | Timeout

  /** How a call ends: with the report of its response, by timing out, or never. */
  datatype CallOutcome<T> = Received(report: T) | TimedOut | Blocked

  /** The state after a call, the id it used, and how it ended. */
  datatype Call<T> = Call(state: RegistryState, id: u64, outcome: CallOutcome<T>)

  /**
   * A set call: make a one-slot channel, take the next id, store the channel
   * under it, then call the bridge. `delivered` is the record the callback
   * brings before the caller stops waiting, if any. On a timeout the caller
   * deletes the id from the GET map, so its set entry stays registered.
   */
  function SetCallSpec(s: RegistryState, delivered: Option<ProtosocketResult>, wait: Wait): (c: Call<SetReport>)
    requires Inv(s)
    ensures Inv(c.state)
    ensures c.id == NextId(s.nextId) && c.state.nextId == c.id
    ensures delivered.Some? ==>
      && c.outcome == Received(ClassifySet(DecodeSet(delivered.value)))
      && c.id !in c.state.setContexts
      && c.state.frees == s.frees + 1
    ensures delivered.Some? ==>
      && c.state.setContexts == s.setContexts - {c.id}
      && c.state.getContexts == s.getContexts
      && c.state.getChannels == s.getChannels
    ensures delivered.None? ==>
      && c.outcome == (if wait == Timeout then TimedOut else Blocked)
      && c.id in c.state.setContexts
      && c.state.setContexts == s.setContexts[c.id := |s.setChannels|]
      && c.state.frees == s.frees
    ensures delivered.None? && wait == Forever ==> c.state.getContexts == s.getContexts
    ensures delivered.None? && wait == Timeout ==> c.state.getContexts == s.getContexts - {c.id}
    ensures c.state.getChannels == s.getChannels
  {
    var ch := |s.setChannels|;
    var id := NextId(s.nextId);
    var registered := s.(nextId := id,
                         setChannels := s.setChannels + [None],
                         setContexts := s.setContexts[id := ch]);
    match delivered
    case Some(result) =>
      var called := SetCallbackStep(registered, result, id);
      var response := called.setChannels[ch].value;
      Call(called.(setChannels := called.setChannels[ch := None]), id, Received(ClassifySet(response)))
    case None =>
      if wait == Timeout then Call(registered.(getContexts := registered.getContexts - {id}), id, TimedOut)
      else Call(registered, id, Blocked)
  }

  /** A get call: as a set call, and on a timeout the caller deletes its own entry. */
  function GetCallSpec(s: RegistryState, delivered: Option<ProtosocketResult>, wait: Wait): (c: Call<GetReport>)
    requires Inv(s)
    requires delivered.Some? ==> Decodable(delivered.value)
    ensures Inv(c.state)
    ensures c.id == NextId(s.nextId) && c.state.nextId == c.id
    ensures delivered.Some? ==>
      && c.outcome == Received(ClassifyGet(DecodeGet(delivered.value)))
      && c.id !in c.state.getContexts
      && c.state.frees == s.frees + 1
    ensures delivered.Some? ==> c.state.getContexts == s.getContexts - {c.id}
    ensures delivered.None? ==>
      && c.outcome == (if wait == Timeout then TimedOut else Blocked)
      && (wait == Timeout <==> c.id !in c.state.getContexts)
      && c.state.frees == s.frees
    ensures delivered.None? && wait == Forever ==> c.state.getContexts == s.getContexts[c.id := |s.getChannels|]
    ensures delivered.None? && wait == Timeout ==> c.state.getContexts == s.getContexts - {c.id}
    ensures c.state.setContexts == s.setContexts && c.state.setChannels == s.setChannels
  {
    var ch := |s.getChannels|;
    var id := NextId(s.nextId);
    var registered := s.(nextId := id,
                         getChannels := s.getChannels + [None],
                         getContexts := s.getContexts[id := ch]);
    match delivered
    case Some(result) =>
      var called := GetCallbackStep(registered, result, id);
      var response := called.getChannels[ch].value;
      Call(called.(getChannels := called.getChannels[ch := None]), id, Received(ClassifyGet(response)))
    case None =>
      if wait == Timeout then Call(registered.(getContexts := registered.getContexts - {id}), id, TimedOut)
      else Call(registered, id, Blocked)
  }

  /**
   * A callback runs at most once per entry: a second callback for the same id
   * finds nothing, sends nothing and only frees its record.
   */
  lemma SetCallbackTakesOnce(s: RegistryState, first: ProtosocketResult, second: ProtosocketResult, id: u64)
    requires Inv(s)
    ensures var t := SetCallbackStep(s, first, id);
      SetCallbackStep(t, second, id) == t.(frees := t.frees + 1)
  {
  }

  /** As `SetCallbackTakesOnce`, for get callbacks. */
  lemma GetCallbackTakesOnce(s: RegistryState, first: ProtosocketResult, second: ProtosocketResult, id: u64)
    requires Inv(s)
    requires id in s.getContexts ==> Decodable(first)
    ensures var t := GetCallbackStep(s, first, id);
      GetCallbackStep(t, second, id) == t.(frees := t.frees + 1)
  {
  }

  /**
   * After a set call times out, its entry is still registered: a late
   * callback still takes it and sends the response into the abandoned
   * channel, where nobody will receive it.
   */
  lemma LateSetCallbackAfterTimeout(s: RegistryState, late: ProtosocketResult)
    requires Inv(s)
    ensures var c := SetCallSpec(s, None, Timeout);
      var t := SetCallbackStep(c.state, late, c.id);
      && c.id in c.state.setContexts
      && t.setChannels[|s.setChannels|] == Some(DecodeSet(late))
  {
  }

  /**
   * After a get call times out, its entry is gone: a late callback sends
   * nothing and only frees its record.
   */
  lemma LateGetCallbackAfterTimeout(s: RegistryState, late: ProtosocketResult)
    requires Inv(s)
    ensures var c := GetCallSpec(s, None, Timeout);
      GetCallbackStep(c.state, late, c.id) == c.state.(frees := c.state.frees + 1)
  {
  }

  /** One thing that can happen to the registry. */
  datatype Event =
    | SetCall(delivered: Option<ProtosocketResult>, wait: Wait)
    | GetCall(delivered: Option<ProtosocketResult>, wait: Wait)
    | LateSetCallback(result: ProtosocketResult, id: u64)
    | LateGetCallback(result: ProtosocketResult, id: u64)

  /** Every get record the event makes `getCallback` read can be decoded. */
  predicate Admissible(s: RegistryState, e: Event)
  {
    match e
    case SetCall(_, _) => true
    case GetCall(delivered, _) => delivered.Some? ==> Decodable(delivered.value)
    case LateSetCallback(_, _) => true
    case LateGetCallback(result, id) => id in s.getContexts ==> Decodable(result)
  }

  /** The effect of one event on the registry. */
  function Step(s: RegistryState, e: Event): (t: RegistryState)
    requires Inv(s) && Admissible(s, e)
    ensures Inv(t)
  {
    match e
    case SetCall(delivered, wait) => SetCallSpec(s, delivered, wait).state
    case GetCall(delivered, wait) => GetCallSpec(s, delivered, wait).state
    case LateSetCallback(result, id) => SetCallbackStep(s, result, id)
    case LateGetCallback(result, id) => GetCallbackStep(s, result, id)
  }

  /** Each event of the sequence is admissible in the state it meets. */
  predicate AdmissibleRun(s: RegistryState, events: seq<Event>)
    requires Inv(s)
    decreases |events|
  {
    events == [] || (Admissible(s, events[0]) && AdmissibleRun(Step(s, events[0]), events[1..]))
  }

  /** The registry after a sequence of events; the invariant holds all along. */
  function Run(s: RegistryState, events: seq<Event>): (t: RegistryState)
    requires Inv(s) && AdmissibleRun(s, events)
    ensures Inv(t)
    decreases |events|
  {
    if events == [] then s else Run(Step(s, events[0]), events[1..])
  }

  /** Whether an event invokes a callback: a delivered call, or a late callback. */
  predicate InvokesCallback(e: Event)
  {
    match e
    case SetCall(delivered, _) => delivered.Some?
    case GetCall(delivered, _) => delivered.Some?
    case LateSetCallback(_, _) => true
    case LateGetCallback(_, _) => true
  }

  /** The number of callback invocations among the events. */
  function CallbackCount(events: seq<Event>): nat
  {
    if events == [] then 0
    else (if InvokesCallback(events[0]) then 1 else 0) + CallbackCount(events[1..])
  }

  /** `free_response` is called exactly once per callback invocation, on every path. */
  lemma {:induction false} FreedOncePerCallback(s: RegistryState, events: seq<Event>)
    requires Inv(s) && AdmissibleRun(s, events)
    ensures Run(s, events).frees == s.frees + CallbackCount(events)
    decreases |events|
  {
    if events != [] {
      var t := Step(s, events[0]);
      assert t.frees == s.frees + (if InvokesCallback(events[0]) then 1 else 0);
      FreedOncePerCallback(t, events[1..]);
    }
  }

  /** Whether an event is a call, which takes an id from the counter. */
  predicate IsCall(e: Event)
  {
    e.SetCall? || e.GetCall?
  }

  /** The ids the calls among the events take, in order. */
  function IssuedIds(s: RegistryState, events: seq<Event>): seq<u64>
    requires Inv(s) && AdmissibleRun(s, events)
    decreases |events|
  {
    if events == [] then []
    else
      var t := Step(s, events[0]);
      (if IsCall(events[0]) then [t.nextId] else []) + IssuedIds(t, events[1..])
  }

  /** The number of calls among the events. */
  function CallCount(events: seq<Event>): nat
  {
    if events == [] then 0 else (if IsCall(events[0]) then 1 else 0) + CallCount(events[1..])
  }

  /** The ids `n` successive increments of a counter at `start` produce. */
  function Allocations(start: u64, n: nat): (ids: seq<u64>)
    ensures |ids| == n
    decreases n
  {
    if n == 0 then [] else [NextId(start)] + Allocations(NextId(start), n - 1)
  }

  /** Before the counter wraps, the `k`-th allocation is `start + k + 1`. */
  lemma {:induction false} AllocationAt(start: u64, n: nat, k: nat)
    requires start + n < U64_MODULUS
    requires k < n
    ensures Allocations(start, n)[k] == start + k + 1
    decreases n
  {
    if k > 0 {
      AllocationAt(NextId(start), n - 1, k - 1);
    }
  }

  /** A call advances the counter by one; a late callback leaves it alone. */
  lemma StepNextId(s: RegistryState, e: Event)
    requires Inv(s) && Admissible(s, e)
    ensures Step(s, e).nextId == if IsCall(e) then NextId(s.nextId) else s.nextId
  {
  }

  /** The calls of a run take exactly the ids the counter hands out, in order. */
  lemma {:induction false} IssuedIdsAreAllocations(s: RegistryState, events: seq<Event>)
    requires Inv(s) && AdmissibleRun(s, events)
    ensures IssuedIds(s, events) == Allocations(s.nextId, CallCount(events))
    decreases |events|
  {
    if events != [] {
      var t := Step(s, events[0]);
      StepNextId(s, events[0]);
      IssuedIdsAreAllocations(t, events[1..]);
    }
  }

  /**
   * As long as the counter does not wrap, the calls of a run get strictly
   * increasing, hence distinct, ids, all above the counter's starting value.
   */
  lemma IssuedIdsIncrease(s: RegistryState, events: seq<Event>)
    requires Inv(s) && AdmissibleRun(s, events)
    requires s.nextId + CallCount(events) < U64_MODULUS
    ensures var ids := IssuedIds(s, events);
      && |ids| == CallCount(events)
      && (forall i :: 0 <= i < |ids| ==> s.nextId < ids[i])
      && (forall i, j :: 0 <= i < j < |ids| ==> ids[i] < ids[j])
  {
    IssuedIdsAreAllocations(s, events);
    var n := CallCount(events);
    forall i | 0 <= i < n
      ensures Allocations(s.nextId, n)[i] == s.nextId + i + 1
    {
      AllocationAt(s.nextId, n, i);
    }
  }

  /**
   * The counter's last value wraps to zero, so the call after the wrap
   * reissues id 1, the id the very first call took.
   */
  lemma CounterWraps()
    ensures Allocations(U64_MODULUS - 1, 2) == [0, 1]
    ensures Allocations(0, 1) == [1]
  {
  }

  /**
   * The Go program's registry: `nextID`, `setContexts` and `getContexts`,
   * the channels the callers wait on, and (as a ghost counter) how many
   * times `free_response` has been called.
   */
  class Registry {
    var nextId: u64
    var setContexts: map<u64, Chan>
    var getContexts: map<u64, Chan>
    var setChannels: seq<Option<SetResponse>>
    var getChannels: seq<Option<GetResponse>>
    ghost var frees: nat

    ghost function State(): RegistryState
      reads this
    {
      RegistryState(nextId, setContexts, getContexts, setChannels, getChannels, frees)
    }

    ghost predicate Valid()
      reads this
    {
      Inv(State())
    }

    constructor ()
      ensures State() == Initial() && Valid()
    {
      nextId := 0;
      setContexts := map[];
      getContexts := map[];
      setChannels := [];
      getChannels := [];
      frees := 0;
    }

    /** `atomic.AddUint64(&nextID, 1)`: the new counter value is the id. */
    method AllocateId() returns (id: u64)
      modifies this`nextId
      ensures id == NextId(old(nextId)) && nextId == id
    {
      nextId := NextId(nextId);
      id := nextId;
    }

    /** `setCallback(result, userData)`. */
    method SetCallback(result: ProtosocketResult, id: u64)
      requires Valid()
      modifies this
      ensures State() == SetCallbackStep(old(State()), result, id)
      ensures Valid()
    {
      if id in setContexts {
        var ch := setContexts[id];
        setContexts := setContexts - {id};
        var response := DecodeSet(result);
        setChannels := setChannels[ch := Some(response)];
      }
      frees := frees + 1;
    }

    /** `getCallback(result, userData)`. */
    method GetCallback(result: ProtosocketResult, id: u64)
      requires Valid()
      requires id in getContexts ==> Decodable(result)
      modifies this
      ensures State() == GetCallbackStep(old(State()), result, id)
      ensures Valid()
    {
      if id in getContexts {
        var ch := getContexts[id];
        getContexts := getContexts - {id};
        var response := DecodeGet(result);
        getChannels := getChannels[ch := Some(response)];
      }
      frees := frees + 1;
    }

    /** The steps common to both set callers; `wait` is how the caller waits. */
    method SetCall(delivered: Option<ProtosocketResult>, wait: Wait) returns (outcome: CallOutcome<SetReport>)
      requires Valid()
      modifies this
      ensures var c := SetCallSpec(old(State()), delivered, wait);
        State() == c.state && outcome == c.outcome
      ensures Valid()
    {
      var ch := |setChannels|;
      setChannels := setChannels + [None];
      var id := AllocateId();
      setContexts := setContexts[id := ch];
      match delivered {
        case Some(result) =>
          SetCallback(result, id);
          var response := setChannels[ch].value;
          setChannels := setChannels[ch := None];
          outcome := Received(ClassifySet(response));
        case None =>
          if wait == Timeout {
            getContexts := getContexts - {id};
            outcome := TimedOut;
          } else {
            outcome := Blocked;
          }
      }
    }

    /** The steps common to both get callers. */
    method GetCall(delivered: Option<ProtosocketResult>, wait: Wait) returns (outcome: CallOutcome<GetReport>)
      requires Valid()
      requires delivered.Some? ==> Decodable(delivered.value)
      modifies this
      ensures var c := GetCallSpec(old(State()), delivered, wait);
        State() == c.state && outcome == c.outcome
      ensures Valid()
    {
      var ch := |getChannels|;
      getChannels := getChannels + [None];
      var id := AllocateId();
      getContexts := getContexts[id := ch];
      match delivered {
        case Some(result) =>
          GetCallback(result, id);
          var response := getChannels[ch].value;
          getChannels := getChannels[ch := None];
          outcome := Received(ClassifyGet(response));
        case None =>
          if wait == Timeout {
            getContexts := getContexts - {id};
            outcome := TimedOut;
          } else {
            outcome := Blocked;
          }
      }
    }

    /** `makeSetCallWithCallback`: waits for the response with no deadline. */
    method MakeSetCallWithCallback(delivered: Option<ProtosocketResult>) returns (outcome: CallOutcome<SetReport>)
      requires Valid()
      modifies this
      ensures var c := SetCallSpec(old(State()), delivered, Forever);
        State() == c.state && outcome == c.outcome
      ensures Valid()
    {
      outcome := SetCall(delivered, Forever);
    }

    /** `makeGetCallWithCallback`: waits for the response with no deadline. */
    method MakeGetCallWithCallback(delivered: Option<ProtosocketResult>) returns (outcome: CallOutcome<GetReport>)
      requires Valid()
      requires delivered.Some? ==> Decodable(delivered.value)
      modifies this
      ensures var c := GetCallSpec(old(State()), delivered, Forever);
        State() == c.state && outcome == c.outcome
      ensures Valid()
    {
      outcome := GetCall(delivered, Forever);
    }

    /** `makeSetCall`: waits at most 30 seconds, then deletes the id from `getContexts`. */
    method MakeSetCall(delivered: Option<ProtosocketResult>) returns (outcome: CallOutcome<SetReport>)
      requires Valid()
      modifies this
      ensures var c := SetCallSpec(old(State()), delivered, Timeout);
        State() == c.state && outcome == c.outcome
      ensures Valid()
    {
      outcome := SetCall(delivered, Timeout);
    }

    /** `makeGetCall`: waits at most 30 seconds, then deletes its own id from `getContexts`. */
    method MakeGetCall(delivered: Option<ProtosocketResult>) returns (outcome: CallOutcome<GetReport>)
      requires Valid()
      requires delivered.Some? ==> Decodable(delivered.value)
      modifies this
      ensures var c := GetCallSpec(old(State()), delivered, Timeout);
        State() == c.state && outcome == c.outcome
      ensures Valid()
    {
      outcome := GetCall(delivered, Timeout);
    }
  }
}
