/**
 The flight group: any number of callers of one key, on any number of instances, each instance
 with its own singleflight group and either a local result cache or a shared Redis lock and
 result. Every load, lock, recheck, run, store and unlock is a separate step. An execution that
 uses Redis does so in its caller's context: from the deadline of that context on its commands
 are refused and its lock is released, while `fn` itself goes on.
 */
module Flight {
  import opened Wrappers

  type CallId = nat
  type Instance = nat

  /** Where a returned outcome came from: the call's own run of `fn`, a stored result, or the
      call it joined. */
  datatype Source = Ran | Reused(at: nat) | Shared(leader: CallId)

  /** How `fn` is being run. `Alone` is the fallback without Redis, and the local in-flight-only
      call; `Replay` holds the lock but must not store. */
  datatype Mode = Fresh | Replay | Local | Alone

  datatype Pc<+V> =
    | Checking
    | WantLock
    | Rechecking
    | Running(mode: Mode)
    | Storing(value: V, mode: Mode)
    | Leaving(outcome: Result<V, string>, source: Source, locked: bool)
    | Following(leader: CallId)
    | Returned(outcome: Result<V, string>, source: Source)

  /** `due` is the deadline of the caller's context. */
  datatype Call<+V> = Call(instance: Instance, inFlightOnly: bool, began: nat, due: nat, replay: bool, pc: Pc<V>)

  datatype Stored<+V> = Stored(value: V, at: nat)

  datatype GoodRun<+V> = GoodRun(instance: Instance, value: V)

  /** How each call's own run of `fn` ended, and what was stored at which step. */
  datatype Log<+V> = Log(outcomes: map<CallId, Result<V, string>>, kept: map<nat, V>)

  datatype State<V> = State(
    distributed: bool,
    timeout: nat,                           // what callers give their contexts
    now: nat,
    step: nat,
    result: Option<Stored<V>>,              // the result in Redis
    memory: map<Instance, Stored<V>>,       // the result cache of each instance
    lock: Option<CallId>,
    leader: map<Instance, CallId>,          // the singleflight group of each instance
    calls: map<CallId, Call<V>>,
    runs: seq<GoodRun<V>>,                  // history: the successful runs of `fn`
    log: Log<V>)                            // history

  datatype Event<V> =
    | Start(id: CallId, instance: Instance, inFlightOnly: bool)
    | Load(id: CallId)
    | Acquire(id: CallId)
    | Recheck(id: CallId)
    | Return(id: CallId, outcome: Result<V, string>)
    | Store(id: CallId)
    | Unlock(id: CallId)
    | Finish(id: CallId)
    | Receive(id: CallId)
    | LoadFails(id: CallId)
    | LockFails(id: CallId)
    | RecheckFails(id: CallId)
    | StoreFails(id: CallId)
    | Lapse(id: CallId)                     // the lock ends with the context
    | Tick(now: nat)
    | Expire
    | Forget(instance: Instance)

  function Init<V>(distributed: bool, timeout: nat, now: nat): State<V> {
    State(distributed, timeout, now, 0, None, map[], None, map[], map[], [], Log(map[], map[]))
  }

  /** Redis still takes commands from this call. Without Redis there is nothing to be late for. */
  predicate InTime<V>(s: State<V>, call: Call<V>) {
    !s.distributed || s.now < call.due
  }

  predicate Enabled<V>(s: State<V>, e: Event<V>) {
    match e
    case Start(id, instance, inFlightOnly) => id !in s.calls
    case Load(id) => id in s.calls && s.calls[id].pc.Checking? && InTime(s, s.calls[id])
    case Acquire(id) => id in s.calls && s.calls[id].pc.WantLock? && s.lock.None? && InTime(s, s.calls[id])
    case Recheck(id) => id in s.calls && s.calls[id].pc.Rechecking? && InTime(s, s.calls[id])
    case Return(id, outcome) => id in s.calls && s.calls[id].pc.Running?
    case Store(id) => id in s.calls && s.calls[id].pc.Storing? && InTime(s, s.calls[id])
    case Unlock(id) => id in s.calls && s.calls[id].pc.Leaving? && s.calls[id].pc.locked
    case Finish(id) => id in s.calls && s.calls[id].pc.Leaving? && !s.calls[id].pc.locked
    case Receive(id) =>
      && id in s.calls && s.calls[id].pc.Following?
      && s.calls[id].pc.leader in s.calls && s.calls[s.calls[id].pc.leader].pc.Returned?
    case LoadFails(id) => s.distributed && id in s.calls && s.calls[id].pc.Checking?
    case LockFails(id) => id in s.calls && s.calls[id].pc.WantLock?
    case RecheckFails(id) => id in s.calls && s.calls[id].pc.Rechecking?
    case StoreFails(id) => s.distributed && id in s.calls && s.calls[id].pc.Storing?
    case Lapse(id) => id in s.calls && s.lock == Some(id) && !InTime(s, s.calls[id])
    case Tick(now) => s.now <= now
    case Expire => true
    case Forget(instance) => true
  }

  function At<V>(s: State<V>, id: CallId, pc: Pc<V>): State<V>
    requires id in s.calls
  {
    s.(calls := s.calls[id := s.calls[id].(pc := pc)], step := s.step + 1)
  }

  /** `Do`: join the instance's call in flight for this key, or lead a new one. */
  function Started<V>(s: State<V>, id: CallId, instance: Instance, inFlightOnly: bool): State<V> {
    var pc :=
      if instance in s.leader then Following(s.leader[instance])
      else if !s.distributed && inFlightOnly then Running(Alone)
      else Checking;
    s.(calls := s.calls[id := Call(instance, inFlightOnly, s.step, s.now + s.timeout, false, pc)],
       leader := if instance in s.leader then s.leader else s.leader[instance := id],
       step := s.step + 1)
  }

  function Loaded<V>(s: State<V>, id: CallId): State<V>
    requires Enabled(s, Load(id))
  {
    var call := s.calls[id];
    if !s.distributed then
      if call.instance in s.memory
      then At(s, id, Leaving(Success(s.memory[call.instance].value), Reused(s.memory[call.instance].at), false))
      else At(s, id, Running(Local))
    else if s.result.Some? && !call.inFlightOnly then
      At(s, id, Leaving(Success(s.result.value.value), Reused(s.result.value.at), false))
    else
      s.(calls := s.calls[id := call.(pc := WantLock, replay := s.result.Some?)], step := s.step + 1)
  }

  function Acquired<V>(s: State<V>, id: CallId): State<V>
    requires Enabled(s, Acquire(id))
  {
    At(s.(lock := Some(id)), id, if s.calls[id].replay then Running(Replay) else Rechecking)
  }

  function Rechecked<V>(s: State<V>, id: CallId): State<V>
    requires Enabled(s, Recheck(id))
  {
    if s.result.Some?
    then At(s, id, Leaving(Success(s.result.value.value), Reused(s.result.value.at), true))
    else At(s, id, Running(Fresh))
  }

  function Ended<V>(s: State<V>, id: CallId, outcome: Result<V, string>): State<V>
    requires Enabled(s, Return(id, outcome))
  {
    var mode := s.calls[id].pc.mode;
    var locked := mode.Fresh? || mode.Replay?;
    var recorded := s.(log := s.log.(outcomes := s.log.outcomes[id := outcome]));
    if outcome.Failure? then At(recorded, id, Leaving(outcome, Ran, locked))
    else
      At(recorded.(runs := s.runs + [GoodRun(s.calls[id].instance, outcome.value)]), id,
         if mode.Fresh? || mode.Local? then Storing(outcome.value, mode) else Leaving(outcome, Ran, locked))
  }

  function Kept<V>(s: State<V>, id: CallId): State<V>
    requires Enabled(s, Store(id))
  {
    var Storing(value, mode) := s.calls[id].pc;
    var stored := Stored(value, s.step + 1);
    var recorded := s.(log := s.log.(kept := s.log.kept[s.step + 1 := value]));
    if mode.Local?
    then At(recorded.(memory := s.memory[s.calls[id].instance := stored]), id, Leaving(Success(value), Ran, false))
    else At(recorded.(result := Some(stored)), id, Leaving(Success(value), Ran, true))
  }

  /** The deferred unlock; it releases no lock but the call's own. */
  function Unlocked<V>(s: State<V>, id: CallId): State<V>
    requires Enabled(s, Unlock(id))
  {
    At(s.(lock := if s.lock == Some(id) then None else s.lock), id, s.calls[id].pc.(locked := false))
  }

  /** The end of the singleflight call; until then callers may still join it. */
  function Finished<V>(s: State<V>, id: CallId): State<V>
    requires Enabled(s, Finish(id))
  {
    At(s.(leader := s.leader - {s.calls[id].instance}), id, Returned(s.calls[id].pc.outcome, s.calls[id].pc.source))
  }

  function Apply<V>(s: State<V>, e: Event<V>): State<V>
    requires Enabled(s, e)
  {
    match e
    case Start(id, instance, inFlightOnly) => Started(s, id, instance, inFlightOnly)
    case Load(id) => Loaded(s, id)
    case Acquire(id) => Acquired(s, id)
    case Recheck(id) => Rechecked(s, id)
    case Return(id, outcome) => Ended(s, id, outcome)
    case Store(id) => Kept(s, id)
    case Unlock(id) => Unlocked(s, id)
    case Finish(id) => Finished(s, id)
    case Receive(id) => At(s, id, Returned(s.calls[s.calls[id].pc.leader].pc.outcome, Shared(s.calls[id].pc.leader)))
    case LoadFails(id) => At(s, id, Running(Alone))
    case LockFails(id) => At(s, id, Running(Alone))
    case RecheckFails(id) => At(s, id, Running(Fresh))
    case StoreFails(id) => At(s, id, Leaving(Success(s.calls[id].pc.value), Ran, true))
    case Lapse(id) => s.(lock := None, step := s.step + 1)
    case Tick(now) => s.(now := now, step := s.step + 1)
    case Expire => s.(result := None, step := s.step + 1)
    case Forget(instance) => s.(memory := s.memory - {instance}, step := s.step + 1)
  }

  predicate Fails<V>(e: Event<V>) {
    e.LoadFails? || e.LockFails? || e.RecheckFails? || e.StoreFails?
  }

  /** Redis answers: nothing fails but by the deadline. */
  predicate Healthy<V>(s: State<V>, e: Event<V>) {
    Fails(e) ==> e.id in s.calls && !InTime(s, s.calls[e.id])
  }

  predicate Executing<V>(pc: Pc<V>) {
    !pc.Following? && !pc.Returned?
  }

  /** No execution that uses Redis has outlasted its context. */
  ghost predicate Timely<V>(s: State<V>) {
    forall id :: id in s.calls && Executing(s.calls[id].pc) ==> InTime(s, s.calls[id])
  }

  /** Stored results do not run out, and every caller is an ordinary one. */
  predicate OrdinaryWindow<V>(e: Event<V>) {
    !e.Expire? && !e.Forget? && (e.Start? ==> !e.inFlightOnly)
  }

  ghost predicate HealthyNext<V(!new)>(s: State<V>, t: State<V>) {
    exists e :: Enabled(s, e) && Healthy(s, e) && t == Apply(s, e)
  }

  ghost predicate OrdinaryNext<V(!new)>(s: State<V>, t: State<V>) {
    exists e :: Enabled(s, e) && Healthy(s, e) && OrdinaryWindow(e) && t == Apply(s, e) && Timely(t)
  }

  ghost predicate HealthyAt<V(!new)>(b: seq<State<V>>, i: int)
    requires 0 <= i < |b| - 1
  {
    HealthyNext(b[i], b[i + 1])
  }

  ghost predicate OrdinaryAt<V(!new)>(b: seq<State<V>>, i: int)
    requires 0 <= i < |b| - 1
  {
    OrdinaryNext(b[i], b[i + 1])
  }

  /** Every run in which Redis answers, whatever the deadlines do. */
  ghost predicate HealthyRun<V(!new)>(b: seq<State<V>>) {
    && |b| > 0 && b[0] == Init(b[0].distributed, b[0].timeout, b[0].now)
    && forall i :: 0 <= i < |b| - 1 ==> HealthyAt(b, i)
  }

  /** The runs of ordinary calls in the window, their executions in time. */
  ghost predicate OrdinaryRun<V(!new)>(b: seq<State<V>>) {
    && |b| > 0 && b[0] == Init(b[0].distributed, b[0].timeout, b[0].now)
    && forall i :: 0 <= i < |b| - 1 ==> OrdinaryAt(b, i)
  }
}
