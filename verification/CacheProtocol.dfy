/**
 `CachedDB` under concurrency: any number of lookups, updates and deletes, on any number of
 server instances, each a few separate steps over one cache and one table, interleaved with
 the passing of time and with rows that vanish behind the cache's back.

 `cache` keeps every entry ever written; an entry is visible only while `now` is within its
 lifetime. `step`, `need`, `floor`, `Entry.began` and the `seen` fields are history: they
 record what happened and never decide what happens next.
 */
module CacheProtocol {
  import opened Wrappers
  import opened Secrets
  import opened Devices

  type OpId = nat

  /** A cached secret, when it was written, when the writing operation began, and the step
      at which the row held exactly this value and generation. */
  datatype Entry = Entry(secret: Secret, at: nat, began: nat, seen: nat)

  datatype Task =
    | Lookup(instance: nat, device: DeviceId)
    | Update(device: DeviceId)
    | Delete(user: Email, device: DeviceId)
    | DeleteAll(user: Email)

  datatype Answer =
    | Found(secret: Secret, seen: nat)
    | NotFound
    | Updated(generation: int, cached: bool)
    | UpdateFailed
    | Removed

  datatype Pc =
    | Start
    | Missed                                                // lookup: the cache had nothing
    | Leading                                               // lookup: runs the shared load
    | Joined(leader: OpId)                                  // lookup: waits for another's load
    | Bumped(generation: int, seen: nat)                    // update: the row was incremented
    | NeedRow(generation: int)                              // update: the cache had nothing
    | Carrying(secret: Secret, seen: nat, answer: Answer, stored: bool)   // has a value for the cache
    | Empty                                                 // lookup: the shared load found no row
    | Burying(ids: set<DeviceId>)                           // rows are gone, tombstones are due
    | Done(answer: Answer)

  datatype Op = Op(task: Task, began: nat, need: int, pc: Pc)

  datatype State = State(
    now: nat, step: nat,
    rows: Rows, cache: map<DeviceId, Entry>, ops: map<OpId, Op>,
    used: set<DeviceId>, floor: map<DeviceId, int>)

  datatype Event =
    | Save(device: DeviceId, row: Row)
    | Begin(id: OpId, task: Task)
    | ReadCache(id: OpId)
    | Lead(id: OpId)
    | Join(id: OpId, leader: OpId)
    | Receive(id: OpId)
    | ReadRow(id: OpId)
    | Increment(id: OpId)
    | RemoveRows(id: OpId)
    | WriteCache(id: OpId)
    | Finish(id: OpId)                 // the shared load is over
    | Bury(id: OpId, device: DeviceId)
    | Vanish(device: DeviceId)         // the cleanup worker, or a user removed with its rows
    | Rename(from: Email, to: Email)   // a changed email cascades to the rows
    | Tick(now: nat)

  predicate OnDevice(op: Op, device: DeviceId) {
    (op.task.Lookup? || op.task.Update?) && op.task.device == device
  }

  predicate InFlight(op: Op) {
    !op.pc.Done?
  }

  /** The entry the cache still serves for a device; an expired one is gone. */
  function Live(s: State, device: DeviceId): Option<Secret> {
    if device in s.cache && s.now < s.cache[device].at + Lifetime(s.cache[device].secret)
    then Some(s.cache[device].secret)
    else None
  }

  /** The latest generation whose update has finished; a saved device starts at 1. */
  function Floor(s: State, device: DeviceId): int {
    if device in s.floor then s.floor[device] else INITIAL_GENERATION
  }

  predicate Leads(op: Op, instance: nat, device: DeviceId) {
    op.task == Lookup(instance, device) && (op.pc.Leading? || op.pc.Carrying? || op.pc.Empty?)
  }

  function Doomed(s: State, task: Task): set<DeviceId>
    requires task.Delete? || task.DeleteAll?
  {
    set d | d in s.rows && s.rows[d].owner == task.user && (task.Delete? ==> d == task.device)
  }

  predicate Enabled(s: State, e: Event) {
    match e
    case Save(device, row) =>
      device !in s.used && row.secret != "" && row.generation == INITIAL_GENERATION
    case Begin(id, task) => id !in s.ops
    case ReadCache(id) =>
      id in s.ops && (
        || (s.ops[id].task.Lookup? && s.ops[id].pc.Start?)
        || (s.ops[id].task.Update? && s.ops[id].pc.Bumped?))
    case Lead(id) =>
      && id in s.ops && s.ops[id].task.Lookup? && s.ops[id].pc.Missed?
      && forall other :: other in s.ops ==>
        !Leads(s.ops[other], s.ops[id].task.instance, s.ops[id].task.device)
    case Join(id, leader) =>
      && id in s.ops && s.ops[id].task.Lookup? && s.ops[id].pc.Missed?
      && leader in s.ops && Leads(s.ops[leader], s.ops[id].task.instance, s.ops[id].task.device)
    case Receive(id) =>
      && id in s.ops && s.ops[id].pc.Joined?
      && s.ops[id].pc.leader in s.ops && s.ops[s.ops[id].pc.leader].pc.Done?
    case ReadRow(id) =>
      id in s.ops && (
        || (s.ops[id].task.Lookup? && s.ops[id].pc.Leading?)
        || (s.ops[id].task.Update? && s.ops[id].pc.NeedRow?))
    case Increment(id) => id in s.ops && s.ops[id].task.Update? && s.ops[id].pc.Start?
    case RemoveRows(id) =>
      id in s.ops && (s.ops[id].task.Delete? || s.ops[id].task.DeleteAll?) && s.ops[id].pc.Start?
    case WriteCache(id) =>
      && id in s.ops && (s.ops[id].task.Lookup? || s.ops[id].task.Update?)
      && s.ops[id].pc.Carrying? && !s.ops[id].pc.stored
    case Finish(id) =>
      && id in s.ops && s.ops[id].task.Lookup?
      && (s.ops[id].pc.Empty? || (s.ops[id].pc.Carrying? && s.ops[id].pc.stored))
    case Bury(id, device) => id in s.ops && s.ops[id].pc.Burying? && device in s.ops[id].pc.ids
    case Vanish(device) => true
    case Rename(from, to) => true
    case Tick(now) => s.now <= now
  }

  function At(s: State, id: OpId, pc: Pc): State
    requires id in s.ops
  {
    s.(ops := s.ops[id := s.ops[id].(pc := pc)], step := s.step + 1)
  }

  function Named(task: Task): set<DeviceId> {
    if task.DeleteAll? then {} else {task.device}
  }

  function Begun(s: State, id: OpId, task: Task): State {
    s.(ops := s.ops[id := Op(task, s.now, if task.Lookup? then Floor(s, task.device) else 0, Start)],
       used := s.used + Named(task),
       step := s.step + 1)
  }

  function CacheRead(s: State, id: OpId): State
    requires Enabled(s, ReadCache(id))
  {
    var op := s.ops[id];
    var hit := Hit(Live(s, op.task.device));
    if op.task.Lookup? then
      if hit.None? then At(s, id, Missed)
      else At(s, id, Done(Found(hit.value, s.cache[op.task.device].seen)))
    else if hit.None? then
      At(s, id, NeedRow(op.pc.generation))
    else
      var newer := hit.value.generation > op.pc.generation;
      At(s, id, Carrying(
        if newer then hit.value else Secret(hit.value.value, op.pc.generation),
        if newer then s.cache[op.task.device].seen else op.pc.seen,
        Updated(op.pc.generation, true), false))
  }

  function RowRead(s: State, id: OpId): State
    requires Enabled(s, ReadRow(id))
  {
    var op := s.ops[id];
    var d := op.task.device;
    if op.task.Lookup? then
      if d !in s.rows then At(s, id, Empty)
      else
        var secret := Secret(s.rows[d].secret, s.rows[d].generation);
        At(s, id, Carrying(secret, s.step, Found(secret, s.step), false))
    else if d !in s.rows then
      At(s, id, Done(Updated(op.pc.generation, false)))
    else
      var current := s.rows[d].generation;
      At(s, id, Carrying(
        Secret(s.rows[d].secret, if current >= op.pc.generation then current else op.pc.generation),
        s.step,
        Updated(op.pc.generation, true), false))
  }

  function RowBumped(s: State, d: DeviceId): State
    requires d in s.rows
  {
    s.(rows := s.rows[d := s.rows[d].(generation := s.rows[d].generation + 1)])
  }

  function Incremented(s: State, id: OpId): State
    requires Enabled(s, Increment(id))
  {
    var d := s.ops[id].task.device;
    if d !in s.rows then At(s, id, Done(UpdateFailed))
    else At(RowBumped(s, d), id, Bumped(s.rows[d].generation + 1, s.step + 1))
  }

  /** `SetSecret`: the offered value replaces the live entry only if it is newer. */
  function Offered(s: State, id: OpId): State
    requires Enabled(s, WriteCache(id))
  {
    var op := s.ops[id];
    var d := op.task.device;
    var kept := Live(s, d).Some? && Newer(Live(s, d), op.pc.secret) == Live(s, d).value;
    var finished := op.pc.answer.Updated? && Floor(s, d) <= op.pc.answer.generation;
    s.(cache := if kept then s.cache else s.cache[d := Entry(op.pc.secret, s.now, op.began, op.pc.seen)],
       floor := if finished then s.floor[d := op.pc.answer.generation] else s.floor)
  }

  /** An update is done then; a shared load can still be joined until it ends. */
  function CacheWritten(s: State, id: OpId): State
    requires Enabled(s, WriteCache(id))
  {
    At(Offered(s, id), id,
       if s.ops[id].task.Update? then Done(s.ops[id].pc.answer) else s.ops[id].pc.(stored := true))
  }

  function LoadOver(s: State, id: OpId): State
    requires Enabled(s, Finish(id))
  {
    At(s, id, Done(if s.ops[id].pc.Empty? then NotFound else s.ops[id].pc.answer))
  }

  function Entombed(s: State, device: DeviceId, began: nat): State {
    s.(cache := s.cache[device := Entry(TOMBSTONE, s.now, began, s.step)])
  }

  function Buried(s: State, id: OpId, device: DeviceId): State
    requires Enabled(s, Bury(id, device))
  {
    var rest := s.ops[id].pc.ids - {device};
    At(Entombed(s, device, s.ops[id].began), id, if rest == {} then Done(Removed) else Burying(rest))
  }

  function Without(s: State, ids: set<DeviceId>): State {
    s.(rows := s.rows - ids)
  }

  function RowsRemoved(s: State, id: OpId): State
    requires Enabled(s, RemoveRows(id))
  {
    var task := s.ops[id].task;
    var ids := if task.Delete? then {task.device} else Doomed(s, task);
    At(Without(s, Doomed(s, task)), id, if ids == {} then Done(Removed) else Burying(ids))
  }

  function Apply(s: State, e: Event): State
    requires Enabled(s, e)
  {
    match e
    case Save(device, row) =>
      s.(rows := s.rows[device := row], used := s.used + {device}, step := s.step + 1)
    case Begin(id, task) => Begun(s, id, task)
    case ReadCache(id) => CacheRead(s, id)
    case Lead(id) => At(s, id, Leading)
    case Join(id, leader) => At(s, id, Joined(leader))
    case Receive(id) => At(s, id, s.ops[s.ops[id].pc.leader].pc)
    case ReadRow(id) => RowRead(s, id)
    case Increment(id) => Incremented(s, id)
    case RemoveRows(id) => RowsRemoved(s, id)
    case WriteCache(id) => CacheWritten(s, id)
    case Finish(id) => LoadOver(s, id)
    case Bury(id, device) => Buried(s, id, device)
    case Vanish(device) => s.(rows := s.rows - {device}, step := s.step + 1)
    case Rename(from, to) => s.(rows := Renamed(s.rows, from, to), step := s.step + 1)
    case Tick(now) => s.(now := now, step := s.step + 1)
  }

  const INIT := State(0, 0, map[], map[], map[], {}, map[])

  ghost predicate Next(s: State, t: State) {
    exists e :: Enabled(s, e) && t == Apply(s, e)
  }

  ghost predicate StepAt(b: seq<State>, i: int)
    requires 0 <= i < |b| - 1
  {
    Next(b[i], b[i + 1])
  }

  /** Every state sequence the server can go through. */
  ghost predicate Run(b: seq<State>) {
    |b| > 0 && b[0] == INIT && forall i :: 0 <= i < |b| - 1 ==> StepAt(b, i)
  }

  /** No operation runs for as long as a live entry lives. */
  ghost predicate Prompt(s: State, e: Event) {
    e.Tick? ==> forall id :: id in s.ops && InFlight(s.ops[id]) ==> e.now < s.ops[id].began + SECRET_TTL
  }

  /** A delete names the owner of the device, if the device still exists. */
  ghost predicate Owned(s: State, e: Event) {
    e.RemoveRows? && e.id in s.ops && s.ops[e.id].task.Delete? && s.ops[e.id].task.device in s.rows ==>
      s.rows[s.ops[e.id].task.device].owner == s.ops[e.id].task.user
  }

  ghost predicate OrderlyNext(s: State, t: State) {
    exists e :: Enabled(s, e) && Prompt(s, e) && Owned(s, e) && t == Apply(s, e)
  }

  ghost predicate OrderlyStepAt(b: seq<State>, i: int)
    requires 0 <= i < |b| - 1
  {
    OrderlyNext(b[i], b[i + 1])
  }

  /** The runs in which operations are prompt and deletes name the owner. */
  ghost predicate OrderlyRun(b: seq<State>) {
    |b| > 0 && b[0] == INIT && forall i :: 0 <= i < |b| - 1 ==> OrderlyStepAt(b, i)
  }
}
