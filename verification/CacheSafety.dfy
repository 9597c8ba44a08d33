/**
 What the cache keeps true in every orderly run: finished updates are never forgotten
 and the newest token is never taken for a reused one.
 */
module CacheSafety {
  import opened Wrappers
  import opened Secrets
  import opened Devices
  import opened CacheProtocol

  /** A value in hand agrees with the row, as far as the row still exists. */
  ghost predicate Agrees(s: State, d: DeviceId, secret: Secret) {
    && secret.value != ""
    && secret.generation >= INITIAL_GENERATION
    && (d in s.rows ==> secret.value == s.rows[d].secret && secret.generation <= s.rows[d].generation)
  }

  ghost predicate RowsOk(s: State) {
    forall d :: d in s.rows ==>
      d in s.used && s.rows[d].secret != "" && s.rows[d].generation >= INITIAL_GENERATION
  }

  ghost predicate EntryOk(s: State, d: DeviceId)
    requires d in s.cache
  {
    && d in s.used
    && s.cache[d].at <= s.now
    && (if s.cache[d].secret.Deleted() then d !in s.rows else Agrees(s, d, s.cache[d].secret))
  }

  ghost predicate CacheOk(s: State) {
    forall d :: d in s.cache ==> EntryOk(s, d)
  }

  ghost predicate AnswerOk(s: State, op: Op, answer: Answer) {
    match answer
    case Found(secret, _) =>
      && op.task.Lookup?
      && Agrees(s, op.task.device, secret)
      && (op.task.device in s.rows ==> op.need <= secret.generation)
    case NotFound => op.task.Lookup? && op.task.device !in s.rows
    case Updated(g, cached) =>
      && op.task.Update?
      && (op.task.device in s.rows ==> g <= s.rows[op.task.device].generation)
      && (if cached then op.task.device in s.floor && g <= s.floor[op.task.device] else op.task.device !in s.rows)
    case UpdateFailed => op.task.Update?
    case Removed => op.task.Delete? || op.task.DeleteAll?
  }

  /** What each program counter promises about one operation on its own. */
  ghost predicate OpOk(s: State, op: Op) {
    && op.began <= s.now
    && (InFlight(op) ==> s.now < op.began + SECRET_TTL)
    && Named(op.task) <= s.used
    && (op.task.Lookup? ==> op.need <= Floor(s, op.task.device))
    && match op.pc
       case Start => true
       case Missed => op.task.Lookup?
       case Leading => op.task.Lookup?
       case Joined(leader) => op.task.Lookup?
       case Bumped(g, _) =>
         && op.task.Update? && g >= INITIAL_GENERATION
         && (op.task.device in s.rows ==> g <= s.rows[op.task.device].generation)
       case NeedRow(g) =>
         && op.task.Update? && g >= INITIAL_GENERATION
         && (op.task.device in s.rows ==> g <= s.rows[op.task.device].generation)
       case Empty => op.task.Lookup? && op.task.device !in s.rows
       case Carrying(secret, _, answer, stored) =>
         && (op.task.Lookup? || op.task.Update?)
         && Agrees(s, op.task.device, secret)
         && (if op.task.Lookup? then answer.Found? && answer.secret == secret && op.need <= secret.generation
             else answer.Updated? && answer.cached && INITIAL_GENERATION <= answer.generation <= secret.generation)
       case Burying(ids) => (op.task.Delete? || op.task.DeleteAll?) && ids <= s.used && ids !! s.rows.Keys
       case Done(answer) => AnswerOk(s, op, answer)
  }

  ghost predicate OpsOk(s: State) {
    forall id :: id in s.ops ==> OpOk(s, s.ops[id])
  }

  /** An operation carrying less than the entry has must have begun before the entry was
      written, so it cannot outlive it. */
  ghost predicate Outlived(op: Op, e: Entry)
    requires op.pc.Carrying?
  {
    e.secret.Deleted() || op.pc.secret.generation < e.secret.generation ==> op.began <= e.at
  }

  ghost predicate Guarded(s: State) {
    forall id, d :: id in s.ops && d in s.cache && OnDevice(s.ops[id], d) && s.ops[id].pc.Carrying? ==>
      Outlived(s.ops[id], s.cache[d])
  }

  ghost predicate Covers(e: Entry, g: int) {
    e.secret.Deleted() || e.secret.generation >= g
  }

  ghost predicate FloorOk(s: State) {
    forall d :: d in s.floor ==> d in s.cache && Covers(s.cache[d], s.floor[d]) && s.floor[d] >= INITIAL_GENERATION
  }

  /** What a waiting lookup may be handed: nothing older than what was finished when it began. */
  ghost predicate Serves(s: State, need: int, d: DeviceId, other: Op) {
    d in s.rows && OnDevice(other, d) ==>
      && (other.pc.Carrying? ==> need <= other.pc.secret.generation)
      && (other.pc.Done? && other.pc.answer.Found? ==> need <= other.pc.answer.secret.generation)
  }

  ghost predicate MissedOk(s: State) {
    forall id, other ::
      id in s.ops && other in s.ops && s.ops[id].task.Lookup? && s.ops[id].pc.Missed? && s.ops[other].pc.Carrying? ==>
        Serves(s, s.ops[id].need, s.ops[id].task.device, s.ops[other])
  }

  predicate HasLoad(op: Op) {
    op.pc.Leading? || op.pc.Carrying? || op.pc.Empty? || op.pc.Done?
  }

  ghost predicate JoinedOk(s: State) {
    forall id :: id in s.ops && s.ops[id].pc.Joined? ==>
      && s.ops[id].pc.leader in s.ops
      && HasLoad(s.ops[s.ops[id].pc.leader])
      && s.ops[id].task.Lookup?
      && s.ops[id].task == s.ops[s.ops[id].pc.leader].task
      && Serves(s, s.ops[id].need, s.ops[id].task.device, s.ops[s.ops[id].pc.leader])
  }

  ghost predicate Inv(s: State) {
    RowsOk(s) && CacheOk(s) && OpsOk(s) && Guarded(s) && FloorOk(s) && MissedOk(s) && JoinedOk(s)
  }

  // --- what no step can undo ---------------------------------------------------------------

  /** Time moves on, used names stay used, floors rise, and a row only ever counts up or goes. */
  ghost predicate Later(s: State, t: State) {
    && s.now <= t.now
    && s.used <= t.used
    && (forall d :: d in t.rows && d in s.used ==>
      d in s.rows && s.rows[d].secret == t.rows[d].secret && s.rows[d].generation <= t.rows[d].generation)
    && (forall d :: d in s.floor ==> d in t.floor && s.floor[d] <= t.floor[d])
  }

  ghost predicate PromptAt(s: State, now: nat) {
    forall id :: id in s.ops && InFlight(s.ops[id]) ==> now < s.ops[id].began + SECRET_TTL
  }

  lemma OpStays(s: State, t: State, op: Op)
    requires OpOk(s, op) && Later(s, t) && FloorOk(t)
    requires InFlight(op) ==> t.now < op.began + SECRET_TTL
    ensures OpOk(t, op)
  {
    if op.task.Lookup? {
      assert op.need <= Floor(t, op.task.device);
    }
  }

  lemma EntryStays(s: State, t: State, d: DeviceId)
    requires d in s.cache && EntryOk(s, d) && Later(s, t) && d in t.cache && t.cache[d] == s.cache[d]
    ensures EntryOk(t, d)
  {
  }

  lemma ServesStays(s: State, t: State, need: int, d: DeviceId, other: Op)
    requires Serves(s, need, d, other) && Later(s, t) && d in s.used
    ensures Serves(t, need, d, other)
  {
  }

  // --- three kinds of step -----------------------------------------------------------------

  lemma WaitersStay(s: State, t: State)
    requires OpsOk(s) && MissedOk(s) && JoinedOk(s) && Later(s, t) && t.ops == s.ops
    ensures MissedOk(t) && JoinedOk(t)
  {
    forall id, other |
      id in t.ops && other in t.ops && t.ops[id].task.Lookup? && t.ops[id].pc.Missed? && t.ops[other].pc.Carrying?
      ensures Serves(t, t.ops[id].need, t.ops[id].task.device, t.ops[other])
    {
      assert OpOk(s, s.ops[id]);
      ServesStays(s, t, t.ops[id].need, t.ops[id].task.device, t.ops[other]);
    }
    forall id | id in t.ops && t.ops[id].pc.Joined?
      ensures Serves(t, t.ops[id].need, t.ops[id].task.device, t.ops[t.ops[id].pc.leader])
    {
      assert OpOk(s, s.ops[id]);
      ServesStays(s, t, t.ops[id].need, t.ops[id].task.device, t.ops[t.ops[id].pc.leader]);
    }
  }

  /** Only rows or the clock change. */
  lemma WorldMoves(s: State, t: State)
    requires Inv(s) && Later(s, t) && RowsOk(t) && PromptAt(s, t.now)
    requires t.ops == s.ops && t.cache == s.cache && t.floor == s.floor
    ensures Inv(t)
  {
    forall d | d in t.cache ensures EntryOk(t, d) {
      EntryStays(s, t, d);
    }
    forall id | id in t.ops ensures OpOk(t, t.ops[id]) {
      OpStays(s, t, t.ops[id]);
    }
    WaitersStay(s, t);
  }

  /** What an operation owes the others when it reaches a new program counter. */
  ghost predicate FitsIn(s: State, id: OpId, op: Op) {
    && OpOk(s, op)
    && (op.pc.Carrying? ==> CarriesWell(s, id, op))
    && (op.pc.Missed? ==> forall other :: other in s.ops && other != id && s.ops[other].pc.Carrying? ==>
          Serves(s, op.need, op.task.device, s.ops[other]))
    && (op.pc.Done? ==> ServesJoiners(s, id, op))
    && (!HasLoad(op) ==> forall other :: other in s.ops && s.ops[other].pc.Joined? ==> s.ops[other].pc.leader != id)
    && (op.pc.Joined? ==>
          && op.pc.leader in s.ops && op.pc.leader != id && op.task == s.ops[op.pc.leader].task
          && HasLoad(s.ops[op.pc.leader])
          && Serves(s, op.need, op.task.device, s.ops[op.pc.leader]))
  }

  ghost predicate CarriesWell(s: State, id: OpId, op: Op)
    requires op.pc.Carrying?
  {
    && (forall d :: d in s.cache && OnDevice(op, d) ==> Outlived(op, s.cache[d]))
    && (forall other :: other in s.ops && s.ops[other].task.Lookup? && s.ops[other].pc.Missed? ==>
          Serves(s, s.ops[other].need, s.ops[other].task.device, op))
    && ServesJoiners(s, id, op)
  }

  ghost predicate ServesJoiners(s: State, id: OpId, op: Op) {
    forall other ::
      other in s.ops && s.ops[other].task.Lookup? && s.ops[other].pc.Joined? && s.ops[other].pc.leader == id ==>
        Serves(s, s.ops[other].need, s.ops[other].task.device, op)
  }

  function With(s: State, id: OpId, op: Op): State {
    s.(ops := s.ops[id := op], step := s.step + 1)
  }

  /** One operation moves to a new program counter, or begins. */
  lemma OpMoves(s: State, id: OpId, op: Op)
    requires Inv(s) && FitsIn(s, id, op)
    requires if id in s.ops then op.task == s.ops[id].task else op.pc.Start?
    ensures Inv(With(s, id, op))
  {
    var t := With(s, id, op);
    OpsMove(s, id, op);
    forall d | d in t.cache ensures EntryOk(t, d) {
      EntryStays(s, t, d);
    }
    MissedMoves(s, id, op);
    JoinedMoves(s, id, op);
  }

  lemma OpsMove(s: State, id: OpId, op: Op)
    requires OpsOk(s) && FloorOk(s) && OpOk(s, op)
    ensures OpsOk(With(s, id, op))
  {
    var t := With(s, id, op);
    forall o | o in t.ops ensures OpOk(t, t.ops[o]) {
      OpStays(s, t, t.ops[o]);
    }
  }

  lemma MissedMoves(s: State, id: OpId, op: Op)
    requires OpsOk(s) && MissedOk(s) && FitsIn(s, id, op)
    ensures MissedOk(With(s, id, op))
  {
    var t := With(s, id, op);
    forall o, other |
      o in t.ops && other in t.ops && t.ops[o].task.Lookup? && t.ops[o].pc.Missed? && t.ops[other].pc.Carrying?
      ensures Serves(t, t.ops[o].need, t.ops[o].task.device, t.ops[other])
    {
      assert Serves(s, t.ops[o].need, t.ops[o].task.device, t.ops[other]);
    }
  }

  lemma JoinedMoves(s: State, id: OpId, op: Op)
    requires OpsOk(s) && JoinedOk(s) && FitsIn(s, id, op)
    requires if id in s.ops then op.task == s.ops[id].task else op.pc.Start?
    ensures JoinedOk(With(s, id, op))
  {
    var t := With(s, id, op);
    forall o | o in t.ops && t.ops[o].pc.Joined?
      ensures t.ops[o].pc.leader in t.ops && HasLoad(t.ops[t.ops[o].pc.leader])
      ensures t.ops[o].task.Lookup? && t.ops[o].task == t.ops[t.ops[o].pc.leader].task
      ensures Serves(t, t.ops[o].need, t.ops[o].task.device, t.ops[t.ops[o].pc.leader])
    {
      assert Serves(s, t.ops[o].need, t.ops[o].task.device, t.ops[t.ops[o].pc.leader]);
    }
  }

  /** One cache entry is replaced. */
  lemma EntryMoves(s: State, t: State, d: DeviceId)
    requires Inv(s) && Later(s, t) && s.now == t.now && t.rows == s.rows && t.ops == s.ops
    requires d in t.cache && t.cache == s.cache[d := t.cache[d]] && t.cache[d].at == s.now
    requires EntryOk(t, d) && FloorOk(t)
    ensures Inv(t)
  {
    forall other | other in t.cache ensures EntryOk(t, other) {
      if other != d {
        EntryStays(s, t, other);
      }
    }
    forall o | o in t.ops ensures OpOk(t, t.ops[o]) {
      assert OpOk(s, s.ops[o]);
      OpStays(s, t, t.ops[o]);
    }
    WaitersStay(s, t);
  }

  // --- the steps themselves ----------------------------------------------------------------

  lemma SaveKeepsInv(s: State, device: DeviceId, row: Row)
    requires Inv(s) && Enabled(s, Save(device, row))
    ensures Inv(Apply(s, Save(device, row)))
  {
    AlreadyPrompt(s);
    WorldMoves(s, Apply(s, Save(device, row)));
  }

  lemma VanishKeepsInv(s: State, device: DeviceId)
    requires Inv(s)
    ensures Inv(Apply(s, Vanish(device)))
  {
    AlreadyPrompt(s);
    WorldMoves(s, Apply(s, Vanish(device)));
  }

  lemma RenameKeepsInv(s: State, from: Email, to: Email)
    requires Inv(s)
    ensures Inv(Apply(s, Rename(from, to)))
  {
    AlreadyPrompt(s);
    WorldMoves(s, Apply(s, Rename(from, to)));
  }

  lemma AlreadyPrompt(s: State)
    requires OpsOk(s)
    ensures PromptAt(s, s.now)
  {
    forall id | id in s.ops && InFlight(s.ops[id]) ensures s.now < s.ops[id].began + SECRET_TTL {
      assert OpOk(s, s.ops[id]);
    }
  }

  lemma TickKeepsInv(s: State, now: nat)
    requires Inv(s) && Enabled(s, Tick(now)) && Prompt(s, Tick(now))
    ensures Inv(Apply(s, Tick(now)))
  {
    WorldMoves(s, Apply(s, Tick(now)));
  }

  lemma BeginKeepsInv(s: State, id: OpId, task: Task)
    requires Inv(s) && Enabled(s, Begin(id, task))
    ensures Inv(Begun(s, id, task))
  {
    var mid := s.(used := s.used + Named(task));
    AlreadyPrompt(s);
    WorldMoves(s, mid);
    var op := Op(task, s.now, if task.Lookup? then Floor(s, task.device) else 0, Start);
    OpMoves(mid, id, op);
    assert With(mid, id, op) == Begun(s, id, task);
  }

  /** A lookup that misses finds nothing outdated in anyone's hands. */
  lemma MissMeansFresh(s: State, id: OpId, other: OpId)
    requires Inv(s) && id in s.ops && other in s.ops && s.ops[id].task.Lookup?
    requires OnDevice(s.ops[other], s.ops[id].task.device) && s.ops[other].pc.Carrying?
    requires s.ops[id].task.device in s.rows && Hit(Live(s, s.ops[id].task.device)).None?
    ensures s.ops[id].need <= s.ops[other].pc.secret.generation
  {
    var d := s.ops[id].task.device;
    assert OpOk(s, s.ops[id]) && OpOk(s, s.ops[other]);
    if d in s.floor {
      assert EntryOk(s, d);
      assert Outlived(s.ops[other], s.cache[d]);
    }
  }

  lemma MissKeepsInv(s: State, id: OpId)
    requires Inv(s) && id in s.ops && s.ops[id].task.Lookup? && s.ops[id].pc.Start?
    requires Hit(Live(s, s.ops[id].task.device)).None?
    ensures Inv(At(s, id, Missed))
  {
    var op := s.ops[id].(pc := Missed);
    var d := op.task.device;
    assert OpOk(s, s.ops[id]);
    forall other | other in s.ops && other != id && s.ops[other].pc.Carrying?
      ensures Serves(s, op.need, d, s.ops[other])
    {
      if d in s.rows && OnDevice(s.ops[other], d) {
        MissMeansFresh(s, id, other);
      }
    }
    OpMoves(s, id, op);
  }

  /** Whoever takes up a value at least as new as the entry and the floor serves everybody. */
  lemma CarryKeepsInv(s: State, id: OpId, secret: Secret, seen: nat, answer: Answer)
    requires Inv(s) && id in s.ops
    requires (s.ops[id].task.Lookup? && s.ops[id].pc.Leading?) || s.ops[id].task.Update?
    requires OpOk(s, s.ops[id].(pc := Carrying(secret, seen, answer, false)))
    requires var d := s.ops[id].task.device;
      d in s.cache ==> !s.cache[d].secret.Deleted() && s.cache[d].secret.generation <= secret.generation
    requires s.ops[id].task.device in s.rows ==> Floor(s, s.ops[id].task.device) <= secret.generation
    ensures Inv(At(s, id, Carrying(secret, seen, answer, false)))
  {
    var op := s.ops[id].(pc := Carrying(secret, seen, answer, false));
    forall other | other in s.ops && s.ops[other].task.Lookup?
      ensures Serves(s, s.ops[other].need, s.ops[other].task.device, op)
    {
      assert OpOk(s, s.ops[other]);
    }
    OpMoves(s, id, op);
  }

  lemma ReadCacheKeepsInv(s: State, id: OpId)
    requires Inv(s) && Enabled(s, ReadCache(id))
    ensures Inv(CacheRead(s, id))
  {
    var op := s.ops[id];
    var d := op.task.device;
    var hit := Hit(Live(s, d));
    assert OpOk(s, op);
    if hit.None? {
      if op.task.Lookup? {
        MissKeepsInv(s, id);
      } else {
        OpMoves(s, id, op.(pc := NeedRow(op.pc.generation)));
      }
    } else {
      assert EntryOk(s, d);
      if op.task.Lookup? {
        DoneKeepsInv(s, id, Found(hit.value, s.cache[d].seen));
      } else {
        var pc := CacheRead(s, id).ops[id].pc;
        CarryKeepsInv(s, id, pc.secret, pc.seen, pc.answer);
      }
    }
  }

  lemma ReadRowKeepsInv(s: State, id: OpId)
    requires Inv(s) && Enabled(s, ReadRow(id))
    ensures Inv(RowRead(s, id))
  {
    var op := s.ops[id];
    var d := op.task.device;
    var pc := RowRead(s, id).ops[id].pc;
    assert OpOk(s, op);
    if d in s.rows {
      assert d in s.cache ==> EntryOk(s, d);
      CarryKeepsInv(s, id, pc.secret, pc.seen, pc.answer);
    } else if op.task.Lookup? {
      OpMoves(s, id, op.(pc := Empty));
    } else {
      DoneKeepsInv(s, id, pc.answer);
    }
  }

  /** An operation may finish with any sound answer that no joiner is too young for. */
  lemma DoneKeepsInv(s: State, id: OpId, answer: Answer)
    requires Inv(s) && id in s.ops && AnswerOk(s, s.ops[id], answer)
    requires answer.Found? && s.ops[id].task.device in s.rows ==>
      (!HasLoad(s.ops[id]) || Floor(s, s.ops[id].task.device) <= answer.secret.generation
        || (s.ops[id].pc.Carrying? && s.ops[id].pc.secret == answer.secret))
    ensures Inv(At(s, id, Done(answer)))
  {
    var op := s.ops[id].(pc := Done(answer));
    assert OpOk(s, s.ops[id]);
    forall other |
      other in s.ops && s.ops[other].task.Lookup? && s.ops[other].pc.Joined? && s.ops[other].pc.leader == id
      ensures Serves(s, s.ops[other].need, s.ops[other].task.device, op)
    {
      assert OpOk(s, s.ops[other]);
      assert Serves(s, s.ops[other].need, s.ops[other].task.device, s.ops[id]);
    }
    OpMoves(s, id, op);
  }

  lemma JoiningKeepsInv(s: State, e: Event)
    requires Inv(s) && Enabled(s, e) && (e.Lead? || e.Join? || e.Receive?)
    ensures Inv(Apply(s, e))
  {
    var op := s.ops[e.id];
    assert OpOk(s, op);
    match e
    case Lead(id) => OpMoves(s, id, op.(pc := Leading));
    case Join(id, leader) => OpMoves(s, id, op.(pc := Joined(leader)));
    case Receive(id) =>
      assert OpOk(s, s.ops[op.pc.leader]);
      DoneKeepsInv(s, id, s.ops[op.pc.leader].pc.answer);
  }

  lemma PlainMoveKeepsInv(s: State, id: OpId, pc: Pc)
    requires Inv(s) && id in s.ops && !HasLoad(s.ops[id]) && OpOk(s, s.ops[id].(pc := pc))
    requires pc.Bumped? || pc.NeedRow? || pc.Burying?
    ensures Inv(At(s, id, pc))
  {
    OpMoves(s, id, s.ops[id].(pc := pc));
  }

  lemma RowRises(s: State, d: DeviceId)
    requires Inv(s) && d in s.rows
    ensures Inv(RowBumped(s, d))
  {
    AlreadyPrompt(s);
    WorldMoves(s, RowBumped(s, d));
  }

  lemma RowsGo(s: State, ids: set<DeviceId>)
    requires Inv(s)
    ensures Inv(Without(s, ids))
  {
    AlreadyPrompt(s);
    WorldMoves(s, Without(s, ids));
  }

  lemma IncrementKeepsInv(s: State, id: OpId)
    requires Inv(s) && Enabled(s, Increment(id))
    ensures Inv(Incremented(s, id))
  {
    var d := s.ops[id].task.device;
    if d in s.rows {
      assert Incremented(s, id) == At(RowBumped(s, d), id, Bumped(s.rows[d].generation + 1, s.step + 1));
      BumpKeepsInv(s, id, d);
    } else {
      assert Incremented(s, id) == At(s, id, Done(UpdateFailed));
      DoneKeepsInv(s, id, UpdateFailed);
    }
  }

  lemma BumpKeepsInv(s: State, id: OpId, d: DeviceId)
    requires Inv(s) && id in s.ops && s.ops[id].task == Update(d) && s.ops[id].pc.Start? && d in s.rows
    ensures Inv(At(RowBumped(s, d), id, Bumped(s.rows[d].generation + 1, s.step + 1)))
  {
    RowRises(s, d);
    BumpIsSound(s, id, d);
    PlainMoveKeepsInv(RowBumped(s, d), id, Bumped(s.rows[d].generation + 1, s.step + 1));
  }

  lemma BumpIsSound(s: State, id: OpId, d: DeviceId)
    requires RowsOk(s) && id in s.ops && s.ops[id].task == Update(d) && s.ops[id].pc.Start? && d in s.rows
    requires OpOk(s, s.ops[id])
    ensures OpOk(RowBumped(s, d), s.ops[id].(pc := Bumped(s.rows[d].generation + 1, s.step + 1)))
  {
  }

  lemma RemoveRowsKeepsInv(s: State, id: OpId)
    requires Inv(s) && Enabled(s, RemoveRows(id)) && Owned(s, RemoveRows(id))
    ensures Inv(RowsRemoved(s, id))
  {
    var task := s.ops[id].task;
    assert OpOk(s, s.ops[id]);
    var ids := if task.Delete? then {task.device} else Doomed(s, task);
    var mid := Without(s, Doomed(s, task));
    RowsGo(s, Doomed(s, task));
    assert OpOk(mid, mid.ops[id]);
    if ids == {} {
      DoneKeepsInv(mid, id, Removed);
    } else {
      assert ids <= s.used && ids !! mid.rows.Keys;
      PlainMoveKeepsInv(mid, id, Burying(ids));
    }
  }

  lemma TombstoneKeepsInv(s: State, d: DeviceId, began: nat)
    requires Inv(s) && d in s.used && d !in s.rows
    ensures Inv(Entombed(s, d, began))
  {
    EntryMoves(s, Entombed(s, d, began), d);
  }

  lemma BuryKeepsInv(s: State, id: OpId, device: DeviceId)
    requires Inv(s) && Enabled(s, Bury(id, device))
    ensures Inv(Buried(s, id, device))
  {
    var op := s.ops[id];
    assert OpOk(s, op);
    var mid := Entombed(s, device, op.began);
    TombstoneKeepsInv(s, device, op.began);
    assert OpOk(mid, mid.ops[id]);
    var rest := op.pc.ids - {device};
    if rest == {} {
      DoneKeepsInv(mid, id, Removed);
    } else {
      PlainMoveKeepsInv(mid, id, Burying(rest));
    }
  }

  /** An expired entry is only ever replaced by one at least as new. */
  lemma WriteNeverLosesGround(s: State, id: OpId)
    requires Inv(s) && Enabled(s, WriteCache(id))
    ensures var d := s.ops[id].task.device; var t := Offered(s, id);
      && d in t.cache
      && Covers(t.cache[d], s.ops[id].pc.secret.generation)
      && (d in s.cache ==>
        if s.cache[d].secret.Deleted() then t.cache[d] == s.cache[d]
        else !t.cache[d].secret.Deleted() && s.cache[d].secret.generation <= t.cache[d].secret.generation)
  {
    var op := s.ops[id];
    var d := op.task.device;
    assert OpOk(s, op);
    if d in s.cache {
      assert EntryOk(s, d);
      assert Outlived(op, s.cache[d]);
    }
  }

  lemma OfferKeepsFloor(s: State, id: OpId)
    requires Inv(s) && Enabled(s, WriteCache(id))
    ensures FloorOk(Offered(s, id))
    ensures s.ops[id].task.Update? ==> var t := Offered(s, id);
      s.ops[id].task.device in t.floor && s.ops[id].pc.answer.generation <= t.floor[s.ops[id].task.device]
  {
    assert OpOk(s, s.ops[id]);
    WriteNeverLosesGround(s, id);
  }

  lemma OfferIsSound(s: State, id: OpId)
    requires Inv(s) && Enabled(s, WriteCache(id))
    ensures var t := Offered(s, id); Later(s, t) && (t.cache == s.cache || EntryOk(t, s.ops[id].task.device))
  {
    assert OpOk(s, s.ops[id]);
  }

  lemma OfferKeepsInv(s: State, id: OpId)
    requires Inv(s) && Enabled(s, WriteCache(id))
    ensures Inv(Offered(s, id))
  {
    var t := Offered(s, id);
    OfferIsSound(s, id);
    OfferKeepsFloor(s, id);
    if t.cache == s.cache {
      FloorRises(s, t);
    } else {
      EntryMoves(s, t, s.ops[id].task.device);
    }
  }

  lemma WriteCacheKeepsInv(s: State, id: OpId)
    requires Inv(s) && Enabled(s, WriteCache(id))
    ensures Inv(CacheWritten(s, id))
  {
    OfferKeepsInv(s, id);
    OfferKeepsFloor(s, id);
    var mid := Offered(s, id);
    assert OpOk(mid, mid.ops[id]);
    if s.ops[id].task.Update? {
      DoneKeepsInv(mid, id, s.ops[id].pc.answer);
    } else {
      StoredKeepsInv(mid, id);
    }
  }

  /** Having stored its value, a lookup still carries it for whoever joins. */
  lemma StoredKeepsInv(s: State, id: OpId)
    requires Inv(s) && id in s.ops && s.ops[id].task.Lookup? && s.ops[id].pc.Carrying?
    ensures Inv(At(s, id, s.ops[id].pc.(stored := true)))
  {
    var op := s.ops[id].(pc := s.ops[id].pc.(stored := true));
    assert OpOk(s, s.ops[id]);
    forall other | other in s.ops && s.ops[other].task.Lookup? && (s.ops[other].pc.Missed? || s.ops[other].pc.Joined?)
      ensures s.ops[other].pc.Missed? || s.ops[other].pc.leader == id ==>
        Serves(s, s.ops[other].need, s.ops[other].task.device, op)
    {
      if s.ops[other].pc.Missed? || s.ops[other].pc.leader == id {
        assert Serves(s, s.ops[other].need, s.ops[other].task.device, s.ops[id]);
      }
    }
    forall d | d in s.cache && OnDevice(op, d) ensures Outlived(op, s.cache[d]) {
      assert Outlived(s.ops[id], s.cache[d]);
    }
    OpMoves(s, id, op);
  }

  lemma FinishKeepsInv(s: State, id: OpId)
    requires Inv(s) && Enabled(s, Finish(id))
    ensures Inv(LoadOver(s, id))
  {
    assert OpOk(s, s.ops[id]);
    DoneKeepsInv(s, id, LoadOver(s, id).ops[id].pc.answer);
  }

  /** Only the floor changes. */
  lemma FloorRises(s: State, t: State)
    requires Inv(s) && Later(s, t) && s.now == t.now && t.rows == s.rows && t.ops == s.ops && t.cache == s.cache
    requires FloorOk(t)
    ensures Inv(t)
  {
    forall d | d in t.cache ensures EntryOk(t, d) {
      EntryStays(s, t, d);
    }
    forall o | o in t.ops ensures OpOk(t, t.ops[o]) {
      assert OpOk(s, s.ops[o]);
      OpStays(s, t, t.ops[o]);
    }
    WaitersStay(s, t);
  }

  lemma StepKeepsInv(s: State, e: Event)
    requires Inv(s) && Enabled(s, e) && Prompt(s, e) && Owned(s, e)
    ensures Inv(Apply(s, e))
  {
    match e
    case Save(device, row) => SaveKeepsInv(s, device, row);
    case Begin(id, task) => BeginKeepsInv(s, id, task);
    case ReadCache(id) => ReadCacheKeepsInv(s, id);
    case Lead(id) => JoiningKeepsInv(s, e);
    case Join(id, leader) => JoiningKeepsInv(s, e);
    case Receive(id) => JoiningKeepsInv(s, e);
    case ReadRow(id) => ReadRowKeepsInv(s, id);
    case Increment(id) => IncrementKeepsInv(s, id);
    case RemoveRows(id) => RemoveRowsKeepsInv(s, id);
    case WriteCache(id) => WriteCacheKeepsInv(s, id);
    case Finish(id) => FinishKeepsInv(s, id);
    case Bury(id, device) => BuryKeepsInv(s, id, device);
    case Vanish(device) => VanishKeepsInv(s, device);
    case Rename(from, to) => RenameKeepsInv(s, from, to);
    case Tick(now) => TickKeepsInv(s, now);
  }

  // --- whole runs --------------------------------------------------------------------------

  lemma {:induction false} InvAlways(b: seq<State>, i: nat)
    requires OrderlyRun(b) && i < |b|
    ensures Inv(b[i])
  {
    if i > 0 {
      InvAlways(b, i - 1);
      assert OrderlyStepAt(b, i - 1);
      var e :| Enabled(b[i - 1], e) && Prompt(b[i - 1], e) && Owned(b[i - 1], e) && b[i] == Apply(b[i - 1], e);
      StepKeepsInv(b[i - 1], e);
    }
  }

  lemma OrderlyRunIsRun(b: seq<State>)
    requires OrderlyRun(b)
    ensures Run(b)
  {
    forall i | 0 <= i < |b| - 1 ensures StepAt(b, i) {
      assert OrderlyStepAt(b, i);
    }
  }

  /** The parts of an operation that never change once it has begun. */
  ghost predicate SameOps(s: State, t: State) {
    forall id :: id in s.ops ==>
      && id in t.ops && t.ops[id].task == s.ops[id].task
      && t.ops[id].began == s.ops[id].began && t.ops[id].need == s.ops[id].need
      && (s.ops[id].pc.Done? ==> t.ops[id].pc == s.ops[id].pc)
  }

  lemma StepKeepsOps(s: State, e: Event)
    requires Enabled(s, e)
    ensures SameOps(s, Apply(s, e))
  {
  }

  lemma StepIsLater(s: State, e: Event)
    requires Enabled(s, e)
    ensures Later(s, Apply(s, e)) && SameOps(s, Apply(s, e))
  {
    StepKeepsOps(s, e);
  }

  lemma LaterIsTransitive(s: State, t: State, u: State)
    requires Later(s, t) && Later(t, u) && SameOps(s, t) && SameOps(t, u)
    ensures Later(s, u) && SameOps(s, u)
  {
  }

  lemma NextIsLater(s: State, t: State)
    requires Next(s, t)
    ensures Later(s, t) && SameOps(s, t)
  {
    var e :| Enabled(s, e) && t == Apply(s, e);
    StepIsLater(s, e);
  }

  ghost predicate Linked(b: seq<State>, k: int)
    requires 0 <= k < |b| - 1
  {
    Later(b[k], b[k + 1]) && SameOps(b[k], b[k + 1])
  }

  lemma {:induction false} ChainIsLater(b: seq<State>, i: nat, j: nat)
    requires i <= j < |b| && forall k :: 0 <= k < |b| - 1 ==> Linked(b, k)
    ensures Later(b[i], b[j]) && SameOps(b[i], b[j])
  {
    if i < j {
      ChainIsLater(b, i, j - 1);
      assert Linked(b, j - 1);
      LaterIsTransitive(b[i], b[j - 1], b[j]);
    }
  }

  lemma RunIsLater(b: seq<State>, i: nat, j: nat)
    requires Run(b) && i <= j < |b|
    ensures Later(b[i], b[j]) && SameOps(b[i], b[j])
  {
    forall k | 0 <= k < |b| - 1 ensures Linked(b, k) {
      assert StepAt(b, k);
      NextIsLater(b[k], b[k + 1]);
    }
    ChainIsLater(b, i, j);
  }

  /** Once `UpdateDeviceSecret` has returned g, no later cache hit is older than g. */
  lemma FinishedUpdateIsNeverForgotten(b: seq<State>, i: nat, j: nat, u: OpId, d: DeviceId, g: int)
    requires OrderlyRun(b) && i <= j < |b|
    requires u in b[i].ops && b[i].ops[u].task == Update(d) && b[i].ops[u].pc == Done(Updated(g, true))
    requires Hit(Live(b[j], d)).Some?
    ensures Hit(Live(b[j], d)).value.generation >= g
  {
    OrderlyRunIsRun(b);
    RunIsLater(b, i, j);
    InvAlways(b, i);
    InvAlways(b, j);
    assert OpOk(b[i], b[i].ops[u]);
    assert Covers(b[j].cache[d], b[j].floor[d]);
  }

  /** Only `WriteCache` and `Bury` touch the cache, and only `Begin` adds an operation. */
  lemma StepFrame(s: State, e: Event)
    requires Enabled(s, e)
    ensures !e.WriteCache? && !e.Bury? ==> Apply(s, e).cache == s.cache
    ensures !e.Begin? ==> Apply(s, e).ops.Keys == s.ops.Keys
  {
  }

  /** Generation g of the device was handed out: by its login, or by a finished update. */
  ghost predicate HandedOut(s: State, d: DeviceId, g: int) {
    || g == INITIAL_GENERATION
    || exists u :: u in s.ops && s.ops[u].task == Update(d) && s.ops[u].pc.Done?
                && s.ops[u].pc.answer.Updated? && s.ops[u].pc.answer.generation == g
  }

  lemma HandedOutIsFloored(s: State, d: DeviceId, g: int)
    requires Inv(s) && HandedOut(s, d, g) && d in s.rows
    ensures g <= Floor(s, d)
  {
    if g != INITIAL_GENERATION {
      var u :| u in s.ops && s.ops[u].task == Update(d) && s.ops[u].pc.Done?
               && s.ops[u].pc.answer.Updated? && s.ops[u].pc.answer.generation == g;
      assert OpOk(s, s.ops[u]);
    }
  }

  lemma AnswerIsCurrent(s: State, id: OpId, d: DeviceId)
    requires Inv(s) && id in s.ops && s.ops[id].task.Lookup? && s.ops[id].task.device == d
    requires s.ops[id].pc.Done? && d in s.rows && s.rows[d].generation <= s.ops[id].need
    ensures s.ops[id].pc.answer.Found?
    ensures s.ops[id].pc.answer.secret == Secret(s.rows[d].secret, s.rows[d].generation)
  {
    assert OpOk(s, s.ops[id]);
  }

  lemma BeginRecordsFloor(s: State, t: State, id: OpId)
    requires Next(s, t) && id !in s.ops && id in t.ops && t.ops[id].task.Lookup?
    ensures t.ops[id].need == Floor(s, t.ops[id].task.device)
  {
    var e :| Enabled(s, e) && t == Apply(s, e);
    StepFrame(s, e);
    assert t == Begun(s, e.id, e.task);
  }

  /** A lookup begun after the token's generation was handed out, and finished while that
      generation is still the row's, answers exactly that generation and secret. So the
      generation test of token verification cannot take the newest token for a reused one. */
  lemma NewestTokenIsNeverJudgedRevoked(b: seq<State>, i: nat, k: nat, id: OpId, d: DeviceId, tokenGeneration: int)
    requires OrderlyRun(b) && i < k < |b| && id !in b[i].ops && id in b[i + 1].ops && id in b[k].ops
    requires b[i + 1].ops[id].task.Lookup? && b[i + 1].ops[id].task.device == d
    requires d in b[i].rows && HandedOut(b[i], d, tokenGeneration)
    requires b[k].ops[id].pc.Done? && d in b[k].rows && b[k].rows[d].generation == tokenGeneration
    ensures b[k].ops[id].pc.answer.Found?
    ensures b[k].ops[id].pc.answer.secret == Secret(b[k].rows[d].secret, tokenGeneration)
  {
    OrderlyRunIsRun(b);
    InvAlways(b, i);
    HandedOutIsFloored(b[i], d, tokenGeneration);
    assert StepAt(b, i);
    BeginRecordsFloor(b[i], b[i + 1], id);
    RunIsLater(b, i + 1, k);
    InvAlways(b, k);
    AnswerIsCurrent(b[k], id, d);
  }
}
