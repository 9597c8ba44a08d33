/**
 What the cache keeps true in every run whatever, slow operations, wrongly owned deletes and
 vanishing rows included: each cached value is one the row really held, at an instant inside
 the operation that wrote it, a standing tombstone is never displaced, and deletion is final.
 */
module CacheStaleness {
  import opened Wrappers
  import opened Secrets
  import opened Devices
  import opened CacheProtocol
  import CacheSafety

  /** The row held exactly this secret and generation in the k-th state of the run. */
  ghost predicate Held(b: seq<State>, k: nat, d: DeviceId, secret: Secret) {
    k < |b| && d in b[k].rows && b[k].rows[d].secret == secret.value && b[k].rows[d].generation == secret.generation
  }

  ghost predicate HeldBetween(b: seq<State>, k: nat, d: DeviceId, secret: Secret, began: nat, at: nat) {
    Held(b, k, d, secret) && began <= b[k].now <= at
  }

  ghost predicate EntryHeld(b: seq<State>, d: DeviceId, e: Entry) {
    e.secret.Deleted() || HeldBetween(b, e.seen, d, e.secret, e.began, e.at)
  }

  ghost predicate OpHeld(b: seq<State>, s: State, op: Op) {
    && op.began <= s.now
    && Named(op.task) <= s.used
    && (op.pc.Bumped? && op.task.Update? ==>
      && op.pc.seen < |b| && op.task.device in b[op.pc.seen].rows
      && b[op.pc.seen].rows[op.task.device].generation == op.pc.generation
      && op.began <= b[op.pc.seen].now)
    && (op.pc.NeedRow? && op.task.Update? && op.task.device in s.rows ==>
      op.pc.generation <= s.rows[op.task.device].generation)
    && (op.pc.Carrying? && (op.task.Lookup? || op.task.Update?) ==>
      HeldBetween(b, op.pc.seen, op.task.device, op.pc.secret, op.began, s.now))
    && (op.pc.Carrying? && op.task.Lookup? ==> op.pc.answer == Found(op.pc.secret, op.pc.seen))
    && (op.pc.Done? && op.task.Lookup? && op.pc.answer.Found? ==>
      Held(b, op.pc.answer.seen, op.task.device, op.pc.answer.secret))
  }

  ghost predicate JoinerOk(s: State, op: Op) {
    op.pc.Joined? ==> op.pc.leader in s.ops && s.ops[op.pc.leader].task == op.task
  }

  ghost predicate Sound(b: seq<State>, s: State) {
    && |b| > 0 && s == b[|b| - 1] && s.step == |b| - 1
    && s.rows.Keys <= s.used
    && (forall d :: d in s.cache ==> EntryHeld(b, d, s.cache[d]))
    && (forall id :: id in s.ops ==> OpHeld(b, s, s.ops[id]) && JoinerOk(s, s.ops[id]))
  }

  // --- nothing already established is lost when the run goes on ----------------------------

  lemma OpHeldStays(b: seq<State>, s: State, t: State, op: Op)
    requires OpHeld(b, s, op) && CacheSafety.Later(s, t) && s.rows.Keys <= s.used
    ensures OpHeld(b + [t], t, op)
  {
    var c := b + [t];
    assert forall k :: 0 <= k < |b| ==> c[k] == b[k];
  }

  lemma EntryHeldStays(b: seq<State>, t: State, d: DeviceId, e: Entry)
    requires EntryHeld(b, d, e)
    ensures EntryHeld(b + [t], d, e)
  {
    var c := b + [t];
    assert forall k :: 0 <= k < |b| ==> c[k] == b[k];
  }

  /** It is enough to look at the operations and entries that a step changes. */
  lemma SoundStays(b: seq<State>, s: State, t: State)
    requires Sound(b, s) && CacheSafety.Later(s, t) && CacheSafety.SameOps(s, t) && t.step == s.step + 1
    requires t.rows.Keys <= t.used
    requires forall o :: o in t.ops && !(o in s.ops && t.ops[o] == s.ops[o]) ==>
      OpHeld(b + [t], t, t.ops[o]) && JoinerOk(t, t.ops[o])
    requires forall d :: d in t.cache && !(d in s.cache && t.cache[d] == s.cache[d]) ==>
      EntryHeld(b + [t], d, t.cache[d])
    ensures Sound(b + [t], t)
  {
    forall o | o in t.ops ensures OpHeld(b + [t], t, t.ops[o]) && JoinerOk(t, t.ops[o]) {
      if o in s.ops && t.ops[o] == s.ops[o] {
        OpHeldStays(b, s, t, t.ops[o]);
      }
    }
    forall d | d in t.cache ensures EntryHeld(b + [t], d, t.cache[d]) {
      if d in s.cache && t.cache[d] == s.cache[d] {
        EntryHeldStays(b, t, d, t.cache[d]);
      }
    }
  }

  /** An operation moves on and nothing else happens. */
  lemma MoveIsSound(b: seq<State>, s: State, id: OpId, pc: Pc)
    requires Sound(b, s) && id in s.ops && InFlight(s.ops[id])
    requires OpHeld(b, s, s.ops[id].(pc := pc)) && JoinerOk(s, s.ops[id].(pc := pc))
    ensures Sound(b + [At(s, id, pc)], At(s, id, pc))
  {
    var t := At(s, id, pc);
    OpHeldStays(b, s, t, t.ops[id]);
    SoundStays(b, s, t);
  }

  // --- the steps ---------------------------------------------------------------------------

  /** The value an update takes up from the cache is one the row held since the update began. */
  lemma ReadCacheIsSound(b: seq<State>, s: State, id: OpId)
    requires Run(b) && Sound(b, s) && Enabled(s, ReadCache(id))
    ensures Sound(b + [CacheRead(s, id)], CacheRead(s, id))
  {
    var op := s.ops[id];
    var d := op.task.device;
    var pc := CacheRead(s, id).ops[id].pc;
    assert OpHeld(b, s, op);
    if op.task.Update? {
      BumpStillHolds(b, s, op);
      if pc.Carrying? {
        TakenUpIsRecent(b, s, op);
      }
    }
    MoveIsSound(b, s, id, pc);
  }

  lemma BumpStillHolds(b: seq<State>, s: State, op: Op)
    requires Run(b) && Sound(b, s) && OpHeld(b, s, op) && op.task.Update? && op.pc.Bumped?
    ensures op.task.device in s.rows ==> op.pc.generation <= s.rows[op.task.device].generation
  {
    CacheSafety.RunIsLater(b, op.pc.seen, |b| - 1);
    RowsAreUsed(b, op.pc.seen);
  }

  lemma TakenUpIsRecent(b: seq<State>, s: State, op: Op)
    requires Run(b) && Sound(b, s) && OpHeld(b, s, op) && op.task.Update? && op.pc.Bumped?
    requires Hit(Live(s, op.task.device)).Some?
    ensures var e := s.cache[op.task.device];
      if e.secret.generation > op.pc.generation
      then HeldBetween(b, e.seen, op.task.device, e.secret, op.began, s.now)
      else HeldBetween(b, op.pc.seen, op.task.device, Secret(e.secret.value, op.pc.generation), op.began, s.now)
  {
    var d := op.task.device;
    var e := s.cache[d];
    assert EntryHeld(b, d, e);
    RowsAreUsed(b, e.seen);
    RowsAreUsed(b, op.pc.seen);
    if e.seen <= op.pc.seen {
      CacheSafety.RunIsLater(b, e.seen, op.pc.seen);
    } else {
      CacheSafety.RunIsLater(b, op.pc.seen, e.seen);
    }
    CacheSafety.RunIsLater(b, op.pc.seen, |b| - 1);
    CacheSafety.RunIsLater(b, e.seen, |b| - 1);
  }

  lemma {:induction false} RowsAreUsed(b: seq<State>, i: nat)
    requires Run(b) && i < |b|
    ensures b[i].rows.Keys <= b[i].used
  {
    if i > 0 {
      RowsAreUsed(b, i - 1);
      assert StepAt(b, i - 1);
      var e :| Enabled(b[i - 1], e) && b[i] == Apply(b[i - 1], e);
      StepKeepsRowsUsed(b[i - 1], e);
    }
  }

  lemma StepKeepsRowsUsed(s: State, e: Event)
    requires Enabled(s, e) && s.rows.Keys <= s.used
    ensures Apply(s, e).rows.Keys <= Apply(s, e).used
  {
    if e.Increment? && s.ops[e.id].task.device in s.rows {
      assert RowBumped(s, s.ops[e.id].task.device).rows.Keys == s.rows.Keys;
    }
  }

  lemma ReadRowIsSound(b: seq<State>, s: State, id: OpId)
    requires Run(b) && Sound(b, s) && Enabled(s, ReadRow(id))
    ensures Sound(b + [RowRead(s, id)], RowRead(s, id))
  {
    assert OpHeld(b, s, s.ops[id]);
    MoveIsSound(b, s, id, RowRead(s, id).ops[id].pc);
  }

  lemma WriteCacheIsSound(b: seq<State>, s: State, id: OpId)
    requires Run(b) && Sound(b, s) && Enabled(s, WriteCache(id))
    ensures Sound(b + [CacheWritten(s, id)], CacheWritten(s, id))
  {
    var op, t := s.ops[id], CacheWritten(s, id);
    var d := op.task.device;
    assert OpHeld(b, s, op);
    CacheSafety.StepIsLater(s, WriteCache(id));
    OpHeldStays(b, s, t, t.ops[id]);
    if t.cache != s.cache {
      EntryHeldStays(b, t, d, t.cache[d]);
    }
    SoundStays(b, s, t);
  }

  lemma BuryIsSound(b: seq<State>, s: State, id: OpId, device: DeviceId)
    requires Run(b) && Sound(b, s) && Enabled(s, Bury(id, device))
    ensures Sound(b + [Buried(s, id, device)], Buried(s, id, device))
  {
    var t := Buried(s, id, device);
    assert OpHeld(b, s, s.ops[id]);
    CacheSafety.StepIsLater(s, Bury(id, device));
    OpHeldStays(b, s, t, t.ops[id]);
    SoundStays(b, s, t);
  }

  lemma IncrementIsSound(b: seq<State>, s: State, id: OpId)
    requires Run(b) && Sound(b, s) && Enabled(s, Increment(id))
    ensures Sound(b + [Incremented(s, id)], Incremented(s, id))
  {
    var t := Incremented(s, id);
    assert OpHeld(b, s, s.ops[id]);
    CacheSafety.StepIsLater(s, Increment(id));
    StepKeepsRowsUsed(s, Increment(id));
    assert OpHeld(b + [t], t, t.ops[id]);
    SoundStays(b, s, t);
  }

  lemma RemoveRowsIsSound(b: seq<State>, s: State, id: OpId)
    requires Run(b) && Sound(b, s) && Enabled(s, RemoveRows(id))
    ensures Sound(b + [RowsRemoved(s, id)], RowsRemoved(s, id))
  {
    var t := RowsRemoved(s, id);
    assert OpHeld(b, s, s.ops[id]);
    CacheSafety.StepIsLater(s, RemoveRows(id));
    OpHeldStays(b, s, t, t.ops[id]);
    SoundStays(b, s, t);
  }

  lemma BeginIsSound(b: seq<State>, s: State, id: OpId, task: Task)
    requires Run(b) && Sound(b, s) && Enabled(s, Begin(id, task))
    ensures Sound(b + [Begun(s, id, task)], Begun(s, id, task))
  {
    CacheSafety.StepIsLater(s, Begin(id, task));
    SoundStays(b, s, Begun(s, id, task));
  }

  lemma JoiningIsSound(b: seq<State>, s: State, e: Event)
    requires Run(b) && Sound(b, s) && Enabled(s, e) && (e.Lead? || e.Join? || e.Receive?)
    ensures Sound(b + [Apply(s, e)], Apply(s, e))
  {
    var op := s.ops[e.id];
    assert OpHeld(b, s, op) && JoinerOk(s, op);
    match e
    case Lead(id) => MoveIsSound(b, s, id, Leading);
    case Join(id, leader) => MoveIsSound(b, s, id, Joined(leader));
    case Receive(id) =>
      assert OpHeld(b, s, s.ops[op.pc.leader]);
      MoveIsSound(b, s, id, s.ops[op.pc.leader].pc);
  }

  lemma FinishIsSound(b: seq<State>, s: State, id: OpId)
    requires Run(b) && Sound(b, s) && Enabled(s, Finish(id))
    ensures Sound(b + [LoadOver(s, id)], LoadOver(s, id))
  {
    assert OpHeld(b, s, s.ops[id]);
    MoveIsSound(b, s, id, LoadOver(s, id).ops[id].pc);
  }

  lemma StepIsSound(b: seq<State>, s: State, e: Event)
    requires Run(b) && Sound(b, s) && Enabled(s, e)
    ensures Sound(b + [Apply(s, e)], Apply(s, e))
  {
    match e
    case Begin(id, task) => BeginIsSound(b, s, id, task);
    case ReadCache(id) => ReadCacheIsSound(b, s, id);
    case Lead(id) => JoiningIsSound(b, s, e);
    case Join(id, leader) => JoiningIsSound(b, s, e);
    case Receive(id) => JoiningIsSound(b, s, e);
    case ReadRow(id) => ReadRowIsSound(b, s, id);
    case Increment(id) => IncrementIsSound(b, s, id);
    case RemoveRows(id) => RemoveRowsIsSound(b, s, id);
    case WriteCache(id) => WriteCacheIsSound(b, s, id);
    case Finish(id) => FinishIsSound(b, s, id);
    case Bury(id, device) => BuryIsSound(b, s, id, device);
    case _ =>
      CacheSafety.StepIsLater(s, e);
      SoundStays(b, s, Apply(s, e));
  }

  // --- whole runs --------------------------------------------------------------------------

  lemma {:induction false} SoundAlways(b: seq<State>)
    requires Run(b)
    ensures Sound(b, b[|b| - 1])
  {
    if |b| > 1 {
      var front, s := b[..|b| - 1], b[|b| - 2];
      forall i | 0 <= i < |front| - 1 ensures StepAt(front, i) {
        assert StepAt(b, i);
      }
      assert front[|front| - 1] == s;
      SoundAlways(front);
      assert StepAt(b, |b| - 2);
      var e :| Enabled(s, e) && b[|b| - 1] == Apply(s, e);
      StepIsSound(front, s, e);
      assert b == front + [Apply(s, e)];
    }
  }

  lemma BegunBefore(b: seq<State>, i: nat, id: OpId)
    requires Run(b) && i < |b| && id in b[i].ops
    ensures b[i].ops[id].began <= b[i].now
  {
    var front := b[..i + 1];
    forall k | 0 <= k < |front| - 1 ensures StepAt(front, k) {
      assert StepAt(b, k);
    }
    SoundAlways(front);
    assert OpHeld(front, b[i], b[i].ops[id]);
  }

  /** A cache hit is a value the row held, no longer ago than five minutes plus
      the duration of the one operation that wrote it. */
  lemma HitIsBoundedlyStale(b: seq<State>, d: DeviceId)
    requires Run(b) && Hit(Live(b[|b| - 1], d)).Some?
    ensures var s := b[|b| - 1]; var e := s.cache[d];
      && e.secret == Hit(Live(s, d)).value
      && HeldBetween(b, e.seen, d, e.secret, e.began, e.at)
      && s.now < b[e.seen].now + 300_000_000_000 + (e.at - e.began)
  {
    SoundAlways(b);
    assert EntryHeld(b, d, b[|b| - 1].cache[d]);
  }

  /** Every lookup that answers, by hit, load or joined load, answers what the row once held. */
  lemma AnswerWasHeld(b: seq<State>, id: OpId)
    requires Run(b) && id in b[|b| - 1].ops && b[|b| - 1].ops[id].task.Lookup?
    requires b[|b| - 1].ops[id].pc.Done? && b[|b| - 1].ops[id].pc.answer.Found?
    ensures var op := b[|b| - 1].ops[id]; Held(b, op.pc.answer.seen, op.task.device, op.pc.answer.secret)
  {
    SoundAlways(b);
    assert OpHeld(b, b[|b| - 1], b[|b| - 1].ops[id]);
  }

  lemma TombstoneStandsOneStep(s: State, e: Event, d: DeviceId, since: nat)
    requires Enabled(s, e) && d in s.cache && s.cache[d].secret.Deleted() && since <= s.cache[d].at
    requires since <= s.now < since + Lifetime(TOMBSTONE)
    ensures var t := Apply(s, e); d in t.cache && t.cache[d].secret.Deleted() && since <= t.cache[d].at
  {
    match e
    case WriteCache(id) => assert Apply(s, e).cache == Offered(s, id).cache;
    case Bury(id, device) => assert Apply(s, e).cache == Entombed(s, device, s.ops[id].began).cache;
    case _ => CacheSafety.StepFrame(s, e);
  }

  lemma TombstoneStandsNext(s: State, t: State, d: DeviceId, since: nat)
    requires Next(s, t) && d in s.cache && s.cache[d].secret.Deleted() && since <= s.cache[d].at
    requires since <= s.now < since + Lifetime(TOMBSTONE)
    ensures d in t.cache && t.cache[d].secret.Deleted() && since <= t.cache[d].at
  {
    var e :| Enabled(s, e) && t == Apply(s, e);
    TombstoneStandsOneStep(s, e, d, since);
  }

  lemma TimePasses(b: seq<State>, i: nat, j: nat)
    requires Run(b) && i < j < |b|
    ensures b[i].now <= b[j - 1].now <= b[j].now
  {
    CacheSafety.RunIsLater(b, i, j - 1);
    CacheSafety.RunIsLater(b, j - 1, j);
  }

  /** While a tombstone's lifetime lasts nothing displaces it, however slow the operations
      already in flight are and whoever they belong to. */
  lemma {:induction false} TombstoneStands(b: seq<State>, i: nat, j: nat, d: DeviceId)
    requires Run(b) && i <= j < |b| && d in b[i].cache && b[i].cache[d].secret.Deleted()
    requires b[i].cache[d].at <= b[i].now && b[j].now < b[i].cache[d].at + 360_000_000_000
    ensures d in b[j].cache && b[j].cache[d].secret.Deleted() && b[i].cache[d].at <= b[j].cache[d].at
    ensures Hit(Live(b[j], d)).None?
  {
    if i < j {
      TimePasses(b, i, j);
      TombstoneStands(b, i, j - 1, d);
      assert StepAt(b, j - 1);
      TombstoneStandsNext(b[j - 1], b[j], d, b[i].cache[d].at);
    }
  }

  /** Every lookup in `s` that is about to load this device for itself will not find it. */
  ghost predicate LoadsFindNothing(s: State, d: DeviceId) {
    forall id :: Enabled(s, ReadRow(id)) && s.ops[id].task.Lookup? && s.ops[id].task.device == d ==>
      var t := RowRead(s, id); Enabled(t, Finish(id)) && LoadOver(t, id).ops[id].pc == Done(NotFound)
  }

  /** A row that is gone stays gone, so every lookup that loads for itself finds nothing. */
  lemma RemovedRowIsNeverLoaded(b: seq<State>, h: nat, i: nat, j: nat, d: DeviceId)
    requires Run(b) && h <= i <= j < |b| && d in b[h].rows && d !in b[i].rows
    ensures d !in b[j].rows && LoadsFindNothing(b[j], d)
  {
    RowsAreUsed(b, h);
    CacheSafety.RunIsLater(b, h, i);
    CacheSafety.RunIsLater(b, i, j);
  }

  // --- deletion is final -------------------------------------------------------------------

  /** The row is gone, a tombstone was written, and whoever still carries a value for the
      device began before that. */
  ghost predicate Interred(s: State, d: DeviceId) {
    && d in s.used && d !in s.rows && d in s.cache && s.cache[d].secret.Deleted() && s.cache[d].at <= s.now
    && forall id :: id in s.ops && OnDevice(s.ops[id], d) && s.ops[id].pc.Carrying? ==> s.ops[id].began <= s.cache[d].at
  }

  /** Nobody in flight has been running for as long as a tombstone lives. */
  ghost predicate Brisk(s: State) {
    forall id :: id in s.ops && InFlight(s.ops[id]) ==> s.now < s.ops[id].began + 360_000_000_000
  }

  lemma NothingNewIsCarried(s: State, e: Event, d: DeviceId, id: OpId)
    requires Interred(s, d) && Enabled(s, e) && id in Apply(s, e).ops
    requires OnDevice(Apply(s, e).ops[id], d) && Apply(s, e).ops[id].pc.Carrying?
    ensures id in s.ops && OnDevice(s.ops[id], d) && s.ops[id].pc.Carrying?
    ensures s.ops[id].began == Apply(s, e).ops[id].began
  {
  }

  /** A tombstone stays or is renewed: the carriers began too early to outlive it. */
  lemma TombstoneSurvives(s: State, e: Event, d: DeviceId)
    requires Interred(s, d) && Brisk(s) && Enabled(s, e)
    ensures var t := Apply(s, e);
      d in t.cache && t.cache[d].secret.Deleted() && s.cache[d].at <= t.cache[d].at <= t.now
  {
    var t := Apply(s, e);
    match e
    case WriteCache(id) => assert t.cache == Offered(s, id).cache;
    case Bury(id, device) => assert t.cache == Entombed(s, device, s.ops[id].began).cache;
    case _ => CacheSafety.StepFrame(s, e);
  }

  lemma BurialLastsOneStep(s: State, e: Event, d: DeviceId)
    requires Interred(s, d) && Brisk(s) && Enabled(s, e)
    ensures Interred(Apply(s, e), d)
  {
    var t := Apply(s, e);
    CacheSafety.StepIsLater(s, e);
    TombstoneSurvives(s, e, d);
    forall id | id in t.ops && OnDevice(t.ops[id], d) && t.ops[id].pc.Carrying?
      ensures t.ops[id].began <= t.cache[d].at
    {
      NothingNewIsCarried(s, e, d, id);
    }
  }

  lemma BurialLastsNext(s: State, t: State, d: DeviceId)
    requires Interred(s, d) && Brisk(s) && Next(s, t)
    ensures Interred(t, d)
  {
    var e :| Enabled(s, e) && t == Apply(s, e);
    BurialLastsOneStep(s, e, d);
  }

  lemma {:induction false} BurialLasts(b: seq<State>, i: nat, j: nat, d: DeviceId)
    requires Run(b) && i <= j < |b| && Interred(b[i], d) && forall k :: i <= k < j ==> Brisk(b[k])
    ensures Interred(b[j], d)
  {
    if i < j {
      BurialLasts(b, i, j - 1, d);
      assert StepAt(b, j - 1);
      BurialLastsNext(b[j - 1], b[j], d);
    }
  }

  /** From the moment a delete has written its tombstone over a row that it removed, the device is
      gone for ever, provided only that operations are shorter than the tombstone's lifetime:
      whatever was in flight, nothing becomes live in the cache again and no load finds it. */
  lemma DeletionIsFinal(b: seq<State>, h: nat, i: nat, j: nat, d: DeviceId)
    requires Run(b) && h <= i <= j < |b| && d in b[h].rows && d !in b[i].rows
    requires d in b[i].cache && b[i].cache[d].secret.Deleted() && b[i].cache[d].at == b[i].now
    requires forall k :: i <= k < j ==> Brisk(b[k])
    ensures d !in b[j].rows && Hit(Live(b[j], d)).None? && LoadsFindNothing(b[j], d)
  {
    InterredAtFirst(b, h, i, d);
    BurialLasts(b, i, j, d);
  }

  lemma InterredAtFirst(b: seq<State>, h: nat, i: nat, d: DeviceId)
    requires Run(b) && h <= i < |b| && d in b[h].rows && d !in b[i].rows
    requires d in b[i].cache && b[i].cache[d].secret.Deleted() && b[i].cache[d].at == b[i].now
    ensures Interred(b[i], d)
  {
    RowsAreUsed(b, h);
    CacheSafety.RunIsLater(b, h, i);
    forall id | id in b[i].ops ensures b[i].ops[id].began <= b[i].now {
      BegunBefore(b, i, id);
    }
  }
}
