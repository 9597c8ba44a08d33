/**
 What a finished delete has done, in every run: it took exactly the rows it was to take, it has
 written a tombstone for each of them, and with operations shorter than a tombstone's lifetime none
 of them is ever live in the cache or loaded again.
 */
module CacheDeletes {
  import opened Wrappers
  import opened Secrets
  import opened Devices
  import opened CacheProtocol
  import CacheSafety
  import CacheStaleness

  /** This is the step at which the delete removes its rows. */
  ghost predicate Removes(s: State, t: State, id: OpId) {
    && Next(s, t) && id in s.ops && (s.ops[id].task.Delete? || s.ops[id].task.DeleteAll?)
    && s.ops[id].pc.Start? && id in t.ops && !t.ops[id].pc.Start?
  }

  /** A delete takes its device if the named user owns it at that step, a delete-all every device
      that the named user owns at that step; nobody else's row changes. */
  predicate Takes(s: State, id: OpId, d: DeviceId)
    requires id in s.ops && (s.ops[id].task.Delete? || s.ops[id].task.DeleteAll?)
  {
    && d in s.rows && s.rows[d].owner == s.ops[id].task.user
    && (s.ops[id].task.Delete? ==> d == s.ops[id].task.device)
  }

  lemma OnlyRemovalMoves(s: State, e: Event, id: OpId)
    requires Enabled(s, e) && id in s.ops && (s.ops[id].task.Delete? || s.ops[id].task.DeleteAll?)
    requires s.ops[id].pc.Start? && id in Apply(s, e).ops && !Apply(s, e).ops[id].pc.Start?
    ensures e == RemoveRows(id)
  {
  }

  lemma RemovalIsExact(s: State, t: State, id: OpId)
    requires Removes(s, t, id)
    ensures forall d :: Wrappers.Lookup(t.rows, d) == if Takes(s, id, d) then None else Wrappers.Lookup(s.rows, d)
    ensures t.cache == s.cache
    ensures forall d :: Takes(s, id, d) || (s.ops[id].task.Delete? && d == s.ops[id].task.device) ==> Due(t, id, d)
  {
    var e :| Enabled(s, e) && t == Apply(s, e);
    OnlyRemovalMoves(s, e, id);
    assert t.rows == s.rows - Doomed(s, s.ops[id].task);
  }

  /** The tombstone of this device is still to be written. */
  ghost predicate Due(s: State, id: OpId, d: DeviceId) {
    id in s.ops && s.ops[id].pc.Burying? && d in s.ops[id].pc.ids
  }

  /** A tombstone has just been written. */
  ghost predicate JustBuried(s: State, d: DeviceId) {
    d in s.cache && s.cache[d].secret == TOMBSTONE && s.cache[d].at == s.now
  }

  lemma DueUntilBuried(s: State, t: State, id: OpId, d: DeviceId)
    requires Next(s, t) && Due(s, id, d)
    ensures Due(t, id, d) || JustBuried(t, d)
  {
    var e :| Enabled(s, e) && t == Apply(s, e);
    if e.Bury? && e.id == id {
      BuryWrites(s, id, e.device, d);
    } else {
      BuryingWaits(s, e, id);
    }
  }

  lemma BuryWrites(s: State, id: OpId, device: DeviceId, d: DeviceId)
    requires Enabled(s, Bury(id, device)) && Due(s, id, d)
    ensures var t := Buried(s, id, device); if d == device then JustBuried(t, d) else Due(t, id, d)
  {
    assert Buried(s, id, device).cache == Entombed(s, device, s.ops[id].began).cache;
    assert d != device ==> d in s.ops[id].pc.ids - {device};
  }

  lemma BuryingWaits(s: State, e: Event, id: OpId)
    requires Enabled(s, e) && id in s.ops && s.ops[id].pc.Burying? && !(e.Bury? && e.id == id)
    ensures id in Apply(s, e).ops && Apply(s, e).ops[id].pc == s.ops[id].pc
  {
  }

  lemma {:induction false} DueOrBuried(b: seq<State>, i: nat, j: nat, id: OpId, d: DeviceId) returns (k: nat)
    requires Run(b) && i <= j < |b| && Due(b[i], id, d)
    ensures Due(b[j], id, d) || (i < k <= j && JustBuried(b[k], d))
  {
    k := i;
    if i < j {
      k := DueOrBuried(b, i, j - 1, id, d);
      if Due(b[j - 1], id, d) {
        assert StepAt(b, j - 1);
        DueUntilBuried(b[j - 1], b[j], id, d);
        k := j;
      }
    }
  }

  /** When a delete is done, every device it was to bury, whether it took the row or was only named,
      has had a tombstone written since the rows went. */
  lemma FinishedDeleteHasBuried(b: seq<State>, i: nat, j: nat, id: OpId, d: DeviceId) returns (k: nat)
    requires Run(b) && i < j < |b| && Removes(b[i], b[i + 1], id) && id in b[j].ops && b[j].ops[id].pc == Done(Removed)
    requires Takes(b[i], id, d) || (b[i].ops[id].task.Delete? && d == b[i].ops[id].task.device)
    ensures i < k <= j && JustBuried(b[k], d) && b[i].ops[id].began <= b[k].cache[d].at
  {
    RemovalIsExact(b[i], b[i + 1], id);
    k := DueOrBuried(b, i + 1, j, id, d);
    CacheStaleness.BegunBefore(b, i, id);
    CacheSafety.RunIsLater(b, i, k);
  }

  /** And from then on the device is gone: no row, nothing live in the cache, and no load finds it,
      as long as operations are shorter than a tombstone's lifetime. */
  lemma FinishedDeleteIsFinal(b: seq<State>, i: nat, j: nat, later: nat, id: OpId, d: DeviceId)
    requires Run(b) && i < j <= later < |b| && Removes(b[i], b[i + 1], id)
    requires id in b[j].ops && b[j].ops[id].pc == Done(Removed) && Takes(b[i], id, d)
    requires forall k :: i < k < later ==> CacheStaleness.Brisk(b[k])
    ensures d !in b[later].rows && Hit(Live(b[later], d)).None? && CacheStaleness.LoadsFindNothing(b[later], d)
  {
    var k := FinishedDeleteHasBuried(b, i, j, id, d);
    RemovalIsExact(b[i], b[i + 1], id);
    assert Wrappers.Lookup(b[i + 1].rows, d) == None;
    CacheStaleness.RemovedRowIsNeverLoaded(b, i, i + 1, k, d);
    CacheStaleness.DeletionIsFinal(b, i, k, later, d);
  }
}
