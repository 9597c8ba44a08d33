/**
 The concurrent protocol, one operation at a time, is the class `CachedDb`: left alone, each
 operation runs to its end, answers what the class answers, and does to the table and to the live
 entries what the class does.
 */
module CacheSolo {
  import opened Wrappers
  import opened Secrets
  import opened Devices
  import opened CacheProtocol
  import Class = CachedDb

  /** The live entries, as the memory cache holds them. */
  function LiveSecrets(s: State): map<DeviceId, Secret> {
    map d | d in s.cache && Live(s, d).Some? :: Live(s, d).value
  }

  ghost predicate Plays(s: State, es: seq<Event>, t: State)
    decreases |es|
  {
    if es == [] then t == s else Enabled(s, es[0]) && Plays(Apply(s, es[0]), es[1..], t)
  }

  lemma PlayOne(s: State, e: Event, es: seq<Event>, t: State)
    requires Enabled(s, e) && Plays(Apply(s, e), es, t)
    ensures Plays(s, [e] + es, t)
  {
    assert ([e] + es)[1..] == es;
  }

  /** Nobody is loading this device on this instance. */
  ghost predicate Idle(s: State, instance: nat, d: DeviceId) {
    forall id :: id in s.ops ==> !Leads(s.ops[id], instance, d)
  }

  function Verdict(answer: Answer): Result<Secret, DbError> {
    if answer.Found? then Success(answer.secret) else Failure(DeviceNotFound)
  }

  lemma HitEnds(s: State, id: OpId, instance: nat, d: DeviceId) returns (es: seq<Event>, t: State)
    requires id !in s.ops && Hit(Live(s, d)).Some?
    ensures Plays(s, es, t) && t.rows == s.rows && t.cache == s.cache && t.now == s.now
    ensures id in t.ops && t.ops[id].pc.Done?
    ensures t.ops[id].pc.answer.Found? && t.ops[id].pc.answer.secret == Hit(Live(s, d)).value
  {
    var s1 := Apply(s, Begin(id, Lookup(instance, d)));
    assert Live(s1, d) == Live(s, d);
    t := Apply(s1, ReadCache(id));
    PlayOne(s1, ReadCache(id), [], t);
    PlayOne(s, Begin(id, Lookup(instance, d)), [ReadCache(id)] + [], t);
    es := [Begin(id, Lookup(instance, d))] + ([ReadCache(id)] + []);
  }

  function LoadEvents(id: OpId, instance: nat, d: DeviceId): seq<Event> {
    [Begin(id, Lookup(instance, d)), ReadCache(id), Lead(id), ReadRow(id)]
  }

  /** A lookup that misses leads a load as far as the row. */
  lemma MissLoads(s: State, id: OpId, instance: nat, d: DeviceId) returns (t: State)
    requires id !in s.ops && Hit(Live(s, d)).None? && Idle(s, instance, d)
    ensures t.rows == s.rows && t.cache == s.cache && t.now == s.now
    ensures id in t.ops && t.ops[id].task == Lookup(instance, d)
    ensures if d in s.rows
      then var row := Secret(s.rows[d].secret, s.rows[d].generation);
        t.ops[id].pc.Carrying? && t.ops[id].pc.secret == row && !t.ops[id].pc.stored
        && t.ops[id].pc.answer.Found? && t.ops[id].pc.answer.secret == row
      else t.ops[id].pc == Empty
    ensures forall es, u :: Plays(t, es, u) ==>
      Plays(s, LoadEvents(id, instance, d) + es, u)
  {
    var s1 := Apply(s, Begin(id, Lookup(instance, d)));
    assert Live(s1, d) == Live(s, d);
    var s2 := Apply(s1, ReadCache(id));
    var s3 := Apply(s2, Lead(id));
    t := Apply(s3, ReadRow(id));
    forall es, u | Plays(t, es, u)
      ensures Plays(s, LoadEvents(id, instance, d) + es, u)
    {
      PlayOne(s3, ReadRow(id), es, u);
      PlayOne(s2, Lead(id), [ReadRow(id)] + es, u);
      PlayOne(s1, ReadCache(id), [Lead(id)] + ([ReadRow(id)] + es), u);
      PlayOne(s, Begin(id, Lookup(instance, d)), [ReadCache(id)] + ([Lead(id)] + ([ReadRow(id)] + es)), u);
      assert LoadEvents(id, instance, d) + es ==
        [Begin(id, Lookup(instance, d))] + ([ReadCache(id)] + ([Lead(id)] + ([ReadRow(id)] + es)));
    }
  }

  /** What a write does to the live entries. */
  lemma WriteOffers(s: State, id: OpId)
    requires Enabled(s, WriteCache(id)) && s.ops[id].pc.secret.value != ""
    ensures var d, t := s.ops[id].task.device, Apply(s, WriteCache(id));
      LiveSecrets(t) == LiveSecrets(s)[d := Newer(Wrappers.Lookup(LiveSecrets(s), d), s.ops[id].pc.secret)]
  {
    var d, t := s.ops[id].task.device, Apply(s, WriteCache(id));
    assert t.cache == Offered(s, id).cache && t.now == s.now;
    assert Wrappers.Lookup(LiveSecrets(s), d) == Live(s, d);
    forall o ensures Wrappers.Lookup(LiveSecrets(t), o) == Live(t, o) && (o != d ==> Live(t, o) == Live(s, o)) {
    }
    assert Live(t, d) == Some(Newer(Live(s, d), s.ops[id].pc.secret));
  }

  /** A lookup on its own is `GetDeviceSecret`. */
  lemma LookupAlone(s: State, id: OpId, instance: nat, d: DeviceId) returns (es: seq<Event>, t: State)
    requires id !in s.ops && Idle(s, instance, d) && (d in s.rows ==> s.rows[d].secret != "")
    requires Hit(Live(s, d)).Some? ==> Selected(s.rows, d) == Success(Hit(Live(s, d)).value)
    ensures Plays(s, es, t) && id in t.ops && t.ops[id].pc.Done? && t.rows == s.rows
    ensures Verdict(t.ops[id].pc.answer) == LookedUp(s.rows, d)
    ensures LiveSecrets(t) == Class.Filled(LiveSecrets(s), s.rows, d)
  {
    assert Wrappers.Lookup(LiveSecrets(s), d) == Live(s, d);
    if Hit(Live(s, d)).Some? {
      es, t := HitEnds(s, id, instance, d);
      assert forall o :: Live(t, o) == Live(s, o);
    } else {
      var m := MissLoads(s, id, instance, d);
      assert forall o :: Live(m, o) == Live(s, o);
      assert LiveSecrets(m) == LiveSecrets(s);
      if d in s.rows {
        var w := Apply(m, WriteCache(id));
        t := Apply(w, Finish(id));
        WriteOffers(m, id);
        assert forall o :: Live(t, o) == Live(w, o);
        assert LiveSecrets(t) == LiveSecrets(w);
        PlayOne(w, Finish(id), [], t);
        PlayOne(m, WriteCache(id), [Finish(id)] + [], t);
        es := LoadEvents(id, instance, d) + ([WriteCache(id)] + ([Finish(id)] + []));
      } else {
        t := Apply(m, Finish(id));
        assert forall o :: Live(t, o) == Live(m, o);
        PlayOne(m, Finish(id), [], t);
        es := LoadEvents(id, instance, d) + ([Finish(id)] + []);
      }
    }
  }

  /** An update as far as the increment. */
  lemma UpdateIncrements(s: State, id: OpId, d: DeviceId) returns (t: State)
    requires id !in s.ops && d in s.rows
    ensures t.rows == RowsIncremented(s.rows, d) && t.cache == s.cache && t.now == s.now
    ensures id in t.ops && t.ops[id].task == Update(d)
    ensures t.ops[id].pc.Bumped? && t.ops[id].pc.generation == s.rows[d].generation + 1
    ensures forall es, u :: Plays(t, es, u) ==> Plays(s, [Begin(id, Update(d))] + ([Increment(id)] + es), u)
  {
    var s1 := Apply(s, Begin(id, Update(d)));
    t := Apply(s1, Increment(id));
    assert t.rows == RowBumped(s1, d).rows;
    forall es, u | Plays(t, es, u) ensures Plays(s, [Begin(id, Update(d))] + ([Increment(id)] + es), u) {
      PlayOne(s1, Increment(id), es, u);
      PlayOne(s, Begin(id, Update(d)), [Increment(id)] + es, u);
    }
  }

  /** The cached value, or the row, comes out as the row with its new generation. */
  lemma UpdateTakesUp(s: State, id: OpId, d: DeviceId) returns (t: State, middle: seq<Event>)
    requires id in s.ops && s.ops[id].task == Update(d) && s.ops[id].pc.Bumped? && d in s.rows
    requires s.ops[id].pc.generation == s.rows[d].generation
    requires Hit(Live(s, d)).Some? ==>
      Hit(Live(s, d)).value.value == s.rows[d].secret && Hit(Live(s, d)).value.generation <= s.rows[d].generation
    ensures t.rows == s.rows && t.cache == s.cache && t.now == s.now && id in t.ops && t.ops[id].task == Update(d)
    ensures t.ops[id].pc.Carrying? && !t.ops[id].pc.stored
    ensures t.ops[id].pc.secret == Secret(s.rows[d].secret, s.rows[d].generation)
    ensures t.ops[id].pc.answer == Updated(s.rows[d].generation, true)
    ensures forall es, u :: Plays(t, es, u) ==> Plays(s, middle + es, u)
  {
    if Hit(Live(s, d)).Some? {
      t := Apply(s, ReadCache(id));
      middle := [ReadCache(id)];
      forall es, u | Plays(t, es, u) ensures Plays(s, middle + es, u) {
        PlayOne(s, ReadCache(id), es, u);
      }
    } else {
      var s1 := Apply(s, ReadCache(id));
      t := Apply(s1, ReadRow(id));
      middle := [ReadCache(id), ReadRow(id)];
      forall es, u | Plays(t, es, u) ensures Plays(s, middle + es, u) {
        PlayOne(s1, ReadRow(id), es, u);
        PlayOne(s, ReadCache(id), [ReadRow(id)] + es, u);
        assert middle + es == [ReadCache(id)] + ([ReadRow(id)] + es);
      }
    }
  }

  lemma UpdateOfRow(s: State, id: OpId, d: DeviceId) returns (es: seq<Event>, t: State)
    requires id !in s.ops && d in s.rows && s.rows[d].secret != ""
    requires Hit(Live(s, d)).Some? ==> Selected(s.rows, d) == Success(Hit(Live(s, d)).value)
    ensures Plays(s, es, t) && id in t.ops && t.ops[id].pc == Done(Updated(s.rows[d].generation + 1, true))
    ensures t.rows == RowsIncremented(s.rows, d) && LiveSecrets(t) == Class.Offered(LiveSecrets(s), t.rows, d)
  {
    var s1 := UpdateIncrements(s, id, d);
    assert forall o :: Live(s1, o) == Live(s, o);
    var s2, middle := UpdateTakesUp(s1, id, d);
    assert forall o :: Live(s2, o) == Live(s, o);
    assert LiveSecrets(s2) == LiveSecrets(s);
    t := Apply(s2, WriteCache(id));
    WriteOffers(s2, id);
    PlayOne(s2, WriteCache(id), [], t);
    assert Plays(s1, middle + ([WriteCache(id)] + []), t);
    es := [Begin(id, Update(d))] + ([Increment(id)] + (middle + ([WriteCache(id)] + [])));
  }

  lemma UpdateOfNothing(s: State, id: OpId, d: DeviceId) returns (es: seq<Event>, t: State)
    requires id !in s.ops && d !in s.rows
    ensures Plays(s, es, t) && id in t.ops && t.ops[id].pc == Done(UpdateFailed)
    ensures t.rows == s.rows && LiveSecrets(t) == LiveSecrets(s)
  {
    var s1 := Apply(s, Begin(id, Update(d)));
    t := Apply(s1, Increment(id));
    assert forall o :: Live(t, o) == Live(s, o);
    PlayOne(s1, Increment(id), [], t);
    PlayOne(s, Begin(id, Update(d)), [Increment(id)] + [], t);
    es := [Begin(id, Update(d))] + ([Increment(id)] + []);
  }

  /** An update on its own is `UpdateDeviceSecret`, over a cache that repeats the table. */
  lemma UpdateAlone(s: State, id: OpId, d: DeviceId) returns (es: seq<Event>, t: State)
    requires id !in s.ops && (d in s.rows ==> s.rows[d].secret != "")
    requires Hit(Live(s, d)).Some? ==> Selected(s.rows, d) == Success(Hit(Live(s, d)).value)
    ensures Plays(s, es, t) && id in t.ops && t.ops[id].pc.Done? && t.rows == RowsIncremented(s.rows, d)
    ensures t.ops[id].pc.answer ==
      if d in s.rows then Updated(s.rows[d].generation + 1, true) else UpdateFailed
    ensures LiveSecrets(t) == Class.Offered(LiveSecrets(s), t.rows, d)
  {
    if d in s.rows {
      es, t := UpdateOfRow(s, id, d);
    } else {
      es, t := UpdateOfNothing(s, id, d);
    }
  }

  lemma BuryBuries(s: State, id: OpId, d: DeviceId)
    requires Enabled(s, Bury(id, d))
    ensures LiveSecrets(Apply(s, Bury(id, d))) == LiveSecrets(s)[d := TOMBSTONE]
  {
    var t := Apply(s, Bury(id, d));
    assert t.cache == Entombed(s, d, s.ops[id].began).cache && t.now == s.now;
    forall o ensures o != d ==> Live(t, o) == Live(s, o) {
    }
    assert Live(t, d) == Some(TOMBSTONE);
  }

  /** A delete on its own is `DeleteDevice`, whoever it names. */
  lemma DeleteAlone(s: State, id: OpId, user: Email, d: DeviceId) returns (es: seq<Event>, t: State)
    requires id !in s.ops
    ensures Plays(s, es, t) && id in t.ops && t.ops[id].pc == Done(Removed)
    ensures t.rows == RowsWithout(s.rows, user, d) && LiveSecrets(t) == LiveSecrets(s)[d := TOMBSTONE]
  {
    var s1 := Apply(s, Begin(id, Delete(user, d)));
    var s2 := Apply(s1, RemoveRows(id));
    assert s2.rows == s.rows - Doomed(s1, Delete(user, d));
    assert s2.rows == RowsWithout(s.rows, user, d);
    assert forall o :: Live(s2, o) == Live(s, o);
    assert LiveSecrets(s2) == LiveSecrets(s);
    t := Apply(s2, Bury(id, d));
    BuryBuries(s2, id, d);
    PlayOne(s2, Bury(id, d), [], t);
    PlayOne(s1, RemoveRows(id), [Bury(id, d)] + [], t);
    PlayOne(s, Begin(id, Delete(user, d)), [RemoveRows(id)] + ([Bury(id, d)] + []), t);
    es := [Begin(id, Delete(user, d))] + ([RemoveRows(id)] + ([Bury(id, d)] + []));
  }
}
