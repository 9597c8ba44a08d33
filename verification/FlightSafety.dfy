/**
 What every run of the flight group keeps: the lock has one holder, a stored result is never
 overwritten, an in-flight-only execution never reuses a result older than itself, and in the
 window of a stored result ordinary calls run `fn` successfully at most once.
 */
module FlightSafety {
  import opened Wrappers
  import opened Flight

  predicate HoldsLock<V>(pc: Pc<V>) {
    || pc.Rechecking?
    || (pc.Running? && (pc.mode.Fresh? || pc.mode.Replay?))
    || (pc.Storing? && pc.mode.Fresh?)
    || (pc.Leaving? && pc.locked)
  }

  ghost predicate Succeeded<V>(s: State<V>, value: V) {
    exists i :: 0 <= i < |s.runs| && s.runs[i].value == value
  }

  /** The value a call is about to answer with, or has. */
  function Claimed<V>(pc: Pc<V>): Option<V> {
    if pc.Storing? then Some(pc.value)
    else if (pc.Leaving? || pc.Returned?) && pc.outcome.Success? then Some(pc.outcome.value)
    else None
  }

  /** What the program counter of one call promises, Redis answering. Past its deadline a call
      may have lost the lock, but then it stores nothing. */
  ghost predicate CallOk<V>(s: State<V>, id: CallId)
    requires id in s.calls
  {
    var call := s.calls[id];
    && call.began <= s.step
    && (HoldsLock(call.pc) ==> s.distributed && (InTime(s, call) ==> s.lock == Some(id)))
    && (Executing(call.pc) ==> call.instance in s.leader && s.leader[call.instance] == id)
    && (call.pc.Running? && call.pc.mode.Local? ==> !s.distributed)
    && (call.pc.WantLock? ==> s.distributed)
    && (call.replay ==> call.inFlightOnly)
    && (Claimed(call.pc).Some? ==> Succeeded(s, Claimed(call.pc).value))
    && match call.pc
       case Checking => !call.replay && (call.inFlightOnly ==> s.distributed)
       case WantLock => NoOlderResult(s, call)
       case Rechecking => !call.replay && NoOlderResult(s, call)
       case Running(mode) =>
         && (mode.Replay? ==> call.replay) && (call.replay ==> mode.Replay? || mode.Alone?)
         && (mode.Fresh? && InTime(s, call) ==> s.result.None?)
       case Storing(value, mode) =>
         && !call.replay
         && (mode.Fresh? || mode.Local?) && (mode.Fresh? <==> s.distributed)
         && (mode.Fresh? && InTime(s, call) ==> s.result.None?)
       case Leaving(outcome, source, locked) => SourceOk(call, source)
       case Following(leader) =>
         && !call.replay && leader in s.calls && s.calls[leader].instance == call.instance
         && !s.calls[leader].pc.Following?
       case Returned(outcome, source) => SourceOk(call, source)
  }

  /** A call that did not find a result at first can only ever meet one stored later. */
  ghost predicate NoOlderResult<V>(s: State<V>, call: Call<V>) {
    !call.replay && s.result.Some? ==> call.began < s.result.value.at
  }

  ghost predicate SourceOk<V>(call: Call<V>, source: Source) {
    && (call.replay ==> source.Ran?)
    && (call.inFlightOnly && source.Reused? ==> call.began < source.at)
  }

  ghost predicate Inv<V>(s: State<V>) {
    && (s.result.Some? ==> s.distributed && Succeeded(s, s.result.value.value) && s.result.value.at <= s.step)
    && (s.distributed ==> s.memory == map[])
    && (forall i :: i in s.memory ==> Succeeded(s, s.memory[i].value))
    && (forall id :: id in s.calls ==> CallOk(s, id))
  }

  // --- steps that move one call ------------------------------------------------------------

  /** Nothing that the other calls rely on changes. */
  ghost predicate Quiet<V>(s: State<V>, t: State<V>, id: CallId) {
    && t.distributed == s.distributed && s.step <= t.step && t.now == s.now
    && (t.result == s.result || t.result.None?)
    && s.runs <= t.runs
    && id in t.calls && t.calls == s.calls[id := t.calls[id]]
    && (forall o :: o in s.calls && o != id && HoldsLock(s.calls[o].pc) && InTime(s, s.calls[o]) ==> t.lock == s.lock)
    && (forall o :: o in s.calls && o != id && Executing(s.calls[o].pc) ==>
      var i := s.calls[o].instance; i in t.leader && (i in s.leader ==> t.leader[i] == s.leader[i]))
    && (id in s.calls ==>
      t.calls[id].instance == s.calls[id].instance && (t.calls[id].pc.Following? ==> s.calls[id].pc.Following?))
  }

  lemma SucceededStays<V>(s: State<V>, t: State<V>, value: V)
    requires Succeeded(s, value) && s.runs <= t.runs
    ensures Succeeded(t, value)
  {
    var i :| 0 <= i < |s.runs| && s.runs[i].value == value;
    assert t.runs[i].value == value;
  }

  lemma CallStays<V>(s: State<V>, t: State<V>, id: CallId, o: CallId)
    requires Quiet(s, t, id) && o in s.calls && o != id && CallOk(s, o)
    requires s.calls[o].pc.Following? ==> id in s.calls || s.calls[o].pc.leader != id
    ensures CallOk(t, o)
  {
    if Claimed(s.calls[o].pc).Some? {
      SucceededStays(s, t, Claimed(s.calls[o].pc).value);
    }
  }

  /** A quiet step of one call keeps the invariant if the call itself ends up sound. */
  lemma QuietKeepsInv<V>(s: State<V>, t: State<V>, id: CallId)
    requires Inv(s) && Quiet(s, t, id) && CallOk(t, id)
    requires t.memory == s.memory
    ensures Inv(t)
  {
    forall o | o in t.calls ensures CallOk(t, o) {
      if o != id {
        assert CallOk(s, o);
        CallStays(s, t, id, o);
      }
    }
    forall i | i in t.memory ensures Succeeded(t, t.memory[i].value) {
      SucceededStays(s, t, t.memory[i].value);
    }
    if t.result.Some? {
      SucceededStays(s, t, t.result.value.value);
    }
  }

  lemma StartKeepsInv<V>(s: State<V>, id: CallId, instance: Instance, inFlightOnly: bool)
    requires Inv(s) && LeadersOk(s) && id !in s.calls
    ensures Inv(Started(s, id, instance, inFlightOnly))
  {
    var t := Started(s, id, instance, inFlightOnly);
    forall o | o in s.calls ensures CallOk(s, o) {
    }
    QuietKeepsInv(s, t, id);
  }

  /** The singleflight group only lists calls that are in flight and lead. */
  ghost predicate LeadersOk<V>(s: State<V>) {
    forall i :: i in s.leader ==>
      s.leader[i] in s.calls && s.calls[s.leader[i]].instance == i && Executing(s.calls[s.leader[i]].pc)
  }

  lemma LoadKeepsInv<V>(s: State<V>, id: CallId)
    requires Inv(s) && Enabled(s, Load(id))
    ensures Inv(Loaded(s, id))
  {
    assert CallOk(s, id);
    QuietKeepsInv(s, Loaded(s, id), id);
  }

  lemma AcquireKeepsInv<V>(s: State<V>, id: CallId)
    requires Inv(s) && Enabled(s, Acquire(id))
    ensures Inv(Acquired(s, id))
  {
    assert CallOk(s, id);
    forall o | o in s.calls ensures !HoldsLock(s.calls[o].pc) || !InTime(s, s.calls[o]) {
      assert CallOk(s, o);
    }
    QuietKeepsInv(s, Acquired(s, id), id);
  }

  lemma RecheckKeepsInv<V>(s: State<V>, id: CallId)
    requires Inv(s) && Enabled(s, Recheck(id))
    ensures Inv(Rechecked(s, id))
  {
    assert CallOk(s, id);
    QuietKeepsInv(s, Rechecked(s, id), id);
  }

  lemma ReturnKeepsInv<V>(s: State<V>, id: CallId, outcome: Result<V, string>)
    requires Inv(s) && Enabled(s, Return(id, outcome))
    ensures Inv(Ended(s, id, outcome))
  {
    var t := Ended(s, id, outcome);
    assert CallOk(s, id);
    if outcome.Success? {
      assert t.runs[|s.runs|].value == outcome.value;
    }
    QuietKeepsInv(s, t, id);
  }

  lemma UnlockKeepsInv<V>(s: State<V>, id: CallId)
    requires Inv(s) && Enabled(s, Unlock(id))
    ensures Inv(Unlocked(s, id))
  {
    assert CallOk(s, id);
    forall o | o in s.calls && o != id && HoldsLock(s.calls[o].pc) && InTime(s, s.calls[o]) ensures s.lock == Some(o) {
      assert CallOk(s, o);
    }
    QuietKeepsInv(s, Unlocked(s, id), id);
  }

  lemma FinishKeepsInv<V>(s: State<V>, id: CallId)
    requires Inv(s) && Enabled(s, Finish(id))
    ensures Inv(Finished(s, id))
  {
    assert CallOk(s, id);
    forall o | o in s.calls && o != id
      ensures Executing(s.calls[o].pc) ==> s.calls[o].instance != s.calls[id].instance
    {
      assert CallOk(s, o);
    }
    QuietKeepsInv(s, Finished(s, id), id);
  }

  lemma ReceiveKeepsInv<V>(s: State<V>, id: CallId)
    requires Inv(s) && Enabled(s, Receive(id))
    ensures Inv(Apply(s, Receive(id)))
  {
    assert CallOk(s, id);
    QuietKeepsInv(s, Apply(s, Receive(id)), id);
  }

  /** The result is stored by the lock holder, so no other call is past its recheck. */
  lemma StoreKeepsInv<V>(s: State<V>, id: CallId)
    requires Inv(s) && Enabled(s, Store(id))
    ensures Inv(Kept(s, id))
  {
    var t := Kept(s, id);
    assert CallOk(s, id);
    SucceededStays(s, t, s.calls[id].pc.value);
    forall o | o in t.calls ensures CallOk(t, o) {
      assert CallOk(s, o);
      if o != id && Claimed(s.calls[o].pc).Some? {
        SucceededStays(s, t, Claimed(s.calls[o].pc).value);
      }
    }
    forall i | i in t.memory ensures Succeeded(t, t.memory[i].value) {
      if i in s.memory && t.memory[i] == s.memory[i] {
        SucceededStays(s, t, t.memory[i].value);
      }
    }
  }

  lemma FailureKeepsInv<V>(s: State<V>, e: Event<V>)
    requires Inv(s) && Enabled(s, e) && Healthy(s, e) && Fails(e)
    ensures Inv(Apply(s, e))
  {
    assert CallOk(s, e.id);
    if e.StoreFails? {
      SucceededStays(s, Apply(s, e), s.calls[e.id].pc.value);
    }
    QuietKeepsInv(s, Apply(s, e), e.id);
  }

  /** No call moves: a result runs out, time passes, or an overdue lock is given up. */
  lemma ExpiryKeepsInv<V>(s: State<V>, e: Event<V>)
    requires Inv(s) && Enabled(s, e) && (e.Expire? || e.Forget? || e.Tick? || e.Lapse?)
    ensures Inv(Apply(s, e))
  {
    var t := Apply(s, e);
    forall o | o in t.calls ensures CallOk(t, o) {
      assert CallOk(s, o);
      if Claimed(s.calls[o].pc).Some? {
        SucceededStays(s, t, Claimed(s.calls[o].pc).value);
      }
    }
    forall i | i in t.memory ensures Succeeded(t, t.memory[i].value) {
      SucceededStays(s, t, t.memory[i].value);
    }
    if t.result.Some? {
      SucceededStays(s, t, t.result.value.value);
    }
  }

  lemma LeadersMove<V>(s: State<V>, t: State<V>, id: CallId)
    requires LeadersOk(s) && id in s.calls && id in t.calls && t.leader == s.leader
    requires t.calls == s.calls[id := t.calls[id]] && t.calls[id].instance == s.calls[id].instance
    requires Executing(t.calls[id].pc) || !Executing(s.calls[id].pc)
    ensures LeadersOk(t)
  {
  }

  lemma LeadersStart<V>(s: State<V>, id: CallId, instance: Instance, inFlightOnly: bool)
    requires LeadersOk(s) && id !in s.calls
    ensures LeadersOk(Started(s, id, instance, inFlightOnly))
  {
  }

  lemma LeadersFinish<V>(s: State<V>, id: CallId)
    requires LeadersOk(s) && Enabled(s, Finish(id)) && CallOk(s, id)
    ensures LeadersOk(Finished(s, id))
  {
  }

  lemma LeadersCheck<V>(s: State<V>, e: Event<V>)
    requires LeadersOk(s) && Enabled(s, e) && (e.Load? || e.Acquire? || e.Recheck?)
    ensures LeadersOk(Apply(s, e))
  {
    LeadersMove(s, Apply(s, e), e.id);
  }

  lemma LeadersWork<V>(s: State<V>, e: Event<V>)
    requires LeadersOk(s) && Enabled(s, e) && (e.Return? || e.Store?)
    ensures LeadersOk(Apply(s, e))
  {
    LeadersMove(s, Apply(s, e), e.id);
  }

  lemma LeadersLeave<V>(s: State<V>, e: Event<V>)
    requires LeadersOk(s) && Enabled(s, e) && (e.Unlock? || e.Receive?)
    ensures LeadersOk(Apply(s, e))
  {
    LeadersMove(s, Apply(s, e), e.id);
  }

  lemma LeadersFail<V>(s: State<V>, e: Event<V>)
    requires LeadersOk(s) && Enabled(s, e) && Fails(e)
    ensures LeadersOk(Apply(s, e))
  {
    LeadersMove(s, Apply(s, e), e.id);
  }

  lemma LeadersStayOk<V>(s: State<V>, e: Event<V>)
    requires Inv(s) && LeadersOk(s) && Enabled(s, e) && Healthy(s, e)
    ensures LeadersOk(Apply(s, e))
  {
    if e.Load? || e.Acquire? || e.Recheck? {
      LeadersCheck(s, e);
    } else if Fails(e) {
      LeadersFail(s, e);
    } else if e.Start? {
      LeadersStart(s, e.id, e.instance, e.inFlightOnly);
    } else if e.Finish? {
      LeadersFinish(s, e.id);
    } else if e.Return? || e.Store? {
      LeadersWork(s, e);
    } else if e.Unlock? || e.Receive? {
      LeadersLeave(s, e);
    }
  }

  lemma StepKeepsInv<V>(s: State<V>, e: Event<V>)
    requires Inv(s) && LeadersOk(s) && Enabled(s, e) && Healthy(s, e)
    ensures Inv(Apply(s, e)) && LeadersOk(Apply(s, e))
  {
    LeadersStayOk(s, e);
    match e
    case Start(id, instance, inFlightOnly) => StartKeepsInv(s, id, instance, inFlightOnly);
    case Load(id) => LoadKeepsInv(s, id);
    case Acquire(id) => AcquireKeepsInv(s, id);
    case Recheck(id) => RecheckKeepsInv(s, id);
    case Return(id, outcome) => ReturnKeepsInv(s, id, outcome);
    case Store(id) => StoreKeepsInv(s, id);
    case Unlock(id) => UnlockKeepsInv(s, id);
    case Finish(id) => FinishKeepsInv(s, id);
    case Receive(id) => ReceiveKeepsInv(s, id);
    case Lapse(id) => ExpiryKeepsInv(s, e);
    case Tick(now) => ExpiryKeepsInv(s, e);
    case Expire => ExpiryKeepsInv(s, e);
    case Forget(instance) => ExpiryKeepsInv(s, e);
    case _ => FailureKeepsInv(s, e);
  }

  // --- runs in which Redis answers; results may expire and calls may be of either kind -----

  lemma {:induction false} InvAlways<V(!new)>(b: seq<State<V>>, i: nat)
    requires HealthyRun(b) && i < |b|
    ensures Inv(b[i]) && LeadersOk(b[i])
  {
    if i > 0 {
      InvAlways(b, i - 1);
      assert HealthyAt(b, i - 1);
      var e :| Enabled(b[i - 1], e) && Healthy(b[i - 1], e) && b[i] == Apply(b[i - 1], e);
      StepKeepsInv(b[i - 1], e);
    }
  }

  /** A stored result only ever gives way to its own expiry, and it is the value of a run of
      `fn` that succeeded. */
  lemma StoredResultIsWriteOnce<V(!new)>(b: seq<State<V>>, i: nat)
    requires HealthyRun(b) && i + 1 < |b| && b[i].result.Some?
    ensures b[i + 1].result == b[i].result || b[i + 1].result.None?
    ensures Succeeded(b[i], b[i].result.value.value)
  {
    InvAlways(b, i);
    assert HealthyAt(b, i);
    var e :| Enabled(b[i], e) && Healthy(b[i], e) && b[i + 1] == Apply(b[i], e);
    if e.Store? {
      assert CallOk(b[i], e.id);
    }
  }

  /** An in-flight-only execution that answers with a stored result answers with one stored
      after it began, and an execution that found a result on arrival reruns `fn`. */
  lemma InFlightOnlyNeverReusesTheFinished<V(!new)>(b: seq<State<V>>, i: nat, id: CallId)
    requires HealthyRun(b) && i < |b| && id in b[i].calls && b[i].calls[id].inFlightOnly && b[i].calls[id].pc.Returned?
    ensures b[i].calls[id].pc.source.Reused? ==> b[i].calls[id].began < b[i].calls[id].pc.source.at
    ensures b[i].calls[id].replay ==> b[i].calls[id].pc.source == Ran
  {
    InvAlways(b, i);
    assert CallOk(b[i], id);
  }

  // --- ordinary calls inside the window of a stored result ---------------------------------

  /** `fn` has succeeded at most once: over all instances, or per instance without Redis. */
  ghost predicate AtMostOnce<V>(s: State<V>) {
    if s.distributed then |s.runs| <= 1
    else forall i, j :: 0 <= i < j < |s.runs| ==> s.runs[i].instance != s.runs[j].instance
  }

  ghost predicate NoRun<V>(s: State<V>, instance: Instance) {
    if s.distributed then s.runs == [] else forall i :: 0 <= i < |s.runs| ==> s.runs[i].instance != instance
  }

  /** The stored result this instance would answer with. */
  function Answer<V>(s: State<V>, instance: Instance): Option<V> {
    if s.distributed then (if s.result.Some? then Some(s.result.value.value) else None)
    else if instance in s.memory then Some(s.memory[instance].value) else None
  }

  ghost predicate OrdinaryCallOk<V>(s: State<V>, id: CallId)
    requires id in s.calls
  {
    var call := s.calls[id];
    && !call.inFlightOnly
    && match call.pc
       case Running(mode) => (mode.Fresh? || mode.Local?) && NoRun(s, call.instance) && Answer(s, call.instance).None?
       case Storing(value, mode) => (s.distributed <==> mode.Fresh?) && Answer(s, call.instance).None?
       case Leaving(outcome, _, _) => outcome.Success? ==> Answer(s, call.instance) == Some(outcome.value)
       case Returned(outcome, _) => outcome.Success? ==> Answer(s, call.instance) == Some(outcome.value)
       case _ => true
  }

  predicate AboutToStore<V(==)>(call: Call<V>, run: GoodRun<V>) {
    call.instance == run.instance && call.pc.Storing? && call.pc.value == run.value
  }

  /** Every successful run has been stored, or its caller is about to store it. */
  ghost predicate RunKept<V>(s: State<V>, run: GoodRun<V>) {
    || Answer(s, run.instance) == Some(run.value)
    || exists id :: id in s.calls && AboutToStore(s.calls[id], run)
  }

  ghost predicate OrdinaryInv<V>(s: State<V>) {
    && Inv(s) && LeadersOk(s) && Timely(s) && AtMostOnce(s)
    && (forall id :: id in s.calls ==> OrdinaryCallOk(s, id))
    && (forall i :: 0 <= i < |s.runs| ==> RunKept(s, s.runs[i]))
  }

  /** Two calls past their last check never share an answer. */
  lemma RunnersAreApart<V>(s: State<V>, id: CallId, other: CallId)
    requires Inv(s) && Timely(s) && id in s.calls && other in s.calls && id != other
    requires Executing(s.calls[id].pc) && Executing(s.calls[other].pc)
    requires s.distributed ==> HoldsLock(s.calls[id].pc)
    ensures s.distributed ==> !HoldsLock(s.calls[other].pc)
    ensures s.calls[id].instance != s.calls[other].instance
  {
    assert CallOk(s, id) && CallOk(s, other);
  }

  /** With nothing stored and nobody storing, `fn` has not succeeded yet. */
  lemma NothingKeptMeansNoRun<V>(s: State<V>, id: CallId)
    requires OrdinaryInv(s) && id in s.calls && Answer(s, s.calls[id].instance).None?
    requires (s.distributed && s.calls[id].pc.Rechecking?) || (!s.distributed && s.calls[id].pc.Checking?)
    ensures NoRun(s, s.calls[id].instance)
  {
    assert CallOk(s, id);
    forall other | other in s.calls && s.calls[other].pc.Storing?
      ensures !s.distributed && s.calls[other].instance != s.calls[id].instance
    {
      assert OrdinaryCallOk(s, other) && CallOk(s, other);
    }
    assert s.distributed && |s.runs| > 0 ==> RunKept(s, s.runs[0]);
    forall i | 0 <= i < |s.runs| && !s.distributed ensures s.runs[i].instance != s.calls[id].instance {
      assert RunKept(s, s.runs[i]);
    }
  }

  /** A step that stores nothing, runs nothing, and moves one call that was not storing. */
  lemma MoveKeepsOrdinary<V>(s: State<V>, t: State<V>, id: CallId)
    requires OrdinaryInv(s) && Inv(t) && LeadersOk(t) && Timely(t)
    requires t.distributed == s.distributed && t.result == s.result && t.memory == s.memory && t.runs == s.runs
    requires id in t.calls && t.calls == s.calls[id := t.calls[id]] && OrdinaryCallOk(t, id)
    requires id in s.calls ==> !s.calls[id].pc.Storing?
    ensures OrdinaryInv(t)
  {
    forall o | o in t.calls ensures OrdinaryCallOk(t, o) {
      if o != id {
        assert OrdinaryCallOk(s, o);
      }
    }
    forall i | 0 <= i < |t.runs| ensures RunKept(t, t.runs[i]) {
      assert RunKept(s, s.runs[i]);
      if Answer(s, s.runs[i].instance) != Some(s.runs[i].value) {
        var o :| o in s.calls && AboutToStore(s.calls[o], s.runs[i]);
        assert t.calls[o] == s.calls[o];
      }
    }
  }

  lemma CheckKeepsOrdinary<V>(s: State<V>, e: Event<V>)
    requires OrdinaryInv(s) && Enabled(s, e) && (e.Load? || e.Recheck?) && Timely(Apply(s, e))
    ensures OrdinaryInv(Apply(s, e))
  {
    var t := Apply(s, e);
    StepKeepsInv(s, e);
    assert OrdinaryCallOk(s, e.id) && CallOk(s, e.id);
    if t.calls[e.id].pc.Running? {
      NothingKeptMeansNoRun(s, e.id);
    }
    MoveKeepsOrdinary(s, t, e.id);
  }

  /** A run that has just succeeded leaves the other calls as sound as they were. */
  lemma SuccessKeepsOthers<V>(s: State<V>, id: CallId, value: V, o: CallId)
    requires OrdinaryInv(s) && Enabled(s, Return(id, Success(value))) && o in s.calls && o != id
    ensures OrdinaryCallOk(Ended(s, id, Success(value)), o)
  {
    assert OrdinaryCallOk(s, id) && CallOk(s, id) && OrdinaryCallOk(s, o);
    if s.calls[o].pc.Running? {
      RunnersAreApart(s, id, o);
    }
  }

  /** The run itself is about to be stored; earlier ones, on other instances, still are kept. */
  lemma SuccessKeepsRuns<V>(s: State<V>, id: CallId, value: V, i: nat)
    requires OrdinaryInv(s) && Enabled(s, Return(id, Success(value))) && i <= |s.runs|
    ensures var t := Ended(s, id, Success(value)); RunKept(t, t.runs[i])
  {
    var t := Ended(s, id, Success(value));
    assert OrdinaryCallOk(s, id);
    if i < |s.runs| {
      assert RunKept(s, s.runs[i]);
      if Answer(s, s.runs[i].instance) != Some(s.runs[i].value) {
        var o :| o in s.calls && AboutToStore(s.calls[o], s.runs[i]);
        assert t.calls[o] == s.calls[o];
      }
    } else {
      assert t.calls[id].pc.Storing? && t.calls[id].pc.value == t.runs[i].value;
    }
  }

  lemma ReturnKeepsOrdinary<V>(s: State<V>, id: CallId, outcome: Result<V, string>)
    requires OrdinaryInv(s) && Enabled(s, Return(id, outcome)) && Timely(Ended(s, id, outcome))
    ensures OrdinaryInv(Ended(s, id, outcome))
  {
    var t := Ended(s, id, outcome);
    StepKeepsInv(s, Return(id, outcome));
    assert OrdinaryCallOk(s, id) && CallOk(s, id);
    if outcome.Failure? {
      MoveKeepsOrdinary(s, t, id);
    } else {
      forall o | o in t.calls ensures OrdinaryCallOk(t, o) {
        if o != id {
          SuccessKeepsOthers(s, id, outcome.value, o);
        }
      }
      forall i | 0 <= i < |t.runs| ensures RunKept(t, t.runs[i]) {
        SuccessKeepsRuns(s, id, outcome.value, i);
      }
    }
  }

  lemma StoreKeepsOrdinary<V>(s: State<V>, id: CallId)
    requires OrdinaryInv(s) && Enabled(s, Store(id)) && Timely(Kept(s, id))
    ensures OrdinaryInv(Kept(s, id))
  {
    var t := Kept(s, id);
    StepKeepsInv(s, Store(id));
    assert OrdinaryCallOk(s, id) && CallOk(s, id);
    forall o | o in t.calls ensures OrdinaryCallOk(t, o) {
      if o != id {
        assert OrdinaryCallOk(s, o) && CallOk(s, o);
        if s.calls[o].pc.Running? || s.calls[o].pc.Storing? {
          RunnersAreApart(s, id, o);
        }
      }
    }
    forall i | 0 <= i < |t.runs| ensures RunKept(t, t.runs[i]) {
      StoredRunIsKept(s, id, i);
    }
  }

  lemma StoredRunIsKept<V>(s: State<V>, id: CallId, i: nat)
    requires OrdinaryInv(s) && Enabled(s, Store(id)) && i < |s.runs|
    ensures RunKept(Kept(s, id), s.runs[i])
  {
    var t := Kept(s, id);
    assert OrdinaryCallOk(s, id) && CallOk(s, id) && RunKept(s, s.runs[i]);
    if Answer(s, s.runs[i].instance) != Some(s.runs[i].value) {
      var o :| o in s.calls && AboutToStore(s.calls[o], s.runs[i]);
      assert OrdinaryCallOk(s, o) && CallOk(s, o);
      if o != id {
        assert t.calls[o] == s.calls[o];
      }
    }
  }

  /** Nothing that the calls or the results are about changes. */
  lemma IdleKeepsOrdinary<V>(s: State<V>, e: Event<V>)
    requires OrdinaryInv(s) && Enabled(s, e) && (e.Tick? || e.Lapse?) && Timely(Apply(s, e))
    ensures OrdinaryInv(Apply(s, e))
  {
    var t := Apply(s, e);
    StepKeepsInv(s, e);
    forall id | id in t.calls ensures OrdinaryCallOk(t, id) {
      assert OrdinaryCallOk(s, id);
    }
    forall i | 0 <= i < |t.runs| ensures RunKept(t, t.runs[i]) {
      assert RunKept(s, s.runs[i]);
    }
  }

  lemma PlainMoveKeepsOrdinary<V>(s: State<V>, e: Event<V>)
    requires OrdinaryInv(s) && Enabled(s, e) && OrdinaryWindow(e) && Timely(Apply(s, e))
    requires e.Start? || e.Acquire? || e.Unlock? || e.Finish? || e.Receive?
    ensures OrdinaryInv(Apply(s, e))
  {
    StepKeepsInv(s, e);
    if !e.Start? {
      assert OrdinaryCallOk(s, e.id) && CallOk(s, e.id);
      if e.Receive? {
        assert OrdinaryCallOk(s, s.calls[e.id].pc.leader);
      }
    }
    MoveKeepsOrdinary(s, Apply(s, e), e.id);
  }

  /** In time nothing fails. */
  lemma NothingFails<V>(s: State<V>, e: Event<V>)
    requires Timely(s) && Enabled(s, e) && Healthy(s, e)
    ensures !Fails(e)
  {
  }

  lemma OrdinaryStep<V>(s: State<V>, e: Event<V>)
    requires OrdinaryInv(s) && Enabled(s, e) && Healthy(s, e) && OrdinaryWindow(e) && Timely(Apply(s, e))
    ensures OrdinaryInv(Apply(s, e))
  {
    NothingFails(s, e);
    if e.Load? || e.Recheck? {
      CheckKeepsOrdinary(s, e);
    } else if e.Return? {
      ReturnKeepsOrdinary(s, e.id, e.outcome);
    } else if e.Store? {
      StoreKeepsOrdinary(s, e.id);
    } else if e.Tick? || e.Lapse? {
      IdleKeepsOrdinary(s, e);
    } else {
      PlainMoveKeepsOrdinary(s, e);
    }
  }

  lemma {:induction false} OrdinaryAlways<V(!new)>(b: seq<State<V>>, i: nat)
    requires OrdinaryRun(b) && i < |b|
    ensures OrdinaryInv(b[i])
  {
    if i > 0 {
      OrdinaryAlways(b, i - 1);
      assert OrdinaryAt(b, i - 1);
      var e :| Enabled(b[i - 1], e) && Healthy(b[i - 1], e) && OrdinaryWindow(e)
        && b[i] == Apply(b[i - 1], e) && Timely(b[i]);
      OrdinaryStep(b[i - 1], e);
    }
  }

  /** Every successful caller, on time or not, returns the value of a run that succeeded. */
  lemma EveryAnswerWasRun<V(!new)>(b: seq<State<V>>, i: nat, id: CallId)
    requires HealthyRun(b) && i < |b| && id in b[i].calls && b[i].calls[id].pc.Returned?
    requires b[i].calls[id].pc.outcome.Success?
    ensures Succeeded(b[i], b[i].calls[id].pc.outcome.value)
  {
    InvAlways(b, i);
    assert CallOk(b[i], id);
  }

  /** Any number of ordinary calls on any number of instances, in time: `fn` succeeds at most once, and
      every successful caller returns that one value, which is the stored one. Without Redis
      the same holds instance by instance. */
  lemma FnSucceedsAtMostOnce<V(!new)>(b: seq<State<V>>, i: nat)
    requires OrdinaryRun(b) && i < |b|
    ensures AtMostOnce(b[i])
    ensures forall id :: id in b[i].calls && b[i].calls[id].pc.Returned? && b[i].calls[id].pc.outcome.Success? ==>
      && Answer(b[i], b[i].calls[id].instance) == Some(b[i].calls[id].pc.outcome.value)
      && Succeeded(b[i], b[i].calls[id].pc.outcome.value)
  {
    OrdinaryAlways(b, i);
    forall id | id in b[i].calls && b[i].calls[id].pc.Returned? && b[i].calls[id].pc.outcome.Success?
      ensures Answer(b[i], b[i].calls[id].instance) == Some(b[i].calls[id].pc.outcome.value)
      ensures Succeeded(b[i], b[i].calls[id].pc.outcome.value)
    {
      assert OrdinaryCallOk(b[i], id);
    }
  }

  // --- out of time -------------------------------------------------------------------------

  lemma HealthyStep<V(!new)>(b: seq<State<V>>, e: Event<V>) returns (c: seq<State<V>>)
    requires HealthyRun(b) && Enabled(b[|b| - 1], e) && Healthy(b[|b| - 1], e)
    ensures HealthyRun(c) && c == b + [Apply(b[|b| - 1], e)]
  {
    c := b + [Apply(b[|b| - 1], e)];
    forall i | 0 <= i < |c| - 1 ensures HealthyAt(c, i) {
      if i < |b| - 1 {
        assert HealthyAt(b, i);
      }
    }
  }

  ghost predicate Free<V>(s: State<V>) {
    s.distributed && s.leader == map[] && s.lock.None? && s.result.None? && s.timeout > 0
  }

  lemma LateRunning<V(!new)>(b: seq<State<V>>, id: CallId) returns (c: seq<State<V>>)
    requires HealthyRun(b) && Free(b[|b| - 1]) && id !in b[|b| - 1].calls
    ensures HealthyRun(c) && |c| > |b| && c[0] == b[0]
    ensures var s, t := b[|b| - 1], c[|c| - 1];
      && t.distributed && t.leader == map[0 := id] && t.lock == Some(id) && t.result.None? && t.timeout == s.timeout
      && t.calls.Keys == s.calls.Keys + {id} && t.calls[id].pc == Running(Fresh) && t.calls[id].instance == 0
      && t.calls[id].due <= t.now && t.runs == s.runs
  {
    c := HealthyStep(b, Start(id, 0, false));
    c := HealthyStep(c, Load(id));
    c := HealthyStep(c, Acquire(id));
    c := HealthyStep(c, Recheck(id));
    c := HealthyStep(c, Tick(c[|c| - 1].now + c[|c| - 1].timeout));
  }

  /** A call that takes the lock, runs past its deadline and succeeds: its value is not stored. */
  lemma LateRun<V(!new)>(b: seq<State<V>>, id: CallId, value: V) returns (c: seq<State<V>>)
    requires HealthyRun(b) && Free(b[|b| - 1]) && id !in b[|b| - 1].calls
    ensures HealthyRun(c) && |c| > |b| && c[0] == b[0] && Free(c[|c| - 1])
    ensures var s, t := b[|b| - 1], c[|c| - 1];
      t.runs == s.runs + [GoodRun(0, value)] && t.calls.Keys == s.calls.Keys + {id} && t.timeout == s.timeout
  {
    c := LateRunning(b, id);
    c := HealthyStep(c, Return(id, Success(value)));
    c := HealthyStep(c, StoreFails(id));
    c := HealthyStep(c, Unlock(id));
    c := HealthyStep(c, Finish(id));
  }

  /** Why executions must end in time: with Redis answering, `fn` may otherwise succeed twice. */
  lemma LateRunsRepeat<V(!new)>(timeout: nat, first: V, second: V) returns (b: seq<State<V>>)
    requires timeout > 0
    ensures HealthyRun(b) && b[0] == Init(true, timeout, 0)
    ensures b[|b| - 1].runs == [GoodRun(0, first), GoodRun(0, second)]
  {
    b := LateRun([Init(true, timeout, 0)], 0, first);
    b := LateRun(b, 1, second);
  }
}
