/**
 Where every answer of the flight group comes from, failures included, whether or not Redis
 answers and whatever the deadlines do: the caller's own run of `fn`, the value stored at the step
 it names, or the call it joined. So no caller is refused but by a run of `fn` that failed.
 */
module FlightAnswers {
  import opened Wrappers
  import opened Flight

  ghost predicate Traced<V>(s: State<V>, id: CallId, outcome: Result<V, string>, source: Source)
    requires id in s.calls
  {
    match source
    case Ran => id in s.log.outcomes && s.log.outcomes[id] == outcome
    case Reused(at) => id !in s.log.outcomes && at in s.log.kept && outcome == Success(s.log.kept[at])
    case Shared(leader) =>
      && id !in s.log.outcomes && LeadsTo(s, leader) && s.calls[leader].instance == s.calls[id].instance
      && s.calls[leader].pc.Returned? && s.calls[leader].pc.outcome == outcome
  }

  /** A call that others may join: it has joined nobody itself. */
  ghost predicate LeadsTo<V>(s: State<V>, leader: CallId) {
    && leader in s.calls && !s.calls[leader].pc.Following?
    && (s.calls[leader].pc.Returned? ==> !s.calls[leader].pc.source.Shared?)
  }

  ghost predicate TraceOk<V>(s: State<V>, id: CallId)
    requires id in s.calls
  {
    match s.calls[id].pc
    case Storing(value, _) => id in s.log.outcomes && s.log.outcomes[id] == Success(value)
    case Leaving(outcome, source, _) => !source.Shared? && Traced(s, id, outcome, source)
    case Returned(outcome, source) => Traced(s, id, outcome, source)
    case Following(leader) =>
      id !in s.log.outcomes && LeadsTo(s, leader) && s.calls[leader].instance == s.calls[id].instance
    case _ => id !in s.log.outcomes
  }

  ghost predicate KeptOk<V>(s: State<V>, stored: Stored<V>) {
    stored.at in s.log.kept && s.log.kept[stored.at] == stored.value
  }

  ghost predicate Ledger<V>(s: State<V>) {
    && (s.result.Some? ==> KeptOk(s, s.result.value))
    && (forall i :: i in s.memory ==> KeptOk(s, s.memory[i]))
    && (forall at :: at in s.log.kept ==> at <= s.step)
    && s.log.outcomes.Keys <= s.calls.Keys
    && (forall i :: i in s.leader ==>
          LeadsTo(s, s.leader[i]) && s.calls[s.leader[i]].instance == i && !s.calls[s.leader[i]].pc.Returned?)
    && (forall id :: id in s.calls ==> TraceOk(s, id))
  }

  // --- steps -------------------------------------------------------------------------------

  /** One call moves; what the others rely on stays. */
  ghost predicate Local<V>(s: State<V>, t: State<V>, id: CallId) {
    && id in t.calls && t.calls == s.calls[id := t.calls[id]] && s.step <= t.step
    && (id in s.calls ==> !s.calls[id].pc.Returned? && t.calls[id].instance == s.calls[id].instance)
    && (id in s.calls && !s.calls[id].pc.Following? ==> LeadsTo(t, id))
    && (forall o :: o != id ==> (o in t.log.outcomes <==> o in s.log.outcomes))
    && (forall o :: o != id && o in s.log.outcomes ==> t.log.outcomes[o] == s.log.outcomes[o])
    && (forall at :: at in s.log.kept ==> at in t.log.kept && t.log.kept[at] == s.log.kept[at])
  }

  lemma OthersStayTraced<V>(s: State<V>, t: State<V>, id: CallId, o: CallId)
    requires Local(s, t, id) && o in s.calls && o != id && TraceOk(s, o)
    requires id !in s.calls ==> t.calls[id].pc.Checking? || t.calls[id].pc.Running? || t.calls[id].pc.Following?
    ensures TraceOk(t, o)
  {
  }

  lemma LocalKeepsLedger<V>(s: State<V>, t: State<V>, id: CallId)
    requires Ledger(s) && Local(s, t, id) && TraceOk(t, id)
    requires id !in s.calls ==> t.calls[id].pc.Checking? || t.calls[id].pc.Running? || t.calls[id].pc.Following?
    requires t.result.Some? ==> KeptOk(t, t.result.value)
    requires forall i :: i in t.memory ==> KeptOk(t, t.memory[i])
    requires forall at :: at in t.log.kept ==> at <= t.step
    requires t.log.outcomes.Keys <= t.calls.Keys
    requires forall i :: i in t.leader ==>
      (i in s.leader && t.leader[i] == s.leader[i] && t.leader[i] != id)
      || (t.leader[i] == id && LeadsTo(t, id) && t.calls[id].instance == i && !t.calls[id].pc.Returned?)
    ensures Ledger(t)
  {
    forall o | o in t.calls ensures TraceOk(t, o) {
      if o != id {
        OthersStayTraced(s, t, id, o);
      }
    }
  }

  /** A stored result is answered as it was stored. */
  lemma LoadIsTraced<V>(s: State<V>, id: CallId)
    requires Ledger(s) && Enabled(s, Load(id)) && TraceOk(s, id)
    ensures Local(s, Loaded(s, id), id) && TraceOk(Loaded(s, id), id)
  {
  }

  lemma LoadKeepsLedger<V>(s: State<V>, id: CallId)
    requires Ledger(s) && Enabled(s, Load(id))
    ensures Ledger(Loaded(s, id))
  {
    assert TraceOk(s, id);
    LoadIsTraced(s, id);
    LocalKeepsLedger(s, Loaded(s, id), id);
  }

  lemma LockKeepsLedger<V>(s: State<V>, e: Event<V>)
    requires Ledger(s) && Enabled(s, e) && (e.Acquire? || e.Recheck?)
    ensures Ledger(Apply(s, e))
  {
    assert TraceOk(s, e.id);
    LocalKeepsLedger(s, Apply(s, e), e.id);
  }

  lemma StartKeepsLedger<V>(s: State<V>, e: Event<V>)
    requires Ledger(s) && Enabled(s, e) && e.Start?
    ensures Ledger(Apply(s, e))
  {
    LocalKeepsLedger(s, Apply(s, e), e.id);
  }

  lemma ReturnKeepsLedger<V>(s: State<V>, id: CallId, outcome: Result<V, string>)
    requires Ledger(s) && Enabled(s, Return(id, outcome))
    ensures Ledger(Ended(s, id, outcome))
  {
    assert TraceOk(s, id);
    LocalKeepsLedger(s, Ended(s, id, outcome), id);
  }

  lemma StoreIsTraced<V>(s: State<V>, id: CallId)
    requires Ledger(s) && Enabled(s, Store(id)) && TraceOk(s, id)
    ensures Local(s, Kept(s, id), id) && TraceOk(Kept(s, id), id)
  {
  }

  lemma StoreIsKept<V>(s: State<V>, id: CallId)
    requires Ledger(s) && Enabled(s, Store(id))
    ensures var t := Kept(s, id);
      && (t.result.Some? ==> KeptOk(t, t.result.value))
      && (forall i :: i in t.memory ==> KeptOk(t, t.memory[i]))
      && (forall at :: at in t.log.kept ==> at <= t.step)
  {
  }

  lemma StoreKeepsLedger<V>(s: State<V>, id: CallId)
    requires Ledger(s) && Enabled(s, Store(id))
    ensures Ledger(Kept(s, id))
  {
    assert TraceOk(s, id);
    StoreIsTraced(s, id);
    StoreIsKept(s, id);
    LocalKeepsLedger(s, Kept(s, id), id);
  }

  lemma EndsKeepLedger<V>(s: State<V>, e: Event<V>)
    requires Ledger(s) && Enabled(s, e) && (e.Unlock? || e.Finish? || e.Receive?)
    ensures Ledger(Apply(s, e))
  {
    assert TraceOk(s, e.id);
    LocalKeepsLedger(s, Apply(s, e), e.id);
  }

  lemma FailuresKeepLedger<V>(s: State<V>, e: Event<V>)
    requires Ledger(s) && Enabled(s, e) && Fails(e)
    ensures Ledger(Apply(s, e))
  {
    assert TraceOk(s, e.id);
    LocalKeepsLedger(s, Apply(s, e), e.id);
  }

  lemma IdleKeepsLedger<V>(s: State<V>, e: Event<V>)
    requires Ledger(s) && Enabled(s, e) && (e.Lapse? || e.Tick? || e.Expire? || e.Forget?)
    ensures Ledger(Apply(s, e))
  {
    forall id | id in s.calls ensures TraceOk(Apply(s, e), id) {
      assert TraceOk(s, id);
    }
  }

  lemma StepKeepsLedger<V>(s: State<V>, e: Event<V>)
    requires Ledger(s) && Enabled(s, e)
    ensures Ledger(Apply(s, e))
  {
    if e.Start? {
      StartKeepsLedger(s, e);
    } else if e.Load? {
      LoadKeepsLedger(s, e.id);
    } else if e.Acquire? || e.Recheck? {
      LockKeepsLedger(s, e);
    } else if e.Return? {
      ReturnKeepsLedger(s, e.id, e.outcome);
    } else if e.Store? {
      StoreKeepsLedger(s, e.id);
    } else if e.Unlock? || e.Finish? || e.Receive? {
      EndsKeepLedger(s, e);
    } else if Fails(e) {
      FailuresKeepLedger(s, e);
    } else {
      IdleKeepsLedger(s, e);
    }
  }

  // --- whole runs --------------------------------------------------------------------------

  ghost predicate AnyNext<V(!new)>(s: State<V>, t: State<V>) {
    exists e :: Enabled(s, e) && t == Apply(s, e)
  }

  ghost predicate AnyAt<V(!new)>(b: seq<State<V>>, i: int)
    requires 0 <= i < |b| - 1
  {
    AnyNext(b[i], b[i + 1])
  }

  /** Every run, Redis answering or not. */
  ghost predicate AnyRun<V(!new)>(b: seq<State<V>>) {
    && |b| > 0 && b[0] == Init(b[0].distributed, b[0].timeout, b[0].now)
    && forall i :: 0 <= i < |b| - 1 ==> AnyAt(b, i)
  }

  lemma {:induction false} LedgerAlways<V(!new)>(b: seq<State<V>>, i: nat)
    requires AnyRun(b) && i < |b|
    ensures Ledger(b[i])
  {
    if i > 0 {
      LedgerAlways(b, i - 1);
      assert AnyAt(b, i - 1);
      var e :| Enabled(b[i - 1], e) && b[i] == Apply(b[i - 1], e);
      StepKeepsLedger(b[i - 1], e);
    }
  }

  /** Every returned call, success or failure: the outcome of its own run of `fn`, the value stored
      at the step it names, or the outcome of a call on its instance that led and answered by one of
      the first two. A failure is always the failure of a run. */
  lemma EveryAnswerIsTraced<V(!new)>(b: seq<State<V>>, i: nat, id: CallId)
    requires AnyRun(b) && i < |b| && id in b[i].calls && b[i].calls[id].pc.Returned?
    ensures var s := b[i]; var pc := s.calls[id].pc; var log := s.log;
      match pc.source
      case Ran => id in log.outcomes && pc.outcome == log.outcomes[id]
      case Reused(at) => at in log.kept && pc.outcome == Success(log.kept[at])
      case Shared(leader) =>
        && leader in s.calls && s.calls[leader].pc.Returned? && pc.outcome == s.calls[leader].pc.outcome
        && s.calls[leader].instance == s.calls[id].instance && !s.calls[leader].pc.source.Shared?
    ensures var s := b[i]; var pc := s.calls[id].pc;
      pc.outcome.Failure? ==>
        var runner := if pc.source.Shared? then pc.source.leader else id;
        runner in s.log.outcomes && s.log.outcomes[runner] == pc.outcome
  {
    LedgerAlways(b, i);
    assert TraceOk(b[i], id);
    if b[i].calls[id].pc.source.Shared? {
      assert TraceOk(b[i], b[i].calls[id].pc.source.leader);
    }
  }
}
