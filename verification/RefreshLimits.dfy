/**
 Why retry-safe refresh asks for a covered token and for executions in time: for every other token
 there is a run, Redis answering, in which a retry deletes the device. Either the first rotation
 spends the generation, is then too slow to see its new token in date, and fails; or, with Redis,
 it succeeds and is answered but outlasts its context, so that its pair is not stored. In both cases
 the retry presents a token that is still in date and spent.
 */
module RefreshLimits {
  import opened Wrappers
  import opened Secrets
  import opened Devices
  import opened Tokens
  import opened Refresh
  import opened RefreshRuns
  import Flight

  function Last(b: seq<Shop>): Shop
    requires |b| > 0
  {
    b[|b| - 1]
  }

  lemma Extend(b: seq<Shop>, token: Token, t: Shop)
    requires Path(b, token) && Next(Last(b), t, token)
    ensures Path(b + [t], token)
  {
    var c := b + [t];
    forall i | 0 <= i < |c| - 1 ensures StepAt(c, i, token) {
      if i < |b| - 1 {
        assert StepAt(b, i, token);
      }
    }
  }

  lemma Join(b: seq<Shop>, c: seq<Shop>, token: Token)
    requires Path(b, token) && Path(c, token) && Last(b) == c[0]
    ensures Path(b + c[1..], token) && (b + c[1..])[0] == b[0] && Last(b + c[1..]) == Last(c)
  {
    var p := b + c[1..];
    forall i | 0 <= i < |p| - 1 ensures StepAt(p, i, token) {
      if i < |b| - 1 {
        assert StepAt(b, i, token);
      } else {
        assert p[i] == c[i - |b| + 1] && p[i + 1] == c[i - |b| + 1 + 1];
        assert StepAt(c, i - |b| + 1, token);
      }
    }
  }

  /** The instance has nothing in flight, and nothing is stored. */
  ghost predicate Quiet(s: Shop) {
    && s.flight.timeout == ROTATE_TIMEOUT && 0 !in s.flight.leader
    && if s.flight.distributed then s.flight.result.None? && s.flight.lock.None? else 0 !in s.flight.memory
  }

  /** The instance runs `fn` for this caller, with the lock if there is one. */
  ghost predicate Runs(s: Shop, id: Flight.CallId) {
    && s.flight.timeout == ROTATE_TIMEOUT && Rotating(s, id)
    && s.flight.calls[id].instance == 0 && !s.flight.calls[id].inFlightOnly
    && if s.flight.distributed
       then s.flight.result.None? && s.flight.lock == Some(id) && s.flight.calls[id].pc.mode.Fresh?
       else 0 !in s.flight.memory && s.flight.calls[id].pc.mode.Local?
  }

  lemma GroupMoves(b: seq<Shop>, token: Token, e: Flight.Event<TokenPair>) returns (c: seq<Shop>)
    requires Path(b, token) && Flight.Enabled(Last(b).flight, e) && Flight.Healthy(Last(b).flight, e)
    requires Flight.OrdinaryWindow(e) && SharedResult(Last(b).flight, e)
    requires e.Return? ==> StageOf(Last(b), e.id) == Over(e.outcome)
    ensures Path(c, token) && c[0] == b[0] && Last(c) == Last(b).(flight := Flight.Apply(Last(b).flight, e))
  {
    var t := Last(b).(flight := Flight.Apply(Last(b).flight, e));
    assert FlightStep(Last(b), t, e);
    Extend(b, token, t);
    c := b + [t];
  }

  lemma RotationMoves(s: Shop, token: Token, id: Flight.CallId) returns (t: Shop)
    requires token.Token? && Rotating(s, id) && !StageOf(s, id).Over?
    ensures t == Rotated(s, token, id) && Next(s, t, token)
  {
    t := Rotated(s, token, id);
    assert RotateStep(s, t, token, id);
  }

  lemma Waits(s: Shop, token: Token, late: nat) returns (b: seq<Shop>)
    requires token.Token? && s.flight.now <= late
    ensures Path(b, token) && b[0] == s && Last(b) == s.(flight := Last(b).flight)
    ensures Last(b).flight == s.flight.(now := late, step := s.flight.step + 1)
  {
    b := GroupMoves([s], token, Flight.Tick(late));
  }

  lemma CallStarts(s: Shop, token: Token, id: Flight.CallId) returns (b: seq<Shop>)
    requires token.Token? && Quiet(s) && id !in s.flight.calls
    ensures Path(b, token) && b[0] == s && Runs(Last(b), id) && Last(b) == s.(flight := Last(b).flight)
    ensures Last(b).flight.calls.Keys == s.flight.calls.Keys + {id}
    ensures Last(b).flight.now == s.flight.now && Last(b).flight.distributed == s.flight.distributed
    ensures Last(b).flight.calls[id].due == s.flight.now + ROTATE_TIMEOUT
    ensures forall other :: other in s.flight.calls ==> Last(b).flight.calls[other] == s.flight.calls[other]
  {
    b := GroupMoves([s], token, Flight.Start(id, 0, false));
    b := GroupMoves(b, token, Flight.Load(id));
    if s.flight.distributed {
      b := GroupMoves(b, token, Flight.Acquire(id));
      b := GroupMoves(b, token, Flight.Recheck(id));
    }
  }

  lemma CallLeaves(b: seq<Shop>, token: Token, id: Flight.CallId) returns (c: seq<Shop>)
    requires Path(b, token) && id in Last(b).flight.calls && Last(b).flight.calls[id].pc.Leaving?
    requires var f := Last(b).flight;
      && f.timeout == ROTATE_TIMEOUT && f.calls[id].instance == 0 && f.calls[id].pc.locked == f.distributed
      && if f.distributed then f.result.None? && f.lock == Some(id) else 0 !in f.memory
    ensures Path(c, token) && c[0] == b[0] && Quiet(Last(c)) && Last(c) == Last(b).(flight := Last(c).flight)
    ensures Last(c).flight.calls.Keys == Last(b).flight.calls.Keys && Last(c).flight.now == Last(b).flight.now
    ensures var pc := Last(b).flight.calls[id].pc;
      Last(c).flight.calls[id].pc == Flight.Returned(pc.outcome, pc.source)
  {
    c := b;
    if Last(b).flight.distributed {
      c := GroupMoves(b, token, Flight.Unlock(id));
    }
    c := GroupMoves(c, token, Flight.Finish(id));
  }

  lemma CallFails(s: Shop, token: Token, id: Flight.CallId) returns (b: seq<Shop>)
    requires token.Token? && Runs(s, id) && StageOf(s, id) == Over(FAILED)
    ensures Path(b, token) && b[0] == s && Quiet(Last(b)) && Last(b) == s.(flight := Last(b).flight)
    ensures Last(b).flight.calls.Keys == s.flight.calls.Keys && Last(b).flight.now == s.flight.now
  {
    b := GroupMoves([s], token, Flight.Return(id, FAILED));
    b := CallLeaves(b, token, id);
  }

  /** Past its deadline a successful rotation is answered and not stored. */
  lemma CallIsNotStored(s: Shop, token: Token, id: Flight.CallId, pair: TokenPair) returns (b: seq<Shop>)
    requires token.Token? && Runs(s, id) && StageOf(s, id) == Over(Success(pair))
    requires s.flight.distributed && s.flight.calls[id].due <= s.flight.now
    ensures Path(b, token) && b[0] == s && Quiet(Last(b)) && Last(b) == s.(flight := Last(b).flight)
    ensures Last(b).flight.calls.Keys == s.flight.calls.Keys && Last(b).flight.now == s.flight.now
    ensures Answered(Last(b), id, pair)
  {
    b := GroupMoves([s], token, Flight.Return(id, Success(pair)));
    b := GroupMoves(b, token, Flight.StoreFails(id));
    b := CallLeaves(b, token, id);
  }

  lemma CallIsKnown(s: Shop, token: Token, id: Flight.CallId) returns (b: seq<Shop>)
    requires token.Token? && Rotating(s, id) && StageOf(s, id).Arrived?
    requires Accepts(s.world, token, s.flight.now) && NameOf(s.world, token).Success?
    ensures Path(b, token) && b[0] == s && StageOf(Last(b), id) == Known(NameOf(s.world, token).value)
    ensures Last(b) == s.(stages := Last(b).stages) && Last(b).stages.Keys == s.stages.Keys + {id}
  {
    var checked := RotationMoves(s, token, id);
    var known := RotationMoves(checked, token, id);
    Extend([s], token, checked);
    Extend([s] + [checked], token, known);
    b := [s] + [checked] + [known];
  }

  /** Both checks pass, in no time. */
  lemma CallIsChecked(s: Shop, token: Token, id: Flight.CallId) returns (b: seq<Shop>)
    requires token.Token? && Rotating(s, id) && StageOf(s, id).Arrived?
    requires Accepts(s.world, token, s.flight.now) && NameOf(s.world, token).Success?
    ensures Path(b, token) && b[0] == s
    ensures StageOf(Last(b), id) == Rechecked(NameOf(s.world, token).value, s.world.rows[token.claims.device].secret)
    ensures Last(b) == s.(stages := Last(b).stages) && Last(b).stages.Keys == s.stages.Keys + {id}
  {
    b := CallIsKnown(s, token, id);
    var rechecked := RotationMoves(Last(b), token, id);
    Extend(b, token, rechecked);
    b := b + [rechecked];
  }

  /** And the row is counted up. */
  lemma CallSpends(s: Shop, token: Token, id: Flight.CallId) returns (b: seq<Shop>)
    requires token.Token? && Rotating(s, id) && StageOf(s, id).Arrived?
    requires Accepts(s.world, token, s.flight.now) && NameOf(s.world, token).Success?
    ensures Path(b, token) && b[0] == s
    ensures var g, secret := token.claims.generation + 1, s.world.rows[token.claims.device].secret;
      StageOf(Last(b), id) == Bumped(NameOf(s.world, token).value, secret, g)
    ensures Last(b).world == s.world.(rows := RowsIncremented(s.world.rows, token.claims.device))
    ensures Last(b) == s.(world := Last(b).world, stages := Last(b).stages)
    ensures Last(b).stages.Keys == s.stages.Keys + {id}
  {
    b := CallIsChecked(s, token, id);
    var bumped := RotationMoves(Last(b), token, id);
    Extend(b, token, bumped);
    b := b + [bumped];
  }

  /** The token that a bumped rotation signs fits the row. */
  ghost predicate FitsRow(s: Shop, token: Token, stage: Stage)
    requires token.Token?
  {
    && (stage.Bumped? || stage.Signed?) && token.claims.device in s.world.rows
    && stage.secret == s.world.rows[token.claims.device].secret
    && stage.generation == s.world.rows[token.claims.device].generation
  }

  lemma CallSigns(s: Shop, token: Token, id: Flight.CallId) returns (b: seq<Shop>)
    requires token.Token? && Rotating(s, id) && StageOf(s, id).Bumped? && FitsRow(s, token, StageOf(s, id))
    ensures Path(b, token) && b[0] == s && Last(b) == s.(stages := Last(b).stages)
    ensures StageOf(Last(b), id).Signed? && FitsRow(Last(b), token, StageOf(Last(b), id))
    ensures StageOf(Last(b), id).mintedAt == s.flight.now && Last(b).stages.Keys == s.stages.Keys + {id}
  {
    var signed := RotationMoves(s, token, id);
    Extend([s], token, signed);
    b := [s] + [signed];
  }

  /** The check of the new token, in date or not. */
  lemma CallConfirms(s: Shop, token: Token, id: Flight.CallId) returns (b: seq<Shop>)
    requires token.Token? && Rotating(s, id) && StageOf(s, id).Signed? && FitsRow(s, token, StageOf(s, id))
    ensures Path(b, token) && b[0] == s && Last(b) == s.(stages := Last(b).stages)
    ensures if s.flight.now < WholeSeconds(StageOf(s, id).mintedAt + s.world.config.refreshDuration)
      then StageOf(Last(b), id).Confirmed? else StageOf(Last(b), id) == Over(FAILED)
    ensures Last(b).stages.Keys == s.stages.Keys + {id}
  {
    var c, stage := token.claims, StageOf(s, id);
    MintedIsAccepted(s.world.rows, c.device, c.subject, stage.username, stage.mintedAt, s.flight.now, s.world.config);
    var checked := RotationMoves(s, token, id);
    Extend([s], token, checked);
    b := [s] + [checked];
  }

  /** The new token is signed at once and checked too late. */
  lemma CallIsTooSlow(s: Shop, token: Token, id: Flight.CallId, late: nat) returns (b: seq<Shop>)
    requires token.Token? && Runs(s, id) && StageOf(s, id).Bumped? && FitsRow(s, token, StageOf(s, id))
    requires s.flight.now <= late && WholeSeconds(s.flight.now + s.world.config.refreshDuration) <= late
    ensures Path(b, token) && b[0] == s && Runs(Last(b), id) && StageOf(Last(b), id) == Over(FAILED)
    ensures Last(b).world == s.world && Last(b).stages.Keys == s.stages.Keys + {id}
    ensures Last(b).flight == s.flight.(now := late, step := s.flight.step + 1)
  {
    b := CallSigns(s, token, id);
    var waits := Waits(Last(b), token, late);
    Join(b, waits, token);
    b := b + waits[1..];
    var fails := CallConfirms(Last(b), token, id);
    Join(b, fails, token);
    b := b + fails[1..];
  }

  /** The new token is signed, checked and handed out at once. */
  lemma CallSucceeds(s: Shop, token: Token, id: Flight.CallId) returns (b: seq<Shop>)
    requires token.Token? && Rotating(s, id) && StageOf(s, id).Bumped? && FitsRow(s, token, StageOf(s, id))
    requires s.flight.now < WholeSeconds(s.flight.now + s.world.config.refreshDuration)
    ensures Path(b, token) && b[0] == s && StageOf(Last(b), id).Over? && StageOf(Last(b), id).outcome.Success?
    ensures Last(b) == s.(stages := Last(b).stages) && Last(b).stages.Keys == s.stages.Keys + {id}
  {
    b := CallSigns(s, token, id);
    var confirms := CallConfirms(Last(b), token, id);
    Join(b, confirms, token);
    b := b + confirms[1..];
    var over := RotationMoves(Last(b), token, id);
    Extend(b, token, over);
    b := b + [over];
  }

  /** A spent token that is still in date costs its owner the device. */
  lemma RetryDeletes(s: Shop, token: Token, id: Flight.CallId) returns (b: seq<Shop>)
    requires token.Token? && Rotating(s, id) && StageOf(s, id).Arrived? && IsReuse(s.world, token, s.flight.now)
    requires token.claims.device in s.world.rows && s.world.rows[token.claims.device].owner == token.claims.subject
    ensures Path(b, token) && b[0] == s && token.claims.device !in Last(b).world.rows && Last(b).flight == s.flight
  {
    var alarmed := RotationMoves(s, token, id);
    var deleted := RotationMoves(alarmed, token, id);
    Extend([s], token, alarmed);
    Extend([s] + [alarmed], token, deleted);
    b := [s] + [alarmed] + [deleted];
  }

  /** When a covered token would be over. */
  function TooLate(w: World, now: nat): nat {
    var end := WholeSeconds(now + w.config.refreshDuration);
    if now < end then end else now
  }

  lemma StillInDate(w: World, now: nat, token: Token)
    requires Accepts(w, token, now) && !Covered(w, now, token)
    ensures ClaimsHold(token.claims, TooLate(w, now), w.config)
  {
  }

  /** The first call, from its start to its increment. */
  lemma FirstCallSpends(s: Shop, token: Token) returns (b: seq<Shop>)
    requires token.Token? && Quiet(s) && s.flight.calls == map[] && s.stages == map[]
    requires Accepts(s.world, token, s.flight.now) && NameOf(s.world, token).Success?
    ensures Path(b, token) && b[0] == s && Runs(Last(b), 0) && Last(b).flight.now == s.flight.now
    ensures Last(b).world == s.world.(rows := RowsIncremented(s.world.rows, token.claims.device))
    ensures StageOf(Last(b), 0).Bumped? && StageOf(Last(b), 0).secret == s.world.rows[token.claims.device].secret
    ensures StageOf(Last(b), 0).generation == s.world.rows[token.claims.device].generation + 1
    ensures Last(b).flight.calls.Keys == {0} && Last(b).stages.Keys == {0}
    ensures Last(b).flight.calls[0].due == s.flight.now + ROTATE_TIMEOUT
    ensures Last(b).flight.distributed == s.flight.distributed
  {
    b := CallStarts(s, token, 0);
    var spends := CallSpends(Last(b), token, 0);
    Join(b, spends, token);
    b := b + spends[1..];
  }

  /** What the first call leaves behind: a spent token, and nothing stored. */
  ghost predicate Wasted(s: Shop, t: Shop, token: Token, late: nat)
    requires token.Token?
  {
    && Quiet(t) && 1 !in t.flight.calls && 1 !in t.stages && t.flight.now == late
    && t.world == s.world.(rows := RowsIncremented(s.world.rows, token.claims.device))
  }

  lemma FirstCallFails(s: Shop, token: Token) returns (b: seq<Shop>)
    requires token.Token? && Quiet(s) && s.flight.calls == map[] && s.stages == map[]
    requires Accepts(s.world, token, s.flight.now) && NameOf(s.world, token).Success?
    ensures Path(b, token) && b[0] == s && Wasted(s, Last(b), token, TooLate(s.world, s.flight.now))
  {
    b := FirstCallSpends(s, token);
    var slow := CallIsTooSlow(Last(b), token, 0, TooLate(s.world, s.flight.now));
    Join(b, slow, token);
    b := b + slow[1..];
    var fails := CallFails(Last(b), token, 0);
    Join(b, fails, token);
    b := b + fails[1..];
  }

  lemma FirstCallSucceeds(s: Shop, token: Token) returns (b: seq<Shop>)
    requires token.Token? && Quiet(s) && s.flight.calls == map[] && s.stages == map[]
    requires Accepts(s.world, token, s.flight.now) && NameOf(s.world, token).Success?
    requires s.flight.now < WholeSeconds(s.flight.now + s.world.config.refreshDuration)
    ensures Path(b, token) && b[0] == s && Runs(Last(b), 0) && Last(b).flight.now == s.flight.now
    ensures StageOf(Last(b), 0).Over? && StageOf(Last(b), 0).outcome.Success?
    ensures Last(b).world == s.world.(rows := RowsIncremented(s.world.rows, token.claims.device))
    ensures Last(b).flight.calls.Keys == {0} && Last(b).stages.Keys == {0}
    ensures Last(b).flight.calls[0].due == s.flight.now + ROTATE_TIMEOUT
    ensures Last(b).flight.distributed == s.flight.distributed
  {
    b := FirstCallSpends(s, token);
    var succeeds := CallSucceeds(Last(b), token, 0);
    Join(b, succeeds, token);
    b := b + succeeds[1..];
  }

  lemma FirstCallIsLate(s: Shop, token: Token) returns (b: seq<Shop>, pair: TokenPair)
    requires token.Token? && Quiet(s) && s.flight.calls == map[] && s.stages == map[] && s.flight.distributed
    requires Accepts(s.world, token, s.flight.now) && NameOf(s.world, token).Success?
    requires s.flight.now < WholeSeconds(s.flight.now + s.world.config.refreshDuration)
    ensures Path(b, token) && b[0] == s && Wasted(s, Last(b), token, s.flight.now + ROTATE_TIMEOUT)
    ensures Answered(Last(b), 0, pair)
  {
    b := FirstCallSucceeds(s, token);
    pair := StageOf(Last(b), 0).outcome.value;
    var waits := Waits(Last(b), token, s.flight.now + ROTATE_TIMEOUT);
    Join(b, waits, token);
    b := b + waits[1..];
    var unstored := CallIsNotStored(Last(b), token, 0, pair);
    Join(b, unstored, token);
    b := b + unstored[1..];
  }

  lemma SecondCallDeletes(b: seq<Shop>, token: Token, late: nat) returns (c: seq<Shop>)
    requires Path(b, token) && Wasted(b[0], Last(b), token, late) && ClaimsHold(token.claims, late, b[0].world.config)
    requires Accepts(b[0].world, token, b[0].flight.now)
    requires b[0].world.rows[token.claims.device].owner == token.claims.subject
    ensures Path(c, token) && c[0] == b[0] && token.claims.device !in Last(c).world.rows
    ensures forall id, pair :: Answered(Last(b), id, pair) ==> Answered(Last(c), id, pair)
  {
    var again := CallStarts(Last(b), token, 1);
    Join(b, again, token);
    c := b + again[1..];
    assert IsReuse(Last(c).world, token, late);
    var deletes := RetryDeletes(Last(c), token, 1);
    Join(c, deletes, token);
    c := c + deletes[1..];
  }

  function ShopAt(w: World, now: nat, distributed: bool): Shop {
    Shop(Flight.Init(distributed, ROTATE_TIMEOUT, now), w, map[])
  }

  /** For every accepted token that is not covered there is a run that deletes the device. */
  lemma UncoveredTokenCanLoseTheDevice(w: World, now: nat, token: Token, distributed: bool) returns (b: seq<Shop>)
    requires Accepts(w, token, now) && !Covered(w, now, token)
    requires NameOf(w, token).Success? && w.rows[token.claims.device].owner == token.claims.subject
    ensures Run(b, token) && b[0] == ShopAt(w, now, distributed)
    ensures token.claims.device !in Last(b).world.rows
  {
    b := FirstCallFails(ShopAt(w, now, distributed), token);
    StillInDate(w, now, token);
    b := SecondCallDeletes(b, token, TooLate(w, now));
  }

  /** With Redis, for every covered token that is in date when the first context ends there is a
      run that deletes the device, after the first caller was answered with its pair. */
  lemma SlowRotationCanLoseTheDevice(w: World, now: nat, token: Token) returns (b: seq<Shop>, pair: TokenPair)
    requires Accepts(w, token, now) && Covered(w, now, token) && !Brief(true, now, token)
    requires NameOf(w, token).Success? && w.rows[token.claims.device].owner == token.claims.subject
    ensures Run(b, token) && b[0] == ShopAt(w, now, true)
    ensures token.claims.device !in Last(b).world.rows && Answered(Last(b), 0, pair)
  {
    b, pair := FirstCallIsLate(ShopAt(w, now, true), token);
    b := SecondCallDeletes(b, token, now + ROTATE_TIMEOUT);
  }

  // --- and a refresh can be answered -------------------------------------------------------

  lemma {:induction false} ContextsAreNew(b: seq<Shop>, token: Token, i: nat)
    requires Run(b, token) && i < |b|
    ensures DuesOk(b[i].flight, b[0].flight.now) && (i > 0 ==> b[i - 1].flight.now <= b[i].flight.now)
  {
    if i > 0 {
      ContextsAreNew(b, token, i - 1);
      assert StepAt(b, i - 1, token);
      if b[i].flight != b[i - 1].flight {
        var e :| FlightStep(b[i - 1], b[i], e);
        DuesStay(b[i - 1].flight, e, b[0].flight.now);
        TimeStays(b[i - 1].flight, e);
      }
    }
  }

  lemma {:induction false} TimeRises(b: seq<Shop>, token: Token, i: nat, j: nat)
    requires Run(b, token) && i <= j < |b|
    ensures b[i].flight.now <= b[j].flight.now
  {
    if i < j {
      TimeRises(b, token, i, j - 1);
      ContextsAreNew(b, token, j);
    }
  }

  /** A run in which no time passes is in time. */
  lemma StillIsInTime(b: seq<Shop>, token: Token)
    requires Run(b, token) && Last(b).flight.now == b[0].flight.now
    ensures InTime(b)
  {
    forall i | 0 <= i < |b| ensures Flight.Timely(b[i].flight) {
      ContextsAreNew(b, token, i);
      TimeRises(b, token, i, |b| - 1);
    }
  }

  lemma CallIsStored(s: Shop, token: Token, id: Flight.CallId, pair: TokenPair) returns (b: seq<Shop>)
    requires token.Token? && Runs(s, id) && StageOf(s, id) == Over(Success(pair))
    requires s.flight.now < s.flight.calls[id].due
    ensures Path(b, token) && b[0] == s && Answered(Last(b), id, pair) && Last(b).flight.now == s.flight.now
  {
    b := GroupMoves([s], token, Flight.Return(id, Success(pair)));
    b := GroupMoves(b, token, Flight.Store(id));
    if s.flight.distributed {
      b := GroupMoves(b, token, Flight.Unlock(id));
    }
    b := GroupMoves(b, token, Flight.Finish(id));
  }

  /** Every covered token of a known user can be refreshed in time. */
  lemma ARefreshIsAnswered(w: World, now: nat, token: Token, distributed: bool) returns (b: seq<Shop>, pair: TokenPair)
    requires Accepts(w, token, now) && Covered(w, now, token) && NameOf(w, token).Success?
    ensures Run(b, token) && InTime(b) && b[0] == ShopAt(w, now, distributed) && Answered(Last(b), 0, pair)
  {
    b := FirstCallSucceeds(ShopAt(w, now, distributed), token);
    pair := StageOf(Last(b), 0).outcome.value;
    var stored := CallIsStored(Last(b), token, 0, pair);
    Join(b, stored, token);
    b := b + stored[1..];
    StillIsInTime(b, token);
  }

  ghost predicate NeverDeleted(w: World, now: nat, token: Token, distributed: bool)
    requires token.Token?
  {
    forall b: seq<Shop>, i: nat :: Run(b, token) && b[0] == ShopAt(w, now, distributed) && i < |b| ==>
      token.claims.device in b[i].world.rows
  }

  lemma SafeWhenBrief(w: World, now: nat, token: Token, distributed: bool)
    requires token.Token? && Covered(w, now, token) && Brief(distributed, now, token)
    ensures NeverDeleted(w, now, token, distributed)
  {
    forall b: seq<Shop>, i: nat | Run(b, token) && b[0] == ShopAt(w, now, distributed) && i < |b|
      ensures token.claims.device in b[i].world.rows
    {
      RefreshIsRetrySafe(b, token, i);
    }
  }

  lemma UnsafeOtherwise(w: World, now: nat, token: Token, distributed: bool)
    requires Accepts(w, token, now) && !(Covered(w, now, token) && Brief(distributed, now, token))
    requires NameOf(w, token).Success? && w.rows[token.claims.device].owner == token.claims.subject
    ensures !NeverDeleted(w, now, token, distributed)
  {
    if !Covered(w, now, token) {
      var b := UncoveredTokenCanLoseTheDevice(w, now, token, distributed);
      assert b[|b| - 1] == Last(b);
    } else {
      var b, pair := SlowRotationCanLoseTheDevice(w, now, token);
      assert b[|b| - 1] == Last(b);
    }
  }

  lemma SafeOrNot(w: World, now: nat, token: Token, distributed: bool)
    requires Accepts(w, token, now)
    requires NameOf(w, token).Success? && w.rows[token.claims.device].owner == token.claims.subject
    ensures NeverDeleted(w, now, token, distributed) <==> Covered(w, now, token) && Brief(distributed, now, token)
  {
    if Covered(w, now, token) && Brief(distributed, now, token) {
      SafeWhenBrief(w, now, token, distributed);
    } else {
      UnsafeOtherwise(w, now, token, distributed);
    }
  }

  lemma EndsMean(w: World, now: nat, token: Token, distributed: bool)
    requires token.Token?
    ensures Covered(w, now, token) && Brief(distributed, now, token) <==>
      && token.claims.expires.Some?
      && token.claims.expires.value <= WholeSeconds(now + w.config.refreshDuration)
      && (distributed ==> token.claims.expires.value <= now + 10_000_000_000)
  {
  }

  /** Retries are harmless in every run in which Redis answers exactly if the token ends no later
      than one minted now, and, with Redis, no later than ten seconds from now. */
  lemma RetrySafeExactlyWhen(w: World, now: nat, token: Token, distributed: bool)
    requires Accepts(w, token, now)
    requires NameOf(w, token).Success? && w.rows[token.claims.device].owner == token.claims.subject
    ensures NeverDeleted(w, now, token, distributed) <==>
      && token.claims.expires.Some?
      && token.claims.expires.value <= WholeSeconds(now + w.config.refreshDuration)
      && (distributed ==> token.claims.expires.value <= now + 10_000_000_000)
  {
    SafeOrNot(w, now, token, distributed);
    EndsMean(w, now, token, distributed);
  }
}
