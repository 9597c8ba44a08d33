/**
 The whole stack: refreshes with one token through the flight group, where each check of a token
 is a lookup and each increment an update of `CachedDB`, with all their separate steps, among
 everybody else's operations on the same cache and table. Seen from above, every orderly run whose
 executions end in time is one in which the checks read the table directly, so what holds there
 holds here.
 */
module RefreshThroughCache {
  import opened Wrappers
  import opened Secrets
  import opened Devices
  import opened Tokens
  import opened Refresh
  import opened RefreshRuns
  import opened ReuseAlarm
  import Flight
  import FlightSafety
  import Cache = CacheProtocol
  import CacheSafety

  /** `link` is the operation that a rotation has called and not yet heard from. */
  datatype Stack = Stack(shop: Shop, cache: Cache.State, link: map<Flight.CallId, Cache.OpId>)

  /** The stages that call `CachedDB`. */
  predicate Calls(stage: Stage) {
    Checks(stage) || stage.Rechecked? || stage.Alarmed?
  }

  function TaskOf(token: Token, instance: Flight.Instance, stage: Stage): Cache.Task
    requires token.Token? && Calls(stage)
  {
    if Checks(stage) then Cache.Lookup(instance, token.claims.device)
    else if stage.Rechecked? then Cache.Update(token.claims.device)
    else Cache.Delete(token.claims.subject, token.claims.device)
  }

  ghost predicate CallStep(s: Stack, t: Stack, token: Token, id: Flight.CallId, op: Cache.OpId)
    requires token.Token?
  {
    && Rotating(s.shop, id) && id !in s.link && Calls(StageOf(s.shop, id)) && op !in s.cache.ops
    && var e := Cache.Begin(op, TaskOf(token, s.shop.flight.calls[id].instance, StageOf(s.shop, id)));
       t == s.(cache := Cache.Apply(s.cache, e), link := s.link[id := op])
  }

  ghost predicate Orderly(s: Cache.State, e: Cache.Event) {
    Cache.Enabled(s, e) && Cache.Prompt(s, e) && Cache.Owned(s, e)
  }

  /** The statement of the rotation's own operation: the increment, or the delete. */
  ghost predicate OwnStep(s: Stack, t: Stack, token: Token, id: Flight.CallId, e: Cache.Event)
    requires token.Token?
  {
    && Rotating(s.shop, id) && id in s.link && Orderly(s.cache, e)
    && var stage := StageOf(s.shop, id);
       && (stage.Rechecked? || stage.Alarmed?)
       && e == (if stage.Rechecked? then Cache.Increment(s.link[id]) else Cache.RemoveRows(s.link[id]))
       && t.cache == Cache.Apply(s.cache, e) && t.link == s.link
       && t.shop == s.shop.(world := s.shop.world.(rows := t.cache.rows),
                            stages := s.shop.stages[id := Stepped(s.shop.world, s.shop.flight.now, token, stage)])
  }

  /** Any other step of any operation, or an email change, that leaves this one row alone. */
  ghost predicate OtherStep(s: Stack, t: Stack, token: Token, e: Cache.Event)
    requires token.Token?
  {
    && Orderly(s.cache, e) && !e.Tick? && t.cache == Cache.Apply(s.cache, e) && t.link == s.link
    && Lookup(t.cache.rows, token.claims.device) == Lookup(s.cache.rows, token.claims.device)
    && t.shop == s.shop.(world := s.shop.world.(rows := t.cache.rows, users := t.shop.world.users))
  }

  /** Time passes for everybody. */
  ghost predicate ClockStep(s: Stack, t: Stack, now: nat) {
    && Orderly(s.cache, Cache.Tick(now)) && FlightStep(s.shop, t.shop, Flight.Tick(now))
    && t == s.(shop := t.shop, cache := Cache.Apply(s.cache, Cache.Tick(now)))
  }

  /** The operation is done: a check has its verdict, an update or a delete just returns. */
  ghost predicate ResumeStep(s: Stack, t: Stack, token: Token, id: Flight.CallId)
    requires token.Token?
  {
    && Rotating(s.shop, id) && id in s.link && s.link[id] in s.cache.ops && s.cache.ops[s.link[id]].pc.Done?
    && t.cache == s.cache && t.link == s.link - {id}
    && var stage, config := StageOf(s.shop, id), s.shop.world.config;
       if !Checks(stage) then t.shop == s.shop
       else
         var answer := Received(s.cache.ops[s.link[id]].pc.answer);
         var verdict := Judged(Presented(config, token, stage), Kind.Refresh, answer, s.shop.flight.now, config);
         t.shop == s.shop.(stages := s.shop.stages[id := AfterCheck(stage, verdict)])
  }

  /** The stages that need no `CachedDB`: the username and the signatures. */
  ghost predicate PlainStep(s: Stack, t: Stack, token: Token, id: Flight.CallId)
    requires token.Token?
  {
    && Rotating(s.shop, id) && id !in s.link && !Calls(StageOf(s.shop, id)) && !StageOf(s.shop, id).Over?
    && t == s.(shop := Rotated(s.shop, token, id))
  }

  ghost predicate GroupStep(s: Stack, t: Stack, e: Flight.Event<TokenPair>) {
    FlightStep(s.shop, t.shop, e) && !e.Tick? && (e.Return? ==> e.id !in s.link) && t == s.(shop := t.shop)
  }

  ghost predicate StackNext(s: Stack, t: Stack, token: Token)
    requires token.Token?
  {
    || (exists id, op :: CallStep(s, t, token, id, op))
    || (exists id, e :: OwnStep(s, t, token, id, e))
    || (exists e :: OtherStep(s, t, token, e))
    || (exists now :: ClockStep(s, t, now))
    || (exists id :: ResumeStep(s, t, token, id))
    || (exists id :: PlainStep(s, t, token, id))
    || (exists e :: GroupStep(s, t, e))
  }

  /** The refreshes begin wherever an orderly run of the cache has come to, with a token whose
      generation has been handed out. */
  ghost predicate Starts(s: Stack, past: seq<Cache.State>, token: Token) {
    && Cache.OrderlyRun(past) && s.cache == past[|past| - 1] && s.link == map[]
    && s.shop.world.rows == s.cache.rows && s.shop.flight.now == s.cache.now
    && token.Token? && Opening(s.shop, token)
    && CacheSafety.HandedOut(s.cache, token.claims.device, token.claims.generation)
  }

  ghost predicate StackAt(b: seq<Stack>, i: int, token: Token)
    requires 0 <= i < |b| - 1 && token.Token?
  {
    StackNext(b[i], b[i + 1], token)
  }

  ghost predicate StackRun(b: seq<Stack>, past: seq<Cache.State>, token: Token) {
    && |b| > 0 && Starts(b[0], past, token)
    && forall i :: 0 <= i < |b| - 1 ==> StackAt(b, i, token)
  }

  // --- the invariant -----------------------------------------------------------------------

  /** Where an update that has incremented the row to g may be. */
  ghost predicate Updating(pc: Cache.Pc, g: int) {
    || (pc.Bumped? && pc.generation == g)
    || (pc.NeedRow? && pc.generation == g)
    || (pc.Carrying? && pc.answer == Cache.Updated(g, true))
    || (pc.Done? && pc.answer.Updated? && pc.answer.generation == g)
  }

  /** What a rotation knows of the operation it has called. A lookup will answer for a
      generation no older than the row's. */
  ghost predicate LinkOk(stage: Stage, op: Cache.Op, d: DeviceId, generation: int) {
    match stage
    case Rechecked(_, _) => op.task == Cache.Update(d) && op.pc.Start?
    case Bumped(_, _, g) => op.task == Cache.Update(d) && Updating(op.pc, g)
    case _ => Checks(stage) && op.task.Lookup? && op.task.device == d && op.need >= generation
  }

  ghost predicate LinksOk(s: Stack, token: Token)
    requires token.Token? && token.claims.device in s.cache.rows
  {
    forall id :: id in s.link ==>
      && Rotating(s.shop, id) && s.link[id] in s.cache.ops
      && LinkOk(StageOf(s.shop, id), s.cache.ops[s.link[id]], token.claims.device,
                s.cache.rows[token.claims.device].generation)
  }

  /** Unless an update is under way, the row's generation has been handed out. */
  ghost predicate FloorReached(s: Stack, token: Token)
    requires token.Token? && token.claims.device in s.cache.rows
  {
    (forall id :: id in s.link ==> !StageOf(s.shop, id).Bumped?) ==>
      Cache.Floor(s.cache, token.claims.device) >= s.cache.rows[token.claims.device].generation
  }

  ghost predicate StackInv(s: Stack, k: Setting, raised: bool) {
    && SafeInv(s.shop, k, raised) && Exclusive(s.shop, k.token, raised)
    && CacheSafety.Inv(s.cache)
    && s.shop.world.rows == s.cache.rows && s.shop.flight.now == s.cache.now
    && LinksOk(s, k.token) && FloorReached(s, k.token)
  }

  /** A rotation that is not waiting means that nobody is. */
  lemma NobodyElseWaits(s: Stack, k: Setting, raised: bool, id: Flight.CallId)
    requires StackInv(s, k, raised) && Rotating(s.shop, id)
    ensures forall other :: other in s.link ==> other == id
  {
    forall other | other in s.link ensures other == id {
      OneRotationAtATime(s.shop.flight, id, other);
    }
  }

  // --- each step is a step of the shop, and keeps the invariant ----------------------------

  /** A lookup that begins now will answer for at least the row's generation. */
  lemma CallIsLinked(s: Stack, t: Stack, k: Setting, raised: bool, id: Flight.CallId, op: Cache.OpId)
    requires StackInv(s, k, raised) && CallStep(s, t, k.token, id, op)
    ensures t.cache.rows == s.cache.rows && t.cache.now == s.cache.now && LinksOk(t, k.token)
  {
    NobodyElseWaits(s, k, raised, id);
    assert StageOk(s.shop, k, StageOf(s.shop, id), raised);
  }

  lemma CallKeepsFloor(s: Stack, t: Stack, k: Setting, raised: bool, id: Flight.CallId, op: Cache.OpId)
    requires StackInv(s, k, raised) && CallStep(s, t, k.token, id, op) && t.cache.rows == s.cache.rows
    ensures FloorReached(t, k.token)
  {
    NobodyElseWaits(s, k, raised, id);
  }

  lemma CallIsElsewhere(s: Stack, t: Stack, k: Setting, raised: bool, id: Flight.CallId, op: Cache.OpId)
    requires StackInv(s, k, raised) && CallStep(s, t, k.token, id, op)
    ensures Elsewhere(s.shop, t.shop, k.token.claims.device) && StackInv(t, k, raised)
  {
    CacheSafety.StepKeepsInv(
      s.cache, Cache.Begin(op, TaskOf(k.token, s.shop.flight.calls[id].instance, StageOf(s.shop, id))));
    CallIsLinked(s, t, k, raised, id, op);
    CallKeepsFloor(s, t, k, raised, id, op);
  }

  lemma IncrementedOnce(s: Cache.State, op: Cache.OpId, d: DeviceId)
    requires Cache.Enabled(s, Cache.Increment(op)) && s.ops[op].task == Cache.Update(d) && d in s.rows
    ensures var t := Cache.Apply(s, Cache.Increment(op));
      && t.rows == RowsIncremented(s.rows, d) && t.now == s.now
      && op in t.ops && t.ops[op].task == Cache.Update(d) && Updating(t.ops[op].pc, s.rows[d].generation + 1)
  {
    assert Cache.Apply(s, Cache.Increment(op)).rows == Cache.RowBumped(s, d).rows;
  }

  /** The statement of the rotation's own operation is its increment, since no rotation is alarmed. */
  lemma OwnIsIncrement(s: Stack, t: Stack, k: Setting, raised: bool, id: Flight.CallId, e: Cache.Event)
    requires StackInv(s, k, raised) && OwnStep(s, t, k.token, id, e)
    ensures e == Cache.Increment(s.link[id]) && StageOf(s.shop, id).Rechecked?
    ensures s.cache.ops[s.link[id]].task == Cache.Update(k.token.claims.device)
  {
    assert StageOk(s.shop, k, StageOf(s.shop, id), raised);
    assert LinkOk(StageOf(s.shop, id), s.cache.ops[s.link[id]], k.token.claims.device,
                  s.cache.rows[k.token.claims.device].generation);
  }

  lemma IncrementIsRotation(s: Stack, t: Stack, k: Setting, raised: bool, id: Flight.CallId, e: Cache.Event)
    requires StackInv(s, k, raised) && OwnStep(s, t, k.token, id, e)
    ensures RotateStep(s.shop, t.shop, k.token, id)
    ensures t.shop.world.rows == t.cache.rows && t.shop.flight.now == t.cache.now
  {
    OwnIsIncrement(s, t, k, raised, id, e);
    IncrementedOnce(s.cache, s.link[id], k.token.claims.device);
  }

  lemma IncrementKeepsLinks(s: Stack, t: Stack, k: Setting, raised: bool, id: Flight.CallId, e: Cache.Event)
    requires StackInv(s, k, raised) && OwnStep(s, t, k.token, id, e) && k.token.claims.device in t.cache.rows
    requires e == Cache.Increment(s.link[id]) && StageOf(s.shop, id).Rechecked?
    requires s.cache.ops[s.link[id]].task == Cache.Update(k.token.claims.device)
    ensures LinksOk(t, k.token) && FloorReached(t, k.token)
  {
    NobodyElseWaits(s, k, raised, id);
    IncrementedOnce(s.cache, s.link[id], k.token.claims.device);
    assert id in t.link && StageOf(t.shop, id).Bumped?;
  }

  /** An update that has not incremented the row stays where it is until it does. */
  lemma UpdateStarts(s: Cache.State, e: Cache.Event, op: Cache.OpId, d: DeviceId)
    requires Cache.Enabled(s, e) && op in s.ops && d in s.rows && s.ops[op].task == Cache.Update(d)
    requires s.ops[op].pc.Start?
    requires Lookup(Cache.Apply(s, e).rows, d) == Lookup(s.rows, d)
    ensures op in Cache.Apply(s, e).ops && Cache.Apply(s, e).ops[op] == s.ops[op]
  {
  }

  ghost predicate Concerns(e: Cache.Event, op: Cache.OpId) {
    (e.ReadCache? || e.ReadRow? || e.WriteCache?) && e.id == op
  }

  /** Past its increment an update is moved by its own steps only. */
  lemma UpdateStands(s: Cache.State, e: Cache.Event, op: Cache.OpId)
    requires Cache.Enabled(s, e) && op in s.ops && s.ops[op].task.Update? && !s.ops[op].pc.Start? && !Concerns(e, op)
    requires !s.ops[op].pc.Joined? && !s.ops[op].pc.Burying?
    ensures op in Cache.Apply(s, e).ops && Cache.Apply(s, e).ops[op] == s.ops[op]
  {
  }

  /** And they keep its generation in hand, whatever it finds in cache and table. */
  lemma UpdateMoves(s: Cache.State, e: Cache.Event, op: Cache.OpId, d: DeviceId, g: int)
    requires Cache.Enabled(s, e) && op in s.ops && d in s.rows && s.ops[op].task == Cache.Update(d)
    requires Updating(s.ops[op].pc, g)
    ensures op in Cache.Apply(s, e).ops && Updating(Cache.Apply(s, e).ops[op].pc, g)
  {
    if !Concerns(e, op) {
      UpdateStands(s, e, op);
    }
  }

  /** A step that leaves the row alone moves an operation only along its own way. */
  lemma LinkMoves(s: Cache.State, e: Cache.Event, stage: Stage, op: Cache.OpId, d: DeviceId)
    requires Cache.Enabled(s, e) && op in s.ops && d in s.rows && LinkOk(stage, s.ops[op], d, s.rows[d].generation)
    requires Lookup(Cache.Apply(s, e).rows, d) == Lookup(s.rows, d)
    requires CacheSafety.SameOps(s, Cache.Apply(s, e))
    ensures op in Cache.Apply(s, e).ops && LinkOk(stage, Cache.Apply(s, e).ops[op], d, s.rows[d].generation)
  {
    if stage.Rechecked? {
      UpdateStarts(s, e, op, d);
    } else if stage.Bumped? {
      UpdateMoves(s, e, op, d, stage.generation);
    }
  }

  /** Anybody's step of the cache that leaves the row, the rotations and their calls alone. */
  lemma CacheKeepsLinks(s: Stack, t: Stack, token: Token, e: Cache.Event)
    requires token.Token? && token.claims.device in s.cache.rows && token.claims.device in t.cache.rows
    requires LinksOk(s, token) && Cache.Enabled(s.cache, e) && t.cache == Cache.Apply(s.cache, e) && t.link == s.link
    requires Lookup(t.cache.rows, token.claims.device) == Lookup(s.cache.rows, token.claims.device)
    requires t.shop.stages == s.shop.stages && t.shop.flight.calls == s.shop.flight.calls
    ensures LinksOk(t, token)
  {
    var d := token.claims.device;
    assert Lookup(t.cache.rows, d) == Lookup(s.cache.rows, d);
    CacheSafety.StepKeepsOps(s.cache, e);
    forall id | id in t.link
      ensures Rotating(t.shop, id) && t.link[id] in t.cache.ops
      ensures LinkOk(StageOf(t.shop, id), t.cache.ops[t.link[id]], d, t.cache.rows[d].generation)
    {
      LinkMoves(s.cache, e, StageOf(s.shop, id), s.link[id], d);
    }
  }

  lemma CacheKeepsFloor(s: Stack, t: Stack, token: Token, e: Cache.Event)
    requires token.Token? && token.claims.device in s.cache.rows && token.claims.device in t.cache.rows
    requires CacheSafety.FloorOk(t.cache) && FloorReached(s, token)
    requires Cache.Enabled(s.cache, e) && t.cache == Cache.Apply(s.cache, e) && t.link == s.link
    requires Lookup(t.cache.rows, token.claims.device) == Lookup(s.cache.rows, token.claims.device)
    requires t.shop.stages == s.shop.stages
    ensures FloorReached(t, token)
  {
    CacheSafety.StepIsLater(s.cache, e);
    assert Lookup(t.cache.rows, token.claims.device) == Lookup(s.cache.rows, token.claims.device);
    assert forall id :: StageOf(s.shop, id) == StageOf(t.shop, id);
  }

  lemma TimeStands(s: Cache.State, e: Cache.Event)
    requires Cache.Enabled(s, e) && !e.Tick?
    ensures Cache.Apply(s, e).now == s.now
  {
  }

  lemma OtherIsElsewhere(s: Stack, t: Stack, k: Setting, raised: bool, e: Cache.Event)
    requires StackInv(s, k, raised) && OtherStep(s, t, k.token, e)
    ensures Elsewhere(s.shop, t.shop, k.token.claims.device) && StackInv(t, k, raised)
  {
    CacheSafety.StepKeepsInv(s.cache, e);
    TimeStands(s.cache, e);
    assert Lookup(t.cache.rows, k.token.claims.device) == Some(s.cache.rows[k.token.claims.device]);
    ElsewhereStep(s.shop, t.shop, k, raised);
    CacheKeepsLinks(s, t, k.token, e);
    CacheKeepsFloor(s, t, k.token, e);
  }

  lemma NothingMoves(s: Stack, t: Stack, token: Token)
    requires token.Token? && token.claims.device in s.cache.rows && LinksOk(s, token) && FloorReached(s, token)
    requires t.cache.rows == s.cache.rows && t.cache.ops == s.cache.ops && t.cache.floor == s.cache.floor
    requires t.link == s.link && t.shop.stages == s.shop.stages && t.shop.flight.calls == s.shop.flight.calls
    ensures LinksOk(t, token) && FloorReached(t, token)
  {
    forall id ensures StageOf(t.shop, id) == StageOf(s.shop, id) && Rotating(t.shop, id) == Rotating(s.shop, id) {
    }
  }

  lemma ClocksAgree(s: Stack, t: Stack, now: nat)
    requires ClockStep(s, t, now) && s.shop.world.rows == s.cache.rows
    ensures t.cache.now == t.shop.flight.now && t.shop.world.rows == t.cache.rows == s.cache.rows
    ensures t.cache.ops == s.cache.ops && t.cache.floor == s.cache.floor && t.shop.flight.calls == s.shop.flight.calls
  {
  }

  lemma ClockKeepsInv(s: Stack, t: Stack, k: Setting, raised: bool, now: nat)
    requires StackInv(s, k, raised) && ClockStep(s, t, now) && Flight.Timely(t.shop.flight)
    ensures StackInv(t, k, raised)
  {
    CacheSafety.StepKeepsInv(s.cache, Cache.Tick(now));
    RefreshRuns.GroupStep(s.shop, t.shop, k, raised, Flight.Tick(now));
    ClocksAgree(s, t, now);
    NothingMoves(s, t, k.token);
  }

  /** The lookup's answer is the row. */
  lemma AnswerIsTheRow(s: Stack, k: Setting, raised: bool, id: Flight.CallId)
    requires StackInv(s, k, raised) && id in s.link && Checks(StageOf(s.shop, id)) && s.cache.ops[s.link[id]].pc.Done?
    ensures Received(s.cache.ops[s.link[id]].pc.answer) == LookedUp(s.cache.rows, k.token.claims.device)
  {
    assert LinkOk(StageOf(s.shop, id), s.cache.ops[s.link[id]], k.token.claims.device,
                  s.cache.rows[k.token.claims.device].generation);
    CacheSafety.AnswerIsCurrent(s.cache, s.link[id], k.token.claims.device);
  }

  /** So the verdict through the cache is the table's verdict. */
  lemma CheckIsRotation(s: Stack, t: Stack, k: Setting, raised: bool, id: Flight.CallId)
    requires StackInv(s, k, raised) && ResumeStep(s, t, k.token, id) && Checks(StageOf(s.shop, id))
    ensures RotateStep(s.shop, t.shop, k.token, id)
  {
    AnswerIsTheRow(s, k, raised, id);
    assert DeviceOf(Presented(k.config, k.token, StageOf(s.shop, id))) == k.token.claims.device;
  }

  lemma CheckKeepsLinks(s: Stack, t: Stack, k: Setting, raised: bool, id: Flight.CallId)
    requires StackInv(s, k, raised) && ResumeStep(s, t, k.token, id) && Checks(StageOf(s.shop, id))
    ensures LinksOk(t, k.token) && FloorReached(t, k.token)
  {
    NobodyElseWaits(s, k, raised, id);
  }

  /** When the update returns, the generation it made has been handed out. */
  lemma UpdateReturns(s: Stack, t: Stack, k: Setting, raised: bool, id: Flight.CallId)
    requires StackInv(s, k, raised) && ResumeStep(s, t, k.token, id) && !Checks(StageOf(s.shop, id))
    ensures t.shop == s.shop && StackInv(t, k, raised)
  {
    NobodyElseWaits(s, k, raised, id);
    assert LinkOk(StageOf(s.shop, id), s.cache.ops[s.link[id]], k.token.claims.device,
                  s.cache.rows[k.token.claims.device].generation);
    assert StageOk(s.shop, k, StageOf(s.shop, id), raised);
    assert CacheSafety.OpOk(s.cache, s.cache.ops[s.link[id]]);
  }

  lemma PlainKeepsLinks(s: Stack, t: Stack, k: Setting, raised: bool, id: Flight.CallId)
    requires StackInv(s, k, raised) && PlainStep(s, t, k.token, id)
    ensures RotateStep(s.shop, t.shop, k.token, id) && t.shop.world.rows == t.cache.rows
    ensures LinksOk(t, k.token) && FloorReached(t, k.token)
  {
    NobodyElseWaits(s, k, raised, id);
  }

  lemma GroupKeepsLinks(s: Stack, t: Stack, k: Setting, raised: bool, e: Flight.Event<TokenPair>)
    requires StackInv(s, k, raised) && GroupStep(s, t, e)
    ensures LinksOk(t, k.token) && FloorReached(t, k.token)
  {
    forall id | id in t.link ensures Rotating(t.shop, id) && StageOf(t.shop, id) == StageOf(s.shop, id) {
      CallsStay(s.shop.flight, e, id);
    }
    if forall id :: id in t.link ==> !StageOf(t.shop, id).Bumped? {
      assert forall id :: id in s.link ==> StageOf(s.shop, id) == StageOf(t.shop, id);
    }
  }

  lemma ClockStands(s: Flight.State<TokenPair>, e: Flight.Event<TokenPair>)
    requires Flight.Enabled(s, e) && !e.Tick?
    ensures Flight.Apply(s, e).now == s.now
  {
  }

  lemma GroupKeepsInv(s: Stack, t: Stack, k: Setting, raised: bool, e: Flight.Event<TokenPair>)
    requires StackInv(s, k, raised) && GroupStep(s, t, e) && Flight.Timely(t.shop.flight)
    ensures StackInv(t, k, raised)
  {
    RefreshRuns.GroupStep(s.shop, t.shop, k, raised, e);
    ClockStands(s.shop.flight, e);
    GroupKeepsLinks(s, t, k, raised, e);
  }

  lemma IncrementStep(s: Stack, t: Stack, k: Setting, raised: bool, id: Flight.CallId, e: Cache.Event)
    requires StackInv(s, k, raised) && OwnStep(s, t, k.token, id, e)
    ensures RotateStep(s.shop, t.shop, k.token, id) && StackInv(t, k, true)
  {
    OwnIsIncrement(s, t, k, raised, id, e);
    IncrementIsRotation(s, t, k, raised, id, e);
    RotationStep(s.shop, k, raised, id);
    CacheSafety.StepKeepsInv(s.cache, e);
    IncrementKeepsLinks(s, t, k, raised, id, e);
  }

  lemma RotationOfStackStep(s: Stack, t: Stack, k: Setting, raised: bool, id: Flight.CallId)
    requires StackInv(s, k, raised) && (ResumeStep(s, t, k.token, id) || PlainStep(s, t, k.token, id))
    ensures Next(s.shop, t.shop, k.token) && StackInv(t, k, raised)
  {
    if PlainStep(s, t, k.token, id) {
      PlainKeepsLinks(s, t, k, raised, id);
      RotationStep(s.shop, k, raised, id);
    } else if Checks(StageOf(s.shop, id)) {
      CheckIsRotation(s, t, k, raised, id);
      RotationStep(s.shop, k, raised, id);
      CheckKeepsLinks(s, t, k, raised, id);
    } else {
      UpdateReturns(s, t, k, raised, id);
      assert Elsewhere(s.shop, t.shop, k.token.claims.device);
    }
  }

  lemma StackStep(s: Stack, t: Stack, k: Setting, raised: bool) returns (after: bool)
    requires StackInv(s, k, raised) && StackNext(s, t, k.token) && Flight.Timely(t.shop.flight)
    ensures Next(s.shop, t.shop, k.token) && StackInv(t, k, after)
  {
    after := raised;
    if id, op :| CallStep(s, t, k.token, id, op) {
      CallIsElsewhere(s, t, k, raised, id, op);
    } else if id, e :| OwnStep(s, t, k.token, id, e) {
      IncrementStep(s, t, k, raised, id, e);
      after := true;
    } else if id :| ResumeStep(s, t, k.token, id) || PlainStep(s, t, k.token, id) {
      RotationOfStackStep(s, t, k, raised, id);
    } else if e :| OtherStep(s, t, k.token, e) {
      OtherIsElsewhere(s, t, k, raised, e);
    } else if now :| ClockStep(s, t, now) {
      ClockKeepsInv(s, t, k, raised, now);
    } else {
      var e :| GroupStep(s, t, e);
      GroupKeepsInv(s, t, k, raised, e);
    }
  }

  /** Should a rotation be alarmed, the delete that it calls takes its subject's device, as over the
      bare table. */
  lemma AlarmDeletesThroughTheCache(s: Cache.State, op: Cache.OpId, instance: Flight.Instance, w: World, token: Token)
    requires token.Token? && op in s.ops && s.ops[op].pc.Start? && s.ops[op].task == TaskOf(token, instance, Alarmed)
    requires w.rows == s.rows
    ensures Cache.Enabled(s, Cache.RemoveRows(op))
    ensures Cache.Apply(s, Cache.RemoveRows(op)).rows == SteppedRows(w, token, Alarmed)
  {
    assert Cache.Apply(s, Cache.RemoveRows(op)).rows == s.rows - Cache.Doomed(s, s.ops[op].task);
  }

  // --- whole runs --------------------------------------------------------------------------

  function Shops(b: seq<Stack>): seq<Shop> {
    seq(|b|, i requires 0 <= i < |b| => b[i].shop)
  }

  ghost predicate StackInTime(b: seq<Stack>) {
    forall i :: 0 <= i < |b| ==> Flight.Timely(b[i].shop.flight)
  }

  lemma {:induction false} StackAlways(
    b: seq<Stack>, past: seq<Cache.State>, token: Token, i: nat) returns (raised: bool)
    requires StackRun(b, past, token) && StackInTime(b) && i < |b|
    requires Covered(b[0].shop.world, b[0].shop.flight.now, token)
    ensures token.claims.device in b[0].cache.rows && StackInv(b[i], SettingOf(b[0].shop, token), raised)
    ensures i > 0 ==> Next(b[i - 1].shop, b[i].shop, token)
  {
    SafeAtFirst(b[0].shop, token);
    if i == 0 {
      raised := false;
      CacheSafety.InvAlways(past, |past| - 1);
      CacheSafety.HandedOutIsFloored(b[0].cache, token.claims.device, token.claims.generation);
    } else {
      var before := StackAlways(b, past, token, i - 1);
      assert StackAt(b, i - 1, token);
      raised := StackStep(b[i - 1], b[i], SettingOf(b[0].shop, token), before);
    }
  }

  /** Every orderly run of the stack whose executions end in time is, seen from above, a run over
      the bare table. */
  lemma StackRefinesShop(b: seq<Stack>, past: seq<Cache.State>, token: Token)
    requires StackRun(b, past, token) && StackInTime(b)
    requires Covered(b[0].shop.world, b[0].shop.flight.now, token)
    ensures Run(Shops(b), token) && InTime(Shops(b))
  {
    var c := Shops(b);
    forall i | 0 <= i < |c| - 1 ensures RefreshRuns.StepAt(c, i, token) {
      var raised := StackAlways(b, past, token, i + 1);
    }
  }

  /** Refreshes with one accepted, covered token, through the flight group, the token checks and
      the cache, in every orderly run whose executions end in time: the device is never deleted, its
      generation goes up at most once, exactly once as soon as anybody is answered, and everybody
      gets the same pair of tokens, accepted until they end, with a name that the user had. */
  lemma RefreshIsRetrySafeThroughTheCache(b: seq<Stack>, past: seq<Cache.State>, token: Token, i: nat)
    requires StackRun(b, past, token) && StackInTime(b) && i < |b|
    requires Covered(b[0].shop.world, b[0].shop.flight.now, token)
    ensures var d := token.claims.device;
      && d in b[0].cache.rows && d in b[i].cache.rows
      && b[i].cache.rows[d].secret == b[0].cache.rows[d].secret
      && token.claims.generation <= b[i].cache.rows[d].generation <= token.claims.generation + 1
    ensures forall id, pair :: Answered(b[i].shop, id, pair) ==>
      && b[i].cache.rows[token.claims.device].generation == token.claims.generation + 1
      && Handed(pair, token, b[i].cache.rows, b[0].shop.world.config, b[0].cache.now, b[i].cache.now)
      && NameHeld(Shops(b), i, token, pair.access.claims.username)
    ensures forall first, second, one, two ::
      Answered(b[i].shop, first, one) && Answered(b[i].shop, second, two) ==> one == two
  {
    StackRefinesShop(b, past, token);
    RefreshIsRetrySafe(Shops(b), token, i);
    forall id, pair | Answered(b[i].shop, id, pair)
      ensures pair.access.Token? && NameHeld(Shops(b), i, token, pair.access.claims.username)
    {
      AnsweredNameWasHeld(Shops(b), token, i, id, pair);
    }
    var raised := StackAlways(b, past, token, i);
  }

  /** And no later call in the window, in time, is refused. */
  lemma RetriesAreAnsweredThroughTheCache(
    b: seq<Stack>, past: seq<Cache.State>, token: Token, i: nat, j: nat, first: Flight.CallId, pair: TokenPair,
    id: Flight.CallId)
    requires StackRun(b, past, token) && StackInTime(b) && i <= j < |b|
    requires Covered(b[0].shop.world, b[0].shop.flight.now, token)
    requires Answered(b[i].shop, first, pair) && BegunSince(Shops(b), i, j, id)
    ensures Answered(b[j].shop, id, pair)
  {
    StackRefinesShop(b, past, token);
    RetriesAreAnswered(Shops(b), token, i, j, first, pair, id);
  }
}
