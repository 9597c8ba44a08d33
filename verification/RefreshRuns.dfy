/**
 `/refresh` through the flight group: any number of concurrent or repeated refreshes with one
 token. A rotation is taken apart into its checks, the increment, the signatures and the delete,
 each at its own time, with the rest of the server at work in between. Rotation is not
 idempotent, and neither a run that fails after the increment nor one that outlasts its context is
 stored; the theorem says when retries are nevertheless harmless.
 */
module RefreshRuns {
  import opened Wrappers
  import opened Secrets
  import opened Devices
  import opened Tokens
  import opened Refresh
  import Duration
  import Flight
  import FlightSafety
  import FlightAnswers

  /** How far a rotation has come. */
  datatype Stage =
    | Arrived
    | Checked
    | Known(username: string)
    | Rechecked(username: string, secret: string)
    | Bumped(username: string, secret: string, generation: int)
    | Signed(username: string, secret: string, generation: int, mintedAt: nat)
    | Confirmed(username: string, secret: string, generation: int, mintedAt: nat)
    | Alarmed
    | Over(outcome: Result<TokenPair, string>)

  datatype Shop = Shop(flight: Flight.State<TokenPair>, world: World, stages: map<Flight.CallId, Stage>)

  /** What a refresh gives its context. */
  const ROTATE_TIMEOUT: nat := 10 * Duration.SECOND

  const FAILED: Result<TokenPair, string> := Failure("rotate")

  function StageOf(s: Shop, id: Flight.CallId): Stage {
    if id in s.stages then s.stages[id] else Arrived
  }

  predicate Checks(stage: Stage) {
    stage.Arrived? || stage.Known? || stage.Signed?
  }

  function NewRefresh(config: Config, token: Token, stage: Stage): Token
    requires token.Token? && (stage.Signed? || stage.Confirmed?)
  {
    var c := token.claims;
    Tokens.RefreshToken(config, c.subject, c.device, stage.secret, stage.generation, stage.mintedAt)
  }

  /** The token that a checking stage presents: its own, or the one it has just signed. */
  function Presented(config: Config, token: Token, stage: Stage): Token
    requires token.Token?
  {
    if stage.Signed? then NewRefresh(config, token, stage) else token
  }

  /** What the verdict of a check leads to. */
  function AfterCheck(stage: Stage, verdict: Result<string, AuthError>): Stage
    requires Checks(stage)
  {
    match stage
    case Arrived => if verdict.Success? then Checked else if verdict.error.Revoked? then Alarmed else Over(FAILED)
    case Known(name) =>
      if verdict.Success? then Rechecked(name, verdict.value)
      else if verdict.error.Revoked? then Alarmed else Over(FAILED)
    case Signed(name, secret, g, mintedAt) =>
      if verdict.Success? then Confirmed(name, verdict.value, g, mintedAt) else Over(FAILED)
  }

  function NewAccess(config: Config, token: Token, stage: Stage, now: nat): Token
    requires token.Token? && stage.Confirmed?
  {
    AccessToken(config, token.claims.subject, stage.username, token.claims.device, stage.secret, stage.generation, now)
  }

  /** The next stage of a rotation, with the table and the clock as they are now. */
  function Stepped(w: World, now: nat, token: Token, stage: Stage): Stage
    requires token.Token? && !stage.Over?
  {
    if Checks(stage) then
      AfterCheck(stage, Verified(w.rows, Presented(w.config, token, stage), Kind.Refresh, now, w.config))
    else
      match stage
      case Checked => if NameOf(w, token).Success? then Known(NameOf(w, token).value) else Over(FAILED)
      case Rechecked(name, secret) =>
        if token.claims.device in w.rows then Bumped(name, secret, w.rows[token.claims.device].generation + 1)
        else Over(FAILED)
      case Bumped(name, secret, g) => Signed(name, secret, g, now)
      case Confirmed(_, _, _, _) =>
        Over(Success(TokenPair(NewAccess(w.config, token, stage, now), NewRefresh(w.config, token, stage))))
      case Alarmed => Over(FAILED)
  }

  function SteppedRows(w: World, token: Token, stage: Stage): Rows
    requires token.Token?
  {
    if stage.Rechecked? then RowsIncremented(w.rows, token.claims.device)
    else if stage.Alarmed? then RowsWithout(w.rows, token.claims.subject, token.claims.device)
    else w.rows
  }

  // --- runs --------------------------------------------------------------------------------

  /** All callers share one result: through Redis, or by being on one instance. */
  predicate SharedResult(s: Flight.State<TokenPair>, e: Flight.Event<TokenPair>) {
    e.Start? ==> s.distributed || e.instance == 0
  }

  /** A step of the flight group, Redis answering, in the window of the result; `fn` returns when
      its rotation is over. Time passes at any moment. */
  ghost predicate FlightStep(s: Shop, t: Shop, e: Flight.Event<TokenPair>) {
    && Flight.Enabled(s.flight, e) && Flight.Healthy(s.flight, e)
    && Flight.OrdinaryWindow(e) && SharedResult(s.flight, e)
    && (e.Return? ==> StageOf(s, e.id) == Over(e.outcome))
    && t == s.(flight := Flight.Apply(s.flight, e))
  }

  predicate Rotating(s: Shop, id: Flight.CallId) {
    id in s.flight.calls && s.flight.calls[id].pc.Running?
  }

  function Rotated(s: Shop, token: Token, id: Flight.CallId): Shop
    requires token.Token? && !StageOf(s, id).Over?
  {
    s.(world := s.world.(rows := SteppedRows(s.world, token, StageOf(s, id))),
       stages := s.stages[id := Stepped(s.world, s.flight.now, token, StageOf(s, id))])
  }

  ghost predicate RotateStep(s: Shop, t: Shop, token: Token, id: Flight.CallId)
    requires token.Token?
  {
    Rotating(s, id) && !StageOf(s, id).Over? && t == Rotated(s, token, id)
  }

  /** Everything else in the server, as long as it leaves this one row alone. */
  ghost predicate Elsewhere(s: Shop, t: Shop, device: DeviceId) {
    && t.flight == s.flight && t.stages == s.stages
    && t.world.config == s.world.config && t.world.selects == s.world.selects
    && Lookup(t.world.rows, device) == Lookup(s.world.rows, device)
  }

  ghost predicate Next(s: Shop, t: Shop, token: Token)
    requires token.Token?
  {
    || Elsewhere(s, t, token.claims.device)
    || (exists e :: FlightStep(s, t, e))
    || (exists id :: RotateStep(s, t, token, id))
  }

  ghost predicate StepAt(b: seq<Shop>, i: int, token: Token)
    requires 0 <= i < |b| - 1 && token.Token?
  {
    Next(b[i], b[i + 1], token)
  }

  ghost predicate Path(b: seq<Shop>, token: Token) {
    |b| > 0 && token.Token? && forall i :: 0 <= i < |b| - 1 ==> StepAt(b, i, token)
  }

  /** Nobody has refreshed with this token yet, and it is accepted. */
  ghost predicate Opening(s: Shop, token: Token) {
    && s.flight == Flight.Init(s.flight.distributed, ROTATE_TIMEOUT, s.flight.now)
    && s.stages == map[] && Accepts(s.world, token, s.flight.now)
  }

  ghost predicate Run(b: seq<Shop>, token: Token) {
    Path(b, token) && Opening(b[0], token)
  }

  /** A token minted now would not end before this one does. */
  predicate Covered(w: World, now: nat, token: Token) {
    && token.Token? && token.claims.expires.Some?
    && token.claims.expires.value <= WholeSeconds(now + w.config.refreshDuration)
  }

  /** The token is over before the first context can be, or contexts do not matter. */
  predicate Brief(distributed: bool, now: nat, token: Token) {
    distributed ==> token.Token? && token.claims.expires.Some? && token.claims.expires.value <= now + ROTATE_TIMEOUT
  }

  /** Every execution of the run ends within its context. */
  ghost predicate InTime(b: seq<Shop>) {
    forall i :: 0 <= i < |b| ==> Flight.Timely(b[i].flight)
  }

  lemma WholeSecondsRise(a: nat, b: nat)
    requires a <= b
    ensures WholeSeconds(a) <= WholeSeconds(b)
  {
  }

  /** Every token that was minted under the present configuration is covered. */
  lemma MintedHereIsCovered(w: World, now: nat, token: Token, mintedAt: nat)
    requires token.Token? && mintedAt <= now
    requires token.claims.expires == Some(WholeSeconds(mintedAt + w.config.refreshDuration))
    ensures Covered(w, now, token)
  {
    WholeSecondsRise(mintedAt + w.config.refreshDuration, now + w.config.refreshDuration);
  }

  // --- the invariant -----------------------------------------------------------------------

  ghost predicate Outdated(s: Shop, token: Token)
    requires token.Token?
  {
    token.claims.expires.Some? && token.claims.expires.value <= s.flight.now
  }

  /** What a run begins with: a token signed for this row, which whatever is minted from `start`
      on outlasts. */
  datatype Setting = Setting(token: Token, row: Row, config: Config, start: nat)

  ghost predicate Fits(k: Setting) {
    && k.token.Token? && k.token.hmac && HasTokenType(k.token.typ, Kind.Refresh)
    && k.token.key == k.row.secret && k.token.claims.generation == k.row.generation
    && k.token.claims.expires.Some?
    && k.token.claims.expires.value <= WholeSeconds(k.start + k.config.refreshDuration)
  }

  ghost predicate PairOf(pair: TokenPair, k: Setting, name: string, mintedAt: nat, issuedAt: nat)
    requires k.token.Token?
  {
    var c, secret, next := k.token.claims, k.row.secret, k.row.generation + 1;
    && pair.refresh == Tokens.RefreshToken(k.config, c.subject, c.device, secret, next, mintedAt)
    && pair.access == AccessToken(k.config, c.subject, name, c.device, secret, next, issuedAt)
  }

  /** A pair of the next generation, signed with the row's secret since the run began. */
  ghost predicate GoodPair(pair: TokenPair, k: Setting, now: nat)
    requires k.token.Token?
  {
    exists name: string, mintedAt: nat, issuedAt: nat ::
      PairOf(pair, k, name, mintedAt, issuedAt) && k.start <= mintedAt <= now && k.start <= issuedAt <= now
  }

  predicate Late(stage: Stage) {
    stage.Bumped? || stage.Signed? || stage.Confirmed? || (stage.Over? && stage.outcome.Success?)
  }

  /** Past the first check, and not failed. */
  predicate Engaged(stage: Stage) {
    stage.Checked? || stage.Known? || stage.Rechecked? || Late(stage)
  }

  /** What the stage of a rotation in progress promises; `raised` tells that the row has been counted up. */
  ghost predicate StageOk(s: Shop, k: Setting, stage: Stage, raised: bool)
    requires k.token.Token?
  {
    var secret, next := k.row.secret, k.row.generation + 1;
    match stage
    case Arrived => true
    case Checked => !raised
    case Known(_) => !raised
    case Rechecked(_, key) => !raised && key == secret
    case Bumped(_, key, g) => raised && key == secret && g == next
    case Signed(_, key, g, m) => raised && key == secret && g == next && k.start <= m <= s.flight.now
    case Confirmed(_, key, g, m) => raised && key == secret && g == next && k.start <= m <= s.flight.now
    case Alarmed => false
    case Over(outcome) =>
      if outcome.Success? then raised && GoodPair(outcome.value, k, s.flight.now) else raised ==> Outdated(s, k.token)
  }

  predicate Begun(pc: Flight.Pc<TokenPair>) {
    !pc.Checking? && !pc.WantLock? && !pc.Rechecking? && !pc.Following?
  }

  ghost predicate RowOk(s: Shop, k: Setting, raised: bool)
    requires k.token.Token?
  {
    && k.token.claims.device in s.world.rows
    && s.world.rows[k.token.claims.device] == k.row.(generation := k.row.generation + if raised then 1 else 0)
  }

  ghost predicate StagesOk(s: Shop, k: Setting, raised: bool)
    requires k.token.Token?
  {
    && (forall id :: id in s.stages ==> id in s.flight.calls && Begun(s.flight.calls[id].pc))
    && (forall id :: Rotating(s, id) ==> StageOk(s, k, StageOf(s, id), raised))
  }

  predicate Spending(s: Shop, id: Flight.CallId) {
    Rotating(s, id) && Engaged(StageOf(s, id))
  }

  /** One rotation at most is past its first check, or has succeeded. */
  ghost predicate Sole(s: Shop, raised: bool) {
    && (forall id, other :: Spending(s, id) && Spending(s, other) ==> id == other)
    && |s.flight.runs| <= 1
    && (s.flight.runs != [] ==> raised && forall id :: !Spending(s, id))
  }

  /** The contexts were made from the start of the run on. */
  ghost predicate DuesOk(s: Flight.State<TokenPair>, start: nat) {
    && s.timeout == ROTATE_TIMEOUT && start <= s.now
    && forall id :: id in s.calls ==> start + ROTATE_TIMEOUT <= s.calls[id].due
  }

  /** What holds in time and out of time. */
  ghost predicate Base(s: Shop, k: Setting, raised: bool) {
    && FlightSafety.Inv(s.flight) && FlightSafety.LeadersOk(s.flight) && DuesOk(s.flight, k.start)
    && Fits(k) && s.world.config == k.config
    && RowOk(s, k, raised) && StagesOk(s, k, raised) && Sole(s, raised)
    && (forall i :: 0 <= i < |s.flight.runs| ==> GoodPair(s.flight.runs[i].value, k, s.flight.now))
  }

  ghost predicate Placed(s: Flight.State<TokenPair>) {
    && (forall id :: id in s.calls ==> s.distributed || s.calls[id].instance == 0)
    && (forall i :: 0 <= i < |s.runs| ==> s.distributed || s.runs[i].instance == 0)
  }

  /** While executions are in time there is one at a time, and a raised row has its pair stored, or
      a rotation at work on it, or a token that is over anyway. */
  ghost predicate Exclusive(s: Shop, token: Token, raised: bool)
    requires token.Token?
  {
    && FlightSafety.OrdinaryInv(s.flight) && Placed(s.flight)
    && (raised && s.flight.runs == [] && !Outdated(s, token) ==> exists id :: Rotating(s, id) && Late(StageOf(s, id)))
  }

  ghost predicate SafeInv(s: Shop, k: Setting, raised: bool) {
    Base(s, k, raised) && (Exclusive(s, k.token, raised) || Outdated(s, k.token))
  }

  /** No two rotations of one token are in progress at once, as long as executions are in time. */
  lemma OneRotationAtATime(s: Flight.State<TokenPair>, id: Flight.CallId, other: Flight.CallId)
    requires FlightSafety.OrdinaryInv(s) && Placed(s)
    requires id in s.calls && other in s.calls && s.calls[id].pc.Running? && s.calls[other].pc.Running?
    ensures id == other
  {
    assert FlightSafety.OrdinaryCallOk(s, id) && FlightSafety.OrdinaryCallOk(s, other);
    assert FlightSafety.CallOk(s, id) && FlightSafety.CallOk(s, other);
    if id != other {
      FlightSafety.RunnersAreApart(s, id, other);
    }
  }

  lemma FirstRunIsHere(s: Flight.State<TokenPair>)
    requires Placed(s)
    ensures s.runs == [] || s.distributed || s.runs[0].instance == 0
  {
  }

  /** While `fn` runs in time no run of it has succeeded. */
  lemma RotatingMeansUnanswered(s: Flight.State<TokenPair>, id: Flight.CallId)
    requires FlightSafety.OrdinaryInv(s) && Placed(s) && id in s.calls && s.calls[id].pc.Running?
    ensures s.runs == []
  {
    assert FlightSafety.OrdinaryCallOk(s, id);
    FirstRunIsHere(s);
  }

  // --- the steps of a rotation -------------------------------------------------------------

  /** A check of the presented token never raises the alarm: the row is at the token's
      generation, or the token is out of date. */
  lemma PresentedCheck(s: Shop, k: Setting, raised: bool)
    requires Fits(k) && s.world.config == k.config && RowOk(s, k, raised)
    requires raised ==> Outdated(s, k.token)
    ensures var verdict := Verified(s.world.rows, k.token, Kind.Refresh, s.flight.now, k.config);
      if verdict.Success? then !Outdated(s, k.token) && verdict.value == k.row.secret else !verdict.error.Revoked?
  {
  }

  /** A check of the new token fails only when the presented one is out of date as well. */
  lemma SignedCheck(s: Shop, k: Setting, stage: Stage)
    requires Fits(k) && s.world.config == k.config && RowOk(s, k, true)
    requires stage.Signed? && StageOk(s, k, stage, true)
    ensures var refresh := NewRefresh(k.config, k.token, stage);
      var verdict := Verified(s.world.rows, refresh, Kind.Refresh, s.flight.now, k.config);
      if verdict.Success? then verdict.value == k.row.secret else Outdated(s, k.token)
  {
    var c := k.token.claims;
    MintedIsAccepted(s.world.rows, c.device, c.subject, "", stage.mintedAt, s.flight.now, k.config);
    WholeSecondsRise(k.start + k.config.refreshDuration, stage.mintedAt + k.config.refreshDuration);
    AcceptedMeans(s.world.rows, NewRefresh(k.config, k.token, stage), Kind.Refresh, s.flight.now, k.config);
  }

  /** Before its increment a rotation sees the row as it was, or its token is over. */
  lemma EarlyMeansUnraised(s: Shop, k: Setting, raised: bool, id: Flight.CallId)
    requires SafeInv(s, k, raised) && Rotating(s, id) && !Late(StageOf(s, id))
    ensures raised ==> Outdated(s, k.token)
  {
    if raised && !Outdated(s, k.token) {
      RotatingMeansUnanswered(s.flight, id);
      var other :| Rotating(s, other) && Late(StageOf(s, other));
      OneRotationAtATime(s.flight, id, other);
    }
  }

  function Raised(s: Shop, id: Flight.CallId, raised: bool): bool {
    raised || StageOf(s, id).Rechecked?
  }

  lemma GoodPairStays(pair: TokenPair, k: Setting, now: nat, later: nat)
    requires k.token.Token? && GoodPair(pair, k, now) && now <= later
    ensures GoodPair(pair, k, later)
  {
    var name: string, mintedAt: nat, issuedAt: nat :|
      PairOf(pair, k, name, mintedAt, issuedAt) && k.start <= mintedAt <= now && k.start <= issuedAt <= now;
    assert PairOf(pair, k, name, mintedAt, issuedAt);
  }

  /** What a confirmed rotation hands out. */
  lemma ConfirmedIsGood(s: Shop, k: Setting, stage: Stage)
    requires Fits(k) && s.world.config == k.config && k.start <= s.flight.now
    requires stage.Confirmed? && StageOk(s, k, stage, true)
    ensures var over := Stepped(s.world, s.flight.now, k.token, stage);
      over.Over? && over.outcome.Success? && GoodPair(over.outcome.value, k, s.flight.now)
  {
    var pair := Stepped(s.world, s.flight.now, k.token, stage).outcome.value;
    assert PairOf(pair, k, stage.username, stage.mintedAt, s.flight.now);
  }

  /** The next stage is sound, and the row is raised exactly by the increment. Once the token is
      over nobody passes the first check. */
  lemma NextStageIsSound(s: Shop, k: Setting, raised: bool, id: Flight.CallId)
    requires SafeInv(s, k, raised) && Rotating(s, id) && !StageOf(s, id).Over?
    ensures var t := Rotated(s, k.token, id); var after := Raised(s, id, raised);
      && RowOk(t, k, after) && StageOk(t, k, StageOf(t, id), after)
      && (after && !Outdated(s, k.token) ==> Late(StageOf(t, id)))
      && (Outdated(s, k.token) && Engaged(StageOf(t, id)) ==> Engaged(StageOf(s, id)))
  {
    var stage := StageOf(s, id);
    assert StageOk(s, k, stage, raised);
    if !Late(stage) {
      EarlyMeansUnraised(s, k, raised, id);
      PresentedCheck(s, k, raised);
    } else if stage.Signed? {
      SignedCheck(s, k, stage);
    } else if stage.Confirmed? {
      ConfirmedIsGood(s, k, stage);
    }
  }

  /** A step of one rotation leaves the stages of the others alone. */
  lemma OthersStand(s: Shop, token: Token, id: Flight.CallId)
    requires token.Token? && Rotating(s, id) && !StageOf(s, id).Over?
    ensures var t := Rotated(s, token, id);
      forall other ::
        Rotating(t, other) == Rotating(s, other) && (other != id ==> StageOf(t, other) == StageOf(s, other))
  {
  }

  /** Whoever passes the first check is the only one to have passed it. */
  lemma SoleStays(s: Shop, k: Setting, raised: bool, id: Flight.CallId)
    requires SafeInv(s, k, raised) && Rotating(s, id) && !StageOf(s, id).Over?
    ensures Sole(Rotated(s, k.token, id), Raised(s, id, raised))
  {
    var t := Rotated(s, k.token, id);
    OthersStand(s, k.token, id);
    NextStageIsSound(s, k, raised, id);
    if Engaged(StageOf(t, id)) && !Engaged(StageOf(s, id)) {
      RotatingMeansUnanswered(s.flight, id);
      forall other | Spending(t, other) ensures other == id {
        OneRotationAtATime(s.flight, id, other);
      }
    } else {
      SoleLocally(s, t, raised, id);
    }
  }

  lemma SoleLocally(s: Shop, t: Shop, raised: bool, id: Flight.CallId)
    requires Sole(s, raised) && t.flight == s.flight && Rotating(s, id)
    requires forall other :: other != id ==> StageOf(t, other) == StageOf(s, other)
    requires Engaged(StageOf(t, id)) ==> Engaged(StageOf(s, id))
    ensures Sole(t, Raised(s, id, raised))
  {
    forall other | Spending(t, other) ensures Spending(s, other) {
    }
  }

  lemma BaseRotation(s: Shop, k: Setting, raised: bool, id: Flight.CallId)
    requires SafeInv(s, k, raised) && Rotating(s, id) && !StageOf(s, id).Over?
    ensures Base(Rotated(s, k.token, id), k, Raised(s, id, raised))
  {
    var t, after := Rotated(s, k.token, id), Raised(s, id, raised);
    NextStageIsSound(s, k, raised, id);
    SoleStays(s, k, raised, id);
    forall other | Rotating(t, other) ensures StageOk(t, k, StageOf(t, other), after) {
      if other != id {
        assert StageOk(s, k, StageOf(s, other), raised);
        if after && !raised {
          assert Spending(s, id) && !Spending(s, other);
          EarlyMeansUnraised(s, k, raised, id);
          if !Outdated(s, k.token) {
            OneRotationAtATime(s.flight, id, other);
          }
        }
      }
    }
  }

  lemma RotationStep(s: Shop, k: Setting, raised: bool, id: Flight.CallId)
    requires SafeInv(s, k, raised) && Rotating(s, id) && !StageOf(s, id).Over?
    ensures SafeInv(Rotated(s, k.token, id), k, Raised(s, id, raised))
    ensures Exclusive(s, k.token, raised) ==> Exclusive(Rotated(s, k.token, id), k.token, Raised(s, id, raised))
  {
    BaseRotation(s, k, raised, id);
    NextStageIsSound(s, k, raised, id);
    assert Rotating(Rotated(s, k.token, id), id);
  }

  // --- the steps of the flight group -------------------------------------------------------

  lemma PlacesStay(s: Flight.State<TokenPair>, e: Flight.Event<TokenPair>)
    requires Flight.Enabled(s, e) && Flight.OrdinaryWindow(e) && SharedResult(s, e) && Placed(s)
    ensures Placed(Flight.Apply(s, e))
  {
    var t := Flight.Apply(s, e);
    RunsStay(s, e);
    CallsRemain(s, e);
    forall i | 0 <= i < |t.runs| ensures t.distributed || t.runs[i].instance == 0 {
      assert i < |s.runs| ==> t.runs[i] == s.runs[i];
    }
  }

  /** Only the return of `fn` adds a run. */
  lemma RunsStay(s: Flight.State<TokenPair>, e: Flight.Event<TokenPair>)
    requires Flight.Enabled(s, e)
    ensures Flight.Apply(s, e).distributed == s.distributed
    ensures Flight.Apply(s, e).runs ==
      if e.Return? && e.outcome.Success?
      then s.runs + [Flight.GoodRun(s.calls[e.id].instance, e.outcome.value)]
      else s.runs
  {
  }

  predicate MovesACall(e: Flight.Event<TokenPair>) {
    !e.Expire? && !e.Forget? && !e.Tick? && !e.Lapse?
  }

  /** A step moves no call but the one it is about, and that one keeps its place and context. */
  ghost predicate Framed(s: Flight.State<TokenPair>, e: Flight.Event<TokenPair>, t: Flight.State<TokenPair>)
    requires MovesACall(e)
  {
    && e.id in t.calls && t.calls == s.calls[e.id := t.calls[e.id]]
    && (e.Start? ==> e.id !in s.calls && t.calls[e.id].instance == e.instance && t.calls[e.id].due == s.now + s.timeout)
    && (!e.Start? ==>
          && e.id in s.calls && t.calls[e.id].instance == s.calls[e.id].instance
          && t.calls[e.id].due == s.calls[e.id].due
          && Onward(s.calls[e.id].pc, t.calls[e.id].pc, e.Return?))
  }

  /** From one program counter to the next: what starts to run has not begun before, and what
      has begun does not begin again. */
  ghost predicate Onward(pc: Flight.Pc<TokenPair>, next: Flight.Pc<TokenPair>, returning: bool) {
    && (next.Running? ==> pc.Running? || !Begun(pc))
    && (Begun(pc) ==> Begun(next))
    && (pc.Running? && !next.Running? ==> returning)
  }

  lemma ChecksAreFramed(s: Flight.State<TokenPair>, e: Flight.Event<TokenPair>)
    requires Flight.Enabled(s, e) && (e.Start? || e.Load? || e.Acquire? || e.Recheck?)
    ensures Framed(s, e, Flight.Apply(s, e))
  {
  }

  lemma WorkIsFramed(s: Flight.State<TokenPair>, e: Flight.Event<TokenPair>)
    requires Flight.Enabled(s, e) && (e.Return? || e.Store?)
    ensures Framed(s, e, Flight.Apply(s, e))
  {
  }

  lemma EndsAreFramed(s: Flight.State<TokenPair>, e: Flight.Event<TokenPair>)
    requires Flight.Enabled(s, e) && (e.Unlock? || e.Finish? || e.Receive?)
    ensures Framed(s, e, Flight.Apply(s, e))
  {
  }

  lemma FailuresAreFramed(s: Flight.State<TokenPair>, e: Flight.Event<TokenPair>)
    requires Flight.Enabled(s, e) && Flight.Fails(e)
    ensures Framed(s, e, Flight.Apply(s, e))
  {
  }

  lemma CallsRemain(s: Flight.State<TokenPair>, e: Flight.Event<TokenPair>)
    requires Flight.Enabled(s, e)
    ensures if MovesACall(e) then Framed(s, e, Flight.Apply(s, e)) else Flight.Apply(s, e).calls == s.calls
  {
    if e.Start? || e.Load? || e.Acquire? || e.Recheck? {
      ChecksAreFramed(s, e);
    } else if Flight.Fails(e) {
      FailuresAreFramed(s, e);
    } else if e.Return? || e.Store? {
      WorkIsFramed(s, e);
    } else if MovesACall(e) {
      EndsAreFramed(s, e);
    }
  }

  lemma DuesStay(s: Flight.State<TokenPair>, e: Flight.Event<TokenPair>, start: nat)
    requires Flight.Enabled(s, e) && DuesOk(s, start)
    ensures DuesOk(Flight.Apply(s, e), start)
  {
    CallsRemain(s, e);
  }

  lemma CallsStay(s: Flight.State<TokenPair>, e: Flight.Event<TokenPair>, id: Flight.CallId)
    requires Flight.Enabled(s, e) && id in s.calls
    ensures id in Flight.Apply(s, e).calls
    ensures Onward(s.calls[id].pc, Flight.Apply(s, e).calls[id].pc, e.Return? && e.id == id)
  {
    CallsRemain(s, e);
  }

  /** A rotation under way has been, or stands at its beginning. */
  lemma RotatingStays(s: Shop, t: Shop, e: Flight.Event<TokenPair>, id: Flight.CallId)
    requires FlightStep(s, t, e) && Rotating(t, id)
    requires forall o :: o in s.stages ==> o in s.flight.calls && Begun(s.flight.calls[o].pc)
    ensures StageOf(t, id) == StageOf(s, id) && (Rotating(s, id) || StageOf(t, id).Arrived?)
  {
    if id in s.flight.calls {
      CallsStay(s.flight, e, id);
    }
  }

  lemma StageStays(s: Shop, t: Shop, k: Setting, stage: Stage, raised: bool)
    requires k.token.Token? && StageOk(s, k, stage, raised) && s.flight.now <= t.flight.now
    ensures StageOk(t, k, stage, raised)
  {
    if stage.Over? && stage.outcome.Success? {
      GoodPairStays(stage.outcome.value, k, s.flight.now, t.flight.now);
    }
  }

  lemma StagesStay(s: Shop, t: Shop, k: Setting, raised: bool, e: Flight.Event<TokenPair>)
    requires k.token.Token? && StagesOk(s, k, raised) && FlightStep(s, t, e) && s.flight.now <= t.flight.now
    ensures StagesOk(t, k, raised)
  {
    forall id | id in t.stages ensures id in t.flight.calls && Begun(t.flight.calls[id].pc) {
      assert id in s.flight.calls;
      CallsStay(s.flight, e, id);
    }
    forall id | Rotating(t, id) ensures StageOk(t, k, StageOf(t, id), raised) {
      RotatingStays(s, t, e, id);
      if Rotating(s, id) {
        assert StageOk(s, k, StageOf(s, id), raised);
        StageStays(s, t, k, StageOf(s, id), raised);
      }
    }
  }

  lemma SoleThroughGroup(s: Shop, t: Shop, k: Setting, raised: bool, e: Flight.Event<TokenPair>)
    requires Base(s, k, raised) && FlightStep(s, t, e)
    ensures Sole(t, raised)
  {
    RunsStay(s.flight, e);
    forall id | Spending(t, id) ensures Spending(s, id) && !(e.Return? && e.id == id) {
      RotatingStays(s, t, e, id);
      if e.Return? {
        ReturnEnds(s.flight, e);
      }
    }
    if e.Return? {
      assert Rotating(s, e.id) && StageOk(s, k, StageOf(s, e.id), raised);
      assert e.outcome.Success? ==> Spending(s, e.id);
    }
  }

  lemma ReturnEnds(s: Flight.State<TokenPair>, e: Flight.Event<TokenPair>)
    requires Flight.Enabled(s, e) && e.Return?
    ensures e.id in Flight.Apply(s, e).calls && !Flight.Apply(s, e).calls[e.id].pc.Running?
  {
  }

  lemma BaseThroughGroup(s: Shop, t: Shop, k: Setting, raised: bool, e: Flight.Event<TokenPair>)
    requires Base(s, k, raised) && FlightStep(s, t, e)
    ensures Base(t, k, raised)
  {
    FlightSafety.StepKeepsInv(s.flight, e);
    DuesStay(s.flight, e, k.start);
    RunsStay(s.flight, e);
    TimeStays(s.flight, e);
    StagesStay(s, t, k, raised, e);
    SoleThroughGroup(s, t, k, raised, e);
    forall i | 0 <= i < |t.flight.runs| ensures GoodPair(t.flight.runs[i].value, k, t.flight.now) {
      if i < |s.flight.runs| {
        GoodPairStays(s.flight.runs[i].value, k, s.flight.now, t.flight.now);
      } else {
        assert Rotating(s, e.id) && StageOk(s, k, StageOf(s, e.id), raised);
        GoodPairStays(e.outcome.value, k, s.flight.now, t.flight.now);
      }
    }
  }

  lemma TimeStays(s: Flight.State<TokenPair>, e: Flight.Event<TokenPair>)
    requires Flight.Enabled(s, e)
    ensures s.now <= Flight.Apply(s, e).now
  {
  }

  lemma ExclusiveThroughGroup(s: Shop, t: Shop, k: Setting, raised: bool, e: Flight.Event<TokenPair>)
    requires Base(s, k, raised) && Exclusive(s, k.token, raised) && FlightStep(s, t, e) && Flight.Timely(t.flight)
    ensures Exclusive(t, k.token, raised)
  {
    FlightSafety.OrdinaryStep(s.flight, e);
    PlacesStay(s.flight, e);
    RunsStay(s.flight, e);
    TimeStays(s.flight, e);
    if e.Return? {
      assert Rotating(s, e.id) && StageOk(s, k, StageOf(s, e.id), raised);
      RotatingMeansUnanswered(s.flight, e.id);
    } else if raised && t.flight.runs == [] && !Outdated(t, k.token) {
      var id :| Rotating(s, id) && Late(StageOf(s, id));
      CallsStay(s.flight, e, id);
      assert Rotating(t, id);
    }
  }

  /** When an execution first outlasts its context, a brief token is over. */
  lemma OverdueMeansOutdated(s: Shop, k: Setting)
    requires k.token.Token? && DuesOk(s.flight, k.start) && Brief(s.flight.distributed, k.start, k.token)
    requires !Flight.Timely(s.flight)
    ensures Outdated(s, k.token)
  {
    var id :| id in s.flight.calls && !Flight.InTime(s.flight, s.flight.calls[id]);
  }

  lemma GroupStep(s: Shop, t: Shop, k: Setting, raised: bool, e: Flight.Event<TokenPair>)
    requires SafeInv(s, k, raised) && FlightStep(s, t, e)
    requires Flight.Timely(t.flight) || Brief(s.flight.distributed, k.start, k.token)
    ensures SafeInv(t, k, raised)
    ensures Exclusive(s, k.token, raised) && Flight.Timely(t.flight) ==> Exclusive(t, k.token, raised)
  {
    BaseThroughGroup(s, t, k, raised, e);
    TimeStays(s.flight, e);
    RunsStay(s.flight, e);
    if !Flight.Timely(t.flight) {
      OverdueMeansOutdated(t, k);
    } else if Exclusive(s, k.token, raised) {
      ExclusiveThroughGroup(s, t, k, raised, e);
    }
  }

  lemma ElsewhereStep(s: Shop, t: Shop, k: Setting, raised: bool)
    requires SafeInv(s, k, raised) && Elsewhere(s, t, k.token.claims.device)
    ensures SafeInv(t, k, raised) && (Exclusive(s, k.token, raised) ==> Exclusive(t, k.token, raised))
  {
    forall id
      ensures Rotating(t, id) == Rotating(s, id) && StageOf(t, id) == StageOf(s, id)
      ensures Spending(t, id) == Spending(s, id)
    {
    }
    forall id | Rotating(t, id) ensures StageOk(t, k, StageOf(t, id), raised) {
      assert StageOk(s, k, StageOf(s, id), raised);
    }
  }

  // --- whole runs --------------------------------------------------------------------------

  /** Every step keeps the row as it is, or raises it for the one and only time. */
  lemma SafeNext(s: Shop, t: Shop, k: Setting, raised: bool) returns (after: bool)
    requires SafeInv(s, k, raised) && Next(s, t, k.token)
    requires Flight.Timely(t.flight) || Brief(s.flight.distributed, k.start, k.token)
    ensures SafeInv(t, k, after) && t.flight.distributed == s.flight.distributed
    ensures Exclusive(s, k.token, raised) && Flight.Timely(t.flight) ==> Exclusive(t, k.token, after)
  {
    after := raised;
    if Elsewhere(s, t, k.token.claims.device) {
      ElsewhereStep(s, t, k, raised);
    } else if e :| FlightStep(s, t, e) {
      RunsStay(s.flight, e);
      GroupStep(s, t, k, raised, e);
    } else {
      var id :| RotateStep(s, t, k.token, id);
      after := Raised(s, id, raised);
      RotationStep(s, k, raised, id);
    }
  }

  function SettingOf(s: Shop, token: Token): Setting
    requires token.Token? && token.claims.device in s.world.rows
  {
    Setting(token, s.world.rows[token.claims.device], s.world.config, s.flight.now)
  }

  lemma SafeAtFirst(s: Shop, token: Token)
    requires token.Token? && Opening(s, token) && Covered(s.world, s.flight.now, token)
    ensures token.claims.device in s.world.rows
    ensures SafeInv(s, SettingOf(s, token), false) && Exclusive(s, token, false)
  {
    AcceptedMeans(s.world.rows, token, Kind.Refresh, s.flight.now, s.world.config);
  }

  lemma {:induction false} SafeAlways(b: seq<Shop>, token: Token, i: nat) returns (raised: bool)
    requires Run(b, token) && Covered(b[0].world, b[0].flight.now, token) && i < |b|
    requires InTime(b) || Brief(b[0].flight.distributed, b[0].flight.now, token)
    ensures token.claims.device in b[0].world.rows && SafeInv(b[i], SettingOf(b[0], token), raised)
    ensures b[i].flight.distributed == b[0].flight.distributed
    ensures InTime(b) ==> Exclusive(b[i], token, raised)
  {
    SafeAtFirst(b[0], token);
    raised := false;
    if i > 0 {
      var before := SafeAlways(b, token, i - 1);
      assert StepAt(b, i - 1, token);
      raised := SafeNext(b[i - 1], b[i], SettingOf(b[0], token), before);
    }
  }

  ghost predicate Answered(s: Shop, id: Flight.CallId, pair: TokenPair) {
    id in s.flight.calls && s.flight.calls[id].pc.Returned? && s.flight.calls[id].pc.outcome == Success(pair)
  }

  lemma AnsweredMeans(s: Shop, k: Setting, raised: bool, id: Flight.CallId, pair: TokenPair)
    requires Base(s, k, raised) && Answered(s, id, pair)
    ensures raised && GoodPair(pair, k, s.flight.now) && |s.flight.runs| == 1 && s.flight.runs[0].value == pair
  {
    assert FlightSafety.CallOk(s.flight, id);
    assert FlightSafety.Succeeded(s.flight, pair);
  }

  /** An end that a token minted during the run for this long may have. */
  ghost predicate EndsAfter(token: Token, start: nat, now: nat, duration: nat) {
    token.Token? && exists mintedAt: nat :: start <= mintedAt <= now && EndOf(token, mintedAt, duration)
  }

  predicate EndOf(token: Token, mintedAt: nat, duration: nat)
    requires token.Token?
  {
    token.claims.expires == Some(WholeSeconds(mintedAt + duration))
  }

  /** What an answered caller holds: a refresh token and an access token, each accepted as such
      over these rows exactly until its end, both of the next generation and of the caller's user
      and device. */
  ghost predicate Handed(pair: TokenPair, token: Token, rows: Rows, config: Config, start: nat, now: nat) {
    && token.Token? && EndsAfter(pair.refresh, start, now, config.refreshDuration)
    && EndsAfter(pair.access, start, now, config.accessDuration)
    && LastsUntil(rows, pair.refresh, Kind.Refresh, pair.refresh.claims.expires.value, config)
    && LastsUntil(rows, pair.access, Kind.Access, pair.access.claims.expires.value, config)
    && pair.refresh.claims.subject == token.claims.subject && pair.refresh.claims.device == token.claims.device
    && Identifies(pair.access, token.claims.subject, pair.access.claims.username, token.claims.device)
    && pair.refresh.claims.generation == pair.access.claims.generation == token.claims.generation + 1
  }

  lemma PairLasts(s: Shop, k: Setting, pair: TokenPair, name: string, mintedAt: nat, issuedAt: nat)
    requires Fits(k) && RowOk(s, k, true) && PairOf(pair, k, name, mintedAt, issuedAt)
    ensures var end := WholeSeconds(mintedAt + k.config.refreshDuration);
      LastsUntil(s.world.rows, pair.refresh, Kind.Refresh, end, k.config)
    ensures var end := WholeSeconds(issuedAt + k.config.accessDuration);
      LastsUntil(s.world.rows, pair.access, Kind.Access, end, k.config)
  {
    MintedLasts(s.world.rows, k.token.claims, name, mintedAt, k.config);
    MintedLasts(s.world.rows, k.token.claims, name, issuedAt, k.config);
  }

  lemma GoodPairIsHanded(s: Shop, k: Setting, pair: TokenPair)
    requires Base(s, k, true) && GoodPair(pair, k, s.flight.now)
    ensures Handed(pair, k.token, s.world.rows, k.config, k.start, s.flight.now)
  {
    var now := s.flight.now;
    var name: string, mintedAt: nat, issuedAt: nat :|
      PairOf(pair, k, name, mintedAt, issuedAt) && k.start <= mintedAt <= now && k.start <= issuedAt <= now;
    PairLasts(s, k, pair, name, mintedAt, issuedAt);
    assert EndOf(pair.refresh, mintedAt, k.config.refreshDuration);
    assert EndOf(pair.access, issuedAt, k.config.accessDuration);
  }

  /** Any number of concurrent or repeated refreshes with one accepted, covered token, in runs whose
      executions end within their contexts, or with a token that does so: the device is never
      deleted, its generation goes up at most once, exactly once as soon as anybody has been
      answered, and everybody is answered with the same pair of tokens, accepted until they end. */
  lemma RefreshIsRetrySafe(b: seq<Shop>, token: Token, i: nat)
    requires Run(b, token) && Covered(b[0].world, b[0].flight.now, token) && i < |b|
    requires InTime(b) || Brief(b[0].flight.distributed, b[0].flight.now, token)
    ensures var d := token.claims.device;
      && d in b[0].world.rows && d in b[i].world.rows
      && b[i].world.rows[d].secret == b[0].world.rows[d].secret
      && token.claims.generation <= b[i].world.rows[d].generation <= token.claims.generation + 1
    ensures forall id, pair :: Answered(b[i], id, pair) ==>
      && b[i].world.rows[token.claims.device].generation == token.claims.generation + 1
      && Handed(pair, token, b[i].world.rows, b[0].world.config, b[0].flight.now, b[i].flight.now)
    ensures forall first, second, one, two :: Answered(b[i], first, one) && Answered(b[i], second, two) ==> one == two
  {
    var raised := SafeAlways(b, token, i);
    var k := SettingOf(b[0], token);
    forall id, pair | Answered(b[i], id, pair)
      ensures raised && |b[i].flight.runs| == 1 && b[i].flight.runs[0].value == pair
      ensures Handed(pair, token, b[i].world.rows, b[0].world.config, b[0].flight.now, b[i].flight.now)
    {
      AnsweredMeans(b[i], k, raised, id, pair);
      GoodPairIsHanded(b[i], k, pair);
    }
  }

  // --- the name in the access token --------------------------------------------------------

  /** The name was the user's, as the server looks it up, at some time up to the i-th state. */
  ghost predicate NameHeld(b: seq<Shop>, i: nat, token: Token, name: string)
    requires token.Token?
  {
    exists j :: 0 <= j <= i && j < |b| && NameOf(b[j].world, token) == Success(name)
  }

  function StageName(stage: Stage): Option<string> {
    match stage
    case Known(name) => Some(name)
    case Rechecked(name, _) => Some(name)
    case Bumped(name, _, _) => Some(name)
    case Signed(name, _, _, _) => Some(name)
    case Confirmed(name, _, _, _) => Some(name)
    case Over(outcome) => if outcome.Success? then PairName(outcome.value) else None
    case _ => None
  }

  function PairName(pair: TokenPair): Option<string> {
    if pair.access.Token? then Some(pair.access.claims.username) else None
  }

  ghost predicate NamesHeld(b: seq<Shop>, i: nat, token: Token)
    requires token.Token? && i < |b|
  {
    && (forall id :: id in b[i].stages && StageName(b[i].stages[id]).Some? ==>
          NameHeld(b, i, token, StageName(b[i].stages[id]).value))
    && (forall r :: 0 <= r < |b[i].flight.runs| && PairName(b[i].flight.runs[r].value).Some? ==>
          NameHeld(b, i, token, PairName(b[i].flight.runs[r].value).value))
  }

  lemma NameStays(b: seq<Shop>, i: nat, j: nat, token: Token, name: string)
    requires token.Token? && NameHeld(b, i, token, name) && i <= j < |b|
    ensures NameHeld(b, j, token, name)
  {
  }

  /** A rotation takes its user's name where it looks it up, and from then on carries it. */
  lemma NameIsCarried(s: Shop, token: Token, id: Flight.CallId)
    requires token.Token? && !StageOf(s, id).Over?
    ensures var name := StageName(StageOf(Rotated(s, token, id), id));
      name.Some? ==> name == StageName(StageOf(s, id)) || NameOf(s.world, token) == Success(name.value)
  {
  }

  lemma NamesThroughStep(b: seq<Shop>, i: nat, token: Token)
    requires Path(b, token) && i + 1 < |b| && NamesHeld(b, i, token)
    ensures NamesHeld(b, i + 1, token)
  {
    var s, t := b[i], b[i + 1];
    assert StepAt(b, i, token);
    if e :| FlightStep(s, t, e) {
      RunsStay(s.flight, e);
    } else if id :| RotateStep(s, t, token, id) {
      NameIsCarried(s, token, id);
      assert forall name :: NameOf(s.world, token) == Success(name) ==> NameHeld(b, i, token, name);
    }
    forall name | NameHeld(b, i, token, name) ensures NameHeld(b, i + 1, token, name) {
      NameStays(b, i, i + 1, token, name);
    }
  }

  lemma {:induction false} NamesAlways(b: seq<Shop>, token: Token, i: nat)
    requires Run(b, token) && i < |b|
    ensures NamesHeld(b, i, token)
  {
    if i > 0 {
      NamesAlways(b, token, i - 1);
      NamesThroughStep(b, i - 1, token);
    }
  }

  /** The access token of every answered pair names the user by a name it had during the run. */
  lemma AnsweredNameWasHeld(b: seq<Shop>, token: Token, i: nat, id: Flight.CallId, pair: TokenPair)
    requires Run(b, token) && Covered(b[0].world, b[0].flight.now, token) && i < |b| && Answered(b[i], id, pair)
    requires InTime(b) || Brief(b[0].flight.distributed, b[0].flight.now, token)
    ensures pair.access.Token? && NameHeld(b, i, token, pair.access.claims.username)
  {
    var raised := SafeAlways(b, token, i);
    AnsweredMeans(b[i], SettingOf(b[0], token), raised, id, pair);
    NamesAlways(b, token, i);
    assert PairName(b[i].flight.runs[0].value).Some?;
  }

  // --- retries are answered ----------------------------------------------------------------

  /** A run in time, with a covered token. */
  ghost predicate Proper(b: seq<Shop>, token: Token) {
    Run(b, token) && Covered(b[0].world, b[0].flight.now, token) && InTime(b)
  }

  ghost predicate SameLog(s: Flight.State<TokenPair>, t: Flight.State<TokenPair>) {
    t.runs == s.runs && t.log.outcomes == s.log.outcomes
  }

  /** After a success nobody runs `fn` any more, in time, so nothing is added to the log. */
  lemma LogIsClosed(b: seq<Shop>, token: Token, i: nat)
    requires Proper(b, token) && i + 1 < |b|
    requires b[i].flight.runs != []
    ensures SameLog(b[i].flight, b[i + 1].flight)
  {
    var raised := SafeAlways(b, token, i);
    var s, t := b[i], b[i + 1];
    assert StepAt(b, i, token);
    if e :| FlightStep(s, t, e) {
      if e.Return? {
        RotatingMeansUnanswered(s.flight, e.id);
      }
      RunsStay(s.flight, e);
      OutcomesStay(s.flight, e);
    }
  }

  lemma OutcomesStay(s: Flight.State<TokenPair>, e: Flight.Event<TokenPair>)
    requires Flight.Enabled(s, e) && !e.Return?
    ensures Flight.Apply(s, e).log.outcomes == s.log.outcomes
  {
  }

  lemma {:induction false} LogStaysClosed(b: seq<Shop>, token: Token, i: nat, j: nat)
    requires Proper(b, token) && i <= j < |b|
    requires b[i].flight.runs != []
    ensures SameLog(b[i].flight, b[j].flight)
  {
    if i < j {
      LogStaysClosed(b, token, i, j - 1);
      LogIsClosed(b, token, j - 1);
    }
  }

  lemma {:induction false} LedgerHolds(b: seq<Shop>, token: Token, i: nat)
    requires Run(b, token) && i < |b|
    ensures FlightAnswers.Ledger(b[i].flight)
  {
    if i > 0 {
      LedgerHolds(b, token, i - 1);
      assert StepAt(b, i - 1, token);
      StepKeepsLedger(b[i - 1], b[i], token);
    }
  }

  lemma StepKeepsLedger(s: Shop, t: Shop, token: Token)
    requires token.Token? && Next(s, t, token) && FlightAnswers.Ledger(s.flight)
    ensures FlightAnswers.Ledger(t.flight)
  {
    if t.flight != s.flight {
      var e :| FlightStep(s, t, e);
      FlightAnswers.StepKeepsLedger(s.flight, e);
    }
  }

  /** The calls whose answers are settled here: begun after the i-th state, and if joined to
      another, then to one begun after it too. */
  ghost predicate BegunSince(b: seq<Shop>, i: nat, j: nat, id: Flight.CallId)
    requires i < |b| && j < |b|
  {
    && id !in b[i].flight.calls && id in b[j].flight.calls && b[j].flight.calls[id].pc.Returned?
    && (b[j].flight.calls[id].pc.source.Shared? ==> b[j].flight.calls[id].pc.source.leader !in b[i].flight.calls)
  }

  lemma NeverRan(b: seq<Shop>, token: Token, i: nat, j: nat, id: Flight.CallId)
    requires Proper(b, token) && i <= j < |b|
    requires b[i].flight.runs != [] && id !in b[i].flight.calls
    ensures id !in b[j].flight.log.outcomes
  {
    LedgerHolds(b, token, i);
    LogStaysClosed(b, token, i, j);
  }

  /** Once anybody has been answered, every later call in the window, in time, is answered, and with
      the same pair: no retry is refused. */
  lemma RetriesAreAnswered(
    b: seq<Shop>, token: Token, i: nat, j: nat, first: Flight.CallId, pair: TokenPair, id: Flight.CallId)
    requires Proper(b, token) && i <= j < |b|
    requires Answered(b[i], first, pair) && BegunSince(b, i, j, id)
    ensures Answered(b[j], id, pair)
  {
    var before := SafeAlways(b, token, i);
    AnsweredMeans(b[i], SettingOf(b[0], token), before, first, pair);
    LogStaysClosed(b, token, i, j);
    LedgerHolds(b, token, j);
    var s := b[j].flight;
    assert FlightAnswers.TraceOk(s, id);
    NeverRan(b, token, i, j, id);
    if s.calls[id].pc.source.Shared? {
      var leader := s.calls[id].pc.source.leader;
      assert FlightAnswers.TraceOk(s, leader);
      NeverRan(b, token, i, j, leader);
    }
    assert s.calls[id].pc.outcome.Success?;
    var after := SafeAlways(b, token, j);
    AnsweredMeans(b[j], SettingOf(b[0], token), after, id, s.calls[id].pc.outcome.value);
  }
}
