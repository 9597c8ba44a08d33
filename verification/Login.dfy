/**
 The login exchange: a one-time state is consumed, the provider is asked once, and a device is
 created with its first pair of tokens, or rolled back.
 */
module Login {
  import opened Wrappers
  import opened Secrets
  import opened Devices
  import opened CachedDb
  import opened Tokens

  /** How a command to the state cache fares. In Redis it may fail before or after it is carried
      out; in memory it always answers. */
  datatype Outage = Answers | Unreachable | ReplyLost

  /** The state cache. A state that is not there, or no longer, yields an empty verifier. */
  class StateCache {
    var verifiers: map<string, string>

    constructor ()
      ensures verifiers == map[]
    {
      verifiers := map[];
    }

    method Set(key: string, verifier: string)
      modifies this
      ensures verifiers == old(verifiers)[key := verifier]
    {
      verifiers := verifiers[key := verifier];
    }

    method Take(key: string, outage: Outage) returns (r: Result<string, ()>)
      modifies this
      ensures verifiers == if outage.Unreachable? then old(verifiers) else old(verifiers) - {key}
      ensures r.Success? <==> outage.Answers?
      ensures r.Success? ==> r.value == if key in old(verifiers) then old(verifiers)[key] else ""
    {
      if outage.Unreachable? {
        return Failure(());
      }
      var verifier := if key in verifiers then verifiers[key] else "";
      verifiers := verifiers - {key};
      return if outage.ReplyLost? then Failure(()) else Success(verifier);
    }
  }

  datatype Options = Options(clientPkce: bool, allowRegistration: bool, sessions: bool)

  datatype Userinfo = Userinfo(name: string, email: Email)

  /** What the provider would answer, if asked. */
  datatype Provider = Provider(exchange: Result<(), ()>, user: Result<Userinfo, ()>)

  /** Which signatures succeed. */
  datatype Signing = Signing(refresh: bool, access: bool)

  /** The readings of the clock: the refresh token is minted, checked, and the access token minted. */
  datatype Clock = Clock(minted: nat, checked: nat, issued: nat)

  datatype Reply =
    | LoggedIn(access: Token, refresh: Token)
    | ProviderTokens
    | SessionLost
    | InvalidState
    | InvalidVerifier
    | ExchangeFailed
    | UserinfoFailed
    | NoSuchUser
    | SaveFailed
    | RefreshFailed
    | AccessFailed

  /** The replies of a request that has got as far as its session. */
  predicate FromSession(reply: Reply) {
    reply.LoggedIn? || reply.NoSuchUser? || reply.SaveFailed? || reply.RefreshFailed? || reply.AccessFailed?
  }

  /** The first tokens of a device live exactly until their end. */
  ghost predicate FirstTokens(rows: Rows, reply: Reply, device: DeviceId, c: Clock, config: Config)
    requires reply.LoggedIn?
  {
    && DeviceOf(reply.refresh) == DeviceOf(reply.access) == device
    && forall t: nat ::
      && (Accepted(rows, reply.refresh, Refresh, t, config) <==> t < WholeSeconds(c.minted + config.refreshDuration))
      && (Accepted(rows, reply.access, Access, t, config) <==> t < WholeSeconds(c.issued + config.accessDuration))
  }

  lemma MintedAreFirst(rows: Rows, device: DeviceId, email: Email, username: string, c: Clock, config: Config)
    requires device in rows
    ensures var row := rows[device];
      var refresh := RefreshToken(config, email, device, row.secret, row.generation, c.minted);
      var access := AccessToken(config, email, username, device, row.secret, row.generation, c.issued);
      FirstTokens(rows, LoggedIn(access, refresh), device, c, config)
  {
    var row := rows[device];
    var refresh := RefreshToken(config, email, device, row.secret, row.generation, c.minted);
    var access := AccessToken(config, email, username, device, row.secret, row.generation, c.issued);
    forall t: nat
      ensures Accepted(rows, refresh, Refresh, t, config) <==> t < WholeSeconds(c.minted + config.refreshDuration)
      ensures Accepted(rows, access, Access, t, config) <==> t < WholeSeconds(c.issued + config.accessDuration)
    {
      MintedIsAccepted(rows, device, email, username, c.minted, t, config);
      MintedIsAccepted(rows, device, email, username, c.issued, t, config);
    }
  }

  class Handler {
    const db: CachedDb
    const jwt: JwtManager
    const states: StateCache
    const options: Options

    constructor (jwt: JwtManager, states: StateCache, options: Options)
      ensures this.jwt == jwt && db == jwt.db && this.states == states && this.options == options
    {
      this.db, this.jwt, this.states, this.options := jwt.db, jwt, states, options;
    }

    ghost predicate Valid()
      reads db.database, db.cache
    {
      jwt.db == db && db.Valid()
    }

    /** Whether the state and the verifier let the exchange go ahead. */
    ghost predicate Admitted(state: string, headerVerifier: string)
      reads states
    {
      && state in states.verifiers && states.verifiers[state] != ""
      && (options.clientPkce ==> headerVerifier == states.verifiers[state])
    }

    /** The users after a login: an unknown one is registered exactly where that is allowed, the
        table is the server's own and it asked for the name. */
    ghost function UsersAfter(before: map<Email, string>, user: Userinfo): map<Email, string> {
      if user.email !in before && db.database.selects && options.allowRegistration && !db.database.external
      then before[user.email := user.name]
      else before
    }

    /** What a login needs besides a known user: a new identifier, both signatures, and a refresh
        token that is still in date when the access token is made from it. */
    ghost predicate Works(rows: Rows, device: DeviceId, signing: Signing, c: Clock) {
      && device !in rows && signing.refresh && signing.access
      && c.checked < WholeSeconds(c.minted + jwt.config.refreshDuration)
    }

    /** A device with its first tokens, or no device. `device` and `secret` are the generated ones. */
    method CreateDevice(email: Email, username: string, device: DeviceId, secret: string, signing: Signing, c: Clock)
      returns (reply: Reply)
      requires Valid() && secret != ""
      modifies db.database`rows, db.cache
      ensures Valid() && FromSession(reply)
      ensures reply.LoggedIn? <==> email in db.database.users && Works(old(db.database.rows), device, signing, c)
      ensures reply.LoggedIn? ==>
        && db.database.rows == old(db.database.rows)[device := Row(email, secret, INITIAL_GENERATION)]
        && FirstTokens(db.database.rows, reply, device, c, jwt.config)
        && Identifies(reply.access, email, username, device)
      ensures !reply.LoggedIn? ==> db.database.rows == old(db.database.rows)
      ensures reply.NoSuchUser? <==> device !in old(db.database.rows) && email !in db.database.users
      ensures reply.SaveFailed? <==> device in old(db.database.rows)
      ensures reply.RefreshFailed? <==>
        device !in old(db.database.rows) && email in db.database.users && !signing.refresh
      ensures reply.AccessFailed? <==>
        && device !in old(db.database.rows) && email in db.database.users && signing.refresh
        && !(signing.access && c.checked < WholeSeconds(c.minted + jwt.config.refreshDuration))
    {
      ghost var before := db.database.rows;
      var saved := db.SaveDeviceSecret(email, secret, device);
      if saved.Failure? {
        return if saved.error.UserNotFound? then NoSuchUser else SaveFailed;
      }
      assert RowsWithout(db.database.rows, email, device) == before;
      if !signing.refresh {
        db.DeleteDevice(email, device);
        return RefreshFailed;
      }
      var refresh := RefreshToken(jwt.config, email, device, secret, INITIAL_GENERATION, c.minted);
      MintedAreFirst(db.database.rows, device, email, username, c, jwt.config);
      var access := jwt.GenerateAccess(refresh, username, c.checked, c.issued);
      if access.Failure? || !signing.access {
        db.DeleteDevice(email, device);
        return AccessFailed;
      }
      return LoggedIn(access.value, refresh);
    }

    /** From the provider's user to a device with its first tokens, all or nothing. */
    method OpenSession(
      user: Userinfo, device: DeviceId, secret: string, signing: Signing, c: Clock) returns (reply: Reply)
      requires Valid() && secret != ""
      modifies db.database`rows, db.database`users, db.cache
      ensures Valid() && FromSession(reply)
      ensures db.database.users == UsersAfter(old(db.database.users), user)
      ensures reply.NoSuchUser? <==>
        && user.email !in db.database.users
        && (device in old(db.database.rows) ==> db.database.selects)
      ensures reply.SaveFailed? <==>
        && device in old(db.database.rows)
        && (user.email in db.database.users || !db.database.selects)
      ensures reply.LoggedIn? <==> user.email in db.database.users && Works(old(db.database.rows), device, signing, c)
      ensures reply.LoggedIn? ==>
        && db.database.rows == old(db.database.rows)[device := Row(user.email, secret, INITIAL_GENERATION)]
        && FirstTokens(db.database.rows, reply, device, c, jwt.config)
        && UsernameOf(db.database.users, db.database.selects, user.email).Success?
        && Identifies(reply.access, user.email,
                      UsernameOf(db.database.users, db.database.selects, user.email).value, device)
      ensures !reply.LoggedIn? ==> db.database.rows == old(db.database.rows)
    {
      var username := db.database.GetUsername(user.email);
      if username.Failure? && !db.database.external && options.allowRegistration {
        username := db.database.CreateUser(user.name, user.email);
      }
      if username.Failure? {
        return NoSuchUser;
      }
      reply := CreateDevice(user.email, username.value, device, secret, signing, c);
    }

    /** `asked` tells whether the provider was asked to exchange the code, and `with` the
        verifier it was asked with. */
    method HandleExchange(
      state: string, headerVerifier: string, outage: Outage, provider: Provider,
      device: DeviceId, secret: string, signing: Signing, c: Clock)
      returns (reply: Reply, asked: bool, with: string)
      requires Valid() && secret != ""
      modifies states, db.database`rows, db.database`users, db.cache
      ensures Valid()
      ensures states.verifiers == if outage.Unreachable? then old(states.verifiers) else old(states.verifiers) - {state}
      ensures reply.SessionLost? <==> !outage.Answers?
      ensures asked <==> outage.Answers? && old(Admitted(state, headerVerifier))
      ensures asked ==> with == old(states.verifiers[state])
      ensures reply.InvalidState? <==>
        && outage.Answers?
        && !(state in old(states.verifiers) && old(states.verifiers)[state] != "")
      ensures reply.InvalidVerifier? <==>
        && outage.Answers? && state in old(states.verifiers) && old(states.verifiers)[state] != ""
        && options.clientPkce && headerVerifier != old(states.verifiers)[state]
      ensures reply.ExchangeFailed? <==> asked && provider.exchange.Failure?
      ensures reply.ProviderTokens? <==> asked && provider.exchange.Success? && !options.sessions
      ensures reply.UserinfoFailed? <==>
        asked && provider.exchange.Success? && options.sessions && provider.user.Failure?
      ensures var opens := asked && provider.exchange.Success? && options.sessions && provider.user.Success?;
        && (opens ==> db.database.users == UsersAfter(old(db.database.users), provider.user.value))
        && (!opens ==> db.database.users == old(db.database.users))
        && (FromSession(reply) <==> opens)
        && (reply.LoggedIn? <==>
              && opens && provider.user.value.email in db.database.users
              && Works(old(db.database.rows), device, signing, c))
        && (reply.NoSuchUser? <==>
              && opens && provider.user.value.email !in db.database.users
              && (device in old(db.database.rows) ==> db.database.selects))
      ensures reply.LoggedIn? ==> var email := provider.user.value.email;
        && db.database.rows == old(db.database.rows)[device := Row(email, secret, INITIAL_GENERATION)]
        && FirstTokens(db.database.rows, reply, device, c, jwt.config)
        && UsernameOf(db.database.users, db.database.selects, email).Success?
        && Identifies(reply.access, email, UsernameOf(db.database.users, db.database.selects, email).value, device)
      ensures !reply.LoggedIn? ==> db.database.rows == old(db.database.rows)
    {
      asked, with := false, "";
      var taken := states.Take(state, outage);
      if taken.Failure? {
        return SessionLost, asked, with;
      }
      var verifier := taken.value;
      if verifier == "" {
        return InvalidState, asked, with;
      }
      if options.clientPkce && headerVerifier != verifier {
        return InvalidVerifier, asked, with;
      }
      asked, with := true, verifier;
      if provider.exchange.Failure? {
        return ExchangeFailed, asked, with;
      }
      if !options.sessions {
        return ProviderTokens, asked, with;
      }
      if provider.user.Failure? {
        return UserinfoFailed, asked, with;
      }
      reply := OpenSession(provider.user.value, device, secret, signing, c);
    }
  }

  // ---------------------------------------------------------------------------------------
  // Every run of logins and callbacks, with no help from the flight group
  // ---------------------------------------------------------------------------------------

  type RunId = nat

  /** An exchange under way. Any number may run for one state: calls of different codes, replays,
      and calls whose deduplication has fallen back to running on their own. */
  datatype Exchange = Exchange(state: string, headerVerifier: string, pc: Pc)

  datatype Pc = Arrived | Took(verifier: string) | Over

  datatype Ask = Ask(state: string, verifier: string)

  datatype World = World(
    issued: map<string, string>,          // every state ever issued, with its verifier
    pending: map<string, string>,         // the state cache
    expired: set<string>,
    takes: seq<string>,                   // history: states taken from the cache
    asks: seq<Ask>,                       // history: exchanges asked of the provider
    runs: map<RunId, Exchange>)

  /** What the browser comes back with; `fromIssuer` tells that the issuer is the right one. */
  datatype Request = Request(state: string, fromIssuer: bool, error: bool, code: bool, headerVerifier: string)

  datatype Event =
    | IssueState(state: string, verifier: string)
    | Expire(state: string)
    | Callback(run: RunId, request: Request, outage: Outage)
    | TakeState(run: RunId, outage: Outage)
    | AskProvider(run: RunId)

  predicate Enabled(w: World, e: Event) {
    match e
    case IssueState(state, verifier) => state !in w.issued && verifier != ""
    case Expire(state) => state in w.pending
    case Callback(run, request, outage) => run !in w.runs
    case TakeState(run, outage) => run in w.runs && w.runs[run].pc.Arrived?
    case AskProvider(run) => run in w.runs && w.runs[run].pc.Took?
  }

  /** `Take`: one atomic read and removal. */
  function Taken(w: World, state: string): World {
    if state in w.pending then w.(pending := w.pending - {state}, takes := w.takes + [state]) else w
  }

  function Attempted(w: World, state: string, outage: Outage): World {
    if outage.Unreachable? then w else Taken(w, state)
  }

  /** `Callback`: an error report is looked at before the code. */
  function CalledBack(w: World, run: RunId, request: Request, outage: Outage): World {
    if request.state == "" || !request.fromIssuer then w
    else if request.error then Attempted(w, request.state, outage)
    else if !request.code then w
    else w.(runs := w.runs[run := Exchange(request.state, request.headerVerifier, Arrived)])
  }

  function Moved(w: World, run: RunId, pc: Pc): World
    requires run in w.runs
  {
    w.(runs := w.runs[run := w.runs[run].(pc := pc)])
  }

  function Apply(w: World, e: Event, clientPkce: bool): World
    requires Enabled(w, e)
  {
    match e
    case IssueState(state, verifier) =>
      w.(issued := w.issued[state := verifier], pending := w.pending[state := verifier])
    case Expire(state) => w.(pending := w.pending - {state}, expired := w.expired + {state})
    case Callback(run, request, outage) => CalledBack(w, run, request, outage)
    case TakeState(run, outage) =>
      var state := w.runs[run].state;
      Moved(Attempted(w, state, outage), run,
            if outage.Answers? && state in w.pending then Took(w.pending[state]) else Over)
    case AskProvider(run) =>
      var Exchange(state, headerVerifier, Took(verifier)) := w.runs[run];
      var over := Moved(w, run, Over);
      if clientPkce && headerVerifier != verifier then over else over.(asks := w.asks + [Ask(state, verifier)])
  }

  const INIT := World(map[], map[], {}, [], [], map[])

  ghost predicate Next(w: World, v: World, clientPkce: bool) {
    exists e :: Enabled(w, e) && v == Apply(w, e, clientPkce)
  }

  ghost predicate StepAt(b: seq<World>, i: int, clientPkce: bool)
    requires 0 <= i < |b| - 1
  {
    Next(b[i], b[i + 1], clientPkce)
  }

  ghost predicate Run(b: seq<World>, clientPkce: bool) {
    |b| > 0 && b[0] == INIT && forall i :: 0 <= i < |b| - 1 ==> StepAt(b, i, clientPkce)
  }

  ghost predicate Distinct<T>(s: seq<T>) {
    forall i, j :: 0 <= i < j < |s| ==> s[i] != s[j]
  }

  ghost predicate AskedFor(w: World, state: string) {
    exists i :: 0 <= i < |w.asks| && w.asks[i].state == state
  }

  /** Each issued state is in exactly one place: pending, expired, or taken once. */
  ghost predicate Conserved(w: World) {
    && Distinct(w.takes)
    && w.pending.Keys !! w.expired
    && (forall state :: state in w.takes ==> state !in w.pending && state !in w.expired && state in w.issued)
    && (forall state :: state in w.issued ==> state in w.pending || state in w.expired || state in w.takes)
    && (forall state :: state in w.pending ==> state in w.issued && w.pending[state] == w.issued[state])
    && w.expired <= w.issued.Keys
  }

  ghost predicate RunOk(w: World, run: RunId)
    requires run in w.runs
  {
    var x := w.runs[run];
    x.pc.Took? ==>
      && x.state in w.takes && x.state in w.issued && w.issued[x.state] == x.pc.verifier && !AskedFor(w, x.state)
      && forall other :: other in w.runs && other != run && w.runs[other].pc.Took? ==> w.runs[other].state != x.state
  }

  /** A taken state, asked for with its own verifier. */
  ghost predicate AskOk(w: World, ask: Ask) {
    ask.state in w.takes && ask.state in w.issued && ask.verifier == w.issued[ask.state]
  }

  ghost predicate Inv(w: World) {
    && Conserved(w)
    && (forall run :: run in w.runs ==> RunOk(w, run))
    && (forall i :: 0 <= i < |w.asks| ==> AskOk(w, w.asks[i]))
    && (forall i, j :: 0 <= i < j < |w.asks| ==> w.asks[i].state != w.asks[j].state)
  }

  lemma TakeConserves(w: World, state: string)
    requires Conserved(w)
    ensures Conserved(Taken(w, state))
  {
  }

  lemma TakeKeepsRuns(w: World, state: string)
    requires Inv(w)
    ensures Inv(Taken(w, state))
  {
    TakeConserves(w, state);
    var v := Taken(w, state);
    forall run | run in v.runs ensures RunOk(v, run) {
      assert RunOk(w, run);
    }
  }

  lemma TakeStateKeepsInv(w: World, run: RunId, outage: Outage, clientPkce: bool)
    requires Inv(w) && Enabled(w, TakeState(run, outage))
    ensures Inv(Apply(w, TakeState(run, outage), clientPkce))
  {
    var state := w.runs[run].state;
    var mid, v := Attempted(w, state, outage), Apply(w, TakeState(run, outage), clientPkce);
    TakeKeepsRuns(w, state);
    forall other | other in v.runs ensures RunOk(v, other) {
      assert RunOk(mid, other) && RunOk(w, other);
    }
  }

  lemma AskKeepsInv(w: World, run: RunId, clientPkce: bool)
    requires Inv(w) && Enabled(w, AskProvider(run))
    ensures Inv(Apply(w, AskProvider(run), clientPkce))
  {
    var v := Apply(w, AskProvider(run), clientPkce);
    assert RunOk(w, run);
    forall other | other in v.runs ensures RunOk(v, other) {
      assert RunOk(w, other);
    }
  }

  lemma StepKeepsInv(w: World, e: Event, clientPkce: bool)
    requires Inv(w) && Enabled(w, e)
    ensures Inv(Apply(w, e, clientPkce))
  {
    match e
    case TakeState(run, outage) => TakeStateKeepsInv(w, run, outage, clientPkce);
    case AskProvider(run) => AskKeepsInv(w, run, clientPkce);
    case Callback(run, request, outage) =>
      TakeKeepsRuns(w, request.state);
      OtherStepKeepsRuns(w, e, clientPkce);
    case _ => OtherStepKeepsRuns(w, e, clientPkce);
  }

  lemma OtherStepKeepsRuns(w: World, e: Event, clientPkce: bool)
    requires Inv(w) && Enabled(w, e) && !e.TakeState? && !e.AskProvider?
    requires e.Callback? ==> Inv(Taken(w, e.request.state))
    ensures Inv(Apply(w, e, clientPkce))
  {
    var v := Apply(w, e, clientPkce);
    forall run | run in v.runs ensures RunOk(v, run) {
      assert run in w.runs ==> RunOk(w, run);
    }
  }

  lemma {:induction false} InvAlways(b: seq<World>, clientPkce: bool, i: nat)
    requires Run(b, clientPkce) && i < |b|
    ensures Inv(b[i])
  {
    if i > 0 {
      InvAlways(b, clientPkce, i - 1);
      assert StepAt(b, i - 1, clientPkce);
      var e :| Enabled(b[i - 1], e) && b[i] == Apply(b[i - 1], e, clientPkce);
      StepKeepsInv(b[i - 1], e, clientPkce);
    }
  }

  /** In every run each issued state is pending, expired or taken exactly once, and no state
      leads to more than one provider exchange, made with the verifier it was issued with. */
  lemma LoginStatesAreConserved(b: seq<World>, clientPkce: bool, i: nat)
    requires Run(b, clientPkce) && i < |b|
    ensures Conserved(b[i])
    ensures forall j, k :: 0 <= j < k < |b[i].asks| ==> b[i].asks[j].state != b[i].asks[k].state
    ensures forall j :: 0 <= j < |b[i].asks| ==> AskOk(b[i], b[i].asks[j])
  {
    InvAlways(b, clientPkce, i);
  }

  /** An exchange asks the provider exactly if its state is pending when it takes it, the cache
      answers, and, with client PKCE, the header carries the verifier; and it asks with the verifier
      that the state was issued with. */
  lemma AsksExactlyWhenAdmitted(w: World, run: RunId, outage: Outage, clientPkce: bool)
    requires Inv(w) && run in w.runs && w.runs[run].pc.Arrived?
    ensures var x, v := w.runs[run], Apply(w, TakeState(run, outage), clientPkce);
      var admitted := outage.Answers? && x.state in w.pending && (clientPkce ==> x.headerVerifier == w.issued[x.state]);
      && v.asks == w.asks
      && (Enabled(v, AskProvider(run)) <==> outage.Answers? && x.state in w.pending)
      && (Enabled(v, AskProvider(run)) ==>
            Apply(v, AskProvider(run), clientPkce).asks ==
              if admitted then w.asks + [Ask(x.state, w.issued[x.state])] else w.asks)
  {
  }

  /** A callback request consumes a pending state at once exactly if it reports a provider error,
      with or without a code, and the cache hears of it; it asks the provider for nothing. Without
      error and code it changes nothing at all. */
  lemma CallbacksTouchTheState(w: World, run: RunId, request: Request, outage: Outage, clientPkce: bool)
    requires Conserved(w) && request.state in w.pending && request.state != "" && run !in w.runs
    ensures var v := Apply(w, Callback(run, request, outage), clientPkce);
      && (request.state !in v.pending <==> request.fromIssuer && request.error && !outage.Unreachable?)
      && (request.state !in v.pending ==> request.state in v.takes && v.runs == w.runs)
      && (!request.error && !request.code ==> v == w)
      && v.asks == w.asks && Conserved(v)
  {
    TakeConserves(w, request.state);
  }
}
