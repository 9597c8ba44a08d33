/**
 The cache with the server's handlers at work: every delete of a device is made for the subject of
 a token that was issued for it, at a login, a rotation or the minting of an access token. As long
 as no email changes such deletes name the owner, so prompt runs are orderly without further
 assumption, and what holds in orderly runs holds here.
 */
module HandlerRuns {
  import opened Wrappers
  import opened Secrets
  import opened Devices
  import opened CacheProtocol
  import opened Tokens
  import opened ReuseAlarm
  import CacheSafety

  datatype Desk = Desk(cache: State, issued: set<Token>)

  /** Signing takes its time, so a minting is a tick of the clock; `Work` is anybody's step. */
  datatype Move =
    | LogIn(device: DeviceId, row: Row)
    | Rotate(from: Token, key: string, generation: int, now: nat)
    | MintAccess(from: Token, username: string, key: string, generation: int, now: nat)
    | Work(event: Event)

  function EventOf(m: Move): Event {
    match m
    case LogIn(device, row) => Save(device, row)
    case Rotate(_, _, _, now) => Tick(now)
    case MintAccess(_, _, _, _, now) => Tick(now)
    case Work(e) => e
  }

  ghost predicate Presented(s: Desk, user: Email, device: DeviceId) {
    exists token :: token in s.issued && token.Token? && token.claims.subject == user && token.claims.device == device
  }

  /** Only issued tokens lead to further ones and to deletes, and emails stay as they are. */
  ghost predicate Allowed(s: Desk, m: Move) {
    && Enabled(s.cache, EventOf(m)) && Prompt(s.cache, EventOf(m))
    && match m
       case LogIn(device, row) => true
       case Rotate(from, _, _, _) => from in s.issued && from.Token?
       case MintAccess(from, _, _, _, _) => from in s.issued && from.Token?
       case Work(e) =>
         && !e.Save? && !e.Rename?
         && (e.Begin? && e.task.Delete? ==> Presented(s, e.task.user, e.task.device))
  }

  function New(s: Desk, m: Move, config: Config): set<Token>
    requires (m.Rotate? || m.MintAccess?) ==> m.from.Token?
  {
    match m
    case LogIn(device, row) =>
      {RefreshToken(config, row.owner, device, row.secret, INITIAL_GENERATION, s.cache.now)}
    case Rotate(from, key, g, now) => {RefreshToken(config, from.claims.subject, from.claims.device, key, g, now)}
    case MintAccess(from, name, key, g, now) =>
      {AccessToken(config, from.claims.subject, name, from.claims.device, key, g, now)}
    case Work(_) => {}
  }

  ghost predicate DeskStep(s: Desk, t: Desk, m: Move, config: Config) {
    Allowed(s, m) && t == Desk(Apply(s.cache, EventOf(m)), s.issued + New(s, m, config))
  }

  ghost predicate DeskNext(s: Desk, t: Desk, config: Config) {
    exists m :: DeskStep(s, t, m, config)
  }

  ghost predicate DeskAt(b: seq<Desk>, i: int, config: Config)
    requires 0 <= i < |b| - 1
  {
    DeskNext(b[i], b[i + 1], config)
  }

  ghost predicate DeskRun(b: seq<Desk>, config: Config) {
    && |b| > 0 && b[0] == Desk(INIT, {})
    && forall i :: 0 <= i < |b| - 1 ==> DeskAt(b, i, config)
  }

  // --- deletes name the owner --------------------------------------------------------------

  /** If the device exists it is this user's, and it will not be anybody else's. */
  ghost predicate HeldBy(s: State, device: DeviceId, user: Email) {
    device in s.used && (device in s.rows ==> s.rows[device].owner == user)
  }

  ghost predicate DeskInv(s: Desk) {
    && s.cache.rows.Keys <= s.cache.used
    && (forall token :: token in s.issued ==>
          token.Token? && HeldBy(s.cache, token.claims.device, token.claims.subject))
    && (forall id :: id in s.cache.ops && s.cache.ops[id].task.Delete? ==>
          HeldBy(s.cache, s.cache.ops[id].task.device, s.cache.ops[id].task.user))
  }

  /** Nobody takes a device over. */
  lemma HeldStays(s: State, e: Event, device: DeviceId, user: Email)
    requires Enabled(s, e) && !e.Rename? && HeldBy(s, device, user) && s.rows.Keys <= s.used
    ensures HeldBy(Apply(s, e), device, user) && Apply(s, e).rows.Keys <= Apply(s, e).used
  {
    if e.Increment? && s.ops[e.id].task.device in s.rows {
      assert Apply(s, e).rows == RowBumped(s, s.ops[e.id].task.device).rows;
    }
  }

  lemma RowsStayUsed(s: State, e: Event)
    requires Enabled(s, e) && s.rows.Keys <= s.used
    ensures Apply(s, e).rows.Keys <= Apply(s, e).used
  {
    if e.Increment? && s.ops[e.id].task.device in s.rows {
      assert RowBumped(s, s.ops[e.id].task.device).rows.Keys == s.rows.Keys;
    }
  }

  lemma TaskStays(s: State, e: Event, id: OpId)
    requires Enabled(s, e) && id in Apply(s, e).ops
    ensures if id in s.ops then Apply(s, e).ops[id].task == s.ops[id].task else e == Begin(id, Apply(s, e).ops[id].task)
  {
    CacheSafety.StepKeepsOps(s, e);
    CacheSafety.StepFrame(s, e);
  }

  lemma TokensStayHeld(s: Desk, t: Desk, m: Move, config: Config, token: Token)
    requires DeskInv(s) && DeskStep(s, t, m, config) && token in t.issued
    ensures token.Token? && HeldBy(t.cache, token.claims.device, token.claims.subject)
  {
    if token in s.issued {
      HeldStays(s.cache, EventOf(m), token.claims.device, token.claims.subject);
    } else if m.Rotate? || m.MintAccess? {
      HeldStays(s.cache, EventOf(m), m.from.claims.device, m.from.claims.subject);
    }
  }

  lemma DeletesStayHeld(s: Desk, t: Desk, m: Move, config: Config, id: OpId)
    requires DeskInv(s) && DeskStep(s, t, m, config) && id in t.cache.ops && t.cache.ops[id].task.Delete?
    ensures HeldBy(t.cache, t.cache.ops[id].task.device, t.cache.ops[id].task.user)
  {
    var task := t.cache.ops[id].task;
    TaskStays(s.cache, EventOf(m), id);
    if id !in s.cache.ops {
      assert Presented(s, task.user, task.device);
    }
    HeldStays(s.cache, EventOf(m), task.device, task.user);
  }

  lemma DeskStepKeepsInv(s: Desk, t: Desk, m: Move, config: Config)
    requires DeskInv(s) && DeskStep(s, t, m, config)
    ensures DeskInv(t) && Owned(s.cache, EventOf(m)) && OrderlyNext(s.cache, t.cache)
  {
    RowsStayUsed(s.cache, EventOf(m));
    forall token | token in t.issued
      ensures token.Token? && HeldBy(t.cache, token.claims.device, token.claims.subject)
    {
      TokensStayHeld(s, t, m, config, token);
    }
    forall id | id in t.cache.ops && t.cache.ops[id].task.Delete?
      ensures HeldBy(t.cache, t.cache.ops[id].task.device, t.cache.ops[id].task.user)
    {
      DeletesStayHeld(s, t, m, config, id);
    }
  }

  /** A login's token lets its owner delete the device, and nobody else by it. */
  lemma LoginPermitsLogout(s: Desk, t: Desk, device: DeviceId, row: Row, config: Config)
    requires DeskInv(s) && DeskStep(s, t, LogIn(device, row), config)
    ensures forall user :: Presented(t, user, device) <==> user == row.owner
  {
    var token := RefreshToken(config, row.owner, device, row.secret, INITIAL_GENERATION, s.cache.now);
    assert token in t.issued;
    DeskStepKeepsInv(s, t, LogIn(device, row), config);
  }

  // --- whole runs --------------------------------------------------------------------------

  lemma {:induction false} DeskAlways(b: seq<Desk>, config: Config, i: nat)
    requires DeskRun(b, config) && i < |b|
    ensures DeskInv(b[i]) && (i > 0 ==> OrderlyNext(b[i - 1].cache, b[i].cache))
  {
    if i > 0 {
      DeskAlways(b, config, i - 1);
      assert DeskAt(b, i - 1, config);
      var m :| DeskStep(b[i - 1], b[i], m, config);
      DeskStepKeepsInv(b[i - 1], b[i], m, config);
    }
  }

  function Caches(b: seq<Desk>): seq<State> {
    seq(|b|, i requires 0 <= i < |b| => b[i].cache)
  }

  /** A prompt run in which deletes come from handlers and no email changes is orderly. */
  lemma HandlersAreOrderly(b: seq<Desk>, config: Config)
    requires DeskRun(b, config)
    ensures OrderlyRun(Caches(b))
  {
    var c := Caches(b);
    forall i | 0 <= i < |c| - 1 ensures OrderlyStepAt(c, i) {
      DeskAlways(b, config, i + 1);
    }
  }

  /** So there the newest token never sets off reuse detection, with nothing assumed of deletes. */
  lemma NoFalseReuseAlarmFromHandlers(
    b: seq<Desk>, i: nat, j: nat, id: OpId, d: DeviceId, token: Token, now: nat, config: Config)
    requires DeskRun(b, config) && i < j < |b|
    requires id !in b[i].cache.ops && id in b[i + 1].cache.ops && id in b[j].cache.ops
    requires b[i + 1].cache.ops[id].task.Lookup? && b[i + 1].cache.ops[id].task.device == d
    requires b[j].cache.ops[id].pc.Done? && d in b[i].cache.rows && d in b[j].cache.rows
    requires Newest(token, d, b[j].cache.rows[d], now, config)
    requires CacheSafety.HandedOut(b[i].cache, d, token.claims.generation)
    ensures Judged(token, Kind.Refresh, Received(b[j].cache.ops[id].pc.answer), now, config)
      == Success(b[j].cache.rows[d].secret)
  {
    HandlersAreOrderly(b, config);
    NoFalseReuseAlarm(Caches(b), i, j, id, d, token, now, config);
  }
}
