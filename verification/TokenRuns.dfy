/**
 Logins, rotations, access minting and deletes over one table, interleaved: a rotation checks
 its token, increments the row and signs in three separate steps, and any number of rotations
 may be between those steps at once.
 */
module TokenRuns {
  import opened Wrappers
  import opened Secrets
  import opened Devices
  import opened Tokens

  type OpId = nat

  /** A token about to be minted or a rotation on its way there. */
  datatype Op =
    | Checked(subject: Email, device: DeviceId, secret: string)
    | Signing(subject: Email, device: DeviceId, secret: string, generation: int)
    | Minting(subject: Email, username: string, device: DeviceId, secret: string, generation: int)
    | Done

  datatype State = State(
    now: nat, rows: Rows, used: set<DeviceId>,
    born: map<DeviceId, Email>,                   // history: the owner of each device at its login
    refresh: set<Token>, access: set<Token>,      // every token ever issued
    ops: map<OpId, Op>)

  datatype Event =
    | Login(id: OpId, owner: Email, device: DeviceId, secret: string)
    | Check(id: OpId, token: Token)
    | Bump(id: OpId)
    | Sign(id: OpId)
    | CheckForAccess(id: OpId, token: Token, username: string)
    | Mint(id: OpId)
    | Remove(device: DeviceId)     // logout, reuse detection, cleanup or account removal
    | Rename(from: Email, to: Email)
    | Tick(now: nat)

  /** Signatures are ideal: only an issued token can be presented with any effect. */
  predicate Enabled(s: State, e: Event, config: Config) {
    match e
    case Login(id, owner, device, secret) => id !in s.ops && device !in s.used
    case Check(id, token) => id !in s.ops && token in s.refresh && Accepted(s.rows, token, Refresh, s.now, config)
    case Bump(id) => id in s.ops && s.ops[id].Checked?
    case Sign(id) => id in s.ops && s.ops[id].Signing?
    case CheckForAccess(id, token, username) =>
      id !in s.ops && token in s.refresh && Accepted(s.rows, token, Refresh, s.now, config)
    case Mint(id) => id in s.ops && s.ops[id].Minting?
    case Remove(device) => true
    case Rename(from, to) => true
    case Tick(now) => s.now <= now
  }

  function Apply(s: State, e: Event, config: Config): State
    requires Enabled(s, e, config)
  {
    match e
    case Login(id, owner, device, secret) =>
      s.(rows := s.rows[device := Row(owner, secret, INITIAL_GENERATION)],
         used := s.used + {device}, born := s.born[device := owner],
         ops := s.ops[id := Signing(owner, device, secret, INITIAL_GENERATION)])
    case Check(id, token) =>
      s.(ops := s.ops[id := Checked(token.claims.subject, token.claims.device, token.key)])
    case Bump(id) =>
      var Checked(subject, device, secret) := s.ops[id];
      if device !in s.rows then s.(ops := s.ops[id := Done])
      else
        s.(rows := RowsIncremented(s.rows, device),
           ops := s.ops[id := Signing(subject, device, secret, s.rows[device].generation + 1)])
    case Sign(id) =>
      var Signing(subject, device, secret, generation) := s.ops[id];
      s.(refresh := s.refresh + {RefreshToken(config, subject, device, secret, generation, s.now)},
         ops := s.ops[id := Done])
    case CheckForAccess(id, token, username) =>
      var c := token.claims;
      s.(ops := s.ops[id := Minting(c.subject, username, c.device, token.key, c.generation)])
    case Mint(id) =>
      var Minting(subject, username, device, secret, generation) := s.ops[id];
      s.(access := s.access + {AccessToken(config, subject, username, device, secret, generation, s.now)},
         ops := s.ops[id := Done])
    case Remove(device) => s.(rows := s.rows - {device})
    case Rename(from, to) => s.(rows := Renamed(s.rows, from, to))
    case Tick(now) => s.(now := now)
  }

  const INIT := State(0, map[], {}, map[], {}, {}, map[])

  ghost predicate Next(s: State, t: State, config: Config) {
    exists e :: Enabled(s, e, config) && t == Apply(s, e, config)
  }

  ghost predicate StepAt(b: seq<State>, i: int, config: Config)
    requires 0 <= i < |b| - 1
  {
    Next(b[i], b[i + 1], config)
  }

  ghost predicate Run(b: seq<State>, config: Config) {
    |b| > 0 && b[0] == INIT && forall i :: 0 <= i < |b| - 1 ==> StepAt(b, i, config)
  }

  // --- the invariant -----------------------------------------------------------------------

  /** A generation of a device that has been handed out is at most the row's. */
  ghost predicate Within(s: State, device: DeviceId, generation: int) {
    device in s.used && (device in s.rows ==> generation <= s.rows[device].generation)
  }

  ghost predicate BornTo(s: State, device: DeviceId, subject: Email) {
    device in s.born && s.born[device] == subject
  }

  ghost predicate TokenOk(s: State, token: Token) {
    && token.Token? && Within(s, token.claims.device, token.claims.generation)
    && BornTo(s, token.claims.device, token.claims.subject)
  }

  ghost predicate AccessOk(s: State, token: Token) {
    TokenOk(s, token) && token.claims.userEmail == token.claims.subject
  }

  ghost predicate OpOk(s: State, op: Op) {
    match op
    case Checked(subject, device, _) => device in s.used && BornTo(s, device, subject)
    case Signing(subject, device, _, generation) => Within(s, device, generation) && BornTo(s, device, subject)
    case Minting(subject, _, device, _, generation) => Within(s, device, generation) && BornTo(s, device, subject)
    case Done => true
  }

  predicate SameClaim(device: DeviceId, generation: int, other: DeviceId, otherGeneration: int) {
    device == other && generation == otherGeneration
  }

  /** No generation of a device is issued, or about to be issued, twice. */
  ghost predicate Unique(s: State) {
    && (forall one, two :: one in s.refresh && two in s.refresh && one.Token? && two.Token? ==>
          SameClaim(one.claims.device, one.claims.generation, two.claims.device, two.claims.generation) ==> one == two)
    && (forall id, token :: id in s.ops && s.ops[id].Signing? && token in s.refresh && token.Token? ==>
          !SameClaim(s.ops[id].device, s.ops[id].generation, token.claims.device, token.claims.generation))
    && (forall id, other ::
          id in s.ops && other in s.ops && id != other && s.ops[id].Signing? && s.ops[other].Signing? ==>
          !SameClaim(s.ops[id].device, s.ops[id].generation, s.ops[other].device, s.ops[other].generation))
  }

  ghost predicate Inv(s: State) {
    && s.rows.Keys <= s.used && s.born.Keys == s.used
    && (forall token :: token in s.refresh ==> TokenOk(s, token))
    && (forall token :: token in s.access ==> AccessOk(s, token))
    && (forall id :: id in s.ops ==> OpOk(s, s.ops[id]))
    && Unique(s)
  }

  /** A used device may lose its row or count it up; it never comes back. */
  ghost predicate Later(s: State, t: State) {
    && s.used <= t.used && s.refresh <= t.refresh && s.access <= t.access
    && (forall d :: d in s.born && d in s.used ==> d in t.born && t.born[d] == s.born[d])
    && forall d :: d in t.rows && d in s.used ==> d in s.rows && s.rows[d].generation <= t.rows[d].generation
  }

  lemma StepIsLater(s: State, e: Event, config: Config)
    requires Enabled(s, e, config)
    ensures Later(s, Apply(s, e, config))
  {
  }

  lemma LocalStays(s: State, t: State)
    requires Inv(s) && Later(s, t)
    ensures forall token :: token in s.refresh ==> TokenOk(t, token)
    ensures forall token :: token in s.access ==> AccessOk(t, token)
    ensures forall id :: id in s.ops ==> OpOk(t, s.ops[id])
  {
    forall id | id in s.ops ensures OpOk(t, s.ops[id]) {
      assert OpOk(s, s.ops[id]);
    }
    forall token | token in s.refresh ensures TokenOk(t, token) {
      assert TokenOk(s, token);
    }
    forall token | token in s.access ensures AccessOk(t, token) {
      assert AccessOk(s, token);
    }
  }

  /** A login or an increment makes a generation that nobody has. */
  lemma NewGenerationIsUnique(s: State, e: Event, config: Config)
    requires Inv(s) && Enabled(s, e, config) && (e.Login? || e.Bump?)
    ensures Unique(Apply(s, e, config))
  {
    forall token | token in s.refresh ensures TokenOk(s, token) { }
    forall o | o in s.ops ensures OpOk(s, s.ops[o]) { }
  }

  lemma SigningKeepsUnique(s: State, id: OpId, config: Config)
    requires Inv(s) && Enabled(s, Sign(id), config)
    ensures Unique(Apply(s, Sign(id), config))
  {
  }

  lemma StepKeepsUnique(s: State, e: Event, config: Config)
    requires Inv(s) && Enabled(s, e, config)
    ensures Unique(Apply(s, e, config))
  {
    if e.Login? || e.Bump? {
      NewGenerationIsUnique(s, e, config);
    } else if e.Sign? {
      SigningKeepsUnique(s, e.id, config);
    }
  }

  lemma StepKeepsInv(s: State, e: Event, config: Config)
    requires Inv(s) && Enabled(s, e, config)
    ensures Inv(Apply(s, e, config))
  {
    StepIsLater(s, e, config);
    LocalStays(s, Apply(s, e, config));
    StepKeepsUnique(s, e, config);
    if e.Check? || e.CheckForAccess? {
      assert TokenOk(s, e.token);
    } else if e.Bump? || e.Sign? || e.Mint? {
      assert OpOk(s, s.ops[e.id]);
    }
  }

  // --- whole runs --------------------------------------------------------------------------

  lemma {:induction false} InvAlways(b: seq<State>, config: Config, i: nat)
    requires Run(b, config) && i < |b|
    ensures Inv(b[i])
  {
    if i > 0 {
      InvAlways(b, config, i - 1);
      assert StepAt(b, i - 1, config);
      var e :| Enabled(b[i - 1], e, config) && b[i] == Apply(b[i - 1], e, config);
      StepKeepsInv(b[i - 1], e, config);
    }
  }

  lemma NextIsLater(s: State, t: State, config: Config)
    requires Next(s, t, config)
    ensures Later(s, t)
  {
    var e :| Enabled(s, e, config) && t == Apply(s, e, config);
    StepIsLater(s, e, config);
  }

  lemma LaterIsTransitive(s: State, t: State, u: State)
    requires Later(s, t) && Later(t, u)
    ensures Later(s, u)
  {
  }

  lemma {:induction false} RunIsLater(b: seq<State>, config: Config, i: nat, j: nat)
    requires Run(b, config) && i <= j < |b|
    ensures Later(b[i], b[j])
  {
    if i < j {
      RunIsLater(b, config, i, j - 1);
      assert StepAt(b, j - 1, config);
      NextIsLater(b[j - 1], b[j], config);
      LaterIsTransitive(b[i], b[j - 1], b[j]);
    }
  }

  /** At no time are two different refresh tokens of one device acceptable. */
  lemma AtMostOneRefreshTokenIsAccepted(b: seq<State>, config: Config, i: nat, one: Token, two: Token, now: nat)
    requires Run(b, config) && i < |b| && one in b[i].refresh && two in b[i].refresh
    requires DeviceOf(one) == DeviceOf(two)
    requires Accepted(b[i].rows, one, Refresh, now, config) && Accepted(b[i].rows, two, Refresh, now, config)
    ensures one == two
  {
    InvAlways(b, config, i);
    AcceptedMeans(b[i].rows, one, Refresh, now, config);
    AcceptedMeans(b[i].rows, two, Refresh, now, config);
  }

  /** No issued token is ahead of its device. */
  lemma IssuedNeverExceedsTheRow(b: seq<State>, config: Config, i: nat, token: Token)
    requires Run(b, config) && i < |b| && token in b[i].refresh + b[i].access
    ensures token.Token? && (token.claims.device in b[i].rows ==>
      token.claims.generation <= b[i].rows[token.claims.device].generation)
  {
    InvAlways(b, config, i);
    assert TokenOk(b[i], token);
  }

  /** A token that has been revoked, or has outlived its device, is never accepted again. */
  lemma RejectedForGood(b: seq<State>, config: Config, i: nat, j: nat, token: Token, kind: Kind, now: nat, later: nat)
    requires Run(b, config) && i <= j < |b| && token in b[i].refresh + b[i].access
    requires Verified(b[i].rows, token, kind, now, config) == Failure(Revoked)
          || Verified(b[i].rows, token, kind, now, config) == Failure(UnknownDevice)
    ensures !Accepted(b[j].rows, token, kind, later, config)
  {
    InvAlways(b, config, i);
    RunIsLater(b, config, i, j);
    assert TokenOk(b[i], token);
    AcceptedMeans(b[j].rows, token, kind, later, config);
  }

  // --- whose device a token deletes --------------------------------------------------------

  /** Every issued token names the owner of its device at login, so a delete that a handler makes
      for its subject removes the row exactly if the owner's email has not changed since. */
  lemma DeletesHitTheOwnerAtLogin(b: seq<State>, config: Config, i: nat, token: Token)
    requires Run(b, config) && i < |b| && token in b[i].refresh + b[i].access
    ensures token.Token? && token.claims.device in b[i].born && token.claims.subject == b[i].born[token.claims.device]
    ensures token in b[i].access ==> token.claims.userEmail == token.claims.subject
    ensures var d := token.claims.device;
      d in b[i].rows ==>
        (d !in RowsWithout(b[i].rows, token.claims.subject, d) <==> b[i].rows[d].owner == b[i].born[d])
  {
    InvAlways(b, config, i);
    if token in b[i].access {
      assert AccessOk(b[i], token);
    } else {
      assert TokenOk(b[i], token);
    }
  }

  ghost predicate SameOwners(s: State, t: State) {
    forall d :: d in s.rows && d in t.rows ==> t.rows[d].owner == s.rows[d].owner
  }

  ghost predicate SameOwnersAt(b: seq<State>, i: int)
    requires 0 <= i < |b| - 1
  {
    SameOwners(b[i], b[i + 1])
  }

  /** No email changes in this run. */
  ghost predicate OwnersFixed(b: seq<State>) {
    forall i :: 0 <= i < |b| - 1 ==> SameOwnersAt(b, i)
  }

  lemma BornOnce(s: State, t: State, config: Config, d: DeviceId)
    requires Inv(s) && Next(s, t, config) && SameOwners(s, t) && d in t.rows
    requires d in s.rows ==> s.rows[d].owner == s.born[d]
    ensures d in t.born && t.rows[d].owner == t.born[d]
  {
    var e :| Enabled(s, e, config) && t == Apply(s, e, config);
  }

  lemma {:induction false} OwnerIsTheOneAtLogin(b: seq<State>, config: Config, i: nat, d: DeviceId)
    requires Run(b, config) && OwnersFixed(b) && i < |b| && d in b[i].rows
    ensures d in b[i].born && b[i].rows[d].owner == b[i].born[d]
  {
    if i > 0 {
      InvAlways(b, config, i - 1);
      if d in b[i - 1].rows {
        OwnerIsTheOneAtLogin(b, config, i - 1, d);
      }
      assert StepAt(b, i - 1, config) && SameOwnersAt(b, i - 1);
      BornOnce(b[i - 1], b[i], config, d);
    }
  }

  /** While emails stay as they are, every delete that a handler makes names the row's owner. */
  lemma HandlersNameTheOwner(b: seq<State>, config: Config, i: nat, token: Token)
    requires Run(b, config) && OwnersFixed(b) && i < |b| && token in b[i].refresh + b[i].access
    ensures token.Token?
    ensures token.claims.device in b[i].rows ==> b[i].rows[token.claims.device].owner == token.claims.subject
  {
    DeletesHitTheOwnerAtLogin(b, config, i, token);
    if token.claims.device in b[i].rows {
      OwnerIsTheOneAtLogin(b, config, i, token.claims.device);
    }
  }
}
