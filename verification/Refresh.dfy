/**
 `/refresh` and `/refresh-access`, one request at a time: rotation of the presented token, with
 reuse detection. Every check and every minting reads the clock for itself.
 */
module Refresh {
  import opened Wrappers
  import opened Secrets
  import opened Devices
  import opened CachedDb
  import opened Tokens
  import Duration

  datatype TokenPair = TokenPair(access: Token, refresh: Token)

  /** The HTTP statuses a failed request ends with. */
  datatype Status = Unauthorized | ServerError

  datatype World = World(rows: Rows, users: map<Email, string>, selects: bool, config: Config)

  /** The readings of the clock in one rotation: two checks of the presented token, the minting
      of the new refresh token, its check, and the minting of the access token. */
  datatype Clock = Clock(checked: nat, rechecked: nat, minted: nat, confirmed: nat, issued: nat)

  predicate Accepts(w: World, token: Token, now: nat) {
    Accepted(w.rows, token, Kind.Refresh, now, w.config)
  }

  predicate IsReuse(w: World, token: Token, now: nat) {
    Verified(w.rows, token, Kind.Refresh, now, w.config) == Failure(Revoked)
  }

  function NameOf(w: World, token: Token): Result<string, DbError>
    requires token.Token?
  {
    UsernameOf(w.users, w.selects, token.claims.subject)
  }

  /** The token passes both checks and its user is known: the generation is spent. */
  predicate Spends(w: World, token: Token, c: Clock) {
    token.Token? && Accepts(w, token, c.checked) && NameOf(w, token).Success? && Accepts(w, token, c.rechecked)
  }

  /** The new refresh token is still in date when it is checked. */
  predicate Lasting(w: World, c: Clock) {
    c.confirmed < WholeSeconds(c.minted + w.config.refreshDuration)
  }

  /** The new pair, as the table and the clock determine it. */
  function NewPair(w: World, token: Token, username: string, c: Clock): TokenPair
    requires token.Token? && token.claims.device in w.rows
  {
    var t, row := token.claims, w.rows[token.claims.device];
    TokenPair(
      AccessToken(w.config, t.subject, username, t.device, row.secret, row.generation + 1, c.issued),
      Tokens.RefreshToken(w.config, t.subject, t.device, row.secret, row.generation + 1, c.minted))
  }

  function RotatedRows(w: World, token: Token, c: Clock): Rows {
    if IsReuse(w, token, c.checked) then RowsWithout(w.rows, token.claims.subject, token.claims.device)
    else if Spends(w, token, c) then RowsIncremented(w.rows, token.claims.device)
    else w.rows
  }

  function RotateAnswer(w: World, token: Token, c: Clock): Result<TokenPair, Status> {
    if !Spends(w, token, c) then Failure(Unauthorized)
    else if !Lasting(w, c) then Failure(ServerError)
    else Success(NewPair(w, token, NameOf(w, token).value, c))
  }

  class Handler {
    const db: CachedDb
    const jwt: JwtManager

    constructor (jwt: JwtManager)
      ensures this.jwt == jwt && db == jwt.db
    {
      this.db, this.jwt := jwt.db, jwt;
    }

    ghost predicate Valid()
      reads db.database, db.cache
    {
      jwt.db == db && db.Valid()
    }

    ghost function Now(): World
      reads db.database
    {
      World(db.database.rows, db.database.users, db.database.selects, jwt.config)
    }

    method DeleteDeviceOnReuse(token: Token, error: AuthError)
      requires Valid() && token.Token?
      modifies db.database`rows, db.cache
      ensures Valid()
      ensures db.database.rows ==
        if error.Revoked? then RowsWithout(old(db.database.rows), token.claims.subject, token.claims.device)
        else old(db.database.rows)
    {
      if !error.Revoked? {
        return;
      }
      db.DeleteDevice(token.claims.subject, token.claims.device);
    }

    method Rotate(token: Token, c: Clock) returns (r: Result<TokenPair, Status>)
      requires Valid()
      modifies db.database`rows, db.cache
      ensures Valid()
      ensures db.database.rows == RotatedRows(old(Now()), token, c)
      ensures r == RotateAnswer(old(Now()), token, c)
    {
      var verified := jwt.VerifyToken(token, Kind.Refresh, c.checked);
      if verified.Failure? {
        if token.Token? {
          DeleteDeviceOnReuse(token, verified.error);
        }
        return Failure(Unauthorized);
      }
      var username := db.database.GetUsername(token.claims.subject);
      if username.Failure? {
        return Failure(Unauthorized);
      }
      r := Exchange(token, username.value, c);
    }

    /** The second half: the token has passed its first check. */
    method Exchange(token: Token, username: string, c: Clock) returns (r: Result<TokenPair, Status>)
      requires Valid() && Accepts(Now(), token, c.checked)
      requires token.Token? && NameOf(Now(), token) == Success(username)
      modifies db.database`rows, db.cache
      ensures Valid()
      ensures db.database.rows == RotatedRows(old(Now()), token, c)
      ensures r == RotateAnswer(old(Now()), token, c)
    {
      ghost var w := Now();
      if Accepts(w, token, c.rechecked) {
        ExchangeSpends(w, token, username, c);
      } else {
        ExchangeRefused(w, token, c);
      }
      var rotated := jwt.RotateRefresh(token, c.rechecked, c.minted);
      if rotated.Failure? {
        if rotated.error.Auth? {
          DeleteDeviceOnReuse(token, rotated.error.auth);
        }
        return Failure(if rotated.error.Auth? then Unauthorized else ServerError);
      }
      var access := jwt.GenerateAccess(rotated.value, username, c.confirmed, c.issued);
      if access.Failure? {
        return Failure(ServerError);
      }
      return Success(TokenPair(access.value, rotated.value));
    }

    /** A new access token for a refresh token that passes two checks; a reused one costs the device. */
    method RefreshAccess(token: Token, c: Clock) returns (r: Result<Token, Status>)
      requires Valid()
      modifies db.database`rows, db.cache
      ensures Valid()
      ensures db.database.rows ==
        if IsReuse(old(Now()), token, c.checked)
        then RowsWithout(old(db.database.rows), token.claims.subject, token.claims.device)
        else old(db.database.rows)
      ensures r.Success? <==> Spends(old(Now()), token, c)
      ensures r.Success? ==> Identifies(r.value, token.claims.subject, NameOf(Now(), token).value, token.claims.device)
      ensures r.Success? ==> LastsUntil(
        db.database.rows, r.value, Kind.Access, WholeSeconds(c.issued + jwt.config.accessDuration), jwt.config)
      ensures r.Failure? ==> r.error.Unauthorized?
    {
      var verified := jwt.VerifyToken(token, Kind.Refresh, c.checked);
      if verified.Failure? {
        if token.Token? {
          DeleteDeviceOnReuse(token, verified.error);
        }
        return Failure(Unauthorized);
      }
      var username := db.database.GetUsername(token.claims.subject);
      if username.Failure? {
        return Failure(Unauthorized);
      }
      var access := jwt.GenerateAccess(token, username.value, c.rechecked, c.issued);
      if access.Failure? {
        return Failure(Unauthorized);
      }
      MintedLasts(db.database.rows, token.claims, username.value, c.issued, jwt.config);
      return Success(access.value);
    }
  }

  // --- what a rotation can end in ----------------------------------------------------------

  lemma ExchangeSpends(w: World, token: Token, username: string, c: Clock)
    requires token.Token? && Accepts(w, token, c.checked) && Accepts(w, token, c.rechecked)
    requires NameOf(w, token) == Success(username)
    ensures var pair, rows := NewPair(w, token, username, c), RotatedRows(w, token, c);
      && RotateRefreshAnswer(w.rows, token, c.rechecked, c.minted, w.config) == Success(pair.refresh)
      && RotateRefreshRows(w.rows, token, c.rechecked, w.config) == rows
      && RotateAnswer(w, token, c) == (if Lasting(w, c) then Success(pair) else Failure(ServerError))
      && (Accepted(rows, pair.refresh, Kind.Refresh, c.confirmed, w.config) <==> Lasting(w, c))
  {
    NeverRevoked(w, token, c.checked, c.rechecked);
    NewTokensLast(w, token, username, c);
  }

  lemma ExchangeRefused(w: World, token: Token, c: Clock)
    requires token.Token? && Accepts(w, token, c.checked) && !Accepts(w, token, c.rechecked)
    ensures var answer := RotateRefreshAnswer(w.rows, token, c.rechecked, c.minted, w.config);
      answer.Failure? && answer.error.Auth? && !answer.error.auth.Revoked?
    ensures RotateRefreshRows(w.rows, token, c.rechecked, w.config) == w.rows == RotatedRows(w, token, c)
    ensures RotateAnswer(w, token, c) == Failure(Unauthorized)
  {
    NeverRevoked(w, token, c.checked, c.rechecked);
  }

  /** A token accepted at one time is at no time taken for a reused one, the row being the same. */
  lemma NeverRevoked(w: World, token: Token, now: nat, later: nat)
    requires Accepts(w, token, now)
    ensures !IsReuse(w, token, later) && !IsReuse(w, token, now)
  {
  }

  /** The token is accepted before this instant, and from then on no more. */
  ghost predicate LastsUntil(rows: Rows, token: Token, kind: Kind, end: nat, config: Config) {
    forall t: nat :: Accepted(rows, token, kind, t, config) <==> t < end
  }

  lemma MintedLasts(rows: Rows, c: Claims, username: string, mintedAt: nat, config: Config)
    requires c.device in rows
    ensures var row := rows[c.device];
      var access := AccessToken(config, c.subject, username, c.device, row.secret, row.generation, mintedAt);
      var refresh := Tokens.RefreshToken(config, c.subject, c.device, row.secret, row.generation, mintedAt);
      && LastsUntil(rows, access, Kind.Access, WholeSeconds(mintedAt + config.accessDuration), config)
      && LastsUntil(rows, refresh, Kind.Refresh, WholeSeconds(mintedAt + config.refreshDuration), config)
  {
    var row := rows[c.device];
    var access := AccessToken(config, c.subject, username, c.device, row.secret, row.generation, mintedAt);
    var refresh := Tokens.RefreshToken(config, c.subject, c.device, row.secret, row.generation, mintedAt);
    forall t: nat
      ensures Accepted(rows, access, Kind.Access, t, config) <==> t < WholeSeconds(mintedAt + config.accessDuration)
      ensures Accepted(rows, refresh, Kind.Refresh, t, config) <==> t < WholeSeconds(mintedAt + config.refreshDuration)
    {
      MintedIsAccepted(rows, c.device, c.subject, username, mintedAt, t, config);
    }
  }

  /** A generation is spent exactly if the token is accepted at both checks and, where names are
      selected, its subject is a user. */
  lemma SpendsMeans(w: World, token: Token, c: Clock)
    ensures Spends(w, token, c) <==>
      && token.Token? && (w.selects ==> token.claims.subject in w.users)
      && Accepted(w.rows, token, Kind.Refresh, c.checked, w.config)
      && Accepted(w.rows, token, Kind.Refresh, c.rechecked, w.config)
    ensures Spends(w, token, c) ==>
      NameOf(w, token) == Success(if w.selects then w.users[token.claims.subject] else "")
  {
  }

  /** Exactly one of: the generation goes up by one, the device goes, or nothing happens. The
      pair is handed out exactly if, besides, the new token is in date when it is checked. */
  lemma RotateOutcomes(w: World, token: Token, c: Clock)
    ensures IsReuse(w, token, c.checked) ==>
      && RotateAnswer(w, token, c) == Failure(Unauthorized)
      && RotatedRows(w, token, c) == RowsWithout(w.rows, token.claims.subject, token.claims.device)
    ensures Spends(w, token, c) ==>
      && (RotateAnswer(w, token, c).Success? <==> c.confirmed < WholeSeconds(c.minted + w.config.refreshDuration))
      && var t := token.claims;
         && t.device in w.rows
         && RotatedRows(w, token, c) == w.rows[t.device := w.rows[t.device].(generation := t.generation + 1)]
    ensures !IsReuse(w, token, c.checked) && !Spends(w, token, c) ==>
      RotateAnswer(w, token, c) == Failure(Unauthorized) && RotatedRows(w, token, c) == w.rows
    ensures forall d :: (d in w.rows && d !in RotatedRows(w, token, c)) <==>
      && token.Token? && d == token.claims.device && d in w.rows && w.rows[d].owner == token.claims.subject
      && HasTokenType(token.typ, Kind.Refresh) && token.hmac && token.key == w.rows[d].secret
      && (token.claims.expires.Some? ==> c.checked < token.claims.expires.value)
      && (w.config.issuer == "" || token.claims.issuer == w.config.issuer)
      && (w.config.audience == "" || w.config.audience in token.claims.audience)
      && token.claims.generation != w.rows[d].generation
  {
    AcceptedMeans(w.rows, token, Kind.Refresh, c.checked, w.config);
    RevokedMeans(w.rows, token, Kind.Refresh, c.checked, w.config);
  }

  /** The new tokens carry the row's new generation, and live exactly until their end. */
  lemma NewTokensLast(w: World, token: Token, username: string, c: Clock)
    requires Spends(w, token, c)
    ensures var pair, rows := NewPair(w, token, username, c), RotatedRows(w, token, c);
      && LastsUntil(rows, pair.refresh, Kind.Refresh, WholeSeconds(c.minted + w.config.refreshDuration), w.config)
      && LastsUntil(rows, pair.access, Kind.Access, WholeSeconds(c.issued + w.config.accessDuration), w.config)
  {
    MintedLasts(RotatedRows(w, token, c), token.claims, username, c.minted, w.config);
    MintedLasts(RotatedRows(w, token, c), token.claims, username, c.issued, w.config);
  }

  lemma SpentIsOver(w: World, token: Token, c: Clock, later: nat)
    requires Spends(w, token, c)
    ensures !Accepted(RotatedRows(w, token, c), token, Kind.Refresh, later, w.config)
  {
    AcceptedMeans(RotatedRows(w, token, c), token, Kind.Refresh, later, w.config);
  }

  /** After a successful rotation both new tokens are accepted, exactly until their end, and the
      old one never is again. */
  lemma RotationHandsOver(w: World, token: Token, c: Clock, later: nat)
    requires RotateAnswer(w, token, c).Success?
    ensures var pair, rows := RotateAnswer(w, token, c).value, RotatedRows(w, token, c);
      && LastsUntil(rows, pair.refresh, Kind.Refresh, WholeSeconds(c.minted + w.config.refreshDuration), w.config)
      && LastsUntil(rows, pair.access, Kind.Access, WholeSeconds(c.issued + w.config.accessDuration), w.config)
      && !Accepted(rows, token, Kind.Refresh, later, w.config)
      && Identifies(pair.access, token.claims.subject, NameOf(w, token).value, token.claims.device)
      && pair.refresh.claims.subject == token.claims.subject && pair.refresh.claims.device == token.claims.device
  {
    NewTokensLast(w, token, NameOf(w, token).value, c);
    SpentIsOver(w, token, c, later);
  }

  /** Run twice on one token, while it is in date, a rotation deletes the device, whether or not
      the first run had a pair to show for it. */
  lemma RotatingTwiceDeletes(w: World, token: Token, first: Clock, second: Clock)
    requires Spends(w, token, first) && ClaimsHold(token.claims, second.checked, w.config)
    requires w.rows[token.claims.device].owner == token.claims.subject
    ensures var spent := w.(rows := RotatedRows(w, token, first));
      IsReuse(spent, token, second.checked) && token.claims.device !in RotatedRows(spent, token, second)
  {
    AcceptedMeans(w.rows, token, Kind.Refresh, first.checked, w.config);
  }

  /** A configuration of one second: minted at 0.95 s the new token is out of date at 1.05 s, when
      it is checked, so the generation is spent and the answer is an error. */
  lemma AShortLifeSpendsForNothing()
    ensures
      var config := Config(Duration.SECOND, Duration.SECOND, "", "");
      var w := World(map["d" := Row("u", "k", 1)], map["u" := "n"], true, config);
      var token := Tokens.RefreshToken(config, "u", "d", "k", 1, 0);
      var c := Clock(950_000_000, 950_000_000, 950_000_000, 1_050_000_000, 1_050_000_000);
      && RotateAnswer(w, token, c) == Failure(ServerError)
      && RotatedRows(w, token, c) == map["d" := Row("u", "k", 2)]
  {
    var config := Config(Duration.SECOND, Duration.SECOND, "", "");
    MintedIsAccepted(map["d" := Row("u", "k", 1)], "d", "u", "n", 0, 950_000_000, config);
  }
}
