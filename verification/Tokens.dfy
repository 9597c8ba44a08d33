/**
 Access and refresh tokens, and the manager that checks and mints them. Signatures are ideal:
 a token carries the key it was signed with, and verifies under a secret only if that is it.
 */
module Tokens {
  import opened Wrappers
  import opened Secrets
  import opened Devices
  import opened CachedDb
  import opened GoStrings
  import Duration

  // Instants and durations are in nanoseconds; token dates are cut to whole seconds.
  function WholeSeconds(instant: nat): nat {
    instant - instant % Duration.SECOND
  }

  datatype Kind = Access | Refresh

  function TypeName(kind: Kind): string {
    match kind
    case Access => "access+jwt"
    case Refresh => "refresh+jwt"
  }

  datatype Claims = Claims(
    subject: Email, userEmail: Email, username: string,
    device: DeviceId, generation: int,
    issuer: string, audience: seq<string>, expires: Option<nat>)

  /** `Garbage` is any text that does not parse. */
  datatype Token = Garbage | Token(typ: string, hmac: bool, key: string, claims: Claims)

  datatype Config = Config(accessDuration: nat, refreshDuration: nat, issuer: string, audience: string)

  datatype AuthError = Invalid | Revoked | UnknownDevice | BadSignature

  const MEDIA_PREFIX := "application/"

  predicate HasTokenType(typ: string, kind: Kind) {
    var lower := LowerCase(typ);
    (if MEDIA_PREFIX <= lower then lower[|MEDIA_PREFIX|..] else lower) == TypeName(kind)
  }

  /** Expiry, issuer and audience. */
  predicate ClaimsHold(claims: Claims, now: nat, config: Config) {
    && (claims.expires.Some? ==> now < claims.expires.value)
    && (config.issuer != "" ==> claims.issuer == config.issuer)
    && (config.audience != "" ==> config.audience in claims.audience)
  }

  /** Token verification against what the device lookup answered. */
  function Judged(
    token: Token, kind: Kind, lookup: Result<Secret, DbError>, now: nat, config: Config): Result<string, AuthError>
  {
    if token.Garbage? || !HasTokenType(token.typ, kind) then Failure(Invalid)
    else if lookup == Failure(DeviceNotFound) then Failure(UnknownDevice)
    else if lookup.Failure? || !token.hmac then Failure(Invalid)
    else if token.key != lookup.value.value then Failure(BadSignature)
    else if !ClaimsHold(token.claims, now, config) then Failure(Invalid)
    else if token.claims.generation != lookup.value.generation then Failure(Revoked)
    else Success(lookup.value.value)
  }

  function DeviceOf(token: Token): DeviceId {
    if token.Garbage? then "" else token.claims.device
  }

  /** Token verification against the table. */
  function Verified(rows: Rows, token: Token, kind: Kind, now: nat, config: Config): Result<string, AuthError> {
    Judged(token, kind, LookedUp(rows, DeviceOf(token)), now, config)
  }

  predicate Accepted(rows: Rows, token: Token, kind: Kind, now: nat, config: Config) {
    Verified(rows, token, kind, now, config).Success?
  }

  function RefreshToken(
    config: Config, subject: Email, device: DeviceId, key: string, generation: int, now: nat): Token
  {
    Token(TypeName(Refresh), true, key,
          Claims(subject, "", "", device, generation, config.issuer, [config.audience],
                 Some(WholeSeconds(now + config.refreshDuration))))
  }

  function AccessToken(
    config: Config, subject: Email, username: string, device: DeviceId, key: string, generation: int, now: nat): Token
  {
    Token(TypeName(Access), true, key,
          Claims(subject, subject, username, device, generation, config.issuer, [config.audience],
                 Some(WholeSeconds(now + config.accessDuration))))
  }

  /** The identity that services behind the server read off an access token. */
  predicate Identifies(access: Token, email: Email, username: string, device: DeviceId) {
    && access.Token? && access.claims.subject == access.claims.userEmail == email
    && access.claims.username == username && access.claims.device == device
  }

  // --- facts about verification ------------------------------------------------------------

  lemma LowerCaseOfTypeName(kind: Kind)
    ensures LowerCase(TypeName(kind)) == TypeName(kind) && HasTokenType(TypeName(kind), kind)
  {
    assert TypeName(kind)[0] != MEDIA_PREFIX[0] || TypeName(kind)[1] != MEDIA_PREFIX[1];
  }

  /** No header passes for both kinds of token. */
  lemma KindsAreSeparate(typ: string)
    ensures !(HasTokenType(typ, Access) && HasTokenType(typ, Refresh))
  {
    assert TypeName(Access)[0] != TypeName(Refresh)[0];
  }

  /** Which headers name a kind: its name in any case, with or without the media type. */
  lemma TypeMeans(typ: string)
    ensures HasTokenType(typ, Access) <==> LowerCase(typ) in {"access+jwt", "application/access+jwt"}
    ensures HasTokenType(typ, Refresh) <==> LowerCase(typ) in {"refresh+jwt", "application/refresh+jwt"}
  {
    var lower := LowerCase(typ);
    assert MEDIA_PREFIX + TypeName(Access) == "application/access+jwt";
    assert MEDIA_PREFIX + TypeName(Refresh) == "application/refresh+jwt";
    if MEDIA_PREFIX <= lower {
      assert lower == MEDIA_PREFIX + lower[|MEDIA_PREFIX|..];
      assert lower[1] == 'p' && TypeName(Access)[1] == 'c' && lower[0] == 'a' && TypeName(Refresh)[0] == 'r';
    } else {
      assert MEDIA_PREFIX <= "application/access+jwt" && MEDIA_PREFIX <= "application/refresh+jwt";
    }
  }

  /** What each refusal but revocation amounts to, in the order of the tests. */
  lemma RefusedMeans(rows: Rows, token: Token, kind: Kind, now: nat, config: Config)
    ensures Verified(rows, token, kind, now, config) == Failure(UnknownDevice) <==>
      token.Token? && HasTokenType(token.typ, kind) && token.claims.device !in rows
    ensures Verified(rows, token, kind, now, config) == Failure(BadSignature) <==>
      && token.Token? && HasTokenType(token.typ, kind) && token.hmac
      && token.claims.device in rows && token.key != rows[token.claims.device].secret
    ensures Verified(rows, token, kind, now, config) == Failure(Invalid) <==>
      || !token.Token? || !HasTokenType(token.typ, kind)
      || (token.claims.device in rows && !token.hmac)
      || (token.claims.device in rows && token.key == rows[token.claims.device].secret && (
            || (token.claims.expires.Some? && token.claims.expires.value <= now)
            || (config.issuer != "" && token.claims.issuer != config.issuer)
            || (config.audience != "" && config.audience !in token.claims.audience)))
  {
  }

  /** What acceptance amounts to: the right kind, signed with the device's secret, in date,
      for this service, and of the row's current generation. */
  lemma AcceptedMeans(rows: Rows, token: Token, kind: Kind, now: nat, config: Config)
    ensures Accepted(rows, token, kind, now, config) <==>
      && token.Token? && HasTokenType(token.typ, kind) && token.hmac
      && token.claims.device in rows
      && token.key == rows[token.claims.device].secret
      && (token.claims.expires.Some? ==> now < token.claims.expires.value)
      && (config.issuer == "" || token.claims.issuer == config.issuer)
      && (config.audience == "" || config.audience in token.claims.audience)
      && token.claims.generation == rows[token.claims.device].generation
  {
  }

  /** What reuse amounts to: as acceptance, except that the generation is not the row's. */
  lemma RevokedMeans(rows: Rows, token: Token, kind: Kind, now: nat, config: Config)
    ensures Verified(rows, token, kind, now, config) == Failure(Revoked) <==>
      && token.Token? && HasTokenType(token.typ, kind) && token.hmac
      && token.claims.device in rows
      && token.key == rows[token.claims.device].secret
      && (token.claims.expires.Some? ==> now < token.claims.expires.value)
      && (config.issuer == "" || token.claims.issuer == config.issuer)
      && (config.audience == "" || config.audience in token.claims.audience)
      && token.claims.generation != rows[token.claims.device].generation
  {
  }

  /** A minted token is accepted, while its row stands, exactly until the whole second at or
      before its nominal end. */
  lemma MintedIsAccepted(
    rows: Rows, device: DeviceId, subject: Email, username: string, mintedAt: nat, checkedAt: nat, config: Config)
    requires device in rows
    ensures var row := rows[device];
      var refresh := RefreshToken(config, subject, device, row.secret, row.generation, mintedAt);
      Accepted(rows, refresh, Refresh, checkedAt, config) <==>
        checkedAt < WholeSeconds(mintedAt + config.refreshDuration)
    ensures var row := rows[device];
      var access := AccessToken(config, subject, username, device, row.secret, row.generation, mintedAt);
      Accepted(rows, access, Access, checkedAt, config) <==>
        checkedAt < WholeSeconds(mintedAt + config.accessDuration)
  {
    LowerCaseOfTypeName(Refresh);
    LowerCaseOfTypeName(Access);
  }

  predicate Survives(duration: nat, mintedAt: nat, gap: nat) {
    mintedAt + gap < WholeSeconds(mintedAt + duration)
  }

  /** A token survives a check made `gap` after its minting, whenever that is, exactly if it is
      minted for a second more than the gap. */
  lemma OutlivesTheGap(duration: nat, gap: nat)
    ensures (forall mintedAt: nat :: Survives(duration, mintedAt, gap)) <==> duration >= Duration.SECOND + gap
  {
    if duration < Duration.SECOND + gap {
      var mintedAt: nat := Duration.SECOND - 1 - duration % Duration.SECOND;
      assert (mintedAt + duration) % Duration.SECOND == Duration.SECOND - 1;
      assert !Survives(duration, mintedAt, gap);
    }
  }

  // --- the manager -------------------------------------------------------------------------

  datatype RotateError = Auth(auth: AuthError) | Db(db: DbError)

  /** What `RotateRefresh` answers and does, seen from the table. */
  function RotateRefreshAnswer(
    rows: Rows, token: Token, checkedAt: nat, mintedAt: nat, config: Config): Result<Token, RotateError>
  {
    match Verified(rows, token, Refresh, checkedAt, config)
    case Failure(error) => Failure(Auth(error))
    case Success(secret) =>
      if token.Garbage? || token.claims.device !in rows then Failure(Db(NoRows))
      else
        var c := token.claims;
        Success(RefreshToken(config, c.subject, c.device, secret, rows[c.device].generation + 1, mintedAt))
  }

  function RotateRefreshRows(rows: Rows, token: Token, checkedAt: nat, config: Config): Rows {
    if Accepted(rows, token, Refresh, checkedAt, config) then RowsIncremented(rows, DeviceOf(token)) else rows
  }

  class JwtManager {
    const db: CachedDb
    const config: Config

    constructor (db: CachedDb, config: Config)
      ensures this.db == db && this.config == config
    {
      this.db, this.config := db, config;
    }

    method VerifyToken(token: Token, kind: Kind, now: nat) returns (r: Result<string, AuthError>)
      requires db.Valid()
      modifies db.cache
      ensures db.Valid()
      ensures r == Verified(db.database.rows, token, kind, now, config)
      ensures forall d :: d != DeviceOf(token) ==> Lookup(db.cache.secrets, d) == Lookup(old(db.cache.secrets), d)
    {
      if token.Garbage? || !HasTokenType(token.typ, kind) {
        return Failure(Invalid);
      }
      var lookup := db.GetDeviceSecret(token.claims.device);
      if lookup == Failure(DeviceNotFound) {
        return Failure(UnknownDevice);
      }
      if lookup.Failure? {
        return Failure(Invalid);
      }
      var secret := lookup.value;
      if !token.hmac {
        return Failure(Invalid);
      }
      if token.key != secret.value {
        return Failure(BadSignature);
      }
      if !ClaimsHold(token.claims, now, config) {
        return Failure(Invalid);
      }
      if token.claims.generation != secret.generation {
        return Failure(Revoked);
      }
      return Success(secret.value);
    }

    method GenerateAccess(
      token: Token, username: string, checkedAt: nat, mintedAt: nat) returns (r: Result<Token, AuthError>)
      requires db.Valid()
      modifies db.cache
      ensures db.Valid()
      ensures r.Success? <==> Accepted(db.database.rows, token, Refresh, checkedAt, config)
      ensures r.Success? ==> token.Token? && token.claims.device in db.database.rows
      ensures r.Success? ==> r.value == AccessToken(config, token.claims.subject, username, token.claims.device,
        db.database.rows[token.claims.device].secret, db.database.rows[token.claims.device].generation, mintedAt)
      ensures r.Failure? ==> Verified(db.database.rows, token, Refresh, checkedAt, config) == Failure(r.error)
    {
      var verified := VerifyToken(token, Refresh, checkedAt);
      if verified.Failure? {
        return Failure(verified.error);
      }
      var c := token.claims;
      return Success(AccessToken(config, c.subject, username, c.device, verified.value, c.generation, mintedAt));
    }

    method RotateRefresh(token: Token, checkedAt: nat, mintedAt: nat) returns (r: Result<Token, RotateError>)
      requires db.Valid()
      modifies db.database`rows, db.cache
      ensures db.Valid()
      ensures r == RotateRefreshAnswer(old(db.database.rows), token, checkedAt, mintedAt, config)
      ensures db.database.rows == RotateRefreshRows(old(db.database.rows), token, checkedAt, config)
    {
      var verified := VerifyToken(token, Refresh, checkedAt);
      if verified.Failure? {
        return Failure(Auth(verified.error));
      }
      var generation := db.UpdateDeviceSecret(token.claims.device);
      if generation.Failure? {
        return Failure(Db(NoRows));
      }
      var c := token.claims;
      return Success(RefreshToken(config, c.subject, c.device, verified.value, generation.value, mintedAt));
    }
  }
}
