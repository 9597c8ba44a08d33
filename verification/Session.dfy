/** `/verify`, `/logout` and `DELETE /users/me`. */
module Session {
  import opened Wrappers
  import opened Secrets
  import opened Devices
  import opened CachedDb
  import opened Tokens

  datatype Status = NoContent | Ok | Unauthorized | ServerError

  /** The tokens of this device are worthless from now on, whatever they say. */
  ghost predicate Worthless(rows: Rows, device: DeviceId, config: Config) {
    forall token, kind, now :: DeviceOf(token) == device ==> !Accepted(rows, token, kind, now, config)
  }

  /** Every token of this device stands exactly as it did. */
  ghost predicate Unaffected(before: Rows, after: Rows, device: DeviceId, config: Config) {
    forall token, kind, now :: DeviceOf(token) == device ==>
      Verified(after, token, kind, now, config) == Verified(before, token, kind, now, config)
  }

  predicate OwnedByHolder(rows: Rows, d: DeviceId, token: Token) {
    token.Token? && d in rows && rows[d].owner == token.claims.userEmail
  }

  /** Rows removed make their tokens worthless; rows kept leave theirs as they stood. */
  lemma RemovalEnds(before: Rows, after: Rows, d: DeviceId, config: Config)
    ensures d !in after ==> Worthless(after, d, config)
    ensures Lookup(after, d) == Lookup(before, d) ==> Unaffected(before, after, d, config)
  {
  }

  class Handler {
    const db: CachedDb
    const jwt: JwtManager

    constructor (jwt: JwtManager)
      ensures this.jwt == jwt && db == jwt.db
    {
      this.db, this.jwt := jwt.db, jwt;
    }

    ghost predicate Valid()
      reads db.database, db.cache
    {
      jwt.db == db && db.Valid()
    }

    /** The forwarded identity is that of an accepted access token, or there is none. */
    method Verify(token: Token, now: nat) returns (status: Status, email: Email, username: string, device: DeviceId)
      requires Valid()
      modifies db.cache
      ensures Valid()
      ensures status == NoContent <==> Accepted(db.database.rows, token, Access, now, jwt.config)
      ensures status != NoContent <==> status == Unauthorized
      ensures status == NoContent ==>
        email == token.claims.userEmail && username == token.claims.username && device == token.claims.device
    {
      email, username, device := "", "", "";
      var verified := jwt.VerifyToken(token, Access, now);
      if verified.Failure? {
        return Unauthorized, "", "", "";
      }
      return NoContent, token.claims.userEmail, token.claims.username, token.claims.device;
    }

    /** Ends exactly the session of an accepted refresh token that its owner presents. */
    method Logout(token: Token, now: nat)
      requires Valid()
      modifies db.database`rows, db.cache
      ensures Valid()
      ensures !Accepted(old(db.database.rows), token, Refresh, now, jwt.config) ==>
        db.database.rows == old(db.database.rows)
      ensures Accepted(old(db.database.rows), token, Refresh, now, jwt.config) ==>
        var d := token.claims.device;
        && Hit(Lookup(db.cache.secrets, d)).None?
        && (old(db.database.rows)[d].owner == token.claims.subject ==> Worthless(db.database.rows, d, jwt.config))
      ensures forall d :: d != DeviceOf(token) ==>
        && Lookup(db.database.rows, d) == Lookup(old(db.database.rows), d)
        && Unaffected(old(db.database.rows), db.database.rows, d, jwt.config)
        && Lookup(db.cache.secrets, d) == Lookup(old(db.cache.secrets), d)
    {
      var verified := jwt.VerifyToken(token, Refresh, now);
      if verified.Success? {
        db.DeleteDevice(token.claims.subject, token.claims.device);
      }
    }

    /** Removes the account of an accepted access token: no row, no live cache entry and no
        acceptable token of it remain, and nobody else's tokens notice. */
    method DeleteMe(token: Token, now: nat) returns (status: Status)
      requires Valid()
      modifies db.database`rows, db.database`users, db.cache
      ensures Valid()
      ensures status == Unauthorized <==> !Accepted(old(db.database.rows), token, Access, now, jwt.config)
      ensures status == Unauthorized ==>
        db.database.rows == old(db.database.rows) && db.database.users == old(db.database.users)
      ensures status == Ok <==> status != Unauthorized && !db.database.external
      ensures status == Ok ==> db.database.users == old(db.database.users) - {token.claims.userEmail}
      ensures status != Unauthorized ==> forall d ::
        d in old(db.database.rows) && old(db.database.rows)[d].owner == token.claims.userEmail ==>
          d !in db.database.rows && Hit(Lookup(db.cache.secrets, d)).None? && Worthless(db.database.rows, d, jwt.config)
      ensures forall d :: !(OwnedByHolder(old(db.database.rows), d, token)) ==>
        && Lookup(db.database.rows, d) == Lookup(old(db.database.rows), d)
        && Unaffected(old(db.database.rows), db.database.rows, d, jwt.config)
        && (d != DeviceOf(token) ==> Lookup(db.cache.secrets, d) == Lookup(old(db.cache.secrets), d))
    {
      var verified := jwt.VerifyToken(token, Access, now);
      if verified.Failure? {
        return Unauthorized;
      }
      var email := token.claims.userEmail;
      db.DeleteAllDevices(email);
      var removed := db.database.DeleteUser(email);
      ghost var before, after := old(db.database.rows), db.database.rows;
      assert RowsWithoutOwner(before, email) == after;
      forall d
        ensures d !in after ==> Worthless(after, d, jwt.config)
        ensures Lookup(after, d) == Lookup(before, d) ==> Unaffected(before, after, d, jwt.config)
      {
        RemovalEnds(before, after, d, jwt.config);
      }
      if removed.Failure? {
        return ServerError;
      }
      return Ok;
    }
  }
}
