/**
 The cache and the tokens together: what a lookup's answer does to the token that asked for it,
 and so to the device, which a revoked refresh token deletes.
 */
module ReuseAlarm {
  import opened Wrappers
  import opened Secrets
  import opened Devices
  import opened CacheProtocol
  import opened Tokens
  import CacheSafety
  import CacheCounterexamples

  /** The lookup's answer, as token verification receives it. */
  function Received(answer: Answer): Result<Secret, DbError> {
    if answer.Found? then Success(answer.secret) else Failure(DeviceNotFound)
  }

  /** A refresh token issued for the row as it is now. */
  ghost predicate Newest(token: Token, d: DeviceId, row: Row, now: nat, config: Config) {
    && token.Token? && token.hmac && HasTokenType(token.typ, Kind.Refresh) && ClaimsHold(token.claims, now, config)
    && token.claims.device == d && token.key == row.secret && token.claims.generation == row.generation
  }

  /** In every orderly run, a token whose generation was handed out before its lookup began and
      is still the row's when the lookup ends is accepted. It never sets off reuse detection. */
  lemma NoFalseReuseAlarm(b: seq<State>, i: nat, k: nat, id: OpId, d: DeviceId, token: Token, now: nat, config: Config)
    requires OrderlyRun(b) && i < k < |b| && id !in b[i].ops && id in b[i + 1].ops && id in b[k].ops
    requires b[i + 1].ops[id].task.Lookup? && b[i + 1].ops[id].task.device == d
    requires b[k].ops[id].pc.Done? && d in b[i].rows && d in b[k].rows
    requires Newest(token, d, b[k].rows[d], now, config) && CacheSafety.HandedOut(b[i], d, token.claims.generation)
    ensures Judged(token, Kind.Refresh, Received(b[k].ops[id].pc.answer), now, config) == Success(b[k].rows[d].secret)
  {
    CacheSafety.NewestTokenIsNeverJudgedRevoked(b, i, k, id, d, token.claims.generation);
  }

  lemma FalseAlarmRevokes(b: seq<State>, i: nat, id: OpId, d: DeviceId, token: Token, now: nat, config: Config)
    requires CacheCounterexamples.FalseAlarm(b, i, id, d) && Newest(token, d, b[|b| - 1].rows[d], now, config)
    ensures Judged(token, Kind.Refresh, Received(b[|b| - 1].ops[id].pc.answer), now, config) == Failure(Revoked)
  {
  }

  /** In the run with an outdated owner every newest token of the device is judged revoked. */
  lemma OutdatedOwnerRevokesTheNewest(token: Token, now: nat, config: Config) returns (b: seq<State>, es: seq<Event>)
    requires Newest(token, CacheCounterexamples.D, CacheCounterexamples.SECOND, now, config)
    ensures CacheCounterexamples.Plays(b, es) && (forall e :: e in es ==> !e.Tick?) && 3 in b[|b| - 1].ops
    ensures b[|b| - 1].rows == map[CacheCounterexamples.D := CacheCounterexamples.SECOND]
    ensures b[|b| - 1].ops[3].pc.Done?
    ensures Judged(token, Kind.Refresh, Received(b[|b| - 1].ops[3].pc.answer), now, config) == Failure(Revoked)
  {
    b, es := CacheCounterexamples.OutdatedOwnerRaisesFalseAlarm();
    FalseAlarmRevokes(b, 14, 3, CacheCounterexamples.D, token, now, config);
  }

  /** And so it is in the run with a slow load. */
  lemma SlowLoadRevokesTheNewest(token: Token, now: nat, config: Config) returns (b: seq<State>, es: seq<Event>)
    requires Newest(token, CacheCounterexamples.D, CacheCounterexamples.SECOND, now, config)
    ensures CacheCounterexamples.Plays(b, es) && (forall e :: e in es ==> !e.RemoveRows?) && 2 in b[|b| - 1].ops
    ensures b[|b| - 1].rows == map[CacheCounterexamples.D := CacheCounterexamples.SECOND]
    ensures b[|b| - 1].ops[2].pc.Done?
    ensures Judged(token, Kind.Refresh, Received(b[|b| - 1].ops[2].pc.answer), now, config) == Failure(Revoked)
  {
    b, es := CacheCounterexamples.SlowLoadRaisesFalseAlarm();
    FalseAlarmRevokes(b, 13, 2, CacheCounterexamples.D, token, now, config);
  }
}
