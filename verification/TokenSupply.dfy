/**
 The other half of "at most one": in every run each device that exists has a refresh token of its
 current generation, issued or about to be signed. Nobody is locked out by rotations that overlap.
 */
module TokenSupply {
  import opened Wrappers
  import opened Secrets
  import opened Devices
  import opened Tokens
  import opened TokenRuns

  /** A refresh token minted for the row as it is. */
  ghost predicate Fits(token: Token, d: DeviceId, row: Row, config: Config, subject: Email, mintedAt: nat) {
    token == RefreshToken(config, subject, d, row.secret, row.generation, mintedAt)
  }

  ghost predicate Supplied(s: State, d: DeviceId, config: Config)
    requires d in s.rows
  {
    exists token, subject, mintedAt: nat :: token in s.refresh && Fits(token, d, s.rows[d], config, subject, mintedAt)
  }

  predicate Signs(op: Op, d: DeviceId, row: Row) {
    op.Signing? && op.device == d && op.secret == row.secret && op.generation == row.generation
  }

  ghost predicate Coming(s: State, d: DeviceId)
    requires d in s.rows
  {
    exists id :: id in s.ops && Signs(s.ops[id], d, s.rows[d])
  }

  ghost predicate KeyOk(s: State, op: Op) {
    op.Checked? || op.Signing? ==>
      op.device in s.used && (op.device in s.rows ==> op.secret == s.rows[op.device].secret)
  }

  ghost predicate Supply(s: State, config: Config) {
    && (forall d :: d in s.rows ==> Supplied(s, d, config) || Coming(s, d))
    && (forall id :: id in s.ops ==> KeyOk(s, s.ops[id]))
    && s.rows.Keys <= s.used
  }

  /** A row that a step leaves with its secret and generation keeps its token. */
  lemma SuppliedStays(s: State, t: State, d: DeviceId, config: Config)
    requires d in s.rows && Supplied(s, d, config) && s.refresh <= t.refresh && d in t.rows
    requires t.rows[d].secret == s.rows[d].secret && t.rows[d].generation == s.rows[d].generation
    ensures Supplied(t, d, config)
  {
    var token, subject, mintedAt: nat :| token in s.refresh && Fits(token, d, s.rows[d], config, subject, mintedAt);
    assert token in t.refresh && Fits(token, d, t.rows[d], config, subject, mintedAt);
  }

  lemma SigningSupplies(s: State, id: OpId, d: DeviceId, config: Config)
    requires Enabled(s, Sign(id), config) && d in s.rows && Signs(s.ops[id], d, s.rows[d])
    ensures Supplied(Apply(s, Sign(id), config), d, config)
  {
    var t, op := Apply(s, Sign(id), config), s.ops[id];
    var token := RefreshToken(config, op.subject, d, op.secret, op.generation, s.now);
    assert token in t.refresh && Fits(token, d, t.rows[d], config, op.subject, s.now);
  }

  lemma SupplyThroughStep(s: State, e: Event, config: Config, d: DeviceId)
    requires Supply(s, config) && Enabled(s, e, config) && d in Apply(s, e, config).rows
    ensures var t := Apply(s, e, config); Supplied(t, d, config) || Coming(t, d)
  {
    var t := Apply(s, e, config);
    if e.Login? && e.device == d {
      assert Signs(t.ops[e.id], d, t.rows[d]);
    } else if e.Bump? && s.ops[e.id].device == d {
      assert KeyOk(s, s.ops[e.id]);
      assert Signs(t.ops[e.id], d, t.rows[d]);
    } else if Supplied(s, d, config) {
      SuppliedStays(s, t, d, config);
    } else {
      var id :| id in s.ops && Signs(s.ops[id], d, s.rows[d]);
      if e == Sign(id) {
        SigningSupplies(s, id, d, config);
      } else {
        assert Signs(t.ops[id], d, t.rows[d]);
      }
    }
  }

  lemma KeysThroughStep(s: State, e: Event, config: Config, id: OpId)
    requires Supply(s, config) && Enabled(s, e, config) && id in Apply(s, e, config).ops
    ensures var t := Apply(s, e, config); KeyOk(t, t.ops[id])
  {
    if id in s.ops {
      assert KeyOk(s, s.ops[id]);
    }
  }

  lemma StepKeepsSupply(s: State, e: Event, config: Config)
    requires Supply(s, config) && Enabled(s, e, config)
    ensures Supply(Apply(s, e, config), config)
  {
    var t := Apply(s, e, config);
    forall d | d in t.rows ensures Supplied(t, d, config) || Coming(t, d) {
      SupplyThroughStep(s, e, config, d);
    }
    forall id | id in t.ops ensures KeyOk(t, t.ops[id]) {
      KeysThroughStep(s, e, config, id);
    }
  }

  lemma {:induction false} SupplyAlways(b: seq<State>, config: Config, i: nat)
    requires Run(b, config) && i < |b|
    ensures Supply(b[i], config)
  {
    if i > 0 {
      SupplyAlways(b, config, i - 1);
      assert StepAt(b, i - 1, config);
      var e :| Enabled(b[i - 1], e, config) && b[i] == Apply(b[i - 1], e, config);
      StepKeepsSupply(b[i - 1], e, config);
    }
  }

  /** Whenever nobody is signing for a device that exists, it has a refresh token, accepted exactly
      until its end; by `AtMostOneRefreshTokenIsAccepted` it is the only one. */
  lemma TheCurrentTokenExists(b: seq<State>, config: Config, i: nat, d: DeviceId) returns (token: Token)
    requires Run(b, config) && i < |b| && d in b[i].rows
    requires forall id :: id in b[i].ops && b[i].ops[id].Signing? ==> b[i].ops[id].device != d
    ensures token in b[i].refresh && token.Token? && token.claims.device == d && token.claims.expires.Some?
    ensures forall t: nat :: Accepted(b[i].rows, token, Refresh, t, config) <==> t < token.claims.expires.value
  {
    SupplyAlways(b, config, i);
    var s := b[i];
    var subject, mintedAt: nat;
    token, subject, mintedAt :| token in s.refresh && Fits(token, d, s.rows[d], config, subject, mintedAt);
    forall t: nat ensures Accepted(s.rows, token, Refresh, t, config) <==> t < token.claims.expires.value {
      MintedIsAccepted(s.rows, d, subject, "", mintedAt, t, config);
    }
  }

  /** Minting an access token for the row as it is issues one that is accepted exactly until its end
      and names the subject of the refresh token. */
  lemma MintingIssues(s: State, id: OpId, config: Config) returns (token: Token)
    requires Enabled(s, Mint(id), config) && s.ops[id].device in s.rows
    requires s.ops[id].secret == s.rows[s.ops[id].device].secret
    requires s.ops[id].generation == s.rows[s.ops[id].device].generation
    ensures token in Apply(s, Mint(id), config).access
    ensures Identifies(token, s.ops[id].subject, s.ops[id].username, s.ops[id].device) && token.claims.expires.Some?
    ensures forall t: nat :: Accepted(s.rows, token, Access, t, config) <==> t < token.claims.expires.value
  {
    var op := s.ops[id];
    token := AccessToken(config, op.subject, op.username, op.device, op.secret, op.generation, s.now);
    forall t: nat ensures Accepted(s.rows, token, Access, t, config) <==> t < token.claims.expires.value {
      MintedIsAccepted(s.rows, op.device, op.subject, op.username, s.now, t, config);
    }
  }
}
