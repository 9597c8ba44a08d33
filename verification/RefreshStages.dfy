/**
 The staged rotation is the sequential one taken apart: left to itself it changes the table as
 `rotate` does and answers what `rotate` answers, for every reading of the clock.
 */
module RefreshStages {
  import opened Wrappers
  import opened Secrets
  import opened Devices
  import opened Tokens
  import opened Refresh
  import opened RefreshRuns
  import Flight

  /** A rotation on its own, one step at each of these times. */
  function Solo(w: World, token: Token, stage: Stage, times: seq<nat>): (World, Stage)
    requires token.Token?
    decreases |times|
  {
    if times == [] || stage.Over? then (w, stage)
    else Solo(w.(rows := SteppedRows(w, token, stage)), token, Stepped(w, times[0], token, stage), times[1..])
  }

  /** The times of the seven steps; looking the name up and incrementing the row read no clock. */
  function Times(c: Clock): seq<nat> {
    [c.checked, c.checked, c.rechecked, c.rechecked, c.minted, c.confirmed, c.issued]
  }

  function OutcomeOf(r: Result<TokenPair, Status>): Result<TokenPair, string> {
    if r.Success? then Success(r.value) else FAILED
  }

  lemma OneStep(w: World, token: Token, stage: Stage, now: nat, rest: seq<nat>)
    requires token.Token? && !stage.Over?
    ensures Solo(w, token, stage, [now] + rest) ==
      Solo(w.(rows := SteppedRows(w, token, stage)), token, Stepped(w, now, token, stage), rest)
  {
    assert ([now] + rest)[1..] == rest;
  }

  /** The increment and the signature. */
  lemma SoloSigns(w: World, token: Token, name: string, secret: string, c: Clock)
    requires token.Token? && token.claims.device in w.rows
    ensures var g := w.rows[token.claims.device].generation + 1;
      Solo(w, token, Rechecked(name, secret), [c.rechecked, c.minted, c.confirmed, c.issued]) ==
        Solo(w.(rows := RowsIncremented(w.rows, token.claims.device)), token, Signed(name, secret, g, c.minted),
             [c.confirmed, c.issued])
  {
    var d := token.claims.device;
    var v, g := w.(rows := RowsIncremented(w.rows, d)), w.rows[d].generation + 1;
    assert [c.rechecked] + [c.minted, c.confirmed, c.issued] == [c.rechecked, c.minted, c.confirmed, c.issued];
    OneStep(w, token, Rechecked(name, secret), c.rechecked, [c.minted, c.confirmed, c.issued]);
    assert [c.minted] + [c.confirmed, c.issued] == [c.minted, c.confirmed, c.issued];
    OneStep(v, token, Bumped(name, secret, g), c.minted, [c.confirmed, c.issued]);
  }

  /** From the second half on: increment, signature, check, access token. */
  lemma SoloSpends(w: World, token: Token, name: string, c: Clock)
    requires token.Token? && token.claims.device in w.rows
    ensures var secret := w.rows[token.claims.device].secret;
      Solo(w, token, Rechecked(name, secret), [c.rechecked, c.minted, c.confirmed, c.issued]) ==
        (w.(rows := RowsIncremented(w.rows, token.claims.device)),
         Over(if Lasting(w, c) then Success(NewPair(w, token, name, c)) else FAILED))
  {
    SoloSigns(w, token, name, w.rows[token.claims.device].secret, c);
    SoloConfirms(w.(rows := RowsIncremented(w.rows, token.claims.device)), token, name, c);
  }

  lemma SoloConfirms(w: World, token: Token, name: string, c: Clock)
    requires token.Token? && token.claims.device in w.rows
    ensures var row := w.rows[token.claims.device];
      var refresh := Tokens.RefreshToken(
        w.config, token.claims.subject, token.claims.device, row.secret, row.generation, c.minted);
      var access := AccessToken(
        w.config, token.claims.subject, name, token.claims.device, row.secret, row.generation, c.issued);
      Solo(w, token, Signed(name, row.secret, row.generation, c.minted), [c.confirmed, c.issued]) ==
        (w, Over(if Lasting(w, c) then Success(TokenPair(access, refresh)) else FAILED))
  {
    var t, row := token.claims, w.rows[token.claims.device];
    var stage := Signed(name, row.secret, row.generation, c.minted);
    MintedIsAccepted(w.rows, t.device, t.subject, name, c.minted, c.confirmed, w.config);
    assert [c.confirmed] + [c.issued] == [c.confirmed, c.issued];
    OneStep(w, token, stage, c.confirmed, [c.issued]);
    if Lasting(w, c) {
      assert [c.issued] + [] == [c.issued];
      OneStep(w, token, Confirmed(name, row.secret, row.generation, c.minted), c.issued, []);
    }
  }

  lemma SoloRechecks(w: World, token: Token, name: string, c: Clock)
    requires token.Token? && Accepts(w, token, c.checked) && NameOf(w, token) == Success(name)
    ensures Solo(w, token, Known(name), [c.rechecked, c.rechecked, c.minted, c.confirmed, c.issued]) ==
      (w.(rows := RotatedRows(w, token, c)), Over(OutcomeOf(RotateAnswer(w, token, c))))
  {
    var rest := [c.rechecked, c.minted, c.confirmed, c.issued];
    assert [c.rechecked] + rest == [c.rechecked, c.rechecked, c.minted, c.confirmed, c.issued];
    OneStep(w, token, Known(name), c.rechecked, rest);
    NeverRevoked(w, token, c.checked, c.rechecked);
    if Accepts(w, token, c.rechecked) {
      ExchangeSpends(w, token, name, c);
      SoloSpends(w, token, name, c);
    }
  }

  /** Left to itself a staged rotation is the rotation of the handler. */
  lemma StagedIsSequential(w: World, token: Token, c: Clock)
    requires token.Token?
    ensures Solo(w, token, Arrived, Times(c)) ==
      (w.(rows := RotatedRows(w, token, c)), Over(OutcomeOf(RotateAnswer(w, token, c))))
  {
    var tail := [c.rechecked, c.rechecked, c.minted, c.confirmed, c.issued];
    assert [c.checked] + ([c.checked] + tail) == Times(c);
    OneStep(w, token, Arrived, c.checked, [c.checked] + tail);
    if IsReuse(w, token, c.checked) {
      OneStep(w, token, Alarmed, c.checked, tail);
    } else if Accepts(w, token, c.checked) {
      NeverRevoked(w, token, c.checked, c.rechecked);
      OneStep(w, token, Checked, c.checked, tail);
      if NameOf(w, token).Success? {
        SoloRechecks(w, token, NameOf(w, token).value, c);
      }
    }
  }

  /** Either check of the presented token, with the row as it is by then, sets off the delete exactly
      when the token is a reused one; the delete takes the subject's device and ends the rotation. */
  lemma AlarmsExactlyOnReuse(w: World, now: nat, token: Token, name: string)
    requires token.Token?
    ensures Stepped(w, now, token, Arrived).Alarmed? <==> IsReuse(w, token, now)
    ensures Stepped(w, now, token, Known(name)).Alarmed? <==> IsReuse(w, token, now)
    ensures Stepped(w, now, token, Alarmed) == Over(FAILED)
    ensures forall d :: d in SteppedRows(w, token, Alarmed) <==>
      d in w.rows && !(d == token.claims.device && w.rows[d].owner == token.claims.subject)
  {
  }
}
