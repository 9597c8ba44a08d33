/**
 Why the theorems about orderly runs ask for owned deletes and prompt operations: concrete runs,
 orderly in every other respect, in which the newest token is judged revoked or a finished update
 is forgotten.
 */
module CacheCounterexamples {
  import opened Wrappers
  import opened Secrets
  import opened Devices
  import opened CacheProtocol
  import CacheSafety

  ghost predicate StepVia(s: State, e: Event, t: State) {
    Enabled(s, e) && t == Apply(s, e)
  }

  /** The events lead through exactly these states. */
  ghost predicate Plays(b: seq<State>, es: seq<Event>) {
    |b| == |es| + 1 && forall i :: 0 <= i < |es| ==> StepVia(b[i], es[i], b[i + 1])
  }

  /** Every premise of the no-false-alarm theorem but orderliness, and the opposite outcome. */
  ghost predicate FalseAlarm(b: seq<State>, i: nat, id: OpId, d: DeviceId) {
    && i + 1 < |b| && b[0] == INIT && id !in b[i].ops && id in b[i + 1].ops
    && b[i + 1].ops[id].task.Lookup? && b[i + 1].ops[id].task.device == d
    && var s := b[|b| - 1];
       && d in b[i].rows && d in s.rows && CacheSafety.HandedOut(b[i], d, s.rows[d].generation)
       && id in s.ops && s.ops[id].pc.Done? && s.ops[id].pc.answer.Found?
       && s.ops[id].pc.answer.secret.value == s.rows[d].secret
       && s.ops[id].pc.answer.secret.generation != s.rows[d].generation
  }

  lemma Meet(b: seq<State>, es: seq<Event>, c: seq<State>, fs: seq<Event>)
    requires Plays(b, es) && Plays(c, fs) && b[|b| - 1] == c[0]
    ensures Plays(b + c[1..], es + fs)
  {
    var p, gs := b + c[1..], es + fs;
    forall i | 0 <= i < |gs| ensures StepVia(p[i], gs[i], p[i + 1]) {
      if i >= |es| {
        assert p[i] == c[i - |es|] && p[i + 1] == c[i - |es| + 1] && gs[i] == fs[i - |es|];
      }
    }
  }

  const D: DeviceId := "d"
  const READ := Lookup(0, D)
  const FIRST := Row("u", "k", 1)
  const MOVED := Row("v", "k", 1)       // the owner has a new email
  const SECOND := Row("v", "k", 2)
  const LOGOUT := Delete("u", D)        // a token from before names the old one

  const STARTED := Op(READ, 0, 1, Start)
  const LOADED := Op(READ, 0, 1, Carrying(Secret("k", 1), 5, Found(Secret("k", 1), 5), false))
  const STORED := Op(READ, 0, 1, Carrying(Secret("k", 1), 5, Found(Secret("k", 1), 5), true))
  const ANSWERED := Op(READ, 0, 1, Done(Found(Secret("k", 1), 5)))

  // An email changes. A lookup loads generation 1 and stops just before it writes the cache.
  const S1 := State(0, 1, map[D := FIRST], map[], map[], {D}, map[])
  const S2 := S1.(step := 2, rows := map[D := MOVED])
  const S3 := S2.(step := 3, ops := map[0 := STARTED])
  const S4 := S2.(step := 4, ops := map[0 := Op(READ, 0, 1, Missed)])
  const S5 := S2.(step := 5, ops := map[0 := Op(READ, 0, 1, Leading)])
  const S6 := S2.(step := 6, ops := map[0 := LOADED])
  const OPENING := [INIT, S1, S2, S3, S4, S5, S6]
  const OPENING_EVENTS := [Save(D, FIRST), Rename("u", "v"), Begin(0, READ), ReadCache(0), Lead(0), ReadRow(0)]

  lemma Opening()
    ensures Plays(OPENING, OPENING_EVENTS)
  {
    assert StepVia(INIT, Save(D, FIRST), S1);
    assert StepVia(S1, Rename("u", "v"), S2);
    assert StepVia(S2, Begin(0, READ), S3);
    assert StepVia(S3, ReadCache(0), S4);
    assert StepVia(S4, Lead(0), S5);
    assert StepVia(S5, ReadRow(0), S6);
  }

  // A logout with the old email: the row stays, a tombstone stands.
  const A7 := S6.(step := 7, ops := S6.ops[1 := Op(LOGOUT, 0, 0, Start)])
  const A8 := S6.(step := 8, ops := S6.ops[1 := Op(LOGOUT, 0, 0, Burying({D}))])
  const A9 := S6.(step := 9, ops := S6.ops[1 := Op(LOGOUT, 0, 0, Done(Removed))],
                  cache := map[D := Entry(TOMBSTONE, 0, 0, 8)])
  const LOGGED_OUT := [S6, A7, A8, A9]
  const LOGGED_OUT_EVENTS := [Begin(1, LOGOUT), RemoveRows(1), Bury(1, D)]

  lemma LogsOut()
    ensures Plays(LOGGED_OUT, LOGGED_OUT_EVENTS)
  {
    assert StepVia(S6, Begin(1, LOGOUT), A7);
    assert Doomed(A7, LOGOUT) == {};
    assert StepVia(A7, RemoveRows(1), A8);
    assert StepVia(A8, Bury(1, D), A9);
  }

  // The token is rotated to generation 2; the tombstone keeps it out of the cache.
  const RAISED := Carrying(Secret("k", 2), 12, Updated(2, true), false)
  const A10 := A9.(step := 10, ops := A9.ops[2 := Op(Update(D), 0, 0, Start)])
  const A11 := A10.(step := 11, rows := map[D := SECOND], ops := A9.ops[2 := Op(Update(D), 0, 0, Bumped(2, 11))])
  const A12 := A11.(step := 12, ops := A9.ops[2 := Op(Update(D), 0, 0, NeedRow(2))])
  const A13 := A11.(step := 13, ops := A9.ops[2 := Op(Update(D), 0, 0, RAISED)])
  const A14 := A11.(step := 14, ops := A9.ops[2 := Op(Update(D), 0, 0, Done(Updated(2, true)))], floor := map[D := 2])
  const ROTATED := [A9, A10, A11, A12, A13, A14]
  const ROTATED_EVENTS := [Begin(2, Update(D)), Increment(2), ReadCache(2), ReadRow(2), WriteCache(2)]

  lemma RotationIncrements()
    ensures StepVia(A9, Begin(2, Update(D)), A10) && StepVia(A10, Increment(2), A11) && StepVia(A11, ReadCache(2), A12)
  {
  }

  lemma RotationFinishes()
    ensures StepVia(A12, ReadRow(2), A13) && StepVia(A13, WriteCache(2), A14)
  {
  }

  lemma Rotates()
    ensures Plays(ROTATED, ROTATED_EVENTS)
  {
    RotationIncrements();
    RotationFinishes();
  }

  // A lookup for the new token misses, joins the old load and is handed generation 1.
  const A15 := A14.(step := 15, ops := A14.ops[3 := Op(READ, 0, 2, Start)])
  const A16 := A14.(step := 16, ops := A14.ops[3 := Op(READ, 0, 2, Missed)])
  const A17 := A14.(step := 17, ops := A14.ops[3 := Op(READ, 0, 2, Joined(0))])
  const A18 := A14.(step := 18, ops := A17.ops[0 := STORED])
  const A19 := A14.(step := 19, ops := A17.ops[0 := ANSWERED])
  const A20 := A14.(step := 20, ops := A19.ops[3 := Op(READ, 0, 2, Done(Found(Secret("k", 1), 5)))])
  const JOINED := [A14, A15, A16, A17, A18, A19, A20]
  const JOINED_EVENTS := [Begin(3, READ), ReadCache(3), Join(3, 0), WriteCache(0), Finish(0), Receive(3)]

  lemma LookupMisses()
    ensures StepVia(A14, Begin(3, READ), A15) && StepVia(A15, ReadCache(3), A16) && StepVia(A16, Join(3, 0), A17)
  {
  }

  lemma LoadEnds()
    ensures StepVia(A17, WriteCache(0), A18) && StepVia(A18, Finish(0), A19) && StepVia(A19, Receive(3), A20)
  {
  }

  lemma LookupJoins()
    ensures Plays(JOINED, JOINED_EVENTS)
  {
    LookupMisses();
    LoadEnds();
  }

  lemma OldEmailAlarm(b: seq<State>)
    requires |b| == 21 && b[0] == INIT && b[14] == A14 && b[15] == A15 && b[20] == A20
    ensures FalseAlarm(b, 14, 3, D)
  {
    assert A14.ops[2].pc == Done(Updated(2, true));
    assert CacheSafety.HandedOut(A14, D, 2);
  }

  /** In no time at all, a delete that names an outdated owner makes the newest token look reused. */
  lemma OutdatedOwnerRaisesFalseAlarm() returns (b: seq<State>, es: seq<Event>)
    ensures Plays(b, es) && (forall e :: e in es ==> !e.Tick?) && FalseAlarm(b, 14, 3, D)
    ensures b[|b| - 1].rows == map[D := SECOND]
  {
    Opening();
    LogsOut();
    Rotates();
    LookupJoins();
    Meet(OPENING, OPENING_EVENTS, LOGGED_OUT, LOGGED_OUT_EVENTS);
    Meet(ROTATED, ROTATED_EVENTS, JOINED, JOINED_EVENTS);
    var first, firstEvents := OPENING + LOGGED_OUT[1..], OPENING_EVENTS + LOGGED_OUT_EVENTS;
    var second, secondEvents := ROTATED + JOINED[1..], ROTATED_EVENTS + JOINED_EVENTS;
    Meet(first, firstEvents, second, secondEvents);
    b, es := first + second[1..], firstEvents + secondEvents;
    OldEmailAlarm(b);
  }

  // The same start, later: the tombstone stands for six minutes, and the load begins in the sixth.
  const LATE := 5 * MINUTE + MINUTE / 2
  const EXPIRED := 6 * MINUTE

  const C3 := S2.(step := 3, ops := map[1 := Op(LOGOUT, 0, 0, Start)])
  const C4 := S2.(step := 4, ops := map[1 := Op(LOGOUT, 0, 0, Burying({D}))])
  const C5 := S2.(step := 5, ops := map[1 := Op(LOGOUT, 0, 0, Done(Removed))],
                  cache := map[D := Entry(TOMBSTONE, 0, 0, 4)])
  const C6 := C5.(step := 6, now := LATE)
  const C7 := C6.(step := 7, ops := C5.ops[0 := Op(READ, LATE, 1, Start)])
  const C8 := C6.(step := 8, ops := C5.ops[0 := Op(READ, LATE, 1, Missed)])
  const C9 := C6.(step := 9, ops := C5.ops[0 := Op(READ, LATE, 1, Leading)])
  const LATE_LOAD := Carrying(Secret("k", 1), 9, Found(Secret("k", 1), 9), false)
  const LATE_STORED := Carrying(Secret("k", 1), 9, Found(Secret("k", 1), 9), true)
  const C10 := C6.(step := 10, ops := C5.ops[0 := Op(READ, LATE, 1, LATE_LOAD)])
  const BURIED := [INIT, S1, S2, C3, C4, C5]
  const BURIED_EVENTS := [Save(D, FIRST), Rename("u", "v"), Begin(1, LOGOUT), RemoveRows(1), Bury(1, D)]
  const LOADING := [C5, C6, C7, C8, C9, C10]
  const LOADING_EVENTS := [Tick(LATE), Begin(0, READ), ReadCache(0), Lead(0), ReadRow(0)]

  lemma BuriesInVain()
    ensures StepVia(S2, Begin(1, LOGOUT), C3) && StepVia(C3, RemoveRows(1), C4) && StepVia(C4, Bury(1, D), C5)
  {
    assert Doomed(C3, LOGOUT) == {};
  }

  lemma Buries()
    ensures Plays(BURIED, BURIED_EVENTS)
  {
    assert StepVia(INIT, Save(D, FIRST), S1);
    assert StepVia(S1, Rename("u", "v"), S2);
    BuriesInVain();
  }

  lemma LateLookup()
    ensures StepVia(C5, Tick(LATE), C6) && StepVia(C6, Begin(0, READ), C7) && StepVia(C7, ReadCache(0), C8)
  {
  }

  lemma LateLoad()
    ensures StepVia(C8, Lead(0), C9) && StepVia(C9, ReadRow(0), C10)
  {
  }

  lemma LoadsLate()
    ensures Plays(LOADING, LOADING_EVENTS)
  {
    LateLookup();
    LateLoad();
  }

  const C11 := C10.(step := 11, ops := C10.ops[2 := Op(Update(D), LATE, 0, Start)])
  const C12 := C11.(step := 12, rows := map[D := SECOND], ops := C10.ops[2 := Op(Update(D), LATE, 0, Bumped(2, 12))])
  const C13 := C12.(step := 13, ops := C10.ops[2 := Op(Update(D), LATE, 0, NeedRow(2))])
  const LATE_RAISE := Carrying(Secret("k", 2), 13, Updated(2, true), false)
  const C14 := C12.(step := 14, ops := C10.ops[2 := Op(Update(D), LATE, 0, LATE_RAISE)])
  const C15 := C12.(step := 15, ops := C10.ops[2 := Op(Update(D), LATE, 0, Done(Updated(2, true)))],
                    floor := map[D := 2])
  const C16 := C15.(step := 16, now := EXPIRED)
  const C17 := C16.(step := 17, ops := C15.ops[0 := Op(READ, LATE, 1, LATE_STORED)],
                    cache := map[D := Entry(Secret("k", 1), EXPIRED, LATE, 9)])
  const RAISING := [C10, C11, C12, C13, C14, C15]
  const RAISING_EVENTS := [Begin(2, Update(D)), Increment(2), ReadCache(2), ReadRow(2), WriteCache(2)]
  const FORGETTING := [C15, C16, C17]
  const FORGETTING_EVENTS := [Tick(EXPIRED), WriteCache(0)]

  lemma LateIncrement()
    ensures StepVia(C10, Begin(2, Update(D)), C11) && StepVia(C11, Increment(2), C12) && StepVia(C12, ReadCache(2), C13)
  {
  }

  lemma LateFinish()
    ensures StepVia(C13, ReadRow(2), C14) && StepVia(C14, WriteCache(2), C15)
  {
  }

  lemma Forgets()
    ensures Plays(FORGETTING, FORGETTING_EVENTS)
    ensures Prompt(C5, Tick(LATE)) && Prompt(C15, Tick(EXPIRED))
  {
    assert StepVia(C15, Tick(EXPIRED), C16);
    assert StepVia(C16, WriteCache(0), C17);
  }

  /** Every tick of the run leaves the operations in flight within the entry lifetime. */
  ghost predicate AllPrompt(b: seq<State>, es: seq<Event>) {
    |b| == |es| + 1 && forall i :: 0 <= i < |es| ==> Prompt(b[i], es[i])
  }

  lemma MeetPromptly(b: seq<State>, es: seq<Event>, c: seq<State>, fs: seq<Event>)
    requires Plays(b, es) && Plays(c, fs) && b[|b| - 1] == c[0] && AllPrompt(b, es) && AllPrompt(c, fs)
    ensures Plays(b + c[1..], es + fs) && AllPrompt(b + c[1..], es + fs)
  {
    Meet(b, es, c, fs);
    var p, gs := b + c[1..], es + fs;
    forall i | 0 <= i < |gs| ensures Prompt(p[i], gs[i]) {
      if i >= |es| {
        assert p[i] == c[i - |es|] && gs[i] == fs[i - |es|];
      }
    }
  }

  lemma LoadIsLate()
    ensures Plays(BURIED + LOADING[1..], BURIED_EVENTS + LOADING_EVENTS)
    ensures AllPrompt(BURIED + LOADING[1..], BURIED_EVENTS + LOADING_EVENTS)
  {
    Buries();
    LoadsLate();
    Forgets();
    MeetPromptly(BURIED, BURIED_EVENTS, LOADING, LOADING_EVENTS);
  }

  lemma UpdateIsForgotten()
    ensures Plays(RAISING + FORGETTING[1..], RAISING_EVENTS + FORGETTING_EVENTS)
    ensures AllPrompt(RAISING + FORGETTING[1..], RAISING_EVENTS + FORGETTING_EVENTS)
  {
    LateIncrement();
    LateFinish();
    Forgets();
    MeetPromptly(RAISING, RAISING_EVENTS, FORGETTING, FORGETTING_EVENTS);
  }

  /** Prompt operations do not help: the same delete also makes the cache forget a finished update. */
  lemma OutdatedOwnerForgetsAnUpdate() returns (b: seq<State>, es: seq<Event>)
    ensures Plays(b, es) && AllPrompt(b, es) && b[0] == INIT && |b| == 18
    ensures 2 in b[15].ops && b[15].ops[2].task == Update(D) && b[15].ops[2].pc == Done(Updated(2, true))
    ensures D in b[17].rows && Hit(Live(b[17], D)) == Some(Secret("k", 1))
  {
    LoadIsLate();
    UpdateIsForgotten();
    var first, firstEvents := BURIED + LOADING[1..], BURIED_EVENTS + LOADING_EVENTS;
    var second, secondEvents := RAISING + FORGETTING[1..], RAISING_EVENTS + FORGETTING_EVENTS;
    MeetPromptly(first, firstEvents, second, secondEvents);
    b, es := first + second[1..], firstEvents + secondEvents;
    assert b[15] == C15 && b[17] == C17;
  }

  // The third run has no deletes: the rotation is cached, its entry expires, and the load then writes.
  const RAISED_TOO := Carrying(Secret("k", 2), 9, Updated(2, true), false)
  const CACHED := Entry(Secret("k", 2), 0, 0, 9)
  const B7 := S6.(step := 7, ops := S6.ops[1 := Op(Update(D), 0, 0, Start)])
  const B8 := S6.(step := 8, rows := map[D := SECOND], ops := S6.ops[1 := Op(Update(D), 0, 0, Bumped(2, 8))])
  const B9 := B8.(step := 9, ops := S6.ops[1 := Op(Update(D), 0, 0, NeedRow(2))])
  const B10 := B8.(step := 10, ops := S6.ops[1 := Op(Update(D), 0, 0, RAISED_TOO)])
  const B11 := B8.(step := 11, ops := S6.ops[1 := Op(Update(D), 0, 0, Done(Updated(2, true)))],
                   cache := map[D := CACHED], floor := map[D := 2])
  const ROTATION := [S6, B7, B8, B9, B10, B11]
  const ROTATION_EVENTS := [Begin(1, Update(D)), Increment(1), ReadCache(1), ReadRow(1), WriteCache(1)]

  lemma UpdateIncrements()
    ensures StepVia(S6, Begin(1, Update(D)), B7) && StepVia(B7, Increment(1), B8) && StepVia(B8, ReadCache(1), B9)
  {
  }

  lemma UpdateFinishes()
    ensures StepVia(B9, ReadRow(1), B10) && StepVia(B10, WriteCache(1), B11)
  {
  }

  lemma RotationIsCached()
    ensures Plays(ROTATION, ROTATION_EVENTS)
  {
    UpdateIncrements();
    UpdateFinishes();
  }

  const B12 := B11.(step := 12, now := SECRET_TTL)
  const B13 := B12.(step := 13, ops := B11.ops[0 := STORED], cache := map[D := Entry(Secret("k", 1), SECRET_TTL, 0, 5)])
  const B14 := B13.(step := 14, ops := B13.ops[2 := Op(READ, SECRET_TTL, 2, Start)])
  const B15 := B13.(step := 15, ops := B13.ops[2 := Op(READ, SECRET_TTL, 2, Done(Found(Secret("k", 1), 5)))])
  const SLOW_LOAD := [B11, B12, B13, B14, B15]
  const SLOW_LOAD_EVENTS := [Tick(SECRET_TTL), WriteCache(0), Begin(2, READ), ReadCache(2)]

  lemma SlowLoadWrites()
    ensures Plays(SLOW_LOAD, SLOW_LOAD_EVENTS)
  {
    assert StepVia(B11, Tick(SECRET_TTL), B12);
    assert StepVia(B12, WriteCache(0), B13);
    assert StepVia(B13, Begin(2, READ), B14);
    assert StepVia(B14, ReadCache(2), B15);
  }

  lemma SlowLoadsAlarm(b: seq<State>)
    requires |b| == 16 && b[0] == INIT && b[13] == B13 && b[14] == B14 && b[15] == B15
    ensures FalseAlarm(b, 13, 2, D)
  {
    assert B13.ops[1].pc == Done(Updated(2, true));
    assert CacheSafety.HandedOut(B13, D, 2);
  }

  /** Without a single delete, a load slower than the entry lifetime does the same. */
  lemma SlowLoadRaisesFalseAlarm() returns (b: seq<State>, es: seq<Event>)
    ensures Plays(b, es) && (forall e :: e in es ==> !e.RemoveRows?) && FalseAlarm(b, 13, 2, D)
    ensures b[|b| - 1].rows == map[D := SECOND]
  {
    Opening();
    RotationIsCached();
    SlowLoadWrites();
    Meet(OPENING, OPENING_EVENTS, ROTATION, ROTATION_EVENTS);
    var first, firstEvents := OPENING + ROTATION[1..], OPENING_EVENTS + ROTATION_EVENTS;
    Meet(first, firstEvents, SLOW_LOAD, SLOW_LOAD_EVENTS);
    b, es := first + SLOW_LOAD[1..], firstEvents + SLOW_LOAD_EVENTS;
    SlowLoadsAlarm(b);
  }
}
