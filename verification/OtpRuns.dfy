/** How many guesses the code, the attempt counter and the cooldown allow over any run. */
module OtpRuns {
  import opened Clock
  import opened Redis
  import opened Wrappers
  import opened OtpModel

  // ---- What a run did ----

  /** A wrong code was compared with a live one. */
  predicate WrongGuess(w: Otp, s: Step) {
    var v := Wait(w, s.delay);
    s.action.Verify? && !v.verified && CodeLive(v) && !Matches(v, s.action.submitted)
  }

  predicate Accepted(w: Otp, s: Step) {
    var v := Wait(w, s.delay);
    s.action.Verify? && !v.verified && Matches(v, s.action.submitted)
  }

  /** A resend that was not refused. */
  predicate Resent(w: Otp, s: Step) {
    var v := Wait(w, s.delay);
    s.action.Resend? && !v.verified && !CoolingDown(v)
  }

  function WrongGuesses(w: Otp, ss: seq<Step>): nat
    decreases ss
  {
    if ss == [] then 0 else (if WrongGuess(w, ss[0]) then 1 else 0) + WrongGuesses(Next(w, ss[0]), ss[1..])
  }

  function Acceptances(w: Otp, ss: seq<Step>): nat
    decreases ss
  {
    if ss == [] then 0 else (if Accepted(w, ss[0]) then 1 else 0) + Acceptances(Next(w, ss[0]), ss[1..])
  }

  function Resends(w: Otp, ss: seq<Step>): nat
    decreases ss
  {
    if ss == [] then 0 else (if Resent(w, ss[0]) then 1 else 0) + Resends(Next(w, ss[0]), ss[1..])
  }

  /** A change of address that was not refused and took effect. */
  predicate Moved(w: Otp, s: Step) {
    s.action.ChangeEmail? && w.verified && s.commits
  }

  function Moves(w: Otp, ss: seq<Step>): nat
    decreases ss
  {
    if ss == [] then 0 else (if Moved(w, ss[0]) then 1 else 0) + Moves(Next(w, ss[0]), ss[1..])
  }

  /** Every code the run sent, also by a change of address that did not take effect. */
  function CodesSent(w: Otp, ss: seq<Step>): nat
    decreases ss
  {
    if ss == [] then 0
    else (if Resent(w, ss[0]) || (ss[0].action.ChangeEmail? && w.verified) then 1 else 0)
         + CodesSent(Next(w, ss[0]), ss[1..])
  }

  // ---- The invariant ----

  /** A stored code comes with a counter of the same lifetime that has counted at most two failures. */
  ghost predicate Sound(w: Otp) {
    w.code.Some? ==>
      w.attempts.Some? && w.attempts.value.expiry == Some(w.code.value.expiry) && 0 <= w.attempts.value.value <= 2
  }

  lemma StepKeepsSound(w: Otp, s: Step)
    requires Sound(w)
    ensures Sound(Next(w, s))
  {
  }

  lemma {:induction false} SoundInEveryRun(w: Otp, ss: seq<Step>)
    requires Sound(w)
    ensures Sound(Run(w, ss))
    decreases ss
  {
    if ss != [] {
      StepKeepsSound(w, ss[0]);
      SoundInEveryRun(Next(w, ss[0]), ss[1..]);
    }
  }

  // ---- Counting ----

  /** Wrong guesses the stored code can still absorb. */
  function Budget(w: Otp): int {
    if CodeLive(w) && w.attempts.Some? then MAX_ATTEMPTS - w.attempts.value.value else 0
  }

  /** What a run can still spend on wrong guesses: a verified account has used at least one try of its code. */
  function Credit(w: Otp): int {
    if w.verified then 1 else Budget(w)
  }

  lemma {:induction false} GuessesWithinCredit(w: Otp, ss: seq<Step>)
    requires Sound(w)
    ensures WrongGuesses(w, ss) <= Credit(w) + 3 * Resends(w, ss) + 2 * Moves(w, ss)
    decreases ss
  {
    if ss != [] {
      StepKeepsSound(w, ss[0]);
      GuessesWithinCredit(Next(w, ss[0]), ss[1..]);
    }
  }

  /** Time still to wait before a resend is allowed. */
  function Remaining(w: Otp): nat {
    if CoolingDown(w) then w.cooldown.value.expiry - w.now else 0
  }

  lemma {:induction false} ResendsAreSpaced(w: Otp, ss: seq<Step>)
    requires Remaining(w) <= COOLDOWN
    ensures Resends(w, ss) > 0 ==>
      Remaining(w) + (Resends(w, ss) - 1) * COOLDOWN <= Run(w, ss).now - w.now
    ensures w.now <= Run(w, ss).now
    decreases ss
  {
    if ss != [] {
      ResendsAreSpaced(Next(w, ss[0]), ss[1..]);
    }
  }

  lemma {:induction false} AcceptedAtMostOnceEach(w: Otp, ss: seq<Step>)
    ensures Acceptances(w, ss) <= (if CodeLive(w) && !w.verified then 1 else 0) + Resends(w, ss) + Moves(w, ss)
    decreases ss
  {
    if ss != [] {
      AcceptedAtMostOnceEach(Next(w, ss[0]), ss[1..]);
    }
  }

  lemma {:induction false} NothingToGuessAt(w: Otp, ss: seq<Step>)
    requires w.verified || !CodeLive(w)
    requires Resends(w, ss) == 0 && Moves(w, ss) == 0
    ensures Acceptances(w, ss) == 0 && WrongGuesses(w, ss) == 0
    decreases ss
  {
    if ss != [] {
      NothingToGuessAt(Next(w, ss[0]), ss[1..]);
    }
  }

  /** An accepted code is gone: without a resend or a change of address nothing is accepted or guessed at again. */
  lemma AcceptedCodeIsGone(w: Otp, s: Step, ss: seq<Step>)
    requires Accepted(w, s)
    requires Resends(Next(w, s), ss) == 0 && Moves(Next(w, s), ss) == 0
    ensures Acceptances(Next(w, s), ss) == 0 && WrongGuesses(Next(w, s), ss) == 0
  {
    NothingToGuessAt(Next(w, s), ss);
  }

  /** Without a new code, a code that is still live has counted every wrong guess of the run. */
  lemma {:induction false} LiveCodeCountsFailures(w: Otp, ss: seq<Step>)
    requires Sound(w) && CodesSent(w, ss) == 0 && CodeLive(Run(w, ss))
    ensures CodeLive(w) && Budget(Run(w, ss)) == Budget(w) - WrongGuesses(w, ss)
    decreases ss
  {
    if ss != [] {
      StepKeepsSound(w, ss[0]);
      LiveCodeCountsFailures(Next(w, ss[0]), ss[1..]);
    }
  }

  /**
   A code is dead once a run without a new code held as many wrong guesses as it had left, three
   at most, however they are spaced and whatever else happened in between.
   */
  lemma ThirdFailureKillsCode(w: Otp, ss: seq<Step>)
    requires Sound(w) && CodesSent(w, ss) == 0
    requires WrongGuesses(w, ss) >= Budget(w)
    ensures Budget(w) <= MAX_ATTEMPTS && !CodeLive(Run(w, ss))
  {
    if CodeLive(Run(w, ss)) {
      LiveCodeCountsFailures(w, ss);
      SoundInEveryRun(w, ss);
    }
  }

  /**
   From account creation, over any run lasting T: at most 3 * (T/60s + 1) wrong codes are compared
   with a live code, plus 2 for each change of address, which sends a code without a cooldown, but
   only after the code before it was accepted; and codes are accepted at most once per code sent.
   */
  lemma GuessBound(now: int, newCode: Code, ss: seq<Step>)
    ensures var w := AtSignup(now, newCode);
            var elapsed := Run(w, ss).now - now;
            && WrongGuesses(w, ss) <= 3 * (elapsed / COOLDOWN + 1) + 2 * Moves(w, ss)
            && Acceptances(w, ss) <= 1 + Resends(w, ss) + Moves(w, ss)
            && Resends(w, ss) <= elapsed / COOLDOWN
  {
    var w := AtSignup(now, newCode);
    GuessesWithinCredit(w, ss);
    ResendsAreSpaced(w, ss);
    AcceptedAtMostOnceEach(w, ss);
    var r := Resends(w, ss);
    var elapsed := Run(w, ss).now - now;
    assert r * COOLDOWN <= elapsed;
    assert r * COOLDOWN / COOLDOWN <= elapsed / COOLDOWN;
  }

  // ---- When a code is accepted ----

  /** The account is unverified and its code has just been sent. */
  ghost predicate JustSent(w: Otp, code: Code) {
    w == CreateCode(w, code) && !w.verified
  }

  /** A code waits for its submission, with `failures` wrong guesses counted. */
  ghost predicate Waiting(w: Otp, entry: Entry<Code>, failures: nat) {
    && w.code == Some(entry) && w.attempts == Some(Counter(failures, Some(entry.expiry)))
    && failures < MAX_ATTEMPTS && !w.verified
  }

  lemma {:induction false} NoCodeStays(w: Otp, ss: seq<Step>)
    requires w.code.None? && CodesSent(w, ss) == 0
    ensures Run(w, ss).code.None?
    decreases ss
  {
    if ss != [] {
      NoCodeStays(Next(w, ss[0]), ss[1..]);
    }
  }

  lemma {:induction false} WaitsIff(w: Otp, ss: seq<Step>, entry: Entry<Code>, failures: nat)
    requires Waiting(w, entry, failures) && CodesSent(w, ss) == 0
    ensures if Acceptances(w, ss) == 0 && failures + WrongGuesses(w, ss) < MAX_ATTEMPTS
            then Waiting(Run(w, ss), entry, failures + WrongGuesses(w, ss))
            else Run(w, ss).code.None?
    decreases ss
  {
    if ss != [] {
      var v, rest := Next(w, ss[0]), ss[1..];
      if Accepted(w, ss[0]) || (WrongGuess(w, ss[0]) && failures + 1 == MAX_ATTEMPTS) {
        NoCodeStays(v, rest);
      } else {
        WaitsIff(v, rest, entry, if WrongGuess(w, ss[0]) then failures + 1 else failures);
      }
    }
  }

  /**
   Whatever was submitted since a code was sent, up to the next one: a submission is accepted iff it is that
   code, within ten minutes, after fewer than three wrong guesses, and none was accepted before.
   */
  lemma AcceptedIff(w: Otp, code: Code, ss: seq<Step>, s: Step)
    requires JustSent(w, code) && CodesSent(w, ss) == 0
    ensures Accepted(Run(w, ss), s) <==>
      && s.action == Verify(code) && Run(w, ss).now + s.delay - w.now < 10 * MINUTE
      && WrongGuesses(w, ss) < 3 && Acceptances(w, ss) == 0
  {
    WaitsIff(w, ss, Entry(code, w.now + CODE_TTL), 0);
  }

  /** The account is verified exactly by a committed acceptance, until it commits to another address. */
  lemma VerifiedIff(w: Otp, s: Step)
    ensures Next(w, s).verified <==> (Accepted(w, s) && s.commits) || (w.verified && !Moved(w, s))
  {
  }

  /** A new code is sent to an unverified account a minute after the last one, or with a change of address. */
  lemma SentIff(w: Otp, s: Step, code: Code)
    requires s.action == Resend(code) || s.action == ChangeEmail(code)
    ensures var v := Wait(w, s.delay);
            var sent := if s.action.Resend? then Resent(w, s) else w.verified;
            && (s.action.Resend? ==> (sent <==> !w.verified && Remaining(w) <= s.delay))
            && (sent ==> JustSent(Next(w, s).(verified := false), code) && Remaining(Next(w, s)) == MINUTE)
            && (!sent ==> Next(w, s) == v)
  {
  }

  // ---- The bound is attained ----

  /** What the cooldown alone would promise. */
  ghost predicate PlainBound(now: int, newCode: Code, ss: seq<Step>) {
    var w := AtSignup(now, newCode);
    WrongGuesses(w, ss) <= 3 * ((Run(w, ss).now - now) / COOLDOWN + 1)
  }

  lemma {:induction false} CountsSplit(w: Otp, a: seq<Step>, b: seq<Step>)
    ensures Run(w, a + b) == Run(Run(w, a), b)
    ensures WrongGuesses(w, a + b) == WrongGuesses(w, a) + WrongGuesses(Run(w, a), b)
    ensures Moves(w, a + b) == Moves(w, a) + Moves(Run(w, a), b)
    decreases a
  {
    if a == [] {
      assert a + b == b;
    } else {
      assert (a + b)[0] == a[0] && (a + b)[1..] == a[1..] + b;
      CountsSplit(Next(w, a[0]), a[1..], b);
    }
  }

  function Submit(code: Code): Step {
    Step(Verify(code), 0, true)
  }

  /** Three wrong codes, after which the code is dead. */
  function Burst(wrong: Code): seq<Step> {
    [Submit(wrong), Submit(wrong), Submit(wrong)]
  }

  /** Two wrong codes and the right one, then another address, to which the next code goes. */
  function Round(code: Code, wrong: Code): seq<Step> {
    [Submit(wrong), Submit(wrong), Submit(code), Step(ChangeEmail(code), 0, true)]
  }

  lemma TwoWrong(w: Otp, code: Code, wrong: Code)
    requires JustSent(w, code) && wrong != code
    ensures var g := Submit(wrong);
            var v := Next(Next(w, g), g);
            && WrongGuess(w, g) && WrongGuess(Next(w, g), g)
            && v == w.(attempts := v.attempts) && CounterLive(v) && v.attempts.value.value == 2
  {
  }

  lemma BurstCounts(w: Otp, code: Code, wrong: Code)
    requires JustSent(w, code) && wrong != code
    ensures WrongGuesses(w, Burst(wrong)) == 3 && Moves(w, Burst(wrong)) == 0
    ensures Run(w, Burst(wrong)) == w.(code := None, attempts := None)
  {
    var g := Submit(wrong);
    TwoWrong(w, code, wrong);
    var w1 := Next(w, g);
    var w2 := Next(w1, g);
    assert Burst(wrong)[1..] == [g, g] && [g, g][1..] == [g] && [g][1..] == [];
    assert Run(w, Burst(wrong)) == Run(w1, [g, g]) == Run(w2, [g]) == Run(Next(w2, g), []);
    assert WrongGuesses(w1, [g, g]) == 1 + WrongGuesses(w2, [g]);
    assert WrongGuesses(w2, [g]) == 1 + WrongGuesses(Next(w2, g), []);
    assert Moves(w1, [g, g]) == Moves(w2, [g]) == Moves(Next(w2, g), []);
  }

  lemma RoundCounts(w: Otp, code: Code, wrong: Code)
    requires JustSent(w, code) && wrong != code
    ensures WrongGuesses(w, Round(code, wrong)) == 2 && Moves(w, Round(code, wrong)) == 1
    ensures Run(w, Round(code, wrong)) == w
  {
    var g, right, move := Submit(wrong), Submit(code), Step(ChangeEmail(code), 0, true);
    TwoWrong(w, code, wrong);
    var w1 := Next(w, g);
    var w2 := Next(w1, g);
    var w3 := Next(w2, right);
    var w4 := Next(w3, move);
    assert w3 == w.(code := None, attempts := None, verified := true) && w4 == w;
    assert Round(code, wrong)[1..] == [g, right, move] && [g, right, move][1..] == [right, move];
    assert [right, move][1..] == [move] && [move][1..] == [];
    assert Run(w, Round(code, wrong)) == Run(w1, [g, right, move]) == Run(w2, [right, move]);
    assert Run(w2, [right, move]) == Run(w3, [move]) == Run(w4, []);
    assert WrongGuesses(w1, [g, right, move]) == 1 + WrongGuesses(w2, [right, move]);
    assert WrongGuesses(w2, [right, move]) == WrongGuesses(w3, [move]) == WrongGuesses(w4, []);
    assert Moves(w1, [g, right, move]) == Moves(w2, [right, move]) == Moves(w3, [move]) == 1 + Moves(w4, []);
  }

  /** Rounds with changes of address first, then bursts with a resend after each cooldown. */
  function Attack(code: Code, wrong: Code, resends: nat, moves: nat): seq<Step>
    decreases moves + resends
  {
    if moves > 0 then Round(code, wrong) + Attack(code, wrong, resends, moves - 1)
    else if resends > 0 then
      Burst(wrong) + ([Step(Resend(code), COOLDOWN, true)] + Attack(code, wrong, resends - 1, 0))
    else Burst(wrong)
  }

  lemma {:induction false} AttackCounts(w: Otp, code: Code, wrong: Code, resends: nat, moves: nat)
    requires JustSent(w, code) && wrong != code
    ensures var ss := Attack(code, wrong, resends, moves);
            && WrongGuesses(w, ss) == 3 * (resends + 1) + 2 * moves
            && Run(w, ss).now == w.now + resends * COOLDOWN && Moves(w, ss) == moves
    decreases moves + resends
  {
    if moves > 0 {
      RoundCounts(w, code, wrong);
      CountsSplit(w, Round(code, wrong), Attack(code, wrong, resends, moves - 1));
      AttackCounts(w, code, wrong, resends, moves - 1);
    } else {
      BurstCounts(w, code, wrong);
      if resends > 0 {
        ResendAfterBurst(w, code, wrong, Attack(code, wrong, resends - 1, 0));
        var v := Next(Run(w, Burst(wrong)), Step(Resend(code), COOLDOWN, true));
        AttackCounts(v, code, wrong, resends - 1, 0);
      }
    }
  }

  lemma ResendAfterBurst(w: Otp, code: Code, wrong: Code, rest: seq<Step>)
    requires JustSent(w, code) && wrong != code
    ensures var resend := Step(Resend(code), COOLDOWN, true);
            var v := Next(Run(w, Burst(wrong)), resend);
            var ss := Burst(wrong) + ([resend] + rest);
            && JustSent(v, code) && v.now == w.now + COOLDOWN && Run(w, ss) == Run(v, rest)
            && WrongGuesses(w, ss) == 3 + WrongGuesses(v, rest) && Moves(w, ss) == Moves(v, rest)
  {
    var resend := Step(Resend(code), COOLDOWN, true);
    BurstCounts(w, code, wrong);
    CountsSplit(w, Burst(wrong), [resend] + rest);
    assert ([resend] + rest)[1..] == rest;
  }

  /**
   Two wrong codes and the right one, another address, three wrong codes: five wrong guesses in no
   time, where the cooldown alone promises three.
   */
  lemma ChangeOfAddressBuysGuesses(now: int, newCode: Code)
    ensures var ss := Round(newCode, newCode + 1) + Burst(newCode + 1);
            var w := AtSignup(now, newCode);
            && Run(w, ss).now == now && WrongGuesses(w, ss) == 5 && !PlainBound(now, newCode, ss)
  {
    AttackCounts(AtSignup(now, newCode), newCode, newCode + 1, 0, 1);
    assert Attack(newCode, newCode + 1, 0, 0) == Burst(newCode + 1);
  }

  /** The bound of GuessBound is attained, for every number of cooldowns waited and of changes of address. */
  lemma GuessBoundIsTight(now: int, newCode: Code, resends: nat, moves: nat)
    ensures var ss := Attack(newCode, newCode + 1, resends, moves);
            var w := AtSignup(now, newCode);
            && Run(w, ss).now - now == resends * COOLDOWN && Moves(w, ss) == moves
            && WrongGuesses(w, ss) == 3 * ((Run(w, ss).now - now) / COOLDOWN + 1) + 2 * Moves(w, ss)
  {
    AttackCounts(AtSignup(now, newCode), newCode, newCode + 1, resends, moves);
    assert resends * COOLDOWN / COOLDOWN == resends;
  }

  /** The cooldown alone bounds the guesses of all runs with a given number of changes of address iff there are none. */
  lemma PlainBoundIff(now: int, newCode: Code, moves: nat)
    ensures (forall ss :: Moves(AtSignup(now, newCode), ss) == moves ==> PlainBound(now, newCode, ss)) <==> moves == 0
  {
    if moves == 0 {
      forall ss | Moves(AtSignup(now, newCode), ss) == moves ensures PlainBound(now, newCode, ss) {
        GuessBound(now, newCode, ss);
      }
    } else {
      GuessBoundIsTight(now, newCode, 0, moves);
      assert !PlainBound(now, newCode, Attack(newCode, newCode + 1, 0, moves));
    }
  }
}
