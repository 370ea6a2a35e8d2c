/**
 The email-verification code of one account: a code, an attempt counter and a resend cooldown,
 three Redis keys with their own lifetimes.
 */
module OtpModel {
  import opened Clock
  import opened Redis
  import opened Wrappers

  type Code = nat

  const CODE_TTL: int := 600 * SECOND
  const COOLDOWN: int := 60 * SECOND
  const MAX_ATTEMPTS := 3

  /** INCR creates a missing counter without an expiry, hence the Option. */
  datatype Counter = Counter(value: int, expiry: Option<int>)

  datatype Otp = Otp(
    code: Option<Entry<Code>>,
    attempts: Option<Counter>,
    cooldown: Option<Entry<bool>>,
    verified: bool,
    now: int)

  datatype Action =
    | Verify(submitted: Code)
    | Resend(newCode: Code)
    | ChangeEmail(newCode: Code)

  /** A request arrives `delay` after the last one; `commits` is false when its SQL is lost. */
  datatype Step = Step(action: Action, delay: nat, commits: bool)

  function Wait(w: Otp, delay: nat): Otp {
    w.(now := w.now + delay)
  }

  predicate CodeLive(w: Otp) {
    w.code.Some? && w.now < w.code.value.expiry
  }

  predicate CounterLive(w: Otp) {
    w.attempts.Some? && (w.attempts.value.expiry.None? || w.now < w.attempts.value.expiry.value)
  }

  predicate CoolingDown(w: Otp) {
    w.cooldown.Some? && w.now < w.cooldown.value.expiry
  }

  function CreateCode(w: Otp, newCode: Code): Otp {
    w.(code := Some(Entry(newCode, w.now + CODE_TTL)),
       attempts := Some(Counter(0, Some(w.now + CODE_TTL))),
       cooldown := Some(Entry(true, w.now + COOLDOWN)))
  }

  function Increment(w: Otp): Counter {
    if CounterLive(w) then w.attempts.value.(value := w.attempts.value.value + 1) else Counter(1, None)
  }

  /** The keys after `verify_otp_code`; the answer is whether the code was live and equal. */
  function CheckCode(w: Otp, submitted: Code): Otp {
    if !CodeLive(w) then w
    else if submitted == w.code.value.value then w.(code := None, attempts := None)
    else if Increment(w).value >= MAX_ATTEMPTS then w.(code := None, attempts := None)
    else w.(attempts := Some(Increment(w)))
  }

  predicate Matches(w: Otp, submitted: Code) {
    CodeLive(w) && submitted == w.code.value.value
  }

  /** The route of an address change admits verified accounts only. */
  function Next(w: Otp, s: Step): Otp {
    var v := Wait(w, s.delay);
    match s.action
    case Verify(submitted) =>
      if v.verified then v
      else CheckCode(v, submitted).(verified := Matches(v, submitted) && s.commits)
    case Resend(newCode) =>
      if v.verified || CoolingDown(v) then v else CreateCode(v, newCode)
    case ChangeEmail(newCode) =>
      if !v.verified then v else CreateCode(v, newCode).(verified := !s.commits)
  }

  function Run(w: Otp, ss: seq<Step>): Otp
    decreases ss
  {
    if ss == [] then w else Run(Next(w, ss[0]), ss[1..])
  }

  function AtSignup(now: int, newCode: Code): Otp {
    CreateCode(Otp(None, None, None, false, now), newCode)
  }
}
