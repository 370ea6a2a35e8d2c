/** The OTP functions as they run against the Redis keys of one account. */
module OtpService {
  import opened Clock
  import opened Redis
  import opened Wrappers
  import opened OtpModel

  class OtpAccount {
    var code: Option<Entry<Code>>
    var attempts: Option<Counter>
    var cooldown: Option<Entry<bool>>
    var verified: bool
    var clock: int

    constructor (now: int, newCode: Code)
      ensures State() == AtSignup(now, newCode)
    {
      verified, clock := false, now;
      code := Some(Entry(newCode, now + CODE_TTL));
      attempts := Some(Counter(0, Some(now + CODE_TTL)));
      cooldown := Some(Entry(true, now + COOLDOWN));
    }

    function State(): Otp
      reads this
    {
      Otp(code, attempts, cooldown, verified, clock)
    }

    method CreateVerificationCode(newCode: Code)
      modifies `code, `attempts, `cooldown
      ensures State() == CreateCode(old(State()), newCode)
    {
      code := Some(Entry(newCode, clock + CODE_TTL));
      attempts := Some(Counter(0, Some(clock + CODE_TTL)));
      cooldown := Some(Entry(true, clock + COOLDOWN));
    }

    method Incr() returns (value: int)
      modifies `attempts
      ensures attempts == Some(Increment(old(State()))) && value == Increment(old(State())).value
    {
      if CounterLive(State()) {
        value := attempts.value.value + 1;
        attempts := Some(attempts.value.(value := value));
      } else {
        value := 1;
        attempts := Some(Counter(1, None));
      }
    }

    method VerifyOtpCode(submitted: Code) returns (ok: bool)
      modifies `code, `attempts
      ensures State() == CheckCode(old(State()), submitted) && ok == Matches(old(State()), submitted)
    {
      if !CodeLive(State()) {
        return false;
      }
      if submitted == code.value.value {
        code, attempts := None, None;
        return true;
      }
      var newAttempts := Incr();
      if newAttempts >= MAX_ATTEMPTS {
        code, attempts := None, None;
      }
      ok := false;
    }

    /** One request of the account: verify_email, resend_verification, or an email change. */
    method Handle(s: Step)
      modifies this
      ensures State() == Next(old(State()), s)
    {
      clock := clock + s.delay;
      match s.action
      case Verify(submitted) =>
        if !verified {
          var ok := VerifyOtpCode(submitted);
          if ok && s.commits {
            verified := true;
          }
        }
      case Resend(newCode) =>
        if !verified && !CoolingDown(State()) {
          CreateVerificationCode(newCode);
        }
      case ChangeEmail(newCode) =>
        if verified {
          CreateVerificationCode(newCode);
          if s.commits {
            verified := false;
          }
        }
    }
  }
}
