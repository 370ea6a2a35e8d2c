/** What skips the second factor: for how long a remembered device does, and that a linked identity always does. */
module MfaTrust {
  import opened Clock
  import opened Redis
  import opened Wrappers
  import opened MfaModel
  import opened MfaRuns
  import opened MfaProvenance

  // ---- How long a device is remembered ----

  /** A remembered device goes only when it is looked up after its time; a new trust prolongs it. */
  lemma DeviceStays(v: World, rq: Request, user: UserId, device: Device)
    requires user in v.users && device in v.users[user].devices && v.now + rq.delay <= v.users[user].devices[device]
    requires v.users[user].devices[device] <= v.now + DEVICE_TTL
    ensures user in Step(v, rq).users && device in Step(v, rq).users[user].devices
    ensures v.users[user].devices[device] <= Step(v, rq).users[user].devices[device]
  {
    if !Answer(v, rq).Raised() {
      UsersStay(v, rq, user);
      if rq.op.MfaVerify? {
        VerifyKeepsDevice(v, rq, user, device);
      } else if !rq.op.Login? {
        DevicesUntouched(v, rq, user);
      }
    }
  }

  lemma VerifyKeepsDevice(v: World, rq: Request, user: UserId, device: Device)
    requires rq.op.MfaVerify? && user in v.users && device in v.users[user].devices
    requires v.users[user].devices[device] <= v.now + DEVICE_TTL
    ensures user in AttemptOf(v, rq).users && device in AttemptOf(v, rq).users[user].devices
    ensures v.users[user].devices[device] <= AttemptOf(v, rq).users[user].devices[device]
  {
  }

  lemma UsersStay(v: World, rq: Request, user: UserId)
    requires user in v.users
    ensures user in AttemptOf(v, rq).users
  {
  }

  /** Device rows last at most thirty days from now. */
  ghost predicate DevicesBounded(w: World) {
    forall u, d :: u in w.users && d in w.users[u].devices ==> w.users[u].devices[d] <= w.now + DEVICE_TTL
  }

  lemma StepKeepsBounded(w: World, rq: Request)
    requires DevicesBounded(w)
    ensures DevicesBounded(Step(w, rq))
  {
    var v := Step(w, rq);
    forall u, d | u in v.users && d in v.users[u].devices
      ensures v.users[u].devices[d] <= v.now + DEVICE_TTL
    {
      DeviceStep(w, rq, u, d);
    }
  }

  lemma {:induction false} TimeMovesForward(w: World, rqs: seq<Request>)
    ensures w.now <= Run(w, rqs).now
    decreases rqs
  {
    if rqs != [] {
      TimeMovesForward(Step(w, rqs[0]), rqs[1..]);
    }
  }

  lemma {:induction false} DeviceKept(w: World, rqs: seq<Request>, user: UserId, device: Device, expiry: int)
    requires DevicesBounded(w) && user in w.users && device in w.users[user].devices
    requires Run(w, rqs).now <= expiry <= w.users[user].devices[device]
    ensures user in Run(w, rqs).users && device in Run(w, rqs).users[user].devices
    ensures expiry <= Run(w, rqs).users[user].devices[device]
    decreases rqs
  {
    if rqs != [] {
      TimeMovesForward(Step(w, rqs[0]), rqs[1..]);
      StepKeepsBounded(w, rqs[0]);
      DeviceStays(w, rqs[0], user, device);
      DeviceKept(Step(w, rqs[0]), rqs[1..], user, device, expiry);
    }
  }

  lemma {:induction false} BoundedInEveryRun(w: World, rqs: seq<Request>)
    requires DevicesBounded(w)
    ensures DevicesBounded(Run(w, rqs))
    decreases rqs
  {
    if rqs != [] {
      StepKeepsBounded(w, rqs[0]);
      BoundedInEveryRun(Step(w, rqs[0]), rqs[1..]);
    }
  }

  lemma TrustStores(v: World, rq: Request, user: UserId, device: Device)
    requires rq.op.MfaVerify? && rq.op.trust == Some(device) && Answer(v, rq) == TokensIssued(user)
    ensures user in Step(v, rq).users && device in Step(v, rq).users[user].devices
    ensures Step(v, rq).users[user].devices[device] == v.now + rq.delay + DEVICE_TTL
  {
  }

  lemma TrustedAfterAsking(w: World, rqs: seq<Request>, i: nat, device: Device, user: UserId, at: int)
    requires IsEmpty(w) && Run(w, rqs).now <= at && TrustAsked(w, rqs, i, device, user, at)
    ensures user in Run(w, rqs).users && Trusted(Run(w, rqs).users[user], Some(device), at)
  {
    var v := Before(w, rqs, i);
    TrustStores(v, rqs[i], user, device);
    BoundedInEveryRun(w, rqs[..i]);
    StepKeepsBounded(v, rqs[i]);
    RunAfter(w, rqs, i);
    DeviceKept(Step(v, rqs[i]), rqs[i + 1..], user, device, at);
  }

  lemma RunAfter(w: World, rqs: seq<Request>, i: nat)
    requires i < |rqs|
    ensures Run(w, rqs) == Run(Step(Before(w, rqs, i), rqs[i]), rqs[i + 1..])
  {
    assert rqs == rqs[..i] + rqs[i..] && rqs[i..][0] == rqs[i] && rqs[i..][1..] == rqs[i + 1..];
    RunSplits(w, rqs[..i], rqs[i..]);
  }

  /**
   Exactly when a device counts as trusted, in every run from the empty system: an MFA login of that user
   asked to trust it within the thirty days before. Nothing that happened since matters, be it
   disabling MFA, enrolling again, a password reset or the revocation of all sessions.
   */
  lemma TrustedIff(w: World, rqs: seq<Request>, device: Device, user: UserId, at: int)
    requires IsEmpty(w) && Run(w, rqs).now <= at && user in Run(w, rqs).users
    ensures Trusted(Run(w, rqs).users[user], Some(device), at) <==> exists i :: TrustAsked(w, rqs, i, device, user, at)
  {
    if Trusted(Run(w, rqs).users[user], Some(device), at) {
      var i := DeviceWasTrusted(w, rqs, device, user, at);
    }
    if exists i :: TrustAsked(w, rqs, i, device, user, at) {
      var i :| TrustAsked(w, rqs, i, device, user, at);
      TrustedAfterAsking(w, rqs, i, device, user, at);
    }
  }

  // ---- Concrete runs, one request at a time ----

  function Put(v: World, user: UserId, u: User): World {
    v.(users := v.users[user := u])
  }

  lemma Disabling(v: World, user: UserId, code: string)
    requires user in v.users && v.users[user].verified && v.users[user].enabled && v.users[user].hasSecret
    ensures Step(v, Request(Disable(user, code, true), 0, true))
         == Put(v, user, v.users[user].(enabled := false, hasSecret := false, backups := []))
  {
  }

  lemma Resetting(v: World, user: UserId)
    requires user in v.users
    ensures Step(v, Request(ResetPassword(user), 0, true)) == v
  {
  }

  lemma Beginning(v: World, user: UserId)
    requires user in v.users && v.users[user].verified && !v.users[user].enabled
    ensures Step(v, Request(BeginEnrollment(user), 0, true)) == Put(v, user, v.users[user].(hasSecret := true))
  {
  }

  lemma Confirming(v: World, user: UserId, raws: seq<string>)
    requires user in v.users && v.users[user].verified && !v.users[user].enabled && v.users[user].hasSecret
    ensures Step(v, Request(ConfirmEnrollment(user, true, raws), 0, true))
         == Put(v, user, v.users[user].(enabled := true, backups := NewRows(raws)))
  {
  }

  lemma Verifying(v: World, user: UserId)
    requires user in v.users
    ensures Step(v, Request(VerifyEmail(user), 0, true)) == Put(v, user, v.users[user].(verified := true))
  {
  }

  lemma Enforcing(v: World, user: UserId)
    requires user in v.users
    ensures Step(v, Request(SetEnforced(user, true), 0, true)) == Put(v, user, v.users[user].(enforced := true))
  {
  }

  lemma FirstSignIn(v: World, identity: Identity, user: UserId)
    requires identity !in v.identities && user !in v.users
    ensures Step(v, Request(OAuthSignIn(identity, user, false, 1), 0, true))
         == Put(v, user, FreshUser()).(identities := v.identities[identity := user], minted := v.minted + {1})
  {
  }

  lemma RunCons(w: World, rq: Request, rest: seq<Request>)
    ensures Run(w, [rq] + rest) == Run(Step(w, rq), rest)
  {
    assert ([rq] + rest)[1..] == rest;
  }

  function Enrolling(user: UserId, raws: seq<string>): seq<Request> {
    [Request(BeginEnrollment(user), 0, true)] + ([Request(ConfirmEnrollment(user, true, raws), 0, true)] + [])
  }

  lemma EnrollingLeaves(v: World, user: UserId, raws: seq<string>)
    requires user in v.users && v.users[user].verified && !v.users[user].enabled
    ensures Run(v, Enrolling(user, raws))
         == Put(v, user, v.users[user].(enabled := true, hasSecret := true, backups := NewRows(raws)))
  {
    var begin := Request(BeginEnrollment(user), 0, true);
    var confirm := Request(ConfirmEnrollment(user, true, raws), 0, true);
    Beginning(v, user);
    Confirming(Step(v, begin), user, raws);
    RunCons(v, begin, [confirm] + []);
    RunCons(Step(v, begin), confirm, []);
  }

  /** Turn MFA off, reset the password, and turn MFA on again. */
  function Reenrolling(user: UserId, code: string, raws: seq<string>): seq<Request> {
    [Request(Disable(user, code, true), 0, true)] + ([Request(ResetPassword(user), 0, true)] + Enrolling(user, raws))
  }

  lemma ReenrollingLeaves(v: World, user: UserId, code: string, raws: seq<string>)
    requires user in v.users && v.users[user].verified && v.users[user].enabled && v.users[user].hasSecret
    ensures Run(v, Reenrolling(user, code, raws)) == Put(v, user, v.users[user].(backups := NewRows(raws)))
  {
    var disable, reset := Request(Disable(user, code, true), 0, true), Request(ResetPassword(user), 0, true);
    var off := Step(v, disable);
    Disabling(v, user, code);
    Resetting(off, user);
    RunCons(v, disable, [reset] + Enrolling(user, raws));
    RunCons(off, reset, Enrolling(user, raws));
    EnrollingLeaves(off, user, raws);
  }

  /** So a device trusted before still skips the second factor of the new enrolment, in every such state. */
  lemma OldTrustSkipsNewEnrolment(v: World, user: UserId, code: string, raws: seq<string>, device: Device, k: MfaToken)
    requires user in v.users && v.users[user].active && v.users[user].verified && !v.users[user].enforced
    requires v.users[user].enabled && v.users[user].hasSecret && Trusted(v.users[user], Some(device), v.now)
    ensures var later := Run(v, Reenrolling(user, code, raws));
            && user in later.users && later.users[user].enabled && later.users[user].backups == NewRows(raws)
            && Answer(later, Request(Login(user, true, Some(device), k), 0, true)) == TokensIssued(user)
  {
    ReenrollingLeaves(v, user, code, raws);
  }

  // ---- Sign-in by provider under enforcement ----

  /** Requests that leave an account with MFA enabled in an enforcing tenant. */
  function EnrolledByProvider(identity: Identity, user: UserId, raws: seq<string>): seq<Request> {
    [Request(OAuthSignIn(identity, user, false, 1), 0, true)]
    + ([Request(VerifyEmail(user), 0, true)]
       + (Enrolling(user, raws) + ([Request(SetEnforced(user, true), 0, true)] + [])))
  }

  /** A linked identity gets tokens without a second factor although MFA is enabled and a tenant enforces it. */
  lemma ProviderSkipsEnforcedMfa(w: World, identity: Identity, user: UserId, raws: seq<string>)
    requires IsEmpty(w)
    ensures var v := Run(w, EnrolledByProvider(identity, user, raws));
            && user in v.users && v.users[user].enabled && v.users[user].enforced
            && Answer(v, Request(OAuthSignIn(identity, user, false, 2), 0, true)) == TokensIssued(user)
  {
    var signIn, verify := Request(OAuthSignIn(identity, user, false, 1), 0, true), Request(VerifyEmail(user), 0, true);
    var enforce := Request(SetEnforced(user, true), 0, true);
    var w1 := Step(w, signIn);
    var w2 := Step(w1, verify);
    var w3 := Run(w2, Enrolling(user, raws));
    FirstSignIn(w, identity, user);
    Verifying(w1, user);
    EnrollingLeaves(w2, user, raws);
    Enforcing(w3, user);
    RunCons(w, signIn, [verify] + (Enrolling(user, raws) + ([enforce] + [])));
    RunCons(w1, verify, Enrolling(user, raws) + ([enforce] + []));
    RunSplits(w2, Enrolling(user, raws), [enforce] + []);
    RunCons(w3, enforce, []);
    LinkedSignIn(Step(w3, enforce), identity, user);
  }

  lemma LinkedSignIn(v: World, identity: Identity, user: UserId)
    requires identity in v.identities && v.identities[identity] == user && user in v.users
    ensures Answer(v, Request(OAuthSignIn(identity, user, false, 2), 0, true)) == TokensIssued(user)
  {
  }
}
