/** Where the tokens of an account can come from, over any run from the empty system. */
module MfaProvenance {
  import opened Clock
  import opened Redis
  import opened Wrappers
  import opened MfaModel
  import opened MfaRuns

  predicate IsEmpty(w: World) {
    w.users == map[] && w.identities == map[] && w.keys == Keys(map[], map[], map[])
  }

  // ---- One request ----

  /** The request shows a second factor of `user`: a valid TOTP code or an unredeemed backup code. */
  ghost predicate ShowsSecondFactor(v: World, rq: Request, user: UserId) {
    && rq.op.MfaVerify? && user in v.users && v.users[user].hasSecret
    && !Replayed(v.keys.lastCode, v.now + rq.delay, user, rq.op.code)
    && var rows := v.users[user].backups;
    (rq.op.totpOk || exists i :: 0 <= i < |rows| && Redeems(rows[i], Strip(rq.op.code)))
  }

  /** A password login of an account without MFA, allowed only where no tenant enforces it. */
  ghost predicate ByPasswordAlone(v: World, rq: Request, user: UserId) {
    Authentic(v, rq, user) && !v.users[user].enforced && !v.users[user].enabled
  }

  /** A password login from a device remembered for this user, allowed only where no tenant enforces MFA. */
  ghost predicate FromTrustedDevice(v: World, rq: Request, user: UserId) {
    Authentic(v, rq, user) && !v.users[user].enforced && Trusted(v.users[user], rq.op.device, v.now + rq.delay)
  }

  /** A sign-in by a provider identity linked to this user. */
  ghost predicate ByLinkedIdentity(v: World, rq: Request, user: UserId) {
    && rq.op.OAuthSignIn? && user in v.users
    && rq.op.identity in v.identities && v.identities[rq.op.identity] == user
  }

  /** The first sign-in by an identity nobody has, with an address nobody has. */
  ghost predicate ByNewIdentity(v: World, rq: Request, user: UserId) {
    rq.op.OAuthSignIn? && rq.op.account == user && user !in v.users && rq.op.identity !in v.identities
  }

  /** The completion of a link, with the password of this user. */
  ghost predicate ByLinking(v: World, rq: Request, user: UserId) {
    && rq.op.ConfirmLink? && rq.op.passwordOk && user in v.users
    && Live(v.keys.links, rq.op.token, v.now + rq.delay)
    && v.keys.links[rq.op.token].value.user == user && !LinkTaken(v.identities, v.keys.links[rq.op.token].value)
  }

  lemma VerifyIssuesIff(v: World, rq: Request, user: UserId)
    requires rq.op.MfaVerify?
    ensures Answer(v, rq) == TokensIssued(user) <==>
      (rq.commits && AwaitsCode(v, rq.op.token, user, rq.delay) && ShowsSecondFactor(v, rq, user))
  {
    if user in v.users {
      RedeemIsExact(v.users[user].backups, Strip(rq.op.code), "");
      MatchingRowsExist(v.users[user].backups, Strip(rq.op.code));
    }
  }

  /** Confirming a link succeeds iff the identity is free and the account has none of the same provider. */
  lemma LinkingIssuesIff(v: World, rq: Request, user: UserId)
    requires rq.op.ConfirmLink?
    ensures Answer(v, rq) == TokensIssued(user) <==> rq.commits && ByLinking(v, rq, user)
  {
  }

  /** So a second provider can be linked to an account that has one. */
  lemma SecondProviderIsLinked()
    ensures var held := Entry(PendingLink(5, Identity(2, 8)), PENDING_TTL);
            var v := World(map[5 := FreshUser()], map[Identity(1, 7) := 5], Keys(map[], map[], map[3 := held]), 0, {3});
            var rq := Request(ConfirmLink(3, true), 0, true);
            && Answer(v, rq) == TokensIssued(5)
            && Step(v, rq).identities == map[Identity(1, 7) := 5, Identity(2, 8) := 5]
  {
  }

  /**
   Exactly these kinds of request issue tokens, and only the first shows a second factor: a code against a
   pending token, the password from a trusted device, a linked identity, a new link; and for accounts without
   MFA the password alone, or the identity that creates the account.
   */
  lemma IssuesIff(v: World, rq: Request, user: UserId)
    ensures Answer(v, rq) == TokensIssued(user) <==>
      (rq.commits
       && ((rq.op.MfaVerify? && AwaitsCode(v, rq.op.token, user, rq.delay) && ShowsSecondFactor(v, rq, user))
           || FromTrustedDevice(v, rq, user) || ByLinkedIdentity(v, rq, user) || ByLinking(v, rq, user)
           || ByPasswordAlone(v, rq, user) || ByNewIdentity(v, rq, user)))
  {
    match rq.op
    case MfaVerify(_, _, _, _) => VerifyIssuesIff(v, rq, user);
    case Login(_, _, _, _) => LoginIssuesIff(v, rq, user);
    case OAuthSignIn(_, _, _, _) =>
    case ConfirmLink(_, _) => LinkingIssuesIff(v, rq, user);
    case _ =>
  }

  // ---- Whole runs ----

  /** The state before request `i` of the run. */
  ghost function Before(w: World, rqs: seq<Request>, i: nat): World
    requires i < |rqs|
  {
    Run(w, rqs[..i])
  }

  /** Request `i` was a login of `user` with the correct password, and pending token `k` was held for it. */
  ghost predicate PasswordShown(w: World, rqs: seq<Request>, i: nat, k: MfaToken, user: UserId, at: int) {
    && i < |rqs| && rqs[i].op.Login? && rqs[i].op.passwordOk && rqs[i].op.user == user
    && AttemptOf(Before(w, rqs, i), rqs[i]).outcome == Pending(k)
    && at <= Before(w, rqs, i).now + rqs[i].delay + PENDING_TTL
  }

  /** Request `i` issued tokens to `user` by MFA and asked to trust `device`, at most thirty days before `at`. */
  ghost predicate TrustAsked(w: World, rqs: seq<Request>, i: nat, device: Device, user: UserId, at: int) {
    && i < |rqs| && rqs[i].op.MfaVerify? && rqs[i].op.trust == Some(device)
    && Answer(Before(w, rqs, i), rqs[i]) == TokensIssued(user)
    && at <= Before(w, rqs, i).now + rqs[i].delay + DEVICE_TTL
  }

  /** Request `i` tied `identity` to `user`: by creating the account, or by a link confirmed with its password. */
  ghost predicate Tied(w: World, rqs: seq<Request>, i: nat, identity: Identity, user: UserId) {
    && i < |rqs| && Answer(Before(w, rqs, i), rqs[i]) == TokensIssued(user)
    && identity !in Before(w, rqs, i).identities
    && ((rqs[i].op.OAuthSignIn? && rqs[i].op.identity == identity && user !in Before(w, rqs, i).users)
        || (rqs[i].op.ConfirmLink? && rqs[i].op.passwordOk))
  }

  /** Request `i` signed in by an unknown identity with this user's address, and link token `k` was held for both. */
  ghost predicate LinkAsked(w: World, rqs: seq<Request>, i: nat, k: MfaToken, user: UserId, at: int) {
    && i < |rqs| && rqs[i].op.OAuthSignIn? && rqs[i].op.account == user && rqs[i].op.hasPassword
    && AttemptOf(Before(w, rqs, i), rqs[i]).outcome == LinkPending(k)
    && rqs[i].op.identity !in Before(w, rqs, i).identities
    && at <= Before(w, rqs, i).now + rqs[i].delay + PENDING_TTL
  }

  /** The run without its last request, and that request. */
  lemma LastOf(w: World, rqs: seq<Request>)
    requires rqs != []
    ensures var init := rqs[..|rqs| - 1];
            Run(w, rqs) == Step(Run(w, init), rqs[|rqs| - 1]) && forall i :: 0 <= i < |init| ==> rqs[..i] == init[..i]
  {
    var init := rqs[..|rqs| - 1];
    var last := rqs[|rqs| - 1];
    assert rqs == init + [last];
    RunSplits(w, init, [last]);
    assert Run(Run(w, init), [last]) == Run(Step(Run(w, init), last), []);
  }

  lemma {:induction false} PendingWasHeld(w: World, rqs: seq<Request>, k: MfaToken, user: UserId, at: int)
    returns (i: nat)
    requires IsEmpty(w) && k in Run(w, rqs).keys.pending
    requires Run(w, rqs).keys.pending[k].value == PendingLogin(user, false) && at <= Run(w, rqs).keys.pending[k].expiry
    ensures PasswordShown(w, rqs, i, k, user, at)
    decreases |rqs|
  {
    LastOf(w, rqs);
    var init := rqs[..|rqs| - 1];
    var v := Run(w, init);
    var last := rqs[|rqs| - 1];
    PendingStep(v, last, k);
    if Holds(v, last, k, Run(w, rqs).keys.pending[k]) {
      i := |init|;
    } else {
      i := PendingWasHeld(w, init, k, user, at);
    }
  }

  /** A device is remembered only by an MFA login of that user that asked for it. */
  lemma DeviceStep(v: World, rq: Request, user: UserId, device: Device)
    requires user in Step(v, rq).users && device in Step(v, rq).users[user].devices
    ensures var expiry := Step(v, rq).users[user].devices[device];
            || (user in v.users && device in v.users[user].devices && v.users[user].devices[device] == expiry)
            || (rq.op.MfaVerify? && rq.op.trust == Some(device) && Answer(v, rq) == TokensIssued(user)
                && expiry == v.now + rq.delay + DEVICE_TTL)
  {
    if !Answer(v, rq).Raised() {
      match rq.op
      case MfaVerify(_, _, _, _) =>
      case Login(_, _, _, _) =>
      case _ => DevicesUntouched(v, rq, user);
    }
  }

  lemma DevicesUntouched(v: World, rq: Request, user: UserId)
    requires !rq.op.MfaVerify? && !rq.op.Login? && user in AttemptOf(v, rq).users
    ensures AttemptOf(v, rq).users[user].devices == if user in v.users then v.users[user].devices else map[]
  {
    if rq.op.OAuthSignIn? || rq.op.ConfirmLink? {
      ProviderSparesDevices(v, rq, user);
    } else if rq.op.ConfirmEnrollment? || rq.op.Disable? {
      EnrolmentSparesDevices(v, rq, user);
    } else {
      FlagsSpareDevices(v, rq, user);
    }
  }

  lemma ProviderSparesDevices(v: World, rq: Request, user: UserId)
    requires (rq.op.OAuthSignIn? || rq.op.ConfirmLink?) && user in AttemptOf(v, rq).users
    ensures AttemptOf(v, rq).users[user].devices == if user in v.users then v.users[user].devices else map[]
  {
  }

  lemma EnrolmentSparesDevices(v: World, rq: Request, user: UserId)
    requires (rq.op.ConfirmEnrollment? || rq.op.Disable?) && user in AttemptOf(v, rq).users
    ensures AttemptOf(v, rq).users[user].devices == if user in v.users then v.users[user].devices else map[]
  {
  }

  lemma FlagsSpareDevices(v: World, rq: Request, user: UserId)
    requires rq.op.SignUp? || rq.op.VerifyEmail? || rq.op.SetEnforced? || rq.op.BeginEnrollment?
          || rq.op.ResetPassword? || rq.op.RevokeSessions? || rq.op.ChangeEmail?
    requires user in AttemptOf(v, rq).users
    ensures AttemptOf(v, rq).users[user].devices == if user in v.users then v.users[user].devices else map[]
  {
  }

  lemma {:induction false} DeviceWasTrusted(w: World, rqs: seq<Request>, device: Device, user: UserId, at: int)
    returns (i: nat)
    requires IsEmpty(w) && user in Run(w, rqs).users && device in Run(w, rqs).users[user].devices
    requires at <= Run(w, rqs).users[user].devices[device]
    ensures TrustAsked(w, rqs, i, device, user, at)
    decreases |rqs|
  {
    LastOf(w, rqs);
    var init := rqs[..|rqs| - 1];
    var v := Run(w, init);
    var expiry := Run(w, rqs).users[user].devices[device];
    DeviceStep(v, rqs[|rqs| - 1], user, device);
    if user in v.users && device in v.users[user].devices && v.users[user].devices[device] == expiry {
      i := DeviceWasTrusted(w, init, device, user, at);
    } else {
      i := |init|;
    }
  }

  lemma IdentityStep(v: World, rq: Request, identity: Identity)
    requires identity in Step(v, rq).identities
    ensures var user := Step(v, rq).identities[identity];
            || (identity in v.identities && v.identities[identity] == user)
            || (identity !in v.identities && Answer(v, rq) == TokensIssued(user)
                && ((rq.op.OAuthSignIn? && rq.op.identity == identity && user !in v.users)
                    || (rq.op.ConfirmLink? && rq.op.passwordOk)))
  {
    match rq.op
    case OAuthSignIn(_, _, _, _) =>
    case ConfirmLink(_, _) =>
    case _ => assert AttemptOf(v, rq).identities == v.identities;
  }

  lemma {:induction false} IdentityWasTied(w: World, rqs: seq<Request>, identity: Identity) returns (i: nat)
    requires IsEmpty(w) && identity in Run(w, rqs).identities
    ensures Tied(w, rqs, i, identity, Run(w, rqs).identities[identity])
    decreases |rqs|
  {
    LastOf(w, rqs);
    var init := rqs[..|rqs| - 1];
    var v := Run(w, init);
    IdentityStep(v, rqs[|rqs| - 1], identity);
    if identity in v.identities && v.identities[identity] == Run(w, rqs).identities[identity] {
      i := IdentityWasTied(w, init, identity);
    } else {
      i := |init|;
    }
  }

  /** A link entry after a request was there before or is held by it. */
  lemma LinkStep(v: World, rq: Request, k: MfaToken)
    requires k in Step(v, rq).keys.links
    ensures var entry := Step(v, rq).keys.links[k];
            || (k in v.keys.links && v.keys.links[k] == entry)
            || (rq.op.OAuthSignIn? && rq.op.hasPassword && AttemptOf(v, rq).outcome == LinkPending(k)
                && rq.op.identity !in v.identities
                && entry == Entry(PendingLink(rq.op.account, rq.op.identity), v.now + rq.delay + PENDING_TTL))
  {
    if rq.op.ConfirmLink? {
      ConfirmingAddsNoLink(v, rq, k);
    } else if !rq.op.OAuthSignIn? {
      LinksUntouched(v, rq);
    }
  }

  lemma ConfirmingAddsNoLink(v: World, rq: Request, k: MfaToken)
    requires rq.op.ConfirmLink? && k in Step(v, rq).keys.links
    ensures k in v.keys.links && Step(v, rq).keys.links[k] == v.keys.links[k]
  {
  }

  lemma LinksUntouched(v: World, rq: Request)
    requires !rq.op.ConfirmLink? && !rq.op.OAuthSignIn?
    ensures Step(v, rq).keys.links == v.keys.links
  {
  }

  lemma {:induction false} LinkWasAsked(w: World, rqs: seq<Request>, k: MfaToken, at: int) returns (i: nat)
    requires IsEmpty(w) && k in Run(w, rqs).keys.links && at <= Run(w, rqs).keys.links[k].expiry
    ensures var link := Run(w, rqs).keys.links[k].value;
            LinkAsked(w, rqs, i, k, link.user, at) && rqs[i].op.identity == link.identity
    decreases |rqs|
  {
    LastOf(w, rqs);
    var init := rqs[..|rqs| - 1];
    var v := Run(w, init);
    LinkStep(v, rqs[|rqs| - 1], k);
    if k in v.keys.links && v.keys.links[k] == Run(w, rqs).keys.links[k] {
      i := LinkWasAsked(w, init, k, at);
    } else {
      i := |init|;
    }
  }

  /**
   Every token pair an account receives, in any run from the empty system, is one of: password and second
   factor, the password within the five minutes before; password and a device that an MFA login of this user
   trusted within the thirty days before; an identity that was tied to the account earlier; the password,
   when it ties an identity that signed in within the five minutes before; the password of an account
   without MFA; or the identity that creates the account. For an account with MFA only the first four are
   left, and the third and fourth need no second factor.
   */
  lemma WherePairsComeFrom(w: World, rqs: seq<Request>, rq: Request, user: UserId) returns (i: nat)
    requires IsEmpty(w)
    requires Answer(Run(w, rqs), rq) == TokensIssued(user)
    ensures var v := Run(w, rqs);
            var at := v.now + rq.delay;
            || (ShowsSecondFactor(v, rq, user) && PasswordShown(w, rqs, i, rq.op.token, user, at))
            || (FromTrustedDevice(v, rq, user) && TrustAsked(w, rqs, i, rq.op.device.value, user, at))
            || (ByLinkedIdentity(v, rq, user) && Tied(w, rqs, i, rq.op.identity, user))
            || (ByLinking(v, rq, user) && LinkAsked(w, rqs, i, rq.op.token, user, at))
            || ByPasswordAlone(v, rq, user) || ByNewIdentity(v, rq, user)
  {
    IssuesIff(Run(w, rqs), rq, user);
    i := Origin(w, rqs, rq, user);
  }

  /** The earlier request behind each of the first four kinds. */
  lemma Origin(w: World, rqs: seq<Request>, rq: Request, user: UserId) returns (i: nat)
    requires IsEmpty(w)
    ensures var v := Run(w, rqs);
            var at := v.now + rq.delay;
            && (rq.op.MfaVerify? && AwaitsCode(v, rq.op.token, user, rq.delay) ==>
                  PasswordShown(w, rqs, i, rq.op.token, user, at))
            && (FromTrustedDevice(v, rq, user) ==> TrustAsked(w, rqs, i, rq.op.device.value, user, at))
            && (ByLinkedIdentity(v, rq, user) ==> Tied(w, rqs, i, rq.op.identity, user))
            && (ByLinking(v, rq, user) ==> LinkAsked(w, rqs, i, rq.op.token, user, at))
  {
    var v := Run(w, rqs);
    var at := v.now + rq.delay;
    if rq.op.MfaVerify? && AwaitsCode(v, rq.op.token, user, rq.delay) {
      i := PendingWasHeld(w, rqs, rq.op.token, user, at);
    } else if FromTrustedDevice(v, rq, user) {
      i := DeviceWasTrusted(w, rqs, rq.op.device.value, user, at);
    } else if ByLinkedIdentity(v, rq, user) {
      i := IdentityWasTied(w, rqs, rq.op.identity);
    } else if ByLinking(v, rq, user) {
      i := LinkWasAsked(w, rqs, rq.op.token, at);
    } else {
      i := 0;
    }
  }
}
