/** What each request of the two-stage login answers and leaves behind, and what the flags of an account go back to. */
module MfaEffects {
  import opened Clock
  import opened Redis
  import opened Wrappers
  import opened MfaModel
  import opened MfaRuns
  import opened MfaProvenance

  /** The state after a request that changes at most these accounts, identities and keys. */
  function After(w: World, rq: Request, users: map<UserId, User>, identities: map<Identity, UserId>, keys: Keys)
    : World
  {
    World(users, identities, keys, w.now + rq.delay, w.minted + if Draws(rq.op) then {rq.op.newToken} else {})
  }

  /** Only time passes, and the token that was drawn. */
  function Untouched(w: World, rq: Request): World {
    After(w, rq, w.users, w.identities, w.keys)
  }

  // ---- What the last of certain requests left ----

  /** Request `i` is one of `on`, and none after it is one of `off`. */
  ghost predicate Marked(w: World, rqs: seq<Request>, i: nat,
                         on: (World, Request) -> bool, off: (World, Request) -> bool)
  {
    && i < |rqs| && on(Before(w, rqs, i), rqs[i])
    && forall j :: i < j < |rqs| ==> !off(Before(w, rqs, j), rqs[j])
  }

  lemma HoldsAfterLast(w: World, rqs: seq<Request>, holds: World -> bool,
                       on: (World, Request) -> bool, off: (World, Request) -> bool)
    requires rqs != []
    requires forall v, rq :: holds(Step(v, rq)) <==> on(v, rq) || (holds(v) && !off(v, rq))
    ensures var v, last := Run(w, rqs[..|rqs| - 1]), rqs[|rqs| - 1];
            holds(Run(w, rqs)) <==> on(v, last) || (holds(v) && !off(v, last))
  {
    LastOf(w, rqs);
  }

  lemma MarkedAfterLast(w: World, init: seq<Request>, last: Request, i: nat,
                        on: (World, Request) -> bool, off: (World, Request) -> bool)
    requires i <= |init|
    ensures var v := Run(w, init);
            Marked(w, init + [last], i, on, off) <==>
              if i == |init| then on(v, last) else Marked(w, init, i, on, off) && !off(v, last)
  {
    var rqs := init + [last];
    forall j: nat | j < |rqs| ensures rqs[..j] == init[..j] {
    }
    if i < |init| && Marked(w, rqs, i, on, off) {
      forall j | i < j < |init| ensures !off(Before(w, init, j), init[j]) {
        assert !off(Before(w, rqs, j), rqs[j]);
      }
      assert !off(Before(w, rqs, |init|), rqs[|init|]);
    }
  }

  /** What `on` makes true and `off` makes false holds exactly when the last of them was one of `on`. */
  lemma {:induction false} LastMark(w: World, rqs: seq<Request>, holds: World -> bool,
                                    on: (World, Request) -> bool, off: (World, Request) -> bool)
    requires !holds(w)
    requires forall v, rq :: holds(Step(v, rq)) <==> on(v, rq) || (holds(v) && !off(v, rq))
    ensures holds(Run(w, rqs)) <==> exists i: nat :: Marked(w, rqs, i, on, off)
    decreases |rqs|
  {
    if rqs != [] {
      var init, last := rqs[..|rqs| - 1], rqs[|rqs| - 1];
      assert rqs == init + [last];
      HoldsAfterLast(w, rqs, holds, on, off);
      LastMark(w, init, holds, on, off);
      forall i: nat | i <= |init|
        ensures Marked(w, rqs, i, on, off) <==>
          if i == |init| then on(Run(w, init), last) else Marked(w, init, i, on, off) && !off(Run(w, init), last)
      {
        MarkedAfterLast(w, init, last, i, on, off);
      }
      assert on(Run(w, init), last) ==> Marked(w, rqs, |init|, on, off);
    }
  }

  // ---- Login ----

  /** For every account: a wrong password is refused, and nothing is written. */
  lemma WrongPasswordIsRefused(w: World, rq: Request)
    requires rq.op.Login? && !rq.op.passwordOk
    ensures Answer(w, rq) == InvalidCredentials && Step(w, rq) == Untouched(w, rq)
  {
  }

  /** A right password that yields no tokens by itself. */
  ghost predicate NeedsMore(w: World, rq: Request) {
    && rq.op.Login? && Authentic(w, rq, rq.op.user)
    && var u := w.users[rq.op.user];
    if u.enforced then true else u.enabled && !Trusted(u, rq.op.device, w.now + rq.delay)
  }

  /** Each answer of a login, for every account. */
  lemma LoginAnswersIff(w: World, rq: Request)
    requires rq.op.Login?
    ensures var user, o := rq.op.user, AttemptOf(w, rq).outcome;
            && (o == InvalidCredentials <==> user !in w.users || !w.users[user].active || !rq.op.passwordOk)
            && (o == EmailNotVerified <==>
                  user in w.users && w.users[user].active && rq.op.passwordOk && !w.users[user].verified)
            && (o == Pending(rq.op.newToken) <==> NeedsMore(w, rq) && w.users[user].enabled)
            && (o == SetupPending(rq.op.newToken) <==> NeedsMore(w, rq) && !w.users[user].enabled)
            && (o == TokensIssued(user) <==> Authentic(w, rq, user) && !NeedsMore(w, rq))
            && o in {InvalidCredentials, EmailNotVerified, Pending(rq.op.newToken), SetupPending(rq.op.newToken),
                     TokensIssued(user)}
  {
  }

  /**
   A login writes at most one key, the pending entry for its own account, and it does so exactly when the
   password is right and more is needed. It changes no account, save that a device row looked up after
   its time goes.
   */
  lemma LoginIsExact(w: World, rq: Request)
    requires rq.op.Login?
    ensures var user, device, at := rq.op.user, rq.op.device, w.now + rq.delay;
            var v := Step(w, rq);
            var held := if NeedsMore(w, rq)
                        then w.keys.pending[rq.op.newToken
                             := Entry(PendingLogin(user, !w.users[user].enabled), at + PENDING_TTL)]
                        else w.keys.pending;
            var stale := rq.commits && NeedsMore(w, rq) && !w.users[user].enforced && device.Some?
                         && device.value in w.users[user].devices;
            var forgot := if stale
                          then w.users[user := w.users[user].(devices := w.users[user].devices - {device.value})]
                          else w.users;
            v == After(w, rq, forgot, w.identities, w.keys.(pending := held))
  {
    LoginAnswersIff(w, rq);
  }

  // ---- The second stage ----

  lemma VerifyAnswersIff(w: World, rq: Request)
    requires rq.op.MfaVerify?
    ensures var token, at, o := rq.op.token, w.now + rq.delay, AttemptOf(w, rq).outcome;
            var pending := w.keys.pending;
            && (o == InvalidToken <==>
                  || !Live(pending, token, at)
                  || (!pending[token].value.setupRequired
                      && !AwaitsCode(w, token, pending[token].value.user, rq.delay)))
            && (o == MfaSetupRequired <==> Live(pending, token, at) && pending[token].value.setupRequired)
            && (o == MfaInvalidCode <==>
                  && Live(pending, token, at) && AwaitsCode(w, token, pending[token].value.user, rq.delay)
                  && !ShowsSecondFactor(w, rq, pending[token].value.user)
                  && (w.users[pending[token].value.user].hasSecret
                      || Replayed(w.keys.lastCode, at, pending[token].value.user, rq.op.code)))
            && (o.TokensIssued? <==>
                  && Live(pending, token, at) && AwaitsCode(w, token, pending[token].value.user, rq.delay)
                  && ShowsSecondFactor(w, rq, pending[token].value.user))
  {
    if Live(w.keys.pending, rq.op.token, w.now + rq.delay) {
      var user := w.keys.pending[rq.op.token].value.user;
      if user in w.users {
        RedeemIsExact(w.users[user].backups, Strip(rq.op.code), "");
        MatchingRowsExist(w.users[user].backups, Strip(rq.op.code));
      }
    }
  }

  /**
   A second factor that was accepted spends the pending token, and writes no other key, save that a TOTP code
   becomes the last one accepted; with or without a commit.
   */
  lemma VerifySpends(w: World, rq: Request, user: UserId)
    requires rq.op.MfaVerify? && AttemptOf(w, rq).outcome == TokensIssued(user)
    ensures var v := Step(w, rq);
            var lastCode := if rq.op.totpOk
                            then w.keys.lastCode[user := Entry(rq.op.code, w.now + rq.delay + USED_TTL)]
                            else w.keys.lastCode;
            && v == After(w, rq, v.users, w.identities,
                          Keys(w.keys.pending - {rq.op.token}, lastCode, w.keys.links))
            && (!rq.commits ==> v.users == w.users)
  {
  }

  /** Committed, it changes only this account: a backup code is used up, and a device is trusted if asked. */
  lemma VerifyIsExact(w: World, rq: Request, user: UserId) returns (rows: seq<BackupRow>)
    requires rq.op.MfaVerify? && rq.commits && AttemptOf(w, rq).outcome == TokensIssued(user)
    ensures user in w.users
    ensures var u, trust := w.users[user], rq.op.trust;
            && (if rq.op.totpOk then rows == u.backups else Redeem(u.backups, Strip(rq.op.code)) == Some(rows))
            && var devices := if trust.Some? then u.devices[trust.value := w.now + rq.delay + DEVICE_TTL]
                              else u.devices;
            Step(w, rq).users == w.users[user := u.(backups := rows, devices := devices)]
  {
    var u, trust := w.users[user], rq.op.trust;
    rows := if rq.op.totpOk then u.backups else Redeem(u.backups, Strip(rq.op.code)).value;
    assert u.(backups := u.backups) == u;
    assert Step(w, rq).users == w.users[user := Trust(u.(backups := rows), trust, w.now + rq.delay)];
    if trust.None? {
      assert Trust(u.(backups := rows), trust, w.now + rq.delay) == u.(backups := rows, devices := u.devices);
    }
  }

  /** Whatever raises leaves the accounts and identities as they were; so does what fails to commit. */
  lemma RaisedChangesNoRow(w: World, rq: Request)
    ensures Answer(w, rq).Raised() ==> Step(w, rq).users == w.users && Step(w, rq).identities == w.identities
    ensures AttemptOf(w, rq).outcome.Raised() ==> Answer(w, rq) == AttemptOf(w, rq).outcome
    ensures !AttemptOf(w, rq).outcome.Raised() ==>
      Answer(w, rq) == if rq.commits then AttemptOf(w, rq).outcome else ServerError
  {
  }

  /** And a raised answer writes no key either, except that a link already taken spends its token. */
  lemma RefusedWritesNothing(w: World, rq: Request)
    requires AttemptOf(w, rq).outcome.Raised()
    ensures var spent := rq.op.ConfirmLink? && AttemptOf(w, rq).outcome == ServerError;
            Step(w, rq) == After(w, rq, w.users, w.identities,
                                 w.keys.(links := if spent then w.keys.links - {rq.op.token} else w.keys.links))
  {
    if rq.op.MfaVerify? {
      VerifyRefusalWritesNothing(w, rq);
    } else if rq.op.Login? {
      LoginIsExact(w, rq);
      LoginAnswersIff(w, rq);
    } else if rq.op.OAuthSignIn? || rq.op.ConfirmLink? {
      ProviderRefusal(w, rq);
    } else {
      assert AttemptOf(w, rq).keys == w.keys;
    }
  }

  lemma VerifyRefusalWritesNothing(w: World, rq: Request)
    requires rq.op.MfaVerify? && AttemptOf(w, rq).outcome.Raised()
    ensures Step(w, rq) == Untouched(w, rq)
  {
  }

  lemma ProviderRefusal(w: World, rq: Request)
    requires (rq.op.OAuthSignIn? || rq.op.ConfirmLink?) && AttemptOf(w, rq).outcome.Raised()
    ensures var spent := rq.op.ConfirmLink? && AttemptOf(w, rq).outcome == ServerError;
            Step(w, rq) == After(w, rq, w.users, w.identities,
                                 w.keys.(links := if spent then w.keys.links - {rq.op.token} else w.keys.links))
  {
  }

  // ---- Which TOTP code counts as replayed ----

  /** The request spends a TOTP code of `user`, whether its rows are committed or not. */
  ghost predicate SpendsTotp(w: World, rq: Request, user: UserId) {
    rq.op.MfaVerify? && rq.op.totpOk && AttemptOf(w, rq).outcome == TokensIssued(user)
  }

  lemma LastCodeStep(w: World, rq: Request, user: UserId)
    ensures var after := Step(w, rq).keys.lastCode;
            if SpendsTotp(w, rq, user)
            then user in after && after[user] == Entry(rq.op.code, w.now + rq.delay + USED_TTL)
            else (user in after <==> user in w.keys.lastCode)
                 && (user in after ==> after[user] == w.keys.lastCode[user])
  {
    if rq.op.MfaVerify? {
      VerifyLastCode(w, rq, user);
    } else {
      OthersSpareLastCode(w, rq);
    }
  }

  lemma VerifyLastCode(w: World, rq: Request, user: UserId)
    requires rq.op.MfaVerify?
    ensures Step(w, rq).keys.lastCode
         == if SpendsTotp(w, rq, user) then w.keys.lastCode[user := Entry(rq.op.code, w.now + rq.delay + USED_TTL)]
            else Step(w, rq).keys.lastCode
    ensures !SpendsTotp(w, rq, user) && user in Step(w, rq).keys.lastCode ==>
      user in w.keys.lastCode && Step(w, rq).keys.lastCode[user] == w.keys.lastCode[user]
    ensures user in w.keys.lastCode ==> user in Step(w, rq).keys.lastCode
  {
  }

  lemma OthersSpareLastCode(w: World, rq: Request)
    requires !rq.op.MfaVerify?
    ensures Step(w, rq).keys.lastCode == w.keys.lastCode
  {
    if !rq.op.Login? && !rq.op.OAuthSignIn? && !rq.op.ConfirmLink? {
      assert AttemptOf(w, rq).keys == w.keys;
    }
  }

  /** Request `i` spends this TOTP code until `expiry`, and is the last one of the run that spends one of `user`. */
  ghost predicate LastSpent(w: World, rqs: seq<Request>, i: nat, user: UserId, code: string, expiry: int) {
    && i < |rqs| && SpendsTotp(Before(w, rqs, i), rqs[i], user)
    && rqs[i].op.code == code && expiry == Before(w, rqs, i).now + rqs[i].delay + USED_TTL
    && forall j :: i < j < |rqs| ==> !SpendsTotp(Before(w, rqs, j), rqs[j], user)
  }

  lemma LastCodeIff(w: World, rqs: seq<Request>, user: UserId, code: string, expiry: int)
    requires IsEmpty(w)
    ensures var keys := Run(w, rqs).keys.lastCode;
            user in keys && keys[user] == Entry(code, expiry) <==>
              exists i: nat :: LastSpent(w, rqs, i, user, code, expiry)
  {
    var holds := (v: World) => user in v.keys.lastCode && v.keys.lastCode[user] == Entry(code, expiry);
    var spends := (v: World, rq: Request) => SpendsTotp(v, rq, user);
    var sets := (v: World, rq: Request) =>
      SpendsTotp(v, rq, user) && rq.op.code == code && expiry == v.now + rq.delay + USED_TTL;
    forall v: World, rq: Request
      ensures holds(Step(v, rq)) <==> sets(v, rq) || (holds(v) && !spends(v, rq))
    {
      LastCodeStep(v, rq, user);
    }
    LastMark(w, rqs, holds, sets, spends);
    forall i: nat ensures LastSpent(w, rqs, i, user, code, expiry) <==> Marked(w, rqs, i, sets, spends) {
    }
  }

  /**
   In every run from the empty system, a TOTP code is refused as a replay exactly when it is the code this
   user spent last, less than a minute before. One spent before another code, or earlier, is not.
   */
  lemma ReplayedIff(w: World, rqs: seq<Request>, user: UserId, code: string, at: int)
    requires IsEmpty(w)
    ensures Replayed(Run(w, rqs).keys.lastCode, at, user, code) <==>
      IsTotpShaped(code) && exists i: nat, expiry :: LastSpent(w, rqs, i, user, code, expiry) && at < expiry
  {
    var keys := Run(w, rqs).keys.lastCode;
    if user in keys {
      LastCodeIff(w, rqs, user, code, keys[user].expiry);
    }
    forall i: nat, expiry | LastSpent(w, rqs, i, user, code, expiry)
      ensures user in keys && keys[user] == Entry(code, expiry)
    {
      LastCodeIff(w, rqs, user, code, expiry);
    }
  }

  /** Six digits: the only codes the replay check looks at. */
  lemma TotpShapeIff(code: string)
    ensures IsTotpShaped(code) <==> |code| == 6 && forall i :: 0 <= i < |code| ==> code[i] in "0123456789"
  {
  }

  // ---- Enrolment ----

  /** Enrolment begins for a verified account without MFA, and gives it a secret, nothing else. */
  lemma BeginIsExact(w: World, rq: Request)
    requires rq.op.BeginEnrollment?
    ensures var user := rq.op.user;
            && (Answer(w, rq) == Done <==>
                  rq.commits && user in w.users && w.users[user].verified && !w.users[user].enabled)
            && (Answer(w, rq) == MfaAlreadyEnabled <==>
                  user in w.users && w.users[user].verified && w.users[user].enabled)
            && Step(w, rq) == if Answer(w, rq) != Done then Untouched(w, rq)
                              else After(w, rq, w.users[user := w.users[user].(hasSecret := true)],
                                         w.identities, w.keys)
  {
  }

  /** Enrolment completes with a valid TOTP code of a begun enrolment, and stores ten new rows for the codes shown. */
  lemma ConfirmIsExact(w: World, rq: Request)
    requires rq.op.ConfirmEnrollment? && Admissible(w, rq)
    ensures var user := rq.op.user;
            && (Answer(w, rq).BackupCodes? <==>
                  && rq.commits && rq.op.totpOk && user in w.users
                  && w.users[user].verified && w.users[user].hasSecret && !w.users[user].enabled)
            && (!Answer(w, rq).BackupCodes? ==> Step(w, rq) == Untouched(w, rq))
            && (Answer(w, rq).BackupCodes? ==>
                  && |Answer(w, rq).codes| == BACKUP_CODE_COUNT
                  && Step(w, rq) == After(w, rq, Step(w, rq).users, w.identities, w.keys)
                  && user in Step(w, rq).users
                  && var rows := Step(w, rq).users[user].backups;
                  && Step(w, rq).users == w.users[user := w.users[user].(enabled := true, backups := rows)]
                  && |rows| == BACKUP_CODE_COUNT
                  && forall i :: 0 <= i < |rows| ==> Redeems(rows[i], Strip(Answer(w, rq).codes[i])))
  {
    if Answer(w, rq).BackupCodes? {
      forall i | 0 <= i < |rq.op.raws| ensures Strip(Displays(rq.op.raws)[i]) == Strip(rq.op.raws[i]) {
        DisplayStripsToRaw(rq.op.raws[i]);
      }
    }
  }

  /** MFA is disabled with a second factor only; the secret and all codes go, and the remembered devices stay. */
  lemma DisableIsExact(w: World, rq: Request)
    requires rq.op.Disable?
    ensures var user := rq.op.user;
            && (Answer(w, rq) == Done <==>
                  && rq.commits && user in w.users
                  && w.users[user].verified && w.users[user].enabled && w.users[user].hasSecret
                  && (rq.op.totpOk || Matching(w.users[user].backups, Strip(rq.op.code)) > 0))
            && Step(w, rq) == if Answer(w, rq) != Done then Untouched(w, rq)
                 else After(w, rq,
                            w.users[user := w.users[user].(enabled := false, hasSecret := false, backups := [])],
                            w.identities, w.keys)
  {
    if rq.op.user in w.users {
      RedeemIsExact(w.users[rq.op.user].backups, Strip(rq.op.code), "");
    }
  }

  // ---- Sign-in by provider ----

  lemma SignInAnswersIff(w: World, rq: Request)
    requires rq.op.OAuthSignIn?
    ensures var op, o := rq.op, AttemptOf(w, rq).outcome;
            var known, claimed := op.identity in w.identities, op.account in w.users;
            && (o == ProviderConflict <==> !known && claimed && !op.hasPassword)
            && (o == LinkPending(op.newToken) <==> !known && claimed && op.hasPassword)
            && (o == ServerError <==> known && w.identities[op.identity] !in w.users)
            && (o.TokensIssued? <==> if known then w.identities[op.identity] in w.users else !claimed)
            && (o.TokensIssued? ==> o.user == if known then w.identities[op.identity] else op.account)
  {
  }

  /** An unknown identity creates an account without MFA or asks to be linked; a known one writes nothing. */
  lemma SignInIsExact(w: World, rq: Request)
    requires rq.op.OAuthSignIn?
    ensures var op, at := rq.op, w.now + rq.delay;
            var link := Entry(PendingLink(op.account, op.identity), at + PENDING_TTL);
            Step(w, rq)
            == if ByNewIdentity(w, rq, op.account) && rq.commits then
                 After(w, rq, w.users[op.account := User(true, false, false, false, false, [], map[])],
                       w.identities[op.identity := op.account], w.keys)
               else if AttemptOf(w, rq).outcome.LinkPending? then
                 After(w, rq, w.users, w.identities, w.keys.(links := w.keys.links[op.newToken := link]))
               else Untouched(w, rq)
  {
  }

  /** Confirming a link spends its token once the password is right, and adds the identity iff tokens are issued. */
  lemma LinkingIsExact(w: World, rq: Request)
    requires rq.op.ConfirmLink?
    ensures var token, at := rq.op.token, w.now + rq.delay;
            var asked := Live(w.keys.links, token, at) && w.keys.links[token].value.user in w.users;
            var keys := if asked && rq.op.passwordOk then w.keys.(links := w.keys.links - {token}) else w.keys;
            && (Answer(w, rq) == InvalidToken <==> !asked)
            && (Answer(w, rq) == InvalidCredentials <==> asked && !rq.op.passwordOk)
            && (if Answer(w, rq).TokensIssued?
                then var link := w.keys.links[token].value;
                     && Answer(w, rq).user == link.user
                     && Step(w, rq) == After(w, rq, w.users, w.identities[link.identity := link.user], keys)
                else Step(w, rq) == After(w, rq, w.users, w.identities, keys))
  {
  }

  /** The unique keys of the identity table: besides the identity itself, account and provider. */
  ghost predicate OnePerProvider(identities: map<Identity, UserId>) {
    forall i, j :: i in identities && j in identities && identities[i] == identities[j] && i.provider == j.provider ==>
      i == j
  }

  /** A link is refused exactly when it would move an identity or break those keys. */
  lemma LinkTakenIff(identities: map<Identity, UserId>, link: PendingLink)
    requires OnePerProvider(identities)
    ensures LinkTaken(identities, link) <==>
      link.identity in identities || !OnePerProvider(identities[link.identity := link.user])
  {
    var after := identities[link.identity := link.user];
    if i :| i in identities && identities[i] == link.user && i.provider == link.identity.provider {
      assert i != link.identity ==> i in after && link.identity in after && !OnePerProvider(after);
    }
  }

  /** Identities belong to accounts, one per provider, and never change hands. */
  ghost predicate IdentitiesSound(w: World) {
    OnePerProvider(w.identities) && forall i :: i in w.identities ==> w.identities[i] in w.users
  }

  lemma StepKeepsIdentities(w: World, rq: Request)
    requires IdentitiesSound(w)
    ensures IdentitiesSound(Step(w, rq))
    ensures forall i :: i in w.identities ==>
              i in Step(w, rq).identities && Step(w, rq).identities[i] == w.identities[i]
  {
    UsersGrow(w, rq);
    if rq.op.OAuthSignIn? {
      SignInIsExact(w, rq);
    } else if rq.op.ConfirmLink? {
      LinkingIsExact(w, rq);
      LinkingIssuesIff(w, rq, LinkedAccount(w, rq));
    } else {
      IdentitiesUntouched(w, rq);
    }
  }

  function LinkedAccount(w: World, rq: Request): UserId {
    if rq.op.ConfirmLink? && rq.op.token in w.keys.links then w.keys.links[rq.op.token].value.user else 0
  }

  lemma UsersGrow(w: World, rq: Request)
    ensures w.users.Keys <= Step(w, rq).users.Keys
  {
  }

  lemma IdentitiesUntouched(w: World, rq: Request)
    requires !rq.op.OAuthSignIn? && !rq.op.ConfirmLink?
    ensures Step(w, rq).identities == w.identities
  {
  }

  /** In every run from the empty system an account has at most one identity of each provider. */
  lemma {:induction false} IdentitiesInEveryRun(w: World, rqs: seq<Request>)
    requires IdentitiesSound(w)
    ensures IdentitiesSound(Run(w, rqs))
    ensures forall i :: i in w.identities ==>
              i in Run(w, rqs).identities && Run(w, rqs).identities[i] == w.identities[i]
    decreases rqs
  {
    if rqs != [] {
      StepKeepsIdentities(w, rqs[0]);
      IdentitiesInEveryRun(Step(w, rqs[0]), rqs[1..]);
    }
  }

  // ---- The other requests ----

  /** A request about one account answers Done iff it names an account (a new one, to sign up) and commits. */
  lemma AccountAnswersIff(w: World, rq: Request, user: UserId)
    requires rq.op in {SignUp(user), VerifyEmail(user), SetEnforced(user, true), SetEnforced(user, false),
                       ChangeEmail(user), ResetPassword(user), RevokeSessions(user)}
    ensures Answer(w, rq) == Done <==>
      && rq.commits && (user in w.users <==> !rq.op.SignUp?)
      && (rq.op.ChangeEmail? ==> w.users[user].verified)
    ensures Answer(w, rq) != Done ==> Step(w, rq) == Untouched(w, rq)
  {
  }

  /** And it then sets its one flag, if any: a password reset or the revocation of all sessions sets none. */
  lemma AccountEffects(w: World, rq: Request, user: UserId)
    requires rq.op in {SignUp(user), VerifyEmail(user), SetEnforced(user, true), SetEnforced(user, false),
                       ChangeEmail(user), ResetPassword(user), RevokeSessions(user)}
    requires Answer(w, rq) == Done
    ensures user in Step(w, rq).users
    ensures Step(w, rq) == After(w, rq, w.users[user := Step(w, rq).users[user]], w.identities, w.keys)
    ensures var after := Step(w, rq).users[user];
            if rq.op.SignUp? then after == User(true, false, false, false, false, [], map[])
            else after == w.users[user].(verified := after.verified, enforced := after.enforced)
                 && after.verified == (if rq.op.VerifyEmail? then true
                                       else if rq.op.ChangeEmail? then false else w.users[user].verified)
                 && after.enforced == (if rq.op.SetEnforced? then rq.op.enforced else w.users[user].enforced)
  {
  }

  // ---- What the flags of an account go back to ----

  datatype Flag = MfaEnabled | Verified | Enforced

  predicate Has(w: World, user: UserId, flag: Flag) {
    && user in w.users
    && match flag
       case MfaEnabled => w.users[user].enabled
       case Verified => w.users[user].verified
       case Enforced => w.users[user].enforced
  }

  /** The request turns the flag of this account on, or off. */
  ghost predicate Turns(w: World, rq: Request, user: UserId, flag: Flag, on: bool) {
    match flag
    case MfaEnabled =>
      if on then rq.op.ConfirmEnrollment? && rq.op.user == user && Answer(w, rq).BackupCodes?
      else rq.op.Disable? && rq.op.user == user && Answer(w, rq) == Done
    case Verified => rq.op == (if on then VerifyEmail(user) else ChangeEmail(user)) && Answer(w, rq) == Done
    case Enforced => rq.op == SetEnforced(user, on) && Answer(w, rq) == Done
  }

  lemma FlagStep(w: World, rq: Request, user: UserId, flag: Flag)
    ensures Has(Step(w, rq), user, flag) <==>
      Turns(w, rq, user, flag, true) || (Has(w, user, flag) && !Turns(w, rq, user, flag, false))
  {
    if Answer(w, rq).Raised() {
      RaisedChangesNoRow(w, rq);
    } else if rq.op.Login? || rq.op.OAuthSignIn? || rq.op.ConfirmLink? || rq.op.MfaVerify? {
      SignInsSpareFlags(w, rq, user, flag);
    } else if rq.op.BeginEnrollment? || rq.op.ConfirmEnrollment? || rq.op.Disable? {
      EnrolmentFlags(w, rq, user, flag);
    } else {
      AccountFlags(w, rq, user, flag);
    }
  }

  lemma SignInsSpareFlags(w: World, rq: Request, user: UserId, flag: Flag)
    requires rq.op.Login? || rq.op.OAuthSignIn? || rq.op.ConfirmLink? || rq.op.MfaVerify?
    requires !Answer(w, rq).Raised()
    ensures Has(Step(w, rq), user, flag) <==> Has(w, user, flag)
  {
    if rq.op.Login? {
      LoginIsExact(w, rq);
    } else if rq.op.MfaVerify? {
      var rows := VerifyIsExact(w, rq, Answer(w, rq).user);
    } else if rq.op.OAuthSignIn? {
      SignInIsExact(w, rq);
    } else {
      LinkingIsExact(w, rq);
    }
  }

  lemma EnrolmentFlags(w: World, rq: Request, user: UserId, flag: Flag)
    requires rq.op.BeginEnrollment? || rq.op.ConfirmEnrollment? || rq.op.Disable?
    requires !Answer(w, rq).Raised()
    ensures Has(Step(w, rq), user, flag) <==>
      Turns(w, rq, user, flag, true) || (Has(w, user, flag) && !Turns(w, rq, user, flag, false))
  {
  }

  lemma AccountFlags(w: World, rq: Request, user: UserId, flag: Flag)
    requires rq.op.SignUp? || rq.op.VerifyEmail? || rq.op.SetEnforced? || rq.op.ChangeEmail?
          || rq.op.ResetPassword? || rq.op.RevokeSessions?
    requires !Answer(w, rq).Raised()
    ensures Has(Step(w, rq), user, flag) <==>
      Turns(w, rq, user, flag, true) || (Has(w, user, flag) && !Turns(w, rq, user, flag, false))
  {
    AccountEffects(w, rq, rq.op.user);
  }

  /** Request `i` turned the flag on, and none turned it off since. */
  ghost predicate TurnedOn(w: World, rqs: seq<Request>, i: nat, user: UserId, flag: Flag) {
    && i < |rqs| && Turns(Before(w, rqs, i), rqs[i], user, flag, true)
    && forall j :: i < j < |rqs| ==> !Turns(Before(w, rqs, j), rqs[j], user, flag, false)
  }

  /**
   In every run from the empty system an account has MFA enabled, a verified address, an enforcing tenant,
   exactly when a request turned that on and none turned it off since.
   */
  lemma FlagIff(w: World, rqs: seq<Request>, user: UserId, flag: Flag)
    requires IsEmpty(w)
    ensures Has(Run(w, rqs), user, flag) <==> exists i: nat :: TurnedOn(w, rqs, i, user, flag)
  {
    var holds := (v: World) => Has(v, user, flag);
    var on := (v: World, rq: Request) => Turns(v, rq, user, flag, true);
    var off := (v: World, rq: Request) => Turns(v, rq, user, flag, false);
    forall v: World, rq: Request ensures holds(Step(v, rq)) <==> on(v, rq) || (holds(v) && !off(v, rq)) {
      FlagStep(v, rq, user, flag);
    }
    LastMark(w, rqs, holds, on, off);
    forall i: nat ensures TurnedOn(w, rqs, i, user, flag) <==> Marked(w, rqs, i, on, off) {
    }
  }
}
