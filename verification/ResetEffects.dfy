/** What each request about addresses, passwords and reset tokens answers and changes, and how long a token is good. */
module ResetEffects {
  import opened Wrappers
  import opened ResetModel
  import opened ResetRuns

  // ---- One request ----

  /** A password change needs a verified account with a password, and that password; then exactly it is replaced. */
  lemma ChangePasswordIsExact(w: World, user: UserId, passwordOk: bool, newHash: Hash, delay: nat, commits: bool)
    ensures var rq := Request(ChangePassword(user, passwordOk, newHash), delay, commits);
            var admitted := user in w.users && w.users[user].verified;
            var known := admitted && w.users[user].hash.Some? && passwordOk;
            && (Answer(w, rq) == Done <==> known && commits)
            && (Answer(w, rq) == EmailNotVerified <==> !admitted)
            && (Answer(w, rq) == InvalidCredentials <==> admitted && !known)
            && Step(w, rq).users == (if known && commits then SetHash(w.users, user, newHash) else w.users)
            && (!passwordOk ==> Affects(w, rq).None?)
  {
  }

  /** Whatever the request, the password of an account is the one it sets, or the one it was. */
  lemma PasswordStep(w: World, rq: Request, user: UserId)
    requires UniqueEmails(w.users) && user in Step(w, rq).users
    ensures var hash := Step(w, rq).users[user].hash;
            if Affects(w, rq) == Some(user) then hash == Some(rq.op.newHash)
            else if user in w.users then hash == w.users[user].hash
            else hash == (if rq.op.SignUp? then Some(rq.op.newHash) else None)
  {
    match rq.op
    case ResetPassword(presented, newHash) =>
    case ChangePassword(u, ok, newHash) => ChangePasswordIsExact(w, u, ok, newHash, rq.delay, rq.commits);
    case _ =>
  }

  /** Whatever the request, an account stays, and its address changes only by its own change of address, to that one. */
  lemma AddressStep(w: World, rq: Request, user: UserId)
    requires user in w.users
    ensures user in Step(w, rq).users
    ensures var was, now := w.users[user], Step(w, rq).users[user];
            var moves := rq.op.ChangeEmail? && rq.op.user == user && Answer(w, rq) == Done;
            && now.email == (if moves then rq.op.email else was.email)
            && now.verified == (if rq.op == VerifyEmail(user) && Answer(w, rq) == Done then true
                                else if moves && rq.op.email != was.email then false
                                else was.verified)
  {
    match rq.op
    case ResetPassword(presented, newHash) =>
    case ChangePassword(u, ok, newHash) => ChangePasswordIsExact(w, u, ok, newHash, rq.delay, rq.commits);
    case _ =>
  }

  /** A new account, with a password or by a provider, or a new address, needs an address nobody has. */
  lemma AddressIsFree(w: World, user: UserId, email: Email, newHash: Hash, delay: nat)
    ensures var signUp := Request(SignUp(user, email, newHash), delay, true);
            var oauth := Request(OAuthSignUp(user, email), delay, true);
            var move := Request(ChangeEmail(user, email), delay, true);
            var taken := user in w.users || EmailInUse(w.users, email);
            && (Answer(w, signUp) == (if taken then EmailTaken else Done))
            && (Answer(w, oauth) == (if taken then EmailTaken else Done))
            && (!taken ==> Step(w, signUp).users == w.users[user := User(email, Some(newHash), false)]
                           && Step(w, oauth).users == w.users[user := User(email, None, false)])
            && (Answer(w, move) == Done <==>
                  && user in w.users && w.users[user].verified
                  && (EmailInUse(w.users, email) ==> w.users[user].email == email))
  {
  }

  /** An address is verified for an account there is; with AddressStep, that is all that happens to it. */
  lemma VerifyEmailIff(w: World, user: UserId, delay: nat, commits: bool)
    ensures var rq := Request(VerifyEmail(user), delay, commits);
            && (Answer(w, rq) == Done <==> user in w.users && commits)
            && (Answer(w, rq) == Done ==> Step(w, rq).users == w.users[user := w.users[user].(verified := true)])
  {
  }

  /** Runs leave out nothing but a hash that is computed twice. */
  lemma AdmissibleIff(w: World, rq: Request)
    ensures Admissible(w, rq) <==>
      (rq.op.SignUp? || rq.op.ResetPassword? || rq.op.ChangePassword? ==> rq.op.newHash !in w.hashedFor)
  {
  }

  /** A token is issued for the account found, with its address and salt of that moment and the time. */
  lemma IssuedIff(w: World, rq: Request, token: ResetToken)
    requires UniqueEmails(w.users)
    ensures Answer(w, rq) == Issued(token) <==>
      (exists user :: user in w.users && (rq.op == ForceReset(user) || rq.op == ForgotPassword(w.users[user].email))
                      && token == ResetToken(w.users[user].email, SaltOf(user, w.users[user]), w.now + rq.delay))
    ensures var v := Step(w, rq);
            v.issued == (if Answer(w, rq).Issued? then w.issued + {Answer(w, rq).token} else w.issued)
            && (Answer(w, rq).Issued? ==> v.users == w.users && v.hashedFor == w.hashedFor)
            && v.now == w.now + rq.delay
  {
    if rq.op.ForgotPassword? && EmailInUse(w.users, rq.op.email) {
      assert Lookup(w.users, rq.op.email).Some?;
    }
  }

  /** Whatever is not answered Done leaves all accounts as they were; so does a request for a token. */
  lemma RefusedChangesNothing(w: World, rq: Request)
    ensures Answer(w, rq) != Done || rq.op.ForgotPassword? ==> Step(w, rq).users == w.users
  {
  }

  // ---- How long a token is good ----

  lemma LastOf(w: World, rqs: seq<Request>)
    requires rqs != []
    ensures var init := rqs[..|rqs| - 1];
            && Run(w, rqs) == Step(Run(w, init), rqs[|rqs| - 1])
            && (AdmissibleRun(w, rqs) ==> AdmissibleRun(w, init) && Admissible(Run(w, init), rqs[|rqs| - 1]))
            && forall k :: 0 <= k < |init| ==> rqs[..k] == init[..k]
  {
    var init, last := rqs[..|rqs| - 1], rqs[|rqs| - 1];
    assert rqs == init + [last];
    RunSplits(w, init, [last]);
    assert Run(Run(w, init), [last]) == Run(Step(Run(w, init), last), []);
    assert AdmissibleRun(Run(w, init), [last]) ==> Admissible(Run(w, init), last);
  }

  /** No request after number `i` sets the password of this account. */
  ghost predicate PasswordKept(w: World, rqs: seq<Request>, i: nat, user: UserId) {
    forall k :: i < k < |rqs| ==> Affects(Run(w, rqs[..k]), rqs[k]) != Some(user)
  }

  lemma {:induction false} SaltIsKept(w: World, rqs: seq<Request>, i: nat, user: UserId)
    requires Sound(w) && AdmissibleRun(w, rqs) && i < |rqs| && user in Run(w, rqs[..i]).users
    requires rqs[i].op.ForceReset? || rqs[i].op.ForgotPassword?
    requires PasswordKept(w, rqs, i, user)
    ensures user in Run(w, rqs).users
    ensures Run(w, rqs).users[user].hash == Run(w, rqs[..i]).users[user].hash
    decreases |rqs|
  {
    LastOf(w, rqs);
    var init, last := rqs[..|rqs| - 1], rqs[|rqs| - 1];
    SoundInEveryRun(w, init);
    if i < |init| {
      assert forall k :: i < k < |init| ==> rqs[..k] == init[..k] && rqs[k] == init[k];
      SaltIsKept(w, init, i, user);
    }
    AddressStep(Run(w, init), last, user);
    PasswordStep(Run(w, init), last, user);
  }

  /**
   Over any run, a token that was handed out is good exactly as long as no password was set for its account,
   the account has the address the token was mailed to, and a day has not passed.
   */
  lemma GoodIff(w: World, rqs: seq<Request>, i: nat, token: ResetToken, user: UserId, newHash: Hash, delay: nat)
    requires Sound(w) && AdmissibleRun(w, rqs) && i < |rqs| && IssuesFor(Run(w, rqs[..i]), rqs[i], token, user)
    ensures var v := Run(w, rqs);
            && user in v.users
            && (Answer(v, Request(ResetPassword(Bearing(token), newHash), delay, true)) == Done <==>
                  && PasswordKept(w, rqs, i, user) && v.users[user].email == token.email
                  && v.now + delay - token.stamp <= MAX_AGE)
  {
    var v := Run(w, rqs);
    assert rqs[..|rqs|] == rqs;
    Between(w, rqs, i, |rqs|);
    IssuedIsOwned(Run(w, rqs[..i]), rqs[i], token, user);
    OwnedForever(Step(Run(w, rqs[..i]), rqs[i]), rqs[i + 1..|rqs|], token, user);
    AcceptedIff(v, token, newHash, delay);
    if PasswordKept(w, rqs, i, user) {
      SaltIsKept(w, rqs, i, user);
    } else {
      var k :| i < k < |rqs| && Affects(Run(w, rqs[..k]), rqs[k]) == Some(user);
      EarlierTokensAreDead(w, rqs, i, k, token, user, newHash, delay, true);
    }
  }
}
