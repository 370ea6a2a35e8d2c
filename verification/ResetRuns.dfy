/** A reset token works only for its own account, and not after that account's password changed. */
module ResetRuns {
  import opened Wrappers
  import opened ResetModel

  /** The account a salt was taken from. */
  function OwnerOf(w: World, salt: Salt): Option<UserId> {
    match salt
    case NoPassword(user) => Some(user)
    case FromHash(hash) => if hash in w.hashedFor then Some(w.hashedFor[hash]) else None
  }

  ghost predicate UniqueEmails(users: map<UserId, User>) {
    forall u, v :: u in users && v in users && users[u].email == users[v].email ==> u == v
  }

  ghost predicate Sound(w: World) {
    && UniqueEmails(w.users)
    && (forall u :: u in w.users && w.users[u].hash.Some? ==>
          w.users[u].hash.value in w.hashedFor && w.hashedFor[w.users[u].hash.value] == u)
    && (forall t :: t in w.issued ==> OwnerOf(w, t.salt).Some? && OwnerOf(w, t.salt).value in w.users)
  }

  lemma StepKeepsSound(w: World, rq: Request)
    requires Sound(w) && Admissible(w, rq)
    ensures Sound(Step(w, rq))
  {
    AddressesStayUnique(w, rq);
    HashesStayOwned(w, rq);
  }

  lemma AddressesStayUnique(w: World, rq: Request)
    requires UniqueEmails(w.users)
    ensures UniqueEmails(Step(w, rq).users)
  {
  }

  lemma HashesStayOwned(w: World, rq: Request)
    requires Sound(w) && Admissible(w, rq)
    ensures var v := Step(w, rq);
            forall u :: u in v.users && v.users[u].hash.Some? ==>
              v.users[u].hash.value in v.hashedFor && v.hashedFor[v.users[u].hash.value] == u
  {
  }

  lemma {:induction false} SoundInEveryRun(w: World, rqs: seq<Request>)
    requires Sound(w) && AdmissibleRun(w, rqs)
    ensures Sound(Run(w, rqs))
    decreases rqs
  {
    if rqs != [] {
      StepKeepsSound(w, rqs[0]);
      SoundInEveryRun(Step(w, rqs[0]), rqs[1..]);
    }
  }

  /** Owners of salts never change. */
  lemma OwnerStays(w: World, rq: Request, salt: Salt)
    requires Admissible(w, rq) && OwnerOf(w, salt).Some?
    ensures OwnerOf(Step(w, rq), salt) == OwnerOf(w, salt)
  {
  }

  /** Request `rq` hands out `token` for account `user`. */
  ghost predicate IssuesFor(w: World, rq: Request, token: ResetToken, user: UserId) {
    && Answer(w, rq) == Issued(token) && user in w.users
    && (rq.op == ForceReset(user) || (rq.op.ForgotPassword? && Lookup(w.users, rq.op.email) == Some(user)))
  }

  lemma IssuedIsOwned(w: World, rq: Request, token: ResetToken, user: UserId)
    requires Sound(w) && Admissible(w, rq) && IssuesFor(w, rq, token, user)
    ensures token in Step(w, rq).issued && OwnerOf(Step(w, rq), token.salt) == Some(user)
  {
  }

  lemma {:induction false} OwnedForever(w: World, rqs: seq<Request>, token: ResetToken, user: UserId)
    requires AdmissibleRun(w, rqs) && token in w.issued && OwnerOf(w, token.salt) == Some(user)
    ensures token in Run(w, rqs).issued && OwnerOf(Run(w, rqs), token.salt) == Some(user)
    decreases rqs
  {
    if rqs != [] {
      OwnerStays(w, rqs[0], token.salt);
      OwnedForever(Step(w, rqs[0]), rqs[1..], token, user);
    }
  }

  /**
   Exactly when an issued token is accepted: the account its salt came from still has the address
   in the token and the password (or lack of one) it had then, and a day has not passed.
   */
  lemma AcceptedIff(w: World, token: ResetToken, newHash: Hash, delay: nat)
    requires Sound(w) && token in w.issued
    ensures var rq := Request(ResetPassword(Bearing(token), newHash), delay, true);
            var user := OwnerOf(w, token.salt).value;
            && (Answer(w, rq) == Done <==>
                  && w.users[user].email == token.email
                  && SaltOf(user, w.users[user]) == token.salt
                  && w.now + delay - token.stamp <= MAX_AGE)
            && (Answer(w, rq) == Done ==>
                  Affects(w, rq) == Some(user) && Step(w, rq).users == SetHash(w.users, user, newHash))
            && (Answer(w, rq) != Done ==> Step(w, rq).users == w.users)
  {
    var user := OwnerOf(w, token.salt).value;
    var found := Lookup(w.users, token.email);
    if w.users[user].email == token.email {
      assert EmailInUse(w.users, token.email);
      assert found == Some(user);
    }
  }

  lemma {:induction false} RunSplits(w: World, a: seq<Request>, b: seq<Request>)
    ensures Run(w, a + b) == Run(Run(w, a), b)
    ensures AdmissibleRun(w, a + b) <==> AdmissibleRun(w, a) && AdmissibleRun(Run(w, a), b)
    decreases a
  {
    if a == [] {
      assert a + b == b;
    } else {
      assert (a + b)[0] == a[0] && (a + b)[1..] == a[1..] + b;
      RunSplits(Step(w, a[0]), a[1..], b);
    }
  }

  /** The run up to request `i`, that request, and the run from there to request `j`. */
  lemma Between(w: World, rqs: seq<Request>, i: nat, j: nat)
    requires Sound(w) && AdmissibleRun(w, rqs) && i < j <= |rqs|
    ensures var before := Run(w, rqs[..i]);
            && Sound(before) && Admissible(before, rqs[i]) && Sound(Step(before, rqs[i]))
            && Run(w, rqs[..j]) == Run(Step(before, rqs[i]), rqs[i + 1..j])
            && AdmissibleRun(Step(before, rqs[i]), rqs[i + 1..j]) && Sound(Run(w, rqs[..j]))
  {
    var rest := rqs[i..j];
    assert rqs[..j] == rqs[..i] + rest && rqs == rqs[..j] + rqs[j..];
    RunSplits(w, rqs[..j], rqs[j..]);
    RunSplits(w, rqs[..i], rest);
    assert rest[0] == rqs[i] && rest[1..] == rqs[i + 1..j];
    SoundInEveryRun(w, rqs[..i]);
    SoundInEveryRun(w, rqs[..j]);
    StepKeepsSound(Run(w, rqs[..i]), rqs[i]);
  }

  /**
   Over any run, with any changes of address and any reuse of a freed address, a token resets only
   the account it was issued for; no other password changes.
   */
  lemma ResetsOnlyItsAccount(w: World, rqs: seq<Request>, i: nat, j: nat, token: ResetToken, user: UserId)
    requires Sound(w) && AdmissibleRun(w, rqs) && i < j < |rqs|
    requires IssuesFor(Run(w, rqs[..i]), rqs[i], token, user)
    requires rqs[j].op.ResetPassword? && rqs[j].op.presented == Bearing(token)
    ensures var before := Run(w, rqs[..j]);
            var after := Step(before, rqs[j]);
            && (Answer(before, rqs[j]) == Done ==> Affects(before, rqs[j]) == Some(user))
            && forall v :: v in before.users && v != user ==> v in after.users && after.users[v] == before.users[v]
  {
    Between(w, rqs, i, j);
    IssuedIsOwned(Run(w, rqs[..i]), rqs[i], token, user);
    OwnedForever(Step(Run(w, rqs[..i]), rqs[i]), rqs[i + 1..j], token, user);
    AcceptedIff(Run(w, rqs[..j]), token, rqs[j].op.newHash, rqs[j].delay);
  }

  /** The account no longer has the salt and can never have it again. */
  ghost predicate Spent(w: World, user: UserId, salt: Salt) {
    && user in w.users && w.users[user].hash.Some? && SaltOf(user, w.users[user]) != salt
    && OwnerOf(w, salt) == Some(user)
  }

  lemma {:induction false} SpentForever(w: World, rqs: seq<Request>, user: UserId, salt: Salt)
    requires AdmissibleRun(w, rqs) && Spent(w, user, salt)
    ensures Spent(Run(w, rqs), user, salt)
    decreases rqs
  {
    if rqs != [] {
      SpentForever(Step(w, rqs[0]), rqs[1..], user, salt);
    }
  }

  lemma PasswordChangeSpends(w: World, rq: Request, user: UserId, salt: Salt)
    requires Sound(w) && Admissible(w, rq) && Affects(w, rq) == Some(user) && OwnerOf(w, salt) == Some(user)
    ensures Spent(Step(w, rq), user, salt)
  {
  }

  /**
   After a successful reset or password change of an account, no token issued for it earlier is
   ever accepted again.
   */
  lemma EarlierTokensAreDead(w: World, rqs: seq<Request>, i: nat, j: nat, token: ResetToken, user: UserId,
                             newHash: Hash, delay: nat, commits: bool)
    requires Sound(w) && AdmissibleRun(w, rqs) && i < j < |rqs|
    requires IssuesFor(Run(w, rqs[..i]), rqs[i], token, user)
    requires Affects(Run(w, rqs[..j]), rqs[j]) == Some(user)
    ensures var last := Request(ResetPassword(Bearing(token), newHash), delay, commits);
            Answer(Run(w, rqs), last) == InvalidToken && Step(Run(w, rqs), last).users == Run(w, rqs).users
  {
    Between(w, rqs, i, j);
    Between(w, rqs, j, |rqs|);
    assert rqs[..|rqs|] == rqs;
    IssuedIsOwned(Run(w, rqs[..i]), rqs[i], token, user);
    OwnedForever(Step(Run(w, rqs[..i]), rqs[i]), rqs[i + 1..j], token, user);
    var mid := Run(w, rqs[..j]);
    PasswordChangeSpends(mid, rqs[j], user, token.salt);
    SpentForever(Step(mid, rqs[j]), rqs[j + 1..|rqs|], user, token.salt);
    SpentIsRefused(Run(w, rqs), token, user, newHash, delay, commits);
  }

  lemma SpentIsRefused(w: World, token: ResetToken, user: UserId, newHash: Hash, delay: nat, commits: bool)
    requires Sound(w) && Spent(w, user, token.salt)
    ensures var rq := Request(ResetPassword(Bearing(token), newHash), delay, commits);
            Answer(w, rq) == InvalidToken && Step(w, rq).users == w.users
  {
  }
}
