/** The reset and password functions as they run against mutable account rows. */
module ResetService {
  import opened Wrappers
  import opened ResetModel
  import ResetRuns

  class PasswordAccounts {
    var users: map<UserId, User>
    var clock: int
    /** The tokens that carry a genuine signature: those handed out. */
    var issued: set<ResetToken>
    ghost var hashedFor: map<Hash, UserId>

    constructor (now: int)
      ensures State() == World(map[], now, map[], {}) && ResetRuns.UniqueEmails(users)
    {
      users, clock, issued, hashedFor := map[], now, {}, map[];
    }

    ghost function State(): World
      reads this
    {
      World(users, clock, hashedFor, issued)
    }

    /** SELECT by the unique address column. */
    method FindByEmail(email: Email) returns (found: Option<UserId>)
      requires ResetRuns.UniqueEmails(users)
      ensures found == Lookup(users, email)
    {
      var rows := set u | u in users && users[u].email == email;
      if rows == {} {
        assert forall u :: u in users && users[u].email == email ==> u in rows;
        return None;
      }
      var u :| u in rows;
      assert EmailInUse(users, email);
      found := Some(u);
    }

    /** Look the account up by the unverified address in the token, then verify against its current salt. */
    method ResetPassword(presented: Presented, newHash: Hash) returns (o: Outcome)
      requires ResetRuns.UniqueEmails(users)
      modifies `users
      ensures var a := old(TryReset(State(), clock, presented, newHash));
              o == a.outcome && users == a.users
    {
      if presented.Garbage? {
        return InvalidToken;
      }
      var token := presented.token;
      var found := FindByEmail(token.email);
      if found.None? {
        return InvalidToken;
      }
      var user := users[found.value];
      if token !in issued || token.salt != SaltOf(found.value, user) {
        return InvalidToken;
      }
      if clock - token.stamp > MAX_AGE {
        return TokenExpired;
      }
      users := users[found.value := user.(hash := Some(newHash))];
      o := Done;
    }

    method ForgotPassword(email: Email) returns (o: Outcome)
      requires ResetRuns.UniqueEmails(users)
      ensures o == Try(State(), clock, Op.ForgotPassword(email)).outcome
    {
      var found := FindByEmail(email);
      if found.None? {
        return Done;
      }
      var user := users[found.value];
      var salt := if user.hash.Some? then FromHash(user.hash.value) else NoPassword(found.value);
      o := Issued(ResetToken(email, salt, clock));
    }

    /** The token an administrator's forced reset mails to the user. */
    method ForcePasswordReset(user: UserId) returns (o: Outcome)
      ensures o == Try(State(), clock, Op.ForceReset(user)).outcome
    {
      if user !in users {
        return InvalidToken;
      }
      var u := users[user];
      var salt := if u.hash.Some? then FromHash(u.hash.value) else NoPassword(user);
      o := Issued(ResetToken(u.email, salt, clock));
    }

    method ChangePassword(user: UserId, passwordOk: bool, newHash: Hash) returns (o: Outcome)
      modifies `users
      ensures var a := old(Try(State(), clock, Op.ChangePassword(user, passwordOk, newHash)));
              o == a.outcome && users == a.users
    {
      if user !in users || !users[user].verified {
        return EmailNotVerified;
      }
      if users[user].hash.None? || !passwordOk {
        return InvalidCredentials;
      }
      users := users[user := users[user].(hash := Some(newHash))];
      o := Done;
    }

    /** update_profile with a new address. */
    method ChangeEmail(user: UserId, email: Email) returns (o: Outcome)
      requires ResetRuns.UniqueEmails(users)
      modifies `users
      ensures var a := old(Try(State(), clock, Op.ChangeEmail(user, email)));
              o == a.outcome && users == a.users
    {
      if user !in users || !users[user].verified {
        return EmailNotVerified;
      }
      if users[user].email == email {
        return Done;
      }
      var taken := FindByEmail(email);
      if taken.Some? {
        return EmailTaken;
      }
      users := users[user := users[user].(email := email)];
      users := users[user := users[user].(verified := false)];
      o := Done;
    }

    /** Sign up with a password, or through a provider with none. */
    method AddAccount(user: UserId, email: Email, hash: Option<Hash>) returns (o: Outcome)
      requires ResetRuns.UniqueEmails(users)
      modifies `users
      ensures var taken := old(user in users || EmailInUse(users, email));
              && o == (if taken then EmailTaken else Done)
              && users == if taken then old(users) else old(users)[user := User(email, hash, false)]
    {
      var taken := FindByEmail(email);
      if user in users || taken.Some? {
        assert taken.Some? ==> EmailInUse(users, email);
        return EmailTaken;
      }
      users := users[user := User(email, hash, false)];
      o := Done;
    }

    method Dispatch(op: Op) returns (o: Outcome)
      requires ResetRuns.UniqueEmails(users)
      modifies `users
      ensures var a := old(Try(State(), clock, op));
              o == a.outcome && users == a.users
    {
      match op
      case SignUp(user, email, newHash) => o := AddAccount(user, email, Some(newHash));
      case OAuthSignUp(user, email) => o := AddAccount(user, email, None);
      case VerifyEmail(user) =>
        if user !in users {
          return InvalidToken;
        }
        users := users[user := users[user].(verified := true)];
        o := Done;
      case ChangeEmail(user, email) => o := ChangeEmail(user, email);
      case ForgotPassword(email) => o := ForgotPassword(email);
      case ForceReset(user) => o := ForcePasswordReset(user);
      case ResetPassword(presented, newHash) => o := ResetPassword(presented, newHash);
      case ChangePassword(user, passwordOk, newHash) => o := ChangePassword(user, passwordOk, newHash);
    }

    /** The password hash a successful request computes, with the account it is for. */
    static ghost function HashComputed(users: map<UserId, User>, op: Op): map<Hash, UserId> {
      match op
      case SignUp(user, _, newHash) => map[newHash := user]
      case ChangePassword(user, _, newHash) => map[newHash := user]
      case ResetPassword(presented, newHash) =>
        if presented.Bearing? && Lookup(users, presented.token.email).Some?
        then map[newHash := Lookup(users, presented.token.email).value] else map[]
      case _ => map[]
    }

    static lemma StepOfAttempt(w: World, rq: Request, a: Attempt)
      requires a == Try(w, w.now + rq.delay, rq.op)
      ensures Answer(w, rq) == if a.outcome == Done && !rq.commits then ServerError else a.outcome
      ensures Step(w, rq) == World(
        if Answer(w, rq) == Done then a.users else w.users,
        w.now + rq.delay,
        if a.outcome == Done then w.hashedFor + HashComputed(w.users, rq.op) else w.hashedFor,
        if a.outcome.Issued? then w.issued + {a.outcome.token} else w.issued)
    {
    }

    /** Run the request after its delay, and record the hash it computed or the token it handed out. */
    method Act(rq: Request, ghost a: Attempt) returns (o: Outcome)
      requires ResetRuns.UniqueEmails(users) && a == Try(State(), clock + rq.delay, rq.op)
      modifies this
      ensures o == a.outcome && users == a.users && clock == old(clock) + rq.delay
      ensures issued == if o.Issued? then old(issued) + {o.token} else old(issued)
      ensures hashedFor == if o == Done then old(hashedFor) + HashComputed(old(users), rq.op) else old(hashedFor)
    {
      ghost var before := users;
      clock := clock + rq.delay;
      o := Dispatch(rq.op);
      if o.Issued? {
        issued := issued + {o.token};
      }
      if o == Done {
        hashedFor := hashedFor + HashComputed(before, rq.op);
      }
    }

    /** One request: a mailed token stays valid whatever follows, a changed row only if the request commits. */
    method Handle(rq: Request) returns (answer: Outcome)
      requires ResetRuns.UniqueEmails(users)
      modifies this
      ensures State() == Step(old(State()), rq) && answer == Answer(old(State()), rq)
      ensures ResetRuns.UniqueEmails(users)
    {
      var before := users;
      ghost var a := Try(State(), clock + rq.delay, rq.op);
      StepOfAttempt(State(), rq, a);
      ResetRuns.AddressesStayUnique(State(), rq);
      answer := Act(rq, a);
      if answer == Done && !rq.commits {
        answer := ServerError;
      }
      if answer != Done {
        users := before;
      }
    }
  }
}
