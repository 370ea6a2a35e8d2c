/** The MFA functions as they run against mutable user rows and Redis. */
module MfaService {
  import opened Clock
  import opened Redis
  import opened Wrappers
  import opened MfaModel

  /** The formatted codes to show and the rows to store for them. */
  method GenerateBackupCodes(raws: seq<string>) returns (shown: seq<string>, rows: seq<BackupRow>)
    ensures shown == Displays(raws) && rows == NewRows(raws)
  {
    shown, rows := [], [];
    for i := 0 to |raws|
      invariant shown == Displays(raws)[..i] && rows == NewRows(raws)[..i]
    {
      shown := shown + [Display(raws[i])];
      rows := rows + [BackupRow(Strip(raws[i]), false)];
    }
  }

  class MfaBackend {
    var users: map<UserId, User>
    var pending: map<MfaToken, Entry<PendingLogin>>
    var lastCode: map<UserId, Entry<string>>
    var identities: map<Identity, UserId>
    var links: map<MfaToken, Entry<PendingLink>>
    var clock: int
    ghost var minted: set<MfaToken>

    constructor (now: int)
      ensures State() == World(map[], map[], Keys(map[], map[], map[]), now, {})
    {
      users, identities, clock, minted := map[], map[], now, {};
      pending, lastCode, links := map[], map[], map[];
    }

    ghost function State(): World
      reads this
    {
      World(users, identities, Keys(pending, lastCode, links), clock, minted)
    }

    /** The request left the rows, the keys and the answer that the attempt names. */
    ghost predicate Did(a: Attempt, o: Outcome)
      reads this
    {
      && users == a.users && identities == a.identities
      && Keys(pending, lastCode, links) == a.keys && o == a.outcome
    }

    method IsDeviceTrusted(user: UserId, device: Option<Device>) returns (trusted: bool)
      requires user in users
      modifies `users
      ensures trusted == Trusted(old(users)[user], device, clock)
      ensures users == old(users)[user := Looked(old(users)[user], device, clock)]
    {
      var u := users[user];
      if device.None? || device.value !in u.devices {
        return false;
      }
      if u.devices[device.value] < clock {
        users := users[user := u.(devices := u.devices - {device.value})];
        return false;
      }
      trusted := true;
    }

    method Login(user: UserId, passwordOk: bool, device: Option<Device>, newToken: MfaToken) returns (o: Outcome)
      modifies `users, `pending
      ensures Did(old(TryLogin(State(), clock, user, passwordOk, device, newToken)), o)
    {
      if user !in users || !users[user].active || !passwordOk {
        return InvalidCredentials;
      }
      var u := users[user];
      if !u.verified {
        return EmailNotVerified;
      }
      if u.enforced && !u.enabled {
        pending := pending[newToken := Entry(PendingLogin(user, true), clock + PENDING_TTL)];
        return SetupPending(newToken);
      }
      if u.enabled {
        if !u.enforced {
          var trusted := IsDeviceTrusted(user, device);
          if trusted {
            return TokensIssued(user);
          }
        }
        pending := pending[newToken := Entry(PendingLogin(user, false), clock + PENDING_TTL)];
        return Pending(newToken);
      }
      o := TokensIssued(user);
    }

    /** Try the submitted code against each unredeemed row of the user, marking the first that verifies it. */
    method UseBackupCode(user: UserId, code: string) returns (valid: bool)
      requires user in users
      modifies `users
      ensures var rows := Redeem(old(users)[user].backups, Strip(code));
              && valid == rows.Some?
              && users == if valid then old(users)[user := old(users)[user].(backups := rows.value)] else old(users)
    {
      var rows := users[user].backups;
      var stripped := Strip(code);
      var i := 0;
      while i < |rows| && !Redeems(rows[i], stripped)
        invariant i <= |rows| && forall k :: 0 <= k < i ==> !Redeems(rows[k], stripped)
      {
        i := i + 1;
      }
      valid := i < |rows|;
      if valid {
        users := users[user := users[user].(backups := rows[i := rows[i].(used := true)])];
      }
    }

    method MfaVerify(token: MfaToken, code: string, totpOk: bool, trust: Option<Device>) returns (o: Outcome)
      modifies `users, `pending, `lastCode
      ensures Did(old(TryVerify(State(), clock, token, code, totpOk, trust)), o)
    {
      if !Live(pending, token, clock) {
        return InvalidToken;
      }
      var p := pending[token].value;
      if p.setupRequired {
        return MfaSetupRequired;
      }
      if p.user !in users || !users[p.user].active {
        return InvalidToken;
      }
      if Replayed(lastCode, clock, p.user, code) {
        return MfaInvalidCode;
      }
      if !users[p.user].hasSecret {
        return ServerError;
      }
      if totpOk {
        lastCode := lastCode[p.user := Entry(code, clock + USED_TTL)];
      } else {
        var valid := UseBackupCode(p.user, code);
        if !valid {
          return MfaInvalidCode;
        }
      }
      pending := pending - {token};
      if trust.Some? {
        var u := users[p.user];
        users := users[p.user := u.(devices := u.devices[trust.value := clock + DEVICE_TTL])];
      }
      o := TokensIssued(p.user);
    }

    method ConfirmEnrollment(user: UserId, totpOk: bool, raws: seq<string>) returns (o: Outcome)
      modifies `users
      ensures Did(old(TryConfirm(State(), user, totpOk, raws)), o)
    {
      if user !in users {
        return InvalidToken;
      }
      if !users[user].verified {
        return EmailNotVerified;
      }
      if !users[user].hasSecret {
        return MfaNotStarted;
      }
      if users[user].enabled {
        return MfaAlreadyEnabled;
      }
      if !totpOk {
        return MfaInvalidCode;
      }
      users := users[user := users[user].(enabled := true)];
      var shown, rows := GenerateBackupCodes(raws);
      users := users[user := users[user].(backups := [])];
      users := users[user := users[user].(backups := rows)];
      o := BackupCodes(shown);
    }

    method Disable(user: UserId, code: string, totpOk: bool) returns (o: Outcome)
      modifies `users
      ensures Did(old(TryDisable(State(), user, code, totpOk)), o)
    {
      if user !in users {
        return InvalidToken;
      }
      if !users[user].verified {
        return EmailNotVerified;
      }
      if !users[user].enabled {
        return MfaNotEnabled;
      }
      if !users[user].hasSecret {
        return ServerError;
      }
      if !totpOk {
        var valid := UseBackupCode(user, code);
        if !valid {
          return MfaInvalidCode;
        }
      }
      users := users[user := users[user].(enabled := false, hasSecret := false)];
      users := users[user := users[user].(backups := [])];
      o := Done;
    }

    method BeginEnrollment(user: UserId) returns (o: Outcome)
      modifies `users
      ensures Did(old(Try(State(), clock, Op.BeginEnrollment(user))), o)
    {
      if user !in users {
        return InvalidToken;
      }
      if !users[user].verified {
        return EmailNotVerified;
      }
      if users[user].enabled {
        return MfaAlreadyEnabled;
      }
      users := users[user := users[user].(hasSecret := true)];
      o := Done;
    }

    /** Sign-in by provider: a known identity, an address that is taken, or a new account. */
    method ResolveOAuthAccount(identity: Identity, account: UserId, hasPassword: bool, newToken: MfaToken)
      returns (o: Outcome)
      modifies `users, `identities, `links
      ensures Did(old(TryOAuth(State(), clock, identity, account, hasPassword, newToken)), o)
    {
      if identity in identities {
        if identities[identity] !in users {
          return ServerError;
        }
        return TokensIssued(identities[identity]);
      }
      if account in users {
        if !hasPassword {
          return ProviderConflict;
        }
        links := links[newToken := Entry(PendingLink(account, identity), clock + PENDING_TTL)];
        return LinkPending(newToken);
      }
      users := users[account := FreshUser()];
      identities := identities[identity := account];
      o := TokensIssued(account);
    }

    method ConfirmOAuthLink(token: MfaToken, passwordOk: bool) returns (o: Outcome)
      modifies `identities, `links
      ensures Did(old(TryConfirmLink(State(), clock, token, passwordOk)), o)
    {
      if !Live(links, token, clock) {
        return InvalidToken;
      }
      var link := links[token].value;
      if link.user !in users {
        return InvalidToken;
      }
      if !passwordOk {
        return InvalidCredentials;
      }
      links := links - {token};
      if LinkTaken(identities, link) {
        return ServerError;
      }
      identities := identities[link.identity := link.user];
      o := TokensIssued(link.user);
    }

    method Dispatch(op: Op) returns (o: Outcome)
      modifies `users, `identities, `pending, `lastCode, `links
      ensures Did(old(Try(State(), clock, op)), o)
    {
      match op
      case SignUp(user) =>
        if user in users {
          return InvalidCredentials;
        }
        users := users[user := FreshUser()];
        o := Done;
      case VerifyEmail(user) =>
        if user !in users {
          return InvalidCredentials;
        }
        users := users[user := users[user].(verified := true)];
        o := Done;
      case SetEnforced(user, enforced) =>
        if user !in users {
          return InvalidToken;
        }
        users := users[user := users[user].(enforced := enforced)];
        o := Done;
      case Login(user, passwordOk, device, newToken) => o := Login(user, passwordOk, device, newToken);
      case MfaVerify(token, code, totpOk, trust) => o := MfaVerify(token, code, totpOk, trust);
      case BeginEnrollment(user) => o := BeginEnrollment(user);
      case ConfirmEnrollment(user, totpOk, raws) => o := ConfirmEnrollment(user, totpOk, raws);
      case Disable(user, code, totpOk) => o := Disable(user, code, totpOk);
      case OAuthSignIn(identity, account, hasPassword, newToken) =>
        o := ResolveOAuthAccount(identity, account, hasPassword, newToken);
      case ConfirmLink(token, passwordOk) => o := ConfirmOAuthLink(token, passwordOk);
      case ResetPassword(user) => o := if user in users then Done else InvalidToken;
      case RevokeSessions(user) => o := if user in users then Done else InvalidToken;
      case ChangeEmail(user) =>
        if user !in users {
          return InvalidToken;
        }
        if !users[user].verified {
          return EmailNotVerified;
        }
        users := users[user := users[user].(verified := false)];
        o := Done;
    }

    method Perform(rq: Request, ghost a: Attempt) returns (o: Outcome)
      requires a == AttemptOf(State(), rq)
      modifies `users, `identities, `pending, `lastCode, `links, `clock
      ensures Did(a, o) && clock == old(clock) + rq.delay
    {
      clock := clock + rq.delay;
      assert State() == old(State()).(now := clock);
      TryIgnoresNow(old(State()), clock, rq.op);
      o := Dispatch(rq.op);
    }

    /** The request's own instant counts, not the one at which the state was last touched. */
    static lemma TryIgnoresNow(w: World, now: int, op: Op)
      ensures Try(w.(now := now), now, op) == Try(w, now, op)
    {
    }

    /** One request: perform it, then commit the rows or restore them. Redis is never restored. */
    method Handle(rq: Request) returns (answer: Outcome)
      modifies this
      ensures State() == Step(old(State()), rq) && answer == Answer(old(State()), rq)
    {
      var before, linked := users, identities;
      ghost var a := AttemptOf(State(), rq);
      answer := Perform(rq, a);
      if !answer.Raised() && !rq.commits {
        answer := ServerError;
      }
      if answer.Raised() {
        users, identities := before, linked;
      }
      if Draws(rq.op) {
        minted := minted + {rq.op.newToken};
      }
    }
  }
}
