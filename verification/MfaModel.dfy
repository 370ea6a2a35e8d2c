/** Two-stage login: password first, then a TOTP or backup code against a pending token; and sign-in by provider. */
module MfaModel {
  import opened Clock
  import opened Redis
  import opened Wrappers

  type UserId = nat
  type MfaToken = nat
  type Device = nat

  const PENDING_TTL: int := 300 * SECOND
  const USED_TTL: int := 60 * SECOND
  const DEVICE_TTL: int := 30 * DAY
  const BACKUP_CODE_COUNT := 10

  /** What the stored hash verifies (the raw code without its dashes), and whether it was redeemed. */
  datatype BackupRow = BackupRow(code: string, used: bool)

  datatype User = User(
    active: bool, verified: bool, enforced: bool, hasSecret: bool, enabled: bool,
    backups: seq<BackupRow>, devices: map<Device, int>)

  /** A setup-required entry lets nobody in. */
  datatype PendingLogin = PendingLogin(user: UserId, setupRequired: bool)

  /** An account as a provider knows it, and the request to link one to a password account. */
  datatype Identity = Identity(provider: nat, id: nat)
  datatype PendingLink = PendingLink(user: UserId, identity: Identity)

  datatype Keys = Keys(
    pending: map<MfaToken, Entry<PendingLogin>>,
    lastCode: map<UserId, Entry<string>>,
    links: map<MfaToken, Entry<PendingLink>>)

  /** `minted` records every pending token ever drawn. */
  datatype World = World(
    users: map<UserId, User>, identities: map<Identity, UserId>, keys: Keys, now: int, minted: set<MfaToken>)

  datatype Outcome =
    | TokensIssued(user: UserId)
    | Pending(token: MfaToken)
    | SetupPending(token: MfaToken)
    | LinkPending(token: MfaToken)
    | BackupCodes(codes: seq<string>)
    | Done
    | InvalidCredentials
    | EmailNotVerified
    | InvalidToken
    | MfaSetupRequired
    | MfaInvalidCode
    | MfaAlreadyEnabled
    | MfaNotStarted
    | MfaNotEnabled
    | ProviderConflict
    | ServerError
  {
    predicate Raised() {
      !(TokensIssued? || Pending? || SetupPending? || LinkPending? || BackupCodes? || Done?)
    }
  }

  /**
   The results of checking a password or a TOTP code, the random backup codes and new names are
   inputs. A provider sign-in names the account that has the provider's address, or the account to
   create when there is none.
   */
  datatype Op =
    | SignUp(user: UserId)
    | VerifyEmail(user: UserId)
    | SetEnforced(user: UserId, enforced: bool)
    | Login(user: UserId, passwordOk: bool, device: Option<Device>, newToken: MfaToken)
    | MfaVerify(token: MfaToken, code: string, totpOk: bool, trust: Option<Device>)
    | BeginEnrollment(user: UserId)
    | ConfirmEnrollment(user: UserId, totpOk: bool, raws: seq<string>)
    | Disable(user: UserId, code: string, totpOk: bool)
    | OAuthSignIn(identity: Identity, account: UserId, hasPassword: bool, newToken: MfaToken)
    | ConfirmLink(token: MfaToken, passwordOk: bool)
    | ResetPassword(user: UserId)
    | RevokeSessions(user: UserId)
    | ChangeEmail(user: UserId)

  // ---- Backup codes ----

  function Strip(s: string): string {
    if s == "" then "" else (if s[0] == '-' then "" else [s[0]]) + Strip(s[1..])
  }

  /** The form shown to the user: five characters, a dash, the rest. */
  function Display(raw: string): string {
    if |raw| < 5 then raw + "-" else raw[..5] + "-" + raw[5..]
  }

  function NewRows(raws: seq<string>): seq<BackupRow> {
    seq(|raws|, i requires 0 <= i < |raws| => BackupRow(Strip(raws[i]), false))
  }

  function Displays(raws: seq<string>): seq<string> {
    seq(|raws|, i requires 0 <= i < |raws| => Display(raws[i]))
  }

  predicate Redeems(row: BackupRow, code: string) {
    !row.used && row.code == code
  }

  /** Where the first row that `code` redeems stands; the length when there is none. */
  function FirstMatch(rows: seq<BackupRow>, code: string): (i: nat)
    ensures i <= |rows| && (i < |rows| ==> Redeems(rows[i], code))
    ensures forall k :: 0 <= k < i ==> !Redeems(rows[k], code)
  {
    if rows == [] || Redeems(rows[0], code) then 0
    else
      var i := 1 + FirstMatch(rows[1..], code);
      assert forall k :: 1 <= k < i ==> rows[k] == rows[1..][k - 1];
      i
  }

  function Redeem(rows: seq<BackupRow>, code: string): Option<seq<BackupRow>> {
    var i := FirstMatch(rows, code);
    if i == |rows| then None else Some(rows[i := rows[i].(used := true)])
  }

  function Unused(rows: seq<BackupRow>): nat {
    if rows == [] then 0 else (if rows[0].used then 0 else 1) + Unused(rows[1..])
  }

  // ---- Requests ----

  datatype Attempt = Attempt(
    users: map<UserId, User>, identities: map<Identity, UserId>, keys: Keys, outcome: Outcome)

  function Failed(w: World, o: Outcome): Attempt {
    Attempt(w.users, w.identities, w.keys, o)
  }

  function Changed(w: World, users: map<UserId, User>, keys: Keys, o: Outcome): Attempt {
    Attempt(users, w.identities, keys, o)
  }

  function HoldPending(w: World, now: int, token: MfaToken, p: PendingLogin): Keys {
    w.keys.(pending := w.keys.pending[token := Entry(p, now + PENDING_TTL)])
  }

  predicate Trusted(u: User, device: Option<Device>, now: int) {
    device.Some? && device.value in u.devices && now <= u.devices[device.value]
  }

  /** Looking up an expired device row deletes it. */
  function Looked(u: User, device: Option<Device>, now: int): User {
    if device.Some? && device.value in u.devices && !Trusted(u, device, now)
    then u.(devices := u.devices - {device.value}) else u
  }

  function TryLogin(w: World, now: int, user: UserId, passwordOk: bool, device: Option<Device>, newToken: MfaToken)
    : Attempt
  {
    if user !in w.users || !w.users[user].active || !passwordOk then Failed(w, InvalidCredentials)
    else
      var u := w.users[user];
      if !u.verified then Failed(w, EmailNotVerified)
      else if u.enforced && !u.enabled then
        Changed(w, w.users, HoldPending(w, now, newToken, PendingLogin(user, true)), SetupPending(newToken))
      else if u.enabled then
        if !u.enforced && Trusted(u, device, now) then Changed(w, w.users, w.keys, TokensIssued(user))
        else Changed(w, if u.enforced then w.users else w.users[user := Looked(u, device, now)],
                     HoldPending(w, now, newToken, PendingLogin(user, false)), Pending(newToken))
      else Changed(w, w.users, w.keys, TokensIssued(user))
  }

  function FreshUser(): User {
    User(true, false, false, false, false, [], map[])
  }

  predicate IsTotpShaped(code: string) {
    |code| == 6 && forall i :: 0 <= i < 6 ==> '0' <= code[i] <= '9'
  }

  /** The code is the TOTP code accepted last, within the last minute. */
  predicate Replayed(lastCode: map<UserId, Entry<string>>, now: int, user: UserId, code: string) {
    IsTotpShaped(code) && Live(lastCode, user, now) && lastCode[user].value == code
  }

  function Trust(u: User, trust: Option<Device>, now: int): User {
    if trust.Some? then u.(devices := u.devices[trust.value := now + DEVICE_TTL]) else u
  }

  function Consume(keys: Keys, token: MfaToken): Keys {
    keys.(pending := keys.pending - {token})
  }

  function TryVerify(w: World, now: int, token: MfaToken, code: string, totpOk: bool, trust: Option<Device>): Attempt {
    if !Live(w.keys.pending, token, now) then Failed(w, InvalidToken)
    else
      var p := w.keys.pending[token].value;
      if p.setupRequired then Failed(w, MfaSetupRequired)
      else if p.user !in w.users || !w.users[p.user].active then Failed(w, InvalidToken)
      else if Replayed(w.keys.lastCode, now, p.user, code) then Failed(w, MfaInvalidCode)
      else
        var u := w.users[p.user];
        if !u.hasSecret then Failed(w, ServerError)
        else if totpOk then
          var keys := w.keys.(lastCode := w.keys.lastCode[p.user := Entry(code, now + USED_TTL)]);
          Changed(w, w.users[p.user := Trust(u, trust, now)], Consume(keys, token), TokensIssued(p.user))
        else
          var rows := Redeem(u.backups, Strip(code));
          if rows.None? then Failed(w, MfaInvalidCode)
          else Changed(w, w.users[p.user := Trust(u.(backups := rows.value), trust, now)],
                       Consume(w.keys, token), TokensIssued(p.user))
  }

  function TryConfirm(w: World, user: UserId, totpOk: bool, raws: seq<string>): Attempt {
    if user !in w.users then Failed(w, InvalidToken)
    else
      var u := w.users[user];
      if !u.verified then Failed(w, EmailNotVerified)
      else if !u.hasSecret then Failed(w, MfaNotStarted)
      else if u.enabled then Failed(w, MfaAlreadyEnabled)
      else if !totpOk then Failed(w, MfaInvalidCode)
      else Changed(w, w.users[user := u.(enabled := true, backups := NewRows(raws))], w.keys,
                   BackupCodes(Displays(raws)))
  }

  function TryDisable(w: World, user: UserId, code: string, totpOk: bool): Attempt {
    if user !in w.users then Failed(w, InvalidToken)
    else
      var u := w.users[user];
      if !u.verified then Failed(w, EmailNotVerified)
      else if !u.enabled then Failed(w, MfaNotEnabled)
      else if !u.hasSecret then Failed(w, ServerError)
      else if !totpOk && Redeem(u.backups, Strip(code)).None? then Failed(w, MfaInvalidCode)
      else Changed(w, w.users[user := u.(enabled := false, hasSecret := false, backups := [])], w.keys, Done)
  }

  /** resolve_oauth_account: a known identity signs in, whatever second factor the account has. */
  function TryOAuth(w: World, now: int, identity: Identity, account: UserId, hasPassword: bool, newToken: MfaToken)
    : Attempt
  {
    if identity in w.identities then
      if w.identities[identity] in w.users then Changed(w, w.users, w.keys, TokensIssued(w.identities[identity]))
      else Failed(w, ServerError)
    else if account in w.users then
      if !hasPassword then Failed(w, ProviderConflict)
      else
        var link := Entry(PendingLink(account, identity), now + PENDING_TTL);
        Changed(w, w.users, w.keys.(links := w.keys.links[newToken := link]), LinkPending(newToken))
    else
      Attempt(w.users[account := FreshUser()], w.identities[identity := account], w.keys, TokensIssued(account))
  }

  /** An identity belongs to one account, and an account has one identity per provider. */
  predicate LinkTaken(identities: map<Identity, UserId>, link: PendingLink) {
    || link.identity in identities
    || exists i :: i in identities && identities[i] == link.user && i.provider == link.identity.provider
  }

  function TryConfirmLink(w: World, now: int, token: MfaToken, passwordOk: bool): Attempt {
    if !Live(w.keys.links, token, now) then Failed(w, InvalidToken)
    else
      var link := w.keys.links[token].value;
      if link.user !in w.users then Failed(w, InvalidToken)
      else if !passwordOk then Failed(w, InvalidCredentials)
      else
        var keys := w.keys.(links := w.keys.links - {token});
        if LinkTaken(w.identities, link) then Changed(w, w.users, keys, ServerError)
        else Attempt(w.users, w.identities[link.identity := link.user], keys, TokensIssued(link.user))
  }

  /** A password reset and the revocation of all sessions touch neither MFA rows nor device rows. */
  function TrySpare(w: World, user: UserId): Attempt {
    if user !in w.users then Failed(w, InvalidToken) else Changed(w, w.users, w.keys, Done)
  }

  function Try(w: World, now: int, op: Op): Attempt {
    match op
    case SignUp(user) =>
      if user in w.users then Failed(w, InvalidCredentials)
      else Changed(w, w.users[user := FreshUser()], w.keys, Done)
    case VerifyEmail(user) =>
      if user !in w.users then Failed(w, InvalidCredentials)
      else Changed(w, w.users[user := w.users[user].(verified := true)], w.keys, Done)
    case SetEnforced(user, enforced) =>
      if user !in w.users then Failed(w, InvalidToken)
      else Changed(w, w.users[user := w.users[user].(enforced := enforced)], w.keys, Done)
    case Login(user, passwordOk, device, newToken) => TryLogin(w, now, user, passwordOk, device, newToken)
    case MfaVerify(token, code, totpOk, trust) => TryVerify(w, now, token, code, totpOk, trust)
    case BeginEnrollment(user) =>
      if user !in w.users then Failed(w, InvalidToken)
      else if !w.users[user].verified then Failed(w, EmailNotVerified)
      else if w.users[user].enabled then Failed(w, MfaAlreadyEnabled)
      else Changed(w, w.users[user := w.users[user].(hasSecret := true)], w.keys, Done)
    case ConfirmEnrollment(user, totpOk, raws) => TryConfirm(w, user, totpOk, raws)
    case Disable(user, code, totpOk) => TryDisable(w, user, code, totpOk)
    case OAuthSignIn(identity, account, hasPassword, newToken) =>
      TryOAuth(w, now, identity, account, hasPassword, newToken)
    case ConfirmLink(token, passwordOk) => TryConfirmLink(w, now, token, passwordOk)
    case ResetPassword(user) => TrySpare(w, user)
    case RevokeSessions(user) => TrySpare(w, user)
    case ChangeEmail(user) =>
      if user !in w.users then Failed(w, InvalidToken)
      else if !w.users[user].verified then Failed(w, EmailNotVerified)
      else Changed(w, w.users[user := w.users[user].(verified := false)], w.keys, Done)
  }

  datatype Request = Request(op: Op, delay: nat, commits: bool)

  function AttemptOf(w: World, rq: Request): Attempt {
    Try(w, w.now + rq.delay, rq.op)
  }

  function Answer(w: World, rq: Request): Outcome {
    var o := AttemptOf(w, rq).outcome;
    if o.Raised() || rq.commits then o else ServerError
  }

  predicate Draws(op: Op) {
    op.Login? || op.OAuthSignIn?
  }

  /** Rows survive only a request that neither raises nor fails to commit; Redis writes always survive. */
  function Step(w: World, rq: Request): World {
    var a := AttemptOf(w, rq);
    var kept := !Answer(w, rq).Raised();
    World(if kept then a.users else w.users,
          if kept then a.identities else w.identities,
          a.keys,
          w.now + rq.delay,
          if Draws(rq.op) then w.minted + {rq.op.newToken} else w.minted)
  }

  /** Pending tokens are drawn fresh, and ten backup codes are generated. */
  predicate Admissible(w: World, rq: Request) {
    && (Draws(rq.op) ==> rq.op.newToken !in w.minted)
    && (rq.op.ConfirmEnrollment? ==>
          |rq.op.raws| == BACKUP_CODE_COUNT && forall i :: 0 <= i < |rq.op.raws| ==> |rq.op.raws[i]| == 10)
  }

  function Run(w: World, rqs: seq<Request>): World
    decreases rqs
  {
    if rqs == [] then w else Run(Step(w, rqs[0]), rqs[1..])
  }

  predicate AdmissibleRun(w: World, rqs: seq<Request>)
    decreases rqs
  {
    rqs == [] || (Admissible(w, rqs[0]) && AdmissibleRun(Step(w, rqs[0]), rqs[1..]))
  }
}
