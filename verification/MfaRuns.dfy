/** What holds of MFA logins and backup codes over whole runs. */
module MfaRuns {
  import opened Clock
  import opened Redis
  import opened Wrappers
  import opened MfaModel

  // ---- Dashes ----

  lemma {:induction false} StripConcat(a: string, b: string)
    ensures Strip(a + b) == Strip(a) + Strip(b)
    decreases |a|
  {
    if a == "" {
      assert a + b == b;
    } else {
      assert (a + b)[1..] == a[1..] + b;
      StripConcat(a[1..], b);
    }
  }

  /** Stripping takes away all dashes and nothing else; text without dashes stays, in its order. */
  lemma {:induction false} StripIsExact(s: string)
    ensures '-' !in Strip(s) && multiset(Strip(s)) == multiset(s)['-' := 0]
    ensures '-' !in s ==> Strip(s) == s
    decreases |s|
  {
    if s != "" {
      StripIsExact(s[1..]);
      assert s == [s[0]] + s[1..];
    }
  }

  /** What is hashed at enrolment and what a displayed code is stripped to are the same text. */
  lemma DisplayStripsToRaw(raw: string)
    requires |raw| == 10
    ensures Strip(Display(raw)) == Strip(raw)
  {
    assert raw == raw[..5] + raw[5..];
    DashesVanish(raw[..5], raw[5..]);
  }

  lemma DashesVanish(a: string, b: string)
    ensures Strip(a + "-" + b) == Strip(a + b)
  {
    StripConcat(a, b);
    StripConcat(a + "-", b);
    StripConcat(a, "-");
  }

  // ---- Redeeming ----

  /** Unredeemed rows that verify `text`. */
  function Matching(rows: seq<BackupRow>, text: string): nat {
    if rows == [] then 0 else (if Redeems(rows[0], text) then 1 else 0) + Matching(rows[1..], text)
  }

  lemma {:induction false} UsingOneRow(rows: seq<BackupRow>, i: nat, text: string)
    requires i < |rows| && !rows[i].used
    ensures var after := rows[i := rows[i].(used := true)];
            && Unused(after) == Unused(rows) - 1
            && Matching(after, text) == Matching(rows, text) - (if rows[i].code == text then 1 else 0)
    decreases rows
  {
    var after := rows[i := rows[i].(used := true)];
    if i > 0 {
      UsingOneRow(rows[1..], i - 1, text);
      assert after[1..] == rows[1..][i - 1 := rows[i].(used := true)];
    } else {
      assert after[1..] == rows[1..];
    }
  }

  lemma {:induction false} MatchingRowsExist(rows: seq<BackupRow>, text: string)
    ensures Matching(rows, text) > 0 <==> exists i :: 0 <= i < |rows| && Redeems(rows[i], text)
    decreases rows
  {
    if rows != [] {
      MatchingRowsExist(rows[1..], text);
      if exists i :: 0 <= i < |rows[1..]| && Redeems(rows[1..][i], text) {
        var i :| 0 <= i < |rows[1..]| && Redeems(rows[1..][i], text);
        assert rows[i + 1] == rows[1..][i];
      }
      forall i | 1 <= i < |rows| && Redeems(rows[i], text) ensures Matching(rows[1..], text) > 0 {
        assert rows[1..][i - 1] == rows[i];
      }
    }
  }

  /**
   Redeeming succeeds exactly when an unredeemed row verifies the code, and then uses up exactly one
   row, one that verifies the code.
   */
  lemma RedeemIsExact(rows: seq<BackupRow>, code: string, text: string)
    ensures Redeem(rows, code).Some? <==> Matching(rows, code) > 0
    ensures Redeem(rows, code).Some? ==>
      var after := Redeem(rows, code).value;
      && Unused(after) == Unused(rows) - 1
      && Matching(after, text) == Matching(rows, text) - (if code == text then 1 else 0)
      && exists i :: 0 <= i < |rows| && Redeems(rows[i], code) && after == rows[i := rows[i].(used := true)]
  {
    var i := FirstMatch(rows, code);
    MatchingRowsExist(rows, code);
    if i < |rows| {
      UsingOneRow(rows, i, text);
    }
  }

  lemma {:induction false} NewRowsAreUnused(rows: seq<BackupRow>)
    requires forall i :: 0 <= i < |rows| ==> !rows[i].used
    ensures Unused(rows) == |rows|
    decreases rows
  {
    if rows != [] {
      NewRowsAreUnused(rows[1..]);
    }
  }

  // ---- One issue per pending token ----

  /** Request `rq` turns pending token `k` into an issued token pair. */
  ghost predicate IssuesBy(w: World, rq: Request, k: MfaToken) {
    rq.op.MfaVerify? && rq.op.token == k && Answer(w, rq).TokensIssued?
  }

  /** Token `k` was drawn and will never let anybody in. */
  ghost predicate Useless(w: World, k: MfaToken) {
    k in w.minted && (k in w.keys.pending ==> w.keys.pending[k].value.setupRequired)
  }

  /** `entry` is what a login with the correct password holds under its new token `k`. */
  ghost predicate Holds(w: World, rq: Request, k: MfaToken, entry: Entry<PendingLogin>) {
    && rq.op.Login? && rq.op.passwordOk && rq.op.newToken == k
    && AttemptOf(w, rq).outcome == (if entry.value.setupRequired then SetupPending(k) else Pending(k))
    && entry == Entry(PendingLogin(rq.op.user, entry.value.setupRequired), w.now + rq.delay + PENDING_TTL)
  }

  /** A pending entry after a request was there before or is held by it. */
  lemma PendingStep(w: World, rq: Request, k: MfaToken)
    requires k in Step(w, rq).keys.pending
    ensures var entry := Step(w, rq).keys.pending[k];
            (k in w.keys.pending && entry == w.keys.pending[k]) || Holds(w, rq, k, entry)
  {
    if rq.op.MfaVerify? {
      VerifyAddsNoPending(w, rq, k);
    } else if !rq.op.Login? {
      PendingUntouched(w, rq);
    }
  }

  lemma VerifyAddsNoPending(w: World, rq: Request, k: MfaToken)
    requires rq.op.MfaVerify? && k in Step(w, rq).keys.pending
    ensures k in w.keys.pending && Step(w, rq).keys.pending[k] == w.keys.pending[k]
  {
  }

  lemma PendingUntouched(w: World, rq: Request)
    requires !rq.op.Login? && !rq.op.MfaVerify?
    ensures Step(w, rq).keys.pending == w.keys.pending
  {
  }

  lemma MintedGrow(w: World, rq: Request)
    ensures w.minted <= Step(w, rq).minted && (Draws(rq.op) ==> rq.op.newToken in Step(w, rq).minted)
  {
  }

  lemma UselessIssuesNothing(w: World, rq: Request, k: MfaToken)
    requires Useless(w, k)
    ensures !IssuesBy(w, rq, k)
  {
  }

  lemma UselessStep(w: World, rq: Request, k: MfaToken)
    requires Admissible(w, rq) && Useless(w, k)
    ensures Useless(Step(w, rq), k)
  {
    MintedGrow(w, rq);
    if k in Step(w, rq).keys.pending {
      PendingStep(w, rq, k);
    }
  }

  lemma SetupIsUseless(w: World, rq: Request, k: MfaToken)
    requires Answer(w, rq) == SetupPending(k)
    ensures Useless(Step(w, rq), k)
  {
  }

  lemma {:induction false} UselessForever(w: World, rqs: seq<Request>, k: MfaToken)
    requires AdmissibleRun(w, rqs) && Useless(w, k)
    ensures Useless(Run(w, rqs), k)
    decreases rqs
  {
    if rqs != [] {
      UselessStep(w, rqs[0], k);
      UselessForever(Step(w, rqs[0]), rqs[1..], k);
    }
  }

  /** Pending entries are only ever held under drawn tokens. */
  ghost predicate Sound(w: World) {
    forall k :: k in w.keys.pending ==> k in w.minted
  }

  lemma {:induction false} SoundInEveryRun(w: World, rqs: seq<Request>)
    requires Sound(w)
    ensures Sound(Run(w, rqs))
    decreases rqs
  {
    if rqs != [] {
      StepKeepsSound(w, rqs[0]);
      SoundInEveryRun(Step(w, rqs[0]), rqs[1..]);
    }
  }

  lemma StepKeepsSound(w: World, rq: Request)
    requires Sound(w)
    ensures Sound(Step(w, rq))
  {
    MintedGrow(w, rq);
    forall k | k in Step(w, rq).keys.pending ensures k in Step(w, rq).minted {
      PendingStep(w, rq, k);
    }
  }

  lemma {:induction false} RunSplits(w: World, a: seq<Request>, b: seq<Request>)
    ensures Run(w, a + b) == Run(Run(w, a), b)
    ensures AdmissibleRun(w, a + b) <==> AdmissibleRun(w, a) && AdmissibleRun(Run(w, a), b)
    decreases a
  {
    if a == [] {
      assert a + b == b;
    } else {
      assert (a + b)[0] == a[0] && (a + b)[1..] == a[1..] + b;
      RunSplits(Step(w, a[0]), a[1..], b);
    }
  }

  lemma Between(w: World, rqs: seq<Request>, i: nat, j: nat)
    requires AdmissibleRun(w, rqs) && i < j < |rqs|
    ensures var before := Run(w, rqs[..i]);
            && Admissible(before, rqs[i]) && Admissible(Run(w, rqs[..j]), rqs[j])
            && Run(w, rqs[..j]) == Run(Step(before, rqs[i]), rqs[i + 1..j])
            && AdmissibleRun(Step(before, rqs[i]), rqs[i + 1..j])
  {
    var rest := rqs[i..j];
    assert rqs[..j] == rqs[..i] + rest && rqs == rqs[..j] + rqs[j..];
    RunSplits(w, rqs[..j], rqs[j..]);
    RunSplits(w, rqs[..i], rest);
    assert rest[0] == rqs[i] && rest[1..] == rqs[i + 1..j];
  }

  /** Each pending token yields at most one token issue in any run. */
  lemma AtMostOneIssue(w: World, rqs: seq<Request>, i: nat, j: nat, k: MfaToken)
    requires Sound(w) && AdmissibleRun(w, rqs) && i < j < |rqs|
    requires IssuesBy(Run(w, rqs[..i]), rqs[i], k)
    ensures !IssuesBy(Run(w, rqs[..j]), rqs[j], k)
  {
    SoundInEveryRun(w, rqs[..i]);
    Between(w, rqs, i, j);
    var after := Step(Run(w, rqs[..i]), rqs[i]);
    assert k !in after.keys.pending;
    UselessForever(after, rqs[i + 1..j], k);
    UselessIssuesNothing(Run(w, rqs[..j]), rqs[j], k);
  }

  /** A setup-required token yields none. */
  lemma SetupTokenIssuesNothing(w: World, rqs: seq<Request>, i: nat, j: nat, k: MfaToken)
    requires AdmissibleRun(w, rqs) && i < j < |rqs|
    requires Answer(Run(w, rqs[..i]), rqs[i]) == SetupPending(k)
    ensures !IssuesBy(Run(w, rqs[..j]), rqs[j], k)
  {
    Between(w, rqs, i, j);
    SetupIsUseless(Run(w, rqs[..i]), rqs[i], k);
    UselessForever(Step(Run(w, rqs[..i]), rqs[i]), rqs[i + 1..j], k);
    UselessIssuesNothing(Run(w, rqs[..j]), rqs[j], k);
  }

  /** `user` can log in, and this is the password of the account. */
  ghost predicate Authentic(w: World, rq: Request, user: UserId) {
    && rq.op.Login? && rq.op.user == user && rq.op.passwordOk
    && user in w.users && w.users[user].active && w.users[user].verified
  }

  /**
   For every account: a login yields tokens iff the password is right, the account is active and verified,
   no tenant enforces MFA, and none is enrolled or the device is trusted.
   */
  lemma LoginIssuesIff(w: World, rq: Request, user: UserId)
    requires rq.op.Login?
    ensures Answer(w, rq) == TokensIssued(user) <==>
      && rq.commits && Authentic(w, rq, user) && !w.users[user].enforced
      && (!w.users[user].enabled || Trusted(w.users[user], rq.op.device, w.now + rq.delay))
  {
  }

  // ---- Backup codes ----

  /** The request is a login of `user` by backup code. */
  ghost predicate BackupLogin(w: World, rq: Request, user: UserId) {
    rq.op.MfaVerify? && !rq.op.totpOk && Answer(w, rq) == TokensIssued(user)
  }

  ghost function BackupLogins(w: World, rqs: seq<Request>, user: UserId): nat
    decreases rqs
  {
    if rqs == [] then 0
    else (if BackupLogin(w, rqs[0], user) then 1 else 0) + BackupLogins(Step(w, rqs[0]), rqs[1..], user)
  }

  /** Those among them that submitted `text`, dashes aside. */
  ghost function LoginsWith(w: World, rqs: seq<Request>, user: UserId, text: string): nat
    decreases rqs
  {
    if rqs == [] then 0
    else (if BackupLogin(w, rqs[0], user) && Strip(rqs[0].op.code) == text then 1 else 0)
         + LoginsWith(Step(w, rqs[0]), rqs[1..], user, text)
  }

  /** No request of the run disables MFA for `user`. */
  ghost predicate StaysEnrolled(w: World, rqs: seq<Request>, user: UserId)
    decreases rqs
  {
    rqs == [] || (!(rqs[0].op.Disable? && rqs[0].op.user == user && Answer(w, rqs[0]) == Done)
                  && StaysEnrolled(Step(w, rqs[0]), rqs[1..], user))
  }

  ghost predicate Enrolled(w: World, user: UserId) {
    user in w.users && w.users[user].enabled && w.users[user].hasSecret
  }

  /** Only a login by backup code of this user touches the rows, and it uses up one that verifies its code. */
  lemma CodesStep(w: World, rq: Request, user: UserId, text: string)
    requires Enrolled(w, user)
    requires !(rq.op.Disable? && rq.op.user == user && Answer(w, rq) == Done)
    ensures Enrolled(Step(w, rq), user)
    ensures var rows, after := w.users[user].backups, Step(w, rq).users[user].backups;
            var uses := BackupLogin(w, rq, user);
            && Unused(after) == Unused(rows) - (if uses then 1 else 0)
            && Matching(after, text) == Matching(rows, text) - (if uses && Strip(rq.op.code) == text then 1 else 0)
  {
    if BackupLogin(w, rq, user) {
      CodeSpent(w, rq, user);
      RedeemIsExact(w.users[user].backups, Strip(rq.op.code), text);
    } else {
      CodesStay(w, rq, user);
    }
  }

  lemma CodeSpent(w: World, rq: Request, user: UserId)
    requires Enrolled(w, user) && BackupLogin(w, rq, user)
    ensures Enrolled(Step(w, rq), user)
    ensures Redeem(w.users[user].backups, Strip(rq.op.code)) == Some(Step(w, rq).users[user].backups)
  {
  }

  lemma CodesStay(w: World, rq: Request, user: UserId)
    requires Enrolled(w, user) && !BackupLogin(w, rq, user)
    requires !(rq.op.Disable? && rq.op.user == user && Answer(w, rq) == Done)
    ensures Enrolled(Step(w, rq), user) && Step(w, rq).users[user].backups == w.users[user].backups
  {
    if rq.op.MfaVerify? {
      OtherVerifySparesCodes(w, rq, user);
    } else if rq.op.Login? {
      LoginSparesCodes(w, rq, user);
    } else if rq.op.ConfirmEnrollment? || rq.op.Disable? {
      OthersEnrolmentSparesCodes(w, rq, user);
    }
  }

  lemma OthersEnrolmentSparesCodes(w: World, rq: Request, user: UserId)
    requires Enrolled(w, user) && (rq.op.ConfirmEnrollment? || rq.op.Disable?)
    requires !(rq.op.Disable? && rq.op.user == user && Answer(w, rq) == Done)
    ensures Enrolled(Step(w, rq), user) && Step(w, rq).users[user].backups == w.users[user].backups
  {
  }

  lemma OtherVerifySparesCodes(w: World, rq: Request, user: UserId)
    requires Enrolled(w, user) && rq.op.MfaVerify? && !BackupLogin(w, rq, user)
    ensures Enrolled(Step(w, rq), user) && Step(w, rq).users[user].backups == w.users[user].backups
  {
  }

  lemma LoginSparesCodes(w: World, rq: Request, user: UserId)
    requires Enrolled(w, user) && rq.op.Login?
    ensures Enrolled(Step(w, rq), user) && Step(w, rq).users[user].backups == w.users[user].backups
  {
  }

  lemma {:induction false} CodesLeft(w: World, rqs: seq<Request>, user: UserId, text: string)
    requires Enrolled(w, user) && StaysEnrolled(w, rqs, user)
    ensures Enrolled(Run(w, rqs), user)
    ensures var rows, after := w.users[user].backups, Run(w, rqs).users[user].backups;
            && Unused(after) == Unused(rows) - BackupLogins(w, rqs, user)
            && Matching(after, text) == Matching(rows, text) - LoginsWith(w, rqs, user, text)
    decreases rqs
  {
    if rqs != [] {
      CodesStep(w, rqs[0], user, text);
      CodesLeft(Step(w, rqs[0]), rqs[1..], user, text);
    }
  }

  /** The request completes an enrolment. */
  ghost predicate Enrols(w: World, confirm: Request) {
    Admissible(w, confirm) && confirm.op.ConfirmEnrollment? && Answer(w, confirm).BackupCodes?
  }

  lemma EnrolmentStores(w: World, confirm: Request)
    requires Enrols(w, confirm)
    ensures Answer(w, confirm).codes == Displays(confirm.op.raws)
    ensures Enrolled(Step(w, confirm), confirm.op.user)
    ensures Step(w, confirm).users[confirm.op.user].backups == NewRows(confirm.op.raws)
  {
  }

  /** From enrolment until MFA is disabled, the unused backup codes number ten minus the logins by backup code. */
  lemma TenMinusBackupLogins(w: World, confirm: Request, rqs: seq<Request>, user: UserId)
    requires Enrols(w, confirm) && confirm.op.user == user
    requires StaysEnrolled(Step(w, confirm), rqs, user)
    ensures var v := Step(w, confirm);
            && user in Run(v, rqs).users
            && Unused(Run(v, rqs).users[user].backups) == 10 - BackupLogins(v, rqs, user)
  {
    EnrolmentStores(w, confirm);
    NewRowsAreUnused(NewRows(confirm.op.raws));
    CodesLeft(Step(w, confirm), rqs, user, "");
  }

  /** `user` passed the password stage and holds a live pending token. */
  ghost predicate AwaitsCode(w: World, token: MfaToken, user: UserId, delay: nat) {
    && Live(w.keys.pending, token, w.now + delay) && w.keys.pending[token].value == PendingLogin(user, false)
    && user in w.users && w.users[user].active
  }

  lemma BackupCodeRedeems(v: World, user: UserId, code: string, token: MfaToken, delay: nat, trust: Option<Device>)
    requires Enrolled(v, user) && AwaitsCode(v, token, user, delay)
    requires !Replayed(v.keys.lastCode, v.now + delay, user, code)
    ensures var rq := Request(MfaVerify(token, code, false, trust), delay, true);
            Answer(v, rq) == TokensIssued(user) <==> Matching(v.users[user].backups, Strip(code)) > 0
  {
    RedeemIsExact(v.users[user].backups, Strip(code), "");
  }

  /**
   In every run after an enrolment, whatever logins it holds: a submitted code that is no valid TOTP
   code logs the holder of a live pending token in if and only if fewer logins used that text
   than the generated codes contain it.
   */
  lemma BackupCodeAcceptedIff(w: World, confirm: Request, rqs: seq<Request>, user: UserId, code: string,
                              token: MfaToken, delay: nat, trust: Option<Device>)
    requires Enrols(w, confirm) && confirm.op.user == user && StaysEnrolled(Step(w, confirm), rqs, user)
    requires var later := Run(Step(w, confirm), rqs);
             AwaitsCode(later, token, user, delay) && !Replayed(later.keys.lastCode, later.now + delay, user, code)
    ensures var v := Step(w, confirm);
            var rq := Request(MfaVerify(token, code, false, trust), delay, true);
            Answer(Run(v, rqs), rq) == TokensIssued(user) <==>
              LoginsWith(v, rqs, user, Strip(code)) < Matching(NewRows(confirm.op.raws), Strip(code))
  {
    var v := Step(w, confirm);
    EnrolmentStores(w, confirm);
    CodesLeft(v, rqs, user, Strip(code));
    BackupCodeRedeems(Run(v, rqs), user, code, token, delay, trust);
  }

  /** A displayed code is never shaped like a TOTP code, and its stripped text is that of its row. */
  lemma DisplayedCodeMatches(raws: seq<string>, i: nat)
    requires i < |raws| && |raws[i]| == 10
    ensures var code := Displays(raws)[i];
            !IsTotpShaped(code) && Matching(NewRows(raws), Strip(code)) > 0
  {
    var rows := NewRows(raws);
    DisplayStripsToRaw(raws[i]);
    assert Redeems(rows[i], Strip(Displays(raws)[i]));
    MatchingRowsExist(rows, Strip(Displays(raws)[i]));
  }

  /**
   At any time after an enrolment until MFA is disabled, every displayed code that no login has used
   yet logs the holder of a live pending token in, dashes in the raw text or not, and leaves one
   unused code less.
   */
  lemma DisplayedCodeVerifies(w: World, confirm: Request, rqs: seq<Request>, user: UserId, i: nat,
                              token: MfaToken, delay: nat, trust: Option<Device>)
    requires Enrols(w, confirm) && confirm.op.user == user && StaysEnrolled(Step(w, confirm), rqs, user)
    requires i < |Answer(w, confirm).codes|
    requires LoginsWith(Step(w, confirm), rqs, user, Strip(Answer(w, confirm).codes[i])) == 0
    requires AwaitsCode(Run(Step(w, confirm), rqs), token, user, delay)
    ensures |Answer(w, confirm).codes| == BACKUP_CODE_COUNT
    ensures var v := Step(w, confirm);
            var rq := Request(MfaVerify(token, Answer(w, confirm).codes[i], false, trust), delay, true);
            && Answer(Run(v, rqs), rq) == TokensIssued(user)
            && user in Step(Run(v, rqs), rq).users
            && Unused(Step(Run(v, rqs), rq).users[user].backups) == 9 - BackupLogins(v, rqs, user)
  {
    var v := Step(w, confirm);
    var code := Answer(w, confirm).codes[i];
    var rq := Request(MfaVerify(token, code, false, trust), delay, true);
    EnrolmentStores(w, confirm);
    DisplayedCodeMatches(confirm.op.raws, i);
    BackupCodeAcceptedIff(w, confirm, rqs, user, code, token, delay, trust);
    TenMinusBackupLogins(w, confirm, rqs, user);
    CodesLeft(v, rqs, user, "");
    CodesStep(Run(v, rqs), rq, user, "");
  }
}
