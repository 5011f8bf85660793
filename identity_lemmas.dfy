/**
 * Sequences of requests against the identity handlers, and what holds across
 * them: the store invariant, the single use of tokens, that a newer token
 * supersedes an older one, that verification is never undone, and what login
 * does and does not look at.
 */
module IdentityLemmas {
  import opened Common
  import opened Accounts
  import opened Identity

  /** One request to one of the five endpoints, with the inputs the model takes from outside. */
  datatype Request =
    | Signup(body: Account, salt: nat, now: nat)
    | VerifyRequest(token: Token, signatureValid: bool)
    | LoginRequest(credentials: Account)
    | ForgotRequest(email: Email)
    | ResetRequest(token: Token, signatureValid: bool, newPassword: string, salt: nat)

  /** Request bodies arrive with plaintext passwords. */
  predicate WellFormed(r: Request) {
    match r
    case Signup(body, _, _) => body.password.Plain?
    case LoginRequest(c) => c.password.Plain?
    case _ => true
  }

  predicate AllWellFormed(rs: seq<Request>) {
    forall i :: 0 <= i < |rs| ==> WellFormed(rs[i])
  }

  /** Dispatches one request; login never writes the store. */
  function Step(db: Db, r: Request): (o: Outcome)
    requires WellFormed(r)
    ensures Inv(db) ==> Inv(o.db)
    ensures o.db.nextSerial >= db.nextSerial
    ensures db.accounts.Keys <= o.db.accounts.Keys
    ensures r.LoginRequest? ==> o.db == db
  {
    match r
    case Signup(body, salt, now) => Register(db, body, salt, now)
    case VerifyRequest(t, v) => Verify(db, t, v)
    case LoginRequest(c) => Outcome(db, Login(db.accounts, c))
    case ForgotRequest(e) => ForgotPassword(db, e)
    case ResetRequest(t, v, p, salt) => Reset(db, t, v, p, salt)
  }

  /** The store after handling `rs` in order. */
  function Run(db: Db, rs: seq<Request>): Db
    requires AllWellFormed(rs)
    decreases rs
  {
    if rs == [] then db else Run(Step(db, rs[0]).db, rs[1..])
  }

  lemma {:induction false} RunKeepsInv(db: Db, rs: seq<Request>)
    requires AllWellFormed(rs) && Inv(db)
    ensures Inv(Run(db, rs))
    decreases rs
  {
    if rs != [] {
      RunKeepsInv(Step(db, rs[0]).db, rs[1..]);
    }
  }

  /**
   * A token is spent once the helper has moved past it and no account holds
   * it any more: no later request can make it acceptable again.
   */
  ghost predicate Spent(db: Db, t: Token) {
    && (t.Jwt? ==> t.serial < db.nextSerial)
    && forall e :: e in db.accounts ==> db.accounts[e].verificationToken != Some(t)
  }

  lemma SpentIsRejected(db: Db, t: Token, signatureValid: bool)
    requires Spent(db, t)
    ensures !TokenAccepted(db, t, signatureValid)
  {
  }

  /** No handler ever stores a token the helper handed out before. */
  lemma StepKeepsSpent(db: Db, r: Request, t: Token)
    requires WellFormed(r) && Inv(db) && Spent(db, t)
    ensures Spent(Step(db, r).db, t)
  {
    match r
    case Signup(body, salt, now) => RegisterKeepsSpent(db, body, salt, now, t);
    case VerifyRequest(token, v) => VerifyKeepsSpent(db, token, v, t);
    case LoginRequest(_) =>
    case ForgotRequest(e) => ForgotKeepsSpent(db, e, t);
    case ResetRequest(token, v, p, salt) => ResetKeepsSpent(db, token, v, p, salt, t);
  }

  lemma RegisterKeepsSpent(db: Db, body: Account, salt: nat, now: nat, t: Token)
    requires body.password.Plain? && Inv(db) && Spent(db, t)
    ensures Spent(Register(db, body, salt, now).db, t)
  {
    var db' := Register(db, body, salt, now).db;
    forall e | e in db'.accounts ensures db'.accounts[e].verificationToken != Some(t) {
      if e in db.accounts && db'.accounts[e] != db.accounts[e] {
        assert db'.accounts[e].verificationToken == Some(NextToken(db, e));
      }
    }
  }

  lemma VerifyKeepsSpent(db: Db, token: Token, v: bool, t: Token)
    requires Inv(db) && Spent(db, t)
    ensures Spent(Verify(db, token, v).db, t)
  {
    var db' := Verify(db, token, v).db;
    forall e | e in db'.accounts ensures db'.accounts[e].verificationToken != Some(t) {
      if db'.accounts[e] != db.accounts[e] {
        assert db'.accounts[e].verificationToken == None;
      }
    }
  }

  lemma ForgotKeepsSpent(db: Db, email: Email, t: Token)
    requires Inv(db) && Spent(db, t)
    ensures Spent(ForgotPassword(db, email).db, t)
  {
    var db' := ForgotPassword(db, email).db;
    forall e | e in db'.accounts ensures db'.accounts[e].verificationToken != Some(t) {
      if db'.accounts[e] != db.accounts[e] {
        assert db'.accounts[e].verificationToken == Some(NextToken(db, e));
      }
    }
  }

  lemma ResetKeepsSpent(db: Db, token: Token, v: bool, p: string, salt: nat, t: Token)
    requires Inv(db) && Spent(db, t)
    ensures Spent(Reset(db, token, v, p, salt).db, t)
  {
    var db' := Reset(db, token, v, p, salt).db;
    forall e | e in db'.accounts ensures db'.accounts[e].verificationToken != Some(t) {
      if db'.accounts[e] != db.accounts[e] {
        assert db'.accounts[e].verificationToken == None;
      }
    }
  }

  lemma {:induction false} RunKeepsSpent(db: Db, rs: seq<Request>, t: Token)
    requires AllWellFormed(rs) && Inv(db) && Spent(db, t)
    ensures Spent(Run(db, rs), t)
    decreases rs
  {
    if rs != [] {
      StepKeepsSpent(db, rs[0], t);
      RunKeepsSpent(Step(db, rs[0]).db, rs[1..], t);
    }
  }

  /** An accepted token is spent by the very request that accepted it. */
  lemma AcceptanceSpends(db: Db, t: Token, signatureValid: bool, newPassword: string, salt: nat)
    requires Inv(db) && TokenAccepted(db, t, signatureValid)
    ensures Spent(Verify(db, t, signatureValid).db, t)
    ensures Spent(Reset(db, t, signatureValid, newPassword, salt).db, t)
  {
    var e := t.subject;
    assert RowInv(db, e);
    forall e' | e' in db.accounts && e' != e ensures db.accounts[e'].verificationToken != Some(t) {
      assert RowInv(db, e');
    }
  }

  /**
   * Tokens are single-use: once verification or a reset has accepted a token,
   * neither endpoint accepts it again, whatever requests come in between.
   */
  lemma NoReplay(db: Db, t: Token, v: bool, p: string, salt: nat, rs: seq<Request>,
                 v': bool, p': string, salt': nat)
    requires Inv(db) && AllWellFormed(rs)
    ensures Verify(db, t, v).response == EmailVerified ==>
              var later := Run(Verify(db, t, v).db, rs);
              Verify(later, t, v').response == TokenExpired
              && Reset(later, t, v', p', salt').response == InvalidResetToken
    ensures Reset(db, t, v, p, salt).response == PasswordChanged ==>
              var later := Run(Reset(db, t, v, p, salt).db, rs);
              Verify(later, t, v').response == TokenExpired
              && Reset(later, t, v', p', salt').response == InvalidResetToken
  {
    if TokenAccepted(db, t, v) {
      AcceptanceSpends(db, t, v, p, salt);
      RunKeepsSpent(Verify(db, t, v).db, rs, t);
      RunKeepsSpent(Reset(db, t, v, p, salt).db, rs, t);
    }
  }

  /**
   * A password-reset request replaces the account's outstanding token: a
   * verification or reset link mailed earlier never works again.
   */
  lemma ForgotPasswordSupersedes(db: Db, e: Email, earlier: Token, rs: seq<Request>, v: bool)
    requires Inv(db) && AllWellFormed(rs)
    requires e in db.accounts && db.accounts[e].verificationToken == Some(earlier)
    ensures !TokenAccepted(Run(ForgotPassword(db, e).db, rs), earlier, v)
  {
    var db' := ForgotPassword(db, e).db;
    assert RowInv(db, e);
    forall e' | e' in db'.accounts ensures db'.accounts[e'].verificationToken != Some(earlier) {
      assert RowInv(db, e');
    }
    RunKeepsSpent(db', rs, earlier);
  }

  /** Re-registering an unverified email replaces its outstanding token in the same way. */
  lemma ResendSupersedes(db: Db, body: Account, salt: nat, now: nat, earlier: Token, rs: seq<Request>, v: bool)
    requires Inv(db) && AllWellFormed(rs) && body.password.Plain?
    requires body.email in db.accounts && db.accounts[body.email].verificationToken == Some(earlier)
    requires Register(db, body, salt, now).response == VerificationResent
    ensures !TokenAccepted(Run(Register(db, body, salt, now).db, rs), earlier, v)
  {
    var db' := Register(db, body, salt, now).db;
    assert RowInv(db, body.email);
    forall e' | e' in db'.accounts ensures db'.accounts[e'].verificationToken != Some(earlier) {
      assert RowInv(db, e');
    }
    RunKeepsSpent(db', rs, earlier);
  }

  /**
   * Verification and reset tokens share one column, so the link of a
   * password-reset mail also verifies an unverified email address.
   */
  lemma ResetTokenVerifiesEmail(db: Db, e: Email)
    requires e in db.accounts && !db.accounts[e].verified && !Blank(db.accounts[e].username)
    ensures var db' := ForgotPassword(db, e).db;
            var t := db'.outbox[|db'.outbox| - 1].token;
            && Verify(db', t, true).response == EmailVerified
            && Verify(db', t, true).db.accounts[e].verified
  {
  }

  /** Conversely, the link of a verification mail also resets the password. */
  lemma VerificationTokenResetsPassword(db: Db, body: Account, salt: nat, now: nat, p: string, salt': nat)
    requires body.password.Plain? && body.email !in db.accounts
    requires !UsernameTaken(db.accounts, body.username) && !Blank(body.username)
    ensures var db' := Register(db, body, salt, now).db;
            var t := db'.outbox[|db'.outbox| - 1].token;
            && Reset(db', t, true, p, salt').response == PasswordChanged
            && Matches(p, Reset(db', t, true, p, salt').db.accounts[body.email].password)
  {
  }

  /** A verified account stays present and verified whatever requests follow. */
  lemma {:induction false} VerifiedIsPermanent(db: Db, rs: seq<Request>, e: Email)
    requires AllWellFormed(rs) && e in db.accounts && db.accounts[e].verified
    ensures e in Run(db, rs).accounts && Run(db, rs).accounts[e].verified
    decreases rs
  {
    if rs != [] {
      var db' := Step(db, rs[0]).db;
      assert e in db'.accounts && db'.accounts[e].verified;
      VerifiedIsPermanent(db', rs[1..], e);
    }
  }

  /** Login reads the email and the password of the request body and nothing else. */
  lemma LoginReadsOnlyCredentials(accounts: map<Email, Account>, r1: Account, r2: Account)
    requires r1.password.Plain? && r2.password.Plain?
    requires r1.email == r2.email && r1.password == r2.password
    ensures Login(accounts, r1) == Login(accounts, r2)
  {
  }

  /** Whether login succeeds does not depend on the account being verified. */
  lemma LoginIgnoresVerification(accounts: map<Email, Account>, e: Email, b: bool, request: Account)
    requires e in accounts && request.password.Plain?
    ensures Login(accounts[e := accounts[e].(verified := b)], request).status == Login(accounts, request).status
  {
  }

  /**
   * After a password reset the new password logs in and, on a store where
   * passwords are digests, any other password is refused.
   */
  lemma ResetChangesLogin(db: Db, t: Token, v: bool, p: string, salt: nat, request: Account)
    requires Reset(db, t, v, p, salt).response == PasswordChanged
    requires request.email == t.subject && request.password.Plain?
    ensures (Login(Reset(db, t, v, p, salt).db.accounts, request).status == 200) <==> request.password.text == p
  {
  }

  /**
   * A reset request on a verified account leaves it verified with an
   * outstanding token, so "verified accounts hold no token" is not an
   * invariant of the store.
   */
  lemma VerifiedAccountsMayHoldTokens(db: Db, e: Email)
    requires e in db.accounts && db.accounts[e].verified && !Blank(db.accounts[e].username)
    ensures var a := ForgotPassword(db, e).db.accounts[e];
            a.verified && a.verificationToken.Some?
  {
  }

  /** Signing up, following the mailed link and logging in, from an empty store. */
  lemma SignupVerifyLogin(name: string, email: Email, password: string, salt: nat, now: nat)
    requires !Blank(name)
    ensures var body := Account(None, name, email, Plain(password), None, false, false, false, None, None, None);
            var o1 := Register(Db(map[], [], [], 0, 0), body, salt, now);
            var t := o1.db.outbox[0].token;
            var o2 := Verify(o1.db, t, true);
            && o1.response == Registered
            && !o1.db.accounts[email].verified
            && o2.response == EmailVerified
            && o2.db.accounts[email].verified
            && o2.db.accounts[email].verificationToken.None?
            && Login(o2.db.accounts, body).status == 200
  {
  }
}
