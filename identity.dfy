/**
 * The identity core of the backend as a function of the persisted state:
 * registration, email verification, login, and the two halves of the
 * password reset. Each handler maps a store and a request to the new store
 * and the HTTP response; `Run` chains requests, which is how the lemmas state
 * what holds after any later activity.
 */
module Identity {
  import opened Common
  import opened Accounts

  /**
   * What the handlers can observe and change: the accounts by email, every
   * email handed to the mail sender, every row saved, the token helper's
   * next serial number and the database's next account id.
   */
  datatype Db = Db(
    accounts: map<Email, Account>,
    outbox: seq<Mail>,
    saves: seq<Account>,
    nextSerial: nat,
    nextId: nat)

  datatype Outcome = Outcome(db: Db, response: Response)

  const UsernameNotAvailable := Response(400, Message("Username not available"))
  const AlreadyVerified := Response(400, Message("User Already exist and Verified."))
  const VerificationResent := Response(200, Message("Verification Email resent. Check your inbox"))
  const Registered := Response(200, Message("Registration successfull! Please Verify your Email"))
  /** The save was refused by bean validation; Spring answers with its generic error. */
  const SaveRejected := Response(500, Message("Internal Server Error"))
  const TokenExpired := Response(403, Message("Token Expired!"))
  const EmailVerified := Response(201, Message("Email successfully verified!"))
  const WrongPassword := Response(401, Message("Please check the password"))
  const NoUserForCredentials := Response(404, Message("No User found for these credentials, please register"))
  const NoUserForEmail := Response(404, Message("No user found with this email."))
  const InvalidResetToken := Response(403, Message("Invalid or expired token!"))
  const PasswordChanged := Response(200, Message("Password changed successfully!"))

  function ResetMailSent(email: Email): Response {
    Response(200, Message("Password reset email sent to " + email))
  }

  /** `findByUsername(username).isPresent()`. */
  predicate UsernameTaken(accounts: map<Email, Account>, username: string) {
    exists e :: e in accounts && accounts[e].username == username
  }

  /** The store's invariant for one row: the facts every handler keeps. */
  ghost predicate RowInv(db: Db, e: Email)
    requires e in db.accounts
  {
    var a := db.accounts[e];
    && a.email == e
    && !Blank(a.username)
    && a.password.Encoded?
    && a.id.Some? && a.id.value < db.nextId
    && a.createdAt.Some?
    && (a.verificationToken.Some? ==>
          var t := a.verificationToken.value;
          t.Jwt? && t.serial < db.nextSerial && t.subject == e)
  }

  /**
   * The store's invariant: rows are well formed, usernames and ids are
   * unique, and every token stored or mailed was issued before the helper's
   * current serial.
   */
  ghost predicate Inv(db: Db) {
    && (forall e :: e in db.accounts ==> RowInv(db, e))
    && (forall e1, e2 :: e1 in db.accounts && e2 in db.accounts && e1 != e2 ==>
          db.accounts[e1].username != db.accounts[e2].username
          && db.accounts[e1].id != db.accounts[e2].id)
    && (forall i :: 0 <= i < |db.outbox| ==>
          db.outbox[i].token.Jwt? && db.outbox[i].token.serial < db.nextSerial)
  }

  /** The next token the helper hands out for `email`. */
  function NextToken(db: Db, email: Email): Token {
    Jwt(db.nextSerial, email)
  }

  /** A token the helper has never handed out differs from every stored and mailed one. */
  lemma NextTokenIsFresh(db: Db, email: Email)
    requires Inv(db)
    ensures forall e :: e in db.accounts ==> db.accounts[e].verificationToken != Some(NextToken(db, email))
    ensures forall i :: 0 <= i < |db.outbox| ==> db.outbox[i].token != NextToken(db, email)
  {
    forall e | e in db.accounts
      ensures db.accounts[e].verificationToken != Some(NextToken(db, email))
    {
      assert RowInv(db, e);
    }
  }

  /** Only the row of `e` may differ between the two stores. */
  ghost predicate OnlyRowChanged(before: map<Email, Account>, after: map<Email, Account>, e: Email) {
    && after.Keys == before.Keys
    && forall e' :: e' in before && e' != e ==> after[e'] == before[e']
  }

  /** The mail a handler sends when its save succeeds: none, or one carrying a token. */
  ghost predicate MailsIssuedBefore(mails: seq<Mail>, serial: nat) {
    forall i :: 0 <= i < |mails| ==> mails[i].token.Jwt? && mails[i].token.serial < serial
  }

  /**
   * `userRepository.save(row)` followed by the handler's remaining steps.
   * Bean validation refuses a row with a blank username on insert and on
   * update, so the handler fails with 500 and nothing is written or mailed;
   * otherwise the row is stored under `key`, recorded as saved, `mails` are
   * sent and the handler answers `success`.
   */
  function Commit(db: Db, key: Email, row: Account, mails: seq<Mail>, success: Response): Outcome {
    if Blank(row.username) then Outcome(db, SaveRejected)
    else Outcome(db.(accounts := db.accounts[key := row], outbox := db.outbox + mails, saves := db.saves + [row]),
                 success)
  }

  /** Rewriting one existing row keeps the invariant when identity fields stay and any token is the row's own. */
  lemma UpdateKeepsInv(db: Db, e: Email, row: Account, mails: seq<Mail>, db': Db)
    requires Inv(db) && e in db.accounts
    requires row.username == db.accounts[e].username && row.email == db.accounts[e].email
    requires row.id == db.accounts[e].id && row.createdAt == db.accounts[e].createdAt && row.password.Encoded?
    requires row.verificationToken.Some? ==>
               row.verificationToken.value.Jwt? && row.verificationToken.value.subject == e
               && row.verificationToken.value.serial < db'.nextSerial
    requires db'.accounts == db.accounts[e := row] && db'.outbox == db.outbox + mails
    requires db'.nextSerial >= db.nextSerial && db'.nextId >= db.nextId
    requires MailsIssuedBefore(mails, db'.nextSerial)
    ensures Inv(db')
  {
    forall e' | e' in db'.accounts ensures RowInv(db', e') {
      assert RowInv(db, e');
    }
    forall i | 0 <= i < |db'.outbox| ensures db'.outbox[i].token.Jwt? && db'.outbox[i].token.serial < db'.nextSerial {
      if i >= |db.outbox| {
        assert db'.outbox[i] == mails[i - |db.outbox|];
      }
    }
  }

  /** Inserting a row under a new email and a free username, with a fresh id, keeps the invariant. */
  lemma InsertKeepsInv(db: Db, e: Email, row: Account, db': Db)
    requires Inv(db) && e !in db.accounts && !UsernameTaken(db.accounts, row.username) && !Blank(row.username)
    requires row.email == e && row.password.Encoded? && row.id == Some(db.nextId) && row.createdAt.Some?
    requires row.verificationToken == Some(NextToken(db, e))
    requires db' == Db(db.accounts[e := row], db.outbox + [VerificationMail(e, NextToken(db, e))],
                       db.saves + [row], db.nextSerial + 1, db.nextId + 1)
    ensures Inv(db')
  {
    forall e' | e' in db'.accounts ensures RowInv(db', e') {
      if e' != e {
        assert RowInv(db, e');
      }
    }
    forall e1, e2 | e1 in db'.accounts && e2 in db'.accounts && e1 != e2
      ensures db'.accounts[e1].username != db'.accounts[e2].username
      ensures db'.accounts[e1].id != db'.accounts[e2].id
    {
      if e1 != e { assert RowInv(db, e1); }
      if e2 != e { assert RowInv(db, e2); }
    }
  }

  /**
   * `createUser` (POST /req/signup) with the deserialised request body. A
   * taken username wins over everything; a verified email is refused; an
   * unverified one gets a fresh token, mailed, and nothing else about it
   * changes; otherwise the body is saved as a new account with an encoded
   * password and a fresh token. Failures save nothing and mail nothing;
   * successes save exactly one row.
   */
  function Register(db: Db, body: Account, salt: nat, now: nat): (o: Outcome)
    requires body.password.Plain?
    ensures UsernameTaken(db.accounts, body.username) ==> o == Outcome(db, UsernameNotAvailable)
    ensures (!UsernameTaken(db.accounts, body.username) && body.email in db.accounts
             && db.accounts[body.email].verified) ==> o == Outcome(db, AlreadyVerified)
    ensures o.response == VerificationResent <==>
              && !UsernameTaken(db.accounts, body.username) && body.email in db.accounts
              && !db.accounts[body.email].verified && !Blank(db.accounts[body.email].username)
    // only the token of the unverified account is replaced, and the new token is the one mailed
    ensures o.response == VerificationResent ==>
              var e, t := body.email, NextToken(db, body.email);
              && OnlyRowChanged(db.accounts, o.db.accounts, e)
              && o.db.accounts[e] == db.accounts[e].(verificationToken := Some(t))
              && o.db.outbox == db.outbox + [VerificationMail(e, t)]
              && ExtractEmail(t) == Some(e)
    ensures o.response == Registered <==>
              !UsernameTaken(db.accounts, body.username) && body.email !in db.accounts && !Blank(body.username)
    // the body is inserted as received, but with an encoded password and a fresh token, which is mailed
    ensures o.response == Registered ==>
              var e, t := body.email, NextToken(db, body.email);
              && o.db.accounts.Keys == db.accounts.Keys + {e}
              && (forall e' :: e' in db.accounts ==> o.db.accounts[e'] == db.accounts[e'])
              && var a := o.db.accounts[e];
              && Matches(body.password.text, a.password) && a.password != body.password
              && a.verificationToken == Some(t) && o.db.outbox == db.outbox + [VerificationMail(e, t)]
              && a == body.(password := a.password, verificationToken := a.verificationToken,
                            id := a.id, createdAt := a.createdAt)
    ensures o.response.status == 200 ==> body.email in o.db.accounts && o.db.saves == db.saves + [o.db.accounts[body.email]]
    ensures o.response.status != 200 ==>
              o.db.accounts == db.accounts && o.db.outbox == db.outbox && o.db.saves == db.saves
    ensures Inv(db) ==> Inv(o.db)
  {
    if UsernameTaken(db.accounts, body.username) then
      Outcome(db, UsernameNotAvailable)
    else if body.email in db.accounts then
      var existing := db.accounts[body.email];
      if existing.verified then
        Outcome(db, AlreadyVerified)
      else
        var t := NextToken(db, body.email);
        var row := existing.(verificationToken := Some(t));
        var o := Commit(db.(nextSerial := db.nextSerial + 1), body.email, row, [VerificationMail(body.email, t)],
                        VerificationResent);
        assert Inv(db) ==> Inv(o.db) by {
          if Inv(db) && o.response == VerificationResent {
            assert RowInv(db, body.email);
            UpdateKeepsInv(db, body.email, row, [VerificationMail(body.email, t)], o.db);
          }
        }
        o
    else
      var t := NextToken(db, body.email);
      var row := body.(password := Encode(body.password.text, salt), verificationToken := Some(t),
                       id := Some(db.nextId), createdAt := Some(now));
      var o := Commit(db.(nextSerial := db.nextSerial + 1, nextId := db.nextId + 1), body.email, row,
                      [VerificationMail(body.email, t)], Registered);
      assert Inv(db) ==> Inv(o.db) by {
        if Inv(db) && o.response == Registered {
          InsertKeepsInv(db, body.email, row, o.db);
        }
      }
      o
  }

  /**
   * The stored-copy check shared by verification and reset: the token names
   * an existing account, that account's outstanding token is this very
   * token, and the token helper accepts its signature and expiry.
   */
  predicate TokenAccepted(db: Db, token: Token, signatureValid: bool) {
    match ExtractEmail(token)
    case None => false
    case Some(e) =>
      e in db.accounts && db.accounts[e].verificationToken == Some(token) && signatureValid
  }

  /**
   * `verifyEmail` (GET /req/signup/verify). Every refusal is the same 403 and
   * changes nothing; acceptance consumes the token and marks the account
   * verified, and on a store satisfying the invariant every accepted token
   * is honoured.
   */
  function Verify(db: Db, token: Token, signatureValid: bool): (o: Outcome)
    ensures !TokenAccepted(db, token, signatureValid) ==> o == Outcome(db, TokenExpired)
    ensures o.response == EmailVerified ==> TokenAccepted(db, token, signatureValid)
    ensures Inv(db) && TokenAccepted(db, token, signatureValid) ==> o.response == EmailVerified
    ensures o.response == EmailVerified ==>
              var e := token.subject;
              && OnlyRowChanged(db.accounts, o.db.accounts, e)
              && o.db.accounts[e] == db.accounts[e].(verificationToken := None, verified := true)
              && o.db.outbox == db.outbox
              && o.db.saves == db.saves + [o.db.accounts[e]]
    ensures o.response != EmailVerified ==>
              o.db.accounts == db.accounts && o.db.outbox == db.outbox && o.db.saves == db.saves
    ensures Inv(db) ==> Inv(o.db)
  {
    var email := ExtractEmail(token);
    if email.None? || email.value !in db.accounts || db.accounts[email.value].verificationToken.None? then
      Outcome(db, TokenExpired)
    else
      var user := db.accounts[email.value];
      if !signatureValid || user.verificationToken.value != token then
        Outcome(db, TokenExpired)
      else
        var row := user.(verificationToken := None, verified := true);
        var o := Commit(db, email.value, row, [], EmailVerified);
        assert Inv(db) ==> Inv(o.db) by {
          if Inv(db) {
            assert RowInv(db, email.value);
            UpdateKeepsInv(db, email.value, row, [], o.db);
          }
        }
        o
  }

  /**
   * `userPresent` (POST /req/login) with the deserialised request body: only
   * its email and password are read, and the store is never written. The
   * verification flag is not consulted.
   */
  function Login(accounts: map<Email, Account>, request: Account): (r: Response)
    requires request.password.Plain?
    ensures r == NoUserForCredentials <==> request.email !in accounts
    ensures r == WrongPassword <==>
              request.email in accounts && !Matches(request.password.text, accounts[request.email].password)
    ensures r.status == 200 <==>
              request.email in accounts && Matches(request.password.text, accounts[request.email].password)
    ensures r.status == 200 ==> r.body == UserJson(accounts[request.email])
  {
    if request.email in accounts then
      var existing := accounts[request.email];
      if !Matches(request.password.text, existing.password) then WrongPassword
      else Response(200, UserJson(existing))
    else
      NoUserForCredentials
  }

  /**
   * `sendForgotPassword` (POST /req/forgot-password): an unknown email is a
   * 404 with no effect; a known one gets a fresh token, saved on the account
   * in place of any outstanding one and mailed.
   */
  function ForgotPassword(db: Db, email: Email): (o: Outcome)
    ensures email !in db.accounts <==> o.response == NoUserForEmail
    ensures email !in db.accounts ==> o.db == db
    ensures o.response == ResetMailSent(email) <==> email in db.accounts && !Blank(db.accounts[email].username)
    ensures o.response == ResetMailSent(email) ==>
              var t := NextToken(db, email);
              && OnlyRowChanged(db.accounts, o.db.accounts, email)
              && o.db.accounts[email] == db.accounts[email].(verificationToken := Some(t))
              && o.db.outbox == db.outbox + [ResetMail(email, t)]
              && o.db.saves == db.saves + [o.db.accounts[email]]
              && ExtractEmail(t) == Some(email)
    ensures o.response != ResetMailSent(email) ==>
              o.db.accounts == db.accounts && o.db.outbox == db.outbox && o.db.saves == db.saves
    ensures Inv(db) ==> Inv(o.db)
  {
    if email !in db.accounts then
      Outcome(db, NoUserForEmail)
    else
      var t := NextToken(db, email);
      var row := db.accounts[email].(verificationToken := Some(t));
      var o := Commit(db.(nextSerial := db.nextSerial + 1), email, row, [ResetMail(email, t)], ResetMailSent(email));
      assert Inv(db) ==> Inv(o.db) by {
        if Inv(db) {
          assert RowInv(db, email);
          UpdateKeepsInv(db, email, row, [ResetMail(email, t)], o.db);
        }
      }
      o
  }

  /**
   * `resetPassword` (POST /req/reset-password). Every refusal is the same 403
   * and changes nothing; acceptance stores the encoded new password and
   * consumes the token, leaving every other field as it was.
   */
  function Reset(db: Db, token: Token, signatureValid: bool, newPassword: string, salt: nat): (o: Outcome)
    ensures !TokenAccepted(db, token, signatureValid) ==> o == Outcome(db, InvalidResetToken)
    ensures o.response == PasswordChanged ==> TokenAccepted(db, token, signatureValid)
    ensures Inv(db) && TokenAccepted(db, token, signatureValid) ==> o.response == PasswordChanged
    ensures o.response == PasswordChanged ==>
              var e := token.subject;
              && OnlyRowChanged(db.accounts, o.db.accounts, e)
              && o.db.accounts[e] == db.accounts[e].(password := o.db.accounts[e].password, verificationToken := None)
              && Matches(newPassword, o.db.accounts[e].password)
              && o.db.outbox == db.outbox
              && o.db.saves == db.saves + [o.db.accounts[e]]
    ensures o.response != PasswordChanged ==>
              o.db.accounts == db.accounts && o.db.outbox == db.outbox && o.db.saves == db.saves
    ensures Inv(db) ==> Inv(o.db)
  {
    var email := ExtractEmail(token);
    if email.None? || email.value !in db.accounts || db.accounts[email.value].verificationToken.None? then
      Outcome(db, InvalidResetToken)
    else
      var user := db.accounts[email.value];
      if !signatureValid || user.verificationToken.value != token then
        Outcome(db, InvalidResetToken)
      else
        var row := user.(password := Encode(newPassword, salt), verificationToken := None);
        var o := Commit(db, email.value, row, [], PasswordChanged);
        assert Inv(db) ==> Inv(o.db) by {
          if Inv(db) {
            assert RowInv(db, email.value);
            UpdateKeepsInv(db, email.value, row, [], o.db);
          }
        }
        o
  }
}
