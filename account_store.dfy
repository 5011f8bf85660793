/**
 * The request handlers of the backend as they are written: each one loads a
 * mutable `User` entity through the repository, calls its setters, saves it
 * and hands mail to the sender. The store object holds what those
 * collaborators change, and every handler is proved to produce exactly the
 * new store and response that the functional description in `Identity` gives.
 */
module AccountStore {
  import opened Common
  import opened Accounts
  import opened Identity

  class Store {
    /** The `user` table, by email. */
    var accounts: map<Email, Account>
    /** Mail handed to the mail sender, oldest first. */
    var outbox: seq<Mail>
    /** Every row the repository has saved, oldest first. */
    var saves: seq<Account>
    /** The token helper's next serial number. */
    var nextSerial: nat
    /** The database's next generated account id. */
    var nextId: nat

    function State(): Db
      reads this
    {
      Db(accounts, outbox, saves, nextSerial, nextId)
    }

    ghost predicate Valid()
      reads this
    {
      Inv(State())
    }

    /** An empty store. */
    constructor ()
      ensures State() == Db(map[], [], [], 0, 0)
      ensures Valid()
    {
      accounts, outbox, saves, nextSerial, nextId := map[], [], [], 0, 0;
    }

    /** `userRepository.findByUsername(username).isPresent()`. */
    method UsernamePresent(username: string) returns (present: bool)
      ensures present <==> exists e :: e in accounts && accounts[e].username == username
    {
      present := UsernameTaken(accounts, username);
    }

    /** `userRepository.findByEmail(email)`: a freshly loaded entity, or null. */
    method FindByEmail(email: Email) returns (u: User?)
      ensures u == null <==> email !in accounts
      ensures u != null ==> fresh(u) && u.Row() == accounts[email]
    {
      if email in accounts {
        u := new User.Load(accounts[email]);
      } else {
        u := null;
      }
    }

    /** `jwtTokenUtil.generateToken(email)`: a token never handed out before. */
    method GenerateToken(email: Email) returns (t: Token)
      modifies this
      ensures t == NextToken(old(State()), email)
      ensures State() == old(State()).(nextSerial := old(nextSerial) + 1)
    {
      t := Jwt(nextSerial, email);
      nextSerial := nextSerial + 1;
    }

    /**
     * `userRepository.save(u)`. An entity without an id is inserted: it gets
     * the next generated id (consumed even when the insert then fails) and
     * the database's `created_at` default. Bean validation refuses a blank
     * username, in which case nothing is written and `ok` is false.
     */
    method Save(u: User, now: nat) returns (ok: bool)
      modifies this, u
      ensures ok <==> !Blank(old(u.username))
      ensures old(u.id).None? ==> nextId == old(nextId) + 1 && u.id == Some(old(nextId))
      ensures old(u.id).None? && ok ==> u.Row() == old(u.Row()).(id := Some(old(nextId)), createdAt := Some(now))
      ensures old(u.id).Some? ==> nextId == old(nextId) && u.Row() == old(u.Row())
      ensures ok ==> accounts == old(accounts)[u.email := u.Row()] && saves == old(saves) + [u.Row()]
      ensures !ok ==> accounts == old(accounts) && saves == old(saves)
      ensures outbox == old(outbox) && nextSerial == old(nextSerial)
    {
      if u.id.None? {
        u.id := Some(nextId);
        nextId := nextId + 1;
        if Blank(u.username) {
          return false;
        }
        u.createdAt := Some(now);
      } else if Blank(u.username) {
        return false;
      }
      accounts := accounts[u.email := u.Row()];
      saves := saves + [u.Row()];
      ok := true;
    }

    /** `emailService.sendVerificationEmail(to, token)`. */
    method SendVerificationEmail(to: Email, t: Token)
      modifies this
      ensures State() == old(State()).(outbox := old(outbox) + [VerificationMail(to, t)])
    {
      outbox := outbox + [VerificationMail(to, t)];
    }

    /** `emailService.sendForgotPasswordEmail(to, token)`. */
    method SendForgotPasswordEmail(to: Email, t: Token)
      modifies this
      ensures State() == old(State()).(outbox := old(outbox) + [ResetMail(to, t)])
    {
      outbox := outbox + [ResetMail(to, t)];
    }

    /**
     * `createUser`: `salt` is the encoder's randomness and `now` the database
     * clock. The request body carries no id (a client-chosen id would make
     * the save a merge into another row, which is not modelled).
     */
    method CreateUser(body: Account, salt: nat, now: nat) returns (r: Response)
      requires Valid() && body.password.Plain? && body.id.None?
      modifies this
      ensures Outcome(State(), r) == Register(old(State()), body, salt, now)
      ensures Valid()
    {
      var user := new User.Load(body);
      var taken := UsernamePresent(user.username);
      if taken {
        return UsernameNotAvailable;
      }
      var existing := FindByEmail(user.email);
      if existing != null {
        if existing.IsVerified() {
          return AlreadyVerified;
        }
        r := ResendVerification(existing, now);
      } else {
        r := RegisterNew(user, salt, now);
      }
    }

    /** The branch of `createUser` for an unverified email: a fresh token, saved on the entity and mailed. */
    method ResendVerification(existing: User, now: nat) returns (r: Response)
      requires Valid() && existing.email in accounts && existing.Row() == accounts[existing.email]
      requires !existing.verified
      modifies this, existing
      ensures Outcome(State(), r)
           == Commit(old(State()).(nextSerial := old(nextSerial) + 1), old(existing.email),
                     old(existing.Row()).(verificationToken := Some(NextToken(old(State()), old(existing.email)))),
                     [VerificationMail(old(existing.email), NextToken(old(State()), old(existing.email)))],
                     VerificationResent)
    {
      var t := GenerateToken(existing.email);
      existing.SetVerificationToken(Some(t));
      var ok := Save(existing, now);
      if !ok {
        return SaveRejected;
      }
      SendVerificationEmail(existing.email, t);
      r := VerificationResent;
    }

    /** The branch of `createUser` for a new email: the body is saved with an encoded password and a fresh token. */
    method RegisterNew(user: User, salt: nat, now: nat) returns (r: Response)
      requires user.password.Plain? && user.id.None?
      modifies this, user
      ensures Outcome(State(), r)
           == Commit(old(State()).(nextSerial := old(nextSerial) + 1, nextId := old(nextId) + 1), old(user.email),
                     old(user.Row()).(password := Encode(old(user.password.text), salt),
                                      verificationToken := Some(NextToken(old(State()), old(user.email))),
                                      id := Some(old(nextId)), createdAt := Some(now)),
                     [VerificationMail(old(user.email), NextToken(old(State()), old(user.email)))], Registered)
    {
      user.SetPassword(Encode(user.password.text, salt));
      var t := GenerateToken(user.email);
      user.SetVerificationToken(Some(t));
      var ok := Save(user, now);
      if !ok {
        return SaveRejected;
      }
      SendVerificationEmail(user.email, t);
      r := Registered;
    }

    /** `verifyEmail`: `signatureValid` is the token helper's `validateToken` verdict at request time. */
    method VerifyEmail(token: Token, signatureValid: bool, now: nat) returns (r: Response)
      requires Valid()
      modifies this
      ensures Outcome(State(), r) == Verify(old(State()), token, signatureValid)
      ensures Valid()
    {
      var email := ExtractEmail(token);
      if email.None? {
        return TokenExpired;
      }
      var user := FindByEmail(email.value);
      if user == null || user.verificationToken.None? {
        return TokenExpired;
      }
      if !signatureValid || user.verificationToken.value != token {
        return TokenExpired;
      }
      assert RowInv(old(State()), email.value);
      user.SetVerificationToken(None);
      user.SetVerified(true);
      var ok := Save(user, now);
      if !ok {
        return SaveRejected;
      }
      r := EmailVerified;
    }

    /** `sendForgotPassword`. */
    method SendForgotPassword(email: Email, now: nat) returns (r: Response)
      requires Valid()
      modifies this
      ensures Outcome(State(), r) == ForgotPassword(old(State()), email)
      ensures Valid()
    {
      var user := FindByEmail(email);
      if user == null {
        return NoUserForEmail;
      }
      assert RowInv(old(State()), email);
      var t := GenerateToken(email);
      user.SetVerificationToken(Some(t));
      var ok := Save(user, now);
      if !ok {
        return SaveRejected;
      }
      SendForgotPasswordEmail(email, t);
      r := ResetMailSent(email);
    }

    /** `resetPassword`: `salt` is the encoder's randomness. */
    method ResetPassword(token: Token, signatureValid: bool, newPassword: string, salt: nat, now: nat)
      returns (r: Response)
      requires Valid()
      modifies this
      ensures Outcome(State(), r) == Reset(old(State()), token, signatureValid, newPassword, salt)
      ensures Valid()
    {
      var email := ExtractEmail(token);
      if email.None? {
        return InvalidResetToken;
      }
      var user := FindByEmail(email.value);
      if user == null || user.verificationToken.None? {
        return InvalidResetToken;
      }
      if !signatureValid || user.verificationToken.value != token {
        return InvalidResetToken;
      }
      assert RowInv(old(State()), email.value);
      user.SetPassword(Encode(newPassword, salt));
      user.SetVerificationToken(None);
      var ok := Save(user, now);
      if !ok {
        return SaveRejected;
      }
      r := PasswordChanged;
    }
  }
}
