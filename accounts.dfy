/**
 * The user account entity of the backend, and the collaborators the request
 * handlers call: the token helper, the password encoder and the mail sender.
 */
module Accounts {
  import opened Common

  type Email = string

  /**
   * A verification or reset token as the token helper hands it out: a signed
   * token names the email it was issued for (its subject) and carries the
   * serial number of its issuance; anything else a client may send is
   * `Malformed`. Signatures and expiry are not modelled: whether a token
   * passes `validateToken` at the time of a request is an input of each handler.
   */
  datatype Token = Jwt(serial: nat, subject: Email) | Malformed(text: string)

  /** `extractEmail`: the subject of a well-formed token; nothing for a malformed one. */
  function ExtractEmail(t: Token): Option<Email> {
    match t
    case Jwt(_, subject) => Some(subject)
    case Malformed(_) => None
  }

  /**
   * A salted one-way digest as the password encoder produces it. The model
   * keeps the preimage so that `Matches` can be defined; nothing in the
   * handlers reads it back.
   */
  datatype Digest = Digest(preimage: string, salt: nat)

  /** What the password column holds: a plaintext (as it arrives in a request) or a digest. */
  datatype Secret = Plain(text: string) | Encoded(digest: Digest)

  /** `passwordEncoder.encode`: a fresh salt for every call. */
  function Encode(plaintext: string, salt: nat): Secret {
    Encoded(Digest(plaintext, salt))
  }

  /** `passwordEncoder.matches`: a stored value that is not a digest never matches. */
  predicate Matches(plaintext: string, stored: Secret) {
    stored.Encoded? && stored.digest.preimage == plaintext
  }

  /** Every encoding of a password matches it, whatever the salt. */
  lemma EncodeThenMatches(plaintext: string, salt: nat)
    ensures Matches(plaintext, Encode(plaintext, salt))
    ensures forall other :: Matches(other, Encode(plaintext, salt)) ==> other == plaintext
  {
  }

  /**
   * A row of the `user` table, and the JSON form of a `User`: every
   * persistent field of the entity. `id` and `createdAt` are absent until the
   * database assigns them.
   */
  datatype Account = Account(
    id: Option<nat>,
    username: string,
    email: Email,
    password: Secret,
    verificationToken: Option<Token>,
    isSeller: bool,
    isAdmin: bool,
    verified: bool,
    location: Option<string>,
    createdAt: Option<nat>,
    resetToken: Option<string>)

  /**
   * Java's `String.trim()` removes every character up to U+0020, so `@NotBlank`
   * rejects a string made only of such characters.
   */
  predicate Blank(s: string) {
    forall i :: 0 <= i < |s| ==> s[i] <= ' '
  }

  /** A message handed to the mail sender. */
  datatype Mail =
    | VerificationMail(to: Email, token: Token)
    | ResetMail(to: Email, token: Token)

  /** The body of an HTTP response: a text message, or an account serialised as JSON. */
  datatype Body = Message(text: string) | UserJson(account: Account)

  datatype Response = Response(status: nat, body: Body)

  /**
   * The JPA entity `User`: a mutable object whose setters the handlers call
   * before they save it.
   */
  class User {
    var id: Option<nat>
    var username: string
    var email: Email
    var password: Secret
    var verificationToken: Option<Token>
    var isSeller: bool
    var isAdmin: bool
    var verified: bool
    var location: Option<string>
    var createdAt: Option<nat>
    var resetToken: Option<string>

    /** The entity's persistent state. */
    function Row(): Account
      reads this
    {
      Account(id, username, email, password, verificationToken, isSeller, isAdmin,
              verified, location, createdAt, resetToken)
    }

    /**
     * A new entity with the three non-null columns set: the role flags start
     * false, `isVerified` (a primitive boolean) starts false, and there is no
     * outstanding token.
     */
    constructor (username: string, email: Email, password: Secret)
      ensures Row() == Account(None, username, email, password, None, false, false, false, None, None, None)
      ensures !IsVerified() && !isSeller && !isAdmin && verificationToken.None?
    {
      this.id := None;
      this.username := username;
      this.email := email;
      this.password := password;
      this.verificationToken := None;
      this.isSeller := false;
      this.isAdmin := false;
      this.verified := false;
      this.location := None;
      this.createdAt := None;
      this.resetToken := None;
    }

    /** An entity holding a given state: a row loaded by the repository, or a deserialised request body. */
    constructor Load(a: Account)
      ensures Row() == a
    {
      id, username, email, password := a.id, a.username, a.email, a.password;
      verificationToken, isSeller, isAdmin, verified := a.verificationToken, a.isSeller, a.isAdmin, a.verified;
      location, createdAt, resetToken := a.location, a.createdAt, a.resetToken;
    }

    function IsVerified(): bool
      reads this
    {
      verified
    }

    method SetVerified(b: bool)
      modifies this
      ensures Row() == old(Row()).(verified := b)
      ensures IsVerified() == b
    {
      verified := b;
    }

    method SetVerificationToken(t: Option<Token>)
      modifies this
      ensures Row() == old(Row()).(verificationToken := t)
    {
      verificationToken := t;
    }

    method SetPassword(p: Secret)
      modifies this
      ensures Row() == old(Row()).(password := p)
    {
      password := p;
    }
  }
}
