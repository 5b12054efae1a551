/**
 * The mock session store: a login that always succeeds and derives the
 * user's name from the e-mail address, and a logout. The session holds
 * no credential of any kind.
 */
module Auth {
  import opened Common

  datatype User = User(id: string, email: string, name: string)

  /** `email.split('@')[0]`: the e-mail address up to its first `@`. */
  function LoginName(email: string): (name: string)
    ensures name <= email && '@' !in name
    ensures |name| < |email| ==> email[|name|] == '@'
    ensures '@' !in email ==> name == email
  {
    BeforeFirst(email, '@')
  }

  /** The user a login with this e-mail address produces. */
  function SessionUser(email: string): User
  {
    User("1", email, LoginName(email))
  }

  class AuthStore {
    var user: Option<User>
    var isAuthenticated: bool

    /** The flag mirrors the presence of a user. */
    ghost predicate Valid()
      reads this
    {
      isAuthenticated <==> user.Some?
    }

    constructor ()
      ensures Valid() && user == None && !isAuthenticated
    {
      user, isAuthenticated := None, false;
    }

    /** Always succeeds; the password is not looked at. */
    method Login(email: string, password: string) returns (ok: bool)
      modifies this
      ensures Valid() && ok && isAuthenticated
      ensures user == Some(SessionUser(email))
    {
      user, isAuthenticated := Some(SessionUser(email)), true;
      ok := true;
    }

    /** Clears the session, whatever it was; so a second logout changes nothing. */
    method Logout()
      modifies this
      ensures Valid() && user == None && !isAuthenticated
    {
      user, isAuthenticated := None, false;
    }
  }

  /** The name of `admin@x.com` is `admin`, and an address with two `@`
      is cut at the first. */
  lemma LoginNameExamples()
    ensures LoginName("admin@x.com") == "admin"
    ensures LoginName("a@b@c") == "a"
  {
    assert "admin@x.com"[5] == '@';
    assert "a@b@c"[1] == '@';
  }

  /** An address without `@` is its own name. */
  lemma LoginNameWithoutAt()
    ensures LoginName("operator") == "operator"
  {
  }
}
