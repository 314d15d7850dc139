/**
 * `register` and `login` (backend/src/controllers/authController.js) over a
 * user store in which every email occurs at most once.
 *
 * Password hashing, hash comparison and database writes are outside the
 * model: `hash`, `compare` and the outcome of `User.create` are parameters.
 * An issued token is represented by the claims it signs.
 */
module AuthController {
  import opened Wrappers
  import opened JsStrings
  import opened EmailService
  import AuthMiddleware

  /** A stored user; `passwordHash` is the bcrypt hash. */
  datatype User = User(id: string, name: Option<string>, email: string, passwordHash: string,
                       companyName: string, role: string)

  /** The user object a reply carries: every field but the id and the password. */
  datatype PublicUser = PublicUser(name: Option<string>, email: string, companyName: string, role: string)

  datatype AuthBody = Message(message: string) | Signed(user: PublicUser, token: AuthMiddleware.Claims)

  datatype AuthReply = AuthReply(status: int, body: AuthBody)

  datatype RegisterBody = RegisterBody(name: Option<string>, email: Option<string>, password: Option<string>,
                                       companyName: Option<string>, role: Option<string>)

  datatype LoginBody = LoginBody(email: Option<string>, password: Option<string>)

  function Public(u: User): PublicUser {
    PublicUser(u.name, u.email, u.companyName, u.role)
  }

  /** The payload every issued token signs: the user's id and nothing else. */
  function TokenClaims(id: string): AuthMiddleware.Claims {
    AuthMiddleware.Claims(Some(id), None, None, None, None)
  }

  /**
   * `^[^\s@]+@[^\s@]+\.[^\s@]+$`: no whitespace, exactly one `@` with text
   * before it, and a `.` after it with text on both sides.
   */
  predicate EmailFormat(e: string) {
    exists i | 0 < i < |e| ::
      e[i] == '@'
      && (exists j | i + 1 < j < |e| - 1 :: e[j] == '.')
      && forall k | 0 <= k < |e| :: !IsSpace(e[k]) && (e[k] == '@' ==> k == i)
  }

  lemma EmailFormatExamples()
    ensures EmailFormat("a@b.co")
    ensures !EmailFormat("a@b")
    ensures !EmailFormat("a@.co")
    ensures !EmailFormat("a b@c.de")
  {
    var e := "a@b.co";
    assert e[1] == '@' && e[3] == '.';
    var f := "a b@c.de";
    assert IsSpace(f[1]);
  }

  /** No whitespace anywhere in `s`. */
  predicate Blankless(s: string) {
    forall k | 0 <= k < |s| :: !IsSpace(s[k])
  }

  /** A `.` with text on both sides. */
  predicate Dotted(d: string) {
    exists j | 0 < j < |d| - 1 :: d[j] == '.'
  }

  /**
   * Split at its `@`, an address matches the pattern exactly when the part
   * before is non-empty, neither part holds whitespace, and the part after
   * has a `.` with text on both sides.
   */
  lemma EmailFormatParts(a: string, d: string)
    requires '@' !in a && '@' !in d
    ensures EmailFormat(a + "@" + d) <==> a != [] && Blankless(a) && Blankless(d) && Dotted(d)
  {
    if EmailFormat(a + "@" + d) {
      PartsOfEmailFormat(a, d);
    }
    if a != [] && Blankless(a) && Blankless(d) && Dotted(d) {
      EmailFormatOfParts(a, d);
    }
  }

  lemma PartsOfEmailFormat(a: string, d: string)
    requires '@' !in a && '@' !in d && EmailFormat(a + "@" + d)
    ensures a != [] && Blankless(a) && Blankless(d) && Dotted(d)
  {
    var e := a + "@" + d;
    var n := |a|;
    var i :| 0 < i < |e| && e[i] == '@' && (exists j | i + 1 < j < |e| - 1 :: e[j] == '.')
             && forall k | 0 <= k < |e| :: !IsSpace(e[k]) && (e[k] == '@' ==> k == i);
    assert e[n] == '@';
    assert i == n;
    var j :| i + 1 < j < |e| - 1 && e[j] == '.';
    assert e[j] == d[j - n - 1];
    forall k | 0 <= k < n ensures !IsSpace(a[k]) {
      assert e[k] == a[k];
    }
    forall k | 0 <= k < |d| ensures !IsSpace(d[k]) {
      assert e[n + 1 + k] == d[k];
    }
  }

  lemma EmailFormatOfParts(a: string, d: string)
    requires '@' !in a && '@' !in d && a != [] && Blankless(a) && Blankless(d) && Dotted(d)
    ensures EmailFormat(a + "@" + d)
  {
    var e := a + "@" + d;
    var n := |a|;
    assert e[n] == '@';
    var j :| 0 < j < |d| - 1 && d[j] == '.';
    assert e[n + 1 + j] == '.';
    forall k | 0 <= k < |e| ensures !IsSpace(e[k]) && (e[k] == '@' ==> k == n) {
      if k < n {
        assert e[k] == a[k];
      } else if k > n {
        assert e[k] == d[k - n - 1];
      }
    }
  }

  /** The request checks of `register`, in order; `None` when all pass. */
  function RegisterCheck(b: RegisterBody): (r: Option<AuthReply>)
    ensures r.None? <==> (Truthy(b.email) && Truthy(b.password) && Truthy(b.companyName) && Truthy(b.role)
                          && EmailFormat(b.email.value) && |b.password.value| >= 6)
    ensures !(Truthy(b.email) && Truthy(b.password) && Truthy(b.companyName) && Truthy(b.role))
            ==> r == Some(AuthReply(400, Message("Missing required fields")))
    ensures Truthy(b.email) && Truthy(b.password) && Truthy(b.companyName) && Truthy(b.role) && !EmailFormat(b.email.value)
            ==> r == Some(AuthReply(400, Message("Invalid email")))
    ensures Truthy(b.email) && Truthy(b.password) && Truthy(b.companyName) && Truthy(b.role) && EmailFormat(b.email.value)
            && |b.password.value| < 6
            ==> r == Some(AuthReply(400, Message("Password must be at least 6 characters")))
    ensures r.Some? ==> r.value.status == 400
  {
    if !(Truthy(b.email) && Truthy(b.password) && Truthy(b.companyName) && Truthy(b.role)) then
      Some(AuthReply(400, Message("Missing required fields")))
    else if !EmailFormat(b.email.value) then Some(AuthReply(400, Message("Invalid email")))
    else if |b.password.value| < 6 then
      Some(AuthReply(400, Message("Password must be at least 6 characters")))
    else None
  }

  /** `User.findOne({ email })` over a list of users. */
  function FindEmail(users: seq<User>, email: string): (r: Option<User>)
    ensures r.None? <==> forall k :: 0 <= k < |users| ==> users[k].email != email
    ensures r.Some? ==> r.value in users && r.value.email == email
  {
    if users == [] then None
    else if users[0].email == email then Some(users[0])
    else FindEmail(users[1..], email)
  }

  predicate UniqueEmails(users: seq<User>) {
    forall i, j :: 0 <= i < j < |users| ==> users[i].email != users[j].email
  }

  /** In a store with unique emails, a user is found by its own email. */
  lemma {:induction false} FindEmailUnique(users: seq<User>, k: nat)
    requires UniqueEmails(users) && k < |users|
    ensures FindEmail(users, users[k].email) == Some(users[k])
  {
    if k > 0 {
      assert users[0].email != users[k].email;
      assert UniqueEmails(users[1..]) by {
        forall i, j | 0 <= i < j < |users| - 1 ensures users[1..][i].email != users[1..][j].email {
          assert users[1..][i] == users[i + 1] && users[1..][j] == users[j + 1];
        }
      }
      FindEmailUnique(users[1..], k - 1);
    }
  }

  /** The user collection. */
  class UserStore {
    var users: seq<User>

    ghost predicate Valid()
      reads this
    {
      UniqueEmails(users)
    }

    constructor ()
      ensures users == [] && Valid()
    {
      users := [];
    }

    /**
     * `register`: the request checks, then the duplicate-email check, then
     * the insert. `created` is the outcome of `User.create`: the new user's
     * id, or the database error that is answered with 500.
     */
    method Register(b: RegisterBody, hash: string -> string, created: Result<string>) returns (reply: AuthReply)
      requires Valid()
      modifies this
      ensures Valid()
      ensures RegisterCheck(b).Some? ==> reply == RegisterCheck(b).value && users == old(users)
      ensures RegisterCheck(b).None? && FindEmail(old(users), b.email.value).Some?
              ==> reply == AuthReply(400, Message("Email already registered")) && users == old(users)
      ensures RegisterCheck(b).None? && FindEmail(old(users), b.email.value).None? && created.Failure?
              ==> reply == AuthReply(500, Message(created.error)) && users == old(users)
      ensures RegisterCheck(b).None? && FindEmail(old(users), b.email.value).None? && created.Success?
              ==> var u := User(created.value, b.name, b.email.value, hash(b.password.value),
                                b.companyName.value, b.role.value);
                  users == old(users) + [u]
                  && reply == AuthReply(201, Signed(Public(u), TokenClaims(created.value)))
      ensures reply.status == 201 <==> users != old(users)
    {
      var check := RegisterCheck(b);
      if check.Some? {
        return check.value;
      }
      var email := b.email.value;
      if FindEmail(users, email).Some? {
        return AuthReply(400, Message("Email already registered"));
      }
      if created.Failure? {
        return AuthReply(500, Message(created.error));
      }
      var u := User(created.value, b.name, email, hash(b.password.value), b.companyName.value, b.role.value);
      users := users + [u];
      reply := AuthReply(201, Signed(Public(u), TokenClaims(created.value)));
    }

    /**
     * `login`: missing credentials are 400; an unknown email and a wrong
     * password get the same 401, so a caller cannot tell them apart.
     * `compare` stands for `bcrypt.compare`.
     */
    function Login(b: LoginBody, compare: (string, string) -> bool): (reply: AuthReply)
      reads this
      ensures !(Truthy(b.email) && Truthy(b.password)) ==> reply == AuthReply(400, Message("Missing credentials"))
      ensures reply.status == 200 <==>
                Truthy(b.email) && Truthy(b.password) && FindEmail(users, b.email.value).Some?
                && compare(b.password.value, FindEmail(users, b.email.value).value.passwordHash)
      ensures Truthy(b.email) && Truthy(b.password) && reply.status != 200
              ==> reply == AuthReply(401, Message("Invalid credentials"))
      ensures reply.status == 200 ==>
                var u := FindEmail(users, b.email.value).value;
                reply.body == Signed(Public(u), TokenClaims(u.id))
    {
      if !(Truthy(b.email) && Truthy(b.password)) then AuthReply(400, Message("Missing credentials"))
      else
        match FindEmail(users, b.email.value)
        case None => AuthReply(401, Message("Invalid credentials"))
        case Some(u) =>
          if !compare(b.password.value, u.passwordHash) then AuthReply(401, Message("Invalid credentials"))
          else AuthReply(200, Signed(Public(u), TokenClaims(u.id)))
    }
  }

  /** Registering an email already in the store leaves the store unchanged: it is found, so no insert happens. */
  lemma RegisteredEmailFound(users: seq<User>, k: nat)
    requires UniqueEmails(users) && k < |users|
    ensures FindEmail(users, users[k].email).Some?
  {
    FindEmailUnique(users, k);
  }

  /** After a registration, logging in with the same email finds the new user, whose password hash is the stored one. */
  lemma RegisteredUserFound(users: seq<User>, u: User)
    requires UniqueEmails(users) && FindEmail(users, u.email).None?
    ensures UniqueEmails(users + [u])
    ensures FindEmail(users + [u], u.email) == Some(u)
  {
    assert (users + [u])[|users|] == u;
    FindEmailUnique(users + [u], |users|);
  }
}
