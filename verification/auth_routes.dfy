/**
 * The authentication routes over the user table held in memory:
 * `POST /auth/register` validates, rejects a taken e-mail address and inserts a BROKER
 * whose password is stored hashed; `POST /auth/login` looks the user up, compares the
 * password with the stored hash and signs a token for {userId, email, role}.
 */
module AuthRoutes {
  import opened Wrappers
  import opened Text
  import opened Validators
  import opened Records
  import opened AuthGate

  /**
   * `bcrypt.hash(password, rounds)` with its random salt made a parameter, and
   * `bcrypt.compare(password, hash)`.
   */
  datatype Bcrypt = Bcrypt(hash: (string, nat, nat) -> string, compare: (string, string) -> bool)

  const SaltRounds: nat := 10

  /** The one property of bcrypt the model relies on: a password matches its own hash. */
  ghost predicate CompareAcceptsHash(b: Bcrypt) {
    forall p, salt :: b.compare(p, b.hash(p, SaltRounds, salt))
  }

  datatype RegisterBody = RegisterBody(fullName: string, email: string, password: string)
  datatype LoginBody = LoginBody(email: string, password: string)

  /** The user as the routes return it: there is no password field. */
  datatype PublicUser = PublicUser(id: string, fullName: string, email: string, role: Role)

  function Public(u: User): PublicUser {
    PublicUser(u.id, u.fullName, u.email, u.role)
  }

  /** The payload handed to `jwt.sign`. */
  function PayloadOf(u: User): AuthPayload {
    AuthPayload(u.id, u.email, u.role.Name())
  }

  const MsgEmailTaken: string := "An account with this email already exists."
  const MsgRegistered: string := "Registration successful. Please log in."
  const MsgBadCredentials: string := "Invalid email or password."
  const MsgLoggedIn: string := "Login successful."

  datatype RegisterReply = RegisterInvalid(errors: seq<FieldError>) | EmailTaken | Registered(user: PublicUser) {
    function Status(): nat {
      match this
      case RegisterInvalid(_) => 400
      case EmailTaken => 409
      case Registered(_) => 201
    }
    /** The `error` field of the reply body. */
    function Error(): Option<string> {
      if EmailTaken? then Some(MsgEmailTaken) else None
    }
    /** The `message` field of the reply body. */
    function Message(): Option<string> {
      if Registered? then Some(MsgRegistered) else None
    }
  }

  /** Unknown e-mail and wrong password share one constructor, hence one reply. */
  datatype LoginReply = LoginInvalid(errors: seq<FieldError>) | BadCredentials | LoggedIn(token: string, user: PublicUser) {
    function Status(): nat {
      match this
      case LoginInvalid(_) => 400
      case BadCredentials => 401
      case LoggedIn(_, _) => 200
    }
    /** The `error` field of the reply body. */
    function Error(): Option<string> {
      if BadCredentials? then Some(MsgBadCredentials) else None
    }
    /** The `message` field of the reply body. */
    function Message(): Option<string> {
      if LoggedIn? then Some(MsgLoggedIn) else None
    }
  }

  /** The row a successful registration inserts. */
  function NewBroker(lib: EmailLib, bcrypt: Bcrypt, body: RegisterBody, id: string, salt: nat, now: int): User {
    User(id, Trim(body.fullName), SanitizedEmail(lib, body.email),
         bcrypt.hash(body.password, SaltRounds, salt), Broker, now)
  }

  /** The reply of `POST /auth/register`; the database supplies `id` and `now`, bcrypt its `salt`. */
  function RegisterReplyFor(users: seq<User>, lib: EmailLib, bcrypt: Bcrypt, body: RegisterBody,
                            id: string, salt: nat, now: int): RegisterReply
  {
    var errors := RegisterErrors(lib, body.fullName, body.email, body.password);
    if errors != [] then RegisterInvalid(errors)
    else if FindUser(users, ByEmail, SanitizedEmail(lib, body.email)).Some? then EmailTaken
    else Registered(Public(NewBroker(lib, bcrypt, body, id, salt, now)))
  }

  /** The user table after that reply. */
  function UsersAfterRegister(users: seq<User>, lib: EmailLib, bcrypt: Bcrypt, body: RegisterBody,
                              id: string, salt: nat, now: int): seq<User>
  {
    if RegisterReplyFor(users, lib, bcrypt, body, id, salt, now).Registered?
    then users + [NewBroker(lib, bcrypt, body, id, salt, now)]
    else users
  }

  /** The reply of `POST /auth/login`; a function of the table, so login changes nothing. */
  function LoginReplyFor(users: seq<User>, lib: EmailLib, bcrypt: Bcrypt, jwt: Jwt, body: LoginBody): LoginReply {
    var errors := LoginErrors(lib, body.email, body.password);
    if errors != [] then LoginInvalid(errors)
    else
      match FindUser(users, ByEmail, SanitizedEmail(lib, body.email))
      case None => BadCredentials
      case Some(u) =>
        if !bcrypt.compare(body.password, u.password) then BadCredentials
        else LoggedIn(jwt.sign(PayloadOf(u)), Public(u))
  }

  /** The unique index on `email`. */
  ghost predicate EmailsUnique(users: seq<User>) {
    forall i, j :: 0 <= i < j < |users| ==> users[i].email != users[j].email
  }

  // ---------------------------------------------------------------------------
  // POST /auth/register

  /** A validation failure is a 400 with the error list, and no user is created. */
  lemma RegisterInvalidSpec(users: seq<User>, lib: EmailLib, bcrypt: Bcrypt, body: RegisterBody,
                            id: string, salt: nat, now: int)
    ensures var reply := RegisterReplyFor(users, lib, bcrypt, body, id, salt, now);
      && (reply.RegisterInvalid? <==> RegisterErrors(lib, body.fullName, body.email, body.password) != [])
      && (reply.RegisterInvalid? ==>
            && reply.Status() == 400
            && reply.errors == RegisterErrors(lib, body.fullName, body.email, body.password)
            && UsersAfterRegister(users, lib, bcrypt, body, id, salt, now) == users)
  {
    var errors := RegisterErrors(lib, body.fullName, body.email, body.password);
    var reply := RegisterReplyFor(users, lib, bcrypt, body, id, salt, now);
    if errors != [] {
      assert reply == RegisterInvalid(errors);
    } else {
      assert !reply.RegisterInvalid?;
    }
  }

  /** A valid registration for an address already present is a 409, and the table is unchanged. */
  lemma RegisterTakenSpec(users: seq<User>, lib: EmailLib, bcrypt: Bcrypt, body: RegisterBody,
                          id: string, salt: nat, now: int)
    ensures var reply := RegisterReplyFor(users, lib, bcrypt, body, id, salt, now);
      && (reply == EmailTaken <==>
            RegisterErrors(lib, body.fullName, body.email, body.password) == []
            && exists i :: 0 <= i < |users| && users[i].email == SanitizedEmail(lib, body.email))
      && (reply == EmailTaken ==>
            && reply.Status() == 409
            && reply.Error() == Some("An account with this email already exists.")
            && UsersAfterRegister(users, lib, bcrypt, body, id, salt, now) == users)
  {
  }

  /**
   * A successful registration appends exactly one BROKER whose stored password is the
   * bcrypt hash of the submitted one; the reply is that user's public projection.
   */
  lemma RegisterAppends(users: seq<User>, lib: EmailLib, bcrypt: Bcrypt, body: RegisterBody,
                        id: string, salt: nat, now: int)
    requires RegisterReplyFor(users, lib, bcrypt, body, id, salt, now).Registered?
    ensures var u := NewBroker(lib, bcrypt, body, id, salt, now);
      && UsersAfterRegister(users, lib, bcrypt, body, id, salt, now) == users + [u]
      && u.role == Broker && u.password == bcrypt.hash(body.password, SaltRounds, salt)
      && u.fullName == Trim(body.fullName) && u.email == SanitizedEmail(lib, body.email)
      && RegisterReplyFor(users, lib, bcrypt, body, id, salt, now).user
         == PublicUser(u.id, u.fullName, u.email, Broker)
      && RegisterReplyFor(users, lib, bcrypt, body, id, salt, now).Status() == 201
      && RegisterReplyFor(users, lib, bcrypt, body, id, salt, now).Message()
         == Some("Registration successful. Please log in.")
      && forall i :: 0 <= i < |users| ==> users[i].email != u.email
  {
    var u := NewBroker(lib, bcrypt, body, id, salt, now);
    assert RegisterErrors(lib, body.fullName, body.email, body.password) == [];
    assert FindUser(users, ByEmail, u.email).None?;
  }

  /** Registration keeps e-mail addresses unique. */
  lemma {:induction false} RegisterPreservesUnique(users: seq<User>, lib: EmailLib, bcrypt: Bcrypt,
                                                   body: RegisterBody, id: string, salt: nat, now: int)
    requires EmailsUnique(users)
    ensures EmailsUnique(UsersAfterRegister(users, lib, bcrypt, body, id, salt, now))
  {
    if RegisterReplyFor(users, lib, bcrypt, body, id, salt, now).Registered? {
      RegisterAppends(users, lib, bcrypt, body, id, salt, now);
      var t := users + [NewBroker(lib, bcrypt, body, id, salt, now)];
      forall i, j | 0 <= i < j < |t| ensures t[i].email != t[j].email {
        assert t[i] == users[i];
        if j < |users| {
          assert t[j] == users[j];
        }
      }
    }
  }

  /** Registering the same address a second time is a 409. */
  lemma {:induction false} RegisterTwiceConflicts(users: seq<User>, lib: EmailLib, bcrypt: Bcrypt,
                                                  first: RegisterBody, second: RegisterBody,
                                                  id1: string, salt1: nat, now1: int,
                                                  id2: string, salt2: nat, now2: int)
    requires RegisterReplyFor(users, lib, bcrypt, first, id1, salt1, now1).Registered?
    requires RegisterErrors(lib, second.fullName, second.email, second.password) == []
    requires SanitizedEmail(lib, second.email) == SanitizedEmail(lib, first.email)
    ensures var after := UsersAfterRegister(users, lib, bcrypt, first, id1, salt1, now1);
      RegisterReplyFor(after, lib, bcrypt, second, id2, salt2, now2) == EmailTaken
  {
    var u := NewBroker(lib, bcrypt, first, id1, salt1, now1);
    var after := users + [u];
    assert after[|users|] == u;
  }

  // ---------------------------------------------------------------------------
  // POST /auth/login

  /**
   * A well-formed login that names an unknown address, or a known one with a wrong
   * password, gets the one reply 401 "Invalid email or password.", and nothing else does.
   */
  lemma LoginRejectsAlike(users: seq<User>, lib: EmailLib, bcrypt: Bcrypt, jwt: Jwt, body: LoginBody)
    ensures var found := FindUser(users, ByEmail, SanitizedEmail(lib, body.email));
      LoginReplyFor(users, lib, bcrypt, jwt, body) == BadCredentials
      <==> LoginErrors(lib, body.email, body.password) == []
           && (found.None? || !bcrypt.compare(body.password, found.value.password))
    ensures LoginReplyFor(users, lib, bcrypt, jwt, body) == BadCredentials ==>
      LoginReplyFor(users, lib, bcrypt, jwt, body).Status() == 401
      && LoginReplyFor(users, lib, bcrypt, jwt, body).Error() == Some("Invalid email or password.")
  {
  }

  /** A successful login signs the stored user's {userId, email, role} and returns its public projection. */
  lemma LoginSignsStoredUser(users: seq<User>, lib: EmailLib, bcrypt: Bcrypt, jwt: Jwt, body: LoginBody)
    requires LoginReplyFor(users, lib, bcrypt, jwt, body).LoggedIn?
    ensures var found := FindUser(users, ByEmail, SanitizedEmail(lib, body.email));
      var reply := LoginReplyFor(users, lib, bcrypt, jwt, body);
      && found.Some? && found.value in users
      && bcrypt.compare(body.password, found.value.password)
      && reply.token == jwt.sign(AuthPayload(found.value.id, found.value.email, found.value.role.Name()))
      && reply.user == PublicUser(found.value.id, found.value.fullName, found.value.email, found.value.role)
      && reply.Status() == 200 && reply.Message() == Some("Login successful.")
  {
  }

  /** A failed validation at login is a 400 with the error list. */
  lemma LoginInvalidSpec(users: seq<User>, lib: EmailLib, bcrypt: Bcrypt, jwt: Jwt, body: LoginBody)
    ensures LoginReplyFor(users, lib, bcrypt, jwt, body).LoginInvalid?
        <==> LoginErrors(lib, body.email, body.password) != []
  {
  }

  /**
   * Register followed by login with the same credentials succeeds and signs the new
   * broker's identity, given only that bcrypt accepts a password against its own hash.
   */
  lemma {:induction false} RegisterThenLogin(users: seq<User>, lib: EmailLib, bcrypt: Bcrypt, jwt: Jwt,
                                             body: RegisterBody, id: string, salt: nat, now: int)
    requires CompareAcceptsHash(bcrypt)
    requires RegisterReplyFor(users, lib, bcrypt, body, id, salt, now).Registered?
    ensures var after := UsersAfterRegister(users, lib, bcrypt, body, id, salt, now);
      LoginReplyFor(after, lib, bcrypt, jwt, LoginBody(body.email, body.password))
      == LoggedIn(jwt.sign(AuthPayload(id, SanitizedEmail(lib, body.email), "BROKER")),
                  RegisterReplyFor(users, lib, bcrypt, body, id, salt, now).user)
  {
    var u := NewBroker(lib, bcrypt, body, id, salt, now);
    var after := users + [u];
    RegisterAppends(users, lib, bcrypt, body, id, salt, now);
    RegisterImpliesLogin(lib, body.fullName, body.email, body.password);
    FindAfterAppend(users, u);
    assert bcrypt.compare(body.password, bcrypt.hash(body.password, SaltRounds, salt));
  }

  /** Looking up the address of a row appended behind rows that lack it finds that row. */
  lemma {:induction false} FindAfterAppend(users: seq<User>, u: User)
    requires forall i :: 0 <= i < |users| ==> users[i].email != u.email
    ensures FindUser(users + [u], ByEmail, u.email) == Some(u)
  {
    if users != [] {
      assert (users + [u])[1..] == users[1..] + [u];
      FindAfterAppend(users[1..], u);
    }
  }

  /**
   * The token of that login, once verified, passes the authorization gate with the
   * broker's identity, provided the token library verifies what it signed.
   */
  lemma {:induction false} RegisteredBrokerPassesGate(users: seq<User>, lib: EmailLib, bcrypt: Bcrypt, jwt: Jwt,
                                                      body: RegisterBody, id: string, salt: nat, now: int)
    requires CompareAcceptsHash(bcrypt)
    requires RegisterReplyFor(users, lib, bcrypt, body, id, salt, now).Registered?
    requires var p := AuthPayload(id, SanitizedEmail(lib, body.email), "BROKER");
      ' ' !in jwt.sign(p) && jwt.verify(jwt.sign(p)) == Some(p)
    ensures var after := UsersAfterRegister(users, lib, bcrypt, body, id, salt, now);
      var reply := LoginReplyFor(after, lib, bcrypt, jwt, LoginBody(body.email, body.password));
      && reply.LoggedIn?
      && AuthenticateOutcome(Some("Bearer " + reply.token), jwt)
         == Next(AuthPayload(id, SanitizedEmail(lib, body.email), "BROKER"))
  {
    RegisterThenLogin(users, lib, bcrypt, jwt, body, id, salt, now);
    SignedTokenAccepted(jwt, AuthPayload(id, SanitizedEmail(lib, body.email), "BROKER"));
  }

  /** The user table as the handlers use it. */
  class UserTable {
    var rows: seq<User>

    ghost predicate Valid()
      reads this
    {
      EmailsUnique(rows)
    }

    constructor ()
      ensures Valid() && rows == []
    {
      rows := [];
    }

    /** `prisma.user.findUnique({ where: { email } })`. */
    method FindUnique(email: string) returns (found: Option<User>)
      ensures found == FindUser(rows, ByEmail, email)
    {
      var i := 0;
      while i < |rows|
        invariant 0 <= i <= |rows|
        invariant FindUser(rows, ByEmail, email) == FindUser(rows[i..], ByEmail, email)
      {
        if rows[i].email == email {
          return Some(rows[i]);
        }
        assert rows[i..][1..] == rows[i + 1..];
        i := i + 1;
      }
      return None;
    }

    /** `POST /auth/register`. */
    method Register(lib: EmailLib, bcrypt: Bcrypt, body: RegisterBody, id: string, salt: nat, now: int)
      returns (reply: RegisterReply)
      requires Valid()
      modifies this
      ensures Valid()
      ensures reply == RegisterReplyFor(old(rows), lib, bcrypt, body, id, salt, now)
      ensures rows == UsersAfterRegister(old(rows), lib, bcrypt, body, id, salt, now)
    {
      RegisterPreservesUnique(rows, lib, bcrypt, body, id, salt, now);
      var errors := RegisterErrors(lib, body.fullName, body.email, body.password);
      if errors != [] {
        return RegisterInvalid(errors);
      }
      var email := SanitizedEmail(lib, body.email);
      var existing := FindUnique(email);
      if existing.Some? {
        return EmailTaken;
      }
      var hashed := bcrypt.hash(body.password, SaltRounds, salt);
      var user := User(id, Trim(body.fullName), email, hashed, Broker, now);
      rows := rows + [user];
      reply := Registered(PublicUser(user.id, user.fullName, user.email, user.role));
    }

    /** `POST /auth/login`: reads the table and changes nothing (the method has no `modifies`). */
    method Login(lib: EmailLib, bcrypt: Bcrypt, jwt: Jwt, body: LoginBody) returns (reply: LoginReply)
      ensures reply == LoginReplyFor(rows, lib, bcrypt, jwt, body)
    {
      var errors := LoginErrors(lib, body.email, body.password);
      if errors != [] {
        return LoginInvalid(errors);
      }
      var user := FindUnique(SanitizedEmail(lib, body.email));
      if user.None? {
        return BadCredentials;
      }
      var isValidPassword := bcrypt.compare(body.password, user.value.password);
      if !isValidPassword {
        return BadCredentials;
      }
      var token := jwt.sign(AuthPayload(user.value.id, user.value.email, user.value.role.Name()));
      reply := LoggedIn(token, Public(user.value));
    }
  }
}
