/** Credential check and login (src/auth/auth.service.ts). Both operations only
    read the user table; the hasher and the token signer are parameters. */
module Auth {
  import opened Common
  import opened Crypto
  import opened Foreign
  import Users

  /** The login request body. */
  datatype LoginDto = LoginDto(email: Email, password: string)

  /** `jwtService.sign`, a function of the payload; the secret, the expiry and
      the token format are behind it. */
  type Signer = Payload -> string

  datatype LoginResponse = LoginResponse(accessToken: string)

  /** A value together with the foreign calls made to compute it, in order. */
  datatype Traced<+T> = Traced(value: T, calls: seq<Call>)

  const InvalidCredentials := "Invalid credentials"

  /** `validateUser`: the record, when one exists for the email and the
      password matches its hash; null (None) otherwise. The `&&` short-circuits,
      so compare is called only when the record exists. */
  function ValidateUser(users: map<Email, Users.User>, h: Hasher, email: Email, password: string)
    : (r: Traced<Option<Users.User>>)
    ensures r.value.Some? <==> email in users && h.compare(password, users[email].password)
    ensures r.value.Some? ==> r.value.value == users[email]
    ensures email !in users ==> r.calls == [FindUnique(email)]
    ensures email in users ==> r.calls == [FindUnique(email), Compare(password, users[email].password)]
  {
    var lookup := [FindUnique(email)];
    if email !in users then
      Traced(None, lookup)
    else
      var user := users[email];
      var calls := lookup + [Compare(password, user.password)];
      if h.compare(password, user.password) then Traced(Some(user), calls) else Traced(None, calls)
  }

  /** `login`: validate the DTO's email and password as they are; null becomes
      Unauthorized "Invalid credentials"; otherwise sign `{ email, sub: id }`. */
  function Login(users: map<Email, Users.User>, h: Hasher, sign: Signer, dto: LoginDto)
    : (r: Traced<Result<LoginResponse>>)
    // validateUser is called first, with the DTO's fields unchanged
    ensures var v := ValidateUser(users, h, dto.email, dto.password);
            |v.calls| <= |r.calls| && r.calls[..|v.calls|] == v.calls
    ensures r.value.Ok? <==> dto.email in users && h.compare(dto.password, users[dto.email].password)
    ensures r.value.Err? ==> r.value.error == HttpException(StatusUnauthorized, "Invalid credentials")
    ensures r.value.Ok? ==>
              var u := users[dto.email];
              && r.value.value == LoginResponse(sign(Payload(u.email, u.id)))
              && Sign(Payload(u.email, u.id)) in r.calls
    // in a well-formed table the token carries the login email and that user's id
    ensures Users.WellFormed(users) && r.value.Ok? ==>
              r.value.value == LoginResponse(sign(Payload(dto.email, users[dto.email].id)))
    ensures r.value.Err? ==> forall c :: c in r.calls ==> !c.Sign?
  {
    var v := ValidateUser(users, h, dto.email, dto.password);
    match v.value
    case None => Traced(Err(Unauthorized(InvalidCredentials)), v.calls)
    case Some(user) =>
      var payload := Payload(user.email, user.id);
      Traced(Ok(LoginResponse(sign(payload))), v.calls + [Sign(payload)])
  }

  /** An unknown email and a wrong password for a known one end in the same
      error: the caller cannot tell which of the two happened. */
  lemma LoginFailuresIndistinguishable(users: map<Email, Users.User>, h: Hasher, sign: Signer,
                                       unknown: LoginDto, wrong: LoginDto)
    requires unknown.email !in users
    requires wrong.email in users && !h.compare(wrong.password, users[wrong.email].password)
    ensures Login(users, h, sign, unknown).value == Login(users, h, sign, wrong).value
    ensures Login(users, h, sign, unknown).value.Err?
  {
  }

  /** A user who has just registered logs in with the same email and password
      and receives the token signed over their email and new id, provided the
      hasher used at registration and at login is the same sound one. */
  lemma RegisteredUserCanLogIn(users: map<Email, Users.User>, dto: Users.CreateUserDto, h: Hasher,
                              sign: Signer, newId: UserId, faults: Users.Faults)
    requires Sound(h)
    requires Users.CreateUserOutcome(users, dto, h, newId, faults).result.Ok?
    ensures var after := Users.CreateUserOutcome(users, dto, h, newId, faults).users;
            Login(after, h, sign, LoginDto(dto.email, dto.password)).value
              == Ok(LoginResponse(sign(Payload(dto.email, newId))))
  {
  }

  /** After a registration, a login with another password fails unless the
      hasher matches that password against the stored hash. */
  lemma WrongPasswordAfterRegistrationFails(users: map<Email, Users.User>, dto: Users.CreateUserDto, h: Hasher,
                                            sign: Signer, newId: UserId, faults: Users.Faults, other: string)
    requires Users.CreateUserOutcome(users, dto, h, newId, faults).result.Ok?
    requires !h.compare(other, h.hash(dto.password, SaltRounds))
    ensures var after := Users.CreateUserOutcome(users, dto, h, newId, faults).users;
            Login(after, h, sign, LoginDto(dto.email, other)).value
              == Err(Unauthorized(InvalidCredentials))
  {
  }
}
