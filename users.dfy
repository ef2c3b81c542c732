/** The user registry (src/user/user.service.ts): registration with a uniqueness
    check on the email, and lookup by email. The user table is a map keyed by
    email, so two records can never share an email. */
module Users {
  import opened Common
  import opened Crypto
  import opened Foreign

  /** A stored user. `password` holds the hash, never the plaintext. The
      creation and update timestamps the store adds are not modelled. */
  datatype User = User(id: UserId, email: Email, password: string, name: Option<string>)

  /** The registration request body. */
  datatype CreateUserDto = CreateUserDto(email: Email, password: string, name: Option<string>)

  /** How the foreign calls the service cannot predict turn out for one
      request: whether the hasher throws, and whether the store rejects the
      insert for a reason of its own (lost connection, a constraint violated
      by a concurrent request). */
  datatype Faults = Faults(hashThrows: bool, insertThrows: bool)

  /** What `createUser` returns, the user table afterwards, and the foreign
      calls it made, in the order it made them. */
  datatype Outcome = Outcome(result: Result<User>, users: map<Email, User>, calls: seq<Call>)

  const EmailInUse := "Email is already in use."
  const CreateFailed := "Failed to create user."
  const UserNotFound := "User not found."
  const HashFailed := "bcrypt: hashing failed"

  /** The table invariant: every record sits under its own email, and no two
      records share an id. */
  ghost predicate WellFormed(users: map<Email, User>)
  {
    && (forall e :: e in users ==> users[e].email == e)
    && (forall e1, e2 :: e1 in users && e2 in users && users[e1].id == users[e2].id ==> e1 == e2)
  }

  /** Whether the store already holds a record with this id (its primary key). */
  predicate IdTaken(users: map<Email, User>, id: UserId)
  {
    exists e :: e in users && users[e].id == id
  }

  /** `findUserByEmail`: the stored record, or BadRequest "User not found."
      when the email is absent. */
  function FindUserByEmail(users: map<Email, User>, email: Email): (r: Result<User>)
    ensures r.Ok? <==> email in users
    ensures r.Ok? ==> r.value == users[email]
    ensures r.Err? ==> r.error == HttpException(StatusBadRequest, "User not found.")
  {
    if email in users then Ok(users[email]) else Err(BadRequest(UserNotFound))
  }

  /** `createUser` on the table `users`: look the email up, refuse a duplicate,
      hash the password with 10 rounds, insert, and turn an insert failure into
      BadRequest. A failure of the hasher is outside the try block and reaches
      the caller unchanged. */
  function CreateUserOutcome(users: map<Email, User>, dto: CreateUserDto, h: Hasher,
                             newId: UserId, faults: Faults): (o: Outcome)
    // the lookup by email comes first
    ensures |o.calls| >= 1 && o.calls[0] == FindUnique(dto.email)
    // the hasher is called exactly when the email is new
    ensures (exists c :: c in o.calls && c.Hash?) <==> dto.email !in users
    // what reaches the store is the hash of the password, never the plaintext
    ensures forall c :: c in o.calls && c.Insert? ==>
              c.data == UserData(dto.email, h.hash(dto.password, SaltRounds), dto.name)
    // a duplicate email is refused with Conflict and the table is left alone
    ensures dto.email in users ==>
              o.result == Err(HttpException(StatusConflict, "Email is already in use."))
    ensures o.result.Err? ==> o.users == users
    // a hashing failure propagates as it is, not as an HTTP exception
    ensures dto.email !in users && faults.hashThrows ==>
              o.result.Err? && o.result.error.OtherError?
    // a rejected insert becomes a generic BadRequest
    ensures dto.email !in users && !faults.hashThrows && (faults.insertThrows || IdTaken(users, newId)) ==>
              o.result == Err(HttpException(StatusBadRequest, "Failed to create user."))
              && Insert(UserData(dto.email, h.hash(dto.password, SaltRounds), dto.name)) in o.calls
    // success exactly when nothing above happens
    ensures o.result.Ok? <==>
              dto.email !in users && !faults.hashThrows && !faults.insertThrows && !IdTaken(users, newId)
    // on success the table gains exactly the new record; the others are untouched
    ensures o.result.Ok? ==>
              && o.result.value == User(newId, dto.email, h.hash(dto.password, SaltRounds), dto.name)
              && o.users.Keys == users.Keys + {dto.email}
              && o.users[dto.email] == o.result.value
              && (forall e :: e in users ==> o.users[e] == users[e])
    ensures WellFormed(users) ==> WellFormed(o.users)
  {
    var lookup := [FindUnique(dto.email)];
    if dto.email in users then
      Outcome(Err(Conflict(EmailInUse)), users, lookup)
    else
      var hashing := lookup + [Hash(dto.password, SaltRounds)];
      assert hashing[1] in hashing;
      if faults.hashThrows then
        Outcome(Err(OtherError(HashFailed)), users, hashing)
      else
        var data := UserData(dto.email, h.hash(dto.password, SaltRounds), dto.name);
        var calls := hashing + [Insert(data)];
        assert calls[1] in calls && calls[1].Hash?;
        if faults.insertThrows || IdTaken(users, newId) then
          Outcome(Err(BadRequest(CreateFailed)), users, calls)
        else
          var user := User(newId, data.email, data.password, data.name);
          Outcome(Ok(user), users[dto.email := user], calls)
  }

  /** Registering an email a second time is refused with Conflict, whatever
      the second request carries, and leaves the table as the first left it. */
  lemma SecondRegistrationConflicts(users: map<Email, User>, first: CreateUserDto, second: CreateUserDto,
                                    h: Hasher, id1: UserId, id2: UserId, f1: Faults, f2: Faults)
    requires CreateUserOutcome(users, first, h, id1, f1).result.Ok?
    requires second.email == first.email
    ensures var after := CreateUserOutcome(users, first, h, id1, f1).users;
            && CreateUserOutcome(after, second, h, id2, f2).result == Err(Conflict(EmailInUse))
            && CreateUserOutcome(after, second, h, id2, f2).users == after
  {
  }

  /** After a successful registration the new record is found by its email. */
  lemma RegisteredUserIsFound(users: map<Email, User>, dto: CreateUserDto, h: Hasher,
                              newId: UserId, faults: Faults)
    requires CreateUserOutcome(users, dto, h, newId, faults).result.Ok?
    ensures var o := CreateUserOutcome(users, dto, h, newId, faults);
            FindUserByEmail(o.users, dto.email) == Ok(o.result.value)
  {
  }

  /** The user service: it owns the user table and the hasher it was given. */
  class UserService {
    var users: map<Email, User>
    const hasher: Hasher

    ghost predicate Valid()
      reads this
    {
      WellFormed(users)
    }

    constructor (hasher: Hasher)
      ensures Valid() && users == map[] && this.hasher == hasher
    {
      this.users := map[];
      this.hasher := hasher;
    }

    /** `createUser`: the result, the new table and the calls made are those of
        CreateUserOutcome on the table as it was. */
    method CreateUser(dto: CreateUserDto, newId: UserId, faults: Faults)
      returns (r: Result<User>, ghost calls: seq<Call>)
      requires Valid()
      modifies this
      ensures Valid()
      ensures Outcome(r, users, calls) == CreateUserOutcome(old(users), dto, hasher, newId, faults)
    {
      calls := [FindUnique(dto.email)];
      if dto.email in users {
        r := Err(Conflict(EmailInUse));
        return;
      }
      calls := calls + [Hash(dto.password, SaltRounds)];
      if faults.hashThrows {
        r := Err(OtherError(HashFailed));
        return;
      }
      var hashed := hasher.hash(dto.password, SaltRounds);
      var data := UserData(dto.email, hashed, dto.name);
      calls := calls + [Insert(data)];
      if faults.insertThrows || IdTaken(users, newId) {
        r := Err(BadRequest(CreateFailed));
        return;
      }
      var user := User(newId, data.email, data.password, data.name);
      users := users[dto.email := user];
      r := Ok(user);
    }
  }
}
