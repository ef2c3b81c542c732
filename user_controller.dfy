/** The registration endpoint (src/user/user.controller.ts): it forwards the
    request body to the user service and maps what the service throws. */
module UserController {
  import opened Common
  import opened Crypto
  import Users

  const InternalServerError := "Internal server error"

  /** The catch block of `register`: an HTTP exception is rethrown as it is;
      any other error becomes HttpException("Internal server error", 500). */
  function MapRegisterError(r: Result<Users.User>): (m: Result<Users.User>)
    ensures r.Ok? ==> m == r
    ensures r.Err? && r.error.HttpException? ==> m == r
    ensures r.Err? && r.error.OtherError? ==>
              m == Err(HttpException(StatusInternalServerError, "Internal server error"))
    // nothing but an HTTP exception leaves the handler
    ensures m.Err? ==> m.error.HttpException?
  {
    match r
    case Ok(_) => r
    case Err(HttpException(_, _)) => r
    case Err(OtherError(_)) => Err(HttpException(StatusInternalServerError, InternalServerError))
  }

  /** `register`: createUser on the unchanged DTO, its result mapped by the
      catch block; the table and the foreign calls are the service's own. */
  function Register(users: map<Email, Users.User>, dto: Users.CreateUserDto, h: Hasher,
                    newId: UserId, faults: Users.Faults): (o: Users.Outcome)
    ensures var s := Users.CreateUserOutcome(users, dto, h, newId, faults);
            o.users == s.users && o.calls == s.calls && o.result == MapRegisterError(s.result)
    ensures o.result.Err? ==> o.result.error.HttpException?
  {
    var s := Users.CreateUserOutcome(users, dto, h, newId, faults);
    Users.Outcome(MapRegisterError(s.result), s.users, s.calls)
  }

  /** What a client of the endpoint sees: 409 for a taken email, 400 when the
      store refuses the row (a fault of its own or an id it already holds), 500 when the hasher throws, the new record otherwise. */
  lemma RegisterStatuses(users: map<Email, Users.User>, dto: Users.CreateUserDto, h: Hasher,
                         newId: UserId, faults: Users.Faults)
    ensures var r := Register(users, dto, h, newId, faults).result;
            && (dto.email in users ==> r == Err(HttpException(StatusConflict, Users.EmailInUse)))
            && (dto.email !in users && faults.hashThrows ==>
                  r == Err(HttpException(StatusInternalServerError, InternalServerError)))
            && (dto.email !in users && !faults.hashThrows
                && (faults.insertThrows || Users.IdTaken(users, newId)) ==>
                  r == Err(HttpException(StatusBadRequest, Users.CreateFailed)))
            && (r.Ok? ==> r.value.password == h.hash(dto.password, SaltRounds))
  {
  }
}
