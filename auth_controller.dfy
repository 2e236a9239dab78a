/**
 * `login_user` and `create_user` (backend/controllers/auth_controller.py):
 * the status codes and bodies built from the request body and from what
 * `auth_service` returns.  The service results and bcrypt's
 * `validate_password` are inputs; a tuple is a `seq<Value>`, and indexing
 * past its end raises (`Crash`).
 */
module AuthController {
  import opened Wrappers
  import opened Values
  import opened Responses

  /** Python's truth value of the tuple a service returns (None or a tuple). */
  predicate RowTruthy(row: Option<seq<Value>>) {
    row.Some? && row.value != []
  }

  /** The login success body: columns 0 to 7 of the row, `success` and the message. */
  function LoginBody(row: seq<Value>): (body: map<string, Value>)
    requires |row| >= 8
    ensures Get(body, "user_id") == row[0] && Get(body, "username") == row[1] && Get(body, "email") == row[2]
    ensures Get(body, "name") == row[3] && Get(body, "last_name") == row[4] && Get(body, "profile_photo_url") == row[5]
    ensures Get(body, "user_type") == row[6] && Get(body, "user_status") == row[7]
    ensures Get(body, "success") == Bool(true) && Get(body, "message") == Str("Login exitoso")
  {
    map["user_id" := row[0], "username" := row[1], "email" := row[2], "name" := row[3],
        "last_name" := row[4], "profile_photo_url" := row[5], "user_type" := row[6],
        "user_status" := row[7], "success" := Bool(true), "message" := Str("Login exitoso")]
  }

  /** The credentials check of `login_user`: a truthy password and a truthy username or email. */
  predicate Complete(data: map<string, Value>) {
    Truthy(Get(data, "password")) && (Truthy(Get(data, "username")) || Truthy(Get(data, "email")))
  }

  /**
   * `validate_password` (backend/utils/security.py): both arguments are
   * encoded with `.encode()`, which raises unless they are strings, and
   * `checkpw(given, hash)` is bcrypt's answer, `None` when it raises (a
   * malformed hash).  `None` is the raising call.
   */
  function ValidatePassword(given: Value, hashed: Value, checkpw: (string, string) -> Option<bool>): (r: Option<bool>)
    ensures r.Some? <==> given.Str? && hashed.Str? && checkpw(given.s, hashed.s).Some?
    ensures r.Some? ==> r == checkpw(given.s, hashed.s)
  {
    if given.Str? && hashed.Str? then checkpw(given.s, hashed.s) else None
  }

  /**
   * `login_user`: `body` is `request.get_json()`, `lookup` what
   * `login_user_db` returns for the credentials and `checkpw` bcrypt's
   * check.  A body that is not a JSON object has no `.get` and raises.
   */
  function LoginUser(body: Value, lookup: Option<seq<Value>>,
                     checkpw: (string, string) -> Option<bool>): (r: Reply)
    ensures !body.Dict? ==> r.Crash?
    ensures body.Dict? && !Complete(body.entries) ==> r == Failure(400, "Credenciales incompletas")
    ensures body.Dict? && Complete(body.entries) ==>
      if !RowTruthy(lookup) then r == Failure(404, "Usuario no encontrado")
      else if |lookup.value| < 9 then r.Crash?
      else match ValidatePassword(Get(body.entries, "password"), lookup.value[8], checkpw)
        case None => r.Crash?
        case Some(ok) => if ok then r == Json(200, Dict(LoginBody(lookup.value)))
                         else r == Failure(401, "Contraseña incorrecta")
  {
    if !body.Dict? then Crash("object has no attribute 'get'")
    else if !Complete(body.entries) then Failure(400, "Credenciales incompletas")
    else if !RowTruthy(lookup) then Failure(404, "Usuario no encontrado")
    else if |lookup.value| < 9 then Crash("tuple index out of range")
    else match ValidatePassword(Get(body.entries, "password"), lookup.value[8], checkpw)
      case None => Crash("validate_password raised")
      case Some(ok) => if ok then Json(200, Dict(LoginBody(lookup.value))) else Failure(401, "Contraseña incorrecta")
  }

  /** Incomplete credentials are refused before the lookup: its result does not matter. */
  lemma IncompleteBeforeLookup(body: Value, l1: Option<seq<Value>>, l2: Option<seq<Value>>,
                               checkpw: (string, string) -> Option<bool>)
    requires body.Dict? && !Complete(body.entries)
    ensures LoginUser(body, l1, checkpw) == LoginUser(body, l2, checkpw) == Failure(400, "Credenciales incompletas")
  {
  }

  /**
   * Login answers 200 exactly when the body is an object with complete
   * credentials, the user is found and bcrypt accepts the string password
   * against the string hash in column 8.
   */
  lemma LoginSucceedsIff(body: Value, lookup: Option<seq<Value>>, checkpw: (string, string) -> Option<bool>)
    ensures LoginUser(body, lookup, checkpw).Json? && LoginUser(body, lookup, checkpw).status == 200
      <==> && body.Dict? && Complete(body.entries)
           && RowTruthy(lookup) && |lookup.value| >= 9
           && ValidatePassword(Get(body.entries, "password"), lookup.value[8], checkpw) == Some(true)
  {
  }

  /**
   * A truthy password that is not a string (a number, a list) reaches
   * `validate_password`, whose `.encode()` raises: the view answers 500
   * instead of 401.
   */
  lemma NonStringPasswordCrashes(body: Value, lookup: Option<seq<Value>>, checkpw: (string, string) -> Option<bool>)
    requires body.Dict? && Complete(body.entries) && !Get(body.entries, "password").Str?
    requires RowTruthy(lookup) && |lookup.value| >= 9
    ensures LoginUser(body, lookup, checkpw).Crash?
  {
  }

  /**
   * `login_user_db` reports a database error as the pair `(str(e), False)`,
   * which is truthy: the controller then reads column 8 of a pair and raises.
   */
  lemma LoginServiceErrorCrashes(body: Value, e: string, checkpw: (string, string) -> Option<bool>)
    requires body.Dict? && Complete(body.entries)
    ensures LoginUser(body, Some([Str(e), Bool(false)]), checkpw).Crash?
  {
  }

  /** `create_user`: `created` is what `create_user_db` returns. */
  function CreateUser(created: Option<seq<Value>>): (r: Reply)
    ensures RowTruthy(created) && |created.value| >= 5 && Truthy(created.value[4]) ==>
      r.Json? && r.status == 201 && Field(r.body, "user_id") == created.value[4] && Field(r.body, "message") == created.value[2]
      && Field(r.body, "username") == created.value[0] && Field(r.body, "email") == created.value[1] && Field(r.body, "success") == created.value[3]
    ensures RowTruthy(created) && |created.value| >= 5 && !Truthy(created.value[4]) ==>
      r == Json(400, Dict(map["success" := Bool(false), "message" := created.value[2]]))
    ensures !RowTruthy(created) ==> r == Failure(400, "Error desconocido al crear usuario")
    ensures RowTruthy(created) && |created.value| < 5 ==> r.Crash?
    ensures r.Json? && r.status == 201 <==> RowTruthy(created) && |created.value| >= 5 && Truthy(created.value[4])
  {
    if !RowTruthy(created) then Failure(400, "Error desconocido al crear usuario")
    else
      var row := created.value;
      if |row| < 5 then Crash("tuple index out of range")
      else if Truthy(row[4]) then
        Json(201, Dict(map["username" := row[0], "email" := row[1], "message" := row[2],
                           "success" := row[3], "user_id" := row[4]]))
      else Json(400, Dict(map["success" := Bool(false), "message" := row[2]]))
  }

  /**
   * `create_user_db` returns the pair `(message, True)` on success and
   * `(str(e), False)` on failure; the controller reads column 4 of it and
   * raises in both cases.
   */
  lemma EnrollServicePairCrashes(message: string, ok: bool)
    ensures CreateUser(Some([Str(message), Bool(ok)])).Crash?
  {
  }
}
