/**
 * The finance views of backend/controllers/finance_controller.py: the
 * Bearer-header check all three share and the validation chain of
 * `add_transaction`.  Token decoding, `float()` and the finance service
 * are inputs; an exception anywhere in a view that the view does not catch
 * itself becomes the 500 "Error interno del servidor".
 */
module FinanceController {
  import opened Wrappers
  import opened Values
  import opened PyStr
  import opened Responses

  /** What `jwts.decode_token(token)` gives: a payload, or an exception. */
  datatype Decode = Payload(payload: Value) | DecodeRaises

  const InternalError := ErrorReply(500, "Error interno del servidor")

  /** The outcome of the shared header check: go on with the payload, or answer now. */
  datatype Gate = Through(payload: Value) | Stop(reply: Reply)

  /** The Bearer-header check at the top of every finance view. */
  function Authenticate(header: Option<string>, decode: string -> Decode): (g: Gate)
    ensures (header.None? || !StartsWith(header.value, "Bearer ")) ==> g == Stop(ErrorReply(401, "Token de acceso requerido"))
    ensures g.Through? ==> Truthy(g.payload)
    ensures g.Through? <==> (header.Some? && StartsWith(header.value, "Bearer ")
      && decode(UpTo(header.value[7..], ' ')).Payload? && Truthy(decode(UpTo(header.value[7..], ' ')).payload))
    ensures header.Some? && StartsWith(header.value, "Bearer ") ==>
      var d := decode(UpTo(header.value[7..], ' '));
      && (d.DecodeRaises? ==> g == Stop(InternalError))
      && (d.Payload? && !Truthy(d.payload) ==> g == Stop(ErrorReply(401, "Token inválido")))
  {
    if header.None? || header.value == "" || !StartsWith(header.value, "Bearer ") then
      Stop(ErrorReply(401, "Token de acceso requerido"))
    else
      var h := header.value;
      assert h[..6] == "Bearer" && h[6] == ' ';
      SplitSecond(h, ' ', 6);
      var token := Split(h, ' ')[1];
      match decode(token)
      case DecodeRaises => Stop(InternalError)
      case Payload(p) => if !Truthy(p) then Stop(ErrorReply(401, "Token inválido")) else Through(p)
  }

  /** `get_finance_summary`: `summary` is the service result, None for `None`. */
  function GetFinanceSummary(header: Option<string>, decode: string -> Decode, summary: Option<Value>): (r: Reply)
    ensures Authenticate(header, decode).Stop? ==> r == Authenticate(header, decode).reply
    ensures Authenticate(header, decode).Through? && summary.None? ==> r == ErrorReply(500, "Error al obtener el resumen financiero")
    ensures Authenticate(header, decode).Through? && summary.Some? ==> r == Json(200, summary.value)
  {
    match Authenticate(header, decode)
    case Stop(reply) => reply
    case Through(_) =>
      match summary
      case None => ErrorReply(500, "Error al obtener el resumen financiero")
      case Some(s) => Json(200, s)
  }

  /** `get_club_transactions`: `transactions` is the service result. */
  function GetClubTransactions(header: Option<string>, decode: string -> Decode, transactions: Value): (r: Reply)
    ensures Authenticate(header, decode).Stop? ==> r == Authenticate(header, decode).reply
    ensures Authenticate(header, decode).Through? ==> r == Json(200, transactions)
  {
    match Authenticate(header, decode)
    case Stop(reply) => reply
    case Through(_) => Json(200, transactions)
  }

  /**
   * `JWTService` has no `decode_token`: looking it up raises, so every
   * request that gets past the header check is answered with the 500.
   */
  lemma MissingDecoderGives500(header: Option<string>, summary: Option<Value>, transactions: Value)
    requires header.Some? && StartsWith(header.value, "Bearer ")
    ensures GetFinanceSummary(header, _ => DecodeRaises, summary) == InternalError
    ensures GetClubTransactions(header, _ => DecodeRaises, transactions) == InternalError
  {
  }

  /**
   * What `float(v)` does: a number, a `ValueError` or `TypeError` (which
   * the amount check catches), or an `OverflowError` for an integer too
   * large for a float (which it does not catch).
   */
  datatype Float = Parsed(value: real) | BadNumber | TooLarge

  /** The outcome of the checks of `add_transaction`: the amount to store, a 400 message, or an escaping exception. */
  datatype Validation = Valid(amount: real) | Invalid(message: string) | Overflow

  /** The fields `add_transaction` requires, in the order it checks them. */
  const RequiredFields: seq<string> := ["date", "description", "category", "type", "amount"]

  /** The first required field whose value is missing or falsy. */
  function FirstMissing(fields: seq<string>, data: map<string, Value>): (r: Option<string>)
    ensures r.None? <==> forall k :: 0 <= k < |fields| ==> Truthy(Get(data, fields[k]))
    ensures r.Some? ==> exists i :: (0 <= i < |fields| && fields[i] == r.value && !Truthy(Get(data, fields[i]))
      && forall k :: 0 <= k < i ==> Truthy(Get(data, fields[k])))
  {
    if fields == [] then None
    else if !Truthy(Get(data, fields[0])) then Some(fields[0])
    else
      var rest := FirstMissing(fields[1..], data);
      if rest.Some? then
        var j :| 0 <= j < |fields[1..]| && fields[1..][j] == rest.value && !Truthy(Get(data, fields[1..][j]))
          && forall k :: 0 <= k < j ==> Truthy(Get(data, fields[1..][k]));
        assert fields[j + 1] == rest.value;
        rest
      else rest
  }

  /**
   * The validation chain of `add_transaction` on a JSON object: the amount
   * to store, the message of the 400 answer, or the `OverflowError` that
   * escapes the amount check.  `toFloat(v)` is `float(v)`.
   */
  function ValidateTransaction(data: map<string, Value>, toFloat: Value -> Float): (r: Validation)
    ensures r.Valid? ==> r.amount > 0.0
    ensures r.Valid? <==>
      && (forall k :: 0 <= k < |RequiredFields| ==> Truthy(Get(data, RequiredFields[k])))
      && Get(data, "type") in [Str("income"), Str("expense")]
      && toFloat(Get(data, "amount")).Parsed? && toFloat(Get(data, "amount")).value > 0.0
    ensures r.Valid? ==> r.amount == toFloat(Get(data, "amount")).value
    ensures r.Overflow? <==>
      && (forall k :: 0 <= k < |RequiredFields| ==> Truthy(Get(data, RequiredFields[k])))
      && Get(data, "type") in [Str("income"), Str("expense")]
      && toFloat(Get(data, "amount")).TooLarge?
  {
    match FirstMissing(RequiredFields, data)
    case Some(field) => Invalid("El campo " + field + " es requerido")
    case None =>
      if Get(data, "type") !in [Str("income"), Str("expense")] then Invalid("El tipo debe ser \"income\" o \"expense\"")
      else match toFloat(Get(data, "amount"))
        case BadNumber => Invalid("El monto debe ser un número válido")
        case TooLarge => Overflow
        case Parsed(amount) => if amount <= 0.0 then Invalid("El monto debe ser mayor a 0") else Valid(amount)
  }

  /** The required fields are checked before the type and the amount: a zero amount is reported as missing. */
  lemma ZeroAmountIsMissing(data: map<string, Value>, toFloat: Value -> Float)
    requires forall k :: 0 <= k < 4 ==> Truthy(Get(data, RequiredFields[k]))
    requires Get(data, "amount") == Num(0.0)
    ensures ValidateTransaction(data, toFloat) == Invalid("El campo amount es requerido")
  {
    assert RequiredFields[4] == "amount";
    MissingFieldReported(data, toFloat, 4);
    assert "El campo " + "amount" + " es requerido" == "El campo amount es requerido";
  }

  /** Fields that are present are skipped: the search goes on after them. */
  lemma {:induction false} FirstMissingSkips(fields: seq<string>, n: nat, data: map<string, Value>)
    requires n <= |fields|
    requires forall k :: 0 <= k < n ==> Truthy(Get(data, fields[k]))
    ensures FirstMissing(fields, data) == FirstMissing(fields[n..], data)
    decreases n
  {
    if n > 0 {
      assert fields[1..][n - 1..] == fields[n..];
      FirstMissingSkips(fields[1..], n - 1, data);
    }
  }

  /** A falsy field is reported even when a later check would also fail: the first missing field wins. */
  lemma MissingFieldReported(data: map<string, Value>, toFloat: Value -> Float, i: nat)
    requires i < |RequiredFields|
    requires !Truthy(Get(data, RequiredFields[i]))
    requires forall k :: 0 <= k < i ==> Truthy(Get(data, RequiredFields[k]))
    ensures ValidateTransaction(data, toFloat) == Invalid("El campo " + RequiredFields[i] + " es requerido")
  {
    FirstMissingSkips(RequiredFields, i, data);
  }

  /**
   * `add_transaction`.  `body` is the decoded JSON body (a non-object makes
   * `data.get` raise).  `insert` is `FinanceService.add_transaction`; the
   * returned `inserted` is the data it was given, None when it was not
   * called.
   */
  method AddTransaction(header: Option<string>, decode: string -> Decode, body: Value,
                        toFloat: Value -> Float, insert: map<string, Value> -> Value)
    returns (reply: Reply, inserted: Option<map<string, Value>>)
    ensures Authenticate(header, decode).Stop? ==> reply == Authenticate(header, decode).reply && inserted.None?
    ensures Authenticate(header, decode).Through? && !body.Dict? ==> reply == InternalError && inserted.None?
    ensures Authenticate(header, decode).Through? && body.Dict? ==>
      match ValidateTransaction(body.entries, toFloat)
      case Invalid(m) => reply == ErrorReply(400, m) && inserted.None?
      case Overflow => reply == InternalError && inserted.None?
      case Valid(amount) =>
        && inserted == Some(body.entries["amount" := Num(amount)])
        && reply == (if Truthy(insert(inserted.value)) then Json(201, insert(inserted.value))
                     else ErrorReply(500, "Error al crear la transacción"))
  {
    inserted := None;
    var gate := Authenticate(header, decode);
    if gate.Stop? {
      return gate.reply, None;
    }
    if !body.Dict? {
      return InternalError, None;
    }
    var data := body.entries;
    for i := 0 to |RequiredFields|
      invariant forall k :: 0 <= k < i ==> Truthy(Get(data, RequiredFields[k]))
    {
      var field := RequiredFields[i];
      if !Truthy(Get(data, field)) {
        MissingFieldReported(data, toFloat, i);
        return ErrorReply(400, "El campo " + field + " es requerido"), None;
      }
    }
    if Get(data, "type") !in [Str("income"), Str("expense")] {
      return ErrorReply(400, "El tipo debe ser \"income\" o \"expense\""), None;
    }
    var parsed := toFloat(Get(data, "amount"));
    if parsed.BadNumber? {
      return ErrorReply(400, "El monto debe ser un número válido"), None;
    }
    if parsed.TooLarge? {
      return InternalError, None;
    }
    var amount := parsed.value;
    if amount <= 0.0 {
      return ErrorReply(400, "El monto debe ser mayor a 0"), None;
    }
    data := data["amount" := Num(amount)];
    inserted := Some(data);
    var transaction := insert(data);
    if !Truthy(transaction) {
      return ErrorReply(500, "Error al crear la transacción"), inserted;
    }
    reply := Json(201, transaction);
  }
}
