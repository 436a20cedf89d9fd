// `handleRequest` of legacy/apps/api/src/shared/utils/requestHandler.js:
// how the outcome of a service call becomes an HTTP status and a JSON body.
// The Express response is modelled as the returned (status, body) pair; the
// Result class itself is not part of this model, so the value its
// `getValue()` answers is passed in beside the result object.

module RequestHandler {
  import opened Wrappers
  import opened Text
  import opened Json

  /** What awaiting the service promise gave: a value (with what its
      getValue() would answer) or a thrown value. */
  datatype Outcome = Returned(result: Value, payload: Value) | Threw(err: Value)

  /** `{ successStatus, errorStatus }`; absent options are Undefined. */
  datatype Options = Options(successStatus: Value, errorStatus: Value)

  datatype Response = Response(status: Value, body: Value)

  const InternalError := "Internal Server Error"
  const UnknownError := "Unknown error"

  /** `result && typeof result.isSuccess === 'boolean'` */
  predicate IsResult(result: Value) {
    Truthy(result) && Get(result, "isSuccess").Bool?
  }

  function FailureBody(error: Value): Value {
    Obj([Member("success", Bool(false)), Member("error", error)])
  }

  /** `error?.statusCode` */
  function OptionalStatus(error: Value): Value {
    if error.Null? || error.Undefined? then Undefined else Get(error, "statusCode")
  }

  /** The substring heuristic for a bare string error. */
  function StatusFromMessage(error: string, defaultErrorStatus: Value): Value {
    var msg := Lower(error);
    if Contains(msg, "not found") then Num(404.0)
    else if Contains(msg, "unauthorized") || Contains(msg, "token") then Num(401.0)
    else if Contains(msg, "forbidden") then Num(403.0)
    else defaultErrorStatus
  }

  /** The failure branch inside the try; an Err is the exception that reading
      `error.message` of a null or undefined error raises. */
  function FailureResponse(result: Value, defaultErrorStatus: Value): Result<Response, Value> {
    var error := Get(result, "error");
    var status0 := Or(Get(result, "statusCode"), Or(if Truthy(error) then Get(error, "statusCode") else error, Num(400.0)));
    var status :=
      if !Truthy(Get(result, "statusCode")) && !Truthy(OptionalStatus(error)) && error.Str?
      then StatusFromMessage(error.s, defaultErrorStatus)
      else status0;
    if error.Str? then Ok(Response(status, FailureBody(error)))
    else if error.Null? || error.Undefined? then Err(ReadOfNothing)
    else Ok(Response(status, FailureBody(Or(Get(error, "message"), Str(UnknownError)))))
  }

  /** The TypeError that reading a property of null or undefined raises:
      it has no statusCode. */
  const ReadOfNothing: Value := Obj([Member("name", Str("TypeError"))])

  /** The catch block; None when reading `err.statusCode` itself throws. */
  function CaughtResponse(err: Value): Option<Response> {
    if err.Null? || err.Undefined? then None
    else
      var status := Or(Get(err, "statusCode"), Num(500.0));
      var message := if StrictEq(status, Num(500.0)) then Str(InternalError) else Get(err, "message");
      Some(Response(status, FailureBody(message)))
  }

  /** `handleRequest`; None when the handler's own catch block throws. */
  function HandleRequest(outcome: Outcome, options: Options): Option<Response> {
    var successStatus := Or(options.successStatus, Num(200.0));
    var defaultErrorStatus := Or(options.errorStatus, Num(500.0));
    match outcome
    case Threw(err) => CaughtResponse(err)
    case Returned(result, payload) =>
      if IsResult(result) then
        if Get(result, "isSuccess").b then Some(Response(successStatus, payload))
        else match FailureResponse(result, defaultErrorStatus)
          case Ok(response) => Some(response)
          case Err(e) => CaughtResponse(e)
      else Some(Response(successStatus, result))
  }

  /** A successful Result answers successStatus (200 unless configured)
      with the Result's value. */
  lemma {:induction false} SuccessResponse(result: Value, payload: Value, options: Options)
    requires IsResult(result) && Get(result, "isSuccess") == Bool(true)
    ensures HandleRequest(Returned(result, payload), options) == Some(Response(Or(options.successStatus, Num(200.0)), payload))
    ensures !Truthy(options.successStatus) ==> HandleRequest(Returned(result, payload), options).value.status == Num(200.0)
  {
  }

  /** Any other returned value is passed through with successStatus. */
  lemma {:induction false} PlainResponse(result: Value, payload: Value, options: Options)
    requires !IsResult(result)
    ensures HandleRequest(Returned(result, payload), options) == Some(Response(Or(options.successStatus, Num(200.0)), result))
  {
  }

  /** A failed Result with a string error: an explicit status code wins,
      otherwise the status comes from the message; the body carries the
      string itself. */
  lemma {:induction false} StringFailure(result: Value, payload: Value, options: Options, error: string)
    requires IsResult(result) && Get(result, "isSuccess") == Bool(false) && Get(result, "error") == Str(error)
    ensures HandleRequest(Returned(result, payload), options) ==
      Some(Response(
        if Truthy(Get(result, "statusCode")) then Get(result, "statusCode")
        else StatusFromMessage(error, Or(options.errorStatus, Num(500.0))),
        FailureBody(Str(error))))
  {
  }

  /** The heuristic: "not found" is 404, then "unauthorized" or "token" is
      401, then "forbidden" is 403, all ignoring case; anything else is the
      configured error status. */
  lemma {:induction false} MessageStatus(error: string, defaultErrorStatus: Value)
    ensures Contains(Lower(error), "not found") ==> StatusFromMessage(error, defaultErrorStatus) == Num(404.0)
    ensures (!Contains(Lower(error), "not found") && (Contains(Lower(error), "unauthorized") || Contains(Lower(error), "token")))
      ==> StatusFromMessage(error, defaultErrorStatus) == Num(401.0)
    ensures (!Contains(Lower(error), "not found") && !Contains(Lower(error), "unauthorized") && !Contains(Lower(error), "token")
      && Contains(Lower(error), "forbidden")) ==> StatusFromMessage(error, defaultErrorStatus) == Num(403.0)
    ensures (!Contains(Lower(error), "not found") && !Contains(Lower(error), "unauthorized") && !Contains(Lower(error), "token")
      && !Contains(Lower(error), "forbidden")) ==> StatusFromMessage(error, defaultErrorStatus) == defaultErrorStatus
  {
  }

  /** A failed Result with an error object: its status is result.statusCode,
      then error.statusCode, then 400; its message is error.message or
      "Unknown error". */
  lemma {:induction false} ObjectFailure(result: Value, payload: Value, options: Options)
    requires IsResult(result) && Get(result, "isSuccess") == Bool(false)
    requires Truthy(Get(result, "error")) && !Get(result, "error").Str?
    ensures HandleRequest(Returned(result, payload), options) ==
      Some(Response(
        if Truthy(Get(result, "statusCode")) then Get(result, "statusCode")
        else if Truthy(Get(Get(result, "error"), "statusCode")) then Get(Get(result, "error"), "statusCode")
        else Num(400.0),
        FailureBody(Or(Get(Get(result, "error"), "message"), Str(UnknownError)))))
  {
  }

  /** A failed Result without an error throws inside the handler, which
      then answers 500 "Internal Server Error" whatever status was given. */
  lemma {:induction false} MissingErrorFailure(result: Value, payload: Value, options: Options)
    requires IsResult(result) && Get(result, "isSuccess") == Bool(false)
    requires Get(result, "error").Null? || Get(result, "error").Undefined?
    ensures HandleRequest(Returned(result, payload), options) == Some(Response(Num(500.0), FailureBody(Str(InternalError))))
  {
    assert Get(ReadOfNothing, "statusCode") == Undefined;
  }

  /** A thrown error answers err.statusCode or 500; a 500 never shows the
      error's own message. */
  lemma {:induction false} ThrownResponse(err: Value, options: Options)
    requires err.Obj?
    ensures HandleRequest(Threw(err), options) == Some(Response(
      Or(Get(err, "statusCode"), Num(500.0)),
      FailureBody(if StrictEq(Or(Get(err, "statusCode"), Num(500.0)), Num(500.0)) then Str(InternalError) else Get(err, "message"))))
  {
  }
}
