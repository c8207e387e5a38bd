/** The global error handler (src/controllers/error.controller.ts): every
    thrown value is first turned into an ApiError, then rendered either in
    full (development) or safely (production). */
module ErrorController {
  import opened Wrappers
  import opened ApiErrors

  /** One Mongoose validator failure, of which only the message is read. */
  datatype ValidatorError = ValidatorError(message: string)

  /** The Mongoose errors the handler distinguishes. `keyPattern` lists the
      keys of the duplicate-key pattern in order (an absent pattern has none);
      `keyValue` maps each key to its value, already rendered as text. */
  datatype MongooseError =
    | ValidationError(errors: seq<(string, ValidatorError)>)
    | CastError(path: string, value: string)
    | OtherMongooseError(name: string, code: Option<int>, keyPattern: seq<string>,
                         keyValue: Option<map<string, string>>)

  /** What reaches the handler: an ApiError, a Mongoose error, or anything
      else, of which only `message` and `name` are read. */
  datatype Thrown =
    | ThrownApiError(apiError: ApiError)
    | ThrownMongoose(mongoose: MongooseError)
    | ThrownOther(message: Option<string>, name: Option<string>)

  /** The JSON body. `details` is never present: the error value keeps its
      payload in `data`, which the renderers do not read. */
  datatype ErrorBody =
    | DevBody(status: Status, statusCode: int, message: string, name: string)
    | ProdBody(status: Status, statusCode: int, message: string)

  datatype ErrorResponse = ErrorResponse(httpStatus: int, body: ErrorBody)

  const UnexpectedMessage: string := "Something went wrong! Please try again later."
  const DuplicateKeyCode: int := 11000

  /** Development: everything about the error is shown, with its own code. */
  function DevErrors(e: ApiError): (r: ErrorResponse)
    ensures r.httpStatus == e.statusCode == r.body.statusCode
    ensures r.body.DevBody? && r.body.message == e.message && r.body.name == e.name
    ensures r.body.status == e.status
  {
    ErrorResponse(e.statusCode, DevBody(e.status, e.statusCode, e.message, e.name))
  }

  /** Production: an operational error is shown as it is; any other error
      becomes a fixed 500 that reveals nothing about it. */
  function ProdErrors(e: ApiError): (r: ErrorResponse)
    ensures r.body.ProdBody? && r.httpStatus == r.body.statusCode
    ensures e.isOperational ==>
              r.httpStatus == e.statusCode && r.body.status == e.status && r.body.message == e.message
    ensures !e.isOperational ==> r == ErrorResponse(500, ProdBody(Error, 500, UnexpectedMessage))
  {
    if e.isOperational then ErrorResponse(e.statusCode, ProdBody(e.status, e.statusCode, e.message))
    else ErrorResponse(500, ProdBody(Error, 500, UnexpectedMessage))
  }

  /** One field/message pair per invalid path, in the order the validation
      error lists them. */
  function FieldMessages(entries: seq<(string, ValidatorError)>): (r: seq<FieldMessage>)
    ensures |r| == |entries|
    ensures forall i :: 0 <= i < |entries| ==> r[i].field == entries[i].0 && r[i].message == entries[i].1.message
  {
    seq(|entries|, i requires 0 <= i < |entries| => FieldMessage(entries[i].0, entries[i].1.message))
  }

  function ValidationErrorHandler(entries: seq<(string, ValidatorError)>): (e: ApiError)
    ensures WellFormed(e) && e.statusCode == 400 && e.status == Fail
    ensures e.message == "Invalid input data"
    ensures e.data.Some? && e.data.value.FieldErrors? && |e.data.value.errors| == |entries|
    ensures forall i :: 0 <= i < |entries| ==>
              e.data.value.errors[i] == FieldMessage(entries[i].0, entries[i].1.message)
  {
    NewApiError(Some(400), Some("Invalid input data"), Some(FieldErrors(FieldMessages(entries))), None)
  }

  function CastErrorHandler(path: string, value: string): (e: ApiError)
    ensures WellFormed(e) && e.statusCode == 400
    ensures e.message == "Invalid value for " + path + ": " + value
    ensures e.data == Some(CastDetail(path, value))
  {
    NewApiError(Some(400), Some("Invalid value for " + path + ": " + value), Some(CastDetail(path, value)), None)
  }

  /** `${value}` of a possibly undefined value. */
  function Render(v: Option<string>): string {
    if v.Some? then v.value else "undefined"
  }

  /** The first key of the pattern, if any, and its value; the message names
      them only when that key is truthy (a non-empty string). */
  function DuplicateKeyErrorHandler(keyPattern: seq<string>, keyValue: Option<map<string, string>>): (e: ApiError)
    ensures WellFormed(e) && e.statusCode == 400
    ensures keyPattern == [] || keyPattern[0] == "" ==>
              e.message == "Duplicate key error. Please use another value!"
    ensures keyPattern != [] && keyPattern[0] != "" ==>
              var value := if keyValue.Some? && keyPattern[0] in keyValue.value
                           then Some(keyValue.value[keyPattern[0]]) else None;
              e.message == "Duplicate value for \"" + keyPattern[0] + "\": \"" + Render(value)
                           + "\". Please use another value!"
              && e.data == Some(DuplicateDetail(Some(keyPattern[0]), value))
    ensures keyPattern == [] ==> e.data == Some(DuplicateDetail(None, None))
  {
    var field := if keyPattern == [] then None else Some(keyPattern[0]);
    var value := if Truthy(field) && keyValue.Some? && field.value in keyValue.value
                 then Some(keyValue.value[field.value]) else None;
    var msg := if Truthy(field)
               then "Duplicate value for \"" + field.value + "\": \"" + Render(value) + "\". Please use another value!"
               else "Duplicate key error. Please use another value!";
    NewApiError(Some(400), Some(msg), Some(DuplicateDetail(field, value)), None)
  }

  /** Validation, cast and duplicate-key errors are the client's fault (400);
      any other Mongoose error is a 500 that stays operational. */
  function MongooseErrorHandler(m: MongooseError): (e: ApiError)
    ensures WellFormed(e)
    ensures (m.ValidationError? || m.CastError? || m.code == Some(DuplicateKeyCode)) ==> e.statusCode == 400
    ensures m.ValidationError? ==> e == ValidationErrorHandler(m.errors)
    ensures m.CastError? ==> e == CastErrorHandler(m.path, m.value)
    ensures m.OtherMongooseError? && m.code == Some(DuplicateKeyCode) ==>
              e == DuplicateKeyErrorHandler(m.keyPattern, m.keyValue)
    ensures !(m.ValidationError? || m.CastError? || m.code == Some(DuplicateKeyCode)) ==>
              e.statusCode == 500 && e.message == "Mongoose error" && e.isOperational
              && e.data == Some(MongooseName(m.name))
  {
    match m
    case ValidationError(entries) => ValidationErrorHandler(entries)
    case CastError(path, value) => CastErrorHandler(path, value)
    case OtherMongooseError(name, code, keyPattern, keyValue) =>
      if code == Some(DuplicateKeyCode) then DuplicateKeyErrorHandler(keyPattern, keyValue)
      else NewApiError(Some(500), Some("Mongoose error"), Some(MongooseName(name)), None)
  }

  /** The first half of the global handler: the ApiError that gets rendered. */
  function ToApiError(err: Thrown): (e: ApiError)
    ensures err.ThrownApiError? ==> e == err.apiError
    ensures err.ThrownMongoose? ==> e == MongooseErrorHandler(err.mongoose)
    ensures err.ThrownOther? ==>
              && e.statusCode == 500 && e.status == Error && !e.isOperational && e.data.None?
              && e.message == (if Truthy(err.message) then err.message.value else DefaultMessage)
              && e.name == (if Truthy(err.name) then err.name.value else "Error")
  {
    match err
    case ThrownApiError(e) => e
    case ThrownMongoose(m) => MongooseErrorHandler(m)
    case ThrownOther(message, name) =>
      var e := NewApiError(Some(500), Some(if Truthy(message) then message.value else DefaultMessage),
                           None, Some(false));
      e.(name := if Truthy(name) then name.value else "Error")
  }

  function GlobalErrorHandler(err: Thrown, isDevelopment: bool): (r: ErrorResponse)
    ensures isDevelopment ==> r == DevErrors(ToApiError(err)) && r.httpStatus == ToApiError(err).statusCode
    ensures !isDevelopment ==> r == ProdErrors(ToApiError(err))
  {
    var error := ToApiError(err);
    if isDevelopment then DevErrors(error) else ProdErrors(error)
  }

  /** Every error that reaches the handler well formed (as all the core's
      errors are) is answered with a status of at least 400 (a code above 599
      is kept as given), and the body's status agrees with the HTTP status. */
  lemma ResponsesAreErrors(err: Thrown, isDevelopment: bool)
    requires err.ThrownApiError? ==> WellFormed(err.apiError)
    ensures var r := GlobalErrorHandler(err, isDevelopment);
            r.httpStatus >= 400 && r.httpStatus == r.body.statusCode &&
            (r.body.status == Fail <==> r.httpStatus < 500)
  {
  }

  /** In production an unexpected error never shows its own message or name:
      whatever was thrown, the answer is the same fixed 500. */
  lemma ProductionHidesUnexpectedErrors(m1: Option<string>, n1: Option<string>,
                                        m2: Option<string>, n2: Option<string>)
    ensures GlobalErrorHandler(ThrownOther(m1, n1), false) == GlobalErrorHandler(ThrownOther(m2, n2), false)
    ensures GlobalErrorHandler(ThrownOther(m1, n1), false).body.message == UnexpectedMessage
  {
  }

  /** Mongoose errors other than the three known kinds are shown in
      production, because a 500 built with the default flag is operational. */
  lemma UnknownMongooseErrorIsShown(name: string, code: Option<int>, keyPattern: seq<string>,
                                    keyValue: Option<map<string, string>>)
    requires code != Some(DuplicateKeyCode)
    ensures GlobalErrorHandler(ThrownMongoose(OtherMongooseError(name, code, keyPattern, keyValue)), false)
            == ErrorResponse(500, ProdBody(Error, 500, "Mongoose error"))
  {
  }
}
