/** The application's error value (src/lib/ApiError.ts): an HTTP status code
    of at least 400 (lower codes become 500, higher ones are kept), a
    fail/error classification and an
    "operational" flag that says whether the message is safe to show. */
module ApiErrors {
  import opened Wrappers

  datatype Status = Fail | Error

  /** One entry of a validation failure: the field and its message. */
  datatype FieldMessage = FieldMessage(field: string, message: string)

  /** The `data` payloads the core attaches to its errors. */
  datatype ErrorData =
    | FieldErrors(errors: seq<FieldMessage>)
    | CastDetail(castField: string, castValue: string)
    | DuplicateDetail(keyField: Option<string>, keyValue: Option<string>)
    | MongooseName(name: string)

  datatype ApiError = ApiError(
    statusCode: int,
    status: Status,
    message: string,
    data: Option<ErrorData>,
    isOperational: bool,
    name: string)

  const DefaultStatusCode: int := 500
  const DefaultMessage: string := "Something went wrong"

  /** What every constructed error satisfies: a code of at least 400, the
      status that matches it, and every 4xx marked operational. */
  predicate WellFormed(e: ApiError) {
    && e.statusCode >= 400
    && (e.status == Fail <==> e.statusCode < 500)
    && (e.statusCode < 500 ==> e.isOperational)
  }

  /** `new ApiError(statusCode?, message?, data?, stack?, isOperational?)`;
      an absent argument takes its default (the stack is not modelled). */
  function NewApiError(statusCode: Option<int>, message: Option<string>,
                       data: Option<ErrorData>, isOperational: Option<bool>): (e: ApiError)
    ensures WellFormed(e)
    ensures statusCode.None? ==> e.statusCode == DefaultStatusCode
    ensures statusCode.Some? && statusCode.value < 400 ==> e.statusCode == 500
    ensures statusCode.Some? && statusCode.value >= 400 ==> e.statusCode == statusCode.value
    ensures e.status == Fail <==> 400 <= e.statusCode < 500
    ensures e.statusCode >= 500 ==> e.isOperational == isOperational.GetOr(true)
    ensures e.message == message.GetOr(DefaultMessage)
    ensures e.data == data && e.name == "Error"
  {
    var requested := statusCode.GetOr(DefaultStatusCode);
    var code := if requested < 400 then 500 else requested;
    ApiError(code,
             if code >= 400 && code < 500 then Fail else Error,
             message.GetOr(DefaultMessage),
             data,
             if code < 500 then true else isOperational.GetOr(true),
             "Error")
  }

  /** `new ApiError(code, message)`, the form the controllers throw. */
  function Throw(code: int, message: string): (e: ApiError)
    ensures WellFormed(e) && e.message == message && e.data.None?
    ensures code >= 400 ==> e.statusCode == code
  {
    NewApiError(Some(code), Some(message), None, None)
  }

  /** Whatever the arguments, the stored code is never below 400, and the
      isOperational argument only matters for server errors. */
  lemma OperationalArgumentOnlyMattersFor5xx(code: Option<int>, message: Option<string>,
                                             data: Option<ErrorData>, a: bool, b: bool)
    ensures var e1 := NewApiError(code, message, data, Some(a));
            var e2 := NewApiError(code, message, data, Some(b));
            e1.statusCode == e2.statusCode >= 400 &&
            (e1.statusCode < 500 ==> e1 == e2) &&
            (e1.statusCode >= 500 ==> (e1 == e2 <==> a == b))
  {
  }
}
