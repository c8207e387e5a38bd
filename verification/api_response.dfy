/** The success envelope (src/lib/ApiResponse.ts). */
module ApiResponses {
  import opened Wrappers

  datatype ApiResponse<T> = ApiResponse(status: string, statusCode: int, data: T, message: Option<string>)

  /** `new ApiResponse(statusCode, data, message?)`: the code and the data are
      kept exactly as given (no normalisation, unlike an error), and the
      message is present only when the argument is truthy. */
  function NewApiResponse<T>(statusCode: int, data: T, message: Option<string>): (r: ApiResponse<T>)
    ensures r.status == "success"
    ensures r.statusCode == statusCode && r.data == data
    ensures r.message.Some? <==> Truthy(message)
    ensures r.message.Some? ==> r.message == message
  {
    ApiResponse("success", statusCode, data, if Truthy(message) then message else None)
  }

  /** An empty message and a missing one give the same envelope. */
  lemma EmptyMessageIsAbsent<T>(statusCode: int, data: T)
    ensures NewApiResponse(statusCode, data, Some("")) == NewApiResponse(statusCode, data, None)
    ensures NewApiResponse(statusCode, data, None).message.None?
  {
  }
}
