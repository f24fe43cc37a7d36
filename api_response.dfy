/** The JSON envelope `{status, message?}` that the admin API handlers answer with. */
module ApiResponses {
  import opened Wrappers
  import Strings

  datatype ApiResponse = ApiResponse(status: bool, message: Option<string>)

  /** `{status: true}` */
  const Ok: ApiResponse := ApiResponse(true, None)

  /** `{status: false, message}` */
  function Failed(message: string): ApiResponse {
    ApiResponse(false, Some(message))
  }

  /** `{status: false, message: errors.join('\n')}`, the answer to a form that failed validation. */
  function Rejected(errors: seq<string>): ApiResponse {
    Failed(Strings.Join(errors, '\n'))
  }
}
