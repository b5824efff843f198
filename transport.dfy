/**
 * The single request/response exchange the package makes through its HTTP
 * client, reduced to the value each request settles with.
 */
module Transport {
  import opened Wrappers
  import opened Js

  /** A resolved response: its status code and decoded body. */
  datatype Response = Response(status: int, data: JsValue)

  /** A rejected request: the error's `code` (absent for some errors) and its message. */
  datatype AxiosErr = AxiosErr(code: Option<string>, message: string)

  /** How one request settles: it resolves with a response or it throws. */
  datatype Outcome = Resolved(res: Response) | Rejected(err: AxiosErr)

  /** The code the client gives a request whose server could not be reached. */
  const NetworkError := "ERR_NETWORK"

  /** `status === 200`: the only status the package treats as success. */
  predicate IsOk(o: Outcome) {
    o.Resolved? && o.res.status == 200
  }
}
