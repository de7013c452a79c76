/** The replies of the REST handlers: a status code with the `data` of a success,
    or a status code with the `message` of a failure. */
module Http {
  datatype Reply<T> = Reply(code: nat, data: T) | Error(code: nat, message: string)

  /** The `count` and `data` of a list reply (always sent with code 200). */
  datatype Listing<T> = Listing(count: nat, data: seq<T>)

  /** The 500 reply of a handler's `catch`: `error.message || fallback`. */
  function ServerError<T>(message: string, fallback: string): (r: Reply<T>)
    requires fallback != ""
    ensures r.Error? && r.code == 500 && r.message != ""
    ensures message != "" ==> r.message == message
  {
    Error(500, if message == "" then fallback else message)
  }
}
