/** What a request handler sends back. */
module Http {

  /** The HTTP method of a request, as far as a handler distinguishes it. */
  datatype Method = Options | Get | Post

  /** A JSON body with status 200, an empty 200 answer, or an error status
      with a JSON error message. */
  datatype Response<T> = Ok(body: T) | Empty | Error(status: int, message: string)
  {
    function Status(): int {
      match this
      case Ok(_) => 200
      case Empty => 200
      case Error(status, _) => status
    }
  }
}
