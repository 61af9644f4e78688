/** What a route function can do with a request, and the error objects it
    hands to Express's `next`. */
module Http {
  import opened Json

  datatype HttpMethod = GET | POST | PUT | DELETE

  /** An `Error` object as it reaches the error handler: its `message` (a string,
      or the validator's error list) and its optional `code` and `statusCode`. */
  datatype HttpError = HttpError(message: Value, code: Option<int>, statusCode: Option<int>)

  /** `new Error(message)` with `error.code = 400`. */
  function BadRequest(message: string): HttpError {
    HttpError(Str(message), Some(400), None)
  }

  /** The outcome of one route function:
      `response.status(status).send(body)`, `next(error)`, or a throw or rejected
      promise (the route wrapper decides what becomes of that). */
  datatype Reply =
    | Send(status: int, body: Value)
    | Next(error: HttpError)
    | Fault

  /** The body `{success: message}`. */
  function SuccessBody(message: string): Value {
    Obj(map["success" := Str(message)])
  }

  /** The body `{error: message}`. */
  function ErrorBody(message: Value): Value {
    Obj(map["error" := message])
  }
}
