/** What the FastAPI handlers raise and how the generic
    `except Exception` blocks rewrap it. An `HTTPException` converts to
    the string `"<status>: <detail>"`, so a handler that catches its own
    `HTTPException` in a generic block answers 500 with that text inside
    its own message. */
module Fastapi {
  import opened Wrappers
  import opened Json
  import Text
  import Http

  /** `HTTPException(status_code, detail)`. */
  datatype HttpError = HttpError(status: int, detail: string)

  /** What the body of a `try` block raised. */
  datatype Raised =
    | Http(e: HttpError)
    /** An `SQLAlchemyError` with its text. */
    | Database(text: string)
    /** Any other exception with its text. */
    | Other(text: string)

  /** `str(e)`. */
  function Describe(r: Raised): (s: string)
    ensures r.Http? ==> s == Text.IntToString(r.e.status) + ": " + r.e.detail
    ensures !r.Http? ==> s == r.text
  {
    match r
    case Http(e) => Text.IntToString(e.status) + ": " + e.detail
    case Database(t) => t
    case Other(t) => t
  }

  /** A three-digit status code as `str` renders it. */
  lemma StatusText(n: int)
    requires 100 <= n <= 999
    ensures Text.IntToString(n) == [Text.Digit(n / 100), Text.Digit(n / 10 % 10), Text.Digit(n % 10)]
  {
    var m := n / 10;
    assert 10 <= m && m / 10 == n / 100 && n / 100 < 10;
    assert Text.NatToString(m) == Text.NatToString(m / 10) + [Text.Digit(m % 10)];
    assert Text.NatToString(n) == Text.NatToString(m) + [Text.Digit(n % 10)];
  }

  /** `raise HTTPException(500, detail=f"{prefix}{str(e)}")` in a generic
      handler. */
  function Rewrap(prefix: string, r: Raised): (e: HttpError)
    ensures e.status == 500
    ensures e.detail == prefix + Describe(r)
  {
    HttpError(500, prefix + Describe(r))
  }

  /** The answer FastAPI sends for a handler's outcome: the value with
      200, or the error's status with its detail under `detail`. */
  function Respond(outcome: Result<Json, HttpError>): (r: Http.Reply)
    ensures r.Answered?
    ensures outcome.Success? ==> r.status == 200 && r.body == outcome.value
    ensures outcome.Failure? ==>
      r == Http.Answered(outcome.error.status, Obj([("detail", Str(outcome.error.detail))]))
  {
    match outcome
    case Success(j) => Http.Answered(200, j)
    case Failure(e) => Http.Answered(e.status, Obj([("detail", Str(e.detail))]))
  }
}
