/**
  The closed vocabulary of client-visible failure identifiers. Each variant
  carries a fixed wire string, which clients branch on, so the mapping must be
  total and injective.
 */
module ErrorCodes {
  import opened Wrappers

  datatype ErrorCode =
    | Base64CursorError
    | ServerError
    | InvalidCredentials
    | InvalidJsonWebToken
    | Unique
    | Unhandled

  /** Characters allowed in an upper-case snake identifier. */
  predicate IsUpperSnakeChar(ch: char) {
    ('A' <= ch <= 'Z') || ('0' <= ch <= '9') || ch == '_'
  }

  /** A non-empty upper-case snake identifier such as `INVALID_JWT`. */
  predicate IsUpperSnake(s: string) {
    && |s| > 0
    && 'A' <= s[0] <= 'Z'
    && forall i :: 0 <= i < |s| ==> IsUpperSnakeChar(s[i])
  }

  /** The display string of each variant, which is what travels on the wire. */
  function Wire(code: ErrorCode): (s: string)
    ensures IsUpperSnake(s)
  {
    match code
    case Base64CursorError => "BASE64_CURSOR_ERROR"
    case ServerError => "SERVER_ERROR"
    case InvalidCredentials => "INVALID_CREDENTIALS"
    case InvalidJsonWebToken => "INVALID_JWT"
    case Unique => "UNIQUE"
    case Unhandled => "UNHANDLED"
  }

  /** Reference inverse of `Wire`: the code a client reads back from a wire string. */
  function FromWire(s: string): (r: Option<ErrorCode>)
    ensures r.Some? ==> Wire(r.value) == s
  {
    if s == "BASE64_CURSOR_ERROR" then Some(Base64CursorError)
    else if s == "SERVER_ERROR" then Some(ServerError)
    else if s == "INVALID_CREDENTIALS" then Some(InvalidCredentials)
    else if s == "INVALID_JWT" then Some(InvalidJsonWebToken)
    else if s == "UNIQUE" then Some(Unique)
    else if s == "UNHANDLED" then Some(Unhandled)
    else None
  }

  /** Reading a code back from its wire string is lossless. */
  lemma WireRoundTrip(code: ErrorCode)
    ensures FromWire(Wire(code)) == Some(code)
  {
  }

  /** No two codes share a wire string. */
  lemma WireInjective(a: ErrorCode, b: ErrorCode)
    ensures Wire(a) == Wire(b) <==> a == b
  {
  }
}
