/**
  One translator per foreign failure source. Each foreign failure is modelled
  only by the discriminant the translator inspects and by its display string,
  which is all an opaque boxed cause offers.
 */
module Translators {
  import opened Wrappers
  import opened ErrorCodes
  import opened ConstraintExtractor
  import Errors

  /** The database error kinds the translator tells apart. */
  datatype DatabaseErrorKind = UniqueViolation | OtherDatabaseKind(name: string)

  /** A database driver failure: a database error with its optional detail text, or anything else. */
  datatype DieselError =
    | DatabaseError(kind: DatabaseErrorKind, details: Option<string>, display: string)
    | NonDatabaseError(display: string)

  /** The token validator's error kinds the translator tells apart. */
  datatype JwtErrorKind = InvalidToken | OtherJwtKind(name: string)

  datatype JwtError = JwtError(kind: JwtErrorKind, display: string)

  /** Connection-pool, password-hashing and cursor failures, opaque apart from their display. */
  datatype PoolError = PoolError(display: string)
  datatype HashError = HashError(display: string)
  datatype CursorError = CursorError(display: string)

  /** A failure raised by the query-engine library. */
  datatype GraphQLError = GraphQLError(message: string)

  /** A uniqueness violation is translated only when its detail text is present and matches. */
  predicate DieselTranslatable(err: DieselError) {
    err.DatabaseError? && err.kind.UniqueViolation? ==>
      err.details.Some? && Extract(err.details.value).Some?
  }

  /**
    Uniqueness violations become `Unique` errors built from the captures of the
    detail text: group 0 is the field and group 1 the value. Every other
    database failure is unhandled.
   */
  function FromDiesel(err: DieselError): (r: Errors.Error)
    requires DieselTranslatable(err)
    ensures r.code == ErrorCode.Unique <==> err.DatabaseError? && err.kind.UniqueViolation?
    ensures r.code != ErrorCode.Unique ==> r.code == ErrorCode.Unhandled && r.message == Some(err.display)
    ensures r.code == ErrorCode.Unique ==>
      var c := Extract(err.details.value).value;
      && r.field == Some(c.group0)
      && r.message == Some("A " + c.group0 + " with " + c.group1 + " already exists")
  {
    match err
    case DatabaseError(kind, details, display) =>
      (match kind
       case UniqueViolation =>
         var c := Extract(details.value).value;
         Errors.Unique(c.group0, Some(c.group1))
       case OtherDatabaseKind(_) => Errors.Unhandled(display))
    case NonDatabaseError(display) => Errors.Unhandled(display)
  }

  /**
    On the driver's detail grammar `Key (<column>)=(<value>) ...`, the field is
    the parenthesised column, the message names the column twice, and the
    value in the text never reaches the error.
   */
  lemma DieselDriverDetail(column: string, rest: string, display: string)
    requires IsWord(column)
    ensures DieselTranslatable(DatabaseError(UniqueViolation, Some("Key (" + column + ")" + rest), display))
    ensures FromDiesel(DatabaseError(UniqueViolation, Some("Key (" + column + ")" + rest), display))
            == Errors.New("(" + column + ")", "A (" + column + ") with " + column + " already exists", ErrorCode.Unique)
  {
    ExtractDriverDetail(column, rest);
    var field := "(" + column + ")";
    assert "A " + field + " with " + column + " already exists"
           == "A (" + column + ") with " + column + " already exists";
  }

  /**
    The driver's usual uniqueness detail yields the field `(username)` and a
    message whose value is the column name rather than the duplicated value.
   */
  lemma DieselSample(column: string, rest: string, display: string)
    requires column == "username" && rest == "=(esteban) already exists."
    ensures DieselTranslatable(DatabaseError(UniqueViolation, Some("Key (" + column + ")" + rest), display))
    ensures FromDiesel(DatabaseError(UniqueViolation, Some("Key (" + column + ")" + rest), display))
            == Errors.Unique("(username)", Some("username"))
  {
    ExtractSample(column, rest);
  }

  /** The token validator's invalid-token kind is classified; every other kind is unhandled. */
  function FromJwt(err: JwtError): (r: Errors.Error)
    ensures r.code == ErrorCode.InvalidJsonWebToken <==> err.kind.InvalidToken?
    ensures err.kind.InvalidToken? ==> Errors.Encode(r).extensions == map[Errors.CodeKey := "INVALID_JWT"]
    ensures !err.kind.InvalidToken? ==> r.code == ErrorCode.Unhandled && r.message == Some(err.display)
  {
    match err.kind
    case InvalidToken => Errors.Code(ErrorCode.InvalidJsonWebToken)
    case OtherJwtKind(_) => Errors.Unhandled(err.display)
  }

  /** Any pool failure is a server error; nothing about the pool reaches the client. */
  function FromPool(err: PoolError): (r: Errors.Error)
    ensures r == Errors.ServerError()
    ensures Errors.Encode(r) == Errors.WireError(Errors.GenericMessage, map[Errors.CodeKey := "SERVER_ERROR"])
  {
    Errors.Code(ErrorCode.ServerError)
  }

  /** Any password-hashing failure is unhandled and keeps its display string. */
  function FromArgon2(err: HashError): (r: Errors.Error)
    ensures r.code == ErrorCode.Unhandled && r.message == Some(err.display)
    ensures Errors.Encode(r).extensions[Errors.CodeKey] == "UNHANDLED"
  {
    Errors.Unhandled(err.display)
  }

  /** Any cursor-decoding failure surfaces as the cursor code alone. */
  function FromCursor(err: CursorError): (r: Errors.Error)
    ensures Errors.Encode(r).extensions == map[Errors.CodeKey := "BASE64_CURSOR_ERROR"]
  {
    Errors.Code(ErrorCode.Base64CursorError)
  }

  /** Any query-engine failure is a plain server error; its own taxonomy does not leak. */
  function FromGraphQL(err: GraphQLError): (r: Errors.Error)
    ensures r == Errors.Code(ErrorCode.ServerError)
    ensures Errors.Encode(r).extensions == map[Errors.CodeKey := "SERVER_ERROR"]
  {
    Errors.ServerError()
  }

  /** A failure from any of the sources above. */
  datatype Failure =
    | Diesel(diesel: DieselError)
    | Jwt(jwt: JwtError)
    | Pool(pool: PoolError)
    | Argon2(hash: HashError)
    | Cursor(cursor: CursorError)
    | GraphQL(graphql: GraphQLError)

  predicate Translatable(f: Failure) {
    f.Diesel? ==> DieselTranslatable(f.diesel)
  }

  /** The display string of the underlying cause. */
  function Display(f: Failure): string {
    match f
    case Diesel(e) => e.display
    case Jwt(e) => e.display
    case Pool(e) => e.display
    case Argon2(e) => e.display
    case Cursor(e) => e.display
    case GraphQL(e) => e.message
  }

  /** The classification table: the code each source and discriminant is meant to get. */
  function ExpectedCode(f: Failure): ErrorCode {
    match f
    case Diesel(DatabaseError(UniqueViolation, _, _)) => ErrorCode.Unique
    case Diesel(_) => ErrorCode.Unhandled
    case Jwt(JwtError(InvalidToken, _)) => ErrorCode.InvalidJsonWebToken
    case Jwt(_) => ErrorCode.Unhandled
    case Pool(_) => ErrorCode.ServerError
    case Argon2(_) => ErrorCode.Unhandled
    case Cursor(_) => ErrorCode.Base64CursorError
    case GraphQL(_) => ErrorCode.ServerError
  }

  /** The conversion the `?` operator applies to a failure of any source. */
  function Normalize(f: Failure): (r: Errors.Error)
    requires Translatable(f)
    ensures r.code == ExpectedCode(f)
    ensures r.code != ErrorCode.InvalidCredentials
    ensures r.message.Some? <==> r.code == ErrorCode.Unique || r.code == ErrorCode.Unhandled
    ensures r.code == ErrorCode.Unhandled ==> r.message == Some(Display(f)) && r.field == Some(Errors.UnhandledLabel)
  {
    match f
    case Diesel(e) => FromDiesel(e)
    case Jwt(e) => FromJwt(e)
    case Pool(e) => FromPool(e)
    case Argon2(e) => FromArgon2(e)
    case Cursor(e) => FromCursor(e)
    case GraphQL(e) => FromGraphQL(e)
  }
}
