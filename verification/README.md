# Error normalisation layer of nexus-server, in Dafny

This project models `src/error.rs` of the nexus-server API service. That file is
the layer that turns failures from independent subsystems into one canonical
error. The subsystems are the database driver (diesel), the token validator
(jsonwebtoken), the connection pool (r2d2), the password hasher (argon2), the
cursor decoder and the query engine (async_graphql). The layer then encodes
that error for API clients.

- `ErrorCodes` (`error_code.dfy`): the closed six-variant `ErrorCode` and its
  wire strings. `FromWire` is a reference inverse, used to prove that the
  mapping is injective and lossless.
- `Errors` (`error.dfy`): the canonical `Error` record (`field`, `message`,
  `code`), its constructors `New`, `Code`, `ServerError`, `Unique` and
  `Unhandled`, and the wire encoder `Encode`. `Encode` produces a fixed
  top-level message plus an extension map. `Decode` is a reference decoder,
  used to prove that the encoding drops nothing and fabricates nothing.
- `ConstraintExtractor` (`constraint_extractor.dfy`): a hand-written, leftmost
  search for the pattern `(?:\w*)(?:\()(\w*)*(?:\))`. The code uses this
  pattern on the driver's detail text of a uniqueness violation. The search
  returns capture group 0 (the whole match) and group 1 (the inner word).
- `Translators` (`translators.dfy`): one function per `From` impl. Each foreign
  failure is a small datatype that holds only the discriminant the code
  inspects and the failure's display string. `Normalize` is the union of all
  the impls, checked against an independent classification table,
  `ExpectedCode`.

Two behaviours of the code are kept exactly as written:

- **The uniqueness branch is partial.** The code unwraps the detail text, the
  regex captures and both groups. So a uniqueness violation with no detail
  text, or with text that does not match, panics. It does not fall back to
  `Unhandled`, although that fallback would suit the layer's purpose.
  `FromDiesel` therefore requires `DieselTranslatable`.
- **The field is capture group 0 and the value is group 1.** For the driver's
  usual text `Key (username)=(esteban) already exists.`:
  - the field is `(username)`, with the parentheses;
  - the message is `A (username) with username already exists`;
  - the duplicated value `esteban` never reaches the error.

  `DieselDriverDetail` proves this for every column name, and `DieselSample`
  for this text.

## Model

| member | source | states |
|---|---|---|
| ErrorCodes.Wire | src/error.rs:10-23 | every code has a non-empty upper-case snake wire string |
| ErrorCodes.FromWire | src/error.rs:10-23 | reading a code back from a string gives a code whose wire string is that string |
| ErrorCodes.WireRoundTrip | src/error.rs:10-23 | reading back the wire string of any code yields that code, so the mapping is lossless |
| ErrorCodes.WireInjective | src/error.rs:10-23 | two codes have the same wire string if and only if they are the same code |
| Errors.New | src/error.rs:33-39 | field and message are both present and copied unchanged; the client sees exactly message, field and code |
| Errors.Code | src/error.rs:41-47 | field and message are absent; the client sees only the code |
| Errors.CodeOnlyCharacterised | src/error.rs:41-47 | an error equals the code-only error of its code if and only if its encoding carries the code alone |
| Errors.ServerError | src/error.rs:49-55 | the separately written server error equals the code-only error for `ServerError` |
| Errors.Unique | src/error.rs:57-71 | code is `Unique` and field is the given field; message is `A {field} with {value} already exists` with a value, `The {field} already exists` without one; the client sees all three keys |
| Errors.UniqueMessageInjective | src/error.rs:57-71 | for a fixed field, the message tells whether a value was given and which one |
| Errors.UniqueInjective | src/error.rs:57-71 | two uniqueness errors are equal if and only if their fields and values are equal |
| Errors.Unhandled | src/error.rs:73-79 | code is `Unhandled`, message is the cause's display string, field is the fixed label `An unhandled erorr ocurred` with the typo kept |
| Errors.Encode | src/error.rs:82-98 | top-level message is always `An error occurred`; extensions always hold `code` as the wire string; `message` and `field` appear if and only if present on the error, copied unchanged; no other key appears |
| Errors.Decode | src/error.rs:82-98 | a decoded error's wire code is the `code` extension |
| Errors.DecodeEncode | src/error.rs:82-98 | decoding an encoded error gives back the error, so nothing is dropped or fabricated |
| Errors.EncodeInjective | src/error.rs:82-98 | two errors have the same wire form if and only if they are equal |
| ConstraintExtractor.WordRun | src/error.rs:116-117 | the result is the longest run of word characters from a position: all word characters, ending at the text's end or before a non-word character |
| ConstraintExtractor.RunIsMaximal | src/error.rs:116-117 | a word run ended by a non-word character is the longest run |
| ConstraintExtractor.SplitIsRun | src/error.rs:116-117 | in any match of the pattern, both word runs are the longest runs from their positions |
| ConstraintExtractor.SplitUnique | src/error.rs:116-117 | at a given start, the pattern matches in at most one way, so the capture groups are well defined |
| ConstraintExtractor.NoMatchHere | src/error.rs:117-118 | when the longest runs from a position are not followed by the parentheses, the pattern does not match there |
| ConstraintExtractor.FindMatch | src/error.rs:117-118 | returns a match at or after the given position with no match before it, or none exactly when no later position matches |
| ConstraintExtractor.CapturesAt | src/error.rs:118-122 | the captures of a match are text found in the input: group 0 is a word, `(`, group 1, then `)`, and group 1 is a word |
| ConstraintExtractor.Extract | src/error.rs:117-122 | none exactly when the pattern matches nowhere; otherwise captures of the leftmost match, with group 0 being prefix word, `(`, group 1, `)` |
| ConstraintExtractor.ExtractDriverDetail | src/error.rs:107-122 | on detail text `Key (<column>)=...`, group 0 is `(<column>)` and group 1 is `<column>` |
| ConstraintExtractor.ExtractSample | src/error.rs:115-122 | on `Key (username)=(esteban) already exists.`, group 0 is `(username)` at offset 4 and group 1 is `username` |
| Translators.FromDiesel | src/error.rs:100-131 | code is `Unique` if and only if the failure is a uniqueness violation; then field is group 0 and the message names group 1 as value; every other failure is unhandled and keeps its display string |
| Translators.DieselDriverDetail | src/error.rs:104-124 | a uniqueness violation with detail `Key (<column>)=...` gives field `(<column>)` and message `A (<column>) with <column> already exists` |
| Translators.DieselSample | src/error.rs:104-124 | the usual `Key (username)=(esteban) ...` detail gives the uniqueness error for field `(username)` and value `username` |
| Translators.FromJwt | src/error.rs:133-142 | code is `InvalidJsonWebToken` if and only if the kind is `InvalidToken`, and then the client sees only `INVALID_JWT`; every other kind is unhandled with its display string |
| Translators.FromPool | src/error.rs:144-148 | any pool failure is the server error, and the whole wire form is the generic message with only `SERVER_ERROR` |
| Translators.FromArgon2 | src/error.rs:150-154 | any hashing failure is unhandled, keeps its display string, and is encoded as `UNHANDLED` |
| Translators.FromCursor | src/error.rs:156-160 | any cursor failure surfaces only as `BASE64_CURSOR_ERROR` |
| Translators.FromGraphQL | src/error.rs:162-167 | any query-engine failure is the code-only server error, surfacing only `SERVER_ERROR` |
| Translators.Normalize | src/error.rs:100-167 | every failure gets the code of the classification table; `InvalidCredentials` is never produced; a message is present if and only if the code is `Unique` or `Unhandled`; unhandled errors carry the cause's display and the fixed label |

## Left out

- Regex engine: `Regex::new` and `captures` are replaced by the hand-written search in `ConstraintExtractor`. `Regex::new` on the fixed pattern cannot fail, so its unwrap is dropped.
- ConstraintExtractor.IsWordChar: `\w` is taken as ASCII letters, digits and underscore. The regex crate's Unicode word characters are not modelled.
- ConstraintExtractor.Extract: when the parentheses are empty (`()`), group 1 is taken as the empty string. Whether the regex crate reports that group as absent, which would panic at `get(1).unwrap()`, is not modelled.
- Translators.FromDiesel: the panics from `details().unwrap()`, `captures(...).unwrap()` and `get(..).unwrap()` are a precondition (`DieselTranslatable`). A crash is not modelled.
- Debug `println!` of the captures and of the query-engine error: side effects with no bearing on the result.
- `async_graphql::Error` and `extend_with`: the wire form is a `WireError` holding the top-level string and a `map<string, string>`, not the library type. The order in which keys are set does not matter, because the keys are distinct.
- The derives (`Serialize`, `Deserialize`, `Enum`, `thiserror::Error`, `Clone`) and the `Result<T>` alias: plumbing with no logic. `thiserror`'s `Display` is what `Wire` models.
- Concrete foreign error types: each is modelled only by its discriminant and its display string. The diesel and jsonwebtoken kinds other than those the code matches are represented by one catch-all variant each.
- The `?` operator's choice of impl: the Rust code has no single dispatcher. `Normalize` exists only to state the classification table over all sources at once.
