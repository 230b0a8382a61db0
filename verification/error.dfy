/**
  The canonical error record, its constructors, and its wire encoding: a fixed,
  generic top-level message plus an extension map carrying the code and, when
  present, the message and the field.
 */
module Errors {
  import opened Wrappers
  import opened ErrorCodes

  datatype Error = Error(field: Option<string>, message: Option<string>, code: ErrorCode)

  /** The `field` label every unhandled error carries (its spelling is part of the contract). */
  const UnhandledLabel: string := "An unhandled erorr ocurred"

  /** The top-level message of every encoded error. */
  const GenericMessage: string := "An error occurred"

  /** Extension keys used by the wire encoding. */
  const CodeKey: string := "code"
  const MessageKey: string := "message"
  const FieldKey: string := "field"

  /** What a client receives: the top-level message and the extension object. */
  datatype WireError = WireError(message: string, extensions: map<string, string>)

  /** Fully explicit construction. */
  function New(field: string, message: string, code: ErrorCode): (r: Error)
    ensures r.field == Some(field) && r.message == Some(message) && r.code == code
    ensures Encode(r).extensions == map[MessageKey := message, FieldKey := field, CodeKey := Wire(code)]
  {
    Error(Some(field), Some(message), code)
  }

  /** Code-only construction: the client learns the code and nothing else. */
  function Code(code: ErrorCode): (r: Error)
    ensures r.field.None? && r.message.None? && r.code == code
    ensures Encode(r).extensions == map[CodeKey := Wire(code)]
  {
    Error(None, None, code)
  }

  /** The server error, written out on its own in the code rather than through `Code`. */
  function ServerError(): (r: Error)
    ensures r == Code(ErrorCode.ServerError)
  {
    Error(None, None, ErrorCode.ServerError)
  }

  /** The message of a uniqueness conflict on `field`, naming the value when one is known. */
  function UniqueMessage(field: string, value: Option<string>): string {
    match value
    case Some(v) => "A " + field + " with " + v + " already exists"
    case None => "The " + field + " already exists"
  }

  /** A uniqueness conflict on `field`. */
  function Unique(field: string, value: Option<string>): (r: Error)
    ensures r.code == ErrorCode.Unique && r.field == Some(field)
    ensures value.Some? ==> r.message == Some("A " + field + " with " + value.value + " already exists")
    ensures value.None? ==> r.message == Some("The " + field + " already exists")
    ensures Encode(r).extensions.Keys == {CodeKey, MessageKey, FieldKey}
  {
    Error(Some(field), Some(UniqueMessage(field, value)), ErrorCode.Unique)
  }

  /** Wraps an opaque cause, keeping only its display string. */
  function Unhandled(display: string): (r: Error)
    ensures r.code == ErrorCode.Unhandled
    ensures r.field == Some(UnhandledLabel) && r.message == Some(display)
    ensures Encode(r).extensions == map[MessageKey := display, FieldKey := UnhandledLabel, CodeKey := "UNHANDLED"]
  {
    Error(Some(UnhandledLabel), Some(display), ErrorCode.Unhandled)
  }

  /** Sets `key` to the carried string when there is one, as the encoder does per optional part. */
  function SetIfSome(m: map<string, string>, key: string, v: Option<string>): map<string, string> {
    if v.Some? then m[key := v.value] else m
  }

  /** The wire encoding: message first, then field, then the code, into one extension map. */
  function Encode(err: Error): (w: WireError)
    ensures w.message == GenericMessage
    ensures CodeKey in w.extensions && w.extensions[CodeKey] == Wire(err.code)
    ensures MessageKey in w.extensions <==> err.message.Some?
    ensures err.message.Some? ==> w.extensions[MessageKey] == err.message.value
    ensures FieldKey in w.extensions <==> err.field.Some?
    ensures err.field.Some? ==> w.extensions[FieldKey] == err.field.value
    ensures w.extensions.Keys <= {CodeKey, MessageKey, FieldKey}
  {
    var withMessage := SetIfSome(map[], MessageKey, err.message);
    var withField := SetIfSome(withMessage, FieldKey, err.field);
    WireError(GenericMessage, withField[CodeKey := Wire(err.code)])
  }

  /** Reference decoder: what a client can recover from an encoded error. */
  function Decode(w: WireError): (r: Option<Error>)
    ensures r.Some? ==> CodeKey in w.extensions && Wire(r.value.code) == w.extensions[CodeKey]
  {
    if CodeKey !in w.extensions then None
    else
      match FromWire(w.extensions[CodeKey])
      case None => None
      case Some(code) =>
        var field := if FieldKey in w.extensions then Some(w.extensions[FieldKey]) else None;
        var message := if MessageKey in w.extensions then Some(w.extensions[MessageKey]) else None;
        Some(Error(field, message, code))
  }

  /** The encoding is lossless: nothing is dropped and nothing is fabricated. */
  lemma DecodeEncode(err: Error)
    ensures Decode(Encode(err)) == Some(err)
  {
  }

  /** Two errors a client cannot tell apart on the wire are the same error. */
  lemma EncodeInjective(a: Error, b: Error)
    ensures Encode(a) == Encode(b) <==> a == b
  {
  }

  /** An error is code-only exactly when its encoding carries the code alone. */
  lemma CodeOnlyCharacterised(err: Error)
    ensures err == Code(err.code) <==> Encode(err).extensions.Keys == {CodeKey}
  {
  }

  /** The uniqueness message determines whether a value was given, and which. */
  lemma UniqueMessageInjective(field: string, a: Option<string>, b: Option<string>)
    ensures UniqueMessage(field, a) == UniqueMessage(field, b) <==> a == b
  {
    var ma, mb := UniqueMessage(field, a), UniqueMessage(field, b);
    if ma == mb {
      if a.Some? && b.Some? {
        var head := "A " + field + " with ";
        var tail := " already exists";
        assert ma == head + a.value + tail;
        assert mb == head + b.value + tail;
        assert |a.value| == |b.value|;
        assert a.value == ma[|head|..|head| + |a.value|];
        assert b.value == mb[|head|..|head| + |b.value|];
      }
    }
  }

  /** Distinct conflicts produce distinct errors. */
  lemma UniqueInjective(f1: string, v1: Option<string>, f2: string, v2: Option<string>)
    ensures Unique(f1, v1) == Unique(f2, v2) <==> f1 == f2 && v1 == v2
  {
    if Unique(f1, v1) == Unique(f2, v2) {
      UniqueMessageInjective(f1, v1, v2);
    }
  }
}
