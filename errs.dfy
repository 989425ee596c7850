/** The error taxonomy: a closed set of codes, their names, their HTTP statuses
    (section 15 of RFC 9110; 429 from section 4 of RFC 6585), and the structured
    error value every layer reports failures with. */
module Errs {
  import opened Wrappers
  import opened JsonValue
  import Strings

  /** Go's `type ErrCode int`: any integer, of which eighteen are declared. */
  type ErrCode = int

  const OK: ErrCode := 0
  const Canceled: ErrCode := 1
  const Unknown: ErrCode := 2
  const InvalidArgument: ErrCode := 3
  const DeadlineExceeded: ErrCode := 4
  const NotFound: ErrCode := 5
  const AlreadyExists: ErrCode := 6
  const PermissionDenied: ErrCode := 7
  const Unauthenticated: ErrCode := 8
  const ResourceExhausted: ErrCode := 9
  const FailedPrecondition: ErrCode := 10
  const Aborted: ErrCode := 11
  const OutOfRange: ErrCode := 12
  const Unimplemented: ErrCode := 13
  const Internal: ErrCode := 14
  const Unavailable: ErrCode := 15
  const DataLoss: ErrCode := 16
  const InternalOnlyLog: ErrCode := 17

  predicate Declared(c: ErrCode) {
    OK <= c <= InternalOnlyLog
  }

  /** The declared names, indexed by code: a reference for `String`. */
  const CodeNames: seq<string> := [
    "OK", "Canceled", "Unknown", "InvalidArgument", "DeadlineExceeded", "NotFound",
    "AlreadyExists", "PermissionDenied", "Unauthenticated", "ResourceExhausted",
    "FailedPrecondition", "Aborted", "OutOfRange", "Unimplemented", "Internal",
    "Unavailable", "DataLoss", "InternalOnlyLog"]

  /** `ErrCode.String`: the constant's name, or "Unknown" for an undeclared value. */
  function String(c: ErrCode): (name: string)
    ensures !Declared(c) ==> name == "Unknown"
    ensures Declared(c) ==> name == CodeNames[c]
  {
    match c
    case 0 => "OK"
    case 1 => "Canceled"
    case 2 => "Unknown"
    case 3 => "InvalidArgument"
    case 4 => "DeadlineExceeded"
    case 5 => "NotFound"
    case 6 => "AlreadyExists"
    case 7 => "PermissionDenied"
    case 8 => "Unauthenticated"
    case 9 => "ResourceExhausted"
    case 10 => "FailedPrecondition"
    case 11 => "Aborted"
    case 12 => "OutOfRange"
    case 13 => "Unimplemented"
    case 14 => "Internal"
    case 15 => "Unavailable"
    case 16 => "DataLoss"
    case 17 => "InternalOnlyLog"
    case _ => "Unknown"
  }

  /** The reading side of `String`: the code a declared name names. */
  function CodeOf(name: string): (c: Option<ErrCode>)
    ensures c.Some? ==> Declared(c.value)
  {
    match name
    case "OK" => Some(OK)
    case "Canceled" => Some(Canceled)
    case "Unknown" => Some(Unknown)
    case "InvalidArgument" => Some(InvalidArgument)
    case "DeadlineExceeded" => Some(DeadlineExceeded)
    case "NotFound" => Some(NotFound)
    case "AlreadyExists" => Some(AlreadyExists)
    case "PermissionDenied" => Some(PermissionDenied)
    case "Unauthenticated" => Some(Unauthenticated)
    case "ResourceExhausted" => Some(ResourceExhausted)
    case "FailedPrecondition" => Some(FailedPrecondition)
    case "Aborted" => Some(Aborted)
    case "OutOfRange" => Some(OutOfRange)
    case "Unimplemented" => Some(Unimplemented)
    case "Internal" => Some(Internal)
    case "Unavailable" => Some(Unavailable)
    case "DataLoss" => Some(DataLoss)
    case "InternalOnlyLog" => Some(InternalOnlyLog)
    case _ => None
  }

  /** Two declared codes never share a name; every undeclared code reads as Unknown's. */
  lemma StringNamesDeclaredCodes(c: ErrCode)
    ensures Declared(c) ==> CodeOf(String(c)) == Some(c)
    ensures !Declared(c) ==> CodeOf(String(c)) == Some(Unknown)
  {
  }

  /** The `httpStatus` table. */
  const HttpStatusTable: map<ErrCode, int> := map[
    OK := 200,
    Canceled := 408,
    Unknown := 500,
    InvalidArgument := 400,
    DeadlineExceeded := 504,
    NotFound := 404,
    AlreadyExists := 409,
    PermissionDenied := 403,
    Unauthenticated := 401,
    ResourceExhausted := 429,
    FailedPrecondition := 400,
    Aborted := 409,
    OutOfRange := 400,
    Unimplemented := 501,
    Internal := 500,
    Unavailable := 503,
    DataLoss := 500,
    InternalOnlyLog := 500]

  /** The structured error. `funcName` and `fileName` are for the log only. */
  datatype Error = Error(code: ErrCode, message: string, funcName: string, fileName: string)

  /** `(*Error).HTTPStatus`: the table's entry, or 0 (the map's zero value) for a
      code the table lacks. */
  function HTTPStatus(e: Error): (status: int)
    ensures status != 0 <==> Declared(e.code)
    ensures e.code == OK ==> status == 200
    ensures Declared(e.code) && e.code != OK ==> 400 <= status <= 599
    ensures status >= 400 <==> Declared(e.code) && e.code != OK
  {
    if e.code in HttpStatusTable then HttpStatusTable[e.code] else 0
  }

  /** The table has exactly one entry per declared code. */
  lemma TableCoversDeclaredCodes()
    ensures forall c :: c in HttpStatusTable <==> Declared(c)
  {
  }

  /** The statuses the taxonomy promises to clients. */
  lemma StatusExamples(msg: string, f: string, l: string)
    ensures HTTPStatus(Error(InvalidArgument, msg, f, l)) == 400
    ensures HTTPStatus(Error(NotFound, msg, f, l)) == 404
    ensures HTTPStatus(Error(Unauthenticated, msg, f, l)) == 401
    ensures HTTPStatus(Error(PermissionDenied, msg, f, l)) == 403
    ensures HTTPStatus(Error(ResourceExhausted, msg, f, l)) == 429
    ensures HTTPStatus(Error(Unavailable, msg, f, l)) == 503
    ensures HTTPStatus(Error(Internal, msg, f, l)) == 500
    ensures HTTPStatus(Error(InternalOnlyLog, msg, f, l)) == 500
    ensures HTTPStatus(Error(DataLoss, msg, f, l)) == 500
    ensures HTTPStatus(Error(Unknown, msg, f, l)) == 500
  {
  }

  /** A Go `error` value: a `*Error`, a plain error (`errors.New`, `fmt.Errorf`
      without `%w`), or a `%w` wrapper around a cause. */
  datatype GoError =
    | AppError(err: Error)
    | Plain(text: string)
    | Wrapped(text: string, cause: GoError)

  /** `err.Error()`. */
  function Text(g: GoError): string {
    match g
    case AppError(e) => e.message
    case Plain(t) => t
    case Wrapped(t, _) => t
  }

  /** The unwrap chain `errors.As` walks: the error itself, then its causes. */
  function Chain(g: GoError): (c: seq<GoError>)
    ensures |c| >= 1 && c[0] == g
  {
    match g
    case Wrapped(_, cause) => [g] + Chain(cause)
    case _ => [g]
  }

  /** `errors.As(err, &e)` with `e *Error`: the first `*Error` on the chain. */
  function As(g: GoError): (r: Option<Error>)
    ensures r.Some? ==> exists i :: 0 <= i < |Chain(g)| && Chain(g)[i] == AppError(r.value)
                          && forall j :: 0 <= j < i ==> !Chain(g)[j].AppError?
    ensures r.None? ==> forall i :: 0 <= i < |Chain(g)| ==> !Chain(g)[i].AppError?
  {
    match g
    case AppError(e) =>
      assert Chain(g)[0] == AppError(e);
      Some(e)
    case Plain(_) => None
    case Wrapped(_, cause) =>
      var r := As(cause);
      assert Chain(g) == [g] + Chain(cause);
      if r.Some? then
        var i :| 0 <= i < |Chain(cause)| && Chain(cause)[i] == AppError(r.value)
                 && forall j :: 0 <= j < i ==> !Chain(cause)[j].AppError?;
        assert Chain(g)[i + 1] == AppError(r.value);
        r
      else
        r
  }

  /** `IsError`. */
  predicate IsError(g: GoError) {
    As(g).Some?
  }

  /** `GetCode`: the code of the first `*Error` on the chain, else Unknown. */
  function GetCode(g: GoError): (c: ErrCode)
    ensures IsError(g) ==> c == As(g).value.code
    ensures !IsError(g) ==> c == Unknown
  {
    match As(g)
    case Some(e) => e.code
    case None => Unknown
  }

  lemma GetCodeCases(e: Error, t: string)
    ensures GetCode(AppError(e)) == e.code
    ensures GetCode(Wrapped(t, AppError(e))) == e.code
    ensures GetCode(Plain(t)) == Unknown
    ensures GetCode(Wrapped(t, Plain(t))) == Unknown
  {
  }

  /** The frame `runtime.Caller(1)` reports: the function that called `New`. */
  datatype CallSite = CallSite(funcName: string, file: string, line: int)

  /** `New`: keeps the code, takes the message from the wrapped error's text,
      records the call site for the log. */
  function New(code: ErrCode, err: GoError, caller: CallSite): (e: Error)
    ensures e.code == code && e.message == Text(err)
    ensures e.funcName == caller.funcName
    ensures e.fileName == caller.file + ":" + Strings.IntToDecimal(caller.line)
  {
    Error(code, Text(err), caller.funcName, caller.file + ":" + Strings.IntToDecimal(caller.line))
  }

  /** `Newf` as intended: the formatted text (`fmt.Errorf` without `%w`) becomes the
      message and the site that called `Newf` is recorded. */
  function Newf(code: ErrCode, formatted: string, caller: CallSite): (e: Error)
    ensures e.code == code && e.message == formatted
    ensures e.funcName == caller.funcName
  {
    New(code, Plain(formatted), caller)
  }

  /** The frame of errs.go's `Newf` at its call of `New`. */
  function NewfFrame(errsFile: string): CallSite {
    CallSite("health-api/app/sdk/errs.Newf", errsFile, 103)
  }

  /** `Newf` as written: `New` asks for `runtime.Caller(1)`, which is `Newf` itself,
      so the recorded site does not depend on who called `Newf`. */
  function NewfAsWritten(code: ErrCode, formatted: string, errsFile: string): (e: Error)
    ensures e.code == code && e.message == formatted
  {
    New(code, Plain(formatted), NewfFrame(errsFile))
  }

  /** As written, every error made by `Newf` names `Newf` as its origin. */
  lemma NewfAsWrittenLosesCaller(code: ErrCode, formatted: string, errsFile: string, caller: CallSite)
    requires caller.funcName != "health-api/app/sdk/errs.Newf"
    ensures NewfAsWritten(code, formatted, errsFile).funcName != Newf(code, formatted, caller).funcName
    ensures NewfAsWritten(code, formatted, errsFile).funcName == "health-api/app/sdk/errs.Newf"
  {
  }

  /** `(*Error).Error`. */
  function ErrorText(e: Error): (t: string)
    ensures t == Text(AppError(e))
  {
    e.message
  }

  /** `(*Error).Encode`: a JSON object carrying exactly `code` and `message`. */
  function Encode(e: Error): (r: Encoded)
    ensures r.contentType == ContentTypeJSON
    ensures r.data.Obj? && r.data.fields.Keys == {"code", "message"}
    ensures r.data.fields["code"] == Num(e.code) && r.data.fields["message"] == Str(e.message)
  {
    Encoded(Obj(map["code" := Num(e.code), "message" := Str(e.message)]), ContentTypeJSON)
  }

  /** What a client can read back from an encoded error. */
  function DecodeBody(body: Json): Option<(ErrCode, string)> {
    if body.Obj? && "code" in body.fields && "message" in body.fields
       && body.fields["code"].Num? && body.fields["message"].Str?
    then Some((body.fields["code"].n, body.fields["message"].s))
    else None
  }

  /** The client reads back code and message, and nothing of the call site. */
  lemma EncodeRoundTrip(e: Error)
    ensures DecodeBody(Encode(e).data) == Some((e.code, e.message))
  {
  }

  lemma EncodeHidesCallSite(e1: Error, e2: Error)
    requires e1.code == e2.code && e1.message == e2.message
    ensures Encode(e1) == Encode(e2)
  {
  }
}
