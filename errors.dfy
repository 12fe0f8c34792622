/** The error taxonomy: error codes and their HTTP statuses, the TodoError
    family, the classification `handle_error` applies to any exception, the
    retry loop for transient failures, and the request-id counter. */
module Errors {
  import opened Wrappers
  import opened Text

  datatype ErrorCode =
    | ValidationError | InvalidInput | MissingRequiredField
    | TodoNotFound | ResourceNotFound
    | StorageError | FileReadError | FileWriteError | BackupError
    | InternalError | InitializationError | ToolHandlerError
    | TransportError | ConnectionError
    | RateLimitExceeded

  /** The enum's string value. */
  function CodeName(c: ErrorCode): string {
    match c
    case ValidationError => "VALIDATION_ERROR"
    case InvalidInput => "INVALID_INPUT"
    case MissingRequiredField => "MISSING_REQUIRED_FIELD"
    case TodoNotFound => "TODO_NOT_FOUND"
    case ResourceNotFound => "RESOURCE_NOT_FOUND"
    case StorageError => "STORAGE_ERROR"
    case FileReadError => "FILE_READ_ERROR"
    case FileWriteError => "FILE_WRITE_ERROR"
    case BackupError => "BACKUP_ERROR"
    case InternalError => "INTERNAL_ERROR"
    case InitializationError => "INITIALIZATION_ERROR"
    case ToolHandlerError => "TOOL_HANDLER_ERROR"
    case TransportError => "TRANSPORT_ERROR"
    case ConnectionError => "CONNECTION_ERROR"
    case RateLimitExceeded => "RATE_LIMIT_EXCEEDED"
  }

  /** Different codes have different string values. */
  lemma CodeNamesDistinct(c: ErrorCode, d: ErrorCode)
    requires c != d
    ensures CodeName(c) != CodeName(d)
  {
  }

  /** The HTTP status table. */
  const ErrorStatusCodes: map<ErrorCode, int> := map[
    ValidationError := 400, InvalidInput := 400, MissingRequiredField := 400,
    TodoNotFound := 404, ResourceNotFound := 404,
    StorageError := 500, FileReadError := 500, FileWriteError := 500, BackupError := 500,
    InternalError := 500, InitializationError := 500, ToolHandlerError := 500,
    TransportError := 503, ConnectionError := 503,
    RateLimitExceeded := 429]

  lemma {:induction false} StatusTableCoversEveryCode(c: ErrorCode)
    ensures c in ErrorStatusCodes
  {
    match c
    case ValidationError =>
    case InvalidInput =>
    case MissingRequiredField =>
    case TodoNotFound =>
    case ResourceNotFound =>
    case StorageError =>
    case FileReadError =>
    case FileWriteError =>
    case BackupError =>
    case InternalError =>
    case InitializationError =>
    case ToolHandlerError =>
    case TransportError =>
    case ConnectionError =>
    case RateLimitExceeded =>
  }

  /** `ERROR_STATUS_CODES[code]`; never a KeyError, since the table covers every code. */
  function StatusCodeOf(c: ErrorCode): int {
    StatusTableCoversEveryCode(c);
    ErrorStatusCodes[c]
  }

  /** The groups the enum declares, each with its status. */
  lemma StatusByGroup(c: ErrorCode)
    ensures StatusCodeOf(c) == 400 <==> c in {ValidationError, InvalidInput, MissingRequiredField}
    ensures StatusCodeOf(c) == 404 <==> c in {TodoNotFound, ResourceNotFound}
    ensures StatusCodeOf(c) == 500 <==>
      c in {StorageError, FileReadError, FileWriteError, BackupError,
            InternalError, InitializationError, ToolHandlerError}
    ensures StatusCodeOf(c) == 503 <==> c in {TransportError, ConnectionError}
    ensures StatusCodeOf(c) == 429 <==> c == RateLimitExceeded
  {
  }

  /** One entry of a pydantic validation error: field location and message. */
  datatype Issue = Issue(loc: string, msg: string)

  /** A value of an error's `details` dictionary. */
  datatype Detail =
    | DStr(s: string)
    | DInt(n: int)
    | DList(items: seq<string>)
    | DIssues(issues: seq<Issue>)
    | DError(typeName: string, message: string)
    | DKeys(keys: set<string>)
    | DNull

  /** Which TodoError class raised it. */
  datatype ErrorKind = Base | Validation | Storage | File | NotFound

  datatype TodoError = TodoError(
    kind: ErrorKind,
    message: string,
    code: ErrorCode,
    statusCode: int,
    details: map<string, Detail>,
    requestId: Option<string>)

  /** Any exception an operation can raise. */
  datatype Exception =
    | Raised(err: TodoError)
    | PydanticFailure(issues: seq<Issue>)
    | FileNotFound(filename: string, message: string)
    | PermissionDenied(filename: string, message: string)
    | OSFailure(message: string)
    | OtherFailure(typeName: string, message: string)

  function IssueText(i: Issue): string { i.loc + ": " + i.msg }

  function IssueTexts(issues: seq<Issue>): seq<string> {
    seq(|issues|, k requires 0 <= k < |issues| => IssueText(issues[k]))
  }

  /** `str(error)`. */
  function Str(e: Exception): string {
    match e
    case Raised(t) => t.message
    case PydanticFailure(issues) => Join("\n", IssueTexts(issues))
    case FileNotFound(_, m) => m
    case PermissionDenied(_, m) => m
    case OSFailure(m) => m
    case OtherFailure(_, m) => m
  }

  /** `type(error).__name__`. */
  function TypeNameOf(e: Exception): string {
    match e
    case Raised(t) =>
      (match t.kind
       case Base => "TodoError"
       case Validation => "ValidationError"
       case Storage => "StorageError"
       case File => "FileError"
       case NotFound => "NotFoundError")
    case PydanticFailure(_) => "ValidationError"
    case FileNotFound(_, _) => "FileNotFoundError"
    case PermissionDenied(_, _) => "PermissionError"
    case OSFailure(_) => "OSError"
    case OtherFailure(n, _) => n
  }

  /** A TodoError whose status is the table entry for its code, as every constructor sets it. */
  predicate WellFormed(t: TodoError) {
    t.statusCode == StatusCodeOf(t.code)
  }

  /** `TodoError(message, code, details, request_id)`. */
  function NewTodoError(kind: ErrorKind, message: string, code: ErrorCode,
                        details: map<string, Detail>, requestId: Option<string>): (r: TodoError)
    ensures WellFormed(r)
    ensures r.kind == kind && r.code == code && r.message == message
    ensures r.details == details && r.requestId == requestId
  {
    TodoError(kind, message, code, StatusCodeOf(code), details, requestId)
  }

  function NewValidationError(message: string, details: map<string, Detail>,
                              requestId: Option<string>): (r: TodoError)
    ensures WellFormed(r) && r.kind == Validation && r.code == ValidationError && r.statusCode == 400
    ensures r.message == message && r.details == details && r.requestId == requestId
  {
    NewTodoError(Validation, message, ValidationError, details, requestId)
  }

  /** `ValidationError.from_pydantic_error`. */
  function ValidationFromPydantic(issues: seq<Issue>, requestId: Option<string>): (r: TodoError)
    ensures WellFormed(r) && r.kind == Validation && r.code == ValidationError
    ensures r.details == map["validation_errors" := DIssues(issues)]
  {
    NewValidationError("Validation failed: " + Join(", ", IssueTexts(issues)),
                       map["validation_errors" := DIssues(issues)], requestId)
  }

  /** `StorageError(message, original_error)`: details name the wrapped error, if any. */
  function NewStorageError(message: string, original: Option<Exception>,
                           requestId: Option<string>): (r: TodoError)
    ensures WellFormed(r) && r.kind == Storage && r.code == StorageError && r.message == message
    ensures original.Some? <==> "original_error" in r.details
    ensures original.Some? ==>
      r.details["original_error"] == DError(TypeNameOf(original.value), Str(original.value))
  {
    var details := if original.Some? then
      map["original_error" := DError(TypeNameOf(original.value), Str(original.value))]
    else map[];
    NewTodoError(Storage, message, StorageError, details, requestId)
  }

  /** `FileError`'s `code_map.get(operation, STORAGE_ERROR)`. */
  function FileErrorCode(operation: string): (c: ErrorCode)
    ensures c == FileReadError <==> operation == "read"
    ensures c == FileWriteError <==> operation == "write"
    ensures c == BackupError <==> operation == "backup"
    ensures c == StorageError <==> operation !in {"read", "write", "backup"}
  {
    var codeMap := map["read" := FileReadError, "write" := FileWriteError, "backup" := BackupError];
    if operation in codeMap then codeMap[operation] else StorageError
  }

  /** `FileError(message, operation, file_path, original_error)`: details name the operation,
      the path and, if any, the wrapped error's type and text. */
  function NewFileError(message: string, operation: string, filePath: string,
                        original: Option<Exception>, requestId: Option<string>): (r: TodoError)
    ensures WellFormed(r) && r.kind == File && r.code == FileErrorCode(operation) && r.message == message
    ensures "operation" in r.details && r.details["operation"] == DStr(operation)
    ensures "file_path" in r.details && r.details["file_path"] == DStr(filePath)
    ensures original.Some? <==> "original_error" in r.details
    ensures original.Some? ==>
      r.details["original_error"] == DError(TypeNameOf(original.value), Str(original.value))
  {
    var base := map["operation" := DStr(operation), "file_path" := DStr(filePath)];
    var details := if original.Some? then
      base["original_error" := DError(TypeNameOf(original.value), Str(original.value))]
    else base;
    NewTodoError(File, message, FileErrorCode(operation), details, requestId)
  }

  function NewNotFoundError(resource: string, identifier: string,
                            requestId: Option<string>): (r: TodoError)
    ensures WellFormed(r) && r.kind == NotFound
    ensures r.code == TodoNotFound <==> resource == "todo"
    ensures r.code == ResourceNotFound <==> resource != "todo"
    ensures r.message == resource + " not found: " + identifier
    ensures r.details == map["resource" := DStr(resource), "identifier" := DStr(identifier)]
  {
    var code := if resource == "todo" then TodoNotFound else ResourceNotFound;
    NewTodoError(NotFound, resource + " not found: " + identifier, code,
                 map["resource" := DStr(resource), "identifier" := DStr(identifier)], requestId)
  }

  /** The structured response (the timestamp is left out). */
  datatype ErrorResponse = ErrorResponse(
    message: string,
    code: ErrorCode,
    statusCode: int,
    details: map<string, Detail>,
    requestId: Option<string>)

  function ToResponse(t: TodoError): ErrorResponse {
    ErrorResponse(t.message, t.code, t.statusCode, t.details, t.requestId)
  }

  /** `ErrorHandler.handle_error`: the first matching class decides the response. */
  function HandleError(e: Exception, requestId: Option<string>): (r: ErrorResponse)
    ensures e.Raised? ==> r == ToResponse(e.err)
    ensures !e.Raised? ==> r.statusCode == StatusCodeOf(r.code) && r.requestId == requestId
    ensures e.PydanticFailure? ==> r.code == ValidationError
    ensures (e.FileNotFound? || e.PermissionDenied?) ==>
      r.code == FileReadError &&
      "operation" in r.details && r.details["operation"] == DStr("read") &&
      "file_path" in r.details && r.details["file_path"] == DStr(e.filename)
    ensures e.OSFailure? ==> r.code == StorageError
    ensures e.OtherFailure? ==>
      r.code == InternalError && r.statusCode == 500 &&
      r.message == (if e.message == "" then "An unexpected error occurred" else e.message)
  {
    match e
    case Raised(t) => ToResponse(t)
    case PydanticFailure(issues) => ToResponse(ValidationFromPydantic(issues, requestId))
    case FileNotFound(f, _) => ToResponse(NewFileError("File not found", "read", f, Some(e), requestId))
    case PermissionDenied(f, _) => ToResponse(NewFileError("Permission denied", "read", f, Some(e), requestId))
    case OSFailure(m) => ToResponse(NewStorageError("File system error: " + m, Some(e), requestId))
    case OtherFailure(n, m) =>
      ToResponse(NewTodoError(Base, if m == "" then "An unexpected error occurred" else m,
                              InternalError, map["original_error" := DStr(n)], requestId))
  }

  /** A response built from a well-formed error carries the status of its code. */
  lemma ResponseStatusMatchesCode(e: Exception, requestId: Option<string>)
    requires e.Raised? ==> WellFormed(e.err)
    ensures HandleError(e, requestId).statusCode == StatusCodeOf(HandleError(e, requestId).code)
  {
  }

  // ---- RetryHandler.with_retry ----

  /** What one call of the retried operation did. */
  datatype Attempt<T> = Succeeded(value: T) | Failed(error: Exception)

  /** Everything except the store's ValidationError and NotFoundError is retried
      (a pydantic validation error is a different class and is retried). */
  predicate Retryable(e: Exception) {
    !(e.Raised? && (e.err.kind == Validation || e.err.kind == NotFound))
  }

  function Pow2(k: nat): (r: nat)
    ensures r >= 1
  {
    if k == 0 then 1 else 2 * Pow2(k - 1)
  }

  /** The error raised once every attempt failed (`last` is `None` when no attempt ran). */
  function ExhaustedError(maxRetries: int, last: Option<Exception>, requestId: Option<string>): TodoError {
    NewStorageError("Operation failed after " + IntToString(maxRetries) + " attempts: " +
                    (if last.Some? then Str(last.value) else "None"), last, requestId)
  }

  /** Runs attempt k with outcome `outcomes[k - 1]`; `delays` are the backoff waits in
      milliseconds, in order, instead of sleeping them. */
  method WithRetry<T>(outcomes: seq<Attempt<T>>, maxRetries: int, delayMs: int,
                      requestId: Option<string>)
    returns (r: Result<T, Exception>, attempts: nat, delays: seq<int>)
    requires maxRetries <= |outcomes|
    ensures maxRetries <= 0 ==> attempts == 0 && r == Err(Raised(ExhaustedError(maxRetries, None, requestId)))
    ensures maxRetries > 0 ==> 1 <= attempts <= maxRetries
    ensures forall k :: 0 <= k < attempts - 1 ==> outcomes[k].Failed? && Retryable(outcomes[k].error)
    ensures attempts > 0 && outcomes[attempts - 1].Succeeded? ==> r == Ok(outcomes[attempts - 1].value)
    ensures attempts > 0 && outcomes[attempts - 1].Failed? && !Retryable(outcomes[attempts - 1].error) ==>
      r == Err(outcomes[attempts - 1].error)
    ensures attempts > 0 && outcomes[attempts - 1].Failed? && Retryable(outcomes[attempts - 1].error) ==>
      attempts == maxRetries &&
      r == Err(Raised(ExhaustedError(maxRetries, Some(outcomes[attempts - 1].error), requestId)))
    ensures |delays| == (if attempts == 0 then 0 else attempts - 1)
    ensures forall k :: 0 <= k < |delays| ==> delays[k] == delayMs * Pow2(k)
  {
    var lastError: Option<Exception> := None;
    delays := [];
    attempts := 0;
    var attempt := 1;
    while attempt <= maxRetries
      invariant 1 <= attempt && attempts == attempt - 1
      invariant attempts <= (if maxRetries > 0 then maxRetries else 0)
      invariant attempts > 0 ==> attempts < maxRetries
      invariant forall k :: 0 <= k < attempts ==> outcomes[k].Failed? && Retryable(outcomes[k].error)
      invariant attempts > 0 ==> lastError == Some(outcomes[attempts - 1].error)
      invariant attempts == 0 ==> lastError == None
      invariant |delays| == attempts
      invariant forall k :: 0 <= k < |delays| ==> delays[k] == delayMs * Pow2(k)
    {
      attempts := attempt;
      match outcomes[attempt - 1]
      case Succeeded(v) =>
        return Ok(v), attempts, delays;
      case Failed(err) =>
        lastError := Some(err);
        if !Retryable(err) {
          return Err(err), attempts, delays;
        }
        if attempt == maxRetries {
          break;
        }
        delays := delays + [delayMs * Pow2(attempt - 1)];
      attempt := attempt + 1;
    }
    r := Err(Raised(ExhaustedError(maxRetries, lastError, requestId)));
  }

  // ---- ErrorHandler._request_counter ----

  /** `f"req_{seconds}_{counter}"`. */
  function RequestId(nowSeconds: int, counter: nat): string {
    "req_" + IntToString(nowSeconds) + "_" + NatToString(counter)
  }

  /** The text after the last underscore. */
  function SuffixAfterUnderscore(s: string): string {
    if s == [] || s[|s| - 1] == '_' then [] else SuffixAfterUnderscore(s[..|s| - 1]) + [s[|s| - 1]]
  }

  lemma {:induction false} SuffixOfDigits(prefix: string, digits: string)
    requires IsDigits(digits)
    ensures SuffixAfterUnderscore(prefix + "_" + digits) == digits
    decreases |digits|
  {
    var s := prefix + "_" + digits;
    if digits != [] {
      var init := digits[..|digits| - 1];
      assert s[..|s| - 1] == prefix + "_" + init;
      SuffixOfDigits(prefix, init);
    } else {
      assert s[|s| - 1] == '_';
    }
  }

  /** The counter can be read back from the id, so ids from different counter values differ. */
  lemma RequestIdCounter(nowSeconds: int, counter: nat)
    ensures DecimalValue(SuffixAfterUnderscore(RequestId(nowSeconds, counter))) == counter
  {
    SuffixOfDigits("req_" + IntToString(nowSeconds), NatToString(counter));
    assert RequestId(nowSeconds, counter) ==
      ("req_" + IntToString(nowSeconds)) + "_" + NatToString(counter);
    DecimalRoundTrip(counter);
  }

  /** The class-level counter of `ErrorHandler`. */
  class ErrorHandler {
    var requestCounter: nat

    constructor ()
      ensures requestCounter == 0
    {
      requestCounter := 0;
    }

    method GenerateRequestId(nowSeconds: int) returns (id: string)
      modifies this
      ensures requestCounter == old(requestCounter) + 1
      ensures id == RequestId(nowSeconds, requestCounter)
    {
      requestCounter := requestCounter + 1;
      id := RequestId(nowSeconds, requestCounter);
    }
  }
}
