/**
 * The Express error middleware: how an application error becomes the HTTP
 * status and JSON body sent to the client, and the `createError` factory
 * every other part of the server uses to raise one.
 */
module ErrorHandler {
  import opened Wrappers
  import opened Text

  /** The closed set of application error codes. */
  datatype ErrorCode =
    | FileUploadError
    | FileParseError
    | ConditionEvaluationError
    | WhatsAppConnectionError
    | WhatsAppSendError
    | RateLimitExceeded
    | SessionExpired
    | InvalidPhoneNumber
    | TemplateRenderError
    | JobNotFound
    | UnknownError

  /** `details` is an arbitrary JSON value; the model carries it as its serialized text. */
  type Details = string

  /**
   * An `Error` object with the optional fields the middleware reads. `code`
   * is the property as it is at run time: one of the union's names when
   * `createError` set it, but any string when the error comes from a library
   * (multer's `LIMIT_FILE_SIZE`, for one). The stack trace is captured by the
   * JavaScript runtime when the error is constructed, so it is an input here.
   */
  datatype AppError = AppError(
    message: string,
    statusCode: Option<int>,
    code: Option<string>,
    details: Option<Details>,
    stack: Option<string>)

  /** The JSON body; `stack` and `details` are present only in development. */
  datatype ResponseBody = ResponseBody(
    success: bool,
    error: string,
    message: string,
    stack: Option<string>,
    details: Option<Details>)

  datatype ErrorResponse = ErrorResponse(status: int, body: ResponseBody)

  const DefaultStatus: int := 500
  const UnexpectedErrorText: string := "An unexpected error occurred"

  /** The fixed text for each code. */
  function MessageTable(code: ErrorCode): string {
    match code
    case FileUploadError => "File upload failed"
    case FileParseError => "Failed to parse the uploaded file"
    case ConditionEvaluationError => "Error evaluating conditions"
    case WhatsAppConnectionError => "WhatsApp connection failed"
    case WhatsAppSendError => "Failed to send WhatsApp message"
    case RateLimitExceeded => "Rate limit exceeded"
    case SessionExpired => "Session has expired"
    case InvalidPhoneNumber => "Invalid phone number format"
    case TemplateRenderError => "Failed to render message template"
    case JobNotFound => "Job not found"
    case UnknownError => "An unknown error occurred"
  }

  /** The name a code has on the wire. */
  function CodeName(code: ErrorCode): string {
    match code
    case FileUploadError => "FILE_UPLOAD_ERROR"
    case FileParseError => "FILE_PARSE_ERROR"
    case ConditionEvaluationError => "CONDITION_EVALUATION_ERROR"
    case WhatsAppConnectionError => "WHATSAPP_CONNECTION_ERROR"
    case WhatsAppSendError => "WHATSAPP_SEND_ERROR"
    case RateLimitExceeded => "RATE_LIMIT_EXCEEDED"
    case SessionExpired => "SESSION_EXPIRED"
    case InvalidPhoneNumber => "INVALID_PHONE_NUMBER"
    case TemplateRenderError => "TEMPLATE_RENDER_ERROR"
    case JobNotFound => "JOB_NOT_FOUND"
    case UnknownError => "UNKNOWN_ERROR"
  }

  /** The code a name denotes, if it is one of the union's names. */
  function ParseCode(name: string): Option<ErrorCode> {
    if name == "FILE_UPLOAD_ERROR" then Some(FileUploadError)
    else if name == "FILE_PARSE_ERROR" then Some(FileParseError)
    else if name == "CONDITION_EVALUATION_ERROR" then Some(ConditionEvaluationError)
    else if name == "WHATSAPP_CONNECTION_ERROR" then Some(WhatsAppConnectionError)
    else if name == "WHATSAPP_SEND_ERROR" then Some(WhatsAppSendError)
    else if name == "RATE_LIMIT_EXCEEDED" then Some(RateLimitExceeded)
    else if name == "SESSION_EXPIRED" then Some(SessionExpired)
    else if name == "INVALID_PHONE_NUMBER" then Some(InvalidPhoneNumber)
    else if name == "TEMPLATE_RENDER_ERROR" then Some(TemplateRenderError)
    else if name == "JOB_NOT_FOUND" then Some(JobNotFound)
    else if name == "UNKNOWN_ERROR" then Some(UnknownError)
    else None
  }

  /** A code's name reads back as that code. */
  lemma CodeNameRoundTrip(code: ErrorCode)
    ensures ParseCode(CodeName(code)) == Some(code)
  {
    match code
    case FileUploadError =>
    case FileParseError =>
    case ConditionEvaluationError =>
    case WhatsAppConnectionError =>
    case WhatsAppSendError =>
    case RateLimitExceeded =>
    case SessionExpired =>
    case InvalidPhoneNumber =>
    case TemplateRenderError =>
    case JobNotFound =>
    case UnknownError =>
  }

  /** A name that reads as a code is that code's name. */
  lemma ParseCodeSound(name: string)
    requires ParseCode(name).Some?
    ensures CodeName(ParseCode(name).value) == name
  {
    if name == "FILE_UPLOAD_ERROR" {
    } else if name == "FILE_PARSE_ERROR" {
    } else if name == "CONDITION_EVALUATION_ERROR" {
    } else if name == "WHATSAPP_CONNECTION_ERROR" {
    } else if name == "WHATSAPP_SEND_ERROR" {
    } else if name == "RATE_LIMIT_EXCEEDED" {
    } else if name == "SESSION_EXPIRED" {
    } else if name == "INVALID_PHONE_NUMBER" {
    } else if name == "TEMPLATE_RENDER_ERROR" {
    } else if name == "JOB_NOT_FOUND" {
    }
  }

  /** `messages[code]`: the table entry, or the falsy `undefined` (here `""`) for a name outside the union. */
  function MessageLookup(name: string): string {
    match ParseCode(name)
    case Some(code) => MessageTable(code)
    case None => ""
  }

  /**
   * `getErrorMessage`: the table entry for a name of the union, and the
   * unknown-error text, through the `||` fallback, for any other name.
   */
  function ErrorMessage(name: string): (r: string)
    ensures r != []
    ensures ParseCode(name).Some? ==> r == MessageTable(ParseCode(name).value)
    ensures ParseCode(name).None? ==> r == MessageTable(UnknownError)
  {
    OrElse(MessageLookup(name), MessageTable(UnknownError))
  }

  /**
   * `createError(message, statusCode = 500, code = 'UNKNOWN_ERROR', details)`:
   * a `None` argument is an omitted one and takes the default. The result
   * always carries a status and a code.
   */
  function CreateError(
    message: string,
    statusCode: Option<int>,
    code: Option<ErrorCode>,
    details: Option<Details>,
    stack: string): (e: AppError)
    ensures e.message == message && e.details == details && e.stack == Some(stack)
    ensures e.statusCode.Some? && e.code.Some?
    ensures statusCode.Some? ==> e.statusCode == statusCode
    ensures statusCode.None? ==> e.statusCode == Some(DefaultStatus)
    ensures code.Some? ==> e.code == Some(CodeName(code.value))
    ensures code.None? ==> e.code == Some(CodeName(UnknownError))
  {
    AppError(message, Some(statusCode.GetOr(DefaultStatus)), Some(CodeName(code.GetOr(UnknownError))), details, Some(stack))
  }

  /** `error.statusCode || 500`: an absent status and the falsy status 0 both become 500. */
  function StatusOf(e: AppError): (r: int)
    ensures r != 0
    ensures (e.statusCode.Some? && e.statusCode.value != 0) <==> (e.statusCode == Some(r))
    ensures e.statusCode.None? || e.statusCode == Some(0) ==> r == DefaultStatus
  {
    match e.statusCode
    case Some(s) => if s != 0 then s else DefaultStatus
    case None => DefaultStatus
  }

  /** `error.code || 'UNKNOWN_ERROR'`: an absent or empty code becomes `UNKNOWN_ERROR`. */
  function CodeOf(e: AppError): (r: string)
    ensures e.code.Some? && e.code.value != [] ==> r == e.code.value
    ensures e.code.None? || e.code == Some([]) ==> r == CodeName(UnknownError)
  {
    OrElse(e.code.GetOr([]), CodeName(UnknownError))
  }

  /**
   * `errorHandler`: the status and body sent for `e`; `development` stands
   * for `process.env.NODE_ENV === 'development'`.
   */
  function HandleError(e: AppError, development: bool): (r: ErrorResponse)
    ensures r.status == StatusOf(e)
    ensures !r.body.success
    ensures r.body.error != []
    ensures e.message != [] ==> r.body.error == e.message
    ensures e.message == [] ==> r.body.error == UnexpectedErrorText
    ensures r.body.message == ErrorMessage(CodeOf(e))
    ensures development ==> r.body.stack == e.stack && r.body.details == e.details
    ensures !development ==> r.body.stack.None? && r.body.details.None?
  {
    var body := ResponseBody(
      false,
      OrElse(e.message, UnexpectedErrorText),
      ErrorMessage(CodeOf(e)),
      if development then e.stack else None,
      if development then e.details else None);
    ErrorResponse(StatusOf(e), body)
  }

  /**
   * An error made by `createError` and handed to `errorHandler`: the status
   * is the one given unless it was 0, the body's message is the given code's
   * text, the original message reaches the client unless it is empty, and in
   * development the stack recorded at creation is sent.
   */
  lemma CreatedErrorResponse(
    message: string, statusCode: Option<int>, code: Option<ErrorCode>,
    details: Option<Details>, stack: string, development: bool)
    ensures var r := HandleError(CreateError(message, statusCode, code, details, stack), development);
      && r.status == (if statusCode == Some(0) then DefaultStatus else statusCode.GetOr(DefaultStatus))
      && r.body.message == MessageTable(code.GetOr(UnknownError))
      && r.body.error == (if message == [] then UnexpectedErrorText else message)
      && (r.body.stack.Some? <==> development)
      && (development ==> r.body.stack == Some(stack))
  {
    CodeNameRoundTrip(code.GetOr(UnknownError));
  }

  /**
   * An error whose code is not a name of the union, such as multer's
   * `LIMIT_FILE_SIZE` with no status, is answered with status 500 and the
   * unknown-error text.
   */
  lemma ForeignCodeResponse(e: AppError, development: bool)
    requires e.code.Some? && e.code.value != [] && ParseCode(e.code.value).None?
    requires e.statusCode.None?
    ensures HandleError(e, development).status == DefaultStatus
    ensures HandleError(e, development).body.message == "An unknown error occurred"
  {
  }
}
