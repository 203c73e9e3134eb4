/**
 * `rest_exception_handler`: the JSON error body and HTTP status for an
 * exception raised in a view. Status codes are those of section 15 of
 * RFC 9110, with 429 from section 4 of RFC 6585. DRF's own
 * `exception_handler` and BeautifulSoup are foreign: their outcomes are
 * parameters. Translation (`gettext`) is the identity.
 */
module RestExceptions {
  import opened Wrappers
  import opened Text

  /** The exception classes the handler names; every other class is `OtherClass`. */
  datatype ExcClass =
    | Http404
    | DjangoPermissionDenied
    | DrfPermissionDenied
    | ObjectDoesNotExist
    | MultipleObjectsReturned
    | ParseError
    | AuthenticationFailed
    | NotAuthenticated
    | NotFound
    | MethodNotAllowed
    | NotAcceptable
    | UnsupportedMediaType
    | Throttled
    | ValueError
    | DjangoValidationError
    | DrfValidationError
    | OtherClass(name: string)

  /**
   * A raised exception: its exact class, the named classes it inherits from
   * (a model's `DoesNotExist` inherits `ObjectDoesNotExist`), whether it
   * derives from `Exception`, `str(exc)`, and `str(exc.wait)` for throttling.
   */
  datatype Exc = Exc(cls: ExcClass, bases: set<ExcClass>, isException: bool, text: string, wait: string)

  /** `isinstance(exc, cls)` */
  predicate IsInstance(exc: Exc, cls: ExcClass) {
    exc.cls == cls || cls in exc.bases
  }

  const HTTP_400_BAD_REQUEST: int := 400
  const HTTP_401_UNAUTHORIZED: int := 401
  const HTTP_403_FORBIDDEN: int := 403
  const HTTP_404_NOT_FOUND: int := 404
  const HTTP_405_METHOD_NOT_ALLOWED: int := 405
  const HTTP_406_NOT_ACCEPTABLE: int := 406
  const HTTP_415_UNSUPPORTED_MEDIA_TYPE: int := 415
  const HTTP_429_TOO_MANY_REQUESTS: int := 429
  const HTTP_500_INTERNAL_SERVER_ERROR: int := 500

  /** `exception_status_map` */
  const StatusMap: map<ExcClass, int> := map[
    Http404 := HTTP_404_NOT_FOUND,
    DjangoPermissionDenied := HTTP_403_FORBIDDEN,
    DrfPermissionDenied := HTTP_403_FORBIDDEN,
    ObjectDoesNotExist := HTTP_404_NOT_FOUND,
    MultipleObjectsReturned := HTTP_400_BAD_REQUEST,
    ParseError := HTTP_400_BAD_REQUEST,
    AuthenticationFailed := HTTP_401_UNAUTHORIZED,
    NotAuthenticated := HTTP_401_UNAUTHORIZED,
    NotFound := HTTP_404_NOT_FOUND,
    MethodNotAllowed := HTTP_405_METHOD_NOT_ALLOWED,
    NotAcceptable := HTTP_406_NOT_ACCEPTABLE,
    UnsupportedMediaType := HTTP_415_UNSUPPORTED_MEDIA_TYPE,
    Throttled := HTTP_429_TOO_MANY_REQUESTS,
    ValueError := HTTP_400_BAD_REQUEST]

  /** `_get_status_code`: a lookup by the exact class, 500 for any class not in the table. */
  function StatusCode(exc: Exc): (code: int)
    ensures exc.cls !in StatusMap ==> code == HTTP_500_INTERNAL_SERVER_ERROR
    ensures exc.cls in StatusMap ==> code == StatusMap[exc.cls]
  {
    if exc.cls in StatusMap then StatusMap[exc.cls] else HTTP_500_INTERNAL_SERVER_ERROR
  }

  /**
   * The codes a caller sees: 400 for ValueError, 404 for the three
   * not-found classes, 429 for throttling, 500 for an unnamed class even
   * when it inherits from a named one, and only 4xx codes besides 500.
   */
  lemma StatusCodeTable(exc: Exc)
    ensures exc.cls == ValueError ==> StatusCode(exc) == 400
    ensures exc.cls in {Http404, ObjectDoesNotExist, NotFound} ==> StatusCode(exc) == 404
    ensures exc.cls == Throttled ==> StatusCode(exc) == 429
    ensures exc.cls.OtherClass? ==> StatusCode(exc) == 500
    ensures exc.cls in {DjangoValidationError, DrfValidationError} ==> StatusCode(exc) == 500
    ensures StatusCode(exc) == 500 || 400 <= StatusCode(exc) < 500
  {
  }

  /** A key of `default_message_map`: a class, or the tuple of the two permission-denied classes. */
  datatype MessageKey = ClassKey(cls: ExcClass) | PairKey(first: ExcClass, second: ExcClass)

  /** A message, either plain or with one "{0}" field between two texts. */
  datatype Message = Plain(text: string) | WithField(before: string, after: string)

  /** The message as written. */
  function MessageText(m: Message): string {
    match m
    case Plain(t) => t
    case WithField(before, after) => before + "{0}" + after
  }

  /** `message.format(arg)` */
  function Format(m: Message, arg: string): (r: string)
    ensures m.Plain? ==> r == m.text
  {
    match m
    case Plain(t) => t
    case WithField(before, after) => before + arg + after
  }

  const UnexpectedError: string := "An unexpected error occurred."
  const ThrottledMessage: Message := WithField("Request was throttled. Expected available in ", " seconds.")

  /** `default_message_map` */
  const MessageMap: map<MessageKey, Message> := map[
    ClassKey(Http404) := Plain("Page not found. The requested resource was not found."),
    PairKey(DjangoPermissionDenied, DrfPermissionDenied) := Plain("You do not have permission to perform this action."),
    ClassKey(ObjectDoesNotExist) := Plain("The requested resource does not exist."),
    ClassKey(MultipleObjectsReturned) := Plain("Multiple records found. Please contact the administrator."),
    ClassKey(ParseError) := Plain("The request data could not be parsed."),
    ClassKey(AuthenticationFailed) := Plain("Please log in to access this resource."),
    ClassKey(NotAuthenticated) := Plain("You did not provide the necessary credentials."),
    ClassKey(NotFound) := Plain("This resource was not found."),
    ClassKey(MethodNotAllowed) := Plain("This method is not allowed."),
    ClassKey(NotAcceptable) := Plain("The request is not acceptable."),
    ClassKey(UnsupportedMediaType) := Plain("Please provide a valid media type."),
    ClassKey(Throttled) := ThrottledMessage]

  /** `_get_default_message`: looked up with `type(exc)`, the exact class. */
  function DefaultMessage(exc: Exc): (m: Message)
    ensures ClassKey(exc.cls) !in MessageMap ==> m == Plain(UnexpectedError)
    ensures ClassKey(exc.cls) in MessageMap ==> m == MessageMap[ClassKey(exc.cls)]
  {
    var key := ClassKey(exc.cls);
    if key in MessageMap then MessageMap[key] else Plain(UnexpectedError)
  }

  /**
   * The lookup key is a single class, so the tuple entry is never hit: the
   * two permission-denied classes get the generic message.
   */
  lemma PermissionDeniedGetsGenericMessage(exc: Exc)
    requires exc.cls == DjangoPermissionDenied || exc.cls == DrfPermissionDenied
    ensures DefaultMessage(exc) == Plain(UnexpectedError)
    ensures StatusCode(exc) == 403
  {
  }

  /** What parsing an HTML detail gave: a title, no title, or an error. */
  datatype HtmlParse = Title(text: string) | NoTitle | ParseFailed

  /** `extract_error_from_html` */
  function ExtractErrorFromHtml(detail: string, parse: HtmlParse): (r: string)
    ensures !Contains(ToLower(detail), "<html>") ==> r == detail
  {
    if Contains(ToLower(detail), "<html>") then
      match parse
      case Title(t) => Strip(t)
      case NoTitle => UnexpectedError
      case ParseFailed => "An unexpected error occurred and could not parse the error detail."
    else detail
  }

  /** The HTML test ignores case: a detail with "<HTML>" is parsed, not returned. */
  lemma HtmlTestIgnoresCase(detail: string, i: nat, parse: HtmlParse)
    requires i + 6 <= |detail| && detail[i..i + 6] == "<HTML>"
    ensures parse.Title? ==> ExtractErrorFromHtml(detail, parse) == Strip(parse.text)
    ensures parse.NoTitle? ==> ExtractErrorFromHtml(detail, parse) == UnexpectedError
    ensures parse.ParseFailed? ==>
      ExtractErrorFromHtml(detail, parse) == "An unexpected error occurred and could not parse the error detail."
  {
    var low := ToLower(detail);
    forall k | 0 <= k < 6
      ensures low[i..i + 6][k] == "<html>"[k]
    {
      assert detail[i + k] == detail[i..i + 6][k];
    }
    assert OccursAt(low, "<html>", i);
  }

  /** `_get_errors`: throttling, then ValueError, then the not-found classes, then the HTML extraction. */
  function Errors(exc: Exc, defaultMessage: Message, parse: HtmlParse): (r: seq<string>)
    ensures |r| == 1
    ensures IsInstance(exc, Throttled) ==> r == [Format(defaultMessage, exc.wait)]
    ensures !IsInstance(exc, Throttled) && IsInstance(exc, ValueError) ==> r == [exc.text]
    ensures (!IsInstance(exc, Throttled) && !IsInstance(exc, ValueError)
             && (IsInstance(exc, Http404) || IsInstance(exc, ObjectDoesNotExist)))
      ==> r == [MessageText(defaultMessage)]
    ensures (!IsInstance(exc, Throttled) && !IsInstance(exc, ValueError)
             && !IsInstance(exc, Http404) && !IsInstance(exc, ObjectDoesNotExist))
      ==> r == (if exc.isException then [ExtractErrorFromHtml(exc.text, parse)] else [MessageText(defaultMessage)])
  {
    if IsInstance(exc, Throttled) then [Format(defaultMessage, exc.wait)]
    else if IsInstance(exc, ValueError) then [exc.text]
    else if IsInstance(exc, Http404) || IsInstance(exc, ObjectDoesNotExist) then [MessageText(defaultMessage)]
    else if exc.isException then [ExtractErrorFromHtml(exc.text, parse)]
    else [MessageText(defaultMessage)]
  }

  /** The body of an error response; `message` is None when the body has no such key. */
  datatype Body = Body(status: bool, message: Option<string>, errors: seq<string>, statusCode: int)

  /** A response: the HTTP status and the body. */
  datatype Reply = Reply(httpStatus: int, body: Body)

  /** `response.data` as DRF left it, every value already passed through `str`. */
  datatype Data = DictData(values: seq<string>) | ListData(items: seq<string>) | OtherData(text: string)

  /** `_extract_errors_from_response` */
  function ExtractErrors(data: Data): (r: seq<string>)
    ensures data.DictData? ==> r == data.values
    ensures data.ListData? ==> r == data.items
    ensures data.OtherData? ==> r == [data.text]
  {
    match data
    case DictData(values) => values
    case ListData(items) => items
    case OtherData(text) => [text]
  }

  /** `_handle_drf_exception`: DRF's status code is kept, the body rewritten. */
  function HandleDrfException(exc: Exc, data: Data, statusCode: int): (r: Reply)
    ensures !r.body.status && r.body.message.Some? && r.httpStatus == statusCode == r.body.statusCode
    ensures r.body.message.value == "Validation error." <==>
      IsInstance(exc, DjangoValidationError) || IsInstance(exc, DrfValidationError)
    ensures r.body.errors == ExtractErrors(data)
  {
    var message := if IsInstance(exc, DjangoValidationError) || IsInstance(exc, DrfValidationError)
      then "Validation error." else "An error occurred while processing your request.";
    Reply(statusCode, Body(false, Some(message), ExtractErrors(data), statusCode))
  }

  /** `_handle_django_exception`: no message key; the status both in the body and on the response. */
  function HandleDjangoException(exc: Exc, parse: HtmlParse): (r: Reply)
    ensures !r.body.status && r.body.message.None?
    ensures r.httpStatus == r.body.statusCode == StatusCode(exc)
    ensures r.body.errors == Errors(exc, DefaultMessage(exc), parse)
  {
    var code := StatusCode(exc);
    Reply(code, Body(false, None, Errors(exc, DefaultMessage(exc), parse), code))
  }

  /** What DRF's `exception_handler` returned: nothing, or a response's data and status code. */
  datatype DrfResult = Unhandled | Handled(data: Data, statusCode: int)

  /** `rest_exception_handler` */
  function RestExceptionHandler(exc: Exc, drf: DrfResult, parse: HtmlParse): (r: Reply)
    ensures !r.body.status
    ensures drf.Unhandled? ==> r == HandleDjangoException(exc, parse)
    ensures drf.Handled? ==> r == HandleDrfException(exc, drf.data, drf.statusCode)
  {
    match drf
    case Unhandled => HandleDjangoException(exc, parse)
    case Handled(data, code) => HandleDrfException(exc, data, code)
  }

  /** On the Django path a throttled exception reports its wait, with status 429. */
  lemma ThrottledReportsWait(exc: Exc, parse: HtmlParse)
    requires exc.cls == Throttled
    ensures HandleDjangoException(exc, parse)
      == Reply(429, Body(false, None, ["Request was throttled. Expected available in " + exc.wait + " seconds."], 429))
  {
  }

  /** A model's `DoesNotExist` reaching the Django path gets 500 with the generic message. */
  lemma DoesNotExistIsGeneric(exc: Exc, parse: HtmlParse)
    requires exc.cls.OtherClass? && exc.bases == {ObjectDoesNotExist}
    ensures HandleDjangoException(exc, parse) == Reply(500, Body(false, None, [UnexpectedError], 500))
  {
  }

  /** Any other exception whose text is not HTML is reported verbatim, with status 500. */
  lemma PlainTextReportedVerbatim(exc: Exc, parse: HtmlParse)
    requires exc.isException && exc.cls.OtherClass? && exc.bases == {} && !Contains(ToLower(exc.text), "<html>")
    ensures HandleDjangoException(exc, parse) == Reply(500, Body(false, None, [exc.text], 500))
  {
  }
}
