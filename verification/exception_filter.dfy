/** The exception filter that runs after every MVC action: when the action
    ended with an exception, it maps the exception to an HTTP response, logs
    server errors, and marks the exception as handled. */
module ExceptionFilter {

  import opened Wrappers
  import opened StatusCodes
  import opened Problems

  /** The exception types the filter distinguishes. `TaskCanceled` is the
      framework's task-cancellation exception (a timed-out or aborted request);
      `Other` is every exception type that none of the filter's arms names. */
  datatype ExceptionKind = TaskCanceled | BadRequest | NotFound | Forbidden | Other

  /** A raised exception: its type, its message and its stack trace, each
      modelled as possibly null. */
  datatype Exception = Exception(
    kind: ExceptionKind,
    message: Option<string>,
    stackTrace: Option<string>)

  /** The action results the filter can set. The first three are the
      framework's body-less results; `ObjectResult` serialises its value with
      an explicit status code. */
  datatype ActionResult =
    | BadRequestResult
    | NotFoundResult
    | ForbidResult
    | ObjectResult(value: ProblemDetails, statusCode: int)

  /** The part of the framework's action-executed context the filter reads or
      writes. */
  datatype ActionExecutedContext = ActionExecutedContext(
    request: Request,
    exception: Option<Exception>,
    result: Option<ActionResult>,
    exceptionHandled: bool)

  /** One error-level log entry: the exception and the two structured fields
      of the message, the status code and the request. */
  datatype LogEvent = LogError(exception: Exception, statusCode: int, request: string)

  /** What one call of the filter leaves behind: the updated context and the
      log entry it wrote, if any. */
  datatype FilterOutcome = FilterOutcome(context: ActionExecutedContext, log: Option<LogEvent>)

  /** The status code and title chosen for an exception. */
  datatype Mapping = Mapping(statusCode: int, title: string)

  /** The 32-bit signed integers of the filter's `Order` property. */
  newtype Int32 = x: int | -0x8000_0000 <= x < 0x8000_0000

  const Int32MaxValue: Int32 := 0x7FFF_FFFF

  /** The filter's position among ordered filters: ten below the largest
      order, so that it sits innermost among the filters of the application. */
  const Order: Int32 := Int32MaxValue - 10

  /** The statuses the filter can produce. */
  const MappedStatuses: set<int> :=
    {Status400BadRequest, Status403Forbidden, Status404NotFound,
     Status500InternalServerError, Status504GatewayTimeout}

  /** The kinds whose exception message, when present, becomes the title and
      which get a body-less result. */
  predicate IsClientKind(k: ExceptionKind)
  {
    k.BadRequest? || k.NotFound? || k.Forbidden?
  }

  /** Classifies an exception into its status code and title. The three client
      kinds take their title from the message, falling back to the reason
      phrase of their status; a cancelled task is a gateway timeout titled
      with the reason phrase of 408; everything else is an internal server
      error. */
  function MapException(e: Exception): (m: Mapping)
    ensures m.statusCode in MappedStatuses
    ensures IsClientKind(e.kind) ==> IsClientError(m.statusCode)
    ensures !IsClientKind(e.kind) ==> IsServerError(m.statusCode)
    ensures IsClientKind(e.kind) && e.message.Some? ==> m.title == e.message.value
    ensures IsClientKind(e.kind) && e.message.None? ==> Some(m.title) == ReasonPhrase(m.statusCode)
    ensures e.kind.Other? ==> Some(m.title) == ReasonPhrase(m.statusCode)
    ensures e.kind.TaskCanceled? ==>
      m.statusCode == Status504GatewayTimeout && Some(m.title) == ReasonPhrase(Status408RequestTimeout)
  {
    match e.kind
    case TaskCanceled => Mapping(Status504GatewayTimeout, "Request Timeout")
    case BadRequest => Mapping(Status400BadRequest, e.message.GetOr("Bad Request"))
    case NotFound => Mapping(Status404NotFound, e.message.GetOr("Not Found"))
    case Forbidden => Mapping(Status403Forbidden, e.message.GetOr("Forbidden"))
    case Other => Mapping(Status500InternalServerError, "Internal Server Error")
  }

  /** The exception kind a mapped status code stands for. */
  function KindOfStatus(code: int): Option<ExceptionKind>
  {
    if code == Status504GatewayTimeout then Some(TaskCanceled)
    else if code == Status400BadRequest then Some(BadRequest)
    else if code == Status404NotFound then Some(NotFound)
    else if code == Status403Forbidden then Some(Forbidden)
    else if code == Status500InternalServerError then Some(Other)
    else None
  }

  /** The status code alone identifies the kind of the exception. */
  lemma StatusIdentifiesKind(e: Exception)
    ensures KindOfStatus(MapException(e).statusCode) == Some(e.kind)
  {
  }

  /** Two exceptions get the same status exactly when they are of the same kind. */
  lemma SameStatusIffSameKind(e1: Exception, e2: Exception)
    ensures MapException(e1).statusCode == MapException(e2).statusCode <==> e1.kind == e2.kind
  {
    StatusIdentifiesKind(e1);
    StatusIdentifiesKind(e2);
  }

  /** The status and title do not depend on the stack trace, and for the
      timeout and catch-all kinds not on the message either. */
  lemma MappingIgnoresIrrelevantFields(e1: Exception, e2: Exception)
    requires e1.kind == e2.kind
    ensures MapException(e1).statusCode == MapException(e2).statusCode
    ensures IsClientKind(e1.kind) && e1.message == e2.message ==> MapException(e1) == MapException(e2)
    ensures !IsClientKind(e1.kind) ==> MapException(e1) == MapException(e2)
  {
  }

  /** Every status of `MappedStatuses` is produced by some exception, and no
      other status is: the filter's range is exactly that set. */
  lemma {:induction false} MappedStatusesAreTheRange(code: int)
    ensures code in MappedStatuses <==> exists e :: MapException(e).statusCode == code
  {
    if code in MappedStatuses {
      var e := Exception(KindOfStatus(code).value, None, None);
      assert MapException(e).statusCode == code;
    }
  }

  /** An order is larger than the filter's exactly when it is one of the ten
      32-bit values above it; `int.MaxValue - 10` does not overflow. */
  lemma OrderIsTenBelowMaximum(o: Int32)
    ensures Order < o <==> (Int32MaxValue as int) - (o as int) < 10
    ensures Order > 0
  {
  }

  /** The problem-details record for an exception raised while serving `req`:
      the mapped status and title, the request as `instance`, and the stack
      trace as `detail` only outside production. */
  function BuildProblemDetails(e: Exception, req: Request, isProduction: bool): (pd: ProblemDetails)
    ensures pd.status == MapException(e).statusCode
    ensures pd.title == MapException(e).title
    ensures pd.instance == FormatInstance(req)
    ensures HasNoSpace(req.httpMethod) ==> ParseInstance(pd.instance) == Some(req)
    ensures isProduction ==> pd.detail.None?
    ensures !isProduction ==> pd.detail == e.stackTrace
  {
    ParseFormatInstance(req);
    var m := MapException(e);
    ProblemDetails(m.statusCode, m.title, FormatInstance(req),
                   if isProduction then None else e.stackTrace)
  }

  /** Chooses the response shape: the body-less framework result for the three
      client kinds, and the problem details with their own status for every
      other kind, the timeout included. */
  function GetActionResult(e: Exception, pd: ProblemDetails): (r: ActionResult)
    ensures r.ObjectResult? <==> !IsClientKind(e.kind)
    ensures r.ObjectResult? ==> r.value == pd && r.statusCode == pd.status
    ensures e.kind.BadRequest? ==> r.BadRequestResult?
    ensures e.kind.NotFound? ==> r.NotFoundResult?
    ensures e.kind.Forbidden? ==> r.ForbidResult?
  {
    match e.kind
    case BadRequest => BadRequestResult
    case NotFound => NotFoundResult
    case Forbidden => ForbidResult
    case _ => ObjectResult(pd, pd.status)
  }

  /** The status code a result puts on the response. The body-less results
      carry their fixed code. For `ForbidResult` the code is an assumption:
      the framework asks the authentication scheme to forbid the request, and
      403 is what a scheme that answers with a status sends. */
  function ResponseStatus(r: ActionResult): (code: int)
    ensures !r.ObjectResult? ==>
      KindOfStatus(code).Some? && IsClientKind(KindOfStatus(code).value) && IsClientError(code)
    ensures r.ObjectResult? ==> code == r.statusCode
  {
    match r
    case BadRequestResult => Status400BadRequest
    case NotFoundResult => Status404NotFound
    case ForbidResult => Status403Forbidden
    case ObjectResult(_, code) => code
  }

  /** Whether the exception on a context still propagates past the filters. */
  predicate Escapes(ctx: ActionExecutedContext)
  {
    ctx.exception.Some? && !ctx.exceptionHandled
  }

  /** The filter's action-executed hook. Without an exception it changes
      nothing. With one it sets the mapped result, marks the exception as
      handled, and emits an error log entry exactly when the status is 500. */
  function OnActionExecuted(ctx: ActionExecutedContext, isProduction: bool): (out: FilterOutcome)
    ensures ctx.exception.None? ==> out.context == ctx && out.log.None?
    ensures ctx.exception.Some? ==>
      && out.context.exceptionHandled
      && out.context.result.Some?
      && out.context.request == ctx.request
      && out.context.exception == ctx.exception
    ensures ctx.exception.Some? ==>
      (out.context.result.Some? && out.context.result.value.ObjectResult? <==> !IsClientKind(ctx.exception.value.kind))
    ensures ctx.exception.Some? && ctx.exception.value.kind.BadRequest? ==>
      out.context.result == Some(BadRequestResult)
    ensures ctx.exception.Some? && ctx.exception.value.kind.NotFound? ==>
      out.context.result == Some(NotFoundResult)
    ensures ctx.exception.Some? && ctx.exception.value.kind.Forbidden? ==>
      out.context.result == Some(ForbidResult)
    ensures ctx.exception.Some? && out.context.result.Some? && out.context.result.value.ObjectResult? ==>
      && out.context.result.value.statusCode == MapException(ctx.exception.value).statusCode
      && out.context.result.value.value.status == out.context.result.value.statusCode
    ensures out.log.Some? <==>
      ctx.exception.Some? && MapException(ctx.exception.value).statusCode == Status500InternalServerError
    ensures out.log.Some? ==>
      && out.log.value.exception == ctx.exception.value
      && out.log.value.statusCode == Status500InternalServerError
      && out.log.value.request == FormatInstance(ctx.request)
  {
    match ctx.exception
    case None => FilterOutcome(ctx, None)
    case Some(e) =>
      var pd := BuildProblemDetails(e, ctx.request, isProduction);
      var ctx' := ctx.(result := Some(GetActionResult(e, pd)), exceptionHandled := true);
      var log := if pd.status == Status500InternalServerError
                 then Some(LogError(e, pd.status, pd.instance))
                 else None;
      FilterOutcome(ctx', log)
  }

  /** After the filter, no exception escapes, whatever its kind. */
  lemma NoExceptionEscapes(ctx: ActionExecutedContext, isProduction: bool)
    ensures !Escapes(OnActionExecuted(ctx, isProduction).context)
  {
  }

  /** The response the filter sets carries the mapped status. The three
      client kinds get their body-less result; every other kind gets an object
      result whose body is the problem details, with the mapped status both on
      the result and in the body, the request as `instance`, the mapped title,
      and the stack trace as `detail` exactly outside production. */
  lemma ResponseAgreesWithMapping(ctx: ActionExecutedContext, isProduction: bool)
    requires ctx.exception.Some?
    ensures OnActionExecuted(ctx, isProduction).context.result.Some?
    ensures ResponseStatus(OnActionExecuted(ctx, isProduction).context.result.value)
         == MapException(ctx.exception.value).statusCode
    ensures ctx.exception.value.kind.BadRequest? ==>
      OnActionExecuted(ctx, isProduction).context.result.value.BadRequestResult?
    ensures ctx.exception.value.kind.NotFound? ==>
      OnActionExecuted(ctx, isProduction).context.result.value.NotFoundResult?
    ensures ctx.exception.value.kind.Forbidden? ==>
      OnActionExecuted(ctx, isProduction).context.result.value.ForbidResult?
    ensures OnActionExecuted(ctx, isProduction).context.result.value.ObjectResult?
        <==> !IsClientKind(ctx.exception.value.kind)
    ensures OnActionExecuted(ctx, isProduction).context.result.value.ObjectResult? ==>
      && OnActionExecuted(ctx, isProduction).context.result.value.statusCode
         == MapException(ctx.exception.value).statusCode
      && OnActionExecuted(ctx, isProduction).context.result.value.value.status
         == OnActionExecuted(ctx, isProduction).context.result.value.statusCode
      && OnActionExecuted(ctx, isProduction).context.result.value.value.instance == FormatInstance(ctx.request)
      && OnActionExecuted(ctx, isProduction).context.result.value.value.title == MapException(ctx.exception.value).title
      && OnActionExecuted(ctx, isProduction).context.result.value.value.detail
         == (if isProduction then None else ctx.exception.value.stackTrace)
  {
  }

  /** The title of a timeout is the reason phrase of 408 Request Timeout,
      not that of the 504 Gateway Timeout status it is sent with. */
  lemma TimeoutTitleDiffersFromStatusPhrase(e: Exception)
    requires e.kind.TaskCanceled?
    ensures Some(MapException(e).title) != ReasonPhrase(MapException(e).statusCode)
  {
  }

  /** Running the filter a second time sets the same result again. */
  lemma OnActionExecutedIdempotent(ctx: ActionExecutedContext, isProduction: bool)
    ensures OnActionExecuted(OnActionExecuted(ctx, isProduction).context, isProduction)
         == OnActionExecuted(ctx, isProduction)
  {
  }
}
