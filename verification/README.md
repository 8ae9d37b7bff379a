# Exception-to-HTTP-response filter, modelled in Dafny

The repository is one ASP.NET Core MVC action filter, `HttpResponseExceptionFilter`.
After an action has run, the filter looks at the exception it ended with, if any. It
classifies the exception into one of five kinds and picks a status code and a title.
It builds a problem-details record (`status`, `title`, `instance`, `detail`, the member
names of section 3.1 of RFC 9457). It sets either a body-less result or an object
result carrying that record. It writes an error log entry for status 500 only, and it
marks the exception as handled.

The model is a set of pure functions over immutable records:

- `wrappers.dfy`: `Option`, standing for the nullable references of the source.
- `status_codes.dfy`: the status codes and reason phrases of section 15 of RFC 9110
  (400 in 15.5.1, 403 in 15.5.4, 404 in 15.5.5, 408 in 15.5.9, 500 in 15.6.1, 504 in 15.6.5).
- `problem_details.dfy`: the problem-details record and the `instance` string
  `"<method> <path>"`. Its partner, `ParseInstance`, reads an instance back into the
  method and the path; it is not part of the source and serves only to state
  what the format preserves.
- `exception_filter.dfy`: the exception kinds, the context the filter reads and writes,
  `MapException`, `GetActionResult`, `OnActionExecuted` and the `Order` constant. The
  constant is a 32-bit `Int32` value equal to `Int32MaxValue - 10`. `OnActionExecuted`
  returns the updated context together with the log entry it emitted, if any.

Two details of the code matter here:

- A cancelled task gets an object result with status 504 and the problem details as its
  body. It does not get a body-less result.
- The title falls back to the default only when the message is null (`??`). An empty
  message gives an empty title.

The model also records one observation, without calling it a defect. The timeout title
"Request Timeout" is the reason phrase of 408, while the status sent with it is 504
("Gateway Timeout").

## Model

| member | source | states |
|---|---|---|
| ExceptionFilter.MapException | src/Filters/HttpResponseExceptionFilter.cs:54-65 | every exception gets a status in {400, 403, 404, 500, 504}; client kinds get a 4xx status and the others a 5xx status; a bad-request, not-found or forbidden exception is titled by its message when the message is non-null, otherwise by the RFC 9110 reason phrase of its status; the catch-all is titled with the reason phrase of 500; a cancelled task gets 504 with the 408 reason phrase as title |
| ExceptionFilter.MappedStatusesAreTheRange | src/Filters/HttpResponseExceptionFilter.cs:54-65 | a status is produced by some exception if and only if it is one of 400, 403, 404, 500 and 504 |
| ExceptionFilter.StatusIdentifiesKind | src/Filters/HttpResponseExceptionFilter.cs:54-65 | the mapped status alone gives back the exception kind, through the inverse table `KindOfStatus` |
| ExceptionFilter.SameStatusIffSameKind | src/Filters/HttpResponseExceptionFilter.cs:54-65 | two exceptions get the same status if and only if they are of the same kind |
| ExceptionFilter.MappingIgnoresIrrelevantFields | src/Filters/HttpResponseExceptionFilter.cs:54-65 | the status depends on the kind alone; the title depends on the kind and, for the client kinds only, on the message; the stack trace never matters |
| ExceptionFilter.TimeoutTitleDiffersFromStatusPhrase | src/Filters/HttpResponseExceptionFilter.cs:57 | the title of a timeout is not the RFC 9110 reason phrase of the 504 status it is sent with |
| ExceptionFilter.OrderIsTenBelowMaximum | src/Filters/HttpResponseExceptionFilter.cs:16 | the filter's order is a positive 32-bit value, and exactly the ten 32-bit values above it are larger |
| ExceptionFilter.BuildProblemDetails | src/Filters/HttpResponseExceptionFilter.cs:29-38 | the record carries the mapped status and title; its `instance` is the formatted request, which parses back to the request's method and path when the method has no space; `detail` is absent in production and is the stack trace, possibly null, everywhere else |
| ExceptionFilter.GetActionResult | src/Filters/HttpResponseExceptionFilter.cs:67-77 | bad-request, not-found and forbidden give the matching body-less result; every other kind, the timeout included, gives an object result whose body is the problem details and whose status is their status |
| ExceptionFilter.ResponseStatus | src/Filters/HttpResponseExceptionFilter.cs:73-76 | a body-less result carries the 4xx status of one of the client kinds (for the forbid result, under the assumption that the authentication scheme answers 403); an object result carries its own status code |
| ExceptionFilter.OnActionExecuted | src/Filters/HttpResponseExceptionFilter.cs:20-52 | without an exception the context is unchanged and nothing is logged; with one, the exception is marked handled, the request and exception are kept, bad-request, not-found and forbidden get their body-less result, and every other kind gets an object result whose status and body status are the mapped status; an error entry is logged exactly when the mapped status is 500, carrying the exception, 500 and the `instance` string |
| ExceptionFilter.NoExceptionEscapes | src/Filters/HttpResponseExceptionFilter.cs:40-51 | after the filter, no exception of any kind is left unhandled |
| ExceptionFilter.ResponseAgreesWithMapping | src/Filters/HttpResponseExceptionFilter.cs:27-40 | the status the response carries equals the mapped status for every kind; the client kinds get their body-less result and exactly the other kinds get an object result, whose status and body status are the mapped status, whose `instance` is the formatted request, whose title is the mapped title, and whose `detail` is the stack trace exactly outside production |
| ExceptionFilter.OnActionExecutedIdempotent | src/Filters/HttpResponseExceptionFilter.cs:20-52 | running the filter again on its own output produces the same context and the same log entry |
| Problems.FormatInstance | src/Filters/HttpResponseExceptionFilter.cs:33 | the instance string is the method, then one space at the position after the method, then the path, and nothing else |
| Problems.FirstSpace | src/Filters/HttpResponseExceptionFilter.cs:33 | finds the first space of a string, or reports that there is none |
| Problems.ParseInstance | src/Filters/HttpResponseExceptionFilter.cs:33 | a string with a space splits into a space-free method and a path that format back to the same string; a string without a space is no instance |
| Problems.SpaceAfterMethod | src/Filters/HttpResponseExceptionFilter.cs:33 | in an instance string whose method contains no space, the first space is the one right after the method |
| Problems.ParseFormatInstance | src/Filters/HttpResponseExceptionFilter.cs:33 | parsing the instance of a request whose method contains no space gives back that method and path |
| Problems.FormatInstanceInjective | src/Filters/HttpResponseExceptionFilter.cs:33 | for methods that contain no space, two requests have the same instance string if and only if they are the same request |

## Left out

- `OnActionExecuting` has an empty body, so there is nothing to model.
- The `Order` property is modelled as the constant `ExceptionFilter.Order`. How the framework orders filters by it is not modelled, because that belongs to the framework.
- `IHostEnvironment.IsProduction()` is an input flag. The comparison of the environment name with "Production" is left out.
- Exception classification is a closed datatype of five kinds. .NET runtime type tests, subclasses of the named exception types, and `OperationCanceledException` (which is not a `TaskCanceledException` and falls to the catch-all) are not modelled.
- The request path is taken as the string the framework's path type renders. Its percent-escaping is not modelled.
- Logging is an optional event in the output. The `ILogger` sink, the log level plumbing and the message template text are left out.
- `ForbidResult` is modelled as a 403 response. In the framework its status depends on the authentication scheme (a cookie scheme redirects, and with no scheme the forbid call throws); that is not modelled.
- Messages are modelled as possibly null. .NET's base exception class replaces a null message with a default text, so the `??` fallbacks to the default titles are reached only by exception types that override the message; which types do so is not modelled.
- The concrete MVC result classes, `HttpContext` and the rest of the action-executed context are replaced by small records.
- `src/MvcOptionsExtensions.cs` only registers the filter with the framework, so it is not part of this model.
