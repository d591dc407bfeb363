# ABP exception-handling middleware, modelled in Dafny

This project models `AbpExceptionHandlingMiddleware`, the ASP.NET Core middleware
of the ABP framework that sits around the rest of the request pipeline. When the
downstream delegate throws, the middleware does one of three things:

- the response has already started: it logs a warning and re-raises;
- the request's `"_AbpActionInfo"` item is an `AbpActionInfoInHttpContext` whose
  `IsObjectResult` is true: it swallows the exception and wraps it as a
  structured error response;
- otherwise: it re-raises without logging or writing anything.

The wrap path logs the exception and clears the response. It sets the status code
chosen by the status-code finder, registers the cache-clearing callback with
`OnStarting`, adds the `_AbpErrorFormat: true` marker header and writes the
serialised `RemoteServiceErrorResponse` as the body. When the callback runs, it
forces `Cache-Control: no-cache`, `Pragma: no-cache` and `Expires: -1`, and it
removes `ETag`.

Files:

- `http.dfy`, module `Http`: the pieces of ASP.NET Core that the middleware touches.
  - The header dictionary's indexer assignment, `Remove` and `Add`, as functions on `map<string, string>`.
  - `HttpResponse`, a class with fields `hasStarted`, `statusCode`, `headers`, `body` and `onStarting`. Each response operation the middleware calls is a method on it.
  - `Logger`, a class that records the log calls as a trace of tags.
- `exception_handling.dfy`, module `ExceptionHandling`:
  - the ABP values: the action-info item, the error record and its envelope, and the per-request services;
  - `HttpContext`;
  - the branch decision `Decide`;
  - the wrap path as a function of the cleared response, `WrapResponse`;
  - the header update `CacheCleared`;
  - the host step that runs the registered callbacks, `FireOnStarting`;
  - the middleware class, whose methods `Invoke`, `HandleAndWrapException` and `ClearCacheHeaders` follow the source step by step.

Collaborators are parameters with no interpretation:

- the error-info converter, the status-code finder and the JSON serializer are function fields of `RequestServices`;
- the effect of `Response.Clear()` is a function that the middleware receives at construction;
- the outcome of awaiting the downstream delegate is an argument of `Invoke`. Whatever the delegate did to the response is already in the `HttpContext` passed in.

Two points where an account of the middleware's intent differs from the code; the model follows the code:

- One could expect every caught exception to be logged once, on every branch. The code logs only
  the "response has already started" warning on that path and `LogException` on the
  wrap path. The plain re-raise path logs nothing, and `Invoke`'s contract says so.
- The marker header is a fixed name. The code uses
  `AbpHttpConsts.AbpErrorFormat`, which ABP defines as `_AbpErrorFormat`.
  `AbpHttpConsts` is not part of this model; the constant is written out here.

## Model

| member | source | states |
|---|---|---|
| `Http.SetHeader` | framework/src/Volo.Abp.AspNetCore.Mvc/Volo/Abp/AspNetCore/Mvc/ExceptionHandling/AbpExceptionHandlingMiddleware.cs:84-86 | indexer assignment gives the key the new value and leaves every other key as it was |
| `Http.RemoveHeader` | framework/src/Volo.Abp.AspNetCore.Mvc/Volo/Abp/AspNetCore/Mvc/ExceptionHandling/AbpExceptionHandlingMiddleware.cs:87 | after `Remove` the key is absent; every other key is kept |
| `Http.AddHeader` | framework/src/Volo.Abp.AspNetCore.Mvc/Volo/Abp/AspNetCore/Mvc/ExceptionHandling/AbpExceptionHandlingMiddleware.cs:69 | `Add` fails exactly when the key is already present; otherwise it adds exactly that key with that value and keeps the other entries |
| `Http.HttpResponse.Clear` | framework/src/Volo.Abp.AspNetCore.Mvc/Volo/Abp/AspNetCore/Mvc/ExceptionHandling/AbpExceptionHandlingMiddleware.cs:66 | the response becomes the given abstract clearing function applied to its old view; `hasStarted` is unchanged |
| `Http.HttpResponse.SetStatusCode` | framework/src/Volo.Abp.AspNetCore.Mvc/Volo/Abp/AspNetCore/Mvc/ExceptionHandling/AbpExceptionHandlingMiddleware.cs:67 | only the status code changes |
| `Http.HttpResponse.OnStarting` | framework/src/Volo.Abp.AspNetCore.Mvc/Volo/Abp/AspNetCore/Mvc/ExceptionHandling/AbpExceptionHandlingMiddleware.cs:68 | the callback is appended to the registered list and not run: headers, status and body are unchanged |
| `Http.HttpResponse.AddHeaderValue` | framework/src/Volo.Abp.AspNetCore.Mvc/Volo/Abp/AspNetCore/Mvc/ExceptionHandling/AbpExceptionHandlingMiddleware.cs:69 | throws `ArgumentException` and changes nothing when the key exists; otherwise adds the header and changes nothing else |
| `Http.HttpResponse.WriteAsync` | framework/src/Volo.Abp.AspNetCore.Mvc/Volo/Abp/AspNetCore/Mvc/ExceptionHandling/AbpExceptionHandlingMiddleware.cs:71-77 | only the body changes, by appending the text |
| `Http.HttpResponse.SetHeaderValue` | framework/src/Volo.Abp.AspNetCore.Mvc/Volo/Abp/AspNetCore/Mvc/ExceptionHandling/AbpExceptionHandlingMiddleware.cs:84-86 | only the headers change, by indexer assignment |
| `Http.HttpResponse.RemoveHeaderValue` | framework/src/Volo.Abp.AspNetCore.Mvc/Volo/Abp/AspNetCore/Mvc/ExceptionHandling/AbpExceptionHandlingMiddleware.cs:87 | only the headers change, by removing the key |
| `Http.Logger.LogWarning` | framework/src/Volo.Abp.AspNetCore.Mvc/Volo/Abp/AspNetCore/Mvc/ExceptionHandling/AbpExceptionHandlingMiddleware.cs:41 | exactly one warning is appended to the log trace |
| `Http.Logger.LogException` | framework/src/Volo.Abp.AspNetCore.Mvc/Volo/Abp/AspNetCore/Mvc/ExceptionHandling/AbpExceptionHandlingMiddleware.cs:60 | exactly one exception record, for that exception, is appended to the log trace |
| `ExceptionHandling.LookupItem` | framework/src/Volo.Abp.AspNetCore.Mvc/Volo/Abp/AspNetCore/Mvc/ExceptionHandling/AbpExceptionHandlingMiddleware.cs:45 | `Items[key]` yields the stored value when the key is present and null otherwise |
| `ExceptionHandling.Decide` | framework/src/Volo.Abp.AspNetCore.Mvc/Volo/Abp/AspNetCore/Mvc/ExceptionHandling/AbpExceptionHandlingMiddleware.cs:30-56 | pass-through exactly when the delegate completed. A caught exception is the one carried by every other outcome. Warning-and-rethrow exactly when the response has started. Wrap exactly when it has not started and the item is action info with `IsObjectResult` true |
| `ExceptionHandling.RethrowWhenNotObjectResult` | framework/src/Volo.Abp.AspNetCore.Mvc/Volo/Abp/AspNetCore/Mvc/ExceptionHandling/AbpExceptionHandlingMiddleware.cs:45-54 | a not-started response re-raises the same exception in each case: the item is missing, is of another type, or has `IsObjectResult` false |
| `ExceptionHandling.WrapResponse` | framework/src/Volo.Abp.AspNetCore.Mvc/Volo/Abp/AspNetCore/Mvc/ExceptionHandling/AbpExceptionHandlingMiddleware.cs:66-77 | after clearing: the status is the finder's code for the exception, and the cache-clearing callback is appended once to the cleared callbacks. The wrap completes exactly when the marker header was absent. Then the marker is `"true"` and the body is the cleared body followed by the serialised envelope of the converted exception. Otherwise `Add` throws and headers and body stay as cleared |
| `ExceptionHandling.WrapLeavesCacheHeaders` | framework/src/Volo.Abp.AspNetCore.Mvc/Volo/Abp/AspNetCore/Mvc/ExceptionHandling/AbpExceptionHandlingMiddleware.cs:67-77 | the wrap itself does not touch Cache-Control, Pragma, Expires or ETag |
| `ExceptionHandling.CacheCleared` | framework/src/Volo.Abp.AspNetCore.Mvc/Volo/Abp/AspNetCore/Mvc/ExceptionHandling/AbpExceptionHandlingMiddleware.cs:84-87 | Cache-Control and Pragma are `no-cache`, Expires is `-1`, ETag is absent; every other header key is present exactly when it was before, with its old value |
| `ExceptionHandling.CacheClearedIdempotent` | framework/src/Volo.Abp.AspNetCore.Mvc/Volo/Abp/AspNetCore/Mvc/ExceptionHandling/AbpExceptionHandlingMiddleware.cs:84-87 | applying the header update twice gives the same dictionary as applying it once |
| `ExceptionHandling.FireOnlyCacheClearing` | framework/src/Volo.Abp.AspNetCore.Mvc/Volo/Abp/AspNetCore/Mvc/ExceptionHandling/AbpExceptionHandlingMiddleware.cs:80-90 | running any non-empty list of cache-clearing callbacks gives the same headers as running one |
| `ExceptionHandling.WrapThenFire` | framework/src/Volo.Abp.AspNetCore.Mvc/Volo/Abp/AspNetCore/Mvc/ExceptionHandling/AbpExceptionHandlingMiddleware.cs:68 | when the host starts a wrapped response, the cache-clearing callback runs first on the staged headers, then the callbacks registered before the wrap |
| `ExceptionHandling.WrappedHeadersOnTheWire` | framework/src/Volo.Abp.AspNetCore.Mvc/Volo/Abp/AspNetCore/Mvc/ExceptionHandling/AbpExceptionHandlingMiddleware.cs:66-87 | with no other callbacks, a successfully wrapped response goes out with the marker `"true"`, the three no-cache headers and no ETag, and keeps every other cleared header |
| `ExceptionHandling.AbpExceptionHandlingMiddleware.constructor` | framework/src/Volo.Abp.AspNetCore.Mvc/Volo/Abp/AspNetCore/Mvc/ExceptionHandling/AbpExceptionHandlingMiddleware.cs:22-28 | keeps the logger; the delegate field is the cache-clearing callback |
| `ExceptionHandling.AbpExceptionHandlingMiddleware.Invoke` | framework/src/Volo.Abp.AspNetCore.Mvc/Volo/Abp/AspNetCore/Mvc/ExceptionHandling/AbpExceptionHandlingMiddleware.cs:30-56 | per `Decide`'s outcome. Pass-through: completes, response unchanged, nothing logged. Started: the same exception is re-raised, response unchanged, one warning logged. Not eligible: re-raised, response unchanged, nothing logged. Wrap: the response is `WrapResponse` of the cleared response, the exception is logged exactly once, and it is not re-raised |
| `ExceptionHandling.AbpExceptionHandlingMiddleware.HandleAndWrapException` | framework/src/Volo.Abp.AspNetCore.Mvc/Volo/Abp/AspNetCore/Mvc/ExceptionHandling/AbpExceptionHandlingMiddleware.cs:58-78 | the response ends as `WrapResponse` of the cleared old response and the result is its completion; one `LogException` entry is logged |
| `ExceptionHandling.AbpExceptionHandlingMiddleware.ClearCacheHeaders` | framework/src/Volo.Abp.AspNetCore.Mvc/Volo/Abp/AspNetCore/Mvc/ExceptionHandling/AbpExceptionHandlingMiddleware.cs:80-90 | the response's headers become `CacheCleared` of the old headers; status, body, callbacks and `hasStarted` are unchanged |

## Left out

- `BloggingDomainModule.cs`, `DocsHttpApiModule.cs` and `AutofacTestModule.cs`: dependency-injection module declarations with no behaviour.
- The bodies of `IExceptionToErrorInfoConverter.Convert`, `IHttpExceptionStatusCodeFinder.GetStatusCode` and `IJsonSerializer.Serialize`: they are not part of this model, so they are uninterpreted function parameters. No status-code mapping or error-record content rule is modelled.
- `GetRequiredService` failing for an unregistered service: every service is assumed to be registered.
- What `Response.Clear()` does, and its throwing on a started response: it is a library call that is not part of this model, so it is an abstract function on the response view. The wrap can run only when the response has not started, so this throw cannot arise on that path.
- `async`/`await` and `Task`: the flow is sequential. The downstream delegate is represented only by how it ended.
- The transport and when it flushes. ASP.NET Core runs the `OnStarting` callbacks, last registered first, when the response starts, which is usually on the first body write. `FireOnStarting` is that host step, kept apart from the middleware's own steps.
- The rule that headers and status become read-only once the response has started: the model never changes `hasStarted`.
- Case-insensitive header names and multi-valued `StringValues`: header names are compared exactly and each header holds one string.
- Text encoding of the body: the body is a sequence of characters.
- The `(int)` cast of the `HttpStatusCode` enum: the finder returns an `int` directly.
- Logger message text and levels: the log is a trace of tags, a warning or an exception record.
- Concurrent requests: each request is modelled on its own.
