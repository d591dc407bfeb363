/** ABP's exception-handling middleware: when the rest of the pipeline throws, it
    either lets the exception escape or, for an object-result action whose response
    has not started, replaces the response with a structured error. */
module ExceptionHandling {
  import opened Http

  /** Key of the per-request item that the action-invocation layer leaves behind. */
  const ActionInfoKey: string := "_AbpActionInfo"

  /** Name of the marker header on a wrapped error (AbpHttpConsts.AbpErrorFormat). */
  const AbpErrorFormat: string := "_AbpErrorFormat"

  /** The four headers the cache-clearing callback touches. */
  const CacheHeaderNames: set<string> := {CacheControl, Pragma, Expires, ETag}

  /** A value stored in `HttpContext.Items`: an `AbpActionInfoInHttpContext`, or an
      object of some other type. */
  datatype HttpItem = ActionInfo(isObjectResult: bool) | OtherItem(id: nat)

  /** The public error record and the envelope the serializer receives. Their
      content is decided by the converter, which this model does not interpret. */
  datatype RemoteServiceErrorInfo = RemoteServiceErrorInfo(code: string, message: string, details: string)
  datatype RemoteServiceErrorResponse = RemoteServiceErrorResponse(error: RemoteServiceErrorInfo)

  /** The three services the wrap path resolves from the request's container. They
      belong to one request, so the context argument of `GetStatusCode` is already
      folded into `statusCodeFinder`. */
  datatype RequestServices = RequestServices(
    errorInfoConverter: Exception -> RemoteServiceErrorInfo,
    statusCodeFinder: Exception -> int,
    jsonSerializer: RemoteServiceErrorResponse -> string)

  class HttpContext {
    const response: HttpResponse
    var items: map<string, HttpItem>
    const requestServices: RequestServices

    constructor (response: HttpResponse, items: map<string, HttpItem>, requestServices: RequestServices)
      ensures this.response == response && this.items == items && this.requestServices == requestServices
    {
      this.response := response;
      this.items := items;
      this.requestServices := requestServices;
    }
  }

  /** `httpContext.Items[key]`: the stored value, or null (`None`) for a missing key. */
  function LookupItem(items: map<string, HttpItem>, key: string): (r: Option<HttpItem>)
    ensures r.Some? <==> key in items
    ensures r.Some? ==> r.value == items[key]
  {
    if key in items then Some(items[key]) else None
  }

  /** The four ways `Invoke` can end. */
  datatype Decision =
    | PassThrough
    | RethrowWithWarning(ex: Exception)
    | Rethrow(ex: Exception)
    | Wrap(ex: Exception)

  /** Which branch of `Invoke` runs, given how the downstream call ended, whether
      the response has started, and the request's items. */
  function Decide(next: Completion, hasStarted: bool, items: map<string, HttpItem>): (d: Decision)
    ensures d.PassThrough? <==> next.Completed?
    ensures next.Faulted? ==> !d.PassThrough? && d.ex == next.ex
    ensures d.RethrowWithWarning? <==> next.Faulted? && hasStarted
    ensures d.Wrap? <==> next.Faulted? && !hasStarted && ActionInfoKey in items && items[ActionInfoKey] == ActionInfo(true)
  {
    match next
    case Completed => PassThrough
    case Faulted(ex) =>
      if hasStarted then RethrowWithWarning(ex)
      else
        match LookupItem(items, ActionInfoKey)
        case Some(ActionInfo(isObjectResult)) => if isObjectResult then Wrap(ex) else Rethrow(ex)
        case _ => Rethrow(ex)
  }

  /** A not-started response is left to outer handlers when the action item is
      missing, is not action info, or is not an object result. */
  lemma RethrowWhenNotObjectResult(ex: Exception, items: map<string, HttpItem>)
    requires ActionInfoKey !in items || items[ActionInfoKey].OtherItem? || items[ActionInfoKey] == ActionInfo(false)
    ensures Decide(Faulted(ex), false, items) == Rethrow(ex)
  {
  }

  /** The body a wrapped error carries: the serialised envelope of the converted exception. */
  function ErrorBody(ex: Exception, services: RequestServices): string
  {
    services.jsonSerializer(RemoteServiceErrorResponse(services.errorInfoConverter(ex)))
  }

  /** The wrap path after `Response.Clear()`, as a function of the cleared response:
      the new response and whether the wrap itself threw. */
  function WrapResponse(cleared: ResponseView, ex: Exception, services: RequestServices): (r: (ResponseView, Completion))
    ensures r.0.statusCode == services.statusCodeFinder(ex)
    ensures r.0.onStarting == cleared.onStarting + [ClearCacheHeadersCallback]
    ensures r.1.Completed? <==> AbpErrorFormat !in cleared.headers
    ensures r.1.Completed? ==>
      && r.0.headers == cleared.headers[AbpErrorFormat := "true"]
      && r.0.body == cleared.body + ErrorBody(ex, services)
    ensures r.1.Faulted? ==>
      && r.1.ex == ArgumentException(AbpErrorFormat)
      && r.0.headers == cleared.headers
      && r.0.body == cleared.body
  {
    var staged := cleared.(
      statusCode := services.statusCodeFinder(ex),
      onStarting := cleared.onStarting + [ClearCacheHeadersCallback]);
    match AddHeader(staged.headers, AbpErrorFormat, "true")
    case None => (staged, Faulted(ArgumentException(AbpErrorFormat)))
    case Some(h) => (staged.(headers := h, body := staged.body + ErrorBody(ex, services)), Completed)
  }

  /** Wrapping only registers the cache-clearing callback: the four cache headers
      are exactly as the cleared response had them. */
  lemma WrapLeavesCacheHeaders(cleared: ResponseView, ex: Exception, services: RequestServices)
    ensures forall k :: k in CacheHeaderNames ==>
      var h := WrapResponse(cleared, ex, services).0.headers;
      (k in h <==> k in cleared.headers) && (k in h ==> h[k] == cleared.headers[k])
  {
  }

  /** The effect of `ClearCacheHeaders` on a header dictionary. */
  function CacheCleared(h: Headers): (r: Headers)
    ensures CacheControl in r && r[CacheControl] == "no-cache"
    ensures Pragma in r && r[Pragma] == "no-cache"
    ensures Expires in r && r[Expires] == "-1"
    ensures ETag !in r
    ensures forall k :: k !in CacheHeaderNames ==> (k in r <==> k in h) && (k in h ==> r[k] == h[k])
  {
    var h1 := SetHeader(h, CacheControl, "no-cache");
    var h2 := SetHeader(h1, Pragma, "no-cache");
    var h3 := SetHeader(h2, Expires, "-1");
    RemoveHeader(h3, ETag)
  }

  /** The header update writes and removes keys rather than adding entries, so a
      second run changes nothing. */
  lemma CacheClearedIdempotent(h: Headers)
    ensures CacheCleared(CacheCleared(h)) == CacheCleared(h)
  {
  }

  function RunCallback(callback: Callback, h: Headers, foreign: (nat, Headers) -> Headers): Headers
  {
    match callback
    case ClearCacheHeadersCallback => CacheCleared(h)
    case ForeignCallback(id) => foreign(id, h)
  }

  /** The host's step before the headers go out: it runs the registered callbacks,
      the last registered first, and sends the headers they leave. `foreign` gives
      the effect of callbacks registered elsewhere. */
  function FireOnStarting(callbacks: seq<Callback>, h: Headers, foreign: (nat, Headers) -> Headers): Headers
    decreases |callbacks|
  {
    if callbacks == [] then h
    else FireOnStarting(callbacks[..|callbacks| - 1], RunCallback(callbacks[|callbacks| - 1], h, foreign), foreign)
  }

  /** However many times the cache-clearing callback is registered, running them all
      is the same as running it once. */
  lemma {:induction false} FireOnlyCacheClearing(callbacks: seq<Callback>, h: Headers, foreign: (nat, Headers) -> Headers)
    requires callbacks != []
    requires forall i :: 0 <= i < |callbacks| ==> callbacks[i] == ClearCacheHeadersCallback
    ensures FireOnStarting(callbacks, h, foreign) == CacheCleared(h)
  {
    var init := callbacks[..|callbacks| - 1];
    if init != [] {
      FireOnlyCacheClearing(init, CacheCleared(h), foreign);
      CacheClearedIdempotent(h);
    }
  }

  /** Callbacks registered before the wrap run after the cache-clearing one. */
  lemma WrapThenFire(cleared: ResponseView, ex: Exception, services: RequestServices, foreign: (nat, Headers) -> Headers)
    ensures var w := WrapResponse(cleared, ex, services).0;
      FireOnStarting(w.onStarting, w.headers, foreign) == FireOnStarting(cleared.onStarting, CacheCleared(w.headers), foreign)
  {
    var w := WrapResponse(cleared, ex, services).0;
    assert w.onStarting[..|w.onStarting| - 1] == cleared.onStarting;
  }

  /** When no other callback was registered, a successfully wrapped response goes out
      with the marker header, the no-cache headers, no ETag, and every other header
      of the cleared response. */
  lemma WrappedHeadersOnTheWire(cleared: ResponseView, ex: Exception, services: RequestServices, foreign: (nat, Headers) -> Headers)
    requires cleared.onStarting == []
    requires AbpErrorFormat !in cleared.headers
    ensures var w := WrapResponse(cleared, ex, services).0;
      var sent := FireOnStarting(w.onStarting, w.headers, foreign);
      && AbpErrorFormat in sent && sent[AbpErrorFormat] == "true"
      && CacheControl in sent && sent[CacheControl] == "no-cache"
      && Pragma in sent && sent[Pragma] == "no-cache"
      && Expires in sent && sent[Expires] == "-1"
      && ETag !in sent
      && forall k :: k in cleared.headers && k !in CacheHeaderNames ==> k in sent && sent[k] == cleared.headers[k]
  {
    WrapThenFire(cleared, ex, services, foreign);
  }

  class AbpExceptionHandlingMiddleware {
    const logger: Logger
    /** The effect of the `Response.Clear()` library call. */
    const responseClear: ResponseView -> ResponseView
    const clearCacheHeadersDelegate: Callback := ClearCacheHeadersCallback

    constructor (logger: Logger, responseClear: ResponseView -> ResponseView)
      ensures this.logger == logger && this.responseClear == responseClear
    {
      this.logger := logger;
      this.responseClear := responseClear;
    }

    /** Runs after the downstream delegate has ended with `next`. */
    method Invoke(httpContext: HttpContext, next: Completion) returns (c: Completion)
      modifies httpContext.response, logger
      ensures httpContext.response.hasStarted == old(httpContext.response.hasStarted)
      ensures match Decide(next, old(httpContext.response.hasStarted), httpContext.items)
        case PassThrough =>
          c == Completed && unchanged(httpContext.response) && logger.events == old(logger.events)
        case RethrowWithWarning(ex) =>
          c == Faulted(ex) && unchanged(httpContext.response) && logger.events == old(logger.events) + [WarningLogged]
        case Rethrow(ex) =>
          c == Faulted(ex) && unchanged(httpContext.response) && logger.events == old(logger.events)
        case Wrap(ex) =>
          var w := WrapResponse(responseClear(old(httpContext.response.View())), ex, httpContext.requestServices);
          && httpContext.response.View() == w.0
          && c == w.1
          && logger.events == old(logger.events) + [ExceptionLogged(ex)]
    {
      match next {
        case Completed =>
          return Completed;
        case Faulted(ex) =>
          if httpContext.response.hasStarted {
            logger.LogWarning();
            return Faulted(ex);
          }
          match LookupItem(httpContext.items, ActionInfoKey) {
            case Some(ActionInfo(isObjectResult)) =>
              if isObjectResult {
                c := HandleAndWrapException(httpContext, ex);
                return;
              }
            case _ =>
          }
          return Faulted(ex);
      }
    }

    method HandleAndWrapException(httpContext: HttpContext, exception: Exception) returns (c: Completion)
      modifies httpContext.response, logger
      ensures httpContext.response.hasStarted == old(httpContext.response.hasStarted)
      ensures var w := WrapResponse(responseClear(old(httpContext.response.View())), exception, httpContext.requestServices);
        httpContext.response.View() == w.0 && c == w.1
      ensures logger.events == old(logger.events) + [ExceptionLogged(exception)]
    {
      logger.LogException(exception);

      var services := httpContext.requestServices;
      var response := httpContext.response;

      response.Clear(responseClear);
      response.SetStatusCode(services.statusCodeFinder(exception));
      response.OnStarting(clearCacheHeadersDelegate);
      c := response.AddHeaderValue(AbpErrorFormat, "true");
      if c.Faulted? {
        return;
      }
      response.WriteAsync(ErrorBody(exception, services));
    }

    /** The callback the wrap registers; `state` is the response it was registered on. */
    method ClearCacheHeaders(state: HttpResponse)
      modifies state
      ensures state.View() == old(state.View()).(headers := CacheCleared(old(state.headers)))
      ensures state.hasStarted == old(state.hasStarted)
    {
      state.SetHeaderValue(CacheControl, "no-cache");
      state.SetHeaderValue(Pragma, "no-cache");
      state.SetHeaderValue(Expires, "-1");
      state.RemoveHeaderValue(ETag);
    }
  }
}
