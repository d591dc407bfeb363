/** The parts of ASP.NET Core that the exception-handling middleware touches:
    the header dictionary of a response, the response itself, the logger, and
    the values that stand for exceptions and for the outcome of an awaited task. */
module Http {

  datatype Option<+T> = None | Some(value: T)

  /** An exception instance. One raised by application code downstream is known
      only by its identity; `ArgumentException` is the one the header dictionary
      raises when `Add` meets a key that is already present. */
  datatype Exception = ApplicationException(id: nat) | ArgumentException(paramName: string)

  /** How an awaited task ends: it runs to completion, or it throws. */
  datatype Completion = Completed | Faulted(ex: Exception)

  /** A response header dictionary: header name to its value. */
  type Headers = map<string, string>

  // Header names from Microsoft.Net.Http.Headers.HeaderNames.
  const CacheControl: string := "Cache-Control"
  const Pragma: string := "Pragma"
  const Expires: string := "Expires"
  const ETag: string := "ETag"

  /** Indexer assignment `headers[key] = value`: inserts the key or overwrites its value. */
  function SetHeader(h: Headers, key: string, value: string): (r: Headers)
    ensures key in r && r[key] == value
    ensures forall k :: k != key ==> (k in r <==> k in h) && (k in h ==> r[k] == h[k])
  {
    h[key := value]
  }

  /** `headers.Remove(key)`: drops the key when present, does nothing otherwise. */
  function RemoveHeader(h: Headers, key: string): (r: Headers)
    ensures key !in r
    ensures forall k :: k != key ==> (k in r <==> k in h) && (k in h ==> r[k] == h[k])
  {
    h - {key}
  }

  /** `headers.Add(key, value)`: fails (the dictionary throws) when the key is already
      present; otherwise inserts it. */
  function AddHeader(h: Headers, key: string, value: string): (r: Option<Headers>)
    ensures r.None? <==> key in h
    ensures r.Some? ==> key in r.value && r.value[key] == value && r.value.Keys == h.Keys + {key}
    ensures r.Some? ==> forall k :: k in h ==> r.value[k] == h[k]
  {
    if key in h then None else Some(h[key := value])
  }

  /** A callback registered with `Response.OnStarting`: the middleware's
      cache-clearing delegate, or one registered elsewhere, known by an identifier. */
  datatype Callback = ClearCacheHeadersCallback | ForeignCallback(id: nat)

  /** What can be observed of a response apart from whether it has started. */
  datatype ResponseView = ResponseView(
    statusCode: int,
    headers: Headers,
    body: string,
    onStarting: seq<Callback>)

  /** An in-flight HTTP response. `hasStarted` is set by the host once the headers
      have gone out; the model never sets it. */
  class HttpResponse {
    var hasStarted: bool
    var statusCode: int
    var headers: Headers
    var body: string
    var onStarting: seq<Callback>

    constructor (hasStarted: bool, statusCode: int, headers: Headers, body: string, onStarting: seq<Callback>)
      ensures this.hasStarted == hasStarted
      ensures View() == ResponseView(statusCode, headers, body, onStarting)
    {
      this.hasStarted := hasStarted;
      this.statusCode := statusCode;
      this.headers := headers;
      this.body := body;
      this.onStarting := onStarting;
    }

    function View(): ResponseView
      reads this
    {
      ResponseView(statusCode, headers, body, onStarting)
    }

    /** `Response.Clear()`: a library call whose effect is given as `clear`. */
    method Clear(clear: ResponseView -> ResponseView)
      modifies this
      ensures View() == clear(old(View()))
      ensures hasStarted == old(hasStarted)
    {
      var v := clear(View());
      statusCode, headers, body, onStarting := v.statusCode, v.headers, v.body, v.onStarting;
    }

    /** Assignment to `Response.StatusCode`. */
    method SetStatusCode(code: int)
      modifies this
      ensures View() == old(View()).(statusCode := code)
      ensures hasStarted == old(hasStarted)
    {
      statusCode := code;
    }

    /** `Response.OnStarting(callback, state)`: records the callback, does not run it. */
    method OnStarting(callback: Callback)
      modifies this
      ensures View() == old(View()).(onStarting := old(onStarting) + [callback])
      ensures hasStarted == old(hasStarted)
    {
      onStarting := onStarting + [callback];
    }

    /** `Response.Headers[key] = value`. */
    method SetHeaderValue(key: string, value: string)
      modifies this
      ensures View() == old(View()).(headers := SetHeader(old(headers), key, value))
      ensures hasStarted == old(hasStarted)
    {
      headers := SetHeader(headers, key, value);
    }

    /** `Response.Headers.Remove(key)`. */
    method RemoveHeaderValue(key: string)
      modifies this
      ensures View() == old(View()).(headers := RemoveHeader(old(headers), key))
      ensures hasStarted == old(hasStarted)
    {
      headers := RemoveHeader(headers, key);
    }

    /** `Response.Headers.Add(key, value)`: throws, changing nothing, when the key is present. */
    method AddHeaderValue(key: string, value: string) returns (c: Completion)
      modifies this
      ensures c.Faulted? <==> key in old(headers)
      ensures c.Faulted? ==> c.ex == ArgumentException(key) && View() == old(View())
      ensures c.Completed? ==> View() == old(View()).(headers := old(headers)[key := value])
      ensures hasStarted == old(hasStarted)
    {
      match AddHeader(headers, key, value)
      case None =>
        c := Faulted(ArgumentException(key));
      case Some(h) =>
        headers := h;
        c := Completed;
    }

    /** `Response.WriteAsync(text)`: appends the text to the body. */
    method WriteAsync(text: string)
      modifies this
      ensures View() == old(View()).(body := old(body) + text)
      ensures hasStarted == old(hasStarted)
    {
      body := body + text;
    }
  }

  /** What the logger has been asked to record, as tags. */
  datatype LogEvent = WarningLogged | ExceptionLogged(ex: Exception)

  class Logger {
    var events: seq<LogEvent>

    constructor ()
      ensures events == []
    {
      events := [];
    }

    method LogWarning()
      modifies this
      ensures events == old(events) + [WarningLogged]
    {
      events := events + [WarningLogged];
    }

    method LogException(ex: Exception)
      modifies this
      ensures events == old(events) + [ExceptionLogged(ex)]
    {
      events := events + [ExceptionLogged(ex)];
    }
  }
}
