/**
 * The response selection of the web toolkit's `Handler.__call__`: the outcome of the
 * application's `process` hook picks an error response, or the ETag comparison and the request
 * method pick between "not modified", an empty body and the application's own rendering; the
 * chosen response then gets its `ETag` header written in place.
 *
 * The hooks `process`, `etag` and `render` belong to the application: their results are
 * parameters here.
 */
module Brbn {
  import opened Wrappers
  import opened Dicts

  /** How `await self.process(request)` ended. */
  datatype Processed =
    | Returned
    | RaisedRedirect(location: string)
    | RaisedJsonDecode(message: string)
    | Raised(message: string)

  /** The response `__call__` settles on before any header is written. */
  datatype Choice =
    | RedirectTo(location: string)
    | BadJson(message: string)
    | ServerError(message: string)
    | NotModified
    | EmptyBody
    | Render

  /**
   * `assert response is not None` failing after `render`, and the `TypeError` of awaiting an
   * object that cannot be awaited.
   */
  datatype Error = AssertionError | TypeError

  /** The status starlette gives a `Response` and a `RedirectResponse` when none is passed. */
  const DefaultStatus := 200
  const RedirectStatus := 307

  /**
   * `f'"{self.etag(request, obj)}"'`: the hook's text in double quotes, and `"None"` in quotes
   * when the hook returns nothing. The result is a string, so it is never `None`.
   */
  function ServerEtag(etag: Option<string>): (s: string)
    ensures |s| >= 2 && s[0] == '"' && s[|s| - 1] == '"'
    ensures s[1..|s| - 1] == if etag.Some? then etag.value else "None"
  {
    var text := if etag.Some? then etag.value else "None";
    "\"" + text + "\""
  }

  /**
   * The `except` clauses, in order, then the `if`/`elif`/`else` chain: a matching
   * `If-None-Match` wins over the method, and only a request that is not `HEAD` is rendered.
   */
  function Choose(processed: Processed, etag: Option<string>, clientEtag: Option<string>, requestMethod: string): (c: Choice)
    ensures processed.RaisedRedirect? <==> c.RedirectTo?
    ensures processed.RaisedJsonDecode? <==> c.BadJson?
    ensures processed.Raised? <==> c.ServerError?
    ensures c.RedirectTo? ==> c.location == processed.location
    ensures c.BadJson? || c.ServerError? ==> c.message == processed.message
    ensures c == NotModified <==> processed.Returned? && clientEtag == Some(ServerEtag(etag))
    ensures c == EmptyBody <==> processed.Returned? && clientEtag != Some(ServerEtag(etag)) && requestMethod == "HEAD"
    ensures c == Render <==> processed.Returned? && clientEtag != Some(ServerEtag(etag)) && requestMethod != "HEAD"
  {
    match processed
    case RaisedRedirect(location) => RedirectTo(location)
    case RaisedJsonDecode(message) => BadJson(message)
    case Raised(message) => ServerError(message)
    case Returned =>
      var serverEtag := ServerEtag(etag);
      if clientEtag == Some(serverEtag) then NotModified
      else if requestMethod == "HEAD" then EmptyBody
      else Render
  }

  /** Whether the chosen response carries the `ETag` header: every response past `process`. */
  predicate TaggedChoice(c: Choice)
  {
    c == NotModified || c == EmptyBody || c == Render
  }

  /** The bodies of the plain-text responses. */
  function NotModifiedText(): string { "Not modified\n" }
  function ServerErrorText(message: string): string { "Internal server error: " + message + "\n" }
  function BadJsonText(message: string): string { "Bad request: Failure decoding JSON: " + message + "\n" }

  /** A response: its status, its body and the header map `__call__` writes to. */
  class Response {
    var status: int
    var body: string
    var headers: Dict<string>

    constructor (status: int, body: string, headers: Dict<string>)
      ensures this.status == status && this.body == body && this.headers == headers
    {
      this.status := status;
      this.body := body;
      this.headers := headers;
    }

    /** `response.headers[name] = value`. */
    method SetHeader(name: string, value: string)
      modifies this
      ensures headers == Put(old(headers), name, value)
      ensures status == old(status) && body == old(body)
    {
      headers := Put(headers, name, value);
    }
  }

  /**
   * `Handler.__call__` up to sending the response: `rendered` is what `render` returns (`null`
   * for `None`); it is used only when the choice is `Render`, and then it is the response that
   * gets the `ETag` header.
   */
  method Call(processed: Processed, etag: Option<string>, clientEtag: Option<string>, requestMethod: string, rendered: Response?)
    returns (r: Result<Response, Error>)
    modifies rendered
    ensures var c := Choose(processed, etag, clientEtag, requestMethod);
      c.RedirectTo? ==> (r.Ok? && fresh(r.value) && r.value.status == RedirectStatus && r.value.body == ""
        && r.value.headers == [("location", c.location)])
    ensures var c := Choose(processed, etag, clientEtag, requestMethod);
      c.BadJson? ==> (r.Ok? && fresh(r.value) && r.value.status == 400 && r.value.body == BadJsonText(c.message)
        && r.value.headers == [])
    ensures var c := Choose(processed, etag, clientEtag, requestMethod);
      c.ServerError? ==> (r.Ok? && fresh(r.value) && r.value.status == 500 && r.value.body == ServerErrorText(c.message)
        && r.value.headers == [])
    ensures Choose(processed, etag, clientEtag, requestMethod) == NotModified ==>
      (r.Ok? && fresh(r.value) && r.value.status == 304 && r.value.body == NotModifiedText()
        && r.value.headers == [("ETag", ServerEtag(etag))])
    ensures Choose(processed, etag, clientEtag, requestMethod) == EmptyBody ==>
      (r.Ok? && fresh(r.value) && r.value.status == DefaultStatus && r.value.body == ""
        && r.value.headers == [("ETag", ServerEtag(etag))])
    ensures Choose(processed, etag, clientEtag, requestMethod) == Render && rendered == null ==> r == Err(AssertionError)
    ensures Choose(processed, etag, clientEtag, requestMethod) == Render && rendered != null ==>
      (r == Ok(rendered) && rendered.headers == Put(old(rendered.headers), "ETag", ServerEtag(etag))
        && rendered.status == old(rendered.status) && rendered.body == old(rendered.body))
    ensures Choose(processed, etag, clientEtag, requestMethod) != Render && rendered != null ==> unchanged(rendered)
  {
    match processed {
      case RaisedRedirect(location) =>
        var response := new Response(RedirectStatus, "", [("location", location)]);
        return Ok(response);
      case RaisedJsonDecode(message) =>
        var response := new Response(400, BadJsonText(message), []);
        return Ok(response);
      case Raised(message) =>
        var response := new Response(500, ServerErrorText(message), []);
        return Ok(response);
      case Returned =>
    }
    var serverEtag := ServerEtag(etag);
    var response: Response;
    if clientEtag == Some(serverEtag) {
      response := new Response(304, NotModifiedText(), []);
    } else if requestMethod == "HEAD" {
      response := new Response(DefaultStatus, "", []);
    } else {
      if rendered == null {
        return Err(AssertionError);
      }
      response := rendered;
    }
    response.SetHeader("ETag", serverEtag);
    r := Ok(response);
  }

  /**
   * `__call__` as written: each `except` clause builds its response and then awaits the object
   * instead of calling it with `(receive, send)`.  A starlette response defines no `__await__`,
   * so the `await` raises `TypeError` and nothing is sent.  After a normal return of `process`
   * the choice is the one `Choose` makes.
   */
  function AsWrittenChoice(processed: Processed, etag: Option<string>, clientEtag: Option<string>, requestMethod: string): (r: Result<Choice, Error>)
    ensures r.Err? <==> !processed.Returned?
    ensures r.Err? ==> r.error == TypeError
    ensures r.Ok? ==> TaggedChoice(r.value) && r.value == Choose(processed, etag, clientEtag, requestMethod)
  {
    if processed.Returned? then Ok(Choose(processed, etag, clientEtag, requestMethod)) else Err(TypeError)
  }

  /**
   * As written, no response reaches the client when `process` raises, whereas the corrected
   * `Call` answers a redirect with 307, bad JSON with 400 and any other exception with 500.
   */
  lemma ExceptPathsAsWrittenRaise(processed: Processed, etag: Option<string>, clientEtag: Option<string>, requestMethod: string)
    requires !processed.Returned?
    ensures AsWrittenChoice(processed, etag, clientEtag, requestMethod) == Err(TypeError)
    ensures processed.RaisedRedirect? ==> Choose(processed, etag, clientEtag, requestMethod) == RedirectTo(processed.location)
    ensures processed.RaisedJsonDecode? ==> Choose(processed, etag, clientEtag, requestMethod) == BadJson(processed.message)
    ensures processed.Raised? ==> Choose(processed, etag, clientEtag, requestMethod) == ServerError(processed.message)
  {
  }

  // ---------------------------------------------------------------------------------------------
  // What the selection promises

  /** The ETag test does not look at the method: a match answers 304 to every method alike. */
  lemma NotModifiedAnyMethod(etag: Option<string>, clientEtag: Option<string>, method1: string, method2: string)
    ensures Choose(Returned, etag, clientEtag, method1) == NotModified <==> Choose(Returned, etag, clientEtag, method2) == NotModified
  {
  }

  /** An error in `process` decides the response whatever the ETags and the method are. */
  lemma ErrorsIgnoreRequest(processed: Processed, etag1: Option<string>, etag2: Option<string>,
                            client1: Option<string>, client2: Option<string>, method1: string, method2: string)
    requires !processed.Returned?
    ensures Choose(processed, etag1, client1, method1) == Choose(processed, etag2, client2, method2)
    ensures !TaggedChoice(Choose(processed, etag1, client1, method1))
  {
  }

  /** Two hook results in quotes are equal only when the results are. */
  lemma {:induction false} ServerEtagInjective(a: string, b: string)
    requires ServerEtag(Some(a)) == ServerEtag(Some(b))
    ensures a == b
  {
    var s := ServerEtag(Some(a));
    assert a == s[1..|s| - 1];
  }

  /** A hook that returns nothing and a hook that returns the text `None` give the same ETag. */
  lemma NoneEtagCollides()
    ensures ServerEtag(None) == ServerEtag(Some("None"))
  {
  }

  /** A weak validator `W/"…"` (section 2.3 of RFC 7232) never matches, not even its own tag. */
  lemma WeakNeverMatches(etag: Option<string>, requestMethod: string)
    ensures Choose(Returned, etag, Some("W/" + ServerEtag(etag)), requestMethod) != NotModified
  {
    var s := ServerEtag(etag);
    assert ("W/" + s)[0] == 'W' != s[0];
  }

  /** `If-None-Match: *` never matches: a quoted tag is never the single character `*`. */
  lemma StarNeverMatches(etag: Option<string>, requestMethod: string)
    ensures Choose(Returned, etag, Some("*"), requestMethod) != NotModified
  {
    var s := ServerEtag(etag);
    assert |s| >= 2;
  }

  /** A list of tags that holds the server's tag does not match unless it is that tag alone. */
  lemma ListNeverMatches(etag: Option<string>, other: Option<string>, requestMethod: string)
    ensures Choose(Returned, etag, Some(ServerEtag(etag) + ", " + ServerEtag(other)), requestMethod) != NotModified
  {
    var s, t := ServerEtag(etag), ServerEtag(other);
    assert |s + ", " + t| > |s|;
  }
}
