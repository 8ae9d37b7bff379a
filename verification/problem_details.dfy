/** The problem-details record the filter builds (member names of section 3.1
    of RFC 9457) and the `instance` string that identifies the failed request. */
module Problems {

  import opened Wrappers

  /** A problem-details object. `detail` is absent unless the filter fills it. */
  datatype ProblemDetails = ProblemDetails(
    status: int,
    title: string,
    instance: string,
    detail: Option<string>)

  /** The request line parts the filter reads: the HTTP method and the request
      path in the form the framework renders it. */
  datatype Request = Request(httpMethod: string, path: string)

  /** Whether a method contains no space. An HTTP method is a token
      (section 9.1 of RFC 9110), so every well-formed method has none. */
  predicate HasNoSpace(httpMethod: string)
  {
    ' ' !in httpMethod
  }

  /** The `instance` member: the method, one space, then the path. */
  function FormatInstance(req: Request): (s: string)
    ensures |s| == |req.httpMethod| + 1 + |req.path|
    ensures s[..|req.httpMethod|] == req.httpMethod
    ensures s[|req.httpMethod|] == ' '
    ensures s[|req.httpMethod| + 1..] == req.path
  {
    req.httpMethod + " " + req.path
  }

  /** The position of the first space in `s`, or `|s|` when there is none. */
  function FirstSpace(s: string): (i: nat)
    ensures i <= |s| && ' ' !in s[..i]
    ensures i < |s| ==> s[i] == ' '
  {
    if |s| == 0 || s[0] == ' ' then 0
    else 1 + FirstSpace(s[1..])
  }

  /** Reads an `instance` string back into the request it names: the method is
      everything before the first space, the path everything after it. */
  function ParseInstance(s: string): (r: Option<Request>)
    ensures r.None? <==> ' ' !in s
    ensures r.Some? ==> HasNoSpace(r.value.httpMethod) && FormatInstance(r.value) == s
  {
    var i := FirstSpace(s);
    if i == |s| then
      assert s[..i] == s;
      None
    else
      assert s == s[..i] + " " + s[i + 1..];
      Some(Request(s[..i], s[i + 1..]))
  }

  /** The first space of an `instance` string is the one after the method. */
  lemma {:induction false} SpaceAfterMethod(req: Request)
    requires HasNoSpace(req.httpMethod)
    ensures FirstSpace(FormatInstance(req)) == |req.httpMethod|
  {
    var s := FormatInstance(req);
    assert s[|req.httpMethod|] == ' ';
  }

  /** `instance` loses nothing: parsing it gives back the method and the path. */
  lemma {:induction false} ParseFormatInstance(req: Request)
    ensures HasNoSpace(req.httpMethod) ==> ParseInstance(FormatInstance(req)) == Some(req)
  {
    if HasNoSpace(req.httpMethod) {
      SpaceAfterMethod(req);
    }
  }

  /** Two requests with the same `instance` string are the same request. */
  lemma FormatInstanceInjective(a: Request, b: Request)
    requires HasNoSpace(a.httpMethod) && HasNoSpace(b.httpMethod)
    ensures FormatInstance(a) == FormatInstance(b) <==> a == b
  {
    if FormatInstance(a) == FormatInstance(b) {
      ParseFormatInstance(a);
      ParseFormatInstance(b);
    }
  }
}
