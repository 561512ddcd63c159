/** What the decoder makes of each line, said on the text: request lines taken and rejected, header
    lines of every form, the blank line, and the content.
 */
module HttpVerdicts {
  import opened Options
  import opened Buffers
  import opened HttpRequests
  import opened HttpErrors

  // ---------------------------------------------------------------------------
  // Request lines

  function QueryText(query: Option<string>): string {
    if query.Some? then "?" + query.value else ""
  }

  /** The target is an optional scheme, a host without a slash, a path from the first slash up to
      the first question mark, and the query, if there is one. */
  predicate IsTarget(uri: string, scheme: string, host: string, path: string, query: Option<string>) {
    && uri == scheme + (host + (path + QueryText(query)))
    && (scheme == "http://" || (scheme == "" && !("http://" <= uri)))
    && '/' !in host && path != "" && path[0] == '/' && '?' !in path
  }

  /** A request after its first line. The headers, the length and the content are as they were,
      and without a query in the line so is the query: after a rejected line it can be a stale one. */
  function Begun(req: Request, verb: string, path: string, query: Option<string>, version: string): Request {
    Request(ExpectHeader, MethodOf(verb), verb, path, if query.Some? then query.value else req.query,
            VersionOf(version), version, req.headers, req.contentLength, req.content)
  }

  function MethodOf(verb: string): Method { if verb == "GET" then GET else POST }

  function VersionOf(version: string): Version {
    if version == "HTTP/1.0" || version == "http/1.0" then HTTP10 else HTTP11
  }

  lemma NamesMean(verb: string, version: string)
    requires IsMethod(verb) && IsVersion(version)
    ensures verb in SUPPORTED_METHODS && SUPPORTED_METHODS[verb] == MethodOf(verb)
    ensures version in SUPPORTED_VERSIONS && SUPPORTED_VERSIONS[version] == VersionOf(version)
  {
  }

  lemma SchemeSplits(uri: string) returns (scheme: string)
    ensures uri == scheme + StripScheme(uri) && (scheme == "http://" || (scheme == "" && !("http://" <= uri)))
  {
    scheme := if "http://" <= uri then "http://" else "";
  }

  lemma HostSplits(u: string) returns (host: string, t: string)
    requires '/' in u
    ensures u == host + t && '/' !in host && t != "" && t[0] == '/'
  {
    FindIsFirst(u, '/');
    var i := Find(u, '/').value;
    host, t := u[..i], u[i..];
  }

  /** Every target with a path is of that form. */
  lemma TargetSplits(uri: string) returns (scheme: string, host: string, path: string, query: Option<string>)
    requires HasPath(uri)
    ensures IsTarget(uri, scheme, host, path, query)
  {
    scheme := SchemeSplits(uri);
    assert '/' in StripScheme(uri);
    var t;
    host, t := HostSplits(StripScheme(uri));
    path, query := SplitQuery(t);
    hide StripScheme, QueryText;
  }

  lemma SplitQuery(t: string) returns (path: string, query: Option<string>)
    requires t != "" && t[0] == '/'
    ensures t == path + QueryText(query) && path != "" && path[0] == '/' && '?' !in path
  {
    FindIsFirst(t, '?');
    match Find(t, '?')
    case None =>
      path, query := t, None;
      assert t == path + "";
    case Some(q) =>
      path, query := t[..q], Some(t[q + 1..]);
      assert t == t[..q] + ([t[q]] + t[q + 1..]);
  }

  /** What the split means for the steps of the decoder. */
  lemma TargetTaken(req: Request, uri: string, scheme: string, host: string, path: string, query: Option<string>)
    requires IsTarget(uri, scheme, host, path, query)
    ensures var u := StripScheme(uri);
            && Find(u, '/') == Some(|host|)
            && SetTarget(req, u[|host|..]) == req.(url := path, query := if query.Some? then query.value else req.query)
  {
    var u := StripScheme(uri);
    var t := path + QueryText(query);
    assert u == host + t by {
      assert scheme == "http://" ==> uri[7..] == host + t;
      assert scheme == "" ==> uri == host + t;
    }
    assert t == ['/'] + t[1..];
    assert u == host + ['/'] + t[1..];
    FindAt(host, '/', t[1..]);
    assert u[|host|..] == t;
    QueryTaken(req, path, query);
  }

  lemma QueryTaken(req: Request, path: string, query: Option<string>)
    requires '?' !in path
    ensures SetTarget(req, path + QueryText(query)) == req.(url := path, query := if query.Some? then query.value else req.query)
  {
    var t := path + QueryText(query);
    if query.Some? {
      FindAt(path, '?', query.value);
      assert t == path + ['?'] + query.value;
      assert t[..|path|] == path && t[|path| + 1..] == query.value;
    } else {
      FindIsFirst(t, '?');
      assert t == path;
    }
  }

  lemma WordsTaken(req: Request, line: string, verb: string, uri: string, version: string,
                   scheme: string, host: string, path: string, query: Option<string>)
    requires req.checkstate == ExpectRequestLine
    requires Words(line) == (verb, uri, version) && IsMethod(verb) && IsVersion(version)
    requires IsTarget(uri, scheme, host, path, query)
    ensures ParseLine(req, line) == (NoRequest, Begun(req, verb, path, query, version))
  {
    NamesMean(verb, version);
    hide IsMethod, IsVersion, MethodOf, VersionOf;
    var r1 := req.(verb := verb, methodType := SUPPORTED_METHODS[verb]);
    TargetTaken(r1, uri, scheme, host, path, query);
    hide Words, StripScheme, SetTarget, Find, IsTarget, QueryText;
  }

  /** A good request line is taken with exactly its method, path, query and version. */
  lemma GoodLineIsParsed(req: Request, line: string, s0: string, verb: string, s1: string, uri: string, s2: string, version: string, end: string,
                         scheme: string, host: string, path: string, query: Option<string>, rest: string)
    requires req.checkstate == ExpectRequestLine
    requires NoCrlf(line) && IsRequestLine(line, s0, verb, s1, uri, s2, version, end)
    requires IsTarget(uri, scheme, host, path, query)
    ensures Decode(req, line + CRLF + rest) == Decode(Begun(req, verb, path, query, version), rest)
  {
    GoodLineIsTaken(line, s0, verb, s1, uri, s2, version, end);
    assert IsMethod(verb) && IsVersion(version);
    CrlfAfter(line, rest);
    hide Words, Decode, IsTarget, IsRequestLine, ParseLine, Begun, NoCrlf;
    WordsTaken(req, line, verb, uri, version, scheme, host, path, query);
    LineTaken(req, line + CRLF + rest, |line|);
  }

  /** A request line that is not good is rejected at once: a bad request, with the decoder still
      at its start and the line gone. */
  lemma BadLineIsRejected(req: Request, line: string, rest: string)
    requires req.checkstate == ExpectRequestLine && NoCrlf(line) && !IsGoodLine(line)
    ensures var o := Decode(req, line + CRLF + rest);
            && o.code == BadRequest && o.req.checkstate == ExpectRequestLine && o.rest == rest
            && o.req.headers == req.headers && o.req.contentLength == req.contentLength
            && o.req.content == req.content && o.req.version == req.version
  {
    RequestLineTakenIff(req, line);
    hide IsGoodLine, Words, StripScheme, Find, Decode;
    CrlfAfter(line, rest);
    LineTaken(req, line + CRLF + rest, |line|);
  }

  // ---------------------------------------------------------------------------
  // Header lines

  /** A header line that does not throw: without a colon it is skipped; otherwise the text before
      the first colon names the field, one character is dropped, and the rest is its value. A
      length is the numeral that its value starts with. */
  lemma HeaderLineIsParsed(req: Request, line: string, rest: string) returns (r: Request)
    requires req.checkstate == ExpectHeader && HeaderLine(line) && !Throws(line)
    ensures Decode(req, line + CRLF + rest) == Decode(r, rest)
    ensures ':' !in line ==> r == req
    ensures forall i :: 0 <= i < |line| && ColonAt(line, i) ==>
              && i + 2 <= |line|
              && var name, value := line[..i], line[i + 2..];
                 && r == req.(headers := req.headers[name := value], contentLength := r.contentLength)
                 && (name == "Content-length" ==> Denotes(value, r.contentLength) && IsInt(r.contentLength))
                 && (name != "Content-length" ==> r.contentLength == req.contentLength)
  {
    LineThrowsIff(req, line);
    hide Throws;
    r := ParseLine(req, line).1;
    CrlfAfter(line, rest);
    LineTaken(req, line + CRLF + rest, |line|);
    hide Decode;
    FindIsFirst(line, ':');
    hide Find, Stoi, Denotes;
    match Find(line, ':')
    case None =>
    case Some(i) =>
      assert ColonAt(line, i);
      forall j | 0 <= j < |line| && ColonAt(line, j)
        ensures j == i
      {
        OneFirstColon(line, i, j);
      }
      if line[..i] == CONTENT_LENGTH { StoiIff(line[i + 2..], r.contentLength); }
  }

  /** A header line that throws ends the decoding, with the line gone. */
  lemma ThrowingLineEnds(req: Request, line: string, rest: string)
    requires req.checkstate == ExpectHeader && HeaderLine(line) && Throws(line)
    ensures Decode(req, line + CRLF + rest).code == Thrown && Decode(req, line + CRLF + rest).rest == rest
  {
    LineThrowsIff(req, line);
    hide Throws, Decode;
    CrlfAfter(line, rest);
    LineTaken(req, line + CRLF + rest, |line|);
  }

  /** The blank line: the request is complete unless a positive length was declared. */
  lemma BlankLineEnds(req: Request, rest: string)
    requires req.checkstate == ExpectHeader
    ensures if "Content-length" in req.headers && req.contentLength > 0
            then Decode(req, CRLF + rest) == Decode(req.(checkstate := ExpectContent), rest)
            else Decode(req, CRLF + rest) == Outcome(GetRequest, req.(checkstate := GetAll), rest)
  {
    CrlfAfter("", rest);
    assert "" + CRLF + rest == CRLF + rest && (CRLF + rest)[..0] == "";
    LineTaken(req, CRLF + rest, 0);
    hide Decode;
  }

  /** The content is taken when it is all there, and nothing before. */
  lemma ContentIsTaken(req: Request, body: string, rest: string)
    requires req.checkstate == ExpectContent && req.contentLength >= 0
    ensures |body| == req.contentLength ==>
              Decode(req, body + rest) == Outcome(GetRequest, req.(checkstate := GetAll, content := body), rest)
    ensures |body| < req.contentLength ==> Decode(req, body) == Outcome(NoRequest, req, body)
  {
    if |body| == req.contentLength {
      assert (body + rest)[..|body|] == body && (body + rest)[|body|..] == rest;
    }
  }

  /** Without a line end there is no verdict yet, except that a bare LF is a bad request. */
  lemma OpenLineIs(req: Request, s: string)
    requires (req.checkstate == ExpectRequestLine || req.checkstate == ExpectHeader) && NoCrlf(s)
    ensures Decode(req, s) == Outcome(if '\n' in s then BadRequest else NoRequest, req, s)
  {
    FindCRLFIsFirst(s);
    NoLineYet(req, s);
  }
}
