/** Where the request decoder falls short of what a client may expect: header lines that make it
    throw, and bodies that it does not see. Each is characterised exactly.
 */
module HttpErrors {
  import opened Options
  import opened Buffers
  import opened HttpRequests

  // ---------------------------------------------------------------------------
  // What stoi accepts

  predicate AllSpace(s: string) {
    forall i :: 0 <= i < |s| ==> IsSpace(s[i])
  }

  predicate AllDigit(s: string) {
    forall i :: 0 <= i < |s| ==> IsDigit(s[i])
  }

  predicate IsSign(s: string) {
    s == "" || s == "+" || s == "-"
  }

  /** The value of digits with that sign. */
  function Value(sign: string, digits: string): int
    requires AllDigit(digits)
  {
    if sign == "-" then 0 - DigitsValue(digits) else DigitsValue(digits)
  }

  predicate IsInt(v: int) {
    -0x8000_0000 <= v < 0x8000_0000
  }

  /** `s` is white space, a sign or none, all the digits there are, and the rest; the digits
      with that sign denote `v`. */
  predicate IsNumeral(s: string, space: string, sign: string, digits: string, rest: string, v: int) {
    && s == space + (sign + (digits + rest)) && AllSpace(space) && IsSign(sign)
    && digits != "" && AllDigit(digits) && (rest != "" ==> !IsDigit(rest[0]))
    && v == Value(sign, digits)
  }

  /** `s` starts with the decimal numeral `v`. */
  ghost predicate Denotes(s: string, v: int) {
    exists space, sign, digits, rest :: IsNumeral(s, space, sign, digits, rest, v)
  }

  lemma {:induction false} SkipSpaceSplits(s: string) returns (space: string)
    ensures s == space + SkipSpace(s) && AllSpace(space)
    ensures SkipSpace(s) != "" ==> !IsSpace(SkipSpace(s)[0])
  {
    space := "";
    if s != "" && IsSpace(s[0]) {
      space := SkipSpaceSplits(s[1..]);
      space := [s[0]] + space;
    }
  }

  lemma {:induction false} SkipSpaceAt(space: string, rest: string)
    requires AllSpace(space) && (rest != "" ==> !IsSpace(rest[0]))
    ensures SkipSpace(space + rest) == rest
  {
    if space == "" {
      assert space + rest == rest;
    } else {
      assert (space + rest)[1..] == space[1..] + rest;
      SkipSpaceAt(space[1..], rest);
    }
  }

  lemma {:induction false} DigitsLenAt(digits: string, rest: string)
    requires AllDigit(digits) && (rest != "" ==> !IsDigit(rest[0]))
    ensures DigitsLen(digits + rest) == |digits|
  {
    if digits == "" {
      assert digits + rest == rest;
    } else {
      assert (digits + rest)[1..] == digits[1..] + rest;
      DigitsLenAt(digits[1..], rest);
    }
  }

  lemma {:induction false} DigitsLenMax(s: string)
    ensures DigitsLen(s) <= |s| && (DigitsLen(s) < |s| ==> !IsDigit(s[DigitsLen(s)]))
  {
    if s != "" && IsDigit(s[0]) { DigitsLenMax(s[1..]); }
  }

  lemma StoiOf(s: string, space: string, sign: string, digits: string, rest: string, v: int)
    requires IsNumeral(s, space, sign, digits, rest, v)
    ensures Stoi(s) == if IsInt(v) then Some(v) else None
  {
    var u := digits + rest;
    assert (sign + u)[0] == if sign == "" then digits[0] else sign[0];
    SkipSpaceAt(space, sign + u);
    DigitsLenAt(digits, rest);
    assert u[..|digits|] == digits;
    assert sign == "" ==> sign + u == u;
    assert sign != "" ==> (sign + u)[1..] == u;
    hide SkipSpace, DigitsLen, DigitsValue;
  }

  /** The pieces of a numeral put together. */
  lemma DenotesOf(s: string, space: string, t: string, sign: string, u: string, digits: string, rest: string)
    requires s == space + t && t == sign + u && u == digits + rest
    requires AllSpace(space) && IsSign(sign) && digits != "" && AllDigit(digits) && (rest != "" ==> !IsDigit(rest[0]))
    ensures Denotes(s, Value(sign, digits))
  {
    hide AllSpace, AllDigit, IsSign, IsDigit, Value;
    assert IsNumeral(s, space, sign, digits, rest, Value(sign, digits));
  }

  lemma DigitsOf(u: string) returns (digits: string, rest: string)
    ensures u == digits + rest && DigitsLen(u) <= |u| && digits == u[..DigitsLen(u)] && AllDigit(digits)
    ensures rest != "" ==> !IsDigit(rest[0])
  {
    DigitsLenOk(u);
    DigitsLenMax(u);
    hide DigitsLen;
    digits, rest := u[..DigitsLen(u)], u[DigitsLen(u)..];
  }

  lemma SignOf(t: string) returns (sign: string, u: string)
    ensures t == sign + u && IsSign(sign) && (sign == "-" <==> t != "" && t[0] == '-')
    ensures u == if t != "" && (t[0] == '-' || t[0] == '+') then t[1..] else t
  {
    if t != "" && (t[0] == '-' || t[0] == '+') {
      sign, u := [t[0]], t[1..];
    } else {
      sign, u := "", t;
    }
  }

  lemma StoiSplits(s: string)
    requires Stoi(s).Some?
    ensures Denotes(s, Stoi(s).value)
  {
    var space := SkipSpaceSplits(s);
    var sign, u := SignOf(SkipSpace(s));
    var digits, rest := DigitsOf(u);
    hide Denotes, SkipSpace, DigitsLen, DigitsValue, AllSpace, AllDigit, IsSign;
    DenotesOf(s, space, SkipSpace(s), sign, u, digits, rest);
  }

  /** stoi gives `v` exactly when the text starts with a numeral for `v` that fits an int; so it
      throws when there is no digit after white space and sign, or the value does not fit. */
  lemma StoiIff(s: string, v: int)
    ensures Stoi(s) == Some(v) <==> Denotes(s, v) && IsInt(v)
  {
    hide Stoi;
    if Denotes(s, v) {
      var space, sign, digits, rest :| IsNumeral(s, space, sign, digits, rest, v);
      StoiOf(s, space, sign, digits, rest, v);
    }
    if Stoi(s).Some? {
      StoiSplits(s);
      var space, sign, digits, rest :| IsNumeral(s, space, sign, digits, rest, Stoi(s).value);
      StoiOf(s, space, sign, digits, rest, Stoi(s).value);
    }
  }

  // ---------------------------------------------------------------------------
  // Header lines that throw

  /** The line ends at its first colon, or declares a length that is no int. */
  ghost predicate Throws(line: string) {
    exists i :: 0 <= i < |line| && ColonAt(line, i) && (i + 1 == |line| || BadLength(line[..i], line[i + 2..]))
  }

  predicate ColonAt(line: string, i: nat)
    requires i < |line|
  {
    line[i] == ':' && ':' !in line[..i]
  }

  ghost predicate BadLength(name: string, value: string) {
    name == CONTENT_LENGTH && forall v :: Denotes(value, v) ==> !IsInt(v)
  }

  lemma StoiThrowsIff(s: string)
    ensures Stoi(s).None? <==> forall v :: Denotes(s, v) ==> !IsInt(v)
  {
    hide Stoi, Denotes;
    forall v | Denotes(s, v) && IsInt(v)
      ensures Stoi(s) == Some(v)
    {
      StoiIff(s, v);
    }
    if Stoi(s).Some? { StoiIff(s, Stoi(s).value); }
  }

  lemma OneFirstColon(line: string, i: nat, j: nat)
    requires i < |line| && j < |line| && ColonAt(line, i) && ColonAt(line, j)
    ensures i == j
  {
  }

  /** One line throws exactly when it is of that kind, and otherwise never ends the header section. */
  lemma LineThrowsIff(req: Request, line: string)
    requires req.checkstate == ExpectHeader && line != ""
    ensures ParseLine(req, line).0 == Thrown <==> Throws(line)
    ensures !Throws(line) ==> ParseLine(req, line).0 == NoRequest && ParseLine(req, line).1.checkstate == ExpectHeader
  {
    FindIsFirst(line, ':');
    hide Stoi, Find, Denotes;
    match Find(line, ':')
    case None =>
    case Some(i) =>
      assert ColonAt(line, i);
      forall j | 0 <= j < |line| && ColonAt(line, j)
        ensures j == i
      {
        OneFirstColon(line, i, j);
      }
      if i + 2 <= |line| { StoiThrowsIff(line[i + 2..]); }
  }

  function PrintLines(lines: seq<string>): string {
    if lines == [] then "" else lines[0] + CRLF + PrintLines(lines[1..])
  }

  /** A line of a header section: not the blank one, and no CR LF in it. */
  predicate HeaderLine(line: string) {
    line != "" && NoCrlf(line)
  }

  /** The decoder reads on to the end of the lines, or throws at the first one that makes it. */
  lemma {:induction false} LinesThrowIff(req: Request, lines: seq<string>, rest: string) returns (r: Request)
    requires req.checkstate == ExpectHeader && forall i :: 0 <= i < |lines| ==> HeaderLine(lines[i])
    ensures r.checkstate == ExpectHeader
    ensures (exists i :: 0 <= i < |lines| && Throws(lines[i])) ==> Decode(req, PrintLines(lines) + rest).code == Thrown
    ensures !(exists i :: 0 <= i < |lines| && Throws(lines[i])) ==> Decode(req, PrintLines(lines) + rest) == Decode(r, rest)
    decreases |lines|
  {
    hide ParseLine, Throws, Decode;
    r := req;
    if lines == [] {
      assert PrintLines(lines) + rest == rest;
    } else {
      var line, more := lines[0], PrintLines(lines[1..]) + rest;
      assert PrintLines(lines) + rest == line + CRLF + more;
      CrlfAfter(line, more);
      LineThrowsIff(req, line);
      LineTaken(req, line + CRLF + more, |line|);
      assert forall i :: 0 < i < |lines| ==> lines[i] == lines[1..][i - 1];
      if !Throws(line) {
        r := LinesThrowIff(ParseLine(req, line).1, lines[1..], rest);
      }
    }
  }

  lemma BlankLineDoesNotThrow(req: Request, rest: string)
    requires req.checkstate == ExpectHeader
    ensures Decode(req, CRLF + rest).code != Thrown
  {
    CrlfAfter("", rest);
    assert "" + CRLF + rest == CRLF + rest;
    LineTaken(req, CRLF + rest, 0);
    var (code, r) := ParseLine(req, "");
    assert (CRLF + rest)[..0] == "";
    assert code == NoRequest ==> r.checkstate == ExpectContent;
  }

  // ---------------------------------------------------------------------------
  // Request lines that are taken

  /** A path follows the scheme and the host, if there are any. */
  predicate HasPath(uri: string) {
    if "http://" <= uri then '/' in uri[7..] else '/' in uri
  }

  predicate IsMethod(verb: string) {
    verb == "GET" || verb == "POST"
  }

  predicate IsVersion(version: string) {
    version == "HTTP/1.0" || version == "HTTP/1.1" || version == "http/1.0" || version == "http/1.1"
  }

  /** `line` is three words, separated by white space and followed by anything: a supported
      method, a target with a slash after its scheme, and a supported version. */
  predicate IsRequestLine(line: string, s0: string, verb: string, s1: string, uri: string, s2: string, version: string, rest: string) {
    && line == s0 + (verb + (s1 + (uri + (s2 + (version + rest)))))
    && AllSpace(s0) && AllSpace(s1) && AllSpace(s2) && s1 != "" && s2 != "" && (rest != "" ==> IsSpace(rest[0]))
    && NoSpace(verb) && NoSpace(uri) && NoSpace(version)
    && IsMethod(verb) && HasPath(uri) && IsVersion(version)
  }

  ghost predicate IsGoodLine(line: string) {
    exists s0, verb, s1, uri, s2, version, rest :: IsRequestLine(line, s0, verb, s1, uri, s2, version, rest)
  }

  /** The next word of a stream: after the white space, up to the next. */
  lemma ExtractAfter(space: string, w: string, rest: string)
    requires AllSpace(space) && w != "" && NoSpace(w) && (rest != "" ==> IsSpace(rest[0]))
    ensures Extract(space + (w + rest)) == (w, rest)
  {
    SkipSpaceAt(space, w + rest);
    WordAt(w, rest);
    assert (w + rest)[|w|..] == rest;
  }

  lemma {:induction false} WordStops(s: string)
    ensures Word(s) <= s && NoSpace(Word(s)) && (|Word(s)| < |s| ==> IsSpace(s[|Word(s)|]))
  {
    if s != "" && !IsSpace(s[0]) { WordStops(s[1..]); }
  }

  lemma ExtractSplits(s: string) returns (space: string)
    ensures var (w, rest) := Extract(s);
            s == space + (w + rest) && AllSpace(space) && NoSpace(w) && (rest != "" ==> IsSpace(rest[0]))
  {
    space := SkipSpaceSplits(s);
    var t := SkipSpace(s);
    WordStops(t);
    var w := Word(t);
    hide SkipSpace, Word, AllSpace, NoSpace;
    var rest := t[|w|..];
    assert Extract(s) == (w, rest) && w == t[..|w|];
    assert t == w + rest && (rest != "" ==> rest[0] == t[|w|]);
  }

  lemma SupportedNames()
    ensures forall s :: s in SUPPORTED_METHODS <==> IsMethod(s)
    ensures forall s :: s in SUPPORTED_VERSIONS <==> IsVersion(s)
  {
  }

  lemma GoodLineIsTaken(line: string, s0: string, verb: string, s1: string, uri: string, s2: string, version: string, rest: string)
    requires IsRequestLine(line, s0, verb, s1, uri, s2, version, rest)
    ensures Words(line) == (verb, uri, version)
  {
    var t2 := version + rest;
    var t1 := uri + (s2 + t2);
    ExtractAfter(s0, verb, s1 + t1);
    ExtractAfter(s1, uri, s2 + t2);
    ExtractAfter(s2, version, rest);
    hide Extract, AllSpace, NoSpace, HasPath;
    WordsChain(line, verb, s1 + t1, uri, s2 + t2, version);
  }

  /** The words of a line that is taken are apart. */
  lemma WordsSplit(line: string)
    requires var (verb, uri, version) := Words(line);
             IsMethod(verb) && HasPath(uri) && IsVersion(version)
    ensures IsGoodLine(line)
  {
    var (verb, t1) := Extract(line);
    var (uri, t2) := Extract(t1);
    var (version, rest) := Extract(t2);
    var s0 := ExtractSplits(line);
    var s1 := ExtractSplits(t1);
    var s2 := ExtractSplits(t2);
    assert uri != "" && version != "";
    assert s1 == "" ==> t1 == uri + t2;
    assert s2 == "" ==> t2 == version + rest;
    hide Extract, AllSpace, HasPath;
    assert IsRequestLine(line, s0, verb, s1, uri, s2, version, rest);
  }

  /** The decoder takes a request line exactly when it is of that form. */
  lemma RequestLineTakenIff(req: Request, line: string)
    ensures ParseRequestLine(req, line).0 == NoRequest <==> IsGoodLine(line)
  {
    var (verb, uri, version) := Words(line);
    FindIsFirst(StripScheme(uri), '/');
    assert HasPath(uri) <==> '/' in StripScheme(uri);
    SupportedNames();
    assert ParseRequestLine(req, line).0 == NoRequest <==> IsMethod(verb) && HasPath(uri) && IsVersion(version) by {
      hide Words, HasPath, SetTarget, IsMethod, IsVersion;
    }
    hide ParseRequestLine, Words, HasPath, IsMethod, IsVersion;
    if IsGoodLine(line) {
      var s0, v, s1, u, s2, n, rest :| IsRequestLine(line, s0, v, s1, u, s2, n, rest);
      GoodLineIsTaken(line, s0, v, s1, u, s2, n, rest);
    }
    if IsMethod(verb) && HasPath(uri) && IsVersion(version) { WordsSplit(line); }
  }

  // ---------------------------------------------------------------------------
  // Requests that throw

  /** What follows the header lines: the blank line and any bytes, or an unfinished line. */
  predicate EndsLines(tail: string) {
    CRLF <= tail || NoCrlf(tail)
  }

  lemma TailDoesNotThrow(req: Request, tail: string)
    requires req.checkstate == ExpectHeader && EndsLines(tail)
    ensures Decode(req, tail).code != Thrown
  {
    if CRLF <= tail {
      assert tail == CRLF + tail[2..];
      BlankLineDoesNotThrow(req, tail[2..]);
    } else {
      FindCRLFIsFirst(tail);
      NoLineYet(req, tail);
    }
  }

  /** A request line, any header lines, and the blank line with any bytes or an unfinished line:
      the decoder throws exactly when the request line is a good one and some header line is of
      the throwing kind. */
  lemma HeadersThrowIff(first: string, lines: seq<string>, tail: string)
    requires NoCrlf(first) && EndsLines(tail) && forall i :: 0 <= i < |lines| ==> HeaderLine(lines[i])
    ensures Decode(CLEARED, first + CRLF + (PrintLines(lines) + tail)).code == Thrown
            <==> IsGoodLine(first) && exists i :: 0 <= i < |lines| && Throws(lines[i])
  {
    hide Throws, Decode, IsGoodLine;
    RequestLineTakenIff(CLEARED, first);
    var more := PrintLines(lines) + tail;
    CrlfAfter(first, more);
    LineTaken(CLEARED, first + CRLF + more, |first|);
    var (code, r1) := ParseLine(CLEARED, first);
    assert code != Thrown && (code == NoRequest ==> r1.checkstate == ExpectHeader) by {
      hide Words, StripScheme, SetTarget;
    }
    hide ParseRequestLine, EndsLines;
    if code == NoRequest {
      var r2 := LinesThrowIff(r1, lines, tail);
      TailDoesNotThrow(r2, tail);
    }
  }

  /** A header without a value, as section 5 of RFC 9112 allows it, ends the process. */
  lemma EmptyValueThrows()
    ensures Decode(CLEARED, "GET / HTTP/1.1\r\nX:\r\n").code == Thrown
  {
    GetIsGood();
    XThrows();
    hide Decode, IsGoodLine, Throws, HeaderLine, PrintLines, NoCrlf;
    var lines := ["X:"];
    assert lines[0] == "X:";
    HeadersThrowIff("GET / HTTP/1.1", lines, "");
    assert "GET / HTTP/1.1" + CRLF + "X:\r\n" == "GET / HTTP/1.1\r\nX:\r\n";
  }

  lemma XThrows()
    ensures Throws("X:") && HeaderLine("X:") && PrintLines(["X:"]) + "" == "X:\r\n" && EndsLines("")
  {
    assert ColonAt("X:", 1);
    assert PrintLines(["X:"][1..]) == "";
  }

  lemma GetIsGood()
    ensures IsGoodLine("GET / HTTP/1.1") && NoCrlf("GET / HTTP/1.1")
  {
    assert "" + ("GET" + (" " + ("/" + (" " + ("HTTP/1.1" + ""))))) == "GET / HTTP/1.1";
    assert IsRequestLine("GET / HTTP/1.1", "", "GET", " ", "/", " ", "HTTP/1.1", "");
  }

  // ---------------------------------------------------------------------------
  // Bodies that are not seen

  /** A printed request with a body is read with it exactly when a field is spelt
      `Content-length`; otherwise the body stays in the buffer, in front of what follows, to be
      taken for the next request. */
  lemma BodyIsReadIff(m: Message, extra: string)
    requires WellFormed(m) && m.body != ""
    ensures DeclaresLength(m.fields) ==> Decode(CLEARED, Print(m) + extra) == Outcome(GetRequest, Parsed(m), extra)
    ensures !DeclaresLength(m.fields) ==>
              Canonical(m.(body := "")) &&
              Decode(CLEARED, Print(m) + extra) == Outcome(GetRequest, Parsed(m.(body := "")), m.body + extra)
    ensures Decode(CLEARED, Print(m) + extra).req.content == m.body <==> DeclaresLength(m.fields)
  {
    hide Decode;
    if DeclaresLength(m.fields) {
      PrintedIsParsed(m, extra);
    } else {
      var bare := m.(body := "");
      assert Print(m) + extra == Print(bare) + (m.body + extra);
      PrintedIsParsed(bare, m.body + extra);
    }
  }

  /** POST / HTTP/1.1 with a body of one byte, its length spelt as in section 8.6 of RFC 9110. */
  const POST_ONE := Message("POST", "/", None, "HTTP/1.1", [("Content-Length", "1")], "b")

  lemma UsualSpellingIsNotSeen()
    ensures var o := Decode(CLEARED, Print(POST_ONE));
            o.code == GetRequest && o.req.content == "" && o.rest == "b"
  {
    hide Decode, Print;
    assert "Content-Length"[8] != CONTENT_LENGTH[8];
    assert WellFormed(POST_ONE) && !DeclaresLength(POST_ONE.fields);
    BodyIsReadIff(POST_ONE, "");
    assert Print(POST_ONE) + "" == Print(POST_ONE) && "b" + "" == "b";
  }
}
