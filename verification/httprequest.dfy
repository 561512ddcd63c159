/** The incremental HTTP request decoder. It is called after every read with whatever has
    arrived so far, consumes complete lines, and resumes where it stopped.
 */
module HttpRequests {
  import opened Options
  import opened Buffers

  datatype CheckState = ExpectRequestLine | ExpectHeader | ExpectContent | GetAll

  /** Verdicts. `Thrown` stands for an exception that leaves the decoder (substr, stoi). */
  datatype Code = NoRequest | GetRequest | BadRequest | Thrown

  datatype Method = InvalidMethod | GET | POST

  datatype Version = InvalidVersion | HTTP10 | HTTP11

  datatype Request = Request(
    checkstate: CheckState,
    methodType: Method,
    verb: string,
    url: string,
    query: string,
    versionType: Version,
    version: string,
    headers: map<string, string>,
    contentLength: int,
    content: string)

  /** HttpRequest::clear */
  const CLEARED := Request(ExpectRequestLine, InvalidMethod, "", "", "", InvalidVersion, "", map[], 0, "")

  const SUPPORTED_METHODS: map<string, Method> := map["GET" := GET, "POST" := POST]

  const SUPPORTED_VERSIONS: map<string, Version> :=
    map["HTTP/1.0" := HTTP10, "HTTP/1.1" := HTTP11, "http/1.0" := HTTP10, "http/1.1" := HTTP11]

  const CONTENT_LENGTH := "Content-length"

  const CRLF := "\r\n"

  // ---------------------------------------------------------------------------
  // Strings

  predicate IsSpace(c: char) {
    c == ' ' || '\t' <= c <= '\r'
  }

  predicate IsDigit(c: char) {
    '0' <= c <= '9'
  }

  function SkipSpace(s: string): string {
    if s != "" && IsSpace(s[0]) then SkipSpace(s[1..]) else s
  }

  /** The leading part of `s` without white space. */
  function Word(s: string): string {
    if s == "" || IsSpace(s[0]) then "" else [s[0]] + Word(s[1..])
  }

  lemma {:induction false} SkipSpaceShrinks(s: string)
    ensures |SkipSpace(s)| <= |s|
  {
    if s != "" && IsSpace(s[0]) { SkipSpaceShrinks(s[1..]); }
  }

  lemma {:induction false} WordIsPrefix(s: string)
    ensures Word(s) <= s
  {
    if s != "" && !IsSpace(s[0]) { WordIsPrefix(s[1..]); }
  }

  /** `ss >> word`: the next word of the stream and what follows it. */
  function Extract(s: string): (string, string) {
    var t := SkipSpace(s);
    var w := Word(t);
    WordIsPrefix(t);
    (w, t[|w|..])
  }

  function Find(s: string, c: char): Option<nat> {
    if s == "" then None
    else if s[0] == c then Some(0)
    else match Find(s[1..], c)
      case None => None
      case Some(i) => Some(i + 1)
  }

  lemma {:induction false} FindIsFirst(s: string, c: char)
    ensures Find(s, c).Some? <==> c in s
    ensures Find(s, c).Some? ==> Find(s, c).value < |s| && s[Find(s, c).value] == c && c !in s[..Find(s, c).value]
  {
    if s != "" && s[0] != c {
      FindIsFirst(s[1..], c);
      if Find(s, c).Some? {
        var i := Find(s[1..], c).value;
        assert s[..i + 1] == [s[0]] + s[1..][..i];
      }
    }
  }

  lemma {:induction false} FindAt(p: string, c: char, rest: string)
    requires c !in p
    ensures Find(p + [c] + rest, c) == Some(|p|)
  {
    if p != "" {
      assert (p + [c] + rest)[1..] == p[1..] + [c] + rest;
      FindAt(p[1..], c, rest);
    }
  }

  function DigitsLen(s: string): nat {
    if s != "" && IsDigit(s[0]) then 1 + DigitsLen(s[1..]) else 0
  }

  lemma {:induction false} DigitsLenOk(s: string)
    ensures DigitsLen(s) <= |s| && forall i :: 0 <= i < DigitsLen(s) ==> IsDigit(s[i])
  {
    if s != "" && IsDigit(s[0]) { DigitsLenOk(s[1..]); }
  }

  function DigitsValue(s: string): nat
    requires forall i :: 0 <= i < |s| ==> IsDigit(s[i])
  {
    if s == "" then 0
    else
      var last := s[|s| - 1];
      assert IsDigit(last);
      DigitsValue(s[..|s| - 1]) * 10 + (last as int - '0' as int)
  }

  /** std::stoi: white space, a sign, digits; None where it throws. */
  function Stoi(s: string): Option<int> {
    var t := SkipSpace(s);
    var negative := t != "" && t[0] == '-';
    var u := if t != "" && (t[0] == '-' || t[0] == '+') then t[1..] else t;
    var n := DigitsLen(u);
    DigitsLenOk(u);
    if n == 0 then None
    else
      var v := if negative then 0 - DigitsValue(u[..n]) else DigitsValue(u[..n]) as int;
      if -0x8000_0000 <= v < 0x8000_0000 then Some(v) else None
  }

  // ---------------------------------------------------------------------------
  // One line

  /** Splits the target at its first question mark; without one the query stays as it was. */
  function SetTarget(req: Request, target: string): Request {
    match Find(target, '?')
    case None => req.(url := target)
    case Some(q) =>
      FindIsFirst(target, '?');
      req.(url := target[..q], query := target[q + 1..])
  }

  function StripScheme(uri: string): string {
    if "http://" <= uri then uri[7..] else uri
  }

  /** The three words of a request line. */
  function Words(line: string): (string, string, string) {
    var (verb, s1) := Extract(line);
    var (uri, s2) := Extract(s1);
    (verb, uri, Extract(s2).0)
  }

  /** parseRequstline on the line just retrieved. */
  function ParseRequestLine(req: Request, line: string): (Code, Request) {
    var (verb, uri, version) := Words(line);
    if verb !in SUPPORTED_METHODS then (BadRequest, req) else
    var r1 := req.(verb := verb, methodType := SUPPORTED_METHODS[verb]);
    var u := StripScheme(uri);
    match Find(u, '/')
    case None => (BadRequest, r1)
    case Some(i) =>
      FindIsFirst(u, '/');
      var r2 := SetTarget(r1, u[i..]);
      if version !in SUPPORTED_VERSIONS then (BadRequest, r2)
      else (NoRequest, r2.(version := version, versionType := SUPPORTED_VERSIONS[version], checkstate := ExpectHeader))
  }

  /** parseHeaders on the line just retrieved. */
  function ParseHeader(req: Request, line: string): (Code, Request) {
    if line == "" then
      if CONTENT_LENGTH in req.headers && req.contentLength > 0 then (NoRequest, req.(checkstate := ExpectContent))
      else (GetRequest, req.(checkstate := GetAll))
    else
      match Find(line, ':')
      case None => (NoRequest, req)
      case Some(i) =>
        if i + 2 > |line| then (Thrown, req)  // substr past the end
        else
          var field, value := line[..i], line[i + 2..];
          var r1 := req.(headers := req.headers[field := value]);
          if field != CONTENT_LENGTH then (NoRequest, r1)
          else match Stoi(value)
            case None => (Thrown, r1)
            case Some(n) => (NoRequest, r1.(contentLength := n))
  }

  function ParseLine(req: Request, line: string): (Code, Request) {
    if req.checkstate == ExpectRequestLine then ParseRequestLine(req, line) else ParseHeader(req, line)
  }

  // ---------------------------------------------------------------------------
  // The decoder

  /** A verdict, the request as parsed so far, and the unread bytes. */
  datatype Outcome = Outcome(code: Code, req: Request, rest: string)

  /** HttpRequest::tryDecode. */
  function Decode(req: Request, buf: string): Outcome
    decreases |buf|
  {
    match req.checkstate
    case GetAll => Outcome(BadRequest, req, buf)
    case ExpectContent =>
      if req.contentLength < 0 || |buf| < req.contentLength then Outcome(NoRequest, req, buf)
      else
        Outcome(GetRequest, req.(content := buf[..req.contentLength], checkstate := GetAll), buf[req.contentLength..])
    case _ =>
      match FindCRLF(buf)
      case None => Outcome(if '\n' in buf then BadRequest else NoRequest, req, buf)
      case Some(i) =>
        FindCRLFIsFirst(buf);
        var (code, r) := ParseLine(req, buf[..i]);
        var rest := buf[i + 2..];
        if code == NoRequest then Decode(r, rest) else Outcome(code, r, rest)
  }

  /** HttpServer::decodeHttpRequest: nothing is decoded while a request is being answered. */
  function DecodeHttpRequest(req: Request, buf: string): Outcome {
    if req.checkstate == GetAll then Outcome(NoRequest, req, buf) else Decode(req, buf)
  }

  /** The states a request can be in between two calls. */
  predicate RequestOk(req: Request) {
    req.checkstate == ExpectContent ==> req.contentLength > 0
  }

  lemma ParseLineOk(req: Request, line: string)
    ensures RequestOk(ParseLine(req, line).1) || req.checkstate == ExpectContent
    ensures ParseLine(req, line).0 == NoRequest && req.checkstate != ExpectContent ==>
              ParseLine(req, line).1.checkstate != GetAll || req.checkstate == GetAll
  {
  }

  /** No line that the decoder takes from `buf` has a bare LF in it. */
  ghost predicate LinesClean(req: Request, buf: string)
    decreases |buf|
  {
    req.checkstate == ExpectRequestLine || req.checkstate == ExpectHeader ==>
      match FindCRLF(buf)
      case None => true
      case Some(i) =>
        FindCRLFIsFirst(buf);
        var (code, r) := ParseLine(req, buf[..i]);
        '\n' !in buf[..i] && (code == NoRequest ==> LinesClean(r, buf[i + 2..]))
  }

  /** Every LF of `s` follows a CR. */
  predicate NoBareLf(s: string) {
    forall j :: 0 <= j < |s| && s[j] == '\n' ==> j > 0 && s[j - 1] == '\r'
  }

  /** A stream without bare LF is clean in every state of the decoder. */
  lemma {:induction false} NoBareLfIsClean(req: Request, s: string)
    requires NoBareLf(s)
    ensures LinesClean(req, s)
    decreases |s|
  {
    hide ParseLine;
    FindCRLFIsFirst(s);
    if FindCRLF(s).Some? {
      var i := FindCRLF(s).value;
      forall j | 0 <= j < i
        ensures s[j] != '\n'
      {
        assert j > 0 && s[j] == '\n' ==> CrlfAt(s, j - 1);
      }
      NoBareLfIsClean(ParseLine(req, s[..i]).1, s[i + 2..]);
    }
  }

  // ---------------------------------------------------------------------------
  // Decoding chunk by chunk

  function Concat(chunks: seq<string>): string {
    if chunks == [] then "" else chunks[0] + Concat(chunks[1..])
  }

  /** The chunks arrive one by one in the buffer and decodeHttpRequest is called after each,
      up to the first verdict; what has not arrived by then counts as unread. */
  function Feed(req: Request, buf: string, chunks: seq<string>): Outcome
    decreases |chunks|
  {
    if chunks == [] then Outcome(NoRequest, req, buf)
    else
      var o := DecodeHttpRequest(req, buf + chunks[0]);
      if o.code == NoRequest then Feed(o.req, o.rest, chunks[1..])
      else o.(rest := o.rest + Concat(chunks[1..]))
  }

  /** Bytes that arrive later do not move the first CR LF. */
  lemma CrlfStays(a: string, b: string)
    ensures FindCRLF(a).Some? ==> FindCRLF(a + b) == FindCRLF(a)
    ensures FindCRLF(a).None? && FindCRLF(a + b).Some? ==> FindCRLF(a + b).value + 1 >= |a|
  {
    FindCRLFIsFirst(a);
    FindCRLFIsFirst(a + b);
    assert forall i: nat :: CrlfAt(a, i) ==> CrlfAt(a + b, i);
    assert forall i: nat :: i + 1 < |a| && CrlfAt(a + b, i) ==> CrlfAt(a, i);
  }

  /** Decoding a part first: an open verdict can be resumed, a final one stands. */
  lemma {:induction false} DecodeStable(req: Request, a: string, b: string)
    requires RequestOk(req) && req.checkstate != GetAll && LinesClean(req, a + b)
    ensures var o := Decode(req, a);
            if o.code == NoRequest
            then && RequestOk(o.req) && o.req.checkstate != GetAll
                 && Decode(req, a + b) == Decode(o.req, o.rest + b) && LinesClean(o.req, o.rest + b)
            else Decode(req, a + b) == o.(rest := o.rest + b)
    decreases |a|
  {
    hide ParseLine;
    if req.checkstate == ExpectContent {
      if |a| >= req.contentLength {
        assert (a + b)[..req.contentLength] == a[..req.contentLength];
        assert (a + b)[req.contentLength..] == a[req.contentLength..] + b;
      }
      return;
    }
    CrlfStays(a, b);
    match FindCRLF(a)
    case Some(i) =>
      FindCRLFIsFirst(a);
      FindCRLFIsFirst(a + b);
      assert (a + b)[..i] == a[..i];
      assert (a + b)[i + 2..] == a[i + 2..] + b;
      ParseLineOk(req, a[..i]);
      var (code, r) := ParseLine(req, a[..i]);
      if code == NoRequest { DecodeStable(r, a[i + 2..], b); }
    case None =>
      if '\n' in a { BareLfStays(req, a, b); }
  }

  /** A bare LF in an unfinished line would end up inside the finished line. */
  lemma BareLfStays(req: Request, a: string, b: string)
    requires req.checkstate == ExpectRequestLine || req.checkstate == ExpectHeader
    requires FindCRLF(a).None? && '\n' in a && LinesClean(req, a + b)
    ensures FindCRLF(a + b).None? && '\n' in a + b
  {
    hide ParseLine;
    if FindCRLF(a + b).Some? {
      LfInside(a, b, FindCRLF(a + b).value);
      assert false;
    }
  }

  lemma LfInside(a: string, b: string, i: nat)
    requires FindCRLF(a).None? && '\n' in a && FindCRLF(a + b) == Some(i)
    ensures i + 2 <= |a + b| && '\n' in (a + b)[..i]
  {
    CrlfStays(a, b);
    FindCRLFIsFirst(a + b);
    var p :| 0 <= p < |a| && a[p] == '\n';
    assert (a + b)[p] == '\n' && p < i;
    assert (a + b)[..i][p] == '\n';
  }

  lemma {:induction false} FeedIsDecode(req: Request, buf: string, chunks: seq<string>)
    requires RequestOk(req) && req.checkstate != GetAll && LinesClean(req, buf + Concat(chunks))
    requires Decode(req, buf) == Outcome(NoRequest, req, buf)
    ensures Feed(req, buf, chunks) == Decode(req, buf + Concat(chunks))
    decreases |chunks|
  {
    hide ParseLine;
    if chunks == [] {
      assert buf + Concat(chunks) == buf;
    } else {
      var a, b := buf + chunks[0], Concat(chunks[1..]);
      assert buf + Concat(chunks) == a + b;
      DecodeStable(req, a, b);
      var o := Decode(req, a);
      if o.code == NoRequest {
        OpenVerdictIsFixed(req, a);
        FeedIsDecode(o.req, o.rest, chunks[1..]);
      }
    }
  }

  /** After an open verdict, decoding again without new bytes changes nothing. */
  lemma {:induction false} OpenVerdictIsFixed(req: Request, a: string)
    requires Decode(req, a).code == NoRequest
    ensures Decode(Decode(req, a).req, Decode(req, a).rest) == Decode(req, a)
    decreases |a|
  {
    hide ParseLine;
    if req.checkstate == ExpectRequestLine || req.checkstate == ExpectHeader {
      match FindCRLF(a)
      case None =>
      case Some(i) =>
        FindCRLFIsFirst(a);
        OpenVerdictIsFixed(ParseLine(req, a[..i]).1, a[i + 2..]);
    }
  }

  predicate IsSuffix(rest: string, s: string) {
    |rest| <= |s| && rest == s[|s| - |rest|..]
  }

  lemma SuffixOf(s: string, n: nat, rest: string)
    requires n <= |s| && IsSuffix(rest, s[n..])
    ensures IsSuffix(rest, s)
  {
    assert s[n..][|s| - n - |rest|..] == s[|s| - |rest|..];
  }

  /** What is left unread is the end of the buffer. */
  lemma {:induction false} DecodeShrinks(req: Request, buf: string)
    ensures IsSuffix(Decode(req, buf).rest, buf)
    decreases |buf|
  {
    hide ParseLine;
    if req.checkstate == ExpectRequestLine || req.checkstate == ExpectHeader {
      match FindCRLF(buf)
      case None =>
      case Some(i) =>
        LineTaken(req, buf, i);
        var (code, r) := ParseLine(req, buf[..i]);
        if code == NoRequest { DecodeShrinks(r, buf[i + 2..]); }
        hide Decode, IsSuffix;
        assert code != NoRequest ==> IsSuffix(buf[i + 2..], buf[i + 2..]) by { WholeIsSuffix(buf[i + 2..]); }
        SuffixOf(buf, i + 2, Decode(req, buf).rest);
    }
  }

  lemma WholeIsSuffix(s: string)
    ensures IsSuffix(s, s)
  {
  }

  lemma CutInLine(req: Request, s: string, i: nat) returns (k: nat)
    requires req.checkstate == ExpectRequestLine || req.checkstate == ExpectHeader
    requires FindCRLF(s) == Some(i) && i <= |s| && '\n' in s[..i]
    ensures k <= |s| && Decode(req, s[..k]) == Outcome(BadRequest, req, s[..k]) && FindCRLF(s[..k]).None?
  {
    hide ParseLine;
    FindCRLFIsFirst(s);
    var p :| 0 <= p < i && s[p] == '\n';
    k := p + 1;
    FindCRLFIsFirst(s[..k]);
    assert forall j: nat :: CrlfAt(s[..k], j) ==> CrlfAt(s, j);
    assert s[..k][p] == '\n';
  }

  /** A bare LF in a line the whole decode takes: cutting right after it gives a bad-request
      verdict that leaves more unread than the whole decode does. */
  lemma {:induction false} DirtyCut(req: Request, s: string) returns (k: nat)
    requires RequestOk(req) && !LinesClean(req, s)
    ensures k <= |s| && Decode(req, s[..k]).code == BadRequest && LinesClean(req, s[..k])
    ensures |Decode(req, s[..k]).rest| + (|s| - k) > |Decode(req, s).rest|
    decreases |s|
  {
    hide ParseLine;
    FindCRLFIsFirst(s);
    var i := FindCRLF(s).value;
    LineTaken(req, s, i);
    ParseLineOk(req, s[..i]);
    if '\n' in s[..i] {
      DecodeShrinks(ParseLine(req, s[..i]).1, s[i + 2..]);
      k := CutInLine(req, s, i);
    } else {
      var j := DirtyCut(ParseLine(req, s[..i]).1, s[i + 2..]);
      k := i + 2 + j;
      CrlfInPrefix(s, i, k);
      LineTaken(req, s[..k], i);
      assert s[..k][..i] == s[..i] && s[..k][i + 2..] == s[i + 2..][..j];
    }
  }

  /** One turn of the decode loop. */
  lemma LineTaken(req: Request, s: string, i: nat)
    requires req.checkstate == ExpectRequestLine || req.checkstate == ExpectHeader
    requires FindCRLF(s) == Some(i)
    ensures i + 2 <= |s|
    ensures ParseLine(req, s[..i]).0 == NoRequest ==> Decode(req, s) == Decode(ParseLine(req, s[..i]).1, s[i + 2..])
    ensures ParseLine(req, s[..i]).0 != NoRequest ==>
              Decode(req, s) == Outcome(ParseLine(req, s[..i]).0, ParseLine(req, s[..i]).1, s[i + 2..])
  {
    hide ParseLine;
    FindCRLFIsFirst(s);
  }

  lemma CrlfInPrefix(s: string, i: nat, k: nat)
    requires FindCRLF(s) == Some(i) && i + 2 <= k <= |s|
    ensures FindCRLF(s[..k]) == Some(i)
  {
    FindCRLFIsFirst(s);
    FindCRLFIsFirst(s[..k]);
    assert CrlfAt(s[..k], i);
    assert CrlfAt(s, FindCRLF(s[..k]).value);
  }

  /** Chunk independence, exactly: every way of cutting the stream gives the verdict, the
      fields and the unread rest of one call on the whole, if and only if no line that call
      takes has a bare LF. The body may hold any bytes, and exceptions come out the same. */
  lemma ChunksDoNotMatterIff(req: Request, s: string)
    requires RequestOk(req)
    ensures (forall chunks :: Concat(chunks) == s ==> Feed(req, "", chunks) == DecodeHttpRequest(req, s))
            <==> LinesClean(req, s)
  {
    hide ParseLine;
    if req.checkstate == GetAll {
      forall chunks | Concat(chunks) == s
        ensures Feed(req, "", chunks) == DecodeHttpRequest(req, s)
      {
        FeedWhileAnswering(req, "", chunks);
        assert "" + Concat(chunks) == s;
      }
    } else if LinesClean(req, s) {
      forall chunks | Concat(chunks) == s
        ensures Feed(req, "", chunks) == DecodeHttpRequest(req, s)
      {
        assert "" + Concat(chunks) == s;
        FeedIsDecode(req, "", chunks);
      }
    } else {
      DirtyChunks(req, s);
    }
  }

  /** The stream cut into single bytes. */
  function Bytes(s: string): seq<string> {
    if s == "" then [] else [[s[0]]] + Bytes(s[1..])
  }

  lemma {:induction false} ConcatBytes(s: string)
    ensures Concat(Bytes(s)) == s && forall c :: c in Bytes(s) ==> |c| == 1
  {
    if s != "" {
      ConcatBytes(s[1..]);
      assert Bytes(s)[1..] == Bytes(s[1..]);
    }
  }

  lemma {:induction false} ConcatAppends(a: seq<string>, b: seq<string>)
    ensures Concat(a + b) == Concat(a) + Concat(b)
  {
    if a == [] {
      assert a + b == b;
    } else {
      assert (a + b)[1..] == a[1..] + b;
      ConcatAppends(a[1..], b);
    }
  }

  lemma {:induction false} BytesAppends(a: string, b: string)
    ensures Bytes(a + b) == Bytes(a) + Bytes(b)
  {
    if a == "" {
      assert a + b == b;
    } else {
      assert (a + b)[1..] == a[1..] + b;
      BytesAppends(a[1..], b);
    }
  }

  /** A stream with a bare LF in a taken line comes out differently byte by byte. */
  lemma DirtyChunks(req: Request, s: string)
    requires RequestOk(req) && req.checkstate != GetAll && !LinesClean(req, s)
    ensures Concat(Bytes(s)) == s && Feed(req, "", Bytes(s)) != DecodeHttpRequest(req, s)
  {
    hide ParseLine;
    var k := DirtyCut(req, s);
    var a, b := s[..k], s[k..];
    assert a + b == s;
    ConcatBytes(s);
    ConcatBytes(a);
    ConcatBytes(b);
    BytesAppends(a, b);
    assert "" + Concat(Bytes(a)) == a;
    FeedIsDecode(req, "", Bytes(a));
    FeedStops(req, "", Bytes(a), Bytes(b));
  }

  /** After a verdict nothing more is decoded. */
  lemma {:induction false} FeedStops(req: Request, buf: string, a: seq<string>, b: seq<string>)
    requires Feed(req, buf, a).code != NoRequest
    ensures Feed(req, buf, a + b) == Feed(req, buf, a).(rest := Feed(req, buf, a).rest + Concat(b))
    decreases |a|
  {
    hide ParseLine, Decode;
    if a != [] {
      assert (a + b)[0] == a[0] && (a + b)[1..] == a[1..] + b;
      var o := DecodeHttpRequest(req, buf + a[0]);
      if o.code == NoRequest {
        FeedStops(o.req, o.rest, a[1..], b);
      } else {
        ConcatAppends(a[1..], b);
      }
    }
  }

  lemma {:induction false} FeedWhileAnswering(req: Request, buf: string, chunks: seq<string>)
    requires req.checkstate == GetAll
    ensures Feed(req, buf, chunks) == Outcome(NoRequest, req, buf + Concat(chunks))
    decreases |chunks|
  {
    hide ParseLine;
    if chunks == [] {
      assert buf + Concat(chunks) == buf;
    } else {
      FeedWhileAnswering(req, buf + chunks[0], chunks[1..]);
      assert buf + Concat(chunks) == buf + chunks[0] + Concat(chunks[1..]);
    }
  }

  // ---------------------------------------------------------------------------
  // Parsing what was printed

  /** A request as a client writes it (sections 2.1, 3, 5 and 6.2 of RFC 9112). */
  datatype Message = Message(
    verb: string,
    path: string,
    query: Option<string>,
    version: string,
    fields: seq<(string, string)>,
    body: string)

  predicate NoSpace(s: string) {
    forall i :: 0 <= i < |s| ==> !IsSpace(s[i])
  }

  function Decimal(n: nat): string {
    if n < 10 then [('0' as int + n) as char] else Decimal(n / 10) + [('0' as int + n % 10) as char]
  }

  predicate FieldOk(f: (string, string), body: string) {
    ':' !in f.0 && '\n' !in f.0 && '\n' !in f.1 && (f.0 == CONTENT_LENGTH ==> f.1 == Decimal(|body|))
  }

  ghost predicate DeclaresLength(fields: seq<(string, string)>) {
    exists i :: 0 <= i < |fields| && fields[i].0 == CONTENT_LENGTH
  }

  /** Supported method and version, a path that starts with a slash, well-formed fields; a
      length that is declared is the body's. */
  ghost predicate WellFormed(m: Message) {
    && m.verb in SUPPORTED_METHODS && m.version in SUPPORTED_VERSIONS
    && m.path != "" && m.path[0] == '/' && NoSpace(m.path) && '?' !in m.path
    && (m.query.Some? ==> NoSpace(m.query.value))
    && (forall i :: 0 <= i < |m.fields| ==> FieldOk(m.fields[i], m.body))
    && |m.body| < 0x8000_0000
  }

  /** A body comes with its length. */
  ghost predicate Canonical(m: Message) {
    WellFormed(m) && (m.body != "" ==> DeclaresLength(m.fields))
  }

  function Target(m: Message): string {
    m.path + (if m.query.Some? then "?" + m.query.value else "")
  }

  function PrintFields(fields: seq<(string, string)>): string {
    if fields == [] then "" else fields[0].0 + ": " + fields[0].1 + CRLF + PrintFields(fields[1..])
  }

  function Print(m: Message): string {
    m.verb + " " + Target(m) + " " + m.version + CRLF + PrintFields(m.fields) + CRLF + m.body
  }

  /** The fields as a map; of equal names the last one counts. */
  function FieldMap(headers: map<string, string>, fields: seq<(string, string)>): map<string, string>
    decreases |fields|
  {
    if fields == [] then headers else FieldMap(headers[fields[0].0 := fields[0].1], fields[1..])
  }

  ghost function Parsed(m: Message): Request
    requires Canonical(m)
  {
    Request(GetAll, SUPPORTED_METHODS[m.verb], m.verb, m.path, if m.query.Some? then m.query.value else "",
            SUPPORTED_VERSIONS[m.version], m.version, FieldMap(map[], m.fields),
            if DeclaresLength(m.fields) then |m.body| else 0, m.body)
  }

  lemma {:induction false} DecimalOk(n: nat)
    ensures Decimal(n) != "" && (forall i :: 0 <= i < |Decimal(n)| ==> IsDigit(Decimal(n)[i]))
    ensures DigitsValue(Decimal(n)) == n
  {
    if n >= 10 {
      DecimalOk(n / 10);
      var d := Decimal(n / 10);
      assert Decimal(n)[..|d|] == d;
    } else {
      assert Decimal(n)[..0] == "";
    }
  }

  lemma {:induction false} AllDigits(s: string)
    requires forall i :: 0 <= i < |s| ==> IsDigit(s[i])
    ensures DigitsLen(s) == |s|
  {
    if s != "" { AllDigits(s[1..]); }
  }

  /** stoi reads back what was printed. */
  lemma StoiDecimal(n: nat)
    requires n < 0x8000_0000
    ensures Stoi(Decimal(n)) == Some(n)
  {
    var s := Decimal(n);
    DecimalOk(n);
    AllDigits(s);
    assert IsDigit(s[0]) && SkipSpace(s) == s;
    assert s[..|s|] == s;
  }

  lemma {:induction false} WordAt(w: string, rest: string)
    requires NoSpace(w) && (rest == "" || IsSpace(rest[0]))
    ensures Word(w + rest) == w
  {
    if w == "" {
      assert w + rest == rest;
    } else {
      assert (w + rest)[1..] == w[1..] + rest;
      WordAt(w[1..], rest);
    }
  }

  lemma ExtractAt(w: string, rest: string)
    requires w != "" && NoSpace(w) && (rest == "" || IsSpace(rest[0]))
    ensures Extract(w + rest) == (w, rest) && Extract(" " + (w + rest)) == (w, rest)
  {
    WordAt(w, rest);
    var s := w + rest;
    assert SkipSpace(s) == s && s[|w|..] == rest;
    assert (" " + s)[1..] == s;
  }

  predicate NoCrlf(s: string) {
    forall i: nat :: i + 1 < |s| ==> !CrlfAt(s, i)
  }

  lemma CrlfAfter(line: string, rest: string)
    requires NoCrlf(line)
    ensures FindCRLF(line + CRLF + rest) == Some(|line|)
    ensures (line + CRLF + rest)[..|line|] == line && (line + CRLF + rest)[|line| + 2..] == rest
  {
    var s := line + CRLF + rest;
    FindCRLFIsFirst(s);
    assert CrlfAt(s, |line|);
    assert forall j: nat :: j + 1 < |line| && CrlfAt(s, j) ==> CrlfAt(line, j);
    assert s[|line|] == '\r';
  }

  lemma WordsParsed(m: Message)
    requires Canonical(m)
    ensures var line := m.verb + " " + Target(m) + " " + m.version;
            '\n' !in line && Words(line) == (m.verb, Target(m), m.version)
  {
    hide Extract;
    var t := Target(m);
    TargetParsed(m);
    SupportedWords(m);
    var line := m.verb + " " + t + " " + m.version;
    ExtractAt(m.verb, " " + (t + (" " + m.version)));
    assert line == m.verb + (" " + (t + (" " + m.version)));
    ExtractAt(t, " " + m.version);
    ExtractAt(m.version, "");
    assert m.version + "" == m.version && Extract(" " + m.version) == (m.version, "");
    WordsChain(line, m.verb, " " + (t + (" " + m.version)), t, " " + m.version, m.version);
  }

  lemma WordsChain(line: string, verb: string, s1: string, uri: string, s2: string, version: string)
    requires Extract(line) == (verb, s1) && Extract(s1) == (uri, s2) && Extract(s2).0 == version
    ensures Words(line) == (verb, uri, version)
  {
  }

  lemma RequestLineParsed(m: Message)
    requires Canonical(m)
    ensures ParseLine(CLEARED, m.verb + " " + Target(m) + " " + m.version) ==
            (NoRequest, CLEARED.(checkstate := ExpectHeader, verb := m.verb, methodType := SUPPORTED_METHODS[m.verb],
                                 url := m.path, query := if m.query.Some? then m.query.value else "",
                                 version := m.version, versionType := SUPPORTED_VERSIONS[m.version]))
  {
    WordsParsed(m);
    TargetParsed(m);
    assert Target(m)[0..] == Target(m);
  }

  lemma SupportedWords(m: Message)
    requires Canonical(m)
    ensures m.verb != "" && NoSpace(m.verb) && m.version != "" && NoSpace(m.version)
    ensures '\n' !in m.verb && '\n' !in m.version
  {
    assert m.verb in {"GET", "POST"};
    assert m.version in {"HTTP/1.0", "HTTP/1.1", "http/1.0", "http/1.1"};
  }

  lemma TargetParsed(m: Message)
    requires Canonical(m)
    ensures var t := Target(m);
            && t != "" && t[0] == '/' && NoSpace(t) && '\n' !in t && Find(t, '/') == Some(0)
            && forall r: Request :: r.query == "" ==>
                 SetTarget(r, t) == r.(url := m.path, query := if m.query.Some? then m.query.value else "")
  {
    var t := Target(m);
    if m.query.Some? {
      FindAt(m.path, '?', m.query.value);
      assert t == m.path + ['?'] + m.query.value;
      assert t[..|m.path|] == m.path && t[|m.path| + 1..] == m.query.value;
    } else {
      FindIsFirst(t, '?');
      assert t == m.path;
    }
    assert forall i :: 0 <= i < |t| ==> !IsSpace(t[i]);
  }

  lemma FieldParsed(req: Request, f: (string, string), body: string)
    requires req.checkstate == ExpectHeader && FieldOk(f, body) && |body| < 0x8000_0000
    ensures ParseLine(req, f.0 + ": " + f.1) ==
            (NoRequest, req.(headers := req.headers[f.0 := f.1],
                             contentLength := if f.0 == CONTENT_LENGTH then |body| else req.contentLength))
  {
    var line := f.0 + ": " + f.1;
    FindAt(f.0, ':', " " + f.1);
    assert line == f.0 + [':'] + (" " + f.1);
    assert line[..|f.0|] == f.0 && line[|f.0| + 2..] == f.1;
    if f.0 == CONTENT_LENGTH { StoiDecimal(|body|); }
  }

  lemma {:induction false} FieldMapKeeps(headers: map<string, string>, fields: seq<(string, string)>, k: string)
    ensures k in FieldMap(headers, fields) <==> k in headers || exists i :: 0 <= i < |fields| && fields[i].0 == k
    decreases |fields|
  {
    if fields != [] {
      FieldMapKeeps(headers[fields[0].0 := fields[0].1], fields[1..], k);
      if exists i :: 0 <= i < |fields| && fields[i].0 == k {
        var i :| 0 <= i < |fields| && fields[i].0 == k;
        if i > 0 { assert fields[1..][i - 1].0 == k; }
      }
      if exists i :: 0 <= i < |fields[1..]| && fields[1..][i].0 == k {
        var i :| 0 <= i < |fields[1..]| && fields[1..][i].0 == k;
        assert fields[i + 1].0 == k;
      }
    }
  }

  /** The header section is read field by field, in order. */
  lemma {:induction false} FieldsParsed(req: Request, fields: seq<(string, string)>, body: string, rest: string)
    requires req.checkstate == ExpectHeader && |body| < 0x8000_0000
    requires forall i :: 0 <= i < |fields| ==> FieldOk(fields[i], body)
    ensures Decode(req, PrintFields(fields) + rest) ==
            Decode(req.(headers := FieldMap(req.headers, fields),
                           contentLength := if DeclaresLength(fields) then |body| else req.contentLength), rest)
    decreases |fields|
  {
    hide ParseLine;
    if fields == [] {
      assert PrintFields(fields) + rest == rest;
    } else {
      var line := fields[0].0 + ": " + fields[0].1;
      var more := PrintFields(fields[1..]) + rest;
      assert PrintFields(fields) + rest == line + CRLF + more;
      CrlfAfter(line, more);
      FieldParsed(req, fields[0], body);
      var r := ParseLine(req, line).1;
      LineTaken(req, line + CRLF + more, |line|);
      FieldsParsed(r, fields[1..], body, rest);
      assert DeclaresLength(fields) <==> fields[0].0 == CONTENT_LENGTH || DeclaresLength(fields[1..]) by {
        if DeclaresLength(fields) {
          var i :| 0 <= i < |fields| && fields[i].0 == CONTENT_LENGTH;
          if i > 0 { assert fields[1..][i - 1].0 == CONTENT_LENGTH; }
        }
        if DeclaresLength(fields[1..]) {
          var i :| 0 <= i < |fields[1..]| && fields[1..][i].0 == CONTENT_LENGTH;
          assert fields[i + 1].0 == CONTENT_LENGTH;
        }
      }
    }
  }

  /** Parse after print: a canonical request followed by any bytes decodes to exactly its
      fields and body, leaving exactly those bytes. */
  lemma PrintedIsParsed(m: Message, extra: string)
    requires Canonical(m)
    ensures Decode(CLEARED, Print(m) + extra) == Outcome(GetRequest, Parsed(m), extra)
  {
    hide ParseLine;
    var line := m.verb + " " + Target(m) + " " + m.version;
    var after := PrintFields(m.fields) + (CRLF + (m.body + extra));
    assert Print(m) + extra == line + CRLF + after;
    WordsParsed(m);
    RequestLineParsed(m);
    CrlfAfter(line, after);
    var r1 := ParseLine(CLEARED, line).1;
    LineTaken(CLEARED, line + CRLF + after, |line|);
    FieldsParsed(r1, m.fields, m.body, CRLF + (m.body + extra));
    var r2 := r1.(headers := FieldMap(r1.headers, m.fields),
                  contentLength := if DeclaresLength(m.fields) then |m.body| else 0);
    FieldMapKeeps(map[], m.fields, CONTENT_LENGTH);
    BlankLineParsed(r2, m.body, extra);
  }

  lemma BlankLineParsed(req: Request, body: string, extra: string)
    requires req.checkstate == ExpectHeader && req.content == ""
    requires req.contentLength == (if CONTENT_LENGTH in req.headers then |body| else 0)
    requires body != "" ==> CONTENT_LENGTH in req.headers
    ensures Decode(req, CRLF + (body + extra)) ==
            Outcome(GetRequest, req.(checkstate := GetAll, content := body), extra)
  {
    CrlfAfter("", body + extra);
    assert "" + CRLF + (body + extra) == CRLF + (body + extra);
    if body != "" {
      assert (body + extra)[..|body|] == body && (body + extra)[|body|..] == extra;
    } else {
      assert body + extra == extra;
    }
  }

  // ---------------------------------------------------------------------------
  // The request object

  /** Where the decode loop stops without taking a line. */
  lemma NoLineYet(req: Request, s: string)
    ensures req.checkstate == GetAll ==> Decode(req, s) == Outcome(BadRequest, req, s)
    ensures req.checkstate in {ExpectRequestLine, ExpectHeader} && FindCRLF(s).None? ==>
              Decode(req, s) == Outcome(if '\n' in s then BadRequest else NoRequest, req, s)
  {
    hide ParseLine;
  }

  datatype LineStatus = LineOk | LineBad | LineOpen

  class HttpRequest {
    var checkstate: CheckState
    var methodType: Method
    var verb: string
    var url: string
    var query: string
    var versionType: Version
    var version: string
    var headers: map<string, string>
    var contentLength: int
    var content: string

    ghost function View(): Request
      reads this
    {
      Request(checkstate, methodType, verb, url, query, versionType, version, headers, contentLength, content)
    }

    constructor ()
      ensures View() == CLEARED
    {
      checkstate, methodType, verb, url, query := ExpectRequestLine, InvalidMethod, "", "", "";
      versionType, version, headers, contentLength, content := InvalidVersion, "", map[], 0, "";
    }

    method Clear()
      modifies this
      ensures View() == CLEARED
    {
      checkstate, methodType, verb, url, query := ExpectRequestLine, InvalidMethod, "", "", "";
      versionType, version, headers, contentLength, content := InvalidVersion, "", map[], 0, "";
    }

    method ParseLineStatus(buf: Buffer) returns (status: LineStatus)
      requires buf.Valid()
      ensures status == LineOk <==> FindCRLF(Readable(buf.View())).Some?
      ensures status == LineBad <==> FindCRLF(Readable(buf.View())).None? && '\n' in Readable(buf.View())
    {
      var crlf := buf.SearchCRLF();
      if crlf.Some? { return LineOk; }
      var i := buf.readerIndex;
      while i < buf.writerIndex
        invariant buf.readerIndex <= i <= buf.writerIndex
        invariant forall k :: buf.readerIndex <= k < i ==> buf.buffer[k] != '\n'
      {
        if buf.buffer[i] == '\n' {
          assert Readable(buf.View())[i - buf.readerIndex] == '\n';
          return LineBad;
        }
        i := i + 1;
      }
      status := LineOpen;
    }

    /** Takes the first line and its CR LF out of the buffer. */
    method RetrieveLine(buf: Buffer) returns (line: string)
      requires buf.Valid() && FindCRLF(Readable(buf.View())).Some?
      modifies buf`readerIndex, buf`writerIndex
      ensures buf.Valid() && FindCRLF(old(Readable(buf.View()))) == Some(|line|)
      ensures |line| + 2 <= |old(Readable(buf.View()))|
      ensures line == old(Readable(buf.View()))[..|line|]
      ensures Readable(buf.View()) == old(Readable(buf.View()))[|line| + 2..]
    {
      hide FindCRLF;
      ghost var s := Readable(buf.View());
      FindCRLFIsFirst(s);
      var crlf := buf.SearchCRLF();
      assert CrlfAt(s, crlf.value);
      line := buf.Front(crlf.value);
      buf.RetrieveBytes(crlf.value + 2);
    }

    method TakeTarget(target: string)
      modifies this`url, this`query
      ensures View() == SetTarget(old(View()), target)
    {
      var idx := Find(target, '?');
      if idx.Some? {
        FindIsFirst(target, '?');
        url := target[..idx.value];
        query := target[idx.value + 1..];
      } else {
        url := target;
      }
    }

    method TakeRequestLine(line: string) returns (code: Code)
      modifies this
      ensures (code, View()) == ParseRequestLine(old(View()), line)
    {
      hide Words, Find, StripScheme, SetTarget;
      var (word, uri, ver) := Words(line);
      if word !in SUPPORTED_METHODS { return BadRequest; }
      verb := word;
      methodType := SUPPORTED_METHODS[word];
      uri := StripScheme(uri);
      var idx := Find(uri, '/');
      if idx.None? { return BadRequest; }
      FindIsFirst(uri, '/');
      TakeTarget(uri[idx.value..]);
      if ver !in SUPPORTED_VERSIONS { return BadRequest; }
      version := ver;
      versionType := SUPPORTED_VERSIONS[ver];
      checkstate := ExpectHeader;
      code := NoRequest;
    }

    method TakeHeader(line: string) returns (code: Code)
      modifies this
      ensures (code, View()) == ParseHeader(old(View()), line)
    {
      if line == "" {
        if CONTENT_LENGTH in headers && contentLength > 0 {
          checkstate := ExpectContent;
          return NoRequest;
        }
        checkstate := GetAll;
        return GetRequest;
      }
      var idx := Find(line, ':');
      if idx.Some? {
        if idx.value + 2 > |line| { return Thrown; }
        var field := line[..idx.value];
        var value := line[idx.value + 2..];
        headers := headers[field := value];
        if field == CONTENT_LENGTH {
          var n := Stoi(value);
          if n.None? { return Thrown; }
          contentLength := n.value;
        }
      }
      code := NoRequest;
    }

    method TakeContent(buf: Buffer) returns (code: Code)
      requires buf.Valid() && checkstate == ExpectContent
      modifies this, buf`readerIndex, buf`writerIndex
      ensures buf.Valid()
      ensures Outcome(code, View(), Readable(buf.View())) == Decode(old(View()), old(Readable(buf.View())))
    {
      hide ParseLine, FindCRLF;
      var readable := buf.ReadableBytes();
      if contentLength < 0 || readable < contentLength { return NoRequest; }
      content := buf.Front(contentLength);
      buf.RetrieveBytes(contentLength);
      checkstate := GetAll;
      code := GetRequest;
    }

    /** The decode loop; it ends because every line taken is at least two bytes long. */
    method TryDecode(buf: Buffer) returns (code: Code)
      requires buf.Valid()
      modifies this, buf`readerIndex, buf`writerIndex
      ensures buf.Valid()
      ensures Outcome(code, View(), Readable(buf.View())) == Decode(old(View()), old(Readable(buf.View())))
    {
      hide Decode, ParseRequestLine, ParseHeader, FindCRLF;
      var linestatus := LineOk;
      while checkstate != GetAll
        invariant buf.Valid() && linestatus == LineOk
        invariant Decode(View(), Readable(buf.View())) == Decode(old(View()), old(Readable(buf.View())))
        decreases |Readable(buf.View())|
      {
        if checkstate == ExpectContent {
          code := TakeContent(buf);
          return;
        }
        linestatus := ParseLineStatus(buf);
        ghost var req, s := View(), Readable(buf.View());
        NoLineYet(req, s);
        if linestatus != LineOk { break; }
        var line := RetrieveLine(buf);
        LineTaken(req, s, |line|);
        if checkstate == ExpectRequestLine {
          code := TakeRequestLine(line);
        } else {
          code := TakeHeader(line);
        }
        if code != NoRequest { return; }
      }
      NoLineYet(View(), Readable(buf.View()));
      code := if linestatus == LineOpen then NoRequest else BadRequest;
    }
  }
}
