/** Requests as they arrive in the real buffer: every chunk is read with readFd, the decoder runs
    on the readable bytes, and what it takes is retrieved. This joins modules Buffers and
    HttpRequests: with compaction from the reader index nothing changes, and as written the
    compaction can corrupt a request exactly when it is longer than a new buffer.
 */
module HttpInput {
  import opened Options
  import opened Buffers
  import opened HttpRequests

  lemma RestIsSuffix(req: Request, s: string)
    ensures var rest := DecodeHttpRequest(req, s).rest;
            |rest| <= |s| && rest == s[|s| - |rest|..]
  {
    DecodeShrinks(req, s);
    hide Decode;
  }

  /** Retrieving what the decoder took leaves what it did not. */
  lemma RetrieveTaken(b: Layout, rest: string)
    requires LayoutOk(b) && |rest| <= |Readable(b)| && rest == Readable(b)[|Readable(b)| - |rest|..]
    ensures var r := Retrieve(b, |Readable(b)| - |rest|);
            LayoutOk(r) && Readable(r) == rest && r.writer <= b.writer && r.bytes == b.bytes
  {
  }

  /** The buffer after decodeHttpRequest has taken what it wants. */
  function Decoded(req: Request, b: Layout): (r: Layout)
    requires LayoutOk(b)
    ensures LayoutOk(r) && Readable(r) == DecodeHttpRequest(req, Readable(b)).rest
    ensures r.writer <= b.writer && r.bytes == b.bytes
  {
    var rest := DecodeHttpRequest(req, Readable(b)).rest;
    RestIsSuffix(req, Readable(b));
    RetrieveTaken(b, rest);
    Retrieve(b, |Readable(b)| - |rest|)
  }

  /** The buffer after a read. */
  function Filled(b: Layout, data: string, from: CopyFrom): (r: Layout)
    requires LayoutOk(b) && |data| <= Writable(b) + EXTRA_SIZE
    ensures LayoutOk(r) && |Readable(r)| == |Readable(b)| + |data|
    ensures from.FromReader? || !ReadCompacts(b, data) ==> Readable(r) == Readable(b) + data
  {
    ReadFdExtends(b, data, from);
    ReadFd(b, data, from)
  }

  /** readv(2) delivers at most the free space and the extra buffer, at every read of the run. */
  ghost predicate ReadsFit(req: Request, b: Layout, chunks: seq<string>, from: CopyFrom)
    requires LayoutOk(b)
    decreases |chunks|
  {
    chunks != [] ==>
      && |chunks[0]| <= Writable(b) + EXTRA_SIZE
      && var b1 := Filled(b, chunks[0], from);
         var o := DecodeHttpRequest(req, Readable(b1));
         o.code == NoRequest ==> ReadsFit(o.req, Decoded(req, b1), chunks[1..], from)
  }

  /** The chunks arrive one by one, as in `Feed`, but in the buffer. */
  ghost function BufferFeed(req: Request, b: Layout, chunks: seq<string>, from: CopyFrom): Outcome
    requires LayoutOk(b) && ReadsFit(req, b, chunks, from)
    decreases |chunks|
  {
    if chunks == [] then Outcome(NoRequest, req, Readable(b))
    else
      var b1 := Filled(b, chunks[0], from);
      var o := DecodeHttpRequest(req, Readable(b1));
      if o.code == NoRequest then BufferFeed(o.req, Decoded(req, b1), chunks[1..], from)
      else o.(rest := o.rest + Concat(chunks[1..]))
  }

  ghost predicate NeverCompacts(req: Request, b: Layout, chunks: seq<string>, from: CopyFrom)
    requires LayoutOk(b) && ReadsFit(req, b, chunks, from)
    decreases |chunks|
  {
    chunks != [] ==>
      && !ReadCompacts(b, chunks[0])
      && var b1 := Filled(b, chunks[0], from);
         var o := DecodeHttpRequest(req, Readable(b1));
         o.code == NoRequest ==> NeverCompacts(o.req, Decoded(req, b1), chunks[1..], from)
  }

  // ---------------------------------------------------------------------------
  // Where the buffer is a byte sequence

  /** With compaction from the reader index, or as long as nothing compacts, the buffer makes no
      difference to what is decoded. */
  lemma {:induction false} BufferFeedIsFeed(req: Request, b: Layout, chunks: seq<string>, from: CopyFrom)
    requires LayoutOk(b) && ReadsFit(req, b, chunks, from)
    requires from.FromReader? || NeverCompacts(req, b, chunks, from)
    ensures BufferFeed(req, b, chunks, from) == Feed(req, Readable(b), chunks)
    decreases |chunks|
  {
    hide Decode, Filled, Decoded;
    if chunks != [] {
      var b1 := Filled(b, chunks[0], from);
      var o := DecodeHttpRequest(req, Readable(b1));
      if o.code == NoRequest { BufferFeedIsFeed(o.req, Decoded(req, b1), chunks[1..], from); }
    }
  }

  /** Chunks of at most the extra buffer's size can be read into any buffer. */
  predicate Small(chunks: seq<string>) {
    forall c :: c in chunks ==> |c| <= EXTRA_SIZE
  }

  lemma {:induction false} SmallFits(req: Request, b: Layout, chunks: seq<string>, from: CopyFrom)
    requires LayoutOk(b) && Small(chunks)
    ensures ReadsFit(req, b, chunks, from)
    decreases |chunks|
  {
    hide Decode, Filled, Decoded;
    if chunks != [] {
      assert chunks[0] in chunks;
      var b1 := Filled(b, chunks[0], from);
      SmallFits(DecodeHttpRequest(req, Readable(b1)).req, Decoded(req, b1), chunks[1..], from);
    }
  }

  /** The writer index of a buffer that never overflows only follows the arriving bytes. */
  lemma {:induction false} ShortNeverCompacts(req: Request, b: Layout, chunks: seq<string>, from: CopyFrom)
    requires LayoutOk(b) && b.writer + |Concat(chunks)| <= |b.bytes|
    ensures ReadsFit(req, b, chunks, from) && NeverCompacts(req, b, chunks, from)
    decreases |chunks|
  {
    hide Decode, Decoded, Overlay;
    if chunks != [] {
      var b1 := Filled(b, chunks[0], from);
      ShortNeverCompacts(DecodeHttpRequest(req, Readable(b1)).req, Decoded(req, b1), chunks[1..], from);
    }
  }

  /** Every cut of `s` that can be read into buffer `b` gives what one call on the whole gives. */
  ghost predicate CutsDoNotMatter(req: Request, s: string, b: Layout, from: CopyFrom)
    requires LayoutOk(b)
  {
    forall chunks :: Concat(chunks) == s && ReadsFit(req, b, chunks, from) ==>
      BufferFeed(req, b, chunks, from) == DecodeHttpRequest(req, s)
  }

  /** With compaction from the reader index the cuts do not matter exactly when no line taken
      holds a bare LF. */
  lemma IntendedCutsIff(req: Request, s: string)
    requires RequestOk(req)
    ensures CutsDoNotMatter(req, s, NEW_LAYOUT, FromReader) <==> LinesClean(req, s)
  {
    hide Decode, BufferFeed, ReadsFit;
    var b := NEW_LAYOUT;
    assert LayoutOk(b) && Readable(b) == "";
    if LinesClean(req, s) {
      forall chunks | Concat(chunks) == s && ReadsFit(req, b, chunks, FromReader)
        ensures BufferFeed(req, b, chunks, FromReader) == DecodeHttpRequest(req, s)
      {
        BufferFeedIsFeed(req, b, chunks, FromReader);
        ChunksDoNotMatterIff(req, s);
      }
    } else {
      DirtyChunks(req, s);
      ConcatBytes(s);
      SmallFits(req, b, Bytes(s), FromReader);
      BufferFeedIsFeed(req, b, Bytes(s), FromReader);
    }
  }

  lemma ShortFeed(req: Request, b: Layout, chunks: seq<string>)
    requires LayoutOk(b) && Readable(b) == "" && |Concat(chunks)| <= INITIAL_SIZE
    ensures ReadsFit(req, b, chunks, FromBegin) && BufferFeed(req, b, chunks, FromBegin) == Feed(req, "", chunks)
  {
    ShortNeverCompacts(req, b, chunks, FromBegin);
    BufferFeedIsFeed(req, b, chunks, FromBegin);
  }

  /** As written the same holds for every stream that fits a new buffer. */
  lemma ShortCutsIff(req: Request, s: string)
    requires RequestOk(req) && |s| <= INITIAL_SIZE
    ensures CutsDoNotMatter(req, s, NEW_LAYOUT, FromBegin) <==> LinesClean(req, s)
  {
    hide Decode, BufferFeed, ReadsFit, Feed;
    var b := NEW_LAYOUT;
    assert LayoutOk(b) && Readable(b) == "";
    if LinesClean(req, s) {
      forall chunks | Concat(chunks) == s && ReadsFit(req, b, chunks, FromBegin)
        ensures BufferFeed(req, b, chunks, FromBegin) == DecodeHttpRequest(req, s)
      {
        ShortFeed(req, b, chunks);
        ChunksDoNotMatterIff(req, s);
      }
    } else {
      DirtyChunks(req, s);
      ShortFeed(req, b, Bytes(s));
    }
  }

  // ---------------------------------------------------------------------------
  // What the header fields cost

  /** The length of the fields when printed. */
  ghost function Cost(m: map<string, string>): nat {
    if m == map[] then 0
    else
      var k :| k in m;
      |k| + |m[k]| + 4 + Cost(m - {k})
  }

  lemma {:induction false} CostWithout(m: map<string, string>, k: string)
    requires k in m
    ensures Cost(m) == |k| + |m[k]| + 4 + Cost(m - {k})
    decreases |m|
  {
    var j :| j in m && Cost(m) == |j| + |m[j]| + 4 + Cost(m - {j});
    if j != k {
      CostWithout(m - {j}, k);
      CostWithout(m - {k}, j);
      assert m - {j} - {k} == m - {k} - {j};
    }
  }

  lemma CostWith(m: map<string, string>, k: string, v: string)
    ensures Cost(m[k := v]) <= Cost(m) + |k| + |v| + 4
    ensures k !in m ==> Cost(m[k := v]) == Cost(m) + |k| + |v| + 4
  {
    CostWithout(m[k := v], k);
    assert m[k := v] - {k} == m - {k};
    if k in m { CostWithout(m, k); } else { assert m - {k} == m; }
  }

  /** The bytes a request accounts for: its fields and its content. */
  ghost function Worth(req: Request): nat {
    Cost(req.headers) + |req.content|
  }

  /** A field with a NUL in its name. */
  ghost predicate HasNul(req: Request) {
    exists k :: k in req.headers && '\0' in k
  }

  /** One header line: the request is worth at most the bytes of the line more, and nothing more
      if the line starts with a NUL, unless it leaves a field with a NUL. */
  lemma LineWorth(req: Request, line: string)
    requires req.checkstate == ExpectHeader
    ensures var r := ParseLine(req, line).1;
            && Worth(r) <= Worth(req) + |line| + 2 && (HasNul(req) ==> HasNul(r))
            && r.checkstate != ExpectRequestLine && r.content == req.content
            && (line != "" && line[0] == '\0' ==> HasNul(r) || Worth(r) == Worth(req))
  {
    var r := ParseLine(req, line).1;
    FindIsFirst(line, ':');
    hide Find, Stoi, Cost;
    match Find(line, ':')
    case None =>
    case Some(i) =>
      if i + 2 <= |line| && line != "" {
        CostWith(req.headers, line[..i], line[i + 2..]);
        assert line[0] == '\0' ==> '\0' in line[..i];
        assert forall k :: k in req.headers ==> k in r.headers;
      }
  }

  /** The request line is over, and the content comes last. */
  predicate PastLine(req: Request) {
    req.checkstate != ExpectRequestLine && (req.checkstate != GetAll ==> req.content == "")
  }

  /** The decoder never makes a request worth more than the bytes it takes. */
  lemma {:induction false} DecodeWorth(req: Request, s: string)
    requires PastLine(req)
    ensures var o := Decode(req, s);
            Worth(o.req) + |o.rest| <= Worth(req) + |s| && (HasNul(req) ==> HasNul(o.req)) && PastLine(o.req)
    decreases |s|
  {
    hide ParseLine, Cost;
    if req.checkstate == ExpectHeader {
      match FindCRLF(s)
      case None =>
      case Some(i) =>
        LineTaken(req, s, i);
        LineWorth(req, s[..i]);
        var (code, r) := ParseLine(req, s[..i]);
        if code == NoRequest { DecodeWorth(r, s[i + 2..]); }
    }
  }

  lemma {:induction false} FeedWorth(req: Request, b: Layout, chunks: seq<string>)
    requires PastLine(req) && LayoutOk(b) && ReadsFit(req, b, chunks, FromBegin)
    ensures var o := BufferFeed(req, b, chunks, FromBegin);
            Worth(o.req) + |o.rest| <= Worth(req) + |Readable(b)| + |Concat(chunks)| && (HasNul(req) ==> HasNul(o.req))
    decreases |chunks|
  {
    hide Decode, Filled, Decoded, Worth, HasNul;
    if chunks != [] {
      var b1 := Filled(b, chunks[0], FromBegin);
      DecodeWorth(req, Readable(b1));
      var o := DecodeHttpRequest(req, Readable(b1));
      if o.code == NoRequest { FeedWorth(o.req, Decoded(req, b1), chunks[1..]); }
    }
  }

  // ---------------------------------------------------------------------------
  // A corrupted header section

  /** A read into a buffer of which nothing has been taken since it was empty. */
  lemma FilledAtStart(b: Layout, data: string)
    requires LayoutOk(b) && b.reader == CHEAP_PREPEND && |data| <= Writable(b) + EXTRA_SIZE
    ensures var r := Filled(b, data, FromBegin);
            && r.reader == CHEAP_PREPEND && r.writer == b.writer + |data| && Readable(r) == Readable(b) + data
            && |r.bytes| == (if r.writer <= |b.bytes| then |b.bytes| else r.writer)
            && (ReservedIsZero(b) ==> ReservedIsZero(r))
  {
    OpKeepsReservedIf(b, data);
    hide Overlay;
  }

  lemma OpKeepsReservedIf(b: Layout, data: string)
    requires LayoutOk(b) && |data| <= Writable(b) + EXTRA_SIZE
    ensures ReservedIsZero(b) ==> ReservedIsZero(ReadFd(b, data, FromBegin))
  {
    if ReservedIsZero(b) { OpKeepsReserved(b, DoRead(data), FromBegin); }
  }

  /** The first header line in the buffer starts with a NUL: nothing is taken, or a line that is
      worth nothing or leaves a field with a NUL. */
  lemma NulLine(req: Request, s: string)
    requires req.checkstate == ExpectHeader && req.content == "" && s != "" && s[0] == '\0'
    ensures var o := Decode(req, s);
            || (o == Outcome(o.code, req, s) && (o.code == NoRequest || o.code == BadRequest))
            || (PastLine(o.req) && (HasNul(o.req) || Worth(o.req) + |o.rest| + 2 < Worth(req) + |s|))
  {
    hide ParseLine, Worth, HasNul;
    FindCRLFIsFirst(s);
    match FindCRLF(s)
    case None =>
    case Some(i) =>
      LineTaken(req, s, i);
      LineWorth(req, s[..i]);
      var (code, r) := ParseLine(req, s[..i]);
      if code == NoRequest { DecodeWorth(r, s[i + 2..]); }
  }

  /** What remains of a header section whose next line starts with a NUL comes to no request, or
      to one with a NUL in a field, or to one worth less than the bytes there were. */
  lemma {:induction false} NulStays(req: Request, b: Layout, d: string, cs: seq<string>)
    requires req.checkstate == ExpectHeader && req.content == "" && LayoutOk(b) && |d| <= Writable(b) + EXTRA_SIZE
    requires var b1 := Filled(b, d, FromBegin);
             b1.reader == CHEAP_PREPEND && Readable(b1) != "" && Readable(b1)[0] == '\0'
    requires ReadsFit(req, b, [d] + cs, FromBegin)
    ensures var o := BufferFeed(req, b, [d] + cs, FromBegin);
            || o.code != GetRequest || HasNul(o.req)
            || Worth(o.req) + |o.rest| + 2 < Worth(req) + |Readable(b)| + |d| + |Concat(cs)|
    decreases |cs|
  {
    hide Decode, Filled, Worth, HasNul;
    assert ([d] + cs)[1..] == cs;
    var b1 := Filled(b, d, FromBegin);
    var s := Readable(b1);
    NulLine(req, s);
    var o := DecodeHttpRequest(req, s);
    if o == Outcome(NoRequest, req, s) {
      assert Decoded(req, b1) == b1;
      if cs != [] {
        assert cs == [cs[0]] + cs[1..];
        FilledAtStart(b1, cs[0]);
        assert (s + cs[0])[0] == '\0';
        NulStays(req, b1, cs[0], cs[1..]);
      }
    } else if o.code == NoRequest {
      FeedWorth(o.req, Decoded(req, b1), cs);
    }
  }

  // ---------------------------------------------------------------------------
  // A cut that corrupts a long request

  lemma FeedStep(req: Request, b: Layout, d: string, cs: seq<string>)
    requires LayoutOk(b) && Small([d] + cs)
    ensures |d| <= EXTRA_SIZE && ReadsFit(req, b, [d] + cs, FromBegin)
    ensures var b1 := Filled(b, d, FromBegin);
            var o := DecodeHttpRequest(req, Readable(b1));
            o.code == NoRequest ==>
              && ReadsFit(o.req, Decoded(req, b1), cs, FromBegin)
              && BufferFeed(req, b, [d] + cs, FromBegin) == BufferFeed(o.req, Decoded(req, b1), cs, FromBegin)
  {
    hide Decode, Filled, Decoded;
    assert d in [d] + cs && ([d] + cs)[1..] == cs;
    SmallFits(req, b, [d] + cs, FromBegin);
  }

  lemma NothingTaken(req: Request, b: Layout)
    requires LayoutOk(b) && DecodeHttpRequest(req, Readable(b)).rest == Readable(b)
    ensures Decoded(req, b) == b
  {
    hide Decode;
  }

  lemma LineIsOpen(req: Request, s: string)
    requires '\n' !in s && (req.checkstate == ExpectRequestLine || req.checkstate == ExpectHeader)
    ensures DecodeHttpRequest(req, s) == Outcome(NoRequest, req, s)
  {
    FindCRLFIsFirst(s);
    NoLineYet(req, s);
  }

  /** Exactly `x` has arrived since the buffer was new, and nothing has been taken. */
  ghost predicate Holds(b: Layout, x: string) {
    && LayoutOk(b) && b.reader == CHEAP_PREPEND && ReservedIsZero(b) && Readable(b) == x
    && |b.bytes| == CHEAP_PREPEND + (if |x| <= INITIAL_SIZE then INITIAL_SIZE else |x|)
  }

  lemma HoldsMore(b: Layout, x: string, d: string)
    requires Holds(b, x) && |d| <= EXTRA_SIZE
    ensures Holds(Filled(b, d, FromBegin), x + d)
  {
    FilledAtStart(b, d);
    hide Filled, ReservedIsZero;
  }

  /** One read without a line end. */
  lemma OpenArrives(b: Layout, x: string, d: string, cs: seq<string>) returns (r: Layout)
    requires Holds(b, x) && '\n' !in x + d && Small([d] + cs)
    ensures Holds(r, x + d) && ReadsFit(CLEARED, b, [d] + cs, FromBegin) && ReadsFit(CLEARED, r, cs, FromBegin)
    ensures BufferFeed(CLEARED, b, [d] + cs, FromBegin) == BufferFeed(CLEARED, r, cs, FromBegin)
  {
    FeedStep(CLEARED, b, d, cs);
    HoldsMore(b, x, d);
    LineIsOpen(CLEARED, x + d);
    hide Decode, Filled, BufferFeed, ReadsFit;
    r := Filled(b, d, FromBegin);
    NothingTaken(CLEARED, r);
  }

  lemma NoBytes(x: string, cs: seq<string>)
    ensures Bytes("") + cs == cs && x + "" == x
  {
  }

  lemma SmallAppends(a: seq<string>, b: seq<string>)
    requires Small(a) && Small(b)
    ensures Small(a + b)
  {
  }

  lemma FirstChunk(p: string, cs: seq<string>)
    requires p != "" && Small(cs)
    ensures var d, q := [p[0]], p[1..];
            Bytes(p) + cs == [d] + (Bytes(q) + cs) && Small([d] + (Bytes(q) + cs))
  {
    var d, q := [p[0]], p[1..];
    ConcatBytes(q);
    SmallAppends(Bytes(q), cs);
    SmallAppends([d], Bytes(q) + cs);
    assert ([d] + Bytes(q)) + cs == [d] + (Bytes(q) + cs);
    hide Small;
  }

  lemma FirstByte(x: string, p: string)
    requires p != "" && '\n' !in x && '\n' !in p
    ensures x + [p[0]] + p[1..] == x + p && '\n' !in x + [p[0]] && '\n' !in p[1..]
  {
  }

  /** The buffer when the bytes of an unfinished request line have come one by one. */
  lemma {:induction false} BytesArrive(b: Layout, x: string, p: string, cs: seq<string>) returns (r: Layout)
    requires Holds(b, x) && '\n' !in x && '\n' !in p && Small(cs)
    ensures Holds(r, x + p) && ReadsFit(CLEARED, b, Bytes(p) + cs, FromBegin) && ReadsFit(CLEARED, r, cs, FromBegin)
    ensures BufferFeed(CLEARED, b, Bytes(p) + cs, FromBegin) == BufferFeed(CLEARED, r, cs, FromBegin)
    decreases |p|
  {
    assert LayoutOk(b);
    hide BufferFeed, ReadsFit, Holds, LayoutOk, Small, Bytes;
    if p == "" {
      r := b;
      SmallFits(CLEARED, b, cs, FromBegin);
      NoBytes(x, cs);
    } else {
      var d, q := [p[0]], p[1..];
      FirstByte(x, p);
      FirstChunk(p, cs);
      var u := OpenArrives(b, x, d, Bytes(q) + cs);
      r := BytesArrive(u, x + d, q, cs);
    }
  }

  /** The line of `line` + CR LF + `c` is taken. */
  lemma LineEnds(line: string, c: char)
    requires '\n' !in line && c != '\n'
    requires ParseLine(CLEARED, line).0 == NoRequest && ParseLine(CLEARED, line).1.checkstate == ExpectHeader
    ensures DecodeHttpRequest(CLEARED, line + CRLF + [c]) == Outcome(NoRequest, ParseLine(CLEARED, line).1, [c])
  {
    CrlfAfter(line, [c]);
    LineTaken(CLEARED, line + CRLF + [c], |line|);
    LineIsOpen(ParseLine(CLEARED, line).1, [c]);
    hide Decode, ParseLine;
  }

  lemma TakenShape(b: Layout, line: string, c: char)
    requires Holds(b, line + CRLF + [c]) && DecodeHttpRequest(CLEARED, line + CRLF + [c]).rest == [c]
    ensures var r := Decoded(CLEARED, b);
            && ReservedIsZero(r) && Readable(r) == [c] && r.reader == CHEAP_PREPEND + |line| + 2 && r.bytes == b.bytes
            && Writable(r) == if |line| + 3 <= INITIAL_SIZE then INITIAL_SIZE - |line| - 3 else 0
  {
    hide Decode;
  }

  /** The end of the request line arrives with one byte more: the line is taken and the byte
      stays behind it. */
  lemma LineArrives(b: Layout, line: string, c: char, cs: seq<string>) returns (r: Layout)
    requires Holds(b, line + "\r") && '\n' !in line && c != '\n' && Small(cs)
    requires ParseLine(CLEARED, line).0 == NoRequest && ParseLine(CLEARED, line).1.checkstate == ExpectHeader
    ensures LayoutOk(r) && ReservedIsZero(r) && Readable(r) == [c] && r.reader == CHEAP_PREPEND + |line| + 2
    ensures Writable(r) == if |line| + 3 <= INITIAL_SIZE then INITIAL_SIZE - |line| - 3 else 0
    ensures var r1 := ParseLine(CLEARED, line).1;
            && ReadsFit(CLEARED, b, [['\n', c]] + cs, FromBegin) && ReadsFit(r1, r, cs, FromBegin)
            && BufferFeed(CLEARED, b, [['\n', c]] + cs, FromBegin) == BufferFeed(r1, r, cs, FromBegin)
  {
    var d := ['\n', c];
    HoldsMore(b, line + "\r", d);
    assert line + "\r" + d == line + CRLF + [c];
    FeedStep(CLEARED, b, d, cs);
    LineEnds(line, c);
    hide Decode, Filled, BufferFeed, ReadsFit, ParseLine;
    var b1 := Filled(b, d, FromBegin);
    TakenShape(b1, line, c);
    r := Decoded(CLEARED, b1);
  }

  /** The next read overflows by one byte and compacts: the readable bytes start with a NUL. */
  lemma CompactingRead(b: Layout, d: string)
    requires LayoutOk(b) && ReservedIsZero(b) && b.reader > CHEAP_PREPEND && |d| == Writable(b) + 1
    ensures var r := Filled(b, d, FromBegin);
            r.reader == CHEAP_PREPEND && Readable(r) != "" && Readable(r)[0] == '\0'
  {
    ReadZeroes(b, d);
    var w := Writable(b);
    FitsExtends(b, d[..w]);
    hide Overlay, StartIsZero;
    var full := Layout(Overlay(b.bytes, b.writer, d[..w]), b.reader, |b.bytes|);
    assert Compacts(full, |d[w..]|);
    assert Append(full, d[w..], FromBegin).reader == CHEAP_PREPEND;
    assert StartIsZero(b, Filled(b, d, FromBegin));
    StartZero(b, Filled(b, d, FromBegin));
  }

  lemma StartZero(b: Layout, r: Layout)
    requires LayoutOk(b) && LayoutOk(r) && StartIsZero(b, r) && Readable(b) != ""
    ensures Readable(r) != "" && Readable(r)[0] == '\0'
  {
  }

  // ---------------------------------------------------------------------------
  // Printed requests

  /** Field names are distinct and have no NUL in them. */
  predicate PlainNames(fields: seq<(string, string)>) {
    && (forall i, j :: 0 <= i < j < |fields| ==> fields[i].0 != fields[j].0)
    && (forall i :: 0 <= i < |fields| ==> '\0' !in fields[i].0)
  }

  lemma {:induction false} FieldsCost(headers: map<string, string>, fields: seq<(string, string)>)
    requires PlainNames(fields) && forall i :: 0 <= i < |fields| ==> fields[i].0 !in headers
    ensures Cost(FieldMap(headers, fields)) == Cost(headers) + |PrintFields(fields)|
    decreases |fields|
  {
    hide Cost;
    if fields != [] {
      CostWith(headers, fields[0].0, fields[0].1);
      assert forall i :: 0 <= i < |fields[1..]| ==> fields[1..][i] == fields[i + 1];
      FieldsCost(headers[fields[0].0 := fields[0].1], fields[1..]);
    }
  }

  function FirstLine(m: Message): string { m.verb + " " + Target(m) + " " + m.version }

  function AfterFirst(m: Message): string { PrintFields(m.fields) + CRLF + m.body }

  lemma PrintParts(m: Message)
    requires Canonical(m)
    ensures Print(m) == FirstLine(m) + CRLF + AfterFirst(m) && |AfterFirst(m)| >= 2 && AfterFirst(m)[0] != '\n'
  {
    hide Target;
    if m.fields != [] {
      var f := m.fields[0];
      assert FieldOk(f, m.body);
      assert AfterFirst(m)[0] == (f.0 + ": ")[0];
    }
  }

  /** What a plain canonical request is worth. */
  lemma ParsedWorth(m: Message)
    requires Canonical(m) && PlainNames(m.fields)
    ensures Worth(Parsed(m)) + 2 == |AfterFirst(m)| && !HasNul(Parsed(m))
  {
    FieldsCost(map[], m.fields);
    forall k | k in FieldMap(map[], m.fields)
      ensures '\0' !in k
    {
      FieldMapKeeps(map[], m.fields, k);
    }
    hide Cost;
  }

  /** The room left in the vector once the request line and one byte more have arrived. */
  function RoomAfter(line: string): nat {
    if |line| + 3 <= INITIAL_SIZE then INITIAL_SIZE - |line| - 3 else 0
  }

  /** The request line byte by byte, its LF with one byte more, one byte more than there is room
      for, and the rest byte by byte. */
  function CorruptingCut(line: string, after: string): seq<string>
    requires |after| >= RoomAfter(line) + 2
  {
    var n := RoomAfter(line) + 2;
    Bytes(line + "\r") + ([['\n', after[0]]] + ([after[1..n]] + Bytes(after[n..])))
  }

  lemma ConcatCons(c: string, cs: seq<string>)
    ensures Concat([c] + cs) == c + Concat(cs)
  {
    assert ([c] + cs)[1..] == cs;
  }

  lemma Rejoined(line: string, after: string, n: nat)
    requires 1 <= n <= |after|
    ensures (line + "\r") + (['\n', after[0]] + (after[1..n] + after[n..])) == line + CRLF + after
  {
    assert after[1..n] + after[n..] == after[1..];
    assert ['\n', after[0]] + after[1..] == "\n" + after;
  }

  lemma CutConcat(line: string, after: string)
    requires |after| >= RoomAfter(line) + 2
    ensures Concat(CorruptingCut(line, after)) == line + CRLF + after
  {
    var n := RoomAfter(line) + 2;
    ConcatBytes(line + "\r");
    ConcatBytes(after[n..]);
    hide Concat, Bytes;
    var last := [after[1..n]] + Bytes(after[n..]);
    ConcatCons(after[1..n], Bytes(after[n..]));
    ConcatCons(['\n', after[0]], last);
    ConcatAppends(Bytes(line + "\r"), [['\n', after[0]]] + last);
    Rejoined(line, after, n);
  }

  lemma TailIsSmall(c: string, d: string, p: string)
    requires |c| <= EXTRA_SIZE && |d| <= EXTRA_SIZE
    ensures Small([d] + Bytes(p)) && Small([c] + ([d] + Bytes(p)))
  {
    ConcatBytes(p);
    SmallAppends([d], Bytes(p));
    SmallAppends([c], [d] + Bytes(p));
  }

  /** No request comes out, or one with a NUL in a field, or one worth less than `n` bytes. */
  ghost predicate Spoilt(o: Outcome, n: int) {
    o.code != GetRequest || HasNul(o.req) || Worth(o.req) + |o.rest| + 2 < n
  }

  /** The read that overflows the vector by one byte spoils what is left of the header section. */
  lemma OverflowSpoils(req: Request, b: Layout, d: string, p: string)
    requires req.checkstate == ExpectHeader && req.content == ""
    requires LayoutOk(b) && ReservedIsZero(b) && b.reader > CHEAP_PREPEND && |d| == Writable(b) + 1
    requires ReadsFit(req, b, [d] + Bytes(p), FromBegin)
    ensures Spoilt(BufferFeed(req, b, [d] + Bytes(p), FromBegin), Worth(req) + |Readable(b)| + |d| + |p|)
  {
    hide BufferFeed, ReadsFit, Filled, Worth, HasNul;
    ConcatBytes(p);
    CompactingRead(b, d);
    NulStays(req, b, d, Bytes(p));
  }

  lemma NewHolds()
    ensures LayoutOk(NEW_LAYOUT) && Holds(NEW_LAYOUT, "")
  {
  }

  /** The cut leads to a header section that starts with a NUL. */
  lemma CutSpoils(b: Layout, line: string, c: char, d: string, p: string)
    requires LayoutOk(b) && Holds(b, "") && |d| == RoomAfter(line) + 1 && '\n' !in line && c != '\n'
    requires ParseLine(CLEARED, line).0 == NoRequest && ParseLine(CLEARED, line).1.checkstate == ExpectHeader
    requires ParseLine(CLEARED, line).1.content == ""
    ensures var cut := Bytes(line + "\r") + ([['\n', c]] + ([d] + Bytes(p)));
            && ReadsFit(CLEARED, b, cut, FromBegin)
            && Spoilt(BufferFeed(CLEARED, b, cut, FromBegin), Worth(ParseLine(CLEARED, line).1) + 1 + |d| + |p|)
  {
    hide BufferFeed, ReadsFit, ParseLine, Holds, Worth, Spoilt, Bytes, Small;
    var tail := [d] + Bytes(p);
    TailIsSmall(['\n', c], d, p);
    var u := BytesArrive(b, "", line + "\r", [['\n', c]] + tail);
    assert "" + (line + "\r") == line + "\r";
    var v := LineArrives(u, line, c, tail);
    OverflowSpoils(ParseLine(CLEARED, line).1, v, d, p);
  }

  /** As written, the cuts of a canonical request do not matter exactly when it fits a new buffer:
      every longer one has a cut on which it is corrupted, whatever its fields and its body. */
  lemma LongRequestsIff(m: Message)
    requires Canonical(m) && PlainNames(m.fields)
    ensures CutsDoNotMatter(CLEARED, Print(m), NEW_LAYOUT, FromBegin) <==> |Print(m)| <= INITIAL_SIZE
  {
    hide BufferFeed, ReadsFit, Decode, Canonical, Print, Worth, HasNul;
    if |Print(m)| <= INITIAL_SIZE {
      PrintIsClean(m);
      ShortCutsIff(CLEARED, Print(m));
    } else {
      PrintParts(m);
      LongRequestIsCorrupted(m);
    }
  }

  lemma LongRequestIsCorrupted(m: Message)
    requires Canonical(m) && PlainNames(m.fields) && |Print(m)| > INITIAL_SIZE
    ensures |AfterFirst(m)| >= RoomAfter(FirstLine(m)) + 2
    ensures var cut := CorruptingCut(FirstLine(m), AfterFirst(m));
            && Concat(cut) == Print(m) && LayoutOk(NEW_LAYOUT) && ReadsFit(CLEARED, NEW_LAYOUT, cut, FromBegin)
            && BufferFeed(CLEARED, NEW_LAYOUT, cut, FromBegin) != DecodeHttpRequest(CLEARED, Print(m))
  {
    PrintParts(m);
    WordsParsed(m);
    RequestLineParsed(m);
    PrintedIsParsed(m, "");
    ParsedWorth(m);
    var line, after := FirstLine(m), AfterFirst(m);
    hide BufferFeed, ReadsFit, Decode, Canonical, Words, Parsed, ParseLine;
    CutConcat(line, after);
    var n := RoomAfter(line) + 2;
    NewHolds();
    CutSpoils(NEW_LAYOUT, line, after[0], after[1..n], after[n..]);
    assert Print(m) + "" == Print(m);
  }

  // ---------------------------------------------------------------------------
  // Printed requests have no bare LF

  lemma {:induction false} FieldsAreClean(req: Request, fields: seq<(string, string)>, body: string, rest: string)
    requires req.checkstate == ExpectHeader && |body| < 0x8000_0000
    requires forall i :: 0 <= i < |fields| ==> FieldOk(fields[i], body)
    requires forall r: Request :: r.checkstate == ExpectHeader ==> LinesClean(r, rest)
    ensures LinesClean(req, PrintFields(fields) + rest)
    decreases |fields|
  {
    hide ParseLine;
    if fields == [] {
      assert PrintFields(fields) + rest == rest;
    } else {
      var line := fields[0].0 + ": " + fields[0].1;
      var more := PrintFields(fields[1..]) + rest;
      assert PrintFields(fields) + rest == line + CRLF + more;
      CrlfAfter(line, more);
      FieldParsed(req, fields[0], body);
      FieldsAreClean(ParseLine(req, line).1, fields[1..], body, rest);
    }
  }

  lemma BlankIsClean(req: Request, rest: string)
    requires req.checkstate == ExpectHeader
    ensures LinesClean(req, CRLF + rest)
  {
    CrlfAfter("", rest);
    assert "" + CRLF + rest == CRLF + rest;
    assert (CRLF + rest)[..0] == "";
  }

  lemma FirstLineIsClean(line: string, after: string)
    requires '\n' !in line && ParseLine(CLEARED, line).0 == NoRequest && LinesClean(ParseLine(CLEARED, line).1, after)
    ensures LinesClean(CLEARED, line + CRLF + after)
  {
    CrlfAfter(line, after);
    hide ParseLine;
  }

  lemma AfterIsClean(m: Message, req: Request)
    requires Canonical(m) && req.checkstate == ExpectHeader
    ensures LinesClean(req, AfterFirst(m))
  {
    forall r: Request | r.checkstate == ExpectHeader
      ensures LinesClean(r, CRLF + m.body)
    {
      BlankIsClean(r, m.body);
    }
    hide LinesClean;
    assert PrintFields(m.fields) + (CRLF + m.body) == AfterFirst(m);
    FieldsAreClean(req, m.fields, m.body, CRLF + m.body);
  }

  lemma PrintIsClean(m: Message)
    requires Canonical(m)
    ensures LinesClean(CLEARED, Print(m))
  {
    PrintParts(m);
    WordsParsed(m);
    RequestLineParsed(m);
    hide ParseLine, Words, Target, LinesClean, Print, AfterFirst, Canonical;
    AfterIsClean(m, ParseLine(CLEARED, FirstLine(m)).1);
    FirstLineIsClean(FirstLine(m), AfterFirst(m));
  }
}
