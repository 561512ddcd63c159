/** What each step of an HTTP session does, seen from outside: end of file, errors, verdicts and
    their answers, writes, and the write-complete callback.
 */
module HttpSessions {
  import opened Options
  import P = Pollers
  import opened Connections
  import opened HttpRequests
  import opened HttpErrors
  import opened HttpVerdicts
  import opened HttpServers
  import opened HttpOverlap

  /** At the end of file the connection is disconnected and silent, and nothing else happens: no
      byte is taken, sent or forgotten. */
  lemma EofCloses(h: Http)
    requires Reachable(h) && Enabled(h, ReadEof)
    ensures Next(h, ReadEof) ==
            h.(agenda := h.agenda[1..], conn := h.conn.(state := Disconnected, events := P.Interest(false, false)))
  {
    ReachableCount(h);
    assert h.agenda[0] == OnRead;
  }

  /** A failing read changes nothing. */
  lemma ReadErrorDoesNothing(h: Http)
    requires Enabled(h, ReadError)
    ensures Next(h, ReadError) == h.(agenda := h.agenda[1..])
  {
  }

  /** While the request is open, or one is being answered, a read only takes its lines. */
  lemma OpenReadOnlyDecodes(h: Http, data: string, r: Reply)
    requires Enabled(h, Read(data, r)) && DecodeHttpRequest(h.req, h.input + data).code == NoRequest
    ensures var o := DecodeHttpRequest(h.req, h.input + data);
            Next(h, Read(data, r)) == h.(agenda := h.agenda[1..], req := o.req, input := o.rest)
    ensures h.req.checkstate == GetAll ==> Next(h, Read(data, r)) == h.(agenda := h.agenda[1..], input := h.input + data)
  {
    hide Decode;
  }

  /** No answer yet, and still connected. */
  predicate IsWaiting(h: Http) {
    h.answer.None? && h.conn.state == Connected && !h.badFirst && !h.dead
  }

  lemma WaitingIs(h: Http)
    requires Reachable(h) && IsWaiting(h)
    ensures ConnInv(h.conn) && h.conn.output == "" && h.wire == "" && h.resp == CLEAR_RESP && !h.closing && !h.conn.events.write
  {
    ReachableInv(h);
    hide ConnInv;
  }

  /** The answer to the first request, its first bytes `out` in the output. */
  predicate Answers(h: Http, k: Http, out: string, answer: string) {
    && k.answer == Some(answer) && k.responses == h.responses + 1 && !k.dead && !k.aborted
    && k.conn == h.conn.(output := out, accepted := h.conn.accepted + out, events := h.conn.events.(write := true))
    && k.wire == h.wire && k.queue == h.queue && h.agenda != [] && k.agenda == h.agenda[1..] && !k.closing
  }

  lemma SentOnce(c: Conn, x: string, y: string)
    requires c.state == Connected && c.output == ""
    ensures AfterSend(AfterSend(c, x), y) ==
            c.(output := x + y, accepted := c.accepted + (x + y), events := c.events.(write := true))
  {
    assert "" + x == x && (c.accepted + x) + y == c.accepted + (x + y);
  }

  /** The first bytes of a reply that go to the output. */
  function FirstPiece(r: Reply): string
    requires ReplyOk(r) && !r.IoFailure?
  {
    r.hdr + (if r.FileReply? then r.file[..r.n] else r.text)
  }

  lemma RespondAnswers(h: Http, r: Reply)
    requires h.conn.state == Connected && h.conn.output == "" && h.resp == CLEAR_RESP && ReplyOk(r) && !r.IoFailure?
    ensures Respond(h, r).conn ==
            h.conn.(output := FirstPiece(r), accepted := h.conn.accepted + FirstPiece(r),
                    events := h.conn.events.(write := true))
  {
    var resp := Load(CLEAR_RESP, r);
    assert "" + r.hdr == r.hdr;
    assert resp.body == if r.FileReply? then r.file[..r.n] else r.text;
    SentOnce(h.conn, resp.headers, resp.body);
  }

  lemma PageIs(r: Reply)
    requires ReplyOk(r)
    ensures var page := r.hdr + (if r.FailReply? then r.text else "");
            FirstPiece(ErrorPage(r)) == page && Whole(ErrorPage(r)) == page
  {
  }

  /** A bad request is answered with the error page, which is the whole response. */
  lemma BadRequestIsAnswered(h: Http, data: string, r: Reply)
    requires Reachable(h) && IsWaiting(h) && Enabled(h, Read(data, r))
    requires DecodeHttpRequest(h.req, h.input + data).code == BadRequest
    ensures var k := Next(h, Read(data, r));
            var page := r.hdr + (if r.FailReply? then r.text else "");
            && Answers(h, k, page, page) && k.badFirst && k.resp.respComplete
            && k.input == DecodeHttpRequest(h.req, h.input + data).rest
  {
    WaitingIs(h);
    hide Decode, Reachable, Load, Respond, AfterSend, ConnInv, FirstPiece, Whole;
    var o := DecodeHttpRequest(h.req, h.input + data);
    var h1 := Popped(h).(req := o.req, input := o.rest);
    PageIs(r);
    RespondAnswers(h1, ErrorPage(r));
    AnswerOf(h1, ErrorPage(r));
  }

  /** What else a response sets. */
  lemma AnswerOf(h: Http, r: Reply)
    requires ReplyOk(r) && !r.IoFailure? && h.answer.None? && h.resp == CLEAR_RESP
    ensures var k := Respond(h, r);
            && k == h.(conn := k.conn, resp := k.resp, answer := Some(Whole(r)), responses := h.responses + 1)
            && k.resp.respComplete == (r.FailReply? || (0 < r.n == |r.file|))
            && k.resp.file == (if r.FileReply? then Some(r.file) else None)
            && k.resp.pos == (if r.FileReply? then r.n else 0)
  {
  }

  /** In particular a request line that is not a good one. */
  lemma BadLineIsAnswered(h: Http, data: string, r: Reply, line: string, rest: string)
    requires Reachable(h) && IsWaiting(h) && Enabled(h, Read(data, r)) && h.req.checkstate == ExpectRequestLine
    requires h.input + data == line + CRLF + rest && NoCrlf(line) && !IsGoodLine(line)
    ensures var k := Next(h, Read(data, r));
            var page := r.hdr + (if r.FailReply? then r.text else "");
            && Answers(h, k, page, page) && k.badFirst && k.resp.respComplete && k.input == rest
            && k.req.checkstate == ExpectRequestLine
  {
    BadLineIsRejected(h.req, line, rest);
    hide IsGoodLine, Decode, NoCrlf, Reachable, Respond;
    BadRequestIsAnswered(h, data, r);
  }

  /** A complete request is answered with the header and the first piece of the file, or the error
      page of its status; the file is kept open behind that piece unless it was all. */
  lemma GoodRequestIsAnswered(h: Http, data: string, r: Reply)
    requires Reachable(h) && IsWaiting(h) && Enabled(h, Read(data, r)) && !r.IoFailure?
    requires DecodeHttpRequest(h.req, h.input + data).code == GetRequest
    ensures var k := Next(h, Read(data, r));
            && Answers(h, k, FirstPiece(r), Whole(r)) && !k.badFirst
            && k.resp.respComplete == (r.FailReply? || (0 < r.n == |r.file|))
            && k.resp.file == (if r.FileReply? then Some(r.file) else None)
            && k.resp.pos == (if r.FileReply? then r.n else 0)
            && k.input == DecodeHttpRequest(h.req, h.input + data).rest
  {
    WaitingIs(h);
    hide Decode, Reachable, Load, Respond, AfterSend, ConnInv, FirstPiece, Whole;
    var o := DecodeHttpRequest(h.req, h.input + data);
    var h1 := Popped(h).(req := o.req, input := o.rest);
    RespondAnswers(h1, r);
    AnswerOf(h1, r);
  }

  /** A write moves bytes from the output to the socket, and queues the write-complete callback
      exactly when none are left; write interest then ends. */
  lemma WriteMoves(h: Http, n: int)
    requires Reachable(h) && Enabled(h, WriteOut(n))
    ensures var k := Next(h, WriteOut(n));
            && (h.conn.events.write && n >= 0 ==>
                  && k.wire == h.wire + h.conn.output[..n] && k.conn.output == h.conn.output[n..]
                  && (n == |h.conn.output| ==> !k.conn.events.write && k.queue == h.queue + [WriteComplete])
                  && (n < |h.conn.output| ==> k.conn.events == h.conn.events && k.queue == h.queue))
            && (!h.conn.events.write || n < 0 ==> k == h.(agenda := h.agenda[1..]))
            && k.agenda == h.agenda[1..] && k.req == h.req && k.resp == h.resp && k.input == h.input
  {
    ReachableInv(h);
    WriteSettlesInterest(h.conn, n);
    assert AfterWrite(h.conn, n) == ConnNext(h.conn, Write(n));
    hide AfterWrite, ConnInv, Reachable, Inv;
    assert h.wire + "" == h.wire;
  }

  /** The write-complete callback of a good response: at its end request and response are cleared
      and the close is queued; before that, what sendfile took goes to the socket and write
      interest asks for the next callback. */
  lemma CompleteGoesOn(h: Http, ret: int)
    requires Reachable(h) && Enabled(h, Complete(ret)) && !h.badFirst && !h.closing && h.conn.state == Connected
    ensures var k := Next(h, Complete(ret));
            if h.resp.respComplete || ret <= 0
            then && k.req == CLEARED && k.resp == CLEAR_RESP && k.queue == h.queue + [CloseInLoop] && k.closing
                 && k.wire == h.wire && k.conn == h.conn && k.input == h.input && k.agenda == h.agenda[1..]
            else && h.resp.file.Some? && h.resp.pos + ret <= |h.resp.file.value|
                 && k.wire == h.wire + h.resp.file.value[h.resp.pos..h.resp.pos + ret]
                 && k.resp == h.resp.(pos := h.resp.pos + ret) && k.req == h.req && k.queue == h.queue && !k.closing
                 && k.conn.events.write && k.conn.output == h.conn.output && k.agenda == h.agenda[1..]
  {
    ReachableInv(h);
    assert Drained(h);
    hide ConnInv, Reachable, Inv;
    assert h.conn.output + "" == h.conn.output;
  }

  /** The queued close ends a connection that is still live, and otherwise does nothing. */
  lemma CloseCloses(h: Http)
    requires Enabled(h, RunClose)
    ensures Next(h, RunClose) == h.(agenda := h.agenda[1..],
              conn := if Live(h.conn) then h.conn.(state := Disconnected, events := P.Interest(false, false)) else h.conn)
  {
  }

  /** The poll runs the read handler before the write handler, and the queued tasks run in order. */
  lemma HandlersInOrder(h: Http, read: bool, write: bool)
    ensures Enabled(h, Poll(read, write)) ==>
              Next(h, Poll(read, write)) ==
              h.(phase := Dispatch, agenda := (if read then [OnRead] else []) + (if write then [OnWrite] else []))
    ensures Enabled(h, Swap) ==> Next(h, Swap) == h.(phase := Tasks, agenda := h.queue, queue := [])
  {
  }
}
