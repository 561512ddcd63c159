/** The HTTP server's side of one connection: decoding requests as they arrive, answering with
    a file or an error page, and sending a large file piece by piece, each piece triggered by
    the write-complete callback of the one before.

    The model follows the connection through its event loop: tasks, poll, dispatch. What the
    loop does for other connections does not touch this state.
 */
module HttpServers {
  import opened Options
  import opened Connections
  import opened HttpRequests
  import B = Buffers

  const BUFFER_SIZE: nat := 4096

  datatype Job = OnRead | OnWrite | WriteComplete | CloseInLoop

  datatype Phase = Tasks | Dispatch

  /** HttpResponse; `file` is what filefd_ refers to and `pos` its offset. */
  datatype Resp = Resp(headers: string, body: string, respComplete: bool, file: Option<string>, pos: nat)

  const CLEAR_RESP := Resp("", "", false, None, 0)

  /** What handleRequest and loadResponse find: a file, of which the first read gives `n`
      bytes, an error status, or a file that cannot be opened or read. The header is any
      string but the empty one. */
  datatype Reply =
    | FileReply(hdr: string, file: string, n: nat)
    | FailReply(hdr: string, text: string)
    | IoFailure(hdr: string)

  datatype Http = Http(
    conn: Conn,
    phase: Phase,
    agenda: seq<Job>,
    queue: seq<Job>,
    req: Request,
    input: string,
    resp: Resp,
    wire: string,              // history: bytes put on the socket, by write and by sendfile
    answer: Option<string>,  // history: the first response as it should go out
    closing: bool,             // history: that response is over and close() was called
    truncated: bool,           // history: sendfile failed before the end of the file
    badFirst: bool,            // history: the first verdict was a bad request
    responses: nat,            // history: how often a response was loaded and sent
    aborted: bool,             // the assert of sendfile failed
    dead: bool)                // an exception, or the assert on open or read, ended the process

  /** A connection just established. */
  const INIT: Http :=
    Http(AfterEstablish(NEW_CONN), Dispatch, [], [], CLEARED, "", CLEAR_RESP, "", None, false, false, false, 0, false, false)

  datatype Step =
    | Swap
    | Poll(read: bool, write: bool)
    | Read(data: string, reply: Reply)  // n > 0 bytes arrive
    | ReadEof
    | ReadError
    | WriteOut(n: int)                  // n: what write(2) returns
    | Complete(ret: int)                // ret: what sendfile(2) returns, if it is called
    | RunClose

  predicate ReplyOk(r: Reply) {
    r.hdr != "" && (r.FileReply? ==> r.n <= BUFFER_SIZE && r.n <= |r.file| && (r.file != "" ==> r.n > 0))
  }

  /** The source calls sendfile in this state. */
  predicate Sendfiles(h: Http) {
    !h.resp.respComplete && h.req.checkstate == GetAll
  }

  predicate SendfileResult(resp: Resp, ret: int) {
    resp.file.Some? && resp.pos <= |resp.file.value| ==>
      -1 <= ret <= BUFFER_SIZE && ret <= |resp.file.value| - resp.pos && (ret == 0 ==> resp.pos == |resp.file.value|)
  }

  predicate Enabled(h: Http, e: Step) {
    && !h.aborted && !h.dead
    && match e
       case Swap => h.phase == Dispatch && h.agenda == []
       case Poll(read, write) =>
         h.phase == Tasks && h.agenda == [] && (read ==> h.conn.events.read) && (write ==> h.conn.events.write)
       case Read(data, reply) => NextJob(h, OnRead) && data != "" && ReplyOk(reply)
       case ReadEof => NextJob(h, OnRead)
       case ReadError => NextJob(h, OnRead)
       case WriteOut(n) => NextJob(h, OnWrite) && WriteResult(h.conn, n)
       case Complete(ret) => NextJob(h, WriteComplete) && SendfileResult(h.resp, ret)
       case RunClose => NextJob(h, CloseInLoop)
  }

  predicate NextJob(h: Http, j: Job) {
    h.agenda != [] && h.agenda[0] == j
  }

  /** loadResponse, loadFailResponse: they append to what the response already holds. */
  function Load(resp: Resp, r: Reply): Resp
    requires ReplyOk(r) && !r.IoFailure?
  {
    match r
    case FailReply(hdr, text) => resp.(headers := resp.headers + hdr, body := resp.body + text, respComplete := true)
    case FileReply(hdr, file, n) =>
      resp.(headers := resp.headers + hdr, body := resp.body + file[..n], file := Some(file), pos := n,
            respComplete := if n == 0 then resp.respComplete else n == |file|)
  }

  function Whole(r: Reply): string
    requires !r.IoFailure?
  {
    if r.FileReply? then r.hdr + r.file else r.hdr + r.text
  }

  /** loadResponse, then sendResponse: headers and body go to the output. */
  function Respond(h: Http, r: Reply): (k: Http)
    requires ReplyOk(r) && !r.IoFailure?
    ensures k.input == h.input && k.req == h.req && k.dead == h.dead && k.wire == h.wire && k.queue == h.queue
  {
    var resp := Load(h.resp, r);
    h.(resp := resp,
       conn := AfterSend(AfterSend(h.conn, resp.headers), resp.body),
       answer := if h.answer.None? then Some(Whole(r)) else h.answer,
       responses := h.responses + 1)
  }

  function ErrorPage(r: Reply): Reply {
    FailReply(r.hdr, if r.FailReply? then r.text else "")
  }

  /** What onMsg does with the verdict of the decoder. */
  function AfterVerdict(h: Http, code: Code, r: Reply): (k: Http)
    requires ReplyOk(r)
    ensures k.input == h.input && k.req == h.req
  {
    match code
    case NoRequest => h
    case Thrown => h.(dead := true)
    case GetRequest => if r.IoFailure? then h.(dead := true) else Respond(h, r)
    case BadRequest => Respond(h, ErrorPage(r)).(badFirst := h.badFirst || h.answer.None?)
  }

  function AfterMsg(h: Http, data: string, r: Reply): Http
    requires ReplyOk(r)
  {
    var o := DecodeHttpRequest(h.req, h.input + data);
    AfterVerdict(h.(req := o.req, input := o.rest), o.code, r)
  }

  function CloseConn(h: Http): Http {
    if Live(h.conn) then h.(conn := AfterClose(h.conn)) else h
  }

  /** The end of a response: clear both halves and close (closeConnection_ is always true). */
  function Finish(h: Http): Http {
    h.(req := CLEARED, resp := CLEAR_RESP, closing := true, queue := h.queue + [CloseInLoop])
  }

  function AfterWriteComplete(h: Http, ret: int): Http
    requires SendfileResult(h.resp, ret)
  {
    if h.resp.respComplete then Finish(h)
    else if !Sendfiles(h) then h
    else if h.resp.file.None? || h.resp.pos > |h.resp.file.value| then h.(aborted := true)
    else
      var file, pos := h.resp.file.value, h.resp.pos;
      if ret > 0 then
        h.(wire := h.wire + file[pos..pos + ret], resp := h.resp.(pos := pos + ret), conn := AfterSend(h.conn, ""))
      else Finish(h).(truncated := h.truncated || pos < |file|)
  }

  function AfterWritable(h: Http, n: int): Http
    requires WriteResult(h.conn, n)
  {
    var sent := if h.conn.events.write && n >= 0 then h.conn.output[..n] else "";
    h.(conn := AfterWrite(h.conn, n), wire := h.wire + sent,
       queue := if Drains(h.conn, n) then h.queue + [WriteComplete] else h.queue)
  }

  /** The channel's callbacks for one event: reading before writing. */
  function Handlers(read: bool, write: bool): seq<Job> {
    if read && write then [OnRead, OnWrite] else if read then [OnRead] else if write then [OnWrite] else []
  }

  function Next(h: Http, e: Step): Http
    requires Enabled(h, e)
  {
    match e
    case Swap => h.(phase := Tasks, agenda := h.queue, queue := [])
    case Poll(read, write) =>
      h.(phase := Dispatch, agenda := Handlers(read, write))
    case Read(data, reply) => AfterMsg(Popped(h), data, reply)
    case ReadEof => CloseConn(Popped(h))
    case ReadError => Popped(h)
    case WriteOut(n) => AfterWritable(Popped(h), n)
    case Complete(ret) => AfterWriteComplete(Popped(h), ret)
    case RunClose => CloseConn(Popped(h))
  }

  function Popped(h: Http): Http {
    if h.agenda == [] then h else h.(agenda := h.agenda[1..])
  }

  // ---------------------------------------------------------------------------
  // The invariant, stage by stage

  ghost predicate Waiting(h: Http) {
    && h.answer.None? && h.conn.state == Connected && !h.conn.events.write && h.conn.output == "" && h.wire == ""
    && h.queue == [] && (h.agenda == [] || (h.phase == Dispatch && h.agenda == [OnRead]))
    && h.resp == CLEAR_RESP && h.req.checkstate != GetAll && !h.closing && !h.truncated
  }

  /** The bytes of the file that have not been handed to the socket or the output yet. */
  function Unsent(resp: Resp): string {
    if !resp.respComplete && resp.file.Some? && resp.pos <= |resp.file.value| then resp.file.value[resp.pos..] else ""
  }

  /** Nothing is lost, doubled or out of order: sent, waiting and unread bytes make up the answer. */
  ghost predicate Accounted(h: Http) {
    && h.answer.Some? && h.wire + h.conn.output + Unsent(h.resp) == h.answer.value
    && h.req.checkstate == GetAll && !h.closing && !h.truncated
    && (!h.resp.respComplete ==> h.resp.file.Some? && h.resp.pos <= |h.resp.file.value|)
  }

  /** Write interest is on and no write-complete task is outstanding. */
  ghost predicate Writing(h: Http) {
    && Accounted(h) && h.conn.state == Connected && h.conn.events.write && h.queue == []
    && (h.agenda == [] || (h.phase == Dispatch && h.agenda in {[OnRead], [OnWrite], [OnRead, OnWrite]}))
  }

  /** The output is drained, write interest is off and one write-complete task is outstanding. */
  ghost predicate Drained(h: Http) {
    && Accounted(h) && h.conn.state == Connected && !h.conn.events.write && h.conn.output == ""
    && ((h.phase == Dispatch && h.agenda == [] && h.queue == [WriteComplete]) ||
        (h.phase == Tasks && h.agenda == [WriteComplete] && h.queue == []))
  }

  /** What has gone out when the response is over: all of it, or the file up to a failed sendfile. */
  ghost predicate SentOut(h: Http) {
    h.answer.Some? && h.wire <= h.answer.value && (h.wire == h.answer.value <==> !h.truncated)
  }

  /** The response is over and the queued close comes before anything can be written. */
  ghost predicate Closing(h: Http) {
    && h.closing && SentOut(h) && h.conn.state == Connected
    && ((h.phase == Tasks && h.agenda == [] && h.queue == [CloseInLoop] && !h.conn.events.write) ||
        (h.phase == Dispatch && h.agenda in {[], [OnRead]} && h.queue == [CloseInLoop]) ||
        (h.phase == Tasks && h.agenda == [CloseInLoop] && h.queue == []))
  }

  /** Disconnected, by the peer or by the queued close. */
  ghost predicate Over(h: Http) {
    && h.conn.state == Disconnected && OnRead !in h.agenda && OnRead !in h.queue
    && (if h.closing then SentOut(h) && WriteComplete !in h.agenda && WriteComplete !in h.queue
        else if h.answer.None? then h.wire == "" && h.agenda == [] && h.queue == []
        else Accounted(h) && h.agenda in {[], [OnWrite]} && h.queue == [])
  }

  /** A response in progress has its file open. */
  ghost predicate FileOk(h: Http) {
    Sendfiles(h) ==> h.resp.file.Some? && h.resp.pos <= |h.resp.file.value|
  }

  ghost predicate Inv(h: Http) {
    && ConnInv(h.conn) && !h.aborted && (h.dead || FileOk(h))
    && (h.dead || h.badFirst || Waiting(h) || Writing(h) || Drained(h) || Closing(h) || Over(h))
  }

  /** A request is complete exactly when the verdict says so. */
  lemma {:induction false} VerdictMatchesState(req: Request, buf: string)
    requires req.checkstate != GetAll
    ensures Decode(req, buf).code == GetRequest <==> Decode(req, buf).req.checkstate == GetAll
    decreases |buf|
  {
    hide ParseRequestLine;
    if req.checkstate != ExpectContent {
      match B.FindCRLF(buf)
      case None =>
      case Some(i) =>
        LineTaken(req, buf, i);
        LineVerdict(req, buf[..i]);
        if ParseLine(req, buf[..i]).0 == NoRequest { VerdictMatchesState(ParseLine(req, buf[..i]).1, buf[i + 2..]); }
    }
  }

  lemma LineVerdict(req: Request, line: string)
    requires req.checkstate == ExpectRequestLine || req.checkstate == ExpectHeader
    ensures ParseLine(req, line).0 == GetRequest <==> ParseLine(req, line).1.checkstate == GetAll
  {
    hide Words, StripScheme, Stoi, Find;
  }

  /** Answering keeps the connection's invariant and opens the file it needs. */
  lemma RespondOk(h: Http, r: Reply)
    requires ConnInv(h.conn) && ReplyOk(r) && !r.IoFailure?
    requires !h.resp.respComplete ==> r.FailReply? || h.req.checkstate == GetAll
    ensures var k := Respond(h, r);
            && ConnInv(k.conn) && FileOk(k) && k.conn.state == h.conn.state
            && k == h.(resp := k.resp, conn := k.conn, answer := k.answer, responses := h.responses + 1)
  {
    hide AfterSend;
    RespondConn(h.conn, Load(h.resp, r));
  }

  lemma AfterVerdictConn(h: Http, code: Code, r: Reply)
    requires ConnInv(h.conn) && ReplyOk(r) && !h.aborted
    requires if code == NoRequest then FileOk(h) else (code == GetRequest <==> h.req.checkstate == GetAll)
    ensures var k := AfterVerdict(h, code, r);
            ConnInv(k.conn) && !k.aborted && (k.dead || FileOk(k)) && k.conn.state == h.conn.state
  {
    hide Respond, ConnInv;
    if code == GetRequest && !r.IoFailure? {
      RespondOk(h, r);
    } else if code == BadRequest {
      RespondOk(h, ErrorPage(r));
    }
  }

  lemma AfterMsgConn(h: Http, data: string, r: Reply)
    requires ConnInv(h.conn) && FileOk(h) && ReplyOk(r) && !h.aborted
    ensures var k := AfterMsg(h, data, r);
            ConnInv(k.conn) && !k.aborted && (k.dead || FileOk(k)) && k.conn.state == h.conn.state
  {
    if h.req.checkstate != GetAll { VerdictMatchesState(h.req, h.input + data); }
    hide Decode, AfterVerdict, ConnInv;
    var o := DecodeHttpRequest(h.req, h.input + data);
    AfterVerdictConn(h.(req := o.req, input := o.rest), o.code, r);
  }

  lemma RespondConn(c: Conn, resp: Resp)
    requires ConnInv(c)
    ensures var d := AfterSend(AfterSend(c, resp.headers), resp.body);
            && ConnInv(d) && d.state == c.state
            && (c.state == Connected ==> d.output == c.output + resp.headers + resp.body && d.events.write)
  {
    ConnStepKeeps(c, Send(resp.headers));
    ConnStepKeeps(AfterSend(c, resp.headers), Send(resp.body));
  }

  // ---------------------------------------------------------------------------
  // What each stage leads to

  lemma SwapPollKeeps(h: Http, e: Step)
    requires Inv(h) && Enabled(h, e) && (e.Swap? || e.Poll?)
    ensures Inv(Next(h, e))
  {
    if h.badFirst {
      assert Next(h, e).badFirst;
    } else if Waiting(h) {
      assert Waiting(Next(h, e));
    } else if Writing(h) {
      assert Writing(Next(h, e));
    } else if Drained(h) {
      assert Drained(Next(h, e));
    } else if Closing(h) {
      assert Closing(Next(h, e));
    } else {
      assert Over(Next(h, e));
    }
  }

  lemma ReadKeeps(h: Http, data: string, r: Reply)
    requires Inv(h) && Enabled(h, Read(data, r))
    ensures Inv(Next(h, Read(data, r)))
  {
    hide Decode;
    var h1 := h.(agenda := h.agenda[1..]);
    AfterMsgConn(h1, data, r);
    var k := AfterMsg(h1, data, r);
    if h.badFirst || k.dead || k.badFirst { return; }
    if Waiting(h) {
      WaitingReads(h1, data, r);
    } else if Writing(h) {
      assert k == h1.(input := h.input + data);
      assert Writing(k);
    } else {
      assert Closing(h);
      assert Closing(k);
    }
  }

  /** The first request is decoded and its answer goes to the output. */
  lemma WaitingReads(h: Http, data: string, r: Reply)
    requires Waiting(h) && h.agenda == [] && h.phase == Dispatch && ConnInv(h.conn) && ReplyOk(r)
    ensures var k := AfterMsg(h, data, r);
            k.dead || k.badFirst || Waiting(k) || Writing(k)
  {
    hide Decode, Respond;
    VerdictMatchesState(h.req, h.input + data);
    var o := Decode(h.req, h.input + data);
    if o.code == GetRequest && !r.IoFailure? { FirstAnswer(h.(req := o.req, input := o.rest), r); }
  }

  lemma FirstAnswer(h: Http, r: Reply)
    requires Waiting(h.(req := CLEARED)) && h.req.checkstate == GetAll
    requires h.agenda == [] && h.phase == Dispatch && ConnInv(h.conn) && ReplyOk(r) && !r.IoFailure?
    ensures var k := Respond(h, r);
            && Writing(k) && k.answer == Some(Whole(r)) && k.resp == Load(CLEAR_RESP, r)
            && k.conn.output == k.resp.headers + k.resp.body
  {
    var resp := Load(CLEAR_RESP, r);
    RespondConn(h.conn, resp);
    AnswerAccounted(r);
    hide ConnInv, AfterSend, Load, Whole, Unsent;
    var out := resp.headers + resp.body;
    assert "" + resp.headers + resp.body == out && "" + out == out;
  }

  /** The header, the first piece and the unread rest of the file make up the whole reply. */
  lemma AnswerAccounted(r: Reply)
    requires ReplyOk(r) && !r.IoFailure?
    ensures var resp := Load(CLEAR_RESP, r);
            && resp.headers + resp.body + Unsent(resp) == Whole(r)
            && (!resp.respComplete ==> resp.file.Some? && resp.pos <= |resp.file.value|)
  {
    var resp := Load(CLEAR_RESP, r);
    if r.FileReply? {
      assert r.file[..r.n] + r.file[r.n..] == r.file;
      assert resp.headers == r.hdr && resp.body == r.file[..r.n];
      assert r.n == |r.file| ==> r.file[r.n..] == "";
    } else {
      assert resp.headers == r.hdr && resp.body == r.text;
    }
  }

  lemma EofKeeps(h: Http)
    requires Inv(h) && Enabled(h, ReadEof)
    ensures Inv(Next(h, ReadEof))
  {
    var k := Next(h, ReadEof);
    if Live(h.conn) { ConnStepKeeps(h.conn, Close); }
    if !h.badFirst { assert Over(k); }
  }

  lemma WriteKeeps(h: Http, n: int)
    requires Inv(h) && Enabled(h, WriteOut(n))
    ensures Inv(Next(h, WriteOut(n)))
  {
    hide AfterWrite, Decode;
    ConnStepKeeps(h.conn, Write(n));
    assert AfterWrite(h.conn, n) == ConnNext(h.conn, Write(n));
    if h.badFirst { return; }
    if Writing(h) {
      WritingWrites(h, n);
    } else {
      assert Over(h);
      OverWrites(h, n);
    }
  }

  lemma WritingWrites(h: Http, n: int)
    requires Writing(h) && ConnInv(h.conn) && Enabled(h, WriteOut(n))
    ensures Writing(Next(h, WriteOut(n))) || Drained(Next(h, WriteOut(n)))
  {
    var k := Next(h, WriteOut(n));
    var out := h.conn.output;
    if n >= 0 {
      assert out[..n] + out[n..] == out;
      assert h.wire + out[..n] + out[n..] + Unsent(h.resp) == h.wire + out + Unsent(h.resp);
    } else {
      assert h.wire + "" == h.wire;
    }
    hide ConnInv;
    assert Accounted(k);
  }

  /** Nothing is written once the channel is disabled. */
  lemma OverWrites(h: Http, n: int)
    requires Over(h) && ConnInv(h.conn) && Enabled(h, WriteOut(n))
    ensures Over(Next(h, WriteOut(n)))
  {
    var k := Next(h, WriteOut(n));
    assert h.wire + "" == h.wire;
    assert k == h.(agenda := h.agenda[1..]);
  }

  lemma CompleteKeeps(h: Http, ret: int)
    requires Inv(h) && Enabled(h, Complete(ret))
    ensures Inv(Next(h, Complete(ret)))
  {
    hide Decode;
    var k := Next(h, Complete(ret));
    ConnStepKeeps(h.conn, Send(""));
    hide ConnInv;
    if h.badFirst { return; }
    assert Drained(h);
    if h.resp.respComplete {
      assert h.wire + "" + "" == h.wire;
      assert Closing(k);
    } else {
      var file, pos := h.resp.file.value, h.resp.pos;
      assert h.wire + "" + file[pos..] == h.wire + file[pos..];
      if ret > 0 {
        assert file[pos..] == file[pos..pos + ret] + file[pos + ret..];
        assert h.wire + file[pos..pos + ret] + "" + file[pos + ret..] == h.wire + file[pos..];
        assert Writing(k);
      } else {
        assert Closing(k);
      }
    }
  }

  lemma CloseKeeps(h: Http)
    requires Inv(h) && Enabled(h, RunClose)
    ensures Inv(Next(h, RunClose))
  {
    var k := Next(h, RunClose);
    if Live(h.conn) { ConnStepKeeps(h.conn, Close); }
    if !h.badFirst { assert Over(k); }
  }

  lemma StepKeeps(h: Http, e: Step)
    requires Inv(h) && Enabled(h, e)
    ensures Inv(Next(h, e))
  {
    match e
    case Read(data, reply) => ReadKeeps(h, data, reply);
    case ReadEof => EofKeeps(h);
    case WriteOut(n) => WriteKeeps(h, n);
    case Complete(ret) => CompleteKeeps(h, ret);
    case RunClose => CloseKeeps(h);
    case ReadError => ErrorKeeps(h);
    case _ => SwapPollKeeps(h, e);
  }

  lemma ErrorKeeps(h: Http)
    requires Inv(h) && Enabled(h, ReadError)
    ensures Inv(Next(h, ReadError))
  {
    var k := Next(h, ReadError);
    if h.badFirst { return; }
    assert Waiting(h) ==> Waiting(k);
    assert Writing(h) ==> Writing(k);
    assert Closing(h) ==> Closing(k);
  }

  // ---------------------------------------------------------------------------
  // Every run

  ghost predicate RunOk(h: Http, es: seq<Step>)
    decreases |es|
  {
    es == [] || (Enabled(h, es[0]) && RunOk(Next(h, es[0]), es[1..]))
  }

  ghost function Run(h: Http, es: seq<Step>): Http
    requires RunOk(h, es)
    decreases |es|
  {
    if es == [] then h else Run(Next(h, es[0]), es[1..])
  }

  lemma {:induction false} RunKeeps(h: Http, es: seq<Step>)
    requires Inv(h) && RunOk(h, es)
    ensures Inv(Run(h, es))
    decreases |es|
  {
    if es != [] {
      StepKeeps(h, es[0]);
      RunKeeps(Next(h, es[0]), es[1..]);
    }
  }

  /** Reached from a new connection. */
  ghost predicate Reachable(h: Http) {
    exists es :: RunOk(INIT, es) && h == Run(INIT, es)
  }

  lemma ReachableInv(h: Http)
    requires Reachable(h)
    ensures Inv(h)
  {
    var es :| RunOk(INIT, es) && h == Run(INIT, es);
    assert Waiting(INIT);
    RunKeeps(INIT, es);
  }

  /** While a response is under way on a connected connection, either write interest is on or
      exactly one write-complete task is outstanding, never both and never neither. */
  lemma ExactlyOneIsOutstanding(h: Http)
    requires Reachable(h) && !h.dead && !h.badFirst
    requires h.answer.Some? && !h.closing && h.conn.state == Connected
    ensures var tasks := multiset(h.agenda + h.queue)[WriteComplete];
            if h.conn.events.write then tasks == 0 else tasks == 1
  {
    ReachableInv(h);
    assert Writing(h) || Drained(h);
    if Writing(h) {
      assert WriteComplete !in h.agenda + h.queue;
    } else {
      assert h.agenda + h.queue == [WriteComplete];
    }
  }

  /** sendfile is called only with an open file and an empty output, and no assert ever fails. */
  lemma OutputIsEmptyAtSendfile(h: Http)
    requires Reachable(h) && !h.dead && !h.badFirst && h.agenda != [] && h.agenda[0] == WriteComplete && Sendfiles(h)
    ensures !h.aborted && h.conn.output == "" && h.resp.file.Some? && h.resp.pos <= |h.resp.file.value|
  {
    ReachableInv(h);
    assert Drained(h);
  }

  /** The bytes on the socket are always a prefix of the one answer, so nothing of a later
      response gets out before the queued close. When the response is over they are the whole
      answer exactly if no sendfile failed before the end of the file. */
  lemma WireIsTheAnswer(h: Http)
    requires Reachable(h) && !h.dead && !h.badFirst && h.answer.Some?
    ensures h.wire <= h.answer.value
    ensures h.closing ==> (h.wire == h.answer.value <==> !h.truncated)
  {
    ReachableInv(h);
    if Accounted(h) {
      assert h.answer.value == h.wire + (h.conn.output + Unsent(h.resp));
    }
  }

  /** A sendfile that fails before the end of the file is taken for its end: the response is
      over and its connection closed with the rest of the answer unsent. At the end of the file
      the response is over with all of it sent. */
  lemma FailedSendfileTruncates(h: Http, ret: int)
    requires Reachable(h) && !h.dead && !h.badFirst && !h.closing && Enabled(h, Complete(ret)) && Sendfiles(h)
    ensures h.answer.Some? && h.resp.file.Some? && h.resp.pos <= |h.resp.file.value|
    ensures var k := Next(h, Complete(ret));
            && (k.closing && k.wire != h.answer.value <==> ret < 0 && h.resp.pos < |h.resp.file.value|)
            && (k.closing && k.wire == h.answer.value <==> ret <= 0 && h.resp.pos == |h.resp.file.value|)
  {
    ReachableInv(h);
    assert Drained(h);
    var file, pos := h.resp.file.value, h.resp.pos;
    assert h.wire + h.conn.output + Unsent(h.resp) == h.wire + file[pos..];
  }

  lemma {:induction false} RunAppends(h: Http, a: seq<Step>, b: seq<Step>)
    requires RunOk(h, a) && RunOk(Run(h, a), b)
    ensures RunOk(h, a + b) && Run(h, a + b) == Run(Run(h, a), b)
    decreases |a|
  {
    hide Enabled, Next;
    if a == [] {
      assert a + b == b;
    } else {
      assert (a + b)[1..] == a[1..] + b;
      RunAppends(Next(h, a[0]), a[1..], b);
    }
  }

  lemma ReachableStep(h: Http, e: Step) returns (k: Http)
    requires Reachable(h) && Enabled(h, e)
    ensures k == Next(h, e) && Reachable(k)
  {
    hide Enabled, Next;
    var es :| RunOk(INIT, es) && h == Run(INIT, es);
    k := Next(h, e);
    assert [e][1..] == [];
    assert RunOk(k, []) && Run(k, []) == k;
    assert RunOk(h, [e]) && Run(h, [e]) == k;
    RunAppends(INIT, es, [e]);
  }

  // ---------------------------------------------------------------------------
  // The objects

  class HttpResponse {
    var headers: string
    var body: string
    var respComplete: bool
    var file: Option<string>
    var pos: nat

    ghost function View(): Resp reads this { Resp(headers, body, respComplete, file, pos) }

    constructor ()
      ensures View() == CLEAR_RESP
    {
      headers, body, respComplete, file, pos := "", "", false, None, 0;
    }

    method Clear()
      modifies this
      ensures View() == CLEAR_RESP
    {
      headers, body, respComplete, file, pos := "", "", false, None, 0;
    }

    /** false: the assert on open or read failed. */
    method LoadResponse(r: Reply) returns (ok: bool)
      requires ReplyOk(r)
      modifies this
      ensures ok <==> !r.IoFailure?
      ensures View() == if ok then Load(old(View()), r) else old(View())
    {
      ok := true;
      if r.IoFailure? { return false; }
      headers := headers + r.hdr;
      match r
      case FailReply(_, text) =>
        body := body + text;
        respComplete := true;
      case FileReply(_, contents, n) =>
        file, pos := Some(contents), n;
        if n == 0 {
          body := body + "";
        } else if n < |contents| {
          body := body + contents[..n];
          respComplete := false;
        } else {
          body := body + contents[..n];
          respComplete := true;
        }
    }
  }

  /** The request, response and connection of one HTTP session, with the tasks it queues. */
  class HttpSession {
    const req: HttpRequest
    const resp: HttpResponse
    const conn: TcpConnection
    var queue: seq<Job>
    ghost var wire: string

    constructor ()
      ensures fresh(req) && fresh(resp) && fresh(conn)
      ensures Matches(INIT.(conn := NEW_CONN))
    {
      req := new HttpRequest();
      resp := new HttpResponse();
      conn := new TcpConnection();
      queue, wire := [], "";
    }

    /** The session's part of the state machine. */
    ghost predicate Matches(h: Http)
      reads this, req, resp, conn
    {
      h.conn == conn.View() && h.req == req.View() && h.resp == resp.View() && h.queue == queue && h.wire == wire
    }

    method SendResponse(r: Reply, ghost h: Http) returns (ok: bool)
      requires ReplyOk(r) && Matches(h)
      modifies resp, conn
      ensures ok <==> !r.IoFailure?
      ensures Matches(if ok then Respond(h, r) else h)
    {
      ok := resp.LoadResponse(r);
      if !ok { return; }
      conn.SendInLoop(resp.headers);
      conn.SendInLoop(resp.body);
    }

    method OnVerdict(code: Code, r: Reply, ghost h: Http) returns (dead: bool)
      requires ReplyOk(r) && Matches(h) && !h.dead
      modifies resp, conn
      ensures Matches(AfterVerdict(h, code, r)) && dead == AfterVerdict(h, code, r).dead
    {
      hide Respond;
      dead := false;
      match code
      case NoRequest =>
      case Thrown => dead := true;
      case GetRequest =>
        var ok := SendResponse(r, h);
        dead := !ok;
      case BadRequest =>
        var ok := SendResponse(ErrorPage(r), h);
    }

    /** Nothing is decoded while a request is being answered. */
    method DecodeRequest(buf: B.Buffer) returns (code: Code)
      requires buf.Valid()
      modifies req, buf`readerIndex, buf`writerIndex
      ensures buf.Valid()
      ensures Outcome(code, req.View(), B.Readable(buf.View())) ==
              DecodeHttpRequest(old(req.View()), old(B.Readable(buf.View())))
    {
      hide Decode;
      code := NoRequest;
      if req.checkstate != GetAll {
        code := req.TryDecode(buf);
      }
    }

    /** `buf` holds the unread input and the bytes just read. */
    method OnMsg(buf: B.Buffer, r: Reply, ghost h: Http, ghost data: string) returns (dead: bool)
      requires ReplyOk(r) && Matches(h) && buf.Valid() && B.Readable(buf.View()) == h.input + data && !h.dead
      modifies req, resp, conn, buf`readerIndex, buf`writerIndex
      ensures buf.Valid() && Matches(AfterMsg(h, data, r)) && B.Readable(buf.View()) == AfterMsg(h, data, r).input
      ensures dead == AfterMsg(h, data, r).dead
    {
      hide DecodeHttpRequest, AfterVerdict;
      var code := DecodeRequest(buf);
      ghost var o := DecodeHttpRequest(h.req, h.input + data);
      dead := OnVerdict(code, r, h.(req := o.req, input := o.rest));
    }

    /** TcpConnection::handleRead on the real buffer: readv(2) delivers `data`, and the callback
        acts on the bytes that are then readable. They are the input and the new bytes unless
        the read compacts as written. */
    method HandleRead(buf: B.Buffer, data: string, r: Reply, ghost h: Http) returns (dead: bool)
      requires ReplyOk(r) && Matches(h) && !h.dead && buf.Valid() && B.Readable(buf.View()) == h.input
      requires |data| <= B.Writable(buf.View()) + B.EXTRA_SIZE
      modifies req, resp, conn, buf, buf.buffer
      ensures buf.Valid() && B.LayoutOk(B.ReadFd(old(buf.View()), data, buf.from))
      ensures var k := AfterMsg(h.(input := ""), B.Readable(B.ReadFd(old(buf.View()), data, buf.from)), r);
              Matches(k) && B.Readable(buf.View()) == k.input && dead == k.dead
      ensures buf.from.FromReader? || !old(B.ReadCompacts(buf.View(), data)) ==>
                var k := AfterMsg(h, data, r);
                Matches(k) && B.Readable(buf.View()) == k.input && dead == k.dead
    {
      hide AfterVerdict, DecodeHttpRequest;
      buf.ReadFrom(data);
      ghost var seen := B.Readable(buf.View());
      assert "" + seen == seen;
      dead := OnMsg(buf, r, h.(input := ""), seen);
    }

    method FinishResponse()
      modifies this`queue, req, resp
      ensures req.View() == CLEARED && resp.View() == CLEAR_RESP && queue == old(queue) + [CloseInLoop]
    {
      req.Clear();
      resp.Clear();
      queue := queue + [CloseInLoop];
    }

    /** `ret` is what sendfile(2) returns, if it is called; false: an assert failed. */
    method OnWriteComplete(ret: int, ghost h: Http) returns (ok: bool)
      requires Matches(h) && SendfileResult(resp.View(), ret) && !h.aborted
      modifies this, req, resp, conn
      ensures Matches(AfterWriteComplete(h, ret)) && ok == !AfterWriteComplete(h, ret).aborted
    {
      ok := true;
      if resp.respComplete {
        FinishResponse();
        return;
      }
      if req.checkstate == GetAll {
        if resp.file.None? || resp.pos > |resp.file.value| { return false; }
        if ret > 0 {
          wire := wire + resp.file.value[resp.pos..resp.pos + ret];
          resp.pos := resp.pos + ret;
          conn.SendInLoop("");
        } else {
          FinishResponse();
        }
      }
    }
  }
}
