/** A response is never stuck: it can always be completed, and every reply to every canonical
    request is delivered in some run from a new connection, or cut short by a failing sendfile.
 */
module HttpDelivery {
  import opened Options
  import opened Connections
  import opened HttpRequests
  import opened HttpServers
  import HttpInput

  /** Some run leads from `h` to `k`. */
  ghost predicate Leads(h: Http, k: Http) {
    exists es :: RunOk(h, es) && k == Run(h, es)
  }

  lemma LeadsStep(h: Http, e: Step, k: Http)
    requires Enabled(h, e) && Leads(Next(h, e), k)
    ensures Leads(h, k)
  {
    hide Enabled, Next;
    var es :| RunOk(Next(h, e), es) && k == Run(Next(h, e), es);
    assert ([e] + es)[1..] == es;
    assert RunOk(h, [e] + es) && Run(h, [e] + es) == k;
  }

  /** All of the answer is on the socket and the close is queued. */
  ghost predicate Delivered(h: Http) {
    h.closing && !h.truncated && h.answer == Some(h.wire)
  }

  /** How far the session is from its next sendfile. */
  function Rank(h: Http): nat {
    if h.agenda == [WriteComplete] then 0
    else if h.queue == [WriteComplete] then 1
    else if h.agenda == [OnWrite] then 2
    else if h.agenda != [] then 5
    else if h.phase == Tasks then 3 else 4
  }

  /** What sendfile returns when it sends all it can; it is not called for a complete response. */
  function NextPiece(resp: Resp): int {
    if resp.respComplete then -1 else if |Unsent(resp)| <= BUFFER_SIZE then |Unsent(resp)| else BUFFER_SIZE
  }

  /** The step that brings the response forward: no new input, and system calls that do all they can. */
  function Forward(h: Http): Step {
    if h.agenda == [] then if h.phase == Dispatch then Swap else Poll(false, true)
    else match h.agenda[0]
      case OnRead => ReadError
      case OnWrite => WriteOut(|h.conn.output|)
      case WriteComplete => Complete(NextPiece(h.resp))
      case CloseInLoop => RunClose
  }

  lemma WritingForward(h: Http)
    requires Writing(h) && ConnInv(h.conn) && !h.aborted && !h.dead
    ensures Enabled(h, Forward(h))
    ensures var k := Next(h, Forward(h));
            && (Writing(k) || Drained(k)) && ConnInv(k.conn) && !k.aborted && !k.dead && k.answer == h.answer
            && k.resp == h.resp && Rank(k) < Rank(h)
  {
    hide ConnInv;
    var k := Next(h, Forward(h));
    if Forward(h).WriteOut? {
      var n := |h.conn.output|;
      ConnStepKeeps(h.conn, Write(n));
      assert AfterWrite(h.conn, n) == ConnNext(h.conn, Write(n));
      WritingWrites(h, n);
    } else {
      assert Writing(k);
    }
  }

  lemma DrainedForward(h: Http)
    requires Drained(h) && ConnInv(h.conn) && !h.aborted && !h.dead
    ensures Enabled(h, Forward(h))
    ensures var k := Next(h, Forward(h));
            && k.answer == h.answer
            && (Delivered(k) ||
                ((Writing(k) || Drained(k)) && ConnInv(k.conn) && !k.aborted && !k.dead
                 && ((k.resp == h.resp && Rank(k) < Rank(h)) || |Unsent(k.resp)| < |Unsent(h.resp)|)))
  {
    var k := Next(h, Forward(h));
    if h.agenda == [] {
      assert Drained(k);
    } else {
      CompleteForward(h);
    }
  }

  lemma CompleteForward(h: Http)
    requires Drained(h) && ConnInv(h.conn) && !h.aborted && !h.dead && h.agenda == [WriteComplete]
    ensures Enabled(h, Forward(h))
    ensures var k := Next(h, Forward(h));
            && k.answer == h.answer
            && (Delivered(k) ||
                (Writing(k) && ConnInv(k.conn) && !k.aborted && !k.dead && |Unsent(k.resp)| < |Unsent(h.resp)|))
  {
    var k := Next(h, Forward(h));
    ConnStepKeeps(h.conn, Send(""));
    hide ConnInv;
    if h.resp.respComplete || Unsent(h.resp) == "" {
      assert h.wire + "" + "" == h.wire;
      assert Delivered(k);
    } else {
      var file, pos, ret := h.resp.file.value, h.resp.pos, Forward(h).ret;
      assert file[pos..] == file[pos..pos + ret] + file[pos + ret..];
      assert h.wire + file[pos..pos + ret] + "" + file[pos + ret..] == h.wire + "" + file[pos..];
      assert Writing(k);
    }
  }

  lemma {:induction false} Finishes(h: Http) returns (k: Http)
    requires (Writing(h) || Drained(h)) && ConnInv(h.conn) && !h.aborted && !h.dead
    ensures Leads(h, k) && Delivered(k) && k.answer == h.answer
    decreases |Unsent(h.resp)|, Rank(h)
  {
    hide Enabled, Next, Writing, Drained, ConnInv, Rank, Unsent;
    if Writing(h) { WritingForward(h); } else { DrainedForward(h); }
    k := Next(h, Forward(h));
    if Delivered(k) {
      assert RunOk(k, []) && Run(k, []) == k;
    } else {
      k := Finishes(k);
    }
    LeadsStep(h, Forward(h), k);
  }

  /** No deadlock: from every reachable state with a response under way on a connected
      connection, some continuation puts the whole answer on the socket and queues the close. */
  lemma AnswerCanBeDelivered(h: Http)
    requires Reachable(h) && !h.dead && !h.badFirst
    requires h.answer.Some? && !h.closing && h.conn.state == Connected
    ensures exists k :: Leads(h, k) && Delivered(k) && k.answer == h.answer
  {
    ReachableInv(h);
    assert Writing(h) || Drained(h);
    var k := Finishes(h);
  }

  // ---------------------------------------------------------------------------
  // From a new connection

  /** The bytes that the reads of a run deliver, in order. */
  function ReadsOf(es: seq<Step>): seq<string> {
    if es == [] then [] else (if es[0].Read? then [es[0].data] else []) + ReadsOf(es[1..])
  }

  lemma {:induction false} ReadsAppend(a: seq<Step>, b: seq<Step>)
    ensures ReadsOf(a + b) == ReadsOf(a) + ReadsOf(b)
  {
    if a == [] {
      assert a + b == b;
    } else {
      assert (a + b)[1..] == a[1..] + b;
      ReadsAppend(a[1..], b);
      var first := if a[0].Read? then [a[0].data] else [];
      assert ReadsOf(a + b) == first + (ReadsOf(a[1..]) + ReadsOf(b));
    }
  }

  /** A session that has decoded part of a request and holds some input. */
  predicate Listening(h: Http) {
    h == INIT.(req := h.req, input := h.input)
  }

  lemma RunCons(h: Http, e: Step, es: seq<Step>)
    requires Enabled(h, e) && RunOk(Next(h, e), es)
    ensures RunOk(h, [e] + es) && Run(h, [e] + es) == Run(Next(h, e), es) && ReadsOf([e] + es) == ReadsOf([e]) + ReadsOf(es)
  {
    hide Enabled, Next;
    assert ([e] + es)[1..] == es;
    ReadsAppend([e], es);
  }

  /** One round of the loop in which `c` arrives. */
  lemma ChunkArrives(h: Http, c: string, r: Reply) returns (es: seq<Step>)
    requires Listening(h) && c != "" && ReplyOk(r)
    ensures RunOk(h, es) && Run(h, es) == AfterMsg(h, c, r) && ReadsOf(es) == [c]
  {
    hide AfterMsg;
    var h1 := Next(h, Swap);
    var h2 := Next(h1, Poll(true, false));
    assert Popped(h2) == h;
    RunCons(h2, Read(c, r), []);
    RunCons(h1, Poll(true, false), [Read(c, r)] + []);
    RunCons(h, Swap, [Poll(true, false)] + ([Read(c, r)] + []));
    es := [Swap] + ([Poll(true, false)] + ([Read(c, r)] + []));
    assert ReadsOf([Read(c, r)]) == [c] by { assert [Read(c, r)][1..] == []; }
    assert ReadsOf([Swap]) == [] by { assert [Swap][1..] == []; }
    assert ReadsOf([Poll(true, false)]) == [] by { assert [Poll(true, false)][1..] == []; }
  }

  /** The chunks of a request arrive one after the other, and with the last one it is answered. */
  lemma {:induction false} ChunksArrive(h: Http, chunks: seq<string>, q: Request, r: Reply) returns (es: seq<Step>)
    requires Listening(h) && h.req.checkstate != GetAll && ReplyOk(r) && !r.IoFailure?
    requires (forall i :: 0 <= i < |chunks| ==> chunks[i] != "") && Feed(h.req, h.input, chunks) == Outcome(GetRequest, q, "")
    ensures RunOk(h, es) && ReadsOf(es) == chunks && Run(h, es) == Respond(INIT.(req := q), r)
    decreases |chunks|
  {
    hide Decode, Respond, RunOk, Run, ReadsOf;
    var c, cs := chunks[0], chunks[1..];
    assert chunks == [c] + cs;
    es := ChunkArrives(h, c, r);
    var o := DecodeHttpRequest(h.req, h.input + c);
    var k := AfterMsg(h, c, r);
    if o.code == NoRequest {
      assert k == h.(req := o.req, input := o.rest);
      OpenIsNotAll(h.req, h.input + c);
      assert forall i :: 0 <= i < |cs| ==> cs[i] == chunks[i + 1];
      var more := ChunksArrive(k, cs, q, r);
      RunAppends(h, es, more);
      ReadsAppend(es, more);
      es := es + more;
    } else {
      NothingLeft(o.rest, cs);
      assert [c] + cs == [c];
    }
  }

  lemma OpenIsNotAll(req: Request, s: string)
    requires req.checkstate != GetAll && Decode(req, s).code == NoRequest
    ensures Decode(req, s).req.checkstate != GetAll
  {
    VerdictMatchesState(req, s);
  }

  lemma NothingLeft(rest: string, cs: seq<string>)
    requires rest + Concat(cs) == "" && forall i :: 0 <= i < |cs| ==> cs[i] != ""
    ensures rest == "" && cs == []
  {
    assert |rest| + |Concat(cs)| == 0;
  }

  /** A canonical request arrives on a new connection, cut in any way, and its answer starts. */
  lemma RequestAnswered(m: Message, chunks: seq<string>, r: Reply) returns (es: seq<Step>)
    requires Canonical(m) && ReplyOk(r) && !r.IoFailure?
    requires Concat(chunks) == Print(m) && forall i :: 0 <= i < |chunks| ==> chunks[i] != ""
    ensures RunOk(INIT, es) && ReadsOf(es) == chunks
    ensures Starts(Run(INIT, es), r) && Reachable(Run(INIT, es)) && ConnInv(Run(INIT, es).conn)
  {
    PrintedIsParsed(m, "");
    HttpInput.PrintIsClean(m);
    ChunksDoNotMatterIff(CLEARED, Print(m));
    var q := Parsed(m);
    assert Print(m) + "" == Print(m);
    hide Decode, Print, Canonical, Parsed, Feed, Starts, Respond, LinesClean, RunOk, Run, ReadsOf, Reachable;
    es := ChunksArrive(INIT, chunks, q, r);
    StartIsReachable(es);
    FirstResponse(q, r);
  }

  lemma FirstResponse(q: Request, r: Reply)
    requires q.checkstate == GetAll && ReplyOk(r) && !r.IoFailure?
    ensures Starts(Respond(INIT.(req := q), r), r)
  {
    hide Writing;
    var h := INIT.(req := q);
    assert Waiting(h.(req := CLEARED));
    FirstAnswer(h, r);
  }

  /** The answer is in the output and nothing of it has been sent. */
  ghost predicate Starts(h: Http, r: Reply)
    requires ReplyOk(r) && !r.IoFailure?
  {
    && Writing(h) && !h.dead && !h.aborted && !h.badFirst
    && h.answer == Some(Whole(r)) && h.wire == "" && h.phase == Dispatch && h.agenda == []
    && h.resp == Load(CLEAR_RESP, r) && h.conn.output == h.resp.headers + h.resp.body
  }

  lemma StartIsReachable(es: seq<Step>)
    requires RunOk(INIT, es)
    ensures Reachable(Run(INIT, es)) && Inv(Run(INIT, es))
  {
    ReachableInv(Run(INIT, es));
  }

  /** For every canonical request, every way of cutting it into reads and every reply there is a
      run from a new connection that puts exactly the header and the whole file, or the error
      page, on the socket. */
  lemma EveryAnswerIsDelivered(m: Message, chunks: seq<string>, r: Reply)
    requires Canonical(m) && ReplyOk(r) && !r.IoFailure?
    requires Concat(chunks) == Print(m) && forall i :: 0 <= i < |chunks| ==> chunks[i] != ""
    ensures exists es, k :: RunOk(INIT, es) && ReadsOf(es) == chunks && Leads(Run(INIT, es), k)
                            && Delivered(k) && k.wire == Whole(r)
  {
    var es := RequestAnswered(m, chunks, r);
    var k := Finishes(Run(INIT, es));
  }

  /** The output goes out at once, and the write-complete callback is about to run. */
  lemma FlushOut(h: Http) returns (k: Http)
    requires Reachable(h) && Writing(h) && h.phase == Dispatch && h.agenda == [] && !h.aborted && !h.dead
    ensures Reachable(k) && Drained(k) && k.agenda == [WriteComplete] && k.wire == h.wire + h.conn.output
    ensures !k.aborted && !k.dead && k.resp == h.resp && k.answer == h.answer && k.req == h.req
  {
    ReachableInv(h);
    hide ConnInv;
    k := ReachableStep(h, Swap);
    assert Writing(k);
    k := ReachableStep(k, Poll(false, true));
    assert Writing(k);
    var out := h.conn.output;
    var n := |out|;
    WritingWrites(k, n);
    k := ReachableStep(k, WriteOut(n));
    assert out[..n] == out && out[n..] == "";
    assert Drained(k);
    k := ReachableStep(k, Swap);
  }

  /** And whenever the first read did not get the whole file there is a run that closes the
      connection after that first piece, because sendfile failed. */
  lemma AnswerCanBeTruncated(m: Message, r: Reply)
    requires Canonical(m) && ReplyOk(r) && r.FileReply? && r.n < |r.file|
    ensures exists k :: Reachable(k) && k.closing && k.answer == Some(Whole(r)) && CutShort(k, r)
  {
    ConcatBytes(Print(m));
    BytesAreFull(Print(m));
    hide Canonical, Print, Starts, Reachable, RunOk, Run;
    var es := RequestAnswered(m, Bytes(Print(m)), r);
    var k := FailsAtOnce(Run(INIT, es), r);
  }

  /** From the start of an answer: the first piece goes out, then sendfile fails. */
  lemma FailsAtOnce(h: Http, r: Reply) returns (k: Http)
    requires ReplyOk(r) && r.FileReply? && r.n < |r.file| && Starts(h, r) && Reachable(h)
    ensures Reachable(k) && k.closing && k.answer == Some(Whole(r)) && CutShort(k, r)
  {
    hide ConnInv;
    assert "" + r.hdr == r.hdr && "" + r.file[..r.n] == r.file[..r.n];
    assert h.conn.output == r.hdr + r.file[..r.n];
    k := FlushOut(h);
    assert "" + h.conn.output == h.conn.output;
    k := ReachableStep(k, Complete(-1));
  }

  lemma BytesAreFull(s: string)
    ensures forall i :: 0 <= i < |Bytes(s)| ==> Bytes(s)[i] != ""
  {
    ConcatBytes(s);
    forall i | 0 <= i < |Bytes(s)|
      ensures Bytes(s)[i] != ""
    {
      assert Bytes(s)[i] in Bytes(s);
    }
  }

  /** Only the header and the first piece of the file were sent. */
  predicate CutShort(k: Http, r: Reply) {
    r.FileReply? && r.n < |r.file| && k.wire == r.hdr + r.file[..r.n] && |k.wire| < |Whole(r)|
  }
}
