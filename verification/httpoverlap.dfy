/** Responses that overlap: the bytes of a second one are queued while the first is under way.
    That happens exactly when a verdict asks for a second one, which only a bad first request
    lets through.
 */
module HttpOverlap {
  import opened Options
  import opened Connections
  import opened HttpRequests
  import opened HttpServers
  import B = Buffers

  /** Until the response is over, what was written and what waits to be written belong to it. */
  ghost predicate NoOverlap(h: Http) {
    !h.dead && h.answer.Some? && !h.closing ==> h.wire + h.conn.output <= h.answer.value
  }

  /** The jobs of a dispatch phase; a read handler runs only on a connected connection. */
  ghost predicate JobsOk(h: Http) {
    && h.conn.state in {Connected, Disconnected} && OnRead !in h.queue
    && (if h.phase == Dispatch then h.agenda in {[], [OnRead], [OnWrite], [OnRead, OnWrite]} else OnRead !in h.agenda)
    && (OnRead in h.agenda ==> h.conn.state == Connected)
  }

  /** After a bad first request: one response is there in full, two are more than the first. */
  ghost predicate BadCounted(h: Http) {
    && (h.badFirst ==> h.answer.Some? && h.responses > 0)
    && (h.badFirst && !h.closing && h.responses == 1 ==>
          h.wire + h.conn.output == h.answer.value && h.resp.respComplete)
    && (h.badFirst && !h.closing && h.responses > 1 ==> |h.wire + h.conn.output| > |h.answer.value|)
  }

  ghost predicate CountInv(h: Http) {
    && JobsOk(h) && BadCounted(h)
    && (!h.badFirst && !h.closing ==> h.responses == if h.answer.Some? then 1 else 0)
  }

  /** Until a good response is over, all its bytes are accounted for. */
  lemma GoodIsAccounted(h: Http)
    requires Inv(h) && !h.dead && !h.badFirst && h.answer.Some? && !h.closing
    ensures Accounted(h)
  {
  }

  /** A further response makes the output longer than the first answer. */
  lemma BadRespond(h: Http, r: Reply)
    requires BadCounted(h) && h.badFirst && h.conn.state == Connected && ConnInv(h.conn) && ReplyOk(r) && !r.IoFailure?
    ensures BadCounted(Respond(h, r))
  {
    var resp := Load(h.resp, r);
    RespondConn(h.conn, resp);
    hide ConnInv, AfterSend;
    assert |resp.headers| > 0;
  }

  lemma FirstRespond(h: Http, r: Reply)
    requires h.answer.None? && h.conn.state == Connected && h.conn.output == "" && h.wire == "" && h.resp == CLEAR_RESP
    requires h.responses == 0 && !h.closing && ConnInv(h.conn) && ReplyOk(r) && r.FailReply?
    ensures BadCounted(Respond(h, r).(badFirst := true))
  {
    var resp := Load(h.resp, r);
    RespondConn(h.conn, resp);
    hide ConnInv, AfterSend;
    assert "" + r.hdr == r.hdr && "" + r.text == r.text;
    assert "" + ("" + resp.headers + resp.body) == r.hdr + r.text;
  }

  /** `h` is the session with the bytes read and decoded, about to act on the verdict. */
  lemma CountVerdict(h: Http, code: Code, r: Reply)
    requires CountInv(h) && h.conn.state == Connected && ConnInv(h.conn) && ReplyOk(r)
    requires !h.badFirst && h.answer.None? ==> h.conn.output == "" && h.wire == "" && h.resp == CLEAR_RESP && !h.closing
    requires !h.badFirst && h.answer.Some? && !h.closing ==> code == NoRequest
    ensures AfterVerdict(h, code, r).dead || CountInv(AfterVerdict(h, code, r))
  {
    hide Respond, ConnInv;
    if code == GetRequest && !r.IoFailure? {
      if h.badFirst { BadRespond(h, r); }
      Responded(h, r);
    } else if code == BadRequest {
      if h.badFirst {
        BadRespond(h, ErrorPage(r));
      } else if h.answer.None? {
        FirstRespond(h, ErrorPage(r));
      }
      Responded(h, ErrorPage(r));
    }
  }

  /** What is known before a read handler runs. */
  lemma BeforeRead(h: Http)
    requires Inv(h) && CountInv(h) && !h.dead && NextJob(h, OnRead)
    ensures CountInv(Popped(h)) && h.conn.state == Connected && ConnInv(h.conn)
    ensures !h.badFirst && h.answer.None? ==> h.conn.output == "" && h.wire == "" && h.resp == CLEAR_RESP && !h.closing
    ensures !h.badFirst && h.answer.Some? && !h.closing ==> h.req.checkstate == GetAll
  {
    hide ConnInv;
    assert h.agenda[0] == OnRead;
  }

  lemma CountRead(h: Http, data: string, r: Reply)
    requires Inv(h) && CountInv(h) && Enabled(h, Read(data, r))
    ensures Next(h, Read(data, r)).dead || CountInv(Next(h, Read(data, r)))
  {
    BeforeRead(h);
    hide Decode, AfterVerdict, Inv, ConnInv;
    var o := DecodeHttpRequest(h.req, h.input + data);
    CountVerdict(Popped(h).(req := o.req, input := o.rest), o.code, r);
  }

  lemma Responded(h: Http, r: Reply)
    requires ConnInv(h.conn) && ReplyOk(r) && !r.IoFailure?
    ensures var k := Respond(h, r);
            && k.conn.state == h.conn.state && k.answer.Some? && (h.answer.Some? ==> k.answer == h.answer)
            && k == h.(resp := k.resp, conn := k.conn, answer := k.answer, responses := h.responses + 1)
  {
    RespondConn(h.conn, Load(h.resp, r));
  }

  lemma CountStep(h: Http, e: Step)
    requires Inv(h) && CountInv(h) && Enabled(h, e)
    ensures Next(h, e).dead || CountInv(Next(h, e))
  {
    match e
    case Read(data, r) => CountRead(h, data, r);
    case WriteOut(n) => CountWrite(h, n);
    case Complete(ret) => CountComplete(h, ret);
    case _ => CountOther(h, e);
  }

  lemma CountOther(h: Http, e: Step)
    requires Inv(h) && CountInv(h) && Enabled(h, e) && !e.Read? && !e.WriteOut? && !e.Complete?
    ensures CountInv(Next(h, e))
  {
    hide Waiting, Writing, Drained, Closing, Over;
  }

  /** Bytes move from the output to the wire. */
  lemma CountWrite(h: Http, n: int)
    requires CountInv(h) && Enabled(h, WriteOut(n))
    ensures CountInv(Next(h, WriteOut(n)))
  {
    var k, out := Next(h, WriteOut(n)), h.conn.output;
    assert k.conn.state in {Connected, Disconnected} ==> h.conn.state == k.conn.state;
    assert k.wire + k.conn.output == h.wire + out by {
      if h.conn.events.write && n >= 0 {
        assert (h.wire + out[..n]) + out[n..] == h.wire + out;
      } else {
        assert h.wire + "" == h.wire;
      }
    }
    assert h.phase == Dispatch ==> h.agenda[1..] == [];
    hide AfterWrite;
  }

  lemma CountComplete(h: Http, ret: int)
    requires CountInv(h) && Enabled(h, Complete(ret))
    ensures CountInv(Next(h, Complete(ret)))
  {
    var k := Next(h, Complete(ret));
    assert h.phase != Dispatch && k.phase == h.phase && k.agenda == h.agenda[1..];
    CompleteGrows(Popped(h), ret);
    hide AfterWriteComplete;
  }

  /** The callback ends the response or makes the wire longer; the output stays as it is. */
  lemma CompleteGrows(h: Http, ret: int)
    requires SendfileResult(h.resp, ret)
    ensures var k := AfterWriteComplete(h, ret);
            && k.conn.state == h.conn.state && k.badFirst == h.badFirst && k.answer == h.answer
            && k.responses == h.responses && k.phase == h.phase && k.agenda == h.agenda
            && (OnRead !in h.queue ==> OnRead !in k.queue) && (h.closing ==> k.closing)
            && (h.resp.respComplete ==> k.closing)
            && (!k.closing ==> k.resp.respComplete == h.resp.respComplete && |k.wire + k.conn.output| >= |h.wire + h.conn.output|)
  {
    assert h.conn.output + "" == h.conn.output;
  }

  lemma {:induction false} CountRun(h: Http, es: seq<Step>)
    requires Inv(h) && CountInv(h) && RunOk(h, es)
    ensures Run(h, es).dead || CountInv(Run(h, es))
    decreases |es|
  {
    hide Enabled, Next, CountInv, Inv;
    if es != [] {
      StepKeeps(h, es[0]);
      CountStep(h, es[0]);
      if Next(h, es[0]).dead {
        DeadStays(Next(h, es[0]), es[1..]);
      } else {
        CountRun(Next(h, es[0]), es[1..]);
      }
    }
  }

  lemma DeadStays(h: Http, es: seq<Step>)
    requires h.dead && RunOk(h, es)
    ensures Run(h, es) == h
  {
  }

  lemma ReachableCount(h: Http)
    requires Reachable(h) && !h.dead
    ensures Inv(h) && CountInv(h)
  {
    hide Next;
    ReachableInv(h);
    var es :| RunOk(INIT, es) && h == Run(INIT, es);
    assert Waiting(INIT);
    CountRun(INIT, es);
  }

  /** In every reachable state with a response under way, only its own bytes are written or
      waiting exactly when one response was sent. */
  lemma NoOverlapIff(h: Http)
    requires Reachable(h) && !h.dead && h.answer.Some? && !h.closing
    ensures NoOverlap(h) <==> h.responses == 1
  {
    ReachableCount(h);
    if !h.badFirst {
      GoodIsAccounted(h);
      assert h.answer.value == (h.wire + h.conn.output) + Unsent(h.resp);
    }
  }

  /** The bytes just read lead to an overlap exactly when the decoder's verdict on them has a
      response sent, while the first is under way; a good request blocks that, a bad one does not. */
  lemma NextOverlapIff(h: Http, data: string, r: Reply)
    requires Reachable(h) && h.answer.Some? && !h.closing && NoOverlap(h) && Enabled(h, Read(data, r))
    ensures var code := DecodeHttpRequest(h.req, h.input + data).code;
            NoOverlap(Next(h, Read(data, r))) <==> code != BadRequest && (code == GetRequest ==> r.IoFailure?)
    ensures !h.badFirst ==> NoOverlap(Next(h, Read(data, r)))
  {
    NoOverlapIff(h);
    ReachableCount(h);
    var k := ReachableStep(h, Read(data, r));
    if !h.badFirst { GoodIsAccounted(h); }
    assert h.req.checkstate == GetAll || h.badFirst;
    hide Decode, Respond, CountInv, Inv, Reachable;
    if !k.dead { NoOverlapIff(k); }
  }

  lemma FirstBad() returns (h: Http)
    ensures Reachable(h) && h == INIT.(resp := Resp("H", "T", true, None, 0), conn := h.conn, input := "\n",
                                       answer := Some("HT"), badFirst := true, responses := 1)
    ensures h.conn.state == Connected && h.conn.output == "HT" && h.conn.events.read
  {
    hide Decode;
    assert RunOk(INIT, []) && Run(INIT, []) == INIT;
    h := ReachableStep(INIT, Swap);
    h := ReachableStep(h, Poll(true, false));
    BareLfIsBad("\n");
    assert "" + "\n" == "\n" && "" + "H" == "H" && "" + "T" == "T" && "H" + "T" == "HT";
    h := ReachableStep(h, Read("\n", FailReply("H", "T")));
  }

  /** The error page is followed by a doubled one while the first still waits. */
  lemma BadRequestsOverlap() returns (h: Http)
    ensures Reachable(h) && h.badFirst && !h.dead && !h.closing
    ensures h.answer == Some("HT") && h.conn.output == "HT" + "HH" + "TT"
  {
    hide Decode;
    h := FirstBad();
    h := ReachableStep(h, Swap);
    h := ReachableStep(h, Poll(true, false));
    BareLfIsBad("\n\n");
    assert "\n" + "\n" == "\n\n" && "H" + "H" == "HH" && "T" + "T" == "TT";
    h := ReachableStep(h, Read("\n", FailReply("H", "T")));
  }

  lemma BareLfIsBad(s: string)
    requires s == "\n" || s == "\n\n"
    ensures Decode(CLEARED, s) == Outcome(BadRequest, CLEARED, s)
  {
    B.FindCRLFIsFirst(s);
    assert s[0] == '\n';
  }
}
