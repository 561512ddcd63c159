/** The output of an HTTP session in the real buffer, as written. While one good response is under
    way no append ever compacts: what is not empty is sent only into an empty buffer. So what
    module HttpServers says of the bytes on the socket holds of the buffer as it is.
 */
module HttpOutput {
  import opened Options
  import opened Connections
  import opened HttpRequests
  import opened HttpServers
  import opened HttpOverlap
  import B = Buffers

  /** The buffer after an append, as written. */
  function Appended(b: B.Layout, data: string): (r: B.Layout)
    requires B.LayoutOk(b)
    ensures B.LayoutOk(r) && (!B.Compacts(b, |data|) ==> B.Readable(r) == B.Readable(b) + data)
    ensures b.reader == B.CHEAP_PREPEND ==> !B.Compacts(b, |data|) && r.reader == B.CHEAP_PREPEND
  {
    B.AppendExtends(b, data, B.FromBegin);
    B.Append(b, data, B.FromBegin)
  }

  /** The response that a read leads to, if any. */
  function Loaded(h: Http, data: string, r: Reply): Option<Resp>
    requires ReplyOk(r)
  {
    var code := DecodeHttpRequest(h.req, h.input + data).code;
    if code == GetRequest && !r.IoFailure? then Some(Load(h.resp, r))
    else if code == BadRequest then Some(Load(h.resp, ErrorPage(r))) else None
  }

  /** The messages that a step sends. */
  function Sends(h: Http, e: Step): seq<string>
    requires Enabled(h, e)
  {
    match e
    case Read(data, r) =>
      var resp := Loaded(h, data, r);
      if h.conn.state == Connected && resp.Some? then [resp.value.headers, resp.value.body] else []
    case Complete(ret) => if h.conn.state == Connected && Sendfiles(h) && ret > 0 then [""] else []
    case _ => []
  }

  function AppendedAll(b: B.Layout, msgs: seq<string>): (r: B.Layout)
    requires B.LayoutOk(b)
    ensures B.LayoutOk(r)
    decreases |msgs|
  {
    if msgs == [] then b else AppendedAll(Appended(b, msgs[0]), msgs[1..])
  }

  predicate NoneCompacts(b: B.Layout, msgs: seq<string>)
    requires B.LayoutOk(b)
    decreases |msgs|
  {
    msgs != [] ==> !B.Compacts(b, |msgs[0]|) && NoneCompacts(Appended(b, msgs[0]), msgs[1..])
  }

  /** The buffer after a step. */
  function OutAfter(h: Http, b: B.Layout, e: Step): B.Layout
    requires B.LayoutOk(b) && B.Readable(b) == h.conn.output && Enabled(h, e)
  {
    if e.WriteOut? then (if h.conn.events.write && e.n >= 0 then B.Retrieve(b, e.n) else b)
    else AppendedAll(b, Sends(h, e))
  }

  /** All along the run the buffer holds the session's output and no append compacts. */
  ghost predicate OutputExact(h: Http, b: B.Layout, es: seq<Step>)
    requires RunOk(h, es)
    decreases |es|
  {
    && B.LayoutOk(b) && B.Readable(b) == h.conn.output
    && (es != [] ==> NoneCompacts(b, Sends(h, es[0])) && OutputExact(Next(h, es[0]), OutAfter(h, b, es[0]), es[1..]))
  }

  /** A good response is under way, or none yet. */
  predicate Fine(h: Http) {
    !h.dead && !h.badFirst && !h.closing
  }

  lemma SendTwo(b: B.Layout, x: string, y: string)
    requires B.LayoutOk(b) && b.reader == B.CHEAP_PREPEND
    ensures NoneCompacts(b, [x, y]) && B.Readable(AppendedAll(b, [x, y])) == B.Readable(b) + x + y
  {
    hide Appended;
    assert [x, y][1..] == [y] && [y][1..] == [];
    var b1 := Appended(b, x);
    assert AppendedAll(b1, [y]) == AppendedAll(Appended(b1, y), []);
    assert NoneCompacts(Appended(b1, y), []) && NoneCompacts(b1, [y]);
  }

  lemma SendNothing(b: B.Layout)
    requires B.LayoutOk(b)
    ensures NoneCompacts(b, [""]) && B.Readable(AppendedAll(b, [""])) == B.Readable(b)
  {
    hide Appended;
    assert [""][1..] == [];
    assert AppendedAll(Appended(b, ""), []) == Appended(b, "");
    assert B.Readable(b) + "" == B.Readable(b);
  }

  /** What a session that answers puts into its output. */
  lemma ReadSends(h: Http, data: string, r: Reply)
    requires ConnInv(h.conn) && h.conn.state == Connected && ReplyOk(r)
    ensures var resp := Loaded(h, data, r);
            var k := AfterMsg(h, data, r);
            !k.dead ==>
              k.conn.output == if resp.Some? then h.conn.output + resp.value.headers + resp.value.body else h.conn.output
  {
    var o := DecodeHttpRequest(h.req, h.input + data);
    hide Decode, AfterSend, ConnInv, Load;
    if o.code == GetRequest && !r.IoFailure? {
      RespondConn(h.conn, Load(h.resp, r));
    } else if o.code == BadRequest {
      RespondConn(h.conn, Load(h.resp, ErrorPage(r)));
    }
  }

  /** A read answers only when the output is empty. */
  lemma ReadStep(h: Http, b: B.Layout, data: string, r: Reply)
    requires Inv(h) && CountInv(h) && Enabled(h, Read(data, r)) && Fine(h) && Fine(Next(h, Read(data, r)))
    requires B.LayoutOk(b) && B.Readable(b) == h.conn.output
    ensures NoneCompacts(b, Sends(h, Read(data, r)))
    ensures B.Readable(OutAfter(h, b, Read(data, r))) == Next(h, Read(data, r)).conn.output
  {
    BeforeRead(h);
    ReadSends(Popped(h), data, r);
    assert h.answer.Some? ==> DecodeHttpRequest(h.req, h.input + data).code == NoRequest;
    hide Inv, CountInv, Decode, AfterMsg, Load, ConnInv;
    var resp := Loaded(h, data, r);
    assert Loaded(Popped(h), data, r) == resp;
    if resp.Some? {
      SendTwo(b, resp.value.headers, resp.value.body);
    }
  }

  lemma WriteStep(h: Http, b: B.Layout, n: int)
    requires Enabled(h, WriteOut(n)) && B.LayoutOk(b) && B.Readable(b) == h.conn.output
    ensures B.LayoutOk(OutAfter(h, b, WriteOut(n)))
    ensures B.Readable(OutAfter(h, b, WriteOut(n))) == Next(h, WriteOut(n)).conn.output
  {
    assert Next(h, WriteOut(n)).conn == AfterWrite(h.conn, n);
  }

  lemma CompleteStep(h: Http, b: B.Layout, ret: int)
    requires Enabled(h, Complete(ret)) && B.LayoutOk(b) && B.Readable(b) == h.conn.output
    ensures NoneCompacts(b, Sends(h, Complete(ret)))
    ensures B.LayoutOk(OutAfter(h, b, Complete(ret)))
    ensures B.Readable(OutAfter(h, b, Complete(ret))) == Next(h, Complete(ret)).conn.output
  {
    SendNothing(b);
    assert h.conn.output + "" == h.conn.output;
    assert Next(h, Complete(ret)).conn.output == h.conn.output;
    hide AfterWriteComplete;
  }

  lemma OtherStep(h: Http, b: B.Layout, e: Step)
    requires Enabled(h, e) && !e.Read? && B.LayoutOk(b) && B.Readable(b) == h.conn.output
    ensures NoneCompacts(b, Sends(h, e))
    ensures B.LayoutOk(OutAfter(h, b, e)) && B.Readable(OutAfter(h, b, e)) == Next(h, e).conn.output
  {
    if e.WriteOut? {
      WriteStep(h, b, e.n);
    } else if e.Complete? {
      CompleteStep(h, b, e.ret);
    }
    hide AfterWritable, AfterWriteComplete;
  }

  lemma {:induction false} FineBefore(h: Http, es: seq<Step>)
    requires RunOk(h, es) && Fine(Run(h, es))
    ensures Fine(h)
    decreases |es|
  {
    if es != [] {
      FineBefore(Next(h, es[0]), es[1..]);
      FineStep(h, es[0]);
    }
  }

  lemma FineStep(h: Http, e: Step)
    requires Enabled(h, e) && Fine(Next(h, e))
    ensures Fine(h)
  {
    hide Decode, AfterSend, Load;
  }

  lemma {:induction false} OutputStaysExact(h: Http, b: B.Layout, es: seq<Step>)
    requires Inv(h) && CountInv(h) && RunOk(h, es) && Fine(Run(h, es)) && B.LayoutOk(b) && B.Readable(b) == h.conn.output
    ensures OutputExact(h, b, es)
    decreases |es|
  {
    FineBefore(h, es);
    if es != [] {
      var e, k := es[0], Next(h, es[0]);
      FineBefore(k, es[1..]);
      StepKeeps(h, e);
      CountStep(h, e);
      if e.Read? { ReadStep(h, b, e.data, e.reply); } else { OtherStep(h, b, e); }
      hide Inv, CountInv, Enabled, Next, Sends, OutAfter;
      OutputStaysExact(k, OutAfter(h, b, e), es[1..]);
    }
  }

  /** In every run from a new connection, up to the end of its first good response, the output
      buffer as written holds exactly the session's output, and no append compacts. */
  lemma GoodOutputIsExact(es: seq<Step>)
    requires RunOk(INIT, es) && Fine(Run(INIT, es))
    ensures OutputExact(INIT, B.NEW_LAYOUT, es)
  {
    assert Waiting(INIT);
    OutputStaysExact(INIT, B.NEW_LAYOUT, es);
  }
}
