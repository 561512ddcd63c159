/** The output of a connection in the real buffer, as written: every accepted message is appended
    and may compact, every write retrieves what went out. Control does not depend on the bytes,
    so the connection itself runs as in module Connections.
 */
module ConnOutput {
  import opened Connections
  import opened Buffers

  /** The buffer and what really went to the socket; `compacted` is history. */
  datatype Out = Out(buf: Layout, written: string, compacted: bool)

  const NEW_OUT := Out(NEW_LAYOUT, "", false)

  /** Of the same length as the connection's output and its written bytes. */
  ghost predicate Keeps(c: Conn, x: Out) {
    LayoutOk(x.buf) && ReservedIsZero(x.buf) && |Readable(x.buf)| == |c.output| && |x.written| == |c.written|
  }

  ghost function OutNext(c: Conn, x: Out, e: ConnStep): Out
    requires Keeps(c, x) && ConnEnabled(c, e)
  {
    match e
    case Send(msg) =>
      if c.state == Connected
      then Out(Append(x.buf, msg, FromBegin), x.written, x.compacted || Compacts(x.buf, |msg|)) else x
    case Write(n) =>
      if c.events.write && n >= 0
      then Out(Retrieve(x.buf, n), x.written + Readable(x.buf)[..n], x.compacted) else x
    case _ => x
  }

  /** The bytes that are out and those that wait. */
  ghost function Total(x: Out): string
    requires LayoutOk(x.buf)
  {
    x.written + Readable(x.buf)
  }

  /** Until a compaction all is as it should be; after it a NUL is among the bytes. */
  ghost predicate Tainted(c: Conn, x: Out)
    requires Keeps(c, x)
  {
    if x.compacted then '\0' in Total(x) else Readable(x.buf) == c.output && x.written == c.written
  }

  lemma SendKeeps(c: Conn, x: Out, msg: string)
    requires Keeps(c, x) && c.state == Connected
    ensures var y := OutNext(c, x, Send(msg));
            Keeps(AfterSend(c, msg), y) && (Tainted(c, x) ==> Tainted(AfterSend(c, msg), y))
  {
    hide Append;
    AppendExtends(x.buf, msg, FromBegin);
    AppendKeepsReserved(x.buf, msg, FromBegin);
    var r := Append(x.buf, msg, FromBegin);
    if Compacts(x.buf, |msg|) {
      AppendZeroes(x.buf, msg);
      StartIsNul(x.buf, r);
      assert Readable(r)[0] in x.written + Readable(r);
    } else {
      hide ReservedIsZero;
      assert x.written + (Readable(x.buf) + msg) == Total(x) + msg;
    }
  }

  lemma StartIsNul(b: Layout, r: Layout)
    requires LayoutOk(b) && LayoutOk(r) && StartIsZero(b, r) && b.reader > CHEAP_PREPEND
    ensures Readable(r) != "" && Readable(r)[0] == '\0'
  {
    assert |Readable(b)| > 0;
  }

  lemma WriteKeeps(c: Conn, x: Out, n: int)
    requires Keeps(c, x) && WriteResult(c, n)
    ensures var y := OutNext(c, x, Write(n));
            && Keeps(AfterWrite(c, n), y) && Total(y) == Total(x)
            && (Tainted(c, x) ==> Tainted(AfterWrite(c, n), y))
  {
    var s := Readable(x.buf);
    if c.events.write && n >= 0 {
      assert s[..n] + s[n..] == s;
      assert (x.written + s[..n]) + s[n..] == x.written + s;
    }
  }

  lemma OutStep(c: Conn, x: Out, e: ConnStep)
    requires Keeps(c, x) && Tainted(c, x) && ConnEnabled(c, e)
    ensures Keeps(ConnNext(c, e), OutNext(c, x, e)) && Tainted(ConnNext(c, e), OutNext(c, x, e))
  {
    match e
    case Send(msg) => if c.state == Connected { SendKeeps(c, x, msg); }
    case Write(n) => WriteKeeps(c, x, n);
    case _ =>
  }

  ghost function OutRun(c: Conn, x: Out, es: seq<ConnStep>): Out
    requires Keeps(c, x) && Tainted(c, x) && ConnRunOk(c, es)
    decreases |es|
  {
    if es == [] then x
    else
      OutStep(c, x, es[0]);
      OutRun(ConnNext(c, es[0]), OutNext(c, x, es[0]), es[1..])
  }

  lemma {:induction false} OutRunKeeps(c: Conn, x: Out, es: seq<ConnStep>)
    requires Keeps(c, x) && Tainted(c, x) && ConnRunOk(c, es)
    ensures Keeps(ConnRun(c, es), OutRun(c, x, es)) && Tainted(ConnRun(c, es), OutRun(c, x, es))
    decreases |es|
  {
    if es != [] {
      OutStep(c, x, es[0]);
      OutRunKeeps(ConnNext(c, es[0]), OutNext(c, x, es[0]), es[1..]);
    }
  }

  predicate NoNul(es: seq<ConnStep>) {
    forall i :: 0 <= i < |es| && es[i].Send? ==> '\0' !in es[i].msg
  }

  lemma {:induction false} AcceptedHasNoNul(c: Conn, es: seq<ConnStep>)
    requires ConnRunOk(c, es) && NoNul(es) && '\0' !in c.accepted
    ensures '\0' !in ConnRun(c, es).accepted
    decreases |es|
  {
    if es != [] {
      assert forall i :: 0 <= i < |es[1..]| ==> es[1..][i] == es[i + 1];
      AcceptedHasNoNul(ConnNext(c, es[0]), es[1..]);
    }
  }

  lemma NewOutOk()
    ensures Keeps(NEW_CONN, NEW_OUT) && Tainted(NEW_CONN, NEW_OUT)
  {
  }

  /** Output conservation as written, over every run of a new connection whose messages have no
      NUL in them: the bytes that are out followed by those that wait are all accepted bytes in
      order exactly as long as no append has compacted. Without a compaction that holds for all
      messages, and the buffer holds what module Connections says. */
  lemma ConservedIff(es: seq<ConnStep>)
    requires ConnRunOk(NEW_CONN, es)
    ensures Keeps(NEW_CONN, NEW_OUT) && Tainted(NEW_CONN, NEW_OUT)
    ensures var c, x := ConnRun(NEW_CONN, es), OutRun(NEW_CONN, NEW_OUT, es);
            && Keeps(c, x)
            && (!x.compacted ==> Readable(x.buf) == c.output && x.written == c.written && Total(x) == c.accepted)
            && (NoNul(es) ==> (Total(x) == c.accepted <==> !x.compacted))
  {
    NewOutOk();
    OutRunKeeps(NEW_CONN, NEW_OUT, es);
    OutputIsConserved(NEW_CONN, es);
    if NoNul(es) { AcceptedHasNoNul(NEW_CONN, es); }
  }

  /** A connection that was sent `a` and has written `k` bytes of it. */
  lemma PartlyWritten(a: string, k: nat) returns (c: Conn, x: Out)
    requires 0 < k < |a| <= INITIAL_SIZE
    ensures Keeps(NEW_CONN, NEW_OUT) && Tainted(NEW_CONN, NEW_OUT) && Keeps(c, x) && Tainted(c, x)
    ensures c.state == Connected && |x.buf.bytes| == CHEAP_PREPEND + INITIAL_SIZE
    ensures x.buf.reader == CHEAP_PREPEND + k && x.buf.writer == CHEAP_PREPEND + |a|
    ensures forall es :: ConnRunOk(c, es) ==>
              && ConnRunOk(NEW_CONN, [Establish] + ([Send(a)] + ([Write(k)] + es)))
              && OutRun(NEW_CONN, NEW_OUT, [Establish] + ([Send(a)] + ([Write(k)] + es))) == OutRun(c, x, es)
  {
    var e1, e2, e3 := Establish, Send(a), Write(k);
    var c1 := ConnNext(NEW_CONN, e1);
    var c2 := ConnNext(c1, e2);
    assert "" + a == a;
    c := ConnNext(c2, e3);
    NewOutOk();
    OutStep(NEW_CONN, NEW_OUT, e1);
    OutStep(c1, NEW_OUT, e2);
    var x2 := OutNext(c1, NEW_OUT, e2);
    OutStep(c2, x2, e3);
    x := OutNext(c2, x2, e3);
    var b := NewAppendRetrieve(a, k);
    assert x.buf == b;
    hide Keeps, Tainted, ConnNext, OutNext, OutRun, ConnRunOk;
    forall es | ConnRunOk(c, es)
      ensures ConnRunOk(NEW_CONN, [e1] + ([e2] + ([e3] + es)))
      ensures OutRun(NEW_CONN, NEW_OUT, [e1] + ([e2] + ([e3] + es))) == OutRun(c, x, es)
    {
      RunCons(c2, x2, e3, es);
      RunCons(c1, NEW_OUT, e2, [e3] + es);
      RunCons(NEW_CONN, NEW_OUT, e1, [e2] + ([e3] + es));
    }
  }

  /** Such a compaction happens when a message overflows the buffer by no more than what has
      been written of the one before. */
  lemma OutputIsLost(a: string, k: nat, d: string)
    requires 0 < k < |a| <= INITIAL_SIZE && INITIAL_SIZE - |a| < |d| <= k + INITIAL_SIZE - |a|
    ensures var es := [Establish] + ([Send(a)] + ([Write(k)] + ([Send(d)] + [])));
            && ConnRunOk(NEW_CONN, es) && Keeps(NEW_CONN, NEW_OUT) && Tainted(NEW_CONN, NEW_OUT)
            && OutRun(NEW_CONN, NEW_OUT, es).compacted
  {
    var c, x := PartlyWritten(a, k);
    OutStep(c, x, Send(d));
    RunCons(c, x, Send(d), []);
  }

  lemma RunCons(c: Conn, x: Out, e: ConnStep, es: seq<ConnStep>)
    requires Keeps(c, x) && Tainted(c, x) && ConnEnabled(c, e)
    requires Keeps(ConnNext(c, e), OutNext(c, x, e)) && Tainted(ConnNext(c, e), OutNext(c, x, e))
    requires ConnRunOk(ConnNext(c, e), es)
    ensures ConnRunOk(c, [e] + es)
    ensures OutRun(c, x, [e] + es) == OutRun(ConnNext(c, e), OutNext(c, x, e), es)
  {
    hide Keeps, Tainted, ConnNext, OutNext, ConnEnabled;
    assert ([e] + es)[1..] == es;
  }
}
