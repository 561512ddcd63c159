/** One TCP connection as its event loop sees it: `state_`, the channel's interest and
    `output_`, with the history of accepted and written bytes and of half-closes.

    `output_` is the byte sequence that a correct `Buffer` holds (see module Buffers).
 */
module Connections {
  import opened Pollers

  datatype State = Connecting | Connected | Disconnecting | Disconnected

  /** What had been written to the socket and accepted for sending when shutdownWrite was called. */
  datatype HalfClose = HalfClose(written: nat, accepted: nat)

  datatype Conn = Conn(
    state: State,
    events: Interest,
    output: string,
    accepted: string,            // history: all messages taken by sendInLoop, concatenated
    written: string,             // history: all bytes written to the socket from `output`
    halfCloses: seq<HalfClose>)  // history: the calls of shutdownWrite

  const NEW_CONN := Conn(Connecting, Interest(false, false), "", "", "", [])

  predicate Live(c: Conn) { c.state == Connected || c.state == Disconnecting }

  function AfterEstablish(c: Conn): Conn {
    c.(state := Connected, events := c.events.(read := true))
  }

  function AfterSend(c: Conn, msg: string): Conn {
    if c.state == Connected then
      c.(output := c.output + msg, accepted := c.accepted + msg, events := c.events.(write := true))
    else c
  }

  function AfterShutdown(c: Conn): Conn {
    if c.state != Connected then c
    else
      var d := c.(state := Disconnecting);
      if c.events.write then d
      else d.(halfCloses := d.halfCloses + [HalfClose(|c.written|, |c.accepted|)])
  }

  /** The results write(2) can give in handleWrite; nothing is written when nothing is readable. */
  predicate WriteResult(c: Conn, n: int) {
    -1 <= n <= |c.output| && (c.output == "" ==> n == 0)
  }

  /** handleWrite empties `output` and so queues the write-complete callback. */
  predicate Drains(c: Conn, n: int) {
    c.events.write && n >= 0 && n == |c.output|
  }

  function AfterWrite(c: Conn, n: int): Conn
    requires WriteResult(c, n)
  {
    if !c.events.write || n < 0 then c
    else
      var d := c.(output := c.output[n..], written := c.written + c.output[..n]);
      if d.output != "" then d
      else
        var e := d.(events := d.events.(write := false));
        if e.state == Disconnecting then AfterShutdown(e) else e
  }

  /** The part of handleClose that touches the connection, before its two callbacks. */
  function AfterClose(c: Conn): Conn {
    c.(state := Disconnected, events := Interest(false, false))
  }

  // ---------------------------------------------------------------------------
  // What every step keeps

  ghost predicate ConnInv(c: Conn) {
    && c.written + c.output == c.accepted
    && (Live(c) <==> c.events.read)
    && (!Live(c) ==> !c.events.write)
    && (Live(c) && c.output != "" ==> c.events.write)
    && (c.state == Connecting ==> c == NEW_CONN)
    && (c.halfCloses == [] || c.halfCloses == [HalfClose(|c.written|, |c.accepted|)])
    && (c.halfCloses != [] ==> c.state.Disconnecting? || c.state.Disconnected?)
    && (c.halfCloses != [] ==> c.output == "" && !c.events.write)
  }

  datatype ConnStep = Establish | Send(msg: string) | Shutdown | Write(n: int) | Close

  /** The asserts of the source, and what write(2) may return. */
  predicate ConnEnabled(c: Conn, e: ConnStep) {
    match e
    case Establish => c.state == Connecting
    case Close => Live(c)
    case Write(n) => WriteResult(c, n)
    case _ => true
  }

  function ConnNext(c: Conn, e: ConnStep): Conn
    requires ConnEnabled(c, e)
  {
    match e
    case Establish => AfterEstablish(c)
    case Send(msg) => AfterSend(c, msg)
    case Shutdown => AfterShutdown(c)
    case Write(n) => AfterWrite(c, n)
    case Close => AfterClose(c)
  }

  lemma ConnStepKeeps(c: Conn, e: ConnStep)
    requires ConnInv(c) && ConnEnabled(c, e)
    ensures ConnInv(ConnNext(c, e))
  {
    match e
    case Send(msg) =>
      assert c.written + (c.output + msg) == c.accepted + msg;
    case Write(n) =>
      if n >= 0 {
        assert c.output[..n] + c.output[n..] == c.output;
        assert c.written + c.output[..n] + c.output[n..] == c.accepted;
      }
    case _ =>
  }

  ghost predicate ConnRunOk(c: Conn, es: seq<ConnStep>)
    decreases |es|
  {
    es == [] || (ConnEnabled(c, es[0]) && ConnRunOk(ConnNext(c, es[0]), es[1..]))
  }

  ghost function ConnRun(c: Conn, es: seq<ConnStep>): Conn
    requires ConnRunOk(c, es)
    decreases |es|
  {
    if es == [] then c else ConnRun(ConnNext(c, es[0]), es[1..])
  }

  /** Output conservation and half-close safety over whole runs: the bytes written followed
      by those waiting are all accepted bytes in order; a waiting byte of a live connection
      implies write interest; shutdownWrite happens at most once, only with every accepted
      byte written, and no byte is written after it. */
  lemma {:induction false} OutputIsConserved(c: Conn, es: seq<ConnStep>)
    requires ConnInv(c) && ConnRunOk(c, es)
    ensures var d := ConnRun(c, es);
            && ConnInv(d)
            && d.written + d.output == d.accepted
            && (Live(d) && d.output != "" ==> d.events.write)
            && |d.halfCloses| <= 1
            && (forall h :: h in d.halfCloses ==> h.written == h.accepted == |d.written| == |d.accepted|)
    decreases |es|
  {
    if es != [] {
      ConnStepKeeps(c, es[0]);
      OutputIsConserved(ConnNext(c, es[0]), es[1..]);
    }
  }

  /** shutdown() on a connected connection half-closes it exactly when the channel is not
      writing at that moment. If it is writing, the half-close is never made up for, whatever
      follows: handleWrite's later call of shutdownInLoop finds the state already changed. */
  lemma {:induction false} HalfCloseNowOrNever(c: Conn, es: seq<ConnStep>)
    requires ConnInv(c) && c.state == Connected && ConnRunOk(AfterShutdown(c), es)
    ensures |ConnRun(AfterShutdown(c), es).halfCloses| == (if c.events.write then 0 else 1)
  {
    ConnStepKeeps(c, Shutdown);
    HalfCloseSettled(AfterShutdown(c), es);
  }

  lemma {:induction false} HalfCloseSettled(c: Conn, es: seq<ConnStep>)
    requires ConnInv(c) && ConnRunOk(c, es) && (c.state.Disconnecting? || c.state.Disconnected?)
    ensures ConnRun(c, es).halfCloses == c.halfCloses
    decreases |es|
  {
    if es != [] {
      ConnStepKeeps(c, es[0]);
      HalfCloseSettled(ConnNext(c, es[0]), es[1..]);
    }
  }

  /** The promise that a shutdown during a write half-closes after the drain does not hold. */
  lemma HalfCloseAfterDrainIsLost()
    ensures var es := [Establish, Send("x"), Shutdown, Write(1)];
            && ConnRunOk(NEW_CONN, es)
            && ConnRun(NEW_CONN, es).state == Disconnecting
            && ConnRun(NEW_CONN, es).output == ""
            && ConnRun(NEW_CONN, es).halfCloses == []
  {
    var c1 := ConnNext(NEW_CONN, Establish);
    var c2 := ConnNext(c1, Send("x"));
    var c3 := ConnNext(c2, Shutdown);
    assert c2.output == "x";
    var c4 := ConnNext(c3, Write(1));
    assert ConnRunOk(c4, []) && ConnRun(c4, []) == c4;
    assert [Write(1)][1..] == [];
    assert ConnRunOk(c3, [Write(1)]) && ConnRun(c3, [Write(1)]) == c4;
    assert [Shutdown, Write(1)][1..] == [Write(1)];
    assert ConnRunOk(c2, [Shutdown, Write(1)]) && ConnRun(c2, [Shutdown, Write(1)]) == c4;
    assert [Send("x"), Shutdown, Write(1)][1..] == [Shutdown, Write(1)];
    assert ConnRunOk(c1, [Send("x"), Shutdown, Write(1)]) && ConnRun(c1, [Send("x"), Shutdown, Write(1)]) == c4;
    assert [Establish, Send("x"), Shutdown, Write(1)][1..] == [Send("x"), Shutdown, Write(1)];
  }

  // ---------------------------------------------------------------------------
  // Write interest

  /** A write with interest on keeps the interest as it is while bytes are left, and ends it, in
      every state, when the output is empty. Without interest nothing is written. */
  lemma WriteSettlesInterest(c: Conn, n: int)
    requires ConnInv(c) && ConnEnabled(c, Write(n))
    ensures var d := ConnNext(c, Write(n));
            && (c.events.write && n == |c.output| ==> d.events == Interest(c.events.read, false) && d.output == "")
            && (c.events.write && n < |c.output| ==> d.events == c.events && d.output != "")
            && (c.events.write && n >= 0 ==> d.written == c.written + c.output[..n] && d.output == c.output[n..])
            && (!c.events.write || n < 0 ==> d == c)
            && d.state == c.state && d.accepted == c.accepted
  {
  }

  /** The writes of a run that empty the output and so queue the write-complete callback. */
  ghost function DrainCount(c: Conn, es: seq<ConnStep>): nat
    requires ConnRunOk(c, es)
    decreases |es|
  {
    if es == [] then 0
    else (if es[0].Write? && Drains(c, es[0].n) then 1 else 0) + DrainCount(ConnNext(c, es[0]), es[1..])
  }

  /** The messages of a run that are accepted. */
  ghost function SendCount(c: Conn, es: seq<ConnStep>): nat
    requires ConnRunOk(c, es)
    decreases |es|
  {
    if es == [] then 0
    else (if es[0].Send? && c.state == Connected then 1 else 0) + SendCount(ConnNext(c, es[0]), es[1..])
  }

  lemma {:induction false} DrainsAreCounted(c: Conn, es: seq<ConnStep>)
    requires ConnInv(c) && ConnRunOk(c, es)
    ensures DrainCount(c, es) + (if ConnRun(c, es).events.write then 1 else 0)
            <= SendCount(c, es) + (if c.events.write then 1 else 0)
    decreases |es|
  {
    if es != [] {
      ConnStepKeeps(c, es[0]);
      if es[0].Write? { WriteSettlesInterest(c, es[0].n); }
      DrainsAreCounted(ConnNext(c, es[0]), es[1..]);
    }
  }

  /** A message leads to at most one write-complete callback, over every run. */
  lemma DrainsAreFewerThanSends(es: seq<ConnStep>)
    requires ConnRunOk(NEW_CONN, es)
    ensures DrainCount(NEW_CONN, es) <= SendCount(NEW_CONN, es)
  {
    DrainsAreCounted(NEW_CONN, es);
  }

  /** The messages sent while connected, one after the other. */
  ghost function SentText(c: Conn, es: seq<ConnStep>): string
    requires ConnRunOk(c, es)
    decreases |es|
  {
    if es == [] then ""
    else (if es[0].Send? && c.state == Connected then es[0].msg else "") + SentText(ConnNext(c, es[0]), es[1..])
  }

  /** What is accepted is exactly what was sent while connected; shutdown and close end that. */
  lemma {:induction false} AcceptedIsSent(c: Conn, es: seq<ConnStep>)
    requires ConnRunOk(c, es)
    ensures ConnRun(c, es).accepted == c.accepted + SentText(c, es)
    decreases |es|
  {
    if es != [] {
      var d := ConnNext(c, es[0]);
      AcceptedIsSent(d, es[1..]);
      var first := if es[0].Send? && c.state == Connected then es[0].msg else "";
      assert d.accepted == c.accepted + first by {
        assert c.accepted + "" == c.accepted;
      }
    }
  }

  /** In every run the connection goes from connected to disconnecting at a shutdown and to
      disconnected at a close, and by nothing else. */
  lemma StatesAreOrdered(c: Conn, e: ConnStep)
    requires ConnInv(c) && ConnEnabled(c, e)
    ensures var d := ConnNext(c, e);
            && (d.state == Connected <==> (e.Establish? || (c.state == Connected && !e.Shutdown? && !e.Close?)))
            && (d.state == Disconnecting <==> ((e.Shutdown? && c.state == Connected) || (c.state == Disconnecting && !e.Close?)))
            && (d.state == Disconnected <==> (e.Close? || c.state == Disconnected))
            && (e.Send? && c.state == Connected ==> d.events == Interest(c.events.read, true) && d.output == c.output + e.msg)
            && (e.Send? && c.state != Connected ==> d == c)
            && (e.Close? ==> d.events.IsNone() && d.output == c.output && d.written == c.written)
  {
  }

  // ---------------------------------------------------------------------------
  // The connection object

  class TcpConnection {
    var state: State
    var events: Interest
    var output: string
    ghost var accepted: string
    ghost var written: string
    ghost var halfCloses: seq<HalfClose>

    ghost function View(): Conn reads this { Conn(state, events, output, accepted, written, halfCloses) }

    constructor ()
      ensures View() == NEW_CONN && ConnInv(View())
    {
      state, events, output := Connecting, Interest(false, false), "";
      accepted, written, halfCloses := "", "", [];
    }

    method EnableReading(enable: bool)
      modifies this`events
      ensures events == old(events).(read := enable)
    {
      events := events.(read := enable);
    }

    method EnableWriting(enable: bool)
      modifies this`events
      ensures events == old(events).(write := enable)
    {
      events := events.(write := enable);
    }

    method DisableAll()
      modifies this`events
      ensures events.IsNone()
    {
      events := Interest(false, false);
    }

    method ConnectEstablished()
      requires state == Connecting
      modifies this
      ensures View() == AfterEstablish(old(View()))
    {
      state := Connected;
      EnableReading(true);
    }

    method SendInLoop(msg: string)
      modifies this
      ensures View() == AfterSend(old(View()), msg)
    {
      if state == Connected {
        output := output + msg;
        accepted := accepted + msg;
        if !events.write {
          EnableWriting(true);
        }
      }
    }

    method ShutdownInLoop()
      modifies this`state, this`halfCloses
      ensures View() == AfterShutdown(old(View()))
    {
      if state == Connected {
        state := Disconnecting;
        if !events.write {
          halfCloses := halfCloses + [HalfClose(|written|, |accepted|)];
        }
      }
    }

    /** `n` is what write(2) returns. */
    method HandleWrite(n: int) returns (queueWriteComplete: bool)
      requires WriteResult(View(), n)
      modifies this
      ensures View() == AfterWrite(old(View()), n)
      ensures queueWriteComplete <==> Drains(old(View()), n)
    {
      queueWriteComplete := false;
      if events.write {
        if n >= 0 {
          written := written + output[..n];
          output := output[n..];
          if |output| == 0 {
            EnableWriting(false);
            queueWriteComplete := true;
            if state == Disconnecting {
              ShutdownInLoop();
            }
          }
        }
      }
    }

    method HandleClose()
      requires state == Connected || state == Disconnecting
      modifies this
      ensures View() == AfterClose(old(View()))
    {
      state := Disconnected;
      DisableAll();
    }
  }
}
