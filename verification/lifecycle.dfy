/** The life of connections across event loops.

    Loop 0 is the acceptor loop. It accepts connections, hands each to an I/O loop, and
    later takes it off its list. All hand-offs go through the loops' task queues. Each loop
    thread works through an agenda of small steps, so every interleaving of the loop threads,
    of other threads and of the user's callbacks is a run. A failed assert aborts the system.
 */
module Lifecycle {
  import opened Options
  import opened Pollers
  import opened Connections

  datatype Milestone = Established | HandledClose | Unlisted | Destroyed

  /** A step a loop thread still has to do; the queued ones are tasks of the source. */
  datatype Task =
    | RunEstablish(c: nat)      // TcpConnection::connectEstablished
    | RunCallback               // a user callback, or a user's own task
    | RunCloseCallback(c: nat)  // closeCallback_, that is TcpServer::removeConnection
    | RunRemove(c: nat)         // TcpServer::removeConnectionInLoop
    | RunDestroy(c: nat)        // TcpConnection::connectDestroyed
    | RunUnregister(c: nat)     // the end of connectDestroyed after its callback
    | RunClose(c: nat)          // TcpConnection::closeInLoop
    | RunCloseLater(c: nat)     // the outer task of closeInNextLoop
    | RunSend(c: nat, msg: string)
    | RunShutdown(c: nat)
    | RunWriteComplete(c: nat)
    | RunRead(c: nat)           // TcpConnection::handleRead
    | RunWrite(c: nat)          // TcpConnection::handleWrite
    | RunAccept                 // Acceptor::handleRead
    | RunWakeup                 // EventLoop::handleRead

  datatype Phase = Tasks | Dispatch

  /** `counter` is the eventfd's, `owed` the number of wakeup writes that follow a push and are
      still to be made; `table` records the poller's calls on the table of module Pollers. */
  datatype Loop = Loop(
    phase: Phase, agenda: seq<Task>, queue: seq<Task>, counter: nat, owed: nat, poller: EPoll, table: Table)

  /** A connection, its I/O loop, its descriptor, and the milestones it has passed. */
  datatype Ent = Ent(io: nat, fd: nat, open: bool, conn: Conn, hist: seq<Milestone>)

  datatype Sys = Sys(loops: seq<Loop>, conns: seq<Ent>, listed: set<nat>, aborted: bool)

  /** The public calls a user can make on a connection, from a callback or another thread. */
  datatype Call =
    | CallSend(c: nat, msg: string)
    | CallShutdown(c: nat)
    | CallClose(c: nat)
    | CallCloseInNextLoop(c: nat)

  datatype Event = ConnEvent(fd: nat, read: bool, write: bool) | AcceptEvent | WakeEvent

  /** What happens next; the arguments are the results of system calls and the user's choices. */
  datatype Choice =
    | Swap(l: nat)                         // doPendingTasks takes the queue
    | PollReturns(l: nat, ready: seq<Event>)  // nothing ready: the poll timed out
    | Exec(l: nat, n: int)                 // the loop does its next step; n: read or write result
    | Accepts(l: nat, fd: nat, io: nat)    // accept succeeds, allocLoop gives loop io
    | Calls(l: nat, call: Call)            // from a callback running on loop l
    | ThreadCalls(call: Call)              // from a thread that runs no loop
    | UserTask(k: nat)                     // someone queues a user task on loop k
    | Wakeup(k: nat)                       // a thread that queued something writes to the eventfd
    | Release(c: nat)                      // the destroyed connection is freed, its fd closed

  const INIT_LOOP := Loop(Dispatch, [], [], 0, 0, EMPTY_EPOLL, map[])

  // ---------------------------------------------------------------------------
  // Steps

  function Abort(s: Sys): Sys { s.(aborted := true) }

  function Pop(s: Sys, l: nat): Sys
    requires l < |s.loops| && s.loops[l].agenda != []
  {
    s.(loops := s.loops[l := s.loops[l].(agenda := s.loops[l].agenda[1..])])
  }

  function Prepend(s: Sys, l: nat, ts: seq<Task>): Sys
    requires l < |s.loops|
  {
    s.(loops := s.loops[l := s.loops[l].(agenda := ts + s.loops[l].agenda)])
  }

  /** queueInLoop up to its wakeup. */
  function Push(s: Sys, k: nat, t: Task): Sys
    requires k < |s.loops|
  {
    s.(loops := s.loops[k := s.loops[k].(queue := s.loops[k].queue + [t], owed := s.loops[k].owed + 1)])
  }

  /** The eventfd of loop `k` is written or read. */
  function SetCounter(s: Sys, k: nat, counter: nat, owed: nat): Sys
    requires k < |s.loops|
  {
    s.(loops := s.loops[k := s.loops[k].(counter := counter, owed := owed)])
  }

  function SetEnt(s: Sys, c: nat, e: Ent): Sys
    requires c < |s.conns|
  {
    s.(conns := s.conns[c := e])
  }

  /** A poller call on loop `l`; a failed assert aborts. */
  function Watch(s: Sys, l: nat, op: Op): Sys
    requires l < |s.loops|
  {
    match EPollStep(s.loops[l].poller, op)
    case None => Abort(s)
    case Some(p) =>
      s.(loops := s.loops[l := s.loops[l].(poller := p, table := Apply(s.loops[l].table, op))])
  }

  /** Stores the connection's new value, telling the poller if its interest changed. */
  function Change(s: Sys, l: nat, c: nat, conn: Conn): Sys
    requires l < |s.loops| && c < |s.conns|
  {
    var e := s.conns[c];
    var s1 := SetEnt(s, c, e.(conn := conn));
    if conn.events == e.conn.events then s1 else Watch(s1, l, Update(e.fd, c, conn.events))
  }

  function DoEstablish(s: Sys, l: nat, c: nat): Sys
    requires l < |s.loops| && c < |s.conns|
  {
    var e := s.conns[c];
    if l != e.io || e.conn.state != Connecting then Abort(s) else
    var s1 := Watch(s, l, Add(e.fd, c, e.conn.events));
    if s1.aborted then s1 else
    var conn := AfterEstablish(e.conn);
    var s2 := Watch(SetEnt(s1, c, e.(conn := conn, hist := e.hist + [Established])), l, Update(e.fd, c, conn.events));
    if s2.aborted then s2 else Prepend(s2, l, [RunCallback])
  }

  /** TcpConnection::handleClose: disable the channel, then the user's callback, then closeCallback_. */
  function DoHandleClose(s: Sys, l: nat, c: nat): Sys
    requires l < |s.loops| && c < |s.conns|
  {
    var e := s.conns[c];
    if l != e.io || !Live(e.conn) then Abort(s) else
    var conn := AfterClose(e.conn);
    var s1 := Watch(SetEnt(s, c, e.(conn := conn, hist := e.hist + [HandledClose])), l, Update(e.fd, c, conn.events));
    if s1.aborted then s1 else Prepend(s1, l, [RunCallback, RunCloseCallback(c)])
  }

  function DoRemove(s: Sys, l: nat, c: nat): Sys
    requires l < |s.loops| && c < |s.conns| && s.conns[c].io < |s.loops|
  {
    if l != 0 || c !in s.listed then Abort(s) else
    var e := s.conns[c];
    Push(SetEnt(s.(listed := s.listed - {c}), c, e.(hist := e.hist + [Unlisted])), e.io, RunDestroy(c))
  }

  function DoDestroy(s: Sys, l: nat, c: nat): Sys
    requires l < |s.loops| && c < |s.conns|
  {
    var e := s.conns[c];
    if l != e.io then Abort(s) else
    var s1 := SetEnt(s, c, e.(hist := e.hist + [Destroyed]));
    if e.conn.state == Connected then
      var s2 := Change(s1, l, c, AfterClose(e.conn));
      if s2.aborted then s2 else Prepend(s2, l, [RunCallback, RunUnregister(c)])
    else Watch(s1, l, Remove(e.fd, c, e.conn.events))
  }

  function DoWrite(s: Sys, l: nat, c: nat, n: int): Sys
    requires l < |s.loops| && c < |s.conns| && WriteResult(s.conns[c].conn, n)
  {
    var e := s.conns[c];
    if l != e.io then Abort(s) else
    var s1 := Change(s, l, c, AfterWrite(e.conn, n));
    if s1.aborted || !Drains(e.conn, n) then s1 else Push(s1, l, RunWriteComplete(c))
  }

  function DoSend(s: Sys, l: nat, c: nat, msg: string): Sys
    requires l < |s.loops| && c < |s.conns|
  {
    if l != s.conns[c].io then Abort(s) else Change(s, l, c, AfterSend(s.conns[c].conn, msg))
  }

  function DoShutdown(s: Sys, l: nat, c: nat): Sys
    requires l < |s.loops| && c < |s.conns|
  {
    if l != s.conns[c].io then Abort(s) else Change(s, l, c, AfterShutdown(s.conns[c].conn))
  }

  /** A public call. `runInLoop` acts at once when the caller is the connection's own loop. */
  function DoCall(s: Sys, from: Option<nat>, call: Call): Sys
    requires call.c < |s.conns| && s.conns[call.c].io < |s.loops|
  {
    var io := s.conns[call.c].io;
    match call
    case CallSend(c, msg) => if from == Some(io) then DoSend(s, io, c, msg) else Push(s, io, RunSend(c, msg))
    case CallShutdown(c) => if from == Some(io) then DoShutdown(s, io, c) else Push(s, io, RunShutdown(c))
    case CallClose(c) => Push(s, io, RunClose(c))
    case CallCloseInNextLoop(c) => Push(s, io, RunCloseLater(c))
  }

  /** The connection a step is about exists, and so does its loop. */
  predicate Names(s: Sys, t: Task) {
    !t.RunCallback? && !t.RunAccept? && !t.RunWakeup? ==> t.c < |s.conns| && s.conns[t.c].io < |s.loops|
  }

  /** The step at the head of the agenda, already taken off it. */
  function DoTask(s: Sys, l: nat, t: Task, n: int): Sys
    requires l < |s.loops|
    requires Names(s, t)
    requires t.RunWrite? ==> WriteResult(s.conns[t.c].conn, n)
  {
    match t
    case RunEstablish(c) => DoEstablish(s, l, c)
    case RunCallback => s
    case RunCloseCallback(c) => if l == 0 then Prepend(s, 0, [RunRemove(c)]) else Push(s, 0, RunRemove(c))
    case RunRemove(c) => DoRemove(s, l, c)
    case RunDestroy(c) => DoDestroy(s, l, c)
    case RunUnregister(c) => Watch(s, l, Remove(s.conns[c].fd, c, s.conns[c].conn.events))
    case RunClose(c) =>
      if l != s.conns[c].io then Abort(s)
      else if Live(s.conns[c].conn) then DoHandleClose(s, l, c) else s
    case RunCloseLater(c) => Push(s, l, RunClose(c))
    case RunSend(c, msg) => DoSend(s, l, c, msg)
    case RunShutdown(c) => DoShutdown(s, l, c)
    case RunWriteComplete(c) => Prepend(s, l, [RunCallback])
    case RunRead(c) =>
      if n > 0 then Prepend(s, l, [RunCallback])
      else if n == 0 then DoHandleClose(s, l, c) else s
    case RunWrite(c) => DoWrite(s, l, c, n)
    case RunAccept => s
    case RunWakeup => SetCounter(s, l, 0, s.loops[l].owed)
  }

  /** TcpServer::newConnection for a fresh descriptor. */
  function DoAccept(s: Sys, fd: nat, io: nat): Sys
    requires 0 < |s.loops| && io < |s.loops|
  {
    var c := |s.conns|;
    var s1 := s.(conns := s.conns + [Ent(io, fd, true, NEW_CONN, [])], listed := s.listed + {c});
    if io == 0 then Prepend(s1, 0, [RunEstablish(c)]) else Push(s1, io, RunEstablish(c))
  }

  /** The handlers one active channel runs: reading before writing. */
  function HandlersOf(kernel: map<nat, Reg>, e: Event): seq<Task>
    requires e.ConnEvent? ==> e.fd in kernel
  {
    if e.AcceptEvent? then [RunAccept]
    else if e.WakeEvent? then [RunWakeup]
    else if e.read && e.write then [RunRead(kernel[e.fd].chan), RunWrite(kernel[e.fd].chan)]
    else if e.read then [RunRead(kernel[e.fd].chan)]
    else if e.write then [RunWrite(kernel[e.fd].chan)]
    else []
  }

  /** The handlers of all active channels, in order. */
  function Handlers(kernel: map<nat, Reg>, ready: seq<Event>): seq<Task>
    requires forall i :: 0 <= i < |ready| && ready[i].ConnEvent? ==> ready[i].fd in kernel
  {
    if ready == [] then [] else HandlersOf(kernel, ready[0]) + Handlers(kernel, ready[1..])
  }

  /** What epoll_wait can report on loop `l`: each watched descriptor at most once, the eventfd
      when its counter is not zero. */
  ghost predicate Pollable(s: Sys, l: nat, ready: seq<Event>)
    requires l < |s.loops|
  {
    && (forall i :: 0 <= i < |ready| && ready[i].ConnEvent? ==> ready[i].fd in s.loops[l].poller.kernel)
    && (forall i, j :: 0 <= i < j < |ready| ==> ready[i] != ready[j])
    && (forall i, j :: 0 <= i < j < |ready| && ready[i].ConnEvent? && ready[j].ConnEvent? ==> ready[i].fd != ready[j].fd)
    && (AcceptEvent in ready ==> l == 0)
    && (WakeEvent in ready ==> s.loops[l].counter > 0)
  }

  /** fillActiveChannels: every reported channel is the one registered for its descriptor. */
  ghost predicate ActiveOk(p: EPoll, ready: seq<Event>) {
    forall i :: 0 <= i < |ready| && ready[i].ConnEvent? && ready[i].fd in p.kernel ==>
      ready[i].fd in p.channels && p.channels[ready[i].fd].chan == p.kernel[ready[i].fd].chan
  }

  ghost predicate Enabled(s: Sys, ch: Choice) {
    && !s.aborted
    && match ch
       case Swap(l) => l < |s.loops| && s.loops[l].phase == Dispatch && s.loops[l].agenda == []
       case PollReturns(l, ready) =>
         l < |s.loops| && s.loops[l].phase == Tasks && s.loops[l].agenda == [] && Pollable(s, l, ready)
       case Exec(l, n) =>
         && l < |s.loops| && s.loops[l].agenda != []
         && var t := s.loops[l].agenda[0];
            (t.RunWrite? && t.c < |s.conns| ==> WriteResult(s.conns[t.c].conn, n))
       case Accepts(l, fd, io) =>
         && l == 0 < |s.loops| && s.loops[0].agenda != [] && s.loops[0].agenda[0] == RunAccept && io < |s.loops|
         && (forall c :: 0 <= c < |s.conns| && s.conns[c].open ==> s.conns[c].fd != fd)
       case Calls(l, call) =>
         l < |s.loops| && s.loops[l].agenda != [] && s.loops[l].agenda[0] == RunCallback && call.c < |s.conns|
       case ThreadCalls(call) => call.c < |s.conns|
       case UserTask(k) => k < |s.loops|
       case Wakeup(k) => k < |s.loops| && s.loops[k].owed > 0
       case Release(c) => c < |s.conns| && s.conns[c].open && Destroyed in s.conns[c].hist
  }

  ghost function Next(s: Sys, ch: Choice): Sys
    requires Enabled(s, ch)
  {
    match ch
    case Swap(l) => s.(loops := s.loops[l := s.loops[l].(phase := Tasks, agenda := s.loops[l].queue, queue := [])])
    case PollReturns(l, ready) =>
      if !ActiveOk(s.loops[l].poller, ready) then Abort(s)
      else s.(loops := s.loops[l := s.loops[l].(phase := Dispatch, agenda := Handlers(s.loops[l].poller.kernel, ready))])
    case Exec(l, n) =>
      var t := s.loops[l].agenda[0];
      if Names(s, t) then DoTask(Pop(s, l), l, t, n) else Abort(s)
    case Accepts(l, fd, io) => DoAccept(s, fd, io)
    case Calls(l, call) => if s.conns[call.c].io < |s.loops| then DoCall(s, Some(l), call) else Abort(s)
    case ThreadCalls(call) => if s.conns[call.c].io < |s.loops| then DoCall(s, None, call) else Abort(s)
    case UserTask(k) => Push(s, k, RunCallback)
    case Wakeup(k) => SetCounter(s, k, s.loops[k].counter + 1, s.loops[k].owed - 1)
    case Release(c) => SetEnt(s, c, s.conns[c].(open := false))
  }
}
