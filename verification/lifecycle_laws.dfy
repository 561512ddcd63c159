/** What every step of the lifecycle does, seen from outside: to the connections, to the agendas
    and queues of the loops, and to the kernel's interest. The tables below say it task by task;
    the laws say that every step of every run follows them.
 */
module LifecycleLaws {
  import opened Options
  import opened Pollers
  import opened Connections
  import opened Lifecycle
  import opened LifecycleSafety
  import opened LifecycleProgress

  // ---------------------------------------------------------------------------
  // The tables

  /** What a task puts at the front of its loop's agenda. `n` is the read or write result. */
  function Follow(s: Sys, l: nat, t: Task, n: int): seq<Task>
    requires Names(s, t)
  {
    match t
    case RunEstablish(_) => [RunCallback]
    case RunClose(c) => if Live(s.conns[c].conn) then [RunCallback, RunCloseCallback(c)] else []
    case RunRead(c) => if n > 0 then [RunCallback] else if n == 0 then [RunCallback, RunCloseCallback(c)] else []
    case RunCloseCallback(c) => if l == 0 then [RunRemove(c)] else []
    case RunWriteComplete(_) => [RunCallback]
    case _ => []
  }

  /** The loop on which a task queues another, and that other task. */
  function Queued(s: Sys, l: nat, t: Task, n: int): Option<(nat, Task)>
    requires Names(s, t)
  {
    match t
    case RunCloseCallback(c) => if l == 0 then None else Some((0, RunRemove(c)))
    case RunRemove(c) => Some((s.conns[c].io, RunDestroy(c)))
    case RunCloseLater(c) => Some((l, RunClose(c)))
    case RunWrite(c) =>
      if s.conns[c].conn.events.write && n == |s.conns[c].conn.output| then Some((l, RunWriteComplete(c))) else None
    case _ => None
  }

  /** What a message does to a connection. */
  function Accepting(c: Conn, msg: string): Conn {
    if c.state == Connected
    then c.(output := c.output + msg, accepted := c.accepted + msg, events := Interest(c.events.read, true)) else c
  }

  function ShuttingDown(c: Conn): Conn {
    if c.state == Connected
    then c.(state := Disconnecting,
            halfCloses := if c.events.write then c.halfCloses else c.halfCloses + [HalfClose(|c.written|, |c.accepted|)])
    else c
  }

  function Writing(c: Conn, n: int): Conn {
    if c.events.write && 0 <= n <= |c.output|
    then c.(output := c.output[n..], written := c.written + c.output[..n],
            events := Interest(c.events.read, n < |c.output|)) else c
  }

  function Closing(c: Conn): Conn { c.(state := Disconnected, events := Interest(false, false)) }

  /** The connection that a task is about, after it. */
  function EntAfter(e: Ent, t: Task, n: int): Ent {
    match t
    case RunEstablish(_) =>
      e.(conn := e.conn.(state := Connected, events := Interest(true, false)), hist := e.hist + [Established])
    case RunClose(_) => if Live(e.conn) then e.(conn := Closing(e.conn), hist := e.hist + [HandledClose]) else e
    case RunRead(_) => if n == 0 then e.(conn := Closing(e.conn), hist := e.hist + [HandledClose]) else e
    case RunRemove(_) => e.(hist := e.hist + [Unlisted])
    case RunDestroy(_) => e.(hist := e.hist + [Destroyed])
    case RunSend(_, msg) => e.(conn := Accepting(e.conn, msg))
    case RunShutdown(_) => e.(conn := ShuttingDown(e.conn))
    case RunWrite(_) => e.(conn := Writing(e.conn, n))
    case _ => e
  }

  predicate HasConn(t: Task) { !t.RunCallback? && !t.RunAccept? && !t.RunWakeup? }

  function ConnsAfter(s: Sys, t: Task, n: int): seq<Ent>
    requires Names(s, t)
  {
    if HasConn(t) then s.conns[t.c := EntAfter(s.conns[t.c], t, n)] else s.conns
  }

  /** Loop `m` after a step that adds `follow` to the agenda of loop `l`, queues `q`, and reads
      the eventfd of loop `l` if `woken`. */
  predicate LoopAfter(a: Loop, b: Loop, m: nat, l: nat, follow: seq<Task>, q: Option<(nat, Task)>, woken: bool) {
    && b.phase == a.phase && b.counter == (if woken && m == l then 0 else a.counter)
    && (if m == l then a.agenda != [] && b.agenda == follow + a.agenda[1..] else b.agenda == a.agenda)
    && (if q.Some? && q.value.0 == m then b.queue == a.queue + [q.value.1] && b.owed == a.owed + 1
        else b.queue == a.queue && b.owed == a.owed)
  }

  ghost predicate LoopsAfter(s: Sys, r: Sys, l: nat, follow: seq<Task>, q: Option<(nat, Task)>, woken: bool) {
    && |r.loops| == |s.loops| && !r.aborted
    && forall m :: 0 <= m < |s.loops| ==> LoopAfter(s.loops[m], r.loops[m], m, l, follow, q, woken)
  }

  /** The whole effect of the step at the head of loop `l`'s agenda. */
  ghost predicate Effect(s: Sys, r: Sys, l: nat, t: Task, n: int)
    requires Names(s, t)
  {
    && LoopsAfter(s, r, l, Follow(s, l, t, n), Queued(s, l, t, n), t.RunWakeup?)
    && r.conns == ConnsAfter(s, t, n) && r.listed == (if t.RunRemove? then s.listed - {t.c} else s.listed)
  }

  // ---------------------------------------------------------------------------
  // Changes that leave agendas and queues alone

  predicate LoopCalm(a: Loop, b: Loop) {
    b.phase == a.phase && b.agenda == a.agenda && b.queue == a.queue && b.owed == a.owed && b.counter == a.counter
  }

  ghost predicate Calm(s: Sys, r: Sys) {
    |r.loops| == |s.loops| && forall m :: 0 <= m < |s.loops| ==> LoopCalm(s.loops[m], r.loops[m])
  }

  lemma WatchCalm(s: Sys, l: nat, op: Op)
    requires l < |s.loops|
    ensures Calm(s, Watch(s, l, op)) && Watch(s, l, op).conns == s.conns && Watch(s, l, op).listed == s.listed
  {
    hide EPollStep, Apply;
  }

  lemma CalmOn(s: Sys, r: Sys, u: Sys)
    requires Calm(s, r) && Calm(r, u)
    ensures Calm(s, u)
  {
    forall m | 0 <= m < |s.loops|
      ensures LoopCalm(s.loops[m], u.loops[m])
    {
      assert LoopCalm(s.loops[m], r.loops[m]) && LoopCalm(r.loops[m], u.loops[m]);
    }
  }

  lemma SetWatchCalm(s: Sys, l: nat, c: nat, e: Ent, op: Op)
    requires l < |s.loops| && c < |s.conns|
    ensures var r := Watch(SetEnt(s, c, e), l, op);
            Calm(s, r) && r.conns == s.conns[c := e] && r.listed == s.listed
  {
    WatchCalm(SetEnt(s, c, e), l, op);
    assert Calm(s, SetEnt(s, c, e));
    hide Watch;
    CalmOn(s, SetEnt(s, c, e), Watch(SetEnt(s, c, e), l, op));
  }

  lemma ChangeCalm(s: Sys, l: nat, c: nat, conn: Conn)
    requires l < |s.loops| && c < |s.conns|
    ensures var r := Change(s, l, c, conn);
            Calm(s, r) && r.conns == s.conns[c := s.conns[c].(conn := conn)] && r.listed == s.listed
  {
    var e := s.conns[c].(conn := conn);
    SetWatchCalm(s, l, c, e, Update(e.fd, c, conn.events));
    assert Calm(s, SetEnt(s, c, e));
    hide Watch;
  }

  /** From such a change of the popped state to the whole step. */
  lemma CalmFollows(s: Sys, l: nat, u: Sys, follow: seq<Task>)
    requires l < |s.loops| && s.loops[l].agenda != [] && Calm(Pop(s, l), u) && !u.aborted
    ensures LoopsAfter(s, u, l, [], None, false)
    ensures LoopsAfter(s, Prepend(u, l, follow), l, follow, None, false)
  {
    forall m | 0 <= m < |s.loops|
      ensures LoopAfter(s.loops[m], u.loops[m], m, l, [], None, false)
      ensures LoopAfter(s.loops[m], Prepend(u, l, follow).loops[m], m, l, follow, None, false)
    {
      assert LoopCalm(Pop(s, l).loops[m], u.loops[m]);
      assert [] + s.loops[l].agenda[1..] == s.loops[l].agenda[1..];
    }
  }

  lemma CalmQueues(s: Sys, l: nat, u: Sys, k: nat, x: Task)
    requires l < |s.loops| && s.loops[l].agenda != [] && Calm(Pop(s, l), u) && !u.aborted && k < |s.loops|
    ensures LoopsAfter(s, Push(u, k, x), l, [], Some((k, x)), false)
  {
    forall m | 0 <= m < |s.loops|
      ensures LoopAfter(s.loops[m], Push(u, k, x).loops[m], m, l, [], Some((k, x)), false)
    {
      assert LoopCalm(Pop(s, l).loops[m], u.loops[m]);
      assert [] + s.loops[l].agenda[1..] == s.loops[l].agenda[1..];
    }
  }

  // ---------------------------------------------------------------------------
  // The tasks one by one

  /** The head of the agenda is about to be done, and that does not abort. */
  ghost predicate AtTask(s: Sys, l: nat, t: Task, n: int) {
    && l < |s.loops| && s.loops[l].agenda != [] && s.loops[l].agenda[0] == t && !s.aborted && Names(s, t)
    && (t.RunWrite? ==> WriteResult(s.conns[t.c].conn, n))
    && !DoTask(Pop(s, l), l, t, n).aborted
  }

  lemma EstablishEffect(s: Sys, l: nat, c: nat, n: int)
    requires AtTask(s, l, RunEstablish(c), n) && s.conns[c].conn == NEW_CONN
    ensures Effect(s, DoTask(Pop(s, l), l, RunEstablish(c), n), l, RunEstablish(c), n)
  {
    var p := Pop(s, l);
    var e := p.conns[c];
    var e1 := EntAfter(e, RunEstablish(c), n);
    WatchCalm(p, l, Add(e.fd, c, e.conn.events));
    var s1 := Watch(p, l, Add(e.fd, c, e.conn.events));
    SetWatchCalm(s1, l, c, e1, Update(e.fd, c, e1.conn.events));
    var s2 := Watch(SetEnt(s1, c, e1), l, Update(e.fd, c, e1.conn.events));
    assert DoEstablish(p, l, c) == Prepend(s2, l, [RunCallback]) && !s2.aborted by { hide Watch; }
    hide Watch, LoopsAfter, Calm;
    CalmOn(p, s1, s2);
    CalmFollows(s, l, s2, [RunCallback]);
  }

  lemma CloseEffect(s: Sys, l: nat, c: nat, t: Task, n: int)
    requires AtTask(s, l, t, n) && ((t == RunClose(c) && Live(s.conns[c].conn)) || (t == RunRead(c) && n == 0))
    ensures Effect(s, DoTask(Pop(s, l), l, t, n), l, t, n)
  {
    var p := Pop(s, l);
    var e := p.conns[c];
    var e1 := EntAfter(e, t, n);
    assert DoTask(p, l, t, n) == DoHandleClose(p, l, c);
    SetWatchCalm(p, l, c, e1, Update(e.fd, c, e1.conn.events));
    var s1 := Watch(SetEnt(p, c, e1), l, Update(e.fd, c, e1.conn.events));
    assert DoHandleClose(p, l, c) == Prepend(s1, l, [RunCallback, RunCloseCallback(c)]) && !s1.aborted by { hide Watch; }
    hide Watch, LoopsAfter, Calm;
    CalmFollows(s, l, s1, [RunCallback, RunCloseCallback(c)]);
  }

  lemma RemoveEffect(s: Sys, l: nat, c: nat, n: int)
    requires AtTask(s, l, RunRemove(c), n)
    ensures Effect(s, DoTask(Pop(s, l), l, RunRemove(c), n), l, RunRemove(c), n)
  {
    var p := Pop(s, l);
    var e := p.conns[c];
    var s1 := SetEnt(p.(listed := p.listed - {c}), c, e.(hist := e.hist + [Unlisted]));
    assert Calm(p, s1);
    hide LoopsAfter, Calm;
    CalmQueues(s, l, s1, e.io, RunDestroy(c));
  }

  lemma DestroyEffect(s: Sys, l: nat, c: nat, n: int)
    requires AtTask(s, l, RunDestroy(c), n) && s.conns[c].conn.state != Connected
    ensures Effect(s, DoTask(Pop(s, l), l, RunDestroy(c), n), l, RunDestroy(c), n)
  {
    var p := Pop(s, l);
    var e := p.conns[c];
    var e1 := e.(hist := e.hist + [Destroyed]);
    SetWatchCalm(p, l, c, e1, Remove(e.fd, c, e.conn.events));
    var s1 := Watch(SetEnt(p, c, e1), l, Remove(e.fd, c, e.conn.events));
    hide Watch, LoopsAfter, Calm;
    assert DoDestroy(p, l, c) == s1;
    CalmFollows(s, l, s1, []);
  }

  lemma SendEffect(s: Sys, l: nat, c: nat, msg: string, n: int)
    requires AtTask(s, l, RunSend(c, msg), n)
    ensures Effect(s, DoTask(Pop(s, l), l, RunSend(c, msg), n), l, RunSend(c, msg), n)
  {
    var p := Pop(s, l);
    var conn := AfterSend(p.conns[c].conn, msg);
    assert conn == Accepting(p.conns[c].conn, msg);
    ChangeCalm(p, l, c, conn);
    hide Change, LoopsAfter, Calm, AfterSend, Accepting;
    CalmFollows(s, l, Change(p, l, c, conn), []);
  }

  lemma ShutdownEffect(s: Sys, l: nat, c: nat, n: int)
    requires AtTask(s, l, RunShutdown(c), n)
    ensures Effect(s, DoTask(Pop(s, l), l, RunShutdown(c), n), l, RunShutdown(c), n)
  {
    var p := Pop(s, l);
    var conn := AfterShutdown(p.conns[c].conn);
    assert conn == ShuttingDown(p.conns[c].conn);
    ChangeCalm(p, l, c, conn);
    hide Change, LoopsAfter, Calm, AfterShutdown, ShuttingDown;
    CalmFollows(s, l, Change(p, l, c, conn), []);
  }

  lemma WriteEffect(s: Sys, l: nat, c: nat, n: int)
    requires AtTask(s, l, RunWrite(c), n)
    ensures Effect(s, DoTask(Pop(s, l), l, RunWrite(c), n), l, RunWrite(c), n)
  {
    var p := Pop(s, l);
    var conn := AfterWrite(p.conns[c].conn, n);
    assert conn == Writing(p.conns[c].conn, n);
    ChangeCalm(p, l, c, conn);
    hide Change, LoopsAfter, Calm, AfterWrite, Writing;
    CalmFollows(s, l, Change(p, l, c, conn), []);
    CalmQueues(s, l, Change(p, l, c, conn), l, RunWriteComplete(c));
  }

  /** The tasks that change no connection. */
  lemma PlainEffect(s: Sys, l: nat, t: Task, n: int)
    requires AtTask(s, l, t, n)
    requires t.RunCallback? || t.RunCloseCallback? || t.RunCloseLater? || t.RunWriteComplete? || t.RunAccept? || t.RunWakeup?
          || (t.RunRead? && n != 0) || (t.RunClose? && !Live(s.conns[t.c].conn))
    ensures Effect(s, DoTask(Pop(s, l), l, t, n), l, t, n)
  {
    var p := Pop(s, l);
    assert Calm(p, p);
    if HasConn(t) { assert s.conns[t.c := s.conns[t.c]] == s.conns; }
    CalmFollows(s, l, p, Follow(s, l, t, n));
    if Queued(s, l, t, n).Some? { CalmQueues(s, l, p, Queued(s, l, t, n).value.0, Queued(s, l, t, n).value.1); }
    if t.RunWakeup? {
      assert [] + s.loops[l].agenda[1..] == s.loops[l].agenda[1..];
    }
  }

  /** Every step of a loop, in every reachable state, has exactly the effect of the tables. */
  lemma ExecIs(k: nat, s: Sys, l: nat, n: int)
    requires k > 0 && Reachable(k, s) && Enabled(s, Exec(l, n))
    ensures Names(s, s.loops[l].agenda[0]) && Effect(s, Next(s, Exec(l, n)), l, s.loops[l].agenda[0], n)
  {
    ReachableGood(k, s);
    StepIs(s, l, n);
  }

  lemma StepIs(s: Sys, l: nat, n: int)
    requires Good(s) && Enabled(s, Exec(l, n))
    ensures Names(s, s.loops[l].agenda[0]) && Effect(s, Next(s, Exec(l, n)), l, s.loops[l].agenda[0], n)
  {
    var t := s.loops[l].agenda[0];
    var r, ts := ExecDoes(s, l, n);
    assert AgendaOk(s, l, t);
    if HasConn(t) { assert EntOk(s, t.c) && TokensOk(s, t.c, l); }
    assert AtTask(s, l, t, n);
    assert t.RunEstablish? || t.RunDestroy? ==> Waiting(s, l, t) > 0;
    hide Effect, DoTask, Next, AtTask, Inv;
    match t
    case RunEstablish(c) => EstablishEffect(s, l, c, n);
    case RunClose(c) => if Live(s.conns[c].conn) { CloseEffect(s, l, c, t, n); } else { PlainEffect(s, l, t, n); }
    case RunRead(c) => if n == 0 { CloseEffect(s, l, c, t, n); } else { PlainEffect(s, l, t, n); }
    case RunRemove(c) => RemoveEffect(s, l, c, n);
    case RunDestroy(c) => DestroyEffect(s, l, c, n);
    case RunSend(c, msg) => SendEffect(s, l, c, msg, n);
    case RunShutdown(c) => ShutdownEffect(s, l, c, n);
    case RunWrite(c) => WriteEffect(s, l, c, n);
    case _ => PlainEffect(s, l, t, n);
  }

  // ---------------------------------------------------------------------------
  // Reads, and the kernel's interest

  /** The kernel watches a registered connection's descriptor exactly while the connection wants
      something, with exactly that interest. */
  lemma KernelIsInterest(k: nat, s: Sys, c: nat)
    requires k > 0 && Reachable(k, s) && c < |s.conns| && 1 <= |s.conns[c].hist| <= 3
    ensures var e := s.conns[c];
            && e.io < |s.loops|
            && (e.fd in s.loops[e.io].poller.kernel <==> !e.conn.events.IsNone())
            && (e.fd in s.loops[e.io].poller.kernel ==> s.loops[e.io].poller.kernel[e.fd] == Reg(c, e.conn.events))
  {
    ReachableGood(k, s);
    KernelHolds(s, c);
  }

  lemma KernelHolds(s: Sys, c: nat)
    requires DataOk(s) && c < |s.conns| && 1 <= |s.conns[c].hist| <= 3
    ensures var e := s.conns[c];
            && e.io < |s.loops|
            && (e.fd in s.loops[e.io].poller.kernel <==> !e.conn.events.IsNone())
            && (e.fd in s.loops[e.io].poller.kernel ==> s.loops[e.io].poller.kernel[e.fd] == Reg(c, e.conn.events))
  {
    assert EntOk(s, c);
    var e := s.conns[c];
    assert PollerOk(s, e.io);
    assert EntryHolds(s.loops[e.io].poller, s.loops[e.io].table, e.fd);
  }

  /** A read that returns 0 closes the connection: it is disconnected, its descriptor leaves the
      kernel's set, and the user's callback and exactly one close callback come next. */
  lemma EofIsHandled(k: nat, s: Sys, l: nat, c: nat)
    requires k > 0 && Reachable(k, s) && Enabled(s, Exec(l, 0)) && s.loops[l].agenda[0] == RunRead(c)
    ensures var r := Next(s, Exec(l, 0));
            && c < |s.conns| && |r.loops| == |s.loops| && s.conns[c].io == l && Live(s.conns[c].conn)
            && r.conns == s.conns[c := s.conns[c].(conn := Closing(s.conns[c].conn), hist := s.conns[c].hist + [HandledClose])]
            && s.conns[c].fd !in r.loops[l].poller.kernel
            && r.loops[l].agenda == [RunCallback, RunCloseCallback(c)] + s.loops[l].agenda[1..]
            && Waiting(r, l, RunCloseCallback(c)) == 1 && Waiting(r, 0, RunRemove(c)) == 0
            && r.listed == s.listed && !r.aborted
  {
    ReachableGood(k, s);
    var t := RunRead(c);
    assert AgendaOk(s, l, t) && EntOk(s, c) && TokensOk(s, c, l) && Waiting(s, l, t) > 0;
    StepIs(s, l, 0);
    var r := Next(s, Exec(l, 0));
    StepKeeps(s, Exec(l, 0));
    hide Next, Waiting;
    assert LoopAfter(s.loops[l], r.loops[l], l, l, Follow(s, l, t, 0), None, false);
    assert CloseTokenOk(r, c);
    KernelHolds(r, c);
  }

  /** A read that delivers bytes runs the message callback next and changes nothing else; one
      that fails changes nothing at all. */
  lemma DataIsHandedOn(s: Sys, l: nat, c: nat, n: int)
    requires Enabled(s, Exec(l, n)) && s.loops[l].agenda[0] == RunRead(c) && Names(s, RunRead(c)) && n != 0
    ensures Next(s, Exec(l, n)) ==
            s.(loops := s.loops[l := s.loops[l].(agenda := (if n > 0 then [RunCallback] else []) + s.loops[l].agenda[1..])])
  {
    assert [] + s.loops[l].agenda[1..] == s.loops[l].agenda[1..];
    var lp := s.loops[l].(agenda := s.loops[l].agenda[1..]);
    assert s.loops[l := lp][l := lp.(agenda := [RunCallback] + lp.agenda)] == s.loops[l := lp.(agenda := [RunCallback] + lp.agenda)];
  }

  // ---------------------------------------------------------------------------
  // Polls, batches, accepts and calls

  /** The handlers of several events are those of each, in order. */
  lemma {:induction false} HandlersAppend(kernel: map<nat, Reg>, a: seq<Event>, b: seq<Event>)
    requires Reported(kernel, a) && Reported(kernel, b)
    ensures Reported(kernel, a + b)
    ensures Handlers(kernel, a + b) == Handlers(kernel, a) + Handlers(kernel, b)
    decreases |a|
  {
    ReportedAppend(kernel, a, b);
    if a == [] {
      assert a + b == b;
    } else {
      HandlersFirst(kernel, a + b);
      HandlersFirst(kernel, a);
      HeadOfAppend(a, b);
      HandlersAppend(kernel, a[1..], b);
      hide HandlersOf, Handlers;
      Regroup(HandlersOf(kernel, a[0]), Handlers(kernel, a[1..]), Handlers(kernel, b));
    }
  }

  lemma ReportedAppend(kernel: map<nat, Reg>, a: seq<Event>, b: seq<Event>)
    requires Reported(kernel, a) && Reported(kernel, b)
    ensures Reported(kernel, a + b)
  {
  }

  lemma HeadOfAppend(a: seq<Event>, b: seq<Event>)
    requires a != []
    ensures (a + b)[0] == a[0] && (a + b)[1..] == a[1..] + b
  {
  }

  lemma Regroup(x: seq<Task>, y: seq<Task>, z: seq<Task>)
    ensures x + (y + z) == (x + y) + z
  {
  }

  lemma HandlersFirst(kernel: map<nat, Reg>, es: seq<Event>)
    requires Reported(kernel, es) && es != []
    ensures Reported(kernel, es[1..]) && Handlers(kernel, es) == HandlersOf(kernel, es[0]) + Handlers(kernel, es[1..])
  {
  }

  /** Every reported descriptor is watched. */
  predicate Reported(kernel: map<nat, Reg>, es: seq<Event>) {
    forall i :: 0 <= i < |es| && es[i].ConnEvent? ==> es[i].fd in kernel
  }

  /** One reported event runs the handlers it asks for, and no others: accept, the wakeup, or the
      reading and then the writing of the connection whose channel is registered. */
  lemma HandlersOfOne(kernel: map<nat, Reg>, e: Event)
    requires e.ConnEvent? ==> e.fd in kernel
    ensures Handlers(kernel, [e]) ==
            if e == AcceptEvent then [RunAccept] else if e == WakeEvent then [RunWakeup]
            else (if e.read then [RunRead(kernel[e.fd].chan)] else []) + (if e.write then [RunWrite(kernel[e.fd].chan)] else [])
  {
    assert [e][1..] == [];
    assert Handlers(kernel, [e]) == HandlersOf(kernel, e) + [] == HandlersOf(kernel, e);
  }

  /** A poll dispatches what it reports; the queue becomes the next batch, in order. */
  lemma PhasesAre(k: nat, s: Sys, l: nat)
    requires k > 0 && Reachable(k, s)
    ensures forall ready :: Enabled(s, PollReturns(l, ready)) ==>
              Next(s, PollReturns(l, ready)) ==
              s.(loops := s.loops[l := s.loops[l].(phase := Dispatch, agenda := Handlers(s.loops[l].poller.kernel, ready))])
    ensures Enabled(s, Swap(l)) ==>
              Next(s, Swap(l)) == s.(loops := s.loops[l := s.loops[l].(phase := Tasks, agenda := s.loops[l].queue, queue := [])])
  {
    ReachableGood(k, s);
    forall ready | Enabled(s, PollReturns(l, ready))
      ensures ActiveOk(s.loops[l].poller, ready)
    {
      PollKeeps(s, l, ready);
    }
  }

  /** Only the queue of loop `m` grows, by `x`, and a wakeup write is owed for it. */
  ghost predicate QueuesOnly(s: Sys, r: Sys, m: nat, x: Task) {
    m < |s.loops| && r == s.(loops := s.loops[m := s.loops[m].(queue := s.loops[m].queue + [x], owed := s.loops[m].owed + 1)])
  }

  /** An accepted connection is listed, and established next on the acceptor's own loop or queued
      for that on another. */
  lemma AcceptIs(s: Sys, fd: nat, io: nat)
    requires Enabled(s, Accepts(0, fd, io))
    ensures var r, c := Next(s, Accepts(0, fd, io)), |s.conns|;
            var s1 := s.(conns := s.conns + [Ent(io, fd, true, NEW_CONN, [])], listed := s.listed + {c});
            if io == 0 then r == s1.(loops := s.loops[0 := s.loops[0].(agenda := [RunEstablish(c)] + s.loops[0].agenda)])
            else QueuesOnly(s1, r, io, RunEstablish(c))
  {
  }

  /** A user's task is queued; a wakeup write that is owed adds one to the eventfd's counter; and
      releasing a destroyed connection frees its descriptor. */
  lemma OthersAre(s: Sys, ch: Choice)
    requires Enabled(s, ch)
    ensures ch.UserTask? ==> QueuesOnly(s, Next(s, ch), ch.k, RunCallback)
    ensures ch.Wakeup? ==> ch.k < |s.loops| && s.loops[ch.k].owed > 0
    ensures ch.Wakeup? ==>
              var lp := s.loops[ch.k];
              Next(s, ch) == s.(loops := s.loops[ch.k := lp.(counter := lp.counter + 1, owed := lp.owed - 1)])
    ensures ch.Release? ==> ch.c < |s.conns| && Next(s, ch) == s.(conns := s.conns[ch.c := s.conns[ch.c].(open := false)])
  {
  }

  /** send and shutdown act at once on the connection's own loop. */
  predicate ActsAtOnce(s: Sys, from: Option<nat>, call: Call)
    requires call.c < |s.conns|
  {
    (call.CallSend? || call.CallShutdown?) && from == Some(s.conns[call.c].io)
  }

  /** The task that stands for a call made from elsewhere; closing is always queued, and
      closeInNextLoop takes one step more. */
  function CallTask(call: Call): Task {
    match call
    case CallSend(c, msg) => RunSend(c, msg)
    case CallShutdown(c) => RunShutdown(c)
    case CallClose(c) => RunClose(c)
    case CallCloseInNextLoop(c) => RunCloseLater(c)
  }

  lemma CallIs(k: nat, s: Sys, from: Option<nat>, call: Call)
    requires k > 0 && Reachable(k, s) && call.c < |s.conns|
    ensures var io := s.conns[call.c].io;
            && io < |s.loops|
            && var r := DoCall(s, from, call);
               if ActsAtOnce(s, from, call)
               then && Calm(s, r) && r.listed == s.listed && !r.aborted == !s.aborted
                    && r.conns == s.conns[call.c := EntAfter(s.conns[call.c], CallTask(call), 0)]
               else QueuesOnly(s, r, io, CallTask(call))
  {
    ReachableGood(k, s);
    assert EntOk(s, call.c);
    CallEffect(s, from, call);
  }

  lemma CallEffect(s: Sys, from: Option<nat>, call: Call)
    requires Inv(s) && call.c < |s.conns| && s.conns[call.c].io < |s.loops|
    ensures var io := s.conns[call.c].io;
            var r := DoCall(s, from, call);
            if ActsAtOnce(s, from, call)
            then && Calm(s, r) && r.listed == s.listed && !r.aborted == !s.aborted
                 && r.conns == s.conns[call.c := EntAfter(s.conns[call.c], CallTask(call), 0)]
            else QueuesOnly(s, r, io, CallTask(call))
  {
    var io, c := s.conns[call.c].io, call.c;
    if ActsAtOnce(s, from, call) {
      CallKeeps(s, from, call);
      assert !DoCall(s, from, call).aborted && !s.aborted;
      match call
      case CallSend(_, msg) =>
        assert AfterSend(s.conns[c].conn, msg) == Accepting(s.conns[c].conn, msg);
        ChangeCalm(s, io, c, AfterSend(s.conns[c].conn, msg));
        hide Change, AfterSend, Inv, Calm;
      case CallShutdown(_) =>
        assert AfterShutdown(s.conns[c].conn) == ShuttingDown(s.conns[c].conn);
        ChangeCalm(s, io, c, AfterShutdown(s.conns[c].conn));
        hide Change, AfterShutdown, Inv, Calm;
    }
  }
}
