/** Safety of the connection lifecycle over every run: no assert fails, and each connection
    passes its milestones once each and in order.
 */
module LifecycleSafety {
  import opened Options
  import opened Pollers
  import opened Connections
  import opened Lifecycle

  const MILESTONES: seq<Milestone> := [Established, HandledClose, Unlisted, Destroyed]

  // ---------------------------------------------------------------------------
  // The invariant: connections, pollers and descriptors

  ghost predicate EntOk(s: Sys, c: nat)
    requires c < |s.conns|
  {
    var e := s.conns[c];
    var k := |e.hist|;
    && e.io < |s.loops| && ConnInv(e.conn)
    && k <= 4 && e.hist == MILESTONES[..k]
    && (k == 0 <==> e.conn.state == Connecting)
    && (k == 1 <==> Live(e.conn))
    && (c in s.listed <==> k <= 2)
    && (k < 4 ==> e.open)
    && (1 <= k <= 3 ==> e.fd in s.loops[e.io].table && s.loops[e.io].table[e.fd] == Reg(c, e.conn.events))
  }

  /** A registered descriptor belongs to a connection of this loop that is not yet destroyed. */
  ghost predicate TableEntOk(s: Sys, l: nat, fd: nat)
    requires l < |s.loops|
  {
    fd in s.loops[l].table ==>
      var c := s.loops[l].table[fd].chan;
      c < |s.conns| && s.conns[c].io == l && s.conns[c].fd == fd && 1 <= |s.conns[c].hist| <= 3
  }

  ghost predicate PollerOk(s: Sys, l: nat)
    requires l < |s.loops|
  {
    EPollHolds(s.loops[l].poller, s.loops[l].table) && forall fd :: TableEntOk(s, l, fd)
  }

  ghost predicate FdsOk(s: Sys) {
    forall c, d :: 0 <= c < d < |s.conns| && s.conns[c].open && s.conns[d].open ==> s.conns[c].fd != s.conns[d].fd
  }

  ghost predicate DataOk(s: Sys) {
    && !s.aborted && 0 < |s.loops| && FdsOk(s)
    && (forall c :: 0 <= c < |s.conns| ==> EntOk(s, c))
    && (forall l :: 0 <= l < |s.loops| ==> PollerOk(s, l))
  }

  // The invariant: where each kind of step may wait

  ghost predicate Placed(s: Sys, l: nat, t: Task) {
    match t
    case RunCallback => true
    case RunWakeup => true
    case RunAccept => l == 0
    case RunRemove(c) => l == 0 && c < |s.conns|
    case RunUnregister(_) => false
    case _ => t.c < |s.conns| && s.conns[t.c].io == l
  }

  predicate Queueable(t: Task) {
    !t.RunRead? && !t.RunWrite? && !t.RunAccept? && !t.RunWakeup? && !t.RunCloseCallback?
  }

  /** Reads, of the eventfd too, wait only while dispatching, closeInLoop only while tasks run. */
  predicate InPhase(p: Phase, t: Task) {
    (t.RunRead? || t.RunWakeup? ==> p == Dispatch) && (t.RunClose? ==> p == Tasks)
  }

  ghost predicate AgendaOk(s: Sys, l: nat, t: Task)
    requires l < |s.loops|
  {
    t in s.loops[l].agenda ==> Placed(s, l, t) && InPhase(s.loops[l].phase, t)
  }

  ghost predicate QueueOk(s: Sys, l: nat, t: Task)
    requires l < |s.loops|
  {
    t in s.loops[l].queue ==> Placed(s, l, t) && Queueable(t)
  }

  ghost predicate TasksOk(s: Sys) {
    && (forall l, t :: 0 <= l < |s.loops| ==> AgendaOk(s, l, t))
    && (forall l, t :: 0 <= l < |s.loops| ==> QueueOk(s, l, t))
  }

  // The invariant: how often each hand-off of a connection is waiting

  ghost function Waiting(s: Sys, l: nat, t: Task): nat
    requires l < |s.loops|
  {
    multiset(s.loops[l].agenda)[t] + multiset(s.loops[l].queue)[t]
  }

  ghost predicate TokensOk(s: Sys, c: nat, l: nat)
    requires c < |s.conns| && l < |s.loops|
  {
    var e := s.conns[c];
    var k := |e.hist|;
    && Waiting(s, l, RunEstablish(c)) == (if k == 0 && l == e.io then 1 else 0)
    && Waiting(s, l, RunDestroy(c)) == (if k == 3 && l == e.io then 1 else 0)
    && Waiting(s, l, RunRead(c)) <= (if k == 1 && l == e.io then 1 else 0)
    && (l != e.io ==> Waiting(s, l, RunCloseCallback(c)) == 0)
    && (l != 0 ==> Waiting(s, l, RunRemove(c)) == 0)
  }

  /** Between handleClose and removeConnectionInLoop exactly one hand-off is under way. */
  ghost predicate CloseTokenOk(s: Sys, c: nat)
    requires c < |s.conns|
  {
    s.conns[c].io < |s.loops| ==>
      Waiting(s, s.conns[c].io, RunCloseCallback(c)) + Waiting(s, 0, RunRemove(c)) == (if |s.conns[c].hist| == 2 then 1 else 0)
  }

  ghost predicate AllTokensOk(s: Sys) {
    && (forall c, l :: 0 <= c < |s.conns| && 0 <= l < |s.loops| ==> TokensOk(s, c, l))
    && (forall c :: 0 <= c < |s.conns| ==> CloseTokenOk(s, c))
  }

  ghost predicate Inv(s: Sys) {
    DataOk(s) && TasksOk(s) && AllTokensOk(s)
  }

  // ---------------------------------------------------------------------------
  // What the elementary changes do

  lemma PopEffect(s: Sys, l: nat)
    requires l < |s.loops| && s.loops[l].agenda != []
    ensures forall m, t :: 0 <= m < |s.loops| ==>
              Waiting(Pop(s, l), m, t) == Waiting(s, m, t) - (if m == l && t == s.loops[l].agenda[0] then 1 else 0)
  {
    var a := s.loops[l].agenda;
    assert a == [a[0]] + a[1..];
    forall m, t | 0 <= m < |s.loops|
      ensures Waiting(Pop(s, l), m, t) == Waiting(s, m, t) - (if m == l && t == a[0] then 1 else 0)
    {
      if m == l { assert multiset(a) == multiset{a[0]} + multiset(a[1..]); }
    }
  }

  lemma PushEffect(s: Sys, k: nat, x: Task)
    requires k < |s.loops|
    ensures forall m, t :: 0 <= m < |s.loops| ==>
              Waiting(Push(s, k, x), m, t) == Waiting(s, m, t) + (if m == k && t == x then 1 else 0)
  {
  }

  lemma PrependEffect(s: Sys, l: nat, ts: seq<Task>)
    requires l < |s.loops|
    ensures forall m, t :: 0 <= m < |s.loops| ==>
              Waiting(Prepend(s, l, ts), m, t) == Waiting(s, m, t) + (if m == l then multiset(ts)[t] else 0)
  {
  }

  /** Same connections, pollers and list. */
  ghost predicate SameData(s: Sys, r: Sys) {
    && r.conns == s.conns && r.listed == s.listed && r.aborted == s.aborted && |r.loops| == |s.loops|
    && forall l :: 0 <= l < |s.loops| ==> r.loops[l].poller == s.loops[l].poller && r.loops[l].table == s.loops[l].table
  }

  lemma SameDataKeeps(s: Sys, r: Sys)
    requires DataOk(s) && SameData(s, r)
    ensures DataOk(r)
  {
    forall c | 0 <= c < |r.conns|
      ensures EntOk(r, c)
    {
      assert EntOk(s, c);
    }
    forall l | 0 <= l < |r.loops|
      ensures PollerOk(r, l)
    {
      assert PollerOk(s, l);
      forall fd
        ensures TableEntOk(r, l, fd)
      {
        assert TableEntOk(s, l, fd);
      }
    }
  }

  lemma PopTasks(s: Sys, l: nat)
    requires TasksOk(s) && l < |s.loops| && s.loops[l].agenda != []
    ensures TasksOk(Pop(s, l))
    ensures Placed(s, l, s.loops[l].agenda[0]) && InPhase(s.loops[l].phase, s.loops[l].agenda[0])
  {
    var r := Pop(s, l);
    assert AgendaOk(s, l, s.loops[l].agenda[0]);
    forall m, t | 0 <= m < |r.loops|
      ensures AgendaOk(r, m, t) && QueueOk(r, m, t)
    {
      assert AgendaOk(s, m, t) && QueueOk(s, m, t);
    }
  }

  lemma PushTasks(s: Sys, k: nat, x: Task)
    requires TasksOk(s) && k < |s.loops| && Placed(s, k, x) && Queueable(x)
    ensures TasksOk(Push(s, k, x))
  {
    var r := Push(s, k, x);
    forall m, t | 0 <= m < |r.loops|
      ensures AgendaOk(r, m, t) && QueueOk(r, m, t)
    {
      assert AgendaOk(s, m, t) && QueueOk(s, m, t);
    }
  }

  lemma PrependTasks(s: Sys, l: nat, ts: seq<Task>)
    requires TasksOk(s) && l < |s.loops|
    requires forall t :: t in ts ==> Placed(s, l, t) && InPhase(s.loops[l].phase, t)
    ensures TasksOk(Prepend(s, l, ts))
  {
    var r := Prepend(s, l, ts);
    forall m, t | 0 <= m < |r.loops|
      ensures AgendaOk(r, m, t) && QueueOk(r, m, t)
    {
      assert AgendaOk(s, m, t) && QueueOk(s, m, t);
    }
  }

  /** Same queues and agendas, and no connection moves to another loop. */
  ghost predicate SameWork(s: Sys, r: Sys) {
    && |r.loops| == |s.loops| && |s.conns| <= |r.conns|
    && (forall c :: 0 <= c < |s.conns| ==> r.conns[c].io == s.conns[c].io)
    && forall l :: 0 <= l < |s.loops| ==>
         r.loops[l].agenda == s.loops[l].agenda && r.loops[l].queue == s.loops[l].queue && r.loops[l].phase == s.loops[l].phase
  }

  lemma SameWorkKeeps(s: Sys, r: Sys)
    requires TasksOk(s) && SameWork(s, r)
    ensures TasksOk(r)
    ensures forall m, t :: 0 <= m < |s.loops| ==> Waiting(r, m, t) == Waiting(s, m, t)
  {
    forall m, t | 0 <= m < |r.loops|
      ensures AgendaOk(r, m, t) && QueueOk(r, m, t)
    {
      assert AgendaOk(s, m, t) && QueueOk(s, m, t);
    }
  }

  // ---------------------------------------------------------------------------
  // Poller calls

  /** `r` is `s` with connection `c` replaced and loop `l`'s registration of its descriptor
      set to `reg` (None: not registered). */
  ghost predicate Rewired(s: Sys, r: Sys, l: nat, c: nat, e: Ent, reg: Option<Reg>)
    requires l < |s.loops| && c < |s.conns|
  {
    && r.conns == s.conns[c := e] && r.listed == s.listed && !r.aborted && |r.loops| == |s.loops|
    && (forall m :: 0 <= m < |s.loops| && m != l ==> r.loops[m] == s.loops[m])
    && r.loops[l] == s.loops[l].(poller := r.loops[l].poller, table := r.loops[l].table)
    && EPollHolds(r.loops[l].poller, r.loops[l].table)
    && (forall fd :: fd != e.fd ==> (fd in r.loops[l].table <==> fd in s.loops[l].table))
    && (forall fd :: fd != e.fd && fd in s.loops[l].table ==> r.loops[l].table[fd] == s.loops[l].table[fd])
    && (e.fd in r.loops[l].table <==> reg.Some?)
    && (reg.Some? ==> r.loops[l].table[e.fd] == reg.value)
  }

  lemma RewiredKeeps(s: Sys, r: Sys, l: nat, c: nat, e: Ent, reg: Option<Reg>)
    requires DataOk(s) && l < |s.loops| && c < |s.conns| && s.conns[c].io == l
    requires Rewired(s, r, l, c, e, reg)
    requires e.io == l && e.fd == s.conns[c].fd && e.open == s.conns[c].open && s.conns[c].open
    requires if 1 <= |e.hist| <= 3 then reg == Some(Reg(c, e.conn.events)) else reg == None
    requires ConnInv(e.conn) && |e.hist| <= 4 && e.hist == MILESTONES[..|e.hist|]
    requires (|e.hist| == 0 <==> e.conn.state == Connecting) && (|e.hist| == 1 <==> Live(e.conn))
    requires |e.hist| <= 2 <==> |s.conns[c].hist| <= 2
    ensures DataOk(r)
  {
    assert EntOk(s, c) && PollerOk(s, l);
    forall d | 0 <= d < |r.conns|
      ensures EntOk(r, d)
    {
      assert EntOk(s, d);
    }
    forall m | 0 <= m < |r.loops|
      ensures PollerOk(r, m)
    {
      assert PollerOk(s, m);
      forall fd
        ensures TableEntOk(r, m, fd)
      {
        assert TableEntOk(s, m, fd);
      }
    }
  }

  /** A poller update for a registered connection passes its asserts. */
  lemma UpdateOk(s: Sys, l: nat, c: nat, e: Ent)
    requires DataOk(s) && l < |s.loops| && c < |s.conns| && s.conns[c].io == l
    requires 1 <= |s.conns[c].hist| <= 3 && e.fd == s.conns[c].fd
    ensures var r := Watch(SetEnt(s, c, e), l, Update(e.fd, c, e.conn.events));
            Rewired(s, r, l, c, e, Some(Reg(c, e.conn.events)))
  {
    assert EntOk(s, c) && PollerOk(s, l);
    EPollStepRefines(s.loops[l].poller, s.loops[l].table, Update(e.fd, c, e.conn.events));
  }

  /** A change that leaves the interest alone concerns no poller. */
  lemma QuietChangeOk(s: Sys, c: nat, conn: Conn)
    requires DataOk(s) && c < |s.conns|
    requires ConnInv(conn) && conn.events == s.conns[c].conn.events
    requires (conn.state == Connecting <==> s.conns[c].conn.state == Connecting) && (Live(conn) <==> Live(s.conns[c].conn))
    ensures DataOk(SetEnt(s, c, s.conns[c].(conn := conn)))
  {
    var r := SetEnt(s, c, s.conns[c].(conn := conn));
    forall d | 0 <= d < |r.conns|
      ensures EntOk(r, d)
    {
      assert EntOk(s, d);
    }
    forall m | 0 <= m < |r.loops|
      ensures PollerOk(r, m)
    {
      assert PollerOk(s, m);
      forall fd
        ensures TableEntOk(r, m, fd)
      {
        assert TableEntOk(s, m, fd);
      }
    }
  }

  /** Sending, shutting down or writing on a connection keeps the data part of the invariant. */
  lemma ChangeOk(s: Sys, l: nat, c: nat, step: ConnStep)
    requires DataOk(s) && l < |s.loops| && c < |s.conns| && s.conns[c].io == l
    requires step.Send? || step.Shutdown? || step.Write?
    requires ConnEnabled(s.conns[c].conn, step)
    ensures var r := Change(s, l, c, ConnNext(s.conns[c].conn, step));
            && DataOk(r) && SameWork(s, r) && |r.conns| == |s.conns|
            && (forall d :: 0 <= d < |s.conns| ==> r.conns[d].hist == s.conns[d].hist)
  {
    assert EntOk(s, c);
    var e := s.conns[c];
    var conn := ConnNext(e.conn, step);
    ConnStepKeeps(e.conn, step);
    if conn.events == e.conn.events {
      QuietChangeOk(s, c, conn);
    } else {
      UpdateOk(s, l, c, e.(conn := conn));
      RewiredKeeps(s, Change(s, l, c, conn), l, c, e.(conn := conn), Some(Reg(c, conn.events)));
    }
  }

  // ---------------------------------------------------------------------------
  // Steps that move no connection along

  predicate HandOff(t: Task) {
    t.RunEstablish? || t.RunDestroy? || t.RunCloseCallback? || t.RunRemove?
  }

  /** Hand-off counts and milestones are the same, and no read was added. */
  lemma TokensKept(s: Sys, r: Sys)
    requires AllTokensOk(s) && |r.loops| == |s.loops| && |r.conns| == |s.conns|
    requires forall c :: 0 <= c < |s.conns| ==> r.conns[c].hist == s.conns[c].hist && r.conns[c].io == s.conns[c].io
    requires forall m, t :: 0 <= m < |s.loops| && HandOff(t) ==> Waiting(r, m, t) == Waiting(s, m, t)
    requires forall m, t: Task :: 0 <= m < |s.loops| && t.RunRead? ==> Waiting(r, m, t) <= Waiting(s, m, t)
    ensures AllTokensOk(r)
  {
    forall c, l | 0 <= c < |r.conns| && 0 <= l < |r.loops|
      ensures TokensOk(r, c, l)
    {
      assert TokensOk(s, c, l);
      assert Waiting(r, l, RunRead(c)) <= Waiting(s, l, RunRead(c));
    }
    forall c | 0 <= c < |r.conns|
      ensures CloseTokenOk(r, c)
    {
      assert CloseTokenOk(s, c);
    }
  }

  lemma PopKeeps(s: Sys, l: nat)
    requires Inv(s) && l < |s.loops| && s.loops[l].agenda != [] && !HandOff(s.loops[l].agenda[0])
    ensures Inv(Pop(s, l))
  {
    SameDataKeeps(s, Pop(s, l));
    PopTasks(s, l);
    PopEffect(s, l);
    TokensKept(s, Pop(s, l));
  }

  lemma PushKeeps(s: Sys, k: nat, t: Task)
    requires Inv(s) && k < |s.loops| && Placed(s, k, t) && Queueable(t) && !HandOff(t)
    ensures Inv(Push(s, k, t))
  {
    SameDataKeeps(s, Push(s, k, t));
    PushTasks(s, k, t);
    PushEffect(s, k, t);
    TokensKept(s, Push(s, k, t));
  }

  lemma CounterKeeps(s: Sys, k: nat, counter: nat, owed: nat)
    requires Inv(s) && k < |s.loops|
    ensures Inv(SetCounter(s, k, counter, owed))
  {
    var r := SetCounter(s, k, counter, owed);
    SameDataKeeps(s, r);
    SameWorkKeeps(s, r);
    TokensKept(s, r);
  }

  lemma CallbackKeeps(s: Sys, l: nat)
    requires Inv(s) && l < |s.loops|
    ensures Inv(Prepend(s, l, [RunCallback]))
  {
    SameDataKeeps(s, Prepend(s, l, [RunCallback]));
    PrependTasks(s, l, [RunCallback]);
    PrependEffect(s, l, [RunCallback]);
    TokensKept(s, Prepend(s, l, [RunCallback]));
  }

  lemma ChangeKeeps(s: Sys, l: nat, c: nat, step: ConnStep)
    requires Inv(s) && l < |s.loops| && c < |s.conns| && s.conns[c].io == l
    requires step.Send? || step.Shutdown? || step.Write?
    requires ConnEnabled(s.conns[c].conn, step)
    ensures Inv(Change(s, l, c, ConnNext(s.conns[c].conn, step)))
    ensures var r := Change(s, l, c, ConnNext(s.conns[c].conn, step));
            |r.conns| == |s.conns| && r.conns[c].io == l && |r.loops| == |s.loops|
  {
    var r := Change(s, l, c, ConnNext(s.conns[c].conn, step));
    ChangeOk(s, l, c, step);
    SameWorkKeeps(s, r);
    TokensKept(s, r);
  }

  lemma CallKeeps(s: Sys, from: Option<nat>, call: Call)
    requires Inv(s) && call.c < |s.conns| && s.conns[call.c].io < |s.loops|
    ensures Inv(DoCall(s, from, call))
  {
    var io := s.conns[call.c].io;
    match call
    case CallSend(c, msg) =>
      if from == Some(io) { ChangeKeeps(s, io, c, Send(msg)); } else { PushKeeps(s, io, RunSend(c, msg)); }
    case CallShutdown(c) =>
      if from == Some(io) { ChangeKeeps(s, io, c, Shutdown); } else { PushKeeps(s, io, RunShutdown(c)); }
    case CallClose(c) => PushKeeps(s, io, RunClose(c));
    case CallCloseInNextLoop(c) => PushKeeps(s, io, RunCloseLater(c));
  }

  // ---------------------------------------------------------------------------
  // Steps that move a connection along

  /** Only the milestones and hand-offs of connection `c` change. */
  ghost predicate MovesOn(s: Sys, r: Sys, c: nat)
    requires c < |s.conns|
  {
    && |r.loops| == |s.loops| && |r.conns| == |s.conns|
    && (forall d :: 0 <= d < |s.conns| ==> r.conns[d].io == s.conns[d].io)
    && (forall d :: 0 <= d < |s.conns| && d != c ==> r.conns[d].hist == s.conns[d].hist)
    && (forall m, t: Task :: 0 <= m < |s.loops| && (HandOff(t) || t.RunRead?) && t.c != c ==> Waiting(r, m, t) == Waiting(s, m, t))
  }

  lemma MovedTokens(s: Sys, r: Sys, c: nat)
    requires AllTokensOk(s) && c < |s.conns| && MovesOn(s, r, c)
    requires forall l :: 0 <= l < |r.loops| ==> TokensOk(r, c, l)
    requires CloseTokenOk(r, c)
    ensures AllTokensOk(r)
  {
    forall d, l | 0 <= d < |r.conns| && 0 <= l < |r.loops|
      ensures TokensOk(r, d, l)
    {
      assert TokensOk(s, d, l);
    }
    forall d | 0 <= d < |r.conns|
      ensures CloseTokenOk(r, d)
    {
      assert CloseTokenOk(s, d);
    }
  }

  /** The loop takes its next step off the agenda, puts `ts` there, and `xs` is queued on loop `k`. */
  ghost predicate Worked(s: Sys, r: Sys, l: nat, ts: seq<Task>, k: nat, xs: seq<Task>)
    requires l < |s.loops| && s.loops[l].agenda != []
  {
    && |r.loops| == |s.loops|
    && forall m :: 0 <= m < |s.loops| ==>
         && r.loops[m].agenda == (if m == l then ts + s.loops[l].agenda[1..] else s.loops[m].agenda)
         && r.loops[m].queue == (if m == k then s.loops[m].queue + xs else s.loops[m].queue)
  }

  lemma WorkedAt(s: Sys, r: Sys, l: nat, ts: seq<Task>, k: nat, xs: seq<Task>, m: nat, t: Task)
    requires l < |s.loops| && s.loops[l].agenda != [] && Worked(s, r, l, ts, k, xs) && m < |s.loops|
    ensures Waiting(r, m, t) == Waiting(s, m, t)
                                - (if m == l && t == s.loops[l].agenda[0] then 1 else 0)
                                + (if m == l then multiset(ts)[t] else 0)
                                + (if m == k then multiset(xs)[t] else 0)
  {
    var a := s.loops[l].agenda;
    assert a == [a[0]] + a[1..];
    if m == l { assert multiset(a) == multiset{a[0]} + multiset(a[1..]); }
  }

  /** The step at hand and the ones it adds concern only connection `c`. */
  ghost predicate About(c: nat, ts: seq<Task>) {
    forall t :: t in ts && (HandOff(t) || t.RunRead?) ==> t.c == c
  }

  /** What such a step looks like from the outside. */
  ghost predicate StepsOn(s: Sys, r: Sys, l: nat, ts: seq<Task>, k: nat, xs: seq<Task>, c: nat)
    requires l < |s.loops| && s.loops[l].agenda != [] && c < |s.conns|
  {
    && Worked(s, r, l, ts, k, xs) && |r.conns| == |s.conns|
    && (forall d :: 0 <= d < |s.conns| ==> r.conns[d].io == s.conns[d].io)
    && (forall d :: 0 <= d < |s.conns| && d != c ==> r.conns[d].hist == s.conns[d].hist)
    && About(c, [s.loops[l].agenda[0]]) && About(c, ts) && About(c, xs)
  }

  lemma StepMovesOn(s: Sys, r: Sys, l: nat, ts: seq<Task>, k: nat, xs: seq<Task>, c: nat)
    requires l < |s.loops| && s.loops[l].agenda != [] && c < |s.conns| && StepsOn(s, r, l, ts, k, xs, c)
    ensures MovesOn(s, r, c)
  {
    forall m, t: Task | 0 <= m < |s.loops| && (HandOff(t) || t.RunRead?) && t.c != c
      ensures Waiting(r, m, t) == Waiting(s, m, t)
    {
      WorkedAt(s, r, l, ts, k, xs, m, t);
      assert s.loops[l].agenda[0] in [s.loops[l].agenda[0]];
      assert t !in ts && t !in xs;
    }
  }

  /** Tasks that are neither taken nor added keep their count. */
  lemma NotWorked(s: Sys, r: Sys, l: nat, ts: seq<Task>, k: nat, xs: seq<Task>, m: nat, t: Task)
    requires l < |s.loops| && s.loops[l].agenda != [] && Worked(s, r, l, ts, k, xs) && m < |s.loops|
    requires m == l ==> t != s.loops[l].agenda[0] && t !in ts
    requires m == k ==> t !in xs
    ensures Waiting(r, m, t) == Waiting(s, m, t)
  {
    WorkedAt(s, r, l, ts, k, xs, m, t);
  }

  lemma StepTokens(s: Sys, r: Sys, l: nat, ts: seq<Task>, k: nat, xs: seq<Task>, c: nat)
    requires AllTokensOk(s) && l < |s.loops| && s.loops[l].agenda != [] && c < |s.conns|
    requires StepsOn(s, r, l, ts, k, xs, c)
    requires forall m :: 0 <= m < |r.loops| ==> TokensOk(r, c, m)
    requires CloseTokenOk(r, c)
    ensures AllTokensOk(r)
  {
    StepMovesOn(s, r, l, ts, k, xs, c);
    MovedTokens(s, r, c);
  }

  /** connectEstablished registers a descriptor that is not registered yet. */
  lemma EstablishWired(s: Sys, l: nat, c: nat) returns (r: Sys)
    requires DataOk(s) && l < |s.loops| && c < |s.conns| && s.conns[c].io == l && |s.conns[c].hist| == 0
    ensures DataOk(r) && SameWork(s, r) && DoEstablish(s, l, c) == Prepend(r, l, [RunCallback])
    ensures r.conns == s.conns[c := r.conns[c]] && |r.conns[c].hist| == 1
  {
    var e := s.conns[c];
    assert EntOk(s, c) && PollerOk(s, l);
    assert e.fd !in s.loops[l].table by {
      assert TableEntOk(s, l, e.fd);
      assert e.fd in s.loops[l].table ==> EntOk(s, s.loops[l].table[e.fd].chan);
    }
    var conn := AfterEstablish(e.conn);
    var e1 := e.(conn := conn, hist := e.hist + [Established]);
    EPollStepRefines(s.loops[l].poller, s.loops[l].table, Add(e.fd, c, e.conn.events));
    var s1 := Watch(s, l, Add(e.fd, c, e.conn.events));
    EPollStepRefines(s1.loops[l].poller, s1.loops[l].table, Update(e.fd, c, conn.events));
    r := Watch(SetEnt(s1, c, e1), l, Update(e.fd, c, conn.events));
    ConnStepKeeps(e.conn, Establish);
    RewiredKeeps(s, r, l, c, e1, Some(Reg(c, conn.events)));
  }

  lemma EstablishKeeps(s: Sys, l: nat, c: nat)
    requires Inv(s) && l < |s.loops| && s.loops[l].agenda != [] && s.loops[l].agenda[0] == RunEstablish(c)
    ensures Names(s, RunEstablish(c)) && Inv(DoEstablish(Pop(s, l), l, c))
  {
    hide ConnInv, EPollHolds, EPollStep;
    PopTasks(s, l);
    var s1 := Pop(s, l);
    SameDataKeeps(s, s1);
    assert EntOk(s, c) && TokensOk(s, c, l) && Waiting(s, l, RunEstablish(c)) > 0;
    var s2 := EstablishWired(s1, l, c);
    var r := Prepend(s2, l, [RunCallback]);
    assert TasksOk(r) by {
      SameWorkKeeps(s1, s2);
      PrependTasks(s2, l, [RunCallback]);
    }
    SameDataKeeps(s2, r);
    EstablishTokens(s, r, l, c);
  }

  lemma EstablishTokens(s: Sys, r: Sys, l: nat, c: nat)
    requires AllTokensOk(s)
    requires l < |s.loops| && s.loops[l].agenda != [] && s.loops[l].agenda[0] == RunEstablish(c)
    requires c < |s.conns| && s.conns[c].io == l && |s.conns[c].hist| == 0
    requires StepsOn(s, r, l, [RunCallback], l, [], c) && |r.conns[c].hist| == 1
    ensures AllTokensOk(r)
  {
    forall m | 0 <= m < |r.loops|
      ensures TokensOk(r, c, m)
    {
      assert TokensOk(s, c, m);
      EstablishCounts(s, r, l, c, m);
    }
    assert CloseTokenOk(s, c);
    EstablishCloseCount(s, r, l, c);
    StepTokens(s, r, l, [RunCallback], l, [], c);
  }

  lemma EstablishCounts(s: Sys, r: Sys, l: nat, c: nat, m: nat)
    requires l < |s.loops| && s.loops[l].agenda != [] && s.loops[l].agenda[0] == RunEstablish(c)
    requires c < |s.conns| && s.conns[c].io == l && |s.conns[c].hist| == 0
    requires StepsOn(s, r, l, [RunCallback], l, [], c) && |r.conns[c].hist| == 1
    requires m < |s.loops| && TokensOk(s, c, m)
    ensures TokensOk(r, c, m)
  {
    hide Waiting, Worked, About;
    NotWorked(s, r, l, [RunCallback], l, [], m, RunDestroy(c));
    NotWorked(s, r, l, [RunCallback], l, [], m, RunRead(c));
    NotWorked(s, r, l, [RunCallback], l, [], m, RunCloseCallback(c));
    NotWorked(s, r, l, [RunCallback], l, [], m, RunRemove(c));
    WorkedAt(s, r, l, [RunCallback], l, [], m, RunEstablish(c));
  }

  lemma EstablishCloseCount(s: Sys, r: Sys, l: nat, c: nat)
    requires l < |s.loops| && s.loops[l].agenda != [] && s.loops[l].agenda[0] == RunEstablish(c)
    requires c < |s.conns| && s.conns[c].io == l && |s.conns[c].hist| == 0
    requires StepsOn(s, r, l, [RunCallback], l, [], c) && |r.conns[c].hist| == 1
    requires CloseTokenOk(s, c)
    ensures CloseTokenOk(r, c)
  {
    hide Waiting, Worked, About;
    WorkedAt(s, r, l, [RunCallback], l, [], s.conns[c].io, RunCloseCallback(c));
    WorkedAt(s, r, l, [RunCallback], l, [], 0, RunRemove(c));
  }

  /** handleClose disables the channel of a live connection. */
  lemma CloseWired(s: Sys, l: nat, c: nat) returns (r: Sys)
    requires DataOk(s) && l < |s.loops| && c < |s.conns| && s.conns[c].io == l && |s.conns[c].hist| == 1
    ensures DataOk(r) && SameWork(s, r) && DoHandleClose(s, l, c) == Prepend(r, l, [RunCallback, RunCloseCallback(c)])
    ensures r.conns == s.conns[c := r.conns[c]] && |r.conns[c].hist| == 2
  {
    var e := s.conns[c];
    assert EntOk(s, c);
    var conn := AfterClose(e.conn);
    var e1 := e.(conn := conn, hist := e.hist + [HandledClose]);
    ConnStepKeeps(e.conn, Close);
    UpdateOk(s, l, c, e1);
    r := Watch(SetEnt(s, c, e1), l, Update(e.fd, c, conn.events));
    RewiredKeeps(s, r, l, c, e1, Some(Reg(c, conn.events)));
  }

  lemma HandleCloseKeeps(s: Sys, l: nat, c: nat)
    requires Inv(s) && l < |s.loops| && s.loops[l].agenda != [] && c < |s.conns| && s.conns[c].io == l
    requires s.loops[l].agenda[0] == RunRead(c) || (s.loops[l].agenda[0] == RunClose(c) && Live(s.conns[c].conn))
    ensures Inv(DoHandleClose(Pop(s, l), l, c))
  {
    hide ConnInv, EPollHolds, EPollStep;
    PopTasks(s, l);
    var s1 := Pop(s, l);
    SameDataKeeps(s, s1);
    assert EntOk(s, c) && TokensOk(s, c, l);
    if s.loops[l].agenda[0] == RunRead(c) {
      assert Waiting(s, l, RunRead(c)) > 0;
    } else {
      assert AgendaOk(s, l, RunRead(c)) && QueueOk(s, l, RunRead(c));
      assert Waiting(s, l, RunRead(c)) == 0;
    }
    var s2 := CloseWired(s1, l, c);
    var ts := [RunCallback, RunCloseCallback(c)];
    var r := Prepend(s2, l, ts);
    assert TasksOk(r) by {
      SameWorkKeeps(s1, s2);
      PrependTasks(s2, l, ts);
    }
    SameDataKeeps(s2, r);
    CloseTokens(s, r, l, c);
  }

  lemma CloseTokens(s: Sys, r: Sys, l: nat, c: nat)
    requires AllTokensOk(s)
    requires l < |s.loops| && s.loops[l].agenda != []
    requires s.loops[l].agenda[0] == RunRead(c) || s.loops[l].agenda[0] == RunClose(c)
    requires c < |s.conns| && s.conns[c].io == l && |s.conns[c].hist| == 1
    requires Waiting(s, l, RunRead(c)) == (if s.loops[l].agenda[0] == RunRead(c) then 1 else 0)
    requires StepsOn(s, r, l, [RunCallback, RunCloseCallback(c)], l, [], c) && |r.conns[c].hist| == 2
    ensures AllTokensOk(r)
  {
    forall m | 0 <= m < |r.loops|
      ensures TokensOk(r, c, m)
    {
      assert TokensOk(s, c, m);
      CloseCounts(s, r, l, c, m);
    }
    assert CloseTokenOk(s, c);
    CloseCloseCount(s, r, l, c);
    StepTokens(s, r, l, [RunCallback, RunCloseCallback(c)], l, [], c);
  }

  lemma CloseCounts(s: Sys, r: Sys, l: nat, c: nat, m: nat)
    requires l < |s.loops| && s.loops[l].agenda != []
    requires s.loops[l].agenda[0] == RunRead(c) || s.loops[l].agenda[0] == RunClose(c)
    requires c < |s.conns| && s.conns[c].io == l && |s.conns[c].hist| == 1
    requires Waiting(s, l, RunRead(c)) == (if s.loops[l].agenda[0] == RunRead(c) then 1 else 0)
    requires StepsOn(s, r, l, [RunCallback, RunCloseCallback(c)], l, [], c) && |r.conns[c].hist| == 2
    requires m < |s.loops| && TokensOk(s, c, m)
    ensures TokensOk(r, c, m)
  {
    hide Waiting, Worked, About;
    NotWorked(s, r, l, [RunCallback, RunCloseCallback(c)], l, [], m, RunEstablish(c));
    NotWorked(s, r, l, [RunCallback, RunCloseCallback(c)], l, [], m, RunDestroy(c));
    NotWorked(s, r, l, [RunCallback, RunCloseCallback(c)], l, [], m, RunRemove(c));
    WorkedAt(s, r, l, [RunCallback, RunCloseCallback(c)], l, [], m, RunRead(c));
    if m != l { NotWorked(s, r, l, [RunCallback, RunCloseCallback(c)], l, [], m, RunCloseCallback(c)); }
  }

  lemma CloseCloseCount(s: Sys, r: Sys, l: nat, c: nat)
    requires l < |s.loops| && s.loops[l].agenda != []
    requires s.loops[l].agenda[0] == RunRead(c) || s.loops[l].agenda[0] == RunClose(c)
    requires c < |s.conns| && s.conns[c].io == l && |s.conns[c].hist| == 1
    requires Waiting(s, l, RunRead(c)) == (if s.loops[l].agenda[0] == RunRead(c) then 1 else 0)
    requires StepsOn(s, r, l, [RunCallback, RunCloseCallback(c)], l, [], c) && |r.conns[c].hist| == 2
    requires CloseTokenOk(s, c)
    ensures CloseTokenOk(r, c)
  {
    hide Waiting, Worked, About;
    WorkedAt(s, r, l, [RunCallback, RunCloseCallback(c)], l, [], s.conns[c].io, RunCloseCallback(c));
    WorkedAt(s, r, l, [RunCallback, RunCloseCallback(c)], l, [], 0, RunRemove(c));
  }

  /** closeCallback_ hands the connection to the acceptor loop. */
  lemma CloseCallbackKeeps(s: Sys, l: nat, c: nat)
    requires Inv(s) && l < |s.loops| && s.loops[l].agenda != [] && s.loops[l].agenda[0] == RunCloseCallback(c)
    ensures Names(s, RunCloseCallback(c)) && Inv(DoTask(Pop(s, l), l, RunCloseCallback(c), 0))
  {
    PopTasks(s, l);
    var s1 := Pop(s, l);
    SameDataKeeps(s, s1);
    assert EntOk(s, c) && TokensOk(s, c, l) && Waiting(s, l, RunCloseCallback(c)) > 0;
    var r := DoTask(s1, l, RunCloseCallback(c), 0);
    SameDataKeeps(s1, r);
    var ts := if l == 0 then [RunRemove(c)] else [];
    var xs := if l == 0 then [] else [RunRemove(c)];
    if l == 0 {
      PrependTasks(s1, 0, ts);
    } else {
      PushTasks(s1, 0, RunRemove(c));
    }
    CloseCallbackTokens(s, r, l, ts, xs, c);
  }

  lemma CloseCallbackTokens(s: Sys, r: Sys, l: nat, ts: seq<Task>, xs: seq<Task>, c: nat)
    requires AllTokensOk(s)
    requires l < |s.loops| && s.loops[l].agenda != [] && s.loops[l].agenda[0] == RunCloseCallback(c)
    requires c < |s.conns| && s.conns[c].io == l && Waiting(s, l, RunCloseCallback(c)) > 0
    requires (l == 0 && ts == [RunRemove(c)] && xs == []) || (l != 0 && ts == [] && xs == [RunRemove(c)])
    requires StepsOn(s, r, l, ts, 0, xs, c) && r.conns[c].hist == s.conns[c].hist
    ensures AllTokensOk(r)
  {
    forall m | 0 <= m < |r.loops|
      ensures TokensOk(r, c, m)
    {
      assert TokensOk(s, c, m);
      CloseCallbackCounts(s, r, l, ts, xs, c, m);
    }
    assert CloseTokenOk(s, c);
    CloseCallbackCloseCount(s, r, l, ts, xs, c);
    StepTokens(s, r, l, ts, 0, xs, c);
  }

  lemma CloseCallbackCounts(s: Sys, r: Sys, l: nat, ts: seq<Task>, xs: seq<Task>, c: nat, m: nat)
    requires l < |s.loops| && s.loops[l].agenda != [] && s.loops[l].agenda[0] == RunCloseCallback(c)
    requires c < |s.conns| && s.conns[c].io == l && Waiting(s, l, RunCloseCallback(c)) > 0
    requires (l == 0 && ts == [RunRemove(c)] && xs == []) || (l != 0 && ts == [] && xs == [RunRemove(c)])
    requires StepsOn(s, r, l, ts, 0, xs, c) && r.conns[c].hist == s.conns[c].hist
    requires m < |s.loops| && TokensOk(s, c, m)
    ensures TokensOk(r, c, m)
  {
    hide Waiting, Worked, About;
    NotWorked(s, r, l, ts, 0, xs, m, RunEstablish(c));
    NotWorked(s, r, l, ts, 0, xs, m, RunDestroy(c));
    NotWorked(s, r, l, ts, 0, xs, m, RunRead(c));
    if m != l { NotWorked(s, r, l, ts, 0, xs, m, RunCloseCallback(c)); }
    if m != 0 { NotWorked(s, r, l, ts, 0, xs, m, RunRemove(c)); }
  }

  lemma CloseCallbackCloseCount(s: Sys, r: Sys, l: nat, ts: seq<Task>, xs: seq<Task>, c: nat)
    requires l < |s.loops| && s.loops[l].agenda != [] && s.loops[l].agenda[0] == RunCloseCallback(c)
    requires c < |s.conns| && s.conns[c].io == l && Waiting(s, l, RunCloseCallback(c)) > 0
    requires (l == 0 && ts == [RunRemove(c)] && xs == []) || (l != 0 && ts == [] && xs == [RunRemove(c)])
    requires StepsOn(s, r, l, ts, 0, xs, c) && r.conns[c].hist == s.conns[c].hist
    requires CloseTokenOk(s, c)
    ensures CloseTokenOk(r, c)
  {
    hide Waiting, Worked, About;
    WorkedAt(s, r, l, ts, 0, xs, s.conns[c].io, RunCloseCallback(c));
    WorkedAt(s, r, l, ts, 0, xs, 0, RunRemove(c));
  }

  /** removeConnectionInLoop finds the connection in the list. */
  lemma UnlistData(s: Sys, c: nat)
    requires DataOk(s) && c < |s.conns| && |s.conns[c].hist| == 2
    ensures DataOk(SetEnt(s.(listed := s.listed - {c}), c, s.conns[c].(hist := s.conns[c].hist + [Unlisted])))
  {
    assert EntOk(s, c);
    var e := s.conns[c].(hist := s.conns[c].hist + [Unlisted]);
    assert e.hist == MILESTONES[..3];
    var r := SetEnt(s.(listed := s.listed - {c}), c, e);
    forall d | 0 <= d < |r.conns|
      ensures EntOk(r, d)
    {
      assert EntOk(s, d);
    }
    forall m | 0 <= m < |r.loops|
      ensures PollerOk(r, m)
    {
      assert PollerOk(s, m);
      forall fd
        ensures TableEntOk(r, m, fd)
      {
        assert TableEntOk(s, m, fd);
      }
    }
  }

  lemma RemoveKeeps(s: Sys, l: nat, c: nat)
    requires Inv(s) && l < |s.loops| && s.loops[l].agenda != [] && s.loops[l].agenda[0] == RunRemove(c)
    ensures Names(s, RunRemove(c)) && Inv(DoRemove(Pop(s, l), l, c))
  {
    hide ConnInv, EPollHolds, EPollStep;
    PopTasks(s, l);
    var s1 := Pop(s, l);
    SameDataKeeps(s, s1);
    assert EntOk(s, c) && CloseTokenOk(s, c) && Waiting(s, l, RunRemove(c)) > 0;
    UnlistData(s1, c);
    var e := s.conns[c];
    var s2 := SetEnt(s1.(listed := s1.listed - {c}), c, e.(hist := e.hist + [Unlisted]));
    SameWorkKeeps(s1, s2);
    PushTasks(s2, e.io, RunDestroy(c));
    SameDataKeeps(s2, Push(s2, e.io, RunDestroy(c)));
    RemoveTokens(s, Push(s2, e.io, RunDestroy(c)), c);
  }

  lemma RemoveTokens(s: Sys, r: Sys, c: nat)
    requires AllTokensOk(s)
    requires 0 < |s.loops| && s.loops[0].agenda != [] && s.loops[0].agenda[0] == RunRemove(c)
    requires c < |s.conns| && s.conns[c].io < |s.loops| && |s.conns[c].hist| == 2 && Waiting(s, 0, RunRemove(c)) > 0
    requires StepsOn(s, r, 0, [], s.conns[c].io, [RunDestroy(c)], c) && |r.conns[c].hist| == 3
    ensures AllTokensOk(r)
  {
    forall m | 0 <= m < |r.loops|
      ensures TokensOk(r, c, m)
    {
      assert TokensOk(s, c, m);
      RemoveCounts(s, r, c, m);
    }
    assert CloseTokenOk(s, c);
    RemoveCloseCount(s, r, c);
    StepTokens(s, r, 0, [], s.conns[c].io, [RunDestroy(c)], c);
  }

  lemma RemoveCounts(s: Sys, r: Sys, c: nat, m: nat)
    requires 0 < |s.loops| && s.loops[0].agenda != [] && s.loops[0].agenda[0] == RunRemove(c)
    requires c < |s.conns| && s.conns[c].io < |s.loops| && |s.conns[c].hist| == 2 && Waiting(s, 0, RunRemove(c)) > 0
    requires StepsOn(s, r, 0, [], s.conns[c].io, [RunDestroy(c)], c) && |r.conns[c].hist| == 3
    requires m < |s.loops| && TokensOk(s, c, m)
    ensures TokensOk(r, c, m)
  {
    hide Waiting, Worked, About;
    NotWorked(s, r, 0, [], s.conns[c].io, [RunDestroy(c)], m, RunEstablish(c));
    NotWorked(s, r, 0, [], s.conns[c].io, [RunDestroy(c)], m, RunRead(c));
    NotWorked(s, r, 0, [], s.conns[c].io, [RunDestroy(c)], m, RunCloseCallback(c));
    WorkedAt(s, r, 0, [], s.conns[c].io, [RunDestroy(c)], m, RunDestroy(c));
    if m != 0 { NotWorked(s, r, 0, [], s.conns[c].io, [RunDestroy(c)], m, RunRemove(c)); }
  }

  lemma RemoveCloseCount(s: Sys, r: Sys, c: nat)
    requires 0 < |s.loops| && s.loops[0].agenda != [] && s.loops[0].agenda[0] == RunRemove(c)
    requires c < |s.conns| && s.conns[c].io < |s.loops| && |s.conns[c].hist| == 2 && Waiting(s, 0, RunRemove(c)) > 0
    requires StepsOn(s, r, 0, [], s.conns[c].io, [RunDestroy(c)], c) && |r.conns[c].hist| == 3
    requires CloseTokenOk(s, c)
    ensures CloseTokenOk(r, c)
  {
    hide Waiting, Worked, About;
    WorkedAt(s, r, 0, [], s.conns[c].io, [RunDestroy(c)], s.conns[c].io, RunCloseCallback(c));
    WorkedAt(s, r, 0, [], s.conns[c].io, [RunDestroy(c)], 0, RunRemove(c));
  }

  /** connectDestroyed finds a disconnected connection whose channel is registered with no events. */
  lemma DestroyKeeps(s: Sys, l: nat, c: nat)
    requires Inv(s) && l < |s.loops| && s.loops[l].agenda != [] && s.loops[l].agenda[0] == RunDestroy(c)
    ensures Names(s, RunDestroy(c)) && Inv(DoDestroy(Pop(s, l), l, c))
  {
    PopTasks(s, l);
    var s1 := Pop(s, l);
    SameDataKeeps(s, s1);
    assert EntOk(s, c) && EntOk(s1, c) && TokensOk(s, c, l) && Waiting(s, l, RunDestroy(c)) > 0;
    var e := s.conns[c];
    var e1 := e.(hist := e.hist + [Destroyed]);
    assert e1.hist == MILESTONES[..4];
    assert PollerOk(s1, l);
    EPollStepRefines(s1.loops[l].poller, s1.loops[l].table, Remove(e.fd, c, e.conn.events));
    var r := DoDestroy(s1, l, c);
    assert Rewired(s1, r, l, c, e1, None);
    RewiredKeeps(s1, r, l, c, e1, None);
    SameWorkKeeps(s1, r);
    DestroyTokens(s, r, l, c);
  }

  lemma DestroyTokens(s: Sys, r: Sys, l: nat, c: nat)
    requires AllTokensOk(s)
    requires l < |s.loops| && s.loops[l].agenda != [] && s.loops[l].agenda[0] == RunDestroy(c)
    requires c < |s.conns| && s.conns[c].io == l && |s.conns[c].hist| == 3
    requires StepsOn(s, r, l, [], l, [], c) && |r.conns[c].hist| == 4
    ensures AllTokensOk(r)
  {
    forall m | 0 <= m < |r.loops|
      ensures TokensOk(r, c, m)
    {
      assert TokensOk(s, c, m);
      DestroyCounts(s, r, l, c, m);
    }
    assert CloseTokenOk(s, c);
    DestroyCloseCount(s, r, l, c);
    StepTokens(s, r, l, [], l, [], c);
  }

  lemma DestroyCounts(s: Sys, r: Sys, l: nat, c: nat, m: nat)
    requires l < |s.loops| && s.loops[l].agenda != [] && s.loops[l].agenda[0] == RunDestroy(c)
    requires c < |s.conns| && s.conns[c].io == l && |s.conns[c].hist| == 3
    requires StepsOn(s, r, l, [], l, [], c) && |r.conns[c].hist| == 4
    requires m < |s.loops| && TokensOk(s, c, m)
    ensures TokensOk(r, c, m)
  {
    hide Waiting, Worked, About;
    NotWorked(s, r, l, [], l, [], m, RunEstablish(c));
    NotWorked(s, r, l, [], l, [], m, RunRead(c));
    NotWorked(s, r, l, [], l, [], m, RunCloseCallback(c));
    NotWorked(s, r, l, [], l, [], m, RunRemove(c));
    WorkedAt(s, r, l, [], l, [], m, RunDestroy(c));
  }

  lemma DestroyCloseCount(s: Sys, r: Sys, l: nat, c: nat)
    requires l < |s.loops| && s.loops[l].agenda != [] && s.loops[l].agenda[0] == RunDestroy(c)
    requires c < |s.conns| && s.conns[c].io == l && |s.conns[c].hist| == 3
    requires StepsOn(s, r, l, [], l, [], c) && |r.conns[c].hist| == 4
    requires CloseTokenOk(s, c)
    ensures CloseTokenOk(r, c)
  {
    hide Waiting, Worked, About;
    WorkedAt(s, r, l, [], l, [], s.conns[c].io, RunCloseCallback(c));
    WorkedAt(s, r, l, [], l, [], 0, RunRemove(c));
  }

  // ---------------------------------------------------------------------------
  // Accepting, polling, taking the queue, releasing a descriptor

  /** No step mentions a connection that does not exist yet. */
  lemma NothingWaits(s: Sys, m: nat, t: Task)
    requires TasksOk(s) && m < |s.loops| && (HandOff(t) || t.RunRead?) && t.c >= |s.conns|
    ensures Waiting(s, m, t) == 0
  {
    assert AgendaOk(s, m, t) && QueueOk(s, m, t);
  }

  lemma AcceptData(s: Sys, fd: nat, io: nat)
    requires DataOk(s) && io < |s.loops|
    requires forall c :: 0 <= c < |s.conns| && s.conns[c].open ==> s.conns[c].fd != fd
    ensures var r := s.(conns := s.conns + [Ent(io, fd, true, NEW_CONN, [])], listed := s.listed + {|s.conns|});
            DataOk(r) && SameWork(s, r)
  {
    var r := s.(conns := s.conns + [Ent(io, fd, true, NEW_CONN, [])], listed := s.listed + {|s.conns|});
    forall d | 0 <= d < |r.conns|
      ensures EntOk(r, d)
    {
      if d < |s.conns| { assert EntOk(s, d); }
    }
    forall m | 0 <= m < |r.loops|
      ensures PollerOk(r, m)
    {
      assert PollerOk(s, m);
      forall x
        ensures TableEntOk(r, m, x)
      {
        assert TableEntOk(s, m, x);
      }
    }
  }

  lemma AcceptKeeps(s: Sys, fd: nat, io: nat)
    requires Inv(s) && io < |s.loops|
    requires forall c :: 0 <= c < |s.conns| && s.conns[c].open ==> s.conns[c].fd != fd
    ensures Inv(DoAccept(s, fd, io))
  {
    var c := |s.conns|;
    var s1 := s.(conns := s.conns + [Ent(io, fd, true, NEW_CONN, [])], listed := s.listed + {c});
    AcceptData(s, fd, io);
    SameWorkKeeps(s, s1);
    var r := DoAccept(s, fd, io);
    SameDataKeeps(s1, r);
    if io == 0 {
      PrependTasks(s1, 0, [RunEstablish(c)]);
      PrependEffect(s1, 0, [RunEstablish(c)]);
    } else {
      PushTasks(s1, io, RunEstablish(c));
      PushEffect(s1, io, RunEstablish(c));
    }
    hide Waiting, DataOk, TasksOk;
    forall m, t | 0 <= m < |s.loops|
      ensures Waiting(r, m, t) == Waiting(s, m, t) + (if m == io && t == RunEstablish(c) then 1 else 0)
    {
      assert Waiting(s1, m, t) == Waiting(s, m, t);
    }
    AcceptTokens(s, r, io);
  }

  lemma AcceptTokens(s: Sys, r: Sys, io: nat)
    requires TasksOk(s) && AllTokensOk(s) && |r.loops| == |s.loops| && io < |s.loops|
    requires |r.conns| == |s.conns| + 1 && r.conns[..|s.conns|] == s.conns
    requires r.conns[|s.conns|].io == io && r.conns[|s.conns|].hist == []
    requires forall m, t :: 0 <= m < |s.loops| ==>
               Waiting(r, m, t) == Waiting(s, m, t) + (if m == io && t == RunEstablish(|s.conns|) then 1 else 0)
    ensures AllTokensOk(r)
  {
    hide Waiting, TasksOk;
    var c := |s.conns|;
    forall d, m | 0 <= d < |r.conns| && 0 <= m < |r.loops|
      ensures TokensOk(r, d, m)
    {
      if d < c {
        assert r.conns[d] == s.conns[d] && TokensOk(s, d, m);
      } else {
        NothingWaits(s, m, RunEstablish(c));
        NothingWaits(s, m, RunDestroy(c));
        NothingWaits(s, m, RunRead(c));
        NothingWaits(s, m, RunCloseCallback(c));
        NothingWaits(s, m, RunRemove(c));
      }
    }
    forall d | 0 <= d < |r.conns|
      ensures CloseTokenOk(r, d)
    {
      if d < c {
        assert r.conns[d] == s.conns[d] && CloseTokenOk(s, d);
      } else {
        NothingWaits(s, io, RunCloseCallback(c));
        NothingWaits(s, 0, RunRemove(c));
      }
    }
  }

  lemma SwapKeeps(s: Sys, l: nat)
    requires Inv(s) && Enabled(s, Swap(l))
    ensures Inv(Next(s, Swap(l)))
  {
    var r := Next(s, Swap(l));
    SameDataKeeps(s, r);
    forall m, t | 0 <= m < |r.loops|
      ensures AgendaOk(r, m, t) && QueueOk(r, m, t)
    {
      assert AgendaOk(s, m, t) && QueueOk(s, m, t);
    }
    TokensKept(s, r);
  }

  lemma {:induction false} HandlersSound(kernel: map<nat, Reg>, ready: seq<Event>, t: Task) returns (i: nat)
    requires forall i :: 0 <= i < |ready| && ready[i].ConnEvent? ==> ready[i].fd in kernel
    requires t in Handlers(kernel, ready)
    ensures i < |ready|
    ensures if ready[i].AcceptEvent? then t == RunAccept
            else if ready[i].WakeEvent? then t == RunWakeup
            else t == RunRead(kernel[ready[i].fd].chan) || t == RunWrite(kernel[ready[i].fd].chan)
    decreases |ready|
  {
    if t in Handlers(kernel, ready[1..]) {
      i := HandlersSound(kernel, ready[1..], t);
      i := i + 1;
    } else {
      i := 0;
    }
  }

  lemma OneRead(kernel: map<nat, Reg>, e: Event, c: nat)
    requires e.ConnEvent? ==> e.fd in kernel
    ensures multiset(HandlersOf(kernel, e))[RunRead(c)] <= 1
    ensures multiset(HandlersOf(kernel, e))[RunRead(c)] == 1 ==> e.ConnEvent? && kernel[e.fd].chan == c
  {
  }

  lemma {:induction false} HandlersOnce(kernel: map<nat, Reg>, ready: seq<Event>, c: nat)
    requires forall i :: 0 <= i < |ready| && ready[i].ConnEvent? ==> ready[i].fd in kernel
    requires forall i, j :: 0 <= i < j < |ready| && ready[i].ConnEvent? && ready[j].ConnEvent? ==>
               kernel[ready[i].fd].chan != kernel[ready[j].fd].chan
    ensures multiset(Handlers(kernel, ready))[RunRead(c)] <= 1
    decreases |ready|
  {
    if ready == [] { return; }
    var first, rest := HandlersOf(kernel, ready[0]), Handlers(kernel, ready[1..]);
    assert multiset(first + rest)[RunRead(c)] == multiset(first)[RunRead(c)] + multiset(rest)[RunRead(c)];
    HandlersOnce(kernel, ready[1..], c);
    OneRead(kernel, ready[0], c);
    if RunRead(c) in rest {
      var i := HandlersSound(kernel, ready[1..], RunRead(c));
      assert ready[1..][i] == ready[i + 1];
      assert exists j :: 1 <= j < |ready| && ready[j].ConnEvent? && kernel[ready[j].fd].chan == c;
    }
  }

  /** A watched descriptor belongs to a live connection of the loop. */
  lemma WatchedIsLive(s: Sys, l: nat, fd: nat)
    requires DataOk(s) && l < |s.loops| && fd in s.loops[l].poller.kernel
    ensures var c := s.loops[l].poller.kernel[fd].chan;
            && c < |s.conns| && s.conns[c].io == l && s.conns[c].fd == fd && |s.conns[c].hist| == 1
            && fd in s.loops[l].poller.channels && s.loops[l].poller.channels[fd].chan == c
  {
    assert PollerOk(s, l) && TableEntOk(s, l, fd);
    assert EntryHolds(s.loops[l].poller, s.loops[l].table, fd);
    assert EntOk(s, s.loops[l].poller.kernel[fd].chan);
  }

  lemma PollKeeps(s: Sys, l: nat, ready: seq<Event>)
    requires Inv(s) && Enabled(s, PollReturns(l, ready))
    ensures Inv(Next(s, PollReturns(l, ready)))
  {
    hide ConnInv, EPollHolds, EPollStep;
    var p := s.loops[l].poller;
    forall i | 0 <= i < |ready| && ready[i].ConnEvent?
      ensures var c := p.kernel[ready[i].fd].chan;
              c < |s.conns| && s.conns[c].io == l && s.conns[c].fd == ready[i].fd && |s.conns[c].hist| == 1
      ensures ready[i].fd in p.channels && p.channels[ready[i].fd].chan == p.kernel[ready[i].fd].chan
    {
      WatchedIsLive(s, l, ready[i].fd);
    }
    var r := Next(s, PollReturns(l, ready));
    var h := Handlers(p.kernel, ready);
    SameDataKeeps(s, r);
    forall t | t in h
      ensures t.RunRead? || t.RunWrite? || t == RunWakeup || (t == RunAccept && l == 0)
      ensures t.RunRead? || t.RunWrite? ==> t.c < |s.conns| && s.conns[t.c].io == l && |s.conns[t.c].hist| == 1
    {
      var i := HandlersSound(p.kernel, ready, t);
    }
    DispatchTasks(s, r, l, h);
    PollTokens(s, r, l, ready);
  }

  lemma DispatchTasks(s: Sys, r: Sys, l: nat, h: seq<Task>)
    requires TasksOk(s) && l < |s.loops| && r == s.(loops := s.loops[l := s.loops[l].(phase := Dispatch, agenda := h)])
    requires forall t :: t in h ==> !t.RunClose? && Placed(s, l, t)
    ensures TasksOk(r)
  {
    forall m, t | 0 <= m < |r.loops|
      ensures AgendaOk(r, m, t) && QueueOk(r, m, t)
    {
      assert AgendaOk(s, m, t) && QueueOk(s, m, t);
    }
  }

  /** The reported channels are distinct, as their descriptors are. */
  lemma DistinctChannels(s: Sys, l: nat, ready: seq<Event>)
    requires DataOk(s) && l < |s.loops| && Pollable(s, l, ready)
    ensures var kernel := s.loops[l].poller.kernel;
            forall i, j :: 0 <= i < j < |ready| && ready[i].ConnEvent? && ready[j].ConnEvent? ==>
              kernel[ready[i].fd].chan != kernel[ready[j].fd].chan
  {
    var kernel := s.loops[l].poller.kernel;
    forall i, j | 0 <= i < j < |ready| && ready[i].ConnEvent? && ready[j].ConnEvent?
      ensures kernel[ready[i].fd].chan != kernel[ready[j].fd].chan
    {
      WatchedIsLive(s, l, ready[i].fd);
      WatchedIsLive(s, l, ready[j].fd);
    }
  }

  /** An idle loop in its task phase gets the handlers `h` as its agenda. */
  ghost predicate Dispatches(s: Sys, r: Sys, l: nat, h: seq<Task>)
    requires l < |s.loops|
  {
    && s.loops[l].agenda == []
    && r == s.(loops := s.loops[l := s.loops[l].(phase := Dispatch, agenda := h)])
    && (forall t :: t in h ==> !HandOff(t))
    && (forall t: Task :: t in h && t.RunRead? ==> t.c < |s.conns| && s.conns[t.c].io == l && |s.conns[t.c].hist| == 1)
  }

  lemma PollHandOffs(s: Sys, r: Sys, l: nat, h: seq<Task>, m: nat, t: Task)
    requires l < |s.loops| && m < |s.loops| && Dispatches(s, r, l, h) && HandOff(t)
    ensures Waiting(r, m, t) == Waiting(s, m, t)
  {
    assert t !in h;
  }

  lemma PollCounts(s: Sys, r: Sys, l: nat, h: seq<Task>, c: nat, m: nat)
    requires l < |s.loops| && m < |s.loops| && c < |s.conns| && Dispatches(s, r, l, h) && TokensOk(s, c, m)
    requires multiset(h)[RunRead(c)] <= 1 && RunRead(c) !in s.loops[l].queue
    ensures TokensOk(r, c, m)
    ensures forall t :: HandOff(t) ==> Waiting(r, m, t) == Waiting(s, m, t)
  {
    forall t | HandOff(t)
      ensures Waiting(r, m, t) == Waiting(s, m, t)
    {
      PollHandOffs(s, r, l, h, m, t);
    }
    assert Waiting(r, m, RunRead(c)) <= (if |s.conns[c].hist| == 1 && m == s.conns[c].io then 1 else 0) by {
      assert RunRead(c) in h || multiset(h)[RunRead(c)] == 0;
    }
    hide Waiting, Dispatches;
    assert HandOff(RunEstablish(c)) && HandOff(RunDestroy(c)) && HandOff(RunCloseCallback(c)) && HandOff(RunRemove(c));
  }

  lemma PollTokens(s: Sys, r: Sys, l: nat, ready: seq<Event>)
    requires Inv(s) && Enabled(s, PollReturns(l, ready))
    requires Dispatches(s, r, l, Handlers(s.loops[l].poller.kernel, ready))
    ensures AllTokensOk(r)
  {
    var kernel := s.loops[l].poller.kernel;
    var h := Handlers(kernel, ready);
    DistinctChannels(s, l, ready);
    forall c, m | 0 <= c < |r.conns| && 0 <= m < |r.loops|
      ensures TokensOk(r, c, m)
      ensures forall t :: HandOff(t) ==> Waiting(r, m, t) == Waiting(s, m, t)
    {
      HandlersOnce(kernel, ready, c);
      assert QueueOk(s, l, RunRead(c)) && TokensOk(s, c, m);
      PollCounts(s, r, l, h, c, m);
    }
    forall c | 0 <= c < |r.conns|
      ensures CloseTokenOk(r, c)
    {
      assert CloseTokenOk(s, c) && HandOff(RunCloseCallback(c)) && HandOff(RunRemove(c));
    }
  }

  lemma ReleaseKeeps(s: Sys, c: nat)
    requires Inv(s) && Enabled(s, Release(c))
    ensures Inv(Next(s, Release(c)))
  {
    var r := Next(s, Release(c));
    assert EntOk(s, c) && |s.conns[c].hist| == 4;
    forall d | 0 <= d < |r.conns|
      ensures EntOk(r, d)
    {
      assert EntOk(s, d);
    }
    forall m | 0 <= m < |r.loops|
      ensures PollerOk(r, m)
    {
      assert PollerOk(s, m);
      forall x
        ensures TableEntOk(r, m, x)
      {
        assert TableEntOk(s, m, x);
      }
    }
    SameWorkKeeps(s, r);
    TokensKept(s, r);
  }

  // ---------------------------------------------------------------------------
  // Every step, every run

  lemma ExecKeeps(s: Sys, l: nat, n: int)
    requires Inv(s) && Enabled(s, Exec(l, n))
    ensures Inv(Next(s, Exec(l, n)))
  {
    hide ConnInv, EPollHolds, EPollStep;
    var t := s.loops[l].agenda[0];
    PopTasks(s, l);
    if !t.RunCallback? && !t.RunAccept? && !t.RunWakeup? { assert EntOk(s, t.c); }
    match t
    case RunEstablish(c) => EstablishKeeps(s, l, c);
    case RunCloseCallback(c) => CloseCallbackKeeps(s, l, c);
    case RunRemove(c) => RemoveKeeps(s, l, c);
    case RunDestroy(c) => DestroyKeeps(s, l, c);
    case RunClose(c) =>
      if Live(s.conns[c].conn) { HandleCloseKeeps(s, l, c); } else { PopKeeps(s, l); }
    case RunRead(c) =>
      if n == 0 { HandleCloseKeeps(s, l, c); } else { PopKeeps(s, l); CallbackKeeps(Pop(s, l), l); }
    case RunCallback => PopKeeps(s, l);
    case RunAccept => PopKeeps(s, l);
    case RunWakeup => PopKeeps(s, l); CounterKeeps(Pop(s, l), l, 0, s.loops[l].owed);
    case _ => PlainExecKeeps(s, l, n);
  }

  lemma PlainExecKeeps(s: Sys, l: nat, n: int)
    requires Inv(s) && Enabled(s, Exec(l, n))
    requires var t := s.loops[l].agenda[0];
             t.RunCloseLater? || t.RunSend? || t.RunShutdown? || t.RunWriteComplete? || t.RunWrite?
    ensures Inv(Next(s, Exec(l, n)))
  {
    var t := s.loops[l].agenda[0];
    PopTasks(s, l);
    PopKeeps(s, l);
    var s1 := Pop(s, l);
    match t
    case RunCloseLater(c) => PushKeeps(s1, l, RunClose(c));
    case RunSend(c, msg) => ChangeKeeps(s1, l, c, Send(msg));
    case RunShutdown(c) => ChangeKeeps(s1, l, c, Shutdown);
    case RunWriteComplete(c) => CallbackKeeps(s1, l);
    case RunWrite(c) =>
      ChangeKeeps(s1, l, c, Write(n));
      if Drains(s1.conns[c].conn, n) {
        PushKeeps(Change(s1, l, c, AfterWrite(s1.conns[c].conn, n)), l, RunWriteComplete(c));
      }
  }

  lemma StepKeeps(s: Sys, ch: Choice)
    requires Inv(s) && Enabled(s, ch)
    ensures Inv(Next(s, ch))
  {
    match ch
    case Swap(l) => SwapKeeps(s, l);
    case PollReturns(l, ready) => PollKeeps(s, l, ready);
    case Exec(l, n) => ExecKeeps(s, l, n);
    case Accepts(l, fd, io) =>
      AcceptKeeps(s, fd, io);
    case Calls(l, call) =>
      assert EntOk(s, call.c);
      CallKeeps(s, Some(l), call);
    case ThreadCalls(call) =>
      assert EntOk(s, call.c);
      CallKeeps(s, None, call);
    case UserTask(k) => PushKeeps(s, k, RunCallback);
    case Wakeup(k) => CounterKeeps(s, k, s.loops[k].counter + 1, s.loops[k].owed - 1);
    case Release(c) => ReleaseKeeps(s, c);
  }

  ghost predicate RunOk(s: Sys, chs: seq<Choice>)
    decreases |chs|
  {
    chs == [] || (Enabled(s, chs[0]) && RunOk(Next(s, chs[0]), chs[1..]))
  }

  ghost function RunSys(s: Sys, chs: seq<Choice>): Sys
    requires RunOk(s, chs)
    decreases |chs|
  {
    if chs == [] then s else RunSys(Next(s, chs[0]), chs[1..])
  }

  function Init(n: nat): Sys {
    Sys(seq(n, _ => INIT_LOOP), [], {}, false)
  }

  lemma InitOk(n: nat)
    requires n > 0
    ensures Inv(Init(n))
  {
  }

  lemma {:induction false} RunKeeps(s: Sys, chs: seq<Choice>)
    requires Inv(s) && RunOk(s, chs)
    ensures Inv(RunSys(s, chs))
    decreases |chs|
  {
    if chs != [] {
      StepKeeps(s, chs[0]);
      RunKeeps(Next(s, chs[0]), chs[1..]);
    }
  }

  /** What the runs promise about connection `c`, said without the invariant. */
  ghost predicate ConnSafe(s: Sys, c: nat)
    requires c < |s.conns|
  {
    var e := s.conns[c];
    && e.hist <= MILESTONES
    && (e.conn.state == Disconnected <==> HandledClose in e.hist)
    && (c in s.listed <==> Unlisted !in e.hist)
    && (Destroyed !in e.hist ==> e.open)
    && e.conn.written + e.conn.output == e.conn.accepted
    && (Live(e.conn) && e.conn.output != "" ==> e.conn.events.write)
    && |e.conn.halfCloses| <= 1
    && (forall h :: h in e.conn.halfCloses ==> h.written == h.accepted == |e.conn.written| == |e.conn.accepted|)
  }

  /** What the runs promise about loop `l`: no epoll_ctl failed, the kernel watches only live
      connections of this loop, and only those can still be read. */
  ghost predicate LoopSafe(s: Sys, l: nat)
    requires l < |s.loops|
  {
    && s.loops[l].poller.faults == 0
    && (forall fd :: fd in s.loops[l].poller.kernel ==>
          var c := s.loops[l].poller.kernel[fd].chan;
          c < |s.conns| && s.conns[c].io == l && s.conns[c].fd == fd && Live(s.conns[c].conn))
    && (forall c: nat :: RunRead(c) in s.loops[l].agenda ==> c < |s.conns| && Live(s.conns[c].conn))
  }

  /** Over every interleaving of loop threads, other threads and user callbacks no assert
      fails, and every connection and every loop keeps its promises. */
  lemma LifecycleIsSafe(n: nat, chs: seq<Choice>)
    requires n > 0 && RunOk(Init(n), chs)
    ensures var s := RunSys(Init(n), chs);
            && !s.aborted
            && (forall c :: 0 <= c < |s.conns| ==> ConnSafe(s, c))
            && (forall l :: 0 <= l < |s.loops| ==> LoopSafe(s, l))
  {
    InitOk(n);
    RunKeeps(Init(n), chs);
    var s := RunSys(Init(n), chs);
    forall c | 0 <= c < |s.conns|
      ensures ConnSafe(s, c)
    {
      InvConnSafe(s, c);
    }
    forall l | 0 <= l < |s.loops|
      ensures LoopSafe(s, l)
    {
      InvLoopSafe(s, l);
    }
  }

  lemma InvConnSafe(s: Sys, c: nat)
    requires Inv(s) && c < |s.conns|
    ensures ConnSafe(s, c)
  {
    assert EntOk(s, c);
    var h := s.conns[c].hist;
    var k := |h|;
    assert k > 1 ==> h[1] == HandledClose;
    assert k > 2 ==> h[2] == Unlisted;
    assert k > 3 ==> h[3] == Destroyed;
    assert forall i :: 0 <= i < k ==> h[i] == MILESTONES[i];
  }

  lemma InvLoopSafe(s: Sys, l: nat)
    requires Inv(s) && l < |s.loops|
    ensures LoopSafe(s, l)
  {
    assert PollerOk(s, l);
    forall fd | fd in s.loops[l].poller.kernel
      ensures var c := s.loops[l].poller.kernel[fd].chan;
              c < |s.conns| && s.conns[c].io == l && s.conns[c].fd == fd && Live(s.conns[c].conn)
    {
      WatchedIsLive(s, l, fd);
      assert EntOk(s, s.loops[l].poller.kernel[fd].chan);
    }
    forall c: nat | RunRead(c) in s.loops[l].agenda
      ensures c < |s.conns| && Live(s.conns[c].conn)
    {
      assert AgendaOk(s, l, RunRead(c));
      assert EntOk(s, c) && TokensOk(s, c, l) && Waiting(s, l, RunRead(c)) > 0;
    }
  }
}
