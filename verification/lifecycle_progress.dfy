/** Progress of the connection lifecycle: from every reachable state all connections can be
    brought to the end of their life, on whatever loops they are, without waiting for a poll to
    time out, and a freed descriptor can be used again. So the safety theorem of module LifecycleSafety speaks about complete lives.
 */
module LifecycleProgress {
  import opened Options
  import opened Pollers
  import opened Connections
  import opened Lifecycle
  import opened LifecycleSafety

  // ---------------------------------------------------------------------------
  // Continuations

  predicate TimesOut(ch: Choice) { ch.PollReturns? && ch.ready == [] }

  /** No poll of the run times out. */
  predicate Prompt(chs: seq<Choice>) {
    forall ch :: ch in chs ==> !TimesOut(ch)
  }

  /** Some run in which no poll times out leads from `s` to `r`. */
  ghost predicate Leads(s: Sys, r: Sys) {
    exists chs :: RunOk(s, chs) && Prompt(chs) && r == RunSys(s, chs)
  }

  lemma {:induction false} RunAppends(s: Sys, a: seq<Choice>, b: seq<Choice>)
    requires RunOk(s, a) && RunOk(RunSys(s, a), b)
    ensures RunOk(s, a + b) && RunSys(s, a + b) == RunSys(RunSys(s, a), b)
    decreases |a|
  {
    hide Enabled, Next;
    if a == [] {
      assert a + b == b;
    } else {
      assert (a + b)[1..] == a[1..] + b;
      RunAppends(Next(s, a[0]), a[1..], b);
    }
  }

  lemma LeadsNowhere(s: Sys)
    ensures Leads(s, s)
  {
    assert RunOk(s, []) && RunSys(s, []) == s;
  }

  lemma LeadsOn(s: Sys, r: Sys, u: Sys)
    requires Leads(s, r) && Leads(r, u)
    ensures Leads(s, u)
  {
    hide Enabled, Next;
    var a :| RunOk(s, a) && Prompt(a) && r == RunSys(s, a);
    var b :| RunOk(r, b) && Prompt(b) && u == RunSys(r, b);
    RunAppends(s, a, b);
  }

  lemma LeadsStep(s: Sys, ch: Choice)
    requires Enabled(s, ch) && !TimesOut(ch)
    ensures Leads(s, Next(s, ch))
  {
    hide Enabled, Next;
    var r := Next(s, ch);
    assert [ch][1..] == [];
    assert RunOk(r, []) && RunSys(r, []) == r;
    assert RunOk(s, [ch]) && RunSys(s, [ch]) == r;
  }

  // ---------------------------------------------------------------------------
  // What a step of a loop adds to its agenda

  /** Connections stay where they are and only gain milestones. */
  ghost predicate Onwards(s: Sys, r: Sys) {
    && |r.loops| == |s.loops| && |r.conns| == |s.conns|
    && (forall c :: 0 <= c < |s.conns| ==> SameConn(s.conns[c], r.conns[c]))
  }

  predicate SameConn(d: Ent, e: Ent) {
    e.io == d.io && e.fd == d.fd && e.open == d.open && |d.hist| <= |e.hist|
  }

  /** No loop changes its phase, nothing queued is lost, each push owes one wakeup write, and the
      eventfd is read only while dispatching. */
  ghost predicate LoopsGrow(s: Sys, r: Sys) {
    |r.loops| == |s.loops| && forall m :: 0 <= m < |s.loops| ==> LoopGrows(s.loops[m], r.loops[m])
  }

  predicate LoopGrows(a: Loop, b: Loop) {
    && b.phase == a.phase && a.queue <= b.queue && b.owed == a.owed + |b.queue| - |a.queue|
    && (b.counter == a.counter || a.phase == Dispatch)
  }

  ghost predicate Grows(s: Sys, r: Sys) {
    Onwards(s, r) && LoopsGrow(s, r)
  }

  /** Nothing but pollers and connections changes. */
  ghost predicate SameAgendas(s: Sys, r: Sys) {
    && Grows(s, r)
    && (forall m :: 0 <= m < |s.loops| ==> r.loops[m].agenda == s.loops[m].agenda)
  }

  lemma WatchShape(s: Sys, l: nat, op: Op)
    requires l < |s.loops|
    ensures SameAgendas(s, Watch(s, l, op)) && Watch(s, l, op).conns == s.conns
  {
    hide EPollStep, Apply;
  }

  lemma SetEntShape(s: Sys, c: nat, e: Ent)
    requires c < |s.conns| && SameConn(s.conns[c], e)
    ensures SameAgendas(s, SetEnt(s, c, e))
  {
  }

  lemma ChangeShape(s: Sys, l: nat, c: nat, conn: Conn)
    requires l < |s.loops| && c < |s.conns|
    ensures SameAgendas(s, Change(s, l, c, conn)) && Change(s, l, c, conn).conns[c].hist == s.conns[c].hist
  {
    var e := s.conns[c].(conn := conn);
    SetEntShape(s, c, e);
    WatchShape(SetEnt(s, c, e), l, Update(e.fd, c, conn.events));
    hide Watch;
  }

  /** How many steps a task can still cause on its own loop. */
  function Weight(t: Task): nat {
    match t
    case RunClose(_) => 6
    case RunRead(_) => 6
    case RunDestroy(_) => 4
    case RunCloseCallback(_) => 3
    case RunEstablish(_) => 2
    case RunWriteComplete(_) => 2
    case _ => 1
  }

  function Sum(ts: seq<Task>): nat {
    if ts == [] then 0 else Weight(ts[0]) + Sum(ts[1..])
  }

  lemma {:induction false} SumAppends(a: seq<Task>, b: seq<Task>)
    ensures Sum(a + b) == Sum(a) + Sum(b)
  {
    if a == [] {
      assert a + b == b;
    } else {
      assert (a + b)[1..] == a[1..] + b;
      SumAppends(a[1..], b);
    }
  }

  lemma SumTwo(a: Task, b: Task)
    ensures Sum([a, b]) == Weight(a) + Weight(b)
  {
    assert [b][1..] == [] && Sum([b]) == Weight(b);
    assert [a, b][1..] == [b];
  }

  /** `r` is `s` with the steps `ts`, lighter than `t`, put at the front of loop `l`'s agenda. */
  ghost predicate Does(s: Sys, r: Sys, l: nat, t: Task, ts: seq<Task>)
    requires l < |s.loops|
  {
    && Grows(s, r) && Sum(ts) < Weight(t)
    && r.loops[l].agenda == ts + s.loops[l].agenda
  }

  lemma PrependShape(s: Sys, l: nat, ts: seq<Task>)
    requires l < |s.loops|
    ensures Grows(s, Prepend(s, l, ts)) && Prepend(s, l, ts).loops[l].agenda == ts + s.loops[l].agenda
    ensures Prepend(s, l, ts).conns == s.conns
  {
  }

  lemma PushShape(s: Sys, k: nat, t: Task)
    requires k < |s.loops|
    ensures SameAgendas(s, Push(s, k, t)) && Push(s, k, t).conns == s.conns
    ensures t in Push(s, k, t).loops[k].queue
  {
  }

  lemma GrowsOn(s: Sys, r: Sys, u: Sys)
    requires Grows(s, r) && Grows(r, u)
    ensures Grows(s, u)
  {
    forall c | 0 <= c < |s.conns|
      ensures SameConn(s.conns[c], u.conns[c])
    {
      assert SameConn(s.conns[c], r.conns[c]) && SameConn(r.conns[c], u.conns[c]);
    }
    forall m | 0 <= m < |s.loops|
      ensures LoopGrows(s.loops[m], u.loops[m])
    {
      assert LoopGrows(s.loops[m], r.loops[m]) && LoopGrows(r.loops[m], u.loops[m]);
    }
  }

  lemma OnwardsOn(s: Sys, r: Sys, u: Sys)
    requires Onwards(s, r) && Onwards(r, u)
    ensures Onwards(s, u)
  {
    forall c | 0 <= c < |s.conns|
      ensures SameConn(s.conns[c], u.conns[c])
    {
      assert SameConn(s.conns[c], r.conns[c]) && SameConn(r.conns[c], u.conns[c]);
    }
  }

  /** Steps put in front after a change that leaves agendas alone. */
  lemma ThenPrepend(s: Sys, r: Sys, l: nat, t: Task, ts: seq<Task>)
    requires l < |s.loops| && SameAgendas(s, r) && Sum(ts) < Weight(t)
    ensures Does(s, Prepend(r, l, ts), l, t, ts)
  {
    PrependShape(r, l, ts);
    GrowsOn(s, r, Prepend(r, l, ts));
  }

  lemma ThenNothing(s: Sys, r: Sys, l: nat, t: Task)
    requires l < |s.loops| && SameAgendas(s, r)
    ensures Does(s, r, l, t, [])
  {
    assert [] + s.loops[l].agenda == s.loops[l].agenda;
  }

  lemma SameOn(s: Sys, r: Sys, u: Sys)
    requires SameAgendas(s, r) && SameAgendas(r, u)
    ensures SameAgendas(s, u)
  {
    GrowsOn(s, r, u);
  }

  lemma SameSys(s: Sys, r: Sys)
    requires r.loops == s.loops && r.conns == s.conns
    ensures SameAgendas(s, r)
  {
  }

  /** A change of connection `c` followed by a call on its poller. */
  lemma SetWatchShape(s: Sys, l: nat, c: nat, e: Ent, op: Op)
    requires l < |s.loops| && c < |s.conns| && SameConn(s.conns[c], e)
    ensures var r := Watch(SetEnt(s, c, e), l, op);
            SameAgendas(s, r) && r.conns == s.conns[c := e]
  {
    SetEntShape(s, c, e);
    WatchShape(SetEnt(s, c, e), l, op);
    SameOn(s, SetEnt(s, c, e), Watch(SetEnt(s, c, e), l, op));
  }

  // ---------------------------------------------------------------------------
  // The shape of each task that does not abort, and the milestone it adds

  lemma EstablishShape(s: Sys, l: nat, c: nat)
    requires l < |s.loops| && c < |s.conns| && !DoEstablish(s, l, c).aborted
    ensures var r := DoEstablish(s, l, c);
            Does(s, r, l, RunEstablish(c), [RunCallback]) && |r.conns[c].hist| > |s.conns[c].hist|
  {
    var e := s.conns[c];
    var s1 := Watch(s, l, Add(e.fd, c, e.conn.events));
    WatchShape(s, l, Add(e.fd, c, e.conn.events));
    var e1 := e.(conn := AfterEstablish(e.conn), hist := e.hist + [Established]);
    SetWatchShape(s1, l, c, e1, Update(e.fd, c, e1.conn.events));
    var s2 := Watch(SetEnt(s1, c, e1), l, Update(e.fd, c, e1.conn.events));
    SameOn(s, s1, s2);
    ThenPrepend(s, s2, l, RunEstablish(c), [RunCallback]);
    hide SameAgendas, Does, Watch;
    assert DoEstablish(s, l, c) == Prepend(s2, l, [RunCallback]);
  }

  lemma HandleCloseShape(s: Sys, l: nat, c: nat, t: Task)
    requires l < |s.loops| && c < |s.conns| && !DoHandleClose(s, l, c).aborted && (t.RunClose? || t.RunRead?)
    ensures var r := DoHandleClose(s, l, c);
            Does(s, r, l, t, [RunCallback, RunCloseCallback(c)]) && |r.conns[c].hist| > |s.conns[c].hist|
  {
    var e := s.conns[c];
    var e1 := e.(conn := AfterClose(e.conn), hist := e.hist + [HandledClose]);
    SetWatchShape(s, l, c, e1, Update(e.fd, c, e1.conn.events));
    var s1 := Watch(SetEnt(s, c, e1), l, Update(e.fd, c, e1.conn.events));
    var ts := [RunCallback, RunCloseCallback(c)];
    SumTwo(RunCallback, RunCloseCallback(c));
    ThenPrepend(s, s1, l, t, ts);
    hide SameAgendas, Does, Watch;
    assert DoHandleClose(s, l, c) == Prepend(s1, l, ts);
  }

  lemma RemoveShape(s: Sys, l: nat, c: nat)
    requires l < |s.loops| && c < |s.conns| && s.conns[c].io < |s.loops| && !DoRemove(s, l, c).aborted
    ensures var r := DoRemove(s, l, c);
            Does(s, r, l, RunRemove(c), []) && |r.conns[c].hist| > |s.conns[c].hist|
  {
    var e := s.conns[c];
    var s1 := s.(listed := s.listed - {c});
    SameSys(s, s1);
    var e1 := e.(hist := e.hist + [Unlisted]);
    SetEntShape(s1, c, e1);
    var s2 := SetEnt(s1, c, e1);
    SameOn(s, s1, s2);
    PushShape(s2, e.io, RunDestroy(c));
    SameOn(s, s2, Push(s2, e.io, RunDestroy(c)));
    ThenNothing(s, Push(s2, e.io, RunDestroy(c)), l, RunRemove(c));
  }

  lemma DestroyShape(s: Sys, l: nat, c: nat) returns (ts: seq<Task>)
    requires l < |s.loops| && c < |s.conns| && !DoDestroy(s, l, c).aborted
    ensures var r := DoDestroy(s, l, c);
            Does(s, r, l, RunDestroy(c), ts) && |r.conns[c].hist| > |s.conns[c].hist|
  {
    var e := s.conns[c];
    var e1 := e.(hist := e.hist + [Destroyed]);
    SetEntShape(s, c, e1);
    var s1 := SetEnt(s, c, e1);
    if e.conn.state == Connected {
      ChangeShape(s1, l, c, AfterClose(e.conn));
      var s2 := Change(s1, l, c, AfterClose(e.conn));
      SameOn(s, s1, s2);
      ts := [RunCallback, RunUnregister(c)];
      SumTwo(RunCallback, RunUnregister(c));
      ThenPrepend(s, s2, l, RunDestroy(c), ts);
      hide SameAgendas, Does, Change;
      assert DoDestroy(s, l, c) == Prepend(s2, l, ts);
    } else {
      WatchShape(s1, l, Remove(e.fd, c, e.conn.events));
      var s2 := Watch(s1, l, Remove(e.fd, c, e.conn.events));
      SameOn(s, s1, s2);
      ts := [];
      ThenNothing(s, s2, l, RunDestroy(c));
    }
  }

  /** Sends, shutdowns and writes add nothing to the agenda. */
  lemma ChangeDoes(s: Sys, l: nat, c: nat, conn: Conn, t: Task)
    requires l < |s.loops| && c < |s.conns|
    ensures Does(s, Change(s, l, c, conn), l, t, [])
    ensures Does(s, Push(Change(s, l, c, conn), l, RunWriteComplete(c)), l, t, [])
  {
    ChangeShape(s, l, c, conn);
    var s1 := Change(s, l, c, conn);
    ThenNothing(s, s1, l, t);
    PushShape(s1, l, RunWriteComplete(c));
    SameOn(s, s1, Push(s1, l, RunWriteComplete(c)));
    ThenNothing(s, Push(s1, l, RunWriteComplete(c)), l, t);
  }

  lemma DoTaskShape(s: Sys, l: nat, t: Task, n: int) returns (ts: seq<Task>)
    requires l < |s.loops| && Names(s, t) && (t.RunWrite? ==> WriteResult(s.conns[t.c].conn, n))
    requires !s.aborted && !DoTask(s, l, t, n).aborted && InPhase(s.loops[l].phase, t)
    ensures Does(s, DoTask(s, l, t, n), l, t, ts)
  {
    hide Does, Change, DoEstablish, DoHandleClose, DoRemove, DoDestroy;
    SameSys(s, s);
    ThenNothing(s, s, l, t);
    ts := [];
    match t
    case RunEstablish(c) => EstablishShape(s, l, c); ts := [RunCallback];
    case RunCloseCallback(c) =>
      if l == 0 {
        ts := [RunRemove(c)];
        ThenPrepend(s, s, l, t, ts);
      } else {
        PushShape(s, 0, RunRemove(c));
        ThenNothing(s, Push(s, 0, RunRemove(c)), l, t);
      }
    case RunRemove(c) => RemoveShape(s, l, c);
    case RunDestroy(c) => ts := DestroyShape(s, l, c);
    case RunUnregister(c) =>
      WatchShape(s, l, Remove(s.conns[c].fd, c, s.conns[c].conn.events));
      ThenNothing(s, DoTask(s, l, t, n), l, t);
    case RunClose(c) =>
      if Live(s.conns[c].conn) {
        HandleCloseShape(s, l, c, t);
        ts := [RunCallback, RunCloseCallback(c)];
      }
    case RunRead(c) =>
      if n == 0 {
        HandleCloseShape(s, l, c, t);
        ts := [RunCallback, RunCloseCallback(c)];
      } else if n > 0 {
        ts := [RunCallback];
        ThenPrepend(s, s, l, t, ts);
      }
    case RunCloseLater(c) =>
      PushShape(s, l, RunClose(c));
      ThenNothing(s, Push(s, l, RunClose(c)), l, t);
    case RunSend(c, msg) => ChangeDoes(s, l, c, AfterSend(s.conns[c].conn, msg), t);
    case RunShutdown(c) => ChangeDoes(s, l, c, AfterShutdown(s.conns[c].conn), t);
    case RunWriteComplete(c) =>
      ts := [RunCallback];
      ThenPrepend(s, s, l, t, ts);
    case RunWrite(c) => ChangeDoes(s, l, c, AfterWrite(s.conns[c].conn, n), t);
    case RunCallback =>
    case RunAccept =>
    case RunWakeup => ThenNothing(s, SetCounter(s, l, 0, s.loops[l].owed), l, t);
  }

  // ---------------------------------------------------------------------------
  // No wakeup is lost

  /** A loop that is about to poll with something queued is roused, or will be. */
  predicate LoopRoused(a: Loop) {
    a.phase == Tasks && a.queue != [] ==> a.counter > 0 || a.owed > 0
  }

  ghost predicate WakeOk(s: Sys) {
    forall l :: 0 <= l < |s.loops| ==> LoopRoused(s.loops[l])
  }

  lemma GrowsRoused(s: Sys, r: Sys)
    requires WakeOk(s) && LoopsGrow(s, r)
    ensures WakeOk(r)
  {
    forall m | 0 <= m < |r.loops|
      ensures LoopRoused(r.loops[m])
    {
      assert LoopRoused(s.loops[m]) && LoopGrows(s.loops[m], r.loops[m]);
    }
  }

  /** One step of a loop, seen from its agenda. */
  lemma ExecDoes(s: Sys, l: nat, n: int) returns (r: Sys, ts: seq<Task>)
    requires Inv(s) && Enabled(s, Exec(l, n))
    ensures var t := s.loops[l].agenda[0];
            && r == Next(s, Exec(l, n)) && Inv(r)
            && Names(s, t) && r == DoTask(Pop(s, l), l, t, n)
            && Grows(s, r) && Sum(ts) < Weight(t) && r.loops[l].agenda == ts + s.loops[l].agenda[1..]
  {
    var t := s.loops[l].agenda[0];
    assert AgendaOk(s, l, t);
    assert Names(s, t) by {
      if !t.RunCallback? && !t.RunAccept? && !t.RunWakeup? { assert EntOk(s, t.c); }
    }
    r := Next(s, Exec(l, n));
    StepKeeps(s, Exec(l, n));
    assert !r.aborted && !s.aborted;
    hide Inv, DoTask;
    ts := DoTaskShape(Pop(s, l), l, t, n);
    assert Grows(s, Pop(s, l));
    GrowsOn(s, Pop(s, l), r);
  }

  lemma CallGrows(s: Sys, from: Option<nat>, call: Call)
    requires call.c < |s.conns| && s.conns[call.c].io < |s.loops|
    ensures LoopsGrow(s, DoCall(s, from, call))
  {
    var io, c := s.conns[call.c].io, call.c;
    hide Change;
    match call
    case CallSend(_, msg) =>
      ChangeShape(s, io, c, AfterSend(s.conns[c].conn, msg));
      PushShape(s, io, RunSend(c, msg));
    case CallShutdown(_) =>
      ChangeShape(s, io, c, AfterShutdown(s.conns[c].conn));
      PushShape(s, io, RunShutdown(c));
    case CallClose(_) => PushShape(s, io, RunClose(c));
    case CallCloseInNextLoop(_) => PushShape(s, io, RunCloseLater(c));
  }

  /** Every step of every loop and thread keeps a queued task from being slept on. */
  lemma WakeStep(s: Sys, ch: Choice)
    requires Inv(s) && WakeOk(s) && Enabled(s, ch)
    ensures WakeOk(Next(s, ch))
  {
    hide DoTask, DoCall;
    match ch
    case Exec(l, n) =>
      var r, ts := ExecDoes(s, l, n);
      GrowsRoused(s, r);
    case Accepts(l, fd, io) =>
      var s1 := s.(conns := s.conns + [Ent(io, fd, true, NEW_CONN, [])], listed := s.listed + {|s.conns|});
      PrependShape(s1, 0, [RunEstablish(|s.conns|)]);
      PushShape(s1, io, RunEstablish(|s.conns|));
      assert LoopsGrow(s, Next(s, ch));
      GrowsRoused(s, Next(s, ch));
    case Calls(l, call) =>
      assert EntOk(s, call.c);
      CallGrows(s, Some(l), call);
      GrowsRoused(s, Next(s, ch));
    case ThreadCalls(call) =>
      assert EntOk(s, call.c);
      CallGrows(s, None, call);
      GrowsRoused(s, Next(s, ch));
    case UserTask(k) =>
      PushShape(s, k, RunCallback);
      GrowsRoused(s, Next(s, ch));
    case _ =>
  }

  ghost predicate Good(s: Sys) {
    Inv(s) && WakeOk(s)
  }

  lemma {:induction false} RunStaysGood(s: Sys, chs: seq<Choice>)
    requires Good(s) && RunOk(s, chs)
    ensures Good(RunSys(s, chs))
    decreases |chs|
  {
    if chs != [] {
      StepKeeps(s, chs[0]);
      WakeStep(s, chs[0]);
      hide Inv, WakeOk, Enabled, Next;
      RunStaysGood(Next(s, chs[0]), chs[1..]);
    }
  }

  /** A step of the run so far. */
  lemma Step(s: Sys, r: Sys, ch: Choice) returns (u: Sys)
    requires Leads(s, r) && Good(r) && Enabled(r, ch) && !TimesOut(ch)
    ensures u == Next(r, ch) && Leads(s, u) && Good(u)
  {
    hide Enabled, Next, Inv, Leads;
    u := Next(r, ch);
    LeadsStep(r, ch);
    LeadsOn(s, r, u);
    StepKeeps(r, ch);
    WakeStep(r, ch);
  }

  // ---------------------------------------------------------------------------
  // A loop works its agenda down

  /** A result that lets the next step go ahead: reads and writes fail, or have nothing to write. */
  function Result(s: Sys, t: Task): int {
    if t.RunWrite? && t.c < |s.conns| && s.conns[t.c].conn.output == "" then 0 else -1
  }

  /** The loop's next step, with that result. */
  lemma ExecShape(s: Sys, l: nat) returns (r: Sys, ts: seq<Task>)
    requires Good(s) && l < |s.loops| && s.loops[l].agenda != []
    ensures var t := s.loops[l].agenda[0];
            && Enabled(s, Exec(l, Result(s, t))) && r == Next(s, Exec(l, Result(s, t))) && Good(r)
            && Names(s, t) && r == DoTask(Pop(s, l), l, t, Result(s, t))
            && Grows(s, r) && Sum(ts) < Weight(t) && r.loops[l].agenda == ts + s.loops[l].agenda[1..]
  {
    var n := Result(s, s.loops[l].agenda[0]);
    assert !s.aborted;
    r, ts := ExecDoes(s, l, n);
    WakeStep(s, Exec(l, n));
  }

  /** The loop does the first steps of its agenda, with all they cause, down to `rest`. */
  lemma {:induction false} WorkDown(s: Sys, l: nat, first: seq<Task>, rest: seq<Task>) returns (r: Sys)
    requires Good(s) && l < |s.loops| && s.loops[l].agenda == first + rest
    ensures Leads(s, r) && Good(r) && Grows(s, r) && r.loops[l].agenda == rest
    decreases Sum(first)
  {
    hide Good, Leads, Enabled, Next, DoTask;
    r := s;
    LeadsNowhere(s);
    if first == [] {
      assert first + rest == rest;
      assert Grows(s, s);
    } else {
      var u, ts := ExecShape(s, l);
      var n := Result(s, first[0]);
      assert s.loops[l].agenda[0] == first[0] && s.loops[l].agenda[1..] == first[1..] + rest;
      LeadsStep(s, Exec(l, n));
      SumAppends(ts, first[1..]);
      assert u.loops[l].agenda == (ts + first[1..]) + rest;
      r := WorkDown(u, l, ts + first[1..], rest);
      LeadsOn(s, u, r);
      GrowsOn(s, u, r);
    }
  }

  /** The loop comes to the point where its agenda is empty and its tasks are taken. */
  lemma ToTasks(s: Sys, l: nat) returns (r: Sys)
    requires Good(s) && l < |s.loops|
    ensures Leads(s, r) && Good(r) && Onwards(s, r) && r.loops[l].phase == Tasks
    ensures s.loops[l].queue <= r.loops[l].agenda
  {
    var a := s.loops[l].agenda;
    assert a + [] == a;
    r := WorkDown(s, l, a, []);
    assert LoopGrows(s.loops[l], r.loops[l]);
    if r.loops[l].phase == Tasks {
      if r.loops[l].queue == [] { return; }
      r := Wakes(s, r, l);
    }
    var u := Step(s, r, Swap(l));
    assert Onwards(r, u);
    OnwardsOn(s, r, u);
    r := u;
  }

  /** A loop about to poll with something queued is woken up: the write that is owed is made if
      need be, the poll reports the eventfd, and it is read. */
  lemma Wakes(s: Sys, r: Sys, l: nat) returns (u: Sys)
    requires Leads(s, r) && Good(r) && Onwards(s, r) && l < |r.loops|
    requires r.loops[l].phase == Tasks && r.loops[l].agenda == [] && r.loops[l].queue != []
    ensures Leads(s, u) && Good(u) && Onwards(s, u) && u.loops[l].phase == Dispatch && u.loops[l].agenda == []
    ensures r.loops[l].queue <= u.loops[l].queue
  {
    hide Leads;
    assert LoopRoused(r.loops[l]) && !r.aborted;
    u := r;
    if r.loops[l].counter == 0 {
      u := Step(s, r, Wakeup(l));
      assert Onwards(r, u);
    }
    var v := Step(s, u, PollReturns(l, [WakeEvent]));
    var kernel := u.loops[l].poller.kernel;
    assert [WakeEvent][1..] == [] && Handlers(kernel, [WakeEvent]) == [RunWakeup] + Handlers(kernel, []) == [RunWakeup];
    assert Onwards(r, v);
    OnwardsOn(s, r, v);
    assert [RunWakeup] + [] == [RunWakeup];
    u := WorkDown(v, l, [RunWakeup], []);
    assert LoopGrows(v.loops[l], u.loops[l]);
    LeadsOn(s, v, u);
    OnwardsOn(s, v, u);
  }

  ghost predicate IsWaiting(s: Sys, l: nat, t: Task) {
    l < |s.loops| && (t in s.loops[l].agenda || t in s.loops[l].queue)
  }

  /** A waiting step comes to the head of its loop's agenda. */
  lemma AtHead(s: Sys, l: nat, t: Task) returns (r: Sys)
    requires Good(s) && IsWaiting(s, l, t)
    ensures Leads(s, r) && Good(r) && Onwards(s, r) && l < |r.loops| && r.loops[l].agenda != [] && r.loops[l].agenda[0] == t
  {
    hide Good, Leads;
    r := s;
    LeadsNowhere(s);
    assert Onwards(s, s);
    if t !in s.loops[l].agenda {
      r := ToTasks(s, l);
      assert t in r.loops[l].agenda;
    }
    var a := r.loops[l].agenda;
    var i :| 0 <= i < |a| && a[i] == t;
    assert a == a[..i] + a[i..];
    var u := WorkDown(r, l, a[..i], a[i..]);
    LeadsOn(s, r, u);
    OnwardsOn(s, r, u);
    r := u;
  }

  // ---------------------------------------------------------------------------
  // A connection moves on

  /** `r` is a continuation of `s` in which connection `c` has passed a further milestone. */
  ghost predicate MovesOnTo(s: Sys, r: Sys, c: nat)
    requires c < |s.conns|
  {
    Leads(s, r) && Good(r) && Onwards(s, r) && |r.conns[c].hist| > |s.conns[c].hist|
  }

  /** A waiting step runs that adds a milestone to `c`, if nothing else did before. */
  lemma RunStep(s: Sys, l: nat, t: Task, c: nat) returns (r: Sys)
    requires Good(s) && IsWaiting(s, l, t) && c < |s.conns|
    requires t in {RunEstablish(c), RunClose(c), RunRemove(c), RunDestroy(c)}
    requires t == RunClose(c) ==> |s.conns[c].hist| == 1
    ensures MovesOnTo(s, r, c)
  {
    hide Leads;
    r := AtHead(s, l, t);
    if |r.conns[c].hist| == |s.conns[c].hist| {
      assert EntOk(r, c);
      var u, ts := ExecShape(r, l);
      TaskAdds(r, l, t, c, u);
      LeadsStep(r, Exec(l, Result(r, t)));
      LeadsOn(s, r, u);
      OnwardsOn(s, r, u);
      r := u;
    }
  }

  lemma TaskAdds(s: Sys, l: nat, t: Task, c: nat, r: Sys)
    requires l < |s.loops| && c < |s.conns| && s.loops[l].agenda != [] && Names(s, t) && !r.aborted
    requires t in {RunEstablish(c), RunClose(c), RunRemove(c), RunDestroy(c)} && (t == RunClose(c) ==> Live(s.conns[c].conn))
    requires r == DoTask(Pop(s, l), l, t, Result(s, t)) && |r.conns| == |s.conns|
    ensures |r.conns[c].hist| > |s.conns[c].hist|
  {
    hide DoEstablish, DoHandleClose, DoRemove, DoDestroy;
    var p := Pop(s, l);
    match t
    case RunEstablish(_) => EstablishShape(p, l, c);
    case RunClose(_) => HandleCloseShape(p, l, c, t);
    case RunRemove(_) => RemoveShape(p, l, c);
    case RunDestroy(_) => var ts := DestroyShape(p, l, c);
    case _ =>
  }

  lemma Advances(s: Sys, c: nat) returns (r: Sys)
    requires Good(s) && c < |s.conns| && |s.conns[c].hist| < 4
    ensures MovesOnTo(s, r, c)
  {
    assert EntOk(s, c);
    var io, k := s.conns[c].io, |s.conns[c].hist|;
    assert TokensOk(s, c, io) && CloseTokenOk(s, c);
    if k == 0 {
      assert IsWaiting(s, io, RunEstablish(c));
      r := RunStep(s, io, RunEstablish(c), c);
    } else if k == 1 {
      var u := Closes(s, c);
      r := RunStep(u, io, RunClose(c), c);
      LeadsOn(s, u, r);
      OnwardsOn(s, u, r);
    } else if k == 3 {
      assert IsWaiting(s, io, RunDestroy(c));
      r := RunStep(s, io, RunDestroy(c), c);
    } else if IsWaiting(s, 0, RunRemove(c)) {
      r := RunStep(s, 0, RunRemove(c), c);
    } else {
      assert IsWaiting(s, io, RunCloseCallback(c));
      r := Unlists(s, c);
    }
  }

  /** Another thread closes a live connection. */
  lemma Closes(s: Sys, c: nat) returns (r: Sys)
    requires Good(s) && c < |s.conns| && |s.conns[c].hist| == 1
    ensures Leads(s, r) && Good(r) && Onwards(s, r) && |r.conns[c].hist| == 1 && IsWaiting(r, s.conns[c].io, RunClose(c))
  {
    assert EntOk(s, c);
    LeadsNowhere(s);
    r := Step(s, s, ThreadCalls(CallClose(c)));
    PushShape(s, s.conns[c].io, RunClose(c));
  }

  /** removeConnection hands the connection to the acceptor loop, which unlists it. */
  lemma Unlists(s: Sys, c: nat) returns (r: Sys)
    requires Good(s) && c < |s.conns| && |s.conns[c].hist| == 2 && IsWaiting(s, s.conns[c].io, RunCloseCallback(c))
    ensures MovesOnTo(s, r, c)
  {
    hide Leads;
    var io := s.conns[c].io;
    var t := RunCloseCallback(c);
    r := AtHead(s, io, t);
    if |r.conns[c].hist| == 2 {
      var u, ts := ExecShape(r, io);
      LeadsStep(r, Exec(io, Result(r, t)));
      LeadsOn(s, r, u);
      OnwardsOn(s, r, u);
      assert IsWaiting(u, 0, RunRemove(c));
      r := RunStep(u, 0, RunRemove(c), c);
      LeadsOn(s, u, r);
      OnwardsOn(s, u, r);
    }
  }

  lemma {:induction false} Ends(s: Sys, c: nat) returns (r: Sys)
    requires Good(s) && c < |s.conns|
    ensures Leads(s, r) && Good(r) && Onwards(s, r) && r.conns[c].hist == MILESTONES
    decreases 4 - |s.conns[c].hist|
  {
    assert EntOk(s, c);
    if |s.conns[c].hist| == 4 {
      r := s;
      LeadsNowhere(s);
    } else {
      var u := Advances(s, c);
      assert EntOk(u, c);
      r := Ends(u, c);
      LeadsOn(s, u, r);
      OnwardsOn(s, u, r);
    }
  }

  /** The connections below `n` all come to their end. */
  lemma {:induction false} AllEnd(s: Sys, n: nat) returns (r: Sys)
    requires Good(s) && n <= |s.conns|
    ensures Leads(s, r) && Good(r) && Onwards(s, r)
    ensures forall c :: 0 <= c < n ==> r.conns[c].hist == MILESTONES
    decreases n
  {
    if n == 0 {
      r := s;
      LeadsNowhere(s);
    } else {
      var u := AllEnd(s, n - 1);
      r := Ends(u, n - 1);
      LeadsOn(s, u, r);
      OnwardsOn(s, u, r);
      forall c | 0 <= c < n
        ensures r.conns[c].hist == MILESTONES
      {
        assert EntOk(r, c) && EntOk(u, c);
        assert SameConn(u.conns[c], r.conns[c]);
      }
    }
  }

  ghost predicate Reachable(n: nat, s: Sys) {
    exists chs :: RunOk(Init(n), chs) && s == RunSys(Init(n), chs)
  }

  lemma ReachableGood(n: nat, s: Sys)
    requires n > 0 && Reachable(n, s)
    ensures Good(s)
  {
    var chs :| RunOk(Init(n), chs) && s == RunSys(Init(n), chs);
    InitOk(n);
    RunStaysGood(Init(n), chs);
  }

  /** In every reachable state a loop that is about to poll with something queued has a readable
      eventfd, or some thread still owes it a write. */
  lemma NoTaskIsSleptOn(n: nat, s: Sys, l: nat)
    requires n > 0 && Reachable(n, s) && l < |s.loops|
    requires s.loops[l].phase == Tasks && s.loops[l].agenda == [] && s.loops[l].queue != []
    ensures s.loops[l].counter > 0 || s.loops[l].owed > 0
  {
    ReachableGood(n, s);
    assert LoopRoused(s.loops[l]);
  }

  /** From every reachable state some continuation in which no poll times out takes all
      connections there are through established, handleClose, removeConnectionInLoop and
      connectDestroyed. */
  lemma LivesCanBeCompleted(n: nat, s: Sys)
    requires n > 0 && Reachable(n, s)
    ensures exists r :: Leads(s, r) && AllOver(s, r)
  {
    ReachableGood(n, s);
    var r := AllEnd(s, |s.conns|);
    assert AllOver(s, r);
  }

  predicate AllOver(s: Sys, r: Sys) {
    |r.conns| == |s.conns| && forall c :: 0 <= c < |s.conns| ==> r.conns[c].io == s.conns[c].io && r.conns[c].hist == MILESTONES
  }

  // ---------------------------------------------------------------------------
  // A descriptor is used again

  ghost predicate FreeFd(s: Sys, fd: nat) {
    forall c :: 0 <= c < |s.conns| && s.conns[c].open ==> s.conns[c].fd != fd
  }

  /** A connection is accepted on descriptor `fd` for loop `io`; those before it are kept. */
  lemma Accepted(s: Sys, fd: nat, io: nat) returns (r: Sys)
    requires Good(s) && io < |s.loops| && FreeFd(s, fd)
    ensures Leads(s, r) && Good(r) && |r.loops| == |s.loops| && |r.conns| == |s.conns| + 1
    ensures forall c :: 0 <= c < |s.conns| ==> SameConn(s.conns[c], r.conns[c])
    ensures r.conns[|s.conns|] == Ent(io, fd, true, NEW_CONN, [])
  {
    hide Leads;
    r := ToTasks(s, 0);
    var a := r.loops[0].agenda;
    assert a + [] == a;
    var u := WorkDown(r, 0, a, []);
    assert LoopGrows(r.loops[0], u.loops[0]);
    LeadsOn(s, r, u);
    OnwardsOn(s, r, u);
    r := Step(s, u, PollReturns(0, [AcceptEvent]));
    var kernel := u.loops[0].poller.kernel;
    assert [AcceptEvent][1..] == [] && Handlers(kernel, [AcceptEvent]) == [RunAccept] + Handlers(kernel, []) == [RunAccept];
    assert Onwards(u, r);
    OnwardsOn(s, u, r);
    assert FreeFd(r, fd);
    var last := Step(s, r, Accepts(0, fd, io));
    assert last.conns == r.conns + [Ent(io, fd, true, NEW_CONN, [])];
    r := last;
  }

  predicate Reused(s: Sys, fd: nat, io: nat, io2: nat) {
    && |s.conns| == 2 && s.conns[0].io == io && s.conns[1].io == io2 && s.conns[0].fd == s.conns[1].fd == fd
    && !s.conns[0].open && s.conns[0].hist == MILESTONES && s.conns[1].open && s.conns[1].hist == []
  }

  /** Whatever the number of loops, a connection can live its whole life on any loop `io`,
      handed over by the acceptor loop and back, and its descriptor be accepted again for any
      other loop. */
  lemma DescriptorIsReused(n: nat, fd: nat, io: nat, io2: nat)
    requires io < n && io2 < n
    ensures exists s :: Leads(Init(n), s) && Reused(s, fd, io, io2)
  {
    hide Leads;
    InitOk(n);
    var s := Accepted(Init(n), fd, io);
    var r := Ends(s, 0);
    LeadsOn(Init(n), s, r);
    assert SameConn(s.conns[0], r.conns[0]);
    assert MILESTONES[3] == Destroyed;
    r := Step(Init(n), r, Release(0));
    var u := Accepted(r, fd, io2);
    LeadsOn(Init(n), r, u);
    assert SameConn(r.conns[0], u.conns[0]);
    assert EntOk(u, 0) && u.conns[0].hist == MILESTONES;
    assert Reused(u, fd, io, io2);
  }
}
