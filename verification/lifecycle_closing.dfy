/** What closeInNextLoop is for: between the call and the close lie a whole batch of tasks, a poll
    with its dispatch, and the start of another batch. So every send task queued before the call
    has run, and the output has had a poll to be written in, before the connection is closed.
 */
module LifecycleClosing {
  import opened Options
  import opened Pollers
  import opened Connections
  import opened Lifecycle
  import opened LifecycleSafety
  import opened LifecycleProgress
  import opened LifecycleLaws

  /** A call that closes `c`. */
  predicate ClosesConn(ch: Choice, c: nat) {
    (ch.Calls? || ch.ThreadCalls?) && (ch.call == CallClose(c) || ch.call == CallCloseInNextLoop(c))
  }

  /** The peer closes `c`: a read of it returns 0. */
  predicate ReadsEof(s: Sys, ch: Choice, c: nat) {
    ch.Exec? && ch.l < |s.loops| && s.loops[ch.l].agenda != [] && s.loops[ch.l].agenda[0] == RunRead(c) && ch.n == 0
  }

  /** Nobody else closes `c` along the run. */
  ghost predicate Undisturbed(s: Sys, chs: seq<Choice>, c: nat)
    requires RunOk(s, chs)
    decreases |chs|
  {
    chs != [] ==> !ClosesConn(chs[0], c) && !ReadsEof(s, chs[0], c) && Undisturbed(Next(s, chs[0]), chs[1..], c)
  }

  /** The state before the `i`-th step of a run. */
  ghost function StateAt(s: Sys, chs: seq<Choice>, i: nat): Sys
    requires RunOk(s, chs) && i <= |chs|
    decreases i
  {
    if i == 0 then s else StateAt(Next(s, chs[0]), chs[1..], i - 1)
  }

  predicate IsPoll(ch: Choice, l: nat) { ch.PollReturns? && ch.l == l }

  /** Connection `c` of loop `io` has not been closed. */
  predicate Open(s: Sys, c: nat, io: nat) {
    c < |s.conns| && s.conns[c].io == io < |s.loops| && HandledClose !in s.conns[c].hist
  }

  /** Before the batch: no close waits, and closeInNextLoop's task at most in the queue. */
  predicate BeforeBatch(s: Sys, c: nat, io: nat) {
    && Open(s, c, io) && RunClose(c) !in s.loops[io].agenda && RunClose(c) !in s.loops[io].queue
    && RunCloseLater(c) !in s.loops[io].agenda
  }

  /** In the batch: a close waits at most in the queue. */
  predicate InBatch(s: Sys, c: nat, io: nat) {
    Open(s, c, io) && s.loops[io].phase == Tasks && RunClose(c) !in s.loops[io].agenda
  }

  /** In the dispatch phase after it. */
  predicate AfterPoll(s: Sys, c: nat, io: nat) {
    Open(s, c, io) && s.loops[io].phase == Dispatch
  }

  // ---------------------------------------------------------------------------
  // Single steps

  /** No step but those named puts a close anywhere or closes the connection. */
  ghost predicate Quiet(s: Sys, r: Sys, c: nat, io: nat)
    requires io < |s.loops|
  {
    && Open(r, c, io) && r.loops[io].phase == s.loops[io].phase
    && s.loops[io].queue <= r.loops[io].queue
    && (RunClose(c) in r.loops[io].agenda ==> RunClose(c) in s.loops[io].agenda)
    && (RunCloseLater(c) in r.loops[io].agenda ==> RunCloseLater(c) in s.loops[io].agenda)
    && (RunClose(c) in r.loops[io].queue ==> RunClose(c) in s.loops[io].queue || RunCloseLater(c) in s.loops[io].agenda)
  }

  lemma ExecQuiet(s: Sys, l: nat, n: int, c: nat, io: nat)
    requires Good(s) && Open(s, c, io) && Enabled(s, Exec(l, n)) && !ReadsEof(s, Exec(l, n), c)
    requires s.loops[io].phase == Tasks ==> RunClose(c) !in s.loops[io].agenda
    ensures Quiet(s, Next(s, Exec(l, n)), c, io)
  {
    var t := s.loops[l].agenda[0];
    StepIs(s, l, n);
    var r := Next(s, Exec(l, n));
    assert t in s.loops[l].agenda && AgendaOk(s, l, t);
    hide Next, Inv, WakeOk;
    assert t != RunClose(c);
    assert LoopAfter(s.loops[io], r.loops[io], io, l, Follow(s, l, t, n), Queued(s, l, t, n), t.RunWakeup?);
    ExecHist(s, t, n, c);
    FollowsNoClose(s, l, t, n);
    assert Open(r, c, io) by { hide LoopAfter, LoopsAfter, ConnsAfter; }
    hide Effect, LoopAfter, Open, EntAfter, ConnsAfter, Follow, Queued, Names;
    LoopQuiet(s.loops[io], r.loops[io], io, l, Follow(s, l, t, n), Queued(s, l, t, n), t, c);
  }

  /** No task puts a close at the head of an agenda, and only closeInNextLoop's queues one. */
  lemma FollowsNoClose(s: Sys, l: nat, t: Task, n: int)
    requires Names(s, t)
    ensures forall x :: x in Follow(s, l, t, n) ==> !x.RunClose? && !x.RunCloseLater?
    ensures Queued(s, l, t, n).Some? && Queued(s, l, t, n).value.1.RunClose? ==>
              t.RunCloseLater? && Queued(s, l, t, n).value == (l, RunClose(t.c))
  {
  }

  lemma LoopQuiet(a: Loop, b: Loop, m: nat, l: nat, follow: seq<Task>, q: Option<(nat, Task)>, t: Task, c: nat)
    requires LoopAfter(a, b, m, l, follow, q, t.RunWakeup?) && (m == l ==> a.agenda != [] && a.agenda[0] == t)
    requires forall x :: x in follow ==> !x.RunClose? && !x.RunCloseLater?
    requires q.Some? && q.value.1.RunClose? ==> t.RunCloseLater? && q.value == (l, RunClose(t.c))
    ensures b.phase == a.phase && a.queue <= b.queue
    ensures RunClose(c) in b.agenda ==> RunClose(c) in a.agenda
    ensures RunCloseLater(c) in b.agenda ==> RunCloseLater(c) in a.agenda
    ensures RunClose(c) in b.queue ==> RunClose(c) in a.queue || RunCloseLater(c) in a.agenda
  {
    if m == l { assert a.agenda == [t] + a.agenda[1..]; }
  }

  /** Only its own close, or a read of 0, gives a connection the milestone HandledClose. */
  lemma ExecHist(s: Sys, t: Task, n: int, c: nat)
    requires Names(s, t) && c < |s.conns| && HandledClose !in s.conns[c].hist
    requires t != RunClose(c) && (t == RunRead(c) ==> n != 0)
    ensures HandledClose !in ConnsAfter(s, t, n)[c].hist && ConnsAfter(s, t, n)[c].io == s.conns[c].io
  {
  }

  lemma OtherQuiet(s: Sys, ch: Choice, c: nat, io: nat)
    requires Good(s) && Open(s, c, io) && Enabled(s, ch) && !ClosesConn(ch, c)
    requires !ch.Exec? && ch != Swap(io) && !IsPoll(ch, io)
    ensures Quiet(s, Next(s, ch), c, io)
  {
    match ch
    case Calls(l, call) =>
      assert EntOk(s, call.c);
      CallQuiet(s, Some(l), call, c, io);
    case ThreadCalls(call) =>
      assert EntOk(s, call.c);
      CallQuiet(s, None, call, c, io);
    case PollReturns(l, ready) => StepKeeps(s, ch);
    case _ =>
  }

  lemma CallQuiet(s: Sys, from: Option<nat>, call: Call, c: nat, io: nat)
    requires Good(s) && Open(s, c, io) && call.c < |s.conns| && s.conns[call.c].io < |s.loops|
    requires call != CallClose(c) && call != CallCloseInNextLoop(c)
    ensures Quiet(s, DoCall(s, from, call), c, io)
  {
    CallEffect(s, from, call);
    var r := DoCall(s, from, call);
    hide DoCall, Inv;
    if ActsAtOnce(s, from, call) { assert LoopCalm(s.loops[io], r.loops[io]); }
  }

  lemma StepQuiet(s: Sys, ch: Choice, c: nat, io: nat)
    requires Good(s) && Open(s, c, io) && Enabled(s, ch) && !ClosesConn(ch, c) && !ReadsEof(s, ch, c)
    requires ch != Swap(io) && !IsPoll(ch, io)
    requires s.loops[io].phase == Tasks ==> RunClose(c) !in s.loops[io].agenda
    ensures Quiet(s, Next(s, ch), c, io)
  {
    if ch.Exec? { ExecQuiet(s, ch.l, ch.n, c, io); } else { OtherQuiet(s, ch, c, io); }
  }

  /** What each stage leads to. */
  lemma StageStep(s: Sys, ch: Choice, c: nat, io: nat) returns (k: Sys)
    requires Good(s) && Open(s, c, io) && Enabled(s, ch) && !ClosesConn(ch, c) && !ReadsEof(s, ch, c)
    ensures k == Next(s, ch) && Good(k)
    ensures AfterPoll(s, c, io) && ch != Swap(io) ==> AfterPoll(k, c, io)
    ensures InBatch(s, c, io) ==> if IsPoll(ch, io) then AfterPoll(k, c, io) && s.loops[io].agenda == [] else InBatch(k, c, io)
    ensures BeforeBatch(s, c, io) ==>
              if ch == Swap(io) then InBatch(k, c, io) && k.loops[io].agenda == s.loops[io].queue
              else BeforeBatch(k, c, io) && s.loops[io].queue <= k.loops[io].queue
  {
    k := Next(s, ch);
    StepKeeps(s, ch);
    WakeStep(s, ch);
    if IsPoll(ch, io) {
      PollIs(s, ch, c, io);
    } else if ch != Swap(io) && (AfterPoll(s, c, io) || InBatch(s, c, io) || BeforeBatch(s, c, io)) {
      StepQuiet(s, ch, c, io);
      hide Next, Enabled, Inv, WakeOk;
    }
  }

  /** A poll only dispatches. */
  lemma PollIs(s: Sys, ch: Choice, c: nat, io: nat)
    requires Open(s, c, io) && Enabled(s, ch) && IsPoll(ch, io) && !Next(s, ch).aborted
    ensures var k := Next(s, ch);
            && AfterPoll(k, c, io) && s.loops[io].phase == Tasks && s.loops[io].agenda == []
            && k.loops[io].queue == s.loops[io].queue && forall t :: t in k.loops[io].agenda ==> !t.RunClose? && !t.RunCloseLater?
  {
    var k := Next(s, ch);
    forall t | t in k.loops[io].agenda
      ensures !t.RunClose? && !t.RunCloseLater?
    {
      var i := HandlersSound(s.loops[io].poller.kernel, ch.ready, t);
    }
  }

  // ---------------------------------------------------------------------------
  // Runs, from the last stage back

  /** The connection has been closed by the end of the run. */
  ghost predicate ClosedAtEnd(s: Sys, chs: seq<Choice>, c: nat)
    requires RunOk(s, chs)
  {
    c < |RunSys(s, chs).conns| && HandledClose in RunSys(s, chs).conns[c].hist
  }

  /** The run goes on to close a connection that is open, so it has a first step. */
  lemma Tail(s: Sys, chs: seq<Choice>, c: nat, io: nat) returns (k: Sys)
    requires Good(s) && RunOk(s, chs) && Undisturbed(s, chs, c) && Open(s, c, io)
    requires ClosedAtEnd(s, chs, c)
    ensures chs != [] && Enabled(s, chs[0]) && k == Next(s, chs[0]) && Good(k)
    ensures RunOk(k, chs[1..]) && Undisturbed(k, chs[1..], c) && ClosedAtEnd(k, chs[1..], c)
    ensures AfterPoll(s, c, io) && chs[0] != Swap(io) ==> AfterPoll(k, c, io)
    ensures InBatch(s, c, io) ==>
              if IsPoll(chs[0], io) then AfterPoll(k, c, io) && PollsAt(s, chs, 0, io) else InBatch(k, c, io)
    ensures BeforeBatch(s, c, io) ==>
              if chs[0] == Swap(io) then InBatch(k, c, io) && TakesBatchAt(s, chs, 0, io, s.loops[io].queue)
              else BeforeBatch(k, c, io) && s.loops[io].queue <= k.loops[io].queue
    ensures chs[0] == Swap(io) ==> TakesAt(s, chs, 0, c, io)
  {
    k := StageStep(s, chs[0], c, io);
    hide Next, Enabled, Good, Undisturbed;
    assert StateAt(s, chs, 0) == s && (|chs| >= 1 ==> StateAt(s, chs, 1) == k);
    hide StateAt;
  }

  /** `m` is a step at which loop `io` takes its queue, and the connection is open before it. */
  ghost predicate TakesAt(s: Sys, chs: seq<Choice>, m: nat, c: nat, io: nat)
    requires RunOk(s, chs)
  {
    m < |chs| && chs[m] == Swap(io) && Open(StateAt(s, chs, m), c, io)
  }

  lemma {:induction false} FromPoll(s: Sys, chs: seq<Choice>, c: nat, io: nat) returns (m: nat)
    requires Good(s) && RunOk(s, chs) && Undisturbed(s, chs, c) && AfterPoll(s, c, io)
    requires ClosedAtEnd(s, chs, c)
    ensures TakesAt(s, chs, m, c, io)
    decreases |chs|
  {
    var k := Tail(s, chs, c, io);
    if chs[0] == Swap(io) {
      m := 0;
    } else {
      hide Next, Enabled, Good, AfterPoll, TakesAt, RunOk, Undisturbed, ClosedAtEnd;
      m := FromPoll(k, chs[1..], c, io);
      Earlier(s, chs, 0, 0, m, c, io, []);
      m := m + 1;
    }
  }

  /** `j` is a poll of loop `io` with nothing left of its batch. */
  ghost predicate PollsAt(s: Sys, chs: seq<Choice>, j: nat, io: nat)
    requires RunOk(s, chs)
  {
    && j < |chs| && IsPoll(chs[j], io) && io < |StateAt(s, chs, j).loops|
    && StateAt(s, chs, j).loops[io].agenda == []
  }

  /** The first step of such a run, in the batch. */
  lemma BatchTail(s: Sys, chs: seq<Choice>, c: nat, io: nat) returns (k: Sys)
    requires Good(s) && RunOk(s, chs) && Undisturbed(s, chs, c) && InBatch(s, c, io) && ClosedAtEnd(s, chs, c)
    ensures chs != [] && Enabled(s, chs[0]) && k == Next(s, chs[0]) && Good(k)
    ensures RunOk(k, chs[1..]) && Undisturbed(k, chs[1..], c) && ClosedAtEnd(k, chs[1..], c)
    ensures if IsPoll(chs[0], io) then AfterPoll(k, c, io) && PollsAt(s, chs, 0, io) else InBatch(k, c, io)
  {
    k := Tail(s, chs, c, io);
    hide Next, Enabled, Good, StateAt, RunOk, Undisturbed, ClosedAtEnd;
  }

  lemma {:induction false} FromBatch(s: Sys, chs: seq<Choice>, c: nat, io: nat) returns (j: nat, m: nat)
    requires Good(s) && RunOk(s, chs) && Undisturbed(s, chs, c) && InBatch(s, c, io)
    requires ClosedAtEnd(s, chs, c)
    ensures j < m && PollsAt(s, chs, j, io) && TakesAt(s, chs, m, c, io)
    decreases |chs|
  {
    var k := BatchTail(s, chs, c, io);
    hide Next, Enabled, Good, AfterPoll, TakesAt, PollsAt, RunOk, Undisturbed, InBatch, ClosedAtEnd, StateAt;
    if IsPoll(chs[0], io) {
      m := FromPoll(k, chs[1..], c, io);
      Earlier(s, chs, 0, 0, m, c, io, []);
      j, m := 0, m + 1;
    } else {
      j, m := FromBatch(k, chs[1..], c, io);
      Earlier(s, chs, 0, j, m, c, io, []);
      j, m := j + 1, m + 1;
    }
  }

  /** `i` is the first step at which loop `io` takes its queue, which starts with `q`; it becomes
      the batch as it is. */
  ghost predicate TakesBatchAt(s: Sys, chs: seq<Choice>, i: nat, io: nat, q: seq<Task>)
    requires RunOk(s, chs)
  {
    && i < |chs| && chs[i] == Swap(io) && io < |StateAt(s, chs, i).loops|
    && q <= StateAt(s, chs, i).loops[io].queue
    && io < |StateAt(s, chs, i + 1).loops|
    && StateAt(s, chs, i + 1).loops[io].agenda == StateAt(s, chs, i).loops[io].queue
  }

  /** The same steps seen from one step earlier. */
  lemma Earlier(s: Sys, chs: seq<Choice>, i: nat, j: nat, m: nat, c: nat, io: nat, q: seq<Task>)
    requires chs != [] && RunOk(s, chs) && RunOk(Next(s, chs[0]), chs[1..])
    ensures TakesAt(Next(s, chs[0]), chs[1..], m, c, io) ==> TakesAt(s, chs, m + 1, c, io)
    ensures PollsAt(Next(s, chs[0]), chs[1..], j, io) ==> PollsAt(s, chs, j + 1, io)
    ensures TakesBatchAt(Next(s, chs[0]), chs[1..], i, io, q) ==> TakesBatchAt(s, chs, i + 1, io, q)
  {
    hide Next, Enabled, RunOk, Open;
  }

  predicate StartsWith(s: Sys, io: nat, q: seq<Task>) {
    io < |s.loops| && q <= s.loops[io].queue
  }

  /** The first step of such a run, before the batch. */
  lemma CallTail(s: Sys, chs: seq<Choice>, c: nat, io: nat, q: seq<Task>) returns (k: Sys)
    requires Good(s) && RunOk(s, chs) && Undisturbed(s, chs, c) && BeforeBatch(s, c, io) && StartsWith(s, io, q)
    requires ClosedAtEnd(s, chs, c)
    ensures chs != [] && Enabled(s, chs[0]) && k == Next(s, chs[0]) && Good(k)
    ensures RunOk(k, chs[1..]) && Undisturbed(k, chs[1..], c) && ClosedAtEnd(k, chs[1..], c)
    ensures if chs[0] == Swap(io) then InBatch(k, c, io) && TakesBatchAt(s, chs, 0, io, q)
            else BeforeBatch(k, c, io) && StartsWith(k, io, q)
  {
    k := Tail(s, chs, c, io);
    hide Next, Enabled, Good, InBatch, BeforeBatch, StateAt, RunOk, Undisturbed, RunSys;
  }

  lemma {:induction false} FromCall(s: Sys, chs: seq<Choice>, c: nat, io: nat, q: seq<Task>) returns (i: nat, j: nat, m: nat)
    requires Good(s) && RunOk(s, chs) && Undisturbed(s, chs, c) && BeforeBatch(s, c, io) && StartsWith(s, io, q)
    requires ClosedAtEnd(s, chs, c)
    ensures i < j < m && TakesBatchAt(s, chs, i, io, q) && PollsAt(s, chs, j, io) && TakesAt(s, chs, m, c, io)
    decreases |chs|
  {
    var k := CallTail(s, chs, c, io, q);
    hide Next, Enabled, Good, InBatch, BeforeBatch, TakesAt, PollsAt, TakesBatchAt, StateAt, RunOk, Undisturbed, StartsWith;
    if chs[0] == Swap(io) {
      j, m := FromBatch(k, chs[1..], c, io);
      Earlier(s, chs, 0, j, m, c, io, []);
      i, j, m := 0, j + 1, m + 1;
    } else {
      hide ClosedAtEnd;
      i, j, m := FromCall(k, chs[1..], c, io, q);
      Earlier(s, chs, i, j, m, c, io, q);
      i, j, m := i + 1, j + 1, m + 1;
    }
  }

  /** After closeInNextLoop of a connection on which no close and no read waits, every run in which
      nobody else closes it and which closes it has, before that, three steps of its loop: it
      takes the queue with everything queued before the call and closeInNextLoop's task behind
      that; with all of that batch done it polls; and it takes its queue again, the connection
      still being open. */
  lemma CloseComesAfterAPoll(n: nat, s: Sys, ch: Choice, c: nat, chs: seq<Choice>) returns (i: nat, j: nat, m: nat)
    requires n > 0 && Reachable(n, s) && c < |s.conns| && s.conns[c].io < |s.loops| && HandledClose !in s.conns[c].hist
    requires var lp := s.loops[s.conns[c].io];
             forall t :: t in {RunClose(c), RunCloseLater(c), RunRead(c)} ==> t !in lp.agenda && t !in lp.queue
    requires (ch.Calls? || ch.ThreadCalls?) && ch.call == CallCloseInNextLoop(c) && Enabled(s, ch)
    requires RunOk(Next(s, ch), chs) && Undisturbed(Next(s, ch), chs, c)
    requires ClosedAtEnd(Next(s, ch), chs, c)
    ensures var io, k := s.conns[c].io, Next(s, ch);
            && i < j < m
            && TakesBatchAt(k, chs, i, io, s.loops[io].queue + [RunCloseLater(c)])
            && PollsAt(k, chs, j, io) && TakesAt(k, chs, m, c, io)
  {
    ReachableGood(n, s);
    StepKeeps(s, ch);
    WakeStep(s, ch);
    var io, k := s.conns[c].io, Next(s, ch);
    CallEffect(s, if ch.Calls? then Some(ch.l) else None, ch.call);
    assert QueuesOnly(s, k, io, RunCloseLater(c));
    assert BeforeBatch(k, c, io);
    hide Next, Enabled, Inv, WakeOk;
    i, j, m := FromCall(k, chs, c, io, s.loops[io].queue + [RunCloseLater(c)]);
  }
}
