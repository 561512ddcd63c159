/** The event loop's task queue and its eventfd wakeup.

    Any thread pushes a task under the mutex and then, as a second step, adds one to the
    eventfd counter. The loop thread swaps the queue out, runs the batch, blocks in poll,
    dispatches, and starts over. Every interleaving of these steps is a run.
 */
module EventLoops {
  import opened Options

  type Tid = nat

  const LOOP_THREAD: Tid := 0

  /** A queued task. `registers` marks the task that registers the wakeup channel; the rest
      is history: how many dispatch phases were over when it was queued, whether a batch was
      running then, and which task, by position in the queue's history, queued it. */
  datatype Item = Item(registers: bool, pushedAt: nat, inBatch: bool, parent: Option<nat>)

  datatype Pc =
    | NotStarted
    | Check                    // about to test stoplooping_
    | Swap                     // about to take the queue
    | Batch(running: bool)     // in doPendingTasks; `running`: inside a task
    | Blocked                  // in poll
    | Dispatching(wake: bool)  // `wake`: the wakeup channel is active and not yet handled
    | Finished

  datatype Loop = Loop(
    pc: Pc,
    pending: seq<Item>,
    batch: seq<Item>,
    counter: nat,
    registered: bool,
    stop: bool,
    owes: set<Tid>,       // threads between their push or stop and their wakeup write
    dispatches: nat,      // history: completed poll-and-dispatch phases
    queued: seq<Item>,    // history: every task ever pushed
    started: seq<Item>,   // history: every task ever run, in order
    startedAt: seq<nat>,  // history: `dispatches` when it was started
    unroused: bool)       // history: a task raised the stop flag when nothing would rouse the loop

  /** After the constructor: it queued the registration of the wakeup and timer channels,
      with one wakeup write each. */
  const INIT: Loop :=
    var first := Item(true, 0, false, None);
    var other := Item(false, 0, false, None);
    var q := [first, other, other, other];
    Loop(NotStarted, q, [], 4, false, true, {}, 0, q, [], [], false)

  datatype Step =
    | Push(t: Tid)         // queueInLoop, first half
    | Wakeup(t: Tid)       // wakeup(): the write to the eventfd
    | Quit(t: Tid)         // quit() up to its wakeup
    | StartLoop | TestStop | TakeQueue | RunNext | EndTask | EnterPoll
    | LeavePoll(wake: bool) | ReadWakeup | EndDispatch

  /** Inside a task or a channel callback, on the loop thread. */
  predicate UserCode(s: Loop) {
    s.pc == Batch(true) || s.pc.Dispatching?
  }

  /** isInLoopThread: false for everybody once the stop flag is up. */
  predicate InLoopThread(s: Loop, t: Tid) {
    !s.stop && t == LOOP_THREAD
  }

  /** Something will end a poll that is entered now. */
  predicate Roused(s: Loop) {
    s.counter > 0 || s.owes != {}
  }

  predicate Enabled(s: Loop, e: Step) {
    match e
    case Push(t) => t !in s.owes && (t == LOOP_THREAD ==> UserCode(s))
    case Wakeup(t) => t in s.owes
    case Quit(t) => t !in s.owes && (t == LOOP_THREAD ==> UserCode(s))
    case StartLoop => s.pc == NotStarted && s.stop
    case TestStop => s.pc == Check
    case TakeQueue => s.pc == Swap
    case RunNext => LOOP_THREAD !in s.owes && s.pc == Batch(false) && s.batch != []
    case EndTask => LOOP_THREAD !in s.owes && s.pc == Batch(true)
    case EnterPoll => s.pc == Batch(false) && s.batch == []
    case LeavePoll(wake) => s.pc == Blocked && (wake ==> s.registered && s.counter > 0)
    case ReadWakeup => LOOP_THREAD !in s.owes && s.pc == Dispatching(true)
    case EndDispatch => LOOP_THREAD !in s.owes && s.pc == Dispatching(false)
  }

  function NewItem(s: Loop, t: Tid): Item {
    Item(false, s.dispatches, s.pc.Batch?,
         if t == LOOP_THREAD && s.pc == Batch(true) && |s.started| > 0 then Some(|s.started| - 1) else None)
  }

  function Next(s: Loop, e: Step): Loop {
    match e
    case Push(t) =>
      var x := NewItem(s, t);
      s.(pending := s.pending + [x], queued := s.queued + [x], owes := s.owes + {t})
    case Wakeup(t) => s.(counter := s.counter + 1, owes := s.owes - {t})
    case Quit(t) =>
      if InLoopThread(s, t) then s.(stop := true, unroused := s.unroused || (s.pc.Batch? && !Roused(s)))
      else s.(stop := true, owes := s.owes + {t})
    case StartLoop => s.(pc := Check, stop := false)
    case TestStop => s.(pc := if s.stop then Finished else Swap)
    case TakeQueue => s.(pc := Batch(false), batch := s.pending, pending := [])
    case RunNext =>
      if s.batch == [] then s else
      var x := s.batch[0];
      s.(pc := Batch(true), batch := s.batch[1..], registered := s.registered || x.registers,
         started := s.started + [x], startedAt := s.startedAt + [s.dispatches])
    case EndTask => s.(pc := Batch(false))
    case EnterPoll => s.(pc := Blocked)
    case LeavePoll(wake) => s.(pc := Dispatching(wake))
    case ReadWakeup => s.(pc := Dispatching(false), counter := 0)
    case EndDispatch => s.(pc := Check, dispatches := s.dispatches + 1)
  }

  ghost predicate RunOk(s: Loop, es: seq<Step>)
    decreases |es|
  {
    es == [] || (Enabled(s, es[0]) && RunOk(Next(s, es[0]), es[1..]))
  }

  ghost function Run(s: Loop, es: seq<Step>): Loop
    decreases |es|
  {
    if es == [] then s else Run(Next(s, es[0]), es[1..])
  }

  ghost predicate Reachable(s: Loop) {
    exists es :: RunOk(INIT, es) && s == Run(INIT, es)
  }

  // ---------------------------------------------------------------------------
  // The invariant

  /** The wakeup channel is registered, or its registration is the very next task. */
  ghost predicate RegistrationOk(s: Loop) {
    || s.registered
    || (s.pc in {NotStarted, Check, Swap, Finished} && s.pending != [] && s.pending[0].registers)
    || (s.pc == Batch(false) && s.batch != [] && s.batch[0].registers)
  }

  ghost predicate WakeOk(s: Loop) {
    && (s.pc.Batch? || s.pc == Blocked ==> s.pending != [] ==> Roused(s))
    && (s.pc == Swap || s.pc.Batch? || s.pc == Blocked ==> s.stop ==> Roused(s) || s.unroused)
  }

  ghost predicate StampOk(s: Loop, i: nat)
    requires i < |s.queued|
  {
    var x := s.queued[i];
    && x.pushedAt <= s.dispatches
    && (i < |s.started| <= |s.startedAt| ==> x.inBatch ==> x.pushedAt < s.startedAt[i])
    && (|s.started| <= i < |s.started| + |s.batch| ==> x.inBatch ==> x.pushedAt < s.dispatches)
    && (s.pc in {NotStarted, Check, Swap} ==> x.inBatch ==> x.pushedAt < s.dispatches)
    && (x.parent.Some? ==>
          && x.parent.value < i && x.parent.value < |s.started| && x.inBatch
          && (|s.started| <= |s.startedAt| ==> x.pushedAt == s.startedAt[x.parent.value]))
  }

  ghost predicate HistoryOk(s: Loop) {
    && s.queued == s.started + s.batch + s.pending
    && |s.startedAt| == |s.started|
    && (forall i :: 0 <= i < |s.startedAt| ==> s.startedAt[i] <= s.dispatches)
    && (forall i, j :: 0 <= i < j < |s.startedAt| ==> s.startedAt[i] <= s.startedAt[j])
    && (s.pc == Batch(true) ==> |s.started| > 0 && s.startedAt[|s.started| - 1] == s.dispatches)
    && (!s.pc.Batch? ==> s.batch == [])
    && (forall i :: 0 <= i < |s.queued| ==> StampOk(s, i))
  }

  ghost predicate Inv(s: Loop) {
    RegistrationOk(s) && WakeOk(s) && HistoryOk(s)
  }

  /** The history of tasks that were only queued, or of nothing, changes. */
  lemma StampsKept(s: Loop, r: Loop)
    requires HistoryOk(s) && s.queued <= r.queued && |s.startedAt| <= |r.startedAt| && |r.startedAt| == |r.started|
    requires s.started <= r.started && s.startedAt <= r.startedAt && s.dispatches <= r.dispatches
    requires |r.started| + |r.batch| <= |r.queued|
    requires forall i :: |s.started| <= i < |r.started| ==>
               i < |s.started| + |s.batch| && r.startedAt[i] == s.dispatches
    requires |s.started| + |s.batch| < |r.started| + |r.batch| ==> s.pc == Swap
    requires r.pc in {NotStarted, Check, Swap} ==> s.pc in {NotStarted, Check, Swap} || s.dispatches < r.dispatches
    ensures forall i :: 0 <= i < |s.queued| ==> StampOk(r, i)
  {
    forall i | 0 <= i < |s.queued|
      ensures StampOk(r, i)
    {
      assert StampOk(s, i) && r.queued[i] == s.queued[i];
    }
  }

  lemma HistoryPush(s: Loop, t: Tid)
    requires HistoryOk(s) && Enabled(s, Push(t))
    ensures HistoryOk(Next(s, Push(t)))
  {
    var r := Next(s, Push(t));
    assert r.queued == r.started + r.batch + r.pending;
    StampsKept(s, r);
  }

  lemma HistoryRun(s: Loop)
    requires HistoryOk(s) && Enabled(s, RunNext)
    ensures HistoryOk(Next(s, RunNext))
  {
    var r := Next(s, RunNext);
    assert s.batch == [s.batch[0]] + s.batch[1..];
    assert r.queued == r.started + r.batch + r.pending;
    StampsKept(s, r);
  }

  lemma HistoryTake(s: Loop)
    requires HistoryOk(s) && Enabled(s, TakeQueue)
    ensures HistoryOk(Next(s, TakeQueue))
  {
    var r := Next(s, TakeQueue);
    assert r.queued == r.started + r.batch + r.pending;
    StampsKept(s, r);
  }

  lemma HistoryStep(s: Loop, e: Step)
    requires HistoryOk(s) && Enabled(s, e)
    ensures HistoryOk(Next(s, e))
  {
    if e.Push? {
      HistoryPush(s, e.t);
    } else if e.RunNext? {
      HistoryRun(s);
    } else if e.TakeQueue? {
      HistoryTake(s);
    } else {
      StampsKept(s, Next(s, e));
    }
  }

  lemma StepKeeps(s: Loop, e: Step)
    requires Inv(s) && Enabled(s, e)
    ensures Inv(Next(s, e))
  {
    HistoryStep(s, e);
    match e
    case Wakeup(t) => assert Roused(Next(s, e));
    case Push(t) => assert t in Next(s, e).owes;
    case Quit(t) => assert !InLoopThread(s, t) ==> t in Next(s, e).owes;
    case _ =>
  }

  lemma {:induction false} RunKeeps(s: Loop, es: seq<Step>)
    requires Inv(s) && RunOk(s, es)
    ensures Inv(Run(s, es))
    decreases |es|
  {
    if es != [] {
      StepKeeps(s, es[0]);
      RunKeeps(Next(s, es[0]), es[1..]);
    }
  }

  lemma ReachableInv(s: Loop)
    requires Reachable(s)
    ensures Inv(s)
  {
    var es :| RunOk(INIT, es) && s == Run(INIT, es);
    RunKeeps(INIT, es);
  }

  // ---------------------------------------------------------------------------
  // No lost wakeup

  /** A blocked loop has nothing to do, or its poll returns, or some thread is about to make it return. */
  ghost predicate NoLostWakeup(s: Loop) {
    s.pc == Blocked ==>
      (s.pending == [] && !s.stop) || (s.registered && s.counter > 0) || s.owes != {}
  }

  /** A queued task is never slept on, whatever tasks do. */
  lemma NoTaskIsSleptOn(s: Loop)
    requires Reachable(s) && s.pc == Blocked && s.pending != []
    ensures (s.registered && s.counter > 0) || s.owes != {}
  {
    ReachableInv(s);
  }

  /** Neither is a stop request, unless a task raised it when nothing would rouse the loop. */
  lemma NoStopIsSleptOn(s: Loop)
    requires Reachable(s) && !s.unroused
    ensures NoLostWakeup(s)
  {
    ReachableInv(s);
  }

  /** The stop request can no longer be missed: the loop is roused or will not poll again. */
  ghost predicate StopIsSeen(s: Loop) {
    Inv(s) && s.stop && s.pc != NotStarted && (s.pc == Swap || s.pc.Batch? || s.pc == Blocked ==> Roused(s))
  }

  lemma {:induction false} StopStaysSeen(s: Loop, es: seq<Step>)
    requires StopIsSeen(s) && RunOk(s, es)
    ensures StopIsSeen(Run(s, es)) && NoLostWakeup(Run(s, es))
    decreases |es|
  {
    if es != [] {
      var e := es[0];
      StepKeeps(s, e);
      assert e.Push? || e.Quit? || e.Wakeup? ==> Roused(Next(s, e)) by {
        assert e.Push? || (e.Quit? && !InLoopThread(s, e.t)) ==> e.t in Next(s, e).owes;
      }
      hide Inv;
      StopStaysSeen(Next(s, e), es[1..]);
    }
  }

  lemma SleepsOnStop(s: Loop) returns (es: seq<Step>)
    requires s.pc == Batch(true) && s.stop && !Roused(s)
    ensures RunOk(s, es) && !NoLostWakeup(Run(s, es))
  {
    var rest := DrainBatch(Next(s, EndTask));
    RunCons(s, EndTask, rest);
    es := [EndTask] + rest;
  }

  /** When a user callback or task quits its own loop, some continuation sleeps on the stop
      request exactly if the caller is a task, the eventfd counter is zero and no thread owes a
      write: such a quit skips the wakeup, and the loop polls before it tests the flag. */
  lemma NoLostWakeupIff(s: Loop)
    requires Reachable(s) && Enabled(s, Quit(LOOP_THREAD)) && InLoopThread(s, LOOP_THREAD)
    ensures (forall es :: RunOk(Next(s, Quit(LOOP_THREAD)), es) ==> NoLostWakeup(Run(Next(s, Quit(LOOP_THREAD)), es)))
            <==> !(s.pc == Batch(true) && s.counter == 0 && s.owes == {})
  {
    ReachableInv(s);
    var k := Next(s, Quit(LOOP_THREAD));
    StepKeeps(s, Quit(LOOP_THREAD));
    if s.pc == Batch(true) && !Roused(s) {
      var es := SleepsOnStop(k);
      assert RunOk(k, es) && !NoLostWakeup(Run(k, es));
    } else {
      forall es | RunOk(k, es)
        ensures NoLostWakeup(Run(k, es))
      {
        StopStaysSeen(k, es);
      }
    }
  }

  /** The loop runs all of its batch and enters poll. */
  lemma {:induction false} DrainBatch(s: Loop) returns (es: seq<Step>)
    requires s.pc == Batch(false) && s.owes == {}
    ensures RunOk(s, es)
    ensures var r := Run(s, es);
            && r.pc == Blocked && r.batch == [] && r.owes == {}
            && r.pending == s.pending && r.counter == s.counter && r.stop == s.stop
    decreases |s.batch|
  {
    if s.batch != [] {
      var s1 := Next(s, RunNext);
      var rest := DrainBatch(Next(s1, EndTask));
      RunCons(s1, EndTask, rest);
      RunCons(s, RunNext, [EndTask] + rest);
      es := [RunNext] + ([EndTask] + rest);
    } else {
      RunCons(s, EnterPoll, []);
      es := [EnterPoll] + [];
    }
  }

  lemma RunCons(s: Loop, e: Step, es: seq<Step>)
    requires Enabled(s, e) && RunOk(Next(s, e), es)
    ensures RunOk(s, [e] + es) && Run(s, [e] + es) == Run(Next(s, e), es)
  {
    hide Enabled, Next;
    assert ([e] + es)[1..] == es;
  }

  lemma {:induction false} RunAppends(s: Loop, a: seq<Step>, b: seq<Step>)
    requires RunOk(s, a) && RunOk(Run(s, a), b)
    ensures RunOk(s, a + b) && Run(s, a + b) == Run(Run(s, a), b)
    decreases |a|
  {
    hide Enabled, Next;
    if a == [] {
      assert a + b == b;
    } else {
      assert (a + b)[1..] == a[1..] + b;
      RunAppends(Next(s, a[0]), a[1..], b);
    }
  }

  lemma StepAppends(s: Loop, es: seq<Step>, e: Step)
    requires RunOk(s, es) && Enabled(Run(s, es), e)
    ensures RunOk(s, es + [e]) && Run(s, es + [e]) == Next(Run(s, es), e)
  {
    RunCons(Run(s, es), e, []);
    assert [e] + [] == [e];
    RunAppends(s, es, [e]);
  }

  lemma ReachableRun(s: Loop, es: seq<Step>)
    requires Reachable(s) && RunOk(s, es)
    ensures Reachable(Run(s, es))
  {
    var first :| RunOk(INIT, first) && s == Run(INIT, first);
    RunAppends(INIT, first, es);
  }

  lemma ReachableStep(s: Loop, e: Step) returns (r: Loop)
    requires Reachable(s) && Enabled(s, e)
    ensures r == Next(s, e) && Reachable(r)
  {
    StepAppends(s, [], e);
    ReachableRun(s, [] + [e]);
    r := Next(s, e);
  }

  /** A run to the first poll: the wakeup channel is registered by then. */
  lemma FirstPoll() returns (s: Loop)
    ensures Reachable(s) && s.pc == Blocked && s.registered && s.pending == []
    ensures !s.stop && s.counter == 4 && s.owes == {}
  {
    assert RunOk(INIT, []) && Run(INIT, []) == INIT;
    s := ReachableStep(INIT, StartLoop);
    s := ReachableStep(s, TestStop);
    s := ReachableStep(s, TakeQueue);
    var es := DrainBatch(s);
    ReachableRun(s, es);
    s := Run(s, es);
    ReachableInv(s);
  }

  /** A run to a loop about to take one queued task, its wakeup already consumed. */
  lemma WakeupConsumed() returns (s: Loop)
    ensures Reachable(s) && s.pc == Check && |s.pending| == 1
    ensures !s.stop && s.counter == 0 && s.owes == {}
  {
    s := FirstPoll();
    s := ReachableStep(s, LeavePoll(true));
    // another thread queues a task before the wakeup is read
    s := ReachableStep(s, Push(1));
    s := ReachableStep(s, Wakeup(1));
    s := ReachableStep(s, ReadWakeup);
    s := ReachableStep(s, EndDispatch);
  }

  /** A run to a blocked loop with the stop flag up and nothing to rouse it. */
  lemma LostStop() returns (s: Loop)
    ensures Reachable(s) && s.pc == Blocked && s.stop && s.counter == 0 && s.owes == {}
    ensures !NoLostWakeup(s)
  {
    s := WakeupConsumed();
    s := ReachableStep(s, TestStop);
    s := ReachableStep(s, TakeQueue);
    s := ReachableStep(s, RunNext);
    s := ReachableStep(s, Quit(LOOP_THREAD));
    s := ReachableStep(s, EndTask);
    s := ReachableStep(s, EnterPoll);
  }

  // ---------------------------------------------------------------------------
  // Exactly once, in order, in separate batches

  /** The tasks run so far are the first ones queued, in queue order; the rest wait in order. */
  lemma FifoExactlyOnce(s: Loop)
    requires Reachable(s)
    ensures s.started <= s.queued && s.queued[|s.started|..] == s.batch + s.pending
  {
    ReachableInv(s);
    assert s.queued == s.started + (s.batch + s.pending);
  }

  /** A task queued while a batch runs is started only after a further poll-and-dispatch phase. */
  lemma BatchesAreSeparate(s: Loop, i: nat)
    requires Reachable(s) && i < |s.started| && s.started[i].inBatch
    ensures i < |s.startedAt| && s.started[i].pushedAt < s.startedAt[i]
  {
    ReachableInv(s);
    assert s.queued[i] == s.started[i] && StampOk(s, i);
  }

  /** closeInNextLoop: `outer` is a queued task that queues `inner` (closeInLoop) when it runs.
      A task queued before `outer` runs before `inner`, with a full dispatch phase between. */
  lemma SendsGoOutBeforeClose(s: Loop, send: nat, outer: nat, inner: nat)
    requires Reachable(s)
    requires send < outer < |s.queued| && inner < |s.started| && s.started[inner].parent == Some(outer)
    ensures send < outer < inner
    ensures inner < |s.startedAt| && s.startedAt[send] <= s.startedAt[outer] < s.startedAt[inner]
  {
    ReachableInv(s);
    assert s.queued[inner] == s.started[inner] && StampOk(s, inner);
  }

  // ---------------------------------------------------------------------------
  // The loop stops

  ghost function TakeCount(es: seq<Step>): nat {
    if es == [] then 0 else (if es[0] == TakeQueue then 1 else 0) + TakeCount(es[1..])
  }

  /** Once the stop flag is up it stays up, and in every continuation the loop takes no further
      batch, except the one it was about to take. */
  lemma {:induction false} StopEnds(s: Loop, es: seq<Step>)
    requires s.stop && s.pc != NotStarted && RunOk(s, es)
    ensures Run(s, es).stop && Run(s, es).pc != NotStarted && TakeCount(es) <= (if s.pc == Swap then 1 else 0)
    decreases |es|
  {
    if es != [] { StopEnds(Next(s, es[0]), es[1..]); }
  }

  /** The loop goes round: it tests the flag, takes the queue as its batch, runs it to the end,
      polls, dispatches, and tests the flag again; with the flag up it finishes. Other threads
      do not move it. */
  lemma LoopGoesRound(s: Loop, e: Step)
    requires Enabled(s, e)
    ensures var r := Next(s, e);
            && (e == StartLoop ==> r == s.(pc := Check, stop := false))
            && (e == TestStop ==> s.pc == Check && r == s.(pc := if s.stop then Finished else Swap))
            && (e == TakeQueue ==> s.pc == Swap && r == s.(pc := Batch(false), batch := s.pending, pending := []))
            && (e == EnterPoll ==> s.pc == Batch(false) && s.batch == [] && r == s.(pc := Blocked))
            && (e.LeavePoll? ==> s.pc == Blocked && r == s.(pc := Dispatching(e.wake)) && (e.wake ==> s.counter > 0))
            && (e == ReadWakeup ==> r == s.(pc := Dispatching(false), counter := 0))
            && (e == EndDispatch ==> s.pc == Dispatching(false) && r == s.(pc := Check, dispatches := s.dispatches + 1))
            && (e.Push? ==> r.pc == s.pc && r.pending == s.pending + [r.pending[|s.pending|]] && e.t in r.owes && r.counter == s.counter)
            && (e.Wakeup? ==> r == s.(counter := s.counter + 1, owes := s.owes - {e.t}))
            && (e.Quit? ==> r.pc == s.pc && r.stop && r.pending == s.pending && r.counter == s.counter)
            && (e.Quit? && (e.t != LOOP_THREAD || s.stop) ==> e.t in r.owes)
  {
  }

  /** A task is run by taking it off the batch; if it is the registering one, the wakeup channel is
      registered from then on. */
  lemma RunNextIs(s: Loop)
    requires Enabled(s, RunNext)
    ensures var r, x := Next(s, RunNext), s.batch[0];
            && r.pc == Batch(true) && s.batch == [x] + r.batch && r.pending == s.pending
            && r.started == s.started + [x] && r.startedAt == s.startedAt + [s.dispatches]
            && (r.registered <==> s.registered || x.registers)
    ensures Enabled(Next(s, RunNext), EndTask) && Next(Next(s, RunNext), EndTask) == Next(s, RunNext).(pc := Batch(false))
  {
  }

  /** What is remembered of a task when it is queued: the phase it came in, and which task queued it. */
  lemma PushIs(s: Loop, t: Tid)
    requires Reachable(s) && Enabled(s, Push(t))
    ensures var r := Next(s, Push(t));
            exists x :: r.pending == s.pending + [x] && r.queued == s.queued + [x]
                        && x.pushedAt == s.dispatches && (x.inBatch <==> s.pc.Batch?) && !x.registers
                        && (t == LOOP_THREAD && s.pc == Batch(true) ==> |s.started| > 0 && x.parent == Some(|s.started| - 1))
                        && (t != LOOP_THREAD || s.pc != Batch(true) ==> x.parent == None)
  {
    ReachableInv(s);
    var x := NewItem(s, t);
    assert Next(s, Push(t)).pending == s.pending + [x];
  }

  // ---------------------------------------------------------------------------
  // Queued tasks do run, without waiting for a poll to time out

  /** The loop runs, or has not been started yet, and nobody asked it to stop since. */
  predicate Running(s: Loop) {
    s.pc != Finished && (s.stop <==> s.pc == NotStarted)
  }

  /** A step towards running the next queued task; nothing is queued and poll does not time out. */
  ghost function Forward(s: Loop): Step
    requires Inv(s) && s.batch + s.pending != []
  {
    if LOOP_THREAD in s.owes then Wakeup(LOOP_THREAD)
    else match s.pc
      case NotStarted => StartLoop
      case Check => TestStop
      case Swap => TakeQueue
      case Batch(running) => if running then EndTask else if s.batch != [] then RunNext else EnterPoll
      case Blocked => if s.counter > 0 then LeavePoll(true) else var t :| t in s.owes; Wakeup(t)
      case Dispatching(wake) => if wake then ReadWakeup else EndDispatch
      case Finished => TestStop
  }

  /** How many steps the loop is away from starting a task. */
  function Rank(s: Loop): nat {
    (if LOOP_THREAD in s.owes then 10 else 0) +
    match s.pc
    case Batch(running) => if running then 8 else if s.batch != [] then 0 else 7
    case Swap => 1
    case Check => 2
    case NotStarted => 3
    case Dispatching(wake) => if wake then 4 else 3
    case Blocked => if s.counter > 0 then 5 else 6
    case Finished => 0
  }

  lemma ForwardOk(s: Loop)
    requires Inv(s) && Running(s) && s.batch + s.pending != []
    ensures Enabled(s, Forward(s)) && Forward(s) != LeavePoll(false)
    ensures var r := Next(s, Forward(s));
            && Running(r) && r.queued == s.queued
            && (|r.batch + r.pending| < |s.batch + s.pending|
                || (|r.batch + r.pending| == |s.batch + s.pending| && Rank(r) < Rank(s)))
  {
    assert !s.pc.Batch? ==> s.batch == [];
    hide HistoryOk;
  }

  /** Every queued task gets its turn: from every reachable state of a loop that was not asked
      to stop, some continuation without a poll timeout runs all that is queued, in order. */
  lemma QueueCanDrain(s: Loop)
    requires Reachable(s) && Running(s)
    ensures exists es :: RunOk(s, es) && LeavePoll(false) !in es && Run(s, es).started == s.queued
  {
    ReachableInv(s);
    var es := Drains(s);
  }

  lemma {:induction false} Drains(s: Loop) returns (es: seq<Step>)
    requires Inv(s) && Running(s)
    ensures RunOk(s, es) && LeavePoll(false) !in es && Run(s, es).started == s.queued
    decreases |s.batch + s.pending|, Rank(s)
  {
    if s.batch + s.pending == [] {
      assert s.batch == [] && s.pending == [] by {
        assert |s.batch| + |s.pending| == 0;
      }
      es := [];
    } else {
      var e := Forward(s);
      ForwardOk(s);
      StepKeeps(s, e);
      hide Enabled, Next, Inv, Rank, Forward;
      var rest := Drains(Next(s, e));
      RunCons(s, e, rest);
      es := [e] + rest;
    }
  }

  // ---------------------------------------------------------------------------
  // The loop object

  /** A task and the tasks that it queues on its loop when it runs. */
  datatype Task = Task(id: nat, spawns: seq<Task>)

  /** What the constructor queues: adding and updating the wakeup and the timer channel. */
  const REGISTRATIONS := [Task(0, []), Task(1, []), Task(2, []), Task(3, [])]

  function Ids(ts: seq<Task>): seq<nat> {
    if ts == [] then [] else [ts[0].id] + Ids(ts[1..])
  }

  function Spawns(ts: seq<Task>): seq<Task> {
    if ts == [] then [] else ts[0].spawns + Spawns(ts[1..])
  }

  lemma {:induction false} IdsAppend(ts: seq<Task>, t: Task)
    ensures Ids(ts + [t]) == Ids(ts) + [t.id]
  {
    if ts == [] {
      assert ([t])[1..] == [];
    } else {
      assert (ts + [t])[1..] == ts[1..] + [t];
      IdsAppend(ts[1..], t);
    }
  }

  lemma {:induction false} SpawnsAppend(ts: seq<Task>, t: Task)
    ensures Spawns(ts + [t]) == Spawns(ts) + t.spawns
  {
    if ts == [] {
      assert ([t])[1..] == [];
    } else {
      assert (ts + [t])[1..] == ts[1..] + [t];
      SpawnsAppend(ts[1..], t);
      assert ts[0].spawns + (Spawns(ts[1..]) + t.spawns) == (ts[0].spawns + Spawns(ts[1..])) + t.spawns;
    }
  }

  class EventLoop {
    var stoplooping: bool
    var tid: Option<Tid>
    var pendingTasks: seq<Task>
    var counter: nat
    ghost var ran: seq<nat>  // ids of the tasks run so far

    /** The object is at state `s` of the state machine, up to what the tasks are. */
    ghost predicate Matches(s: Loop)
      reads this
    {
      && stoplooping == s.stop && counter == s.counter && (!stoplooping ==> tid == Some(LOOP_THREAD))
      && |pendingTasks| == |s.pending| && |ran| == |s.started|
    }

    constructor ()
      ensures stoplooping && tid == None && pendingTasks == REGISTRATIONS && counter == 4 && ran == []
      ensures Matches(INIT)
    {
      stoplooping, tid, pendingTasks, counter, ran := true, None, [], 0, [];
      new;
      for i := 0 to |REGISTRATIONS|
        invariant pendingTasks == REGISTRATIONS[..i] && counter == i
        invariant stoplooping && tid == None && ran == []
      {
        QueueInLoop(REGISTRATIONS[i]);
      }
    }

    predicate IsInLoopThread(caller: Tid)
      reads this
    {
      !stoplooping && tid == Some(caller)
    }

    /** The start of loop(), up to its first test of the flag. */
    method StartLooping(caller: Tid)
      requires stoplooping
      modifies this`stoplooping, this`tid
      ensures IsInLoopThread(caller)
      ensures forall s :: old(Matches(s)) && caller == LOOP_THREAD ==> Matches(Next(s, StartLoop))
    {
      tid := Some(caller);
      stoplooping := false;
    }

    method DoWakeup()
      modifies this`counter
      ensures counter == old(counter) + 1
    {
      counter := counter + 1;
    }

    method HandleRead()
      modifies this`counter
      ensures counter == 0
      ensures forall s :: old(Matches(s)) ==> Matches(Next(s, ReadWakeup))
    {
      counter := 0;
    }

    method QueueInLoop(t: Task)
      modifies this`pendingTasks, this`counter
      ensures pendingTasks == old(pendingTasks) + [t] && counter == old(counter) + 1
      ensures forall s, c :: old(Matches(s)) ==> Matches(Next(Next(s, Push(c)), Wakeup(c)))
    {
      pendingTasks := pendingTasks + [t];
      DoWakeup();
    }

    /** `s` has just started the task this object is about to run. */
    ghost predicate AtTask(s: Loop)
      reads this
    {
      && stoplooping == s.stop && counter == s.counter && (!stoplooping ==> tid == Some(LOOP_THREAD))
      && |pendingTasks| == |s.pending| && |s.started| == |ran| + 1
    }

    /** Runs a task: it queues its spawns, in order. `s` is the state of the machine inside the
        task, and `es` what it does there. */
    method Execute(t: Task, ghost s: Loop) returns (ghost es: seq<Step>)
      modifies this`pendingTasks, this`counter, this`ran
      ensures ran == old(ran) + [t.id]
      ensures pendingTasks == old(pendingTasks) + t.spawns && counter == old(counter) + |t.spawns|
      ensures InTask(s) && old(AtTask(s)) ==>
                RunOk(s, es) && InTask(Run(s, es)) && Matches(Run(s, es)) && Run(s, es).batch == s.batch
    {
      ran := ran + [t.id];
      es := [];
      for i := 0 to |t.spawns|
        invariant pendingTasks == old(pendingTasks) + t.spawns[..i] && counter == old(counter) + i
        invariant ran == old(ran) + [t.id]
        invariant InTask(s) && old(AtTask(s)) ==>
                    RunOk(s, es) && InTask(Run(s, es)) && Matches(Run(s, es)) && Run(s, es).batch == s.batch
      {
        QueueInLoop(t.spawns[i]);
        if InTask(s) && old(AtTask(s)) {
          StepAppends(s, es, Push(LOOP_THREAD));
          StepAppends(s, es + [Push(LOOP_THREAD)], Wakeup(LOOP_THREAD));
          es := es + [Push(LOOP_THREAD)] + [Wakeup(LOOP_THREAD)];
        }
      }
    }

    method RunInLoop(t: Task, caller: Tid)
      modifies this`pendingTasks, this`counter, this`ran
      ensures if IsInLoopThread(caller)
              then ran == old(ran) + [t.id] && pendingTasks == old(pendingTasks) + t.spawns && counter == old(counter) + |t.spawns|
              else ran == old(ran) && pendingTasks == old(pendingTasks) + [t] && counter == old(counter) + 1
    {
      if IsInLoopThread(caller) {
        ghost var es := Execute(t, INIT);
      } else {
        QueueInLoop(t);
      }
    }

    /** One task of a batch, from its start to its end. */
    method TakeTurn(t: Task, ghost s: Loop, ghost left: nat) returns (ghost es: seq<Step>)
      requires Matches(s) && left > 0 && BetweenTasks(s, left)
      modifies this`pendingTasks, this`counter, this`ran
      ensures ran == old(ran) + [t.id]
      ensures pendingTasks == old(pendingTasks) + t.spawns && counter == old(counter) + |t.spawns|
      ensures RunOk(s, es) && Matches(Run(s, es)) && BetweenTasks(Run(s, es), left - 1)
    {
      StepAppends(s, [], RunNext);
      es := [] + [RunNext];
      ghost var during := Execute(t, Next(s, RunNext));
      hide RunOk, Run;
      RunAppends(s, es, during);
      es := es + during;
      StepAppends(s, es, EndTask);
      es := es + [EndTask];
    }

    /** Runs exactly the tasks queued on entry, in order; what they queue stays for the next
        batch, each with its wakeup. From the swap on, that is the run `es` of the machine. */
    method DoPendingTasks(ghost s: Loop) returns (ghost es: seq<Step>)
      requires Matches(s) && s.pc == Swap && LOOP_THREAD !in s.owes
      modifies this`pendingTasks, this`counter, this`ran
      ensures ran == old(ran) + Ids(old(pendingTasks))
      ensures pendingTasks == Spawns(old(pendingTasks))
      ensures counter == old(counter) + |pendingTasks|
      ensures RunOk(s, es) && Matches(Run(s, es)) && Run(s, es).pc == Batch(false) && Run(s, es).batch == []
    {
      var tasks := pendingTasks;
      pendingTasks := [];
      StepAppends(s, [], TakeQueue);
      es := [] + [TakeQueue];
      hide RunOk, Run;
      for i := 0 to |tasks|
        invariant ran == old(ran) + Ids(tasks[..i])
        invariant pendingTasks == Spawns(tasks[..i])
        invariant counter == old(counter) + |pendingTasks|
        invariant RunOk(s, es) && Matches(Run(s, es)) && BetweenTasks(Run(s, es), |tasks| - i)
      {
        ghost var turn := TakeTurn(tasks[i], Run(s, es), |tasks| - i);
        RunAppends(s, es, turn);
        es := es + turn;
        assert tasks[..i + 1] == tasks[..i] + [tasks[i]];
        IdsAppend(tasks[..i], tasks[i]);
        SpawnsAppend(tasks[..i], tasks[i]);
      }
      assert tasks[..|tasks|] == tasks;
    }

    /** Only a caller outside the loop thread wakes the loop up. */
    method QuitLoop(caller: Tid)
      modifies this`stoplooping, this`counter
      ensures stoplooping
      ensures counter == if old(IsInLoopThread(caller)) then old(counter) else old(counter) + 1
      ensures forall s :: old(Matches(s)) ==>
                Matches(if InLoopThread(s, caller) then Next(s, Quit(caller)) else Next(Next(s, Quit(caller)), Wakeup(caller)))
    {
      if !IsInLoopThread(caller) {
        stoplooping := true;
        DoWakeup();
      } else {
        stoplooping := true;
      }
    }
  }

  /** Inside a task that owes no wakeup write. */
  predicate InTask(s: Loop) {
    s.pc == Batch(true) && LOOP_THREAD !in s.owes
  }

  /** In a batch with `n` tasks left, before the next one. */
  predicate BetweenTasks(s: Loop, n: int) {
    s.pc == Batch(false) && LOOP_THREAD !in s.owes && |s.batch| == n
  }
}
