/** The timer queue: an ordered set of (expiration, timer) pairs, a one-shot timerfd, repeating
    timers, and cancellation that may come while a batch of expired timers is being run.

    Times are microseconds on one clock that never goes back; intervals are whole microseconds.
 */
module Timers {
  /** An element of the std::set: pairs ordered by key, then by timer (standing for its address). */
  datatype Entry = Entry(key: int, id: nat)

  datatype Timer = Timer(expiration: int, interval: nat)

  datatype TimerFd =
    | Disarmed
    | Armed(deadline: int, armedAt: int)
    | Fired(deadline: int, armedAt: int)  // expired, not yet read

  predicate Less(a: Entry, b: Entry) {
    a.key < b.key || (a.key == b.key && a.id < b.id)
  }

  ghost predicate Sorted(ts: seq<Entry>) {
    forall i, j :: 0 <= i < j < |ts| ==> Less(ts[i], ts[j])
  }

  // ---------------------------------------------------------------------------
  // The ordered set

  /** The number of leading entries with key at most `now`: where the sentry would go. */
  function LowerBound(ts: seq<Entry>, now: int): nat {
    if ts == [] || ts[0].key > now then 0 else 1 + LowerBound(ts[1..], now)
  }

  /** getExpired takes exactly the entries that are due, in order, and keeps exactly the others. */
  lemma {:induction false} ExpiredIsExact(ts: seq<Entry>, now: int)
    requires Sorted(ts)
    ensures LowerBound(ts, now) <= |ts|
    ensures forall i :: 0 <= i < |ts| ==> (i < LowerBound(ts, now) <==> ts[i].key <= now)
  {
    if ts != [] && ts[0].key <= now {
      ExpiredIsExact(ts[1..], now);
      forall i | 0 <= i < |ts|
        ensures i < LowerBound(ts, now) <==> ts[i].key <= now
      {
        if i > 0 { assert ts[i] == ts[1..][i - 1]; }
      }
    }
  }

  /** The same, said of the two parts. */
  lemma ExpiredSplits(ts: seq<Entry>, now: int)
    requires Sorted(ts)
    ensures LowerBound(ts, now) <= |ts|
    ensures forall e :: e in ts[..LowerBound(ts, now)] ==> e.key <= now
    ensures forall e :: e in ts[LowerBound(ts, now)..] ==> now < e.key
  {
    ExpiredIsExact(ts, now);
    hide LowerBound, Sorted;
  }

  /** std::set::insert of an entry that is not there. */
  function Insert(ts: seq<Entry>, e: Entry): seq<Entry> {
    if ts == [] || !Less(ts[0], e) then [e] + ts else [ts[0]] + Insert(ts[1..], e)
  }

  lemma SortedTail(ts: seq<Entry>)
    requires Sorted(ts) && ts != []
    ensures Sorted(ts[1..])
    ensures forall x :: x in ts[1..] ==> Less(ts[0], x)
    ensures forall x :: x in ts <==> x == ts[0] || x in ts[1..]
  {
    forall x | x in ts[1..]
      ensures Less(ts[0], x)
    {
      var i :| 0 <= i < |ts| - 1 && ts[1..][i] == x;
      assert Less(ts[0], ts[i + 1]);
    }
    assert ts == [ts[0]] + ts[1..];
  }

  lemma SortedCons(e: Entry, ts: seq<Entry>)
    requires Sorted(ts) && forall x :: x in ts ==> Less(e, x)
    ensures Sorted([e] + ts)
  {
    var r := [e] + ts;
    forall i, j | 0 <= i < j < |r|
      ensures Less(r[i], r[j])
    {
      assert r[j] in ts;
      if i > 0 { assert Less(ts[i - 1], ts[j - 1]); }
    }
  }

  lemma {:induction false} InsertOk(ts: seq<Entry>, e: Entry)
    requires Sorted(ts) && e !in ts
    ensures Sorted(Insert(ts, e))
    ensures forall x :: x in Insert(ts, e) <==> x == e || x in ts
  {
    if ts == [] { return; }
    SortedTail(ts);
    if Less(ts[0], e) {
      InsertOk(ts[1..], e);
      SortedCons(ts[0], Insert(ts[1..], e));
    } else {
      assert ts[0] in ts && Less(e, ts[0]);
      SortedCons(e, ts);
    }
  }

  /** Inserting means splitting at the first entry that is not less. */
  lemma {:induction false} InsertAt(ts: seq<Entry>, e: Entry, p: nat)
    requires p <= |ts| && (forall i :: 0 <= i < p ==> Less(ts[i], e)) && (p < |ts| ==> !Less(ts[p], e))
    ensures Insert(ts, e) == ts[..p] + [e] + ts[p..]
  {
    if p > 0 {
      InsertAt(ts[1..], e, p - 1);
      assert ts[..p] == [ts[0]] + ts[1..][..p - 1] && ts[p..] == ts[1..][p - 1..];
    }
  }

  /** The new entry comes first exactly when it is less than the first one, and the earliest
      key changes exactly when insert says so: a tie on the key can put it first as well. */
  lemma InsertFirst(ts: seq<Entry>, e: Entry)
    requires Sorted(ts) && e !in ts
    ensures Insert(ts, e)[0] == e <==> ts == [] || Less(e, ts[0])
    ensures ts != [] ==> (Insert(ts, e)[0].key != ts[0].key <==> e.key < ts[0].key)
    ensures ts != [] ==> Insert(ts, e)[0].key == if e.key < ts[0].key then e.key else ts[0].key
  {
    if ts != [] { assert ts[0] in ts; }
  }

  function Erase(ts: seq<Entry>, e: Entry): seq<Entry> {
    if ts == [] then [] else if ts[0] == e then ts[1..] else [ts[0]] + Erase(ts[1..], e)
  }

  lemma {:induction false} EraseOk(ts: seq<Entry>, e: Entry)
    requires Sorted(ts)
    ensures Sorted(Erase(ts, e))
    ensures forall x :: x in Erase(ts, e) <==> x in ts && x != e
  {
    if ts != [] {
      SortedTail(ts);
      if ts[0] != e {
        EraseOk(ts[1..], e);
        SortedCons(ts[0], Erase(ts[1..], e));
      }
    }
  }

  // ---------------------------------------------------------------------------
  // Timers and their entries

  /** The set and the Timer objects alive, by id. */
  datatype Store = Store(timers: seq<Entry>, objs: map<nat, Timer>)

  /** Timer::restart and insert for one expired entry; a timer that does not repeat is freed. */
  function Restart(st: Store, e: Entry, now: int): Store {
    if e.id in st.objs && st.objs[e.id].interval > 0 then
      var when := now + st.objs[e.id].interval;
      Store(Insert(st.timers, Entry(when, e.id)), st.objs[e.id := Timer(when, st.objs[e.id].interval)])
    else st.(objs := st.objs - {e.id})
  }

  function RestartAll(st: Store, es: seq<Entry>, now: int): Store
    decreases |es|
  {
    if es == [] then st else RestartAll(Restart(st, es[0], now), es[1..], now)
  }

  /** Entry `e` carries its timer's current expiration. */
  ghost predicate EntryOk(objs: map<nat, Timer>, e: Entry) {
    e.id in objs && objs[e.id].expiration == e.key
  }

  /** Every timer alive is in the set or in the batch `es`, once, under its current expiration. */
  ghost predicate StoreOk(st: Store, es: seq<Entry>) {
    && Sorted(st.timers) && Sorted(es)
    && (forall e :: e in st.timers ==> EntryOk(st.objs, e) && 0 < e.key)
    && (forall e :: e in es ==> EntryOk(st.objs, e) && e !in st.timers)
    && (forall id :: id in st.objs ==>
          Entry(st.objs[id].expiration, id) in st.timers || Entry(st.objs[id].expiration, id) in es)
  }

  /** The timer of the batch's first entry has no other entry. */
  lemma HeadIsAlone(st: Store, es: seq<Entry>)
    requires StoreOk(st, es) && es != []
    ensures EntryOk(st.objs, es[0]) && es[0] !in st.timers && Sorted(es[1..])
    ensures forall x :: x in es <==> x == es[0] || x in es[1..]
    ensures forall x :: x in es[1..] || x in st.timers ==> x.id != es[0].id
  {
    SortedTail(es);
    assert es[0] in es;
    forall x | x in es[1..] || x in st.timers
      ensures x.id != es[0].id
    {
      assert EntryOk(st.objs, x) && x != es[0];
    }
  }

  lemma RestartOk(st: Store, es: seq<Entry>, now: int)
    requires StoreOk(st, es) && es != [] && 0 <= now && es[0].key <= now
    ensures StoreOk(Restart(st, es[0], now), es[1..])
  {
    HeadIsAlone(st, es);
    var e := es[0];
    if st.objs[e.id].interval > 0 {
      var n := Entry(now + st.objs[e.id].interval, e.id);
      assert n !in st.timers;
      InsertOk(st.timers, n);
      RestartRepeats(st, es, n);
    } else {
      RestartFrees(st, es);
    }
  }

  lemma RestartRepeats(st: Store, es: seq<Entry>, n: Entry)
    requires StoreOk(st, es) && es != [] && n.id == es[0].id && 0 < n.key && n !in st.timers
    ensures StoreOk(Store(Insert(st.timers, n), st.objs[n.id := Timer(n.key, st.objs[n.id].interval)]), es[1..])
  {
    HeadIsAlone(st, es);
    InsertOk(st.timers, n);
    var r := Store(Insert(st.timers, n), st.objs[n.id := Timer(n.key, st.objs[n.id].interval)]);
    forall id | id in r.objs
      ensures Entry(r.objs[id].expiration, id) in r.timers || Entry(r.objs[id].expiration, id) in es[1..]
    {
      if id != n.id { assert id in st.objs && Entry(st.objs[id].expiration, id) != es[0]; }
    }
    forall x | x in es[1..]
      ensures EntryOk(r.objs, x) && x !in r.timers
    {
      assert x in es && EntryOk(st.objs, x);
    }
    forall x | x in r.timers
      ensures EntryOk(r.objs, x) && 0 < x.key
    {
      assert x == n || (x in st.timers && EntryOk(st.objs, x));
    }
  }

  lemma RestartFrees(st: Store, es: seq<Entry>)
    requires StoreOk(st, es) && es != []
    ensures StoreOk(st.(objs := st.objs - {es[0].id}), es[1..])
  {
    HeadIsAlone(st, es);
    var r := st.(objs := st.objs - {es[0].id});
    forall x | x in es[1..]
      ensures EntryOk(r.objs, x) && x !in r.timers
    {
      assert x in es && EntryOk(st.objs, x);
    }
    forall id | id in r.objs
      ensures Entry(r.objs[id].expiration, id) in r.timers || Entry(r.objs[id].expiration, id) in es[1..]
    {
      assert id in st.objs && Entry(st.objs[id].expiration, id) != es[0];
    }
    forall x | x in r.timers
      ensures EntryOk(r.objs, x) && 0 < x.key
    {
      assert EntryOk(st.objs, x);
    }
  }

  /** What reset does to timer `id`: repeating ones of the batch get their next expiration,
      others of the batch are freed, the rest is untouched. */
  ghost predicate Restarted(st: Store, es: seq<Entry>, now: int, r: Store, id: nat) {
    && (id in r.objs <==> id in st.objs && (st.objs[id].interval > 0 || Entry(st.objs[id].expiration, id) !in es))
    && (id in r.objs ==>
          r.objs[id] == if Entry(st.objs[id].expiration, id) in es
                        then Timer(now + st.objs[id].interval, st.objs[id].interval) else st.objs[id])
  }

  lemma {:induction false} RestartAllOk(st: Store, es: seq<Entry>, now: int)
    requires StoreOk(st, es) && 0 <= now && forall e :: e in es ==> e.key <= now
    ensures StoreOk(RestartAll(st, es, now), [])
    ensures forall id :: Restarted(st, es, now, RestartAll(st, es, now), id)
    decreases |es|
  {
    if es == [] { return; }
    assert es[0] in es;
    RestartOk(st, es, now);
    HeadIsAlone(st, es);
    var st1 := Restart(st, es[0], now);
    RestartAllOk(st1, es[1..], now);
    var r := RestartAll(st1, es[1..], now);
    forall id
      ensures Restarted(st, es, now, r, id)
    {
      assert Restarted(st1, es[1..], now, r, id);
      if id == es[0].id && id in st1.objs {
        assert Entry(st1.objs[id].expiration, id) !in es[1..];
      }
    }
  }

  // ---------------------------------------------------------------------------
  // The queue as a state machine

  datatype Phase =
    | Idle
    | Handling(now: int, expired: seq<Entry>, next: nat)  // in handleRead; `next`: the timer to run next

  /** History: timer `id` ran at time `at`, when its expiration was `key`. */
  datatype Fire = Fire(id: nat, key: int, at: int)

  datatype Queue = Queue(
    st: Store,
    fd: TimerFd,
    clock: int,
    phase: Phase,
    added: set<nat>,      // history
    oneShot: set<nat>,    // history: added with interval 0
    cancelled: set<nat>,  // history
    fires: seq<Fire>,     // history
    aborted: bool)        // an assert failed

  const EMPTY := Queue(Store([], map[]), Disarmed, 0, Idle, {}, {}, {}, [], false)

  /** Adding and cancelling may come at any time, also from a timer's callback. */
  datatype Step =
    | Tick(now: int)
    | Expire            // the timerfd becomes readable
    | Begin             // handleRead up to getExpired; may be spurious
    | RunOne            // the next expired timer's callback starts
    | End               // reset
    | Add(id: nat, when: int, interval: nat)
    | Cancel(id: nat)

  predicate Enabled(q: Queue, e: Step) {
    match e
    case Tick(now) => q.clock <= now
    case Expire => q.fd.Armed? && q.fd.deadline <= q.clock
    case Begin => q.phase.Idle?
    case RunOne => q.phase.Handling? && q.phase.next < |q.phase.expired|
    case End => q.phase.Handling? && q.phase.next == |q.phase.expired|
    case Add(id, when, _) => id !in q.added && 0 < when
    case Cancel(id) => id in q.added
  }

  /** resetTimerfd: a relative timeout of at least 100 microseconds. */
  function ResetTimerfd(clock: int, when: int): TimerFd {
    var micro := if when - clock < 100 then 100 else when - clock;
    Armed(clock + micro, clock)
  }

  function AfterBegin(q: Queue): Queue {
    var n := LowerBound(q.st.timers, q.clock);
    if n > |q.st.timers| then q.(aborted := true)
    else q.(fd := if q.fd.Fired? then Disarmed else q.fd,
            st := q.st.(timers := q.st.timers[n..]),
            phase := Handling(q.clock, q.st.timers[..n], 0))
  }

  /** The asserts of insert hold while the batch is put back. */
  predicate RestartFresh(st: Store, es: seq<Entry>, now: int)
    decreases |es|
  {
    es != [] ==>
      && (es[0].id in st.objs && st.objs[es[0].id].interval > 0 ==>
            Entry(now + st.objs[es[0].id].interval, es[0].id) !in st.timers)
      && RestartFresh(Restart(st, es[0], now), es[1..], now)
  }

  function AfterEnd(q: Queue): Queue
    requires q.phase.Handling?
  {
    var st := RestartAll(q.st, q.phase.expired, q.phase.now);
    var nextExpire := if st.timers != [] && st.timers[0].id in st.objs then st.objs[st.timers[0].id].expiration else 0;
    q.(st := st, phase := Idle,
       fd := if nextExpire > 0 then ResetTimerfd(q.clock, nextExpire) else q.fd,
       aborted := q.aborted || !RestartFresh(q.st, q.phase.expired, q.phase.now))
  }

  function AfterAdd(q: Queue, id: nat, when: int, interval: nat): Queue {
    var e := Entry(when, id);
    if e in q.st.timers then q.(aborted := true)
    else q.(st := Store(Insert(q.st.timers, e), q.st.objs[id := Timer(when, interval)]),
            fd := if q.st.timers == [] || when < q.st.timers[0].key then ResetTimerfd(q.clock, when) else q.fd,
            added := q.added + {id},
            oneShot := if interval == 0 then q.oneShot + {id} else q.oneShot)
  }

  function CancelIn(st: Store, id: nat): Store {
    if id !in st.objs then st
    else
      var e := Entry(st.objs[id].expiration, id);
      if e in st.timers then Store(Erase(st.timers, e), st.objs - {id})
      else st.(objs := st.objs[id := st.objs[id].(interval := 0)])
  }

  function Next(q: Queue, e: Step): Queue
    requires Enabled(q, e)
  {
    match e
    case Tick(now) => q.(clock := now)
    case Expire => q.(fd := Fired(q.fd.deadline, q.fd.armedAt))
    case Begin => AfterBegin(q)
    case RunOne =>
      var x := q.phase.expired[q.phase.next];
      q.(fires := q.fires + [Fire(x.id, x.key, q.clock)], phase := q.phase.(next := q.phase.next + 1))
    case End => AfterEnd(q)
    case Add(id, when, interval) => AfterAdd(q, id, when, interval)
    case Cancel(id) => q.(st := CancelIn(q.st, id), cancelled := q.cancelled + {id})
  }

  // ---------------------------------------------------------------------------
  // The invariant

  ghost function BatchOf(q: Queue): seq<Entry> {
    if q.phase.Handling? then q.phase.expired else []
  }

  ghost predicate PhaseOk(q: Queue) {
    && 0 <= q.clock
    && (q.phase.Handling? ==>
          && 0 <= q.phase.now <= q.clock && q.phase.next <= |q.phase.expired|
          && (forall e :: e in q.phase.expired ==> e.key <= q.phase.now))
  }

  /** A cancelled timer is out of the set and will not repeat; others stay as they were added. */
  ghost predicate TimerOk(q: Queue, id: nat) {
    && (id in q.st.objs || id in q.cancelled || id in q.oneShot ==> id in q.added)
    && (id in q.st.objs && id in q.cancelled ==>
          q.st.objs[id].interval == 0 && Entry(q.st.objs[id].expiration, id) !in q.st.timers)
    && (id in q.st.objs && id in q.oneShot ==> q.st.objs[id].interval == 0)
    && (id in q.added && id !in q.oneShot && id !in q.cancelled ==> id in q.st.objs && q.st.objs[id].interval > 0)
  }

  function Max(a: int, b: int): int { if a < b then b else a }

  /** Between handlings the timerfd is armed or has fired, and early enough. */
  ghost predicate DeadlineOk(q: Queue) {
    q.phase.Idle? && q.st.timers != [] ==>
      !q.fd.Disarmed? && q.fd.deadline <= Max(q.st.timers[0].key, q.fd.armedAt + 100)
  }

  /** A timer that already ran in this batch. */
  ghost predicate RanInBatch(q: Queue, e: Entry) {
    q.phase.Handling? && q.phase.next <= |q.phase.expired| && e in q.phase.expired[..q.phase.next]
  }

  ghost predicate FiresOk(q: Queue) {
    && (forall i :: 0 <= i < |q.fires| ==> q.fires[i].id in q.added && q.fires[i].key <= q.fires[i].at)
    && (forall i :: 0 <= i < |q.fires| && q.fires[i].id in q.oneShot && q.fires[i].id in q.st.objs ==>
          RanInBatch(q, Entry(q.st.objs[q.fires[i].id].expiration, q.fires[i].id)))
    && (forall i, j :: 0 <= i < j < |q.fires| && q.fires[i].id == q.fires[j].id ==> q.fires[i].id !in q.oneShot)
  }

  ghost predicate Inv(q: Queue) {
    && !q.aborted && PhaseOk(q) && StoreOk(q.st, BatchOf(q)) && DeadlineOk(q) && FiresOk(q)
    && forall id :: TimerOk(q, id)
  }

  lemma AddStoreOk(st: Store, es: seq<Entry>, id: nat, when: int, interval: nat)
    requires StoreOk(st, es) && id !in st.objs && 0 < when
    ensures Entry(when, id) !in st.timers
    ensures StoreOk(Store(Insert(st.timers, Entry(when, id)), st.objs[id := Timer(when, interval)]), es)
  {
    var n := Entry(when, id);
    assert n in st.timers ==> EntryOk(st.objs, n);
    InsertOk(st.timers, n);
    var r := Store(Insert(st.timers, n), st.objs[id := Timer(when, interval)]);
    forall x | x in es
      ensures EntryOk(r.objs, x) && x !in r.timers
    {
      assert EntryOk(st.objs, x);
    }
    forall x | x in r.timers
      ensures EntryOk(r.objs, x) && 0 < x.key
    {
      if x != n { assert x in st.timers && EntryOk(st.objs, x); }
    }
  }

  lemma CancelStoreOk(st: Store, es: seq<Entry>, id: nat)
    requires StoreOk(st, es)
    ensures StoreOk(CancelIn(st, id), es)
  {
    if id in st.objs {
      var e := Entry(st.objs[id].expiration, id);
      var r := CancelIn(st, id);
      EraseOk(st.timers, e);
      forall x | x in es
        ensures EntryOk(r.objs, x) && x !in r.timers
      {
        assert EntryOk(st.objs, x);
      }
      forall x | x in r.timers
        ensures EntryOk(r.objs, x) && 0 < x.key
      {
        assert x in st.timers && EntryOk(st.objs, x);
      }
    }
  }

  lemma SortedSplit(ts: seq<Entry>, n: nat)
    requires Sorted(ts) && n <= |ts|
    ensures Sorted(ts[..n]) && Sorted(ts[n..])
    ensures forall x :: x in ts <==> x in ts[..n] || x in ts[n..]
    ensures forall x :: x in ts[..n] ==> x !in ts[n..]
  {
    assert ts == ts[..n] + ts[n..];
    forall x | x in ts[..n]
      ensures x !in ts[n..]
    {
      var i :| 0 <= i < n && ts[i] == x;
      assert forall j :: n <= j < |ts| ==> Less(ts[i], ts[j]);
    }
  }

  lemma BeginStoreOk(st: Store, n: nat)
    requires StoreOk(st, []) && n <= |st.timers|
    ensures StoreOk(st.(timers := st.timers[n..]), st.timers[..n])
  {
    SortedSplit(st.timers, n);
    hide Sorted;
  }

  lemma AddKeeps(q: Queue, id: nat, when: int, interval: nat)
    requires Inv(q) && Enabled(q, Add(id, when, interval))
    ensures Inv(AfterAdd(q, id, when, interval))
  {
    assert TimerOk(q, id);
    AddStoreOk(q.st, BatchOf(q), id, when, interval);
    InsertFirst(q.st.timers, Entry(when, id));
    InsertOk(q.st.timers, Entry(when, id));
    var r := AfterAdd(q, id, when, interval);
    forall x
      ensures TimerOk(r, x)
    {
      assert TimerOk(q, x);
    }
  }

  /** Cancelling never brings the earliest key forward. */
  lemma EraseFirst(ts: seq<Entry>, e: Entry)
    requires Sorted(ts) && Erase(ts, e) != []
    ensures ts != [] && ts[0].key <= Erase(ts, e)[0].key
  {
    EraseOk(ts, e);
    var x := Erase(ts, e)[0];
    assert x in Erase(ts, e) && x in ts;
    var i :| 0 <= i < |ts| && ts[i] == x;
    assert i > 0 ==> Less(ts[0], ts[i]);
  }

  lemma CancelTimersOk(q: Queue, id: nat)
    requires Inv(q) && Enabled(q, Cancel(id))
    ensures forall x :: TimerOk(Next(q, Cancel(id)), x)
  {
    var r := Next(q, Cancel(id));
    if id in q.st.objs { EraseOk(q.st.timers, Entry(q.st.objs[id].expiration, id)); }
    forall x
      ensures TimerOk(r, x)
    {
      assert TimerOk(q, x);
    }
  }

  lemma CancelKeeps(q: Queue, id: nat)
    requires Inv(q) && Enabled(q, Cancel(id))
    ensures Inv(Next(q, Cancel(id)))
  {
    CancelStoreOk(q.st, BatchOf(q), id);
    CancelTimersOk(q, id);
    var r := Next(q, Cancel(id));
    if r.phase.Idle? && r.st.timers != [] && r.st.timers != q.st.timers {
      EraseFirst(q.st.timers, Entry(q.st.objs[id].expiration, id));
    }
    assert FiresOk(r) by {
      forall i | 0 <= i < |q.fires| && q.fires[i].id in q.oneShot && q.fires[i].id in r.st.objs
        ensures RanInBatch(r, Entry(r.st.objs[q.fires[i].id].expiration, q.fires[i].id))
      {
        assert RanInBatch(q, Entry(q.st.objs[q.fires[i].id].expiration, q.fires[i].id));
      }
    }
  }

  lemma BeginPhaseOk(q: Queue)
    requires PhaseOk(q) && Sorted(q.st.timers) && q.phase.Idle?
    ensures AfterBegin(q).phase.Handling? && PhaseOk(AfterBegin(q))
  {
    ExpiredSplits(q.st.timers, q.clock);
    hide Sorted, LowerBound;
  }

  lemma BeginFiresOk(q: Queue)
    requires FiresOk(q) && q.phase.Idle?
    ensures FiresOk(AfterBegin(q))
  {
    hide LowerBound;
  }

  lemma BeginKeeps(q: Queue)
    requires Inv(q) && Enabled(q, Begin)
    ensures Inv(AfterBegin(q))
  {
    ExpiredIsExact(q.st.timers, q.clock);
    BeginStoreOk(q.st, LowerBound(q.st.timers, q.clock));
    BeginPhaseOk(q);
    BeginFiresOk(q);
    hide StoreOk, PhaseOk, FiresOk, Sorted, LowerBound;
    forall x
      ensures TimerOk(AfterBegin(q), x)
    {
      assert TimerOk(q, x);
      BeginTimerOk(q, x);
    }
  }

  lemma BeginTimerOk(q: Queue, x: nat)
    requires TimerOk(q, x) && LowerBound(q.st.timers, q.clock) <= |q.st.timers|
    ensures TimerOk(AfterBegin(q), x)
  {
    var n := LowerBound(q.st.timers, q.clock);
    assert q.st.timers == q.st.timers[..n] + q.st.timers[n..];
  }

  /** The timer run next has not been run in this batch. */
  lemma RunOneIsNew(q: Queue)
    requires StoreOk(q.st, BatchOf(q)) && Enabled(q, RunOne)
    ensures var x := q.phase.expired[q.phase.next];
            x in q.phase.expired && EntryOk(q.st.objs, x) && x !in q.phase.expired[..q.phase.next]
  {
    var p := q.phase;
    var x := p.expired[p.next];
    assert forall i :: 0 <= i < p.next ==> Less(p.expired[i], x);
  }

  lemma RunOneFires(q: Queue)
    requires Inv(q) && Enabled(q, RunOne)
    ensures FiresOk(Next(q, RunOne))
  {
    RunOneIsNew(q);
    var r := Next(q, RunOne);
    var p := q.phase;
    var x := p.expired[p.next];
    assert TimerOk(q, x.id);
    hide StoreOk, TimerOk;
    assert p.expired[..p.next + 1] == p.expired[..p.next] + [x];
    forall i | 0 <= i < |r.fires| && r.fires[i].id in r.oneShot && r.fires[i].id in r.st.objs
      ensures RanInBatch(r, Entry(r.st.objs[r.fires[i].id].expiration, r.fires[i].id))
    {
      assert i < |q.fires| ==> RanInBatch(q, Entry(q.st.objs[q.fires[i].id].expiration, q.fires[i].id));
    }
    forall i | 0 <= i < |q.fires| && q.fires[i].id == x.id
      ensures x.id !in q.oneShot
    {
      assert x.id in q.oneShot ==> RanInBatch(q, x);
    }
  }

  lemma RunOneKeeps(q: Queue)
    requires Inv(q) && Enabled(q, RunOne)
    ensures Inv(Next(q, RunOne))
  {
    RunOneFires(q);
    var r := Next(q, RunOne);
    hide FiresOk;
    forall id
      ensures TimerOk(r, id)
    {
      assert TimerOk(q, id);
    }
  }

  lemma {:induction false} FreshOk(st: Store, es: seq<Entry>, now: int)
    requires StoreOk(st, es) && 0 <= now && forall e :: e in es ==> e.key <= now
    ensures RestartFresh(st, es, now)
    decreases |es|
  {
    if es != [] {
      assert es[0] in es;
      HeadIsAlone(st, es);
      RestartOk(st, es, now);
      FreshOk(Restart(st, es[0], now), es[1..], now);
    }
  }

  lemma EndKeeps(q: Queue)
    requires Inv(q) && Enabled(q, End)
    ensures Inv(AfterEnd(q))
  {
    var r := AfterEnd(q);
    var es, now := q.phase.expired, q.phase.now;
    RestartAllOk(q.st, es, now);
    FreshOk(q.st, es, now);
    forall id
      ensures TimerOk(r, id)
    {
      assert TimerOk(q, id) && Restarted(q.st, es, now, r.st, id);
    }
    if r.st.timers != [] { assert r.st.timers[0] in r.st.timers && EntryOk(r.st.objs, r.st.timers[0]); }
    assert es[..q.phase.next] == es;
    forall i | 0 <= i < |q.fires| && q.fires[i].id in q.oneShot
      ensures q.fires[i].id !in r.st.objs
    {
      assert TimerOk(q, q.fires[i].id) && Restarted(q.st, es, now, r.st, q.fires[i].id);
    }
  }

  lemma StepKeeps(q: Queue, e: Step)
    requires Inv(q) && Enabled(q, e)
    ensures Inv(Next(q, e))
  {
    match e
    case Begin => BeginKeeps(q);
    case RunOne => RunOneKeeps(q);
    case End => EndKeeps(q);
    case Add(id, when, interval) => AddKeeps(q, id, when, interval);
    case Cancel(id) => CancelKeeps(q, id);
    case _ =>
      forall id
        ensures TimerOk(Next(q, e), id)
      {
        assert TimerOk(q, id);
      }
  }

  // ---------------------------------------------------------------------------
  // Every run

  ghost predicate RunOk(q: Queue, es: seq<Step>)
    decreases |es|
  {
    es == [] || (Enabled(q, es[0]) && RunOk(Next(q, es[0]), es[1..]))
  }

  ghost function Run(q: Queue, es: seq<Step>): Queue
    requires RunOk(q, es)
    decreases |es|
  {
    if es == [] then q else Run(Next(q, es[0]), es[1..])
  }

  lemma {:induction false} RunKeeps(q: Queue, es: seq<Step>)
    requires Inv(q) && RunOk(q, es)
    ensures Inv(Run(q, es))
    decreases |es|
  {
    if es != [] {
      StepKeeps(q, es[0]);
      RunKeeps(Next(q, es[0]), es[1..]);
    }
  }

  ghost predicate Reachable(q: Queue) {
    exists es :: RunOk(EMPTY, es) && q == Run(EMPTY, es)
  }

  lemma ReachableInv(q: Queue)
    requires Reachable(q)
    ensures Inv(q)
  {
    var es :| RunOk(EMPTY, es) && q == Run(EMPTY, es);
    RunKeeps(EMPTY, es);
  }

  /** Between handlings a pending timer always has the timerfd armed or fired in time, and
      no insert ever met a duplicate. */
  lemma DeadlineIsKept(q: Queue)
    requires Reachable(q)
    ensures !q.aborted
    ensures q.phase.Idle? && q.st.timers != [] ==>
              !q.fd.Disarmed? && q.fd.deadline <= Max(q.st.timers[0].key, q.fd.armedAt + 100)
  {
    ReachableInv(q);
  }

  /** The start of a handling splits the set at now. */
  lemma BeginSplits(q: Queue) returns (n: nat)
    requires Reachable(q) && q.phase.Idle?
    ensures n <= |q.st.timers| && Sorted(q.st.timers)
    ensures forall i :: 0 <= i < |q.st.timers| ==> (i < n <==> q.st.timers[i].key <= q.clock)
    ensures var r := Next(q, Begin);
            && r.phase == Handling(q.clock, q.st.timers[..n], 0) && r.st.timers == q.st.timers[n..] && r.fires == q.fires
  {
    ReachableInv(q);
    ExpiredIsExact(q.st.timers, q.clock);
    n := LowerBound(q.st.timers, q.clock);
  }

  /** A handling takes exactly the due timers, in key order, and leaves the others. */
  lemma BatchIsExact(q: Queue)
    requires Reachable(q) && q.phase.Idle?
    ensures var r := Next(q, Begin);
            && r.phase.Handling? && r.phase.expired + r.st.timers == q.st.timers
            && Sorted(r.phase.expired)
            && (forall e :: e in r.phase.expired ==> e.key <= q.clock)
            && (forall e :: e in r.st.timers ==> q.clock < e.key)
  {
    var n := BeginSplits(q);
    hide Reachable, Next;
    SortedSplit(q.st.timers, n);
    hide Sorted;
  }

  /** No timer runs early, and a one-shot timer runs at most once. */
  lemma FiringIsSound(q: Queue)
    requires Reachable(q)
    ensures forall i :: 0 <= i < |q.fires| ==> q.fires[i].key <= q.fires[i].at
    ensures forall i, j :: 0 <= i < j < |q.fires| && q.fires[i].id == q.fires[j].id ==> q.fires[i].id !in q.oneShot
  {
    ReachableInv(q);
  }

  /** Between handlings a repeating timer that was not cancelled is in the set exactly once. */
  lemma RepeatingStays(q: Queue, id: nat)
    requires Reachable(q) && q.phase.Idle? && id in q.added && id !in q.oneShot && id !in q.cancelled
    ensures exists i :: 0 <= i < |q.st.timers| && q.st.timers[i].id == id
    ensures forall i, j :: 0 <= i < j < |q.st.timers| ==> !(q.st.timers[i].id == id == q.st.timers[j].id)
  {
    ReachableInv(q);
    assert TimerOk(q, id);
    var e := Entry(q.st.objs[id].expiration, id);
    assert e in q.st.timers;
    forall i, j | 0 <= i < j < |q.st.timers|
      ensures !(q.st.timers[i].id == id == q.st.timers[j].id)
    {
      assert q.st.timers[i] in q.st.timers && q.st.timers[j] in q.st.timers;
      assert Less(q.st.timers[i], q.st.timers[j]);
    }
  }

  ghost function FireCount(fs: seq<Fire>, id: nat): nat {
    if fs == [] then 0 else FireCount(fs[..|fs| - 1], id) + (if fs[|fs| - 1].id == id then 1 else 0)
  }

  /** The timer is in the batch now being handled and has not been run there yet. */
  ghost predicate StillToRun(q: Queue, id: nat) {
    q.phase.Handling? && exists i :: q.phase.next <= i < |q.phase.expired| && q.phase.expired[i].id == id
  }

  ghost function Left(q: Queue, id: nat): nat {
    if StillToRun(q, id) then 1 else 0
  }

  /** Every step of a run keeps a cancelled timer cancelled and uses up what is left of it. */
  lemma CancelledStep(q: Queue, e: Step, id: nat)
    requires Inv(q) && Enabled(q, e) && id in q.cancelled
    ensures id in Next(q, e).cancelled
    ensures FireCount(Next(q, e).fires, id) + Left(Next(q, e), id) <= FireCount(q.fires, id) + Left(q, id)
  {
    var r := Next(q, e);
    match e
    case Begin =>
      BeginKeeps(q);
      assert TimerOk(q, id);
      forall i | 0 <= i < |r.phase.expired|
        ensures r.phase.expired[i].id != id
      {
        assert r.phase.expired[i] == q.st.timers[i] && q.st.timers[i] in q.st.timers;
        assert EntryOk(q.st.objs, q.st.timers[i]);
      }
    case RunOne => CancelledRunOne(q, id);
    case Add(x, when, interval) => AddKeeps(q, x, when, interval);
    case _ =>
  }

  lemma CancelledRunOne(q: Queue, id: nat)
    requires Inv(q) && Enabled(q, RunOne)
    ensures FireCount(Next(q, RunOne).fires, id) + Left(Next(q, RunOne), id) <= FireCount(q.fires, id) + Left(q, id)
  {
    var r := Next(q, RunOne);
    var p := q.phase;
    assert r.fires[..|r.fires| - 1] == q.fires;
    forall i | p.next < i < |p.expired|
      ensures p.expired[i].id != p.expired[p.next].id
    {
      assert Less(p.expired[p.next], p.expired[i]);
      assert p.expired[i] in p.expired && p.expired[p.next] in p.expired;
      assert EntryOk(q.st.objs, p.expired[i]) && EntryOk(q.st.objs, p.expired[p.next]);
    }
    if p.expired[p.next].id == id {
      assert StillToRun(q, id);
    } else if StillToRun(r, id) {
      var i :| p.next < i < |p.expired| && p.expired[i].id == id;
      assert StillToRun(q, id);
    }
  }

  /** Once cancelled, a timer runs at most once more, and only if it waits in the batch now
      being handled; after that, and in every later handling, never. */
  lemma {:induction false} CancelledForGood(q: Queue, es: seq<Step>, id: nat)
    requires Inv(q) && RunOk(q, es) && id in q.cancelled
    ensures FireCount(Run(q, es).fires, id) + Left(Run(q, es), id) <= FireCount(q.fires, id) + Left(q, id)
    decreases |es|
  {
    if es != [] {
      CancelledStep(q, es[0], id);
      StepKeeps(q, es[0]);
      CancelledForGood(Next(q, es[0]), es[1..], id);
    }
  }

  lemma CancelledRunsAtMostOnceMore(q: Queue, es: seq<Step>, id: nat)
    requires Reachable(q) && RunOk(q, es) && id in q.cancelled
    ensures FireCount(Run(q, es).fires, id) <= FireCount(q.fires, id) + (if StillToRun(q, id) then 1 else 0)
  {
    ReachableInv(q);
    CancelledForGood(q, es, id);
  }

  // ---------------------------------------------------------------------------
  // Every due timer runs

  /** The runs of a batch so far, from entry `first` on. */
  ghost predicate RanFrom(q: Queue, k: Queue, first: nat) {
    && k.phase.Handling? && first <= k.phase.next <= |k.phase.expired| && q.fires <= k.fires
    && |k.fires| == |q.fires| + k.phase.next - first
    && (forall i :: first <= i < k.phase.next ==> Runs(k.fires[|q.fires| + i - first], k.phase.expired[i]))
  }

  predicate Runs(f: Fire, e: Entry) {
    f.id == e.id && f.key == e.key
  }

  /** The next timer of the batch runs now, under the key it waited with. */
  lemma RunOneIs(q: Queue)
    requires Enabled(q, RunOne)
    ensures var r, x := Next(q, RunOne), q.phase.expired[q.phase.next];
            && r.fires == q.fires + [Fire(x.id, x.key, q.clock)] && r.st == q.st
            && r.phase == Handling(q.phase.now, q.phase.expired, q.phase.next + 1)
  {
  }

  /** Within a handling the batch stays what it is, whatever the callbacks do, and its timers run
      in order, each once. */
  lemma {:induction false} BatchRuns(q: Queue, k: Queue, es: seq<Step>, first: nat)
    requires RanFrom(q, k, first) && RunOk(k, es) && End !in es
    ensures RanFrom(q, Run(k, es), first) && Run(k, es).phase.expired == k.phase.expired
    decreases |es|
  {
    if es != [] {
      assert es[0] in es && forall e :: e in es[1..] ==> e in es;
      HandlingStep(q, k, es[0], first);
      BatchRuns(q, Next(k, es[0]), es[1..], first);
    }
  }

  lemma HandlingStep(q: Queue, k: Queue, e: Step, first: nat)
    requires RanFrom(q, k, first) && Enabled(k, e) && e != End
    ensures RanFrom(q, Next(k, e), first) && Next(k, e).phase.expired == k.phase.expired
  {
  }

  /** Every entry due when a handling begins has run when it ends, in key order and each once,
      and nothing else has run in between. */
  lemma EveryDueTimerRuns(q: Queue, es: seq<Step>)
    requires Reachable(q) && q.phase.Idle?
    requires RunOk(Next(q, Begin), es) && End !in es && Enabled(Run(Next(q, Begin), es), End)
    ensures var k := Run(Next(q, Begin), es);
            && q.fires <= k.fires && |k.fires| - |q.fires| <= |q.st.timers|
            && (forall i :: 0 <= i < |k.fires| - |q.fires| ==> Runs(k.fires[|q.fires| + i], q.st.timers[i]))
            && (forall i :: 0 <= i < |q.st.timers| ==> (i < |k.fires| - |q.fires| <==> q.st.timers[i].key <= q.clock))
  {
    var n := BeginSplits(q);
    hide Reachable, Sorted, RunOk, Run, Next;
    BatchRuns(q, Next(q, Begin), es, 0);
    var k := Run(Next(q, Begin), es);
    assert k.phase.expired == q.st.timers[..n] && k.phase.next == n;
    forall i | 0 <= i < n
      ensures Runs(k.fires[|q.fires| + i], q.st.timers[i])
    {
      assert Runs(k.fires[|q.fires| + i - 0], k.phase.expired[i]);
    }
  }

  /** A one-shot timer that was not cancelled and has not run is alive, and the timers of a batch
      that come before the next one have run. */
  ghost predicate WaitOk(q: Queue) {
    && (forall id :: id in q.oneShot && id !in q.cancelled && id !in q.st.objs ==> HasRun(q, id))
    && (q.phase.Handling? ==> forall i :: 0 <= i < q.phase.next && i < |q.phase.expired| ==> HasRun(q, q.phase.expired[i].id))
  }

  ghost predicate HasRun(q: Queue, id: nat) {
    exists i :: 0 <= i < |q.fires| && q.fires[i].id == id
  }

  lemma RunStays(q: Queue, r: Queue, id: nat)
    requires HasRun(q, id) && q.fires <= r.fires
    ensures HasRun(r, id)
  {
    var i :| 0 <= i < |q.fires| && q.fires[i].id == id;
    assert r.fires[i].id == id;
  }

  lemma RunsStay(q: Queue, r: Queue)
    requires q.fires <= r.fires
    ensures forall id :: HasRun(q, id) ==> HasRun(r, id)
  {
    forall id | HasRun(q, id)
      ensures HasRun(r, id)
    {
      RunStays(q, r, id);
    }
  }

  lemma WaitQuiet(q: Queue, e: Step)
    requires WaitOk(q) && Enabled(q, e) && e != RunOne && e != End
    ensures WaitOk(Next(q, e))
  {
    RunsStay(q, Next(q, e));
    hide HasRun, LowerBound, Insert, Erase;
  }

  lemma WaitRunOne(q: Queue)
    requires WaitOk(q) && Enabled(q, RunOne)
    ensures WaitOk(Next(q, RunOne))
  {
    var r := Next(q, RunOne);
    RunsStay(q, r);
    assert r.fires[|q.fires|].id == q.phase.expired[q.phase.next].id;
    assert HasRun(r, q.phase.expired[q.phase.next].id);
    hide HasRun;
  }

  lemma WaitStep(q: Queue, e: Step)
    requires Inv(q) && WaitOk(q) && Enabled(q, e)
    ensures WaitOk(Next(q, e))
  {
    hide Inv, WaitOk;
    match e
    case RunOne => WaitRunOne(q);
    case End => WaitEnd(q);
    case _ => WaitQuiet(q, e);
  }

  /** What the end of a handling frees has run. */
  lemma WaitEnd(q: Queue)
    requires Inv(q) && WaitOk(q) && Enabled(q, End)
    ensures WaitOk(AfterEnd(q))
  {
    var r := AfterEnd(q);
    var es, now := q.phase.expired, q.phase.now;
    RestartAllOk(q.st, es, now);
    forall id | id in r.oneShot && id !in r.cancelled && id !in r.st.objs
      ensures HasRun(r, id)
    {
      assert Restarted(q.st, es, now, r.st, id);
      if id in q.st.objs {
        var e := Entry(q.st.objs[id].expiration, id);
        var i :| 0 <= i < |es| && es[i] == e;
        assert HasRun(q, es[i].id);
      }
      RunStays(q, r, id);
    }
  }

  lemma {:induction false} WaitRun(q: Queue, es: seq<Step>)
    requires Inv(q) && WaitOk(q) && RunOk(q, es)
    ensures WaitOk(Run(q, es))
    decreases |es|
  {
    if es != [] {
      WaitStep(q, es[0]);
      StepKeeps(q, es[0]);
      WaitRun(Next(q, es[0]), es[1..]);
    }
  }

  lemma ReachableWait(q: Queue)
    requires Reachable(q)
    ensures WaitOk(q)
  {
    var es :| RunOk(EMPTY, es) && q == Run(EMPTY, es);
    WaitRun(EMPTY, es);
  }

  /** Between handlings a one-shot timer that was added, not cancelled and has not run waits in
      the set. */
  lemma OneShotWaits(q: Queue, id: nat)
    requires Reachable(q) && q.phase.Idle? && id in q.oneShot && id !in q.cancelled && !HasRun(q, id)
    ensures id in q.st.objs && Entry(q.st.objs[id].expiration, id) in q.st.timers
  {
    ReachableInv(q);
    ReachableWait(q);
  }

  /** If it is due when a handling begins, it has run exactly once when the handling ends. */
  lemma OneShotRuns(q: Queue, es: seq<Step>, id: nat)
    requires Reachable(q) && q.phase.Idle? && id in q.oneShot && id !in q.cancelled && !HasRun(q, id)
    requires id in q.st.objs && q.st.objs[id].expiration <= q.clock
    requires RunOk(Next(q, Begin), es) && End !in es && Enabled(Run(Next(q, Begin), es), End)
    ensures var k := Run(Next(q, Begin), es);
            && HasRun(k, id)
            && forall i, j :: 0 <= i < j < |k.fires| ==> !(k.fires[i].id == id == k.fires[j].id)
  {
    OneShotWaits(q, id);
    EveryDueTimerRuns(q, es);
    ReachableInv(q);
    var k := Run(Next(q, Begin), es);
    var p :| 0 <= p < |q.st.timers| && q.st.timers[p] == Entry(q.st.objs[id].expiration, id);
    assert Runs(k.fires[|q.fires| + p], q.st.timers[p]);
    StepKeeps(q, Begin);
    RunKeeps(Next(q, Begin), es);
    OneShotStays(Next(q, Begin), es, id);
  }

  lemma {:induction false} OneShotStays(q: Queue, es: seq<Step>, id: nat)
    requires RunOk(q, es) && id in q.oneShot
    ensures id in Run(q, es).oneShot
    decreases |es|
  {
    if es != [] { OneShotStays(Next(q, es[0]), es[1..], id); }
  }

  /** Adding puts one entry into the set, under the time asked for, and changes no other timer. */
  lemma AddPuts(q: Queue, id: nat, when: int, interval: nat)
    requires Reachable(q) && Enabled(q, Add(id, when, interval))
    ensures var r := Next(q, Add(id, when, interval));
            && r.st.objs == q.st.objs[id := Timer(when, interval)] && r.phase == q.phase && r.fires == q.fires
            && forall x :: x in r.st.timers <==> x in q.st.timers || x == Entry(when, id)
  {
    ReachableInv(q);
    assert TimerOk(q, id);
    AddStoreOk(q.st, BatchOf(q), id, when, interval);
    InsertOk(q.st.timers, Entry(when, id));
  }

  /** Cancelling takes the timer's entry out of the set; a timer of the batch is only kept from
      repeating. No other timer changes. */
  lemma CancelTakes(q: Queue, id: nat)
    requires Reachable(q) && Enabled(q, Cancel(id))
    ensures var r := Next(q, Cancel(id));
            && r.phase == q.phase && r.fires == q.fires
            && (forall x :: x in r.st.timers <==> x in q.st.timers && x.id != id)
            && (forall x :: x != id ==> (x in r.st.objs <==> x in q.st.objs) && (x in q.st.objs ==> r.st.objs[x] == q.st.objs[x]))
            && (id in r.st.objs ==> r.st.objs[id].interval == 0)
  {
    ReachableInv(q);
    if id in q.st.objs { EraseOk(q.st.timers, Entry(q.st.objs[id].expiration, id)); }
    forall x | x in q.st.timers
      ensures EntryOk(q.st.objs, x)
    {
    }
  }

  // ---------------------------------------------------------------------------
  // When the timerfd is set

  /** Adding sets the timerfd exactly when the new timer is the earliest, and the end of a handling
      whenever a timer is left: for the earliest key, or 100 microseconds from now if that is
      later. So it never fires before the timer it was set for is due. */
  lemma TimerfdIsSet(q: Queue, e: Step)
    requires Reachable(q) && Enabled(q, e) && (e.Add? || e.End?)
    ensures var r := Next(q, e);
            if e.Add? && q.st.timers != [] && q.st.timers[0].key <= e.when then r.fd == q.fd
            else if r.st.timers == [] then r.fd == q.fd
            else r.fd == Armed(Max(r.st.timers[0].key, q.clock + 100), q.clock)
  {
    ReachableInv(q);
    StepKeeps(q, e);
    var r := Next(q, e);
    match e
    case Add(id, when, interval) =>
      assert TimerOk(q, id);
      AddStoreOk(q.st, BatchOf(q), id, when, interval);
      hide Inv, Reachable;
      InsertFirst(q.st.timers, Entry(when, id));
    case End => if r.st.timers != [] { EndEarliest(r); }
  }

  lemma EndEarliest(r: Queue)
    requires Inv(r) && r.st.timers != []
    ensures r.st.timers[0].id in r.st.objs && r.st.objs[r.st.timers[0].id].expiration == r.st.timers[0].key > 0
  {
    assert r.st.timers[0] in r.st.timers && EntryOk(r.st.objs, r.st.timers[0]);
  }

  /** The timerfd fires at its deadline, is read once at the start of a handling, and is left
      alone by cancelling, by the clock and by callbacks. */
  lemma TimerfdIsKept(q: Queue, e: Step)
    requires Reachable(q) && Enabled(q, e) && !e.Add? && !e.End?
    ensures var r := Next(q, e);
            && (e.Expire? ==> r.fd == Fired(q.fd.deadline, q.fd.armedAt) && q.fd.deadline <= q.clock)
            && (e.Begin? ==> r.fd == if q.fd.Fired? then Disarmed else q.fd)
            && (!e.Expire? && !e.Begin? ==> r.fd == q.fd)
  {
    ReachableInv(q);
    if e.Begin? { ExpiredIsExact(q.st.timers, q.clock); }
  }

  // ---------------------------------------------------------------------------
  // The queue object

  lemma {:induction false} EraseAt(ts: seq<Entry>, e: Entry, p: nat)
    requires p < |ts| && ts[p] == e && forall i :: 0 <= i < p ==> ts[i] != e
    ensures Erase(ts, e) == ts[..p] + ts[p + 1..]
  {
    if p > 0 {
      EraseAt(ts[1..], e, p - 1);
      assert ts[..p] == [ts[0]] + ts[1..][..p - 1] && ts[p + 1..] == ts[1..][p..];
    }
  }

  lemma {:induction false} LowerBoundAt(ts: seq<Entry>, now: int, p: nat)
    requires p <= |ts| && (forall i :: 0 <= i < p ==> ts[i].key <= now) && (p < |ts| ==> now < ts[p].key)
    ensures LowerBound(ts, now) == p
  {
    if p > 0 { LowerBoundAt(ts[1..], now, p - 1); }
  }

  lemma {:induction false} RestartAllLast(st: Store, es: seq<Entry>, e: Entry, now: int)
    ensures RestartAll(st, es + [e], now) == Restart(RestartAll(st, es, now), e, now)
    decreases |es|
  {
    if es == [] {
      assert ([e])[1..] == [];
      assert RestartAll(Restart(st, e, now), [], now) == Restart(st, e, now);
    } else {
      assert (es + [e])[1..] == es[1..] + [e];
      RestartAllLast(Restart(st, es[0], now), es[1..], e, now);
    }
  }

  class TimerQueue {
    var timers: seq<Entry>
    var objs: map<nat, Timer>
    var fd: TimerFd

    ghost function View(): Store reads this { Store(timers, objs) }

    constructor ()
      ensures View() == EMPTY.st && fd == Disarmed && StoreOk(View(), [])
    {
      timers, objs, fd := [], map[], Disarmed;
    }

    method InsertEntry(e: Entry) returns (earliestChanged: bool)
      modifies this`timers
      ensures timers == Insert(old(timers), e)
      ensures earliestChanged <==> old(timers) == [] || e.key < old(timers)[0].key
    {
      earliestChanged := timers == [] || e.key < timers[0].key;
      var p := 0;
      while p < |timers| && Less(timers[p], e)
        invariant 0 <= p <= |timers| && forall i :: 0 <= i < p ==> Less(timers[i], e)
      {
        p := p + 1;
      }
      InsertAt(timers, e, p);
      timers := timers[..p] + [e] + timers[p..];
    }

    method ArmTimerfd(clock: int, when: int)
      modifies this`fd
      ensures fd == ResetTimerfd(clock, when)
    {
      var microseconds := when - clock;
      if microseconds < 100 {
        microseconds := 100;
      }
      fd := Armed(clock + microseconds, clock);
    }

    /** `id` is a new timer, so its entry cannot be there; `batch` is the batch being handled, if any. */
    method AddTimer(id: nat, when: int, interval: nat, clock: int, ghost batch: seq<Entry>)
      requires StoreOk(View(), batch) && id !in objs && 0 < when
      modifies this
      ensures View() == Store(Insert(old(timers), Entry(when, id)), old(objs)[id := Timer(when, interval)])
      ensures StoreOk(View(), batch)
      ensures fd == if old(timers) == [] || when < old(timers)[0].key then ResetTimerfd(clock, when) else old(fd)
    {
      AddStoreOk(View(), batch, id, when, interval);
      objs := objs[id := Timer(when, interval)];
      var earliestChanged := InsertEntry(Entry(when, id));
      if earliestChanged {
        ArmTimerfd(clock, when);
      }
    }

    method CancelTimer(id: nat)
      modifies this`timers, this`objs
      ensures View() == CancelIn(old(View()), id)
    {
      if id in objs {
        var e := Entry(objs[id].expiration, id);
        var p := 0;
        while p < |timers| && timers[p] != e
          invariant 0 <= p <= |timers| && forall i :: 0 <= i < p ==> timers[i] != e
        {
          p := p + 1;
        }
        if p < |timers| {
          EraseAt(timers, e, p);
          timers := timers[..p] + timers[p + 1..];
          objs := objs - {id};
        } else {
          objs := objs[id := objs[id].(interval := 0)];
        }
      }
    }

    /** Takes exactly the due entries out of the set, in order. */
    method GetExpired(now: int) returns (expired: seq<Entry>)
      requires Sorted(timers)
      modifies this`timers
      ensures expired + timers == old(timers) && |expired| == LowerBound(old(timers), now)
      ensures (forall e :: e in expired ==> e.key <= now) && (forall e :: e in timers ==> now < e.key)
    {
      var p := 0;
      while p < |timers| && timers[p].key <= now
        invariant 0 <= p <= |timers| && forall i :: 0 <= i < p ==> timers[i].key <= now
      {
        p := p + 1;
      }
      LowerBoundAt(timers, now, p);
      ExpiredSplits(timers, now);
      hide LowerBound, Sorted;
      expired := timers[..p];
      timers := timers[p..];
    }

    method RestartEntry(e: Entry, now: int)
      modifies this`timers, this`objs
      ensures View() == Restart(old(View()), e, now)
    {
      if e.id in objs && objs[e.id].interval > 0 {
        var when := now + objs[e.id].interval;
        objs := objs[e.id := Timer(when, objs[e.id].interval)];
        var _ := InsertEntry(Entry(when, e.id));
      } else {
        objs := objs - {e.id};
      }
    }

    /** Puts the repeating timers of the batch back and arms the timerfd for the earliest timer. */
    method Reset(expired: seq<Entry>, now: int, clock: int)
      requires StoreOk(View(), expired) && 0 <= now && forall e :: e in expired ==> e.key <= now
      modifies this
      ensures View() == RestartAll(old(View()), expired, now) && StoreOk(View(), [])
      ensures fd == if timers == [] then old(fd) else ResetTimerfd(clock, timers[0].key)
    {
      for i := 0 to |expired|
        invariant View() == RestartAll(old(View()), expired[..i], now)
        invariant fd == old(fd)
      {
        var e := expired[i];
        assert expired[..i + 1] == expired[..i] + [e];
        RestartAllLast(old(View()), expired[..i], e, now);
        RestartEntry(e, now);
      }
      assert expired[..|expired|] == expired;
      RestartAllOk(old(View()), expired, now);
      if timers != [] {
        assert timers[0] in timers && EntryOk(objs, timers[0]);
        var nextExpire := objs[timers[0].id].expiration;
        if nextExpire > 0 {
          ArmTimerfd(clock, nextExpire);
        }
      }
    }
  }
}
