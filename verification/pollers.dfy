/** The two pollers behind an event loop.

    `PollPoller` keeps a vector for poll(2) and a map from descriptor to vector index.
    `EPollPoller` keeps a NEW/ADDED/DELETED machine that must agree with the interest set
    held by the kernel. Both are shown to refine one table from registered descriptor to
    the channel and the interest it had at its last add or update.
 */
module Pollers {
  import opened Options

  /** The events a channel asks for: kReadEvent and kWriteEvent. */
  datatype Interest = Interest(read: bool, write: bool) {
    predicate IsNone() { !read && !write }
  }

  /** A channel (named by a number that stands for its address) and its interest. */
  datatype Reg = Reg(chan: nat, events: Interest)

  // ---------------------------------------------------------------------------
  // The simple table both pollers refine

  type Table = map<nat, Reg>

  /** A call on a poller. `events` is what the channel holds at the time of the call. */
  datatype Op =
    | Add(fd: nat, chan: nat, events: Interest)
    | Update(fd: nat, chan: nat, events: Interest)
    | Remove(fd: nat, chan: nat, events: Interest)

  predicate Legal(t: Table, op: Op) {
    match op
    case Add(fd, _, _) => fd !in t
    case Update(fd, chan, _) => fd in t && t[fd].chan == chan
    case Remove(fd, chan, ev) => fd in t && t[fd].chan == chan && ev.IsNone()
  }

  function Apply(t: Table, op: Op): Table {
    match op
    case Add(fd, chan, ev) => t[fd := Reg(chan, ev)]
    case Update(fd, chan, ev) => t[fd := Reg(chan, ev)]
    case Remove(fd, _, _) => t - {fd}
  }

  /** The part of the table the kernel has to watch. */
  function Watched(t: Table): Table {
    map fd | fd in t && !t[fd].events.IsNone() :: t[fd]
  }

  /** Runs calls on the table; None as soon as one of them is illegal. */
  function TableRun(t: Table, ops: seq<Op>): Option<Table>
    decreases |ops|
  {
    if ops == [] then Some(t)
    else if Legal(t, ops[0]) then TableRun(Apply(t, ops[0]), ops[1..])
    else None
  }

  // ---------------------------------------------------------------------------
  // EPollPoller

  datatype ChannelState = NEW | ADDED | DELETED

  datatype Entry = Entry(chan: nat, state: ChannelState)

  /** `kernel` is the interest set of the epoll descriptor, `faults` counts the
      epoll_ctl calls that returned an error (the source only logs them). */
  datatype EPoll = EPoll(channels: map<nat, Entry>, kernel: map<nat, Reg>, faults: nat)

  datatype Ctl = CtlAdd | CtlMod | CtlDel

  /** epoll_ctl(2): ADD fails on a present descriptor, MOD and DEL on an absent one. */
  function EpollCtl(p: EPoll, ctl: Ctl, fd: nat, reg: Reg): EPoll {
    if (fd in p.kernel) == ctl.CtlAdd? then p.(faults := p.faults + 1)
    else if ctl.CtlDel? then p.(kernel := p.kernel - {fd})
    else p.(kernel := p.kernel[fd := reg])
  }

  function EPollUpdate(p: EPoll, fd: nat, chan: nat, ev: Interest): EPoll
    requires fd in p.channels
  {
    if p.channels[fd].state != ADDED then
      if ev.IsNone() then p
      else EpollCtl(p.(channels := p.channels[fd := Entry(chan, ADDED)]), CtlAdd, fd, Reg(chan, ev))
    else if !ev.IsNone() then EpollCtl(p, CtlMod, fd, Reg(chan, ev))
    else EpollCtl(p.(channels := p.channels[fd := Entry(chan, DELETED)]), CtlDel, fd, Reg(chan, ev))
  }

  /** One call; None stands for a failed assert. */
  function EPollStep(p: EPoll, op: Op): Option<EPoll> {
    match op
    case Add(fd, chan, ev) =>
      if fd in p.channels then None
      else Some(EPollUpdate(p.(channels := p.channels[fd := Entry(chan, NEW)]), fd, chan, ev))
    case Update(fd, chan, ev) =>
      if fd !in p.channels || p.channels[fd].chan != chan then None
      else Some(EPollUpdate(p, fd, chan, ev))
    case Remove(fd, chan, ev) =>
      if fd !in p.channels || p.channels[fd].chan != chan || !ev.IsNone() then None
      else
        var q := if p.channels[fd].state == ADDED then EpollCtl(p, CtlDel, fd, Reg(chan, ev)) else p;
        Some(q.(channels := q.channels - {fd}))
  }

  function EPollRun(p: EPoll, ops: seq<Op>): Option<EPoll>
    decreases |ops|
  {
    if ops == [] then Some(p)
    else match EPollStep(p, ops[0])
      case None => None
      case Some(q) => EPollRun(q, ops[1..])
  }

  const EMPTY_EPOLL := EPoll(map[], map[], 0)

  ghost predicate EntryHolds(p: EPoll, t: Table, fd: nat) {
    && (fd in p.channels <==> fd in t)
    && (fd in p.kernel <==> fd in t && !t[fd].events.IsNone())
    && (fd in t ==> p.channels[fd].chan == t[fd].chan)
    && (fd in t ==> (p.channels[fd].state == ADDED <==> !t[fd].events.IsNone()))
    && (fd in p.kernel ==> p.kernel[fd] == t[fd])
  }

  /** The poller holds table `t`: the same descriptors are registered, the ADDED entries are
      exactly the kernel's interest set with the table's events, and no epoll_ctl failed. */
  ghost predicate EPollHolds(p: EPoll, t: Table) {
    p.faults == 0 && forall fd :: EntryHolds(p, t, fd)
  }

  /** One call on the epoll poller passes its asserts exactly when it is legal on the table,
      makes no failing epoll_ctl and changes the table as specified. */
  lemma EPollStepRefines(p: EPoll, t: Table, op: Op)
    requires EPollHolds(p, t)
    ensures EPollStep(p, op).Some? <==> Legal(t, op)
    ensures Legal(t, op) ==> EPollHolds(EPollStep(p, op).value, Apply(t, op))
  {
    assert EntryHolds(p, t, op.fd);
    if Legal(t, op) {
      var q := EPollStep(p, op).value;
      assert EntryHolds(q, Apply(t, op), op.fd);
      forall fd | fd != op.fd
        ensures EntryHolds(q, Apply(t, op), fd)
      {
        assert EntryHolds(p, t, fd);
      }
    }
  }

  lemma EPollWatches(p: EPoll, t: Table)
    requires EPollHolds(p, t)
    ensures p.kernel == Watched(t)
  {
    forall fd
      ensures fd in p.kernel <==> fd in Watched(t)
      ensures fd in p.kernel ==> p.kernel[fd] == Watched(t)[fd]
    {
      assert EntryHolds(p, t, fd);
    }
  }

  /** The poller object. Each method returns false where the source would abort on an assert. */
  class EPollPoller {
    var channels: map<nat, Entry>
    var kernel: map<nat, Reg>
    var faults: nat

    ghost function View(): EPoll reads this { EPoll(channels, kernel, faults) }

    constructor ()
      ensures View() == EMPTY_EPOLL && EPollHolds(View(), map[])
    {
      channels, kernel, faults := map[], map[], 0;
    }

    method Ctl(ctl: Ctl, fd: nat, reg: Reg)
      modifies this`kernel, this`faults
      ensures View() == EpollCtl(old(View()), ctl, fd, reg)
    {
      if (fd in kernel) == ctl.CtlAdd? {
        faults := faults + 1;
      } else if ctl.CtlDel? {
        kernel := kernel - {fd};
      } else {
        kernel := kernel[fd := reg];
      }
    }

    method AddChannel(fd: nat, chan: nat, events: Interest) returns (ok: bool)
      modifies this
      ensures ok <==> EPollStep(old(View()), Add(fd, chan, events)).Some?
      ensures View() == if ok then EPollStep(old(View()), Add(fd, chan, events)).value else old(View())
    {
      if fd in channels { return false; }
      channels := channels[fd := Entry(chan, NEW)];
      ok := UpdateChannel(fd, chan, events);
    }

    method UpdateChannel(fd: nat, chan: nat, events: Interest) returns (ok: bool)
      modifies this
      ensures ok <==> EPollStep(old(View()), Update(fd, chan, events)).Some?
      ensures View() == if ok then EPollStep(old(View()), Update(fd, chan, events)).value else old(View())
    {
      if fd !in channels || channels[fd].chan != chan { return false; }
      if channels[fd].state == NEW || channels[fd].state == DELETED {
        if !events.IsNone() {
          channels := channels[fd := Entry(chan, ADDED)];
          Ctl(CtlAdd, fd, Reg(chan, events));
        }
      } else if !events.IsNone() {
        Ctl(CtlMod, fd, Reg(chan, events));
      } else {
        channels := channels[fd := Entry(chan, DELETED)];
        Ctl(CtlDel, fd, Reg(chan, events));
      }
      ok := true;
    }

    method RemoveChannel(fd: nat, chan: nat, events: Interest) returns (ok: bool)
      modifies this
      ensures ok <==> EPollStep(old(View()), Remove(fd, chan, events)).Some?
      ensures View() == if ok then EPollStep(old(View()), Remove(fd, chan, events)).value else old(View())
    {
      if fd !in channels || channels[fd].chan != chan || !events.IsNone() { return false; }
      if channels[fd].state == ADDED {
        Ctl(CtlDel, fd, Reg(chan, events));
      }
      channels := channels - {fd};
      ok := true;
    }
  }

  // ---------------------------------------------------------------------------
  // PollPoller

  /** struct pollfd: a negative `fd` makes poll(2) skip the entry. */
  datatype PollFd = PollFd(fd: int, events: Interest, revents: int)

  datatype Slot = Slot(chan: nat, index: int)

  datatype Poll = Poll(pollfds: seq<PollFd>, channels: map<nat, Slot>)

  function Encode(fd: nat, ev: Interest): int {
    if ev.IsNone() then -1 - fd else fd
  }

  function Decode(fd: int): nat {
    if fd < 0 then -1 - fd else fd
  }

  /** One call; None stands for a failed assert. Reading an index that the asserts do not
      guarantee counts as a failure as well. */
  function PollStep(p: Poll, op: Op): Option<Poll> {
    match op
    case Add(fd, chan, ev) =>
      if fd in p.channels then None
      else Some(Poll(p.pollfds + [PollFd(Encode(fd, ev), ev, 0)], p.channels[fd := Slot(chan, |p.pollfds|)]))
    case Update(fd, chan, ev) =>
      if fd !in p.channels || p.channels[fd].chan != chan then None else
      var i := p.channels[fd].index;
      if !(0 <= i < |p.pollfds|) || (p.pollfds[i].fd != fd && p.pollfds[i].fd != -1 - fd) then None
      else Some(p.(pollfds := p.pollfds[i := PollFd(Encode(fd, ev), ev, 0)]))
    case Remove(fd, chan, ev) =>
      if fd !in p.channels || p.channels[fd].chan != chan || !ev.IsNone() then None else
      var i := p.channels[fd].index;
      if !(0 <= i < |p.pollfds|) then None else
      var last := |p.pollfds| - 1;
      var channels := p.channels - {fd};
      if i == last then Some(Poll(p.pollfds[..last], channels)) else
      var endfd := Decode(p.pollfds[last].fd);
      if endfd !in channels then None
      else Some(Poll(p.pollfds[i := p.pollfds[last]][..last], channels[endfd := channels[endfd].(index := i)]))
  }

  function PollRun(p: Poll, ops: seq<Op>): Option<Poll>
    decreases |ops|
  {
    if ops == [] then Some(p)
    else match PollStep(p, ops[0])
      case None => None
      case Some(q) => PollRun(q, ops[1..])
  }

  const EMPTY_POLL := Poll([], map[])

  /** The stored index of `fd` points at an entry for `fd` itself. */
  ghost predicate IndexOk(p: Poll, fd: nat) {
    fd in p.channels ==>
      0 <= p.channels[fd].index < |p.pollfds| && Decode(p.pollfds[p.channels[fd].index].fd) == fd
  }

  /** Entry `i` belongs to a registered descriptor whose index is `i`, and it is negated
      exactly when its channel wants nothing. */
  ghost predicate SlotOk(p: Poll, i: int) {
    0 <= i < |p.pollfds| ==>
      && Decode(p.pollfds[i].fd) in p.channels
      && p.channels[Decode(p.pollfds[i].fd)].index == i
      && (p.pollfds[i].fd < 0 <==> p.pollfds[i].events.IsNone())
  }

  /** The map and the vector are in bijection. */
  ghost predicate PollInv(p: Poll) {
    (forall fd :: IndexOk(p, fd)) && (forall i :: SlotOk(p, i))
  }

  ghost predicate FdHolds(p: Poll, t: Table, fd: nat) {
    && IndexOk(p, fd)
    && (fd in p.channels <==> fd in t)
    && (fd in t ==> t[fd] == Reg(p.channels[fd].chan, p.pollfds[p.channels[fd].index].events))
  }

  /** The poller holds table `t`. */
  ghost predicate PollHolds(p: Poll, t: Table) {
    (forall fd :: FdHolds(p, t, fd)) && (forall i :: SlotOk(p, i))
  }

  lemma PollStepRefines(p: Poll, t: Table, op: Op)
    requires PollHolds(p, t)
    ensures PollStep(p, op).Some? <==> Legal(t, op)
    ensures Legal(t, op) ==> PollHolds(PollStep(p, op).value, Apply(t, op))
  {
    assert FdHolds(p, t, op.fd);
    if Legal(t, op) {
      match op
      case Add(fd, chan, ev) => PollAddRefines(p, t, fd, chan, ev);
      case Update(fd, chan, ev) => PollUpdateRefines(p, t, fd, chan, ev);
      case Remove(fd, chan, ev) => PollRemoveRefines(p, t, fd, chan, ev);
    }
  }

  lemma PollAddRefines(p: Poll, t: Table, fd: nat, chan: nat, ev: Interest)
    requires PollHolds(p, t) && Legal(t, Add(fd, chan, ev))
    ensures PollStep(p, Add(fd, chan, ev)).Some?
    ensures PollHolds(PollStep(p, Add(fd, chan, ev)).value, Apply(t, Add(fd, chan, ev)))
  {
    assert FdHolds(p, t, fd);
    var q := PollStep(p, Add(fd, chan, ev)).value;
    forall i
      ensures SlotOk(q, i)
    {
      assert SlotOk(p, i);
    }
    forall x
      ensures FdHolds(q, Apply(t, Add(fd, chan, ev)), x)
    {
      assert FdHolds(p, t, x);
    }
  }

  lemma PollUpdateRefines(p: Poll, t: Table, fd: nat, chan: nat, ev: Interest)
    requires PollHolds(p, t) && Legal(t, Update(fd, chan, ev))
    ensures PollStep(p, Update(fd, chan, ev)).Some?
    ensures PollHolds(PollStep(p, Update(fd, chan, ev)).value, Apply(t, Update(fd, chan, ev)))
  {
    assert FdHolds(p, t, fd);
    var q := PollStep(p, Update(fd, chan, ev)).value;
    forall i
      ensures SlotOk(q, i)
    {
      assert SlotOk(p, i);
    }
    forall x
      ensures FdHolds(q, Apply(t, Update(fd, chan, ev)), x)
    {
      assert FdHolds(p, t, x);
    }
  }

  /** The swap with the last entry re-points exactly the index of the descriptor that moved. */
  lemma PollRemoveRefines(p: Poll, t: Table, fd: nat, chan: nat, ev: Interest)
    requires PollHolds(p, t) && Legal(t, Remove(fd, chan, ev))
    ensures PollStep(p, Remove(fd, chan, ev)).Some?
    ensures PollHolds(PollStep(p, Remove(fd, chan, ev)).value, Apply(t, Remove(fd, chan, ev)))
  {
    assert FdHolds(p, t, fd);
    var i, last := p.channels[fd].index, |p.pollfds| - 1;
    assert SlotOk(p, last) && SlotOk(p, i);
    var q := PollStep(p, Remove(fd, chan, ev)).value;
    forall j
      ensures SlotOk(q, j)
    {
      assert SlotOk(p, j) && SlotOk(p, last);
    }
    forall x
      ensures FdHolds(q, Apply(t, Remove(fd, chan, ev)), x)
    {
      assert FdHolds(p, t, x);
      if x in p.channels { assert SlotOk(p, p.channels[x].index); }
    }
  }

  /** The descriptors poll(2) really looks at, with their events. */
  ghost function PollWatches(p: Poll): Table
    requires PollInv(p)
  {
    map fd | fd in p.channels && assert IndexOk(p, fd); p.pollfds[p.channels[fd].index].fd >= 0 ::
      Reg(p.channels[fd].chan, p.pollfds[p.channels[fd].index].events)
  }

  lemma PollWatchesTable(p: Poll, t: Table)
    requires PollHolds(p, t)
    ensures PollInv(p) && PollWatches(p) == Watched(t)
  {
    forall fd
      ensures IndexOk(p, fd)
    {
      assert FdHolds(p, t, fd);
    }
    forall fd
      ensures fd in PollWatches(p) <==> fd in Watched(t)
      ensures fd in Watched(t) ==> PollWatches(p)[fd] == Watched(t)[fd]
    {
      assert FdHolds(p, t, fd);
      if fd in p.channels { assert SlotOk(p, p.channels[fd].index); }
    }
  }

  // ---------------------------------------------------------------------------
  // Both pollers over whole runs

  lemma {:induction false} EPollRunRefines(p: EPoll, t: Table, ops: seq<Op>)
    requires EPollHolds(p, t)
    ensures EPollRun(p, ops).Some? <==> TableRun(t, ops).Some?
    ensures EPollRun(p, ops).Some? ==> EPollHolds(EPollRun(p, ops).value, TableRun(t, ops).value)
    decreases |ops|
  {
    if ops != [] {
      EPollStepRefines(p, t, ops[0]);
      if Legal(t, ops[0]) { EPollRunRefines(EPollStep(p, ops[0]).value, Apply(t, ops[0]), ops[1..]); }
    }
  }

  lemma {:induction false} PollRunRefines(p: Poll, t: Table, ops: seq<Op>)
    requires PollHolds(p, t)
    ensures PollRun(p, ops).Some? <==> TableRun(t, ops).Some?
    ensures PollRun(p, ops).Some? ==> PollHolds(PollRun(p, ops).value, TableRun(t, ops).value)
    decreases |ops|
  {
    if ops != [] {
      PollStepRefines(p, t, ops[0]);
      if Legal(t, ops[0]) { PollRunRefines(PollStep(p, ops[0]).value, Apply(t, ops[0]), ops[1..]); }
    }
  }

  /** Poll and epoll are interchangeable: over every sequence of calls they pass or fail
      their asserts together, and when they pass, the entries poll(2) looks at and the
      kernel's interest set are both the non-empty part of the one table, with every
      epoll_ctl having succeeded. */
  lemma PollersAgree(ops: seq<Op>)
    ensures PollRun(EMPTY_POLL, ops).Some? <==> TableRun(map[], ops).Some?
    ensures EPollRun(EMPTY_EPOLL, ops).Some? <==> TableRun(map[], ops).Some?
    ensures TableRun(map[], ops).Some? ==>
              var t := TableRun(map[], ops).value;
              var p := PollRun(EMPTY_POLL, ops).value;
              var e := EPollRun(EMPTY_EPOLL, ops).value;
              && PollHolds(p, t) && EPollHolds(e, t)
              && PollInv(p) && PollWatches(p) == Watched(t)
              && e.kernel == Watched(t) && e.faults == 0
  {
    PollRunRefines(EMPTY_POLL, map[], ops);
    EPollRunRefines(EMPTY_EPOLL, map[], ops);
    if TableRun(map[], ops).Some? {
      var t := TableRun(map[], ops).value;
      EPollWatches(EPollRun(EMPTY_EPOLL, ops).value, t);
      PollWatchesTable(PollRun(EMPTY_POLL, ops).value, t);
    }
  }

  // ---------------------------------------------------------------------------
  // Collecting the active channels after poll(2)

  datatype Active = Active(fd: int, chan: nat, revents: int)

  /** poll(2) reports events only on entries it does not skip. */
  ghost predicate Polled(p: Poll) {
    PollInv(p) && forall i :: 0 <= i < |p.pollfds| && p.pollfds[i].revents > 0 ==> p.pollfds[i].fd >= 0
  }

  ghost function ActiveAt(p: Poll, i: nat): Active
    requires Polled(p) && i < |p.pollfds|
  {
    assert SlotOk(p, i);
    Active(p.pollfds[i].fd, p.channels[Decode(p.pollfds[i].fd)].chan, p.pollfds[i].revents)
  }

  /** A full scan of the first `n` entries. */
  ghost function Scan(p: Poll, n: nat): seq<Active>
    requires Polled(p) && n <= |p.pollfds|
  {
    if n == 0 then []
    else if p.pollfds[n - 1].revents > 0 then Scan(p, n - 1) + [ActiveAt(p, n - 1)]
    else Scan(p, n - 1)
  }

  lemma {:induction false} ScanGrows(p: Poll, m: nat, n: nat)
    requires Polled(p) && m <= n <= |p.pollfds|
    ensures Scan(p, m) <= Scan(p, n)
  {
    if m < n { ScanGrows(p, m, n - 1); }
  }

  /** A scan holds exactly the active entries of the part it covers, each once. */
  lemma {:induction false} ScanIsExact(p: Poll, n: nat)
    requires Polled(p) && n <= |p.pollfds|
    ensures forall a :: a in Scan(p, n) <==> exists i :: 0 <= i < n && p.pollfds[i].revents > 0 && a == ActiveAt(p, i)
    ensures forall j, k :: 0 <= j < k < |Scan(p, n)| ==> Scan(p, n)[j].fd != Scan(p, n)[k].fd
  {
    if n > 0 {
      ScanIsExact(p, n - 1);
      var s := Scan(p, n - 1);
      forall j | 0 <= j < |s|
        ensures s[j].fd != p.pollfds[n - 1].fd
      {
        assert s[j] in s;
        var i :| 0 <= i < n - 1 && p.pollfds[i].revents > 0 && s[j] == ActiveAt(p, i);
        assert SlotOk(p, i) && SlotOk(p, n - 1);
      }
      if p.pollfds[n - 1].revents > 0 {
        assert forall a :: a in Scan(p, n) <==> a in s || a == ActiveAt(p, n - 1);
      }
    }
  }

  class PollPoller {
    var pollfds: seq<PollFd>
    var channels: map<nat, Slot>

    ghost function View(): Poll reads this { Poll(pollfds, channels) }

    constructor ()
      ensures View() == EMPTY_POLL && PollHolds(View(), map[])
    {
      pollfds, channels := [], map[];
    }

    method AddChannel(fd: nat, chan: nat, events: Interest) returns (ok: bool)
      modifies this
      ensures ok <==> PollStep(old(View()), Add(fd, chan, events)).Some?
      ensures View() == if ok then PollStep(old(View()), Add(fd, chan, events)).value else old(View())
    {
      if fd in channels { return false; }
      var pfd := PollFd(if events.IsNone() then -1 - fd else fd, events, 0);
      channels := channels[fd := Slot(chan, |pollfds|)];
      pollfds := pollfds + [pfd];
      ok := true;
    }

    method UpdateChannel(fd: nat, chan: nat, events: Interest) returns (ok: bool)
      modifies this
      ensures ok <==> PollStep(old(View()), Update(fd, chan, events)).Some?
      ensures View() == if ok then PollStep(old(View()), Update(fd, chan, events)).value else old(View())
    {
      if fd !in channels || channels[fd].chan != chan { return false; }
      var idx := channels[fd].index;
      if !(0 <= idx < |pollfds|) { return false; }
      if pollfds[idx].fd != fd && pollfds[idx].fd != -1 - fd { return false; }
      var pfd := PollFd(fd, events, 0);
      if events.IsNone() {
        pfd := pfd.(fd := -1 - fd);
      }
      pollfds := pollfds[idx := pfd];
      ok := true;
    }

    /** The map and the vector are in bijection on entry, so the moved entry is found. */
    method RemoveChannel(fd: nat, chan: nat, events: Interest) returns (ok: bool)
      requires PollInv(View())
      modifies this
      ensures ok <==> PollStep(old(View()), Remove(fd, chan, events)).Some?
      ensures View() == if ok then PollStep(old(View()), Remove(fd, chan, events)).value else old(View())
    {
      if fd !in channels || channels[fd].chan != chan || !events.IsNone() { return false; }
      var idx := channels[fd].index;
      assert IndexOk(View(), fd) && SlotOk(View(), |pollfds| - 1);
      channels := channels - {fd};
      if idx < |pollfds| - 1 {
        var last := pollfds[|pollfds| - 1];
        var endfd := last.fd;
        pollfds := pollfds[|pollfds| - 1 := pollfds[idx]][idx := last];
        if endfd < 0 {
          endfd := -1 - endfd;
        }
        channels := channels[endfd := channels[endfd].(index := idx)];
      }
      pollfds := pollfds[..|pollfds| - 1];
      ok := true;
    }

    /** The scan stops early once `numEvents` entries were found: it returns the first
        `numEvents` of a full scan, hence all of it when `numEvents` is the true count. */
    method FillActiveChannels(numEvents: int) returns (active: seq<Active>)
      requires Polled(View())
      ensures active <= Scan(View(), |pollfds|)
      ensures |active| <= numEvents || active == []
      ensures numEvents >= |Scan(View(), |pollfds|)| ==> active == Scan(View(), |pollfds|)
      ensures 0 <= numEvents < |Scan(View(), |pollfds|)| ==> |active| == numEvents
    {
      var left, i := numEvents, 0;
      active := [];
      while i < |pollfds| && left > 0
        invariant 0 <= i <= |pollfds|
        invariant active == Scan(View(), i)
        invariant left == numEvents - |active|
        invariant left >= 0 || active == []
      {
        var pfd := pollfds[i];
        if pfd.revents > 0 {
          left := left - 1;
          assert SlotOk(View(), i);
          active := active + [Active(pfd.fd, channels[pfd.fd].chan, pfd.revents)];
        }
        i := i + 1;
      }
      ScanGrows(View(), i, |pollfds|);
    }
  }
}
