/** The growing and compacting byte buffer. It is meant to hold a sequence of bytes: reads and
    appends extend it at the end, retrieving drops a prefix.

    The compaction in makeSpace moves the content to the front. The source copies from the
    start of the vector instead of the start of the readable bytes, so both copies are modelled.
 */
module Buffers {
  import opened Options

  const CHEAP_PREPEND: nat := 8
  const INITIAL_SIZE: nat := 1024
  const EXTRA_SIZE: nat := 65536

  /** Where compaction copies from: `FromBegin` is the code as written, `FromReader` what it
      needs to do to keep the content. */
  datatype CopyFrom = FromBegin | FromReader

  /** The vector and the two indices. */
  datatype Layout = Layout(bytes: string, reader: nat, writer: nat)

  /** Without `prepend` and `shrink`, the vector only grows, the reader index never goes below
      the reserved space, and an empty buffer has its indices reset. */
  predicate LayoutOk(b: Layout) {
    && CHEAP_PREPEND + INITIAL_SIZE <= |b.bytes|
    && CHEAP_PREPEND <= b.reader <= b.writer <= |b.bytes|
    && (b.reader == b.writer ==> b.reader == CHEAP_PREPEND)
  }

  function Readable(b: Layout): string
    requires LayoutOk(b)
  {
    b.bytes[b.reader..b.writer]
  }

  function Writable(b: Layout): nat
    requires LayoutOk(b)
  {
    |b.bytes| - b.writer
  }

  /** Writes `data` at position `at`; what falls outside the vector is dropped. */
  function Overlay(bytes: string, at: nat, data: string): (r: string)
    requires at <= |bytes|
    ensures |r| == |bytes|
    ensures forall i :: 0 <= i < |bytes| ==>
              r[i] == if at <= i < at + |data| then data[i - at] else bytes[i]
  {
    var d := if at + |data| <= |bytes| then data else data[..|bytes| - at];
    bytes[..at] + d + bytes[at + |d|..]
  }

  /** The guard of the compacting branch. */
  predicate Compacts(b: Layout, len: nat)
    requires LayoutOk(b)
  {
    Writable(b) < len <= b.reader - CHEAP_PREPEND + Writable(b)
  }

  function MakeSpace(b: Layout, len: nat, from: CopyFrom): Layout
    requires LayoutOk(b)
  {
    if Writable(b) >= len then b
    else if Compacts(b, len) then
      var moved := if from.FromReader? then b.bytes[b.reader..b.writer] else b.bytes[..b.writer];
      Layout(Overlay(b.bytes, CHEAP_PREPEND, moved), CHEAP_PREPEND, CHEAP_PREPEND + (b.writer - b.reader))
    else b.(bytes := b.bytes + seq(b.writer + len - |b.bytes|, _ => '\0'))
  }

  lemma MakeSpaceOk(b: Layout, len: nat, from: CopyFrom)
    requires LayoutOk(b)
    ensures LayoutOk(MakeSpace(b, len, from)) && Writable(MakeSpace(b, len, from)) >= len
    ensures |Readable(MakeSpace(b, len, from))| == |Readable(b)|
    ensures from.FromReader? || !Compacts(b, len) ==> Readable(MakeSpace(b, len, from)) == Readable(b)
  {
    var r := MakeSpace(b, len, from);
    if Writable(b) < len && !Compacts(b, len) {
      assert forall i :: 0 <= i < |b.bytes| ==> r.bytes[i] == b.bytes[i];
      assert Readable(r) == Readable(b);
    } else if Compacts(b, len) && from.FromReader? {
      assert Readable(r) == Readable(b);
    }
  }

  function Append(b: Layout, data: string, from: CopyFrom): Layout
    requires LayoutOk(b)
  {
    var s := MakeSpace(b, |data|, from);
    MakeSpaceOk(b, |data|, from);
    Layout(Overlay(s.bytes, s.writer, data), s.reader, s.writer + |data|)
  }

  /** readv(2) into the free space and an extra buffer; `data` is what it delivered. */
  function ReadFd(b: Layout, data: string, from: CopyFrom): Layout
    requires LayoutOk(b) && |data| <= Writable(b) + EXTRA_SIZE
  {
    var w := Writable(b);
    if |data| <= w then Layout(Overlay(b.bytes, b.writer, data), b.reader, b.writer + |data|)
    else
      var full := Layout(Overlay(b.bytes, b.writer, data[..w]), b.reader, |b.bytes|);
      Append(full, data[w..], from)
  }

  function Retrieve(b: Layout, n: nat): Layout
    requires LayoutOk(b) && n <= |Readable(b)|
  {
    if b.reader + n == b.writer then Layout(b.bytes, CHEAP_PREPEND, CHEAP_PREPEND)
    else b.(reader := b.reader + n)
  }

  // ---------------------------------------------------------------------------
  // What the operations do to the content

  lemma AppendExtends(b: Layout, data: string, from: CopyFrom)
    requires LayoutOk(b)
    ensures LayoutOk(Append(b, data, from))
    ensures |Readable(Append(b, data, from))| == |Readable(b)| + |data|
    ensures from.FromReader? || !Compacts(b, |data|) ==> Readable(Append(b, data, from)) == Readable(b) + data
  {
    MakeSpaceOk(b, |data|, from);
    var s := MakeSpace(b, |data|, from);
    FitsExtends(s, data);
  }

  /** The append after a short read compacts on these arguments. */
  predicate ReadCompacts(b: Layout, data: string)
    requires LayoutOk(b)
  {
    Writable(b) < |data| && |data| - Writable(b) <= b.reader - CHEAP_PREPEND
  }

  lemma FitsExtends(b: Layout, data: string)
    requires LayoutOk(b) && |data| <= Writable(b)
    ensures var r := Layout(Overlay(b.bytes, b.writer, data), b.reader, b.writer + |data|);
            LayoutOk(r) && Readable(r) == Readable(b) + data
  {
    var r := Layout(Overlay(b.bytes, b.writer, data), b.reader, b.writer + |data|);
    assert Readable(r) == Readable(b) + data;
  }

  lemma ReadFdExtends(b: Layout, data: string, from: CopyFrom)
    requires LayoutOk(b) && |data| <= Writable(b) + EXTRA_SIZE
    ensures LayoutOk(ReadFd(b, data, from)) && |Readable(ReadFd(b, data, from))| == |Readable(b)| + |data|
    ensures from.FromReader? || !ReadCompacts(b, data) ==> Readable(ReadFd(b, data, from)) == Readable(b) + data
  {
    hide Append;
    hide Overlay;
    var w := Writable(b);
    if |data| <= w {
      FitsExtends(b, data);
    } else {
      FitsExtends(b, data[..w]);
      var full := Layout(Overlay(b.bytes, b.writer, data[..w]), b.reader, |b.bytes|);
      AppendExtends(full, data[w..], from);
      assert data[..w] + data[w..] == data;
    }
  }

  /** A layout with the given size and indices, all blank but for one byte. */
  function Marked(size: nat, reader: nat, writer: nat, at: nat): Layout {
    Layout(seq(size, i => if i == at then 'x' else 'a'), reader, writer)
  }

  /** With the copy as written, append keeps the content for all bytes exactly when the
      compacting branch is not taken: a condition on the sizes, not on the bytes. */
  lemma AppendAsWrittenIff(size: nat, reader: nat, writer: nat, data: string)
    requires LayoutOk(Layout(seq(size, _ => 'a'), reader, writer))
    ensures (forall b: Layout :: LayoutOk(b) && |b.bytes| == size && b.reader == reader && b.writer == writer ==>
               LayoutOk(Append(b, data, FromBegin)) && Readable(Append(b, data, FromBegin)) == Readable(b) + data)
            <==> !Compacts(Layout(seq(size, _ => 'a'), reader, writer), |data|)
  {
    var blank := Layout(seq(size, _ => 'a'), reader, writer);
    if Compacts(blank, |data|) {
      var b := Marked(size, reader, writer, reader);
      assert LayoutOk(b) && Compacts(b, |data|);
      MakeSpaceOk(b, |data|, FromBegin);
      AppendExtends(b, data, FromBegin);
      var r := Append(b, data, FromBegin);
      assert Readable(r)[0] == b.bytes[0] == 'a';
      assert (Readable(b) + data)[0] == b.bytes[reader] == 'x';
    } else {
      forall b: Layout | LayoutOk(b) && |b.bytes| == size && b.reader == reader && b.writer == writer
        ensures LayoutOk(Append(b, data, FromBegin)) && Readable(Append(b, data, FromBegin)) == Readable(b) + data
      {
        AppendExtends(b, data, FromBegin);
      }
    }
  }

  /** The same for reading from a descriptor: the condition is on the sizes. */
  lemma ReadAsWrittenIff(size: nat, reader: nat, writer: nat, data: string)
    requires LayoutOk(Layout(seq(size, _ => 'a'), reader, writer)) && |data| <= size - writer + EXTRA_SIZE
    ensures (forall b: Layout :: LayoutOk(b) && |b.bytes| == size && b.reader == reader && b.writer == writer ==>
               LayoutOk(ReadFd(b, data, FromBegin)) && Readable(ReadFd(b, data, FromBegin)) == Readable(b) + data)
            <==> !ReadCompacts(Layout(seq(size, _ => 'a'), reader, writer), data)
  {
    hide ReadFd;
    var blank := Layout(seq(size, _ => 'a'), reader, writer);
    if ReadCompacts(blank, data) {
      var b := Marked(size, reader, writer, reader);
      assert LayoutOk(b) && Readable(b) != "" && ReadCompacts(b, data);
      ReadFdExtends(b, data, FromBegin);
      ReadShowsStart(b, data);
      assert Readable(ReadFd(b, data, FromBegin))[0] == b.bytes[0] == 'a';
      assert (Readable(b) + data)[0] == b.bytes[reader] == 'x';
    } else {
      forall b: Layout | LayoutOk(b) && |b.bytes| == size && b.reader == reader && b.writer == writer
        ensures LayoutOk(ReadFd(b, data, FromBegin)) && Readable(ReadFd(b, data, FromBegin)) == Readable(b) + data
      {
        ReadFdExtends(b, data, FromBegin);
      }
    }
  }

  // ---------------------------------------------------------------------------
  // What a compaction as written leaves in the buffer

  /** The content after the copy is what stood at the start of the vector. */
  lemma AppendShowsStart(b: Layout, data: string)
    requires LayoutOk(b) && Compacts(b, |data|)
    ensures LayoutOk(Append(b, data, FromBegin))
    ensures Readable(Append(b, data, FromBegin)) == b.bytes[..|Readable(b)|] + data
  {
    var s := MakeSpace(b, |data|, FromBegin);
    MakeSpaceOk(b, |data|, FromBegin);
    FitsExtends(s, data);
    assert Readable(s) == b.bytes[..|Readable(b)|];
  }

  lemma ReadShowsStart(b: Layout, data: string)
    requires LayoutOk(b) && |data| <= Writable(b) + EXTRA_SIZE && ReadCompacts(b, data)
    ensures LayoutOk(ReadFd(b, data, FromBegin))
    ensures var n := |Readable(b)|;
            var k := if n <= b.reader then n else b.reader;
            |Readable(ReadFd(b, data, FromBegin))| >= k && Readable(ReadFd(b, data, FromBegin))[..k] == b.bytes[..k]
  {
    hide Append, Overlay, MakeSpace;
    var w := Writable(b);
    FitsExtends(b, data[..w]);
    var full := Layout(Overlay(b.bytes, b.writer, data[..w]), b.reader, |b.bytes|);
    AppendShowsStart(full, data[w..]);
    var k := if |Readable(b)| <= b.reader then |Readable(b)| else b.reader;
    assert full.bytes[..k] == b.bytes[..k];
    assert Readable(ReadFd(b, data, FromBegin))[..k] == full.bytes[..|Readable(full)|][..k];
  }

  // ---------------------------------------------------------------------------
  // Whole runs

  datatype Op = DoAppend(data: string) | DoRead(data: string) | DoRetrieve(n: nat)

  predicate OpOk(b: Layout, op: Op)
    requires LayoutOk(b)
  {
    match op
    case DoAppend(_) => true
    case DoRead(data) => |data| <= Writable(b) + EXTRA_SIZE
    case DoRetrieve(n) => n <= |Readable(b)|
  }

  predicate OpCompacts(b: Layout, op: Op)
    requires LayoutOk(b)
  {
    match op
    case DoAppend(data) => Compacts(b, |data|)
    case DoRead(data) => ReadCompacts(b, data)
    case DoRetrieve(_) => false
  }

  function OpNext(b: Layout, op: Op, from: CopyFrom): Layout
    requires LayoutOk(b) && OpOk(b, op)
  {
    match op
    case DoAppend(data) => Append(b, data, from)
    case DoRead(data) => ReadFd(b, data, from)
    case DoRetrieve(n) => Retrieve(b, n)
  }

  /** The same operation on a plain byte sequence. */
  function SpecNext(s: string, op: Op): string {
    match op
    case DoAppend(data) => s + data
    case DoRead(data) => s + data
    case DoRetrieve(n) => if n <= |s| then s[n..] else s
  }

  lemma OpRefines(b: Layout, op: Op, from: CopyFrom)
    requires LayoutOk(b) && OpOk(b, op) && (from.FromReader? || !OpCompacts(b, op))
    ensures LayoutOk(OpNext(b, op, from))
    ensures Readable(OpNext(b, op, from)) == SpecNext(Readable(b), op)
  {
    match op
    case DoAppend(data) => AppendExtends(b, data, from);
    case DoRead(data) => ReadFdExtends(b, data, from);
    case DoRetrieve(n) =>
  }

  /** Every operation is within its bounds. */
  ghost predicate RunOk(b: Layout, ops: seq<Op>, from: CopyFrom)
    decreases |ops|
  {
    LayoutOk(b) && (ops != [] ==> OpOk(b, ops[0]) && RunOk(OpNext(b, ops[0], from), ops[1..], from))
  }

  ghost function Run(b: Layout, ops: seq<Op>, from: CopyFrom): Layout
    requires RunOk(b, ops, from)
    decreases |ops|
  {
    if ops == [] then b else Run(OpNext(b, ops[0], from), ops[1..], from)
  }

  ghost predicate NeverCompacts(b: Layout, ops: seq<Op>, from: CopyFrom)
    requires RunOk(b, ops, from)
    decreases |ops|
  {
    ops != [] ==> !OpCompacts(b, ops[0]) && NeverCompacts(OpNext(b, ops[0], from), ops[1..], from)
  }

  ghost function SpecRun(s: string, ops: seq<Op>): string
    decreases |ops|
  {
    if ops == [] then s else SpecRun(SpecNext(s, ops[0]), ops[1..])
  }

  /** The buffer refines a byte sequence over every run: always with compaction from the
      reader index, and as written as long as no operation compacts. */
  lemma {:induction false} BufferRefinesBytes(b: Layout, ops: seq<Op>, from: CopyFrom)
    requires RunOk(b, ops, from) && (from.FromReader? || NeverCompacts(b, ops, from))
    ensures LayoutOk(Run(b, ops, from)) && Readable(Run(b, ops, from)) == SpecRun(Readable(b), ops)
    decreases |ops|
  {
    if ops != [] {
      OpRefines(b, ops[0], from);
      BufferRefinesBytes(OpNext(b, ops[0], from), ops[1..], from);
    }
  }

  // ---------------------------------------------------------------------------
  // Runs of the code as written from a new buffer

  /** The vector of a new buffer is zeroed. */
  const NEW_LAYOUT := Layout(seq(CHEAP_PREPEND + INITIAL_SIZE, _ => '\0'), CHEAP_PREPEND, CHEAP_PREPEND)

  /** The reserved bytes are as the constructor left them. */
  ghost predicate ReservedIsZero(b: Layout) {
    CHEAP_PREPEND <= |b.bytes| && forall i :: 0 <= i < CHEAP_PREPEND ==> b.bytes[i] == '\0'
  }

  lemma AppendKeepsReserved(b: Layout, data: string, from: CopyFrom)
    requires LayoutOk(b) && ReservedIsZero(b)
    ensures ReservedIsZero(Append(b, data, from))
  {
    MakeSpaceOk(b, |data|, from);
    assert ReservedIsZero(MakeSpace(b, |data|, from));
  }

  lemma OpKeepsReserved(b: Layout, op: Op, from: CopyFrom)
    requires LayoutOk(b) && OpOk(b, op) && ReservedIsZero(b)
    ensures LayoutOk(OpNext(b, op, from)) && ReservedIsZero(OpNext(b, op, from))
  {
    hide Append;
    match op
    case DoAppend(data) =>
      AppendExtends(b, data, from);
      AppendKeepsReserved(b, data, from);
    case DoRead(data) =>
      ReadFdExtends(b, data, from);
      var w := Writable(b);
      if |data| > w {
        FitsExtends(b, data[..w]);
        AppendKeepsReserved(Layout(Overlay(b.bytes, b.writer, data[..w]), b.reader, |b.bytes|), data[w..], from);
      }
    case DoRetrieve(n) =>
  }

  lemma {:induction false} RunKeepsReserved(b: Layout, ops: seq<Op>, from: CopyFrom)
    requires RunOk(b, ops, from) && ReservedIsZero(b)
    ensures LayoutOk(Run(b, ops, from)) && ReservedIsZero(Run(b, ops, from))
    decreases |ops|
  {
    if ops != [] {
      OpKeepsReserved(b, ops[0], from);
      RunKeepsReserved(OpNext(b, ops[0], from), ops[1..], from);
    }
  }

  /** A compaction as written puts zero bytes in place of the first eight readable ones. */
  ghost predicate StartIsZero(b: Layout, r: Layout)
    requires LayoutOk(b) && LayoutOk(r)
  {
    |Readable(r)| >= |Readable(b)| && forall i :: 0 <= i < CHEAP_PREPEND && i < |Readable(b)| ==> Readable(r)[i] == '\0'
  }

  lemma ReadZeroes(b: Layout, data: string)
    requires LayoutOk(b) && ReservedIsZero(b) && |data| <= Writable(b) + EXTRA_SIZE && ReadCompacts(b, data)
    ensures LayoutOk(ReadFd(b, data, FromBegin)) && StartIsZero(b, ReadFd(b, data, FromBegin))
  {
    ReadFdExtends(b, data, FromBegin);
    ReadShowsStart(b, data);
    hide ReadFd;
    var k := if |Readable(b)| <= b.reader then |Readable(b)| else b.reader;
    var r := Readable(ReadFd(b, data, FromBegin));
    assert forall i :: 0 <= i < k ==> r[i] == r[..k][i] == b.bytes[i];
  }

  lemma AppendZeroes(b: Layout, data: string)
    requires LayoutOk(b) && ReservedIsZero(b) && Compacts(b, |data|)
    ensures LayoutOk(Append(b, data, FromBegin)) && StartIsZero(b, Append(b, data, FromBegin))
  {
    AppendShowsStart(b, data);
    hide Append;
  }

  /** That holds after any run of the code as written from a new buffer. */
  lemma CompactionZeroes(ops: seq<Op>, op: Op)
    requires RunOk(NEW_LAYOUT, ops, FromBegin)
    requires var b := Run(NEW_LAYOUT, ops, FromBegin);
             LayoutOk(b) && OpOk(b, op) && OpCompacts(b, op)
    ensures var b := Run(NEW_LAYOUT, ops, FromBegin);
            LayoutOk(OpNext(b, op, FromBegin)) && StartIsZero(b, OpNext(b, op, FromBegin))
  {
    hide StartIsZero, Append, ReadFd;
    var b := Run(NEW_LAYOUT, ops, FromBegin);
    RunKeepsReserved(NEW_LAYOUT, ops, FromBegin);
    match op
    case DoAppend(data) => AppendZeroes(b, data);
    case DoRead(data) => ReadZeroes(b, data);
    case DoRetrieve(_) =>
  }

  lemma ThreeSteps(b: Layout, o1: Op, o2: Op, o3: Op, from: CopyFrom)
    requires LayoutOk(b) && OpOk(b, o1)
    requires var b1 := OpNext(b, o1, from); LayoutOk(b1) && OpOk(b1, o2)
    requires var b2 := OpNext(OpNext(b, o1, from), o2, from); LayoutOk(b2) && OpOk(b2, o3)
    requires LayoutOk(OpNext(OpNext(OpNext(b, o1, from), o2, from), o3, from))
    ensures RunOk(b, [o1, o2, o3], from)
    ensures Run(b, [o1, o2, o3], from) == OpNext(OpNext(OpNext(b, o1, from), o2, from), o3, from)
    ensures forall s :: SpecRun(s, [o1, o2, o3]) == SpecNext(SpecNext(SpecNext(s, o1), o2), o3)
  {
    hide OpNext, OpOk, LayoutOk, SpecNext;
    assert [o1, o2, o3][1..] == [o2, o3] && [o2, o3][1..] == [o3] && [o3][1..] == [];
    var b2 := OpNext(OpNext(b, o1, from), o2, from);
    var b3 := OpNext(b2, o3, from);
    assert RunOk(b3, [], from) && Run(b3, [], from) == b3;
    assert RunOk(b2, [o3], from) && Run(b2, [o3], from) == b3;
    assert RunOk(OpNext(b, o1, from), [o2, o3], from) && Run(OpNext(b, o1, from), [o2, o3], from) == b3;
    assert forall s :: SpecRun(s, []) == s;
    assert forall s :: SpecRun(s, [o3]) == SpecNext(s, o3);
    assert forall s :: SpecRun(s, [o2, o3]) == SpecRun(SpecNext(s, o2), [o3]);
  }

  /** A new buffer with `a` appended and `k` bytes of it retrieved. */
  lemma NewAppendRetrieve(a: string, k: nat) returns (b: Layout)
    requires 0 < k < |a| <= INITIAL_SIZE
    ensures LayoutOk(Append(NEW_LAYOUT, a, FromBegin)) && k <= |Readable(Append(NEW_LAYOUT, a, FromBegin))|
    ensures b == Retrieve(Append(NEW_LAYOUT, a, FromBegin), k) && LayoutOk(b)
    ensures |b.bytes| == |NEW_LAYOUT.bytes| && b.reader == CHEAP_PREPEND + k && b.writer == CHEAP_PREPEND + |a|
    ensures b.bytes[..|a| - k] == (seq(CHEAP_PREPEND, _ => '\0') + a)[..|a| - k]
  {
    var b1 := Append(NEW_LAYOUT, a, FromBegin);
    AppendExtends(NEW_LAYOUT, a, FromBegin);
    assert b1.bytes == Overlay(NEW_LAYOUT.bytes, CHEAP_PREPEND, a);
    b := Retrieve(b1, k);
  }

  /** Append, retrieve, append on a new buffer, such that the second append compacts: instead
      of what was left of `a` the buffer holds the reserved bytes and the start of `a`. */
  lemma AppendRetrieveAppend(a: string, k: nat, d: string)
    requires 0 < k < |a| <= INITIAL_SIZE && INITIAL_SIZE - |a| < |d| <= k + INITIAL_SIZE - |a|
    ensures var ops := [DoAppend(a), DoRetrieve(k), DoAppend(d)];
            && RunOk(NEW_LAYOUT, ops, FromBegin) && LayoutOk(Run(NEW_LAYOUT, ops, FromBegin))
            && SpecRun("", ops) == a[k..] + d
            && Readable(Run(NEW_LAYOUT, ops, FromBegin)) == (seq(CHEAP_PREPEND, _ => '\0') + a)[..|a| - k] + d
  {
    var b := NewAppendRetrieve(a, k);
    AppendShowsStart(b, d);
    hide Append, Retrieve;
    ThreeSteps(NEW_LAYOUT, DoAppend(a), DoRetrieve(k), DoAppend(d), FromBegin);
    assert "" + a == a;
  }

  // ---------------------------------------------------------------------------
  // Finding the end of a line

  /** The first position of CR LF. */
  function FindCRLF(s: string): Option<nat> {
    if |s| < 2 then None
    else if s[0] == '\r' && s[1] == '\n' then Some(0)
    else match FindCRLF(s[1..])
      case None => None
      case Some(i) => Some(i + 1)
  }

  predicate CrlfAt(s: string, i: nat) {
    i + 1 < |s| && s[i] == '\r' && s[i + 1] == '\n'
  }

  lemma {:induction false} FindCRLFIsFirst(s: string)
    ensures FindCRLF(s).Some? ==> CrlfAt(s, FindCRLF(s).value)
    ensures forall i: nat :: CrlfAt(s, i) ==> FindCRLF(s).Some? && FindCRLF(s).value <= i
  {
    if |s| >= 2 {
      FindCRLFIsFirst(s[1..]);
      forall i: nat | CrlfAt(s, i)
        ensures FindCRLF(s).Some? && FindCRLF(s).value <= i
      {
        if i > 0 { assert CrlfAt(s[1..], i - 1); }
      }
    }
  }

  // ---------------------------------------------------------------------------
  // The buffer object

  class Buffer {
    const from: CopyFrom
    var buffer: array<char>
    var readerIndex: nat
    var writerIndex: nat

    ghost function View(): Layout reads this, buffer { Layout(buffer[..], readerIndex, writerIndex) }

    ghost predicate Valid() reads this, buffer { LayoutOk(View()) }

    constructor (from: CopyFrom)
      ensures Valid() && fresh(buffer) && Readable(View()) == "" && this.from == from
    {
      this.from := from;
      buffer := new char[CHEAP_PREPEND + INITIAL_SIZE](_ => '\0');
      readerIndex, writerIndex := CHEAP_PREPEND, CHEAP_PREPEND;
    }

    method ReadableBytes() returns (n: nat)
      requires Valid()
      ensures n == |Readable(View())|
    {
      n := writerIndex - readerIndex;
    }

    method WritableBytes() returns (n: nat)
      requires Valid()
      ensures n == Writable(View())
    {
      n := buffer.Length - writerIndex;
    }

    /** std::copy into the vector: one byte at a time, from a snapshot, inside the vector. */
    method CopyIn(at: nat, data: string)
      requires at <= buffer.Length
      modifies buffer
      ensures buffer[..] == Overlay(old(buffer[..]), at, data)
    {
      var i := 0;
      while i < |data| && at + i < buffer.Length
        invariant 0 <= i <= |data|
        invariant forall k :: 0 <= k < buffer.Length ==>
                    buffer[k] == if at <= k < at + i then data[k - at] else old(buffer[k])
      {
        buffer[at + i] := data[i];
        i := i + 1;
      }
      assert buffer[..] == Overlay(old(buffer[..]), at, data);
    }

    method Resize(size: nat)
      requires buffer.Length <= size
      modifies this`buffer
      ensures fresh(buffer)
      ensures buffer[..] == old(buffer[..]) + seq(size - old(buffer.Length), _ => '\0')
    {
      var old_ := buffer;
      var b := new char[size](_ => '\0');
      for i := 0 to old_.Length
        invariant forall k :: 0 <= k < size ==> b[k] == if k < i then old_[k] else '\0'
      {
        b[i] := old_[i];
      }
      buffer := b;
    }

    method MakeRoom(len: nat)
      requires Valid()
      modifies this, buffer
      ensures Valid() && View() == MakeSpace(old(View()), len, from) && Writable(View()) >= len
      ensures buffer == old(buffer) || fresh(buffer)
    {
      MakeSpaceOk(View(), len, from);
      var writable := WritableBytes();
      if writable >= len { return; }
      if readerIndex - CHEAP_PREPEND + writable >= len {
        var readable := ReadableBytes();
        if from.FromReader? {
          CopyIn(CHEAP_PREPEND, buffer[readerIndex..writerIndex]);
        } else {
          CopyIn(CHEAP_PREPEND, buffer[..writerIndex]);
        }
        writerIndex := CHEAP_PREPEND + readable;
        readerIndex := CHEAP_PREPEND;
      } else {
        Resize(writerIndex + len);
      }
    }

    method AppendBytes(data: string)
      requires Valid()
      modifies this, buffer
      ensures Valid() && View() == Append(old(View()), data, from)
      ensures buffer == old(buffer) || fresh(buffer)
    {
      AppendExtends(View(), data, from);
      MakeRoom(|data|);
      CopyIn(writerIndex, data);
      writerIndex := writerIndex + |data|;
    }

    method RetrieveAll()
      requires Valid()
      modifies this`readerIndex, this`writerIndex
      ensures Valid() && Readable(View()) == ""
    {
      readerIndex, writerIndex := CHEAP_PREPEND, CHEAP_PREPEND;
    }

    method RetrieveBytes(n: nat)
      requires Valid() && n <= |Readable(View())|
      modifies this`readerIndex, this`writerIndex
      ensures Valid() && View() == Retrieve(old(View()), n)
      ensures Readable(View()) == old(Readable(View()))[n..]
    {
      readerIndex := readerIndex + n;
      if readerIndex == writerIndex {
        readerIndex, writerIndex := CHEAP_PREPEND, CHEAP_PREPEND;
      }
    }

    /** A copy of the first `n` readable bytes. */
    method Front(n: nat) returns (s: string)
      requires Valid() && n <= |Readable(View())|
      ensures s == Readable(View())[..n]
    {
      s := buffer[readerIndex..readerIndex + n];
      assert forall k :: 0 <= k < n ==> s[k] == buffer[readerIndex + k] == Readable(View())[k];
    }

    method RetrieveAsString() returns (s: string)
      requires Valid()
      modifies this`readerIndex, this`writerIndex
      ensures Valid() && s == old(Readable(View())) && Readable(View()) == ""
    {
      s := Front(writerIndex - readerIndex);
      RetrieveAll();
    }

    /** `data` is what readv(2) delivers. */
    method ReadFrom(data: string)
      requires Valid() && |data| <= Writable(View()) + EXTRA_SIZE
      modifies this, buffer
      ensures Valid() && View() == ReadFd(old(View()), data, from)
      ensures from.FromReader? || !old(ReadCompacts(View(), data)) ==> Readable(View()) == old(Readable(View())) + data
      ensures buffer == old(buffer) || fresh(buffer)
    {
      ReadFdExtends(View(), data, from);
      var writable := WritableBytes();
      if |data| <= writable {
        CopyIn(writerIndex, data);
        writerIndex := writerIndex + |data|;
      } else {
        CopyIn(writerIndex, data[..writable]);
        writerIndex := buffer.Length;
        AppendBytes(data[writable..]);
      }
    }

    /** The offset of the first CR LF in the readable bytes. */
    method SearchCRLF() returns (r: Option<nat>)
      requires Valid()
      ensures r == FindCRLF(Readable(View()))
    {
      FindCRLFIsFirst(Readable(View()));
      var i := readerIndex;
      while i + 1 < writerIndex
        invariant readerIndex <= i <= writerIndex
        invariant forall k: nat :: k < i - readerIndex ==> !CrlfAt(Readable(View()), k)
      {
        if buffer[i] == '\r' && buffer[i + 1] == '\n' {
          assert CrlfAt(Readable(View()), i - readerIndex);
          return Some(i - readerIndex);
        }
        i := i + 1;
      }
      assert forall k: nat :: !CrlfAt(Readable(View()), k);
      r := None;
    }
  }
}
