/**
  The byte buffer under every connection (include/net/Buffer.h, src/net/Buffer.cpp): one vector
  with a read index and a write index. Bytes are modelled as `char`.

  The growth branch of MakeSpace resizes to WriteableBytes() + len. Room for len more bytes needs
  WriterIndex_ + len, so the branch can leave too little room, and even cut readable bytes off.
  `Growth` selects between the size the code asks for and the one that is needed; every operation
  below is proved for both, and RoomIff says exactly when the code's own choice is enough.
 */
module Buffers {
  import opened Wrappers

  const CHEAP_PREPEND: nat := 8
  const INITIAL_SIZE: nat := 1024
  const EXTRA_SIZE: nat := 65536

  datatype Growth = AsWritten | Intended

  /** The three numbers of a buffer: vector size, ReaderIndex_, WriterIndex_. */
  datatype Layout = Layout(size: nat, reader: nat, writer: nat) {
    predicate Valid() {
      CHEAP_PREPEND <= reader <= writer <= size
    }

    function Writeable(): nat
      requires Valid()
    {
      size - writer
    }

    /** The guard of the growth branch, as it is met inside EnsureWriteableBytes. */
    predicate Grows(len: nat)
      requires Valid()
    {
      Writeable() < len && Writeable() + reader < len + CHEAP_PREPEND
    }

    /** Where the three numbers stand after EnsureWriteableBytes(len). */
    function Ensured(growth: Growth, len: nat): Layout
      requires Valid()
    {
      if len <= Writeable() then this
      else if Grows(len) then
        Layout(if growth == AsWritten then Writeable() + len else writer + len, reader, writer)
      else
        Layout(size, CHEAP_PREPEND, CHEAP_PREPEND + (writer - reader))
    }

    /** Whether len bytes fit behind WriterIndex_ once space has been made. */
    predicate HasRoom(growth: Growth, len: nat)
      requires Valid()
    {
      Ensured(growth, len).writer + len <= Ensured(growth, len).size
    }

    /** After append of n bytes. */
    function Stored(growth: Growth, n: nat): Layout
      requires Valid()
    {
      var l := Ensured(growth, n);
      l.(writer := l.writer + n)
    }

    /** After retrieve(n). */
    function Freed(n: nat): Layout
      requires Valid()
    {
      if n < writer - reader then this.(reader := reader + n) else this.(reader := CHEAP_PREPEND, writer := CHEAP_PREPEND)
    }

    /** The whole vector filled, as readv leaves it when it had to spill. */
    function Filled(): Layout {
      this.(writer := size)
    }

    /** After a read of n bytes, those that spilled appended. */
    function Received(growth: Growth, n: nat): Layout
      requires Valid()
    {
      if n <= Writeable() then this.(writer := writer + n) else Filled().Stored(growth, n - Writeable())
    }

    /** The most that readv can deliver. */
    function Deliverable(): nat
      requires Valid()
    {
      Writeable() + if Writeable() < EXTRA_SIZE then EXTRA_SIZE else 0
    }

    predicate SafeToReceive(growth: Growth, n: nat)
      requires Valid()
    {
      n <= Writeable() || Filled().Safe(growth, n - Writeable())
    }

    /** What a caller can check before the call: no growth is needed, or the buffer is at most half used. */
    predicate Safe(growth: Growth, len: nat)
      requires Valid()
    {
      growth == Intended || !Grows(len) || writer <= Writeable()
    }
  }

  /** Space is made for len bytes exactly when Safe holds; with the intended size it always is. */
  lemma RoomIff(l: Layout, growth: Growth, len: nat)
    requires l.Valid()
    ensures l.HasRoom(growth, len) <==> l.Safe(growth, len)
    ensures l.HasRoom(growth, len) ==> l.Ensured(growth, len).Valid()
    ensures len <= l.size - l.writer ==> l.Ensured(growth, len) == l
  {
  }

  /** A default buffer that holds 992 bytes: appending 100 more shrinks the vector to 132 bytes. */
  lemma GrowthGap()
    ensures var l := Layout(CHEAP_PREPEND + INITIAL_SIZE, CHEAP_PREPEND, 1000);
            && l.Valid()
            && l.Ensured(AsWritten, 100).size == 132 < l.writer
            && !l.HasRoom(AsWritten, 100)
            && l.HasRoom(Intended, 100)
  {
  }

  /** Compaction is reached only when there is something in front to win back. */
  lemma CompactionMovesLeft(l: Layout, len: nat)
    requires l.Valid() && l.Writeable() < len && !l.Grows(len)
    ensures CHEAP_PREPEND < l.reader
  {
  }

  /** The three numbers, whatever branch is taken: the indices stay in order and the bytes between them add up. */
  lemma LayoutKept(l: Layout, growth: Growth, n: nat)
    requires l.Valid()
    ensures var f := l.Freed(n);
            f.Valid() && f.writer - f.reader == if n < l.writer - l.reader then l.writer - l.reader - n else 0
    ensures n >= l.writer - l.reader ==> l.Freed(n) == Layout(l.size, 8, 8)
    ensures l.Safe(growth, n) ==>
              (var t := l.Stored(growth, n); t.Valid() && t.writer - t.reader == l.writer - l.reader + n)
    ensures l.SafeToReceive(growth, n) ==>
              (var t := l.Received(growth, n); t.Valid() && t.writer - t.reader == l.writer - l.reader + n)
  {
  }

  /** readv is given the writeable part, and 64K besides when that is smaller than 64K. */
  lemma ReadvSizes(l: Layout)
    requires l.Valid()
    ensures l.Deliverable() == (l.size - l.writer) + if l.size - l.writer < 65536 then 65536 else 0
  {
  }

  // ---------------------------------------------------------------------------------------------
  // Sequences of operations
  // ---------------------------------------------------------------------------------------------

  datatype BufferOp =
    | PutIn(bytes: string)    // append
    | ReadIn(bytes: string)   // ReadFromFd that is given these bytes
    | ReadFails               // ReadFromFd that is given an error
    | TakeOut(len: nat)       // RetrieveToString of so many bytes, or of all there are

  predicate Allows(l: Layout, growth: Growth, op: BufferOp)
    requires l.Valid()
  {
    match op
    case PutIn(bytes) => l.Safe(growth, |bytes|)
    case ReadIn(bytes) => l.SafeToReceive(growth, |bytes|)
    case _ => true
  }

  function AfterOne(l: Layout, growth: Growth, op: BufferOp): (r: Layout)
    requires l.Valid() && Allows(l, growth, op)
    ensures r.Valid()
  {
    match op
    case PutIn(bytes) => LayoutKept(l, growth, |bytes|); l.Stored(growth, |bytes|)
    case ReadIn(bytes) => LayoutKept(l, growth, |bytes|); l.Received(growth, |bytes|)
    case ReadFails => l
    case TakeOut(len) => LayoutKept(l, growth, len); l.Freed(len)
  }

  /** Where the three numbers stand, None when an operation has written past the vector. */
  type Standing = o: Option<Layout> | o.Some? ==> o.value.Valid() witness None

  function Next(before: Standing, growth: Growth, op: BufferOp): Standing {
    if before.Some? && Allows(before.value, growth, op) then Some(AfterOne(before.value, growth, op)) else None
  }

  /** Where they stand after n operations. */
  function LayoutAfter(l: Layout, growth: Growth, ops: seq<BufferOp>, n: nat): (r: Option<Layout>)
    requires l.Valid() && n <= |ops|
    ensures r.Some? ==> r.value.Valid()
  {
    if n == 0 then Some(l) else Next(LayoutAfter(l, growth, ops, n - 1), growth, ops[n - 1])
  }

  /** No operation of the sequence writes past the vector. */
  predicate AllowsAll(l: Layout, growth: Growth, ops: seq<BufferOp>)
    requires l.Valid()
  {
    LayoutAfter(l, growth, ops, |ops|).Some?
  }

  /** With the intended growth every sequence stays in bounds. */
  lemma {:induction false} IntendedStaysInBounds(l: Layout, ops: seq<BufferOp>, n: nat)
    requires l.Valid() && n <= |ops|
    ensures LayoutAfter(l, Intended, ops, n).Some?
  {
    if n > 0 {
      IntendedStaysInBounds(l, ops, n - 1);
    }
  }

  /** readv fills the writeable part and, when that is small, 64K of stack; it never delivers more. */
  ghost predicate KernelObeys(l: Layout, growth: Growth, ops: seq<BufferOp>, n: nat)
    requires l.Valid() && n <= |ops|
  {
    n == 0 ||
    (KernelObeys(l, growth, ops, n - 1)
     && (ops[n - 1].ReadIn? && LayoutAfter(l, growth, ops, n - 1).Some? ==>
           |ops[n - 1].bytes| <= LayoutAfter(l, growth, ops, n - 1).value.Deliverable()))
  }

  /** From one layout to the next, for an operation that the kernel can have allowed. */
  ghost predicate Leads(before: Option<Layout>, growth: Growth, op: BufferOp, after: Option<Layout>) {
    if before.None? then after.None?
    else
      var l := before.value;
      && l.Valid() && (op.ReadIn? ==> |op.bytes| <= l.Deliverable())
      && after == if Allows(l, growth, op) then Some(AfterOne(l, growth, op)) else None
  }

  lemma NextLayout(l: Layout, growth: Growth, ops: seq<BufferOp>, n: nat)
    requires l.Valid() && n < |ops| && KernelObeys(l, growth, ops, n + 1)
    ensures Leads(LayoutAfter(l, growth, ops, n), growth, ops[n], LayoutAfter(l, growth, ops, n + 1))
    ensures KernelObeys(l, growth, ops, n)
  {
  }

  /** The layouts between the operations; where there is none, there is none at the end. */
  lemma {:induction false} LayoutsOf(l: Layout, growth: Growth, ops: seq<BufferOp>, n: nat) returns (ls: seq<Option<Layout>>)
    requires l.Valid() && n <= |ops| && KernelObeys(l, growth, ops, n)
    ensures |ls| == n + 1 && ls[0] == Some(l) && ls[n] == LayoutAfter(l, growth, ops, n)
    ensures forall k {:trigger ops[k]} :: 0 <= k < n ==> Leads(ls[k], growth, ops[k], ls[k + 1])
    ensures forall k :: 0 <= k <= n && ls[k].None? ==> ls[n].None?
  {
    if n == 0 {
      ls := [Some(l)];
    } else {
      NextLayout(l, growth, ops, n - 1);
      var before := LayoutsOf(l, growth, ops, n - 1);
      ls := before + [LayoutAfter(l, growth, ops, n)];
    }
  }

  /** All bytes that the first n operations bring. */
  function Brought(ops: seq<BufferOp>, n: nat): string
    requires n <= |ops|
  {
    if n == 0 then ""
    else Brought(ops, n - 1) + BroughtBy(ops[n - 1])
  }

  function BroughtBy(op: BufferOp): string {
    if op.PutIn? || op.ReadIn? then op.bytes else ""
  }

  predicate CrlfAt(s: string, i: int) {
    0 <= i && i + 1 < |s| && s[i] == '\r' && s[i + 1] == '\n'
  }

  /** The first CRLF of s: what std::search looks for. */
  function FindCrlf(s: string): (r: Option<nat>)
    ensures r.Some? ==> CrlfAt(s, r.value) && forall j :: 0 <= j < r.value ==> !CrlfAt(s, j)
    ensures r.None? ==> forall j :: !CrlfAt(s, j)
  {
    if |s| < 2 then None
    else if CrlfAt(s, 0) then Some(0)
    else
      var rest := FindCrlf(s[1..]);
      assert forall j :: CrlfAt(s[1..], j) <==> 0 <= j && CrlfAt(s, j + 1);
      assert forall j :: CrlfAt(s, j) ==> j == 0 || CrlfAt(s[1..], j - 1);
      if rest.None? then None else Some(rest.value + 1)
  }

  lemma CrlfIs(s: string, i: nat)
    ensures CrlfAt(s, i) <==> i + 2 <= |s| && s[i..i + 2] == "\r\n"
  {
  }

  lemma FindCrlfIs(s: string, i: nat)
    requires CrlfAt(s, i) && forall j :: 0 <= j < i ==> !CrlfAt(s, j)
    ensures FindCrlf(s) == Some(i)
  {
  }

  /** More bytes behind a line do not move its end. */
  lemma FindCrlfStable(a: string, b: string)
    requires FindCrlf(a).Some?
    ensures FindCrlf(a + b) == FindCrlf(a)
  {
    var i := FindCrlf(a).value;
    forall j | 0 <= j < i ensures !CrlfAt(a + b, j) {
      assert !CrlfAt(a, j);
    }
    FindCrlfIs(a + b, i);
  }

  /** What write(2) may do with a non-empty or empty range of n bytes. */
  datatype IoResult = Taken(count: nat) | WouldBlock | PeerGone | OtherError

  class Buffer {
    const growth: Growth
    var data: array<char>
    var readerIndex: nat
    var writerIndex: nat

    ghost function Shape(): Layout
      reads this
    {
      Layout(data.Length, readerIndex, writerIndex)
    }

    ghost predicate Valid()
      reads this
    {
      Shape().Valid()
    }

    /** The abstract value: the bytes between the two indices, a FIFO of bytes. */
    ghost function Readable(): string
      reads this, data
      requires Valid()
    {
      data[readerIndex..writerIndex]
    }

    constructor (growth: Growth, initialSize: nat := INITIAL_SIZE)
      ensures Valid() && Readable() == "" && fresh(data) && this.growth == growth
      ensures Shape() == Layout(CHEAP_PREPEND + initialSize, CHEAP_PREPEND, CHEAP_PREPEND)
    {
      this.growth := growth;
      data := new char[CHEAP_PREPEND + initialSize](_ => '\0');
      readerIndex := CHEAP_PREPEND;
      writerIndex := CHEAP_PREPEND;
    }

    method RetrieveAll()
      requires Valid()
      modifies this
      ensures Valid() && data == old(data) && Readable() == ""
      ensures Shape() == Layout(data.Length, CHEAP_PREPEND, CHEAP_PREPEND)
    {
      readerIndex := CHEAP_PREPEND;
      writerIndex := CHEAP_PREPEND;
    }

    method Retrieve(len: nat)
      requires Valid()
      modifies this
      ensures Valid() && data == old(data) && Shape() == old(Shape()).Freed(len)
      ensures Readable() == if len <= |old(Readable())| then old(Readable())[len..] else ""
    {
      if len < writerIndex - readerIndex {
        readerIndex := readerIndex + len;
      } else {
        RetrieveAll();
      }
    }

    /** The first len bytes from peek() on. */
    method Peek(len: nat) returns (bytes: string)
      requires Valid() && len <= |Readable()|
      ensures bytes == Readable()[..len]
    {
      bytes := data[readerIndex..readerIndex + len];
      assert data[readerIndex..writerIndex][..len] == bytes;
    }

    method RetrieveToString(len: nat) returns (result: string)
      requires Valid() && len <= |Readable()|
      modifies this
      ensures Valid() && data == old(data) && Shape() == old(Shape()).Freed(len)
      ensures result + Readable() == old(Readable()) && |result| == len
    {
      result := Peek(len);
      Retrieve(len);
    }

    method RetrieveAllToString() returns (result: string)
      requires Valid()
      modifies this
      ensures Valid() && data == old(data) && Readable() == "" && result == old(Readable())
    {
      result := RetrieveToString(writerIndex - readerIndex);
    }

    /** std::vector::resize: keeps the common prefix, fills with zero bytes. */
    method Resize(size: nat)
      modifies this`data
      ensures fresh(data) && data.Length == size
      ensures forall i :: 0 <= i < size && i < old(data.Length) ==> data[i] == old(data[i])
    {
      var grown := new char[size](_ => '\0');
      var common := if size < data.Length then size else data.Length;
      for k := 0 to common
        invariant forall i :: 0 <= i < k ==> grown[i] == data[i]
        modifies grown
      {
        grown[k] := data[k];
      }
      data := grown;
    }

    /** std::copy of the readable bytes to the front. The ranges overlap when the gap is short. */
    method Compact()
      requires Valid() && CHEAP_PREPEND < readerIndex
      modifies this`readerIndex, this`writerIndex, data
      ensures Shape() == Layout(data.Length, CHEAP_PREPEND, CHEAP_PREPEND + (old(writerIndex) - old(readerIndex)))
      ensures Valid() && Readable() == old(Readable())
    {
      var n := writerIndex - readerIndex;
      ghost var was := data[..];
      for k := 0 to n
        invariant forall p :: CHEAP_PREPEND <= p < CHEAP_PREPEND + k ==> data[p] == was[p - CHEAP_PREPEND + readerIndex]
        invariant forall p :: readerIndex + k <= p < writerIndex ==> data[p] == was[p]
        modifies data
      {
        data[CHEAP_PREPEND + k] := data[readerIndex + k];
      }
      assert data[CHEAP_PREPEND..CHEAP_PREPEND + n] == was[readerIndex..writerIndex];
      readerIndex := CHEAP_PREPEND;
      writerIndex := CHEAP_PREPEND + n;
    }

    method MakeSpace(len: nat)
      requires Valid() && Shape().Writeable() < len
      modifies this, data
      ensures data == old(data) || fresh(data)
      ensures Shape() == old(Shape()).Ensured(growth, len)
      ensures Valid() ==> Readable() == old(Readable())
    {
      if data.Length - writerIndex + readerIndex < len + CHEAP_PREPEND {
        Resize(if growth == AsWritten then data.Length - writerIndex + len else writerIndex + len);
      } else {
        CompactionMovesLeft(Shape(), len);
        Compact();
      }
    }

    method EnsureWriteableBytes(len: nat)
      requires Valid()
      modifies this, data
      ensures data == old(data) || fresh(data)
      ensures Shape() == old(Shape()).Ensured(growth, len)
      ensures Valid() ==> Readable() == old(Readable())
    {
      if data.Length - writerIndex < len {
        MakeSpace(len);
      }
    }

    /**
      Appends the bytes. `inBounds` is false when the copy would run past the vector; the original
      then has no defined behaviour and the model stops before the copy.
     */
    method Append(bytes: string) returns (inBounds: bool)
      requires Valid()
      modifies this, data
      ensures data == old(data) || fresh(data)
      ensures inBounds <==> old(Shape()).Safe(growth, |bytes|)
      ensures inBounds ==> Valid() && Shape() == old(Shape()).Stored(growth, |bytes|)
      ensures inBounds ==> Readable() == old(Readable()) + bytes
    {
      RoomIff(Shape(), growth, |bytes|);
      EnsureWriteableBytes(|bytes|);
      inBounds := writerIndex + |bytes| <= data.Length;
      if inBounds {
        CopyIn(bytes);
      }
    }

    /** std::copy to BeginWrite(), and the new WriterIndex_. */
    method CopyIn(bytes: string)
      requires Valid() && |bytes| <= Shape().Writeable()
      modifies this`writerIndex, data
      ensures Valid() && Shape() == old(Shape()).(writer := old(writerIndex) + |bytes|)
      ensures Readable() == old(Readable()) + bytes
    {
      forall i | 0 <= i < |bytes| {
        data[writerIndex + i] := bytes[i];
      }
      writerIndex := writerIndex + |bytes|;
      assert data[readerIndex..old(writerIndex)] == old(Readable());
      assert data[old(writerIndex)..writerIndex] == bytes;
    }

    /**
      readv(2) into the writeable part and 64K of stack. `incoming` is what the kernel delivers,
      None is an error. `n` is the return value.
     */
    method ReadFromFd(incoming: Option<string>) returns (n: int, inBounds: bool)
      requires Valid()
      requires incoming.Some? ==> |incoming.value| <= Shape().Deliverable()
      modifies this, data
      ensures data == old(data) || fresh(data)
      ensures incoming.None? ==> n == -1 && inBounds && Valid() && Shape() == old(Shape()) && Readable() == old(Readable())
      ensures incoming.Some? ==> n == |incoming.value|
      ensures incoming.Some? ==> (inBounds <==> old(Shape()).SafeToReceive(growth, n))
      ensures incoming.Some? && inBounds ==> Valid() && Shape() == old(Shape()).Received(growth, n)
      ensures incoming.Some? && inBounds ==> Readable() == old(Readable()) + incoming.value
    {
      var writeable := data.Length - writerIndex;
      inBounds := true;
      match incoming
      case None =>
        n := -1;
      case Some(bytes) =>
        n := |bytes|;
        var direct := if n <= writeable then n else writeable;
        CopyIn(bytes[..direct]);
        if writeable < n {
          inBounds := Append(bytes[direct..]);
          assert bytes == bytes[..direct] + bytes[direct..];
        }
    }

    /** write(2) of the readable bytes; the buffer itself does not change. */
    method WriteFromFd(result: IoResult) returns (n: int)
      requires Valid()
      requires result.Taken? ==> result.count <= |Readable()|
      ensures n == if result.Taken? then result.count else -1
    {
      n := if result.Taken? then result.count else -1;
    }

    /**
      Any sequence of operations over the vector, up to one that would write past it. What was taken
      out and then what is readable are what was readable at first and then all that was brought.
     */
    method Perform(ops: seq<BufferOp>) returns (output: string, inBounds: bool)
      requires Valid() && KernelObeys(Shape(), growth, ops, |ops|)
      modifies this, data
      ensures data == old(data) || fresh(data)
      ensures inBounds <==> AllowsAll(old(Shape()), growth, ops)
      ensures inBounds ==> Valid() && Some(Shape()) == LayoutAfter(old(Shape()), growth, ops, |ops|)
      ensures inBounds ==> output + Readable() == old(Readable()) + Brought(ops, |ops|)
    {
      ghost var ls := LayoutsOf(Shape(), growth, ops, |ops|);
      output, inBounds := PerformAlong(ops, ls);
    }

    /** `ls` are the layouts between the operations. */
    method PerformAlong(ops: seq<BufferOp>, ghost ls: seq<Option<Layout>>) returns (output: string, inBounds: bool)
      requires Valid() && |ls| == |ops| + 1 && ls[0] == Some(Shape())
      requires forall k {:trigger ops[k]} :: 0 <= k < |ops| ==> Leads(ls[k], growth, ops[k], ls[k + 1])
      requires forall k :: 0 <= k <= |ops| && ls[k].None? ==> ls[|ops|].None?
      modifies this, data
      ensures data == old(data) || fresh(data)
      ensures inBounds <==> ls[|ops|].Some?
      ensures inBounds ==> Valid() && Some(Shape()) == ls[|ops|]
      ensures inBounds ==> output + Readable() == old(Readable()) + Brought(ops, |ops|)
    {
      output, inBounds := "", true;
      var i := 0;
      while i < |ops| && inBounds
        invariant i <= |ops| && (data == old(data) || fresh(data))
        invariant inBounds <==> ls[i].Some?
        invariant inBounds ==> Valid() && ls[i] == Some(Shape())
        invariant inBounds ==> output + Readable() == old(Readable()) + Brought(ops, i)
      {
        ghost var was := Readable();
        ghost var after := ls[i + 1];
        var taken, fits := PerformOne(ops[i], ls[i], after);
        if fits {
          OneMore(output, was, taken, Readable(), old(Readable()), Brought(ops, i), BroughtBy(ops[i]));
        }
        output, inBounds, i := output + taken, fits, i + 1;
      }
    }

    static lemma OneMore(output: string, before: string, taken: string, now: string, first: string, brought: string, more: string)
      requires output + before == first + brought && taken + now == before + more
      ensures output + taken + now == first + (brought + more)
    {
      assert output + taken + now == output + (before + more);
      assert output + (before + more) == first + brought + more;
    }

    method PerformOne(op: BufferOp, ghost before: Option<Layout>, ghost after: Option<Layout>)
      returns (taken: string, inBounds: bool)
      requires Valid() && before == Some(Shape()) && Leads(before, growth, op, after)
      modifies this, data
      ensures data == old(data) || fresh(data)
      ensures inBounds <==> after.Some?
      ensures inBounds ==> Valid() && after == Some(Shape())
      ensures inBounds ==> taken + Readable() == old(Readable()) + BroughtBy(op)
    {
      taken, inBounds := "", true;
      match op {
        case PutIn(bytes) => inBounds := Append(bytes);
        case ReadIn(bytes) =>
          var n;
          n, inBounds := ReadFromFd(Some(bytes));
        case ReadFails =>
          var n;
          n, inBounds := ReadFromFd(None);
        case TakeOut(len) =>
          taken := RetrieveToString(if len <= writerIndex - readerIndex then len else writerIndex - readerIndex);
      }
    }

    /** The offset of the first CRLF in the readable bytes. */
    method FindCRLF() returns (r: Option<nat>)
      requires Valid()
      ensures r == FindCrlf(Readable())
    {
      var i := readerIndex;
      while i + 1 < writerIndex
        invariant readerIndex <= i <= writerIndex
        invariant forall j :: 0 <= j < i - readerIndex ==> !CrlfAt(Readable(), j)
      {
        if data[i] == '\r' && data[i + 1] == '\n' {
          FindCrlfIs(Readable(), i - readerIndex);
          return Some(i - readerIndex);
        }
        i := i + 1;
      }
      return None;
    }
  }

  /** With the code's own growth, a spilled read is safe exactly when the spill fits in front of the data. */
  lemma SpillSafeIff(l: Layout, spill: nat)
    requires l.Valid() && 0 < spill && l.writer == l.size
    ensures l.Safe(AsWritten, spill) <==> spill + CHEAP_PREPEND <= l.reader
  {
  }
}
