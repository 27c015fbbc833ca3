/** The I/O buffer (src/buffer.c): a FIFO kept in a fixed array between a read and a write index. */
module Buffers {
  import opened Bytes

  /**
   * The abstract value of a buffer. `off` is where the pending octets start in the
   * array: space in front of them is not available to writers until a compaction.
   */
  datatype Fifo = Fifo(off: nat, contents: seq<byte>, limit: nat) {
    /** An empty buffer is always rewound, so all of its capacity is available. */
    predicate Valid() {
      off + |contents| <= limit && (contents == [] ==> off == 0)
    }

    function Room(): int {
      limit - off - |contents|
    }

    function Push(s: seq<byte>): Fifo
      requires |s| <= Room()
    {
      this.(contents := contents + s)
    }

    function Pop(k: nat): Fifo
      requires k <= |contents|
    {
      if k == |contents| then Fifo(0, [], limit) else Fifo(off + k, contents[k..], limit)
    }

    function Compacted(): Fifo {
      this.(off := 0)
    }
  }

  function EmptyFifo(limit: nat): Fifo {
    Fifo(0, [], limit)
  }

  datatype Op = In(bytes: seq<byte>) | Out(count: nat) | Compact

  /** The calls the buffer accepts: the assertions in buffer_write_adv and buffer_read_adv. */
  predicate Accepts(f: Fifo, op: Op) {
    match op
    case In(s) => |s| <= f.Room()
    case Out(k) => k <= |f.contents|
    case Compact => true
  }

  function Apply(f: Fifo, op: Op): Fifo
    requires Accepts(f, op)
  {
    match op
    case In(s) => f.Push(s)
    case Out(k) => f.Pop(k)
    case Compact => f.Compacted()
  }

  predicate AcceptsAll(f: Fifo, ops: seq<Op>)
    decreases |ops|
  {
    ops == [] || (Accepts(f, ops[0]) && AcceptsAll(Apply(f, ops[0]), ops[1..]))
  }

  function Run(f: Fifo, ops: seq<Op>): Fifo
    requires AcceptsAll(f, ops)
    decreases |ops|
  {
    if ops == [] then f else Run(Apply(f, ops[0]), ops[1..])
  }

  /** Everything written by a run, in order. */
  function Written(ops: seq<Op>): seq<byte> {
    if ops == [] then [] else (if ops[0].In? then ops[0].bytes else []) + Written(ops[1..])
  }

  /** Everything taken out by a run, in order. */
  function Taken(f: Fifo, ops: seq<Op>): seq<byte>
    requires AcceptsAll(f, ops)
    decreases |ops|
  {
    if ops == [] then []
    else (if ops[0].Out? then f.contents[..ops[0].count] else []) + Taken(Apply(f, ops[0]), ops[1..])
  }

  /** Conservation: over any run nothing is lost, duplicated or reordered, and the buffer stays well formed. */
  lemma {:induction false} RunConserves(f: Fifo, ops: seq<Op>)
    requires f.Valid() && AcceptsAll(f, ops)
    ensures Run(f, ops).Valid() && Run(f, ops).limit == f.limit
    ensures Taken(f, ops) + Run(f, ops).contents == f.contents + Written(ops)
    decreases |ops|
  {
    if ops != [] {
      var g := Apply(f, ops[0]);
      RunConserves(g, ops[1..]);
      var w, t, c := Written(ops[1..]), Taken(g, ops[1..]), Run(g, ops[1..]).contents;
      match ops[0]
      case In(s) =>
        assert (f.contents + s) + w == f.contents + (s + w);
      case Out(k) =>
        assert f.contents == f.contents[..k] + g.contents;
        assert (f.contents[..k] + t) + c == f.contents[..k] + (t + c);
        assert (f.contents[..k] + g.contents) + w == f.contents[..k] + (g.contents + w);
      case Compact =>
        assert [] + t == t && [] + w == w;
    }
  }

  /** A buffer of positive capacity is never both unreadable and unwritable. */
  lemma NeverWedged(f: Fifo)
    requires f.Valid() && f.limit > 0
    ensures f.contents == [] ==> f.Room() == f.limit
    ensures f.Room() > 0 || |f.contents| > 0
  {
  }

  class Buffer {
    const data: array<byte>
    const limit: nat
    var read: nat
    var write: nat

    /** What buffer.c asserts between any two statements. */
    ghost predicate Ordered()
      reads this
    {
      read <= write <= limit <= data.Length
    }

    /** What holds between calls: buffer_read_adv compacts as soon as the buffer is drained. */
    ghost predicate Valid()
      reads this
      ensures Valid() ==> Ordered()
    {
      Ordered() && (read == write ==> read == 0)
    }

    ghost function Value(): (f: Fifo)
      requires Ordered()
      reads this, data
      ensures f.limit == limit && |f.contents| == write - read
    {
      Fifo(read, data[read..write], limit)
    }

    constructor (n: nat, data: array<byte>)
      requires n <= data.Length
      ensures Valid() && Value() == EmptyFifo(n) && this.data == data
    {
      this.data := data;
      limit := n;
      read, write := 0, 0;
    }

    method Reset()
      requires Ordered()
      modifies this`read, this`write
      ensures Valid() && Value() == EmptyFifo(limit)
    {
      read := 0;
      write := 0;
    }

    method CanWrite() returns (b: bool)
      requires Ordered()
      ensures b <==> Value().Room() > 0
    {
      b := limit - write > 0;
    }

    method CanRead() returns (b: bool)
      requires Ordered()
      ensures b <==> Value().contents != []
    {
      b := write - read > 0;
    }

    /** Where a writer may store, and how many octets. */
    method WritePtr() returns (at: nat, nbyte: nat)
      requires Ordered()
      ensures at == write && nbyte == Value().Room()
    {
      at, nbyte := write, limit - write;
    }

    /** Where a reader may load from, and how many octets. */
    method ReadPtr() returns (at: nat, nbyte: nat)
      requires Ordered()
      ensures at + nbyte <= data.Length && data[at..at + nbyte] == Value().contents
    {
      at, nbyte := read, write - read;
    }

    /** Makes the octets stored at WritePtr part of the contents; a negative count is ignored. */
    method WriteAdv(bytes: int)
      requires Valid() && bytes <= Value().Room()
      modifies this`write
      ensures Valid()
      ensures bytes < 0 ==> Value() == old(Value())
      ensures bytes >= 0 ==> Value() == old(Value()).Push(old(data[write..write + bytes]))
    {
      if bytes > -1 {
        write := write + bytes;
        assert data[read..write] == old(data[read..write]) + old(data[write..write + bytes]);
      }
    }

    method ReadAdv(bytes: int)
      requires Valid() && bytes <= |Value().contents|
      modifies this`read, this`write, data
      ensures Valid()
      ensures Value() == if bytes < 0 then old(Value()) else old(Value()).Pop(bytes)
    {
      if bytes > -1 {
        read := read + bytes;
        if read == write {
          Compact();
        } else {
          assert data[read..write] == old(data[read..write])[bytes..];
        }
      }
    }

    method ReadByte() returns (ret: byte)
      requires Valid()
      modifies this`read, this`write, data
      ensures Valid()
      ensures old(Value()).contents == [] ==> ret == 0 && Value() == old(Value())
      ensures old(Value()).contents != [] ==> ret == old(Value()).contents[0] && Value() == old(Value()).Pop(1)
    {
      var readable := CanRead();
      if readable {
        ret := data[read];
        ReadAdv(1);
      } else {
        ret := 0;
      }
    }

    method WriteByte(c: byte)
      requires Valid()
      modifies this`write, data
      ensures Valid()
      ensures Value() == if old(Value()).Room() > 0 then old(Value()).Push([c]) else old(Value())
    {
      var writable := CanWrite();
      if writable {
        data[write] := c;
        label stored:
        assert data[read..write] == old(data[read..write]);
        WriteAdv(1);
        assert old@stored(data[write..write + 1]) == [c];
      }
    }

    /** Moves the pending octets to the front; the loop is memmove, whose regions may overlap. */
    method Compact()
      requires Ordered()
      modifies this`read, this`write, data
      ensures Valid() && read == 0
      ensures Value() == old(Value()).Compacted()
    {
      if read == 0 {
        // nothing to do
      } else if read == write {
        read, write := 0, 0;
      } else {
        var n := write - read;
        for i := 0 to n
          invariant read == old(read) && write == old(write)
          invariant forall k :: 0 <= k < i ==> data[k] == old(data[read + k])
          invariant forall k :: i <= k < data.Length ==> data[k] == old(data[k])
        {
          data[i] := data[read + i];
        }
        read, write := 0, n;
        assert data[0..n] == old(data[read..write]);
      }
    }

    /** A producer at work: octets stored at WritePtr, as recv or a marshaller does, then WriteAdv. */
    method Append(chunk: seq<byte>)
      requires Valid() && |chunk| <= Value().Room()
      modifies this`write, data
      ensures Valid() && Value() == old(Value()).Push(chunk)
    {
      var at, room := WritePtr();
      for i := 0 to |chunk|
        invariant read == old(read) && write == old(write)
        invariant forall k :: 0 <= k < i ==> data[at + k] == chunk[k]
        invariant data[read..write] == old(data[read..write])
      {
        data[at + i] := chunk[i];
      }
      assert data[write..write + |chunk|] == chunk;
      WriteAdv(|chunk|);
    }
  }
}
