/** The relay handlers of src/copy.c as they run, on the buffers, the selector, the dissector and the counters. */
module CopyHandlers {
  import opened Bytes
  import opened Buffers
  import opened Selectors
  import opened Relays
  import opened Dissectors
  import opened MetricsCounters
  import opened ProxySettings

  /** struct copy_st. */
  class CopySt {
    var fd: int
    var rb: Buffer
    var wb: Buffer
    var interest: Interest
    var otherCopy: CopySt?

    constructor (fd: int, rb: Buffer, wb: Buffer)
      ensures this.fd == fd && this.rb == rb && this.wb == wb
      ensures interest == Interest(true, true) && otherCopy == null
    {
      this.fd, this.rb, this.wb := fd, rb, wb;
      interest, otherCopy := Interest(true, true), null;
    }
  }

  /** The part of a connection that the COPY state works on. */
  class Copier {
    const selector: Selector
    const metrics: Metrics
    const parser: PasswordParser
    const settings: Settings
    const readBuffer: Buffer
    const writeBuffer: Buffer
    const client: CopySt
    const orig: CopySt
    var clientFd: int
    var originFd: int

    ghost predicate Wired()
      reads this, client, orig
    {
      && client != orig && readBuffer != writeBuffer
      && client.rb == readBuffer && client.wb == writeBuffer && client.otherCopy == orig && client.fd == clientFd
      && orig.rb == writeBuffer && orig.wb == readBuffer && orig.otherCopy == client && orig.fd == originFd
    }

    /** What the interests depend on. */
    ghost predicate Core()
      reads this, client, orig, selector, selector.fds, readBuffer, writeBuffer
    {
      && Wired()
      && readBuffer.Valid() && writeBuffer.Valid() && readBuffer.data != writeBuffer.data
      && selector.Valid() && selector.Full()
    }

    /** The dissector and the counters, apart from the relay proper. */
    ghost predicate Observers()
      reads this, metrics, readBuffer, writeBuffer, parser, parser.username, parser.password
    {
      metrics.Valid() && parser.Valid() && {parser.username, parser.password} !! {readBuffer.data, writeBuffer.data}
    }

    ghost function Value(): Relay
      requires readBuffer.Ordered() && writeBuffer.Ordered()
      reads this, client, orig, selector`fds, selector.fds, readBuffer, readBuffer.data, writeBuffer, writeBuffer.data
    {
      Relay(End(client.fd, client.interest), End(orig.fd, orig.interest),
            readBuffer.Value(), writeBuffer.Value(), selector.Table())
    }

    /** The attachment as request_write leaves it: both buffers, both descriptors, ends not yet initialised. */
    constructor (selector: Selector, metrics: Metrics, parser: PasswordParser, settings: Settings,
                 readBuffer: Buffer, writeBuffer: Buffer, clientFd: int, originFd: int)
      ensures this.selector == selector && this.metrics == metrics && this.parser == parser
      ensures this.readBuffer == readBuffer && this.writeBuffer == writeBuffer && fresh(client) && fresh(orig)
      ensures client != orig && this.clientFd == clientFd && this.originFd == originFd && this.settings == settings
    {
      this.selector, this.metrics, this.parser := selector, metrics, parser;
      this.readBuffer, this.writeBuffer := readBuffer, writeBuffer;
      this.clientFd, this.originFd, this.settings := clientFd, originFd, settings;
      client := new CopySt(clientFd, readBuffer, writeBuffer);
      orig := new CopySt(originFd, writeBuffer, readBuffer);
    }

    /** Which end copy_ptr picks: the origin is tested first. */
    ghost function SideOf(fd: int): Side
      reads this
    {
      if fd == originFd then OriginSide else ClientSide
    }

    /** copy_compute_interests; not ok is its abort(). */
    method ComputeInterests(d: CopySt) returns (ok: bool)
      requires Core() && (d == client || d == orig)
      modifies selector, selector.fds
      ensures Core() && selector.fds == old(selector.fds)
      ensures var side := if d == client then ClientSide else OriginSide;
        ok == old(Value()).CanUpdate(side) && (ok ==> Value() == old(Value()).Updated(side))
    {
      hide Selector.Valid, Selector.Table;
      ok := true;
      if d.fd != -1 {
        var interest := OP_NOOP;
        var writable := d.rb.CanWrite();
        if d.interest.read && writable {
          interest := interest.(read := true);
        }
        var readable := d.wb.CanRead();
        if d.interest.write && readable {
          interest := interest.(write := true);
        }
        var st := selector.SetInterestFd(d.fd, interest);
        ok := st == Success;
      }
    }

    method SettleEnds(d: CopySt) returns (v: Verdict)
      requires Core() && (d == client || d == orig)
      modifies selector, selector.fds
      ensures Core() && selector.fds == old(selector.fds)
      ensures var s := Settle(old(Value()), if d == client then ClientSide else OriginSide);
        v == s.1 && (v != Abort ==> Value() == s.0)
    {
      var ok := ComputeInterests(d);
      if !ok {
        return Abort;
      }
      ok := ComputeInterests(d.otherCopy);
      if !ok {
        return Abort;
      }
      v := if d.interest == OP_NOOP then Finish else Stay;
    }

    /** copy_init: every field of both ends is set again before the interests are computed. */
    method Init() returns (v: Verdict)
      requires client != orig && readBuffer != writeBuffer && readBuffer.data != writeBuffer.data
      requires readBuffer.Valid() && writeBuffer.Valid() && selector.Valid() && selector.Full()
      modifies client, orig, selector, selector.fds
      ensures Core() && selector.fds == old(selector.fds)
      ensures var s := CopyInit(clientFd, originFd, old(readBuffer.Value()), old(writeBuffer.Value()),
          old(selector.Table()));
        v == s.1 && (v != Abort ==> Value() == s.0)
    {
      hide Selector.Valid, Selector.Table, Settle;
      client.fd := clientFd;
      client.rb := readBuffer;
      client.wb := writeBuffer;
      client.interest := Interest(true, true);
      client.otherCopy := orig;
      orig.fd := originFd;
      orig.rb := writeBuffer;
      orig.wb := readBuffer;
      orig.interest := Interest(true, true);
      orig.otherCopy := client;
      assert Core();
      v := SettleEnds(orig);
    }

    /** copy_ptr. */
    method CopyPtr(fd: int) returns (d: CopySt?)
      ensures d == if fd == originFd then orig else if fd == clientFd then client else null
    {
      if fd == originFd {
        return orig;
      }
      if fd == clientFd {
        return client;
      }
      return null;
    }

    /** What the end of a descriptor reads into. */
    lemma EndAt(fd: int)
      requires Core() && (fd == clientFd || fd == originFd)
      ensures client != orig && Value().From(SideOf(fd)) == (if fd == originFd then orig else client).rb.Value()
    {
      hide Selector.Valid, Selector.Table, Buffer.Valid;
    }

    /** The end-of-file branch of copy_read. */
    method ShutFrom(d: CopySt)
      requires Core() && (d == client || d == orig)
      modifies client`interest, orig`interest
      ensures Core() && Value() == CloseFrom(old(Value()), if d == client then ClientSide else OriginSide)
    {
      hide Selector.Valid, Selector.Table, Buffer.Valid;
      d.interest := d.interest.(read := false);
      if d.otherCopy.fd != -1 {
        d.otherCopy.interest := d.otherCopy.interest.(write := false);
      }
    }

    /** The error branch of copy_write. */
    method ShutTo(d: CopySt)
      requires Core() && (d == client || d == orig)
      modifies client`interest, orig`interest
      ensures Core() && Value() == CloseTo(old(Value()), if d == client then ClientSide else OriginSide)
    {
      hide Selector.Valid, Selector.Table, Buffer.Valid;
      d.interest := d.interest.(write := false);
      if d.otherCopy.fd != -1 {
        d.otherCopy.interest := d.otherCopy.interest.(read := false);
      }
    }

    /** The dissector and the counters see a chunk before the buffer does. */
    method Watch(chunk: seq<byte>) returns (reports: seq<Report>)
      requires Observers()
      modifies metrics, parser, parser.username, parser.password
      ensures Observers()
      ensures settings.dissectors != 0x00 ==> parser.Value() == old(parser.Value()) && reports == []
      ensures settings.dissectors == 0x00 ==> parser.Value() == FeedAll(old(parser.Value()), chunk).0
      ensures settings.dissectors == 0x00 ==> reports == FeedAll(old(parser.Value()), chunk).1
      ensures metrics.readLog == old(metrics.readLog) + [|chunk|] && metrics.writeLog == old(metrics.writeLog)
      ensures parser.username == old(parser.username) || fresh(parser.username)
      ensures parser.password == old(parser.password) || fresh(parser.password)
    {
      hide PasswordParser.Valid, PasswordParser.Value, Metrics.Valid;
      reports := [];
      if settings.dissectors == 0x00 {
        reports := parser.ConsumeChunk(chunk);
      }
      metrics.AddRead(|chunk|);
    }

    /** The branch of copy_read that keeps what arrived. */
    method Keep(d: CopySt, chunk: seq<byte>) returns (reports: seq<Report>)
      requires Core() && Observers() && (d == client || d == orig)
      requires |chunk| <= d.rb.Value().Room()
      modifies d.rb, d.rb.data, metrics, parser, parser.username, parser.password
      ensures Core() && Observers()
      ensures var side := if d == client then ClientSide else OriginSide;
        Value() == old(Value()).WithFrom(side, old(Value()).From(side).Push(chunk))
      ensures settings.dissectors != 0x00 ==> parser.Value() == old(parser.Value()) && reports == []
      ensures settings.dissectors == 0x00 ==> parser.Value() == FeedAll(old(parser.Value()), chunk).0
      ensures settings.dissectors == 0x00 ==> reports == FeedAll(old(parser.Value()), chunk).1
      ensures metrics.readLog == old(metrics.readLog) + [|chunk|] && metrics.writeLog == old(metrics.writeLog)
      ensures parser.username == old(parser.username) || fresh(parser.username)
      ensures parser.password == old(parser.password) || fresh(parser.password)
    {
      hide Selector.Valid, Selector.Table, Metrics.Valid, PasswordParser.Valid, PasswordParser.Value;
      reports := Watch(chunk);
      d.rb.Append(chunk);
    }

    /** The two branches of copy_read. */
    method Absorb(d: CopySt, received: Option<seq<byte>>) returns (reports: seq<Report>)
      requires Core() && Observers() && (d == client || d == orig)
      requires received.Some? ==> |received.value| <= d.rb.Value().Room()
      modifies client`interest, orig`interest, d.rb, d.rb.data, metrics, parser, parser.username, parser.password
      ensures Core() && Observers()
      ensures Value() == AfterRecv(old(Value()), if d == client then ClientSide else OriginSide, received)
      ensures received.None? || settings.dissectors != 0x00 ==> parser.Value() == old(parser.Value()) && reports == []
      ensures received.Some? && settings.dissectors == 0x00 ==>
                parser.Value() == FeedAll(old(parser.Value()), received.value).0
      ensures received.Some? && settings.dissectors == 0x00 ==>
                reports == FeedAll(old(parser.Value()), received.value).1
      ensures metrics.readLog == old(metrics.readLog) + (if received.Some? then [|received.value|] else [])
      ensures metrics.writeLog == old(metrics.writeLog)
      ensures parser.username == old(parser.username) || fresh(parser.username)
      ensures parser.password == old(parser.password) || fresh(parser.password)
    {
      match received
      case None =>
        reports := [];
        ShutFrom(d);
      case Some(chunk) =>
        reports := Keep(d, chunk);
    }

    /** The common end of both handlers: interests, then the connection count. */
    method Conclude(d: CopySt) returns (v: Verdict)
      requires Core() && metrics.Valid() && (d == client || d == orig)
      modifies selector, selector.fds, metrics`concurrentConnections
      ensures Core() && metrics.Valid() && selector.fds == old(selector.fds)
      ensures var s := Settle(old(Value()), if d == client then ClientSide else OriginSide);
        v == s.1 && (v != Abort ==> Value() == s.0)
      ensures metrics.concurrentConnections == old(metrics.concurrentConnections) - if v == Finish then 1 else 0
    {
      v := SettleEnds(d);
      if v == Finish {
        metrics.EndConnection();
      }
    }

    /** copy_read: received is what recv put at the buffer's write pointer, or None. */
    method HandleRead(fd: int, received: Option<seq<byte>>) returns (v: Verdict, reports: seq<Report>)
      requires Core() && Observers() && (fd == clientFd || fd == originFd)
      requires received.Some? ==> 0 < |received.value| <= Value().From(SideOf(fd)).Room()
      modifies client`interest, orig`interest, selector, selector.fds, metrics
      modifies readBuffer, readBuffer.data, writeBuffer, writeBuffer.data, parser, parser.username, parser.password
      ensures Core() && Observers() && selector.fds == old(selector.fds)
      ensures var s := CopyRead(old(Value()), old(SideOf(fd)), received);
        v == s.1 && (v != Abort ==> Value() == s.0)
      ensures received.None? || settings.dissectors != 0x00 ==> parser.Value() == old(parser.Value()) && reports == []
      ensures received.Some? && settings.dissectors == 0x00 ==>
                parser.Value() == FeedAll(old(parser.Value()), received.value).0
      ensures received.Some? && settings.dissectors == 0x00 ==>
                reports == FeedAll(old(parser.Value()), received.value).1
      ensures metrics.readLog == old(metrics.readLog) + (if received.Some? then [|received.value|] else [])
      ensures metrics.writeLog == old(metrics.writeLog)
      ensures parser.username == old(parser.username) || fresh(parser.username)
      ensures parser.password == old(parser.password) || fresh(parser.password)
    {
      hide Selector.Valid, Selector.Table, Metrics.Valid, PasswordParser.Valid, PasswordParser.Value, Buffer.Valid;
      hide FeedAll, Settle, AfterRecv, Copier.Value;
      var d := CopyPtr(fd);
      EndAt(fd);
      reports := Absorb(d, received);
      v := Conclude(d);
    }

    /** The branch of copy_write that accounts for what was sent. */
    method Drain(d: CopySt, n: nat)
      requires Core() && metrics.Valid() && (d == client || d == orig)
      requires n <= |d.wb.Value().contents|
      modifies d.wb, d.wb.data, metrics
      ensures Core() && metrics.Valid()
      ensures var side := if d == client then ClientSide else OriginSide;
        Value() == old(Value()).WithFrom(Other(side), old(Value()).To(side).Pop(n))
      ensures metrics.writeLog == old(metrics.writeLog) + [n] && metrics.readLog == old(metrics.readLog)
    {
      hide Selector.Valid, Selector.Table, Metrics.Valid;
      metrics.AddWrite(n);
      d.wb.ReadAdv(n);
    }

    /** The two branches of copy_write. */
    method Emit(d: CopySt, sent: Option<nat>)
      requires Core() && metrics.Valid() && (d == client || d == orig)
      requires sent.Some? ==> sent.value <= |d.wb.Value().contents|
      modifies client`interest, orig`interest, d.wb, d.wb.data, metrics
      ensures Core() && metrics.Valid()
      ensures Value() == AfterSend(old(Value()), if d == client then ClientSide else OriginSide, sent)
      ensures metrics.writeLog == old(metrics.writeLog) + (if sent.Some? then [sent.value] else [])
      ensures metrics.readLog == old(metrics.readLog)
    {
      match sent
      case None => ShutTo(d);
      case Some(n) => Drain(d, n);
    }

    /** copy_write: sent is how many octets send took from the buffer's read pointer, or None. */
    method HandleWrite(fd: int, sent: Option<nat>) returns (v: Verdict)
      requires Core() && metrics.Valid() && (fd == clientFd || fd == originFd)
      requires sent.Some? ==> sent.value <= |Value().To(SideOf(fd)).contents|
      modifies client`interest, orig`interest, selector, selector.fds, metrics
      modifies readBuffer, readBuffer.data, writeBuffer, writeBuffer.data
      ensures Core() && metrics.Valid() && selector.fds == old(selector.fds)
      ensures var s := CopyWrite(old(Value()), old(SideOf(fd)), sent);
        v == s.1 && (v != Abort ==> Value() == s.0)
      ensures metrics.writeLog == old(metrics.writeLog) + (if sent.Some? then [sent.value] else [])
      ensures metrics.readLog == old(metrics.readLog)
    {
      hide Selector.Valid, Selector.Table, Metrics.Valid, Buffer.Valid, Settle, AfterSend;
      var d := CopyPtr(fd);
      Emit(d, sent);
      v := Conclude(d);
    }
  }
}
