/**
 * The two-way relay (src/copy.c). Each end reads into one buffer and writes from the
 * other; every handler recomputes both ends' interests from the buffers and from which
 * directions are still open.
 */
module Relays {
  import opened Bytes
  import opened Buffers
  import opened Selectors

  datatype Side = ClientSide | OriginSide

  function Other(side: Side): Side {
    if side == ClientSide then OriginSide else ClientSide
  }

  /** struct copy_st: a descriptor and the operations its direction flags still allow. */
  datatype End = End(fd: int, wants: Interest)

  /** up is the read buffer (client to origin), down the write buffer (origin to client). */
  datatype Relay = Relay(client: End, origin: End, up: Fifo, down: Fifo, table: Table) {
    function At(side: Side): End {
      if side == ClientSide then client else origin
    }

    /** The buffer filled by reading from a side. */
    function From(side: Side): Fifo {
      if side == ClientSide then up else down
    }

    /** The buffer drained by writing to a side. */
    function To(side: Side): Fifo {
      From(Other(side))
    }

    function WithEnd(side: Side, e: End): Relay {
      if side == ClientSide then this.(client := e) else this.(origin := e)
    }

    function WithFrom(side: Side, f: Fifo): Relay {
      if side == ClientSide then this.(up := f) else this.(down := f)
    }

    /** copy_compute_interests: reading needs room, writing needs something to write. */
    function Computed(side: Side): Interest {
      if At(side).fd == -1 then OP_NOOP
      else Interest(At(side).wants.read && From(side).Room() > 0, At(side).wants.write && To(side).contents != [])
    }

    predicate InTable(side: Side) {
      !InvalidFd(At(side).fd) && At(side).fd in table
    }

    /** An end with no descriptor is left alone; for any other, the source aborts when this does not hold. */
    predicate CanUpdate(side: Side) {
      At(side).fd == -1 || InTable(side)
    }

    function Updated(side: Side): Relay {
      if At(side).fd == -1 then this else this.(table := SetInterest(table, At(side).fd, Computed(side)).1)
    }

    /** Data may still flow from a side to the other one. */
    predicate Open(side: Side) {
      At(side).wants.read
    }
  }

  /** What ends a handler: back to COPY, to DONE, or abort() inside copy_compute_interests. */
  datatype Verdict = Stay | Finish | Abort

  function Settle(r: Relay, side: Side): (Relay, Verdict) {
    if !r.CanUpdate(side) || !r.CanUpdate(Other(side)) then (r, Abort)
    else (r.Updated(side).Updated(Other(side)), if r.At(side).wants == OP_NOOP then Finish else Stay)
  }

  /** copy_init, which updates the origin's end first. */
  function CopyInit(clientFd: int, originFd: int, up: Fifo, down: Fifo, table: Table): (Relay, Verdict) {
    var both := Interest(true, true);
    Settle(Relay(End(clientFd, both), End(originFd, both), up, down, table), OriginSide)
  }

  /** Shutting a side's reading shuts the other side's writing. */
  function CloseFrom(r: Relay, side: Side): Relay {
    var d, o := r.At(side), r.At(Other(side));
    var r1 := r.WithEnd(side, d.(wants := d.wants.(read := false)));
    if o.fd == -1 then r1 else r1.WithEnd(Other(side), o.(wants := o.wants.(write := false)))
  }

  /** Shutting a side's writing shuts the other side's reading. */
  function CloseTo(r: Relay, side: Side): Relay {
    var d, o := r.At(side), r.At(Other(side));
    var r1 := r.WithEnd(side, d.(wants := d.wants.(write := false)));
    if o.fd == -1 then r1 else r1.WithEnd(Other(side), o.(wants := o.wants.(read := false)))
  }

  /** copy_read, given what recv delivered: nothing at end of file or on error. */
  function CopyRead(r: Relay, side: Side, received: Option<seq<byte>>): (Relay, Verdict)
    requires received.Some? ==> |received.value| <= r.From(side).Room()
  {
    Settle(AfterRecv(r, side, received), side)
  }

  function AfterRecv(r: Relay, side: Side, received: Option<seq<byte>>): Relay
    requires received.Some? ==> |received.value| <= r.From(side).Room()
  {
    match received
    case None => CloseFrom(r, side)
    case Some(chunk) => r.WithFrom(side, r.From(side).Push(chunk))
  }

  /** copy_write, given how many octets send took: None when it failed. */
  function CopyWrite(r: Relay, side: Side, sent: Option<nat>): (Relay, Verdict)
    requires sent.Some? ==> sent.value <= |r.To(side).contents|
  {
    Settle(AfterSend(r, side, sent), side)
  }

  function AfterSend(r: Relay, side: Side, sent: Option<nat>): Relay
    requires sent.Some? ==> sent.value <= |r.To(side).contents|
  {
    match sent
    case None => CloseTo(r, side)
    case Some(n) => r.WithFrom(Other(side), r.To(side).Pop(n))
  }

  // ----- The invariant -----

  /** Everything but the registered interests. */
  ghost predicate Shape(r: Relay) {
    && r.up.Valid() && r.up.limit > 0 && r.down.Valid() && r.down.limit > 0
    && r.InTable(ClientSide) && r.InTable(OriginSide) && r.client.fd != r.origin.fd
    && r.client.wants.read == r.origin.wants.write
    && r.origin.wants.read == r.client.wants.write
  }

  ghost predicate Good(r: Relay) {
    && Shape(r)
    && r.table[r.client.fd].interest == r.Computed(ClientSide)
    && r.table[r.origin.fd].interest == r.Computed(OriginSide)
  }

  /** Recomputing both ends re-establishes the invariant, and ends the relay exactly when nothing is open. */
  lemma SettleGood(r: Relay, side: Side)
    requires Shape(r)
    ensures Good(Settle(r, side).0) && Settle(r, side).1 != Abort
    ensures Settle(r, side).0 == r.(table := Settle(r, side).0.table)
    ensures Settle(r, side).1 == Finish <==> !r.Open(ClientSide) && !r.Open(OriginSide)
  {
  }

  /** The registered interests, spelled out: the descriptors agree with the flags and the buffers. */
  lemma InterestsAgree(r: Relay, side: Side)
    requires Good(r)
    ensures var i := r.table[r.At(side).fd].interest;
      && (i.read <==> r.Open(side) && r.From(side).Room() > 0)
      && (i.write <==> r.Open(Other(side)) && r.To(side).contents != [])
  {
  }

  /** No wedging: while a direction is open, its reading end or its writing end is armed. */
  lemma OpenIsArmed(r: Relay, side: Side)
    requires Good(r) && r.Open(side)
    ensures r.table[r.At(side).fd].interest.read || r.table[r.At(Other(side)).fd].interest.write
  {
  }

  // ----- Runs -----

  datatype Event =
    | Readable(side: Side, received: Option<seq<byte>>)
    | Writable(side: Side, sent: Option<nat>)

  /** The selector only dispatches registered interests; recv and send are bounded by the length they are given. */
  predicate Enabled(r: Relay, e: Event) {
    match e
    case Readable(side, received) =>
      r.InTable(side) && r.table[r.At(side).fd].interest.read
      && (received.Some? ==> 0 < |received.value| <= r.From(side).Room())
    case Writable(side, sent) =>
      r.InTable(side) && r.table[r.At(side).fd].interest.write
      && (sent.Some? ==> sent.value <= |r.To(side).contents|)
  }

  function Step(r: Relay, e: Event): (Relay, Verdict)
    requires Enabled(r, e)
  {
    match e
    case Readable(side, received) => CopyRead(r, side, received)
    case Writable(side, sent) => CopyWrite(r, side, sent)
  }

  /** A run: every event enabled when it happens, and nothing after the relay has ended. */
  predicate Legal(r: Relay, events: seq<Event>)
    decreases |events|
  {
    events == [] ||
    (Enabled(r, events[0]) && (|events| > 1 ==> Step(r, events[0]).1 == Stay)
     && Legal(Step(r, events[0]).0, events[1..]))
  }

  function Run(r: Relay, events: seq<Event>): Relay
    requires Legal(r, events)
    decreases |events|
  {
    if events == [] then r else Run(Step(r, events[0]).0, events[1..])
  }

  /** What one event takes from a side's socket, and what it gives to it. */
  function Taken(e: Event, side: Side): seq<byte> {
    if e.Readable? && e.side == side && e.received.Some? then e.received.value else []
  }

  function Given(r: Relay, e: Event, side: Side): seq<byte>
    requires Enabled(r, e)
  {
    if e.Writable? && e.side == side && e.sent.Some? then r.To(side).contents[..e.sent.value] else []
  }

  /** Everything read from a side during a run. */
  function Received(events: seq<Event>, side: Side): seq<byte> {
    if events == [] then [] else Taken(events[0], side) + Received(events[1..], side)
  }

  /** Everything written to a side during a run. */
  function Delivered(r: Relay, events: seq<Event>, side: Side): seq<byte>
    requires Legal(r, events)
    decreases |events|
  {
    if events == [] then [] else Given(r, events[0], side) + Delivered(Step(r, events[0]).0, events[1..], side)
  }

  /** What leaves a buffer, then what stays, is what was there, then what came in. */
  predicate Conserved(given: seq<byte>, after: seq<byte>, before: seq<byte>, taken: seq<byte>) {
    given + after == before + taken
  }

  lemma ConservedChain(g1: seq<byte>, g2: seq<byte>, c0: seq<byte>, c1: seq<byte>, c2: seq<byte>, t1: seq<byte>,
      t2: seq<byte>)
    requires Conserved(g1, c1, c0, t1) && Conserved(g2, c2, c1, t2)
    ensures Conserved(g1 + g2, c2, c0, t1 + t2)
  {
    calc {
      (g1 + g2) + c2;
      g1 + (g2 + c2);
      (g1 + c1) + t2;
      c0 + (t1 + t2);
    }
  }

  lemma RecvStep(r: Relay, from: Side, received: Option<seq<byte>>, side: Side)
    requires Shape(r) && (received.Some? ==> |received.value| <= r.From(from).Room())
    ensures var r1 := AfterRecv(r, from, received);
      && Shape(r1) && Conserved([], r1.From(side).contents, r.From(side).contents,
          Taken(Readable(from, received), side))
      && (r1.Open(side) ==> r.Open(side))
  {
  }

  lemma SendStep(r: Relay, to: Side, sent: Option<nat>, side: Side)
    requires Shape(r) && (sent.Some? ==> sent.value <= |r.To(to).contents|)
    ensures var r1 := AfterSend(r, to, sent);
      var given := if Other(to) == side && sent.Some? then r.To(to).contents[..sent.value] else [];
      && Shape(r1) && Conserved(given, r1.From(side).contents, r.From(side).contents, [])
      && (r1.Open(side) ==> r.Open(side))
  {
  }

  /** One event: the invariant survives, recv and send get a positive length, and octets are conserved. */
  lemma StepGood(r: Relay, e: Event, side: Side)
    requires Good(r) && Enabled(r, e)
    ensures Good(Step(r, e).0) && Step(r, e).1 != Abort
    ensures e.Readable? ==> r.From(e.side).Room() > 0
    ensures e.Writable? ==> r.To(e.side).contents != []
    ensures Step(r, e).1 == Finish <==> !Step(r, e).0.Open(ClientSide) && !Step(r, e).0.Open(OriginSide)
    ensures Conserved(Given(r, e, Other(side)), Step(r, e).0.From(side).contents, r.From(side).contents, Taken(e, side))
    ensures Step(r, e).0.Open(side) ==> r.Open(side)
  {
    match e
    case Readable(from, received) =>
      RecvStep(r, from, received, side);
      SettleGood(AfterRecv(r, from, received), from);
    case Writable(to, sent) =>
      SendStep(r, to, sent, side);
      SettleGood(AfterSend(r, to, sent), to);
  }

  /**
   * Conservation over any interleaving of reads and writes on both descriptors, with any
   * transfer lengths, ends of file and errors: what was delivered, then what is buffered, is
   * what was buffered at first, then what was received, in order.
   */
  lemma {:induction false} RunConserves(r: Relay, events: seq<Event>, side: Side)
    requires Good(r) && Legal(r, events)
    ensures Good(Run(r, events))
    ensures Conserved(Delivered(r, events, Other(side)), Run(r, events).From(side).contents,
                      r.From(side).contents, Received(events, side))
    ensures Run(r, events).Open(side) ==> r.Open(side)
    decreases |events|
  {
    if events != [] {
      var e, next := events[0], Step(r, events[0]).0;
      StepGood(r, e, side);
      RunConserves(next, events[1..], side);
      ConservedChain(Given(r, e, Other(side)), Delivered(next, events[1..], Other(side)),
                     r.From(side).contents, next.From(side).contents, Run(r, events).From(side).contents,
                     Taken(e, side), Received(events[1..], side));
    } else {
      assert [] + r.From(side).contents == r.From(side).contents + [];
    }
  }

  /** copy_init starts every run in the invariant, whatever earlier phases left in the buffers. */
  lemma InitGood(clientFd: int, originFd: int, up: Fifo, down: Fifo, table: Table)
    requires up.Valid() && up.limit > 0 && down.Valid() && down.limit > 0
    requires !InvalidFd(clientFd) && !InvalidFd(originFd) && clientFd != originFd && clientFd in table
        && originFd in table
    ensures var r := CopyInit(clientFd, originFd, up, down, table);
      Good(r.0) && r.1 == Stay && r.0.up == up && r.0.down == down && r.0.Open(ClientSide) && r.0.Open(OriginSide)
  {
  }

  lemma ClosedStep(r: Relay, e: Event, side: Side)
    requires Good(r) && Enabled(r, e) && !r.Open(side)
    ensures Good(Step(r, e).0) && !Step(r, e).0.Open(side)
    ensures Given(r, e, Other(side)) == [] && Taken(e, side) == []
    ensures Step(r, e).0.From(side).contents == r.From(side).contents
  {
    StepGood(r, e, side);
    InterestsAgree(r, e.side);
  }

  /** Once a direction is closed nothing more is delivered through it, even if octets are still buffered. */
  lemma {:induction false} ClosedDeliversNothing(r: Relay, events: seq<Event>, side: Side)
    requires Good(r) && Legal(r, events) && !r.Open(side)
    ensures Delivered(r, events, Other(side)) == [] && Run(r, events).From(side).contents == r.From(side).contents
    decreases |events|
  {
    if events != [] {
      ClosedStep(r, events[0], side);
      ClosedDeliversNothing(Step(r, events[0]).0, events[1..], side);
    }
  }

  /**
   * Full delivery. Suppose a side reaches end of file. What was buffered from it when the run
   * began, and what it sent since, is delivered in full, whatever happens later, exactly when
   * its buffer was empty at that moment.
   */
  lemma FullDeliveryIff(r: Relay, before: seq<Event>, after: seq<Event>, side: Side)
    requires Good(r) && Legal(r, before)
    requires Legal(Run(r, before), [Readable(side, None)] + after)
    ensures Delivered(r, before, Other(side)) + Delivered(Run(r, before), [Readable(side, None)] + after, Other(side))
         == r.From(side).contents + Received(before, side)
       <==> Run(r, before).From(side).contents == []
  {
    RunConserves(r, before, side);
    var m := Run(r, before);
    DeadAfterEof(m, after, side);
    var d, c := Delivered(r, before, Other(side)), m.From(side).contents;
    assert d + c == r.From(side).contents + Received(before, side);
    assert |d + c| == |d| + |c|;
  }

  /** From an end of file on, nothing more of that direction is delivered. */
  lemma DeadAfterEof(r: Relay, after: seq<Event>, side: Side)
    requires Good(r) && Legal(r, [Readable(side, None)] + after)
    ensures Delivered(r, [Readable(side, None)] + after, Other(side)) == []
  {
    var eof := Readable(side, None);
    StepGood(r, eof, side);
    assert ([eof] + after)[1..] == after;
    ClosedDeliversNothing(Step(r, eof).0, after, side);
  }

  /**
   * The failing case occurs. A client that pipelined octets behind its request and closes its
   * side before the origin takes them loses them all: the end of file is read first, the octets
   * stay in the buffer, and no later event delivers any of them.
   */
  lemma TailLost(clientFd: int, originFd: int, up: Fifo, down: Fifo, table: Table)
    requires up.Valid() && up.contents != [] && up.Room() > 0 && down.Valid() && down.limit > 0
    requires !InvalidFd(clientFd) && !InvalidFd(originFd) && clientFd != originFd && clientFd in table
        && originFd in table
    ensures var r, eof := CopyInit(clientFd, originFd, up, down, table).0, Readable(ClientSide, None);
      && Legal(r, [eof]) && Run(r, [eof]).From(ClientSide).contents == up.contents
      && forall after :: Legal(r, [eof] + after) ==> Delivered(r, [eof] + after, OriginSide) == []
  {
    var r, eof := CopyInit(clientFd, originFd, up, down, table).0, Readable(ClientSide, None);
    InitGood(clientFd, originFd, up, down, table);
    InterestsAgree(r, ClientSide);
    StepGood(r, eof, ClientSide);
    assert [eof][1..] == [];
    forall after | Legal(r, [eof] + after)
      ensures Delivered(r, [eof] + after, OriginSide) == []
    {
      DeadAfterEof(r, after, ClientSide);
    }
  }

  // ----- Which direction an event closes, and that the other one stays -----

  /** An end of file or an error on reading from a side, or an error on writing what was read from it. */
  predicate Closes(e: Event, side: Side) {
    e == Readable(side, None) || e == Writable(Other(side), None)
  }

  lemma OpenStep(r: Relay, e: Event, side: Side)
    requires Good(r) && Enabled(r, e)
    ensures Step(r, e).0.Open(side) <==> r.Open(side) && !Closes(e, side)
  {
  }

  /** Over every run a direction is open exactly when it was at first and no event has closed that direction. */
  lemma {:induction false} OpenIff(r: Relay, events: seq<Event>, side: Side)
    requires Good(r) && Legal(r, events)
    ensures Run(r, events).Open(side) <==>
              r.Open(side) && forall k :: 0 <= k < |events| ==> !Closes(events[k], side)
    decreases |events|
  {
    if events != [] {
      var next := Step(r, events[0]).0;
      OpenStep(r, events[0], side);
      StepGood(r, events[0], side);
      OpenIff(next, events[1..], side);
      assert forall k :: 1 <= k < |events| ==> events[k] == events[1..][k - 1];
      assert forall k :: 0 <= k < |events[1..]| ==> events[1..][k] == events[k + 1];
    }
  }

  /** While a direction is open the relay has not ended: whatever is enabled may come next. */
  lemma {:induction false} GoesOn(r: Relay, events: seq<Event>, next: Event, side: Side)
    requires Good(r) && Legal(r, events) && Run(r, events).Open(side) && Enabled(Run(r, events), next)
    ensures Legal(r, events + [next])
    ensures Delivered(r, events + [next], Other(side))
         == Delivered(r, events, Other(side)) + Given(Run(r, events), next, Other(side))
    ensures Received(events + [next], side) == Received(events, side) + Taken(next, side)
    decreases |events|
  {
    hide Good, Step, Given, Taken, Enabled;
    var more := events + [next];
    if events == [] {
      assert more == [next] && more[1..] == [];
      assert Given(r, next, Other(side)) + [] == Given(r, next, Other(side))
          && Taken(next, side) + [] == Taken(next, side);
    } else {
      var e, r1 := events[0], Step(r, events[0]).0;
      StepGood(r, e, side);
      RunConserves(r1, events[1..], side);
      GoesOn(r1, events[1..], next, side);
      assert more[0] == e && more[1..] == events[1..] + [next];
    }
  }

  /**
   * While a direction is open, whatever has become of the other one: octets are taken from its
   * side whenever there is room for them, and what is buffered can be sent on at once; then all
   * that was buffered at first and was received since has been delivered.
   */
  lemma OpenDelivers(r: Relay, events: seq<Event>, side: Side, chunk: seq<byte>)
    requires Good(r) && r.Open(side) && Legal(r, events)
    requires forall k :: 0 <= k < |events| ==> !Closes(events[k], side)
    ensures var m := Run(r, events);
      var drain := Writable(Other(side), Some(|m.From(side).contents|));
      && m.Open(side)
      && (0 < |chunk| <= m.From(side).Room() ==> Legal(r, events + [Readable(side, Some(chunk))]))
      && (if m.From(side).contents == [] then
            Delivered(r, events, Other(side)) == r.From(side).contents + Received(events, side)
          else
            && Legal(r, events + [drain])
            && Delivered(r, events + [drain], Other(side)) == r.From(side).contents + Received(events, side))
  {
    var m := Run(r, events);
    OpenIff(r, events, side);
    RunConserves(r, events, side);
    if 0 < |chunk| <= m.From(side).Room() {
      GoesOn(r, events, Readable(side, Some(chunk)), side);
    }
    if m.From(side).contents == [] {
      assert Delivered(r, events, Other(side)) + [] == Delivered(r, events, Other(side));
    } else {
      var drain := Writable(Other(side), Some(|m.From(side).contents|));
      GoesOn(r, events, drain, side);
      assert m.From(side).contents[..|m.From(side).contents|] == m.From(side).contents;
    }
  }

  /**
   * Half-closing. After one side's end of file every legal continuation takes all the other side
   * sends to it: but for an error on its own socket, only the end of the answer ends the answer.
   */
  lemma AnswerReachesHalfClosed(r: Relay, before: seq<Event>, after: seq<Event>, side: Side)
    requires Good(r) && r.Open(Other(side)) && Legal(r, before + [Readable(side, None)] + after)
    requires forall k :: 0 <= k < |before| ==> !Closes(before[k], Other(side))
    requires forall k :: 0 <= k < |after| ==> !Closes(after[k], Other(side))
    ensures var events := before + [Readable(side, None)] + after;
      var m := Run(r, events);
      var drain := Writable(side, Some(|m.To(side).contents|));
      var sent := r.To(side).contents + Received(events, Other(side));
      && m.Open(Other(side))
      && (if m.To(side).contents == [] then Delivered(r, events, side) == sent
          else Legal(r, events + [drain]) && Delivered(r, events + [drain], side) == sent)
  {
    var events := before + [Readable(side, None)] + after;
    forall k | 0 <= k < |events|
      ensures !Closes(events[k], Other(side))
    {
      if k < |before| {
        assert events[k] == before[k];
      } else if k > |before| {
        assert events[k] == after[k - |before| - 1];
      }
    }
    OpenDelivers(r, events, Other(side), []);
  }
}
