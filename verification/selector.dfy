/**
 * The I/O multiplexor (src/selector.c): a jump table indexed by descriptor, and
 * the maximum descriptor and descriptor sets derived from it.
 */
module Selectors {
  import opened Bytes

  datatype Interest = Interest(read: bool, write: bool)

  const OP_NOOP := Interest(false, false)
  const OP_READ := Interest(true, false)
  const OP_WRITE := Interest(false, true)

  /** What is registered for a descriptor. Handlers and attachments are identified by numbers. */
  datatype Item = Item(interest: Interest, handler: nat, data: int)

  type Table = map<int, Item>

  datatype Status = Success | MaxFdReached | IllegalArgs | FdInUse

  /** FD_SETSIZE. */
  const ITEMS_MAX_SIZE := 1024

  predicate InvalidFd(fd: int) {
    fd < 0 || fd >= ITEMS_MAX_SIZE
  }

  // ----- What the three table operations mean -----

  function Register(t: Table, fd: int, handler: nat, interest: Interest, data: int): (Status, Table) {
    if InvalidFd(fd) then (IllegalArgs, t)
    else if fd in t then (FdInUse, t)
    else (Success, t[fd := Item(interest, handler, data)])
  }

  function Unregister(t: Table, fd: int): (Status, Table) {
    if InvalidFd(fd) || fd !in t then (IllegalArgs, t) else (Success, t - {fd})
  }

  function SetInterest(t: Table, fd: int, i: Interest): (Status, Table) {
    if InvalidFd(fd) || fd !in t then (IllegalArgs, t) else (Success, t[fd := t[fd].(interest := i)])
  }

  function ReadFds(t: Table): set<int> {
    set fd | fd in t && t[fd].interest.read
  }

  function WriteFds(t: Table): set<int> {
    set fd | fd in t && t[fd].interest.write
  }

  /** m is the descriptor that select(2) must be told about: the greatest one in use, or 0. */
  predicate IsMaxFd(t: Table, m: int) {
    m >= 0 && (forall fd :: fd in t ==> fd <= m) && (m == 0 || m in t)
  }

  /** The derived data after one slot is filled or changed, and after one is freed. */
  lemma DerivedAfterUpdate(t: Table, fd: int, item: Item, max: int)
    requires IsMaxFd(t, max) && fd >= 0
    ensures ReadFds(t[fd := item]) == ReadFds(t) - {fd} + (if item.interest.read then {fd} else {})
    ensures WriteFds(t[fd := item]) == WriteFds(t) - {fd} + (if item.interest.write then {fd} else {})
    ensures IsMaxFd(t[fd := item], if fd > max then fd else max)
    ensures ReadFds(t - {fd}) == ReadFds(t) - {fd} && WriteFds(t - {fd}) == WriteFds(t) - {fd}
  {
  }

  // ----- Growth -----

  function BitLength(n: nat): nat {
    if n == 0 then 0 else 1 + BitLength(n / 2)
  }

  function Pow2(k: nat): (p: nat)
    ensures p > 0
  {
    if k == 0 then 1 else 2 * Pow2(k - 1)
  }

  /** 2^BitLength(n) is the least power of two above n. */
  lemma {:induction false} BitLengthBounds(n: nat)
    ensures n < Pow2(BitLength(n))
    ensures n > 0 ==> Pow2(BitLength(n)) <= 2 * n
  {
    if n > 1 {
      BitLengthBounds(n / 2);
    } else if n == 1 {
      assert BitLength(1) == 1 + BitLength(0);
      assert Pow2(1) == 2 * Pow2(0);
    }
  }

  function Capacity(n: nat): nat {
    var p := Pow2(BitLength(n));
    (if p > ITEMS_MAX_SIZE then ITEMS_MAX_SIZE else p) + 1
  }

  method NextCapacity(n: nat) returns (r: nat)
    ensures r == Capacity(n)
    ensures r > n <==> n <= ITEMS_MAX_SIZE
    ensures r <= ITEMS_MAX_SIZE + 1
  {
    var bits := 0;
    var tmp: nat := n;
    while tmp != 0
      invariant bits + BitLength(tmp) == BitLength(n)
    {
      tmp := tmp / 2;
      bits := bits + 1;
    }
    tmp := 1;
    for k := 0 to bits
      invariant tmp == Pow2(k)
    {
      tmp := 2 * tmp;
    }
    BitLengthBounds(n);
    if tmp > ITEMS_MAX_SIZE {
      tmp := ITEMS_MAX_SIZE;
    }
    r := tmp + 1;
  }

  /**
   * The size of the table once selector_register has made room for fd. The source asks
   * for room when fd > size, so at fd == size it does not.
   */
  function SizeForRegister(size: nat, fd: nat): nat {
    if fd > size then Capacity(fd) else size
  }

  /** The slot written by selector_register is inside the table exactly when fd is not the current size. */
  lemma RegisterSlotInTable(size: nat, fd: nat)
    requires fd < ITEMS_MAX_SIZE
    ensures fd < SizeForRegister(size, fd) <==> fd != size
  {
    BitLengthBounds(fd);
  }

  /** A table first sized for two descriptors shows the missed case; the one main builds, for 1024, never does. */
  lemma RegisterSlotExamples()
    ensures Capacity(2) == 5 && !(5 < SizeForRegister(Capacity(2), 5))
    ensures forall fd: nat :: fd < ITEMS_MAX_SIZE ==> fd < SizeForRegister(Capacity(1024), fd)
  {
  }

  // ----- One sweep over the ready descriptors -----

  datatype Action =
    | DoRegister(fd: int, handler: nat, interest: Interest, data: int)
    | DoUnregister(fd: int)
    | DoSetInterest(fd: int, interest: Interest)

  /** A handler being run: whose, for which event, with which attachment, and on which table. */
  datatype Call = Call(fd: int, write: bool, handler: nat, data: int, table: Table)

  /** What handlers do to the table: any function of the call, hence any sequence of table operations. */
  type Script = Call -> seq<Action>

  function Perform(t: Table, a: Action): Table {
    match a
    case DoRegister(fd, h, i, d) => Register(t, fd, h, i, d).1
    case DoUnregister(fd) => Unregister(t, fd).1
    case DoSetInterest(fd, i) => SetInterest(t, fd, i).1
  }

  function PerformAll(t: Table, actions: seq<Action>): Table
    decreases |actions|
  {
    if actions == [] then t else PerformAll(Perform(t, actions[0]), actions[1..])
  }

  /** Slot i's turn: its read handler if ready and wanted, then its write handler if ready and still wanted. */
  function Visit(t: Table, i: int, ready_r: set<int>, ready_w: set<int>, script: Script): (seq<Call>, Table) {
    if i !in t then ([], t) else
      var data := t[i].data;
      var r := Call(i, false, t[i].handler, data, t);
      var readNow := i in ready_r && t[i].interest.read;
      var t1 := if readNow then PerformAll(t, script(r)) else t;
      var first := if readNow then [r] else [];
      if i in ready_w && i in t1 && t1[i].interest.write then
        var w := Call(i, true, t1[i].handler, data, t1);
        (first + [w], PerformAll(t1, script(w)))
      else (first, t1)
  }

  function Sweep(t: Table, i: nat, n: nat, ready_r: set<int>, ready_w: set<int>, script: Script): (seq<Call>, Table)
    decreases n + 1 - i
  {
    if i > n then ([], t) else
      var v := Visit(t, i, ready_r, ready_w, script);
      var rest := Sweep(v.1, i + 1, n, ready_r, ready_w, script);
      (v.0 + rest.0, rest.1)
  }

  /**
   * The handler that ran is the one its descriptor was registered with, had its event flagged
   * ready, and was interested at that very moment.
   */
  ghost predicate Justified(c: Call, ready_r: set<int>, ready_w: set<int>) {
    && c.fd in c.table && c.handler == c.table[c.fd].handler
    && (if c.write then c.fd in ready_w && c.table[c.fd].interest.write
                   else c.fd in ready_r && c.table[c.fd].interest.read && c.data == c.table[c.fd].data)
  }

  predicate Before(a: Call, b: Call) {
    a.fd < b.fd || (a.fd == b.fd && !a.write && b.write)
  }

  ghost predicate WellSwept(calls: seq<Call>, i: int, n: int, ready_r: set<int>, ready_w: set<int>) {
    && (forall k :: 0 <= k < |calls| ==> Justified(calls[k], ready_r, ready_w) && i <= calls[k].fd <= n)
    && (forall j, k :: 0 <= j < k < |calls| ==> Before(calls[j], calls[k]))
  }

  lemma WellSweptConcat(a: seq<Call>, b: seq<Call>, i: int, m: int, n: int, ready_r: set<int>, ready_w: set<int>)
    requires i <= m <= n && WellSwept(a, i, m, ready_r, ready_w) && WellSwept(b, m + 1, n, ready_r, ready_w)
    ensures WellSwept(a + b, i, n, ready_r, ready_w)
  {
  }

  /** Whatever the handlers do to the table, a sweep runs only justified handlers, in descriptor order, none twice. */
  lemma {:induction false} SweepJustified(t: Table, i: nat, n: nat, ready_r: set<int>, ready_w: set<int>,
      script: Script)
    ensures WellSwept(Sweep(t, i, n, ready_r, ready_w, script).0, i, n, ready_r, ready_w)
    decreases n + 1 - i
  {
    if i <= n {
      var v := Visit(t, i, ready_r, ready_w, script);
      var rest := Sweep(v.1, i + 1, n, ready_r, ready_w, script).0;
      VisitJustified(t, i, ready_r, ready_w, script);
      SweepJustified(v.1, i + 1, n, ready_r, ready_w, script);
      hide WellSwept, Visit;
      if i < n {
        WellSweptConcat(v.0, rest, i, i, n, ready_r, ready_w);
      } else {
        assert rest == [] && v.0 + [] == v.0;
      }
    }
  }

  lemma VisitJustified(t: Table, i: nat, ready_r: set<int>, ready_w: set<int>, script: Script)
    ensures WellSwept(Visit(t, i, ready_r, ready_w, script).0, i, i, ready_r, ready_w)
  {
  }

  predicate Targets(a: Action, fd: int) {
    a.fd == fd
  }

  lemma {:induction false} PerformAllElsewhere(t: Table, actions: seq<Action>, fd: int)
    requires forall a :: a in actions ==> !Targets(a, fd)
    ensures fd in PerformAll(t, actions) <==> fd in t
    ensures fd in t ==> PerformAll(t, actions)[fd] == t[fd]
    decreases |actions|
  {
    if actions != [] {
      assert actions[0] in actions && !Targets(actions[0], fd);
      PerformAllElsewhere(Perform(t, actions[0]), actions[1..], fd);
    }
  }

  /** No starvation: a ready, interested descriptor that no earlier handler touched is served, with its own item. */
  lemma {:induction false} SweepServes(t: Table, i: nat, n: nat, ready_r: set<int>, ready_w: set<int>, script: Script,
                                       fd: int, write: bool)
    requires i <= fd <= n && fd in t
    requires if write then fd in ready_w && t[fd].interest.write else fd in ready_r && t[fd].interest.read
    requires forall c, a :: (c in Sweep(t, i, n, ready_r, ready_w, script).0 && a in script(c)
                              && (c.fd < fd || (c.fd == fd && !c.write && write))) ==> !Targets(a, fd)
    ensures exists c :: c in Sweep(t, i, n, ready_r, ready_w, script).0 && c.fd == fd && c.write == write
                     && c.handler == t[fd].handler && c.data == t[fd].data && fd in c.table && c.table[fd] == t[fd]
    decreases n + 1 - i
  {
    var all := Sweep(t, i, n, ready_r, ready_w, script).0;
    var v := Visit(t, i, ready_r, ready_w, script);
    var rest := Sweep(v.1, i + 1, n, ready_r, ready_w, script).0;
    if i in t {
      var r := Call(i, false, t[i].handler, t[i].data, t);
      var readNow := i in ready_r && t[i].interest.read;
      var t1 := if readNow then PerformAll(t, script(r)) else t;
      if readNow {
        assert v.0[0] == r && all[0] == r;
        if i < fd || write {
          assert r in all;
          PerformAllElsewhere(t, script(r), fd);
        }
      }
      if i < fd && i in ready_w && i in t1 && t1[i].interest.write {
        var w := Call(i, true, t1[i].handler, t[i].data, t1);
        assert v.0[|v.0| - 1] == w && all[|v.0| - 1] == w;
        assert w in all;
        PerformAllElsewhere(t1, script(w), fd);
      }
      if i == fd {
        var c := if write then Call(i, true, t1[i].handler, t[i].data, t1) else r;
        assert c == if write then v.0[|v.0| - 1] else v.0[0];
        assert c in v.0;
        assert c in all;
      }
    }
    if i < fd {
      assert forall c :: c in rest ==> c in all;
      SweepServes(v.1, i + 1, n, ready_r, ready_w, script, fd, write);
    }
  }

  /** A partial run: the calls made so far, followed by what remains, are the whole run. */
  ghost predicate Prefixed(whole: (seq<Call>, Table), done: seq<Call>, remaining: (seq<Call>, Table)) {
    whole.0 == done + remaining.0 && whole.1 == remaining.1
  }

  lemma PrefixedStep(whole: (seq<Call>, Table), done: seq<Call>, turn: seq<Call>,
                     before: (seq<Call>, Table), after: (seq<Call>, Table))
    requires Prefixed(whole, done, before) && Prefixed(before, turn, after)
    ensures Prefixed(whole, done + turn, after)
  {
  }

  // ----- Finished blocking jobs -----

  /** The block handler being run for a registered descriptor. */
  function Delivery(t: Table, fd: int): Call
    requires fd in t
  {
    Call(fd, false, t[fd].handler, t[fd].data, t)
  }

  /** Draining the job list: head first, skipping descriptors that are no longer registered. */
  function Deliver(t: Table, jobs: seq<int>, script: Script): (seq<Call>, Table)
    decreases |jobs|
  {
    if jobs == [] then ([], t)
    else if jobs[0] !in t then Deliver(t, jobs[1..], script)
    else
      var c := Delivery(t, jobs[0]);
      var rest := Deliver(PerformAll(t, script(c)), jobs[1..], script);
      ([c] + rest.0, rest.1)
  }

  lemma {:induction false} DeliverConcat(t: Table, a: seq<int>, b: seq<int>, script: Script)
    ensures var first := Deliver(t, a, script);
      var second := Deliver(first.1, b, script);
      Deliver(t, a + b, script) == (first.0 + second.0, second.1)
    decreases |a|
  {
    if a == [] {
      assert a + b == b && [] + Deliver(t, b, script).0 == Deliver(t, b, script).0;
    } else {
      assert (a + b)[1..] == a[1..] + b && (a + b)[0] == a[0];
      if a[0] in t {
        var c := Delivery(t, a[0]);
        var next := PerformAll(t, script(c));
        DeliverConcat(next, a[1..], b, script);
        var rest := Deliver(next, a[1..], script);
        assert [c] + (rest.0 + Deliver(rest.1, b, script).0) == ([c] + rest.0) + Deliver(rest.1, b, script).0;
      } else {
        DeliverConcat(t, a[1..], b, script);
      }
    }
  }

  /**
   * Each job in turn is delivered exactly when its descriptor is registered at the moment its
   * turn comes, whatever the handlers before it did: then the next call is its own, with the
   * item of that moment; otherwise it makes none.
   */
  lemma DeliveredIff(t: Table, jobs: seq<int>, k: nat, script: Script)
    requires k < |jobs|
    ensures var (done, now) := Deliver(t, jobs[..k], script);
      var all := Deliver(t, jobs, script).0;
      && done <= all
      && (if jobs[k] in now then |done| < |all| && all[|done|] == Delivery(now, jobs[k])
          else Deliver(t, jobs[..k + 1], script) == (done, now))
  {
    var (done, now) := Deliver(t, jobs[..k], script);
    assert jobs == jobs[..k] + jobs[k..];
    DeliverConcat(t, jobs[..k], jobs[k..], script);
    assert jobs[..k + 1] == jobs[..k] + [jobs[k]];
    DeliverConcat(t, jobs[..k], [jobs[k]], script);
    assert jobs[k] !in now ==> Deliver(now, [jobs[k]], script) == Deliver(now, [jobs[k]][1..], script) == ([], now);
    assert done + [] == done;
  }

  /**
   * A registered job is still registered when its turn comes, with the handler and the attachment
   * it was registered with, if no handler run before it unregistered it.
   */
  lemma {:induction false} RegisteredStill(t: Table, jobs: seq<int>, script: Script, fd: int)
    requires fd in t
    requires forall c, a :: c in Deliver(t, jobs, script).0 && a in script(c) ==> a != DoUnregister(fd)
    ensures var now := Deliver(t, jobs, script).1;
      fd in now && now[fd].handler == t[fd].handler && now[fd].data == t[fd].data
    decreases |jobs|
  {
    if jobs != [] {
      if jobs[0] in t {
        var c := Delivery(t, jobs[0]);
        var t' := PerformAll(t, script(c));
        assert Deliver(t, jobs, script).0 == [c] + Deliver(t', jobs[1..], script).0;
        assert c in Deliver(t, jobs, script).0;
        ItemKept(t, script(c), fd);
        assert forall d :: d in Deliver(t', jobs[1..], script).0 ==> d in Deliver(t, jobs, script).0;
        RegisteredStill(t', jobs[1..], script, fd);
      } else {
        RegisteredStill(t, jobs[1..], script, fd);
      }
    }
  }

  /**
   * Whatever is done to the table, an item that is not unregistered keeps the handler and the
   * attachment it was registered with, and its interest until another is set.
   */
  lemma {:induction false} ItemKept(t: Table, actions: seq<Action>, fd: int)
    requires fd in t && forall a :: a in actions ==> a != DoUnregister(fd)
    ensures var now := PerformAll(t, actions);
      && fd in now && now[fd].handler == t[fd].handler && now[fd].data == t[fd].data
      && ((forall i :: DoSetInterest(fd, i) !in actions) ==> now[fd].interest == t[fd].interest)
    decreases |actions|
  {
    if actions != [] {
      assert actions[0] in actions && actions[0] != DoUnregister(fd);
      assert forall a :: a in actions[1..] ==> a in actions;
      ItemKept(Perform(t, actions[0]), actions[1..], fd);
    }
  }

  lemma {:induction false} PerformAllConcat(t: Table, a: seq<Action>, b: seq<Action>)
    ensures PerformAll(t, a + b) == PerformAll(PerformAll(t, a), b)
    decreases |a|
  {
    if a == [] {
      assert a + b == b;
    } else {
      assert (a + b)[1..] == a[1..] + b;
      PerformAllConcat(Perform(t, a[0]), a[1..], b);
    }
  }

  /** Of the interests set for an item, the last one holds, and nothing else of it has changed. */
  lemma LastInterest(t: Table, fd: int, before: seq<Action>, i: Interest, after: seq<Action>)
    requires fd in t && !InvalidFd(fd)
    requires forall a :: a in before ==> a != DoUnregister(fd)
    requires forall a :: a in after ==> a != DoUnregister(fd) && forall k :: a != DoSetInterest(fd, k)
    ensures var now := PerformAll(t, before + [DoSetInterest(fd, i)] + after);
      fd in now && now[fd] == Item(i, t[fd].handler, t[fd].data)
  {
    var set_, mid := [DoSetInterest(fd, i)], PerformAll(t, before);
    ItemKept(t, before, fd);
    PerformAllConcat(t, before + set_, after);
    PerformAllConcat(t, before, set_);
    assert set_[1..] == [];
    assert PerformAll(mid, set_) == SetInterest(mid, fd, i).1;
    ItemKept(PerformAll(mid, set_), after, fd);
  }

  /** What has become of a registration that succeeded, since nobody unregistered it. */
  lemma RegistrationKept(t: Table, fd: int, handler: nat, interest: Interest, data: int, since: seq<Action>)
    requires Register(t, fd, handler, interest, data).0 == Success
    requires forall a :: a in since ==> a != DoUnregister(fd)
    ensures var now := PerformAll(Register(t, fd, handler, interest, data).1, since);
      && fd in now && now[fd].handler == handler && now[fd].data == data
      && ((forall i :: DoSetInterest(fd, i) !in since) ==> now[fd].interest == interest)
  {
    ItemKept(Register(t, fd, handler, interest, data).1, since, fd);
  }

  /**
   * A descriptor is served by the handler it was registered with. Whatever has been done to the
   * table since, but to that descriptor, a sweep that finds it ready for an event it asked for
   * runs that very handler with that very attachment, if no handler run before its turn touches it.
   */
  lemma RegisteredServed(t: Table, fd: int, handler: nat, interest: Interest, data: int, since: seq<Action>,
                         n: nat, ready_r: set<int>, ready_w: set<int>, script: Script, write: bool)
    requires Register(t, fd, handler, interest, data).0 == Success && fd <= n
    requires forall a :: a in since ==> !Targets(a, fd)
    requires if write then fd in ready_w && interest.write else fd in ready_r && interest.read
    requires var now := PerformAll(Register(t, fd, handler, interest, data).1, since);
      forall c, a :: (c in Sweep(now, 0, n, ready_r, ready_w, script).0 && a in script(c)
                      && (c.fd < fd || (c.fd == fd && !c.write && write))) ==> !Targets(a, fd)
    ensures var now := PerformAll(Register(t, fd, handler, interest, data).1, since);
      exists c :: c in Sweep(now, 0, n, ready_r, ready_w, script).0 && c.fd == fd && c.write == write
                  && c.handler == handler && c.data == data
  {
    assert forall a :: a in since ==> !Targets(a, fd) && a != DoUnregister(fd);
    RegistrationKept(t, fd, handler, interest, data, since);
    SweepServes(PerformAll(Register(t, fd, handler, interest, data).1, since), 0, n, ready_r, ready_w, script, fd,
        write);
  }

  /**
   * The same of a finished job: its handler is run when its turn comes, with its attachment, if
   * nobody unregistered it since it was registered, by then.
   */
  lemma RegisteredDelivered(t: Table, fd: int, handler: nat, interest: Interest, data: int, since: seq<Action>,
                            jobs: seq<int>, k: nat, script: Script)
    requires Register(t, fd, handler, interest, data).0 == Success && k < |jobs| && jobs[k] == fd
    requires forall a :: a in since ==> a != DoUnregister(fd)
    requires var now := PerformAll(Register(t, fd, handler, interest, data).1, since);
      forall c, a :: c in Deliver(now, jobs[..k], script).0 && a in script(c) ==> a != DoUnregister(fd)
    ensures var now := PerformAll(Register(t, fd, handler, interest, data).1, since);
      var before, all := |Deliver(now, jobs[..k], script).0|, Deliver(now, jobs, script).0;
      before < |all| && all[before].fd == fd && all[before].handler == handler && all[before].data == data
  {
    var now := PerformAll(Register(t, fd, handler, interest, data).1, since);
    RegistrationKept(t, fd, handler, interest, data, since);
    RegisteredStill(now, jobs[..k], script, fd);
    DeliveredIff(now, jobs, k, script);
  }

  /** The list after jobs have finished one after another. */
  function Notified(jobs: seq<int>, fds: seq<int>): seq<int>
    decreases |fds|
  {
    if fds == [] then jobs else Notified([fds[0]] + jobs, fds[1..])
  }

  lemma {:induction false} NotifiedAt(jobs: seq<int>, fds: seq<int>, k: nat)
    requires k < |fds|
    ensures var list := Notified(jobs, fds);
      |list| == |fds| + |jobs| && list[|fds|..] == jobs && list[|fds| - 1 - k] == fds[k]
    decreases |fds|
  {
    if |fds| > 1 {
      NotifiedAt([fds[0]] + jobs, fds[1..], if k == 0 then 0 else k - 1);
    } else {
      assert Notified([fds[0]] + jobs, fds[1..]) == [fds[0]] + jobs;
    }
  }

  /**
   * Of the jobs that finish before a drain, the last is delivered first and what was in the list
   * already comes after all of them; and each is delivered, once in its turn, exactly when its
   * descriptor is registered then.
   */
  lemma NewestFirst(t: Table, jobs: seq<int>, fds: seq<int>, k: nat, script: Script)
    requires k < |fds|
    ensures var list, i := Notified(jobs, fds), |fds| - 1 - k;
      && |list| == |fds| + |jobs| && list[|fds|..] == jobs && list[i] == fds[k]
      && var (done, now) := Deliver(t, list[..i], script);
      var all := Deliver(t, list, script).0;
      && done <= all
      && (if fds[k] in now then |done| < |all| && all[|done|] == Delivery(now, fds[k])
          else Deliver(t, list[..i + 1], script) == (done, now))
  {
    NotifiedAt(jobs, fds, k);
    DeliveredIff(t, Notified(jobs, fds), |fds| - 1 - k, script);
  }

  // ----- The selector object -----

  /** struct item; fd is FD_UNUSED when the slot is free. */
  datatype Slot = Slot(fd: int, interest: Interest, handler: nat, data: int)

  const FD_UNUSED := -1
  const UNUSED_SLOT := Slot(FD_UNUSED, OP_NOOP, 0, 0)

  function ItemOf(s: Slot): Item {
    Item(s.interest, s.handler, s.data)
  }

  class Selector {
    var fds: array<Slot>
    var maxFd: int
    var masterR: set<int>
    var masterW: set<int>
    var jobs: seq<int>

    ghost predicate SlotsOk()
      reads this`fds, fds
    {
      fds.Length <= ITEMS_MAX_SIZE + 1 &&
      forall i :: 0 <= i < fds.Length ==> fds[i].fd == i || fds[i] == UNUSED_SLOT
    }

    /** The table as a map from the descriptors in use to what is registered for them. */
    function Table(): (t: Table)
      reads this`fds, fds
      ensures forall fd :: fd in t <==> 0 <= fd < fds.Length && fds[fd].fd != FD_UNUSED
      ensures forall fd :: fd in t ==> t[fd] == ItemOf(fds[fd])
    {
      map i | 0 <= i < fds.Length && fds[i].fd != FD_UNUSED :: ItemOf(fds[i])
    }

    /** The derived data agrees with the table. */
    ghost predicate Valid()
      reads this, fds
    {
      SlotsOk() && IsMaxFd(Table(), maxFd) && masterR == ReadFds(Table()) && masterW == WriteFds(Table())
    }

    /** True of the selector that main builds; the source checks indices against the table size only when this holds. */
    ghost predicate Full()
      reads this`fds
    {
      fds.Length == ITEMS_MAX_SIZE + 1
    }

    constructor Blank()
      ensures Valid() && fresh(fds) && fds.Length == 0 && Table() == map[] && jobs == []
    {
      fds := new Slot[0];
      maxFd, masterR, masterW, jobs := 0, {}, {}, [];
    }

    /** selector_new. */
    static method New(initialElements: nat) returns (s: Selector?)
      ensures s != null <==> initialElements <= ITEMS_MAX_SIZE
      ensures s != null ==> fresh(s) && fresh(s.fds) && s.Valid() && s.Table() == map[] && s.jobs == []
      ensures s != null ==> s.fds.Length == Capacity(initialElements) > initialElements
    {
      var made := new Selector.Blank();
      var st := made.EnsureCapacity(initialElements);
      s := if st == Success then made else null;
    }

    /** Makes index n available; never loses or invents an item. */
    method EnsureCapacity(n: nat) returns (ret: Status)
      requires Valid()
      modifies this`fds
      ensures Valid() && Table() == old(Table())
      ensures ret == if n < old(fds.Length) || n <= ITEMS_MAX_SIZE then Success else MaxFdReached
      ensures n < old(fds.Length) || ret != Success ==> fds == old(fds)
      ensures old(fds.Length) <= n <= ITEMS_MAX_SIZE ==> fresh(fds) && n < fds.Length == Capacity(n)
    {
      if n < fds.Length {
        ret := Success;
      } else if n > ITEMS_MAX_SIZE {
        ret := MaxFdReached;
      } else {
        var newSize := NextCapacity(n);
        var tmp := new Slot[newSize](i => UNUSED_SLOT);
        for i := 0 to fds.Length
          modifies tmp
          invariant forall k :: 0 <= k < i ==> tmp[k] == fds[k]
          invariant forall k :: i <= k < newSize ==> tmp[k] == UNUSED_SLOT
        {
          tmp[i] := fds[i];
        }
        fds := tmp;
        assert Table() == old(Table());
        ret := Success;
      }
    }

    /** Overwrites one slot of the table. */
    method Store(i: nat, slot: Slot)
      requires SlotsOk() && i < fds.Length && (slot.fd == i || slot == UNUSED_SLOT)
      modifies fds
      ensures SlotsOk()
      ensures Table() == if slot == UNUSED_SLOT then old(Table()) - {i} else old(Table())[i := ItemOf(slot)]
    {
      fds[i] := slot;
    }

    /** items_max_fd: scans up to the previous maximum, which bounds every descriptor still in use. */
    method ItemsMaxFd() returns (max: int)
      requires SlotsOk() && 0 <= maxFd < fds.Length
      requires forall fd :: fd in Table() ==> fd <= maxFd
      ensures IsMaxFd(Table(), max)
    {
      max := 0;
      for i := 0 to maxFd + 1
        invariant max >= 0 && (max == 0 || max in Table())
        invariant forall fd :: fd in Table() && fd < i ==> fd <= max
      {
        if fds[i].fd != FD_UNUSED {
          if fds[i].fd > max {
            max := fds[i].fd;
          }
        }
      }
    }

    method UpdateFdSets(item: Slot)
      modifies this`masterR, this`masterW
      ensures masterR == old(masterR) - {item.fd}
                         + (if item.fd != FD_UNUSED && item.interest.read then {item.fd} else {})
      ensures masterW == old(masterW) - {item.fd}
                         + (if item.fd != FD_UNUSED && item.interest.write then {item.fd} else {})
    {
      masterR := masterR - {item.fd};
      masterW := masterW - {item.fd};
      if item.fd != FD_UNUSED {
        if item.interest.read {
          masterR := masterR + {item.fd};
        }
        if item.interest.write {
          masterW := masterW + {item.fd};
        }
      }
    }

    /** selector_register; see RegisterSlotInTable for its precondition. */
    method RegisterFd(fd: int, handler: nat, interest: Interest, data: int) returns (ret: Status)
      requires Valid() && (InvalidFd(fd) || fd != fds.Length)
      modifies this, fds
      ensures Valid() && jobs == old(jobs)
      ensures ret == Register(old(Table()), fd, handler, interest, data).0
          && Table() == Register(old(Table()), fd, handler, interest, data).1
      ensures fds == old(fds) || fresh(fds)
      ensures old(Full()) ==> fds == old(fds)
    {
      if InvalidFd(fd) {
        return IllegalArgs;
      }
      if fd > fds.Length {
        var st := EnsureCapacity(fd);
      }
      ret := Occupy(fd, handler, interest, data);
    }

    method Occupy(fd: nat, handler: nat, interest: Interest, data: int) returns (ret: Status)
      requires Valid() && fd < fds.Length && fd < ITEMS_MAX_SIZE
      modifies this`maxFd, this`masterR, this`masterW, fds
      ensures Valid()
      ensures ret == Register(old(Table()), fd, handler, interest, data).0
      ensures Table() == Register(old(Table()), fd, handler, interest, data).1
    {
      ret := FdInUse;
      if fds[fd].fd == FD_UNUSED {
        var item := Slot(fd, interest, handler, data);
        DerivedAfterUpdate(Table(), fd, ItemOf(item), maxFd);
        Store(fd, item);
        if fd > maxFd {
          maxFd := fd;
        }
        UpdateFdSets(item);
        ret := Success;
      }
    }

    /** selector_unregister_fd; closed is the item handed to the close handler. */
    method UnregisterFd(fd: int) returns (ret: Status, closed: Option<Item>)
      requires Valid() && (InvalidFd(fd) || fd < fds.Length)
      modifies this`maxFd, this`masterR, this`masterW, fds
      ensures Valid()
      ensures ret == Unregister(old(Table()), fd).0 && Table() == Unregister(old(Table()), fd).1
      ensures closed == if ret == Success then Some(old(Table())[fd]) else None
    {
      ret, closed := IllegalArgs, None;
      if !InvalidFd(fd) && fds[fd].fd != FD_UNUSED {
        assert fd in Table();
        closed := Some(ItemOf(fds[fd]));
        Vacate(fd);
        ret := Success;
      }
    }

    method Vacate(fd: nat)
      requires Valid() && fd in Table()
      modifies this`maxFd, this`masterR, this`masterW, fds
      ensures Valid() && Table() == old(Table()) - {fd}
    {
      ghost var t := Table() - {fd};
      DerivedAfterUpdate(Table(), fd, ItemOf(fds[fd]), maxFd);
      UpdateFdSets(fds[fd].(interest := OP_NOOP));
      hide IsMaxFd;
      assert masterR == ReadFds(t) && masterW == WriteFds(t);
      hide ReadFds, WriteFds;
      Store(fd, UNUSED_SLOT);
      assert Table() == t;
      var max := ItemsMaxFd();
      maxFd := max;
    }

    /** selector_set_interest. */
    method SetInterestFd(fd: int, i: Interest) returns (ret: Status)
      requires Valid() && (InvalidFd(fd) || fd < fds.Length)
      modifies this`masterR, this`masterW, fds
      ensures Valid()
      ensures ret == SetInterest(old(Table()), fd, i).0 && Table() == SetInterest(old(Table()), fd, i).1
    {
      if InvalidFd(fd) {
        return IllegalArgs;
      }
      if fds[fd].fd == FD_UNUSED {
        return IllegalArgs;
      }
      assert fd in Table();
      DerivedAfterUpdate(Table(), fd, Item(i, fds[fd].handler, fds[fd].data), maxFd);
      Store(fd, fds[fd].(interest := i));
      UpdateFdSets(fds[fd]);
      ret := Success;
    }

    /** A handler running: the table operations it performs. */
    method RunHandler(actions: seq<Action>)
      requires Valid() && Full()
      modifies this, fds
      ensures Valid() && fds == old(fds) && jobs == old(jobs)
      ensures Table() == PerformAll(old(Table()), actions)
    {
      ghost var t0 := Table();
      for k := 0 to |actions|
        invariant Valid() && fds == old(fds) && Full() && jobs == old(jobs)
        invariant PerformAll(t0, actions) == PerformAll(Table(), actions[k..])
      {
        ghost var t := Table();
        assert actions[k..][0] == actions[k] && actions[k..][1..] == actions[k + 1..];
        match actions[k]
        case DoRegister(fd, h, i, d) =>
          var st := RegisterFd(fd, h, i, d);
        case DoUnregister(fd) =>
          var st, closed := UnregisterFd(fd);
        case DoSetInterest(fd, i) =>
          var st := SetInterestFd(fd, i);
      }
    }

    /** The body of handle_iteration's loop. */
    method VisitSlot(i: nat, slaveR: set<int>, slaveW: set<int>, script: Script) returns (calls: seq<Call>)
      requires Valid() && Full() && i < fds.Length
      modifies this, fds
      ensures Valid() && fds == old(fds) && jobs == old(jobs)
      ensures calls == Visit(old(Table()), i, slaveR, slaveW, script).0
          && Table() == Visit(old(Table()), i, slaveR, slaveW, script).1
    {
      calls := [];
      if fds[i].fd != FD_UNUSED {
        var fd, data := fds[i].fd, fds[i].data;
        if fd in slaveR {
          if fds[i].interest.read {
            var c := Call(fd, false, fds[i].handler, data, Table());
            calls := [c];
            RunHandler(script(c));
          }
        }
        if i in slaveW {
          if fds[i].interest.write {
            var c := Call(fd, true, fds[i].handler, data, Table());
            calls := calls + [c];
            RunHandler(script(c));
          }
        }
      }
    }

    /** handle_iteration, over the descriptors that pselect flagged. */
    method HandleIteration(slaveR: set<int>, slaveW: set<int>, script: Script) returns (calls: seq<Call>)
      requires Valid() && Full()
      modifies this, fds
      ensures Valid() && fds == old(fds) && jobs == old(jobs)
      ensures calls == Sweep(old(Table()), 0, old(maxFd), slaveR, slaveW, script).0
          && Table() == Sweep(old(Table()), 0, old(maxFd), slaveR, slaveW, script).1
    {
      calls := [];
      var n := maxFd;
      ghost var whole := Sweep(Table(), 0, n, slaveR, slaveW, script);
      for i := 0 to n + 1
        invariant Valid() && fds == old(fds) && Full() && jobs == old(jobs)
        invariant Prefixed(whole, calls, Sweep(Table(), i, n, slaveR, slaveW, script))
      {
        ghost var before, done := Table(), calls;
        var turn := VisitSlot(i, slaveR, slaveW, script);
        calls := calls + turn;
        PrefixedStep(whole, done, turn, Sweep(before, i, n, slaveR, slaveW, script),
            Sweep(Table(), i + 1, n, slaveR, slaveW, script));
      }
      assert Sweep(Table(), n + 1, n, slaveR, slaveW, script) == ([], Table());
    }

    /** selector_notify_block: a finished job goes to the head of the list. */
    method NotifyBlock(fd: int)
      modifies this`jobs
      ensures jobs == Notified(old(jobs), [fd])
    {
      jobs := [fd] + jobs;
    }

    /** handle_block_notifications. */
    method HandleBlockNotifications(script: Script) returns (calls: seq<Call>)
      requires Valid() && Full() && (forall fd :: fd in jobs ==> 0 <= fd < ITEMS_MAX_SIZE)
      modifies this, fds
      ensures Valid() && fds == old(fds) && jobs == []
      ensures calls == Deliver(old(Table()), old(jobs), script).0
          && Table() == Deliver(old(Table()), old(jobs), script).1
    {
      calls := [];
      var list := jobs;
      for k := 0 to |list|
        invariant Valid() && fds == old(fds) && Full() && jobs == list
        invariant Deliver(old(Table()), list, script).0 == calls + Deliver(Table(), list[k..], script).0
        invariant Deliver(old(Table()), list, script).1 == Deliver(Table(), list[k..], script).1
      {
        var fd := list[k];
        ghost var done := calls;
        assert fd in list && list[k..][0] == fd && list[k..][1..] == list[k + 1..];
        if fds[fd].fd != FD_UNUSED {
          assert fd in Table();
          var c := Call(fds[fd].fd, false, fds[fd].handler, fds[fd].data, Table());
          ghost var rest := Deliver(PerformAll(Table(), script(c)), list[k + 1..], script).0;
          calls := calls + [c];
          RunHandler(script(c));
          assert done + ([c] + rest) == calls + rest;
        }
      }
      jobs := [];
    }
  }
}
