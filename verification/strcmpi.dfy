/**
 * The table-driven matcher: the engine that interprets transition tables (src/parser.c) and
 * the compiler of a string into a case-insensitive comparison table (src/parser_utils.c).
 */
module StringMatchers {
  import opened Bytes

  /** A condition above 0xFF is not an octet: ANY always holds, the others are sets of classes. */
  const ANY: int := 512

  datatype Verdict = MayEq | Eq | Neq

  /** struct parser_event; `n` octets of data, of which the actions here fill one. */
  datatype Event = Event(kind: Verdict, n: nat, data: byte)

  type Condition = x: int | 0 <= x < 0x8000_0000

  /** struct parser_state_transition; an action stores its verdict on the octet that fired it. */
  datatype Transition = Transition(when: Condition, dest: nat, act1: Option<Verdict>, act2: Option<Verdict>)

  /** What calloc leaves in a slot nobody writes. */
  const BLANK := Transition(0, 0, None, None)

  /** struct parser_definition: a state is a window of statesN transitions from an offset into the table. */
  datatype Definition = Definition(transitions: seq<Transition>, states: seq<nat>, statesN: seq<nat>, start: nat) {
    /** Every state has its window inside the table, and every transition in it leads to a state and acts. */
    ghost predicate Closed() {
      && |states| == |statesN| && start < |states|
      && (forall q :: 0 <= q < |states| ==> states[q] + statesN[q] <= |transitions|)
      && (forall q, j :: 0 <= q < |states| && states[q] <= j < states[q] + statesN[q] ==>
            transitions[j].dest < |states| && transitions[j].act1.Some?)
    }
  }

  predicate Meets(when: Condition, c: byte, class_: bv32) {
    if when <= 0xFF then c == when
    else when == ANY || (when as bv32 & class_) != 0
  }

  /** The first of `left` transitions from `at` whose condition holds, if any. */
  function Search(transitions: seq<Transition>, at: nat, left: nat, c: byte, class_: bv32): (r: Option<nat>)
    requires at + left <= |transitions|
    ensures r.Some? ==> at <= r.value < at + left && Meets(transitions[r.value].when, c, class_)
    ensures r.Some? ==> forall j :: at <= j < r.value ==> !Meets(transitions[j].when, c, class_)
    ensures r.None? ==> forall j :: at <= j < at + left ==> !Meets(transitions[j].when, c, class_)
    decreases left
  {
    if left == 0 then None
    else if Meets(transitions[at].when, c, class_) then Some(at)
    else Search(transitions, at + 1, left - 1, c, class_)
  }

  /** The part of struct parser that changes. The returned event is e1, followed by e2 when linked. */
  datatype Matcher = Matcher(state: nat, e1: Event, e2: Event, linked: bool)

  const IDLE := Event(MayEq, 0, 0)

  function Start(def: Definition): Matcher {
    Matcher(def.start, IDLE, IDLE, false)
  }

  function Fire(m: Matcher, t: Transition, c: byte): Matcher
    requires t.act1.Some?
  {
    Matcher(t.dest, Event(t.act1.value, 1, c),
            if t.act2.Some? then Event(t.act2.value, 1, c) else m.e2, t.act2.Some?)
  }

  /** parser_feed; when no transition holds, the events of the previous call are returned again, unlinked. */
  function Feed(def: Definition, m: Matcher, c: byte, class_: bv32): (r: Matcher)
    requires def.Closed() && m.state < |def.states|
    ensures r.state < |def.states|
  {
    var found := Search(def.transitions, def.states[m.state], def.statesN[m.state], c, class_);
    if found.None? then m.(linked := false) else Fire(m, def.transitions[found.value], c)
  }

  // ----- The comparison table -----

  predicate Ascii(c: int) {
    0 < c < 128
  }

  predicate AsciiText(s: seq<byte>) {
    forall i :: 0 <= i < |s| ==> Ascii(s[i])
  }

  function ToLower(c: byte): byte {
    if 65 <= c <= 90 then c + 32 else c
  }

  function ToUpper(c: byte): byte {
    if 97 <= c <= 122 then c - 32 else c
  }

  /** Slot k of the row of state i. */
  function Compiled(s: seq<byte>, i: nat, k: nat): Transition {
    if i < |s| && k < 2 then
      var last := i + 1 == |s|;
      Transition(if k == 0 then ToLower(s[i]) else ToUpper(s[i]), if last then |s| else i + 1,
                 Some(if last then Eq else MayEq), None)
    else if k == (if i < |s| then 2 else 0) then Transition(ANY, |s| + 1, Some(Neq), None)
    else BLANK
  }

  /** parser_utils_strcmpi: n states that expect a letter, one for equality reached and one for equality lost. */
  function Compile(s: seq<byte>): (def: Definition)
    ensures def.Closed()
  {
    var n := |s|;
    Definition(seq(3 * (n + 2), j requires j >= 0 => Compiled(s, j / 3, j % 3)),
               seq(n + 2, i requires i >= 0 => 3 * i),
               seq(n + 2, i => if i < n then 3 else 1), 0)
  }

  lemma Row(s: seq<byte>, i: nat)
    requires i < |s| + 2
    ensures var def := Compile(s);
      && |def.transitions| == 3 * (|s| + 2) && |def.states| == |def.statesN| == |s| + 2 && def.start == 0
      && def.transitions[3 * i] == Compiled(s, i, 0)
      && def.transitions[3 * i + 1] == Compiled(s, i, 1)
      && def.transitions[3 * i + 2] == Compiled(s, i, 2)
      && def.states[i] == 3 * i && def.statesN[i] == if i < |s| then 3 else 1
  {
  }

  // ----- What the table computes -----

  predicate SamePrefix(s: seq<byte>, t: seq<byte>) {
    |t| <= |s| && forall i :: 0 <= i < |t| ==> ToLower(t[i]) == ToLower(s[i])
  }

  /** The verdict a case-insensitive comparison owes after having seen t. */
  function Judge(s: seq<byte>, t: seq<byte>): Verdict {
    if !SamePrefix(s, t) then Neq else if |t| == |s| then Eq else MayEq
  }

  /** The state the matcher must be in after having seen t. */
  function StateAfter(s: seq<byte>, t: seq<byte>): nat {
    if SamePrefix(s, t) then |t| else |s| + 1
  }

  lemma CaseFold(c: byte, d: byte)
    requires Ascii(d)
    ensures c == ToLower(d) || c == ToUpper(d) <==> ToLower(c) == ToLower(d)
  {
  }

  lemma SamePrefixNext(s: seq<byte>, t: seq<byte>, c: byte)
    ensures SamePrefix(s, t + [c]) <==> SamePrefix(s, t) && |t| < |s| && ToLower(c) == ToLower(s[|t|])
  {
  }

  /** The transition an octet takes in each state of the table. */
  lemma RowTaken(s: seq<byte>, q: nat, c: byte, class_: bv32)
    requires AsciiText(s) && q < |s| + 2
    ensures var def := Compile(s);
      def.states[q] == 3 * q &&
      var found := Search(def.transitions, 3 * q, def.statesN[q], c, class_);
      found.Some? && var t := def.transitions[found.value];
      t == if q < |s| && ToLower(c) == ToLower(s[q])
           then Transition(t.when, if q + 1 == |s| then |s| else q + 1, Some(if q + 1 == |s| then Eq else MayEq), None)
           else Transition(ANY, |s| + 1, Some(Neq), None)
  {
    hide Compile, Search;
    var def := Compile(s);
    Row(s, q);
    var found := Search(def.transitions, 3 * q, def.statesN[q], c, class_);
    if q < |s| {
      CaseFold(c, s[q]);
      assert Meets(def.transitions[3 * q + 2].when, c, class_);
      assert found.value == 3 * q || found.value == 3 * q + 1 || found.value == 3 * q + 2;
    } else {
      assert Meets(def.transitions[3 * q].when, c, class_);
    }
  }

  /** One octet: from the state that t deserves to the state and verdict that t + [c] deserves. */
  lemma FeedJudges(s: seq<byte>, t: seq<byte>, m: Matcher, c: byte, class_: bv32)
    requires AsciiText(s) && m.state == StateAfter(s, t)
    ensures var r := Feed(Compile(s), m, c, class_);
      r.state == StateAfter(s, t + [c]) && r.e1 == Event(Judge(s, t + [c]), 1, c) && !r.linked
  {
    hide Search, Compiled, Compile;
    Row(s, m.state);
    SamePrefixNext(s, t, c);
    RowTaken(s, m.state, c, class_);
  }

  /** The events of a whole input, one for each octet. */
  function Events(def: Definition, m: Matcher, t: seq<byte>, classes: byte -> bv32): (events: seq<Event>)
    requires def.Closed() && m.state < |def.states|
    ensures |events| == |t|
    decreases |t|
  {
    if t == [] then []
    else
      var next := Feed(def, m, t[0], classes(t[0]));
      [next.e1] + Events(def, next, t[1..], classes)
  }

  /** The table parser_no_classes hands out: an entry for every octet but the last. */
  const NO_CLASSES: seq<bv32> := seq(0xFF, i => 0)

  /** The events of a whole input with a table of classes, or None where an octet is looked up past its end. */
  function LookedUp(def: Definition, m: Matcher, t: seq<byte>, classes: seq<bv32>): Option<seq<Event>>
    requires def.Closed() && m.state < |def.states|
    decreases |t|
  {
    if t == [] then Some([])
    else if t[0] >= |classes| then None
    else
      var next := Feed(def, m, t[0], classes[t[0]]);
      var rest := LookedUp(def, next, t[1..], classes);
      if rest.None? then None else Some([next.e1] + rest.value)
  }

  function ClassIn(classes: seq<bv32>): byte -> bv32 {
    (c: byte) => if c < |classes| then classes[c] else 0
  }

  /**
   * A table of classes serves an input exactly when it has an entry for each of its octets; then
   * it gives the input's events.
   */
  lemma {:induction false} LookedUpIff(def: Definition, m: Matcher, t: seq<byte>, classes: seq<bv32>)
    requires def.Closed() && m.state < |def.states|
    ensures LookedUp(def, m, t, classes).Some? <==> forall k :: 0 <= k < |t| ==> t[k] < |classes|
    ensures LookedUp(def, m, t, classes).Some? ==>
              LookedUp(def, m, t, classes).value == Events(def, m, t, ClassIn(classes))
    decreases |t|
  {
    if t != [] && t[0] < |classes| {
      LookedUpIff(def, Feed(def, m, t[0], classes[t[0]]), t[1..], classes);
      assert t == [t[0]] + t[1..];
    }
  }

  /** With the default table, an input is read past the end of the table exactly when it holds an octet 255. */
  lemma DefaultTableMisses(def: Definition, m: Matcher, t: seq<byte>)
    requires def.Closed() && m.state < |def.states|
    ensures LookedUp(def, m, t, NO_CLASSES).None? <==> 0xFF in t
    ensures LookedUp(def, m, [0xFF], NO_CLASSES).None?
  {
    LookedUpIff(def, m, t, NO_CLASSES);
    if LookedUp(def, m, t, NO_CLASSES).None? {
      var k :| 0 <= k < |t| && t[k] >= |NO_CLASSES|;
      assert t[k] == 0xFF;
    }
  }

  lemma {:induction false} EventsJudge(s: seq<byte>, seen: seq<byte>, m: Matcher, t: seq<byte>, classes: byte -> bv32,
      k: nat)
    requires AsciiText(s) && m.state == StateAfter(s, seen) && k < |t|
    ensures Events(Compile(s), m, t, classes)[k] == Event(Judge(s, seen + t[..k + 1]), 1, t[k])
    decreases |t|
  {
    hide Compile, Feed, Judge;
    FeedJudges(s, seen, m, t[0], classes(t[0]));
    if k == 0 {
      assert t[..1] == [t[0]];
    } else {
      EventsJudge(s, seen + [t[0]], Feed(Compile(s), m, t[0], classes(t[0])), t[1..], classes, k - 1);
      assert (seen + [t[0]]) + t[1..][..k] == seen + t[..k + 1];
    }
  }

  /**
   * The compiled table is exact, for every pattern and every input: the event at step k says
   * not-equal when the octets so far differ from the pattern or outrun it, equal exactly when
   * they are the whole pattern, and maybe otherwise; and it carries the octet just read.
   */
  lemma TableCompares(s: seq<byte>, t: seq<byte>, classes: byte -> bv32, k: nat)
    requires AsciiText(s) && k < |t|
    ensures Events(Compile(s), Start(Compile(s)), t, classes)[k] == Event(Judge(s, t[..k + 1]), 1, t[k])
  {
    EventsJudge(s, [], Start(Compile(s)), t, classes, k);
    assert [] + t[..k + 1] == t[..k + 1];
  }

  /** Once lost, equality never comes back; and equality is announced at most once. */
  lemma LostForever(s: seq<byte>, t: seq<byte>, classes: byte -> bv32, j: nat, k: nat)
    requires AsciiText(s) && j < k < |t|
    ensures var events := Events(Compile(s), Start(Compile(s)), t, classes);
      events[j].kind != MayEq ==> events[k].kind == Neq
  {
    hide Events, Compile;
    TableCompares(s, t, classes, j);
    TableCompares(s, t, classes, k);
    if SamePrefix(s, t[..k + 1]) {
      forall i | 0 <= i < j + 1
        ensures ToLower(t[..j + 1][i]) == ToLower(s[i])
      {
        assert t[..j + 1][i] == t[..k + 1][i];
      }
    }
  }

  // ----- The source's objects -----

  datatype Tables = Tables(transitions: array<Transition>, states: array<nat>, statesN: array<nat>, start: nat)

  ghost function Value(def: Tables): Definition
    reads def.transitions, def.states, def.statesN
  {
    Definition(def.transitions[..], def.states[..], def.statesN[..], def.start)
  }

  /** The three transitions of a state that expects a letter. */
  method StoreRow(transitions: array<Transition>, s: seq<byte>, i: nat)
    requires i < |s| && transitions.Length == 3 * (|s| + 2)
    modifies transitions
    ensures transitions[3 * i] == Compiled(s, i, 0)
    ensures transitions[3 * i + 1] == Compiled(s, i, 1)
    ensures transitions[3 * i + 2] == Compiled(s, i, 2)
    ensures forall j :: 0 <= j < transitions.Length && !(3 * i <= j < 3 * i + 3) ==>
                          transitions[j] == old(transitions[j])
  {
    var n := |s|;
    var dest := if i + 1 == n then n else i + 1;
    var act := if i + 1 == n then Eq else MayEq;
    transitions[i * 3 + 0] := Transition(ToLower(s[i]), dest, Some(act), None);
    transitions[i * 3 + 1] := Transition(ToUpper(s[i]), dest, Some(act), None);
    transitions[i * 3 + 2] := Transition(ANY, n + 1, Some(Neq), None);
  }

  /** The one transition of the states reached by equality and by its loss. */
  method StoreSink(transitions: array<Transition>, s: seq<byte>, i: nat)
    requires |s| <= i < |s| + 2 && transitions.Length == 3 * (|s| + 2)
    requires transitions[3 * i + 1] == transitions[3 * i + 2] == BLANK
    modifies transitions
    ensures transitions[3 * i] == Compiled(s, i, 0)
    ensures transitions[3 * i + 1] == Compiled(s, i, 1)
    ensures transitions[3 * i + 2] == Compiled(s, i, 2)
    ensures forall j :: 0 <= j < transitions.Length && j != 3 * i ==> transitions[j] == old(transitions[j])
  {
    transitions[i * 3] := Transition(ANY, |s| + 1, Some(Neq), None);
  }

  /** The loop over the pattern. */
  method StoreLetters(transitions: array<Transition>, states: array<nat>, nstates: array<nat>, s: seq<byte>)
    requires transitions.Length == 3 * (|s| + 2) && states.Length == nstates.Length == |s| + 2 && states != nstates
    requires forall j :: 0 <= j < transitions.Length ==> transitions[j] == BLANK
    modifies transitions, states, nstates
    ensures forall j :: 0 <= j < 3 * |s| ==> transitions[j] == Compile(s).transitions[j]
    ensures forall j :: 3 * |s| <= j < transitions.Length ==> transitions[j] == BLANK
    ensures forall j :: 0 <= j < |s| ==> states[j] == Compile(s).states[j] && nstates[j] == Compile(s).statesN[j]
  {
    hide Compile, Compiled;
    ghost var want := Compile(s);
    Row(s, 0);
    for i := 0 to |s|
      invariant forall j :: 0 <= j < 3 * i ==> transitions[j] == want.transitions[j]
      invariant forall j :: 3 * i <= j < transitions.Length ==> transitions[j] == BLANK
      invariant forall j :: 0 <= j < i ==> states[j] == want.states[j] && nstates[j] == want.statesN[j]
    {
      StoreRow(transitions, s, i);
      states[i] := i * 3;
      nstates[i] := 3;
      Row(s, i);
    }
  }

  /** parser_utils_strcmpi, writing into its three arrays. */
  method BuildTables(s: seq<byte>) returns (def: Tables)
    requires AsciiText(s)
    ensures fresh(def.transitions) && fresh(def.states) && fresh(def.statesN)
    ensures Value(def) == Compile(s)
  {
    hide Compile, Compiled;
    var n := |s|;
    var states := new nat[n + 2](_ => 0);
    var nstates := new nat[n + 2](_ => 0);
    var transitions := new Transition[3 * (n + 2)](_ => BLANK);
    Row(s, n);
    Row(s, n + 1);
    StoreLetters(transitions, states, nstates, s);
    StoreSink(transitions, s, n);
    states[n + 0] := (n + 0) * 3;
    nstates[n + 0] := 1;
    StoreSink(transitions, s, n + 1);
    states[n + 1] := (n + 1) * 3;
    nstates[n + 1] := 1;
    def := Tables(transitions, states, nstates, 0);
    assert transitions[..] == Compile(s).transitions;
    assert states[..] == Compile(s).states;
    assert nstates[..] == Compile(s).statesN;
  }

  /** struct parser. */
  class Parser {
    const classes: array<bv32>
    const def: Tables
    var state: nat
    var e1: Event
    var e2: Event
    var linked: bool

    ghost predicate Valid()
      reads this, def.transitions, def.states, def.statesN
    {
      Value(def).Closed() && state < def.states.Length
    }

    ghost function Now(): Matcher
      reads this
    {
      Matcher(state, e1, e2, linked)
    }

    /** parser_init. */
    constructor (classes: array<bv32>, def: Tables)
      requires Value(def).Closed()
      ensures this.classes == classes && this.def == def
      ensures Valid() && Now() == Start(Value(def))
    {
      this.classes, this.def := classes, def;
      state, e1, e2, linked := def.start, IDLE, IDLE, false;
    }

    /** parser_reset keeps the events of the last call. */
    method Reset()
      requires Valid()
      modifies this`state
      ensures Valid() && Now() == old(Now()).(state := Value(def).start)
    {
      state := def.start;
    }

    /** The actions and the move of a transition that holds. */
    method Act(t: Transition, c: byte)
      requires t.act1.Some? && !linked
      modifies this
      ensures Now() == Fire(old(Now()), t, c)
    {
      e1 := Event(t.act1.value, 1, c);
      if t.act2.Some? {
        linked := true;
        e2 := Event(t.act2.value, 1, c);
      }
      state := t.dest;
    }

    /** The scan of a state's window. */
    method FindTransition(at: nat, n: nat, c: byte, class_: bv32) returns (found: Option<nat>)
      requires at + n <= def.transitions.Length
      ensures found == Search(def.transitions[..], at, n, c, class_)
    {
      ghost var table := def.transitions[..];
      for i := 0 to n
        invariant Search(table, at, n, c, class_) == Search(table, at + i, n - i, c, class_)
      {
        if Meets(def.transitions[at + i].when, c, class_) {
          return Some(at + i);
        }
      }
      found := None;
    }

    /** parser_feed; None where the octet has no entry in the class table, which the source reads past its end. */
    method FeedByte(c: byte) returns (r: Option<Event>)
      requires Valid()
      modifies this
      ensures Valid() && (r.None? <==> c >= classes.Length)
      ensures r.Some? ==> Now() == Feed(Value(def), old(Now()), c, classes[c]) && r.value == e1
    {
      if c >= classes.Length {
        return None;
      }
      linked := false;
      var found := FindTransition(def.states[state], def.statesN[state], c, classes[c]);
      if found.Some? {
        Act(def.transitions[found.value], c);
      }
      r := Some(e1);
    }
  }
}
