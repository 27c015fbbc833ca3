/**
 * The schema-driven parser of length-prefixed fields (src/new_parser.c), which decodes the
 * credentials of section 2 of RFC 1929 and the management requests.
 */
module FieldParsers {
  import opened Bytes
  import opened Machines
  import opened Buffers

  /** A check function sees the field it belongs to. */
  type Check = seq<byte> -> bool

  datatype Kind = ReadN | LongRead

  /** struct parser_substate as a schema writes it: a fixed read has its size from the start. */
  datatype Slot = Slot(kind: Kind, size: byte, check: Option<Check>)

  type Schema = seq<Slot>

  const LENGTH := Slot(ReadN, 0, None)
  const COUNTED := Slot(LongRead, 0, None)

  predicate AfterLength(schema: Schema, i: nat)
    requires i < |schema|
  {
    i > 0 && schema[i - 1].kind == ReadN
  }

  /** Each read_N announces a long_read, and a read of fixed size reads something. */
  predicate WellFormed(schema: Schema) {
    && 0 < |schema| < 256
    && (forall i :: 0 <= i < |schema| && schema[i].kind == ReadN ==> i + 1 < |schema| && schema[i + 1].kind == LongRead)
    && (forall i :: 0 <= i < |schema| && schema[i].kind == LongRead && !AfterLength(schema, i) ==> schema[i].size > 0)
  }

  datatype Phase = ReadingN | Reading | Done | Error

  datatype State = State(schema: Schema, index: nat, phase: Phase, size: byte, remaining: byte,
      results: seq<seq<byte>>) {
    ghost predicate Valid() {
      && WellFormed(schema) && |results| == |schema|
      && (forall j :: index < j < |schema| ==> results[j] == [])
      && match phase
         case ReadingN => index < |schema| && schema[index].kind == ReadN && results[index] == []
         case Reading =>
           index < |schema| && schema[index].kind == LongRead
           && 0 < remaining <= size && |results[index]| == size - remaining
           && (!AfterLength(schema, index) ==> size == schema[index].size)
         case Done => index == |schema|
         case Error => index < |schema|
    }
  }

  const EMPTY := State([Slot(LongRead, 1, None)], 0, Error, 0, 0, [[]])

  type Parser = p: State | p.Valid() ghost witness EMPTY

  /** The state at the start of a slot: what the source finds in the substate it moves to. */
  function Enter(schema: Schema, i: nat, results: seq<seq<byte>>): State
    requires i <= |schema|
  {
    if i == |schema| then State(schema, i, Done, 0, 0, results)
    else if schema[i].kind == ReadN then State(schema, i, ReadingN, 0, 0, results)
    else State(schema, i, Reading, schema[i].size, schema[i].size, results)
  }

  predicate Passes(slot: Slot, field: seq<byte>) {
    slot.check.None? || slot.check.value(field)
  }

  function Blank(n: nat): seq<seq<byte>> {
    seq(n, _ => [])
  }

  /** parser_init. */
  function Start(schema: Schema): (p: State)
    requires WellFormed(schema)
    ensures p.Valid()
  {
    Enter(schema, 0, Blank(|schema|))
  }

  /** parser_feed on a length octet: a zero length skips the field, unchecked. */
  function FeedLength(p: State, b: byte): (q: State)
    requires p.Valid() && p.phase == ReadingN
    ensures q.Valid()
  {
    if b <= 0 then Enter(p.schema, p.index + 2, p.results)
    else State(p.schema, p.index + 1, Reading, b, b, p.results)
  }

  function FeedField(p: State, b: byte): (q: State)
    requires p.Valid() && p.phase == Reading
    ensures q.Valid()
  {
    var results := p.results[p.index := p.results[p.index] + [b]];
    if p.remaining > 1 then p.(remaining := p.remaining - 1, results := results)
    else Finish(p, results)
  }

  /** The end of a field: checked, then left for the next slot. */
  function Finish(p: State, results: seq<seq<byte>>): State
    requires p.index < |p.schema| && p.index < |results|
  {
    if Passes(p.schema[p.index], results[p.index]) then Enter(p.schema, p.index + 1, results)
    else p.(phase := Error, remaining := 0, results := results)
  }

  function Feed(p: Parser, b: byte): Parser {
    match p.phase
    case ReadingN => FeedLength(p, b)
    case Reading => FeedField(p, b)
    case Done => p
    case Error => p
  }

  predicate IsDone(p: Parser) {
    p.phase == Done || p.phase == Error
  }

  function Take(p: Parser, input: seq<byte>): (r: (Parser, nat))
    ensures r.1 <= |input|
  {
    Consume(Feed, IsDone, p, input)
  }

  // ----- The grammar -----

  datatype Decoded =
    | Complete(values: seq<seq<byte>>, rest: seq<byte>)
    | Rejected(rest: seq<byte>)
    | Partial

  function Prepend(values: seq<seq<byte>>, d: Decoded): Decoded {
    if d.Complete? then Complete(values + d.values, d.rest) else d
  }

  /** What a schema means from slot i on, as a recursive decoder of a whole input. */
  function Decode(schema: Schema, i: nat, input: seq<byte>): Decoded
    requires WellFormed(schema) && i <= |schema|
    decreases |schema| - i
  {
    if i == |schema| then Complete([], input)
    else if schema[i].kind == LongRead then
      var n := schema[i].size as nat;
      if |input| < n then Partial
      else if !Passes(schema[i], input[..n]) then Rejected(input[n..])
      else Prepend([input[..n]], Decode(schema, i + 1, input[n..]))
    else if input == [] then Partial
    else
      var n, body := input[0] as nat, input[1..];
      if n == 0 then Prepend([[], []], Decode(schema, i + 2, body))
      else if |body| < n then Partial
      else if !Passes(schema[i + 1], body[..n]) then Rejected(body[n..])
      else Prepend([[], body[..n]], Decode(schema, i + 2, body[n..]))
  }

  // ----- The engine decodes its grammar -----

  /** Take, for a machine that may already have ended. */
  function TakeFrom(p: Parser, input: seq<byte>): (Parser, nat) {
    if IsDone(p) then (p, 0) else Take(p, input)
  }

  lemma TakeFromSplit(p: Parser, a: seq<byte>, b: seq<byte>)
    requires TakeFrom(p, a).1 == |a|
    ensures TakeFrom(p, a + b).0 == TakeFrom(TakeFrom(p, a).0, b).0
    ensures TakeFrom(p, a + b).1 == |a| + TakeFrom(TakeFrom(p, a).0, b).1
  {
    if !IsDone(p) {
      ConsumeSplit(Feed, IsDone, p, a, b);
    }
  }

  lemma TakeNothing(p: Parser)
    ensures Take(p, []) == (p, 0)
  {
  }

  /** One turn of the loop: from octet `taken` on, the parser p is what is left of the parser that started. */
  lemma TakeTurn(start: Parser, p: Parser, input: seq<byte>, taken: nat)
    requires taken < |input|
    requires Take(start, input).0 == Take(p, input[taken..]).0
    requires Take(start, input).1 == Take(p, input[taken..]).1 + taken
    ensures var q := Feed(p, input[taken]);
      if IsDone(q) then Take(start, input) == (q, taken + 1)
      else
        && Take(start, input).0 == Take(q, input[taken + 1..]).0
        && Take(start, input).1 == Take(q, input[taken + 1..]).1 + taken + 1
  {
  }

  /** A message taken in chunks: what each chunk gives up is taken as one input. */
  lemma TakeMore(start: Parser, p: Parser, taken: seq<byte>, input: seq<byte>)
    requires !IsDone(start) && !IsDone(p) && Take(start, taken) == (p, |taken|)
    ensures var r := Take(p, input);
      Take(start, taken + input[..r.1]) == (r.0, |taken| + r.1)
  {
    hide Feed, IsDone, Consume;
    ConsumeMore(Feed, IsDone, start, p, taken, input);
  }

  function Extended(p: State, chunk: seq<byte>): seq<seq<byte>>
    requires p.index < |p.results|
  {
    p.results[p.index := p.results[p.index] + chunk]
  }

  lemma ExtendedTwice(p: State, q: State, a: seq<byte>, b: seq<byte>)
    requires p.index < |p.results| && q.index == p.index && q.results == Extended(p, a)
    ensures Extended(q, b) == Extended(p, a + b)
  {
    assert (p.results[p.index] + a) + b == p.results[p.index] + (a + b);
  }

  /** Part of a field: kept, and still reading. */
  lemma {:induction false} PartTaken(p: Parser, input: seq<byte>)
    requires p.phase == Reading && |input| < p.remaining
    ensures Take(p, input).0 == p.(remaining := p.remaining - |input|, results := Extended(p, input))
    ensures Take(p, input).1 == |input|
    decreases |input|
  {
    if input == [] {
      assert p.results[p.index] + [] == p.results[p.index];
    } else {
      var q := Feed(p, input[0]);
      PartTaken(q, input[1..]);
      ExtendedTwice(p, q, [input[0]], input[1..]);
      assert [input[0]] + input[1..] == input;
    }
  }

  /** The octets a field still needs: checked and stored whole. */
  lemma FieldTaken(p: Parser, input: seq<byte>)
    requires p.phase == Reading && |input| == p.remaining
    ensures Take(p, input).0 == Finish(p.(remaining := 1), Extended(p, input))
    ensures Take(p, input).1 == |input|
  {
    var k := |input| - 1;
    var q := Take(p, input[..k]).0;
    PartTaken(p, input[..k]);
    ConsumeOne(Feed, IsDone, q, input[k]);
    ExtendedTwice(p, q, input[..k], [input[k]]);
    assert input[..k] + [input[k]] == input;
    TakeFromSplit(p, input[..k], [input[k]]);
  }

  /** A place in the schema where the parser is between fields. */
  predicate Boundary(schema: Schema, i: nat) {
    i == |schema| || (i < |schema| && !AfterLength(schema, i))
  }

  ghost predicate ReadyAt(schema: Schema, i: nat, results: seq<seq<byte>>) {
    WellFormed(schema) && Boundary(schema, i) && |results| == |schema|
        && forall j :: i <= j < |schema| ==> results[j] == []
  }

  lemma EnterValid(schema: Schema, i: nat, results: seq<seq<byte>>)
    requires ReadyAt(schema, i, results)
    ensures Enter(schema, i, results).Valid()
  {
  }

  /** The parser between fields, with the fields before slot i read. */
  function At(schema: Schema, i: nat, results: seq<seq<byte>>): Parser
    requires ReadyAt(schema, i, results)
  {
    EnterValid(schema, i, results);
    Enter(schema, i, results)
  }

  /**
   * The engine's result r on an input agrees with the decoder's verdict, on fields too, and on
   * where the message ends.
   */
  ghost predicate Matches(d: Decoded, r: (Parser, nat), before: seq<seq<byte>>, input: seq<byte>) {
    match d
    case Complete(values, rest) =>
      |rest| <= |input| && r.1 == |input| - |rest| && rest == input[r.1..]
      && r.0.phase == Done && r.0.results == before + values
    case Rejected(rest) => |rest| <= |input| && r.1 == |input| - |rest| && rest == input[r.1..] && r.0.phase == Error
    case Partial => !IsDone(r.0) && r.1 == |input|
  }

  /** Agreement is inherited over the k octets that lead from one boundary to the next. */
  lemma MatchesBack(d: Decoded, r: (Parser, nat), before: seq<seq<byte>>, input: seq<byte>, k: nat,
                    d': Decoded, r': (Parser, nat), values: seq<seq<byte>>)
    requires k <= |input| && d == Prepend(values, d') && r.0 == r'.0 && r.1 == k + r'.1
    requires Matches(d', r', before + values, input[k..])
    ensures Matches(d, r, before, input)
  {
  }

  ghost predicate Agrees(schema: Schema, i: nat, results: seq<seq<byte>>, input: seq<byte>)
    requires ReadyAt(schema, i, results)
  {
    Matches(Decode(schema, i, input), TakeFrom(At(schema, i, results), input), results[..i], input)
  }

  /** One field from the point where its size n is known: both sides move to the next boundary, reject or wait. */
  lemma FieldAgrees(p: Parser, n: nat, input: seq<byte>, next: nat)
    requires p.phase == Reading && p.remaining == n == p.size && next == p.index + 1
    ensures |input| < n ==> !IsDone(Take(p, input).0) && Take(p, input).1 == |input|
    ensures |input| >= n && !Passes(p.schema[p.index], input[..n]) ==>
              Take(p, input).0.phase == Error && Take(p, input).1 == n
    ensures |input| >= n && Passes(p.schema[p.index], input[..n]) ==>
              ReadyAt(p.schema, next, p.results[p.index := input[..n]])
    ensures |input| >= n && Passes(p.schema[p.index], input[..n]) ==>
              var r := TakeFrom(At(p.schema, next, p.results[p.index := input[..n]]), input[n..]);
              Take(p, input).0 == r.0 && Take(p, input).1 == n + r.1
  {
    hide Take, Feed, Consume;
    if |input| < n {
      PartTaken(p, input);
    } else {
      FieldTaken(p, input[..n]);
      assert p.results[p.index] == [];
      assert [] + input[..n] == input[..n];
      TakeFromSplit(p, input[..n], input[n..]);
      assert input[..n] + input[n..] == input;
    }
  }

  lemma AgreesBack(schema: Schema, i: nat, results: seq<seq<byte>>, input: seq<byte>, k: nat,
                   next: nat, filled: seq<seq<byte>>, values: seq<seq<byte>>)
    requires ReadyAt(schema, i, results) && ReadyAt(schema, next, filled) && k <= |input|
    requires filled[..next] == results[..i] + values
    requires Decode(schema, i, input) == Prepend(values, Decode(schema, next, input[k..]))
    requires TakeFrom(At(schema, i, results), input).0 == TakeFrom(At(schema, next, filled), input[k..]).0
    requires TakeFrom(At(schema, i, results), input).1 == k + TakeFrom(At(schema, next, filled), input[k..]).1
    requires Agrees(schema, next, filled, input[k..])
    ensures Agrees(schema, i, results, input)
  {
    hide TakeFrom, Decode, At, Matches, Prepend;
    MatchesBack(Decode(schema, i, input), TakeFrom(At(schema, i, results), input), results[..i], input, k,
                Decode(schema, next, input[k..]), TakeFrom(At(schema, next, filled), input[k..]), values);
  }

  lemma {:induction false} SlotAgrees(schema: Schema, i: nat, results: seq<seq<byte>>, input: seq<byte>)
    requires ReadyAt(schema, i, results)
    ensures Agrees(schema, i, results, input)
    decreases |schema| - i, 1
  {
    if i == |schema| {
      assert results[..i] + [] == results;
    } else if schema[i].kind == LongRead {
      FixedAgrees(schema, i, results, input);
    } else if input != [] {
      var p := At(schema, i, results);
      var q := Feed(p, input[0]);
      assert Take(p, input).0 == TakeFrom(q, input[1..]).0 && Take(p, input).1 == 1 + TakeFrom(q, input[1..]).1;
      if input[0] == 0 {
        ZeroAgrees(schema, i, results, q, input);
      } else {
        CountedAgrees(schema, i, results, q, input);
      }
    }
  }

  lemma {:induction false} FixedAgrees(schema: Schema, i: nat, results: seq<seq<byte>>, input: seq<byte>)
    requires ReadyAt(schema, i, results) && i < |schema| && schema[i].kind == LongRead
    ensures Agrees(schema, i, results, input)
    decreases |schema| - i, 0
  {
    hide Take;
    var n := schema[i].size as nat;
    FieldAgrees(At(schema, i, results), n, input, i + 1);
    if |input| >= n && Passes(schema[i], input[..n]) {
      var filled := results[i := input[..n]];
      SlotAgrees(schema, i + 1, filled, input[n..]);
      assert filled[..i + 1] == results[..i] + [input[..n]];
      AgreesBack(schema, i, results, input, n, i + 1, filled, [input[..n]]);
    }
  }

  lemma {:induction false} ZeroAgrees(schema: Schema, i: nat, results: seq<seq<byte>>, q: Parser, input: seq<byte>)
    requires ReadyAt(schema, i, results) && i < |schema| && schema[i].kind == ReadN && input != [] && input[0] == 0
    requires q == Feed(At(schema, i, results), input[0])
    requires TakeFrom(At(schema, i, results), input).0 == TakeFrom(q, input[1..]).0
    requires TakeFrom(At(schema, i, results), input).1 == 1 + TakeFrom(q, input[1..]).1
    ensures Agrees(schema, i, results, input)
    decreases |schema| - i, 0
  {
    hide TakeFrom;
    SlotAgrees(schema, i + 2, results, input[1..]);
    assert results[..i + 2] == results[..i] + [[], []];
    AgreesBack(schema, i, results, input, 1, i + 2, results, [[], []]);
  }

  lemma {:induction false} CountedAgrees(schema: Schema, i: nat, results: seq<seq<byte>>, q: Parser, input: seq<byte>)
    requires ReadyAt(schema, i, results) && i < |schema| && schema[i].kind == ReadN && input != [] && input[0] > 0
    requires q == Feed(At(schema, i, results), input[0])
    requires TakeFrom(At(schema, i, results), input).0 == Take(q, input[1..]).0
    requires TakeFrom(At(schema, i, results), input).1 == 1 + Take(q, input[1..]).1
    ensures Agrees(schema, i, results, input)
    decreases |schema| - i, 0
  {
    hide Take, TakeFrom;
    var n, body := input[0] as nat, input[1..];
    FieldAgrees(q, n, body, i + 2);
    if |body| >= n {
      assert body[n..] == input[n + 1..];
      if Passes(schema[i + 1], body[..n]) {
        var filled := results[i + 1 := body[..n]];
        SlotAgrees(schema, i + 2, filled, body[n..]);
        assert filled[..i + 2] == results[..i] + [[], body[..n]];
        AgreesBack(schema, i, results, input, n + 1, i + 2, filled, [[], body[..n]]);
      }
    }
  }

  /**
   * Exactness, for every well-formed schema and every input: the engine is done exactly when
   * the grammar finds a complete message, with the fields the grammar finds, having taken
   * that message and nothing after it.
   */
  lemma TakeExact(schema: Schema, input: seq<byte>)
    requires WellFormed(schema)
    ensures var r := Take(Start(schema), input);
      match Decode(schema, 0, input)
      case Complete(values, rest) =>
        r.0.phase == Done && r.0.results == values && r.1 == |input| - |rest| && rest == input[r.1..]
      case Rejected(rest) => r.0.phase == Error && r.1 == |input| - |rest|
      case Partial => !IsDone(r.0) && r.1 == |input|
  {
    var results := Blank(|schema|);
    SlotAgrees(schema, 0, results, input);
    assert results[..0] == [];
    if Decode(schema, 0, input).Complete? {
      assert [] + Decode(schema, 0, input).values == Decode(schema, 0, input).values;
    }
  }

  // ----- The parser object -----

  /** struct parser_substate; result is the block it points to. */
  class Substate {
    const state: Kind
    const check: Option<Check>
    var result: seq<byte>
    var size: byte
    var remaining: byte

    /** A read of fixed size is allocated by the schema, one announced by a length when it is reached. */
    constructor (slot: Slot)
      ensures state == slot.kind && check == slot.check && size == remaining == slot.size
      ensures |result| == slot.size as int + 1
    {
      state, check, size, remaining := slot.kind, slot.check, slot.size, slot.size;
      result := seq(slot.size as int + 1, _ => 0);
    }

    /** A field that has been read is NUL-terminated within its allocation of size + 1. */
    ghost predicate Stored()
      reads this
    {
      state == LongRead ==> |result| == size as int + 1 && result[size] == 0
    }

    method Store(b: byte)
      requires state == LongRead && 0 < remaining <= size && |result| == size as int + 1
      modifies this
      ensures size == old(size) && remaining == old(remaining) - 1 && |result| == size as int + 1
      ensures Text(size - remaining) == old(Text(size - remaining)) + [b]
    {
      result := result[size - remaining := b];
      remaining := remaining - 1;
    }

    method Terminate()
      requires state == LongRead && remaining == 0 && |result| == size as int + 1
      modifies this`result
      ensures Stored() && Text(size) == old(Text(size - remaining))
    {
      result := result[size := 0];
    }

    /** The empty string, for an announced length of zero. */
    method Empty()
      requires state == LongRead
      modifies this
      ensures Stored() && Text(size) == []
    {
      remaining := 0;
      size := 0;
      result := [0];
    }

    /** The octets read so far, n of them being the size less what remains. */
    ghost function Text(n: int): seq<byte>
      reads this
    {
      if state == LongRead && 0 <= n <= |result| then result[..n] else []
    }
  }

  function PhaseOf(k: Kind): Phase {
    if k == ReadN then ReadingN else Reading
  }

  class FieldParser {
    ghost const schema: Schema
    const states: seq<Substate>
    var index: nat
    var current: Phase

    /** The substates are those of the schema. */
    ghost predicate Built() {
      && WellFormed(schema) && |states| == |schema|
      && (forall j :: 0 <= j < |states| ==> states[j].state == schema[j].kind && states[j].check == schema[j].check)
      && (forall i, j :: 0 <= i < j < |states| ==> states[i] != states[j])
    }

    /** A fixed read that has not started is as its schema made it. */
    ghost predicate Waiting(j: nat)
      requires Built() && j < |states|
      reads states[j]
    {
      states[j].state == LongRead && !AfterLength(schema, j) ==>
        states[j].size == states[j].remaining == schema[j].size && |states[j].result| == schema[j].size as int + 1
    }

    /** What each phase says about the substate being read. */
    ghost predicate CurrentOk()
      reads this, states
    {
      match current
      case Done => index == |states|
      case ReadingN => index < |states| && states[index].state == ReadN
      case Reading =>
        && index < |states| == |schema| && states[index].state == LongRead
        && 0 < states[index].remaining <= states[index].size
        && |states[index].result| == states[index].size as int + 1
        && (!AfterLength(schema, index) ==> states[index].size == schema[index].size)
      case Error =>
        && index < |states| && states[index].state == LongRead && states[index].remaining == 0
        && states[index].Stored()
    }

    ghost predicate Valid()
      reads this, states
      ensures Valid() ==> |states| > 0 && Value().Valid()
    {
      && Built() && CurrentOk()
      && (forall j :: 0 <= j < index ==> states[j].Stored())
      && (forall j :: index < j < |states| ==> Waiting(j))
    }

    ghost function Field(j: nat): seq<byte>
      requires j < |states|
      reads this, states[j]
    {
      if j > index then []
      else if j == index then states[j].Text(states[j].size - states[j].remaining)
      else states[j].Text(states[j].size)
    }

    ghost function Value(): (s: State)
      reads this, states
      ensures s.phase == current && s.schema == schema
    {
      var reading := (current == Reading || current == Error) && index < |states|;
      State(schema, index, current, if reading then states[index].size else 0,
            if reading then states[index].remaining else 0, Fields())
    }

    ghost function Fields(): (fields: seq<seq<byte>>)
      reads this, states
      ensures |fields| == |states| && forall j :: 0 <= j < |states| ==> fields[j] == Field(j)
    {
      seq(|states|, j requires 0 <= j < |states| reads this, states => Field(j))
    }

    /** parser_init, on substates made by their constructor. */
    constructor (ghost schema: Schema, states: seq<Substate>)
      requires WellFormed(schema) && |states| == |schema|
      requires forall j :: 0 <= j < |states| ==>
                 states[j].state == schema[j].kind && states[j].check == schema[j].check
                 && states[j].size == states[j].remaining == schema[j].size
                 && |states[j].result| == schema[j].size as int + 1
      requires forall i, j :: 0 <= i < j < |states| ==> states[i] != states[j]
      ensures this.states == states && this.schema == schema
      ensures Valid() && Value() == Start(schema)
    {
      this.schema, this.states := schema, states;
      index := 0;
      current := PhaseOf(states[0].state);
      new;
      assert Fields() == Blank(|schema|);
    }

    /** The read_N branch of parser_feed, for a well-formed schema. */
    method LengthByte(b: byte)
      requires Valid() && current == ReadingN
      modifies this, states
      ensures Valid() && Value() == FeedLength(old(Value()), b)
    {
      assert schema[index].kind == ReadN && schema[index + 1].kind == LongRead;
      if b <= 0 {
        SkipField();
      } else {
        AnnounceField(b);
      }
    }

    /** A positive length: the field gets its size and its allocation. */
    method AnnounceField(b: byte)
      requires Valid() && current == ReadingN && b > 0
      requires index + 1 < |states| && states[index + 1].state == LongRead && AfterLength(schema, index + 1)
      modifies this, states[index + 1]
      ensures Valid() && Value() == FeedLength(old(Value()), b)
    {
      index := index + 1;
      var substate := states[index];
      substate.remaining := b;
      substate.size := b;
      current := PhaseOf(substate.state);
      substate.result := seq(substate.size as int + 1, _ => 0);
      assert forall j :: 0 <= j < |states| && j != index ==> states[j] != substate;
      assert Fields() == old(Fields());
    }

    /** Slot j has been read, and holds f. */
    ghost predicate Holds(j: nat, f: seq<byte>)
      requires j < |states|
      reads states[j]
    {
      states[j].Stored() && states[j].Text(states[j].size) == f
    }

    lemma Opened(fields: seq<seq<byte>>)
      requires Valid() && fields == Fields()
      ensures forall j :: 0 <= j < index ==> Holds(j, fields[j])
      ensures forall j :: index < j < |states| ==> Waiting(j) && fields[j] == []
    {
    }

    lemma Apart(i: nat)
      requires Built() && i < |states|
      ensures forall j :: 0 <= j < |states| && j != i ==> states[j] != states[i]
    {
    }

    lemma Held(i: nat, fields: seq<seq<byte>>)
      requires i <= |states| == |fields|
      requires forall j :: 0 <= j < i ==> Holds(j, fields[j])
      ensures forall j :: 0 <= j < i ==> states[j].Stored() && states[j].Text(states[j].size) == fields[j]
    {
      forall j | 0 <= j < i
        ensures states[j].Stored() && states[j].Text(states[j].size) == fields[j]
      {
        assert Holds(j, fields[j]);
      }
    }

    lemma AtStart(fields: seq<seq<byte>>)
      requires Built() && index <= |states| == |fields| && Boundary(schema, index)
      requires forall j :: 0 <= j < index ==> Holds(j, fields[j])
      requires forall j :: index <= j < |states| ==> Waiting(j) && fields[j] == []
      requires current == if index == |states| then Done else PhaseOf(states[index].state)
      ensures Valid() && Value() == Enter(schema, index, fields)
    {
      Held(index, fields);
      if index < |states| {
        assert Waiting(index) && !AfterLength(schema, index) && states[index].state == schema[index].kind;
      }
      assert Fields() == fields;
    }

    /** Moving on to slot i, none of whose successors has been touched: the parser starts it, or is done. */
    method MoveTo(i: nat, ghost fields: seq<seq<byte>>)
      requires Built() && Boundary(schema, i) && i <= |states| == |fields|
      requires forall j :: 0 <= j < i ==> Holds(j, fields[j])
      requires forall j :: i <= j < |states| ==> Waiting(j) && fields[j] == []
      modifies this
      ensures Valid() && Value() == Enter(schema, i, fields)
    {
      index := i;
      if index >= |states| {
        current := Done;
      } else {
        current := PhaseOf(states[index].state);
      }
      AtStart(fields);
    }

    /** A zero length: the field is the empty string, and its read is skipped. */
    method SkipField()
      requires Valid() && current == ReadingN
      requires index + 1 < |states| && states[index + 1].state == LongRead && AfterLength(schema, index + 1)
      modifies this, states[index + 1]
      ensures Valid() && Value() == FeedLength(old(Value()), 0)
    {
      hide State.Valid;
      ghost var fields := Fields();
      Opened(fields);
      Apart(index + 1);
      assert Boundary(schema, index + 2) by {
        assert schema[index + 1].kind == LongRead;
      }
      assert Holds(index, fields[index]);
      index := index + 1;
      states[index].Empty();
      MoveTo(index + 1, fields);
    }

    /** The long_read branch of parser_feed. */
    method FieldByte(b: byte)
      requires Valid() && current == Reading
      modifies this, states[index]
      ensures Valid() && Value() == FeedField(old(Value()), b)
    {
      hide State.Valid;
      ghost var fields := Fields()[index := Field(index) + [b]];
      Opened(Fields());
      Apart(index);
      var substate := states[index];
      substate.Store(b);
      if substate.remaining <= 0 {
        substate.Terminate();
        EndField(fields);
      } else {
        assert Fields() == fields;
      }
    }

    /** The end of a field: its check decides between an error and the next slot. */
    method EndField(ghost fields: seq<seq<byte>>)
      requires Built() && index < |states| == |fields| && states[index].state == LongRead
          && states[index].remaining == 0
      requires forall j :: 0 <= j <= index ==> Holds(j, fields[j])
      requires forall j :: index < j < |states| ==> Waiting(j) && fields[j] == []
      modifies this
      ensures Valid() && Value() == Finish(State(schema, old(index), Reading, states[old(index)].size, 1, Fields()),
          fields)
    {
      var substate := states[index];
      assert schema[index].kind == LongRead && substate.check == schema[index].check;
      assert substate.result[..substate.size] == fields[index] by {
        assert Holds(index, fields[index]);
      }
      if substate.check.Some? && !substate.check.value(substate.result[..substate.size]) {
        current := Error;
        Held(index + 1, fields);
        assert Fields() == fields;
      } else {
        MoveTo(index + 1, fields);
      }
    }

    /** parser_feed. */
    method FeedByte(b: byte) returns (st: Phase)
      requires Valid()
      modifies this, states
      ensures Valid() && Value() == Feed(old(Value()), b) && st == current
    {
      match current {
        case ReadingN => LengthByte(b);
        case Reading => FieldByte(b);
        case Done =>
        case Error =>
      }
      st := current;
    }

    /** consume: takes octets out of the buffer up to the end of the message. */
    method ConsumeFrom(b: Buffer) returns (st: Phase, error: bool)
      requires Valid() && b.Valid()
      modifies this, states, b, b.data
      ensures Valid() && b.Valid()
      ensures var r := Take(old(Value()), old(b.Value()).contents);
        Value() == r.0 && b.Value() == old(b.Value()).Pop(r.1) && (r.1 > 0 ==> st == current)
      ensures error <==> old(b.Value()).contents != [] && current == Error
    {
      hide Take, Feed, WellFormed, State.Valid, FieldParser.Valid, FieldParser.CurrentOk, FieldParser.Built;
      hide FieldParser.Fields, FieldParser.Waiting, FieldParser.Field;
      st, error := PhaseOf(states[0].state), false;
      var finished := false;
      var more := b.CanRead();
      ghost var start, input, taken: nat := Value(), b.Value().contents, 0;
      while more && !finished
        invariant Valid() && b.Valid()
        invariant taken <= |input| && b.Value() == old(b.Value()).Pop(taken)
        invariant taken > 0 ==> st == current
        invariant finished <==> taken > 0 && (current == Done || current == Error)
        invariant error <==> taken > 0 && current == Error
        invariant !finished ==> more == (b.Value().contents != [])
        invariant finished ==> Take(start, input) == (Value(), taken)
        invariant !finished ==> Take(start, input).0 == Take(Value(), input[taken..]).0
        invariant !finished ==> Take(start, input).1 == Take(Value(), input[taken..]).1 + taken
        decreases |input| - taken
      {
        TakeTurn(start, Value(), input, taken);
        var c := b.ReadByte();
        st := FeedByte(c);
        if st == Done || st == Error {
          finished := true;
          error := st == Error;
        }
        more := b.CanRead();
        taken := taken + 1;
      }
      TakeNothing(Value());
    }
  }
}
