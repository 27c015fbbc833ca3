/** Octet-fed machines: what it means to feed one a whole stream, or a buffer up to its end of message. */
module Machines {
  import opened Bytes

  /** The state after a stream, and everything emitted on the way. */
  function RunAll<S, R>(step: (S, byte) -> (S, Option<R>), s: S, input: seq<byte>): (S, seq<R>)
    decreases |input|
  {
    if input == [] then (s, [])
    else
      var one := step(s, input[0]);
      var rest := RunAll(step, one.0, input[1..]);
      (rest.0, (if one.1.Some? then [one.1.value] else []) + rest.1)
  }

  lemma {:induction false} RunAllConcat<S, R>(step: (S, byte) -> (S, Option<R>), s: S, a: seq<byte>, b: seq<byte>)
    ensures RunAll(step, s, a + b).0 == RunAll(step, RunAll(step, s, a).0, b).0
    ensures RunAll(step, s, a + b).1 == RunAll(step, s, a).1 + RunAll(step, RunAll(step, s, a).0, b).1
    decreases |a|
  {
    if a == [] {
      assert a + b == b;
    } else {
      assert (a + b)[0] == a[0] && (a + b)[1..] == a[1..] + b;
      RunAllConcat(step, step(s, a[0]).0, a[1..], b);
    }
  }

  lemma RunAllOne<S, R>(step: (S, byte) -> (S, Option<R>), s: S, b: byte)
    ensures RunAll(step, s, [b]).0 == step(s, b).0
    ensures RunAll(step, s, [b]).1 == if step(s, b).1.Some? then [step(s, b).1.value] else []
  {
  }

  /**
   * The loop shared by hello_consume, consume and request_consume: octets are taken until
   * the input runs out or one of them brings the machine to its end. Gives the new state
   * and the number of octets taken.
   */
  function Consume<S>(step: (S, byte) -> S, done: S -> bool, s: S, input: seq<byte>): (r: (S, nat))
    ensures r.1 <= |input|
    decreases |input|
  {
    if input == [] then (s, 0)
    else
      var next := step(s, input[0]);
      if done(next) then (next, 1)
      else
        var rest := Consume(step, done, next, input[1..]);
        (rest.0, rest.1 + 1)
  }

  lemma ConsumeOne<S>(step: (S, byte) -> S, done: S -> bool, s: S, b: byte)
    ensures Consume(step, done, s, [b]).0 == step(s, b) && Consume(step, done, s, [b]).1 == 1
  {
  }

  /**
   * Chunk independence. Consuming two chunks one after the other is consuming their
   * concatenation: a machine that ends in the first chunk leaves the second untouched.
   */
  lemma {:induction false} ConsumeSplit<S>(step: (S, byte) -> S, done: S -> bool, s: S, a: seq<byte>, b: seq<byte>)
    requires !done(s)
    ensures var first := Consume(step, done, s, a);
      && (done(first.0) ==> Consume(step, done, s, a + b) == first)
      && (!done(first.0) ==> first.1 == |a|)
      && (!done(first.0) ==> Consume(step, done, s, a + b).0 == Consume(step, done, first.0, b).0)
      && (!done(first.0) ==> Consume(step, done, s, a + b).1 == |a| + Consume(step, done, first.0, b).1)
    decreases |a|
  {
    if a == [] {
      assert a + b == b;
    } else {
      assert (a + b)[0] == a[0] && (a + b)[1..] == a[1..] + b;
      if !done(step(s, a[0])) {
        ConsumeSplit(step, done, step(s, a[0]), a[1..], b);
      }
    }
  }

  /** A machine that did not end took everything. */
  lemma {:induction false} ConsumeAllUnlessDone<S>(step: (S, byte) -> S, done: S -> bool, s: S, input: seq<byte>)
    requires !done(s)
    ensures !done(Consume(step, done, s, input).0) ==> Consume(step, done, s, input).1 == |input|
    decreases |input|
  {
    if input != [] && !done(step(s, input[0])) {
      ConsumeAllUnlessDone(step, done, step(s, input[0]), input[1..]);
    }
  }

  /** What was taken is all the machine saw: consuming just that part gives the same result. */
  lemma {:induction false} ConsumeTaken<S>(step: (S, byte) -> S, done: S -> bool, s: S, input: seq<byte>)
    ensures var r := Consume(step, done, s, input);
      Consume(step, done, s, input[..r.1]) == r
    decreases |input|
  {
    if input != [] {
      var r := Consume(step, done, s, input);
      assert input[..r.1][0] == input[0] && input[..r.1][1..] == input[1..][..r.1 - 1];
      ConsumeTaken(step, done, step(s, input[0]), input[1..]);
    }
  }

  /** A machine fed piecemeal, as octets become available, has been fed what it took of them. */
  lemma ConsumeMore<S>(step: (S, byte) -> S, done: S -> bool, start: S, p: S, taken: seq<byte>, input: seq<byte>)
    requires !done(start) && !done(p) && Consume(step, done, start, taken) == (p, |taken|)
    ensures var r := Consume(step, done, p, input);
      Consume(step, done, start, taken + input[..r.1]) == (r.0, |taken| + r.1)
  {
    hide Consume;
    var r := Consume(step, done, p, input);
    ConsumeTaken(step, done, p, input);
    ConsumeSplit(step, done, start, taken, input[..r.1]);
  }
}
