/** Octets and C strings, shared by every component of the proxy. */
module Bytes {
  type byte = x: int | 0 <= x < 256

  datatype Option<+T> = None | Some(value: T)

  /** What strlen, strcmp and strcpy see of a NUL-terminated field: the octets before the first NUL. */
  function CString(s: seq<byte>): (r: seq<byte>)
    ensures 0 !in r
    ensures 0 !in s ==> r == s
  {
    if s == [] || s[0] == 0 then [] else [s[0]] + CString(s[1..])
  }

  /** A text repeated any number of times. */
  predicate Repeats(s: seq<byte>, text: seq<byte>)
    requires text != []
    decreases |s|
  {
    s == [] || (|text| <= |s| && s[..|text|] == text && Repeats(s[|text|..], text))
  }

  lemma {:induction false} RepeatsMore(s: seq<byte>, text: seq<byte>)
    requires text != [] && Repeats(s, text)
    ensures Repeats(s + text, text)
    decreases |s|
  {
    if s == [] {
      assert s + text == text && text[..|text|] == text && text[|text|..] == [];
    } else {
      RepeatsMore(s[|text|..], text);
      assert (s + text)[..|text|] == text && (s + text)[|text|..] == s[|text|..] + text;
    }
  }
}
