/**
 * The POP3 credential dissector (src/password_parser.c). It watches relayed octets for
 * a USER command, its +OK answer and a PASS command, and reports the credentials.
 */
module Dissectors {
  import opened Bytes
  import opened Machines

  const CR: byte := 0x0D
  const LF: byte := 0x0A

  /** "user " and "+OK" CR LF "pass ". */
  const USER_WORD: seq<byte> := [0x75, 0x73, 0x65, 0x72, 0x20]
  const PASS_WORD: seq<byte> := [0x2B, 0x4F, 0x4B, 0x0D, 0x0A, 0x70, 0x61, 0x73, 0x73, 0x20]

  /** Texts are abandoned when a 255th octet would still have to be followed by something. */
  const MAX_TEXT := 255

  /** Growth step of the username and password arrays. */
  const BUFFER_SIZE := 5

  datatype Phase = UserWordSearch | UserRead | PassWordSearch | PassRead

  datatype State = State(phase: Phase, index: nat, last: bool, username: seq<byte>, password: seq<byte>) {
    predicate Valid() {
      && (last ==> phase == UserRead || phase == PassRead)
      && Plain(username) && Plain(password)
      && match phase
         case UserWordSearch => index < |USER_WORD| && username == [] && password == []
         case UserRead => index == |username| <= MAX_TEXT && password == []
         case PassWordSearch => index < |PASS_WORD| && |username| < MAX_TEXT && password == []
         case PassRead => index == |password| <= MAX_TEXT && |username| < MAX_TEXT
    }
  }

  type Dissector = d: State | d.Valid() witness State(UserWordSearch, 0, false, [], [])

  datatype Report = Report(username: seq<byte>, password: seq<byte>)

  predicate PlainByte(b: byte) {
    b <= 127 && b != CR && b != LF
  }

  predicate Plain(s: seq<byte>) {
    forall k :: 0 <= k < |s| ==> PlainByte(s[k])
  }

  function Searching(index: nat): Dissector
    requires index < |USER_WORD|
  {
    State(UserWordSearch, index, false, [], [])
  }

  /** Every reset falls back to the search, counting the offending octet if it may start the word. */
  function Restart(b: byte): Dissector {
    Searching(if b == USER_WORD[0] then 1 else 0)
  }

  function Feed(d: Dissector, b: byte): (Dissector, Option<Report>) {
    match d.phase
    case UserWordSearch =>
      if b != USER_WORD[d.index] then (Restart(b), None)
      else if d.index + 1 == |USER_WORD| then (State(UserRead, 0, false, [], []), None)
      else (Searching(d.index + 1), None)
    case UserRead =>
      if d.index >= MAX_TEXT || (d.last && b != LF) then (Restart(b), None)
      else if b == CR then (d.(last := true), None)
      else if b == LF then (d.(phase := PassWordSearch, index := 0, last := false), None)
      else if b <= 127 then (d.(username := d.username + [b], index := d.index + 1), None)
      else (Restart(b), None)
    case PassWordSearch =>
      if b != PASS_WORD[d.index] then (Restart(b), None)
      else if d.index + 1 == |PASS_WORD| then (d.(phase := PassRead, index := 0), None)
      else (d.(index := d.index + 1), None)
    case PassRead =>
      if d.index >= MAX_TEXT || (d.last && b != LF) then (Restart(b), None)
      else if b == CR then (d.(last := true), None)
      else if b == LF then (Restart(b), Some(Report(d.username, d.password)))
      else if b <= 127 then (d.(password := d.password + [b], index := d.index + 1), None)
      else (Restart(b), None)
  }

  function FeedAll(d: Dissector, s: seq<byte>): (Dissector, seq<Report>) {
    RunAll(Feed, d, s)
  }

  /** Feeding s takes d to e and reports exactly rs. */
  ghost predicate Gives(d: Dissector, s: seq<byte>, e: Dissector, rs: seq<Report>) {
    FeedAll(d, s).0 == e && FeedAll(d, s).1 == rs
  }

  lemma FeedOne(d: Dissector, b: byte)
    ensures Gives(d, [b], Feed(d, b).0, if Feed(d, b).1.Some? then [Feed(d, b).1.value] else [])
  {
    RunAllOne(Feed, d, b);
  }

  lemma Then(d: Dissector, a: seq<byte>, e: Dissector, b: seq<byte>, f: Dissector)
    requires Gives(d, a, e, []) && Gives(e, b, f, [])
    ensures Gives(d, a + b, f, [])
  {
    RunAllConcat(Feed, d, a, b);
  }

  // ----- Soundness -----

  predicate EndsWith(s: seq<byte>, w: seq<byte>) {
    |w| <= |s| && s[|s| - |w|..] == w
  }

  function OptCr(cr: bool): seq<byte> {
    if cr then [CR] else []
  }

  /** A USER line, a bare +OK line and a PASS line; the client's line ends may omit the CR. */
  function Segment(u: seq<byte>, cr1: bool, p: seq<byte>, cr2: bool): seq<byte> {
    (USER_WORD + UserLine(u, cr1)) + PassLine(p, cr2) + [LF]
  }

  function UserLine(u: seq<byte>, cr: bool): seq<byte> {
    u + OptCr(cr) + [LF]
  }

  function PassLine(p: seq<byte>, cr: bool): seq<byte> {
    PASS_WORD + p + OptCr(cr)
  }

  predicate Reportable(r: Report) {
    Plain(r.username) && |r.username| < MAX_TEXT && Plain(r.password) && |r.password| < MAX_TEXT
  }

  /** The part of a segment recognised so far; cr1 says whether the first line ended in CR LF. */
  function Spelled(d: Dissector, cr1: bool): seq<byte>
  {
    match d.phase
    case UserWordSearch => USER_WORD[..d.index]
    case UserRead => USER_WORD + (d.username + OptCr(d.last))
    case PassWordSearch => (USER_WORD + UserLine(d.username, cr1)) + PASS_WORD[..d.index]
    case PassRead => (USER_WORD + UserLine(d.username, cr1)) + PassLine(d.password, d.last)
  }

  /** The stream ends with w, and the octet that starts w put the search at its first matched position. */
  ghost predicate Noticed(s: seq<byte>, w: seq<byte>) {
    EndsWith(s, w) && (w != [] ==> FeedAll(Searching(0), s[..|s| - |w| + 1]).0 == Searching(1))
  }

  lemma NoticedSnoc(s: seq<byte>, w: seq<byte>, b: byte)
    requires Noticed(s, w)
    requires w == [] ==> FeedAll(Searching(0), s + [b]).0 == Searching(1)
    ensures Noticed(s + [b], w + [b])
  {
    var t := s + [b];
    if w == [] {
      assert t[..|t| - |w + [b]| + 1] == t;
    } else {
      assert t[..|t| - |w + [b]| + 1] == s[..|s| - |w| + 1];
    }
  }

  lemma SpelledInWords(d: Dissector, cr1: bool, b: byte)
    requires (d.phase == UserWordSearch || d.phase == PassWordSearch) && Feed(d, b).0 != Restart(b)
    ensures Spelled(Feed(d, b).0, cr1) == Spelled(d, cr1) + [b]
  {
  }

  lemma SpelledInUser(d: Dissector, cr1: bool, b: byte)
    requires d.phase == UserRead && Feed(d, b).0 != Restart(b)
    ensures Spelled(Feed(d, b).0, d.last) == Spelled(d, cr1) + [b]
  {
  }

  lemma SpelledInPass(d: Dissector, cr1: bool, b: byte)
    requires d.phase == PassRead && Feed(d, b).0 != Restart(b)
    ensures Spelled(Feed(d, b).0, cr1) == Spelled(d, cr1) + [b]
  {
  }

  lemma SpelledStep(d: Dissector, cr1: bool, b: byte) returns (cr: bool)
    requires Feed(d, b).0 != Restart(b)
    ensures Spelled(Feed(d, b).0, cr) == Spelled(d, cr1) + [b]
  {
    match d.phase
    case UserRead =>
      cr := d.last;
      SpelledInUser(d, cr1, b);
    case PassRead =>
      cr := cr1;
      SpelledInPass(d, cr1, b);
    case _ =>
      cr := cr1;
      SpelledInWords(d, cr1, b);
  }

  lemma SpelledNoticedStep(s: seq<byte>, d: Dissector, cr1: bool, b: byte) returns (cr: bool)
    requires d == FeedAll(Searching(0), s).0 && Noticed(s, Spelled(d, cr1))
    ensures Noticed(s + [b], Spelled(Feed(d, b).0, cr))
  {
    RunAllConcat(Feed, Searching(0), s, [b]);
    FeedOne(d, b);
    var e := Feed(d, b).0;
    if e == Restart(b) {
      cr := false;
      if b == USER_WORD[0] {
        NoticedSnoc(s, [], b);
        assert USER_WORD[..1] == [] + [b];
      }
    } else {
      cr := SpelledStep(d, cr1, b);
      NoticedSnoc(s, Spelled(d, cr1), b);
    }
  }

  /** At every point, the stream ends with what the state spells. */
  lemma {:induction false} SpelledNoticed(s: seq<byte>) returns (cr1: bool)
    ensures Noticed(s, Spelled(FeedAll(Searching(0), s).0, cr1))
    decreases |s|
  {
    if s == [] {
      cr1 := false;
    } else {
      var k := |s| - 1;
      assert s == s[..k] + [s[k]];
      cr1 := SpelledNoticed(s[..k]);
      RunAllConcat(Feed, Searching(0), s[..k], [s[k]]);
      FeedOne(FeedAll(Searching(0), s[..k]).0, s[k]);
      cr1 := SpelledNoticedStep(s[..k], FeedAll(Searching(0), s[..k]).0, cr1, s[k]);
    }
  }

  // ----- The search -----

  /** What the search remembers: the longest proper prefix of the word that ends the text. */
  ghost predicate LongestMatch(t: seq<byte>, m: nat) {
    && m < |USER_WORD| && EndsWith(t, USER_WORD[..m])
    && forall j :: m < j < |USER_WORD| ==> !EndsWith(t, USER_WORD[..j])
  }

  lemma EndsWithLast(t: seq<byte>, b: byte, j: nat)
    requires 0 < j <= |USER_WORD|
    ensures EndsWith(t + [b], USER_WORD[..j]) <==> b == USER_WORD[j - 1] && EndsWith(t, USER_WORD[..j - 1])
  {
    assert USER_WORD[..j] == USER_WORD[..j - 1] + [USER_WORD[j - 1]];
    EndsWithSnoc(t, b, USER_WORD[..j - 1], USER_WORD[j - 1]);
  }

  lemma EndsWithSnoc(t: seq<byte>, b: byte, w: seq<byte>, c: byte)
    ensures EndsWith(t + [b], w + [c]) <==> b == c && EndsWith(t, w)
  {
    if |w| <= |t| {
      var end := t[|t| - |w|..];
      assert (t + [b])[|t| + 1 - |w + [c]|..] == end + [b];
      assert (end + [b])[|w|] == b && (w + [c])[|w|] == c;
      assert (end + [b])[..|w|] == end && (w + [c])[..|w|] == w;
    }
  }

  /** The word has no border: of two prefixes that end a text, the shorter one is empty. */
  lemma NoBorder(t: seq<byte>, i: nat, j: nat)
    requires i < j <= |USER_WORD| && EndsWith(t, USER_WORD[..i]) && EndsWith(t, USER_WORD[..j])
    ensures i == 0
  {
    if i > 0 {
      SuffixAt(t, i, 0);
      SuffixAt(t, j, j - i);
    }
  }

  lemma SuffixAt(t: seq<byte>, j: nat, k: nat)
    requires k < j <= |USER_WORD| && EndsWith(t, USER_WORD[..j])
    ensures t[|t| - j + k] == USER_WORD[k]
  {
  }

  lemma LongestMatchStep(t: seq<byte>, m: nat, b: byte)
    requires LongestMatch(t, m)
    ensures EndsWith(t + [b], USER_WORD) <==> b == USER_WORD[m] && m + 1 == |USER_WORD|
    ensures !EndsWith(t + [b], USER_WORD) ==>
              LongestMatch(t + [b], if b == USER_WORD[m] then m + 1 else if b == USER_WORD[0] then 1 else 0)
  {
    assert USER_WORD[..5] == USER_WORD;
    forall j | 0 < j <= |USER_WORD|
      ensures EndsWith(t + [b], USER_WORD[..j]) ==> (j == m + 1 || j == 1) && b == USER_WORD[j - 1]
      ensures b == USER_WORD[j - 1] && (j == m + 1 || j == 1) ==> EndsWith(t + [b], USER_WORD[..j])
    {
      EndsWithLast(t, b, j);
      if EndsWith(t + [b], USER_WORD[..j]) && j - 1 < m {
        NoBorder(t, j - 1, m);
      }
    }
  }

  /**
   * From any search position, despite restarting naively, the search ends at the first
   * occurrence of the word, counting the part matched before.
   */
  lemma {:induction false} SearchExact(k: nat, w: seq<byte>) returns (m: nat)
    requires k < |USER_WORD|
    requires forall n :: 0 <= n < |USER_WORD[..k] + w| ==> !EndsWith((USER_WORD[..k] + w)[..n], USER_WORD)
    ensures EndsWith(USER_WORD[..k] + w, USER_WORD) ==> Gives(Searching(k), w, NoUser(), [])
    ensures !EndsWith(USER_WORD[..k] + w, USER_WORD) ==>
              LongestMatch(USER_WORD[..k] + w, m) && Gives(Searching(k), w, Searching(m), [])
    decreases |w|
  {
    var t := USER_WORD[..k] + w;
    if w == [] {
      m := k;
      assert t == USER_WORD[..k];
    } else {
      var v, b := w[..|w| - 1], w[|w| - 1];
      var u := USER_WORD[..k] + v;
      assert w == v + [b] && t == u + [b] && t[..|u|] == u;
      forall n | 0 <= n < |u|
        ensures !EndsWith(u[..n], USER_WORD)
      {
        assert u[..n] == t[..n];
      }
      m := SearchExact(k, v);
      LongestMatchStep(u, m, b);
      FeedOne(Searching(m), b);
      RunAllConcat(Feed, Searching(k), v, [b]);
      m := if b == USER_WORD[m] then m + 1 else if b == USER_WORD[0] then 1 else 0;
    }
  }

  // ----- Completeness -----

  function NoUser(): Dissector {
    State(UserRead, 0, false, [], [])
  }

  lemma {:induction false} WordTail(k: nat)
    requires k < |USER_WORD|
    ensures Gives(Searching(k), USER_WORD[k..], NoUser(), [])
    decreases |USER_WORD| - k
  {
    assert USER_WORD[k..][0] == USER_WORD[k] && USER_WORD[k..][1..] == USER_WORD[k + 1..];
    if k + 1 < |USER_WORD| {
      WordTail(k + 1);
    } else {
      assert USER_WORD[k..] == [USER_WORD[k]];
      FeedOne(Searching(k), USER_WORD[k]);
    }
  }

  lemma {:induction false} PassWord(d: Dissector)
    requires d.phase == PassWordSearch
    ensures Gives(d, PASS_WORD[d.index..], d.(phase := PassRead, index := 0), [])
    decreases |PASS_WORD| - d.index
  {
    assert PASS_WORD[d.index..][0] == PASS_WORD[d.index] && PASS_WORD[d.index..][1..] == PASS_WORD[d.index + 1..];
    if d.index + 1 < |PASS_WORD| {
      PassWord(d.(index := d.index + 1));
    } else {
      assert PASS_WORD[d.index..] == [PASS_WORD[d.index]];
      FeedOne(d, PASS_WORD[d.index]);
    }
  }

  lemma {:induction false} UserText(d: Dissector, u: seq<byte>)
    requires d.phase == UserRead && !d.last && Plain(u) && d.index + |u| <= MAX_TEXT
    ensures Gives(d, u, d.(username := d.username + u, index := d.index + |u|), [])
    decreases |u|
  {
    if u == [] {
      assert d.username + u == d.username;
    } else {
      assert PlainByte(u[0]);
      UserText(Feed(d, u[0]).0, u[1..]);
      assert (d.username + [u[0]]) + u[1..] == d.username + u;
    }
  }

  lemma {:induction false} PassText(d: Dissector, p: seq<byte>)
    requires d.phase == PassRead && !d.last && Plain(p) && d.index + |p| <= MAX_TEXT
    ensures Gives(d, p, d.(password := d.password + p, index := d.index + |p|), [])
    decreases |p|
  {
    if p == [] {
      assert d.password + p == d.password;
    } else {
      assert PlainByte(p[0]);
      PassText(Feed(d, p[0]).0, p[1..]);
      assert (d.password + [p[0]]) + p[1..] == d.password + p;
    }
  }

  lemma CrSeen(d: Dissector, cr: bool)
    requires (d.phase == UserRead || d.phase == PassRead) && !d.last && d.index < MAX_TEXT
    ensures Gives(d, OptCr(cr), d.(last := cr), [])
  {
    if cr {
      FeedOne(d, CR);
    }
  }

  lemma UserLineRead(u: seq<byte>, cr: bool)
    requires Plain(u) && |u| < MAX_TEXT
    ensures Gives(NoUser(), UserLine(u, cr), State(PassWordSearch, 0, false, u, []), [])
  {
    var d := State(UserRead, |u|, false, u, []);
    UserText(NoUser(), u);
    assert [] + u == u;
    CrSeen(d, cr);
    Then(NoUser(), u, d, OptCr(cr), d.(last := cr));
    assert Gives(d.(last := cr), [LF], State(PassWordSearch, 0, false, u, []), []) by {
      FeedOne(d.(last := cr), LF);
    }
    Then(NoUser(), u + OptCr(cr), d.(last := cr), [LF], State(PassWordSearch, 0, false, u, []));
  }

  lemma PassLineRead(u: seq<byte>, p: seq<byte>, cr: bool)
    requires Reportable(Report(u, p))
    ensures Gives(State(PassWordSearch, 0, false, u, []), PassLine(p, cr), State(PassRead, |p|, cr, u, p), [])
  {
    var d0 := State(PassWordSearch, 0, false, u, []);
    var d1 := State(PassRead, 0, false, u, []);
    var d2 := State(PassRead, |p|, false, u, p);
    PassWord(d0);
    assert PASS_WORD[0..] == PASS_WORD;
    PassText(d1, p);
    assert [] + p == p;
    CrSeen(d2, cr);
    Then(d0, PASS_WORD, d1, p, d2);
    Then(d0, PASS_WORD + p, d2, OptCr(cr), d2.(last := cr));
  }

  /** A segment without its first octet and its final LF, from a search that has just matched the first octet. */
  lemma ReadyAfterTail(u: seq<byte>, cr1: bool, p: seq<byte>, cr2: bool)
    requires Reportable(Report(u, p))
    ensures Gives(Searching(1), USER_WORD[1..] + UserLine(u, cr1) + PassLine(p, cr2), State(PassRead, |p|, cr2, u, p),
        [])
  {
    WordTail(1);
    UserLineRead(u, cr1);
    PassLineRead(u, p, cr2);
    var d := State(PassWordSearch, 0, false, u, []);
    Then(Searching(1), USER_WORD[1..], NoUser(), UserLine(u, cr1), d);
    Then(Searching(1), USER_WORD[1..] + UserLine(u, cr1), d, PassLine(p, cr2), State(PassRead, |p|, cr2, u, p));
  }

  /** Whatever the search has matched so far, a segment is reported at its last octet, once, exactly. */
  lemma SegmentReported(k: nat, u: seq<byte>, cr1: bool, p: seq<byte>, cr2: bool)
    requires k < |USER_WORD| && Reportable(Report(u, p))
    ensures Gives(Searching(k), Segment(u, cr1, p, cr2), Searching(0), [Report(u, p)])
  {
    hide Feed, Segment, UserLine, PassLine, FeedAll;
    var ready := State(PassRead, |p|, cr2, u, p);
    SegmentReadied(k, u, cr1, p, cr2);
    LastReported(ready);
    SegmentShape(u, cr1, p, cr2);
    Finally(Searching(k), [USER_WORD[0]] + (USER_WORD[1..] + UserLine(u, cr1) + PassLine(p, cr2)), ready, Report(u, p));
  }

  lemma SegmentReadied(k: nat, u: seq<byte>, cr1: bool, p: seq<byte>, cr2: bool)
    requires k < |USER_WORD| && Reportable(Report(u, p))
    ensures Gives(Searching(k), [USER_WORD[0]] + (USER_WORD[1..] + UserLine(u, cr1) + PassLine(p, cr2)),
                  State(PassRead, |p|, cr2, u, p), [])
  {
    FirstMatched(k);
    hide Feed, FeedAll, Gives, UserLine, PassLine;
    ReadyAfterTail(u, cr1, p, cr2);
    Then(Searching(k), [USER_WORD[0]], Searching(1), USER_WORD[1..] + UserLine(u, cr1) + PassLine(p, cr2),
         State(PassRead, |p|, cr2, u, p));
  }

  lemma FirstMatched(k: nat)
    requires k < |USER_WORD|
    ensures Gives(Searching(k), [USER_WORD[0]], Searching(1), [])
  {
    FeedOne(Searching(k), USER_WORD[0]);
  }

  /** LF, with both texts read. */
  lemma LastReported(d: Dissector)
    requires d.phase == PassRead && d.index < MAX_TEXT
    ensures Gives(d, [LF], Searching(0), [Report(d.username, d.password)])
  {
    FeedOne(d, LF);
  }

  lemma Finally(d: Dissector, a: seq<byte>, e: Dissector, r: Report)
    requires Gives(d, a, e, []) && Gives(e, [LF], Searching(0), [r])
    ensures Gives(d, a + [LF], Searching(0), [r])
  {
    RunAllConcat(Feed, d, a, [LF]);
  }

  lemma SegmentShape(u: seq<byte>, cr1: bool, p: seq<byte>, cr2: bool)
    ensures Segment(u, cr1, p, cr2) == ([USER_WORD[0]] + (USER_WORD[1..] + UserLine(u, cr1) + PassLine(p, cr2))) + [LF]
  {
  }

  // ----- Exactness -----

  /** A report is made at an octet exactly when a segment whose start the search noticed ends there. */
  lemma ReportExact(s: seq<byte>, b: byte, r: Report)
    ensures Feed(FeedAll(Searching(0), s).0, b).1 == Some(r)
       <==> Reportable(r) && exists cr1, cr2 :: Noticed(s + [b], Segment(r.username, cr1, r.password, cr2))
  {
    if Feed(FeedAll(Searching(0), s).0, b).1 == Some(r) {
      var cr1, cr2 := ReportSound(s, b, r);
    }
    if cr1, cr2 :| Reportable(r) && Noticed(s + [b], Segment(r.username, cr1, r.password, cr2)) {
      ReportComplete(s, b, r, cr1, cr2);
    }
  }

  lemma ReportSound(s: seq<byte>, b: byte, r: Report) returns (cr1: bool, cr2: bool)
    requires Feed(FeedAll(Searching(0), s).0, b).1 == Some(r)
    ensures Reportable(r) && Noticed(s + [b], Segment(r.username, cr1, r.password, cr2))
  {
    var d := FeedAll(Searching(0), s).0;
    cr1 := SpelledNoticed(s);
    cr2 := d.last;
    NoticedSnoc(s, Spelled(d, cr1), b);
  }

  lemma ReportComplete(s: seq<byte>, b: byte, r: Report, cr1: bool, cr2: bool)
    requires Reportable(r) && Noticed(s + [b], Segment(r.username, cr1, r.password, cr2))
    ensures Feed(FeedAll(Searching(0), s).0, b).1 == Some(r)
  {
    hide Feed, FeedAll, Segment, UserLine, PassLine, Noticed;
    SegmentReady(s, b, r, cr1, cr2);
    ReadyReports(State(PassRead, |r.password|, cr2, r.username, r.password));
  }

  /** A noticed segment leaves the dissector, before its last octet, with both texts read; and that octet is LF. */
  lemma SegmentReady(s: seq<byte>, b: byte, r: Report, cr1: bool, cr2: bool)
    requires Reportable(r) && Noticed(s + [b], Segment(r.username, cr1, r.password, cr2))
    ensures FeedAll(Searching(0), s).0 == State(PassRead, |r.password|, cr2, r.username, r.password) && b == LF
  {
    var g := Segment(r.username, cr1, r.password, cr2);
    var tail := USER_WORD[1..] + UserLine(r.username, cr1) + PassLine(r.password, cr2);
    var head := s[..|s| - |tail|];
    SegmentShape(r.username, cr1, r.password, cr2);
    hide Feed, FeedAll, Segment, UserLine, PassLine, Reportable;
    InnerPart(s, b, g, tail);
    RunAllConcat(Feed, Searching(0), head, tail);
    ReadyAfterTail(r.username, cr1, r.password, cr2);
  }

  /** With both texts read, LF ends the pair and reports it. */
  lemma ReadyReports(d: Dissector)
    requires d.phase == PassRead && d.index < MAX_TEXT
    ensures Feed(d, LF).1 == Some(Report(d.username, d.password))
  {
  }

  /** A text that ends with g, and what of it lies between the first octet of g and the last. */
  lemma InnerPart(s: seq<byte>, b: byte, g: seq<byte>, tail: seq<byte>)
    requires EndsWith(s + [b], g) && |g| == |tail| + 2 && g[1..|g| - 1] == tail
    ensures |tail| < |s| && s == s[..|s| - |tail|] + tail && b == g[|g| - 1]
    ensures s[..|s| - |tail|] == (s + [b])[..|s + [b]| - |g| + 1]
  {
  }

  // ----- The parser object -----

  /** The size of the allocation that holds n octets once checkSize has made room for each of them in turn. */
  function CapacityFor(n: nat): nat {
    (n + BUFFER_SIZE - 1) / BUFFER_SIZE * BUFFER_SIZE
  }

  function Cut(a: array<byte>, n: nat): seq<byte>
    reads a
  {
    if n <= a.Length then a[..n] else []
  }

  /** checkSize: room for one more octet after the first size ones, growing five at a time. */
  method CheckSize(buffer: array<byte>, size: nat) returns (r: array<byte>)
    requires size == 0 || buffer.Length == CapacityFor(size)
    ensures size < r.Length == CapacityFor(size + 1)
    ensures size <= buffer.Length && r[..size] == buffer[..size]
    ensures r == buffer || fresh(r)
  {
    r := buffer;
    if size % BUFFER_SIZE == 0 {
      r := new byte[size + BUFFER_SIZE];
      for i := 0 to size
        invariant r[..i] == buffer[..i]
      {
        r[i] := buffer[i];
      }
    }
  }

  /** One octet stored behind the first size ones. */
  method StoreAt(buffer: array<byte>, size: nat, c: byte) returns (r: array<byte>)
    requires size == 0 || buffer.Length == CapacityFor(size)
    modifies buffer
    ensures r.Length == CapacityFor(size + 1) > size && size <= buffer.Length
    ensures r[..size + 1] == old(buffer[..size]) + [c] && r[size] == c
    ensures r == buffer || fresh(r)
  {
    r := CheckSize(buffer, size);
    r[size] := c;
  }

  class PasswordParser {
    var current: Phase
    var currentIndex: nat
    var last: bool
    var username: array<byte>
    var password: array<byte>

    /** Where the username was terminated: the index its NUL was stored at. */
    var userLength: nat

    ghost predicate Valid()
      reads this, username, password
    {
      && username != password
      && (current == UserRead && currentIndex > 0 ==> username.Length == CapacityFor(currentIndex))
      && (current == PassRead && currentIndex > 0 ==> password.Length == CapacityFor(currentIndex))
      && (current == PassWordSearch || current == PassRead ==>
            userLength < username.Length && username[userLength] == 0)
      && Value().Valid()
    }

    ghost function Value(): State
      reads this, username, password
    {
      State(current, currentIndex, last,
            if current == UserWordSearch then []
            else Cut(username, if current == UserRead then currentIndex else userLength),
            if current == PassRead then Cut(password, currentIndex) else [])
    }

    /** password_parser_init. */
    constructor ()
      ensures Valid() && Value() == Searching(0) && fresh(username) && fresh(password)
    {
      current, currentIndex, last := UserWordSearch, 0, false;
      username := new byte[0];
      password := new byte[0];
    }

    /** user_read_reset and pass_read_reset, which differ only in what they free. */
    method Reset(b: byte) returns (next: Phase)
      modifies this`currentIndex, this`last
      ensures next == UserWordSearch && !last && currentIndex == if b == USER_WORD[0] then 1 else 0
    {
      currentIndex := 0;
      last := false;
      if USER_WORD[currentIndex] == b {
        currentIndex := currentIndex + 1;
      }
      next := UserWordSearch;
    }

    method UserWordSearchHandler(b: byte)
      requires Valid() && current == UserWordSearch
      modifies this
      ensures Valid() && username == old(username) && password == old(password)
      ensures Value() == Feed(old(Value()), b).0
    {
      currentIndex := currentIndex + 1;
      if USER_WORD[currentIndex - 1] == b {
        if currentIndex == |USER_WORD| {
          currentIndex := 0;
          current := UserRead;
        }
      } else {
        current := Reset(b);
      }
    }

    method PassWordSearchHandler(b: byte)
      requires Valid() && current == PassWordSearch
      modifies this
      ensures Valid() && username == old(username) && password == old(password)
      ensures Value() == Feed(old(Value()), b).0
    {
      currentIndex := currentIndex + 1;
      if PASS_WORD[currentIndex - 1] == b {
        if currentIndex == |PASS_WORD| {
          currentIndex := 0;
          current := PassRead;
        }
      } else {
        current := Reset(b);
      }
    }

    method UserReadHandler(b: byte)
      requires Valid() && current == UserRead
      modifies this, username
      ensures Valid() && (username == old(username) || fresh(username)) && password == old(password)
      ensures Value() == Feed(old(Value()), b).0
    {
      if currentIndex >= MAX_TEXT || (last && b != LF) {
        current := Reset(b);
      } else if b == CR {
        last := true;
      } else if b == LF || b <= 127 {
        UserStore(b);
      } else {
        current := Reset(b);
      }
    }

    /** The two branches of user_read_handler that write to the username. */
    method UserStore(b: byte)
      requires Valid() && current == UserRead && currentIndex < MAX_TEXT && b <= 127 && b != CR && (last ==> b == LF)
      modifies this, username
      ensures Valid() && (username == old(username) || fresh(username)) && password == old(password)
      ensures Value() == Feed(old(Value()), b).0
    {
      hide CapacityFor, Restart;
      username := StoreAt(username, currentIndex, if b == LF then 0 else b);
      if b == LF {
        assert username[..currentIndex] == username[..currentIndex + 1][..currentIndex];
        userLength := currentIndex;
        currentIndex := 0;
        last := false;
        current := PassWordSearch;
      } else {
        currentIndex := currentIndex + 1;
      }
    }

    method PassReadHandler(b: byte) returns (r: Option<Report>)
      requires Valid() && current == PassRead
      modifies this, password
      ensures Valid() && username == old(username) && (password == old(password) || fresh(password))
      ensures Value() == Feed(old(Value()), b).0
      ensures r == Feed(old(Value()), b).1
    {
      r := None;
      if currentIndex >= MAX_TEXT || (last && b != LF) {
        current := Reset(b);
      } else if b == CR {
        last := true;
      } else if b == LF || b <= 127 {
        r := PassStore(b);
      } else {
        current := Reset(b);
      }
    }

    /** The two branches of pass_read_handler that write to the password; the first one reports. */
    method PassStore(b: byte) returns (r: Option<Report>)
      requires Valid() && current == PassRead && currentIndex < MAX_TEXT && b <= 127 && b != CR && (last ==> b == LF)
      modifies this, password
      ensures Valid() && username == old(username) && (password == old(password) || fresh(password))
      ensures Value() == Feed(old(Value()), b).0
      ensures r == Feed(old(Value()), b).1
    {
      ghost var before := Value();
      password := StoreAt(password, currentIndex, if b == LF then 0 else b);
      assert username[..userLength] == before.username && username[userLength] == 0;
      if b == LF {
        assert password[..currentIndex] == password[..currentIndex + 1][..currentIndex];
        r := Some(Report(username[..userLength], password[..currentIndex]));
        current := Reset(b);
      } else {
        r := None;
        currentIndex := currentIndex + 1;
      }
    }

    /** password_parser_feed. */
    method FeedByte(b: byte) returns (r: Option<Report>)
      requires Valid()
      modifies this, username, password
      ensures Valid()
      ensures (username == old(username) || fresh(username)) && (password == old(password) || fresh(password))
      ensures Value() == Feed(old(Value()), b).0
      ensures r == Feed(old(Value()), b).1
    {
      r := None;
      match current
      case UserWordSearch => UserWordSearchHandler(b);
      case UserRead => UserReadHandler(b);
      case PassWordSearch => PassWordSearchHandler(b);
      case PassRead => r := PassReadHandler(b);
    }

    /** password_consume: the reports printed while a chunk goes through. */
    method ConsumeChunk(chunk: seq<byte>) returns (reports: seq<Report>)
      requires Valid()
      modifies this, username, password
      ensures Valid()
      ensures (username == old(username) || fresh(username)) && (password == old(password) || fresh(password))
      ensures Value() == FeedAll(old(Value()), chunk).0
      ensures reports == FeedAll(old(Value()), chunk).1
    {
      reports := [];
      ghost var d: Dissector := Value();
      for i := 0 to |chunk|
        invariant Valid()
        invariant (username == old(username) || fresh(username)) && (password == old(password) || fresh(password))
        invariant Value() == FeedAll(d, chunk[..i]).0 && reports == FeedAll(d, chunk[..i]).1
      {
        ghost var e: Dissector := Value();
        var r := FeedByte(chunk[i]);
        reports := reports + (if r.Some? then [r.value] else []);
        RunAllConcat(Feed, d, chunk[..i], [chunk[i]]);
        FeedOne(e, chunk[i]);
        assert chunk[..i + 1] == chunk[..i] + [chunk[i]];
      }
      assert chunk[..|chunk|] == chunk;
    }
  }
}
