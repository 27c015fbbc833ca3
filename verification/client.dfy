/**
 * The management client's messages (src/client_utils.c) and the schemas by which the server
 * reads them (src/authentication.c, src/management_request.c).
 */
module ClientWire {
  import opened Bytes
  import opened FieldParsers
  import opened ManagementReplies
  import opened Registries

  const USERPASS_VERSION: byte := 0x01
  const ADD_USER: byte := 0x0A
  const DELETE_USER: byte := 0x0B
  const DISABLE_AUTH: byte := 0x0C
  const DISABLE_DISSECTORS: byte := 0x0D

  // ----- Messages -----

  /** A username and password message of section 2 of RFC 1929. */
  function Credentials(user: seq<byte>, pass: seq<byte>): seq<byte>
    requires |user| <= 255 && |pass| <= 255
  {
    [USERPASS_VERSION] + UserAndPass(user, pass)
  }

  function UserAndPass(user: seq<byte>, pass: seq<byte>): seq<byte>
    requires |user| <= 255 && |pass| <= 255
  {
    [|user|] + user + [|pass|] + pass
  }

  function AddUserRequest(user: seq<byte>, pass: seq<byte>): seq<byte>
    requires |user| <= 255 && |pass| <= 255
  {
    [ADD_USER] + UserAndPass(user, pass)
  }

  function DeleteUserRequest(user: seq<byte>): seq<byte>
    requires |user| <= 255
  {
    [DELETE_USER, |user|] + user
  }

  /** strcpy to an offset: the octets and their NUL. */
  method StrCpy(buffer: array<byte>, at: nat, s: Text)
    requires at + |s| + 1 <= buffer.Length
    modifies buffer
    ensures buffer[at..at + |s|] == s && buffer[at + |s|] == 0
    ensures buffer[..at] == old(buffer[..at]) && buffer[at + |s| + 1..] == old(buffer[at + |s| + 1..])
  {
    for i := 0 to |s|
      invariant forall k :: 0 <= k < i ==> buffer[at + k] == s[k]
      invariant forall k :: 0 <= k < buffer.Length && !(at <= k < at + i) ==> buffer[k] == old(buffer[k])
    {
      buffer[at + i] := s[i];
    }
    buffer[at + |s|] := 0;
  }

  /** The octets that make the message, wherever they were stored. */
  lemma Assembled(b: seq<byte>, first: byte, user: seq<byte>, pass: seq<byte>)
    requires |user| <= 255 && |pass| <= 255 && 3 + |user| + |pass| <= |b|
    requires b[0] == first && b[1] == |user| && b[2..2 + |user|] == user
    requires b[2 + |user|] == |pass| && b[3 + |user|..3 + |user| + |pass|] == pass
    ensures b[..3 + |user| + |pass|] == [first] + UserAndPass(user, pass)
  {
  }

  lemma Untouched(a: seq<byte>, b: seq<byte>, n: nat)
    requires n <= |a| == |b| && a[..n] == b[..n]
    ensures forall k :: 0 <= k < n ==> b[k] == a[k]
    ensures forall i, j :: 0 <= i <= j <= n ==> b[i..j] == a[i..j]
  {
  }

  /** send_credentials, up to the send: each copy's NUL is overwritten or left out of what is sent. */
  method ComposeCredentials(username: Text, password: Text) returns (buffer: array<byte>, n: nat)
    requires |username| <= 255 && |password| <= 255 && 3 + |username| + |password| + 1 <= 510
    ensures fresh(buffer) && n <= buffer.Length == 510 && buffer[..n] == Credentials(username, password)
  {
    buffer := new byte[510];
    var i := 0;
    buffer[i] := 0x01;
    i := i + 1;
    var userlen := |username|;
    buffer[i] := userlen;
    i := i + 1;
    StrCpy(buffer, i, username);
    var passlen := |password|;
    buffer[i + userlen] := passlen;
    i := i + 1;
    ghost var before := buffer[..];
    assert before[2..2 + userlen] == username;
    StrCpy(buffer, i + userlen, password);
    n := userlen + passlen + i;
    Untouched(before, buffer[..], 3 + userlen);
    Assembled(buffer[..], 1, username, password);
  }

  /** add_user, on a buffer whose first octet send_request has set. */
  method ComposeAddUser(buffer: array<byte>, username: Text, password: Text) returns (n: nat)
    requires |username| <= 254 && |password| <= 254 && buffer.Length == 512 && buffer[0] == ADD_USER
    modifies buffer
    ensures n <= buffer.Length && buffer[..n] == AddUserRequest(username, password)
  {
    var nusername, npassword := |username|, |password|;
    buffer[1] := nusername;
    StrCpy(buffer, 2, username);
    buffer[nusername + 2] := npassword;
    ghost var before := buffer[..];
    assert before[2..2 + nusername] == username;
    StrCpy(buffer, nusername + 3, password);
    n := nusername + npassword + 3;
    Untouched(before, buffer[..], nusername + 3);
    Assembled(buffer[..], ADD_USER, username, password);
  }

  /** delete_user, on a buffer whose first octet send_request has set. */
  method ComposeDeleteUser(buffer: array<byte>, username: Text) returns (n: nat)
    requires |username| <= 254 && buffer.Length == 512 && buffer[0] == DELETE_USER
    modifies buffer
    ensures n <= buffer.Length && buffer[..n] == DeleteUserRequest(username)
  {
    var nusername := |username|;
    buffer[1] := nusername;
    StrCpy(buffer, 2, username);
    n := nusername + 2;
    assert buffer[..n] == [buffer[0], buffer[1]] + buffer[2..n];
  }

  // ----- The server's schemas -----

  /** checkVersion; and checkIndex, which looks at the first octet only. */
  const CHECK_VERSION: Check := field => field == [USERPASS_VERSION]
  const CHECK_INDEX: Check := field => field != [] && Supported(field[0])

  /** auth_read_init: the fields of interest are the third and the fifth. */
  const AUTH: Schema := [Slot(LongRead, 1, Some(CHECK_VERSION)), LENGTH, COUNTED, LENGTH, COUNTED]

  /** mng_request_index_init. */
  const INDEX: Schema := [Slot(LongRead, 1, Some(CHECK_INDEX))]

  /** The parameter schemas of mng_request_init. */
  const ADD_PARAMS: Schema := [LENGTH, COUNTED, LENGTH, COUNTED]
  const DELETE_PARAMS: Schema := [LENGTH, COUNTED]
  const OPTION_PARAMS: Schema := [Slot(LongRead, 1, None)]

  function Params(index: byte): Option<Schema> {
    if index == ADD_USER then Some(ADD_PARAMS)
    else if index == DELETE_USER then Some(DELETE_PARAMS)
    else if index == DISABLE_AUTH || index == DISABLE_DISSECTORS then Some(OPTION_PARAMS)
    else None
  }

  /** All the schemas in use are ones the engine is exact on. */
  lemma SchemasWellFormed()
    ensures WellFormed(AUTH) && WellFormed(INDEX)
    ensures forall index: byte :: Params(index).Some? ==> WellFormed(Params(index).value)
  {
  }

  /** The credentials parser, as auth_read_init leaves it. */
  function StartAuth(): Parser {
    SchemasWellFormed();
    Start(AUTH)
  }

  function StartIndex(): Parser {
    SchemasWellFormed();
    Start(INDEX)
  }

  function StartParams(index: byte): Parser
    requires Params(index).Some?
  {
    SchemasWellFormed();
    Start(Params(index).value)
  }

  /** A length and its field, anywhere in a schema. */
  lemma CountedDecodes(schema: Schema, i: nat, field: seq<byte>, tail: seq<byte>)
    requires WellFormed(schema) && i + 1 < |schema| && schema[i] == LENGTH && schema[i + 1] == COUNTED && |field| <= 255
    ensures Decode(schema, i, [|field|] + field + tail) == Prepend([[], field], Decode(schema, i + 2, tail))
  {
    var input := [|field|] + field + tail;
    assert input[1..] == field + tail;
    assert (field + tail)[..|field|] == field && (field + tail)[|field|..] == tail;
  }

  lemma PairDecodes(schema: Schema, i: nat, user: seq<byte>, pass: seq<byte>, tail: seq<byte>)
    requires WellFormed(schema) && i + 4 == |schema| && schema[i..] == [LENGTH, COUNTED, LENGTH, COUNTED]
    requires |user| <= 255 && |pass| <= 255
    ensures Decode(schema, i, UserAndPass(user, pass) + tail) == Complete([[], user, [], pass], tail)
  {
    hide Decode;
    var rest := [|pass|] + pass + tail;
    assert schema[i..][0] == schema[i] && schema[i..][1] == schema[i + 1];
    assert schema[i..][2] == schema[i + 2] && schema[i..][3] == schema[i + 3];
    CountedDecodes(schema, i, user, rest);
    CountedDecodes(schema, i + 2, pass, tail);
    EndDecodes(schema, tail);
    assert [|user|] + user + rest == UserAndPass(user, pass) + tail;
    assert [[], pass] + [] == [[], pass] && [[], user] + [[], pass] == [[], user, [], pass];
  }

  lemma EndDecodes(schema: Schema, tail: seq<byte>)
    requires WellFormed(schema)
    ensures Decode(schema, |schema|, tail) == Complete([], tail)
  {
  }

  /**
   * Credentials round trip: whatever follows them, the server's parser takes exactly the
   * message and holds the same user and password.
   */
  lemma CredentialsRoundTrip(user: seq<byte>, pass: seq<byte>, tail: seq<byte>)
    requires |user| <= 255 && |pass| <= 255
    ensures var r := Take(Start(AUTH), Credentials(user, pass) + tail);
      && r.0.phase == Done && r.1 == |Credentials(user, pass)|
      && r.0.results == [[USERPASS_VERSION], [], user, [], pass]
  {
    hide Take, Decode;
    SchemasWellFormed();
    CredentialsDecode(user, pass, tail);
    TakeExact(AUTH, Credentials(user, pass) + tail);
  }

  lemma CredentialsDecode(user: seq<byte>, pass: seq<byte>, tail: seq<byte>)
    requires |user| <= 255 && |pass| <= 255 && WellFormed(AUTH)
    ensures Decode(AUTH, 0, Credentials(user, pass) + tail) == Complete([[USERPASS_VERSION], [], user, [], pass], tail)
  {
    var body := UserAndPass(user, pass) + tail;
    var input := Credentials(user, pass) + tail;
    assert input == [USERPASS_VERSION] + body;
    assert input[..1] == [USERPASS_VERSION] && input[1..] == body;
    assert AUTH[1..] == [LENGTH, COUNTED, LENGTH, COUNTED];
    PairDecodes(AUTH, 1, user, pass, tail);
  }

  /** The other direction: a parser that is done has read such a message, and holds the user and password in it. */
  lemma CredentialsSound(input: seq<byte>)
    requires Take(Start(AUTH), input).0.phase == Done
    ensures var r := Take(Start(AUTH), input);
      && |r.0.results| == 5 && |r.0.results[2]| <= 255 && |r.0.results[4]| <= 255 && r.1 <= |input|
      && input[..r.1] == Credentials(r.0.results[2], r.0.results[4])
  {
    hide Take, Decode;
    SchemasWellFormed();
    TakeExact(AUTH, input);
    var r, d := Take(Start(AUTH), input), Decode(AUTH, 0, input);
    VersionFirst(input);
    var d1 := Decode(AUTH, 1, input[1..]);
    assert AUTH[1..] == [LENGTH, COUNTED, LENGTH, COUNTED];
    PairSound(AUTH, 1, input[1..]);
    assert input == [USERPASS_VERSION] + input[1..];
    assert input == Credentials(d.values[2], d.values[4]) + d.rest;
    assert input[..r.1] == Credentials(d.values[2], d.values[4]);
  }

  lemma VersionFirst(input: seq<byte>)
    requires WellFormed(AUTH) && Decode(AUTH, 0, input).Complete?
    ensures input != [] && input[..1] == [USERPASS_VERSION] && Decode(AUTH, 1, input[1..]).Complete?
    ensures Decode(AUTH, 0, input) == Prepend([input[..1]], Decode(AUTH, 1, input[1..]))
  {
  }

  // ----- Credentials read off their octets (section 2 of RFC 1929) -----

  /** A whole message is there, whatever its version. */
  predicate WholeCredentials(s: seq<byte>) {
    |s| >= 2 && |s| >= 3 + s[1] as int && |s| >= 3 + s[1] as int + s[2 + s[1] as int] as int
  }

  function CredentialsSize(s: seq<byte>): nat
    requires WholeCredentials(s)
  {
    3 + s[1] as int + s[2 + s[1] as int] as int
  }

  function UserOf(s: seq<byte>): seq<byte>
    requires WholeCredentials(s)
  {
    s[2..2 + s[1] as int]
  }

  function PassOf(s: seq<byte>): seq<byte>
    requires WholeCredentials(s)
  {
    s[3 + s[1] as int..CredentialsSize(s)]
  }

  lemma WholeSpelled(s: seq<byte>)
    requires WholeCredentials(s) && s[0] == USERPASS_VERSION
    ensures |UserOf(s)| <= 255 && |PassOf(s)| <= 255
    ensures s == Credentials(UserOf(s), PassOf(s)) + s[CredentialsSize(s)..]
    ensures |Credentials(UserOf(s), PassOf(s))| == CredentialsSize(s)
  {
  }

  lemma SpelledWhole(user: seq<byte>, pass: seq<byte>, tail: seq<byte>)
    requires |user| <= 255 && |pass| <= 255
    ensures var s := Credentials(user, pass) + tail;
      && WholeCredentials(s) && s[0] == USERPASS_VERSION && UserOf(s) == user && PassOf(s) == pass
      && CredentialsSize(s) == |Credentials(user, pass)|
  {
    var s := Credentials(user, pass) + tail;
    assert s[1] == |user| && s[2 + |user|] == |pass|;
    assert s[2..2 + |user|] == user && s[3 + |user|..3 + |user| + |pass|] == pass;
  }

  /** Fields without a check reject nothing. */
  lemma PairNeverRejects(schema: Schema, i: nat, input: seq<byte>)
    requires WellFormed(schema) && i + 4 == |schema| && schema[i..] == [LENGTH, COUNTED, LENGTH, COUNTED]
    ensures !Decode(schema, i, input).Rejected?
  {
    assert schema[i..][0] == schema[i] && schema[i..][1] == schema[i + 1];
    assert schema[i..][2] == schema[i + 2] && schema[i..][3] == schema[i + 3];
    if input != [] {
      var n, body := input[0] as nat, input[1..];
      LastNeverRejects(schema, i + 2, body);
      if n <= |body| {
        LastNeverRejects(schema, i + 2, body[n..]);
      }
    }
  }

  lemma LastNeverRejects(schema: Schema, i: nat, input: seq<byte>)
    requires WellFormed(schema) && i + 2 == |schema| && schema[i] == LENGTH && schema[i + 1] == COUNTED
    ensures !Decode(schema, i, input).Rejected?
  {
  }

  /**
   * The credentials parser, decided on the octets alone: another version is rejected at once, a
   * whole message is taken to its last octet, and anything less is waited for.
   */
  lemma CredentialsDecided(s: seq<byte>)
    requires s != []
    ensures var r := Take(StartAuth(), s);
      if s[0] != USERPASS_VERSION then r.0.phase == Error && r.1 == 1
      else if WholeCredentials(s) then
        && r.0.phase == Done && r.1 == CredentialsSize(s)
        && |r.0.results| == 5 && r.0.results[2] == UserOf(s) && r.0.results[4] == PassOf(s)
      else !IsDone(r.0) && r.1 == |s|
  {
    hide Take, Decode, WholeCredentials;
    SchemasWellFormed();
    TakeExact(AUTH, s);
    VersionDecides(s);
    if s[0] == USERPASS_VERSION {
      if WholeCredentials(s) {
        WholeSpelled(s);
        CredentialsRoundTrip(UserOf(s), PassOf(s), s[CredentialsSize(s)..]);
      } else if Take(Start(AUTH), s).0.phase == Done {
        CredentialsSound(s);
        var r := Take(Start(AUTH), s);
        assert s == s[..r.1] + s[r.1..];
        SpelledWhole(r.0.results[2], r.0.results[4], s[r.1..]);
      }
    }
  }

  lemma VersionDecides(s: seq<byte>)
    requires WellFormed(AUTH) && s != []
    ensures if s[0] != USERPASS_VERSION then Decode(AUTH, 0, s) == Decoded.Rejected(s[1..])
            else !Decode(AUTH, 0, s).Rejected?
  {
    assert s[..1] == [s[0]];
    assert AUTH[1..] == [LENGTH, COUNTED, LENGTH, COUNTED];
    PairNeverRejects(AUTH, 1, s[1..]);
  }

  predicate CredentialsOf(message: seq<byte>, user: seq<byte>, pass: seq<byte>) {
    |user| <= 255 && |pass| <= 255 && message == Credentials(user, pass)
  }

  /** The parameters of a finished add_user request. */
  lemma AddParamsSound(input: seq<byte>)
    requires Take(StartParams(ADD_USER), input) == (Take(StartParams(ADD_USER), input).0, |input|)
    requires Take(StartParams(ADD_USER), input).0.phase == Done
    ensures var p := Take(StartParams(ADD_USER), input).0;
      |p.results| == 4 && |p.results[1]| <= 255 && |p.results[3]| <= 255
          && input == UserAndPass(p.results[1], p.results[3])
  {
    hide Take;
    SchemasWellFormed();
    TakeExact(ADD_PARAMS, input);
    assert ADD_PARAMS[0..] == ADD_PARAMS;
    PairSound(ADD_PARAMS, 0, input);
    var d := Decode(ADD_PARAMS, 0, input);
    assert d.rest == [] && UserAndPass(d.values[1], d.values[3]) + [] == UserAndPass(d.values[1], d.values[3]);
  }

  /** The parameter of a finished delete_user request. */
  lemma DeleteParamsSound(input: seq<byte>)
    requires Take(StartParams(DELETE_USER), input) == (Take(StartParams(DELETE_USER), input).0, |input|)
    requires Take(StartParams(DELETE_USER), input).0.phase == Done
    ensures var p := Take(StartParams(DELETE_USER), input).0;
      |p.results| == 2 && |p.results[1]| <= 255 && input == [|p.results[1]|] + p.results[1]
  {
    hide Take;
    SchemasWellFormed();
    TakeExact(DELETE_PARAMS, input);
    CountedSound(DELETE_PARAMS, 0, input);
    var n := input[0] as nat;
    EndDecodes(DELETE_PARAMS, input[n + 1..]);
    assert input == [input[0]] + input[1..n + 1] + input[n + 1..];
  }

  /** The parameter of a finished request of one octet. */
  lemma OptionParamsSound(index: byte, input: seq<byte>)
    requires index == DISABLE_AUTH || index == DISABLE_DISSECTORS
    requires Take(StartParams(index), input) == (Take(StartParams(index), input).0, |input|)
    requires Take(StartParams(index), input).0.phase == Done
    ensures |input| == 1 && Take(StartParams(index), input).0.results == [input]
  {
    hide Take;
    SchemasWellFormed();
    assert StartParams(index) == Start(OPTION_PARAMS);
    TakeExact(OPTION_PARAMS, input);
    OptionDecodes(input);
    assert |input| == 1 && input[..1] == input;
  }

  lemma OptionDecodes(input: seq<byte>)
    requires WellFormed(OPTION_PARAMS)
    ensures Decode(OPTION_PARAMS, 0, input) == if input == [] then Partial else Complete([input[..1]], input[1..])
  {
    if input != [] {
      EndDecodes(OPTION_PARAMS, input[1..]);
      assert |OPTION_PARAMS| == 1 && [input[..1]] + [] == [input[..1]];
      assert Passes(OPTION_PARAMS[0], input[..1]);
    }
  }

  lemma CountedSound(schema: Schema, i: nat, input: seq<byte>)
    requires WellFormed(schema) && i + 1 < |schema| && schema[i] == LENGTH && schema[i + 1] == COUNTED
    requires Decode(schema, i, input).Complete?
    ensures input != [] && input[0] as nat + 1 <= |input|
    ensures var n := input[0] as nat;
      && Decode(schema, i + 2, input[n + 1..]).Complete?
      && Decode(schema, i, input) == Prepend([[], input[1..n + 1]], Decode(schema, i + 2, input[n + 1..]))
  {
    var n, body := input[0] as nat, input[1..];
    assert n > 0 ==> |body| >= n;
    assert body[n..] == input[n + 1..] && body[..n] == input[1..n + 1];
    if n == 0 {
      assert body[..n] == [] && body[n..] == body;
      assert Decode(schema, i, input) == Prepend([[], []], Decode(schema, i + 2, body));
    } else {
      assert Decode(schema, i, input) == Prepend([[], body[..n]], Decode(schema, i + 2, body[n..]));
    }
  }

  lemma PairSound(schema: Schema, i: nat, input: seq<byte>)
    requires WellFormed(schema) && i + 4 == |schema| && schema[i..] == [LENGTH, COUNTED, LENGTH, COUNTED]
    requires Decode(schema, i, input).Complete?
    ensures var d := Decode(schema, i, input);
      && |d.values| == 4 && |d.values[1]| <= 255 && |d.values[3]| <= 255
      && input == UserAndPass(d.values[1], d.values[3]) + d.rest
  {
    hide Decode;
    assert schema[i..][0] == schema[i] && schema[i..][1] == schema[i + 1];
    assert schema[i..][2] == schema[i + 2] && schema[i..][3] == schema[i + 3];
    CountedSound(schema, i, input);
    var n := input[0] as nat;
    var rest := input[n + 1..];
    CountedSound(schema, i + 2, rest);
    var m := rest[0] as nat;
    EndDecodes(schema, rest[m + 1..]);
    var after := rest[m + 1..];
    Cut(input, n);
    Cut(rest, m);
    var user, pass := input[1..n + 1], rest[1..m + 1];
    assert Decode(schema, i, input) == Prepend([[], user], Prepend([[], pass], Complete([], after)));
    assert [[], pass] + [] == [[], pass] && [[], user] + [[], pass] == [[], user, [], pass];
    assert UserAndPass(user, pass) + after == [|user|] + user + ([|pass|] + pass + after);
  }

  /** A message cut after a length and the field of that length. */
  lemma Cut(s: seq<byte>, n: nat)
    requires n + 1 <= |s| && n == s[0] as nat
    ensures s == [n] + s[1..n + 1] + s[n + 1..]
  {
  }

  /** mng_request_index_read, then mng_request_read: the index parser takes its octet, the parameter parser the rest. */
  lemma RequestSplits(index: byte, params: seq<byte>)
    requires Supported(index)
    ensures var r := Take(Start(INDEX), [index] + params);
      r.0.phase == Done && r.1 == 1 && r.0.results[0] == [index]
  {
  }

  /** An index outside the list is turned down on its first octet. */
  lemma UnsupportedRejected(index: byte, params: seq<byte>)
    requires !Supported(index)
    ensures var r := Take(Start(INDEX), [index] + params);
      r.0.phase == Error && r.1 == 1
  {
  }

  /** No parameter is ever turned down: what is not whole is waited for. */
  lemma ParamsNeverRejected(index: byte, input: seq<byte>)
    requires Params(index).Some?
    ensures Take(StartParams(index), input).0.phase != Error
  {
    hide Take, Decode;
    SchemasWellFormed();
    TakeExact(Params(index).value, input);
    if index == ADD_USER {
      assert ADD_PARAMS[0..] == ADD_PARAMS;
      PairNeverRejects(ADD_PARAMS, 0, input);
    } else if index == DELETE_USER {
      LastNeverRejects(DELETE_PARAMS, 0, input);
    } else {
      OptionDecodes(input);
    }
  }

  /** add_user round trip, across the two parsers. */
  lemma AddUserRoundTrip(user: seq<byte>, pass: seq<byte>, tail: seq<byte>)
    requires |user| <= 255 && |pass| <= 255
    ensures var input := AddUserRequest(user, pass) + tail;
      var first := Take(Start(INDEX), input);
      && first.0.phase == Done && first.0.results[0] == [ADD_USER] && first.1 == 1
      && var second := Take(Start(ADD_PARAMS), input[first.1..]);
      && second.0.phase == Done && first.1 + second.1 == |AddUserRequest(user, pass)|
      && second.0.results == [[], user, [], pass]
  {
    hide Take;
    SchemasWellFormed();
    var body := UserAndPass(user, pass) + tail;
    var input := AddUserRequest(user, pass) + tail;
    assert input == [ADD_USER] + body;
    RequestSplits(ADD_USER, body);
    assert input[1..] == body;
    assert ADD_PARAMS[0..] == ADD_PARAMS;
    PairDecodes(ADD_PARAMS, 0, user, pass, tail);
    TakeExact(ADD_PARAMS, body);
  }

  /** delete_user round trip. */
  lemma DeleteUserRoundTrip(user: seq<byte>, tail: seq<byte>)
    requires |user| <= 255
    ensures var input := DeleteUserRequest(user) + tail;
      var first := Take(Start(INDEX), input);
      && first.0.phase == Done && first.0.results[0] == [DELETE_USER] && first.1 == 1
      && var second := Take(Start(DELETE_PARAMS), input[first.1..]);
      && second.0.phase == Done && first.1 + second.1 == |DeleteUserRequest(user)|
      && second.0.results == [[], user]
  {
    hide Take;
    SchemasWellFormed();
    var body := [|user|] + user + tail;
    var input := DeleteUserRequest(user) + tail;
    assert input == [DELETE_USER] + body;
    RequestSplits(DELETE_USER, body);
    assert input[1..] == body;
    CountedDecodes(DELETE_PARAMS, 0, user, tail);
    EndDecodes(DELETE_PARAMS, tail);
    assert [[], user] + [] == [[], user];
    TakeExact(DELETE_PARAMS, body);
  }
}
