/**
 * The answers of the management protocol: what the server puts into a connection's write buffer
 * (src/management_request.c) and what the client reads back (src/client_utils.c).
 */
module ManagementReplies {
  import opened Bytes
  import opened Buffers
  import opened Registries

  /** enum mng_reply_status. */
  const SUCCEEDED: byte := 0x00
  const SERVER_ERROR: byte := 0x01
  const INDEX_NOT_SUPPORTED: byte := 0x02
  const MAX_USERS_REACHED: byte := 0x03

  // ----- Listing the users -----

  function Entries(names: seq<seq<byte>>): (r: seq<byte>)
    requires forall j :: 0 <= j < |names| ==> |names[j]| <= 255
  {
    if names == [] then [] else [|names[0]|] + names[0] + Entries(names[1..])
  }

  function NameBytes(names: seq<seq<byte>>): nat {
    if names == [] then 0 else |names[0]| + NameBytes(names[1..])
  }

  /** The listing: status, how many, then each name behind its length. */
  function ListReply(names: seq<seq<byte>>): (r: seq<byte>)
    requires |names| <= 255 && forall j :: 0 <= j < |names| ==> |names[j]| <= 255
  {
    [SUCCEEDED, |names|] + Entries(names)
  }

  lemma {:induction false} EntriesLength(names: seq<seq<byte>>)
    requires forall j :: 0 <= j < |names| ==> |names[j]| <= 255
    ensures |Entries(names)| == |names| + NameBytes(names)
  {
    if names != [] {
      EntriesLength(names[1..]);
    }
  }

  const SIZE_T := 0x1_0000_0000_0000_0000

  /** aux -= 2 on a size_t. */
  function Budget(room: nat): nat {
    if room >= 2 then room - 2 else SIZE_T + room - 2
  }

  /** The size test: each name must fit in what the names before it left. */
  predicate Affordable(names: seq<seq<byte>>, budget: nat) {
    names == [] || (|names[0]| <= budget && Affordable(names[1..], budget - |names[0]|))
  }

  lemma {:induction false} AffordableIsSum(names: seq<seq<byte>>, budget: nat)
    ensures Affordable(names, budget) <==> NameBytes(names) <= budget
    decreases |names|
  {
    if names != [] && |names[0]| <= budget {
      AffordableIsSum(names[1..], budget - |names[0]|);
    }
  }

  /**
   * The size test forgets the octet that goes in front of every name. With room for the two
   * octets of the heading, it lets through a listing that does not fit exactly when the names
   * take more than the room less the heading less one octet a user, but no more than the room
   * less the heading; below two octets of room, the subtraction wraps and any names get through.
   */
  lemma SizeTestMisses(names: seq<seq<byte>>, room: nat)
    requires |names| <= 255 && forall j :: 0 <= j < |names| ==> |names[j]| <= 255
    ensures room >= 2 ==>
              (Affordable(names, Budget(room)) && |ListReply(names)| > room
               <==> room - 2 - |names| < NameBytes(names) <= room - 2)
    ensures room < 2 ==> Affordable(names, Budget(room)) && |ListReply(names)| > room
  {
    AffordableIsSum(names, Budget(room));
    EntriesLength(names);
    NameBytesBound(names);
  }

  lemma {:induction false} NameBytesBound(names: seq<seq<byte>>)
    requires forall j :: 0 <= j < |names| ==> |names[j]| <= 255
    ensures NameBytes(names) <= 255 * |names|
  {
    if names != [] {
      NameBytesBound(names[1..]);
    }
  }

  /** The same name so many times over. */
  function Copies(n: nat, name: seq<byte>): (names: seq<seq<byte>>)
    ensures |names| == n && (forall j :: 0 <= j < n ==> names[j] == name)
    ensures NameBytes(names) == n * |name|
  {
    if n == 0 then [] else [name] + Copies(n - 1, name)
  }

  const EIGHT_LETTERS: seq<byte> := [117, 115, 101, 114, 110, 97, 109, 101]

  /** A full registry of names of eight letters passes the size test of an empty write buffer, and does not fit it. */
  lemma FullRegistryMissed()
    ensures var names := Copies(255, EIGHT_LETTERS);
      Affordable(names, Budget(2048)) && |ListReply(names)| == 2297
  {
    var names := Copies(255, EIGHT_LETTERS);
    AffordableIsSum(names, Budget(2048));
    EntriesLength(names);
  }

  /**
   * list_users_mng_request_marshall. Where the size test lets through a listing that does not
   * fit, the source writes past the end of its buffer: the method says so, and writes nothing.
   */
  method MarshalList(wb: Buffer, registry: Registry) returns (overran: bool)
    requires wb.Valid() && registry.Valid()
    requires forall j :: 0 <= j < |registry.Value()| ==> |registry.Value()[j].name| <= 255
    modifies wb, wb.data
    ensures wb.Valid()
    ensures var names, room := Names(old(registry.Value())), old(wb.Value()).Room();
      && (overran <==> Affordable(names, Budget(room)) && |ListReply(names)| > room)
      && (!overran ==>
            wb.Value() == if Affordable(names, Budget(room)) then old(wb.Value()).Push(ListReply(names))
                          else old(wb.Value()))
  {
    var at, n := wb.WritePtr();
    var fits := SizeTest(registry, n);
    if !fits {
      return false;
    }
    var reply := ComposeList(registry);
    overran := |reply| > n;
    if !overran {
      wb.Append(reply);
    }
  }

  method SizeTest(registry: Registry, n: nat) returns (fits: bool)
    requires registry.Valid()
    ensures fits == Affordable(Names(registry.Value()), Budget(n))
  {
    ghost var names := Names(registry.Value());
    var aux := if n >= 2 then n - 2 else SIZE_T + n - 2;
    for i := 0 to registry.nusers
      invariant aux >= 0 && Affordable(names, Budget(n)) == Affordable(names[i..], aux)
    {
      assert names[i..][1..] == names[i + 1..];
      var lengthUser := |registry.users[i].value.name|;
      if lengthUser > aux {
        return false;
      }
      aux := aux - lengthUser;
    }
    fits := true;
  }

  /** The second loop: the octets of the listing, in the order they are stored. */
  method ComposeList(registry: Registry) returns (buf: seq<byte>)
    requires registry.Valid() && forall j :: 0 <= j < |registry.Value()| ==> |registry.Value()[j].name| <= 255
    ensures buf == ListReply(Names(registry.Value()))
  {
    ghost var names := Names(registry.Value());
    buf := [SUCCEEDED, registry.nusers];
    for i := 0 to registry.nusers
      invariant buf + Entries(names[i..]) == ListReply(names)
    {
      assert names[i..][1..] == names[i + 1..];
      var user := registry.users[i].value.name;
      assert names[i] == user;
      assert Entries(names[i..]) == [|user|] + user + Entries(names[i + 1..]);
      ghost var before := buf;
      buf := buf + [|user|] + user;
      assert buf + Entries(names[i + 1..]) == before + Entries(names[i..]);
    }
  }

  // ----- What the client makes of it -----

  /**
   * list_users as a function: the names between index i and the end of the last one, or None where
   * the buffer ends early.
   */
  function ReadNames(buffer: seq<byte>, i: nat, count: nat): Option<seq<seq<byte>>>
    decreases count
  {
    if count == 0 then Some([])
    else if i >= |buffer| || i + 1 + buffer[i] > |buffer| then None
    else
      var rest := ReadNames(buffer, i + 1 + buffer[i], count - 1);
      if rest.None? then None else Some([CString(buffer[i + 1..i + 1 + buffer[i]])] + rest.value)
  }

  /** list_users: the names it would print, in order, or None where it reads past the end of the buffer. */
  method ListUsers(buffer: array<byte>) returns (printed: Option<seq<seq<byte>>>)
    requires buffer.Length >= 2
    ensures printed == ReadNames(buffer[..], 2, buffer[1])
  {
    hide CString, ReadNames;
    var b := buffer[1];
    var index: nat := 2;
    var names := [];
    ghost var goal := ReadNames(buffer[..], 2, b);
    assert goal.Some? ==> names + goal.value == goal.value;
    for i := 0 to b
      invariant goal == Prefixed(names, ReadNames(buffer[..], index, b - i))
    {
      NextName(buffer[..], index, b - i);
      if index >= buffer.Length || index + 1 + buffer[index] > buffer.Length {
        return None;
      }
      var userLen := buffer[index];
      index := index + 1;
      var user := CString(buffer[index..index + userLen]);
      assert buffer[index..index + userLen] == buffer[..][index..index + userLen];
      PrefixedTwice(names, [user], ReadNames(buffer[..], index + userLen, b - i - 1));
      names := names + [user];
      index := index + userLen;
    }
    NoNames(buffer[..], index);
    assert names + [] == names;
    printed := Some(names);
  }

  /** The names read so far, and the rest; or there is no reading them. */
  function Prefixed(names: seq<seq<byte>>, rest: Option<seq<seq<byte>>>): Option<seq<seq<byte>>> {
    if rest.None? then None else Some(names + rest.value)
  }

  lemma PrefixedTwice(a: seq<seq<byte>>, b: seq<seq<byte>>, rest: Option<seq<seq<byte>>>)
    ensures Prefixed(a, Prefixed(b, rest)) == Prefixed(a + b, rest)
  {
    if rest.Some? {
      assert a + (b + rest.value) == (a + b) + rest.value;
    }
  }

  /** One turn of the loop. */
  lemma NextName(buffer: seq<byte>, i: nat, count: nat)
    requires count > 0
    ensures ReadNames(buffer, i, count)
         == if i >= |buffer| || i + 1 + buffer[i] > |buffer| then None
            else Prefixed([CString(buffer[i + 1..i + 1 + buffer[i]])], ReadNames(buffer, i + 1 + buffer[i], count - 1))
  {
  }

  lemma NoNames(buffer: seq<byte>, i: nat)
    ensures ReadNames(buffer, i, 0) == Some([])
  {
  }

  lemma {:induction false} EntriesRead(before: seq<byte>, names: seq<seq<byte>>, after: seq<byte>)
    requires forall j :: 0 <= j < |names| ==> |names[j]| <= 255 && 0 !in names[j]
    ensures ReadNames(before + Entries(names) + after, |before|, |names|) == Some(names)
    decreases |names|
  {
    if names != [] {
      hide ReadNames;
      var n, rest, len: byte := names[0], names[1..], |names[0]|;
      EntriesRead(before + [len] + n, rest, after);
      EntriesStep(before, len, n, Entries(rest), after, rest);
      assert [n] + rest == names;
    }
  }

  lemma EntriesStep(before: seq<byte>, len: byte, n: seq<byte>, entries: seq<byte>, after: seq<byte>,
      rest: seq<seq<byte>>)
    requires |n| == len as int && 0 !in n
    requires var head := before + [len] + n; ReadNames(head + entries + after, |head|, |rest|) == Some(rest)
    ensures ReadNames(before + ([len] + n + entries) + after, |before|, |rest| + 1) == Some([n] + rest)
  {
    hide ReadNames;
    Regroup(before, [len], n, entries, after);
    Middle(before, len, n, entries + after);
    EntryRead(before + [len] + n + (entries + after), |before|, |rest|, n);
  }

  lemma Regroup(a: seq<byte>, b: seq<byte>, c: seq<byte>, d: seq<byte>, e: seq<byte>)
    ensures a + (b + c + d) + e == (a + b + c) + (d + e) == (a + b + c) + d + e
  {
  }

  lemma Middle(before: seq<byte>, len: byte, n: seq<byte>, tail: seq<byte>)
    ensures var buffer := before + [len] + n + tail;
      && |buffer| == |before| + 1 + |n| + |tail| && buffer[|before|] == len
      && buffer[|before| + 1..|before| + 1 + |n|] == n
  {
  }

  /** One turn of the loop, where the buffer holds a name behind its length. */
  lemma EntryRead(buffer: seq<byte>, i: nat, count: nat, name: seq<byte>)
    requires i + 1 + |name| <= |buffer| && |name| == buffer[i] as int && 0 !in name
    requires buffer[i + 1..i + 1 + |name|] == name && ReadNames(buffer, i + 1 + |name|, count).Some?
    ensures ReadNames(buffer, i, count + 1) == Some([name] + ReadNames(buffer, i + 1 + |name|, count).value)
  {
  }

  lemma {:induction false} EntriesCut(before: seq<byte>, names: seq<seq<byte>>, k: nat)
    requires forall j :: 0 <= j < |names| ==> |names[j]| <= 255
    requires k < |Entries(names)|
    ensures ReadNames(before + Entries(names)[..k], |before|, |names|).None?
    decreases |names|
  {
    var n, rest, buffer := names[0], names[1..], before + Entries(names)[..k];
    var whole := 1 + |n|;
    if k >= 1 {
      assert buffer[|before|] as int == |n|;
    }
    if k >= whole {
      var head := before + ([|n| as byte] + n);
      EntriesCut(head, rest, k - whole);
      assert head + Entries(rest)[..k - whole] == buffer;
    }
  }

  /** How much of a reply request_response receives, at most. */
  const CLIENT_WINDOW := 500

  /** The client's buffer: what it received in one call, and whatever was in it before. */
  function Window(reply: seq<byte>, stale: seq<byte>): (buffer: seq<byte>)
    requires |stale| >= CLIENT_WINDOW
    ensures |buffer| == CLIENT_WINDOW
  {
    (reply + stale)[..CLIENT_WINDOW]
  }

  /**
   * Round trip, and where it ends. The client lists exactly the registered names, in order, if
   * and only if the reply fits its buffer of 500 octets; of a longer one it reads past the end.
   */
  lemma ListRoundTripIff(names: seq<seq<byte>>, stale: seq<byte>)
    requires |names| <= 255 && forall j :: 0 <= j < |names| ==> |names[j]| <= 255 && 0 !in names[j]
    requires |stale| >= CLIENT_WINDOW
    ensures var buffer := Window(ListReply(names), stale);
      ReadNames(buffer, 2, buffer[1]) == if |ListReply(names)| <= CLIENT_WINDOW then Some(names) else None
  {
    var head: seq<byte>, reply := [SUCCEEDED, |names|], ListReply(names);
    var buffer := Window(reply, stale);
    if |reply| <= CLIENT_WINDOW {
      var after := stale[..CLIENT_WINDOW - |reply|];
      EntriesRead(head, names, after);
      assert buffer == head + Entries(names) + after;
    } else {
      EntriesCut(head, names, CLIENT_WINDOW - 2);
      assert buffer == head + Entries(names)[..CLIENT_WINDOW - 2];
    }
  }

  /** The same on nothing but the octets received: they are read as the names exactly when they are the whole reply. */
  lemma PrefixReadIff(names: seq<seq<byte>>, k: nat)
    requires |names| <= 255 && forall j :: 0 <= j < |names| ==> |names[j]| <= 255 && 0 !in names[j]
    requires 2 <= k <= |ListReply(names)|
    ensures var received := ListReply(names)[..k];
      ReadNames(received, 2, received[1]) == Some(names) <==> k == |ListReply(names)|
  {
    var head: seq<byte> := [SUCCEEDED, |names|];
    if k == |ListReply(names)| {
      EntriesRead(head, names, []);
      assert head + Entries(names) + [] == ListReply(names)[..k];
    } else {
      EntriesCut(head, names, k - 2);
      assert head + Entries(names)[..k - 2] == ListReply(names)[..k];
    }
  }

  /** Two hundred users called "ab": a listing the server sends, and the client cannot read. */
  lemma LongListingUnread(stale: seq<byte>)
    requires |stale| >= CLIENT_WINDOW
    ensures var names := Copies(200, [97, 98]);
      && Affordable(names, Budget(2048)) && |ListReply(names)| == 602
      && var buffer := Window(ListReply(names), stale);
      ReadNames(buffer, 2, buffer[1]).None?
  {
    var names := Copies(200, [97, 98]);
    AffordableIsSum(names, Budget(2048));
    EntriesLength(names);
    ListRoundTripIff(names, stale);
  }

  // ----- Counters -----

  /** The four octets of an unsigned int on a little-endian machine. */
  function Octets(v: nat): seq<byte> {
    [v % 256, v / 256 % 256, v / 65536 % 256, v / 16777216 % 256]
  }

  /** The counter's low 32 bits, behind a status octet. */
  function UintReply(v: nat): seq<byte> {
    [SUCCEEDED] + Octets(v)
  }

  /** uint_mng_request_marshall; the conversion to uint32_t happens at the call. */
  method MarshalUint(wb: Buffer, metric: nat)
    requires wb.Valid()
    modifies wb, wb.data
    ensures wb.Valid()
    ensures wb.Value() == if old(wb.Value()).Room() < 5 then old(wb.Value())
        else old(wb.Value()).Push(UintReply(metric))
  {
    var value := metric % 0x1_0000_0000;
    var at, n := wb.WritePtr();
    if n < 5 {
      return;
    }
    LowOctets(metric);
    wb.Append([0x00] + Octets(value));
  }

  lemma LowOctets(v: nat)
    ensures Octets(v % 0x1_0000_0000) == Octets(v)
  {
    var w, hi := v % 0x1_0000_0000, v / 0x1_0000_0000;
    assert v == w + 256 * (256 * (65536 * hi)) == w + 65536 * (256 * (256 * hi)) == w + 16777216 * (256 * hi);
    LowOctet(w, 256, 65536 * hi);
    LowOctet(w, 65536, 256 * hi);
    LowOctet(w, 16777216, hi);
    Remainder(w, 16777216 * hi);
  }

  /** Whole multiples of 256 units leave the octet of a unit alone. */
  lemma LowOctet(w: nat, d: nat, k: nat)
    requires d > 0
    ensures (w + d * (256 * k)) / d % 256 == w / d % 256
  {
    Quotient(w, d, 256 * k);
    Remainder(w / d, k);
  }

  lemma Quotient(w: nat, d: nat, q: nat)
    requires d > 0
    ensures (w + d * q) / d == w / d + q
  {
    assert w + d * q == d * (w / d + q) + w % d;
    DivUnique(w + d * q, d, w / d + q, w % d);
  }

  lemma DivUnique(x: nat, d: nat, k: nat, r: nat)
    requires x == d * k + r && r < d
    ensures x / d == k
  {
    if x / d < k {
      Apart(d, x / d, k);
    } else if x / d > k {
      Apart(d, k, x / d);
    }
  }

  lemma Apart(d: nat, a: nat, b: nat)
    requires a < b
    ensures d * a + d <= d * b
  {
    var c: nat := b - a - 1;
    assert b == a + 1 + c;
    assert d * b == d * a + d + d * c;
  }

  lemma Remainder(x: nat, y: nat)
    ensures (x + 256 * y) % 256 == x % 256
  {
  }

  /** cast_uint32. */
  function CastUint32(buffer: seq<byte>): nat
    requires |buffer| >= 5
  {
    buffer[1] as nat + 256 * buffer[2] as nat + 65536 * buffer[3] as nat + 16777216 * buffer[4] as nat
  }

  /** The client reads back the counter modulo 2^32. */
  lemma UintRoundTrip(v: nat, after: seq<byte>)
    ensures CastUint32(UintReply(v) + after) == v % 0x1_0000_0000
  {
    var w := v % 0x1_0000_0000;
    LowOctets(v);
    assert w / 256 / 256 == w / 65536 && w / 65536 / 256 == w / 16777216;
  }

  // ----- Status and supported indexes -----

  /** status_mng_marshal. */
  method MarshalStatus(wb: Buffer, status: byte)
    requires wb.Valid()
    modifies wb, wb.data
    ensures wb.Valid()
    ensures wb.Value() == if old(wb.Value()).Room() < 1 then old(wb.Value()) else old(wb.Value()).Push([status])
  {
    var at, n := wb.WritePtr();
    if n < 1 {
      return;
    }
    wb.Append([status]);
  }

  /** checkIndex. */
  predicate Supported(index: byte) {
    index <= 0x0D
  }

  const SUPPORTED_REPLY: seq<byte> := [0, 14, 0, 1, 2, 3, 4, 5, 6, 7, 8, 9, 10, 11, 12, 13]

  /** The indexes announced are exactly those the index parser accepts, each once. */
  lemma AnnouncedAreAccepted(index: byte)
    ensures index in SUPPORTED_REPLY[2..] <==> Supported(index)
    ensures SUPPORTED_REPLY[0] == SUCCEEDED && SUPPORTED_REPLY[1] == |SUPPORTED_REPLY[2..]|
    ensures forall i, j :: 0 <= i < j < |SUPPORTED_REPLY[2..]| ==> SUPPORTED_REPLY[2..][i] != SUPPORTED_REPLY[2..][j]
  {
  }

  /** supported_indexes_mng_request_marshall asks for 18 octets of room and uses 16. */
  method MarshalSupported(wb: Buffer)
    requires wb.Valid()
    modifies wb, wb.data
    ensures wb.Valid()
    ensures wb.Value() == if old(wb.Value()).Room() < 18 then old(wb.Value()) else old(wb.Value()).Push(SUPPORTED_REPLY)
  {
    var at, n := wb.WritePtr();
    if n < 18 {
      return;
    }
    wb.Append(SUPPORTED_REPLY);
  }
}
