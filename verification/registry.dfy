/**
 * The table of proxy users (src/management_request.c, src/authentication.c): additions and
 * deletions in a fixed array, and the credential check that runs over it.
 */
module Registries {
  import opened Bytes

  const MAX_USERS := 255

  type Text = s: seq<byte> | 0 !in s

  /** struct users: two C strings. */
  datatype User = User(name: Text, pass: Text)

  /** Who is registered, oldest first. */
  type Roster = us: seq<User> | |us| <= MAX_USERS

  /** addUser: a full table ignores the request. */
  function Add(us: Roster, u: User): Roster {
    if |us| >= MAX_USERS then us else us + [u]
  }

  /** The position of the first user of that name. */
  function FirstNamed(us: seq<User>, name: seq<byte>): (r: Option<nat>)
    ensures r.Some? ==>
              && r.value < |us| && us[r.value].name == name
              && forall j :: 0 <= j < r.value ==> us[j].name != name
    ensures r.None? ==> forall j :: 0 <= j < |us| ==> us[j].name != name
  {
    if us == [] then None
    else if us[0].name == name then Some(0)
    else
      var r := FirstNamed(us[1..], name);
      if r.Some? then Some(r.value + 1) else None
  }

  /** deleteUser. */
  function Delete(us: Roster, name: seq<byte>): Roster {
    var at := FirstNamed(us, name);
    if at.Some? then us[..at.value] + us[at.value + 1..] else us
  }

  /** checkCredentials: the user whose pair matches, if any. */
  function Check(us: seq<User>, name: Text, pass: Text): (r: Option<nat>)
    ensures r.Some? <==> exists j :: 0 <= j < |us| && us[j] == User(name, pass)
    ensures r.Some? ==> r.value < |us| && us[r.value] == User(name, pass)
    ensures r.Some? ==> forall j :: 0 <= j < r.value ==> us[j] != User(name, pass)
  {
    if us == [] then None
    else if us[0].name == name && us[0].pass == pass then Some(0)
    else
      var r := Check(us[1..], name, pass);
      assert forall j :: 0 < j < |us| ==> us[j] == us[1..][j - 1];
      if r.Some? then Some(r.value + 1) else None
  }

  // ----- Runs -----

  datatype Op = AddOp(user: User) | DeleteOp(name: seq<byte>)

  function Apply(us: Roster, op: Op): Roster {
    match op
    case AddOp(u) => Add(us, u)
    case DeleteOp(name) => Delete(us, name)
  }

  function Run(us: Roster, ops: seq<Op>): Roster
    decreases |ops|
  {
    if ops == [] then us else Run(Apply(us, ops[0]), ops[1..])
  }

  function Names(us: seq<User>): (r: seq<seq<byte>>)
    ensures |r| == |us| && forall j :: 0 <= j < |us| ==> r[j] == us[j].name
  {
    seq(|us|, j requires 0 <= j < |us| => us[j].name)
  }

  /** The reference: a bag of names with room for 255, in which deleting takes one away. */
  function ApplyBag(bag: multiset<seq<byte>>, op: Op): multiset<seq<byte>> {
    match op
    case AddOp(u) => if |bag| >= MAX_USERS then bag else bag + multiset{u.name}
    case DeleteOp(name) => bag - multiset{name}
  }

  function RunBag(bag: multiset<seq<byte>>, ops: seq<Op>): multiset<seq<byte>>
    decreases |ops|
  {
    if ops == [] then bag else RunBag(ApplyBag(bag, ops[0]), ops[1..])
  }

  lemma DeleteIsBag(us: Roster, name: seq<byte>)
    ensures multiset(Names(Delete(us, name))) == multiset(Names(us)) - multiset{name}
  {
    var at, names := FirstNamed(us, name), Names(us);
    if at.Some? {
      var i := at.value;
      var left, right := names[..i], names[i + 1..];
      assert Names(Delete(us, name)) == left + right;
      hide Names, Delete, FirstNamed;
      assert names == left + [name] + right;
    } else {
      assert name !in names;
    }
  }

  lemma ApplyIsBag(us: Roster, op: Op)
    ensures multiset(Names(Apply(us, op))) == ApplyBag(multiset(Names(us)), op)
  {
    match op
    case AddOp(u) =>
      assert Names(us + [u]) == Names(us) + [u.name];
    case DeleteOp(name) =>
      hide Names, Delete;
      DeleteIsBag(us, name);
  }

  /** Over any run the registered names are those of the bag: each deletion takes one of them, and one only. */
  lemma {:induction false} RunIsBag(us: Roster, ops: seq<Op>)
    ensures multiset(Names(Run(us, ops))) == RunBag(multiset(Names(us)), ops)
    decreases |ops|
  {
    if ops != [] {
      ApplyIsBag(us, ops[0]);
      RunIsBag(Apply(us, ops[0]), ops[1..]);
    }
  }

  /** `a` is what is left of `b` after striking some entries out, the order of the rest being kept. */
  predicate Kept(a: seq<User>, b: seq<User>) {
    if a == [] then true
    else if b == [] then false
    else (a[0] == b[0] && Kept(a[1..], b[1..])) || Kept(a, b[1..])
  }

  function AddedBy(op: Op): seq<User> {
    if op.AddOp? then [op.user] else []
  }

  function Added(ops: seq<Op>): seq<User> {
    if ops == [] then [] else AddedBy(ops[0]) + Added(ops[1..])
  }

  lemma {:induction false} KeptRefl(a: seq<User>)
    ensures Kept(a, a)
  {
    if a != [] {
      KeptRefl(a[1..]);
    }
  }

  lemma {:induction false} KeptAppend(a: seq<User>, b: seq<User>, c: seq<User>)
    requires Kept(a, b)
    ensures Kept(a, b + c) && Kept(a + c, b + c)
    decreases |b|
  {
    if a == [] {
      KeptSuffix(c, b);
      assert a + c == c;
    } else {
      assert (b + c)[0] == b[0] && (b + c)[1..] == b[1..] + c;
      assert (a + c)[0] == a[0] && (a + c)[1..] == a[1..] + c;
      if a[0] == b[0] && Kept(a[1..], b[1..]) {
        KeptAppend(a[1..], b[1..], c);
      } else {
        KeptAppend(a, b[1..], c);
      }
    }
  }

  lemma {:induction false} KeptSuffix(c: seq<User>, b: seq<User>)
    ensures Kept(c, b + c)
    decreases |b|
  {
    if b == [] {
      assert b + c == c;
      KeptRefl(c);
    } else {
      assert (b + c)[1..] == b[1..] + c;
      KeptSuffix(c, b[1..]);
    }
  }

  lemma {:induction false} KeptWithout(a: seq<User>, b: seq<User>, i: nat)
    requires Kept(a, b) && i < |a|
    ensures Kept(a[..i] + a[i + 1..], b)
    decreases |b|
  {
    var r := a[..i] + a[i + 1..];
    if a[0] == b[0] && Kept(a[1..], b[1..]) {
      if i == 0 {
        assert r == a[1..];
      } else {
        KeptWithout(a[1..], b[1..], i - 1);
        assert r[0] == a[0] && r[1..] == a[1..][..i - 1] + a[1..][i..];
      }
    } else {
      KeptWithout(a, b[1..], i);
    }
  }

  lemma ApplyKeepsOrder(us: Roster, op: Op, history: seq<User>)
    requires Kept(us, history)
    ensures Kept(Apply(us, op), history + AddedBy(op))
  {
    match op
    case AddOp(u) => KeptAppend(us, history, [u]);
    case DeleteOp(name) =>
      assert history + [] == history;
      var at := FirstNamed(us, name);
      if at.Some? {
        KeptWithout(us, history, at.value);
      }
  }

  /**
   * Order: whatever the run, the table lists some of the users that were there or were added, in
   * the order they came.
   */
  lemma {:induction false} RunKeepsOrder(us: Roster, ops: seq<Op>, history: seq<User>)
    requires Kept(us, history)
    ensures Kept(Run(us, ops), history + Added(ops))
    decreases |ops|
  {
    hide Kept, Apply;
    if ops == [] {
      assert history + [] == history;
    } else {
      ApplyKeepsOrder(us, ops[0], history);
      RunKeepsOrder(Apply(us, ops[0]), ops[1..], history + AddedBy(ops[0]));
      assert (history + AddedBy(ops[0])) + Added(ops[1..]) == history + (AddedBy(ops[0]) + Added(ops[1..]));
    }
  }

  /**
   * A pair checks out after a deletion exactly when it did before, unless the only entry with it
   * is the one deleted.
   */
  lemma CheckAfterDelete(us: Roster, gone: seq<byte>, name: Text, pass: Text)
    ensures var at := FirstNamed(us, gone);
      Check(Delete(us, gone), name, pass).Some? <==>
      exists j :: 0 <= j < |us| && us[j] == User(name, pass) && (at.Some? ==> j != at.value)
  {
    var at, left := FirstNamed(us, gone), Delete(us, gone);
    if at.Some? {
      assert forall j :: 0 <= j < at.value ==> left[j] == us[j];
      assert forall j :: at.value < j < |us| ==> us[j] == left[j - 1];
      assert forall j :: at.value <= j < |left| ==> left[j] == us[j + 1];
    }
  }

  // ----- The source's table -----

  class Registry {
    const users: array<Option<User>>
    var nusers: nat

    /** Every slot in use holds two strings. */
    ghost predicate Valid()
      reads this, users
    {
      users.Length == MAX_USERS && nusers <= MAX_USERS && forall j :: 0 <= j < nusers ==> users[j].Some?
    }

    ghost function Value(): (us: Roster)
      requires Valid()
      reads this, users
      ensures |us| == nusers && forall j :: 0 <= j < nusers ==> us[j] == users[j].value
    {
      seq(nusers, j requires 0 <= j < nusers && Valid() reads this, users => users[j].value)
    }

    constructor ()
      ensures Valid() && Value() == [] && fresh(users)
    {
      users := new Option<User>[MAX_USERS](_ => None);
      nusers := 0;
    }

    /** addUser. */
    method AddUser(username: seq<byte>, password: seq<byte>)
      requires Valid()
      modifies this, users
      ensures Valid() && Value() == Add(old(Value()), User(CString(username), CString(password)))
    {
      if nusers >= MAX_USERS {
        return;
      }
      users[nusers] := Some(User(CString(username), CString(password)));
      nusers := nusers + 1;
    }

    /** deleteUser: once the entry is found, the rest of the loop shifts the others down. */
    method DeleteUser(username: seq<byte>)
      requires Valid()
      modifies this, users
      ensures Valid() && Value() == Delete(old(Value()), CString(username))
    {
      ghost var us := Value();
      ghost var at := FirstNamed(us, CString(username));
      var deleted := false;
      for i := 0 to nusers
        invariant nusers == |us|
        invariant deleted <==> at.Some? && at.value < i
        invariant forall j :: 0 <= j < |us| && (!deleted || j < at.value || j >= i) ==> users[j] == Some(us[j])
        invariant deleted ==> forall j :: at.value <= j < i - 1 ==> users[j] == Some(us[j + 1])
      {
        if deleted {
          users[i - 1] := users[i];
        }
        if !deleted && users[i].value.name == CString(username) {
          users[i] := None;
          deleted := true;
        }
      }
      if deleted {
        nusers := nusers - 1;
      }
      assert Value() == Delete(us, CString(username));
    }

    /** checkCredentials, and checkMngCredentials for the administrators: 0x00 and the user's index, or 0x01. */
    method CheckCredentials(username: seq<byte>, password: seq<byte>) returns (status: byte, userIndex: nat)
      requires Valid()
      ensures var r := Check(Value(), CString(username), CString(password));
        status == (if r.Some? then 0x00 else 0x01) && (r.Some? ==> userIndex == r.value)
    {
      for i := 0 to nusers
        invariant forall j :: 0 <= j < i ==> users[j].value != User(CString(username), CString(password))
      {
        if users[i].value.name == CString(username) {
          if users[i].value.pass == CString(password) {
            return 0x00, i;
          }
        }
      }
      return 0x01, 0;
    }
  }
}
