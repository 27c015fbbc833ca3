/** The state machine engine (src/stm.c): the check of a state table, on the two tables that use it. */
module StateTables {
  import Connections
  import Managements

  /** A table whose i-th entry is for state i, and which starts before its last state. */
  predicate Proper(states: seq<nat>, maxState: nat, initial: nat) {
    maxState < |states| && initial < maxState && forall i :: 0 <= i <= maxState ==> states[i] == i
  }

  /** stm_init: false stands for abort(). */
  method Init(states: seq<nat>, maxState: nat, initial: nat) returns (ok: bool)
    requires maxState < |states|
    ensures ok <==> Proper(states, maxState, initial)
  {
    for i := 0 to maxState + 1
      invariant forall j :: 0 <= j < i ==> states[j] == j
    {
      if i != states[i] {
        return false;
      }
    }
    ok := initial < maxState;
  }

  /** enum socks_v5state. */
  function SocksNumber(p: Connections.Phase): nat {
    match p
    case HelloRead => 0
    case HelloWrite => 1
    case UserpassRead => 2
    case UserpassWrite => 3
    case RequestRead => 4
    case RequestResolv => 5
    case RequestConnecting => 6
    case RequestWrite => 7
    case Copy => 8
    case Done => 9
    case Error => 10
  }

  /** enum mng_state. */
  function MngNumber(p: Managements.Phase): nat {
    match p
    case HelloRead => 0
    case HelloWrite => 1
    case UserpassRead => 2
    case UserpassWrite => 3
    case ReadIndex => 4
    case ReadParams => 5
    case WriteReply => 6
    case Done => 7
    case Error => 8
  }

  /** The states a handler of src/hello.c or src/authentication.c can return by name, whatever machine calls it. */
  predicate ReturnedByShared(p: Connections.Phase) {
    SocksNumber(p) <= 4
  }

  /** What each of them means to the management machine. */
  function AsMng(p: Connections.Phase): (q: Managements.Phase)
    requires ReturnedByShared(p)
  {
    match p
    case HelloRead => Managements.HelloRead
    case HelloWrite => Managements.HelloWrite
    case UserpassRead => Managements.UserpassRead
    case UserpassWrite => Managements.UserpassWrite
    case RequestRead => Managements.ReadIndex
  }

  /**
   * The shared handlers return numbers: each is the number of the state meant, and the final
   * states, which differ, are taken from the connection.
   */
  lemma SharedNumbersAgree(p: Connections.Phase)
    ensures ReturnedByShared(p) ==> MngNumber(AsMng(p)) == SocksNumber(p)
    ensures Connections.Terminal(p) ==> !ReturnedByShared(p)
    ensures SocksNumber(Connections.Done) != MngNumber(Managements.Done)
        && SocksNumber(Connections.Error) != MngNumber(Managements.Error)
  {
  }
}
