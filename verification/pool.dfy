/**
 * The free lists of connection structures (src/socks5nio.c, src/management.c). A structure that
 * is given back goes to the list while fewer than fifty have ever gone there, else to free().
 */
module Pools {
  const MAX_POOL := 50

  /**
   * free lists the recycled structures, the next one first; size is pool_size, which only grows;
   * used and gone are what is out of the list.
   */
  datatype Pool = Pool(free: seq<nat>, size: nat, made: nat, used: set<nat>, gone: set<nat>)

  const EMPTY := Pool([], 0, 0, {}, {})

  /** socks5_new and mng_new: the first structure of the list, or a new one. */
  function Take(p: Pool): (Pool, nat) {
    if p.free == [] then (p.(made := p.made + 1, used := p.used + {p.made}), p.made)
    else (p.(free := p.free[1..], used := p.used + {p.free[0]}), p.free[0])
  }

  /** socks5_destroy and mng_destroy on the last reference. */
  function Give(p: Pool, s: nat): Pool {
    if p.size < MAX_POOL then p.(free := [s] + p.free, size := p.size + 1, used := p.used - {s})
    else p.(used := p.used - {s}, gone := p.gone + {s})
  }

  datatype Op = New | Destroy(s: nat)

  /** Structures are given back by their user. */
  predicate Legal(p: Pool, ops: seq<Op>)
    decreases |ops|
  {
    ops == [] || ((ops[0].Destroy? ==> ops[0].s in p.used) && Legal(Apply(p, ops[0]), ops[1..]))
  }

  function Apply(p: Pool, op: Op): Pool {
    match op
    case New => Take(p).0
    case Destroy(s) => Give(p, s)
  }

  function Run(p: Pool, ops: seq<Op>): Pool
    decreases |ops|
  {
    if ops == [] then p else Run(Apply(p, ops[0]), ops[1..])
  }

  /** Each structure ever made is in one place: in use, in the list once, or freed. */
  ghost predicate Partitioned(p: Pool) {
    && p.used !! p.gone && p.size <= MAX_POOL && |p.free| <= p.size
    && (forall s :: s in p.free ==> s < p.made && s !in p.used && s !in p.gone)
    && (forall s :: s in p.used || s in p.gone ==> s < p.made)
    && (forall i, j :: 0 <= i < j < |p.free| ==> p.free[i] != p.free[j])
  }

  /** No structure is ever handed out twice at a time, or after free(). */
  lemma {:induction false} RunPartitions(p: Pool, ops: seq<Op>)
    requires Partitioned(p) && Legal(p, ops)
    ensures Partitioned(Run(p, ops))
    decreases |ops|
  {
    if ops != [] {
      RunPartitions(Apply(p, ops[0]), ops[1..]);
    }
  }

  function Destroys(ops: seq<Op>): nat {
    if ops == [] then 0 else (if ops[0].Destroy? then 1 else 0) + Destroys(ops[1..])
  }

  /**
   * pool_size counts every structure ever given back, up to fifty, and not the length of the
   * list: reusing one does not make room again.
   */
  lemma {:induction false} SizeCountsGivebacks(p: Pool, ops: seq<Op>)
    requires p.size <= MAX_POOL
    ensures Run(p, ops).size == if p.size + Destroys(ops) <= MAX_POOL then p.size + Destroys(ops) else MAX_POOL
    decreases |ops|
  {
    if ops != [] {
      SizeCountsGivebacks(Apply(p, ops[0]), ops[1..]);
    }
  }

  /** So once fifty have been given back, a structure given back is freed, even when the list is empty. */
  lemma PooledIff(ops: seq<Op>, s: nat)
    requires Legal(EMPTY, ops) && s in Run(EMPTY, ops).used
    ensures s in Give(Run(EMPTY, ops), s).free <==> Destroys(ops) < MAX_POOL
  {
    RunPartitions(EMPTY, ops);
    SizeCountsGivebacks(EMPTY, ops);
  }

  /** The list and its counter as the source's globals; structures are named by numbers. */
  class FreeList {
    var pool: seq<nat>
    var poolSize: nat
    ghost var state: Pool

    ghost predicate Valid()
      reads this
    {
      Partitioned(state) && pool == state.free && poolSize == state.size
    }

    constructor ()
      ensures Valid() && state == EMPTY
    {
      pool, poolSize, state := [], 0, EMPTY;
    }

    /** fresh stands for what malloc returns: a structure not made before. */
    method New(next: nat) returns (s: nat)
      requires Valid() && next == state.made
      modifies this
      ensures Valid() && (state, s) == Take(old(state))
    {
      state := Take(state).0;
      if pool == [] {
        s := next;
      } else {
        s := pool[0];
        pool := pool[1..];
      }
    }

    method Destroy(s: nat)
      requires Valid() && s in state.used
      modifies this
      ensures Valid() && state == Give(old(state), s)
    {
      state := Give(state, s);
      if poolSize < MAX_POOL {
        pool := [s] + pool;
        poolSize := poolSize + 1;
      }
    }
  }
}
