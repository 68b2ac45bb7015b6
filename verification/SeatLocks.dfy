/** Seat locks: one key per seat, taken with SET NX in increasing seat order, given back by
    compare-and-delete. A call that meets a taken seat fails at once and gives back what it took. */
module SeatLocks {
  import opened Collections

  datatype LockKey = LockKey(matchId: nat, seatId: nat)

  /** The locks a successful call adds. */
  predicate AllFree(locks: map<LockKey, nat>, matchId: nat, ids: set<nat>) {
    forall i :: i in ids ==> LockKey(matchId, i) !in locks
  }

  /** `locks` with every seat of `ids` held by `token`. */
  ghost predicate LockedFor(locks: map<LockKey, nat>, before: map<LockKey, nat>, matchId: nat, ids: set<nat>, token: nat) {
    && (forall k :: k in locks <==> k in before || (k.matchId == matchId && k.seatId in ids))
    && (forall k :: k in locks ==>
          locks[k] == if k.matchId == matchId && k.seatId in ids then token else before[k])
  }

  /** Locks with the given seats' locks gone where `token` owns them. */
  function WithoutOwned(locks: map<LockKey, nat>, matchId: nat, ids: set<nat>, token: nat): map<LockKey, nat> {
    locks - (set k | k in locks && k.matchId == matchId && k.seatId in ids && locks[k] == token)
  }

  /** Taking one more free seat. */
  lemma LockOneMore(locks: map<LockKey, nat>, before: map<LockKey, nat>, matchId: nat, ids: set<nat>, i: nat, token: nat)
    requires LockedFor(locks, before, matchId, ids, token) && AllFree(before, matchId, ids) && i !in ids
    ensures LockKey(matchId, i) in locks <==> LockKey(matchId, i) in before
    ensures LockKey(matchId, i) !in locks ==>
              LockedFor(locks[LockKey(matchId, i) := token], before, matchId, ids + {i}, token)
              && AllFree(before, matchId, ids + {i})
  {
  }

  /** Giving back exactly what was taken restores the table. */
  lemma GiveBack(locks: map<LockKey, nat>, before: map<LockKey, nat>, matchId: nat, ids: set<nat>, token: nat)
    requires LockedFor(locks, before, matchId, ids, token) && AllFree(before, matchId, ids)
    ensures WithoutOwned(locks, matchId, ids, token) == before
  {
    forall k | k in before ensures !(k.matchId == matchId && k.seatId in ids) {
      assert k == LockKey(k.matchId, k.seatId);
    }
  }

  /** The keys of the first `n` seats of a plan. */
  function KeysOf(matchId: nat, plan: seq<nat>, n: nat): (keys: seq<LockKey>)
    requires n <= |plan|
    ensures |keys| == n
  {
    if n == 0 then [] else KeysOf(matchId, plan, n - 1) + [LockKey(matchId, plan[n - 1])]
  }

  /** How many locks are asked for once `n` were free: all, or up to the first that is taken. */
  function Tried(locks: map<LockKey, nat>, matchId: nat, plan: seq<nat>, n: nat): (tried: nat)
    requires n <= |plan|
    ensures n <= tried <= |plan| && (n < |plan| ==> n < tried)
    decreases |plan| - n
  {
    if n == |plan| then n
    else if LockKey(matchId, plan[n]) in locks then n + 1
    else Tried(locks, matchId, plan, n + 1)
  }

  lemma OneKeyMore(was: seq<LockKey>, matchId: nat, plan: seq<nat>, n: nat)
    requires n < |plan|
    ensures was + KeysOf(matchId, plan, n) + [LockKey(matchId, plan[n])] == was + KeysOf(matchId, plan, n + 1)
  {
  }

  lemma {:induction false} KeyAt(matchId: nat, plan: seq<nat>, n: nat, k: nat)
    requires k < n <= |plan|
    ensures KeysOf(matchId, plan, n)[k] == LockKey(matchId, plan[k])
  {
    if k < n - 1 {
      KeyAt(matchId, plan, n - 1, k);
    }
  }

  lemma {:induction false} TriedFree(locks: map<LockKey, nat>, matchId: nat, plan: seq<nat>, n: nat, k: nat)
    requires n <= k < |plan|
    ensures k + 1 < Tried(locks, matchId, plan, n) ==> LockKey(matchId, plan[k]) !in locks
    ensures k + 1 == Tried(locks, matchId, plan, n) < |plan| ==> LockKey(matchId, plan[k]) in locks
    decreases |plan| - n
  {
    if LockKey(matchId, plan[n]) !in locks && n + 1 <= k {
      TriedFree(locks, matchId, plan, n + 1, k);
    }
  }

  /** The keys one call asks for. */
  function Asks(locks: map<LockKey, nat>, matchId: nat, seatIds: seq<nat>): seq<LockKey> {
    var plan := Sorted(Elements(seatIds));
    KeysOf(matchId, plan, Tried(locks, matchId, plan, 0))
  }

  /** The locks of one call are asked for in strictly increasing seat order, each at most once, up to the
      first that is taken. */
  lemma AskedUpwards(locks: map<LockKey, nat>, matchId: nat, seatIds: seq<nat>, asked: seq<LockKey>)
    requires asked == Asks(locks, matchId, seatIds)
    ensures forall a, b :: 0 <= a < b < |asked| ==> asked[a].seatId < asked[b].seatId
    ensures forall a :: 0 <= a < |asked| ==> asked[a].matchId == matchId && asked[a].seatId in seatIds
    ensures forall a :: 0 <= a < |asked| - 1 ==> asked[a] !in locks
    ensures |asked| < |Elements(seatIds)| ==> |asked| > 0 && asked[|asked| - 1] in locks
  {
    var plan := Sorted(Elements(seatIds));
    forall a | 0 <= a < |asked| ensures asked[a] == LockKey(matchId, plan[a]) && plan[a] in Elements(plan) {
      KeyAt(matchId, plan, |asked|, a);
    }
    forall a | 0 <= a < |asked| - 1 ensures asked[a] !in locks {
      TriedFree(locks, matchId, plan, 0, a);
    }
    if |asked| < |plan| {
      TriedFree(locks, matchId, plan, 0, |asked| - 1);
    }
  }

  class SeatLockGate {
    var locks: map<LockKey, nat>
    ghost var asked: seq<LockKey>      // every key a SET NX was sent for, in order

    constructor ()
      ensures locks == map[] && asked == []
    {
      locks := map[];
      asked := [];
    }

    /** SET key token NX. */
    method Acquire(matchId: nat, seatId: nat, token: nat) returns (ok: bool)
      modifies this
      ensures ok <==> LockKey(matchId, seatId) !in old(locks)
      ensures locks == if ok then old(locks)[LockKey(matchId, seatId) := token] else old(locks)
      ensures asked == old(asked) + [LockKey(matchId, seatId)]
    {
      asked := asked + [LockKey(matchId, seatId)];
      ok := LockKey(matchId, seatId) !in locks;
      if ok { locks := locks[LockKey(matchId, seatId) := token]; }
    }

    /** Compare and delete. */
    method Release(matchId: nat, seatId: nat, token: nat)
      modifies this`locks
      ensures locks == WithoutOwned(old(locks), matchId, {seatId}, token)
    {
      var k := LockKey(matchId, seatId);
      if k in locks && locks[k] == token {
        locks := locks - {k};
      }
    }

    method ReleaseAll(matchId: nat, seatIds: seq<nat>, token: nat)
      modifies this`locks
      ensures locks == WithoutOwned(old(locks), matchId, Elements(seatIds), token)
    {
      var n := 0;
      while n < |seatIds|
        invariant n <= |seatIds|
        invariant locks == WithoutOwned(old(locks), matchId, Elements(seatIds[..n]), token)
      {
        Release(matchId, seatIds[n], token);
        n := n + 1;
      }
      assert seatIds[..n] == seatIds;
    }

    /** All or nothing: every distinct seat in increasing order, or no change at all, whatever the
        lock table held before. The locks are asked for in strictly increasing seat order, up to the
        first that is taken. */
    method AcquireAll(matchId: nat, seatIds: seq<nat>, token: nat) returns (acquired: seq<nat>)
      modifies this
      ensures acquired == if AllFree(old(locks), matchId, Elements(seatIds)) then Sorted(Elements(seatIds)) else []
      ensures AllFree(old(locks), matchId, Elements(seatIds)) ==>
                LockedFor(locks, old(locks), matchId, Elements(seatIds), token)
      ensures !AllFree(old(locks), matchId, Elements(seatIds)) ==> locks == old(locks)
      ensures asked == old(asked) + Asks(old(locks), matchId, seatIds)
    {
      acquired := AcquireInOrder(matchId, Sorted(Elements(seatIds)), token);
    }

    method AcquireInOrder(matchId: nat, ordered: seq<nat>, token: nat) returns (acquired: seq<nat>)
      requires Increasing(ordered)
      modifies this
      ensures acquired == if AllFree(old(locks), matchId, Elements(ordered)) then ordered else []
      ensures AllFree(old(locks), matchId, Elements(ordered)) ==>
                LockedFor(locks, old(locks), matchId, Elements(ordered), token)
      ensures !AllFree(old(locks), matchId, Elements(ordered)) ==> locks == old(locks)
      ensures asked == old(asked) + KeysOf(matchId, ordered, Tried(old(locks), matchId, ordered, 0))
    {
      acquired := [];
      for n := 0 to |ordered|
        invariant acquired == ordered[..n]
        invariant AllFree(old(locks), matchId, Elements(ordered[..n]))
        invariant LockedFor(locks, old(locks), matchId, Elements(ordered[..n]), token)
        invariant asked == old(asked) + KeysOf(matchId, ordered, n)
        invariant Tried(old(locks), matchId, ordered, 0) == Tried(old(locks), matchId, ordered, n)
      {
        PrefixStep(ordered, n);
        LockOneMore(locks, old(locks), matchId, Elements(ordered[..n]), ordered[n], token);
        OneKeyMore(old(asked), matchId, ordered, n);
        var ok := Acquire(matchId, ordered[n], token);
        if !ok {
          GiveBack(locks, old(locks), matchId, Elements(acquired), token);
          ReleaseAll(matchId, acquired, token);
          return [];
        }
        acquired := acquired + [ordered[n]];
      }
      assert ordered[..|ordered|] == ordered;
    }
  }
}
