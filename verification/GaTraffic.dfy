/** What other transactions commit to the general-admission tables between two statements of one. */
module GaTraffic {
  import opened Collections
  import opened GaInventory

  datatype GaOp = Claims(id: nat, row: Reservation) | Releases(id: nat) | Confirms(id: nat)

  /** Whether the tables let the transaction commit. `spared` are rows nobody else can write, because
      they are locked or not inserted yet. */
  predicate Commits(t: GaTables, op: GaOp, spared: set<nat>) {
    && op.id !in spared
    && match op
       case Claims(r, row) =>
         Insertable(t, r, row) && row.matchId in t.pools && t.pools[row.matchId].available >= row.quantity
       case Releases(r) => IsLive(t, r) && t.rows[r].matchId in t.pools
       case Confirms(r) => IsLive(t, r)
  }

  /** The tables after the transaction, which leaves no trace if it does not commit. */
  function AfterOp(t: GaTables, op: GaOp, spared: set<nat>): GaTables {
    if !Commits(t, op, spared) then t
    else match op
         case Claims(r, row) => GaInventory.Claim(t, r, row)
         case Releases(r) => ReleaseGa(t, r)
         case Confirms(r) => ConfirmGa(t, r)
  }

  function AfterOps(t: GaTables, ops: seq<GaOp>, spared: set<nat>): GaTables
    decreases |ops|
  {
    if ops == [] then t else AfterOps(AfterOp(t, ops[0], spared), ops[1..], spared)
  }

  /** A pool is only ever written together with its version. */
  predicate PoolsEvolve(t: GaTables, t': GaTables) {
    && t'.pools.Keys == t.pools.Keys
    && forall m :: m in t.pools ==>
         t.pools[m].version <= t'.pools[m].version && (t.pools[m].version == t'.pools[m].version ==> t'.pools[m] == t.pools[m])
  }

  /** The pool of a match is as it was read: the version guard of an update would let it pass. */
  predicate PoolStill(t: GaTables, t': GaTables, m: nat) {
    m in t.pools && m in t'.pools && t'.pools[m].version == t.pools[m].version
  }

  predicate Spares(t: GaTables, t': GaTables, spared: set<nat>) {
    forall r :: r in spared ==> (r in t'.rows <==> r in t.rows) && (r in t.rows ==> t'.rows[r] == t.rows[r])
  }

  lemma OpKeeps(t: GaTables, op: GaOp, spared: set<nat>)
    requires GaInv(t)
    ensures GaInv(AfterOp(t, op, spared)) && GaEvolves(t, AfterOp(t, op, spared))
    ensures PoolsEvolve(t, AfterOp(t, op, spared)) && Spares(t, AfterOp(t, op, spared), spared)
  {
    if Commits(t, op, spared) {
      match op
      case Claims(r, row) => ClaimPreserves(t, Some(t.pools[row.matchId]), r, row);
      case Releases(r) => ReleaseGaPreserves(t, r);
      case Confirms(r) => ConfirmGaPreserves(t, r);
    }
  }

  /** Other transactions keep the books, never write a pool without moving its version, and leave
      the spared rows alone. */
  lemma {:induction false} OpsKeep(t: GaTables, ops: seq<GaOp>, spared: set<nat>)
    requires GaInv(t)
    ensures GaInv(AfterOps(t, ops, spared)) && GaEvolves(t, AfterOps(t, ops, spared))
    ensures PoolsEvolve(t, AfterOps(t, ops, spared)) && Spares(t, AfterOps(t, ops, spared), spared)
    decreases |ops|
  {
    if ops != [] {
      var u := AfterOp(t, ops[0], spared);
      OpKeeps(t, ops[0], spared);
      OpsKeep(u, ops[1..], spared);
      GaEvolvesTransitive(t, u, AfterOps(u, ops[1..], spared));
    }
  }
}
