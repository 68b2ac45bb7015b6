/** The general-admission pools and reservations: a counter per match guarded by a version column,
    written by claims and releases whose snapshots may be arbitrarily stale. */
module GaInventory {
  import opened Collections
  import opened SeatInventory

  datatype Pool = Pool(capacity: nat, available: int, version: nat)

  datatype Reservation = Reservation(matchId: nat, sessionId: string, key: string, quantity: int, status: HoldStatus,
                                     expiresAt: int)

  datatype GaTables = GaTables(pools: map<nat, Pool>, rows: map<nat, Reservation>)

  datatype ClaimOutcome = Claimed | Missing | Insufficient | Conflict

  // ---------- the transactions ----------

  /** How a claim ends, given the pool row it read earlier and the pools at write time. */
  function Outcome(pools: map<nat, Pool>, snapshot: Option<Pool>, matchId: nat, quantity: int): ClaimOutcome {
    if snapshot == None then Missing
    else if snapshot.value.available < quantity then Insufficient
    else if && matchId in pools
            && pools[matchId].version == snapshot.value.version
            && pools[matchId].available >= quantity
    then Claimed
    else Conflict
  }

  function PoolAfterClaim(pool: Pool, quantity: int): Pool {
    pool.(available := pool.available - quantity, version := pool.version + 1)
  }

  function PoolAfterRelease(pool: Pool, quantity: int): Pool {
    pool.(available := pool.available + quantity, version := pool.version + 1)
  }

  /** The row inserted with a successful claim meets the table's constraints. */
  predicate Insertable(t: GaTables, r: nat, row: Reservation) {
    && r !in t.rows
    && row.quantity >= 1
    && row.status == Active
    && forall q :: q in t.rows ==> t.rows[q].key != row.key
  }

  function Claim(t: GaTables, r: nat, row: Reservation): GaTables
    requires row.matchId in t.pools
  {
    GaTables(t.pools[row.matchId := PoolAfterClaim(t.pools[row.matchId], row.quantity)], t.rows[r := row])
  }

  predicate IsLive(t: GaTables, r: nat) {
    r in t.rows && t.rows[r].status == Active
  }

  /** The release returns the units only if the pool still has the version read earlier. */
  predicate Releasable(t: GaTables, r: nat, readVersion: nat) {
    && IsLive(t, r)
    && t.rows[r].matchId in t.pools
    && t.pools[t.rows[r].matchId].version == readVersion
  }

  function ReleaseGa(t: GaTables, r: nat): GaTables
    requires IsLive(t, r) && t.rows[r].matchId in t.pools
  {
    var row := t.rows[r];
    GaTables(t.pools[row.matchId := PoolAfterRelease(t.pools[row.matchId], row.quantity)],
             t.rows[r := row.(status := Expired)])
  }

  function ConfirmGa(t: GaTables, r: nat): GaTables
    requires r in t.rows
  {
    t.(rows := t.rows[r := t.rows[r].(status := Confirmed)])
  }

  // ---------- conservation ----------

  /** Units a row takes out of the pool of a match while it is active or confirmed. */
  function UnitsHeld(row: Reservation, m: nat): int {
    if row.matchId == m && (row.status == Active || row.status == Confirmed) then row.quantity else 0
  }

  function HeldMap(rows: map<nat, Reservation>, m: nat): map<nat, int> {
    map r | r in rows :: if r in rows then UnitsHeld(rows[r], m) else 0
  }

  /** Each row of a match is one successful claim on its pool, */
  function ClaimsOn(rows: map<nat, Reservation>, m: nat): set<nat> {
    set r | r in rows && rows[r].matchId == m
  }

  /** and each expired one is a successful release besides. */
  function ReleasesOn(rows: map<nat, Reservation>, m: nat): set<nat> {
    set r | r in rows && rows[r].matchId == m && rows[r].status == Expired
  }

  ghost function UnitsOut(t: GaTables, m: nat): int {
    Total(HeldMap(t.rows, m))
  }

  ghost predicate PoolOk(t: GaTables, m: nat)
    requires m in t.pools
  {
    && t.pools[m].available >= 0
    && t.pools[m].available + UnitsOut(t, m) == t.pools[m].capacity
    && t.pools[m].version == 1 + |ClaimsOn(t.rows, m)| + |ReleasesOn(t.rows, m)|
  }

  predicate RowOk(t: GaTables, row: Reservation) {
    row.matchId in t.pools && row.quantity >= 1 && row.status != Released
  }

  ghost predicate GaInv(t: GaTables) {
    && (forall r :: r in t.rows ==> RowOk(t, t.rows[r]))
    && (forall m {:trigger PoolOk(t, m)} :: m in t.pools ==> PoolOk(t, m))
    && UniqueKeys(t.rows)
  }

  predicate UniqueKeys(rows: map<nat, Reservation>) {
    forall p, q {:trigger Pair(p, q)} :: Pair(p, q) && p in rows && q in rows && rows[p].key == rows[q].key ==> p == q
  }

  lemma WriteRow(rows: map<nat, Reservation>, r: nat, row: Reservation, m: nat)
    ensures Total(HeldMap(rows[r := row], m))
         == Total(HeldMap(rows, m)) - (if r in rows then UnitsHeld(rows[r], m) else 0) + UnitsHeld(row, m)
  {
    TotalPut(HeldMap(rows, m), r, UnitsHeld(row, m));
    assert HeldMap(rows[r := row], m) == HeldMap(rows, m)[r := UnitsHeld(row, m)];
  }

  lemma CountClaim(rows: map<nat, Reservation>, r: nat, row: Reservation, m: nat)
    requires r in rows ==> rows[r].matchId == row.matchId
    ensures ClaimsOn(rows[r := row], m) == ClaimsOn(rows, m) + if row.matchId == m then {r} else {}
  {
  }

  lemma CountRelease(rows: map<nat, Reservation>, r: nat, row: Reservation, m: nat)
    requires r in rows ==> rows[r].status != Expired
    ensures ReleasesOn(rows[r := row], m)
         == ReleasesOn(rows, m) + if row.matchId == m && row.status == Expired then {r} else {}
  {
  }

  lemma VersionAfter(rows: map<nat, Reservation>, r: nat, row: Reservation, m: nat)
    requires r in rows ==> rows[r].matchId == row.matchId && rows[r].status == Active
    ensures |ClaimsOn(rows[r := row], m)| + |ReleasesOn(rows[r := row], m)|
         == |ClaimsOn(rows, m)| + |ReleasesOn(rows, m)| + if row.matchId != m then 0 else
              (if r in rows then 0 else 1) + (if row.status == Expired then 1 else 0)
  {
    CountClaim(rows, r, row, m);
    CountRelease(rows, r, row, m);
    assert r in ClaimsOn(rows, m) <==> r in rows && row.matchId == m;
  }

  lemma PoolAfterClaiming(t: GaTables, r: nat, row: Reservation, m: nat)
    requires m in t.pools && row.matchId in t.pools && PoolOk(t, m) && r !in t.rows && row.status == Active
    requires t.pools[row.matchId].available >= row.quantity
    ensures PoolOk(Claim(t, r, row), m)
  {
    WriteRow(t.rows, r, row, m);
    VersionAfter(t.rows, r, row, m);
  }

  /** A claim against any snapshot whatever keeps the books. */
  lemma ClaimPreserves(t: GaTables, snapshot: Option<Pool>, r: nat, row: Reservation)
    requires GaInv(t) && Insertable(t, r, row)
    requires Outcome(t.pools, snapshot, row.matchId, row.quantity) == Claimed
    ensures GaInv(Claim(t, r, row))
  {
    forall m | m in t.pools ensures PoolOk(Claim(t, r, row), m) {
      PoolAfterClaiming(t, r, row, m);
    }
  }

  /** Settling one active row, with the pool of its match brought in line. */
  lemma PoolAfterSettling(t: GaTables, t': GaTables, r: nat, m: nat)
    requires m in t.pools && PoolOk(t, m) && IsLive(t, r) && m in t'.pools && t.rows[r].quantity >= 0
    requires t' == ConfirmGa(t, r) || (t.rows[r].matchId in t.pools && t' == ReleaseGa(t, r))
    ensures PoolOk(t', m)
  {
    WriteRow(t.rows, r, t'.rows[r], m);
    VersionAfter(t.rows, r, t'.rows[r], m);
  }

  lemma ReleaseGaPreserves(t: GaTables, r: nat)
    requires GaInv(t) && IsLive(t, r)
    ensures GaInv(ReleaseGa(t, r))
  {
    var t' := ReleaseGa(t, r);
    assert RowOk(t, t.rows[r]);
    forall m | m in t'.pools ensures PoolOk(t', m) {
      PoolAfterSettling(t, t', r, m);
    }
    forall q | q in t'.rows ensures RowOk(t', t'.rows[q]) {
      assert RowOk(t, t.rows[q]);
    }
  }

  lemma ConfirmGaPreserves(t: GaTables, r: nat)
    requires GaInv(t) && IsLive(t, r)
    ensures GaInv(ConfirmGa(t, r))
  {
    var t' := ConfirmGa(t, r);
    assert RowOk(t, t.rows[r]);
    forall m | m in t'.pools ensures PoolOk(t', m) {
      PoolAfterSettling(t, t', r, m);
    }
    forall q | q in t'.rows ensures RowOk(t', t'.rows[q]) {
      assert RowOk(t, t.rows[q]);
    }
  }

  /** Conservation implies the two CHECK constraints of the table. */
  lemma ChecksHold(t: GaTables, m: nat)
    requires GaInv(t) && m in t.pools
    ensures 0 <= t.pools[m].available <= t.pools[m].capacity
    ensures t.pools[m].version >= 1
  {
    assert PoolOk(t, m);
    assert forall q :: q in t.rows ==> RowOk(t, t.rows[q]);
    TotalNonNegative(HeldMap(t.rows, m));
  }

  // ---------- how the tables evolve ----------

  predicate RowEvolves(a: Reservation, b: Reservation) {
    b == a.(status := b.status) && (a.status != Active ==> b == a)
  }

  predicate GaEvolves(t: GaTables, t': GaTables) {
    && (forall r :: r in t.rows ==> r in t'.rows && RowEvolves(t.rows[r], t'.rows[r]))
    && (forall m :: m in t.pools ==>
          m in t'.pools && t.pools[m].capacity == t'.pools[m].capacity && t.pools[m].version <= t'.pools[m].version)
  }

  lemma GaEvolvesTransitive(t: GaTables, u: GaTables, v: GaTables)
    requires GaEvolves(t, u) && GaEvolves(u, v)
    ensures GaEvolves(t, v)
  {
    forall r | r in t.rows ensures r in v.rows && RowEvolves(t.rows[r], v.rows[r]) {
      assert RowEvolves(t.rows[r], u.rows[r]) && RowEvolves(u.rows[r], v.rows[r]);
    }
  }

  /** The confirm reads the row while it is ACTIVE at `t` and writes it at `t'` without looking again. If
      it has expired in between, its units are back in the pool and the write sells them a second time;
      in every other case the books stay balanced. */
  lemma ConfirmGaLinearisesIff(t: GaTables, t': GaTables, r: nat)
    requires GaInv(t') && GaEvolves(t, t') && IsLive(t, r)
    ensures r in t'.rows && (GaInv(ConfirmGa(t', r)) <==> t'.rows[r].status != Expired)
  {
    assert RowEvolves(t.rows[r], t'.rows[r]) && RowOk(t', t'.rows[r]);
    var after, row, m := ConfirmGa(t', r), t'.rows[r], t'.rows[r].matchId;
    if row.status == Active {
      ConfirmGaPreserves(t', r);
    } else if row.status == Confirmed {
      assert after == t';
    } else {
      WriteRow(t'.rows, r, row.(status := Confirmed), m);
      assert PoolOk(t', m);
      assert !PoolOk(after, m);
    }
  }
}
