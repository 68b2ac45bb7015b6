/** How long an overdue reservation waits for the worker. The batch of a pass is filled in id order before
    shields are looked at, so shielded reservations keep their places in it pass after pass. */
module Backlog {
  import opened Collections
  import opened SeatInventory
  import opened GaInventory
  import opened OrderLife
  import opened Booking
  import opened Expiry
  import opened Worker

  // ---------- passes, on the ids alone ----------

  /** What a pass leaves of the unlocked overdue ids: the shielded ones, and those with a whole batch of
      ids ahead of them. */
  function Left(ids: set<nat>, shielded: set<nat>, n: nat): set<nat> {
    set h | h in ids && (h in shielded || |InFront(ids, h)| >= n)
  }

  function LeftAfter(ids: set<nat>, shielded: set<nat>, n: nat, k: nat): set<nat>
  {
    if k == 0 then ids else Left(LeftAfter(ids, shielded, n, k - 1), shielded, n)
  }

  function ShieldedAhead(ids: set<nat>, shielded: set<nat>, h: nat): set<nat> {
    InFront(ids, h) * shielded
  }

  function OthersAhead(ids: set<nat>, shielded: set<nat>, h: nat): set<nat> {
    InFront(ids, h) - shielded
  }

  lemma {:induction false} SubsetSize(a: set<nat>, b: set<nat>)
    requires a <= b
    ensures |a| <= |b| && |b - a| == |b| - |a|
    decreases |a|
  {
    if a != {} {
      var x :| x in a;
      SubsetSize(a - {x}, b - {x});
      assert b - {x} - (a - {x}) == b - a;
    }
  }

  /** With a batch of ids ahead of one, exactly a batch of them is in the first batch. */
  lemma FullBatch(ids: set<nat>, n: nat, h: nat) returns (batch: set<nat>)
    requires h in ids && |InFront(ids, h)| >= n
    ensures |batch| == n && batch <= InFront(ids, h)
    ensures forall g :: g in batch <==> g in ids && |InFront(ids, g)| < n
  {
    var all := Sorted(ids);
    assert h in Elements(all);
    FrontSize(ids, all, h, n);
    FrontIsPrefix(all, n);
    batch := InFront(ids, all[n]);
    forall g | g in ids ensures |InFront(ids, g)| < n <==> g < all[n] {
      FrontSize(ids, all, g, n);
    }
  }

  lemma FrontSize(ids: set<nat>, all: seq<nat>, g: nat, n: nat)
    requires Increasing(all) && Elements(all) == ids && g in ids
    ensures |InFront(ids, g)| < n <==> (n < |all| ==> g < all[n])
  {
    assert g in Elements(all);
    var i :| 0 <= i < |all| && all[i] == g;
    FrontIsPrefix(all, i);
  }

  /** The shielded ids ahead of an id stay where they are. */
  lemma ShieldedStay(ids: set<nat>, shielded: set<nat>, n: nat, h: nat)
    ensures ShieldedAhead(Left(ids, shielded, n), shielded, h) == ShieldedAhead(ids, shielded, h)
  {
  }

  /** A pass that leaves an unshielded id behind expires at least a batch less the shielded ids ahead of it. */
  lemma OnePass(ids: set<nat>, shielded: set<nat>, n: nat, h: nat, s: nat, u: nat)
    requires h in ids && h !in shielded && |InFront(ids, h)| >= n
    requires s == |ShieldedAhead(ids, shielded, h)| && u == |OthersAhead(ids, shielded, h)|
    ensures |OthersAhead(Left(ids, shielded, n), shielded, h)| <= u - (n - s)
  {
    var batch := FullBatch(ids, n, h);
    var gone := batch - shielded;
    SubsetSize(batch * shielded, ShieldedAhead(ids, shielded, h));
    SubsetSize(batch * shielded, batch);
    assert batch - batch * shielded == gone;
    SubsetSize(gone, OthersAhead(ids, shielded, h));
    OthersGo(ids, shielded, n, h, batch);
  }

  lemma OthersGo(ids: set<nat>, shielded: set<nat>, n: nat, h: nat, batch: set<nat>)
    requires forall g :: g in batch <==> g in ids && |InFront(ids, g)| < n
    ensures OthersAhead(Left(ids, shielded, n), shielded, h) == OthersAhead(ids, shielded, h) - (batch - shielded)
  {
  }

  lemma {:induction false} LeftShrinks(ids: set<nat>, shielded: set<nat>, n: nat, k: nat)
    ensures LeftAfter(ids, shielded, n, k) <= ids
    ensures ids * shielded <= LeftAfter(ids, shielded, n, k)
  {
    if k > 0 {
      LeftShrinks(ids, shielded, n, k - 1);
    }
  }

  /** With a batch full of shielded ids ahead nothing ever happens to an id; otherwise it is gone once the
      places they leave have been enough for everybody ahead of it. */
  lemma {:induction false} Waits(ids: set<nat>, shielded: set<nat>, n: nat, h: nat, s: nat, u: nat, k: nat)
    requires h in ids && h !in shielded
    requires s == |ShieldedAhead(ids, shielded, h)| && u == |OthersAhead(ids, shielded, h)|
    ensures ShieldedAhead(LeftAfter(ids, shielded, n, k), shielded, h) == ShieldedAhead(ids, shielded, h)
    ensures s >= n ==> h in LeftAfter(ids, shielded, n, k)
    ensures s < n && h in LeftAfter(ids, shielded, n, k) ==>
              |OthersAhead(LeftAfter(ids, shielded, n, k), shielded, h)| <= u - k * (n - s)
  {
    if k > 0 {
      var left := LeftAfter(ids, shielded, n, k - 1);
      Waits(ids, shielded, n, h, s, u, k - 1);
      ShieldedStay(left, shielded, n, h);
      if h in left {
        SubsetSize(ShieldedAhead(left, shielded, h), InFront(left, h));
        if |InFront(left, h)| >= n {
          OnePass(left, shielded, n, h, s, |OthersAhead(left, shielded, h)|);
          assert k * (n - s) == (k - 1) * (n - s) + (n - s);
        }
      }
    }
  }

  lemma GoneAfter(ids: set<nat>, shielded: set<nat>, n: nat, h: nat, s: nat, u: nat, k: nat, places: nat)
    requires h in ids && h !in shielded
    requires s == |ShieldedAhead(ids, shielded, h)| && u == |OthersAhead(ids, shielded, h)|
    requires n == s + places && k * places > u
    ensures h !in LeftAfter(ids, shielded, n, k)
  {
    Waits(ids, shielded, n, h, s, u, k);
  }

  lemma EnoughPasses(u: nat, places: nat, k: nat)
    requires places > 0 && k == u + 1
    ensures k * places > u
  {
  }

  lemma Stays(ids: set<nat>, shielded: set<nat>, n: nat, h: nat, k: nat)
    requires h in ids && (h in shielded || |ShieldedAhead(ids, shielded, h)| >= n)
    ensures h in LeftAfter(ids, shielded, n, k)
  {
    LeftShrinks(ids, shielded, n, k);
    if h !in shielded {
      Waits(ids, shielded, n, h, |ShieldedAhead(ids, shielded, h)|, |OthersAhead(ids, shielded, h)|, k);
    }
  }

  // ---------- passes of the worker ----------

  /** `next` is what the pass makes of the tables; a quantifier, so that it is looked into only where the
      result of the pass is spoken of. */
  ghost predicate Makes(db: Tables, p: Pass, next: Tables) {
    forall q {:trigger PassResult(db, q)} :: q == p ==> next == PassResult(db, q)
  }

  /** The tables at the start and after each of some passes, with nobody else writing. */
  ghost predicate Trail(dbs: seq<Tables>, p: Pass) {
    && |dbs| > 0
    && forall i: nat, j: nat {:trigger Pair(i, j)} :: Pair(i, j) && j == i + 1 && j < |dbs| ==> Makes(dbs[i], p, dbs[j])
  }

  lemma OnePassOn(dbs: seq<Tables>, p: Pass, last: Tables, next: Tables)
    requires Trail(dbs, p) && last == dbs[|dbs| - 1] && Makes(last, p, next)
    ensures Trail(dbs + [next], p)
  {
    var longer := dbs + [next];
    forall i: nat, j: nat | Pair(i, j) && j == i + 1 && j < |longer| ensures Makes(longer[i], p, longer[j]) {
      if j < |dbs| {
        assert Pair(i, j);
        SameMakes(dbs[i], p, dbs[j], longer[i], longer[j]);
      } else {
        SameMakes(last, p, next, longer[i], longer[j]);
      }
    }
  }

  lemma SameMakes(db: Tables, p: Pass, next: Tables, db': Tables, next': Tables)
    requires Makes(db, p, next) && db' == db && next' == next
    ensures Makes(db', p, next')
  {
  }

  lemma {:induction false} MakeTrail(db: Tables, p: Pass, k: nat) returns (dbs: seq<Tables>)
    ensures Trail(dbs, p) && |dbs| == k + 1 && dbs[0] == db
  {
    dbs := [db];
    if k > 0 {
      dbs := MakeTrail(db, p, k - 1);
      var last := dbs[k - 1];
      var next := ResultOfPass(last, p);
      OnePassOn(dbs, p, last, next);
      dbs := dbs + [next];
    }
  }

  lemma ResultOfPass(db: Tables, p: Pass) returns (next: Tables)
    ensures Makes(db, p, next)
  {
    next := PassResult(db, p);
  }

  /** The overdue ids a pass can reach. */
  function OpenHolds(db: Tables, p: Pass): set<nat> {
    DueHolds(db.seat, p.now) - p.lockedHolds
  }

  function OpenReservations(db: Tables, p: Pass): set<nat> {
    DueReservations(db.ga, p.now) - p.lockedRows
  }

  function ShieldedHolds(db: Tables, p: Pass): set<nat> {
    set h | h in OpenHolds(db, p) && HasCapturedPayment(db, SeatClaim(h))
  }

  function ShieldedReservations(db: Tables, p: Pass): set<nat> {
    set r | r in OpenReservations(db, p) && HasCapturedPayment(db, GaClaim(r))
  }

  /** `shielded` tells the shielded holds among those ids. */
  predicate TellsHolds(db: Tables, p: Pass, shielded: set<nat>) {
    forall h :: h in OpenHolds(db, p) ==> (h in shielded <==> HasCapturedPayment(db, SeatClaim(h)))
  }

  predicate TellsReservations(db: Tables, p: Pass, shielded: set<nat>) {
    forall r :: r in OpenReservations(db, p) ==> (r in shielded <==> HasCapturedPayment(db, GaClaim(r)))
  }

  predicate KeepsDeadlines(t: SeatTables, t': SeatTables) {
    forall h :: h in t.holds ==>
      && h in t'.holds && t'.holds[h].expiresAt == t.holds[h].expiresAt
      && (t'.holds[h].status == t.holds[h].status || t'.holds[h].status == HoldStatus.Expired)
  }

  predicate KeepsRowDeadlines(t: GaTables, t': GaTables) {
    forall r :: r in t.rows ==>
      && r in t'.rows && t'.rows[r].expiresAt == t.rows[r].expiresAt
      && (t'.rows[r].status == t.rows[r].status || t'.rows[r].status == HoldStatus.Expired)
  }

  /** The unlocked overdue ids with less than a batch ahead of them. */
  ghost predicate IsBatch(ids: set<nat>, n: nat, batch: set<nat>) {
    forall h :: h in batch <==> h in ids && |InFront(ids, h)| < n
  }

  lemma HoldBatchIs(db: Tables, p: Pass)
    ensures IsBatch(OpenHolds(db, p), p.batchSize, Elements(HoldBatch(db, p)))
  {
    forall h | h in OpenHolds(db, p)
      ensures h in Elements(HoldBatch(db, p)) <==> |InFront(OpenHolds(db, p), h)| < p.batchSize
    {
      InBatchIff(DueHolds(db.seat, p.now), p.lockedHolds, p.batchSize, h);
    }
  }

  lemma RowBatchIs(db: Tables, p: Pass)
    ensures IsBatch(OpenReservations(db, p), p.batchSize, Elements(RowBatch(db, p)))
  {
    forall r | r in OpenReservations(db, p)
      ensures r in Elements(RowBatch(db, p)) <==> |InFront(OpenReservations(db, p), r)| < p.batchSize
    {
      InBatchIff(DueReservations(db.ga, p.now), p.lockedRows, p.batchSize, r);
    }
  }

  lemma ExpiredAre(t: SeatTables, hs: set<nat>, h: nat)
    requires h in t.holds
    ensures h in ExpireAll(t, hs).holds && ExpireAll(t, hs).holds[h].expiresAt == t.holds[h].expiresAt
    ensures ExpireAll(t, hs).holds[h].status == t.holds[h].status || ExpireAll(t, hs).holds[h].status == HoldStatus.Expired
    ensures IsActive(ExpireAll(t, hs), h) <==> IsActive(t, h) && h !in hs
  {
  }

  lemma HoldsLeft(db: Tables, p: Pass, shielded: set<nat>, batch: set<nat>, next: Tables)
    requires TellsHolds(db, p, shielded) && IsBatch(OpenHolds(db, p), p.batchSize, batch)
    requires next.orders == db.orders && next.payments == db.payments
    requires next.seat == ExpireAll(db.seat, UnshieldedHolds(db, batch))
    ensures OpenHolds(next, p) == Left(OpenHolds(db, p), shielded, p.batchSize)
    ensures TellsHolds(next, p, shielded) && KeepsDeadlines(db.seat, next.seat)
  {
    assert next.seat.holds.Keys == db.seat.holds.Keys;
    forall h | h in db.seat.holds
      ensures h in next.seat.holds && next.seat.holds[h].expiresAt == db.seat.holds[h].expiresAt
      ensures next.seat.holds[h].status == db.seat.holds[h].status || next.seat.holds[h].status == HoldStatus.Expired
      ensures h in OpenHolds(next, p) <==> h in Left(OpenHolds(db, p), shielded, p.batchSize)
    {
      ExpiredAre(db.seat, UnshieldedHolds(db, batch), h);
    }
    forall h | h in OpenHolds(next, p) ensures h in shielded <==> HasCapturedPayment(next, SeatClaim(h)) {
      SameShield(db, next, SeatClaim(h));
    }
  }

  lemma HoldPass(db: Tables, p: Pass, shielded: set<nat>, next: Tables)
    requires TellsHolds(db, p, shielded) && next == PassResult(db, p)
    ensures OpenHolds(next, p) == Left(OpenHolds(db, p), shielded, p.batchSize)
    ensures TellsHolds(next, p, shielded) && KeepsDeadlines(db.seat, next.seat)
  {
    HoldBatchIs(db, p);
    HoldsLeft(db, p, shielded, Elements(HoldBatch(db, p)), next);
  }

  lemma {:induction false} HoldPasses(dbs: seq<Tables>, p: Pass, shielded: set<nat>, k: nat)
    requires Trail(dbs, p) && k < |dbs| && TellsHolds(dbs[0], p, shielded)
    ensures OpenHolds(dbs[k], p) == LeftAfter(OpenHolds(dbs[0], p), shielded, p.batchSize, k)
    ensures TellsHolds(dbs[k], p, shielded) && KeepsDeadlines(dbs[0].seat, dbs[k].seat)
  {
    if k > 0 {
      var j: nat := k - 1;
      HoldPasses(dbs, p, shielded, j);
      HoldPassAt(dbs, p, shielded, j, k);
      OneHoldPassMore(dbs[0], dbs[j], dbs[k], p, shielded, j, k);
    }
  }

  lemma HoldPassAt(dbs: seq<Tables>, p: Pass, shielded: set<nat>, j: nat, k: nat)
    requires Trail(dbs, p) && k == j + 1 < |dbs| && TellsHolds(dbs[j], p, shielded)
    ensures OpenHolds(dbs[k], p) == Left(OpenHolds(dbs[j], p), shielded, p.batchSize)
    ensures TellsHolds(dbs[k], p, shielded) && KeepsDeadlines(dbs[j].seat, dbs[k].seat)
  {
    assert Pair(j, k);
    HoldPass(dbs[j], p, shielded, dbs[k]);
  }

  lemma OneHoldPassMore(db: Tables, before: Tables, after: Tables, p: Pass, shielded: set<nat>, j: nat, k: nat)
    requires k == j + 1 && OpenHolds(before, p) == LeftAfter(OpenHolds(db, p), shielded, p.batchSize, j)
    requires OpenHolds(after, p) == Left(OpenHolds(before, p), shielded, p.batchSize)
    requires KeepsDeadlines(db.seat, before.seat) && KeepsDeadlines(before.seat, after.seat)
    ensures OpenHolds(after, p) == LeftAfter(OpenHolds(db, p), shielded, p.batchSize, k)
    ensures KeepsDeadlines(db.seat, after.seat)
  {
  }

  lemma HoldStillOpen(db: Tables, db': Tables, p: Pass, h: nat)
    requires KeepsDeadlines(db.seat, db'.seat) && h in OpenHolds(db, p)
    ensures h in OpenHolds(db', p) <==> IsActive(db'.seat, h)
    ensures h in db'.seat.holds && (IsActive(db'.seat, h) || db'.seat.holds[h].status == HoldStatus.Expired)
  {
  }

  lemma HoldStays(dbs: seq<Tables>, p: Pass, h: nat, k: nat)
    requires Trail(dbs, p) && k < |dbs| && h in OpenHolds(dbs[0], p)
    requires HasCapturedPayment(dbs[0], SeatClaim(h))
             || |ShieldedAhead(OpenHolds(dbs[0], p), ShieldedHolds(dbs[0], p), h)| >= p.batchSize
    ensures IsActive(dbs[k].seat, h)
  {
    HoldPasses(dbs, p, ShieldedHolds(dbs[0], p), k);
    HoldStillOpen(dbs[0], dbs[k], p, h);
    Stays(OpenHolds(dbs[0], p), ShieldedHolds(dbs[0], p), p.batchSize, h, k);
  }

  /** An unshielded overdue hold is gone after k passes, as soon as k times the places that the shielded
      holds leave in a batch is more than the unshielded holds ahead of it. */
  lemma HoldGoneAfter(dbs: seq<Tables>, p: Pass, h: nat, k: nat, s: nat, u: nat, places: nat)
    requires Trail(dbs, p) && k < |dbs|
    requires h in OpenHolds(dbs[0], p) && !HasCapturedPayment(dbs[0], SeatClaim(h))
    requires s == |ShieldedAhead(OpenHolds(dbs[0], p), ShieldedHolds(dbs[0], p), h)|
    requires u == |OthersAhead(OpenHolds(dbs[0], p), ShieldedHolds(dbs[0], p), h)|
    requires p.batchSize == s + places && k * places > u
    ensures h in dbs[k].seat.holds && dbs[k].seat.holds[h].status == HoldStatus.Expired
  {
    HoldPasses(dbs, p, ShieldedHolds(dbs[0], p), k);
    HoldStillOpen(dbs[0], dbs[k], p, h);
    GoneAfter(OpenHolds(dbs[0], p), ShieldedHolds(dbs[0], p), p.batchSize, h, s, u, k, places);
  }

  lemma HoldGoes(db: Tables, p: Pass, h: nat) returns (dbs: seq<Tables>)
    requires h in OpenHolds(db, p) && !HasCapturedPayment(db, SeatClaim(h))
    requires |ShieldedAhead(OpenHolds(db, p), ShieldedHolds(db, p), h)| < p.batchSize
    ensures Trail(dbs, p) && dbs[0] == db && !IsActive(dbs[|dbs| - 1].seat, h)
  {
    var s := |ShieldedAhead(OpenHolds(db, p), ShieldedHolds(db, p), h)|;
    var u := |OthersAhead(OpenHolds(db, p), ShieldedHolds(db, p), h)|;
    var k: nat := u + 1;
    dbs := MakeTrail(db, p, k);
    var places: nat := p.batchSize - s;
    EnoughPasses(u, places, k);
    HoldGoneAfter(dbs, p, h, k, s, u, places);
  }

  /** An overdue hold stays ACTIVE, however many passes are made, exactly if it is shielded itself or a
      whole batch of shielded, unlocked, overdue holds has smaller ids. */
  lemma HoldWaitsIff(db: Tables, p: Pass, h: nat)
    requires h in OpenHolds(db, p)
    ensures (forall dbs: seq<Tables> :: Trail(dbs, p) && dbs[0] == db ==> IsActive(dbs[|dbs| - 1].seat, h)) <==>
              HasCapturedPayment(db, SeatClaim(h))
              || |ShieldedAhead(OpenHolds(db, p), ShieldedHolds(db, p), h)| >= p.batchSize
  {
    var s := |ShieldedAhead(OpenHolds(db, p), ShieldedHolds(db, p), h)|;
    if HasCapturedPayment(db, SeatClaim(h)) || s >= p.batchSize {
      forall dbs: seq<Tables> | Trail(dbs, p) && dbs[0] == db ensures IsActive(dbs[|dbs| - 1].seat, h) {
        HoldStays(dbs, p, h, |dbs| - 1);
      }
    } else {
      var dbs := HoldGoes(db, p, h);
    }
  }

  lemma RowsLeft(db: Tables, p: Pass, shielded: set<nat>, batch: set<nat>, next: Tables)
    requires TellsReservations(db, p, shielded) && IsBatch(OpenReservations(db, p), p.batchSize, batch)
    requires next.orders == db.orders && next.payments == db.payments
    requires next.ga.rows.Keys == db.ga.rows.Keys
    requires forall r :: r in db.ga.rows ==> next.ga.rows[r] == RowAfter(db.ga, UnshieldedReservations(db, batch), r)
    ensures OpenReservations(next, p) == Left(OpenReservations(db, p), shielded, p.batchSize)
    ensures TellsReservations(next, p, shielded) && KeepsRowDeadlines(db.ga, next.ga)
  {
    forall r | r in OpenReservations(next, p) ensures r in shielded <==> HasCapturedPayment(next, GaClaim(r)) {
      SameShield(db, next, GaClaim(r));
    }
  }

  lemma RowsAfterBatch(db: Tables, p: Pass)
    requires GaInv(db.ga) && p.rivals == map[]
    ensures GaInv(PassResult(db, p).ga) && PassResult(db, p).ga.rows.Keys == db.ga.rows.Keys
    ensures forall r :: r in db.ga.rows ==>
              PassResult(db, p).ga.rows[r] == RowAfter(db.ga, UnshieldedReservations(db, Elements(RowBatch(db, p))), r)
  {
    var ids := RowBatch(db, p);
    RowBatchDue(db, p);
    RowsAlone(db, ids, UnshieldedReservations(db, Elements(ids)), PassResult(db, p).ga);
  }

  lemma ReservationPass(db: Tables, p: Pass, shielded: set<nat>, next: Tables)
    requires GaInv(db.ga) && p.rivals == map[] && TellsReservations(db, p, shielded) && next == PassResult(db, p)
    ensures OpenReservations(next, p) == Left(OpenReservations(db, p), shielded, p.batchSize)
    ensures TellsReservations(next, p, shielded) && GaInv(next.ga) && KeepsRowDeadlines(db.ga, next.ga)
  {
    RowBatchIs(db, p);
    RowsAfterBatch(db, p);
    RowsLeft(db, p, shielded, Elements(RowBatch(db, p)), next);
  }

  lemma {:induction false} ReservationPasses(dbs: seq<Tables>, p: Pass, shielded: set<nat>, k: nat)
    requires Trail(dbs, p) && GaInv(dbs[0].ga) && p.rivals == map[] && k < |dbs| && TellsReservations(dbs[0], p, shielded)
    ensures OpenReservations(dbs[k], p) == LeftAfter(OpenReservations(dbs[0], p), shielded, p.batchSize, k)
    ensures TellsReservations(dbs[k], p, shielded) && KeepsRowDeadlines(dbs[0].ga, dbs[k].ga) && GaInv(dbs[k].ga)
  {
    if k > 0 {
      var j: nat := k - 1;
      ReservationPasses(dbs, p, shielded, j);
      ReservationPassAt(dbs, p, shielded, j, k);
      OneReservationPassMore(dbs[0], dbs[j], dbs[k], p, shielded, j, k);
    }
  }

  lemma ReservationPassAt(dbs: seq<Tables>, p: Pass, shielded: set<nat>, j: nat, k: nat)
    requires Trail(dbs, p) && k == j + 1 < |dbs|
    requires GaInv(dbs[j].ga) && p.rivals == map[] && TellsReservations(dbs[j], p, shielded)
    ensures OpenReservations(dbs[k], p) == Left(OpenReservations(dbs[j], p), shielded, p.batchSize)
    ensures TellsReservations(dbs[k], p, shielded) && KeepsRowDeadlines(dbs[j].ga, dbs[k].ga) && GaInv(dbs[k].ga)
  {
    assert Pair(j, k);
    ReservationPass(dbs[j], p, shielded, dbs[k]);
  }

  lemma OneReservationPassMore(db: Tables, before: Tables, after: Tables, p: Pass, shielded: set<nat>, j: nat, k: nat)
    requires k == j + 1 && OpenReservations(before, p) == LeftAfter(OpenReservations(db, p), shielded, p.batchSize, j)
    requires OpenReservations(after, p) == Left(OpenReservations(before, p), shielded, p.batchSize)
    requires KeepsRowDeadlines(db.ga, before.ga) && KeepsRowDeadlines(before.ga, after.ga)
    ensures OpenReservations(after, p) == LeftAfter(OpenReservations(db, p), shielded, p.batchSize, k)
    ensures KeepsRowDeadlines(db.ga, after.ga)
  {
  }

  lemma ReservationStillOpen(db: Tables, db': Tables, p: Pass, r: nat)
    requires KeepsRowDeadlines(db.ga, db'.ga) && r in OpenReservations(db, p)
    ensures r in OpenReservations(db', p) <==> IsLive(db'.ga, r)
    ensures r in db'.ga.rows && (IsLive(db'.ga, r) || db'.ga.rows[r].status == HoldStatus.Expired)
  {
  }

  lemma ReservationStays(dbs: seq<Tables>, p: Pass, r: nat, k: nat)
    requires Trail(dbs, p) && GaInv(dbs[0].ga) && p.rivals == map[] && k < |dbs| && r in OpenReservations(dbs[0], p)
    requires HasCapturedPayment(dbs[0], GaClaim(r))
             || |ShieldedAhead(OpenReservations(dbs[0], p), ShieldedReservations(dbs[0], p), r)| >= p.batchSize
    ensures IsLive(dbs[k].ga, r)
  {
    ReservationPasses(dbs, p, ShieldedReservations(dbs[0], p), k);
    ReservationStillOpen(dbs[0], dbs[k], p, r);
    Stays(OpenReservations(dbs[0], p), ShieldedReservations(dbs[0], p), p.batchSize, r, k);
  }

  /** The same for general admission. */
  lemma ReservationGoneAfter(dbs: seq<Tables>, p: Pass, r: nat, k: nat, s: nat, u: nat, places: nat)
    requires Trail(dbs, p) && GaInv(dbs[0].ga) && p.rivals == map[] && k < |dbs|
    requires r in OpenReservations(dbs[0], p) && !HasCapturedPayment(dbs[0], GaClaim(r))
    requires s == |ShieldedAhead(OpenReservations(dbs[0], p), ShieldedReservations(dbs[0], p), r)|
    requires u == |OthersAhead(OpenReservations(dbs[0], p), ShieldedReservations(dbs[0], p), r)|
    requires p.batchSize == s + places && k * places > u
    ensures r in dbs[k].ga.rows && dbs[k].ga.rows[r].status == HoldStatus.Expired
  {
    ReservationPasses(dbs, p, ShieldedReservations(dbs[0], p), k);
    ReservationStillOpen(dbs[0], dbs[k], p, r);
    GoneAfter(OpenReservations(dbs[0], p), ShieldedReservations(dbs[0], p), p.batchSize, r, s, u, k, places);
  }

  lemma ReservationGoes(db: Tables, p: Pass, r: nat) returns (dbs: seq<Tables>)
    requires GaInv(db.ga) && p.rivals == map[] && r in OpenReservations(db, p) && !HasCapturedPayment(db, GaClaim(r))
    requires |ShieldedAhead(OpenReservations(db, p), ShieldedReservations(db, p), r)| < p.batchSize
    ensures Trail(dbs, p) && dbs[0] == db && !IsLive(dbs[|dbs| - 1].ga, r)
  {
    var s := |ShieldedAhead(OpenReservations(db, p), ShieldedReservations(db, p), r)|;
    var u := |OthersAhead(OpenReservations(db, p), ShieldedReservations(db, p), r)|;
    var k: nat := u + 1;
    dbs := MakeTrail(db, p, k);
    var places: nat := p.batchSize - s;
    EnoughPasses(u, places, k);
    ReservationGoneAfter(dbs, p, r, k, s, u, places);
  }

  /** The same for general admission. */
  lemma RowWaitsIff(db: Tables, p: Pass, r: nat)
    requires GaInv(db.ga) && p.rivals == map[] && r in OpenReservations(db, p)
    ensures (forall dbs: seq<Tables> :: Trail(dbs, p) && dbs[0] == db ==> IsLive(dbs[|dbs| - 1].ga, r)) <==>
              HasCapturedPayment(db, GaClaim(r))
              || |ShieldedAhead(OpenReservations(db, p), ShieldedReservations(db, p), r)| >= p.batchSize
  {
    var s := |ShieldedAhead(OpenReservations(db, p), ShieldedReservations(db, p), r)|;
    if HasCapturedPayment(db, GaClaim(r)) || s >= p.batchSize {
      forall dbs: seq<Tables> | Trail(dbs, p) && dbs[0] == db ensures IsLive(dbs[|dbs| - 1].ga, r) {
        ReservationStays(dbs, p, r, |dbs| - 1);
      }
    } else {
      var dbs := ReservationGoes(db, p, r);
    }
  }

  // ---------- the same, in the rows ----------

  lemma HoldsInFront(db: Tables, p: Pass, h: nat)
    ensures h in OpenHolds(db, p) <==>
              && h in db.seat.holds && db.seat.holds[h].status == HoldStatus.Active
              && db.seat.holds[h].expiresAt <= p.now && h !in p.lockedHolds
    ensures ShieldedAhead(OpenHolds(db, p), ShieldedHolds(db, p), h)
         == set g | g in db.seat.holds && db.seat.holds[g].status == HoldStatus.Active
                    && db.seat.holds[g].expiresAt <= p.now && g !in p.lockedHolds && g < h
                    && exists o :: o in db.orders && db.orders[o].claim == SeatClaim(g)
                                   && o in db.payments && db.payments[o].status == PaymentStatus.Captured
    ensures OthersAhead(OpenHolds(db, p), ShieldedHolds(db, p), h)
         == set g | g in db.seat.holds && db.seat.holds[g].status == HoldStatus.Active
                    && db.seat.holds[g].expiresAt <= p.now && g !in p.lockedHolds && g < h
                    && forall o :: o in db.orders && db.orders[o].claim == SeatClaim(g) && o in db.payments ==>
                         db.payments[o].status != PaymentStatus.Captured
  {
  }

  lemma RowsInFront(db: Tables, p: Pass, r: nat)
    ensures r in OpenReservations(db, p) <==>
              && r in db.ga.rows && db.ga.rows[r].status == HoldStatus.Active
              && db.ga.rows[r].expiresAt <= p.now && r !in p.lockedRows
    ensures ShieldedAhead(OpenReservations(db, p), ShieldedReservations(db, p), r)
         == set q | q in db.ga.rows && db.ga.rows[q].status == HoldStatus.Active
                    && db.ga.rows[q].expiresAt <= p.now && q !in p.lockedRows && q < r
                    && exists o :: o in db.orders && db.orders[o].claim == GaClaim(q)
                                   && o in db.payments && db.payments[o].status == PaymentStatus.Captured
    ensures OthersAhead(OpenReservations(db, p), ShieldedReservations(db, p), r)
         == set q | q in db.ga.rows && db.ga.rows[q].status == HoldStatus.Active
                    && db.ga.rows[q].expiresAt <= p.now && q !in p.lockedRows && q < r
                    && forall o :: o in db.orders && db.orders[o].claim == GaClaim(q) && o in db.payments ==>
                         db.payments[o].status != PaymentStatus.Captured
  {
  }

  /** A hold that is ACTIVE past its deadline, unlocked and unpaid is EXPIRED after k passes, as soon as k
      times the places that the paid overdue holds before it leave in a batch is more than the unpaid ones
      before it. */
  lemma HoldGoneBy(dbs: seq<Tables>, p: Pass, h: nat, k: nat, s: nat, u: nat, places: nat)
    requires Trail(dbs, p) && k < |dbs|
    requires var db := dbs[0];
             && h in db.seat.holds && db.seat.holds[h].status == HoldStatus.Active
             && db.seat.holds[h].expiresAt <= p.now && h !in p.lockedHolds
             && forall o :: o in db.orders && db.orders[o].claim == SeatClaim(h) && o in db.payments ==>
                  db.payments[o].status != PaymentStatus.Captured
    requires var db := dbs[0];
             s == |set g | g in db.seat.holds && db.seat.holds[g].status == HoldStatus.Active
                           && db.seat.holds[g].expiresAt <= p.now && g !in p.lockedHolds && g < h
                           && (exists o :: o in db.orders && db.orders[o].claim == SeatClaim(g)
                                          && o in db.payments && db.payments[o].status == PaymentStatus.Captured)|
    requires var db := dbs[0];
             u == |set g | g in db.seat.holds && db.seat.holds[g].status == HoldStatus.Active
                           && db.seat.holds[g].expiresAt <= p.now && g !in p.lockedHolds && g < h
                           && (forall o :: o in db.orders && db.orders[o].claim == SeatClaim(g) && o in db.payments ==>
                                db.payments[o].status != PaymentStatus.Captured)|
    requires p.batchSize == s + places && k * places > u
    ensures h in dbs[k].seat.holds && dbs[k].seat.holds[h].status == HoldStatus.Expired
  {
    HoldsInFront(dbs[0], p, h);
    HoldGoneAfter(dbs, p, h, k, s, u, places);
  }

  /** The same for general admission. */
  lemma ReservationGoneBy(dbs: seq<Tables>, p: Pass, r: nat, k: nat, s: nat, u: nat, places: nat)
    requires Trail(dbs, p) && GaInv(dbs[0].ga) && p.rivals == map[] && k < |dbs|
    requires var db := dbs[0];
             && r in db.ga.rows && db.ga.rows[r].status == HoldStatus.Active
             && db.ga.rows[r].expiresAt <= p.now && r !in p.lockedRows
             && forall o :: o in db.orders && db.orders[o].claim == GaClaim(r) && o in db.payments ==>
                  db.payments[o].status != PaymentStatus.Captured
    requires var db := dbs[0];
             s == |set q | q in db.ga.rows && db.ga.rows[q].status == HoldStatus.Active
                           && db.ga.rows[q].expiresAt <= p.now && q !in p.lockedRows && q < r
                           && (exists o :: o in db.orders && db.orders[o].claim == GaClaim(q)
                                          && o in db.payments && db.payments[o].status == PaymentStatus.Captured)|
    requires var db := dbs[0];
             u == |set q | q in db.ga.rows && db.ga.rows[q].status == HoldStatus.Active
                           && db.ga.rows[q].expiresAt <= p.now && q !in p.lockedRows && q < r
                           && (forall o :: o in db.orders && db.orders[o].claim == GaClaim(q) && o in db.payments ==>
                                db.payments[o].status != PaymentStatus.Captured)|
    requires p.batchSize == s + places && k * places > u
    ensures r in dbs[k].ga.rows && dbs[k].ga.rows[r].status == HoldStatus.Expired
  {
    RowsInFront(dbs[0], p, r);
    ReservationGoneAfter(dbs, p, r, k, s, u, places);
  }

  /** An overdue hold stays ACTIVE, however many passes are made, exactly if it is paid for itself or a
      whole batch of paid, unlocked, overdue holds has smaller ids. */
  lemma HoldWaitsForeverIff(db: Tables, p: Pass, h: nat)
    requires h in db.seat.holds && db.seat.holds[h].status == HoldStatus.Active
    requires db.seat.holds[h].expiresAt <= p.now && h !in p.lockedHolds
    ensures (forall dbs: seq<Tables> :: Trail(dbs, p) && dbs[0] == db ==>
               h in dbs[|dbs| - 1].seat.holds && dbs[|dbs| - 1].seat.holds[h].status == HoldStatus.Active) <==>
              || (exists o :: o in db.orders && db.orders[o].claim == SeatClaim(h)
                              && o in db.payments && db.payments[o].status == PaymentStatus.Captured)
              || |set g | g in db.seat.holds && db.seat.holds[g].status == HoldStatus.Active
                          && db.seat.holds[g].expiresAt <= p.now && g !in p.lockedHolds && g < h
                          && (exists o :: o in db.orders && db.orders[o].claim == SeatClaim(g)
                                         && o in db.payments && db.payments[o].status == PaymentStatus.Captured)|
                 >= p.batchSize
  {
    HoldsInFront(db, p, h);
    HoldWaitsIff(db, p, h);
  }

  /** The same for general admission. */
  lemma ReservationWaitsForeverIff(db: Tables, p: Pass, r: nat)
    requires GaInv(db.ga) && p.rivals == map[]
    requires r in db.ga.rows && db.ga.rows[r].status == HoldStatus.Active
    requires db.ga.rows[r].expiresAt <= p.now && r !in p.lockedRows
    ensures (forall dbs: seq<Tables> :: Trail(dbs, p) && dbs[0] == db ==>
               r in dbs[|dbs| - 1].ga.rows && dbs[|dbs| - 1].ga.rows[r].status == HoldStatus.Active) <==>
              || (exists o :: o in db.orders && db.orders[o].claim == GaClaim(r)
                              && o in db.payments && db.payments[o].status == PaymentStatus.Captured)
              || |set q | q in db.ga.rows && db.ga.rows[q].status == HoldStatus.Active
                          && db.ga.rows[q].expiresAt <= p.now && q !in p.lockedRows && q < r
                          && (exists o :: o in db.orders && db.orders[o].claim == GaClaim(q)
                                         && o in db.payments && db.payments[o].status == PaymentStatus.Captured)|
                 >= p.batchSize
  {
    RowsInFront(db, p, r);
    RowWaitsIff(db, p, r);
  }
}
