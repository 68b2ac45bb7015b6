/** The expiry worker: a batch of overdue holds and a batch of overdue general-admission reservations
    per pass, skipping those a captured payment shields. */
module Expiry {
  import opened Collections
  import opened SeatInventory
  import opened GaInventory
  import opened GaTraffic
  import opened OrderLife
  import opened Booking
  import opened Finalizer
  import opened SeatLocks

  /** Active holds past their deadline. */
  function DueHolds(t: SeatTables, now: int): set<nat> {
    set h | h in t.holds && t.holds[h].status == HoldStatus.Active && t.holds[h].expiresAt <= now
  }

  function DueReservations(t: GaTables, now: int): set<nat> {
    set r | r in t.rows && t.rows[r].status == HoldStatus.Active && t.rows[r].expiresAt <= now
  }

  /** `ORDER BY id FOR UPDATE SKIP LOCKED LIMIT n`. */
  function Batch(due: set<nat>, locked: set<nat>, n: nat): (ids: seq<nat>)
    ensures Increasing(ids) && |ids| <= n && Elements(ids) <= due - locked
    ensures |ids| < n ==> Elements(ids) == due - locked
    ensures forall x, y {:trigger Pair(x, y)} :: Pair(x, y) && x in ids && y in due - locked && y !in ids ==> x < y
  {
    var all := Sorted(due - locked);
    assert forall x :: x in all ==> x in Elements(all);
    if |all| <= n then all
    else
      assert forall y :: y in due - locked ==> y in Elements(all);
      all[..n]
  }

  function InFront(ids: set<nat>, h: nat): set<nat> {
    set g | g in ids && g < h
  }

  lemma FrontIsPrefix(ids: seq<nat>, k: nat)
    requires Increasing(ids) && k < |ids|
    ensures InFront(Elements(ids), ids[k]) == Elements(ids[..k]) && |Elements(ids[..k])| == k
  {
    forall g | g in InFront(Elements(ids), ids[k]) ensures g in ids[..k] {
      var i :| 0 <= i < |ids| && ids[i] == g;
      assert ids[..k][i] == g;
    }
    SortedUnique(ids[..k], Sorted(Elements(ids[..k])));
  }

  /** An overdue id is in the batch exactly if fewer than a batch of unlocked overdue ids are smaller. */
  lemma InBatchIff(due: set<nat>, locked: set<nat>, n: nat, h: nat)
    requires h in due - locked
    ensures h in Batch(due, locked, n) <==> |InFront(due - locked, h)| < n
  {
    var all := Sorted(due - locked);
    assert h in Elements(all);
    var k :| 0 <= k < |all| && all[k] == h;
    FrontIsPrefix(all, k);
    if k < n < |all| { assert all[..n][k] == h; }
  }

  function UnshieldedHolds(db: Tables, ids: set<nat>): set<nat> {
    set h | h in ids && !HasCapturedPayment(db, SeatClaim(h))
  }

  /** The seat tables with every hold of `hs` expired and its seats freed. */
  function ExpireAll(t: SeatTables, hs: set<nat>): SeatTables {
    SeatTables(
      map i | i in t.seats ::
        if i in t.seats && t.seats[i].holdId.Some? && t.seats[i].holdId.value in hs then FreedSeat(t.seats[i]) else t.seats[i],
      map h | h in t.holds ::
        if h in t.holds && h in hs then t.holds[h].(status := HoldStatus.Expired) else t.holds[h])
  }

  /** The seat locks without those that an expired hold still owned on its own seats. */
  ghost predicate OnlyOwnLocksGone(before: map<LockKey, nat>, after: map<LockKey, nat>, t: SeatTables, hs: set<nat>) {
    && (forall k :: k in after ==> k in before && after[k] == before[k])
    && (forall k :: k in before ==>
          (k !in after <==>
            before[k] in hs && before[k] in t.holds && t.holds[before[k]].matchId == k.matchId
            && HeldBy(t, k.seatId, before[k])))
  }

  /** One hold more. */
  lemma ExpireOneMore(t: SeatTables, hs: set<nat>, h: nat)
    requires IsActive(t, h) && h !in hs
    ensures IsActive(ExpireAll(t, hs), h) && ExpireAll(t, hs).holds[h] == t.holds[h]
    ensures SeatsOf(ExpireAll(t, hs), h) == SeatsOf(t, h)
    ensures Release(ExpireAll(t, hs), h) == ExpireAll(t, hs + {h})
  {
  }

  lemma ExpireNone(t: SeatTables)
    ensures ExpireAll(t, {}) == t
  {
  }

  /** The order of a captured payment is on this reservation. */
  predicate Shields(db: Tables, claim: Claim, o: nat) {
    o in db.orders && db.orders[o].claim == claim && o in db.payments && db.payments[o].status == PaymentStatus.Captured
  }

  /** Which reservation is asked about: the hold is looked at first. */
  function Asked(hold: Option<nat>, ga: Option<nat>): Option<Claim> {
    match hold
    case Some(h) => Some(SeatClaim(h))
    case None => if ga.Some? then Some(GaClaim(ga.value)) else None
  }

  /** Looks through the payments, each joined with its order, for a captured one on the reservation. */
  method HasCaptured(session: Session, hold: Option<nat>, ga: Option<nat>) returns (found: bool)
    ensures found <==> Asked(hold, ga).Some? && HasCapturedPayment(session.tables, Asked(hold, ga).value)
  {
    if hold == None && ga == None {
      return false;
    }
    var claim := if hold.Some? then SeatClaim(hold.value) else GaClaim(ga.value);
    var db := session.tables;
    var left := db.payments.Keys;
    while left != {}
      invariant left <= db.payments.Keys
      invariant forall o :: o in db.payments.Keys - left ==> !Shields(db, claim, o)
      decreases |left|
    {
      var o :| o in left;
      left := left - {o};
      if db.payments[o].status == PaymentStatus.Captured && o in db.orders && db.orders[o].claim == claim {
        assert Shields(db, claim, o);
        return true;
      }
    }
    forall o | o in db.orders && o in db.payments ensures !Shields(db, claim, o) {
      assert o in db.payments.Keys - left;
    }
    found := false;
  }

  lemma LocksOneMore(before: map<LockKey, nat>, locks: map<LockKey, nat>, t: SeatTables, hs: set<nat>, h: nat)
    requires OnlyOwnLocksGone(before, locks, t, hs) && h in t.holds && h !in hs
    ensures OnlyOwnLocksGone(before, WithoutOwned(locks, t.holds[h].matchId, SeatsOf(t, h).Keys, h), t, hs + {h})
  {
  }

  function WithSeats(t: SeatTables, hs: set<nat>): set<nat> {
    set h | h in hs && SeatsOf(t, h) != map[]
  }

  lemma WithSeatsOneMore(t: SeatTables, hs: set<nat>, h: nat)
    requires h !in hs
    ensures |WithSeats(t, hs + {h})| == |WithSeats(t, hs)| + if SeatsOf(t, h) != map[] then 1 else 0
  {
    assert WithSeats(t, hs + {h}) == WithSeats(t, hs) + if SeatsOf(t, h) != map[] then {h} else {};
  }

  lemma UnshieldedOneMore(db: Tables, seat: SeatTables, ids: set<nat>, h: nat)
    ensures HasCapturedPayment(db.(seat := seat), SeatClaim(h)) == HasCapturedPayment(db, SeatClaim(h))
    ensures UnshieldedHolds(db, ids + {h})
         == if HasCapturedPayment(db, SeatClaim(h)) then UnshieldedHolds(db, ids) else UnshieldedHolds(db, ids) + {h}
  {
    var db' := db.(seat := seat);
    assert db'.orders == db.orders && db'.payments == db.payments;
  }

  /** The row lock on the hold keeps everybody else from its seats. */
  lemma ReleasesItsSeats(t: SeatTables, h: nat)
    requires h in t.holds
    ensures (set i | i in SeatsOf(t, h) && HeldBy(t, i, h)) == SeatsOf(t, h).Keys
    ensures WriteReleases(t, SeatsOf(t, h), h) == Release(t, h)
  {
    StillItsRows(t, t, h);
  }

  /** One hold of the batch: left alone if shielded, else released together with its locks. */
  method ExpireOne(session: Session, finalizer: SqlInventoryFinalizer, gate: SeatLockGate, h: nat)
    returns (counted: bool)
    requires finalizer.session == session && IsActive(session.tables.seat, h)
    modifies session, gate
    ensures session.committed == old(session.committed)
    ensures var t := old(session.tables.seat);
            if HasCapturedPayment(old(session.tables), SeatClaim(h)) then
              !counted && session.tables == old(session.tables) && gate.locks == old(gate.locks)
            else
              && session.tables == old(session.tables).(seat := Release(t, h))
              && (counted <==> SeatsOf(t, h) != map[])
              && gate.locks == WithoutOwned(old(gate.locks), t.holds[h].matchId, SeatsOf(t, h).Keys, h)
  {
    var t := session.tables.seat;
    var shielded := HasCaptured(session, Some(h), None);
    if shielded {
      return false;
    }
    ReleasesItsSeats(t, h);
    var seats := finalizer.ReleaseAssigned(h, t);
    counted := seats != [];
    if counted {
      gate.ReleaseAll(t.holds[h].matchId, seats, h);
    } else {
      assert SeatsOf(t, h).Keys == {};
      assert WithoutOwned(gate.locks, t.holds[h].matchId, {}, h) == gate.locks;
    }
  }

  // ---------- the same, in the rows ----------

  /** What a pass makes of the holds, read off the rows: those ACTIVE past their deadline, not locked,
      without a captured payment, and with fewer than a batch of ACTIVE overdue unlocked ids before them,
      become EXPIRED and their seats AVAILABLE. Nothing else changes. */
  ghost predicate OverdueHoldsExpired(db: Tables, t': SeatTables, now: int, n: nat, locked: set<nat>) {
    var t := db.seat;
    && t'.holds.Keys == t.holds.Keys && t'.seats.Keys == t.seats.Keys
    && (forall h :: h in t.holds ==>
          t'.holds[h] ==
            if t.holds[h].status == HoldStatus.Active && t.holds[h].expiresAt <= now && h !in locked
               && (forall o :: o in db.orders && db.orders[o].claim == SeatClaim(h) && o in db.payments ==>
                     db.payments[o].status != PaymentStatus.Captured)
               && |set g | g in t.holds && t.holds[g].status == HoldStatus.Active && t.holds[g].expiresAt <= now
                           && g !in locked && g < h| < n
            then t.holds[h].(status := HoldStatus.Expired)
            else t.holds[h])
    && (forall i :: i in t.seats ==>
          t'.seats[i] ==
            if t.seats[i].holdId.Some? && t.seats[i].holdId.value in t.holds
               && t'.holds[t.seats[i].holdId.value] != t.holds[t.seats[i].holdId.value]
            then Seat(t.seats[i].matchId, Available, None, None, t.seats[i].version + 1)
            else t.seats[i])
  }

  lemma HoldInBatch(db: Tables, now: int, n: nat, locked: set<nat>, h: nat)
    requires h in db.seat.holds
    ensures h in UnshieldedHolds(db, Elements(Batch(DueHolds(db.seat, now), locked, n))) <==>
              && db.seat.holds[h].status == HoldStatus.Active && db.seat.holds[h].expiresAt <= now && h !in locked
              && (forall o :: o in db.orders && db.orders[o].claim == SeatClaim(h) && o in db.payments ==>
                    db.payments[o].status != PaymentStatus.Captured)
              && |set g | g in db.seat.holds && db.seat.holds[g].status == HoldStatus.Active
                          && db.seat.holds[g].expiresAt <= now && g !in locked && g < h| < n
  {
    var due := DueHolds(db.seat, now);
    if h in due - locked {
      InBatchIff(due, locked, n, h);
      assert InFront(due - locked, h)
          == set g | g in db.seat.holds && db.seat.holds[g].status == HoldStatus.Active
                     && db.seat.holds[g].expiresAt <= now && g !in locked && g < h;
    }
  }

  /** The holds that one table has ACTIVE with seats and the other EXPIRED. */
  function ExpiredWithSeats(t: SeatTables, t': SeatTables): set<nat> {
    set h | h in t.holds && t.holds[h].status == HoldStatus.Active
            && h in t'.holds && t'.holds[h].status == HoldStatus.Expired
            && exists i :: i in t.seats && t.seats[i].holdId == Some(h)
  }

  lemma CountedAre(t: SeatTables, hs: set<nat>)
    requires forall h :: h in hs ==> IsActive(t, h)
    ensures WithSeats(t, hs) == ExpiredWithSeats(t, ExpireAll(t, hs))
  {
    forall h | h in t.holds ensures SeatsOf(t, h) != map[] <==> exists i :: i in t.seats && t.seats[i].holdId == Some(h) {
      if SeatsOf(t, h) != map[] {
        var i :| i in SeatsOf(t, h);
        assert HeldBy(t, i, h);
      }
      forall i | i in t.seats && t.seats[i].holdId == Some(h) ensures i in SeatsOf(t, h) {
        assert HeldBy(t, i, h);
      }
    }
  }

  lemma HoldsExpired(db: Tables, now: int, n: nat, locked: set<nat>)
    ensures OverdueHoldsExpired(
              db, ExpireAll(db.seat, UnshieldedHolds(db, Elements(Batch(DueHolds(db.seat, now), locked, n)))), now, n, locked)
  {
    forall h | h in db.seat.holds {
      HoldInBatch(db, now, n, locked, h);
    }
  }

  /** Expires exactly the unshielded holds of the batch, counts those that had seats, and gives up
      only the locks those holds still own. */
  method ExpireHolds(session: Session, finalizer: SqlInventoryFinalizer, gate: SeatLockGate, now: int, batchSize: nat,
                     locked: set<nat>)
    returns (expired: nat)
    requires finalizer.session == session
    modifies session, gate
    ensures session.committed == old(session.committed)
    ensures var t := old(session.tables.seat);
            var hs := UnshieldedHolds(old(session.tables), Elements(Batch(DueHolds(t, now), locked, batchSize)));
            && session.tables == old(session.tables).(seat := ExpireAll(t, hs))
            && expired == |WithSeats(t, hs)|
            && OnlyOwnLocksGone(old(gate.locks), gate.locks, t, hs)
    ensures OverdueHoldsExpired(old(session.tables), session.tables.seat, now, batchSize, locked)
    ensures expired == |ExpiredWithSeats(old(session.tables.seat), session.tables.seat)|
  {
    HoldsExpired(session.tables, now, batchSize, locked);
    CountedAre(session.tables.seat, UnshieldedHolds(session.tables, Elements(Batch(DueHolds(session.tables.seat, now),
                                                                                  locked, batchSize))));
    var db := session.tables;
    var ids := Batch(DueHolds(db.seat, now), locked, batchSize);
    expired := 0;
    ghost var done: set<nat> := {};
    ExpireNone(db.seat);
    for n := 0 to |ids|
      invariant done == UnshieldedHolds(db, Elements(ids[..n]))
      invariant session.committed == old(session.committed)
      invariant session.tables == db.(seat := ExpireAll(db.seat, done))
      invariant expired == |WithSeats(db.seat, done)|
      invariant OnlyOwnLocksGone(old(gate.locks), gate.locks, db.seat, done)
    {
      var h := ids[n];
      PrefixStep(ids, n);
      UnshieldedOneMore(db, session.tables.seat, Elements(ids[..n]), h);
      ExpireOneMore(db.seat, done, h);
      LocksOneMore(old(gate.locks), gate.locks, db.seat, done, h);
      WithSeatsOneMore(db.seat, done, h);
      var counted := ExpireOne(session, finalizer, gate, h);
      if counted { expired := expired + 1; }
      if !HasCapturedPayment(db, SeatClaim(h)) {
        done := done + {h};
        assert session.tables.seat == ExpireAll(db.seat, done);
      }
    }
    assert ids[..|ids|] == ids;
  }

  // ---------- general admission ----------

  /** What others commit to the pools while an overdue reservation is gone through, between the read of
      its pool and the update. */
  type Rivals = map<nat, seq<GaOp>>

  function OpsAt(rivals: Rivals, r: nat): seq<GaOp> {
    if r in rivals then rivals[r] else []
  }

  /** The reservation is released: not shielded, and nobody wrote its pool in between. */
  predicate Releases(db: Tables, t: GaTables, r: nat, ops: seq<GaOp>, locked: set<nat>) {
    && !HasCapturedPayment(db, GaClaim(r))
    && IsLive(t, r)
    && PoolStill(t, AfterOps(t, ops, locked), t.rows[r].matchId)
  }

  /** What others commit meanwhile; a shielded reservation takes no time. */
  function Meanwhile(db: Tables, t: GaTables, r: nat, ops: seq<GaOp>, locked: set<nat>): GaTables {
    if HasCapturedPayment(db, GaClaim(r)) then t else AfterOps(t, ops, locked)
  }

  /** One overdue reservation gone through. */
  function GaNext(db: Tables, t: GaTables, r: nat, ops: seq<GaOp>, locked: set<nat>): GaTables {
    var t' := Meanwhile(db, t, r, ops, locked);
    if Releases(db, t, r, ops, locked) && IsLive(t', r) && t'.rows[r].matchId in t'.pools then ReleaseGa(t', r) else t'
  }

  /** The pools and reservations after the first `n` overdue reservations were gone through in order.
      The rows of the whole batch are locked. */
  function GaAfter(db: Tables, ids: seq<nat>, rivals: Rivals, n: nat): GaTables
    requires n <= |ids|
  {
    if n == 0 then db.ga
    else GaNext(db, GaAfter(db, ids, rivals, n - 1), ids[n - 1], OpsAt(rivals, ids[n - 1]), Elements(ids))
  }

  /** What the others alone have made of the tables by then. */
  function OthersAfter(db: Tables, t: GaTables, ids: seq<nat>, rivals: Rivals, n: nat): GaTables
    requires n <= |ids|
  {
    if n == 0 then t
    else Meanwhile(db, OthersAfter(db, t, ids, rivals, n - 1), ids[n - 1], OpsAt(rivals, ids[n - 1]), Elements(ids))
  }

  /** The reservations released by then. */
  function Gone(db: Tables, ids: seq<nat>, rivals: Rivals, n: nat): set<nat>
    requires n <= |ids|
  {
    if n == 0 then {}
    else
      var r, t := ids[n - 1], GaAfter(db, ids, rivals, n - 1);
      Gone(db, ids, rivals, n - 1) + if Releases(db, t, r, OpsAt(rivals, r), Elements(ids)) then {r} else {}
  }

  predicate AllLive(t: GaTables, ids: seq<nat>) {
    forall r :: r in ids ==> IsLive(t, r)
  }

  function RowAfter(t: GaTables, gone: set<nat>, r: nat): Reservation
    requires r in t.rows
  {
    if r in gone then t.rows[r].(status := HoldStatus.Expired) else t.rows[r]
  }

  /** The rows of `ids` are those of `t`, with the ones in `gone` expired. */
  predicate RowsAfter(t: GaTables, ids: set<nat>, gone: set<nat>, t': GaTables) {
    forall r :: r in ids && r in t.rows ==> r in t'.rows && t'.rows[r] == RowAfter(t, gone, r)
  }

  lemma GaNextKeeps(db: Tables, t: GaTables, r: nat, ops: seq<GaOp>, locked: set<nat>)
    requires GaInv(t) && IsLive(t, r) && r in locked
    ensures var t', u := Meanwhile(db, t, r, ops, locked), GaNext(db, t, r, ops, locked);
            && GaInv(u) && Spares(t, t', locked)
            && IsLive(t', r) && t'.rows[r].matchId in t'.pools
            && u == if Releases(db, t, r, ops, locked) then ReleaseGa(t', r) else t'
  {
    assert RowOk(t, t.rows[r]);
    OpsKeep(t, ops, locked);
    var t' := Meanwhile(db, t, r, ops, locked);
    assert RowOk(t', t'.rows[r]);
    ReleaseGaPreserves(t', r);
  }

  lemma OneRowMore(t0: GaTables, ids: set<nat>, gone: set<nat>, t: GaTables, t': GaTables, r: nat)
    requires RowsAfter(t0, ids, gone, t) && Spares(t, t', ids) && r in ids && r !in gone
    requires IsLive(t', r) && t'.rows[r].matchId in t'.pools
    ensures RowsAfter(t0, ids, gone, t') && RowsAfter(t0, ids, gone + {r}, ReleaseGa(t', r))
  {
  }

  lemma LiveStill(t0: GaTables, ids: set<nat>, gone: set<nat>, t: GaTables, r: nat)
    requires RowsAfter(t0, ids, gone, t) && r in ids && r !in gone && IsLive(t0, r)
    ensures IsLive(t, r) && t.rows[r] == t0.rows[r]
  {
  }

  /** Of the batch exactly the released reservations are EXPIRED, the others as they were, and the books
      stay balanced whatever others commit. */
  lemma {:induction false} GaAfterMeans(db: Tables, ids: seq<nat>, rivals: Rivals, n: nat)
    requires GaInv(db.ga) && Increasing(ids) && AllLive(db.ga, ids) && n <= |ids|
    ensures GaInv(GaAfter(db, ids, rivals, n)) && Gone(db, ids, rivals, n) <= Elements(ids[..n])
    ensures RowsAfter(db.ga, Elements(ids), Gone(db, ids, rivals, n), GaAfter(db, ids, rivals, n))
  {
    if n > 0 {
      GaAfterMeans(db, ids, rivals, n - 1);
      PrefixStep(ids, n - 1);
      RowGoneThrough(db, Elements(ids), Gone(db, ids, rivals, n - 1), GaAfter(db, ids, rivals, n - 1), ids[n - 1],
                     OpsAt(rivals, ids[n - 1]));
    }
  }

  lemma RowGoneThrough(db: Tables, ids: set<nat>, gone: set<nat>, t: GaTables, r: nat, ops: seq<GaOp>)
    requires GaInv(t) && RowsAfter(db.ga, ids, gone, t) && r in ids && r !in gone && IsLive(db.ga, r)
    ensures GaInv(GaNext(db, t, r, ops, ids))
    ensures RowsAfter(db.ga, ids, gone + if Releases(db, t, r, ops, ids) then {r} else {}, GaNext(db, t, r, ops, ids))
  {
    LiveStill(db.ga, ids, gone, t, r);
    GaNextKeeps(db, t, r, ops, ids);
    OneRowMore(db.ga, ids, gone, t, Meanwhile(db, t, r, ops, ids), r);
  }

  /** When nobody else writes, the released reservations are the unshielded ones, and nothing but their
      rows and pools is written. */
  lemma {:induction false} AloneReleasesUnshielded(db: Tables, ids: seq<nat>, n: nat)
    requires GaInv(db.ga) && Increasing(ids) && AllLive(db.ga, ids) && n <= |ids|
    ensures Gone(db, ids, map[], n) == UnshieldedReservations(db, Elements(ids[..n]))
    ensures GaAfter(db, ids, map[], n).rows.Keys == db.ga.rows.Keys
    ensures forall r :: r in db.ga.rows && r !in ids ==> GaAfter(db, ids, map[], n).rows[r] == db.ga.rows[r]
  {
    if n > 0 {
      var m: nat := n - 1;
      AloneReleasesUnshielded(db, ids, m);
      AloneOneMore(db, ids, m, n, GaAfter(db, ids, map[], m));
      PrefixStep(ids, m);
      OneUnshieldedMore(db, Elements(ids[..m]), ids[m], Elements(ids[..n]));
    }
  }

  lemma OneUnshieldedMore(db: Tables, ids: set<nat>, r: nat, more: set<nat>)
    requires more == ids + {r}
    ensures UnshieldedReservations(db, more)
         == UnshieldedReservations(db, ids) + if HasCapturedPayment(db, GaClaim(r)) then {} else {r}
  {
  }

  lemma AloneOneMore(db: Tables, ids: seq<nat>, n: nat, next: nat, t: GaTables)
    requires GaInv(db.ga) && Increasing(ids) && AllLive(db.ga, ids) && next == n + 1 <= |ids| && t == GaAfter(db, ids, map[], n)
    ensures GaInv(t) && IsLive(t, ids[n]) && t.rows[ids[n]].matchId in t.pools
    ensures ids[n] in db.ga.rows && t.rows[ids[n]] == db.ga.rows[ids[n]]
    ensures Releases(db, t, ids[n], [], Elements(ids)) <==> !HasCapturedPayment(db, GaClaim(ids[n]))
    ensures GaAfter(db, ids, map[], next) == if HasCapturedPayment(db, GaClaim(ids[n])) then t else ReleaseGa(t, ids[n])
  {
    GaAfterMeans(db, ids, map[], n);
    PrefixStep(ids, n);
    LiveStill(db.ga, Elements(ids), Gone(db, ids, map[], n), t, ids[n]);
    GaNextKeeps(db, t, ids[n], [], Elements(ids));
  }

  function UnshieldedReservations(db: Tables, ids: set<nat>): set<nat> {
    set r | r in ids && !HasCapturedPayment(db, GaClaim(r))
  }

  lemma SameShield(db: Tables, db': Tables, claim: Claim)
    requires db'.orders == db.orders && db'.payments == db.payments
    ensures HasCapturedPayment(db', claim) == HasCapturedPayment(db, claim)
  {
  }

  /** One reservation of the batch. */
  method ExpireGaOne(session: Session, finalizer: SqlInventoryFinalizer, r: nat, ops: seq<GaOp>, locked: set<nat>)
    returns (ok: bool)
    requires finalizer.session == session && r in locked
    requires GaInv(session.tables.ga) && IsLive(session.tables.ga, r)
    modifies session
    ensures ok <==> Releases(old(session.tables), old(session.tables.ga), r, ops, locked)
    ensures session.tables == old(session.tables).(
              ga := GaNext(old(session.tables), old(session.tables.ga), r, ops, locked))
    ensures session.committed == old(session.committed).(
              ga := Meanwhile(old(session.tables), old(session.committed.ga), r, ops, locked))
  {
    GaNextKeeps(session.tables, session.tables.ga, r, ops, locked);
    var shielded := HasCaptured(session, None, Some(r));
    if shielded {
      return false;
    }
    ok := finalizer.ReleaseGeneral(r, ops, locked);
  }

  // ---------- the same, in the rows ----------

  /** A reservation a pass may release: ACTIVE past its deadline, not locked, without a captured payment,
      and with fewer than a batch of ACTIVE overdue unlocked ids before it. */
  lemma RowInBatch(db: Tables, now: int, n: nat, locked: set<nat>, r: nat)
    requires r in db.ga.rows
    ensures r in UnshieldedReservations(db, Elements(Batch(DueReservations(db.ga, now), locked, n))) <==>
              && db.ga.rows[r].status == HoldStatus.Active && db.ga.rows[r].expiresAt <= now && r !in locked
              && (forall o :: o in db.orders && db.orders[o].claim == GaClaim(r) && o in db.payments ==>
                    db.payments[o].status != PaymentStatus.Captured)
              && |set q | q in db.ga.rows && db.ga.rows[q].status == HoldStatus.Active
                          && db.ga.rows[q].expiresAt <= now && q !in locked && q < r| < n
  {
    var due := DueReservations(db.ga, now);
    if r in due - locked {
      InBatchIff(due, locked, n, r);
      assert InFront(due - locked, r)
          == set q | q in db.ga.rows && db.ga.rows[q].status == HoldStatus.Active
                     && db.ga.rows[q].expiresAt <= now && q !in locked && q < r;
    }
  }

  /** What a pass with nobody else writing makes of the reservations, read off the rows. */
  ghost predicate OverdueRowsExpired(db: Tables, t': GaTables, now: int, n: nat, locked: set<nat>) {
    var t := db.ga;
    && t'.rows.Keys == t.rows.Keys
    && forall r :: r in t.rows ==>
         t'.rows[r] ==
           if t.rows[r].status == HoldStatus.Active && t.rows[r].expiresAt <= now && r !in locked
              && (forall o :: o in db.orders && db.orders[o].claim == GaClaim(r) && o in db.payments ==>
                    db.payments[o].status != PaymentStatus.Captured)
              && |set q | q in t.rows && t.rows[q].status == HoldStatus.Active && t.rows[q].expiresAt <= now
                          && q !in locked && q < r| < n
           then t.rows[r].(status := HoldStatus.Expired)
           else t.rows[r]
  }

  /** The reservations that one table has ACTIVE and the other EXPIRED. */
  function ExpiredRows(t: GaTables, t': GaTables): set<nat> {
    set r | r in t.rows && t.rows[r].status == HoldStatus.Active
            && r in t'.rows && t'.rows[r].status == HoldStatus.Expired
  }

  lemma RowsAlone(db: Tables, ids: seq<nat>, gone: set<nat>, t': GaTables)
    requires GaInv(db.ga) && Increasing(ids) && AllLive(db.ga, ids)
    requires gone == UnshieldedReservations(db, Elements(ids)) && t' == GaAfter(db, ids, map[], |ids|)
    ensures Gone(db, ids, map[], |ids|) == gone && t'.rows.Keys == db.ga.rows.Keys && GaInv(t')
    ensures forall r :: r in db.ga.rows ==> t'.rows[r] == RowAfter(db.ga, gone, r)
  {
    assert ids[..|ids|] == ids;
    GaAfterMeans(db, ids, map[], |ids|);
    AloneReleasesUnshielded(db, ids, |ids|);
    forall r | r in db.ga.rows ensures t'.rows[r] == RowAfter(db.ga, gone, r) {
      assert r in ids <==> r in Elements(ids);
    }
  }

  lemma RowsRead(db: Tables, now: int, n: nat, locked: set<nat>, gone: set<nat>, t': GaTables)
    requires gone == UnshieldedReservations(db, Elements(Batch(DueReservations(db.ga, now), locked, n)))
    requires t'.rows.Keys == db.ga.rows.Keys && forall r :: r in db.ga.rows ==> t'.rows[r] == RowAfter(db.ga, gone, r)
    ensures OverdueRowsExpired(db, t', now, n, locked)
  {
    forall r | r in db.ga.rows {
      RowInBatch(db, now, n, locked, r);
    }
  }

  lemma GoneAreExpired(t: GaTables, gone: set<nat>, t': GaTables)
    requires t'.rows.Keys == t.rows.Keys && forall r :: r in t.rows ==> t'.rows[r] == RowAfter(t, gone, r)
    requires forall r :: r in gone ==> IsLive(t, r)
    ensures gone == ExpiredRows(t, t')
  {
  }

  lemma RowsExpired(db: Tables, now: int, n: nat, locked: set<nat>)
    requires GaInv(db.ga)
    ensures var ids := Batch(DueReservations(db.ga, now), locked, n);
            && OverdueRowsExpired(db, GaAfter(db, ids, map[], |ids|), now, n, locked)
            && Gone(db, ids, map[], |ids|) == ExpiredRows(db.ga, GaAfter(db, ids, map[], |ids|))
  {
    var ids := Batch(DueReservations(db.ga, now), locked, n);
    forall r | r in ids ensures IsLive(db.ga, r) {
      assert r in Elements(ids);
    }
    var gone, t' := UnshieldedReservations(db, Elements(ids)), GaAfter(db, ids, map[], |ids|);
    RowsAlone(db, ids, gone, t');
    RowsRead(db, now, n, locked, gone, t');
    GoneAreExpired(db.ga, gone, t');
  }

  /** While others write, such a reservation is EXPIRED by the pass as well, unless somebody writes to the
      general admission between the read of its pool and the update; a shielded one stays as it is. */
  lemma OverdueRowExpired(db: Tables, now: int, n: nat, locked: set<nat>, rivals: Rivals, r: nat)
    requires GaInv(db.ga) && r in db.ga.rows
    requires db.ga.rows[r].status == HoldStatus.Active && db.ga.rows[r].expiresAt <= now && r !in locked
    requires |set q | q in db.ga.rows && db.ga.rows[q].status == HoldStatus.Active && db.ga.rows[q].expiresAt <= now
                      && q !in locked && q < r| < n
    ensures var ids := Batch(DueReservations(db.ga, now), locked, n);
            var t' := GaAfter(db, ids, rivals, |ids|);
            && r in t'.rows
            && (if exists o :: o in db.orders && db.orders[o].claim == GaClaim(r) && o in db.payments
                               && db.payments[o].status == PaymentStatus.Captured
                then t'.rows[r] == db.ga.rows[r]
                else r !in rivals ==> t'.rows[r] == db.ga.rows[r].(status := HoldStatus.Expired))
  {
    var ids := Batch(DueReservations(db.ga, now), locked, n);
    BatchedRow(db, now, n, locked, r);
    forall q | q in ids ensures IsLive(db.ga, q) {
      assert q in Elements(ids);
    }
    RowByShield(db, ids, rivals, r);
  }

  lemma RowByShield(db: Tables, ids: seq<nat>, rivals: Rivals, r: nat)
    requires GaInv(db.ga) && Increasing(ids) && AllLive(db.ga, ids) && r in ids
    ensures r in db.ga.rows && r in GaAfter(db, ids, rivals, |ids|).rows
    ensures HasCapturedPayment(db, GaClaim(r)) ==> GaAfter(db, ids, rivals, |ids|).rows[r] == db.ga.rows[r]
    ensures !HasCapturedPayment(db, GaClaim(r)) && r !in rivals ==>
              GaAfter(db, ids, rivals, |ids|).rows[r] == db.ga.rows[r].(status := HoldStatus.Expired)
  {
    assert ids[..|ids|] == ids;
    GaAfterMeans(db, ids, rivals, |ids|);
    GoneIff(db, ids, rivals, |ids|, r);
  }

  lemma BatchedRow(db: Tables, now: int, n: nat, locked: set<nat>, r: nat)
    requires r in db.ga.rows
    requires db.ga.rows[r].status == HoldStatus.Active && db.ga.rows[r].expiresAt <= now && r !in locked
    requires |set q | q in db.ga.rows && db.ga.rows[q].status == HoldStatus.Active && db.ga.rows[q].expiresAt <= now
                      && q !in locked && q < r| < n
    ensures r in Batch(DueReservations(db.ga, now), locked, n)
  {
    var due := DueReservations(db.ga, now);
    InBatchIff(due, locked, n, r);
    assert InFront(due - locked, r)
        == set q | q in db.ga.rows && db.ga.rows[q].status == HoldStatus.Active
                   && db.ga.rows[q].expiresAt <= now && q !in locked && q < r;
  }

  lemma {:induction false} GoneIff(db: Tables, ids: seq<nat>, rivals: Rivals, n: nat, r: nat)
    requires GaInv(db.ga) && Increasing(ids) && AllLive(db.ga, ids) && n <= |ids| && r in Elements(ids[..n])
    ensures HasCapturedPayment(db, GaClaim(r)) ==> r !in Gone(db, ids, rivals, n)
    ensures !HasCapturedPayment(db, GaClaim(r)) && r !in rivals ==> r in Gone(db, ids, rivals, n)
  {
    var m: nat := n - 1;
    PrefixStep(ids, m);
    if r in Elements(ids[..m]) {
      GoneIff(db, ids, rivals, m, r);
    } else {
      ReleasesIff(db, ids, rivals, m, r);
    }
  }

  lemma ReleasesIff(db: Tables, ids: seq<nat>, rivals: Rivals, m: nat, r: nat)
    requires GaInv(db.ga) && Increasing(ids) && AllLive(db.ga, ids) && m < |ids| && r == ids[m]
    ensures r !in Gone(db, ids, rivals, m)
    ensures var t := GaAfter(db, ids, rivals, m);
            && (HasCapturedPayment(db, GaClaim(r)) ==> !Releases(db, t, r, OpsAt(rivals, r), Elements(ids)))
            && (!HasCapturedPayment(db, GaClaim(r)) && r !in rivals ==> Releases(db, t, r, OpsAt(rivals, r), Elements(ids)))
  {
    PrefixStep(ids, m);
    GaAfterMeans(db, ids, rivals, m);
    var t := GaAfter(db, ids, rivals, m);
    LiveStill(db.ga, Elements(ids), Gone(db, ids, rivals, m), t, r);
    GaNextKeeps(db, t, r, OpsAt(rivals, r), Elements(ids));
  }

  /** Goes through the batch: releases and counts exactly the reservations that are not shielded and
      whose pool nobody writes in between. */
  method ExpireGa(session: Session, finalizer: SqlInventoryFinalizer, now: int, batchSize: nat, locked: set<nat>,
                  rivals: Rivals)
    returns (expired: nat)
    requires finalizer.session == session && GaInv(session.tables.ga)
    modifies session
    ensures var db := old(session.tables);
            var ids := Batch(DueReservations(db.ga, now), locked, batchSize);
            && session.tables == db.(ga := GaAfter(db, ids, rivals, |ids|))
            && session.committed == old(session.committed).(
                 ga := OthersAfter(db, old(session.committed.ga), ids, rivals, |ids|))
            && expired == |Gone(db, ids, rivals, |ids|)|
    ensures rivals == map[] ==>
              && OverdueRowsExpired(old(session.tables), session.tables.ga, now, batchSize, locked)
              && expired == |ExpiredRows(old(session.tables.ga), session.tables.ga)|
  {
    RowsExpired(session.tables, now, batchSize, locked);
    var db := session.tables;
    var ids := Batch(DueReservations(db.ga, now), locked, batchSize);
    assert forall r :: r in ids ==> r in Elements(ids);
    expired := ExpireRows(session, finalizer, ids, rivals);
  }

  method ExpireRows(session: Session, finalizer: SqlInventoryFinalizer, ids: seq<nat>, rivals: Rivals)
    returns (expired: nat)
    requires finalizer.session == session && GaInv(session.tables.ga)
    requires Increasing(ids) && AllLive(session.tables.ga, ids)
    modifies session
    ensures session.tables == old(session.tables).(ga := GaAfter(old(session.tables), ids, rivals, |ids|))
    ensures session.committed == old(session.committed).(
              ga := OthersAfter(old(session.tables), old(session.committed.ga), ids, rivals, |ids|))
    ensures expired == |Gone(old(session.tables), ids, rivals, |ids|)|
  {
    ghost var db, seen := session.tables, session.committed;
    expired := 0;
    for n := 0 to |ids|
      invariant session.tables == db.(ga := GaAfter(db, ids, rivals, n))
      invariant session.committed == seen.(ga := OthersAfter(db, seen.ga, ids, rivals, n))
      invariant expired == |Gone(db, ids, rivals, n)|
    {
      BeforeRow(db, ids, rivals, n, session.tables, session.committed.ga);
      var ok := ExpireGaOne(session, finalizer, ids[n], OpsAt(rivals, ids[n]), Elements(ids));
      if ok { expired := expired + 1; }
    }
  }

  /** The shields looked at are those of the start of the pass. */
  lemma BeforeRow(db: Tables, ids: seq<nat>, rivals: Rivals, n: nat, db': Tables, others: GaTables)
    requires GaInv(db.ga) && Increasing(ids) && AllLive(db.ga, ids) && n < |ids|
    requires db' == db.(ga := GaAfter(db, ids, rivals, n))
    ensures ids[n] in Elements(ids) && GaInv(db'.ga) && IsLive(db'.ga, ids[n])
    ensures var r, ops := ids[n], OpsAt(rivals, ids[n]);
            && GaNext(db', db'.ga, r, ops, Elements(ids)) == GaAfter(db, ids, rivals, n + 1)
            && Meanwhile(db', others, r, ops, Elements(ids)) == Meanwhile(db, others, r, ops, Elements(ids))
            && (Releases(db', db'.ga, r, ops, Elements(ids)) <==> Releases(db, db'.ga, r, ops, Elements(ids)))
    ensures |Gone(db, ids, rivals, n + 1)|
         == |Gone(db, ids, rivals, n)| + if Releases(db, db'.ga, ids[n], OpsAt(rivals, ids[n]), Elements(ids)) then 1 else 0
  {
    SameShield(db, db', GaClaim(ids[n]));
    GaAfterMeans(db, ids, rivals, n);
    PrefixStep(ids, n);
    LiveStill(db.ga, Elements(ids), Gone(db, ids, rivals, n), db'.ga, ids[n]);
  }
}
