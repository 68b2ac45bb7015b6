/** The seat and hold tables, with the three transactions that write them: taking a hold, the
    optimistic HELD-to-SOLD confirm, and the release of an expired hold. */
module SeatInventory {
  import opened Collections

  datatype SeatStatus = Available | Held | Sold

  datatype HoldStatus = Active | Confirmed | Expired | Released

  datatype Seat = Seat(matchId: nat, status: SeatStatus, holdId: Option<nat>, heldUntil: Option<int>, version: nat)

  datatype Hold = Hold(matchId: nat, sessionId: string, key: string, status: HoldStatus, expiresAt: int)

  datatype SeatTables = SeatTables(seats: map<nat, Seat>, holds: map<nat, Hold>)

  predicate HeldBy(t: SeatTables, i: nat, h: nat) {
    i in t.seats && t.seats[i].holdId == Some(h)
  }

  /** `SELECT ... FROM seats WHERE hold_id = h`: the seat table without the other rows. */
  function SeatsOf(t: SeatTables, h: nat): (rows: map<nat, Seat>)
    ensures forall i :: i in rows <==> HeldBy(t, i, h)
    ensures forall i :: i in rows ==> HeldBy(t, i, h) && rows[i] == t.seats[i]
  {
    t.seats - (set i | i in t.seats && !HeldBy(t, i, h))
  }

  predicate IsActive(t: SeatTables, h: nat) {
    h in t.holds && t.holds[h].status == Active
  }

  // ---------- the transactions ----------

  /** What the reserving transaction finds under its row locks, together with the unique hold key. */
  predicate Reservable(t: SeatTables, h: nat, matchId: nat, ids: set<nat>, key: string) {
    && h !in t.holds
    && ids != {}
    && (forall g :: g in t.holds ==> t.holds[g].key != key)
    && (forall i :: i in ids ==> i in t.seats && t.seats[i].matchId == matchId && t.seats[i].status == Available)
  }

  function TakenBy(seat: Seat, h: nat, until: int): Seat {
    seat.(status := Held, holdId := Some(h), heldUntil := Some(until), version := seat.version + 1)
  }

  function SoldSeat(seat: Seat): Seat {
    seat.(status := Sold, version := seat.version + 1)
  }

  function FreedSeat(seat: Seat): Seat {
    seat.(status := Available, holdId := None, heldUntil := None, version := seat.version + 1)
  }

  function Reserve(t: SeatTables, h: nat, hold: Hold, ids: set<nat>): SeatTables {
    SeatTables(
      map i | i in t.seats :: if i in t.seats && i in ids then TakenBy(t.seats[i], h, hold.expiresAt) else t.seats[i],
      t.holds[h := hold])
  }

  /** The confirm as one atomic transaction: every seat of an active hold is sold. */
  function Confirm(t: SeatTables, h: nat): SeatTables
    requires h in t.holds
  {
    SeatTables(
      map i | i in t.seats :: if HeldBy(t, i, h) then SoldSeat(t.seats[i]) else t.seats[i],
      t.holds[h := t.holds[h].(status := Confirmed)])
  }

  /** Release as the code writes it: matched on the hold only, whatever the seat's status. */
  function Release(t: SeatTables, h: nat): SeatTables
    requires h in t.holds
  {
    SeatTables(
      map i | i in t.seats :: if HeldBy(t, i, h) then FreedSeat(t.seats[i]) else t.seats[i],
      t.holds[h := t.holds[h].(status := Expired)])
  }

  // ---------- the table invariant ----------

  /** A seat row agrees with the hold it points to. */
  predicate SeatOk(t: SeatTables, seat: Seat) {
    && seat.version >= 1
    && (seat.status == Available <==> seat.holdId == None)
    && (seat.holdId == None <==> seat.heldUntil == None)
    && (seat.holdId.Some? ==>
          && seat.holdId.value in t.holds
          && var hold := t.holds[seat.holdId.value];
          && hold.matchId == seat.matchId
          && seat.heldUntil == Some(hold.expiresAt)
          && hold.status == (if seat.status == Held then Active else Confirmed))
  }

  predicate SeatInv(t: SeatTables) {
    && (forall i {:trigger SeatOk(t, t.seats[i])} :: i in t.seats ==> SeatOk(t, t.seats[i]))
    && (forall h :: h in t.holds ==> t.holds[h].status != Released)
    && (forall h {:trigger SeatsOf(t, h)} :: h in t.holds && t.holds[h].status != Expired ==> SeatsOf(t, h) != map[])
    && UniqueHoldKeys(t.holds)
  }

  predicate UniqueHoldKeys(holds: map<nat, Hold>) {
    forall g, h {:trigger Pair(g, h)} :: Pair(g, h) && g in holds && h in holds && holds[g].key == holds[h].key ==> g == h
  }

  /** A new hold gets exactly the seats asked for, and takes none from another hold. */
  lemma RowsAfterReserve(t: SeatTables, h: nat, hold: Hold, ids: set<nat>, g: nat)
    requires SeatInv(t) && Reservable(t, h, hold.matchId, ids, hold.key)
    ensures SeatsOf(Reserve(t, h, hold, ids), h).Keys == ids
    ensures g != h ==> SeatsOf(Reserve(t, h, hold, ids), g) == SeatsOf(t, g)
  {
    assert forall i :: i in t.seats ==> SeatOk(t, t.seats[i]);
  }

  lemma ReservePreserves(t: SeatTables, h: nat, hold: Hold, ids: set<nat>)
    requires SeatInv(t) && Reservable(t, h, hold.matchId, ids, hold.key) && hold.status == Active
    ensures SeatInv(Reserve(t, h, hold, ids))
  {
    var t' := Reserve(t, h, hold, ids);
    forall i | i in t'.seats ensures SeatOk(t', t'.seats[i]) {
      assert SeatOk(t, t.seats[i]);
    }
    forall g | g in t'.holds && t'.holds[g].status != Expired ensures SeatsOf(t', g) != map[] {
      RowsAfterReserve(t, h, hold, ids, g);
      assert SeatsOf(t', h).Keys != {};
    }
  }

  /** Confirm and release both rewrite the seats of one hold and leave the others alone. */
  lemma RowsAfterConfirm(t: SeatTables, h: nat, g: nat)
    requires h in t.holds
    ensures SeatsOf(Confirm(t, h), h).Keys == SeatsOf(t, h).Keys
    ensures g != h ==> SeatsOf(Confirm(t, h), g) == SeatsOf(t, g)
  {
  }

  lemma RowsAfterRelease(t: SeatTables, h: nat, g: nat)
    requires h in t.holds
    ensures SeatsOf(Release(t, h), h) == map[]
    ensures g != h ==> SeatsOf(Release(t, h), g) == SeatsOf(t, g)
  {
    assert SeatsOf(Release(t, h), h).Keys == {};
  }

  lemma ConfirmPreserves(t: SeatTables, h: nat)
    requires SeatInv(t) && IsActive(t, h)
    ensures SeatInv(Confirm(t, h))
  {
    var t' := Confirm(t, h);
    forall i | i in t'.seats ensures SeatOk(t', t'.seats[i]) {
      assert SeatOk(t, t.seats[i]);
    }
    forall g | g in t'.holds && t'.holds[g].status != Expired ensures SeatsOf(t', g) != map[] {
      RowsAfterConfirm(t, h, g);
      assert SeatsOf(t, g).Keys != {};
      assert SeatsOf(t', g).Keys == SeatsOf(t, g).Keys;
    }
  }

  lemma ReleasePreserves(t: SeatTables, h: nat)
    requires SeatInv(t) && IsActive(t, h)
    ensures SeatInv(Release(t, h))
  {
    var t' := Release(t, h);
    forall i | i in t'.seats ensures SeatOk(t', t'.seats[i]) {
      assert SeatOk(t, t.seats[i]);
    }
    forall g | g in t'.holds && t'.holds[g].status != Expired ensures SeatsOf(t', g) != map[] {
      RowsAfterRelease(t, h, g);
    }
  }

  /** What the invariant says at the level of tickets: a seat is in at most one live hold, the
      seats of an active hold are all HELD, and those of a confirmed hold are all SOLD. */
  lemma SeatInvMeaning(t: SeatTables, h: nat, i: nat)
    requires SeatInv(t) && i in SeatsOf(t, h)
    ensures h in t.holds
    ensures t.holds[h].status == Active <==> t.seats[i].status == Held
    ensures t.holds[h].status == Confirmed <==> t.seats[i].status == Sold
    ensures forall g :: i in SeatsOf(t, g) ==> g == h
  {
    assert SeatOk(t, t.seats[i]);
  }

  // ---------- how the tables evolve ----------

  /** What any number of these transactions can do to the tables. */
  predicate Evolves(t: SeatTables, t': SeatTables) {
    && (forall i :: i in t.seats ==> i in t'.seats && SeatEvolves(t.seats[i], t'.seats[i]))
    && (forall h :: h in t.holds ==> h in t'.holds && HoldEvolves(t, t', h))
  }

  /** Versions only grow, every write bumps them, and SOLD is final. */
  predicate SeatEvolves(a: Seat, b: Seat) {
    && a.matchId == b.matchId
    && a.version <= b.version
    && (a.version == b.version ==> a == b)
    && (a.status == Sold ==> a == b)
  }

  /** A hold keeps its identity, never becomes active again, and keeps its seats while it lives. */
  predicate HoldEvolves(t: SeatTables, t': SeatTables, h: nat)
    requires h in t.holds && h in t'.holds
  {
    var a, b := t.holds[h], t'.holds[h];
    && b == a.(status := b.status)
    && (a.status != Active ==> b.status == a.status && SeatsOf(t', h) == SeatsOf(t, h))
    && (b.status == Active ==> SeatsOf(t', h) == SeatsOf(t, h))
    && (b.status == Confirmed ==> SeatsOf(t', h).Keys == SeatsOf(t, h).Keys)
  }

  lemma EvolvesReflexive(t: SeatTables)
    ensures Evolves(t, t)
  {
  }

  lemma EvolvesTransitive(t: SeatTables, u: SeatTables, v: SeatTables)
    requires Evolves(t, u) && Evolves(u, v)
    ensures Evolves(t, v)
  {
    forall h | h in t.holds ensures h in v.holds && HoldEvolves(t, v, h) {
      assert HoldEvolves(t, u, h) && HoldEvolves(u, v, h);
    }
    forall i | i in t.seats ensures i in v.seats && SeatEvolves(t.seats[i], v.seats[i]) {
      assert SeatEvolves(t.seats[i], u.seats[i]) && SeatEvolves(u.seats[i], v.seats[i]);
    }
  }

  lemma ReserveEvolves(t: SeatTables, h: nat, hold: Hold, ids: set<nat>)
    requires SeatInv(t) && Reservable(t, h, hold.matchId, ids, hold.key) && hold.status == Active
    ensures Evolves(t, Reserve(t, h, hold, ids))
  {
    forall g | g in t.holds ensures HoldEvolves(t, Reserve(t, h, hold, ids), g) {
      RowsAfterReserve(t, h, hold, ids, g);
    }
  }

  lemma ConfirmEvolves(t: SeatTables, h: nat)
    requires SeatInv(t) && IsActive(t, h)
    ensures Evolves(t, Confirm(t, h))
  {
    forall g | g in t.holds ensures HoldEvolves(t, Confirm(t, h), g) {
      RowsAfterConfirm(t, h, g);
    }
    forall i | i in t.seats ensures SeatEvolves(t.seats[i], Confirm(t, h).seats[i]) {
      assert SeatOk(t, t.seats[i]);
    }
  }

  lemma ReleaseEvolves(t: SeatTables, h: nat)
    requires SeatInv(t) && IsActive(t, h)
    ensures Evolves(t, Release(t, h))
  {
    forall g | g in t.holds ensures HoldEvolves(t, Release(t, h), g) {
      RowsAfterRelease(t, h, g);
    }
    forall i | i in t.seats ensures SeatEvolves(t.seats[i], Release(t, h).seats[i]) {
      assert SeatOk(t, t.seats[i]);
    }
  }

  // ---------- the optimistic confirm ----------

  /** One row of the confirm loop would match: `WHERE id = i AND status = HELD AND version =
      (version read earlier) AND hold_id = h`. */
  predicate RowMatches(seats: map<nat, Seat>, i: nat, read: Seat, h: nat) {
    i in seats && seats[i].status == Held && seats[i].version == read.version && seats[i].holdId == Some(h)
  }

  predicate AllMatch(seats: map<nat, Seat>, rows: map<nat, Seat>, h: nat) {
    forall i :: i in rows ==> RowMatches(seats, i, rows[i], h)
  }

  /** What the confirm loop leaves when every row matched. */
  function WriteRows(t: SeatTables, rows: map<nat, Seat>, h: nat): SeatTables
    requires h in t.holds
  {
    SeatTables(
      map i | i in t.seats ::
        if i in t.seats && i in rows then t.seats[i].(status := Sold, version := rows[i].version + 1) else t.seats[i],
      t.holds[h := t.holds[h].(status := Confirmed)])
  }

  lemma WriteRowsIsConfirm(t: SeatTables, h: nat)
    requires h in t.holds
    ensures WriteRows(t, SeatsOf(t, h), h) == Confirm(t, h)
  {
  }

  /** The compare-and-set loop linearises. Rows are read while the hold is active at `t`; other
      transactions then take the tables to `t'`. Every row still matches exactly when the hold is
      still active at `t'`, and then the rows read are the whole seat set of the hold. */
  lemma OptimisticConfirm(t: SeatTables, t': SeatTables, h: nat)
    requires SeatInv(t) && SeatInv(t') && Evolves(t, t') && IsActive(t, h)
    ensures AllMatch(t'.seats, SeatsOf(t, h), h) <==> IsActive(t', h)
    ensures IsActive(t', h) ==> SeatsOf(t', h) == SeatsOf(t, h) && WriteRows(t', SeatsOf(t, h), h) == Confirm(t', h)
  {
    var rows := SeatsOf(t, h);
    assert HoldEvolves(t, t', h);
    if AllMatch(t'.seats, rows, h) {
      var i :| i in rows;
      assert RowMatches(t'.seats, i, rows[i], h);
      assert SeatOk(t', t'.seats[i]);
    }
    if IsActive(t', h) {
      forall i | i in rows ensures RowMatches(t'.seats, i, rows[i], h) {
        assert i in SeatsOf(t', h);
        SeatInvMeaning(t', h, i);
        assert SeatsOf(t', h)[i] == rows[i];
      }
      WriteRowsIsConfirm(t', h);
    }
  }

  // ---------- the release, with rows read earlier ----------

  /** What the release loop leaves: each row read is freed if it still carries the hold, at the version
      read plus one, and the hold is written EXPIRED whatever it has become. */
  function WriteReleases(t: SeatTables, rows: map<nat, Seat>, h: nat): SeatTables
    requires h in t.holds
  {
    SeatTables(
      map i | i in t.seats ::
        if HeldBy(t, i, h) && i in rows then FreedSeat(t.seats[i].(version := rows[i].version)) else t.seats[i],
      t.holds[h := t.holds[h].(status := Expired)])
  }

  /** A sold seat would be freed by it. */
  lemma ReleaseFreesSold(t: SeatTables, t': SeatTables, h: nat)
    requires SeatInv(t) && SeatInv(t') && Evolves(t, t') && IsActive(t, h) && t'.holds[h].status == Confirmed
    ensures !Evolves(t', WriteReleases(t', SeatsOf(t, h), h))
  {
    assert HoldEvolves(t, t', h);
    var i :| i in SeatsOf(t, h);
    assert i in SeatsOf(t', h);
    SeatInvMeaning(t', h, i);
    var after := WriteReleases(t', SeatsOf(t, h), h);
    assert !SeatEvolves(t'.seats[i], after.seats[i]);
  }

  /** The release loop reads its rows while the hold is active at `t` and writes them at `t'`. While the
      hold is still active then, that is the atomic release; if it has expired already, nothing happens.
      It is a move the tables may make unless the hold was confirmed in between: the row lock on the hold
      is what keeps that out. */
  lemma ReleaseLinearisesIff(t: SeatTables, t': SeatTables, h: nat)
    requires SeatInv(t) && SeatInv(t') && Evolves(t, t') && IsActive(t, h)
    ensures IsActive(t', h) ==> WriteReleases(t', SeatsOf(t, h), h) == Release(t', h)
    ensures t'.holds[h].status == Expired ==> WriteReleases(t', SeatsOf(t, h), h) == t'
    ensures Evolves(t', WriteReleases(t', SeatsOf(t, h), h)) <==> t'.holds[h].status != Confirmed
  {
    assert HoldEvolves(t, t', h);
    if IsActive(t', h) {
      assert SeatsOf(t', h) == SeatsOf(t, h);
      StillItsRows(t, t', h);
      ReleaseEvolves(t', h);
    } else if t'.holds[h].status == Expired {
      NothingHeld(t', h);
      EvolvesReflexive(t');
    } else {
      ReleaseFreesSold(t, t', h);
    }
  }

  lemma StillItsRows(t: SeatTables, t': SeatTables, h: nat)
    requires h in t'.holds && SeatsOf(t', h) == SeatsOf(t, h)
    ensures WriteReleases(t', SeatsOf(t, h), h) == Release(t', h)
  {
    forall i | HeldBy(t', i, h) ensures i in SeatsOf(t, h) && SeatsOf(t, h)[i] == t'.seats[i] {
      assert i in SeatsOf(t', h);
    }
  }

  lemma NothingHeld(t: SeatTables, h: nat)
    requires SeatInv(t) && h in t.holds && t.holds[h].status == Expired
    ensures forall rows :: WriteReleases(t, rows, h) == t
  {
    forall i | i in t.seats ensures !HeldBy(t, i, h) {
      assert SeatOk(t, t.seats[i]);
    }
    forall rows ensures WriteReleases(t, rows, h) == t {}
  }
}
