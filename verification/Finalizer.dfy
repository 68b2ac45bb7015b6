/** The database session and the inventory finalizer: row-by-row loops over uncommitted tables. */
module Finalizer {
  import opened Collections
  import opened SeatInventory
  import opened GaInventory
  import opened GaTraffic
  import opened Booking

  /** One database session: the rows every transaction sees, and the rows this one has written. */
  class Session {
    var committed: Tables
    var tables: Tables

    constructor (db: Tables)
      ensures committed == tables == db
    {
      committed, tables := db, db;
    }

    method Commit()
      modifies this
      ensures committed == tables == old(tables)
    {
      committed := tables;
    }

    method Rollback()
      modifies this
      ensures tables == committed == old(committed)
    {
      tables := committed;
    }
  }

  /** A row of the confirm loop, written. */
  function Sell(seat: Seat, read: Seat): Seat {
    seat.(status := Sold, version := read.version + 1)
  }

  class SqlInventoryFinalizer {
    const session: Session

    constructor (s: Session)
      ensures session == s
    {
      session := s;
    }

    /** Reads the hold and its seats, lets `meanwhile` happen in other transactions, then writes seat
        by seat, each write conditional on what was read. It succeeds exactly when the hold was and
        still is active, and then has the effect of one atomic confirm at write time; when it fails,
        nothing it wrote is committed. */
    method ConfirmAssigned(h: nat, meanwhile: SeatTables) returns (ok: bool)
      requires session.tables == session.committed
      requires SeatInv(session.tables.seat) && SeatInv(meanwhile) && Evolves(session.tables.seat, meanwhile)
      modifies session
      ensures ok <==> IsActive(old(session.tables.seat), h) && IsActive(meanwhile, h)
      ensures session.committed ==
              if IsActive(old(session.tables.seat), h) then old(session.committed).(seat := meanwhile)
              else old(session.committed)
      ensures ok ==> session.tables == session.committed.(seat := SeatInventory.Confirm(meanwhile, h))
      ensures !IsActive(old(session.tables.seat), h) ==> session.tables == old(session.tables)
    {
      var before := session.tables.seat;
      if h !in before.holds || before.holds[h].status != HoldStatus.Active {
        return false;
      }
      var rows := SeatsOf(before, h);
      if rows == map[] {
        return false;
      }
      session.committed := session.committed.(seat := meanwhile);
      session.tables := session.tables.(seat := meanwhile);
      OptimisticConfirm(before, meanwhile, h);

      ok := SellRows(rows, h);
      if !ok {
        return;
      }
      var t := session.tables.seat;
      session.tables := session.tables.(seat := t.(holds := t.holds[h := t.holds[h].(status := HoldStatus.Confirmed)]));
    }

    /** The conditional writes, in id order, up to the first row that no longer matches. */
    method SellRows(rows: map<nat, Seat>, h: nat) returns (ok: bool)
      modifies session
      ensures session.committed == old(session.committed)
      ensures ok <==> AllMatch(old(session.tables.seat.seats), rows, h)
      ensures ok && h in old(session.tables.seat.holds) ==>
                session.tables == old(session.tables).(seat := old(session.tables.seat).(
                  seats := WriteRows(old(session.tables.seat), rows, h).seats))
    {
      var ids := Sorted(rows.Keys);
      ghost var db, t := session.tables, session.tables.seat;
      ghost var done: set<nat> := {};
      for n := 0 to |ids|
        invariant done == Elements(ids[..n]) && done <= rows.Keys
        invariant forall i :: i in done ==> RowMatches(t.seats, i, rows[i], h)
        invariant session.committed == old(session.committed)
        invariant session.tables == db.(seat := t.(seats := session.tables.seat.seats))
        invariant SomeSold(t.seats, session.tables.seat.seats, rows, done)
      {
        var i := ids[n];
        PrefixStep(ids, n);
        SellOneMore(t.seats, session.tables.seat.seats, rows, done, i, h);
        var sold := SellRow(i, rows[i], h);
        if !sold {
          assert !RowMatches(t.seats, i, rows[i], h);
          return false;
        }
        done := done + {i};
      }
      assert ids[..|ids|] == ids;
      if h in t.holds { WrittenAll(t, rows, h, session.tables.seat.seats); }
      ok := true;
    }

    /** One compare-and-set. */
    method SellRow(i: nat, read: Seat, h: nat) returns (ok: bool)
      modifies session
      ensures session.committed == old(session.committed)
      ensures ok <==> RowMatches(old(session.tables.seat.seats), i, read, h)
      ensures session.tables ==
              if ok then WithRow(old(session.tables), i, Sell(old(session.tables.seat.seats)[i], read))
              else old(session.tables)
    {
      ok := RowMatches(session.tables.seat.seats, i, read, h);
      if ok {
        session.tables := WithRow(session.tables, i, Sell(session.tables.seat.seats[i], read));
      }
    }

    /** Reads an active hold's seats, frees every one that still carries the hold by the time of the writes,
        and expires the hold: `meanwhile` is what the session then sees of the seat tables. The seats
        freed come back in id order. */
    method ReleaseAssigned(h: nat, meanwhile: SeatTables) returns (released: seq<nat>)
      requires h in session.tables.seat.holds ==> h in meanwhile.holds
      modifies session
      ensures session.committed == old(session.committed)
      ensures var t := old(session.tables.seat);
              if IsActive(t, h)
              then released == Sorted(set i | i in SeatsOf(t, h) && HeldBy(meanwhile, i, h))
                   && session.tables == old(session.tables).(seat := WriteReleases(meanwhile, SeatsOf(t, h), h))
              else released == [] && session.tables == old(session.tables)
    {
      var t := session.tables.seat;
      if h !in t.holds || t.holds[h].status != HoldStatus.Active {
        return [];
      }
      var rows := SeatsOf(t, h);
      session.tables := session.tables.(seat := meanwhile);
      released := FreeRows(rows, h);
      var t' := session.tables.seat;
      session.tables := session.tables.(seat := t'.(holds := t'.holds[h := t'.holds[h].(status := HoldStatus.Expired)]));
    }

    /** The release writes, matched on the hold alone. */
    method FreeRows(rows: map<nat, Seat>, h: nat) returns (released: seq<nat>)
      requires h in session.tables.seat.holds
      modifies session
      ensures session.committed == old(session.committed)
      ensures released == Sorted(set i | i in rows && HeldBy(old(session.tables.seat), i, h))
      ensures session.tables == old(session.tables).(seat := old(session.tables.seat).(
                seats := WriteReleases(old(session.tables.seat), rows, h).seats))
    {
      ghost var t := session.tables.seat;
      released := FreeEach(Sorted(rows.Keys), rows, h);
      SortedUnique(released, Sorted(set i | i in rows && HeldBy(t, i, h)));
      ReleasedAll(t, h, rows, session.tables.seat.seats);
    }

    method FreeEach(ids: seq<nat>, rows: map<nat, Seat>, h: nat) returns (released: seq<nat>)
      requires Increasing(ids) && Elements(ids) <= rows.Keys
      modifies session
      ensures session.committed == old(session.committed)
      ensures Increasing(released) && Elements(released) == StillHeld(old(session.tables.seat), h, Elements(ids))
      ensures session.tables == old(session.tables).(seat := old(session.tables.seat).(seats := session.tables.seat.seats))
      ensures SomeReleased(old(session.tables.seat), session.tables.seat.seats, rows, h, Elements(ids))
    {
      ghost var db, t := session.tables, session.tables.seat;
      released := [];
      for n := 0 to |ids|
        invariant Increasing(released) && Elements(released) == StillHeld(t, h, Elements(ids[..n]))
        invariant session.committed == old(session.committed)
        invariant session.tables == db.(seat := t.(seats := session.tables.seat.seats))
        invariant SomeReleased(t, session.tables.seat.seats, rows, h, Elements(ids[..n]))
      {
        var i := ids[n];
        PrefixStep(ids, n);
        ReleaseOneMore(t, session.tables.seat.seats, rows, Elements(ids[..n]), i, h);
        AppendHeld(t, h, ids, n, released);
        var freed := FreeRow(i, rows[i], h);
        if freed { released := released + [i]; }
      }
      assert ids[..|ids|] == ids;
    }

    /** One release update: the version written is the one read, plus one. */
    method FreeRow(i: nat, read: Seat, h: nat) returns (ok: bool)
      modifies session
      ensures session.committed == old(session.committed)
      ensures ok <==> HeldBy(old(session.tables.seat), i, h)
      ensures session.tables ==
              if ok then WithRow(old(session.tables), i,
                                 FreedSeat(old(session.tables.seat.seats)[i].(version := read.version)))
              else old(session.tables)
    {
      ok := HeldBy(session.tables.seat, i, h);
      if ok {
        session.tables := WithRow(session.tables, i, FreedSeat(session.tables.seat.seats[i].(version := read.version)));
      }
    }

    method ConfirmGeneral(r: nat) returns (ok: bool)
      modifies session
      ensures session.committed == old(session.committed)
      ensures ok <==> IsLive(old(session.tables.ga), r)
      ensures session.tables == if ok then old(session.tables).(ga := ConfirmGa(old(session.tables.ga), r))
                                else old(session.tables)
    {
      var t := session.tables.ga;
      if r !in t.rows || t.rows[r].status != HoldStatus.Active {
        return false;
      }
      session.tables := session.tables.(ga := t.(rows := t.rows[r := t.rows[r].(status := HoldStatus.Confirmed)]));
      ok := true;
    }

    /** Returns the units of an active reservation, unless its pool has moved on since it was read: `ops`
        are the transactions that others commit between the read and the update, and `locked` the rows
        this session keeps them from. */
    method ReleaseGeneral(r: nat, ops: seq<GaOp>, locked: set<nat>) returns (ok: bool)
      requires GaInv(session.tables.ga) && r in locked
      modifies session
      ensures var t := old(session.tables.ga);
              var t' := AfterOps(t, ops, locked);
              if !IsLive(t, r) then
                !ok && session.tables == old(session.tables) && session.committed == old(session.committed)
              else
                && session.committed == old(session.committed).(ga := AfterOps(old(session.committed.ga), ops, locked))
                && (ok <==> PoolStill(t, t', t.rows[r].matchId))
                && (ok ==> IsLive(t', r) && t'.rows[r].matchId in t'.pools)
                && session.tables == old(session.tables).(ga := if ok then ReleaseGa(t', r) else t')
    {
      var t := session.tables.ga;
      if r !in t.rows || t.rows[r].status != HoldStatus.Active {
        return false;
      }
      var row := t.rows[r];
      assert RowOk(t, row);
      var version := t.pools[row.matchId].version;
      OpsKeep(t, ops, locked);
      var t' := AfterOps(t, ops, locked);
      session.committed := session.committed.(ga := AfterOps(session.committed.ga, ops, locked));
      session.tables := session.tables.(ga := t');
      var pool := t'.pools[row.matchId];
      if pool.version != version {
        return false;
      }
      var pools := t'.pools[row.matchId := pool.(available := pool.available + row.quantity, version := pool.version + 1)];
      session.tables := session.tables.(ga := GaTables(pools, t'.rows[r := row.(status := HoldStatus.Expired)]));
      ok := true;
    }
  }

  function WithRow(db: Tables, i: nat, seat: Seat): Tables {
    db.(seat := db.seat.(seats := db.seat.seats[i := seat]))
  }

  /** The seats of `done` are sold, the others as before. */
  predicate SomeSold(before: map<nat, Seat>, seats: map<nat, Seat>, rows: map<nat, Seat>, done: set<nat>)
    requires done <= rows.Keys
  {
    && seats.Keys == before.Keys
    && forall i :: i in before ==> seats[i] == if i in done then Sell(before[i], rows[i]) else before[i]
  }

  /** The rows that an update matched on the hold would still find. */
  function StillHeld(t: SeatTables, h: nat, ids: set<nat>): set<nat> {
    set i | i in ids && HeldBy(t, i, h)
  }

  /** The seats of `done` are freed where they still carry the hold, the others as before. */
  predicate SomeReleased(t: SeatTables, seats: map<nat, Seat>, rows: map<nat, Seat>, h: nat, done: set<nat>)
    requires done <= rows.Keys
  {
    && seats.Keys == t.seats.Keys
    && forall i :: i in t.seats ==> seats[i] == AfterRelease(t, rows, h, done, i)
  }

  function AfterRelease(t: SeatTables, rows: map<nat, Seat>, h: nat, done: set<nat>, i: nat): Seat
    requires i in t.seats && done <= rows.Keys
  {
    if i in done && HeldBy(t, i, h) then FreedSeat(t.seats[i].(version := rows[i].version)) else t.seats[i]
  }

  lemma SellOneMore(before: map<nat, Seat>, seats: map<nat, Seat>, rows: map<nat, Seat>, done: set<nat>, i: nat, h: nat)
    requires done <= rows.Keys && SomeSold(before, seats, rows, done) && i in rows && i !in done
    ensures RowMatches(seats, i, rows[i], h) <==> RowMatches(before, i, rows[i], h)
    ensures i in seats ==> SomeSold(before, seats[i := Sell(seats[i], rows[i])], rows, done + {i})
  {
  }

  lemma ReleaseOneMore(t: SeatTables, seats: map<nat, Seat>, rows: map<nat, Seat>, done: set<nat>, i: nat, h: nat)
    requires done <= rows.Keys && SomeReleased(t, seats, rows, h, done) && i in rows && i !in done
    ensures i in t.seats <==> i in seats
    ensures i in seats ==> seats[i] == t.seats[i]
    ensures SomeReleased(t, if HeldBy(t, i, h) then seats[i := FreedSeat(seats[i].(version := rows[i].version))] else seats,
                         rows, h, done + {i})
  {
  }

  lemma AppendHeld(t: SeatTables, h: nat, ids: seq<nat>, n: nat, released: seq<nat>)
    requires Increasing(ids) && n < |ids| && Increasing(released)
    requires Elements(released) == StillHeld(t, h, Elements(ids[..n]))
    ensures Increasing(released + [ids[n]])
    ensures Elements(if HeldBy(t, ids[n], h) then released + [ids[n]] else released) == StillHeld(t, h, Elements(ids[..n + 1]))
  {
    PrefixStep(ids, n);
    forall k | 0 <= k < |released| ensures released[k] < ids[n] {
      assert released[k] in Elements(released);
    }
    assert Elements(released + [ids[n]]) == Elements(released) + {ids[n]};
  }

  lemma WrittenAll(t: SeatTables, rows: map<nat, Seat>, h: nat, seats: map<nat, Seat>)
    requires h in t.holds && seats.Keys == t.seats.Keys
    requires forall i :: i in seats ==> seats[i] == if i in rows.Keys then Sell(t.seats[i], rows[i]) else t.seats[i]
    ensures seats == WriteRows(t, rows, h).seats
  {
  }

  lemma ReleasedAll(t: SeatTables, h: nat, rows: map<nat, Seat>, seats: map<nat, Seat>)
    requires h in t.holds && SomeReleased(t, seats, rows, h, rows.Keys)
    ensures seats == WriteReleases(t, rows, h).seats
  {
  }
}
