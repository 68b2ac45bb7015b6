/** Taking a hold on assigned seats: lock in Redis, re-check and write in one transaction, and give the
    locks back if the transaction does not go through. */
module HoldService {
  import opened Collections
  import opened SeatInventory
  import opened SeatLocks
  import opened Finalizer
  import opened OrderLife
  import Expiry

  datatype HoldError = SeatUnavailable(seatIds: seq<nat>) | HoldConflict | DatabaseError

  datatype HoldOutcome = Reserved(hold: nat, created: bool) | Raised(error: HoldError)

  /** Where the database lets the reserving transaction down, if anywhere. A commit that raises may have
      been refused, or carried out with its acknowledgement lost. */
  datatype Fault = NoFault | FlushFails | CommitRefused | CommitUnacknowledged | RefreshFails

  /** Seats of the request that are no longer AVAILABLE, in id order. */
  function Taken(t: SeatTables, ids: set<nat>): seq<nat> {
    Sorted(set i | i in ids && i in t.seats && t.seats[i].status != Available)
  }

  predicate AllInMatch(t: SeatTables, matchId: nat, ids: set<nat>) {
    forall i :: i in ids ==> i in t.seats && t.seats[i].matchId == matchId
  }

  predicate AllAvailable(t: SeatTables, ids: set<nat>) {
    forall i :: i in ids && i in t.seats ==> t.seats[i].status == Available
  }

  predicate KeyUnused(t: SeatTables, key: string) {
    forall g :: g in t.holds ==> t.holds[g].key != key
  }

  /** What the re-check under row locks has against the seats. */
  function SeatRefusal(t: SeatTables, matchId: nat, ids: set<nat>): Option<HoldError> {
    if !AllInMatch(t, matchId, ids) then Some(SeatUnavailable(Sorted(ids)))
    else if !AllAvailable(t, ids) then Some(SeatUnavailable(Taken(t, ids)))
    else None
  }

  /** The exception the transaction ends in, if any. The unique key is enforced by the insert. */
  function Refusal(t: SeatTables, matchId: nat, ids: set<nat>, key: string, fault: Fault): Option<HoldError> {
    if SeatRefusal(t, matchId, ids) != None then SeatRefusal(t, matchId, ids)
    else if !KeyUnused(t, key) || fault != NoFault then Some(DatabaseError)
    else None
  }

  /** These faults come too late to undo anything: the transaction is committed by then. */
  predicate TooLate(fault: Fault) {
    fault == CommitUnacknowledged || fault == RefreshFails
  }

  predicate Commits(t: SeatTables, matchId: nat, ids: set<nat>, key: string, fault: Fault) {
    Refusal(t, matchId, ids, key, if TooLate(fault) then NoFault else fault) == None
  }

  function OutcomeOf(h: nat, refused: Option<HoldError>): HoldOutcome {
    match refused
    case None => Reserved(h, true)
    case Some(e) => Raised(e)
  }

  /** What a request with a new key comes to, given the tables under the row locks. */
  predicate Settles(t: SeatTables, t': SeatTables, h: nat, hold: Hold, ids: set<nat>, fault: Fault, r: HoldOutcome) {
    && r == OutcomeOf(h, Refusal(t, hold.matchId, ids, hold.key, fault))
    && t' == if Commits(t, hold.matchId, ids, hold.key, fault) then SeatInventory.Reserve(t, h, hold, ids) else t
  }

  /** What a request with a known key is told. */
  ghost predicate Repeats(t: SeatTables, key: string, sessionId: string, r: HoldOutcome) {
    forall g :: g in t.holds && t.holds[g].key == key ==>
      r == if t.holds[g].sessionId == sessionId then Reserved(g, false) else Raised(HoldConflict)
  }

  /** What a hold made is, in the rows: one new hold, the seats asked for HELD under it until the same
      moment, and nothing else changed. */
  ghost predicate Stored(t: SeatTables, t': SeatTables, h: nat, matchId: nat, sessionId: string, key: string,
                         ids: set<nat>, at: int, ttl: int)
  {
    var until := at + ttl;
    && t'.holds == t.holds[h := Hold(matchId, sessionId, key, Active, until)]
    && t'.seats.Keys == t.seats.Keys && ids <= t.seats.Keys
    && forall i :: i in t.seats ==>
         t'.seats[i] == if i in ids then Seat(matchId, Held, Some(h), Some(until), t.seats[i].version + 1) else t.seats[i]
  }

  lemma WhatIsStored(t: SeatTables, t': SeatTables, h: nat, hold: Hold, ids: set<nat>, fault: Fault, r: HoldOutcome,
                     at: int, ttl: int)
    requires Settles(t, t', h, hold, ids, fault, r) && r.Reserved?
    requires hold.status == Active && hold.expiresAt == at + ttl
    ensures r == Reserved(h, true) && Stored(t, t', h, hold.matchId, hold.sessionId, hold.key, ids, at, ttl)
  {
    NobodyTaken(t, ids);
  }

  lemma NobodyTaken(t: SeatTables, ids: set<nat>)
    ensures Taken(t, ids) == [] <==> AllAvailable(t, ids)
  {
    var s := set i | i in ids && i in t.seats && t.seats[i].status != Available;
    assert Taken(t, ids) == [] <==> s == {};
    forall i | i in ids && i in t.seats && t.seats[i].status != Available ensures i in s {}
  }

  class HoldService {
    const session: Session
    const gate: SeatLockGate
    const ttl: int
    var now: int

    constructor (s: Session, g: SeatLockGate, seconds: int, at: int)
      ensures session == s && gate == g && ttl == seconds && now == at
    {
      session, gate, ttl, now := s, g, seconds, at;
    }

    function NewHold(matchId: nat, sessionId: string, key: string): Hold
      reads this
    {
      Hold(matchId, sessionId, key, Active, now + ttl)
    }

    method FindHold(key: string) returns (found: Option<nat>)
      ensures found == None <==> KeyUnused(session.tables.seat, key)
      ensures found.Some? ==> found.value in session.tables.seat.holds && session.tables.seat.holds[found.value].key == key
    {
      var holds := session.tables.seat.holds;
      found := None;
      if g :| g in holds && holds[g].key == key {
        found := Some(g);
      }
    }

    /** All seats or none. An idempotency key already stored is answered from its hold. Otherwise
        `meanwhile` is what other transactions leave by the time the rows are locked. Whatever is
        raised once the lock commands have answered, the lock table is as it was, and no lock of
        another token is ever removed. */
    method Reserve(matchId: nat, seatIds: seq<nat>, sessionId: string, key: string, h: nat, meanwhile: SeatTables,
                   fault: Fault)
      returns (r: HoldOutcome)
      requires session.tables == session.committed
      requires UniqueHoldKeys(session.committed.seat.holds) && h !in meanwhile.holds
      modifies session, gate
      ensures Elements(seatIds) == {} ==>
                r == Raised(SeatUnavailable([])) && session.committed == old(session.committed)
      ensures Elements(seatIds) != {} && !KeyUnused(old(session.committed.seat), key) ==>
                Repeats(old(session.committed.seat), key, sessionId, r) && session.committed == old(session.committed)
      ensures Elements(seatIds) != {} && KeyUnused(old(session.committed.seat), key) ==>
                if AllFree(old(gate.locks), matchId, Elements(seatIds)) then
                  && session.committed == old(session.committed).(seat := session.committed.seat)
                  && Settles(meanwhile, session.committed.seat, h, NewHold(matchId, sessionId, key), Elements(seatIds),
                             fault, r)
                else
                  r == Raised(SeatUnavailable(Sorted(Elements(seatIds)))) && session.committed == old(session.committed)
      ensures r.Reserved? && r.created ==>
                && r.hold == h
                && Stored(meanwhile, session.committed.seat, h, matchId, sessionId, key, Elements(seatIds), now, ttl)
      ensures if r.Reserved? && r.created
              then LockedFor(gate.locks, old(gate.locks), matchId, Elements(seatIds), h)
              else gate.locks == old(gate.locks)
    {
      if seatIds == [] {
        return Raised(SeatUnavailable([]));
      }
      assert seatIds[0] in Elements(seatIds);
      var existing := FindHold(key);
      if existing.Some? {
        r := Repeat(existing.value, sessionId);
        return;
      }
      r := ReserveNew(matchId, Sorted(Elements(seatIds)), sessionId, key, h, meanwhile, fault);
    }

    /** The locks first, then the transaction; the locks go back if it fails. */
    method ReserveNew(matchId: nat, ordered: seq<nat>, sessionId: string, key: string, h: nat, meanwhile: SeatTables,
                      fault: Fault)
      returns (r: HoldOutcome)
      requires session.tables == session.committed && h !in meanwhile.holds
      requires Increasing(ordered) && ordered != []
      modifies session, gate
      ensures !AllFree(old(gate.locks), matchId, Elements(ordered)) ==>
                r == Raised(SeatUnavailable(ordered)) && session.committed == old(session.committed)
      ensures AllFree(old(gate.locks), matchId, Elements(ordered)) ==>
                && session.committed == old(session.committed).(seat := session.committed.seat)
                && Settles(meanwhile, session.committed.seat, h, NewHold(matchId, sessionId, key), Elements(ordered),
                           fault, r)
      ensures r.Reserved? ==>
                Stored(meanwhile, session.committed.seat, h, matchId, sessionId, key, Elements(ordered), now, ttl)
      ensures r.Reserved? ==> r == Reserved(h, true) && LockedFor(gate.locks, old(gate.locks), matchId, Elements(ordered), h)
      ensures r.Raised? ==> gate.locks == old(gate.locks)
    {
      var acquired := TakeLocks(matchId, ordered, h);
      if acquired == [] {
        return Raised(SeatUnavailable(ordered));
      }
      var refused := LockRows(h, matchId, ordered, sessionId, key, meanwhile, fault);
      if refused.Some? {
        Undo(matchId, acquired, h, old(gate.locks));
        return Raised(refused.value);
      }
      r := Reserved(h, true);
    }

    method TakeLocks(matchId: nat, ordered: seq<nat>, h: nat) returns (acquired: seq<nat>)
      requires Increasing(ordered) && ordered != []
      modifies gate
      ensures acquired == if AllFree(old(gate.locks), matchId, Elements(ordered)) then ordered else []
      ensures acquired != [] ==> LockedFor(gate.locks, old(gate.locks), matchId, Elements(ordered), h)
      ensures acquired == [] ==> gate.locks == old(gate.locks)
    {
      SortedUnique(ordered, Sorted(Elements(ordered)));
      acquired := gate.AcquireAll(matchId, ordered, h);
    }

    method Undo(matchId: nat, acquired: seq<nat>, h: nat, ghost before: map<LockKey, nat>)
      requires AllFree(before, matchId, Elements(acquired))
      requires LockedFor(gate.locks, before, matchId, Elements(acquired), h)
      modifies gate
      ensures gate.locks == before
    {
      GiveBack(gate.locks, before, matchId, Elements(acquired), h);
      gate.ReleaseAll(matchId, acquired, h);
    }

    method Repeat(g: nat, sessionId: string) returns (r: HoldOutcome)
      requires UniqueHoldKeys(session.tables.seat.holds) && g in session.tables.seat.holds
      ensures Repeats(session.tables.seat, session.tables.seat.holds[g].key, sessionId, r)
      ensures r.Reserved? ==> !r.created
    {
      var holds := session.tables.seat.holds;
      forall other | other in holds && holds[other].key == holds[g].key ensures other == g {
        assert Pair(other, g);
      }
      r := if holds[g].sessionId != sessionId then Raised(HoldConflict) else Reserved(g, false);
    }

    /** The re-check: every seat must be of the match and AVAILABLE. */
    method CheckSeats(matchId: nat, ids: seq<nat>) returns (refused: Option<HoldError>)
      requires Increasing(ids)
      ensures refused == SeatRefusal(session.tables.seat, matchId, Elements(ids))
    {
      var t := session.tables.seat;
      var found := set i | i in Elements(ids) && i in t.seats && t.seats[i].matchId == matchId;
      SortedUnique(ids, Sorted(Elements(ids)));
      if found != Elements(ids) {
        assert !AllInMatch(t, matchId, Elements(ids));
        return Some(SeatUnavailable(ids));
      }
      forall i | i in Elements(ids) ensures i in t.seats && t.seats[i].matchId == matchId {
        assert i in found;
      }
      var taken := Taken(t, Elements(ids));
      NobodyTaken(t, Elements(ids));
      refused := if taken != [] then Some(SeatUnavailable(taken)) else None;
    }

    /** By the time the rows are locked, other transactions have left the seat tables as `meanwhile`. */
    method LockRows(h: nat, matchId: nat, ids: seq<nat>, sessionId: string, key: string, meanwhile: SeatTables,
                    fault: Fault)
      returns (refused: Option<HoldError>)
      requires session.tables == session.committed && h !in meanwhile.holds && Increasing(ids)
      modifies session
      ensures session.committed == old(session.committed).(seat := session.committed.seat)
      ensures Settles(meanwhile, session.committed.seat, h, NewHold(matchId, sessionId, key), Elements(ids), fault,
                      OutcomeOf(h, refused))
      ensures refused == None ==>
                Stored(meanwhile, session.committed.seat, h, matchId, sessionId, key, Elements(ids), now, ttl)
    {
      session.committed := session.committed.(seat := meanwhile);
      session.tables := session.committed;
      refused := PersistHold(h, matchId, ids, sessionId, key, fault);
    }

    /** The transaction under row locks. */
    method PersistHold(h: nat, matchId: nat, ids: seq<nat>, sessionId: string, key: string, fault: Fault)
      returns (refused: Option<HoldError>)
      requires session.tables == session.committed && h !in session.tables.seat.holds && Increasing(ids)
      modifies session
      ensures session.committed == old(session.committed).(seat := session.committed.seat)
      ensures Settles(old(session.committed.seat), session.committed.seat, h, NewHold(matchId, sessionId, key),
                      Elements(ids), fault, OutcomeOf(h, refused))
      ensures refused == None ==>
                Stored(old(session.committed.seat), session.committed.seat, h, matchId, sessionId, key, Elements(ids), now,
                       ttl)
    {
      refused := CheckSeats(matchId, ids);
      if refused.Some? {
        return;
      }
      var hold := Hold(matchId, sessionId, key, Active, now + ttl);
      var clash := FindHold(key);
      if clash.Some? || fault == FlushFails {
        return Some(DatabaseError);
      }
      HoldRows(ids, h, hold);
      if fault == CommitRefused {
        return Some(DatabaseError);
      }
      session.Commit();
      if TooLate(fault) {
        return Some(DatabaseError);
      }
      WhatIsStored(old(session.committed.seat), session.committed.seat, h, hold, Elements(ids), fault, Reserved(h, true),
                   now, ttl);
      refused := None;
    }

    /** The new row and the seat updates, one seat after another. */
    method HoldRows(ids: seq<nat>, h: nat, hold: Hold)
      requires Increasing(ids) && Elements(ids) <= session.tables.seat.seats.Keys
      modifies session
      ensures session.committed == old(session.committed)
      ensures session.tables == old(session.tables).(
                seat := SeatInventory.Reserve(old(session.tables.seat), h, hold, Elements(ids)))
    {
      var t := session.tables.seat;
      var seats := t.seats;
      ghost var done: set<nat> := {};
      for n := 0 to |ids|
        invariant seats.Keys == t.seats.Keys && done == Elements(ids[..n])
        invariant forall i :: i in seats ==>
          seats[i] == if i in done then TakenBy(t.seats[i], h, hold.expiresAt) else t.seats[i]
        invariant session.committed == old(session.committed) && session.tables == old(session.tables)
      {
        PrefixStep(ids, n);
        done := done + {ids[n]};
        seats := seats[ids[n] := TakenBy(seats[ids[n]], h, hold.expiresAt)];
      }
      assert ids[..|ids|] == ids;
      assert seats == SeatInventory.Reserve(t, h, hold, Elements(ids)).seats;
      session.tables := session.tables.(seat := SeatTables(seats, t.holds[h := hold]));
    }
  }

  /** With no lock in the way and a new key, a hold is made exactly when the seats and the key are
      `Reservable` and the database does not fail: the reserving step of the booking system. */
  lemma CreatedIffReservable(t: SeatTables, t': SeatTables, h: nat, hold: Hold, ids: set<nat>, fault: Fault, r: HoldOutcome)
    requires ids != {} && h !in t.holds && Settles(t, t', h, hold, ids, fault, r)
    ensures r == Reserved(h, true) <==> Reservable(t, h, hold.matchId, ids, hold.key) && fault == NoFault
    ensures r == Reserved(h, true) ==> t' == SeatInventory.Reserve(t, h, hold, ids)
  {
    if Reservable(t, h, hold.matchId, ids, hold.key) {
      assert AllAvailable(t, ids) && AllInMatch(t, hold.matchId, ids);
    }
  }

  /** A request that raises leaves the tables alone, except in exactly these cases: everything was in
      order, and either the acknowledgement of the commit or the read after it was lost. */
  lemma RaisedLeavesTables(t: SeatTables, t': SeatTables, h: nat, hold: Hold, ids: set<nat>, fault: Fault, r: HoldOutcome)
    requires ids != {} && h !in t.holds && Settles(t, t', h, hold, ids, fault, r) && r.Raised?
    ensures t' != t <==>
              Reservable(t, h, hold.matchId, ids, hold.key) && (fault == CommitUnacknowledged || fault == RefreshFails)
  {
    if Reservable(t, h, hold.matchId, ids, hold.key) {
      assert AllAvailable(t, ids) && AllInMatch(t, hold.matchId, ids);
    }
    assert h in SeatInventory.Reserve(t, h, hold, ids).holds;
  }

  /** Those cases are real: the caller is told of a failure while the seat stays HELD under the hold. */
  lemma LateFaultStrandsSeat(h: nat, hold: Hold, i: nat, fault: Fault) returns (t: SeatTables, t': SeatTables)
    requires fault == CommitUnacknowledged || fault == RefreshFails
    ensures SeatInv(t) && Settles(t, t', h, hold, {i}, fault, Raised(DatabaseError))
    ensures i in t.seats && t.seats[i].status == Available
    ensures i in t'.seats && t'.seats[i].status == Held && t'.seats[i].holdId == Some(h) && h in t'.holds
  {
    t := SeatTables(map[i := Seat(hold.matchId, Available, None, None, 1)], map[]);
    t' := SeatInventory.Reserve(t, h, hold, {i});
  }

  /** Which error a request gets, in the rows: every seat asked for if one of them is unknown or of another
      match, otherwise the seats that are not AVAILABLE, otherwise a database error for a used key or a
      fault. */
  lemma RefusedBecause(t: SeatTables, t': SeatTables, h: nat, hold: Hold, ids: set<nat>, fault: Fault, r: HoldOutcome)
    requires Settles(t, t', h, hold, ids, fault, r)
    ensures r == Reserved(h, true) <==>
              && (forall i :: i in ids ==>
                    i in t.seats && t.seats[i].matchId == hold.matchId && t.seats[i].status == Available)
              && (forall g :: g in t.holds ==> t.holds[g].key != hold.key)
              && fault == NoFault
    ensures r.Raised? && r.error.SeatUnavailable? <==>
              exists i :: i in ids && (i in t.seats && t.seats[i].matchId == hold.matchId ==> t.seats[i].status != Available)
    ensures r.Raised? && r.error.SeatUnavailable? ==> t' == t && Increasing(r.error.seatIds)
    ensures r.Raised? && r.error.SeatUnavailable? ==>
              forall i :: i in r.error.seatIds <==>
                && i in ids
                && ((exists j :: j in ids && (j in t.seats ==> t.seats[j].matchId != hold.matchId))
                    || t.seats[i].status != Available)
    ensures r.Raised? ==> r.error.SeatUnavailable? || r.error == DatabaseError
  {
    NobodyTaken(t, ids);
    assert forall i :: i in Sorted(ids) <==> i in Elements(Sorted(ids));
    assert forall i :: i in Taken(t, ids) <==> i in Elements(Taken(t, ids));
  }

  /** As long as the hold stays ACTIVE its own session, and no other, may buy the seats until the deadline;
      from the deadline on nobody may, and it is overdue. Its seats stay HELD under it. */
  lemma GoodUntilDeadline(t: SeatTables, t': SeatTables, h: nat, matchId: nat, sessionId: string, key: string,
                          ids: set<nat>, at: int, ttl: int, db: Booking.Tables, who: string, clock: int)
    requires Stored(t, t', h, matchId, sessionId, key, ids, at, ttl) && ids != {}
    requires Evolves(t', db.seat) && IsActive(db.seat, h)
    ensures Booking.Exists(db, SeatClaim(h))
    ensures Booking.Usable(db, SeatClaim(h), who, clock) <==> who == sessionId && clock < at + ttl
    ensures h in Expiry.DueHolds(db.seat, clock) <==> at + ttl <= clock
    ensures forall i :: i in ids ==>
              && i in db.seat.seats && db.seat.seats[i].status == Held && db.seat.seats[i].matchId == matchId
              && db.seat.seats[i].holdId == Some(h) && db.seat.seats[i].heldUntil == Some(at + ttl)
  {
    assert HoldEvolves(t', db.seat, h);
    forall i | i in ids ensures i in SeatsOf(db.seat, h) && db.seat.seats[i] == t'.seats[i] {
      assert i in SeatsOf(t', h) && SeatsOf(t', h)[i] == t'.seats[i];
    }
  }

  /** The same key again: the same hold for its own session whatever has become of it, a conflict for any
      other. */
  lemma SecondCall(t: SeatTables, t': SeatTables, h: nat, matchId: nat, sessionId: string, key: string, ids: set<nat>,
                   at: int, ttl: int, t'': SeatTables, who: string, r: HoldOutcome)
    requires Stored(t, t', h, matchId, sessionId, key, ids, at, ttl) && Evolves(t', t'')
    ensures !KeyUnused(t'', key)
    ensures Repeats(t'', key, who, r) ==> r == if who == sessionId then Reserved(h, false) else Raised(HoldConflict)
  {
    assert HoldEvolves(t', t'', h);
  }
}
