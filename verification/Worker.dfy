/** One pass of the worker: expire holds, expire general-admission reservations, publish the outbox,
    all in one transaction, with a tick of the waiting room before the commit. */
module Worker {
  import opened Collections
  import opened SeatInventory
  import opened GaInventory
  import opened GaTraffic
  import opened OrderLife
  import opened Booking
  import opened BookingTheorems
  import opened Finalizer
  import opened SeatLocks
  import opened Outbox
  import Expiry
  import WaitingRoom
  import Admission = WaitingRoomService

  /** When the pass is made, its batch size, the rows other workers have locked, and what others commit
      to the pools while the reservations are gone through. */
  datatype Pass = Pass(now: int, batchSize: nat, lockedHolds: set<nat>, lockedRows: set<nat>, lockedMail: set<nat>,
                       rivals: Expiry.Rivals)

  /** What goes wrong after the last delivery, if anything. */
  datatype PassFault = AllGoesWell | TickRaises | CommitRaises

  function HoldBatch(db: Tables, p: Pass): seq<nat> {
    Expiry.Batch(Expiry.DueHolds(db.seat, p.now), p.lockedHolds, p.batchSize)
  }

  function RowBatch(db: Tables, p: Pass): seq<nat> {
    Expiry.Batch(Expiry.DueReservations(db.ga, p.now), p.lockedRows, p.batchSize)
  }

  function MailBatch(db: Tables, p: Pass): seq<nat> {
    Due(db.outbox, p.lockedMail, p.batchSize)
  }

  function SeatsAfter(db: Tables, ids: seq<nat>): SeatTables {
    Expiry.ExpireAll(db.seat, Expiry.UnshieldedHolds(db, Elements(ids)))
  }

  function RowsAfterPass(db: Tables, p: Pass): GaTables {
    Expiry.GaAfter(db, RowBatch(db, p), p.rivals, |RowBatch(db, p)|)
  }

  function ExpiryResult(db: Tables, p: Pass): Tables {
    db.(seat := SeatsAfter(db, HoldBatch(db, p)), ga := RowsAfterPass(db, p))
  }

  /** What a pass that goes through commits. */
  function PassResult(db: Tables, p: Pass): Tables {
    ExpiryResult(db, p).(outbox := Stamped(db.outbox, Elements(MailBatch(db, p)), p.now))
  }

  /** What is there after a pass that is rolled back: what others have committed. */
  function OthersResult(db: Tables, p: Pass): Tables {
    db.(ga := Expiry.OthersAfter(db, db.ga, RowBatch(db, p), p.rivals, |RowBatch(db, p)|))
  }

  lemma {:induction false} SameGaAfter(db: Tables, db': Tables, ids: seq<nat>, rivals: Expiry.Rivals, n: nat)
    requires db'.orders == db.orders && db'.payments == db.payments && db'.ga == db.ga && n <= |ids|
    ensures Expiry.GaAfter(db', ids, rivals, n) == Expiry.GaAfter(db, ids, rivals, n)
    ensures Expiry.OthersAfter(db', db.ga, ids, rivals, n) == Expiry.OthersAfter(db, db.ga, ids, rivals, n)
    ensures Expiry.Gone(db', ids, rivals, n) == Expiry.Gone(db, ids, rivals, n)
  {
    if n > 0 {
      var r := ids[n - 1];
      SameGaAfter(db, db', ids, rivals, n - 1);
      SameNext(db, db', Expiry.GaAfter(db, ids, rivals, n - 1), Expiry.OthersAfter(db, db.ga, ids, rivals, n - 1), r,
               Expiry.OpsAt(rivals, r), Elements(ids));
    }
  }

  lemma SameNext(db: Tables, db': Tables, t: GaTables, others: GaTables, r: nat, ops: seq<GaOp>, locked: set<nat>)
    requires db'.orders == db.orders && db'.payments == db.payments
    ensures Expiry.GaNext(db', t, r, ops, locked) == Expiry.GaNext(db, t, r, ops, locked)
    ensures Expiry.Meanwhile(db', others, r, ops, locked) == Expiry.Meanwhile(db, others, r, ops, locked)
    ensures Expiry.Releases(db', t, r, ops, locked) <==> Expiry.Releases(db, t, r, ops, locked)
  {
    Expiry.SameShield(db, db', GaClaim(r));
  }

  /** How many holds and reservations a pass expires; under the seat invariant every hold has seats. */
  function Settled(db: Tables, p: Pass): nat {
    |Expiry.WithSeats(db.seat, Expiry.UnshieldedHolds(db, Elements(HoldBatch(db, p))))|
    + |Expiry.Gone(db, RowBatch(db, p), p.rivals, |RowBatch(db, p)|)|
  }

  /** No delivery of the batch raises. */
  predicate Delivers(db: Tables, p: Pass, failing: set<nat>) {
    Reached(MailBatch(db, p), failing) == |MailBatch(db, p)|
  }

  /** What is delivered before one raises. */
  function Sent(db: Tables, p: Pass, failing: set<nat>): seq<nat> {
    MailBatch(db, p)[..Reached(MailBatch(db, p), failing)]
  }

  /** Holds first, then reservations; nothing committed yet. */
  method Expire(session: Session, finalizer: SqlInventoryFinalizer, gate: SeatLockGate, p: Pass) returns (settled: nat)
    requires finalizer.session == session && session.tables == session.committed && GaInv(session.tables.ga)
    modifies session, gate
    ensures session.committed == OthersResult(old(session.tables), p)
    ensures session.tables == ExpiryResult(old(session.tables), p) && settled == Settled(old(session.tables), p)
    ensures Expiry.OnlyOwnLocksGone(old(gate.locks), gate.locks, old(session.tables.seat),
              Expiry.UnshieldedHolds(old(session.tables), Elements(HoldBatch(old(session.tables), p))))
  {
    ghost var db := session.tables;
    var holds := Expiry.ExpireHolds(session, finalizer, gate, p.now, p.batchSize, p.lockedHolds);
    SameGaAfter(db, session.tables, RowBatch(db, p), p.rivals, |RowBatch(db, p)|);
    var ga := Expiry.ExpireGa(session, finalizer, p.now, p.batchSize, p.lockedRows, p.rivals);
    settled := holds + ga;
  }

  /** The expiries and the deliveries, nothing committed yet. */
  method Work(session: Session, finalizer: SqlInventoryFinalizer, gate: SeatLockGate, notifier: TicketNotifier, p: Pass)
    returns (settled: Option<nat>)
    requires finalizer.session == session && session.tables == session.committed && GaInv(session.tables.ga)
    modifies session, gate, notifier`delivered
    ensures var db := old(session.tables);
            && session.committed == OthersResult(db, p)
            && (settled.Some? <==> Delivers(db, p, notifier.failing))
            && (settled.Some? ==>
                  session.tables == PassResult(db, p) && settled.value == Settled(db, p) + |MailBatch(db, p)|)
            && notifier.delivered == old(notifier.delivered) + Sent(db, p, notifier.failing)
            && Expiry.OnlyOwnLocksGone(old(gate.locks), gate.locks, db.seat,
                                       Expiry.UnshieldedHolds(db, Elements(HoldBatch(db, p))))
  {
    ghost var mail := MailBatch(session.tables, p);
    assert mail[..|mail|] == mail;
    var expired := Expire(session, finalizer, gate, p);
    var mailed := PublishOutbox(session, notifier, p.now, p.batchSize, p.lockedMail);
    settled := if mailed == None then None else Some(expired + mailed.value);
  }

  /** How many shoppers a tick lets in. */
  function LetIn(room: WaitingRoom.Room, at: WaitingRoom.Instant, cfg: WaitingRoom.Config,
                 supply: seq<WaitingRoom.Token>): nat
    requires WaitingRoom.Distinct(room.queue) && |supply| >= |room.queue|
  {
    |WaitingRoom.Tick(room, at, cfg, supply).entries|
  }

  /** The tick of the waiting room, and the commit. */
  method Finish(session: Session, room: Admission.WaitingRoomService, supply: seq<WaitingRoom.Token>, settled: nat,
                fault: PassFault)
    returns (done: Option<nat>)
    requires room.Valid() && |supply| >= |room.store.queue| && WaitingRoom.Unused(room.store.View(), supply)
    modifies session, room.store
    ensures session.tables == session.committed && room.Valid()
    ensures session.committed == if fault == AllGoesWell then old(session.tables) else old(session.committed)
    ensures done.Some? <==> fault == AllGoesWell
    ensures done.Some? ==> done.value == settled + LetIn(old(room.store.View()), room.Now(), room.Cfg(), supply)
    ensures room.store.View() == if fault == TickRaises then old(room.store.View())
                                 else WaitingRoom.Tick(old(room.store.View()), room.Now(), room.Cfg(), supply).room
  {
    if fault == TickRaises {
      session.Rollback();
      return None;
    }
    var admitted := room.AdmitTick(supply);
    if fault == CommitRaises {
      session.Rollback();
      return None;
    }
    session.Commit();
    done := Some(settled + admitted);
  }

  /** Everything is committed at once if nothing raises. A delivery or the tick of the waiting room that
      raises rolls the pass back, expiries included, and so does a commit that fails; only the deliveries
      made, the seat locks given up and the shoppers let in by then stay. */
  method RunOnce(session: Session, finalizer: SqlInventoryFinalizer, gate: SeatLockGate, notifier: TicketNotifier,
                 room: Admission.WaitingRoomService, supply: seq<WaitingRoom.Token>, p: Pass, fault: PassFault)
    returns (done: Option<nat>)
    requires finalizer.session == session && session.tables == session.committed && GaInv(session.committed.ga)
    requires room.Valid() && |supply| >= |room.store.queue| && WaitingRoom.Unused(room.store.View(), supply)
    modifies session, gate, notifier`delivered, room.store
    ensures session.tables == session.committed && room.Valid()
    ensures session.committed == if Delivers(old(session.committed), p, notifier.failing) && fault == AllGoesWell
                                 then PassResult(old(session.committed), p) else OthersResult(old(session.committed), p)
    ensures notifier.delivered == old(notifier.delivered) + Sent(old(session.committed), p, notifier.failing)
    ensures Expiry.OnlyOwnLocksGone(old(gate.locks), gate.locks, old(session.committed.seat),
              Expiry.UnshieldedHolds(old(session.committed), Elements(HoldBatch(old(session.committed), p))))
    ensures done.Some? <==> Delivers(old(session.committed), p, notifier.failing) && fault == AllGoesWell
    ensures done.Some? ==> done.value == Settled(old(session.committed), p) + |MailBatch(old(session.committed), p)|
                                         + LetIn(old(room.store.View()), room.Now(), room.Cfg(), supply)
    ensures room.store.View() == if Delivers(old(session.committed), p, notifier.failing) && fault != TickRaises
                                 then WaitingRoom.Tick(old(room.store.View()), room.Now(), room.Cfg(), supply).room
                                 else old(room.store.View())
  {
    var settled := Work(session, finalizer, gate, notifier, p);
    if settled == None {
      session.Rollback();
      return None;
    }
    done := Finish(session, room, supply, settled.value, fault);
  }

  // ---------- what a pass that goes through commits and counts, in the rows ----------

  lemma HoldsInPass(db: Tables, p: Pass, seat: SeatTables, count: nat)
    requires seat == SeatsAfter(db, HoldBatch(db, p))
    requires count == |Expiry.WithSeats(db.seat, Expiry.UnshieldedHolds(db, Elements(HoldBatch(db, p))))|
    ensures Expiry.OverdueHoldsExpired(db, seat, p.now, p.batchSize, p.lockedHolds)
    ensures count == |Expiry.ExpiredWithSeats(db.seat, seat)|
  {
    Expiry.HoldsExpired(db, p.now, p.batchSize, p.lockedHolds);
    Expiry.CountedAre(db.seat, Expiry.UnshieldedHolds(db, Elements(HoldBatch(db, p))));
  }

  lemma RowsInPass(db: Tables, p: Pass, ga: GaTables, count: nat)
    requires GaInv(db.ga) && p.rivals == map[] && ga == RowsAfterPass(db, p)
    requires count == |Expiry.Gone(db, RowBatch(db, p), p.rivals, |RowBatch(db, p)|)|
    ensures Expiry.OverdueRowsExpired(db, ga, p.now, p.batchSize, p.lockedRows)
    ensures count == |Expiry.ExpiredRows(db.ga, ga)|
  {
    Expiry.RowsExpired(db, p.now, p.batchSize, p.lockedRows);
  }

  lemma MailInPass(db: Tables, p: Pass, mail: seq<nat>, outbox: seq<Event>)
    requires mail == MailBatch(db, p) && outbox == Stamped(db.outbox, Elements(mail), p.now)
    ensures OldestFirst(db.outbox, outbox, p.lockedMail, mail, p.now)
    ensures StopsWhen(db.outbox, p.lockedMail, {}, p.batchSize, mail, Some(|mail|))
  {
    assert mail[..|mail|] == mail;
    DueIsOldest(db.outbox, p.lockedMail, p.batchSize, mail, |mail|, p.now);
    DueStops(db.outbox, p.lockedMail, {}, p.batchSize, mail, |mail|, Some(|mail|));
  }

  /** Holds and reservations are judged by the rows the pass finds, the oldest mail goes, and what is counted
      is what has become EXPIRED, holds without seats left out. */
  lemma PassMeans(db: Tables, p: Pass, next: Tables, holds: nat, rows: nat)
    requires GaInv(db.ga) && p.rivals == map[] && next == PassResult(db, p)
    requires holds == |Expiry.ExpiredWithSeats(db.seat, next.seat)| && rows == |Expiry.ExpiredRows(db.ga, next.ga)|
    ensures Expiry.OverdueHoldsExpired(db, next.seat, p.now, p.batchSize, p.lockedHolds)
    ensures Expiry.OverdueRowsExpired(db, next.ga, p.now, p.batchSize, p.lockedRows)
    ensures OldestFirst(db.outbox, next.outbox, p.lockedMail, MailBatch(db, p), p.now)
    ensures StopsWhen(db.outbox, p.lockedMail, {}, p.batchSize, MailBatch(db, p), Some(|MailBatch(db, p)|))
    ensures next.orders == db.orders && next.payments == db.payments
    ensures Settled(db, p) == holds + rows
  {
    HoldsInPass(db, p, next.seat, |Expiry.WithSeats(db.seat, Expiry.UnshieldedHolds(db, Elements(HoldBatch(db, p))))|);
    RowsInPass(db, p, next.ga, |Expiry.Gone(db, RowBatch(db, p), p.rivals, |RowBatch(db, p)|)|);
    MailInPass(db, p, MailBatch(db, p), next.outbox);
  }

  // ---------- a pass is a run of the booking system ----------

  function WithSeats(w: World, seat: SeatTables): World {
    w.(db := w.db.(seat := seat))
  }

  function WithGa(w: World, ga: GaTables): World {
    w.(db := w.db.(ga := ga))
  }

  lemma ExpireHoldStep(w: World, t: SeatTables, hs: set<nat>, h: nat)
    requires IsActive(t, h) && t.holds[h].expiresAt <= w.now && h !in hs && !HasCapturedPayment(w.db, SeatClaim(h))
    ensures Guarded(WithSeats(w, Expiry.ExpireAll(t, hs)), ExpireHold(h))
    ensures Enabled(WithSeats(w, Expiry.ExpireAll(t, hs)), ExpireHold(h))
    ensures Apply(WithSeats(w, Expiry.ExpireAll(t, hs)), ExpireHold(h)) == WithSeats(w, Expiry.ExpireAll(t, hs + {h}))
  {
    Expiry.ExpireOneMore(t, hs, h);
    Expiry.SameShield(w.db, WithSeats(w, Expiry.ExpireAll(t, hs)).db, SeatClaim(h));
  }

  lemma ExpireGaStep(w: World, t: GaTables, r: nat)
    requires IsLive(t, r) && t.rows[r].matchId in t.pools && t.rows[r].expiresAt <= w.now
    requires !HasCapturedPayment(w.db, GaClaim(r))
    ensures var s := Step.ExpireGa(r, t.pools[t.rows[r].matchId].version);
            Enabled(WithGa(w, t), s) && Apply(WithGa(w, t), s) == WithGa(w, ReleaseGa(t, r))
  {
    Expiry.SameShield(w.db, WithGa(w, t).db, GaClaim(r));
  }

  lemma NoHoldsYet(w: World)
    ensures WithSeats(w, SeatsAfter(w.db, [])) == w
  {
    assert Expiry.UnshieldedHolds(w.db, Elements([])) == {};
    Expiry.ExpireNone(w.db.seat);
  }

  lemma HoldStepMore(w: World, ids: seq<nat>, n: nat, next: seq<nat>, steps: seq<Step>) returns (more: seq<Step>)
    requires Increasing(ids) && n < |ids| && next == ids[..n + 1]
    requires IsActive(w.db.seat, ids[n]) && w.db.seat.holds[ids[n]].expiresAt <= w.now
    requires AfterSteps(w, steps) == Some(WithSeats(w, SeatsAfter(w.db, ids[..n])))
    ensures AfterSteps(w, more) == Some(WithSeats(w, SeatsAfter(w.db, next)))
  {
    var h, hs := ids[n], Expiry.UnshieldedHolds(w.db, Elements(ids[..n]));
    PrefixStep(ids, n);
    Expiry.UnshieldedOneMore(w.db, w.db.seat, Elements(ids[..n]), h);
    more := steps;
    if !HasCapturedPayment(w.db, SeatClaim(h)) {
      assert h !in hs;
      ExpireHoldStep(w, w.db.seat, hs, h);
      OneStepMore(w, steps, WithSeats(w, SeatsAfter(w.db, ids[..n])), ExpireHold(h),
                  WithSeats(w, SeatsAfter(w.db, next)));
      more := steps + [ExpireHold(h)];
    }
  }

  lemma {:induction false} HoldSteps(w: World, ids: seq<nat>, n: nat) returns (steps: seq<Step>)
    requires Increasing(ids) && n <= |ids|
    requires forall h :: h in ids ==> IsActive(w.db.seat, h) && w.db.seat.holds[h].expiresAt <= w.now
    ensures AfterSteps(w, steps) == Some(WithSeats(w, SeatsAfter(w.db, ids[..n])))
  {
    if n == 0 {
      steps := [];
      NoHoldsYet(w);
    } else {
      steps := HoldSteps(w, ids, n - 1);
      steps := HoldStepMore(w, ids, n - 1, ids[..n], steps);
    }
  }

  lemma {:induction false} RowSteps(w: World, before: seq<Step>, u: World, ids: seq<nat>, n: nat) returns (steps: seq<Step>)
    requires AfterSteps(w, before) == Some(u) && GaInv(u.db.ga) && Increasing(ids) && n <= |ids|
    requires forall r :: r in ids ==> IsLive(u.db.ga, r) && u.db.ga.rows[r].expiresAt <= u.now
    ensures AfterSteps(w, steps) == Some(WithGa(u, Expiry.GaAfter(u.db, ids, map[], n)))
  {
    if n == 0 {
      steps := before;
    } else {
      steps := RowSteps(w, before, u, ids, n - 1);
      var r, t := ids[n - 1], Expiry.GaAfter(u.db, ids, map[], n - 1);
      Expiry.AloneOneMore(u.db, ids, n - 1, n, t);
      if !HasCapturedPayment(u.db, GaClaim(r)) {
        ExpireGaStep(u, t, r);
        var s := Step.ExpireGa(r, t.pools[t.rows[r].matchId].version);
        OneStepMore(w, steps, WithGa(u, t), s, WithGa(u, ReleaseGa(t, r)));
        steps := steps + [s];
      }
    }
  }

  lemma HoldBatchDue(db: Tables, p: Pass)
    ensures forall h :: h in HoldBatch(db, p) ==> IsActive(db.seat, h) && db.seat.holds[h].expiresAt <= p.now
  {
    assert forall h :: h in HoldBatch(db, p) ==> h in Elements(HoldBatch(db, p));
  }

  lemma RowBatchDue(db: Tables, p: Pass)
    ensures forall r :: r in RowBatch(db, p) ==> IsLive(db.ga, r) && db.ga.rows[r].expiresAt <= p.now
  {
    assert forall r :: r in RowBatch(db, p) ==> r in Elements(RowBatch(db, p));
  }

  lemma PublishStep(w: World, steps: seq<Step>, v: World, ids: set<nat>, at: int)
    requires AfterSteps(w, steps) == Some(v)
    ensures AfterSteps(w, steps + [Publish(ids, at)]) == Some(v.(db := v.db.(outbox := Stamped(v.db.outbox, ids, at))))
  {
    OneStepMore(w, steps, v, Publish(ids, at), Apply(v, Publish(ids, at)));
  }

  lemma PassHolds(w: World, p: Pass) returns (steps: seq<Step>)
    requires p.now == w.now
    ensures AfterSteps(w, steps) == Some(WithSeats(w, SeatsAfter(w.db, HoldBatch(w.db, p))))
  {
    var ids := HoldBatch(w.db, p);
    HoldBatchDue(w.db, p);
    assert ids[..|ids|] == ids;
    steps := HoldSteps(w, ids, |ids|);
  }

  lemma PassRows(w: World, before: seq<Step>, u: World, p: Pass) returns (steps: seq<Step>)
    requires AfterSteps(w, before) == Some(u) && GaInv(u.db.ga) && p.now == u.now && p.rivals == map[]
    ensures AfterSteps(w, steps) == Some(WithGa(u, RowsAfterPass(u.db, p)))
  {
    var ids := RowBatch(u.db, p);
    RowBatchDue(u.db, p);
    assert ids[..|ids|] == ids;
    steps := RowSteps(w, before, u, ids, |ids|);
  }

  lemma InParts(w: World, p: Pass)
    ensures var u := WithSeats(w, SeatsAfter(w.db, HoldBatch(w.db, p)));
            var v := WithGa(u, RowsAfterPass(u.db, p));
            v.(db := v.db.(outbox := Stamped(v.db.outbox, Elements(MailBatch(v.db, p)), p.now)))
              == w.(db := PassResult(w.db, p))
  {
    SameGaAfter(w.db, WithSeats(w, SeatsAfter(w.db, HoldBatch(w.db, p))).db, RowBatch(w.db, p), p.rivals,
                |RowBatch(w.db, p)|);
  }

  /** A pass that goes through with nobody else writing is an uninterrupted sequence of the booking
      system's own expiry and publishing steps. */
  lemma PassIsSteps(w: World, p: Pass) returns (steps: seq<Step>)
    requires GaInv(w.db.ga) && p.now == w.now && p.rivals == map[]
    ensures AfterSteps(w, steps) == Some(w.(db := PassResult(w.db, p)))
  {
    steps := PassHolds(w, p);
    var u := WithSeats(w, SeatsAfter(w.db, HoldBatch(w.db, p)));
    steps := PassRows(w, steps, u, p);
    var v := WithGa(u, RowsAfterPass(u.db, p));
    var mail := Elements(MailBatch(v.db, p));
    PublishStep(w, steps, v, mail, p.now);
    steps := steps + [Publish(mail, p.now)];
    InParts(w, p);
  }

  /** So whatever the batches are, a pass at the current time keeps the invariant, and every table
      and order only moves forward. */
  lemma PassKeeps(w: World, p: Pass)
    requires Inv(w) && p.now == w.now && p.rivals == map[]
    ensures Inv(w.(db := PassResult(w.db, p))) && Progress(w, w.(db := PassResult(w.db, p)))
  {
    var steps := PassIsSteps(w, p);
    StepsKeep(w, steps);
  }
}
