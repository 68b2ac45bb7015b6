/** Concrete runs from an unsold stadium: what the theorems allow for does happen. */
module Scenarios {
  import opened Collections
  import opened SeatInventory
  import opened GaInventory
  import opened PaymentProvider
  import opened OrderLife
  import opened Booking
  import opened BookingTheorems
  import opened Worker
  import opened Backlog

  /** One match, two seats, a pool of ten. */
  function Stadium(): World {
    World(Tables(SeatTables(map[1 := Seat(1, Available, None, None, 1), 2 := Seat(1, Available, None, None, 1)], map[]),
                 GaTables(map[1 := Pool(10, 10, 1)], map[]), map[], map[], []),
          Ledger(map[], map[], 0, 0), map[], map[], 0, 5)
  }

  // ---------- paying for a reservation ----------

  /** Nothing is recorded under the numbers and keys a new order will use. */
  predicate Untouched(w: World, q: nat, o: nat, key: string, claim: Claim) {
    && q !in w.quotes && o !in w.db.orders && o !in w.db.payments && o !in w.attempts
    && PayKey(o) !in w.psp.charges && KeyFree(w.db, key) && ClaimFree(w.db, claim)
  }

  function PaidPayment(o: nat, amount: int): Payment {
    Payment(PayKey(o), Some(PayKey(o)), PaymentStatus.Captured, amount)
  }

  /** A new order on its way: inserted, its payment about to be made, the provider's answer at hand, and
      the capture committed. */
  function Inserted(w: World, o: nat, order: Order): World {
    w.(db := w.db.(orders := w.db.orders[o := order]), attempts := w.attempts[o := Ensuring])
  }

  function Asking(w: World, o: nat, order: Order): World {
    w.(db := w.db.(orders := w.db.orders[o := order], payments := w.db.payments[o := NewPayment(o, order.amount)]),
       attempts := w.attempts[o := Charging])
  }

  function Answering(w: World, o: nat, order: Order): World {
    w.(db := w.db.(orders := w.db.orders[o := order], payments := w.db.payments[o := NewPayment(o, order.amount)]),
       psp := AfterCharge(w.psp, PayKey(o), order.amount, true), attempts := w.attempts[o := Charged(true)])
  }

  function Paid(w: World, o: nat, order: Order): World {
    w.(db := w.db.(orders := w.db.orders[o := order], payments := w.db.payments[o := PaidPayment(o, order.amount)]),
       psp := AfterCharge(w.psp, PayKey(o), order.amount, true), attempts := w.attempts[o := Finalizing])
  }

  lemma OrderSteps(w0: World, before: seq<Step>, w: World, q: nat, o: nat, claim: Claim, sessionId: string, key: string,
                   order: Order)
    returns (steps: seq<Step>)
    requires AfterSteps(w0, before) == Some(w) && Untouched(w, q, o, key, claim)
    requires Exists(w.db, claim) && Usable(w.db, claim, sessionId, w.now) && order.amount > 0
    requires order == Order(ClaimMatch(w.db, claim), sessionId, key, claim, PaymentPending,
                            w.price * Units(Reserved(w.db, claim)), 1)
    ensures AfterSteps(w0, steps) == Some(Inserted(w, o, order))
  {
    var s, t := TakeQuote(q, claim, sessionId, key), CreateOrder(q, o);
    var u := Apply(w, s);
    OneStepMore(w0, before, w, s, u);
    var v := Apply(u, t);
    OneStepMore(w0, before + [s], u, t, v);
    assert v.quotes == w.quotes;
    steps := before + [s] + [t];
  }

  predicate Payable(w: World, o: nat, order: Order) {
    o !in w.db.payments && PayKey(o) !in w.psp.charges && order.status == PaymentPending
  }

  lemma EnsureStep(w: World, o: nat, order: Order)
    requires Payable(w, o, order)
    ensures Enabled(Inserted(w, o, order), EnsurePayment(o))
    ensures Apply(Inserted(w, o, order), EnsurePayment(o)) == Asking(w, o, order)
  {
    assert w.attempts[o := Ensuring][o := Charging] == w.attempts[o := Charging];
  }

  lemma ChargeStep(w: World, o: nat, order: Order)
    requires Payable(w, o, order)
    ensures Enabled(Asking(w, o, order), ChargeCard(o, true))
    ensures Apply(Asking(w, o, order), ChargeCard(o, true)) == Answering(w, o, order)
  {
    assert w.attempts[o := Charging][o := Charged(true)] == w.attempts[o := Charged(true)];
  }

  lemma RecordStep(w: World, o: nat, order: Order)
    requires Payable(w, o, order)
    ensures Enabled(Answering(w, o, order), RecordCharge(o))
    ensures Apply(Answering(w, o, order), RecordCharge(o)) == Paid(w, o, order)
  {
    assert w.attempts[o := Charged(true)][o := Finalizing] == w.attempts[o := Finalizing];
    assert w.db.payments[o := NewPayment(o, order.amount)][o := PaidPayment(o, order.amount)]
        == w.db.payments[o := PaidPayment(o, order.amount)];
  }

  lemma PaySteps(w0: World, before: seq<Step>, w: World, o: nat, order: Order) returns (steps: seq<Step>)
    requires AfterSteps(w0, before) == Some(Inserted(w, o, order)) && Payable(w, o, order)
    ensures AfterSteps(w0, steps) == Some(Paid(w, o, order))
  {
    EnsureStep(w, o, order);
    OneStepMore(w0, before, Inserted(w, o, order), EnsurePayment(o), Asking(w, o, order));
    steps := before + [EnsurePayment(o)];
    ChargeStep(w, o, order);
    OneStepMore(w0, steps, Asking(w, o, order), ChargeCard(o, true), Answering(w, o, order));
    steps := steps + [ChargeCard(o, true)];
    RecordStep(w, o, order);
    OneStepMore(w0, steps, Answering(w, o, order), RecordCharge(o), Paid(w, o, order));
    steps := steps + [RecordCharge(o)];
  }

  // ---------- a reserved stadium ----------

  function HoldOf(n: nat): Hold {
    Hold(1, if n == 1 then "ann" else "bob", if n == 1 then "s1" else "s2", HoldStatus.Active, 10)
  }

  function RowOf(n: nat): Reservation {
    Reservation(1, if n == 1 then "ann" else "bob", if n == 1 then "g1" else "g2", 1, HoldStatus.Active, 10)
  }

  /** The seats with the first `n` of them held, each by its own hold. */
  function SeatsHeld(n: nat): SeatTables
    requires n <= 2
  {
    if n == 0 then Stadium().db.seat
    else SeatTables(SeatsHeld(n - 1).seats[n := Seat(1, Held, Some(n), Some(10), 2)], SeatsHeld(n - 1).holds[n := HoldOf(n)])
  }

  function UnitsClaimed(n: nat): GaTables
    requires n <= 2
  {
    if n == 0 then Stadium().db.ga
    else GaTables(map[1 := Pool(10, 10 - n, 1 + n)], UnitsClaimed(n - 1).rows[n := RowOf(n)])
  }

  /** Two holds and two reservations, all due at time ten. */
  function Booked(h: nat, r: nat): World
    requires h <= 2 && r <= 2
  {
    Stadium().(db := Stadium().db.(seat := SeatsHeld(h), ga := UnitsClaimed(r)))
  }

  lemma HoldStep(n: nat)
    requires n == 1 || n == 2
    ensures var s := ReserveSeats(n, HoldOf(n), {n});
            Enabled(Booked(n - 1, 0), s) && Apply(Booked(n - 1, 0), s) == Booked(n, 0)
  {
    assert SeatsHeld(0).holds == map[];
    if n == 2 { assert SeatsHeld(1).holds == map[1 := HoldOf(1)]; }
    assert SeatInventory.Reserve(SeatsHeld(n - 1), n, HoldOf(n), {n}).seats == SeatsHeld(n).seats;
  }

  lemma ClaimStep(n: nat)
    requires n == 1 || n == 2
    ensures var s := ClaimUnits(n, RowOf(n), Some(Booked(2, n - 1).db.ga.pools[1]));
            Enabled(Booked(2, n - 1), s) && Apply(Booked(2, n - 1), s) == Booked(2, n)
  {
    assert UnitsClaimed(0).rows == map[];
    if n == 2 { assert UnitsClaimed(1).rows == map[1 := RowOf(1)]; }
    assert GaInventory.Claim(UnitsClaimed(n - 1), n, RowOf(n)).pools == UnitsClaimed(n).pools;
  }

  lemma BookedSteps() returns (steps: seq<Step>)
    ensures AfterSteps(Stadium(), steps) == Some(Booked(2, 2))
  {
    HoldStep(1);
    assert AfterSteps(Stadium(), []) == Some(Booked(0, 0));
    steps := [] + [ReserveSeats(1, HoldOf(1), {1})];
    OneStepMore(Stadium(), [], Booked(0, 0), ReserveSeats(1, HoldOf(1), {1}), Booked(1, 0));
    HoldStep(2);
    OneStepMore(Stadium(), steps, Booked(1, 0), ReserveSeats(2, HoldOf(2), {2}), Booked(2, 0));
    steps := steps + [ReserveSeats(2, HoldOf(2), {2})];
    ClaimStep(1);
    var c := ClaimUnits(1, RowOf(1), Some(Booked(2, 0).db.ga.pools[1]));
    OneStepMore(Stadium(), steps, Booked(2, 0), c, Booked(2, 1));
    steps := steps + [c];
    ClaimStep(2);
    c := ClaimUnits(2, RowOf(2), Some(Booked(2, 1).db.ga.pools[1]));
    OneStepMore(Stadium(), steps, Booked(2, 1), c, Booked(2, 2));
    steps := steps + [c];
  }

  // ---------- captured, then abandoned ----------

  /** Paid for, and the attempt lost to a crash. */
  function Abandoned(w: World, o: nat, order: Order): World {
    Paid(w, o, order).(attempts := w.attempts)
  }

  function SeatOrder(): Order {
    Order(1, "ann", "o1", SeatClaim(1), PaymentPending, 5, 1)
  }

  function UnitOrder(): Order {
    Order(1, "ann", "o2", GaClaim(1), PaymentPending, 5, 1)
  }

  function OneAbandoned(): World {
    Abandoned(Booked(2, 2), 1, SeatOrder())
  }

  /** Both reservations with the smaller ids are paid for and abandoned, and everything is overdue. */
  function Starving(): World {
    Abandoned(OneAbandoned(), 2, UnitOrder()).(now := 10)
  }

  lemma CrashStep(w0: World, before: seq<Step>, w: World, o: nat, order: Order)
    requires AfterSteps(w0, before) == Some(Paid(w, o, order)) && o !in w.attempts
    ensures AfterSteps(w0, before + [Crash(o)]) == Some(Abandoned(w, o, order))
  {
    assert w.attempts[o := Finalizing] - {o} == w.attempts;
    OneStepMore(w0, before, Paid(w, o, order), Crash(o), Abandoned(w, o, order));
  }

  lemma SeatOne()
    ensures SeatsOf(SeatsHeld(2), 1) == map[1 := Seat(1, Held, Some(1), Some(10), 2)]
    ensures SeatsHeld(2).holds == map[1 := HoldOf(1), 2 := HoldOf(2)]
    ensures UnitsClaimed(2).rows == map[1 := RowOf(1), 2 := RowOf(2)]
  {
    assert SeatsHeld(1).holds == map[1 := HoldOf(1)];
    assert UnitsClaimed(1).rows == map[1 := RowOf(1)];
    assert SeatsHeld(2).seats == map[1 := Seat(1, Held, Some(1), Some(10), 2), 2 := Seat(1, Held, Some(2), Some(10), 2)];
    assert SeatsOf(SeatsHeld(2), 1).Keys == {1};
  }

  lemma SeatOrderSteps() returns (steps: seq<Step>)
    ensures AfterSteps(Stadium(), steps) == Some(Paid(Booked(2, 2), 1, SeatOrder()))
  {
    var w := Booked(2, 2);
    steps := BookedSteps();
    SeatOne();
    assert Reserved(w.db, SeatClaim(1)) == SeatView(HoldStatus.Active, map[1 := Seat(1, Held, Some(1), Some(10), 2)]);
    steps := OrderSteps(Stadium(), steps, w, 1, 1, SeatClaim(1), "ann", "o1", SeatOrder());
    steps := PaySteps(Stadium(), steps, w, 1, SeatOrder());
  }

  lemma StarvingSteps() returns (steps: seq<Step>)
    ensures AfterSteps(Stadium(), steps) == Some(Starving())
  {
    steps := SeatOrderSteps();
    CrashStep(Stadium(), steps, Booked(2, 2), 1, SeatOrder());
    steps := steps + [Crash(1)];
    var w := OneAbandoned();
    SeatOne();
    steps := OrderSteps(Stadium(), steps, w, 2, 2, GaClaim(1), "ann", "o2", UnitOrder());
    steps := PaySteps(Stadium(), steps, w, 2, UnitOrder());
    CrashStep(Stadium(), steps, w, 2, UnitOrder());
    steps := steps + [Crash(2)];
    OneStepMore(Stadium(), steps, Abandoned(w, 2, UnitOrder()), Advance(10), Starving());
    steps := steps + [Advance(10)];
  }

  /** One reservation at a time, nobody else at work. */
  function Passing(): Pass {
    Pass(11, 1, {}, {}, {}, map[])
  }

  /** The batch of one is always the shielded hold in front, */
  lemma ShieldedHoldInFront()
    ensures var db := Starving().db;
            && 2 in OpenHolds(db, Passing()) && !HasCapturedPayment(db, SeatClaim(2))
            && |ShieldedAhead(OpenHolds(db, Passing()), ShieldedHolds(db, Passing()), 2)| >= 1
  {
    SeatOne();
    var db := Starving().db;
    assert 1 in db.orders && db.orders[1].claim == SeatClaim(1) && db.payments[1].status == PaymentStatus.Captured;
    assert 1 in ShieldedAhead(OpenHolds(db, Passing()), ShieldedHolds(db, Passing()), 2);
  }

  /** and the shielded reservation. */
  lemma ShieldedRowInFront()
    ensures var db := Starving().db;
            && 2 in OpenReservations(db, Passing()) && !HasCapturedPayment(db, GaClaim(2))
            && |ShieldedAhead(OpenReservations(db, Passing()), ShieldedReservations(db, Passing()), 2)| >= 1
  {
    SeatOne();
    var db := Starving().db;
    assert 2 in db.orders && db.orders[2].claim == GaClaim(1) && db.payments[2].status == PaymentStatus.Captured;
    assert 1 in ShieldedAhead(OpenReservations(db, Passing()), ShieldedReservations(db, Passing()), 2);
  }

  /** Hold and reservation `n` are past their deadlines, and nobody has ordered either. */
  predicate Unpaid(db: Tables, n: nat, now: int) {
    && n in db.seat.holds && db.seat.holds[n].expiresAt < now
    && n in db.ga.rows && db.ga.rows[n].expiresAt < now
    && forall o :: o in db.orders ==> db.orders[o].claim != SeatClaim(n) && db.orders[o].claim != GaClaim(n)
  }

  lemma NobodyOrdered()
    ensures Unpaid(Starving().db, 2, 11)
  {
    SeatOne();
  }

  /** A reachable state in which an abandoned checkout never returns its seat or its units: hold 2 and
      reservation 2 are overdue, unpaid and unlocked, and still ACTIVE after any number of passes. */
  lemma CheckoutsStarve() returns (ws: seq<World>, steps: seq<Step>)
    ensures Run(ws, steps) && ws[|steps|] == Starving()
    ensures Unpaid(Starving().db, 2, 11)
    ensures forall dbs: seq<Tables> :: Trail(dbs, Passing()) && dbs[0] == Starving().db ==>
              IsActive(dbs[|dbs| - 1].seat, 2) && IsLive(dbs[|dbs| - 1].ga, 2)
  {
    steps := StarvingSteps();
    ws := StepsMakeRun(Stadium(), steps);
    RunInv(ws, steps, |steps|);
    ShieldedHoldInFront();
    ShieldedRowInFront();
    NobodyOrdered();
    HoldWaitsIff(Starving().db, Passing(), 2);
    RowWaitsIff(Starving().db, Passing(), 2);
  }

  // ---------- a release between the read and the writes of a confirm ----------

  /** The rows of the seat order have been read, and its hold is overdue. */
  function Racing(): World {
    var w := Paid(Booked(2, 2), 1, SeatOrder());
    Goes(w, 1, Some(Confirming(SeatsOf(w.db.seat, 1)))).(now := 10)
  }

  function Released(): World {
    Racing().(db := Racing().db.(seat := Release(SeatsHeld(2), 1)))
  }

  lemma RacingSteps() returns (steps: seq<Step>)
    ensures AfterSteps(Stadium(), steps) == Some(Released())
  {
    steps := SeatOrderSteps();
    SeatOne();
    var w := Paid(Booked(2, 2), 1, SeatOrder());
    var read := RowsRead(w, 1);
    OneStepMore(Stadium(), steps, w, ReadForConfirm(1), read);
    steps := steps + [ReadForConfirm(1)];
    OneStepMore(Stadium(), steps, read, Advance(10), Racing());
    steps := steps + [Advance(10)];
    OneStepMore(Stadium(), steps, Racing(), ExpireHold(1), Released());
    steps := steps + [ExpireHold(1)];
  }

  lemma LostSteps() returns (steps: seq<Step>, w: World)
    ensures AfterSteps(Stadium(), steps) == Some(w) && At(w, 1, Lost) && w.db == Released().db && w.psp == Released().psp
  {
    steps := RacingSteps();
    SeatOne();
    var rows := Released().attempts[1].rows;
    assert 1 in rows && !RowMatches(Released().db.seat.seats, 1, rows[1], 1);
    w := SeatsConfirmed(Released(), 1, rows);
    OneStepMore(Stadium(), steps, Released(), WriteConfirm(1), w);
    steps := steps + [WriteConfirm(1)];
  }

  lemma RefundSteps() returns (steps: seq<Step>, w: World)
    ensures AfterSteps(Stadium(), steps) == Some(w) && At(w, 1, Repaid) && w.db == Released().db
    ensures w.psp == AfterRefund(Released().psp, PayKey(1), RefundKey(PayKey(1)))
  {
    var u;
    steps, u := LostSteps();
    w := CardRefunded(u, 1);
    OneStepMore(Stadium(), steps, u, RefundCard(1), w);
    steps := steps + [RefundCard(1)];
  }

  lemma ReleasedRows()
    ensures var db := Released().db;
            && 1 in db.orders && 1 in db.payments && PayKey(1) in Released().psp.charges
            && CapturedAmount(Released().psp, PayKey(1)) == 5 && RefundKey(PayKey(1)) !in Released().psp.refunds
            && 1 in db.seat.seats && db.seat.seats[1].status == Available
  {
    SeatOne();
  }

  /** The race does happen: the capture is committed and the rows are read while the hold is ACTIVE, an
      expiry that had looked earlier releases it, the conditional writes match nothing, and the buyer is
      refunded. */
  lemma LostRaceIsRefunded() returns (ws: seq<World>, steps: seq<Step>)
    ensures Run(ws, steps)
    ensures var w := ws[|steps|];
            && 1 in w.db.orders && w.db.orders[1].status == Compensated
            && RefundKey(PayKey(1)) in w.psp.refunds && w.psp.refunds[RefundKey(PayKey(1))].amount == 5
            && 1 in w.db.seat.seats && w.db.seat.seats[1].status == Available
  {
    var u;
    steps, u := RefundSteps();
    ReleasedRows();
    OneStepMore(Stadium(), steps, u, Step.Compensate(1), Undone(u, 1));
    steps := steps + [Step.Compensate(1)];
    ws := StepsMakeRun(Stadium(), steps);
  }
}
