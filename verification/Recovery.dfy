/** One uninterrupted attempt drives any pending order, left at whatever point by a crash, to a final
    status, and which one is decided by the provider's answer and the reservation alone. */
module Recovery {
  import opened Collections
  import opened SeatInventory
  import opened GaInventory
  import opened OrderLife
  import opened Booking
  import opened BookingInvariant
  import opened BookingTheorems

  /** The step an attempt takes next; `ok` is what the provider would answer if asked. */
  function NextStep(w: World, o: nat, ok: bool): Step
    requires o in w.attempts && o in w.db.orders
  {
    match w.attempts[o]
    case Ensuring => EnsurePayment(o)
    case Charging => ChargeCard(o, ok)
    case Charged(_) => RecordCharge(o)
    case Finalizing => if w.db.orders[o].claim.SeatClaim? then ReadForConfirm(o) else ConfirmUnits(o)
    case Confirming(_) => WriteConfirm(o)
    case Lost => if o in w.db.payments && Refundable(w.db.payments[o]) then RefundCard(o) else Compensate(o)
    case Repaid => Compensate(o)
  }

  /** Steps left at most. */
  function Rank(a: Attempt): nat {
    match a
    case Ensuring => 7
    case Charging => 6
    case Charged(_) => 5
    case Finalizing => 4
    case Confirming(_) => 3
    case Lost => 2
    case Repaid => 1
  }

  /** The status an undisturbed attempt reaches: decided by the provider's answer, stored or still to
      come, and then by whether the reservation is active. */
  function Verdict(v: OrderView, ok: bool): OrderStatus {
    if !(if v.charge.Some? then v.charge.value.result.ok else ok) then PaymentFailed
    else if v.claim.status == HoldStatus.Active then OrderStatus.Confirmed
    else Compensated
  }

  /** One step either ends the attempt with the verdict, or keeps the verdict. */
  predicate Honours(v: OrderView, v': OrderView, ok: bool) {
    if v'.attempt.Some? then Verdict(v', ok) == Verdict(v, ok) else v'.order.status == Verdict(v, ok)
  }

  /** As much of the invariant as the step of an attempt needs. */
  predicate Ready(w: World, o: nat) {
    Keyed(w, o) && o in w.attempts && Exists(w.db, w.db.orders[o].claim) && Sound(View(w, o), w.price)
  }

  /** An attempt is never stuck, and every step brings it nearer its end. */
  lemma NextStepRuns(w: World, o: nat, ok: bool)
    requires Inv(w) && o in w.attempts
    ensures o in w.db.orders && Enabled(w, NextStep(w, o, ok))
    ensures var w' := Apply(w, NextStep(w, o, ok));
            o in w'.attempts ==> Rank(w'.attempts[o]) < Rank(w.attempts[o])
  {
    assert Sound(View(w, o), w.price);
    assert Exists(w.db, w.db.orders[o].claim);
    match w.attempts[o]
    case Confirming(_) => ConfirmStepRuns(w, o, ok);
    case Lost => LateStepRuns(w, o, ok);
    case Repaid => LateStepRuns(w, o, ok);
    case Ensuring => FirstStepRuns(w, o, ok);
    case _ => EarlyStepRuns(w, o, ok);
  }

  lemma FirstStepRuns(w: World, o: nat, ok: bool)
    requires Ready(w, o) && w.attempts[o].Ensuring?
    ensures Enabled(w, NextStep(w, o, ok))
    ensures var w' := Apply(w, NextStep(w, o, ok));
            o in w'.attempts ==> Rank(w'.attempts[o]) < Rank(w.attempts[o])
  {
  }

  lemma EarlyStepRuns(w: World, o: nat, ok: bool)
    requires Ready(w, o) && (w.attempts[o].Charging? || w.attempts[o].Charged? || w.attempts[o].Finalizing?)
    ensures Enabled(w, NextStep(w, o, ok))
    ensures var w' := Apply(w, NextStep(w, o, ok));
            o in w'.attempts ==> Rank(w'.attempts[o]) < Rank(w.attempts[o])
  {
    assert Exists(w.db, w.db.orders[o].claim);
  }

  lemma LateStepRuns(w: World, o: nat, ok: bool)
    requires Ready(w, o) && (w.attempts[o].Lost? || w.attempts[o].Repaid?)
    ensures Enabled(w, NextStep(w, o, ok))
    ensures var w' := Apply(w, NextStep(w, o, ok));
            o in w'.attempts ==> Rank(w'.attempts[o]) < Rank(w.attempts[o])
  {
    if w.attempts[o].Lost? { RepaySound(View(w, o), w.price); }
  }

  lemma ConfirmStepRuns(w: World, o: nat, ok: bool)
    requires Inv(w) && o in w.attempts && w.attempts[o].Confirming?
    ensures o in w.db.orders && Enabled(w, NextStep(w, o, ok))
    ensures var w' := Apply(w, NextStep(w, o, ok));
            && (o in w'.attempts ==> w'.attempts[o] == Lost)
            && Honours(View(w, o), View(w', o), ok)
  {
    assert Sound(View(w, o), w.price);
    ConfirmWinsIff(w, o, w.attempts[o].rows);
    var h := w.db.orders[o].claim.hold;
    if IsActive(w.db.seat, h) {
      ConfirmStepIs(w, o, h, ok);
      ConfirmHonours(w, Apply(w, NextStep(w, o, ok)), o, h, ok);
    } else {
      LateStepIs(w, o, h, ok);
      GoesFrame(w, o, Some(Lost));
    }
  }

  lemma LateStepIs(w: World, o: nat, h: nat, ok: bool)
    requires o in w.db.orders && w.db.orders[o].claim == SeatClaim(h)
    requires o in w.attempts && w.attempts[o].Confirming? && !AllMatch(w.db.seat.seats, w.attempts[o].rows, h)
    ensures Enabled(w, NextStep(w, o, ok)) && Apply(w, NextStep(w, o, ok)) == Goes(w, o, Some(Lost))
  {
  }

  lemma ConfirmStepIs(w: World, o: nat, h: nat, ok: bool)
    requires o in w.db.orders && w.db.orders[o].claim == SeatClaim(h) && IsActive(w.db.seat, h)
    requires At(w, o, Confirming(SeatsOf(w.db.seat, h))) && AllMatch(w.db.seat.seats, SeatsOf(w.db.seat, h), h)
    requires WriteRows(w.db.seat, SeatsOf(w.db.seat, h), h) == Confirm(w.db.seat, h)
    ensures Enabled(w, NextStep(w, o, ok))
    ensures Apply(w, NextStep(w, o, ok))
         == Goes(w.(db := ConfirmOrder(w.db.(seat := Confirm(w.db.seat, h)), o, w.now)), o, None)
  {
  }

  lemma ConfirmHonours(w: World, w': World, o: nat, h: nat, ok: bool)
    requires Keyed(w, o) && w.db.orders[o].claim == SeatClaim(h) && IsActive(w.db.seat, h) && Sound(View(w, o), w.price)
    requires At(w, o, Confirming(SeatsOf(w.db.seat, h)))
    requires w' == Goes(w.(db := ConfirmOrder(w.db.(seat := Confirm(w.db.seat, h)), o, w.now)), o, None)
    ensures o in w'.db.orders && o !in w'.attempts && Honours(View(w, o), View(w', o), ok)
  {
    SeatsConfirmedFrame(w, w', o, h);
    SoldHonours(View(w, o), SeatView(HoldStatus.Confirmed, SeatsOf(Confirm(w.db.seat, h), h)), w.price, ok);
  }

  lemma SoldHonours(v: OrderView, c: ClaimView, price: nat, ok: bool)
    requires Sound(v, price) && v.attempt.Some? && v.attempt.value.Confirming? && v.claim.status == HoldStatus.Active
    ensures Honours(v, ConfirmWith(v, c), ok)
  {
  }

  /** The attempt on `o` carried through with nothing else happening. */
  ghost function Drive(w: World, o: nat, ok: bool): World
    requires Inv(w) && o in w.attempts
    decreases Rank(w.attempts[o])
  {
    NextStepRuns(w, o, ok);
    var s := NextStep(w, o, ok);
    StepKeeps(w, s);
    var w' := Apply(w, s);
    if o in w'.attempts then Drive(w', o, ok) else w'
  }

  lemma EnsureHonours(w: World, o: nat, ok: bool)
    requires Ready(w, o) && w.attempts[o].Ensuring?
    ensures Enabled(w, NextStep(w, o, ok))
    ensures Honours(View(w, o), View(Apply(w, NextStep(w, o, ok)), o), ok)
  {
    EnsuredFrame(w, o);
  }

  lemma ChargeHonours(w: World, o: nat, ok: bool)
    requires Ready(w, o) && w.attempts[o].Charging?
    ensures Enabled(w, NextStep(w, o, ok))
    ensures Honours(View(w, o), View(Apply(w, NextStep(w, o, ok)), o), ok)
  {
    AnsweredFrame(w, o, ok);
  }

  lemma RecordHonours(w: World, o: nat, ok: bool)
    requires Ready(w, o) && w.attempts[o].Charged?
    ensures Enabled(w, NextStep(w, o, ok))
    ensures Honours(View(w, o), View(Apply(w, NextStep(w, o, ok)), o), ok)
  {
    RecordedFrame(w, o);
  }

  lemma FinalizeHonours(w: World, o: nat, ok: bool)
    requires Ready(w, o) && w.attempts[o].Finalizing?
    ensures Enabled(w, NextStep(w, o, ok))
    ensures Honours(View(w, o), View(Apply(w, NextStep(w, o, ok)), o), ok)
  {
    match w.db.orders[o].claim
    case SeatClaim(_) => ReadHonours(w, o, ok);
    case GaClaim(r) => UnitsHonour(w, o, r, ok);
  }

  lemma ReadHonours(w: World, o: nat, ok: bool)
    requires Ready(w, o) && w.attempts[o].Finalizing? && w.db.orders[o].claim.SeatClaim?
    ensures Enabled(w, NextStep(w, o, ok))
    ensures Honours(View(w, o), View(Apply(w, NextStep(w, o, ok)), o), ok)
  {
    RowsReadFrame(w, o);
    ReadingHonours(View(w, o), w.price, ok);
  }

  lemma ReadingHonours(v: OrderView, price: nat, ok: bool)
    requires Sound(v, price) && v.attempt == Some(Finalizing) && v.claim.SeatView?
    ensures Honours(v, ReadRows(v), ok)
  {
  }

  lemma UnitsHonour(w: World, o: nat, r: nat, ok: bool)
    requires Ready(w, o) && w.attempts[o].Finalizing? && w.db.orders[o].claim == GaClaim(r)
    ensures Enabled(w, NextStep(w, o, ok))
    ensures Honours(View(w, o), View(Apply(w, NextStep(w, o, ok)), o), ok)
  {
    if IsLive(w.db.ga, r) { UnitsConfirmedFrame(w, UnitsConfirmed(w, o), o, r); }
  }

  lemma LostHonours(w: World, o: nat, ok: bool)
    requires Ready(w, o) && w.attempts[o].Lost?
    ensures Enabled(w, NextStep(w, o, ok))
    ensures Honours(View(w, o), View(Apply(w, NextStep(w, o, ok)), o), ok)
  {
    RepaySound(View(w, o), w.price);
    CardRefundedFrame(w, o);
  }

  lemma UndoHonours(v: OrderView, price: nat, ok: bool)
    requires Sound(v, price) && v.attempt == Some(Repaid)
    ensures v.payment.Some? && Honours(v, Undo(v), ok)
  {
  }

  lemma RepaidHonours(w: World, o: nat, ok: bool)
    requires Ready(w, o) && w.attempts[o].Repaid?
    ensures Enabled(w, NextStep(w, o, ok))
    ensures Honours(View(w, o), View(Apply(w, NextStep(w, o, ok)), o), ok)
  {
    UndoHonours(View(w, o), w.price, ok);
    UndoneFrame(w, o);
  }

  lemma VerdictStands(w: World, o: nat, ok: bool)
    requires Inv(w) && o in w.attempts
    ensures o in w.db.orders && Enabled(w, NextStep(w, o, ok))
    ensures Honours(View(w, o), View(Apply(w, NextStep(w, o, ok)), o), ok)
  {
    assert Sound(View(w, o), w.price);
    assert Exists(w.db, w.db.orders[o].claim);
    match w.attempts[o]
    case Ensuring => EnsureHonours(w, o, ok);
    case Finalizing => FinalizeHonours(w, o, ok);
    case Confirming(_) => ConfirmStepRuns(w, o, ok);
    case Lost => LostHonours(w, o, ok);
    case Repaid => RepaidHonours(w, o, ok);
    case Charging => ChargeHonours(w, o, ok);
    case Charged(_) => RecordHonours(w, o, ok);
  }

  /** The drive ends: the attempt is over, the order has its verdict, nothing else was disturbed. */
  lemma {:induction false} DriveEnds(w: World, o: nat, ok: bool)
    requires Inv(w) && o in w.attempts
    ensures var end := Drive(w, o, ok);
            && Inv(end) && Progress(w, end)
            && o !in end.attempts && o in end.db.orders && o in w.db.orders
            && end.db.orders[o].status == Verdict(View(w, o), ok)
    decreases Rank(w.attempts[o])
  {
    VerdictStands(w, o, ok);
    NextStepRuns(w, o, ok);
    var s := NextStep(w, o, ok);
    StepKeeps(w, s);
    var w' := Apply(w, s);
    if o in w'.attempts {
      DriveEnds(w', o, ok);
      ProgressTransitive(w, w', Drive(w', o, ok));
    }
  }

  lemma ReplayRuns(w: World, o: nat, ok: bool)
    requires Inv(w) && o in w.db.orders && o !in w.attempts && w.db.orders[o].status == PaymentPending
    ensures var replay := Replay(o, w.db.orders[o].sessionId);
            && Enabled(w, replay) && Inv(Apply(w, replay)) && Progress(w, Apply(w, replay))
            && o in Apply(w, replay).attempts && Verdict(View(Apply(w, replay), o), ok) == Verdict(View(w, o), ok)
  {
    StepKeeps(w, Replay(o, w.db.orders[o].sessionId));
  }

  /** Recoverability: whatever point a crash left a pending order at, one replay with its session
      runs, undisturbed, to CONFIRMED, PAYMENT_FAILED or COMPENSATED, as the verdict says. */
  lemma Recoverable(w: World, o: nat, ok: bool)
    requires Inv(w) && o in w.db.orders && o !in w.attempts && w.db.orders[o].status == PaymentPending
    ensures var replay := Replay(o, w.db.orders[o].sessionId);
            && Enabled(w, replay) && Inv(Apply(w, replay)) && o in Apply(w, replay).attempts
            && var end := Drive(Apply(w, replay), o, ok);
            && Inv(end) && Progress(w, end) && o !in end.attempts && o in end.db.orders
            && end.db.orders[o].status == Verdict(View(w, o), ok) && Terminal(end.db.orders[o].status)
  {
    ReplayRuns(w, o, ok);
    var w' := Apply(w, Replay(o, w.db.orders[o].sessionId));
    DriveEnds(w', o, ok);
    ProgressTransitive(w, w', Drive(w', o, ok));
  }

  /** Finalising too late is always made good: an attempt whose reservation expired after the capture was
      committed, at whatever point, ends in exactly one refund, one FinalizeFailed event, and COMPENSATED. */
  lemma LateExpiryIsRefunded(w: World, o: nat, ok: bool)
    requires Inv(w) && o in w.attempts && o in w.db.orders && w.db.orders[o].status == PaymentPending
    requires o in w.db.payments && w.db.payments[o].status == PaymentStatus.Captured
    requires Reserved(w.db, w.db.orders[o].claim).status == HoldStatus.Expired
    ensures var end := Drive(w, o, ok);
            && Inv(end) && o in end.db.orders && end.db.orders[o].status == Compensated
            && View(end, o).refund.Some? && View(end, o).events == [EventKind.FinalizeFailed]
            && View(end, o).claim.status == HoldStatus.Expired
  {
    assert Sound(View(w, o), w.price);
    DriveEnds(w, o, ok);
    CompensatedMeans(Drive(w, o, ok), o);
  }

  lemma CompensatedMeans(w: World, o: nat)
    requires Inv(w) && o in w.db.orders && w.db.orders[o].status == Compensated
    ensures View(w, o).refund.Some? && View(w, o).events == [EventKind.FinalizeFailed]
    ensures View(w, o).claim.status == HoldStatus.Expired
  {
    assert Sound(View(w, o), w.price);
  }

  // ---------- the attempt amid everything else ----------

  /** The order whose attempt a step carries on. */
  function Own(s: Step): Option<nat> {
    match s
    case EnsurePayment(o) => Some(o)
    case ChargeCard(o, _) => Some(o)
    case RecordCharge(o) => Some(o)
    case ReadForConfirm(o) => Some(o)
    case WriteConfirm(o) => Some(o)
    case ConfirmUnits(o) => Some(o)
    case RefundCard(o) => Some(o)
    case Compensate(o) => Some(o)
    case _ => None
  }

  /** An attempt has one way to go on, up to the provider's answer. */
  lemma OwnIsNext(w: World, s: Step, o: nat)
    requires Enabled(w, s) && Own(s) == Some(o)
    ensures o in w.attempts && o in w.db.orders
    ensures s == NextStep(w, o, if s.ChargeCard? then s.ok else true)
  {
  }

  /** The step leads nearer the end, or ends the attempt with a final order. */
  predicate Advances(w: World, w': World, o: nat)
    requires o in w.attempts
  {
    if o in w'.attempts then Rank(w'.attempts[o]) < Rank(w.attempts[o])
    else o in w'.db.orders && Terminal(w'.db.orders[o].status)
  }

  lemma NextStepAdvances(w: World, o: nat, ok: bool)
    requires Inv(w) && o in w.attempts
    ensures o in w.db.orders && Enabled(w, NextStep(w, o, ok)) && Advances(w, Apply(w, NextStep(w, o, ok)), o)
  {
    NextStepRuns(w, o, ok);
    VerdictStands(w, o, ok);
  }

  lemma OwnStepAdvances(w: World, s: Step, o: nat)
    requires Inv(w) && Enabled(w, s) && Own(s) == Some(o)
    ensures o in w.attempts && Advances(w, Apply(w, s), o)
  {
    OwnIsNext(w, s, o);
    NextStepAdvances(w, o, if s.ChargeCard? then s.ok else true);
  }

  lemma OthersLeaveIt(w: World, s: Step, o: nat)
    requires Enabled(w, s) && Own(s) != Some(o) && s != Crash(o) && o in w.attempts && o in w.db.orders
    ensures o in Apply(w, s).attempts && Apply(w, s).attempts[o] == w.attempts[o]
  {
  }

  function OwnSteps(steps: seq<Step>, i: nat, j: nat, o: nat): nat
    requires i <= j <= |steps|
    decreases j - i
  {
    if i == j then 0 else OwnSteps(steps, i, j - 1, o) + if Own(steps[j - 1]) == Some(o) then 1 else 0
  }

  /** How many steps of its own an attempt may still take. */
  function StepsLeft(w: World, o: nat): nat {
    if o in w.attempts then Rank(w.attempts[o]) else 0
  }

  /** The attempt is live, or its order is final. */
  predicate Settling(w: World, o: nat) {
    o in w.db.orders && (o in w.attempts || Terminal(w.db.orders[o].status))
  }

  lemma SettlesFurther(w: World, s: Step, o: nat)
    requires Inv(w) && Enabled(w, s) && Settling(w, o) && s != Crash(o)
    ensures Settling(Apply(w, s), o)
    ensures StepsLeft(Apply(w, s), o) + (if Own(s) == Some(o) then 1 else 0) <= StepsLeft(w, o)
  {
    if Own(s) == Some(o) {
      OwnStepAdvances(w, s, o);
      StaysPlaced(w, s, o);
    } else if o in w.attempts {
      OthersLeaveIt(w, s, o);
      StaysPlaced(w, s, o);
    } else {
      FinalStays(w, s, o);
    }
  }

  lemma StaysPlaced(w: World, s: Step, o: nat)
    requires Inv(w) && Enabled(w, s) && o in w.db.orders
    ensures o in Apply(w, s).db.orders
  {
    StepKeeps(w, s);
    assert Moves(View(w, o), View(Apply(w, s), o));
  }

  lemma FinalStays(w: World, s: Step, o: nat)
    requires Inv(w) && Enabled(w, s) && o in w.db.orders && o !in w.attempts && Terminal(w.db.orders[o].status)
    ensures var w' := Apply(w, s); o in w'.db.orders && o !in w'.attempts && Terminal(w'.db.orders[o].status)
  {
    StepKeeps(w, s);
    assert Moves(View(w, o), View(Apply(w, s), o));
  }

  lemma StartsWithSeven(w: World, o: nat)
    requires Inv(w) && o in w.attempts
    ensures Settling(w, o) && StepsLeft(w, o) <= 7
  {
    assert w.attempts.Keys <= w.db.orders.Keys;
  }

  /** Whatever else interleaves, an attempt that does not crash takes at most seven steps of its own,
      and when it is over its order is final. While it is live its next step is enabled (`NextStepRuns`). */
  lemma {:induction false} EndsWithinSeven(ws: seq<World>, steps: seq<Step>, i: nat, j: nat, o: nat)
    requires Run(ws, steps) && i <= j < |ws| && o in ws[i].attempts
    requires forall k :: i <= k < j ==> steps[k] != Crash(o)
    ensures Settling(ws[j], o)
    ensures OwnSteps(steps, i, j, o) + StepsLeft(ws[j], o) <= StepsLeft(ws[i], o) <= 7
    decreases j - i
  {
    if i == j {
      RunInv(ws, steps, i);
      StartsWithSeven(ws[i], o);
    } else {
      var k: nat := j - 1;
      EndsWithinSeven(ws, steps, i, k, o);
      var mine: nat := SettlesAt(ws, steps, k, j, o);
      OwnStepsMore(steps, i, k, j, o, mine);
    }
  }

  lemma OwnStepsMore(steps: seq<Step>, i: nat, k: nat, j: nat, o: nat, mine: nat)
    requires i <= k && j == k + 1 <= |steps| && mine == (if Own(steps[k]) == Some(o) then 1 else 0)
    ensures OwnSteps(steps, i, j, o) == OwnSteps(steps, i, k, o) + mine
  {
  }

  lemma SettlesAt(ws: seq<World>, steps: seq<Step>, k: nat, j: nat, o: nat) returns (mine: nat)
    requires Run(ws, steps) && k < |steps| && j == k + 1 && Settling(ws[k], o) && steps[k] != Crash(o)
    ensures Settling(ws[j], o) && mine == (if Own(steps[k]) == Some(o) then 1 else 0)
    ensures StepsLeft(ws[j], o) + mine <= StepsLeft(ws[k], o)
  {
    mine := if Own(steps[k]) == Some(o) then 1 else 0;
    RunInv(ws, steps, k);
    SettlesFurther(ws[k], steps[k], o);
  }
}
