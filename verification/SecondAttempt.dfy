/** Why an order may have only one live attempt. A second one that was under way when the first ended still
    holds the order it had loaded, PAYMENT_PENDING, and goes on from there. */
module SecondAttempt {
  import opened Collections
  import opened SeatInventory
  import opened PaymentProvider
  import opened OrderLife
  import opened Booking
  import opened BookingInvariant
  import opened BookingTheorems

  // ---------- what a second attempt does ----------

  /** Where it goes with the payment row it has read: its own copy of the order is still pending. */
  function PastPayment(p: Payment): Option<Attempt> {
    if p.status == Pending then Some(Charging) else if p.status == PaymentStatus.Refunded then None else Some(Finalizing)
  }

  function CapturedAgain(w: World, o: nat): World
    requires o in w.db.payments && PayKey(o) in w.psp.charges
  {
    var p := w.db.payments[o].(status := PaymentStatus.Captured, pspRef := w.psp.charges[PayKey(o)].result.pspRef);
    Goes(w.(db := w.db.(payments := w.db.payments[o := p])), o, Some(Finalizing))
  }

  /** Its rows are there, and the provider has answered the first attempt. */
  predicate Underway(w: World, o: nat) {
    && Keyed(w, o) && SeatInv(w.db.seat) && Exists(w.db, w.db.orders[o].claim)
    && o in w.attempts && o in w.db.payments && PayKey(o) in w.psp.charges
    && w.db.payments[o].key == PayKey(o)
    && (w.db.payments[o].pspRef == None || w.db.payments[o].pspRef == Some(PayKey(o)))
    && w.psp.charges[PayKey(o)].result == ResultOf(PayKey(o), w.psp.charges[PayKey(o)].result.ok)
  }

  /** The next commit or provider call of the second attempt. */
  function Second(w: World, o: nat): World
    requires Underway(w, o)
  {
    match w.attempts[o]
    case Ensuring => Goes(w, o, PastPayment(w.db.payments[o]))
    case Charging => Answered(w, o, true)
    case Charged(ok) => if ok then CapturedAgain(w, o) else Recorded(w, o)
    case Finalizing => if w.db.orders[o].claim.SeatClaim? then RowsRead(w, o) else UnitsConfirmed(w, o)
    case Confirming(rows) => if w.db.orders[o].claim.SeatClaim? then SeatsConfirmed(w, o, rows) else Goes(w, o, Some(Lost))
    case Lost => if Refundable(w.db.payments[o]) then CardRefunded(w, o) else Undone(w, o)
    case Repaid => Undone(w, o)
  }

  /** The second attempt has run to its end, undisturbed. */
  ghost predicate EndsIn(w: World, o: nat, end: World, fuel: nat)
    decreases fuel
  {
    if o !in w.attempts then end == w
    else fuel > 0 && Underway(w, o) && EndsIn(Second(w, o), o, end, fuel - 1)
  }

  lemma OneMore(w: World, o: nat, u: World, end: World, k: nat, fuel: nat)
    requires o in w.attempts && Underway(w, o) && u == Second(w, o) && EndsIn(u, o, end, k) && fuel == k + 1
    ensures EndsIn(w, o, end, fuel)
  {
  }

  // ---------- losing the confirm ----------

  /** The order is compensated, whatever had become of it, and its reservation stays as it is. */
  predicate Compensates(v: OrderView, v': OrderView) {
    && v'.attempt == None && v'.order.status == Compensated && v'.events == v.events + [EventKind.FinalizeFailed]
    && v'.claim == v.claim && v'.charge == v.charge
    && (v.payment.Some? && Refundable(v.payment.value) ==> v'.refund.Some?)
    && (v.refund.Some? ==> v'.refund.Some?)
  }

  lemma UndoCompensates(v: OrderView)
    requires v.payment.Some? && (v.attempt == Some(Repaid) ==> v.refund.Some?)
    requires v.attempt == Some(Repaid) || !Refundable(v.payment.value)
    ensures Compensates(v, Undo(v))
  {
  }

  lemma UndoneCompensates(w: World, o: nat)
    requires Keyed(w, o) && o in w.db.payments && o in w.attempts
    requires w.attempts[o] == Repaid || !Refundable(w.db.payments[o])
    requires w.attempts[o] == Repaid ==> View(w, o).refund.Some?
    ensures o in Undone(w, o).db.orders && Compensates(View(w, o), View(Undone(w, o), o))
  {
    var v := View(w, o);
    UndoneFrame(w, o);
    UndoCompensates(v);
  }

  lemma UndoEnds(w: World, o: nat) returns (end: World)
    requires Underway(w, o) && (w.attempts[o].Repaid? || (w.attempts[o].Lost? && !Refundable(w.db.payments[o])))
    requires w.attempts[o].Repaid? ==> View(w, o).refund.Some?
    ensures EndsIn(w, o, end, 1) && o in end.db.orders && Compensates(View(w, o), View(end, o))
  {
    end := Undone(w, o);
    UndoneCompensates(w, o);
    OneMore(w, o, end, end, 0, 1);
  }

  lemma RefundedUnderway(w: World, o: nat)
    requires Underway(w, o) && w.attempts[o].Lost? && Refundable(w.db.payments[o])
    ensures var u := CardRefunded(w, o);
            && Underway(u, o) && u.attempts[o] == Repaid && View(u, o).refund.Some?
            && View(u, o) == View(w, o).(attempt := Some(Repaid), refund := View(u, o).refund)
  {
    CardRefundedFrame(w, o);
  }

  lemma LostEnds(w: World, o: nat) returns (end: World)
    requires Underway(w, o) && w.attempts[o].Lost?
    ensures EndsIn(w, o, end, 2) && o in end.db.orders && Compensates(View(w, o), View(end, o))
  {
    if Refundable(w.db.payments[o]) {
      var u := CardRefunded(w, o);
      RefundedUnderway(w, o);
      end := UndoEnds(u, o);
      OneMore(w, o, u, end, 1, 2);
    } else {
      end := UndoEnds(w, o);
      MoreFuel(w, o, end, 1, 2);
    }
  }

  lemma {:induction false} MoreFuel(w: World, o: nat, end: World, k: nat, fuel: nat)
    requires EndsIn(w, o, end, k) && k <= fuel
    ensures EndsIn(w, o, end, fuel)
    decreases k
  {
    if o in w.attempts {
      MoreFuel(Second(w, o), o, end, k - 1, fuel - 1);
    }
  }

  lemma ReplaceUnderway(w: World, o: nat, a: Attempt)
    requires Underway(w, o)
    ensures Underway(Goes(w, o, Some(a)), o) && Goes(w, o, Some(a)).attempts[o] == a
    ensures View(Goes(w, o, Some(a)), o) == View(w, o).(attempt := Some(a))
  {
    GoesFrame(w, o, Some(a));
  }

  /** The writes match nothing once the hold is settled. */
  lemma NothingMatches(t: SeatTables, h: nat, rows: map<nat, Seat>)
    requires SeatInv(t) && h in t.holds && t.holds[h].status != HoldStatus.Active && rows != map[]
    ensures !AllMatch(t.seats, rows, h)
  {
    var i :| i in rows;
    assert i in t.seats ==> SeatOk(t, t.seats[i]);
    assert !RowMatches(t.seats, i, rows[i], h);
  }

  lemma ConfirmingEnds(w: World, o: nat) returns (end: World)
    requires Underway(w, o) && w.attempts[o].Confirming? && w.attempts[o].rows != map[]
    requires Reserved(w.db, w.db.orders[o].claim).status != HoldStatus.Active
    ensures EndsIn(w, o, end, 3) && o in end.db.orders && Compensates(View(w, o), View(end, o))
  {
    var claim := w.db.orders[o].claim;
    if claim.SeatClaim? { NothingMatches(w.db.seat, claim.hold, w.attempts[o].rows); }
    var u := Goes(w, o, Some(Lost));
    assert Second(w, o) == u;
    ReplaceUnderway(w, o, Lost);
    end := LostEnds(u, o);
    OneMore(w, o, u, end, 2, 3);
  }

  /** The second attempt finds the reservation settled, by the first one or by an expiry, and takes itself
      for the loser. */
  lemma FinalizingEnds(w: World, o: nat) returns (end: World)
    requires Underway(w, o) && w.attempts[o].Finalizing?
    requires Reserved(w.db, w.db.orders[o].claim).status != HoldStatus.Active
    ensures Second(w, o) == Goes(w, o, Some(Lost))
    ensures EndsIn(w, o, end, 3) && o in end.db.orders && Compensates(View(w, o), View(end, o))
  {
    var u := Goes(w, o, Some(Lost));
    assert Second(w, o) == u;
    ReplaceUnderway(w, o, Lost);
    end := LostEnds(u, o);
    OneMore(w, o, u, end, 2, 3);
  }

  // ---------- the way to the confirm ----------

  lemma RecapturedUnderway(w: World, o: nat)
    requires Underway(w, o) && w.attempts[o] == Charged(true) && w.psp.charges[PayKey(o)].result.ok
    ensures var u := CapturedAgain(w, o);
            && Second(w, o) == u && Underway(u, o) && u.attempts[o] == Finalizing
            && View(u, o) == View(w, o).(attempt := Some(Finalizing), payment := View(u, o).payment)
            && Refundable(u.db.payments[o]) && u.db.seat == w.db.seat && u.db.ga == w.db.ga
  {
  }

  /** A stored answer that was a capture leads to a second confirm, */
  lemma ChargedEnds(w: World, o: nat) returns (end: World)
    requires Underway(w, o) && w.attempts[o] == Charged(true) && w.psp.charges[PayKey(o)].result.ok
    requires Reserved(w.db, w.db.orders[o].claim).status != HoldStatus.Active
    ensures EndsIn(w, o, end, 4) && o in end.db.orders && Compensates(View(w, o), View(end, o)) && View(end, o).refund.Some?
  {
    var u := CapturedAgain(w, o);
    RecapturedUnderway(w, o);
    end := FinalizingEnds(u, o);
    OneMore(w, o, u, end, 3, 4);
  }

  /** one that was a decline is only recorded again. */
  lemma DeclinedAgain(w: World, o: nat) returns (end: World)
    requires Underway(w, o) && w.attempts[o] == Charged(false)
    ensures EndsIn(w, o, end, 1) && o in end.db.orders && View(end, o) == Record(View(w, o), false)
  {
    end := Recorded(w, o);
    RecordedFrame(w, o);
    OneMore(w, o, end, end, 0, 1);
  }

  /** The provider answers a known key with what it has stored. */
  lemma AskedAgain(w: World, o: nat)
    requires Underway(w, o) && w.attempts[o].Charging?
    ensures var ok := w.psp.charges[PayKey(o)].result.ok;
            Second(w, o) == Goes(w, o, Some(Charged(ok))) && Underway(Second(w, o), o)
            && Second(w, o).attempts[o] == Charged(ok)
            && View(Second(w, o), o) == View(w, o).(attempt := Some(Charged(ok)))
  {
    var ok := w.psp.charges[PayKey(o)].result.ok;
    assert AfterCharge(w.psp, PayKey(o), w.db.orders[o].amount, true) == w.psp;
    ReplaceUnderway(w, o, Charged(ok));
  }

  // ---------- a confirm nobody paid for ----------

  /** With the payment FAILED the second attempt goes straight to the confirm, and if the reservation is
      still ACTIVE it wins: the tickets are sold without a capture. */
  predicate GivesAway(v: OrderView, v': OrderView) {
    && v'.attempt == None && v'.order.status == OrderStatus.Confirmed && v'.claim.status == HoldStatus.Confirmed
    && v'.charge == v.charge
  }

  lemma UnitsGivenAway(w: World, o: nat) returns (end: World)
    requires Underway(w, o) && w.attempts[o].Finalizing? && w.db.orders[o].claim.GaClaim?
    requires Reserved(w.db, w.db.orders[o].claim).status == HoldStatus.Active
    ensures EndsIn(w, o, end, 1) && o in end.db.orders && GivesAway(View(w, o), View(end, o))
  {
    end := UnitsConfirmed(w, o);
    UnitsConfirmedFrame(w, end, o, w.db.orders[o].claim.reservation);
    OneMore(w, o, end, end, 0, 1);
  }

  lemma RowsUnderway(w: World, o: nat, h: nat)
    requires Underway(w, o) && w.attempts[o].Finalizing? && w.db.orders[o].claim == SeatClaim(h) && IsActive(w.db.seat, h)
    ensures Second(w, o) == Goes(w, o, Some(Confirming(SeatsOf(w.db.seat, h)))) && Underway(Second(w, o), o)
    ensures Second(w, o).attempts[o] == Confirming(SeatsOf(w.db.seat, h))
    ensures View(Second(w, o), o) == View(w, o).(attempt := Some(Confirming(SeatsOf(w.db.seat, h))))
  {
    assert SeatsOf(w.db.seat, h) != map[];
    ReplaceUnderway(w, o, Confirming(SeatsOf(w.db.seat, h)));
  }

  lemma SeatsGivenAway(w: World, o: nat, h: nat) returns (end: World)
    requires Underway(w, o) && w.db.orders[o].claim == SeatClaim(h) && IsActive(w.db.seat, h)
    requires w.attempts[o] == Confirming(SeatsOf(w.db.seat, h))
    ensures EndsIn(w, o, end, 1) && o in end.db.orders && GivesAway(View(w, o), View(end, o))
  {
    end := Second(w, o);
    EvolvesReflexive(w.db.seat);
    OptimisticConfirm(w.db.seat, w.db.seat, h);
    SeatsConfirmedFrame(w, end, o, h);
    OneMore(w, o, end, end, 0, 1);
  }

  lemma GivenAway(w: World, o: nat) returns (end: World)
    requires Underway(w, o) && w.attempts[o].Finalizing?
    requires Reserved(w.db, w.db.orders[o].claim).status == HoldStatus.Active
    ensures EndsIn(w, o, end, 2) && o in end.db.orders && GivesAway(View(w, o), View(end, o))
  {
    match w.db.orders[o].claim
    case GaClaim(_) =>
      end := UnitsGivenAway(w, o);
      MoreFuel(w, o, end, 1, 2);
    case SeatClaim(h) =>
      var u := Second(w, o);
      RowsUnderway(w, o, h);
      end := SeatsGivenAway(u, o, h);
      OneMore(w, o, u, end, 1, 2);
  }

  // ---------- when it does harm ----------

  /** Where a second attempt may stand when the first has ended. */
  predicate Possible(v: OrderView, a: Attempt) {
    match a
    case Ensuring => true
    case Charging => true
    case Charged(ok) => ok == WasCaptured(v)
    case Finalizing => WasCaptured(v)
    case Confirming(rows) => WasCaptured(v) && rows != map[]
    case Lost => WasCaptured(v)
    case Repaid => v.refund.Some?
  }

  predicate Harmless(status: OrderStatus, a: Attempt) {
    || (status == Compensated && a.Ensuring?)
    || (status == PaymentFailed && (a.Charging? || a.Charged?))
  }

  /** Compensated although the reservation is sold, announced twice, or settled without a capture. */
  predicate Torn(v: OrderView) {
    && Terminal(v.order.status)
    && (|| (v.order.status == Compensated && v.claim.status == HoldStatus.Confirmed)
        || |v.events| >= 2
        || (v.order.status != PaymentFailed && !WasCaptured(v)))
  }

  /** The harm: a sold ticket refunded, a refund announced twice, or a declined order settled unpaid. */
  predicate Harm(v: OrderView, v': OrderView) {
    match v.order.status
    case Confirmed =>
      v'.order.status == Compensated && v'.refund.Some? && v'.claim.status == HoldStatus.Confirmed
      && v'.events == [TicketConfirmed, EventKind.FinalizeFailed]
    case Compensated => v'.order.status == Compensated && v'.events == [EventKind.FinalizeFailed, EventKind.FinalizeFailed]
    case PaymentFailed =>
      && !WasCaptured(v')
      && v'.order.status == if v.claim.status == HoldStatus.Active then OrderStatus.Confirmed else Compensated
    case _ => false
  }

  lemma HarmIsTorn(v: OrderView, v': OrderView, price: nat)
    requires Harm(v, v')
    ensures Torn(v') && !Sound(v', price)
  {
  }

  lemma CompensatedTwice(v: OrderView, v': OrderView, price: nat)
    requires Sound(v, price) && Terminal(v.order.status) && Compensates(v, v') && v.claim.status != HoldStatus.Active
    ensures Harm(v, v') && v' != v
  {
  }

  /** The first attempt has ended, and left everything in order. */
  ghost predicate Ended(w: World, o: nat) {
    && Keyed(w, o) && SeatInv(w.db.seat) && Exists(w.db, w.db.orders[o].claim)
    && Sound(View(w, o), w.price) && Terminal(w.db.orders[o].status)
  }

  lemma EndedIs(w: World, o: nat)
    requires Inv(w) && o in w.db.orders && Terminal(w.db.orders[o].status)
    ensures Ended(w, o)
  {
    assert Sound(View(w, o), w.price);
    assert Exists(w.db, w.db.orders[o].claim);
  }

  lemma EndedRows(v: OrderView, price: nat)
    requires Sound(v, price) && Terminal(v.order.status)
    ensures v.attempt == None && v.payment.Some? && v.charge.Some?
    ensures v.payment.value.key == PayKey(v.id) && v.charge.value.result == ResultOf(PayKey(v.id), v.charge.value.result.ok)
    ensures v.payment.value.pspRef == None || v.payment.value.pspRef == Some(PayKey(v.id))
  {
  }

  lemma Starts(w: World, o: nat, a: Attempt)
    requires Ended(w, o)
    ensures Underway(Goes(w, o, Some(a)), o) && Goes(w, o, Some(a)).attempts[o] == a
    ensures View(Goes(w, o, Some(a)), o) == View(w, o).(attempt := Some(a)) && View(w, o).attempt == None
  {
    EndedRows(View(w, o), w.price);
    GoesFrame(w, o, Some(a));
  }

  lemma GoesOver(w: World, o: nat, a: Attempt, next: Option<Attempt>)
    ensures Goes(Goes(w, o, Some(a)), o, next) == Goes(w, o, next)
  {
    assert Goes(Goes(w, o, Some(a)), o, next).attempts == Goes(w, o, next).attempts;
  }

  /** From the confirm on it always does. */
  lemma LateStartEnds(w: World, o: nat, a: Attempt) returns (end: World)
    requires Ended(w, o) && Possible(View(w, o), a)
    requires a.Finalizing? || a.Confirming? || a.Lost? || a.Repaid?
    ensures EndsIn(Goes(w, o, Some(a)), o, end, 3) && o in end.db.orders
    ensures Harm(View(w, o), View(end, o)) && View(end, o) != View(w, o)
  {
    var u := Goes(w, o, Some(a));
    Starts(w, o, a);
    match a {
      case Finalizing => end := FinalizingEnds(u, o);
      case Confirming(_) => end := ConfirmingEnds(u, o);
      case Lost =>
        end := LostEnds(u, o);
        MoreFuel(u, o, end, 2, 3);
      case Repaid =>
        end := UndoEnds(u, o);
        MoreFuel(u, o, end, 1, 3);
    }
    CompensatedTwice(View(w, o), View(end, o), w.price);
  }

  /** At the provider it depends on the stored answer. */
  lemma ChargedStartEnds(w: World, o: nat) returns (end: World)
    requires Ended(w, o)
    ensures EndsIn(Goes(w, o, Some(Charged(WasCaptured(View(w, o))))), o, end, 4) && o in end.db.orders
    ensures w.db.orders[o].status == PaymentFailed <==> View(end, o) == View(w, o)
    ensures w.db.orders[o].status != PaymentFailed ==> Harm(View(w, o), View(end, o))
  {
    var v := View(w, o);
    var u := Goes(w, o, Some(Charged(WasCaptured(v))));
    Starts(w, o, Charged(WasCaptured(v)));
    if WasCaptured(v) {
      end := ChargedEnds(u, o);
      CompensatedTwice(v, View(end, o), w.price);
    } else {
      end := DeclinedAgain(u, o);
      MoreFuel(u, o, end, 1, 4);
    }
  }

  lemma ChargingStartEnds(w: World, o: nat) returns (end: World)
    requires Ended(w, o)
    ensures EndsIn(Goes(w, o, Some(Charging)), o, end, 5) && o in end.db.orders
    ensures w.db.orders[o].status == PaymentFailed <==> View(end, o) == View(w, o)
    ensures w.db.orders[o].status != PaymentFailed ==> Harm(View(w, o), View(end, o))
  {
    var u := Goes(w, o, Some(Charging));
    Starts(w, o, Charging);
    AskedAgain(u, o);
    var next := Some(Charged(WasCaptured(View(w, o))));
    GoesOver(w, o, Charging, next);
    end := ChargedStartEnds(w, o);
    OneMore(u, o, Goes(w, o, next), end, 4, 5);
  }

  /** Just before it reads the payment row, a first attempt that was compensated is the only one that does
      no harm: the row says REFUNDED. A declined one makes the second confirm unpaid. */
  lemma EnsuringStartEnds(w: World, o: nat) returns (end: World)
    requires Ended(w, o)
    ensures EndsIn(Goes(w, o, Some(Ensuring)), o, end, 4) && o in end.db.orders
    ensures w.db.orders[o].status == Compensated <==> View(end, o) == View(w, o)
    ensures w.db.orders[o].status != Compensated ==> Harm(View(w, o), View(end, o))
  {
    var u := Goes(w, o, Some(Ensuring));
    Starts(w, o, Ensuring);
    var next := PastPayment(w.db.payments[o]);
    GoesOver(w, o, Ensuring, next);
    if w.db.orders[o].status == Compensated {
      end := Goes(w, o, None);
      GoesFrame(w, o, None);
      OneMore(u, o, end, end, 0, 1);
      MoreFuel(u, o, end, 1, 4);
    } else {
      end := FinalizeStartEnds(w, o);
      OneMore(u, o, Goes(w, o, Some(Finalizing)), end, 3, 4);
    }
  }

  lemma FinalizeStartEnds(w: World, o: nat) returns (end: World)
    requires Ended(w, o) && w.db.orders[o].status != Compensated
    ensures EndsIn(Goes(w, o, Some(Finalizing)), o, end, 3) && o in end.db.orders
    ensures Harm(View(w, o), View(end, o)) && View(end, o) != View(w, o)
  {
    var u := Goes(w, o, Some(Finalizing));
    Starts(w, o, Finalizing);
    if View(w, o).claim.status == HoldStatus.Active {
      end := GivenAway(u, o);
      MoreFuel(u, o, end, 2, 3);
    } else {
      end := FinalizingEnds(u, o);
      CompensatedTwice(View(w, o), View(end, o), w.price);
    }
  }

  /** When the first attempt has ended, a second one does no harm exactly if the first was compensated and
      the second has not read the payment row yet, or the first was declined and the second is at the
      provider. In every other case it does. */
  lemma HarmlessIff(w: World, o: nat, a: Attempt) returns (end: World)
    requires Inv(w) && o in w.db.orders && Terminal(w.db.orders[o].status) && Possible(View(w, o), a)
    ensures EndsIn(Goes(w, o, Some(a)), o, end, 5) && o in end.db.orders
    ensures Harmless(w.db.orders[o].status, a) <==> View(end, o) == View(w, o)
    ensures !Harmless(w.db.orders[o].status, a) ==> Harm(View(w, o), View(end, o))
  {
    var u := Goes(w, o, Some(a));
    EndedIs(w, o);
    match a {
      case Ensuring =>
        end := EnsuringStartEnds(w, o);
        MoreFuel(u, o, end, 4, 5);
      case Charging => end := ChargingStartEnds(w, o);
      case Charged(_) =>
        end := ChargedStartEnds(w, o);
        MoreFuel(u, o, end, 4, 5);
      case _ =>
        end := LateStartEnds(w, o, a);
        MoreFuel(u, o, end, 3, 5);
    }
  }

  // ---------- for good ----------

  /** The order row and the provider's answer for it. */
  predicate SameOrder(w: World, w': World, o: nat)
    requires o in w.db.orders
  {
    && o in w'.db.orders && o !in w'.attempts && w'.db.orders[o] == w.db.orders[o]
    && GetKey(w'.psp.charges, PayKey(o)) == GetKey(w.psp.charges, PayKey(o))
  }

  lemma OrderFixed(w: World, s: Step, o: nat)
    requires Enabled(w, s) && o in w.db.orders && o !in w.attempts && Terminal(w.db.orders[o].status)
    ensures SameOrder(w, Apply(w, s), o)
  {
    if WritesOrder(s) {
      OthersSettle(w, s, o);
    } else if OfAttempt(s) {
      OrdersUntouched(w, s);
      OthersAttempt(w, s, o);
    } else {
      OtherStep(w, s, o);
    }
  }

  lemma OthersSettle(w: World, s: Step, o: nat)
    requires Enabled(w, s) && WritesOrder(s) && o in w.db.orders && o !in w.attempts
    ensures SameOrder(w, Apply(w, s), o)
  {
  }

  lemma OthersAttempt(w: World, s: Step, o: nat)
    requires Enabled(w, s) && OfAttempt(s) && !WritesOrder(s) && o in w.db.orders && o !in w.attempts
    requires Apply(w, s).db.orders == w.db.orders
    ensures SameOrder(w, Apply(w, s), o)
  {
  }

  lemma OtherStep(w: World, s: Step, o: nat)
    requires Enabled(w, s) && !OfAttempt(s) && o in w.db.orders && o !in w.attempts && Terminal(w.db.orders[o].status)
    ensures SameOrder(w, Apply(w, s), o)
  {
  }

  /** A step writes at most one event, for an order it carries on. */
  lemma OutboxStep(w: World, s: Step) returns (e: Option<Event>)
    requires Enabled(w, s) && !s.Publish?
    ensures e == None ==> Apply(w, s).db.outbox == w.db.outbox
    ensures e.Some? ==> Apply(w, s).db.outbox == w.db.outbox + [e.value] && e.value.aggregate in w.attempts
  {
    var more := |Apply(w, s).db.outbox| > |w.db.outbox|;
    e := if more then Some(Apply(w, s).db.outbox[|w.db.outbox|]) else None;
  }

  lemma KindsFixed(w: World, s: Step, o: nat)
    requires Enabled(w, s) && o !in w.attempts
    ensures Kinds(Apply(w, s).db.outbox, o) == Kinds(w.db.outbox, o)
  {
    if s.Publish? {
      KindsStamped(w.db.outbox, s.ids, s.at, o);
    } else {
      var e := OutboxStep(w, s);
      if e.Some? { KindsAppend(w.db.outbox, e.value, o); }
    }
  }

  lemma ConfirmedStays(w: World, s: Step, claim: Claim)
    requires Enabled(w, s) && Exists(w.db, claim) && Reserved(w.db, claim).status == HoldStatus.Confirmed
    ensures Exists(Apply(w, s).db, claim) && Reserved(Apply(w, s).db, claim).status == HoldStatus.Confirmed
  {
    match claim
    case SeatClaim(h) => ConfirmedHoldStays(w, s, h);
    case GaClaim(r) => ConfirmedRowStays(w, s, r);
  }

  lemma ConfirmedHoldStays(w: World, s: Step, h: nat)
    requires Enabled(w, s) && h in w.db.seat.holds && w.db.seat.holds[h].status == HoldStatus.Confirmed
    ensures h in Apply(w, s).db.seat.holds && Apply(w, s).db.seat.holds[h].status == HoldStatus.Confirmed
  {
    if !WritesSeats(s) { InventoryUntouched(w, s); } else { ConfirmedHoldWritten(w, s, h); }
  }

  lemma ConfirmedHoldWritten(w: World, s: Step, h: nat)
    requires Enabled(w, s) && WritesSeats(s) && h in w.db.seat.holds && w.db.seat.holds[h].status == HoldStatus.Confirmed
    ensures h in Apply(w, s).db.seat.holds && Apply(w, s).db.seat.holds[h].status == HoldStatus.Confirmed
  {
  }

  lemma ConfirmedRowStays(w: World, s: Step, r: nat)
    requires Enabled(w, s) && r in w.db.ga.rows && w.db.ga.rows[r].status == HoldStatus.Confirmed
    ensures r in Apply(w, s).db.ga.rows && Apply(w, s).db.ga.rows[r].status == HoldStatus.Confirmed
  {
    if !WritesUnits(s) { InventoryUntouched(w, s); } else { ConfirmedRowWritten(w, s, r); }
  }

  lemma ConfirmedRowWritten(w: World, s: Step, r: nat)
    requires Enabled(w, s) && WritesUnits(s) && r in w.db.ga.rows && w.db.ga.rows[r].status == HoldStatus.Confirmed
    ensures r in Apply(w, s).db.ga.rows && Apply(w, s).db.ga.rows[r].status == HoldStatus.Confirmed
  {
  }

  lemma TornStays(w: World, s: Step, o: nat)
    requires Enabled(w, s) && o in w.db.orders && o !in w.attempts && Torn(View(w, o))
    ensures o in Apply(w, s).db.orders && o !in Apply(w, s).attempts && Torn(View(Apply(w, s), o))
  {
    OrderFixed(w, s, o);
    KindsFixed(w, s, o);
    if View(w, o).claim.status == HoldStatus.Confirmed { ConfirmedStays(w, s, w.db.orders[o].claim); }
  }

  /** No step of anybody, be it a replay, the worker or another buyer, ever mends it (`HarmIsTorn`). */
  lemma {:induction false} TornForGood(w: World, steps: seq<Step>, o: nat)
    requires o in w.db.orders && o !in w.attempts && Torn(View(w, o)) && AfterSteps(w, steps).Some?
    ensures var w' := AfterSteps(w, steps).value; o in w'.db.orders && o !in w'.attempts && Torn(View(w', o))
  {
    if steps != [] {
      TornForGood(w, steps[..|steps| - 1], o);
      TornStays(AfterSteps(w, steps[..|steps| - 1]).value, steps[|steps| - 1], o);
    }
  }

  // ---------- with the steps of the booking system ----------

  function ConfirmStep(w: World, o: nat): Step
    requires o in w.db.orders
  {
    if w.db.orders[o].claim.GaClaim? then ConfirmUnits(o) else WriteConfirm(o)
  }

  function LosingStep(w: World, o: nat): Step
    requires o in w.db.orders
  {
    if w.db.orders[o].claim.GaClaim? then ConfirmUnits(o) else ReadForConfirm(o)
  }

  /** The first attempt is about to confirm an ACTIVE reservation. */
  predicate AboutToConfirm(w: World, o: nat) {
    && o in w.db.orders && o in w.attempts && Reserved(w.db, w.db.orders[o].claim).status == HoldStatus.Active
    && (w.attempts[o].Confirming? || (w.attempts[o].Finalizing? && w.db.orders[o].claim.GaClaim?))
  }

  lemma FirstConfirms(w: World, o: nat) returns (first: World)
    requires Inv(w) && AboutToConfirm(w, o)
    ensures Enabled(w, ConfirmStep(w, o)) && first == Apply(w, ConfirmStep(w, o)) && Inv(first)
    ensures o in first.db.orders && first.db.orders[o].status == OrderStatus.Confirmed
    ensures first.db.orders[o].claim == w.db.orders[o].claim
  {
    var s := ConfirmStep(w, o);
    if w.attempts[o].Confirming? { ConfirmWinsIff(w, o, w.attempts[o].rows); }
    first := Apply(w, s);
    StepKeeps(w, s);
  }

  lemma SecondLoses(first: World, o: nat, second: World)
    requires Ended(first, o) && first.db.orders[o].status == OrderStatus.Confirmed
    requires second == Goes(first, o, Some(Finalizing))
    ensures Enabled(second, LosingStep(first, o)) && Apply(second, LosingStep(first, o)) == Goes(first, o, Some(Lost))
  {
    Starts(first, o, Finalizing);
    GoesOver(first, o, Finalizing, Some(Lost));
  }

  lemma SecondRepays(first: World, o: nat, lost: World)
    requires Ended(first, o) && first.db.orders[o].status == OrderStatus.Confirmed && lost == Goes(first, o, Some(Lost))
    ensures Enabled(lost, RefundCard(o))
    ensures var repaid := Apply(lost, RefundCard(o));
            Underway(repaid, o) && repaid.attempts[o] == Repaid && Enabled(repaid, Step.Compensate(o))
            && View(repaid, o) == View(first, o).(attempt := Some(Repaid), refund := View(repaid, o).refund)
            && View(repaid, o).refund.Some?
  {
    Starts(first, o, Lost);
    RefundedUnderway(lost, o);
  }

  lemma SecondRuns(first: World, o: nat) returns (end: World)
    requires Ended(first, o) && first.db.orders[o].status == OrderStatus.Confirmed
    ensures var second := Goes(first, o, Some(Finalizing));
            && AfterSteps(second, [LosingStep(first, o)]) == Some(Goes(first, o, Some(Lost)))
            && AfterSteps(second, [LosingStep(first, o)] + [RefundCard(o)] + [Step.Compensate(o)]) == Some(end)
    ensures o in end.db.orders && o !in end.attempts && Harm(View(first, o), View(end, o))
  {
    var second, lost := Goes(first, o, Some(Finalizing)), Goes(first, o, Some(Lost));
    SecondLoses(first, o, second);
    OneStepMore(second, [], second, LosingStep(first, o), lost);
    assert [] + [LosingStep(first, o)] == [LosingStep(first, o)];
    SecondRepays(first, o, lost);
    var repaid := Apply(lost, RefundCard(o));
    OneStepMore(second, [LosingStep(first, o)], lost, RefundCard(o), repaid);
    end := Undone(repaid, o);
    OneStepMore(second, [LosingStep(first, o)] + [RefundCard(o)], repaid, Step.Compensate(o), end);
    UndoneCompensates(repaid, o);
    CompensatedTwice(View(first, o), View(end, o), first.price);
  }

  /** The first attempt confirms, and a second one that has its capture recorded as well goes on by the
      system's own steps: it finds the reservation CONFIRMED, refunds the buyer, and compensates the order. */
  lemma SecondAttemptRefunds(w: World, o: nat) returns (first: World, end: World)
    requires Inv(w) && AboutToConfirm(w, o)
    ensures Enabled(w, ConfirmStep(w, o)) && first == Apply(w, ConfirmStep(w, o))
    ensures o in first.db.orders && first.db.orders[o].status == OrderStatus.Confirmed
    ensures var second := Goes(first, o, Some(Finalizing));
            && AfterSteps(second, [LosingStep(first, o)]) == Some(Goes(first, o, Some(Lost)))
            && AfterSteps(second, [LosingStep(first, o)] + [RefundCard(o)] + [Step.Compensate(o)]) == Some(end)
    ensures o in end.db.orders && o !in end.attempts && Harm(View(first, o), View(end, o))
  {
    first := FirstConfirms(w, o);
    EndedIs(first, o);
    end := SecondRuns(first, o);
  }
}
