/** The shield of a captured payment: a reservation with a committed capture stays ACTIVE or becomes
    CONFIRMED, unless an expiry releases it that had looked before the capture was committed. */
module Shield {
  import opened Collections
  import opened SeatInventory
  import opened OrderLife
  import opened Booking
  import opened BookingInvariant
  import opened BookingTheorems

  predicate ShieldUp(w: World, o: nat) {
    && o in w.db.orders && o in w.db.payments && w.db.payments[o].status == PaymentStatus.Captured
    && Live(Reserved(w.db, w.db.orders[o].claim))
  }

  /** A live reservation stays live over a step, unless the step expires it. */
  lemma ClaimStays(w: World, s: Step, claim: Claim)
    requires Enabled(w, s) && Exists(w.db, claim) && Live(Reserved(w.db, claim))
    ensures Exists(Apply(w, s).db, claim) && (Live(Reserved(Apply(w, s).db, claim)) <==> Expires(s) != Some(claim))
  {
    match claim
    case SeatClaim(h) => HoldStays(w, s, h);
    case GaClaim(r) => RowStays(w, s, r);
  }

  predicate LiveStatus(status: HoldStatus) {
    status == HoldStatus.Active || status == HoldStatus.Confirmed
  }

  lemma HoldStays(w: World, s: Step, h: nat)
    requires Enabled(w, s) && h in w.db.seat.holds && LiveStatus(w.db.seat.holds[h].status)
    ensures h in Apply(w, s).db.seat.holds
    ensures LiveStatus(Apply(w, s).db.seat.holds[h].status) <==> s != ExpireHold(h)
  {
    if WritesSeats(s) { HoldWritten(w, s, h); } else { InventoryUntouched(w, s); }
  }

  lemma HoldWritten(w: World, s: Step, h: nat)
    requires Enabled(w, s) && WritesSeats(s) && h in w.db.seat.holds && LiveStatus(w.db.seat.holds[h].status)
    ensures h in Apply(w, s).db.seat.holds
    ensures LiveStatus(Apply(w, s).db.seat.holds[h].status) <==> s != ExpireHold(h)
  {
  }

  lemma RowStays(w: World, s: Step, r: nat)
    requires Enabled(w, s) && r in w.db.ga.rows && LiveStatus(w.db.ga.rows[r].status)
    ensures r in Apply(w, s).db.ga.rows
    ensures LiveStatus(Apply(w, s).db.ga.rows[r].status) <==> Expires(s) != Some(GaClaim(r))
  {
    if WritesUnits(s) { RowWritten(w, s, r); } else { InventoryUntouched(w, s); }
  }

  lemma RowWritten(w: World, s: Step, r: nat)
    requires Enabled(w, s) && WritesUnits(s) && r in w.db.ga.rows && LiveStatus(w.db.ga.rows[r].status)
    ensures r in Apply(w, s).db.ga.rows
    ensures LiveStatus(Apply(w, s).db.ga.rows[r].status) <==> Expires(s) != Some(GaClaim(r))
  {
  }

  /** Only an answer about to be recorded or a refund about to be committed writes a payment row. */
  lemma PaymentRowStays(w: World, s: Step, o: nat)
    requires Enabled(w, s) && o in w.db.orders && o in w.db.payments
    requires o in w.attempts ==> !w.attempts[o].Charged? && !w.attempts[o].Repaid?
    ensures o in Apply(w, s).db.payments && Apply(w, s).db.payments[o] == w.db.payments[o]
  {
    if OfAttempt(s) { AttemptSparesPayment(w, s, o); }
  }

  lemma AttemptSparesPayment(w: World, s: Step, o: nat)
    requires Enabled(w, s) && OfAttempt(s) && o in w.db.orders && o in w.db.payments
    requires o in w.attempts ==> !w.attempts[o].Charged? && !w.attempts[o].Repaid?
    ensures o in Apply(w, s).db.payments && Apply(w, s).db.payments[o] == w.db.payments[o]
  {
  }

  lemma OrderClaimStays(w: World, s: Step, o: nat)
    requires Enabled(w, s) && o in w.db.orders
    ensures o in Apply(w, s).db.orders && Apply(w, s).db.orders[o].claim == w.db.orders[o].claim
  {
    if WritesOrder(s) { SettledKeepsClaim(w, s, o); } else if OfAttempt(s) { OrdersUntouched(w, s); }
  }

  lemma SettledKeepsClaim(w: World, s: Step, o: nat)
    requires Enabled(w, s) && WritesOrder(s) && o in w.db.orders
    ensures o in Apply(w, s).db.orders && Apply(w, s).db.orders[o].claim == w.db.orders[o].claim
  {
  }

  /** A step takes a shield down exactly if it expires that very reservation. */
  lemma ShieldFallsIff(w: World, s: Step, o: nat)
    requires Inv(w) && Enabled(w, s) && ShieldUp(w, o)
    ensures ShieldUp(Apply(w, s), o) <==> Expires(s) != Some(w.db.orders[o].claim)
  {
    assert Exists(w.db, w.db.orders[o].claim);
    assert Sound(View(w, o), w.price);
    ClaimStays(w, s, w.db.orders[o].claim);
    PaymentRowStays(w, s, o);
    OrderClaimStays(w, s, o);
  }

  // ---------- over runs ----------

  /** No expiry of that reservation between two points of a run. */
  predicate NotExpired(steps: seq<Step>, i: nat, j: nat, claim: Claim) {
    forall k :: i <= k < j && k < |steps| ==> Expires(steps[k]) != Some(claim)
  }

  /** No expiry in that stretch of the run released after its check had become outdated. */
  predicate GuardedBetween(ws: seq<World>, steps: seq<Step>, i: nat, j: nat) {
    forall k :: i <= k < j && k < |steps| && k < |ws| ==> Guarded(ws[k], steps[k])
  }

  lemma ShieldAfterStep(ws: seq<World>, steps: seq<Step>, k: nat, o: nat)
    requires Run(ws, steps) && k < |steps| && ShieldUp(ws[k], o)
    ensures o in ws[k + 1].db.orders && ws[k + 1].db.orders[o].claim == ws[k].db.orders[o].claim
    ensures ShieldUp(ws[k + 1], o) <==> Expires(steps[k]) != Some(ws[k].db.orders[o].claim)
  {
    RunInv(ws, steps, k);
    ShieldFallsIff(ws[k], steps[k], o);
    OrderClaimStays(ws[k], steps[k], o);
  }

  /** A reservation that is not live never becomes live again. */
  lemma GoneForGood(ws: seq<World>, steps: seq<Step>, k: nat, claim: Claim)
    requires Run(ws, steps) && k < |steps| && Exists(ws[k].db, claim) && !Live(Reserved(ws[k].db, claim))
    ensures Exists(ws[k + 1].db, claim) && !Live(Reserved(ws[k + 1].db, claim))
  {
    RunProgress(ws, steps, k, k + 1);
    ClaimEvolves(ws[k].db.seat, ws[k].db.ga, ws[k + 1].db.seat, ws[k + 1].db.ga, claim);
  }

  lemma FallsWithClaim(ws: seq<World>, steps: seq<Step>, k: nat, o: nat)
    requires Run(ws, steps) && k < |steps| && ShieldUp(ws[k], o)
    ensures var claim := ws[k].db.orders[o].claim;
            Exists(ws[k + 1].db, claim) && (Live(Reserved(ws[k + 1].db, claim)) <==> Expires(steps[k]) != Some(claim))
  {
    var claim := ws[k].db.orders[o].claim;
    RunInv(ws, steps, k);
    assert Exists(ws[k].db, ws[k].db.orders[o].claim);
    ClaimStays(ws[k], steps[k], claim);
    RunProgress(ws, steps, k, k + 1);
    ClaimEvolves(ws[k].db.seat, ws[k].db.ga, ws[k + 1].db.seat, ws[k + 1].db.ga, claim);
  }

  /** A shield, once up, holds exactly as long as no expiry of that reservation happens. */
  lemma {:induction false} ShieldHoldsIff(ws: seq<World>, steps: seq<Step>, i: nat, j: nat, o: nat, claim: Claim)
    requires Run(ws, steps) && i <= j < |ws| && ShieldUp(ws[i], o) && claim == ws[i].db.orders[o].claim
    ensures o in ws[j].db.orders && ws[j].db.orders[o].claim == claim && Exists(ws[j].db, claim)
    ensures ShieldUp(ws[j], o) <==> NotExpired(steps, i, j, claim)
    ensures !NotExpired(steps, i, j, claim) ==> !Live(Reserved(ws[j].db, claim))
    decreases j - i
  {
    if i == j {
      RunInv(ws, steps, i);
      assert Exists(ws[i].db, ws[i].db.orders[o].claim);
    } else {
      var k := j - 1;
      ShieldHoldsIff(ws, steps, i, k, o, claim);
      if ShieldUp(ws[k], o) {
        ShieldAfterStep(ws, steps, k, o);
        FallsWithClaim(ws, steps, k, o);
      } else {
        GoneForGood(ws, steps, k, claim);
        OrderClaimStays(ws[k], steps[k], o);
      }
    }
  }

  lemma {:induction false} GuardedSpares(ws: seq<World>, steps: seq<Step>, i: nat, j: nat, o: nat, claim: Claim)
    requires Run(ws, steps) && i <= j < |ws| && ShieldUp(ws[i], o) && claim == ws[i].db.orders[o].claim
    requires GuardedBetween(ws, steps, i, j)
    ensures NotExpired(steps, i, j, claim)
    decreases j - i
  {
    if i < j {
      var k := j - 1;
      GuardedSpares(ws, steps, i, k, o, claim);
      ShieldHoldsIff(ws, steps, i, k, o, claim);
      assert Guarded(ws[k], steps[k]);
      assert HasCapturedPayment(ws[k].db, claim);
    }
  }

  /** A committed capture on an active reservation shields it while every expiry releases on a check
      that still holds: the reservation is ACTIVE or CONFIRMED from then on, no refund is made and the
      order is never COMPENSATED. */
  lemma CaptureShields(ws: seq<World>, steps: seq<Step>, i: nat, j: nat, o: nat)
    requires Run(ws, steps) && i <= j < |ws| && GuardedBetween(ws, steps, i, j)
    requires o in ws[i].db.orders && o in ws[i].db.payments && ws[i].db.payments[o].status == PaymentStatus.Captured
    requires Reserved(ws[i].db, ws[i].db.orders[o].claim).status == HoldStatus.Active
    ensures o in ws[j].db.orders && ws[j].db.orders[o].claim == ws[i].db.orders[o].claim
    ensures Live(Reserved(ws[j].db, ws[j].db.orders[o].claim))
    ensures View(ws[j], o).refund == None && ws[j].db.orders[o].status != Compensated
  {
    var claim := ws[i].db.orders[o].claim;
    GuardedSpares(ws, steps, i, j, o, claim);
    ShieldHoldsIff(ws, steps, i, j, o, claim);
    OrderAgreement(ws, steps, j, o);
    if View(ws[j], o).refund.Some? { RefundMeansExpired(ws, steps, j, o); }
  }

  lemma RefundMeansExpired(ws: seq<World>, steps: seq<Step>, j: nat, o: nat)
    requires Run(ws, steps) && j < |ws| && o in ws[j].db.orders && View(ws[j], o).refund.Some?
    ensures Reserved(ws[j].db, ws[j].db.orders[o].claim).status == HoldStatus.Expired
  {
    RunInv(ws, steps, j);
    assert Sound(View(ws[j], o), ws[j].price);
  }
}
