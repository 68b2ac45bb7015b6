/** Safety of the booking system over whole runs: any interleaving of buyers, replays, crashes and
    the expiry worker, from an unsold stadium. */
module BookingTheorems {
  import opened Collections
  import opened SeatInventory
  import opened GaInventory
  import opened PaymentProvider
  import opened OrderLife
  import opened Booking
  import opened BookingInvariant

  /** `ws` are the worlds of a run and `steps` the steps between them. */
  predicate Run(ws: seq<World>, steps: seq<Step>) {
    && |ws| == |steps| + 1
    && Initial(ws[0])
    && forall i :: 0 <= i < |steps| ==> Enabled(ws[i], steps[i]) && ws[i + 1] == Apply(ws[i], steps[i])
  }

  lemma InitialInv(w: World)
    requires Initial(w)
    ensures Inv(w)
  {
    assert Captures(w.psp) == {};
    forall m | m in w.db.ga.pools ensures PoolOk(w.db.ga, m) {
      assert HeldMap(w.db.ga.rows, m) == map[];
      assert ClaimsOn(w.db.ga.rows, m) == {} && ReleasesOn(w.db.ga.rows, m) == {};
    }
  }

  lemma {:induction false} RunInv(ws: seq<World>, steps: seq<Step>, i: nat)
    requires Run(ws, steps) && i < |ws|
    ensures Inv(ws[i])
  {
    if i == 0 {
      InitialInv(ws[0]);
    } else {
      RunInv(ws, steps, i - 1);
      StepKeeps(ws[i - 1], steps[i - 1]);
    }
  }

  /** Between any two points of a run every table and every order has only moved forward. */
  lemma {:induction false} RunProgress(ws: seq<World>, steps: seq<Step>, i: nat, j: nat)
    requires Run(ws, steps) && i <= j < |ws|
    ensures Progress(ws[i], ws[j])
    decreases j - i
  {
    if i == j {
      ProgressReflexive(ws[i]);
    } else {
      RunProgress(ws, steps, i, j - 1);
      RunInv(ws, steps, j - 1);
      StepKeeps(ws[j - 1], steps[j - 1]);
      ProgressTransitive(ws[i], ws[j - 1], ws[j]);
    }
  }

  // ---------- runs given by their steps ----------

  /** The state after the given steps, if each of them may happen in its turn. */
  ghost function AfterSteps(w: World, steps: seq<Step>): Option<World> {
    if steps == [] then Some(w)
    else
      var last := steps[|steps| - 1];
      match AfterSteps(w, steps[..|steps| - 1])
      case None => None
      case Some(u) => if Enabled(u, last) then Some(Apply(u, last)) else None
  }

  lemma OneStepMore(w: World, steps: seq<Step>, u: World, s: Step, v: World)
    requires AfterSteps(w, steps) == Some(u) && Enabled(u, s) && v == Apply(u, s)
    ensures AfterSteps(w, steps + [s]) == Some(v)
  {
    assert (steps + [s])[..|steps|] == steps;
  }

  lemma {:induction false} StepsKeep(w: World, steps: seq<Step>)
    requires Inv(w) && AfterSteps(w, steps).Some?
    ensures Inv(AfterSteps(w, steps).value) && Progress(w, AfterSteps(w, steps).value)
  {
    if steps == [] {
      ProgressReflexive(w);
    } else {
      var earlier := steps[..|steps| - 1];
      StepsKeep(w, earlier);
      StepKeeps(AfterSteps(w, earlier).value, steps[|steps| - 1]);
      ProgressTransitive(w, AfterSteps(w, earlier).value, AfterSteps(w, steps).value);
    }
  }

  lemma RunOn(before: seq<World>, earlier: seq<Step>, s: Step, w': World) returns (ws: seq<World>)
    requires Run(before, earlier) && Enabled(before[|earlier|], s) && w' == Apply(before[|earlier|], s)
    ensures Run(ws, earlier + [s]) && ws[0] == before[0] && ws[|earlier| + 1] == w'
  {
    ws := before + [w'];
    var steps := earlier + [s];
    forall i | 0 <= i < |steps| ensures Enabled(ws[i], steps[i]) && ws[i + 1] == Apply(ws[i], steps[i]) {
      if i < |earlier| { assert before[i + 1] == Apply(before[i], earlier[i]); }
    }
  }

  /** Steps that may happen one after the other from an unsold stadium make up a run. */
  lemma {:induction false} StepsMakeRun(w: World, steps: seq<Step>) returns (ws: seq<World>)
    requires Initial(w) && AfterSteps(w, steps).Some?
    ensures Run(ws, steps) && ws[0] == w && ws[|steps|] == AfterSteps(w, steps).value
  {
    if steps == [] {
      ws := [w];
    } else {
      var earlier := steps[..|steps| - 1];
      var before := StepsMakeRun(w, earlier);
      ws := RunOn(before, earlier, steps[|steps| - 1], AfterSteps(w, steps).value);
      assert steps == earlier + [steps[|steps| - 1]];
    }
  }

  // ---------- the saga ----------

  /** At every point of every run an order's status, its reservation and the provider agree. */
  lemma OrderAgreement(ws: seq<World>, steps: seq<Step>, i: nat, o: nat)
    requires Run(ws, steps) && i < |ws| && o in ws[i].db.orders
    ensures var v := View(ws[i], o);
            && (v.order.status == OrderStatus.Confirmed <==> v.claim.status == HoldStatus.Confirmed)
            && (v.order.status == OrderStatus.Confirmed ==> WasCaptured(v) && v.refund == None)
            && (v.order.status == Compensated ==>
                  WasCaptured(v) && v.refund.Some? && v.claim.status == HoldStatus.Expired)
            && (v.order.status == PaymentFailed ==> v.charge.Some? && !WasCaptured(v) && v.refund == None)
            && v.order.status != OrderStatus.Expired
  {
    RunInv(ws, steps, i);
    assert Sound(View(ws[i], o), ws[i].price);
  }

  /** A reservation is CONFIRMED exactly when an order on it is, and that order is the only one. */
  lemma ReservationAgreement(ws: seq<World>, steps: seq<Step>, i: nat, claim: Claim)
    requires Run(ws, steps) && i < |ws| && Exists(ws[i].db, claim)
    ensures Reserved(ws[i].db, claim).status == HoldStatus.Confirmed <==>
              exists o :: o in ws[i].db.orders && ws[i].db.orders[o].claim == claim
                          && ws[i].db.orders[o].status == OrderStatus.Confirmed
    ensures forall o, p | o in ws[i].db.orders && p in ws[i].db.orders ::
              (ws[i].db.orders[o].claim == claim && ws[i].db.orders[p].claim == claim ==> o == p)
  {
    RunInv(ws, steps, i);
    var w := ws[i];
    forall o, p | o in w.db.orders && p in w.db.orders && w.db.orders[o].claim == w.db.orders[p].claim
      ensures o == p
    {
      assert Pair(o, p);
    }
    if Reserved(w.db, claim).status == HoldStatus.Confirmed {
      assert Owned(w.db, claim) by {
        match claim
        case SeatClaim(h) => assert Owned(w.db, SeatClaim(h));
        case GaClaim(r) => assert Owned(w.db, GaClaim(r));
      }
      var o :| o in w.db.orders && w.db.orders[o].claim == claim;
      OrderAgreement(ws, steps, i, o);
      assert w.db.orders[o].status == OrderStatus.Confirmed;
    }
    forall o | o in w.db.orders && w.db.orders[o].claim == claim && w.db.orders[o].status == OrderStatus.Confirmed
      ensures Reserved(w.db, claim).status == HoldStatus.Confirmed
    {
      OrderAgreement(ws, steps, i, o);
    }
  }

  /** PAYMENT_FAILED means never charged, neither before nor after. */
  lemma DeclinedNeverCharged(ws: seq<World>, steps: seq<Step>, i: nat, j: nat, o: nat)
    requires Run(ws, steps) && i < |ws| && j < |ws| && o in ws[i].db.orders && o in ws[j].db.orders
    requires ws[i].db.orders[o].status == PaymentFailed
    ensures !WasCaptured(View(ws[j], o))
  {
    OrderAgreement(ws, steps, i, o);
    if i <= j {
      RunProgress(ws, steps, i, j);
      assert Moves(View(ws[i], o), View(ws[j], o));
    } else {
      RunProgress(ws, steps, j, i);
      assert Moves(View(ws[j], o), View(ws[i], o));
    }
  }

  /** The three final statuses are final, with everything recorded about the order. */
  lemma FinalIsFinal(ws: seq<World>, steps: seq<Step>, i: nat, j: nat, o: nat)
    requires Run(ws, steps) && i <= j < |ws| && o in ws[i].db.orders && Terminal(ws[i].db.orders[o].status)
    ensures o in ws[j].db.orders
    ensures View(ws[j], o).(claim := View(ws[i], o).claim) == View(ws[i], o)
    ensures forall sessionId :: !Enabled(ws[j], Replay(o, sessionId))
  {
    RunProgress(ws, steps, i, j);
    assert Moves(View(ws[i], o), View(ws[j], o));
  }

  /** Once refunded, a reservation is never CONFIRMED again. */
  lemma RefundedNeverConfirmed(ws: seq<World>, steps: seq<Step>, i: nat, j: nat, o: nat)
    requires Run(ws, steps) && i <= j < |ws| && o in ws[i].db.orders && View(ws[i], o).refund.Some?
    ensures o in ws[j].db.orders && View(ws[j], o).refund == View(ws[i], o).refund
    ensures View(ws[j], o).claim.status == HoldStatus.Expired
  {
    RunInv(ws, steps, i);
    assert Sound(View(ws[i], o), ws[i].price);
    RunProgress(ws, steps, i, j);
    assert Moves(View(ws[i], o), View(ws[j], o));
  }

  // ---------- one capture, one refund ----------

  /** The captures the provider ever made for orders on one reservation. */
  function CapturesFor(w: World, claim: Claim): set<Key> {
    set k | k in Captures(w.psp) && k.PayKey? && k.order in w.db.orders && w.db.orders[k.order].claim == claim
  }

  function RefundsFor(w: World, claim: Claim): set<Key> {
    set k | k in w.psp.refunds && k.RefundKey? && k.of.PayKey? && k.of.order in w.db.orders
            && w.db.orders[k.of.order].claim == claim
  }

  lemma AtMostOne<T>(s: set<T>)
    requires forall a, b :: a in s && b in s ==> a == b
    ensures |s| <= 1
  {
    if s != {} {
      var a :| a in s;
      assert s == {a};
    }
  }

  /** Across all replays and crash points each reservation is charged at most once and refunded at
      most once, every capture and refund belongs to some order, and the provider's counters count
      no others. */
  lemma OneCaptureOneRefund(ws: seq<World>, steps: seq<Step>, i: nat, claim: Claim)
    requires Run(ws, steps) && i < |ws|
    ensures |CapturesFor(ws[i], claim)| <= 1 && |RefundsFor(ws[i], claim)| <= 1
    ensures ws[i].psp.captureCount == |Captures(ws[i].psp)| && ws[i].psp.refundCount == |ws[i].psp.refunds|
    ensures forall k :: k in Captures(ws[i].psp) ==> k.PayKey? && k.order in ws[i].db.orders
    ensures forall k :: k in ws[i].psp.refunds ==>
              k.RefundKey? && k.of in Captures(ws[i].psp) && k.of.order in ws[i].db.orders
  {
    RunInv(ws, steps, i);
    var w := ws[i];
    forall a, b | a in CapturesFor(w, claim) && b in CapturesFor(w, claim) ensures a == b {
      assert Pair(a.order, b.order);
    }
    AtMostOne(CapturesFor(w, claim));
    forall a, b | a in RefundsFor(w, claim) && b in RefundsFor(w, claim) ensures a == b {
      assert Pair(a.of.order, b.of.order);
    }
    AtMostOne(RefundsFor(w, claim));
    forall k | k in w.psp.refunds
      ensures k.RefundKey? && k.of in Captures(w.psp) && k.of.order in w.db.orders
    {
      assert Sound(View(w, k.of.order), w.price);
    }
  }

  // ---------- seats, pools, events ----------

  /** The seat tables are consistent at every point, seat versions never fall, and SOLD is final. */
  lemma SeatsOverRuns(ws: seq<World>, steps: seq<Step>, i: nat, j: nat, s: nat)
    requires Run(ws, steps) && i <= j < |ws| && s in ws[i].db.seat.seats
    ensures SeatInv(ws[i].db.seat)
    ensures s in ws[j].db.seat.seats
    ensures ws[i].db.seat.seats[s].version <= ws[j].db.seat.seats[s].version
    ensures ws[i].db.seat.seats[s].status == Sold ==> ws[j].db.seat.seats[s] == ws[i].db.seat.seats[s]
  {
    RunInv(ws, steps, i);
    RunProgress(ws, steps, i, j);
    assert SeatEvolves(ws[i].db.seat.seats[s], ws[j].db.seat.seats[s]);
  }

  /** No seat is in two live holds, and a seat is taken exactly while its one hold is live. */
  lemma NoDoubleSale(ws: seq<World>, steps: seq<Step>, i: nat, s: nat)
    requires Run(ws, steps) && i < |ws| && s in ws[i].db.seat.seats
    ensures var t := ws[i].db.seat;
            && (forall g, h :: s in SeatsOf(t, g) && s in SeatsOf(t, h) ==> g == h)
            && (t.seats[s].status == Available <==> forall h :: s !in SeatsOf(t, h))
            && (t.seats[s].status == Held <==> exists h :: s in SeatsOf(t, h) && IsActive(t, h))
            && (t.seats[s].status == Sold <==>
                  exists h :: s in SeatsOf(t, h) && h in t.holds && t.holds[h].status == HoldStatus.Confirmed)
  {
    RunInv(ws, steps, i);
    var t := ws[i].db.seat;
    assert SeatOk(t, t.seats[s]);
    if t.seats[s].holdId.Some? {
      assert s in SeatsOf(t, t.seats[s].holdId.value);
    }
  }

  /** In every state of every run the pool, the live reservations and the version add up. */
  lemma PoolsOverRuns(ws: seq<World>, steps: seq<Step>, i: nat, m: nat)
    requires Run(ws, steps) && i < |ws| && m in ws[i].db.ga.pools
    ensures var t := ws[i].db.ga;
            && t.pools[m].available + UnitsOut(t, m) == t.pools[m].capacity
            && 0 <= t.pools[m].available <= t.pools[m].capacity
            && t.pools[m].version == 1 + |ClaimsOn(t.rows, m)| + |ReleasesOn(t.rows, m)|
  {
    RunInv(ws, steps, i);
    assert PoolOk(ws[i].db.ga, m);
    ChecksHold(ws[i].db.ga, m);
  }

  /** Every event is created at the clock of the step that writes it, unpublished, at the end of the outbox;
      afterwards only its stamp is ever written. */
  lemma EventsDated(w: World, s: Step)
    requires Enabled(w, s)
    ensures |w.db.outbox| <= |Apply(w, s).db.outbox| <= |w.db.outbox| + 1
    ensures forall i :: |w.db.outbox| <= i < |Apply(w, s).db.outbox| ==>
              Apply(w, s).db.outbox[i].createdAt == w.now && Apply(w, s).db.outbox[i].publishedAt == None
    ensures forall i :: 0 <= i < |w.db.outbox| ==>
              Apply(w, s).db.outbox[i] == if s.Publish? && i in s.ids then w.db.outbox[i].(publishedAt := Some(s.at))
                                          else w.db.outbox[i]
  {
  }

  /** The outbox holds one TicketConfirmed per confirmed order, one FinalizeFailed per compensated
      order, and nothing else. */
  lemma OutboxExact(ws: seq<World>, steps: seq<Step>, i: nat, o: nat)
    requires Run(ws, steps) && i < |ws|
    ensures Kinds(ws[i].db.outbox, o) ==
            if o !in ws[i].db.orders then []
            else match ws[i].db.orders[o].status
                 case Confirmed => [TicketConfirmed]
                 case Compensated => [FinalizeFailed]
                 case _ => []
  {
    RunInv(ws, steps, i);
    if o in ws[i].db.orders {
      assert Sound(View(ws[i], o), ws[i].price);
    } else {
      KindsOfStranger(ws[i].db.outbox, o);
    }
  }
}
