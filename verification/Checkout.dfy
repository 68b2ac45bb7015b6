/** The checkout saga as the service runs it: one commit at a time, the provider called between
    commits, and the compensation when the confirm loses. */
module Checkout {
  import opened Collections
  import opened SeatInventory
  import opened PaymentProvider
  import opened OrderLife
  import opened Booking
  import opened BookingInvariant
  import opened Recovery
  import opened Finalizer

  datatype CheckoutError =
    | ReservationNotFound
    | ReservationNotActive
    | PaymentDeclined
    | FinalizeFailed
    | ConstraintViolated      // a unique key or CHECK of the orders table refused the insert

  /** The order and whether this call created it, or the exception raised. */
  datatype Outcome = Done(order: nat, created: bool) | Raised(error: CheckoutError)

  /** What the caller of a finished attempt sees. */
  function Reported(status: OrderStatus, o: nat, created: bool): Outcome {
    match status
    case PaymentFailed => Raised(PaymentDeclined)
    case Compensated => Raised(CheckoutError.FinalizeFailed)
    case _ => Done(o, created)
  }

  /** A request whose key belongs to the order `p`. */
  ghost predicate Answers(w: World, w': World, p: nat, sessionId: string, ok: bool, r: Outcome) {
    && Inv(w) && p in w.db.orders
    && if w.db.orders[p].sessionId != sessionId then r == Raised(ReservationNotActive) && w' == w
       else if Terminal(w.db.orders[p].status) then r == Done(p, false) && w' == w
       else
         var w1 := Goes(w, p, Some(Ensuring));
         && Enabled(w, Replay(p, sessionId)) && Inv(w1) && w' == Drive(w1, p, ok)
         && p in w'.db.orders && r == Reported(w'.db.orders[p].status, p, false)
  }

  /** The world with the order a new request inserts, its attempt just begun. */
  function Created(w: World, claim: Claim, sessionId: string, key: string, o: nat): World
    requires Exists(w.db, claim)
  {
    var amount := w.price * Units(Reserved(w.db, claim));
    var order := Order(ClaimMatch(w.db, claim), sessionId, key, claim, PaymentPending, amount, 1);
    w.(db := w.db.(orders := w.db.orders[o := order]), attempts := w.attempts[o := Ensuring])
  }

  /** A request with a key no order has. */
  ghost predicate Creates(w: World, w': World, claim: Claim, sessionId: string, key: string, o: nat, ok: bool,
                          r: Outcome)
  {
    if !Exists(w.db, claim) then r == Raised(ReservationNotFound) && w' == w
    else if !Usable(w.db, claim, sessionId, w.now) then r == Raised(ReservationNotActive) && w' == w
    else if w.price * Units(Reserved(w.db, claim)) <= 0 || !ClaimFree(w.db, claim) then
      r == Raised(ConstraintViolated) && w' == w
    else
      var w1 := Created(w, claim, sessionId, key, o);
      && Inv(w1) && w' == Drive(w1, o, ok)
      && o in w'.db.orders && r == Reported(w'.db.orders[o].status, o, true)
  }

  /** What a usable reservation is, in the rows themselves. */
  lemma UsableMeans(db: Tables, claim: Claim, sessionId: string, now: int)
    ensures Exists(db, claim) && Usable(db, claim, sessionId, now) <==>
              match claim
              case SeatClaim(h) =>
                h in db.seat.holds && db.seat.holds[h].status == HoldStatus.Active
                && db.seat.holds[h].sessionId == sessionId && db.seat.holds[h].expiresAt > now
                && exists i :: i in db.seat.seats && db.seat.seats[i].holdId == Some(h)
              case GaClaim(r) =>
                r in db.ga.rows && db.ga.rows[r].status == HoldStatus.Active
                && db.ga.rows[r].sessionId == sessionId && db.ga.rows[r].expiresAt > now
  {
    match claim
    case SeatClaim(h) =>
      if SeatsOf(db.seat, h) != map[] {
        var i :| i in SeatsOf(db.seat, h);
        assert HeldBy(db.seat, i, h);
      }
      forall i | i in db.seat.seats && db.seat.seats[i].holdId == Some(h) ensures i in SeatsOf(db.seat, h) {
        assert HeldBy(db.seat, i, h);
      }
    case GaClaim(_) =>
  }

  lemma SeatCount(t: SeatTables, h: nat)
    ensures |SeatsOf(t, h)| == |set i | i in t.seats && t.seats[i].holdId == Some(h)|
  {
    assert SeatsOf(t, h).Keys == set i | i in t.seats && t.seats[i].holdId == Some(h);
    assert |SeatsOf(t, h)| == |SeatsOf(t, h).Keys|;
  }

  /** What each final status is reported as. */
  lemma FinalReport(w: World, o: nat, ok: bool, created: bool)
    requires Inv(w) && o in w.attempts
    ensures var w' := Drive(w, o, ok);
            && o in w'.db.orders
            && match w'.db.orders[o].status
               case Confirmed => Reported(w'.db.orders[o].status, o, created) == Done(o, created)
               case PaymentFailed => Reported(w'.db.orders[o].status, o, created) == Raised(PaymentDeclined)
               case Compensated => Reported(w'.db.orders[o].status, o, created) == Raised(CheckoutError.FinalizeFailed)
               case _ => false
  {
    DriveEnds(w, o, ok);
  }

  lemma CreatedStays(w: World, claim: Claim, sessionId: string, key: string, o: nat, ok: bool)
    requires Exists(w.db, claim) && Inv(Created(w, claim, sessionId, key, o))
    ensures var w1 := Created(w, claim, sessionId, key, o);
            var w' := Drive(w1, o, ok);
            && o in w'.db.orders
            && w'.db.orders[o] == w1.db.orders[o].(status := w'.db.orders[o].status, version := w'.db.orders[o].version)
  {
    var w1 := Created(w, claim, sessionId, key, o);
    DriveEnds(w1, o, ok);
    assert Moves(View(w1, o), View(Drive(w1, o, ok), o));
  }

  /** A hold is turned into an order only by its owner, in time, and while it is ACTIVE. */
  lemma SeatsBought(w: World, w': World, h: nat, sessionId: string, key: string, o: nat, ok: bool, r: Outcome)
    requires Creates(w, w', SeatClaim(h), sessionId, key, o, ok, r) && o !in w.db.orders
    ensures h !in w.db.seat.holds ==> r == Raised(ReservationNotFound) && w' == w
    ensures h in w.db.seat.holds
            && (|| w.db.seat.holds[h].status != HoldStatus.Active
                || w.db.seat.holds[h].sessionId != sessionId
                || w.db.seat.holds[h].expiresAt <= w.now
                || forall i :: i in w.db.seat.seats ==> w.db.seat.seats[i].holdId != Some(h))
            ==> r == Raised(ReservationNotActive) && w' == w
    ensures o in w'.db.orders ==>
              match w'.db.orders[o].status
              case Confirmed => r == Done(o, true)
              case PaymentFailed => r == Raised(PaymentDeclined)
              case Compensated => r == Raised(CheckoutError.FinalizeFailed)
              case _ => false
    ensures o in w'.db.orders ==>
              && h in w.db.seat.holds
              && w'.db.orders[o].sessionId == sessionId && w'.db.orders[o].key == key
              && w'.db.orders[o].claim == SeatClaim(h) && w'.db.orders[o].matchId == w.db.seat.holds[h].matchId
              && w'.db.orders[o].amount == w.price * |set i | i in w.db.seat.seats && w.db.seat.seats[i].holdId == Some(h)|
  {
    SeatCount(w.db.seat, h);
    UsableMeans(w.db, SeatClaim(h), sessionId, w.now);
    if o in w'.db.orders {
      FinalReport(Created(w, SeatClaim(h), sessionId, key, o), o, ok, true);
      CreatedStays(w, SeatClaim(h), sessionId, key, o, ok);
    }
  }

  lemma UnitsBought(w: World, w': World, g: nat, sessionId: string, key: string, o: nat, ok: bool, r: Outcome)
    requires Creates(w, w', GaClaim(g), sessionId, key, o, ok, r) && o !in w.db.orders
    ensures g !in w.db.ga.rows ==> r == Raised(ReservationNotFound) && w' == w
    ensures g in w.db.ga.rows
            && (|| w.db.ga.rows[g].status != HoldStatus.Active
                || w.db.ga.rows[g].sessionId != sessionId
                || w.db.ga.rows[g].expiresAt <= w.now)
            ==> r == Raised(ReservationNotActive) && w' == w
    ensures o in w'.db.orders ==>
              match w'.db.orders[o].status
              case Confirmed => r == Done(o, true)
              case PaymentFailed => r == Raised(PaymentDeclined)
              case Compensated => r == Raised(CheckoutError.FinalizeFailed)
              case _ => false
    ensures o in w'.db.orders ==>
              && g in w.db.ga.rows
              && w'.db.orders[o].sessionId == sessionId && w'.db.orders[o].key == key
              && w'.db.orders[o].claim == GaClaim(g) && w'.db.orders[o].matchId == w.db.ga.rows[g].matchId
              && w'.db.orders[o].amount == w.price * w.db.ga.rows[g].quantity
  {
    UsableMeans(w.db, GaClaim(g), sessionId, w.now);
    if o in w'.db.orders {
      FinalReport(Created(w, GaClaim(g), sessionId, key, o), o, ok, true);
      CreatedStays(w, GaClaim(g), sessionId, key, o, ok);
    }
  }

  /** A known key: another session is refused, a final order is handed back as it is, and a pending one is
      carried to its end and reported by what became of it. */
  lemma KnownKeyAnswered(w: World, w': World, p: nat, sessionId: string, ok: bool, r: Outcome)
    requires Answers(w, w', p, sessionId, ok, r)
    ensures w.db.orders[p].sessionId != sessionId ==> r == Raised(ReservationNotActive) && w' == w
    ensures w.db.orders[p].sessionId == sessionId
            && (|| w.db.orders[p].status == OrderStatus.Confirmed
                || w.db.orders[p].status == PaymentFailed
                || w.db.orders[p].status == Compensated)
            ==> r == Done(p, false) && w' == w
    ensures w.db.orders[p].sessionId == sessionId && w.db.orders[p].status == PaymentPending ==>
              && p in w'.db.orders
              && match w'.db.orders[p].status
                 case Confirmed => r == Done(p, false)
                 case PaymentFailed => r == Raised(PaymentDeclined)
                 case Compensated => r == Raised(CheckoutError.FinalizeFailed)
                 case _ => false
  {
    if w.db.orders[p].sessionId == sessionId && w.db.orders[p].status == PaymentPending {
      FinalReport(Goes(w, p, Some(Ensuring)), p, ok, false);
    }
  }

  lemma Replayed(w: World, p: nat, sessionId: string)
    requires Inv(w) && Enabled(w, Replay(p, sessionId))
    ensures Inv(Goes(w, p, Some(Ensuring)))
  {
    StepKeeps(w, Replay(p, sessionId));
  }

  /** Inserting the order is a quote and a creation with nothing in between. */
  lemma CreatedKeeps(w: World, claim: Claim, sessionId: string, key: string, o: nat)
    requires Inv(w) && o !in w.db.orders && Exists(w.db, claim) && w.price * Units(Reserved(w.db, claim)) > 0
    requires KeyFree(w.db, key) && ClaimFree(w.db, claim)
    ensures Inv(Created(w, claim, sessionId, key, o))
  {
    var q := FreshKey(w.quotes.Keys);
    var quote := Quote(claim, ClaimMatch(w.db, claim), sessionId, key, w.price * Units(Reserved(w.db, claim)));
    var w1 := w.(quotes := w.quotes[q := quote]);
    TakeQuoteKeeps(w, w1, q, claim, sessionId, key);
    CreatedIsQuoted(w, quote, q, o);
    CreateOrderKeeps(w1, WithOrder(w1, q, o), q, o);
  }

  lemma CreatedIsQuoted(w: World, quote: Quote, q: nat, o: nat)
    requires q !in w.quotes && Exists(w.db, quote.claim)
    requires quote.matchId == ClaimMatch(w.db, quote.claim) && quote.amount == w.price * Units(Reserved(w.db, quote.claim))
    ensures WithOrder(w.(quotes := w.quotes[q := quote]), q, o)
         == Created(w, quote.claim, quote.sessionId, quote.key, o)
  {
    assert w.quotes[q := quote] - {q} == w.quotes;
  }

  lemma FreshKey(keys: set<nat>) returns (q: nat)
    ensures q !in keys
  {
    q := if keys == {} then 0 else Sorted(keys)[|keys| - 1] + 1;
    assert forall k :: k in keys ==> k in Elements(Sorted(keys));
  }

  // ---------- the drive, one step at a time ----------

  /** `w'` is where the undisturbed attempt on `o` goes next from `w`. */
  ghost predicate Next(w: World, o: nat, ok: bool, w': World)
    requires Inv(w) && o in w.attempts
  {
    Inv(w') && Drive(w, o, ok) == if o in w'.attempts then Drive(w', o, ok) else w'
  }

  lemma NextOf(w: World, o: nat, ok: bool, w': World)
    requires Inv(w) && o in w.attempts && o in w.db.orders
    requires Enabled(w, NextStep(w, o, ok)) ==> w' == Apply(w, NextStep(w, o, ok))
    ensures Next(w, o, ok, w')
  {
    NextStepRuns(w, o, ok);
    StepKeeps(w, NextStep(w, o, ok));
  }

  lemma NextEnsured(w: World, o: nat, ok: bool)
    requires Inv(w) && At(w, o, Ensuring)
    ensures Next(w, o, ok, Ensured(w, o))
  {
    NextOf(w, o, ok, Ensured(w, o));
  }

  lemma NextAnswered(w: World, o: nat, ok: bool)
    requires Inv(w) && At(w, o, Charging)
    ensures Next(w, o, ok, Answered(w, o, ok))
  {
    NextOf(w, o, ok, Answered(w, o, ok));
  }

  lemma NextRecorded(w: World, o: nat, ok: bool)
    requires Inv(w) && Enabled(w, RecordCharge(o))
    ensures Next(w, o, ok, Recorded(w, o))
  {
    NextOf(w, o, ok, Recorded(w, o));
  }

  lemma RecordedWhere(w: World, o: nat)
    requires Inv(w) && Enabled(w, RecordCharge(o))
    ensures var w' := Recorded(w, o);
            if w.attempts[o].ok then At(w', o, Finalizing)
            else o !in w'.attempts && o in w'.db.orders && w'.db.orders[o].status == PaymentFailed
  {
    assert Sound(View(w, o), w.price);
  }

  /** The charge and its recording, as one stretch of the drive. */
  lemma ThroughCharge(w: World, o: nat, ok: bool)
    requires Inv(w) && At(w, o, Charging)
    ensures var w1 := Answered(w, o, ok);
            && Enabled(w1, RecordCharge(o))
            && var w2 := Recorded(w1, o);
            && Inv(w2)
            && if w1.attempts[o].ok then At(w2, o, Finalizing) && Drive(w, o, ok) == Drive(w2, o, ok)
               else Drive(w, o, ok) == w2 && o in w2.db.orders && w2.db.orders[o].status == PaymentFailed
  {
    NextAnswered(w, o, ok);
    var w1 := Answered(w, o, ok);
    assert Sound(View(w1, o), w1.price);
    NextRecorded(w1, o, ok);
    RecordedWhere(w1, o);
  }

  lemma NextRead(w: World, o: nat, ok: bool)
    requires Inv(w) && At(w, o, Finalizing) && w.db.orders[o].claim.SeatClaim?
    ensures Next(w, o, ok, RowsRead(w, o))
  {
    NextOf(w, o, ok, RowsRead(w, o));
  }

  lemma NextWritten(w: World, o: nat, ok: bool, h: nat, rows: map<nat, Seat>)
    requires Inv(w) && At(w, o, Confirming(rows)) && w.db.orders[o].claim == SeatClaim(h)
    ensures h in w.db.seat.holds
    ensures Next(w, o, ok,
              if IsActive(w.db.seat, h)
              then Goes(w.(db := ConfirmOrder(w.db.(seat := SeatInventory.Confirm(w.db.seat, h)), o, w.now)), o, None)
              else Goes(w, o, Some(Lost)))
  {
    ConfirmWinsIff(w, o, rows);
    NextOf(w, o, ok, SeatsConfirmed(w, o, rows));
  }

  /** The attempt has read the rows of an active hold, and other transactions have then left the seat
      tables as `meanwhile`. Nothing comes between anything when the hold was not active, or when units
      are bought. */
  function Interleaved(w: World, o: nat, meanwhile: SeatTables): World
    requires o in w.db.orders
  {
    match w.db.orders[o].claim
    case GaClaim(_) => w
    case SeatClaim(h) =>
      var read := RowsRead(w, o);
      if IsActive(w.db.seat, h) then read.(db := read.db.(seat := meanwhile)) else read
  }

  lemma Undisturbed(w: World, o: nat, ok: bool)
    requires Inv(w) && At(w, o, Finalizing)
    ensures var w1 := Interleaved(w, o, w.db.seat); Inv(w1) && o in w1.attempts && Drive(w1, o, ok) == Drive(w, o, ok)
  {
    if w.db.orders[o].claim.SeatClaim? {
      assert Interleaved(w, o, w.db.seat) == RowsRead(w, o);
      NextRead(w, o, ok);
    }
  }

  lemma DriveConfirming(m: World, o: nat, ok: bool, h: nat, rows: map<nat, Seat>)
    requires o in m.db.orders && m.db.orders[o].claim == SeatClaim(h) && Inv(Goes(m, o, Some(Confirming(rows))))
    ensures h in m.db.seat.holds
    ensures var w1 := Goes(m, o, Some(Confirming(rows)));
            if IsActive(m.db.seat, h)
            then Drive(w1, o, ok)
                   == Goes(m.(db := ConfirmOrder(m.db.(seat := SeatInventory.Confirm(m.db.seat, h)), o, m.now)), o, None)
            else Inv(Goes(m, o, Some(Lost))) && Drive(w1, o, ok) == Drive(Goes(m, o, Some(Lost)), o, ok)
  {
    NextWritten(Goes(m, o, Some(Confirming(rows))), o, ok, h, rows);
    AfterReading(m, o, rows, h);
  }

  /** The seat confirm as the drive sees it: won when the hold was active at both moments, else lost. */
  lemma DriveSeats(w: World, o: nat, ok: bool, h: nat, meanwhile: SeatTables)
    requires Inv(w) && At(w, o, Finalizing) && w.db.orders[o].claim == SeatClaim(h)
    requires Inv(Interleaved(w, o, meanwhile))
    ensures var w1 := Interleaved(w, o, meanwhile);
            && o in w1.attempts
            && if IsActive(w.db.seat, h) && IsActive(meanwhile, h)
               then Drive(w1, o, ok) ==
                    Goes(w.(db := ConfirmOrder(w.db.(seat := SeatInventory.Confirm(meanwhile, h)), o, w.now)), o, None)
               else var w2 := Goes(w.(db := w1.db), o, Some(Lost)); Inv(w2) && Drive(w1, o, ok) == Drive(w2, o, ok)
  {
    if IsActive(w.db.seat, h) {
      RowsOfActive(w, h);
      InterleavedIs(w, o, h, meanwhile);
      DriveConfirming(w.(db := w.db.(seat := meanwhile)), o, ok, h, SeatsOf(w.db.seat, h));
    }
  }

  lemma InterleavedIs(w: World, o: nat, h: nat, meanwhile: SeatTables)
    requires o in w.db.orders && w.db.orders[o].claim == SeatClaim(h)
    requires IsActive(w.db.seat, h) && SeatsOf(w.db.seat, h) != map[]
    ensures Interleaved(w, o, meanwhile)
         == Goes(w.(db := w.db.(seat := meanwhile)), o, Some(Confirming(SeatsOf(w.db.seat, h))))
  {
  }

  /** The attempt's own progress leaves no trace in the outcome of the write. */
  lemma AfterReading(m: World, o: nat, rows: map<nat, Seat>, h: nat)
    requires o in m.db.orders && h in m.db.seat.holds
    ensures var w1 := Goes(m, o, Some(Confirming(rows)));
            && Goes(w1, o, Some(Lost)) == Goes(m, o, Some(Lost))
            && var db := ConfirmOrder(m.db.(seat := SeatInventory.Confirm(m.db.seat, h)), o, m.now);
            Goes(w1.(db := db), o, None) == Goes(m.(db := db), o, None)
  {
    var w1 := Goes(m, o, Some(Confirming(rows)));
    assert w1.attempts - {o} == m.attempts - {o};
    assert w1.attempts[o := Lost] == m.attempts[o := Lost];
  }

  lemma RowsOfActive(w: World, h: nat)
    requires Inv(w) && IsActive(w.db.seat, h)
    ensures SeatsOf(w.db.seat, h) != map[]
  {
  }

  lemma NextUnits(w: World, o: nat, ok: bool)
    requires Inv(w) && At(w, o, Finalizing) && w.db.orders[o].claim.GaClaim?
    ensures Next(w, o, ok, UnitsConfirmed(w, o))
  {
    NextOf(w, o, ok, UnitsConfirmed(w, o));
  }

  lemma NextRefunded(w: World, o: nat, ok: bool)
    requires Inv(w) && At(w, o, Lost)
    ensures o in w.db.payments && Refundable(w.db.payments[o])
    ensures Next(w, o, ok, CardRefunded(w, o))
  {
    assert Sound(View(w, o), w.price);
    RepaySound(View(w, o), w.price);
    NextOf(w, o, ok, CardRefunded(w, o));
  }

  lemma NextUndone(w: World, o: nat, ok: bool)
    requires Inv(w) && At(w, o, Repaid) && o in w.db.payments
    ensures Next(w, o, ok, Undone(w, o))
  {
    NextOf(w, o, ok, Undone(w, o));
  }

  class CheckoutService {
    const session: Session
    const psp: MockPsp
    const finalizer: SqlInventoryFinalizer
    const price: nat
    var now: int
    ghost var live: map<nat, Attempt>     // the live attempts, this one included
    ghost var quotes: map<nat, Quote>     // quotes other attempts hold

    /** The world this service acts on. */
    ghost function Now(): World
      reads this, session, psp
    {
      World(session.committed, psp.View(), live, quotes, now, price)
    }

    /** Between commits nothing is pending in the session. */
    ghost predicate Valid()
      reads this, session, psp, finalizer
    {
      finalizer.session == session && session.tables == session.committed && Inv(Now())
    }

    constructor (s: Session, p: MockPsp, f: SqlInventoryFinalizer, ticketPrice: nat, at: int)
      requires f.session == s
      ensures session == s && psp == p && finalizer == f && price == ticketPrice && now == at
      ensures live == map[] && quotes == map[]
    {
      session, psp, finalizer, price, now := s, p, f, ticketPrice, at;
      live, quotes := map[], map[];
    }

    /** Finds the payment of an order, or inserts it PENDING and commits. */
    method EnsurePayment(o: nat) returns (payment: Payment)
      requires Valid() && At(Now(), o, Ensuring)
      modifies this`live, session
      ensures Now() == Ensured(old(Now()), o)
      ensures session.tables == session.committed
      ensures o in session.tables.payments && payment == session.tables.payments[o]
    {
      ghost var w := Now();
      if o in session.tables.payments {
        payment := session.tables.payments[o];
      } else {
        payment := NewPayment(o, session.tables.orders[o].amount);
        session.tables := session.tables.(payments := session.tables.payments[o := payment]);
        session.Commit();
      }
      live := Ensured(w, o).attempts;
    }

    /** Calls the provider outside any transaction, then commits its answer. */
    method Pay(o: nat, payment: Payment) returns (paid: bool)
      requires Valid() && At(Now(), o, Charging)
      requires o in session.tables.payments && payment == session.tables.payments[o]
      modifies this`live, session, psp
      ensures var ok := old(psp.failNextCharges) == 0;
              var w := Answered(old(Now()), o, ok);
              && Enabled(w, RecordCharge(o)) && Now() == Recorded(w, o)
              && paid == w.attempts[o].ok
      ensures session.tables == session.committed
    {
      ghost var w := Now();
      assert Sound(View(w, o), price);
      var order := session.tables.orders[o];
      var charge := psp.Charge(order.amount, payment.key);
      live := live[o := Charged(charge.ok)];
      assert Now() == Answered(w, o, old(psp.failNextCharges) == 0);
      paid := charge.ok;
      ghost var next := AfterPayment(order, payment.(status := PaymentStatus.Captured));
      if !charge.ok {
        session.tables := session.tables.(
          payments := session.tables.payments[o := payment.(status := Failed)],
          orders := session.tables.orders[o := order.(status := PaymentFailed)]);
        session.Commit();
        live := live - {o};
      } else {
        session.tables := session.tables.(payments := session.tables.payments[o :=
          payment.(status := PaymentStatus.Captured, pspRef := charge.pspRef)]);
        session.Commit();
        live := if next == None then live - {o} else live[o := next.value];
      }
    }

    /** Refunds a payment that was captured and has a reference, then commits the compensation with its
        event; any other payment is left as it is. */
    method Compensate(o: nat)
      requires session.tables == session.committed && At(Now(), o, Lost) && o in session.tables.payments
      modifies this`live, session, psp
      ensures Now() == if Refundable(old(session.committed).payments[o]) then Undone(CardRefunded(old(Now()), o), o)
                       else Undone(old(Now()), o)
      ensures session.tables == session.committed && psp.failNextCharges == old(psp.failNextCharges)
    {
      ghost var w := Now();
      var order, payment := session.tables.orders[o], session.tables.payments[o];
      if payment.status == PaymentStatus.Captured && payment.pspRef != None {
        var refund := psp.Refund(payment.pspRef.value, RefundKey(payment.key));
        live := live[o := Repaid];
        assert Now() == CardRefunded(w, o);
        session.tables := session.tables.(
          payments := session.tables.payments[o := payment.(status := PaymentStatus.Refunded)]);
      }
      session.tables := session.tables.(
        orders := session.tables.orders[o := order.(status := Compensated, version := order.version + 1)],
        outbox := session.tables.outbox + [Event(o, EventKind.FinalizeFailed, now, None)]);
      session.Commit();
      live := live - {o};
    }

    /** Marks the order CONFIRMED, queues its event and commits, with whatever inventory writes are
        pending in the session. */
    method CommitConfirmed(o: nat)
      requires o in session.tables.orders
      modifies this`live, session
      ensures session.tables == session.committed == ConfirmOrder(old(session.tables), o, now)
      ensures o in session.committed.orders && session.committed.orders[o].status == OrderStatus.Confirmed
      ensures live == old(live) - {o}
    {
      var order := session.tables.orders[o];
      session.tables := session.tables.(
        orders := session.tables.orders[o := order.(status := OrderStatus.Confirmed, version := order.version + 1)],
        outbox := session.tables.outbox + [Event(o, TicketConfirmed, now, None)]);
      session.Commit();
      live := live - {o};
    }

    /** A lost confirm: roll back, refund, compensate. */
    method Lose(o: nat, ghost ok: bool)
      requires Inv(Now()) && At(Now(), o, Lost)
      modifies this`live, session, psp
      ensures Now() == Drive(old(Now()), o, ok)
      ensures session.tables == session.committed
      ensures o in session.committed.orders && session.committed.orders[o].status == Compensated
    {
      ghost var w := Now();
      NextRefunded(w, o, ok);
      NextUndone(CardRefunded(w, o), o, ok);
      session.Rollback();
      Compensate(o);
    }

    /** `meanwhile` is what other transactions leave between the reads and the writes of the confirm. */
    method FinalizeSeats(o: nat, meanwhile: SeatTables, ghost ok: bool) returns (won: bool)
      requires Valid() && At(Now(), o, Finalizing) && session.tables.orders[o].claim.SeatClaim?
      requires Inv(Interleaved(Now(), o, meanwhile))
      requires SeatInv(meanwhile) && Evolves(session.tables.seat, meanwhile)
      modifies this`live, session, psp
      ensures o in Interleaved(old(Now()), o, meanwhile).attempts
      ensures Now() == Drive(Interleaved(old(Now()), o, meanwhile), o, ok)
      ensures session.tables == session.committed && o in session.committed.orders
      ensures session.committed.orders[o].status == if won then OrderStatus.Confirmed else Compensated
    {
      var h := session.tables.orders[o].claim.hold;
      DriveSeats(Now(), o, ok, h, meanwhile);
      won := finalizer.ConfirmAssigned(h, meanwhile);
      if won {
        CommitConfirmed(o);
      } else {
        live := live[o := Lost];
        Lose(o, ok);
      }
    }

    method FinalizeUnits(o: nat, ghost ok: bool) returns (won: bool)
      requires Valid() && At(Now(), o, Finalizing) && session.tables.orders[o].claim.GaClaim?
      modifies this`live, session, psp
      ensures Now() == Drive(old(Now()), o, ok)
      ensures session.tables == session.committed && o in session.committed.orders
      ensures session.committed.orders[o].status == if won then OrderStatus.Confirmed else Compensated
    {
      ghost var w := Now();
      NextUnits(w, o, ok);
      won := finalizer.ConfirmGeneral(session.tables.orders[o].claim.reservation);
      if won {
        CommitConfirmed(o);
        assert Now() == UnitsConfirmed(w, o);
      } else {
        live := live[o := Lost];
        assert Now() == UnitsConfirmed(w, o);
        Lose(o, ok);
      }
    }

    /** Confirms the inventory and the order, or compensates and raises, whatever other transactions do
        to the seat tables while the confirm is under way. */
    method Finalize(o: nat, created: bool, meanwhile: SeatTables, ghost ok: bool) returns (r: Outcome)
      requires Valid() && At(Now(), o, Finalizing)
      requires Inv(Interleaved(Now(), o, meanwhile))
      requires SeatInv(meanwhile) && Evolves(session.tables.seat, meanwhile)
      modifies this`live, session, psp
      ensures o in Interleaved(old(Now()), o, meanwhile).attempts
      ensures Now() == Drive(Interleaved(old(Now()), o, meanwhile), o, ok)
      ensures session.tables == session.committed
      ensures o in session.committed.orders && r == Reported(session.committed.orders[o].status, o, created)
    {
      var won;
      if session.tables.orders[o].claim.SeatClaim? {
        won := FinalizeSeats(o, meanwhile, ok);
      } else {
        won := FinalizeUnits(o, ok);
      }
      r := if won then Done(o, created) else Raised(CheckoutError.FinalizeFailed);
    }

    method FinalizeAlone(o: nat, created: bool, ghost ok: bool) returns (r: Outcome)
      requires Valid() && At(Now(), o, Finalizing)
      modifies this`live, session, psp
      ensures Now() == Drive(old(Now()), o, ok)
      ensures session.tables == session.committed
      ensures o in session.committed.orders && r == Reported(session.committed.orders[o].status, o, created)
    {
      Undisturbed(Now(), o, ok);
      EvolvesReflexive(session.tables.seat);
      r := Finalize(o, created, session.tables.seat, ok);
    }

    /** The charge of a PENDING payment and what follows from its answer. */
    method ChargeAndFinalize(o: nat, payment: Payment, created: bool, ghost ok: bool) returns (r: Outcome)
      requires Valid() && At(Now(), o, Charging) && ok == (psp.failNextCharges == 0)
      requires o in session.tables.payments && payment == session.tables.payments[o]
      modifies this`live, session, psp
      ensures Now() == Drive(old(Now()), o, ok)
      ensures session.tables == session.committed
      ensures o in session.committed.orders && r == Reported(session.committed.orders[o].status, o, created)
    {
      ThroughCharge(Now(), o, ok);
      var paid := Pay(o, payment);
      if !paid {
        return Raised(PaymentDeclined);
      }
      r := FinalizeAlone(o, created, ok);
    }

    /** Carries a pending order from its payment row to a final status: exactly the undisturbed drive
        of its attempt. */
    method Resume(o: nat, created: bool) returns (r: Outcome)
      requires Valid() && At(Now(), o, Ensuring)
      modifies this`live, session, psp
      ensures Now() == Drive(old(Now()), o, old(psp.failNextCharges) == 0)
      ensures session.tables == session.committed
      ensures o in session.committed.orders && r == Reported(session.committed.orders[o].status, o, created)
    {
      ghost var w := Now();
      ghost var ok := psp.failNextCharges == 0;
      NextEnsured(w, o, ok);
      var payment := EnsurePayment(o);
      assert Sound(View(w, o), price);
      if payment.status == Pending {
        r := ChargeAndFinalize(o, payment, created, ok);
      } else {
        var next := AfterPayment(session.tables.orders[o], payment);
        r := Done(o, created);
        if next != None {
          r := FinalizeAlone(o, created, ok);
        }
      }
    }

    /** What the service quotes for a reservation, or why it refuses. */
    method GetQuote(claim: Claim, sessionId: string) returns (refused: Option<CheckoutError>, matchId: nat, amount: int)
      requires session.tables == session.committed
      ensures refused == None <==>
                Exists(session.committed, claim) && Usable(session.committed, claim, sessionId, now)
      ensures !Exists(session.committed, claim) ==> refused == Some(ReservationNotFound)
      ensures refused != None && Exists(session.committed, claim) ==> refused == Some(ReservationNotActive)
      ensures refused == None ==>
                && matchId == ClaimMatch(session.committed, claim)
                && amount == price * Units(Reserved(session.committed, claim))
      ensures refused == None <==>
                match claim
                case SeatClaim(h) =>
                  var t := session.committed.seat;
                  h in t.holds && t.holds[h].status == HoldStatus.Active
                  && t.holds[h].sessionId == sessionId && t.holds[h].expiresAt > now
                  && exists i :: i in t.seats && t.seats[i].holdId == Some(h)
                case GaClaim(r) =>
                  var t := session.committed.ga;
                  r in t.rows && t.rows[r].status == HoldStatus.Active
                  && t.rows[r].sessionId == sessionId && t.rows[r].expiresAt > now
      ensures refused == None ==>
                match claim
                case SeatClaim(h) =>
                  var t := session.committed.seat;
                  && matchId == t.holds[h].matchId
                  && amount == price * |set i | i in t.seats && t.seats[i].holdId == Some(h)|
                case GaClaim(r) =>
                  var t := session.committed.ga;
                  matchId == t.rows[r].matchId && amount == price * t.rows[r].quantity
    {
      UsableMeans(session.committed, claim, sessionId, now);
      if claim.SeatClaim? { SeatCount(session.committed.seat, claim.hold); }
      matchId, amount := 0, 0;
      match claim
      case SeatClaim(h) =>
        var t := session.tables.seat;
        if h !in t.holds {
          return Some(ReservationNotFound), 0, 0;
        }
        var hold := t.holds[h];
        if !UsableRow(hold.status, hold.sessionId, hold.expiresAt, sessionId, now) {
          return Some(ReservationNotActive), 0, 0;
        }
        var count := |SeatsOf(t, h)|;
        if count == 0 {
          return Some(ReservationNotActive), 0, 0;
        }
        return None, hold.matchId, count * price;
      case GaClaim(r) =>
        var t := session.tables.ga;
        if r !in t.rows {
          return Some(ReservationNotFound), 0, 0;
        }
        var row := t.rows[r];
        if !UsableRow(row.status, row.sessionId, row.expiresAt, sessionId, now) {
          return Some(ReservationNotActive), 0, 0;
        }
        return None, row.matchId, row.quantity * price;
    }

    /** The key is known: answer with its order, or take the order up where it was left. */
    method Answer(p: nat, sessionId: string) returns (r: Outcome)
      requires Valid() && p in session.committed.orders && p !in live
      modifies this`live, session, psp
      ensures session.tables == session.committed
      ensures Answers(old(Now()), Now(), p, sessionId, old(psp.failNextCharges) == 0, r)
    {
      ghost var w := Now();
      var existing := session.tables.orders[p];
      if existing.sessionId != sessionId {
        return Raised(ReservationNotActive);
      }
      if Terminal(existing.status) {
        return Done(p, false);
      }
      Replayed(w, p, sessionId);
      live := live[p := Ensuring];
      assert Now() == Goes(w, p, Some(Ensuring));
      r := Resume(p, false);
    }

    /** Inserts the order and commits; its attempt begins. */
    method Insert(o: nat, order: Order)
      requires session.tables == session.committed
      modifies this`live, session
      ensures session.tables == session.committed
      ensures session.committed == old(session.committed).(orders := old(session.committed).orders[o := order])
      ensures live == old(live)[o := Ensuring]
    {
      session.tables := session.tables.(orders := session.tables.orders[o := order]);
      session.Commit();
      live := live[o := Ensuring];
    }

    /** The key is new: quote the reservation and insert the order, then carry on with it. */
    method Create(claim: Claim, sessionId: string, key: string, o: nat) returns (r: Outcome)
      requires Valid() && o !in session.committed.orders && KeyFree(session.committed, key)
      modifies this`live, session, psp
      ensures session.tables == session.committed
      ensures Creates(old(Now()), Now(), claim, sessionId, key, o, old(psp.failNextCharges) == 0, r)
    {
      ghost var w := Now();
      var refused, matchId, amount := GetQuote(claim, sessionId);
      if refused != None {
        return Raised(refused.value);
      }
      if amount <= 0 || !ClaimFree(session.tables, claim) {
        return Raised(ConstraintViolated);
      }
      CreatedKeeps(w, claim, sessionId, key, o);
      Insert(o, Order(matchId, sessionId, key, claim, PaymentPending, amount, 1));
      assert Now() == Created(w, claim, sessionId, key, o);
      r := Resume(o, true);
    }

    /** One checkout request. With a known key it answers or resumes the order of that key; with a new
        one it quotes the reservation and creates the order `o`. Either way a pending order is driven
        to a final status, and a request that is refused changes nothing. */
    method Checkout(sessionId: string, key: string, hold: Option<nat>, reservation: Option<nat>, o: nat)
      returns (r: Outcome)
      requires Valid() && o !in session.committed.orders
      requires forall p :: p in session.committed.orders && session.committed.orders[p].key == key ==> p !in live
      modifies this`live, session, psp
      ensures session.tables == session.committed
      ensures (hold == None) == (reservation == None) ==> r == Raised(ReservationNotFound) && Now() == old(Now())
      ensures (hold == None) != (reservation == None) ==>
                forall p :: p in old(session.committed).orders && old(session.committed).orders[p].key == key ==>
                  Answers(old(Now()), Now(), p, sessionId, old(psp.failNextCharges) == 0, r)
      ensures (hold == None) != (reservation == None) && KeyFree(old(session.committed), key) ==>
                Creates(old(Now()), Now(), if hold.Some? then SeatClaim(hold.value) else GaClaim(reservation.value),
                        sessionId, key, o, old(psp.failNextCharges) == 0, r)
      ensures hold.Some? && reservation == None && KeyFree(old(session.committed), key) && o in session.committed.orders ==>
                var t, h := old(session.committed).seat, hold.value;
                && h in t.holds && t.holds[h].status == HoldStatus.Active
                && t.holds[h].sessionId == sessionId && t.holds[h].expiresAt > now
      ensures reservation.Some? && hold == None && KeyFree(old(session.committed), key) && o in session.committed.orders ==>
                var t, g := old(session.committed).ga, reservation.value;
                && g in t.rows && t.rows[g].status == HoldStatus.Active
                && t.rows[g].sessionId == sessionId && t.rows[g].expiresAt > now
    {
      if (hold == None) == (reservation == None) {
        return Raised(ReservationNotFound);
      }
      ghost var w, orders := Now(), session.committed.orders;
      if p :| p in session.tables.orders && session.tables.orders[p].key == key {
        forall other | other in orders && orders[other].key == key ensures other == p {
          assert Pair(other, p);
        }
        r := Answer(p, sessionId);
      } else if hold.Some? {
        r := Create(SeatClaim(hold.value), sessionId, key, o);
        SeatsBought(w, Now(), hold.value, sessionId, key, o, old(psp.failNextCharges) == 0, r);
      } else {
        r := Create(GaClaim(reservation.value), sessionId, key, o);
        UnitsBought(w, Now(), reservation.value, sessionId, key, o, old(psp.failNextCharges) == 0, r);
      }
    }
  }
}
