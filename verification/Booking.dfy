/** The booking path as one transition system: a step per committed transaction, per provider call,
    per crash of an attempt and per clock advance, interleaved freely.

    An order has at most one live attempt. An expiry may come at any time after its check for a captured
    payment, so the step itself has no such guard; `Guarded` says what it means that nothing came
    between the two. The seat lock table does not occur: the reserving
    transaction is enabled whatever locks exist, so every result holds even if all locks vanish. */
module Booking {
  import opened Collections
  import opened SeatInventory
  import opened GaInventory
  import opened PaymentProvider
  import opened OrderLife

  datatype Tables = Tables(seat: SeatTables, ga: GaTables, orders: map<nat, Order>, payments: map<nat, Payment>,
                           outbox: seq<Event>)

  /** What a checkout read before inserting its order; the reservation may change in between. */
  datatype Quote = Quote(claim: Claim, matchId: nat, sessionId: string, key: string, amount: int)

  datatype World = World(db: Tables, psp: Ledger, attempts: map<nat, Attempt>, quotes: map<nat, Quote>, now: int,
                         price: nat)

  datatype Step =
    | ReserveSeats(hold: nat, holdRow: Hold, ids: set<nat>)
    | ClaimUnits(reservation: nat, row: Reservation, snapshot: Option<Pool>)
    | ExpireHold(hold: nat)
    | ExpireGa(reservation: nat, readVersion: nat)
    | TakeQuote(quote: nat, claim: Claim, sessionId: string, key: string)
    | DropQuote(quote: nat)
    | CreateOrder(quote: nat, order: nat)
    | Replay(order: nat, sessionId: string)
    | EnsurePayment(order: nat)
    | ChargeCard(order: nat, ok: bool)
    | RecordCharge(order: nat)
    | ReadForConfirm(order: nat)
    | WriteConfirm(order: nat)
    | ConfirmUnits(order: nat)
    | RefundCard(order: nat)
    | Compensate(order: nat)
    | Crash(order: nat)
    | Publish(ids: set<nat>, at: int)
    | Advance(to: int)

  // ---------- reading the tables ----------

  predicate Exists(db: Tables, claim: Claim) {
    ClaimExists(db.seat, db.ga, claim)
  }

  function Reserved(db: Tables, claim: Claim): ClaimView {
    ClaimOf(db.seat, db.ga, claim)
  }

  function ClaimMatch(db: Tables, claim: Claim): nat
    requires Exists(db, claim)
  {
    match claim
    case SeatClaim(h) => db.seat.holds[h].matchId
    case GaClaim(r) => db.ga.rows[r].matchId
  }

  predicate UsableRow(status: HoldStatus, owner: string, expiresAt: int, sessionId: string, now: int) {
    status == HoldStatus.Active && owner == sessionId && expiresAt > now
  }

  predicate Usable(db: Tables, claim: Claim, sessionId: string, now: int)
    requires Exists(db, claim)
  {
    match claim
    case SeatClaim(h) =>
      var hold := db.seat.holds[h];
      UsableRow(hold.status, hold.sessionId, hold.expiresAt, sessionId, now) && SeatsOf(db.seat, h) != map[]
    case GaClaim(r) =>
      var row := db.ga.rows[r];
      UsableRow(row.status, row.sessionId, row.expiresAt, sessionId, now)
  }

  /** Some order on this reservation has a committed CAPTURED payment. */
  predicate HasCapturedPayment(db: Tables, claim: Claim) {
    exists o :: o in db.orders && db.orders[o].claim == claim
                && o in db.payments && db.payments[o].status == PaymentStatus.Captured
  }

  predicate KeyFree(db: Tables, key: string) {
    forall o :: o in db.orders ==> db.orders[o].key != key
  }

  predicate ClaimFree(db: Tables, claim: Claim) {
    forall o :: o in db.orders ==> db.orders[o].claim != claim
  }

  /** The event kinds written for one order, oldest first. */
  function Kinds(outbox: seq<Event>, o: nat): seq<EventKind> {
    if outbox == [] then []
    else
      var last := outbox[|outbox| - 1];
      Kinds(outbox[..|outbox| - 1], o) + if last.aggregate == o then [last.kind] else []
  }

  function Get<T>(m: map<nat, T>, o: nat): Option<T> {
    if o in m then Some(m[o]) else None
  }

  function GetKey(m: map<Key, Entry>, k: Key): Option<Entry> {
    if k in m then Some(m[k]) else None
  }

  /** One order as it stands in every table, at the provider and in its live attempt. */
  function View(w: World, o: nat): OrderView
    requires o in w.db.orders
  {
    OrderView(o, w.db.orders[o], Get(w.db.payments, o), GetKey(w.psp.charges, PayKey(o)),
              GetKey(w.psp.refunds, RefundKey(PayKey(o))), Get(w.attempts, o),
              Reserved(w.db, w.db.orders[o].claim), Kinds(w.db.outbox, o))
  }

  // ---------- when a step may happen ----------

  predicate At(w: World, o: nat, a: Attempt) {
    o in w.db.orders && o in w.attempts && w.attempts[o] == a
  }

  predicate Enabled(w: World, s: Step) {
    var db := w.db;
    match s
    case ReserveSeats(h, row, ids) =>
      row.status == HoldStatus.Active && Reservable(db.seat, h, row.matchId, ids, row.key)
    case ClaimUnits(r, row, snapshot) =>
      Insertable(db.ga, r, row) && Outcome(db.ga.pools, snapshot, row.matchId, row.quantity) == Claimed
    case ExpireHold(h) =>
      IsActive(db.seat, h) && db.seat.holds[h].expiresAt <= w.now
    case ExpireGa(r, readVersion) =>
      Releasable(db.ga, r, readVersion) && db.ga.rows[r].expiresAt <= w.now
    case TakeQuote(q, claim, sessionId, key) =>
      q !in w.quotes && Exists(db, claim) && Usable(db, claim, sessionId, w.now)
    case DropQuote(q) =>
      q in w.quotes
    case CreateOrder(q, o) =>
      && q in w.quotes && o !in db.orders
      && w.quotes[q].amount > 0 && KeyFree(db, w.quotes[q].key) && ClaimFree(db, w.quotes[q].claim)
    case Replay(o, sessionId) =>
      && o in db.orders && o !in w.attempts
      && db.orders[o].sessionId == sessionId && !Terminal(db.orders[o].status)
    case EnsurePayment(o) =>
      At(w, o, Ensuring)
    case ChargeCard(o, _) =>
      At(w, o, Charging)
    case RecordCharge(o) =>
      o in db.orders && o in w.attempts && w.attempts[o].Charged? && o in db.payments && PayKey(o) in w.psp.charges
    case ReadForConfirm(o) =>
      At(w, o, Finalizing) && db.orders[o].claim.SeatClaim?
    case WriteConfirm(o) =>
      o in db.orders && o in w.attempts && w.attempts[o].Confirming? && db.orders[o].claim.SeatClaim?
    case ConfirmUnits(o) =>
      At(w, o, Finalizing) && db.orders[o].claim.GaClaim?
    case RefundCard(o) =>
      At(w, o, Lost) && o in db.payments && Refundable(db.payments[o])
    case Compensate(o) =>
      && o in db.orders && o in db.payments
      && (At(w, o, Repaid) || (At(w, o, Lost) && !Refundable(db.payments[o])))
    case Crash(o) =>
      o in w.attempts
    case Publish(ids, _) =>
      true
    case Advance(to) =>
      w.now <= to
  }

  /** The reservation a step expires, if any. */
  function Expires(s: Step): Option<Claim> {
    match s
    case ExpireHold(h) => Some(SeatClaim(h))
    case ExpireGa(r, _) => Some(GaClaim(r))
    case _ => None
  }

  /** The expiry's check for a captured payment still holds when it releases. */
  predicate Guarded(w: World, s: Step) {
    Expires(s).Some? ==> !HasCapturedPayment(w.db, Expires(s).value)
  }

  // ---------- what a step does ----------

  /** The attempt goes on to another point, or ends. */
  function Goes(w: World, o: nat, a: Option<Attempt>): World {
    w.(attempts := if a == None then w.attempts - {o} else w.attempts[o := a.value])
  }

  function ConfirmOrder(db: Tables, o: nat, at: int): Tables
    requires o in db.orders
  {
    db.(orders := db.orders[o := db.orders[o].(status := OrderStatus.Confirmed, version := db.orders[o].version + 1)],
        outbox := db.outbox + [Event(o, TicketConfirmed, at, None)])
  }

  function CompensateOrder(db: Tables, o: nat, refunded: bool, at: int): Tables
    requires o in db.orders && o in db.payments
  {
    db.(orders := db.orders[o := db.orders[o].(status := Compensated, version := db.orders[o].version + 1)],
        payments := if refunded then db.payments[o := db.payments[o].(status := PaymentStatus.Refunded)] else db.payments,
        outbox := db.outbox + [Event(o, FinalizeFailed, at, None)])
  }

  function Ensured(w: World, o: nat): World
    requires o in w.db.orders
  {
    var payments := if o in w.db.payments then w.db.payments
                    else w.db.payments[o := NewPayment(o, w.db.orders[o].amount)];
    var next := if payments[o].status == Pending then Some(Charging) else AfterPayment(w.db.orders[o], payments[o]);
    Goes(w.(db := w.db.(payments := payments)), o, next)
  }

  function Recorded(w: World, o: nat): World
    requires o in w.db.orders && o in w.db.payments && PayKey(o) in w.psp.charges
    requires o in w.attempts && w.attempts[o].Charged?
  {
    var order, payment := w.db.orders[o], w.db.payments[o];
    if !w.attempts[o].ok then
      Goes(w.(db := w.db.(orders := w.db.orders[o := order.(status := PaymentFailed)],
                          payments := w.db.payments[o := payment.(status := Failed)])), o, None)
    else
      var captured := payment.(status := PaymentStatus.Captured, pspRef := w.psp.charges[PayKey(o)].result.pspRef);
      Goes(w.(db := w.db.(payments := w.db.payments[o := captured])), o, AfterPayment(order, captured))
  }

  function Answered(w: World, o: nat, ok: bool): World
    requires o in w.db.orders
  {
    var psp := AfterCharge(w.psp, PayKey(o), w.db.orders[o].amount, ok);
    Goes(w.(psp := psp), o, Some(Charged(psp.charges[PayKey(o)].result.ok)))
  }

  function RowsRead(w: World, o: nat): World
    requires o in w.db.orders && w.db.orders[o].claim.SeatClaim?
  {
    var h := w.db.orders[o].claim.hold;
    var rows := SeatsOf(w.db.seat, h);
    Goes(w, o, Some(if IsActive(w.db.seat, h) && rows != map[] then Confirming(rows) else Lost))
  }

  /** The confirm loop at write time, against rows read earlier. */
  function SeatsConfirmed(w: World, o: nat, rows: map<nat, Seat>): World
    requires o in w.db.orders && w.db.orders[o].claim.SeatClaim?
  {
    var h := w.db.orders[o].claim.hold;
    if h in w.db.seat.holds && AllMatch(w.db.seat.seats, rows, h) then
      Goes(w.(db := ConfirmOrder(w.db.(seat := WriteRows(w.db.seat, rows, h)), o, w.now)), o, None)
    else
      Goes(w, o, Some(Lost))
  }

  function UnitsConfirmed(w: World, o: nat): World
    requires o in w.db.orders && w.db.orders[o].claim.GaClaim?
  {
    var r := w.db.orders[o].claim.reservation;
    if IsLive(w.db.ga, r) then
      Goes(w.(db := ConfirmOrder(w.db.(ga := ConfirmGa(w.db.ga, r)), o, w.now)), o, None)
    else
      Goes(w, o, Some(Lost))
  }

  function CardRefunded(w: World, o: nat): World
    requires o in w.db.payments && w.db.payments[o].pspRef.Some?
  {
    var payment := w.db.payments[o];
    Goes(w.(psp := AfterRefund(w.psp, payment.pspRef.value, RefundKey(payment.key))), o, Some(Repaid))
  }

  function Undone(w: World, o: nat): World
    requires o in w.db.orders && o in w.db.payments && o in w.attempts
  {
    Goes(w.(db := CompensateOrder(w.db, o, w.attempts[o] == Repaid, w.now)), o, None)
  }

  function Stamped(outbox: seq<Event>, ids: set<nat>, at: int): seq<Event> {
    seq(|outbox|, i requires 0 <= i < |outbox| =>
      if i in ids then outbox[i].(publishedAt := Some(at)) else outbox[i])
  }

  function Apply(w: World, s: Step): World
    requires Enabled(w, s)
  {
    var db := w.db;
    match s
    case ReserveSeats(h, row, ids) => w.(db := db.(seat := Reserve(db.seat, h, row, ids)))
    case ClaimUnits(r, row, _) => w.(db := db.(ga := GaInventory.Claim(db.ga, r, row)))
    case ExpireHold(h) => w.(db := db.(seat := Release(db.seat, h)))
    case ExpireGa(r, _) => w.(db := db.(ga := ReleaseGa(db.ga, r)))
    case TakeQuote(q, claim, sessionId, key) =>
      var amount := w.price * Units(Reserved(db, claim));
      w.(quotes := w.quotes[q := Quote(claim, ClaimMatch(db, claim), sessionId, key, amount)])
    case DropQuote(q) => w.(quotes := w.quotes - {q})
    case CreateOrder(q, o) =>
      var quote := w.quotes[q];
      var order := Order(quote.matchId, quote.sessionId, quote.key, quote.claim, PaymentPending, quote.amount, 1);
      w.(db := db.(orders := db.orders[o := order]), quotes := w.quotes - {q}, attempts := w.attempts[o := Ensuring])
    case Replay(o, _) => Goes(w, o, Some(Ensuring))
    case EnsurePayment(o) => Ensured(w, o)
    case ChargeCard(o, ok) => Answered(w, o, ok)
    case RecordCharge(o) => Recorded(w, o)
    case ReadForConfirm(o) => RowsRead(w, o)
    case WriteConfirm(o) => SeatsConfirmed(w, o, w.attempts[o].rows)
    case ConfirmUnits(o) => UnitsConfirmed(w, o)
    case RefundCard(o) => CardRefunded(w, o)
    case Compensate(o) => Undone(w, o)
    case Crash(o) => Goes(w, o, None)
    case Publish(ids, at) => w.(db := db.(outbox := Stamped(db.outbox, ids, at)))
    case Advance(to) => w.(now := to)
  }

  // ---------- the invariant ----------

  /** A reservation is confirmed only on behalf of an order. */
  predicate Owned(db: Tables, claim: Claim) {
    exists o :: o in db.orders && db.orders[o].claim == claim
  }

  predicate ConfirmedOwned(db: Tables) {
    && (forall h {:trigger Owned(db, SeatClaim(h))} ::
          h in db.seat.holds && db.seat.holds[h].status == HoldStatus.Confirmed ==> Owned(db, SeatClaim(h)))
    && (forall r {:trigger Owned(db, GaClaim(r))} ::
          r in db.ga.rows && db.ga.rows[r].status == HoldStatus.Confirmed ==> Owned(db, GaClaim(r)))
  }

  /** One order per reservation and per key. */
  predicate OneOrderEach(orders: map<nat, Order>) {
    && (forall o, p {:trigger Pair(o, p)} ::
          Pair(o, p) && o in orders && p in orders && orders[o].claim == orders[p].claim ==> o == p)
    && (forall o, p {:trigger Pair(o, p)} ::
          Pair(o, p) && o in orders && p in orders && orders[o].key == orders[p].key ==> o == p)
  }

  predicate ProviderKeys(orders: map<nat, Order>, psp: Ledger) {
    && (forall k :: k in psp.charges ==> k.PayKey? && k.order in orders)
    && (forall k :: k in psp.refunds ==> k.RefundKey? && k.of.PayKey? && k.of.order in orders)
  }

  predicate OutboxOwned(orders: map<nat, Order>, outbox: seq<Event>) {
    forall i :: 0 <= i < |outbox| ==> outbox[i].aggregate in orders
  }

  /** Everything that refers to an order refers to one that exists. */
  predicate Linked(w: World) {
    && (forall o {:trigger Exists(w.db, w.db.orders[o].claim)} :: o in w.db.orders ==> Exists(w.db, w.db.orders[o].claim))
    && w.db.payments.Keys <= w.db.orders.Keys
    && w.attempts.Keys <= w.db.orders.Keys
    && ProviderKeys(w.db.orders, w.psp)
    && OutboxOwned(w.db.orders, w.db.outbox)
    && OneOrderEach(w.db.orders)
    && ConfirmedOwned(w.db)
  }

  /** A quote never overstates or understates a reservation that is still live. */
  predicate QuoteOk(w: World, quote: Quote) {
    && Exists(w.db, quote.claim)
    && (Live(Reserved(w.db, quote.claim)) ==>
          quote.amount == w.price * Units(Reserved(w.db, quote.claim)))
  }

  predicate OrdersSound(w: World) {
    forall o {:trigger View(w, o)} :: o in w.db.orders ==> Sound(View(w, o), w.price)
  }

  predicate QuotesOk(w: World) {
    forall q {:trigger w.quotes[q]} :: q in w.quotes ==> QuoteOk(w, w.quotes[q])
  }

  ghost predicate Inv(w: World) {
    && SeatInv(w.db.seat) && GaInv(w.db.ga) && LedgerInv(w.psp)
    && Linked(w) && OrdersSound(w) && QuotesOk(w)
  }

  /** What any number of steps can do to the world. */
  predicate Progress(w: World, w': World) {
    && w'.price == w.price
    && Evolves(w.db.seat, w'.db.seat)
    && GaEvolves(w.db.ga, w'.db.ga)
    && forall o {:trigger View(w, o)} :: o in w.db.orders ==> o in w'.db.orders && Moves(View(w, o), View(w', o))
  }

  /** Before anything is sold: every seat free, every pool full. */
  predicate Initial(w: World) {
    && (forall i :: i in w.db.seat.seats ==>
          w.db.seat.seats[i] == Seat(w.db.seat.seats[i].matchId, Available, None, None, 1))
    && w.db.seat.holds == map[]
    && (forall m :: m in w.db.ga.pools ==>
          w.db.ga.pools[m].available == w.db.ga.pools[m].capacity && w.db.ga.pools[m].version == 1)
    && w.db.ga.rows == map[]
    && w.db.orders == map[] && w.db.payments == map[] && w.db.outbox == []
    && w.psp == Ledger(map[], map[], 0, 0)
    && w.attempts == map[] && w.quotes == map[]
  }
}
