/** The rows of the checkout saga, and the life of one order seen across every table and the
    payment provider at once. */
module OrderLife {
  import opened Collections
  import opened SeatInventory
  import opened GaInventory
  import opened PaymentProvider

  datatype Claim = SeatClaim(hold: nat) | GaClaim(reservation: nat)

  datatype OrderStatus = PaymentPending | Confirmed | PaymentFailed | Compensated | Expired

  datatype PaymentStatus = Pending | Captured | Failed | Refunded

  datatype EventKind = TicketConfirmed | FinalizeFailed

  datatype Order = Order(matchId: nat, sessionId: string, key: string, claim: Claim, status: OrderStatus, amount: int,
                         version: nat)

  datatype Payment = Payment(key: Key, pspRef: Option<Key>, status: PaymentStatus, amount: int)

  datatype Event = Event(aggregate: nat, kind: EventKind, createdAt: int, publishedAt: Option<int>)

  /** Where a live checkout attempt stands. It is volatile: a crash forgets it. */
  datatype Attempt =
    | Ensuring                         // about to find or insert the payment row
    | Charging                         // payment PENDING is committed, provider not yet answered
    | Charged(ok: bool)                // provider answered, answer not yet committed
    | Finalizing                       // capture committed, inventory not yet read
    | Confirming(rows: map<nat, Seat>) // hold read as active, its seat rows read, nothing written
    | Lost                             // confirm failed and rolled back
    | Repaid                           // provider refunded, compensation not yet committed

  // ---------- the reservation behind an order ----------

  datatype ClaimView = SeatView(status: HoldStatus, rows: map<nat, Seat>) | GaView(status: HoldStatus, quantity: int)

  function Units(c: ClaimView): int {
    match c
    case SeatView(_, rows) => |rows|
    case GaView(_, quantity) => quantity
  }

  predicate Live(c: ClaimView) {
    c.status == HoldStatus.Active || c.status == HoldStatus.Confirmed
  }

  predicate ClaimExists(seat: SeatTables, ga: GaTables, claim: Claim) {
    match claim
    case SeatClaim(h) => h in seat.holds
    case GaClaim(r) => r in ga.rows
  }

  /** The reservation as it stands; a dangling claim reads as RELEASED, a status no code writes. */
  function ClaimOf(seat: SeatTables, ga: GaTables, claim: Claim): ClaimView {
    match claim
    case SeatClaim(h) =>
      if h in seat.holds then SeatView(seat.holds[h].status, SeatsOf(seat, h)) else GaView(Released, 0)
    case GaClaim(r) =>
      if r in ga.rows then GaView(ga.rows[r].status, ga.rows[r].quantity) else GaView(Released, 0)
  }

  /** A reservation settles once, and keeps its units until it does. */
  predicate ClaimMoves(a: ClaimView, b: ClaimView) {
    && (a.SeatView? <==> b.SeatView?)
    && (a.status != HoldStatus.Active ==> b == a)
    && (b.status == HoldStatus.Active ==> b == a)
    && (b.status == HoldStatus.Confirmed ==> Units(b) == Units(a))
  }

  lemma ClaimEvolves(seat: SeatTables, ga: GaTables, seat': SeatTables, ga': GaTables, claim: Claim)
    requires Evolves(seat, seat') && GaEvolves(ga, ga') && ClaimExists(seat, ga, claim)
    ensures ClaimExists(seat', ga', claim)
    ensures ClaimMoves(ClaimOf(seat, ga, claim), ClaimOf(seat', ga', claim))
  {
    match claim
    case SeatClaim(h) =>
      assert HoldEvolves(seat, seat', h);
      assert |SeatsOf(seat, h)| == |SeatsOf(seat, h).Keys| && |SeatsOf(seat', h)| == |SeatsOf(seat', h).Keys|;
    case GaClaim(r) =>
      assert RowEvolves(ga.rows[r], ga'.rows[r]);
  }

  // ---------- one order, everywhere ----------

  datatype OrderView = OrderView(id: nat, order: Order, payment: Option<Payment>, charge: Option<Entry>,
                                 refund: Option<Entry>, attempt: Option<Attempt>, claim: ClaimView,
                                 events: seq<EventKind>)

  predicate WasCaptured(v: OrderView) {
    v.charge.Some? && v.charge.value.result.ok
  }

  /** Facts that hold in every phase of an order. */
  predicate Consistent(v: OrderView, price: nat) {
    && v.order.amount > 0
    && v.claim.status != Released
    && (Live(v.claim) ==> v.order.amount == price * Units(v.claim))
    && (v.claim.status == HoldStatus.Confirmed ==> v.order.status == OrderStatus.Confirmed)
    && (v.payment.Some? ==> v.payment.value.amount == v.order.amount && v.payment.value.key == PayKey(v.id))
    && (v.charge.Some? ==>
          v.charge.value.amount == v.order.amount
          && v.charge.value.result == ResultOf(PayKey(v.id), v.charge.value.result.ok))
    && (v.refund.Some? ==>
          WasCaptured(v) && v.refund.value.amount == v.order.amount && v.claim.status == HoldStatus.Expired)
  }

  /** While the payment is PENDING the provider may or may not have answered. */
  predicate AwaitingPayment(v: OrderView, p: Payment) {
    && p.pspRef == None
    && v.refund == None
    && match v.attempt
       case None => true
       case Some(Ensuring) => true
       case Some(Charging) => true
       case Some(Charged(ok)) => v.charge.Some? && v.charge.value.result.ok == ok
       case Some(_) => false
  }

  /** Once the capture is committed, a lost confirm means that the reservation had expired. */
  predicate AwaitingFinalize(v: OrderView, p: Payment) {
    && WasCaptured(v)
    && p.pspRef == Some(PayKey(v.id))
    && match v.attempt
       case None => true
       case Some(Ensuring) => true
       case Some(Finalizing) => true
       case Some(Confirming(rows)) =>
         && v.claim.SeatView? && rows != map[]
         && (v.claim == SeatView(HoldStatus.Active, rows) || v.claim.status == HoldStatus.Expired)
       case Some(Lost) => v.claim.status == HoldStatus.Expired
       case Some(Repaid) => v.claim.status == HoldStatus.Expired && v.refund.Some?
       case Some(_) => false
  }

  predicate PhaseOk(v: OrderView) {
    match v.order.status
    case PaymentPending =>
      && v.events == [] && v.order.version == 1
      && (match v.payment
          case None => v.charge == None && v.refund == None && (v.attempt == None || v.attempt == Some(Ensuring))
          case Some(p) =>
            match p.status
            case Pending => AwaitingPayment(v, p)
            case Captured => AwaitingFinalize(v, p)
            case _ => false)
    case Confirmed =>
      && v.events == [TicketConfirmed] && v.order.version == 2 && v.attempt == None
      && v.payment.Some? && v.payment.value.status == PaymentStatus.Captured && v.payment.value.pspRef == Some(PayKey(v.id))
      && WasCaptured(v) && v.refund == None && v.claim.status == HoldStatus.Confirmed
    case PaymentFailed =>
      && v.events == [] && v.order.version == 1 && v.attempt == None
      && v.payment.Some? && v.payment.value.status == Failed && v.payment.value.pspRef == None
      && v.charge.Some? && !v.charge.value.result.ok && v.refund == None
    case Compensated =>
      && v.events == [FinalizeFailed] && v.order.version == 2 && v.attempt == None
      && v.payment.Some? && v.payment.value.status == PaymentStatus.Refunded && v.payment.value.pspRef == Some(PayKey(v.id))
      && WasCaptured(v) && v.refund.Some?
    case Expired => false
  }

  predicate Sound(v: OrderView, price: nat) {
    Consistent(v, price) && PhaseOk(v)
  }

  predicate Terminal(status: OrderStatus) {
    status == OrderStatus.Confirmed || status == PaymentFailed || status == Compensated
  }

  /** What any number of steps can do to an order: results and final statuses stand for good. */
  predicate Moves(v: OrderView, v': OrderView) {
    && v'.id == v.id
    && v'.order == v.order.(status := v'.order.status, version := v'.order.version)
    && (Terminal(v.order.status) ==> v'.(claim := v.claim) == v)
    && (v.charge.Some? ==> v'.charge == v.charge)
    && (v.refund.Some? ==> v'.refund == v.refund)
    && ClaimMoves(v.claim, v'.claim)
  }

  lemma MovesTransitive(u: OrderView, v: OrderView, w: OrderView)
    requires Moves(u, v) && Moves(v, w)
    ensures Moves(u, w)
  {
  }

  /** The expiry of a reservation is sound for the order on it in every phase, whatever its payment:
      the attempt that loses by it will refund. */
  lemma ExpiryIsSound(v: OrderView, c: ClaimView, price: nat)
    requires Sound(v, price) && v.claim.status == HoldStatus.Active && c.status == HoldStatus.Expired
    requires ClaimMoves(v.claim, c)
    ensures Sound(v.(claim := c), price) && Moves(v, v.(claim := c))
  {
  }

  // ---------- the steps of one attempt, seen from its order ----------

  function NewPayment(o: nat, amount: int): Payment {
    Payment(PayKey(o), None, Pending, amount)
  }

  /** Where an attempt goes once the payment row is known and not PENDING. */
  function AfterPayment(order: Order, payment: Payment): Option<Attempt> {
    if payment.status == PaymentStatus.Refunded || order.status == OrderStatus.Confirmed then None else Some(Finalizing)
  }

  predicate Refundable(p: Payment) {
    p.status == PaymentStatus.Captured && p.pspRef != None
  }

  function Ensure(v: OrderView): OrderView {
    var p := if v.payment == None then NewPayment(v.id, v.order.amount) else v.payment.value;
    v.(payment := Some(p), attempt := if p.status == Pending then Some(Charging) else AfterPayment(v.order, p))
  }

  function Answer(v: OrderView, ok: bool): OrderView {
    var e := if v.charge == None then Entry(ResultOf(PayKey(v.id), ok), v.order.amount) else v.charge.value;
    v.(charge := Some(e), attempt := Some(Charged(e.result.ok)))
  }

  function Record(v: OrderView, ok: bool): OrderView
    requires v.payment.Some? && v.charge.Some?
  {
    if ok then
      var p := v.payment.value.(status := PaymentStatus.Captured, pspRef := v.charge.value.result.pspRef);
      v.(payment := Some(p), attempt := AfterPayment(v.order, p))
    else
      v.(payment := Some(v.payment.value.(status := Failed)), order := v.order.(status := PaymentFailed), attempt := None)
  }

  function ReadRows(v: OrderView): OrderView
    requires v.claim.SeatView?
  {
    v.(attempt := Some(if v.claim.status == HoldStatus.Active && v.claim.rows != map[] then Confirming(v.claim.rows)
                       else Lost))
  }

  function ConfirmWith(v: OrderView, claim: ClaimView): OrderView {
    v.(claim := claim, attempt := None, events := v.events + [TicketConfirmed],
       order := v.order.(status := OrderStatus.Confirmed, version := v.order.version + 1))
  }

  function Repay(v: OrderView, amount: int): OrderView
    requires v.payment.Some?
  {
    v.(attempt := Some(Repaid),
       refund := if v.refund == None then Some(Entry(ChargeResult(true, v.payment.value.pspRef), amount)) else v.refund)
  }

  function Undo(v: OrderView): OrderView
    requires v.payment.Some?
  {
    v.(attempt := None, events := v.events + [FinalizeFailed],
       order := v.order.(status := Compensated, version := v.order.version + 1),
       payment := if v.attempt == Some(Repaid) then Some(v.payment.value.(status := PaymentStatus.Refunded)) else v.payment)
  }

  lemma EnsureSound(v: OrderView, price: nat)
    requires Sound(v, price) && v.attempt == Some(Ensuring)
    ensures Sound(Ensure(v), price) && Moves(v, Ensure(v))
  {
  }

  lemma AnswerSound(v: OrderView, ok: bool, price: nat)
    requires Sound(v, price) && v.attempt == Some(Charging)
    ensures Sound(Answer(v, ok), price) && Moves(v, Answer(v, ok))
  {
  }

  lemma RecordSound(v: OrderView, ok: bool, price: nat)
    requires Sound(v, price) && v.attempt == Some(Charged(ok))
    ensures v.payment.Some? && v.charge.Some?
    ensures Sound(Record(v, ok), price) && Moves(v, Record(v, ok))
  {
  }

  lemma ReadRowsSound(v: OrderView, price: nat)
    requires Sound(v, price) && v.attempt == Some(Finalizing) && v.claim.SeatView?
    requires v.claim.status == HoldStatus.Active ==> v.claim.rows != map[]
    ensures Sound(ReadRows(v), price) && Moves(v, ReadRows(v))
  {
  }

  lemma ConfirmSound(v: OrderView, claim: ClaimView, price: nat)
    requires Sound(v, price) && (v.attempt == Some(Finalizing) || (v.attempt.Some? && v.attempt.value.Confirming?))
    requires v.claim.status == HoldStatus.Active && claim.status == HoldStatus.Confirmed && ClaimMoves(v.claim, claim)
    ensures Sound(ConfirmWith(v, claim), price) && Moves(v, ConfirmWith(v, claim))
  {
  }

  /** Confirming an active reservation together with its order is sound exactly once the capture is
      committed; in the two phases that do it, it is. */
  lemma ConfirmSoundIff(v: OrderView, claim: ClaimView, price: nat)
    requires Sound(v, price) && v.claim.status == HoldStatus.Active
    requires claim.status == HoldStatus.Confirmed && ClaimMoves(v.claim, claim)
    ensures Sound(ConfirmWith(v, claim), price) <==> v.payment.Some? && v.payment.value.status == PaymentStatus.Captured
    ensures v.attempt == Some(Finalizing) || (v.attempt.Some? && v.attempt.value.Confirming?) ==>
              Sound(ConfirmWith(v, claim), price)
  {
  }

  lemma LoseSound(v: OrderView, price: nat)
    requires Sound(v, price) && (v.attempt == Some(Finalizing) || (v.attempt.Some? && v.attempt.value.Confirming?))
    requires v.claim.status != HoldStatus.Active
    ensures Sound(v.(attempt := Some(Lost)), price) && Moves(v, v.(attempt := Some(Lost)))
  {
  }

  lemma RepaySound(v: OrderView, price: nat)
    requires Sound(v, price) && v.attempt == Some(Lost)
    ensures v.payment.Some? && Refundable(v.payment.value) && v.payment.value.pspRef == Some(PayKey(v.id))
    ensures v.charge.Some? && Sound(Repay(v, v.charge.value.amount), price) && Moves(v, Repay(v, v.charge.value.amount))
  {
  }

  lemma UndoSound(v: OrderView, price: nat)
    requires Sound(v, price) && v.attempt == Some(Repaid)
    ensures v.payment.Some? && Sound(Undo(v), price) && Moves(v, Undo(v))
  {
  }

  lemma ForgetSound(v: OrderView, price: nat)
    requires Sound(v, price)
    ensures Sound(v.(attempt := None), price) && Moves(v, v.(attempt := None))
    ensures v.attempt == None && !Terminal(v.order.status) ==>
              Sound(v.(attempt := Some(Ensuring)), price) && Moves(v, v.(attempt := Some(Ensuring)))
  {
  }
}
