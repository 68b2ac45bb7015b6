/** Conservation of money: at every point of every run the provider's net takings are the price of
    what has been sold, plus what pending orders have paid and not yet been given or refunded. */
module Money {
  import opened Collections
  import opened SeatInventory
  import opened GaInventory
  import opened PaymentProvider
  import opened OrderLife
  import opened Booking
  import opened BookingInvariant
  import opened BookingTheorems

  // ---------- the two sides of the balance ----------

  function Taken(charges: map<Key, Entry>): map<Key, int> {
    map k | k in charges :: if k in charges && charges[k].result.ok then charges[k].amount else 0
  }

  function GivenBack(refunds: map<Key, Entry>): map<Key, int> {
    map k | k in refunds :: if k in refunds then refunds[k].amount else 0
  }

  /** What the provider holds: captures less refunds. */
  ghost function Net(psp: Ledger): int {
    Total(Taken(psp.charges)) - Total(GivenBack(psp.refunds))
  }

  function SoldSeats(t: SeatTables): set<nat> {
    set i | i in t.seats && t.seats[i].status == Sold
  }

  function ConfirmedUnits(rows: map<nat, Reservation>): map<nat, int> {
    map r | r in rows :: if r in rows && rows[r].status == HoldStatus.Confirmed then rows[r].quantity else 0
  }

  ghost function TicketsSold(db: Tables): int {
    |SoldSeats(db.seat)| + Total(ConfirmedUnits(db.ga.rows))
  }

  /** Captured, not refunded, and the order still pending. */
  function InFlight(order: Order, o: nat, psp: Ledger): int {
    if && order.status == PaymentPending
       && PayKey(o) in psp.charges && psp.charges[PayKey(o)].result.ok
       && RefundKey(PayKey(o)) !in psp.refunds
    then order.amount else 0
  }

  function Flights(orders: map<nat, Order>, psp: Ledger): map<nat, int> {
    map o | o in orders :: if o in orders then InFlight(orders[o], o, psp) else 0
  }

  ghost function Flying(w: World): int {
    Total(Flights(w.db.orders, w.psp))
  }

  ghost predicate Balanced(w: World) {
    Net(w.psp) == w.price * TicketsSold(w.db) + Flying(w)
  }

  // ---------- how each side moves ----------

  lemma TakenPut(charges: map<Key, Entry>, k: Key, e: Entry)
    requires k !in charges
    ensures Total(Taken(charges[k := e])) == Total(Taken(charges)) + if e.result.ok then e.amount else 0
  {
    var v := if e.result.ok then e.amount else 0;
    TotalPut(Taken(charges), k, v);
    assert Taken(charges[k := e]) == Taken(charges)[k := v];
  }

  lemma GivenBackPut(refunds: map<Key, Entry>, k: Key, e: Entry)
    requires k !in refunds
    ensures Total(GivenBack(refunds[k := e])) == Total(GivenBack(refunds)) + e.amount
  {
    TotalPut(GivenBack(refunds), k, e.amount);
    assert GivenBack(refunds[k := e]) == GivenBack(refunds)[k := e.amount];
  }

  lemma UnitsPut(rows: map<nat, Reservation>, r: nat, row: Reservation)
    requires r in rows ==> rows[r].status != HoldStatus.Confirmed
    ensures Total(ConfirmedUnits(rows[r := row])) ==
            Total(ConfirmedUnits(rows)) + if row.status == HoldStatus.Confirmed then row.quantity else 0
  {
    var v := if row.status == HoldStatus.Confirmed then row.quantity else 0;
    TotalPut(ConfirmedUnits(rows), r, v);
    assert ConfirmedUnits(rows[r := row]) == ConfirmedUnits(rows)[r := v];
  }

  lemma SoldByConfirm(t: SeatTables, h: nat)
    requires SeatInv(t) && IsActive(t, h)
    ensures |SoldSeats(Confirm(t, h))| == |SoldSeats(t)| + |SeatsOf(t, h)|
  {
    var taken := SeatsOf(t, h).Keys;
    forall i | i in taken ensures i !in SoldSeats(t) {
      SeatInvMeaning(t, h, i);
    }
    assert SoldSeats(Confirm(t, h)) == SoldSeats(t) + taken;
  }

  lemma SoldUnaffected(t: SeatTables, t': SeatTables)
    requires t'.seats.Keys == t.seats.Keys
    requires forall i :: i in t.seats ==> (t'.seats[i].status == Sold <==> t.seats[i].status == Sold)
    ensures SoldSeats(t') == SoldSeats(t)
  {
  }

  /** The entries of other orders depend on nothing this order writes. */
  predicate OnlyFlight(w: World, w': World, o: nat)
    requires o in w.db.orders
  {
    && w'.db.orders.Keys == w.db.orders.Keys
    && forall p :: p in w.db.orders && p != o ==>
         InFlight(w'.db.orders[p], p, w'.psp) == InFlight(w.db.orders[p], p, w.psp)
  }

  lemma FlightsMove(w: World, w': World, o: nat)
    requires o in w.db.orders && OnlyFlight(w, w', o)
    ensures Flying(w') == Flying(w) - InFlight(w.db.orders[o], o, w.psp) + InFlight(w'.db.orders[o], o, w'.psp)
  {
    var before, after := Flights(w.db.orders, w.psp), Flights(w'.db.orders, w'.psp);
    var mine := InFlight(w'.db.orders[o], o, w'.psp);
    assert after == before[o := mine];
    TotalPut(before, o, mine);
  }

  // ---------- step by step ----------

  /** By how much a step moves the provider's net, the tickets sold and the money in flight. */
  ghost predicate Shifts(w: World, w': World, net: int, sold: int, flying: int) {
    && w'.price == w.price
    && Net(w'.psp) == Net(w.psp) + net
    && TicketsSold(w'.db) == TicketsSold(w.db) + sold
    && Flying(w') == Flying(w) + flying
  }

  lemma ShiftBalances(w: World, w': World, net: int, sold: int, flying: int)
    requires Balanced(w) && Shifts(w, w', net, sold, flying) && net == w.price * sold + flying
    ensures Balanced(w')
  {
    Distribute(w.price, TicketsSold(w.db), sold);
  }

  lemma Distribute(price: nat, sold: int, more: int)
    ensures price * (sold + more) == price * sold + price * more
  {
  }

  lemma ReserveShifts(w: World, w': World, h: nat, row: Hold, ids: set<nat>)
    requires Reservable(w.db.seat, h, row.matchId, ids, row.key)
    requires w' == w.(db := w.db.(seat := Reserve(w.db.seat, h, row, ids)))
    ensures Shifts(w, w', 0, 0, 0)
  {
    SoldUnaffected(w.db.seat, w'.db.seat);
  }

  lemma ClaimShifts(w: World, w': World, r: nat, row: Reservation)
    requires Insertable(w.db.ga, r, row) && row.matchId in w.db.ga.pools
    requires w' == w.(db := w.db.(ga := GaInventory.Claim(w.db.ga, r, row)))
    ensures Shifts(w, w', 0, 0, 0)
  {
    UnitsPut(w.db.ga.rows, r, row);
  }

  lemma ExpireHoldShifts(w: World, w': World, h: nat)
    requires SeatInv(w.db.seat) && IsActive(w.db.seat, h)
    requires w' == w.(db := w.db.(seat := Release(w.db.seat, h)))
    ensures Shifts(w, w', 0, 0, 0)
  {
    forall i | i in w.db.seat.seats
      ensures w'.db.seat.seats[i].status == Sold <==> w.db.seat.seats[i].status == Sold
    {
      if HeldBy(w.db.seat, i, h) { SeatInvMeaning(w.db.seat, h, i); }
    }
    SoldUnaffected(w.db.seat, w'.db.seat);
  }

  lemma ExpireGaShifts(w: World, w': World, r: nat)
    requires IsLive(w.db.ga, r) && w.db.ga.rows[r].matchId in w.db.ga.pools
    requires w' == w.(db := w.db.(ga := ReleaseGa(w.db.ga, r)))
    ensures Shifts(w, w', 0, 0, 0)
  {
    UnitsPut(w.db.ga.rows, r, w'.db.ga.rows[r]);
  }

  lemma NewOrderShifts(w: World, w': World, q: nat, o: nat)
    requires o !in w.db.orders && PayKey(o) !in w.psp.charges && q in w.quotes && w' == WithOrder(w, q, o)
    ensures Shifts(w, w', 0, 0, 0)
  {
    var before := Flights(w.db.orders, w.psp);
    assert Flights(w'.db.orders, w'.psp) == before[o := 0];
    TotalPut(before, o, 0);
  }

  lemma ChargeShifts(w: World, o: nat, ok: bool)
    requires o in w.db.orders && w.db.orders[o].status == PaymentPending && RefundKey(PayKey(o)) !in w.psp.refunds
    ensures var paid := if PayKey(o) !in w.psp.charges && ok then w.db.orders[o].amount else 0;
            Shifts(w, Answered(w, o, ok), paid, 0, paid)
  {
    var w' := Answered(w, o, ok);
    FlightsMove(w, w', o);
    if PayKey(o) !in w.psp.charges {
      TakenPut(w.psp.charges, PayKey(o), w'.psp.charges[PayKey(o)]);
    }
  }

  /** Recording the answer moves nothing: a decline was never in flight, a capture stays in flight. */
  lemma RecordShifts(w: World, o: nat)
    requires o in w.db.orders && o in w.db.payments && o in w.attempts && w.attempts[o].Charged?
    requires PayKey(o) in w.psp.charges && w.psp.charges[PayKey(o)].result.ok == w.attempts[o].ok
    ensures Shifts(w, Recorded(w, o), 0, 0, 0)
  {
    FlightsMove(w, Recorded(w, o), o);
  }

  lemma RefundShifts(w: World, o: nat)
    requires o in w.db.orders && w.db.orders[o].status == PaymentPending && o in w.db.payments
    requires w.db.payments[o].key == PayKey(o) && w.db.payments[o].pspRef == Some(PayKey(o))
    requires PayKey(o) in w.psp.charges && w.psp.charges[PayKey(o)].result.ok
    requires w.psp.charges[PayKey(o)].amount == w.db.orders[o].amount
    ensures var back := if RefundKey(PayKey(o)) !in w.psp.refunds then w.db.orders[o].amount else 0;
            Shifts(w, CardRefunded(w, o), -back, 0, -back)
  {
    var w' := CardRefunded(w, o);
    FlightsMove(w, w', o);
    var k := RefundKey(PayKey(o));
    if k !in w.psp.refunds {
      GivenBackPut(w.psp.refunds, k, w'.psp.refunds[k]);
    }
  }

  lemma UndoShifts(w: World, o: nat)
    requires o in w.db.orders && o in w.db.payments && o in w.attempts && RefundKey(PayKey(o)) in w.psp.refunds
    ensures Shifts(w, Undone(w, o), 0, 0, 0)
  {
    FlightsMove(w, Undone(w, o), o);
  }

  lemma ConfirmLands(w: World, w': World, o: nat)
    requires o in w.db.orders && w'.psp == w.psp && w'.db.orders == ConfirmOrder(w.db, o, w.now).orders
    ensures Flying(w') == Flying(w) - InFlight(w.db.orders[o], o, w.psp)
  {
    FlightsMove(w, w', o);
  }

  /** A confirm takes the money of its order out of flight, and turns it into tickets. */
  lemma SeatConfirmShifts(w: World, w': World, o: nat, h: nat)
    requires o in w.db.orders && SeatInv(w.db.seat) && IsActive(w.db.seat, h)
    requires w' == Goes(w.(db := ConfirmOrder(w.db.(seat := Confirm(w.db.seat, h)), o, w.now)), o, None)
    ensures Shifts(w, w', 0, |SeatsOf(w.db.seat, h)|, -InFlight(w.db.orders[o], o, w.psp))
  {
    ConfirmLands(w, w', o);
    SoldByConfirm(w.db.seat, h);
  }

  lemma UnitsConfirmShifts(w: World, w': World, o: nat, r: nat)
    requires o in w.db.orders && IsLive(w.db.ga, r)
    requires w' == Goes(w.(db := ConfirmOrder(w.db.(ga := ConfirmGa(w.db.ga, r)), o, w.now)), o, None)
    ensures Shifts(w, w', 0, w.db.ga.rows[r].quantity, -InFlight(w.db.orders[o], o, w.psp))
  {
    ConfirmLands(w, w', o);
    UnitsPut(w.db.ga.rows, r, w'.db.ga.rows[r]);
  }

  /** What is in flight for an order about to be confirmed is the price of its tickets. */
  lemma ConfirmedInFlight(w: World, o: nat)
    requires o in w.db.orders && Sound(View(w, o), w.price)
    requires Reserved(w.db, w.db.orders[o].claim).status == HoldStatus.Active
    requires o in w.attempts && (w.attempts[o].Finalizing? || w.attempts[o].Confirming?)
    ensures InFlight(w.db.orders[o], o, w.psp) == w.price * Units(Reserved(w.db, w.db.orders[o].claim))
  {
  }

  lemma WriteConfirmShifts(w: World, o: nat) returns (sold: int)
    requires Inv(w) && Enabled(w, WriteConfirm(o))
    ensures Shifts(w, Apply(w, WriteConfirm(o)), 0, sold, -(w.price * sold))
  {
    assert Sound(View(w, o), w.price);
    ConfirmWinsIff(w, o, w.attempts[o].rows);
    var h := w.db.orders[o].claim.hold;
    sold := 0;
    if IsActive(w.db.seat, h) {
      ConfirmedInFlight(w, o);
      SeatConfirmShifts(w, SeatsConfirmed(w, o, w.attempts[o].rows), o, h);
      sold := |SeatsOf(w.db.seat, h)|;
    }
  }

  lemma ConfirmUnitsShifts(w: World, o: nat) returns (sold: int)
    requires Inv(w) && Enabled(w, ConfirmUnits(o))
    ensures Shifts(w, Apply(w, ConfirmUnits(o)), 0, sold, -(w.price * sold))
  {
    assert Sound(View(w, o), w.price) && Exists(w.db, w.db.orders[o].claim);
    var r := w.db.orders[o].claim.reservation;
    sold := 0;
    if IsLive(w.db.ga, r) {
      ConfirmedInFlight(w, o);
      UnitsConfirmShifts(w, UnitsConfirmed(w, o), o, r);
      sold := w.db.ga.rows[r].quantity;
    }
  }

  /** Steps that write no order row, no inventory and no ledger entry. */
  lemma NothingShifts(w: World, w': World)
    requires w'.price == w.price && w'.db.orders == w.db.orders && w'.psp == w.psp
    requires w'.db.seat == w.db.seat && w'.db.ga == w.db.ga
    ensures Shifts(w, w', 0, 0, 0)
  {
  }

  lemma ProviderShifts(w: World, s: Step) returns (moved: int)
    requires Inv(w) && Enabled(w, s) && (s.ChargeCard? || s.RefundCard?)
    ensures Shifts(w, Apply(w, s), moved, 0, moved)
  {
    var o := s.order;
    assert Sound(View(w, o), w.price);
    if s.ChargeCard? {
      ChargeShifts(w, o, s.ok);
      moved := if PayKey(o) !in w.psp.charges && s.ok then w.db.orders[o].amount else 0;
    } else {
      RepaySound(View(w, o), w.price);
      RefundShifts(w, o);
      moved := if RefundKey(PayKey(o)) !in w.psp.refunds then -w.db.orders[o].amount else 0;
    }
  }

  lemma RecordingShifts(w: World, s: Step)
    requires Inv(w) && Enabled(w, s) && (s.RecordCharge? || s.Compensate?)
    ensures Shifts(w, Apply(w, s), 0, 0, 0)
  {
    var o := s.order;
    assert Sound(View(w, o), w.price);
    if s.RecordCharge? {
      RecordShifts(w, o);
    } else {
      if At(w, o, Lost) { RepaySound(View(w, o), w.price); }
      UndoShifts(w, o);
    }
  }

  lemma InventoryShifts(w: World, s: Step)
    requires Inv(w) && Enabled(w, s)
    requires s.ReserveSeats? || s.ClaimUnits? || s.ExpireHold? || s.ExpireGa? || s.CreateOrder?
    ensures Shifts(w, Apply(w, s), 0, 0, 0)
  {
    var w' := Apply(w, s);
    match s
    case ReserveSeats(h, row, ids) => ReserveShifts(w, w', h, row, ids);
    case ClaimUnits(r, row, _) => ClaimShifts(w, w', r, row);
    case ExpireHold(h) => ExpireHoldShifts(w, w', h);
    case ExpireGa(r, _) => ExpireGaShifts(w, w', r);
    case CreateOrder(q, o) => NewOrderShifts(w, w', q, o);
  }

  /** The steps that move no money, sell nothing and charge nobody. */
  predicate Quiet(s: Step) {
    s.TakeQuote? || s.DropQuote? || s.Replay? || s.EnsurePayment? || s.ReadForConfirm? || s.Crash? || s.Publish? || s.Advance?
  }

  lemma QuietShifts(w: World, s: Step)
    requires Enabled(w, s) && Quiet(s)
    ensures Shifts(w, Apply(w, s), 0, 0, 0)
  {
    NothingShifts(w, Apply(w, s));
  }

  /** A confirm: the provider keeps what it has, and the money of the order turns into tickets. */
  lemma ConfirmBalances(w: World, s: Step)
    requires Inv(w) && Enabled(w, s) && Balanced(w) && (s.WriteConfirm? || s.ConfirmUnits?)
    ensures Balanced(Apply(w, s))
  {
    var sold: int;
    if s.WriteConfirm? {
      sold := WriteConfirmShifts(w, s.order);
    } else {
      sold := ConfirmUnitsShifts(w, s.order);
    }
    ShiftBalances(w, Apply(w, s), 0, sold, -(w.price * sold));
  }

  /** A charge or a refund: what the provider gains or gives back is what is in flight. */
  lemma ProviderBalances(w: World, s: Step)
    requires Inv(w) && Enabled(w, s) && Balanced(w) && (s.ChargeCard? || s.RefundCard?)
    ensures Balanced(Apply(w, s))
  {
    var moved := ProviderShifts(w, s);
    ShiftBalances(w, Apply(w, s), moved, 0, moved);
  }

  lemma UnshiftedBalances(w: World, w': World)
    requires Balanced(w) && Shifts(w, w', 0, 0, 0)
    ensures Balanced(w')
  {
  }

  /** Every step balances: what the provider gains is the price of what is sold plus what is now in
      flight. */
  lemma StepBalances(w: World, s: Step)
    requires Inv(w) && Enabled(w, s) && Balanced(w)
    ensures Balanced(Apply(w, s))
  {
    if s.WriteConfirm? || s.ConfirmUnits? {
      ConfirmBalances(w, s);
    } else if s.ChargeCard? || s.RefundCard? {
      ProviderBalances(w, s);
    } else {
      if s.RecordCharge? || s.Compensate? {
        RecordingShifts(w, s);
      } else if Quiet(s) {
        QuietShifts(w, s);
      } else {
        InventoryShifts(w, s);
      }
      UnshiftedBalances(w, Apply(w, s));
    }
  }

  lemma NothingTaken(psp: Ledger)
    requires psp.charges == map[] && psp.refunds == map[]
    ensures Net(psp) == 0
  {
    assert Taken(psp.charges) == map[] && GivenBack(psp.refunds) == map[];
  }

  lemma NothingSold(db: Tables)
    requires db.ga.rows == map[] && SoldSeats(db.seat) == {}
    ensures TicketsSold(db) == 0
  {
    assert ConfirmedUnits(db.ga.rows) == map[];
  }

  lemma NobodyFlying(w: World)
    requires w.db.orders == map[]
    ensures Flying(w) == 0
  {
    assert Flights(w.db.orders, w.psp) == map[];
  }

  lemma NothingBalances(w: World)
    requires Net(w.psp) == 0 && TicketsSold(w.db) == 0 && Flying(w) == 0
    ensures Balanced(w)
  {
    Distribute(w.price, 0, 0);
  }

  lemma InitialBalanced(w: World)
    requires Initial(w)
    ensures Balanced(w)
  {
    assert SoldSeats(w.db.seat) == {};
    NothingTaken(w.psp);
    NothingSold(w.db);
    NobodyFlying(w);
    NothingBalances(w);
  }

  lemma StepOfRunBalances(ws: seq<World>, steps: seq<Step>, i: nat, w: World, w': World)
    requires Run(ws, steps) && i < |steps| && w == ws[i] && w' == ws[i + 1] && Balanced(w)
    ensures Balanced(w')
  {
    RunInv(ws, steps, i);
    StepBalances(w, steps[i]);
  }

  lemma {:induction false} RunBalanced(ws: seq<World>, steps: seq<Step>, i: nat, w: World)
    requires Run(ws, steps) && i < |ws| && w == ws[i]
    ensures Balanced(w)
  {
    if i == 0 {
      InitialBalanced(w);
    } else {
      RunBalanced(ws, steps, i - 1, ws[i - 1]);
      StepOfRunBalances(ws, steps, i - 1, ws[i - 1], w);
    }
  }

  /** Money is conserved over every run. */
  lemma MoneyConserved(ws: seq<World>, steps: seq<Step>, i: nat)
    requires Run(ws, steps) && i < |ws|
    ensures Net(ws[i].psp) == ws[i].price * TicketsSold(ws[i].db) + Flying(ws[i])
  {
    RunBalanced(ws, steps, i, ws[i]);
  }
}
