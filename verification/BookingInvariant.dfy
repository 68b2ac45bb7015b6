/** Every step of the booking system keeps its invariant, and moves each order only forward. */
module BookingInvariant {
  import opened Collections
  import opened SeatInventory
  import opened GaInventory
  import opened PaymentProvider
  import opened OrderLife
  import opened Booking

  lemma KindsAppend(outbox: seq<Event>, e: Event, o: nat)
    ensures Kinds(outbox + [e], o) == Kinds(outbox, o) + if e.aggregate == o then [e.kind] else []
  {
    assert (outbox + [e])[..|outbox|] == outbox;
  }

  lemma {:induction false} KindsStamped(outbox: seq<Event>, ids: set<nat>, at: int, o: nat)
    ensures Kinds(Stamped(outbox, ids, at), o) == Kinds(outbox, o)
  {
    if outbox != [] {
      var n := |outbox| - 1;
      KindsStamped(outbox[..n], ids, at, o);
      assert Stamped(outbox, ids, at)[..n] == Stamped(outbox[..n], ids, at);
    }
  }

  lemma {:induction false} KindsOfStranger(outbox: seq<Event>, o: nat)
    requires forall i :: 0 <= i < |outbox| ==> outbox[i].aggregate != o
    ensures Kinds(outbox, o) == []
  {
    if outbox != [] { KindsOfStranger(outbox[..|outbox| - 1], o); }
  }

  lemma QuotesKept(w: World, w': World)
    requires QuotesOk(w) && w'.price == w.price && w'.quotes == w.quotes
    requires Evolves(w.db.seat, w'.db.seat) && GaEvolves(w.db.ga, w'.db.ga)
    ensures QuotesOk(w')
  {
    forall q | q in w'.quotes ensures QuoteOk(w', w'.quotes[q]) {
      assert QuoteOk(w, w.quotes[q]);
      var claim := w.quotes[q].claim;
      ClaimEvolves(w.db.seat, w.db.ga, w'.db.seat, w'.db.ga, claim);
      var c, c' := Reserved(w.db, claim), Reserved(w'.db, claim);
      if Live(c') { assert Live(c) && Units(c') == Units(c); }
    }
  }

  // ---------- steps that write inventory and nothing else ----------

  /** The reservation behind an order is untouched, or expires. */
  predicate KeptOrExpired(w: World, w': World, o: nat)
    requires o in w.db.orders
  {
    var claim := w.db.orders[o].claim;
    var c, c' := Reserved(w.db, claim), Reserved(w'.db, claim);
    || c' == c
    || (c.status == HoldStatus.Active && c'.status == HoldStatus.Expired)
  }

  predicate SameOrders(w: World, w': World) {
    w' == w.(db := w.db.(seat := w'.db.seat, ga := w'.db.ga))
  }

  lemma InventoryLinked(w: World, w': World)
    requires Linked(w) && SameOrders(w, w')
    requires Evolves(w.db.seat, w'.db.seat) && GaEvolves(w.db.ga, w'.db.ga)
    requires ConfirmedOwned(w'.db)
    ensures Linked(w')
  {
    forall o | o in w'.db.orders ensures Exists(w'.db, w'.db.orders[o].claim) {
      assert Exists(w.db, w.db.orders[o].claim);
      ClaimEvolves(w.db.seat, w.db.ga, w'.db.seat, w'.db.ga, w.db.orders[o].claim);
    }
  }

  lemma InventoryStep(w: World, w': World)
    requires Inv(w) && InventoryMoves(w, w') && GaInv(w'.db.ga)
    ensures Inv(w') && Progress(w, w')
  {
    QuotesKept(w, w');
    forall o | o in w.db.orders ensures Sound(View(w', o), w'.price) && Moves(View(w, o), View(w', o)) {
      var v := View(w, o);
      var c := Reserved(w'.db, w.db.orders[o].claim);
      assert Sound(v, w.price);
      assert View(w', o) == v.(claim := c);
      ClaimEvolves(w.db.seat, w.db.ga, w'.db.seat, w'.db.ga, w.db.orders[o].claim);
      assert KeptOrExpired(w, w', o);
      if c != v.claim {
        ExpiryIsSound(v, c, w.price);
      }
    }
  }

  /** Nothing newly confirmed, nothing to own. */
  lemma OwnedKept(w: World, w': World)
    requires ConfirmedOwned(w.db) && w'.db.orders == w.db.orders
    requires forall h :: h in w'.db.seat.holds && w'.db.seat.holds[h].status == HoldStatus.Confirmed ==>
      h in w.db.seat.holds && w.db.seat.holds[h].status == HoldStatus.Confirmed
    requires forall r :: r in w'.db.ga.rows && w'.db.ga.rows[r].status == HoldStatus.Confirmed ==>
      r in w.db.ga.rows && w.db.ga.rows[r].status == HoldStatus.Confirmed
    ensures ConfirmedOwned(w'.db)
  {
    forall h | h in w'.db.seat.holds && w'.db.seat.holds[h].status == HoldStatus.Confirmed
      ensures Owned(w'.db, SeatClaim(h))
    {
      assert Owned(w.db, SeatClaim(h));
    }
    forall r | r in w'.db.ga.rows && w'.db.ga.rows[r].status == HoldStatus.Confirmed
      ensures Owned(w'.db, GaClaim(r))
    {
      assert Owned(w.db, GaClaim(r));
    }
  }

  /** What the four inventory steps have to show. */
  predicate InventoryMoves(w: World, w': World) {
    && SameOrders(w, w')
    && SeatInv(w'.db.seat)
    && Evolves(w.db.seat, w'.db.seat) && GaEvolves(w.db.ga, w'.db.ga)
    && Linked(w')
    && forall o :: o in w.db.orders ==> KeptOrExpired(w, w', o)
  }

  lemma ReserveSeatsMoves(w: World, w': World, h: nat, row: Hold, ids: set<nat>)
    requires SeatInv(w.db.seat) && Linked(w)
    requires row.status == HoldStatus.Active && Reservable(w.db.seat, h, row.matchId, ids, row.key)
    requires w' == w.(db := w.db.(seat := Reserve(w.db.seat, h, row, ids)))
    ensures InventoryMoves(w, w')
  {
    ReservePreserves(w.db.seat, h, row, ids);
    ReserveEvolves(w.db.seat, h, row, ids);
    OwnedKept(w, w');
    InventoryLinked(w, w');
    forall o | o in w.db.orders ensures KeptOrExpired(w, w', o) {
      var claim := w.db.orders[o].claim;
      assert Exists(w.db, claim);
      if claim.SeatClaim? { RowsAfterReserve(w.db.seat, h, row, ids, claim.hold); }
    }
  }

  lemma ExpireHoldMoves(w: World, w': World, h: nat)
    requires SeatInv(w.db.seat) && Linked(w)
    requires IsActive(w.db.seat, h)
    requires w' == w.(db := w.db.(seat := Release(w.db.seat, h)))
    ensures InventoryMoves(w, w')
  {
    ReleasePreserves(w.db.seat, h);
    ReleaseEvolves(w.db.seat, h);
    OwnedKept(w, w');
    InventoryLinked(w, w');
    forall o | o in w.db.orders ensures KeptOrExpired(w, w', o) {
      if w.db.orders[o].claim.SeatClaim? {
        RowsAfterRelease(w.db.seat, h, w.db.orders[o].claim.hold);
      }
    }
  }

  lemma GaMoves(w: World, w': World)
    requires SeatInv(w.db.seat) && Linked(w)
    requires w' == w.(db := w.db.(ga := w'.db.ga)) && GaEvolves(w.db.ga, w'.db.ga)
    requires forall r :: r in w'.db.ga.rows && w'.db.ga.rows[r].status == HoldStatus.Confirmed ==>
      r in w.db.ga.rows && w.db.ga.rows[r].status == HoldStatus.Confirmed
    requires forall r :: r in w.db.ga.rows ==>
      || w'.db.ga.rows[r] == w.db.ga.rows[r]
      || (w.db.ga.rows[r].status == HoldStatus.Active && w'.db.ga.rows[r].status == HoldStatus.Expired)
    ensures InventoryMoves(w, w')
  {
    EvolvesReflexive(w.db.seat);
    OwnedKept(w, w');
    InventoryLinked(w, w');
    forall o | o in w.db.orders ensures KeptOrExpired(w, w', o) {
      assert Exists(w.db, w.db.orders[o].claim);
    }
  }

  lemma ReserveSeatsKeeps(w: World, w': World, h: nat, row: Hold, ids: set<nat>)
    requires Inv(w) && row.status == HoldStatus.Active && Reservable(w.db.seat, h, row.matchId, ids, row.key)
    requires w' == w.(db := w.db.(seat := Reserve(w.db.seat, h, row, ids)))
    ensures Inv(w') && Progress(w, w')
  {
    ReserveSeatsMoves(w, w', h, row, ids);
    InventoryStep(w, w');
  }

  lemma ExpireHoldKeeps(w: World, w': World, h: nat)
    requires Inv(w) && IsActive(w.db.seat, h)
    requires w' == w.(db := w.db.(seat := Release(w.db.seat, h)))
    ensures Inv(w') && Progress(w, w')
  {
    ExpireHoldMoves(w, w', h);
    InventoryStep(w, w');
  }

  lemma ClaimUnitsKeeps(w: World, w': World, r: nat, row: Reservation, snapshot: Option<Pool>)
    requires Inv(w) && Insertable(w.db.ga, r, row)
    requires Outcome(w.db.ga.pools, snapshot, row.matchId, row.quantity) == Claimed
    requires w' == w.(db := w.db.(ga := GaInventory.Claim(w.db.ga, r, row)))
    ensures Inv(w') && Progress(w, w')
  {
    ClaimPreserves(w.db.ga, snapshot, r, row);
    GaMoves(w, w');
    InventoryStep(w, w');
  }

  lemma ExpireGaKeeps(w: World, w': World, r: nat)
    requires Inv(w) && IsLive(w.db.ga, r)
    requires w.db.ga.rows[r].matchId in w.db.ga.pools
    requires w' == w.(db := w.db.(ga := ReleaseGa(w.db.ga, r)))
    ensures Inv(w') && Progress(w, w')
  {
    ReleaseGaPreserves(w.db.ga, r);
    GaMoves(w, w');
    InventoryStep(w, w');
  }

  // ---------- steps of one checkout attempt ----------

  /** Besides inventory, only the rows, the ledger entries and the attempt of one order change. */
  predicate OnlyOrder(w: World, w': World, o: nat)
    requires o in w.db.orders
  {
    && w'.price == w.price && w'.quotes == w.quotes
    && w'.db.orders.Keys == w.db.orders.Keys
    && w'.db.orders[o] == w.db.orders[o].(status := w'.db.orders[o].status, version := w'.db.orders[o].version)
    && (forall p :: p in w.db.orders && p != o ==> SameElsewhere(w, w', p))
    && w'.db.payments.Keys <= w.db.orders.Keys
    && w'.attempts.Keys <= w.db.orders.Keys
    && ProviderKeys(w.db.orders, w'.psp)
    && (w'.db.outbox == w.db.outbox || AppendedFor(w.db.outbox, w'.db.outbox, o))
  }

  predicate SameElsewhere(w: World, w': World, p: nat)
    requires p in w.db.orders && p in w'.db.orders
  {
    && w'.db.orders[p] == w.db.orders[p]
    && Get(w'.db.payments, p) == Get(w.db.payments, p)
    && Get(w'.attempts, p) == Get(w.attempts, p)
    && GetKey(w'.psp.charges, PayKey(p)) == GetKey(w.psp.charges, PayKey(p))
    && GetKey(w'.psp.refunds, RefundKey(PayKey(p))) == GetKey(w.psp.refunds, RefundKey(PayKey(p)))
  }

  predicate AppendedFor(before: seq<Event>, after: seq<Event>, o: nat) {
    |after| == |before| + 1 && after == before + [after[|before|]] && after[|before|].aggregate == o
  }

  predicate SameClaim(w: World, w': World, p: nat)
    requires p in w.db.orders
  {
    Reserved(w'.db, w.db.orders[p].claim) == Reserved(w.db, w.db.orders[p].claim)
  }

  lemma OrderLinked(w: World, w': World, o: nat)
    requires Linked(w) && o in w.db.orders && OnlyOrder(w, w', o)
    requires Evolves(w.db.seat, w'.db.seat) && GaEvolves(w.db.ga, w'.db.ga)
    requires ConfirmedOwned(w'.db)
    ensures Linked(w')
  {
    forall p | p in w'.db.orders ensures Exists(w'.db, w'.db.orders[p].claim) {
      assert Exists(w.db, w.db.orders[p].claim);
      ClaimEvolves(w.db.seat, w.db.ga, w'.db.seat, w'.db.ga, w.db.orders[p].claim);
      assert p != o ==> SameElsewhere(w, w', p);
    }
    OneOrderKept(w, w', o);
  }

  lemma OneOrderKept(w: World, w': World, o: nat)
    requires OneOrderEach(w.db.orders) && o in w.db.orders && OnlyOrder(w, w', o)
    ensures OneOrderEach(w'.db.orders)
  {
    forall p | p in w'.db.orders
      ensures w'.db.orders[p].claim == w.db.orders[p].claim && w'.db.orders[p].key == w.db.orders[p].key
    {
      assert p != o ==> SameElsewhere(w, w', p);
    }
  }

  lemma OrderStep(w: World, w': World, o: nat)
    requires Inv(w) && o in w.db.orders && OnlyOrder(w, w', o) && Linked(w')
    requires SeatInv(w'.db.seat) && GaInv(w'.db.ga) && LedgerInv(w'.psp)
    requires Evolves(w.db.seat, w'.db.seat) && GaEvolves(w.db.ga, w'.db.ga)
    requires forall p :: p in w.db.orders && p != o ==> SameClaim(w, w', p)
    requires Sound(View(w', o), w.price) && Moves(View(w, o), View(w', o))
    ensures Inv(w') && Progress(w, w')
  {
    QuotesKept(w, w');
    forall p | p in w.db.orders ensures Sound(View(w', p), w.price) && Moves(View(w, p), View(w', p)) {
      if p != o {
        assert SameElsewhere(w, w', p) && SameClaim(w, w', p);
        if w'.db.outbox != w.db.outbox { KindsAppend(w.db.outbox, w'.db.outbox[|w.db.outbox|], p); }
        assert View(w', p) == View(w, p);
        assert Sound(View(w, p), w.price);
      }
    }
  }

  lemma QuietStep(w: World, w': World, o: nat)
    requires Inv(w) && o in w.db.orders && OnlyOrder(w, w', o)
    requires w'.db.seat == w.db.seat && w'.db.ga == w.db.ga && LedgerInv(w'.psp)
    requires Sound(View(w', o), w.price) && Moves(View(w, o), View(w', o))
    ensures Inv(w') && Progress(w, w')
  {
    EvolvesReflexive(w.db.seat);
    OwnedByKept(w, w', o);
    OrderLinked(w, w', o);
    forall p | p in w.db.orders && p != o ensures SameClaim(w, w', p) {
    }
    OrderStep(w, w', o);
  }

  /** Orders keep their claims, so what was owned stays owned. */
  lemma OwnedByKept(w: World, w': World, o: nat)
    requires Linked(w) && o in w.db.orders && OnlyOrder(w, w', o)
    requires w'.db.seat == w.db.seat && w'.db.ga == w.db.ga
    ensures ConfirmedOwned(w'.db)
  {
    forall claim | Owned(w.db, claim) ensures Owned(w'.db, claim) {
      OwnedStays(w, w', o, claim);
    }
  }

  lemma OwnedStays(w: World, w': World, o: nat, claim: Claim)
    requires o in w.db.orders && OnlyOrder(w, w', o) && Owned(w.db, claim)
    ensures Owned(w'.db, claim)
  {
    var p :| p in w.db.orders && w.db.orders[p].claim == claim;
    assert p != o ==> SameElsewhere(w, w', p);
    assert p in w'.db.orders && w'.db.orders[p].claim == claim;
  }

  /** What lets the frame conditions below be checked. */
  predicate Keyed(w: World, o: nat) {
    && o in w.db.orders
    && w.db.payments.Keys <= w.db.orders.Keys && w.attempts.Keys <= w.db.orders.Keys
    && ProviderKeys(w.db.orders, w.psp)
  }

  lemma GoesFrame(w: World, o: nat, next: Option<Attempt>)
    requires Keyed(w, o)
    ensures OnlyOrder(w, Goes(w, o, next), o)
    ensures View(Goes(w, o, next), o) == View(w, o).(attempt := next)
  {
  }

  lemma EnsuredFrame(w: World, o: nat)
    requires Keyed(w, o)
    ensures OnlyOrder(w, Ensured(w, o), o)
    ensures View(Ensured(w, o), o) == Ensure(View(w, o))
  {
  }

  lemma AnsweredFrame(w: World, o: nat, ok: bool)
    requires Keyed(w, o)
    ensures OnlyOrder(w, Answered(w, o, ok), o)
    ensures View(Answered(w, o, ok), o) == Answer(View(w, o), ok)
  {
  }

  lemma RecordedFrame(w: World, o: nat)
    requires Keyed(w, o) && o in w.db.payments && PayKey(o) in w.psp.charges && o in w.attempts && w.attempts[o].Charged?
    ensures OnlyOrder(w, Recorded(w, o), o)
    ensures View(Recorded(w, o), o) == Record(View(w, o), w.attempts[o].ok)
  {
  }

  lemma RowsReadFrame(w: World, o: nat)
    requires Keyed(w, o) && w.db.orders[o].claim.SeatClaim? && Exists(w.db, w.db.orders[o].claim)
    ensures OnlyOrder(w, RowsRead(w, o), o)
    ensures View(RowsRead(w, o), o) == ReadRows(View(w, o))
  {
  }

  lemma CardRefundedFrame(w: World, o: nat)
    requires Keyed(w, o) && o in w.db.payments
    requires w.db.payments[o].pspRef == Some(PayKey(o)) && w.db.payments[o].key == PayKey(o)
    ensures OnlyOrder(w, CardRefunded(w, o), o)
    ensures View(CardRefunded(w, o), o) == Repay(View(w, o), CapturedAmount(w.psp, PayKey(o)))
  {
  }

  lemma UndoneFrame(w: World, o: nat)
    requires Keyed(w, o) && o in w.db.payments && o in w.attempts
    ensures OnlyOrder(w, Undone(w, o), o)
    ensures View(Undone(w, o), o) == Undo(View(w, o))
  {
    UndoneRows(w, o);
    KindsAppend(w.db.outbox, Event(o, FinalizeFailed, w.now, None), o);
  }

  lemma UndoneRows(w: World, o: nat)
    requires Keyed(w, o) && o in w.db.payments && o in w.attempts
    ensures OnlyOrder(w, Undone(w, o), o)
  {
    var w' := Undone(w, o);
    assert AppendedFor(w.db.outbox, w'.db.outbox, o);
    forall p | p in w.db.orders && p != o ensures SameElsewhere(w, w', p) {}
  }

  // ---------- each of those steps keeps the invariant ----------

  lemma AttemptKeeps(w: World, w': World, o: nat, next: Option<Attempt>)
    requires Inv(w) && o in w.db.orders && w' == Goes(w, o, next)
    requires var v := View(w, o).(attempt := next); Sound(v, w.price) && Moves(View(w, o), v)
    ensures Inv(w') && Progress(w, w')
  {
    GoesFrame(w, o, next);
    QuietStep(w, w', o);
  }

  lemma EnsurePaymentKeeps(w: World, w': World, o: nat)
    requires Inv(w) && At(w, o, Ensuring) && w' == Ensured(w, o)
    ensures Inv(w') && Progress(w, w')
  {
    EnsuredFrame(w, o);
    EnsureSound(View(w, o), w.price);
    QuietStep(w, w', o);
  }

  lemma ChargeCardKeeps(w: World, w': World, o: nat, ok: bool)
    requires Inv(w) && At(w, o, Charging) && w' == Answered(w, o, ok)
    ensures Inv(w') && Progress(w, w')
  {
    AnsweredFrame(w, o, ok);
    AnswerSound(View(w, o), ok, w.price);
    ChargeKeepsBooks(w.psp, PayKey(o), w.db.orders[o].amount, ok);
    QuietStep(w, w', o);
  }

  lemma RecordChargeKeeps(w: World, w': World, o: nat, ok: bool)
    requires Inv(w) && At(w, o, Charged(ok)) && o in w.db.payments && PayKey(o) in w.psp.charges && w' == Recorded(w, o)
    ensures Inv(w') && Progress(w, w')
  {
    RecordedFrame(w, o);
    RecordSound(View(w, o), ok, w.price);
    QuietStep(w, w', o);
  }

  lemma ReadForConfirmKeeps(w: World, w': World, o: nat)
    requires Inv(w) && At(w, o, Finalizing) && w.db.orders[o].claim.SeatClaim? && w' == RowsRead(w, o)
    ensures Inv(w') && Progress(w, w')
  {
    assert Exists(w.db, w.db.orders[o].claim);
    RowsReadFrame(w, o);
    ReadRowsSound(View(w, o), w.price);
    QuietStep(w, w', o);
  }

  lemma RefundCardKeeps(w: World, w': World, o: nat)
    requires Inv(w) && At(w, o, Lost) && o in w.db.payments && Refundable(w.db.payments[o]) && w' == CardRefunded(w, o)
    ensures Inv(w') && Progress(w, w')
  {
    RepaySound(View(w, o), w.price);
    CardRefundedFrame(w, o);
    RefundKeepsBooks(w.psp, PayKey(o), RefundKey(PayKey(o)));
    QuietStep(w, w', o);
  }

  lemma CompensateKeeps(w: World, w': World, o: nat)
    requires Inv(w) && At(w, o, Repaid) && o in w.db.payments && w' == Undone(w, o)
    ensures Inv(w') && Progress(w, w')
  {
    UndoneFrame(w, o);
    UndoSound(View(w, o), w.price);
    QuietStep(w, w', o);
  }

  // ---------- the two confirms ----------

  lemma ConfirmedRows(w: World, w': World, o: nat)
    requires Keyed(w, o)
    requires w' == Goes(w.(db := ConfirmOrder(w.db.(seat := w'.db.seat, ga := w'.db.ga), o, w.now)), o, None)
    ensures OnlyOrder(w, w', o)
  {
    assert AppendedFor(w.db.outbox, w'.db.outbox, o);
    forall p | p in w.db.orders && p != o ensures SameElsewhere(w, w', p) {}
  }

  lemma SeatsConfirmedFrame(w: World, w': World, o: nat, h: nat)
    requires Keyed(w, o) && w.db.orders[o].claim == SeatClaim(h) && IsActive(w.db.seat, h)
    requires w' == Goes(w.(db := ConfirmOrder(w.db.(seat := Confirm(w.db.seat, h)), o, w.now)), o, None)
    ensures OnlyOrder(w, w', o)
    ensures View(w', o) == ConfirmWith(View(w, o), SeatView(HoldStatus.Confirmed, SeatsOf(Confirm(w.db.seat, h), h)))
  {
    ConfirmedRows(w, w', o);
    KindsAppend(w.db.outbox, Event(o, TicketConfirmed, w.now, None), o);
  }

  lemma UnitsConfirmedFrame(w: World, w': World, o: nat, r: nat)
    requires Keyed(w, o) && w.db.orders[o].claim == GaClaim(r) && IsLive(w.db.ga, r)
    requires w' == Goes(w.(db := ConfirmOrder(w.db.(ga := ConfirmGa(w.db.ga, r)), o, w.now)), o, None)
    ensures OnlyOrder(w, w', o)
    ensures View(w', o) == ConfirmWith(View(w, o), GaView(HoldStatus.Confirmed, w.db.ga.rows[r].quantity))
  {
    ConfirmedRows(w, w', o);
    KindsAppend(w.db.outbox, Event(o, TicketConfirmed, w.now, None), o);
  }

  /** The newly confirmed reservation is owned by the order that confirmed it. */
  lemma OwnedByConfirm(w: World, w': World, o: nat)
    requires Linked(w) && o in w.db.orders && OnlyOrder(w, w', o)
    requires forall h :: h in w'.db.seat.holds && w'.db.seat.holds[h].status == HoldStatus.Confirmed ==>
      w.db.orders[o].claim == SeatClaim(h)
      || (h in w.db.seat.holds && w.db.seat.holds[h].status == HoldStatus.Confirmed)
    requires forall r :: r in w'.db.ga.rows && w'.db.ga.rows[r].status == HoldStatus.Confirmed ==>
      w.db.orders[o].claim == GaClaim(r)
      || (r in w.db.ga.rows && w.db.ga.rows[r].status == HoldStatus.Confirmed)
    ensures ConfirmedOwned(w'.db)
  {
    forall h | h in w'.db.seat.holds && w'.db.seat.holds[h].status == HoldStatus.Confirmed
      ensures Owned(w'.db, SeatClaim(h))
    {
      assert w.db.orders[o].claim != SeatClaim(h) ==> Owned(w.db, SeatClaim(h));
      OwnedStays(w, w', o, SeatClaim(h));
    }
    forall r | r in w'.db.ga.rows && w'.db.ga.rows[r].status == HoldStatus.Confirmed
      ensures Owned(w'.db, GaClaim(r))
    {
      assert w.db.orders[o].claim != GaClaim(r) ==> Owned(w.db, GaClaim(r));
      OwnedStays(w, w', o, GaClaim(r));
    }
  }

  /** What both confirms have to show about the world they leave. */
  predicate ConfirmMoves(w: World, w': World, o: nat)
    requires o in w.db.orders
  {
    && OnlyOrder(w, w', o) && w'.psp == w.psp
    && SeatInv(w'.db.seat)
    && Evolves(w.db.seat, w'.db.seat) && GaEvolves(w.db.ga, w'.db.ga)
    && Sound(View(w', o), w.price) && Moves(View(w, o), View(w', o))
  }

  lemma SeatConfirmMoves(w: World, w': World, o: nat, h: nat)
    requires Keyed(w, o) && SeatInv(w.db.seat) && Sound(View(w, o), w.price)
    requires w.db.orders[o].claim == SeatClaim(h) && IsActive(w.db.seat, h)
    requires At(w, o, Confirming(SeatsOf(w.db.seat, h)))
    requires w' == Goes(w.(db := ConfirmOrder(w.db.(seat := Confirm(w.db.seat, h)), o, w.now)), o, None)
    ensures ConfirmMoves(w, w', o)
  {
    var c := SeatView(HoldStatus.Confirmed, SeatsOf(Confirm(w.db.seat, h), h));
    SeatsConfirmedFrame(w, w', o, h);
    ConfirmPreserves(w.db.seat, h);
    ConfirmEvolves(w.db.seat, h);
    ClaimEvolves(w.db.seat, w.db.ga, w'.db.seat, w'.db.ga, SeatClaim(h));
    ConfirmSound(View(w, o), c, w.price);
  }

  lemma UnitsConfirmSound(w: World, w': World, o: nat, r: nat)
    requires Keyed(w, o) && Sound(View(w, o), w.price)
    requires At(w, o, Finalizing) && w.db.orders[o].claim == GaClaim(r) && IsLive(w.db.ga, r)
    requires w' == Goes(w.(db := ConfirmOrder(w.db.(ga := ConfirmGa(w.db.ga, r)), o, w.now)), o, None)
    ensures OnlyOrder(w, w', o) && Sound(View(w', o), w.price) && Moves(View(w, o), View(w', o))
  {
    UnitsConfirmedFrame(w, w', o, r);
    ConfirmSound(View(w, o), GaView(HoldStatus.Confirmed, w.db.ga.rows[r].quantity), w.price);
  }

  lemma UnitsConfirmTables(w: World, w': World, o: nat, r: nat)
    requires o in w.db.orders && IsLive(w.db.ga, r)
    requires w' == Goes(w.(db := ConfirmOrder(w.db.(ga := ConfirmGa(w.db.ga, r)), o, w.now)), o, None)
    ensures w'.psp == w.psp && w'.db.seat == w.db.seat && GaEvolves(w.db.ga, w'.db.ga)
  {
  }

  lemma UnitsConfirmMoves(w: World, w': World, o: nat, r: nat)
    requires Keyed(w, o) && SeatInv(w.db.seat) && Sound(View(w, o), w.price)
    requires At(w, o, Finalizing) && w.db.orders[o].claim == GaClaim(r) && IsLive(w.db.ga, r)
    requires w' == Goes(w.(db := ConfirmOrder(w.db.(ga := ConfirmGa(w.db.ga, r)), o, w.now)), o, None)
    ensures ConfirmMoves(w, w', o)
  {
    UnitsConfirmSound(w, w', o, r);
    UnitsConfirmTables(w, w', o, r);
    EvolvesReflexive(w.db.seat);
  }

  lemma ConfirmLinked(w: World, w': World, o: nat)
    requires Linked(w) && o in w.db.orders && ConfirmMoves(w, w', o)
    requires match w.db.orders[o].claim
             case SeatClaim(h) => IsActive(w.db.seat, h) && w'.db.seat == Confirm(w.db.seat, h) && w'.db.ga == w.db.ga
             case GaClaim(r) => IsLive(w.db.ga, r) && w'.db.ga == ConfirmGa(w.db.ga, r) && w'.db.seat == w.db.seat
    ensures Linked(w')
  {
    ConfirmOwned(w, w', o);
    OrderLinked(w, w', o);
  }

  lemma ConfirmOwned(w: World, w': World, o: nat)
    requires Linked(w) && o in w.db.orders && OnlyOrder(w, w', o)
    requires match w.db.orders[o].claim
             case SeatClaim(h) => IsActive(w.db.seat, h) && w'.db.seat == Confirm(w.db.seat, h) && w'.db.ga == w.db.ga
             case GaClaim(r) => IsLive(w.db.ga, r) && w'.db.ga == ConfirmGa(w.db.ga, r) && w'.db.seat == w.db.seat
    ensures ConfirmedOwned(w'.db)
  {
    OwnedByConfirm(w, w', o);
  }

  /** No other order is on the reservation being confirmed. */
  lemma OthersKept(w: World, w': World, o: nat)
    requires Linked(w) && o in w.db.orders
    requires match w.db.orders[o].claim
             case SeatClaim(h) => IsActive(w.db.seat, h) && w'.db.seat == Confirm(w.db.seat, h) && w'.db.ga == w.db.ga
             case GaClaim(r) => IsLive(w.db.ga, r) && w'.db.ga == ConfirmGa(w.db.ga, r) && w'.db.seat == w.db.seat
    ensures forall p :: p in w.db.orders && p != o ==> SameClaim(w, w', p)
  {
    forall p | p in w.db.orders && p != o ensures SameClaim(w, w', p) {
      assert Pair(p, o);
      match (w.db.orders[o].claim, w.db.orders[p].claim)
      case (SeatClaim(h), SeatClaim(g)) => RowsAfterConfirm(w.db.seat, h, g);
      case (_, _) =>
    }
  }

  lemma SeatConfirmKeeps(w: World, w': World, o: nat, h: nat)
    requires Inv(w) && o in w.db.orders && w.db.orders[o].claim == SeatClaim(h) && IsActive(w.db.seat, h)
    requires At(w, o, Confirming(SeatsOf(w.db.seat, h)))
    requires w' == Goes(w.(db := ConfirmOrder(w.db.(seat := Confirm(w.db.seat, h)), o, w.now)), o, None)
    ensures Inv(w') && Progress(w, w')
  {
    SeatConfirmMoves(w, w', o, h);
    ConfirmLinked(w, w', o);
    OthersKept(w, w', o);
    OrderStep(w, w', o);
  }

  lemma UnitsConfirmKeeps(w: World, w': World, o: nat, r: nat)
    requires Inv(w) && At(w, o, Finalizing) && w.db.orders[o].claim == GaClaim(r) && IsLive(w.db.ga, r)
    requires w' == Goes(w.(db := ConfirmOrder(w.db.(ga := ConfirmGa(w.db.ga, r)), o, w.now)), o, None)
    ensures Inv(w') && Progress(w, w')
  {
    ConfirmGaPreserves(w.db.ga, r);
    UnitsConfirmMoves(w, w', o, r);
    ConfirmLinked(w, w', o);
    OthersKept(w, w', o);
    OrderStep(w, w', o);
  }

  /** An expired hold has no seats left, so none of the rows read earlier matches. */
  lemma NoRowMatches(t: SeatTables, h: nat, rows: map<nat, Seat>)
    requires SeatInv(t) && h in t.holds && t.holds[h].status == HoldStatus.Expired && rows != map[]
    ensures !AllMatch(t.seats, rows, h)
  {
    var i :| i in rows;
    assert i in t.seats ==> SeatOk(t, t.seats[i]);
    assert !RowMatches(t.seats, i, rows[i], h);
  }

  /** A confirm that has read its rows wins exactly when the hold is still ACTIVE at write time, and then
      has the effect of the atomic confirm; a release in between makes it lose. */
  lemma ConfirmWinsIff(w: World, o: nat, rows: map<nat, Seat>)
    requires Inv(w) && At(w, o, Confirming(rows))
    ensures w.db.orders[o].claim.SeatClaim?
    ensures var h := w.db.orders[o].claim.hold;
            && h in w.db.seat.holds
            && (AllMatch(w.db.seat.seats, rows, h) <==> IsActive(w.db.seat, h))
            && (IsActive(w.db.seat, h) ==>
                  rows == SeatsOf(w.db.seat, h) && WriteRows(w.db.seat, rows, h) == Confirm(w.db.seat, h))
  {
    assert Sound(View(w, o), w.price);
    assert Exists(w.db, w.db.orders[o].claim);
    var h := w.db.orders[o].claim.hold;
    if IsActive(w.db.seat, h) {
      EvolvesReflexive(w.db.seat);
      OptimisticConfirm(w.db.seat, w.db.seat, h);
    } else {
      NoRowMatches(w.db.seat, h, rows);
    }
  }

  // ---------- quotes, new orders, publication, time ----------

  lemma TakeQuoteKeeps(w: World, w': World, q: nat, claim: Claim, sessionId: string, key: string)
    requires Inv(w) && q !in w.quotes && Exists(w.db, claim)
    requires var amount := w.price * Units(Reserved(w.db, claim));
             w' == w.(quotes := w.quotes[q := Quote(claim, ClaimMatch(w.db, claim), sessionId, key, amount)])
    ensures Inv(w') && Progress(w, w')
  {
    SameTables(w, w');
    QuotesStand(w, w', q);
  }

  /** Quotes other than `q` stand as long as the inventory does. */
  lemma QuotesStand(w: World, w': World, q: nat)
    requires QuotesOk(w) && w'.db.seat == w.db.seat && w'.db.ga == w.db.ga && w'.price == w.price
    requires forall p :: p in w'.quotes && p != q ==> p in w.quotes && w'.quotes[p] == w.quotes[p]
    requires q in w'.quotes ==> QuoteOk(w', w'.quotes[q])
    ensures QuotesOk(w')
  {
    forall p | p in w'.quotes ensures QuoteOk(w', w'.quotes[p]) {
      assert p != q ==> QuoteOk(w, w.quotes[p]);
    }
  }

  /** Steps that touch neither the tables nor the provider nor an attempt. */
  lemma SameTables(w: World, w': World)
    requires Linked(w) && OrdersSound(w)
    requires w'.db == w.db && w'.psp == w.psp && w'.attempts == w.attempts && w'.price == w.price
    ensures Linked(w') && OrdersSound(w') && Progress(w, w')
  {
    EvolvesReflexive(w.db.seat);
    forall o | o in w.db.orders ensures View(w', o) == View(w, o) && Exists(w'.db, w'.db.orders[o].claim) {
      assert Exists(w.db, w.db.orders[o].claim);
    }
  }

  lemma DropQuoteKeeps(w: World, w': World, q: nat)
    requires Inv(w) && w' == w.(quotes := w.quotes - {q})
    ensures Inv(w') && Progress(w, w')
  {
    SameTables(w, w');
    QuotesStand(w, w', q);
  }

  lemma AdvanceKeeps(w: World, w': World, to: int)
    requires Inv(w) && w' == w.(now := to)
    ensures Inv(w') && Progress(w, w')
  {
    SameTables(w, w');
    EvolvesReflexive(w.db.seat);
    QuotesKept(w, w');
  }

  lemma PublishLinked(w: World, w': World, ids: set<nat>, at: int)
    requires Linked(w) && w' == w.(db := w.db.(outbox := Stamped(w.db.outbox, ids, at)))
    ensures Linked(w')
  {
    OwnedKept(w, w');
    forall o | o in w'.db.orders ensures Exists(w'.db, w'.db.orders[o].claim) {
      assert Exists(w.db, w.db.orders[o].claim);
    }
  }

  lemma PublishViews(w: World, w': World, ids: set<nat>, at: int)
    requires OrdersSound(w) && w' == w.(db := w.db.(outbox := Stamped(w.db.outbox, ids, at)))
    ensures OrdersSound(w') && Progress(w, w')
  {
    EvolvesReflexive(w.db.seat);
    forall o | o in w.db.orders ensures View(w', o) == View(w, o) && Sound(View(w', o), w.price) {
      KindsStamped(w.db.outbox, ids, at, o);
      assert Sound(View(w, o), w.price);
    }
  }

  lemma PublishKeeps(w: World, w': World, ids: set<nat>, at: int)
    requires Inv(w) && w' == w.(db := w.db.(outbox := Stamped(w.db.outbox, ids, at)))
    ensures Inv(w') && Progress(w, w')
  {
    PublishLinked(w, w', ids, at);
    PublishViews(w, w', ids, at);
    QuotesKept(w, w');
  }

  function WithOrder(w: World, q: nat, o: nat): World
    requires q in w.quotes
  {
    var quote := w.quotes[q];
    var order := Order(quote.matchId, quote.sessionId, quote.key, quote.claim, PaymentPending, quote.amount, 1);
    w.(db := w.db.(orders := w.db.orders[o := order]), quotes := w.quotes - {q}, attempts := w.attempts[o := Ensuring])
  }

  lemma CreateOrderLinked(w: World, w': World, q: nat, o: nat)
    requires Linked(w) && QuotesOk(w) && q in w.quotes && o !in w.db.orders && w' == WithOrder(w, q, o)
    requires KeyFree(w.db, w.quotes[q].key) && ClaimFree(w.db, w.quotes[q].claim)
    ensures Linked(w')
  {
    assert QuoteOk(w, w.quotes[q]);
    forall p | p in w'.db.orders ensures Exists(w'.db, w'.db.orders[p].claim) {
      if p != o { assert Exists(w.db, w.db.orders[p].claim); }
    }
    forall claim | Owned(w.db, claim) ensures Owned(w'.db, claim) {
      var p :| p in w.db.orders && w.db.orders[p].claim == claim;
      assert p in w'.db.orders && w'.db.orders[p].claim == claim;
    }
  }

  lemma CreateOrderKeeps(w: World, w': World, q: nat, o: nat)
    requires Inv(w) && q in w.quotes && o !in w.db.orders && w' == WithOrder(w, q, o) && w.quotes[q].amount > 0
    requires KeyFree(w.db, w.quotes[q].key) && ClaimFree(w.db, w.quotes[q].claim)
    ensures Inv(w') && Progress(w, w')
  {
    EvolvesReflexive(w.db.seat);
    CreateOrderLinked(w, w', q, o);
    NewOrderSound(w, w', q, o);
    OldOrdersSound(w, w', q, o);
    QuotesStand(w, w', q);
  }

  lemma OldOrdersSound(w: World, w': World, q: nat, o: nat)
    requires OrdersSound(w) && q in w.quotes && o !in w.db.orders && w' == WithOrder(w, q, o)
    ensures forall p {:trigger View(w', p)} :: p in w.db.orders ==> View(w', p) == View(w, p) && Sound(View(w, p), w.price)
  {
  }

  /** A new order starts with no trace of itself anywhere, and its reservation, if not yet lost,
      is worth exactly what was quoted and is not confirmed for anyone else. */
  lemma NewOrderSound(w: World, w': World, q: nat, o: nat)
    requires Inv(w) && q in w.quotes && o !in w.db.orders && w' == WithOrder(w, q, o) && w.quotes[q].amount > 0
    requires ClaimFree(w.db, w.quotes[q].claim)
    ensures Sound(View(w', o), w.price)
  {
    var claim := w.quotes[q].claim;
    assert QuoteOk(w, w.quotes[q]);
    KindsOfStranger(w.db.outbox, o);
    var status := Reserved(w.db, claim).status;
    assert !Owned(w.db, claim);
    match claim
    case SeatClaim(h) => assert Owned(w.db, SeatClaim(h)) || status != HoldStatus.Confirmed;
    case GaClaim(r) =>
      assert Owned(w.db, GaClaim(r)) || status != HoldStatus.Confirmed;
      assert RowOk(w.db.ga, w.db.ga.rows[r]);
  }

  // ---------- progress is an order ----------

  lemma ProgressReflexive(w: World)
    ensures Progress(w, w)
  {
    EvolvesReflexive(w.db.seat);
  }

  lemma ProgressTransitive(u: World, v: World, w: World)
    requires Progress(u, v) && Progress(v, w)
    ensures Progress(u, w)
  {
    EvolvesTransitive(u.db.seat, v.db.seat, w.db.seat);
    GaEvolvesTransitive(u.db.ga, v.db.ga, w.db.ga);
    forall o | o in u.db.orders ensures o in w.db.orders && Moves(View(u, o), View(w, o)) {
      assert Moves(View(u, o), View(v, o)) && Moves(View(v, o), View(w, o));
      MovesTransitive(View(u, o), View(v, o), View(w, o));
    }
  }

  // ---------- every step ----------

  /** The inductive step of all the safety results: from any state satisfying the invariant, any
      enabled step leads to one satisfying it, and moves the tables and every order forward. */
  lemma StepKeeps(w: World, s: Step)
    requires Inv(w) && Enabled(w, s)
    ensures Inv(Apply(w, s)) && Progress(w, Apply(w, s))
  {
    var w' := Apply(w, s);
    match s
    case ReserveSeats(h, row, ids) => ReserveSeatsKeeps(w, w', h, row, ids);
    case ClaimUnits(r, row, snapshot) => ClaimUnitsKeeps(w, w', r, row, snapshot);
    case ExpireHold(h) => ExpireHoldKeeps(w, w', h);
    case ExpireGa(r, _) => ExpireGaKeeps(w, w', r);
    case TakeQuote(q, claim, sessionId, key) => TakeQuoteKeeps(w, w', q, claim, sessionId, key);
    case DropQuote(q) => DropQuoteKeeps(w, w', q);
    case CreateOrder(q, o) => CreateOrderKeeps(w, w', q, o);
    case Replay(o, _) =>
      assert Sound(View(w, o), w.price);
      ForgetSound(View(w, o), w.price);
      AttemptKeeps(w, w', o, Some(Ensuring));
    case Publish(ids, at) => PublishKeeps(w, w', ids, at);
    case Advance(to) => AdvanceKeeps(w, w', to);
    case _ => AttemptStepKeeps(w, s);
  }

  predicate OfAttempt(s: Step) {
    || s.EnsurePayment? || s.ChargeCard? || s.RecordCharge? || s.ReadForConfirm? || s.WriteConfirm?
    || s.ConfirmUnits? || s.RefundCard? || s.Compensate? || s.Crash?
  }

  /** The steps that write the seat tables, and those that write the pools and reservations. */
  predicate WritesSeats(s: Step) {
    s.ReserveSeats? || s.ExpireHold? || s.WriteConfirm?
  }

  predicate WritesUnits(s: Step) {
    s.ClaimUnits? || s.ExpireGa? || s.ConfirmUnits?
  }

  /** The steps of an attempt that write its order. */
  predicate WritesOrder(s: Step) {
    s.RecordCharge? || s.WriteConfirm? || s.ConfirmUnits? || s.Compensate?
  }

  lemma OrdersUntouched(w: World, s: Step)
    requires Enabled(w, s) && OfAttempt(s) && !WritesOrder(s)
    ensures Apply(w, s).db.orders == w.db.orders
  {
  }

  lemma InventoryUntouched(w: World, s: Step)
    requires Enabled(w, s)
    ensures !WritesSeats(s) ==> Apply(w, s).db.seat == w.db.seat
    ensures !WritesUnits(s) ==> Apply(w, s).db.ga == w.db.ga
  {
  }

  lemma AttemptStepKeeps(w: World, s: Step)
    requires Inv(w) && Enabled(w, s) && OfAttempt(s)
    ensures Inv(Apply(w, s)) && Progress(w, Apply(w, s))
  {
    var w' := Apply(w, s);
    match s
    case EnsurePayment(o) => EnsurePaymentKeeps(w, w', o);
    case ChargeCard(o, ok) => ChargeCardKeeps(w, w', o, ok);
    case RecordCharge(o) => RecordChargeKeeps(w, w', o, w.attempts[o].ok);
    case ReadForConfirm(o) => ReadForConfirmKeeps(w, w', o);
    case WriteConfirm(_) => ConfirmStepKeeps(w, s);
    case ConfirmUnits(_) => ConfirmStepKeeps(w, s);
    case RefundCard(o) => RefundCardKeeps(w, w', o);
    case Compensate(o) =>
      if At(w, o, Lost) { RepaySound(View(w, o), w.price); }
      CompensateKeeps(w, w', o);
    case Crash(o) =>
      ForgetSound(View(w, o), w.price);
      AttemptKeeps(w, w', o, None);
  }

  lemma LoseKeeps(w: World, o: nat)
    requires Inv(w) && o in w.db.orders && o in w.attempts && (w.attempts[o].Finalizing? || w.attempts[o].Confirming?)
    requires Reserved(w.db, w.db.orders[o].claim).status != HoldStatus.Active
    ensures Inv(Goes(w, o, Some(Lost))) && Progress(w, Goes(w, o, Some(Lost)))
  {
    assert Sound(View(w, o), w.price);
    LoseSound(View(w, o), w.price);
    AttemptKeeps(w, Goes(w, o, Some(Lost)), o, Some(Lost));
  }

  lemma ConfirmStepKeeps(w: World, s: Step)
    requires Inv(w) && Enabled(w, s) && (s.WriteConfirm? || s.ConfirmUnits?)
    ensures Inv(Apply(w, s)) && Progress(w, Apply(w, s))
  {
    var w', o := Apply(w, s), s.order;
    if s.WriteConfirm? {
      var h := w.db.orders[o].claim.hold;
      ConfirmWinsIff(w, o, w.attempts[o].rows);
      if IsActive(w.db.seat, h) { SeatConfirmKeeps(w, w', o, h); } else { LoseKeeps(w, o); }
    } else if IsLive(w.db.ga, w.db.orders[o].claim.reservation) {
      UnitsConfirmKeeps(w, w', o, w.db.orders[o].claim.reservation);
    } else {
      assert Exists(w.db, w.db.orders[o].claim);
      LoseKeeps(w, o);
    }
  }
}
