/** Nobody quotes or buys a reservation of somebody else. */
module Ownership {
  import opened SeatInventory
  import opened GaInventory
  import opened OrderLife
  import opened Booking
  import opened BookingInvariant
  import opened BookingTheorems

  /** The reservation exists, belongs to the session, and is for the match. */
  predicate Belongs(db: Tables, claim: Claim, sessionId: string, matchId: nat) {
    match claim
    case SeatClaim(h) =>
      h in db.seat.holds && db.seat.holds[h].sessionId == sessionId && db.seat.holds[h].matchId == matchId
    case GaClaim(r) =>
      r in db.ga.rows && db.ga.rows[r].sessionId == sessionId && db.ga.rows[r].matchId == matchId
  }

  predicate OrderOwned(w: World, o: nat)
    requires o in w.db.orders
  {
    Belongs(w.db, w.db.orders[o].claim, w.db.orders[o].sessionId, w.db.orders[o].matchId)
  }

  predicate QuoteOwned(w: World, q: nat)
    requires q in w.quotes
  {
    Belongs(w.db, w.quotes[q].claim, w.quotes[q].sessionId, w.quotes[q].matchId)
  }

  predicate OwnersMatch(w: World) {
    && (forall o :: o in w.db.orders ==> OrderOwned(w, o))
    && (forall q :: q in w.quotes ==> QuoteOwned(w, q))
  }

  lemma BelongsStill(w: World, w': World, claim: Claim, sessionId: string, matchId: nat)
    requires Progress(w, w') && Belongs(w.db, claim, sessionId, matchId)
    ensures Belongs(w'.db, claim, sessionId, matchId)
  {
    match claim
    case SeatClaim(h) => assert HoldEvolves(w.db.seat, w'.db.seat, h);
    case GaClaim(r) => assert RowEvolves(w.db.ga.rows[r], w'.db.ga.rows[r]);
  }

  lemma NewOrder(w: World, s: Step, o: nat)
    requires Enabled(w, s) && o !in w.db.orders && o in Apply(w, s).db.orders
    ensures s.CreateOrder? && s.order == o && s.quote in w.quotes
    ensures var quote, order := w.quotes[s.quote], Apply(w, s).db.orders[o];
            order.claim == quote.claim && order.sessionId == quote.sessionId && order.matchId == quote.matchId
  {
  }

  lemma QuoteFrom(w: World, s: Step, q: nat)
    requires Enabled(w, s) && q in Apply(w, s).quotes
    ensures (q in w.quotes && Apply(w, s).quotes[q] == w.quotes[q])
            || (s.TakeQuote? && s.quote == q && Apply(w, s).db == w.db && QuoteOwned(Apply(w, s), q))
  {
  }

  lemma OwnersKept(w: World, s: Step)
    requires Inv(w) && Enabled(w, s) && OwnersMatch(w)
    ensures OwnersMatch(Apply(w, s))
  {
    var w' := Apply(w, s);
    StepKeeps(w, s);
    forall o | o in w'.db.orders ensures OrderOwned(w', o) {
      OrderStaysOwned(w, s, w', o);
    }
    forall q | q in w'.quotes ensures QuoteOwned(w', q) {
      QuoteFrom(w, s, q);
      if q in w.quotes && w'.quotes[q] == w.quotes[q] {
        assert QuoteOwned(w, q);
        BelongsStill(w, w', w.quotes[q].claim, w.quotes[q].sessionId, w.quotes[q].matchId);
      }
    }
  }

  lemma OrderStaysOwned(w: World, s: Step, w': World, o: nat)
    requires Enabled(w, s) && w' == Apply(w, s) && Progress(w, w') && OwnersMatch(w) && o in w'.db.orders
    ensures OrderOwned(w', o)
  {
    if o in w.db.orders {
      assert OrderOwned(w, o) && Moves(View(w, o), View(w', o));
      BelongsStill(w, w', w.db.orders[o].claim, w.db.orders[o].sessionId, w.db.orders[o].matchId);
    } else {
      NewOrder(w, s, o);
      assert QuoteOwned(w, s.quote);
      var quote := w.quotes[s.quote];
      BelongsStill(w, w', quote.claim, quote.sessionId, quote.matchId);
    }
  }

  lemma {:induction false} RunOwners(ws: seq<World>, steps: seq<Step>, i: nat)
    requires Run(ws, steps) && i < |ws|
    ensures OwnersMatch(ws[i])
  {
    if i > 0 {
      RunOwners(ws, steps, i - 1);
      RunInv(ws, steps, i - 1);
      OwnersKept(ws[i - 1], steps[i - 1]);
    }
  }

  /** At every point of every run each order and each quote names a reservation of the same session and
      for the same match. */
  lemma EverybodyBuysTheirOwn(ws: seq<World>, steps: seq<Step>, i: nat)
    requires Run(ws, steps) && i < |ws|
    ensures forall o :: o in ws[i].db.orders ==>
              match ws[i].db.orders[o].claim
              case SeatClaim(h) =>
                h in ws[i].db.seat.holds && ws[i].db.seat.holds[h].sessionId == ws[i].db.orders[o].sessionId
                && ws[i].db.seat.holds[h].matchId == ws[i].db.orders[o].matchId
              case GaClaim(r) =>
                r in ws[i].db.ga.rows && ws[i].db.ga.rows[r].sessionId == ws[i].db.orders[o].sessionId
                && ws[i].db.ga.rows[r].matchId == ws[i].db.orders[o].matchId
    ensures forall q :: q in ws[i].quotes ==>
              match ws[i].quotes[q].claim
              case SeatClaim(h) =>
                h in ws[i].db.seat.holds && ws[i].db.seat.holds[h].sessionId == ws[i].quotes[q].sessionId
              case GaClaim(r) =>
                r in ws[i].db.ga.rows && ws[i].db.ga.rows[r].sessionId == ws[i].quotes[q].sessionId
  {
    RunOwners(ws, steps, i);
    forall o | o in ws[i].db.orders ensures OrderOwned(ws[i], o) {}
    forall q | q in ws[i].quotes ensures QuoteOwned(ws[i], q) {}
  }
}
