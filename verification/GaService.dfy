/** Reserving general-admission units: a bounded retry loop around an optimistic claim, against
    whatever other transactions commit before and during each attempt. */
module GaService {
  import opened Collections
  import opened SeatInventory
  import opened GaInventory
  import opened GaTraffic
  import opened Finalizer
  import opened OrderLife
  import Expiry

  datatype GaError =
    | GaQuantity | HoldConflict | GaNotFound | GaUnavailable
    | RetryWindow      // the jitter window is not 0 <= min <= max
    | DatabaseError    // the insert met the unique idempotency key

  datatype GaOutcome = Reserved(id: nat, created: bool) | Raised(error: GaError)

  /** What others commit before an attempt reads the pool, and between that read and its write. */
  datatype Rivals = Rivals(before: seq<GaOp>, during: seq<GaOp>)

  function Seen(t: GaTables, rivals: Rivals, spared: set<nat>): GaTables {
    AfterOps(t, rivals.before, spared)
  }

  function Written(t: GaTables, rivals: Rivals, spared: set<nat>): GaTables {
    AfterOps(Seen(t, rivals, spared), rivals.during, spared)
  }

  /** The tables as the rivals of the first `n` attempts leave them on their own. */
  function Left(t: GaTables, rivals: seq<Rivals>, n: nat, spared: set<nat>): GaTables
    requires n <= |rivals|
  {
    if n == 0 then t else Written(Left(t, rivals, n - 1, spared), rivals[n - 1], spared)
  }

  function FindPool(t: GaTables, m: nat): Option<Pool> {
    if m in t.pools then Some(t.pools[m]) else None
  }

  predicate KeyUnused(t: GaTables, key: string) {
    forall q :: q in t.rows ==> t.rows[q].key != key
  }

  /** How attempt number `n` ends when nothing but the rivals has been committed before it. */
  function OutcomeAt(t: GaTables, m: nat, quantity: int, rivals: seq<Rivals>, n: nat, spared: set<nat>): ClaimOutcome
    requires n < |rivals|
  {
    var before := Left(t, rivals, n, spared);
    Outcome(Written(before, rivals[n], spared).pools, FindPool(Seen(before, rivals[n], spared), m), m, quantity)
  }

  lemma {:induction false} LeftKeeps(t: GaTables, rivals: seq<Rivals>, n: nat, spared: set<nat>)
    requires GaInv(t) && n <= |rivals|
    ensures GaInv(Left(t, rivals, n, spared)) && GaEvolves(t, Left(t, rivals, n, spared))
    ensures PoolsEvolve(t, Left(t, rivals, n, spared)) && Spares(t, Left(t, rivals, n, spared), spared)
  {
    if n > 0 {
      LeftKeeps(t, rivals, n - 1, spared);
      RivalsKeep(Left(t, rivals, n - 1, spared), rivals[n - 1], spared);
      GaEvolvesTransitive(t, Left(t, rivals, n - 1, spared), Left(t, rivals, n, spared));
    }
  }

  lemma RivalsKeep(t: GaTables, rivals: Rivals, spared: set<nat>)
    requires GaInv(t)
    ensures GaInv(Seen(t, rivals, spared)) && GaInv(Written(t, rivals, spared))
    ensures GaEvolves(t, Written(t, rivals, spared))
    ensures PoolsEvolve(t, Seen(t, rivals, spared)) && PoolsEvolve(Seen(t, rivals, spared), Written(t, rivals, spared))
    ensures Spares(t, Written(t, rivals, spared), spared)
  {
    OpsKeep(t, rivals.before, spared);
    OpsKeep(Seen(t, rivals, spared), rivals.during, spared);
    GaEvolvesTransitive(t, Seen(t, rivals, spared), Written(t, rivals, spared));
  }

  // ---------- progress ----------

  /** An attempt fails with a conflict exactly when the pool had enough units but some rival wrote it
      between the read and the write. */
  lemma ConflictMeansRival(t: GaTables, m: nat, quantity: int, rivals: Rivals, spared: set<nat>)
    requires GaInv(t)
    ensures var before, now := Seen(t, rivals, spared), Written(t, rivals, spared);
            Outcome(now.pools, FindPool(before, m), m, quantity) == Conflict <==>
              && m in before.pools && before.pools[m].available >= quantity
              && m in now.pools && now.pools[m].version > before.pools[m].version
  {
    RivalsKeep(t, rivals, spared);
  }

  /** The system as a whole moves on: when every one of `n` attempts met a conflict, rivals have
      written the pool at least `n` times. */
  lemma {:induction false} ConflictsAreOthersProgress(t: GaTables, m: nat, quantity: int, rivals: seq<Rivals>, n: nat,
                                                      spared: set<nat>)
    requires GaInv(t) && m in t.pools && n <= |rivals|
    requires forall k :: 0 <= k < n ==> OutcomeAt(t, m, quantity, rivals, k, spared) == Conflict
    ensures m in Left(t, rivals, n, spared).pools
    ensures Left(t, rivals, n, spared).pools[m].version >= t.pools[m].version + n
  {
    if n > 0 {
      ConflictsAreOthersProgress(t, m, quantity, rivals, n - 1, spared);
      LeftKeeps(t, rivals, n - 1, spared);
      assert OutcomeAt(t, m, quantity, rivals, n - 1, spared) == Conflict;
      ConflictMeansRival(Left(t, rivals, n - 1, spared), m, quantity, rivals[n - 1], spared);
      RivalsKeep(Left(t, rivals, n - 1, spared), rivals[n - 1], spared);
    }
  }

  function Sum(delays: seq<real>): real {
    if delays == [] then 0.0 else Sum(delays[..|delays| - 1]) + delays[|delays| - 1]
  }

  lemma {:induction false} SumBounded(delays: seq<real>, most: real)
    requires forall i :: 0 <= i < |delays| ==> 0.0 <= delays[i] <= most
    ensures 0.0 <= Sum(delays) <= |delays| as real * most
  {
    if delays != [] {
      SumBounded(delays[..|delays| - 1], most);
      OneTimeMore((|delays| - 1) as real, most);
    }
  }

  lemma OneTimeMore(n: real, most: real)
    ensures (n + 1.0) * most == n * most + most
  {
  }

  lemma PausesBounded(delays: seq<real>, attempts: int, longest: real)
    requires |delays| < attempts && 0.0 <= longest && forall i :: 0 <= i < |delays| ==> 0.0 <= delays[i] <= longest
    ensures 0.0 <= Sum(delays) <= (attempts - 1) as real * longest
  {
    SumBounded(delays, longest);
    var most := attempts - 1;
    assert |delays| <= most;
    MoreTimes(Sum(delays), |delays| as real, most as real, longest);
  }

  lemma MoreTimes(sum: real, a: real, b: real, factor: real)
    requires sum <= a * factor && a <= b && 0.0 <= factor
    ensures sum <= b * factor
  {
    assert (b - a) * factor >= 0.0;
  }

  datatype ClaimEnd = Ended(outcome: ClaimOutcome) | KeyClash

  /** One attempt against its rivals, which leave `before` when the pool is read and `now` when it is
      written: how it ends, and what is committed. */
  predicate Attempted(before: GaTables, now: GaTables, t': GaTables, r: nat, row: Reservation, end: ClaimEnd) {
    var m := row.matchId;
    if m !in before.pools then end == Ended(Missing) && t' == now
    else if before.pools[m].available < row.quantity then end == Ended(Insufficient) && t' == now
    else if m !in now.pools || now.pools[m].version != before.pools[m].version || now.pools[m].available < row.quantity then
      end == Ended(Conflict) && t' == now
    else if exists q :: q in now.rows && now.rows[q].key == row.key then end == KeyClash && t' == now
    else
      var pool := now.pools[m];
      && end == Ended(Claimed)
      && t' == GaTables(now.pools[m := Pool(pool.capacity, pool.available - row.quantity, pool.version + 1)],
                        now.rows[r := row])
  }

  /** The same, with the outcome it came to. */
  predicate AttemptEnds(t: GaTables, t': GaTables, r: nat, row: Reservation, rivals: seq<Rivals>, n: nat, claims: nat,
                        end: ClaimEnd)
    requires n < claims <= |rivals|
  {
    var outcome, left := OutcomeAt(t, row.matchId, row.quantity, rivals, n, {r}), Left(t, rivals, claims, {r});
    && end == (if outcome == Claimed && !KeyUnused(left, row.key) then KeyClash else Ended(outcome))
    && t' == if end == Ended(Claimed) && row.matchId in left.pools then GaInventory.Claim(left, r, row) else left
  }

  class SqlGaStock {
    const session: Session

    constructor (s: Session)
      ensures session == s
    {
      session := s;
    }

    /** Other transactions commit. */
    method Interfere(ops: seq<GaOp>, spared: set<nat>)
      requires session.tables == session.committed
      modifies session
      ensures session.committed == old(session.committed).(ga := AfterOps(old(session.committed.ga), ops, spared))
      ensures session.tables == session.committed
    {
      session.committed := session.committed.(ga := AfterOps(session.committed.ga, ops, spared));
      session.tables := session.committed;
    }

    /** Reads the pool, then decrements it only if its version is still the one read, and inserts the
        reservation in the same transaction. */
    method Claim(matchId: nat, quantity: int, r: nat, row: Reservation, rivals: Rivals, spared: set<nat>)
      returns (end: ClaimEnd)
      requires session.tables == session.committed && row.matchId == matchId && row.quantity == quantity
      modifies session
      ensures Attempted(Seen(old(session.committed.ga), rivals, spared), Written(old(session.committed.ga), rivals, spared),
                        session.committed.ga, r, row, end)
      ensures session.tables == session.committed == old(session.committed).(ga := session.committed.ga)
    {
      Interfere(rivals.before, spared);
      var snapshot := FindPool(session.tables.ga, matchId);
      Interfere(rivals.during, spared);
      if snapshot == None {
        return Ended(Missing);
      }
      if snapshot.value.available < quantity {
        return Ended(Insufficient);
      }
      var t := session.tables.ga;
      if matchId !in t.pools || t.pools[matchId].version != snapshot.value.version || t.pools[matchId].available < quantity {
        return Ended(Conflict);
      }
      var pool := t.pools[matchId];
      session.tables := session.tables.(ga := t.(pools := t.pools[matchId :=
        pool.(available := pool.available - quantity, version := pool.version + 1)]));
      if !KeyUnused(t, row.key) {
        session.Rollback();
        return KeyClash;
      }
      session.tables := session.tables.(ga := session.tables.ga.(rows := t.rows[r := row]));
      session.Commit();
      end := Ended(Claimed);
    }
  }

  /** How a call with a new key ends after `claims` attempts: all but the last met a conflict, and the
      last one decides. Whatever is raised, the tables are as the rivals alone leave them. */
  predicate Settles(t: GaTables, t': GaTables, r: nat, row: Reservation, rivals: seq<Rivals>, claims: nat, out: GaOutcome)
    requires claims <= |rivals|
  {
    var left := Left(t, rivals, claims, {r});
    && (forall k :: 0 <= k < claims - 1 ==> OutcomeAt(t, row.matchId, row.quantity, rivals, k, {r}) == Conflict)
    && (out == Reserved(r, true) <==>
          && claims > 0 && KeyUnused(left, row.key)
          && OutcomeAt(t, row.matchId, row.quantity, rivals, claims - 1, {r}) == Claimed)
    && (out.Raised? || out == Reserved(r, true))
    && t' == if out.Raised? || row.matchId !in left.pools then left else GaInventory.Claim(left, r, row)
  }

  /** The error, from the outcome of the last attempt. */
  predicate Explains(last: Option<ClaimOutcome>, exhausted: bool, windowOk: bool, error: GaError) {
    match last
    case None => error == GaUnavailable
    case Some(Claimed) => error == DatabaseError
    case Some(Missing) => error == GaNotFound
    case Some(Insufficient) => error == GaUnavailable
    case Some(Conflict) => error == (if exhausted then GaUnavailable else RetryWindow) && (exhausted || !windowOk)
  }

  /** What a call with a new key is told, over the pools and rows themselves: `Seen` is what an attempt
      reads, and the rivals leave the tables of the next attempt by the time it writes. Every attempt but
      the last met a rival's write after it had read enough units; the last one decides. */
  ghost predicate Answered(t: GaTables, m: nat, quantity: int, key: string, r: nat, rivals: seq<Rivals>, claims: nat,
                           maxAttempts: int, windowOk: bool, out: GaOutcome)
    requires claims <= |rivals|
  {
    && (forall k: nat, next: nat {:trigger Pair(k, next)} :: Pair(k, next) && next == k + 1 && k < claims - 1 ==>
          MetWrite(Seen(Left(t, rivals, k, {r}), rivals[k], {r}), Left(t, rivals, next, {r}), m, quantity))
    && (claims == 0 <==> maxAttempts <= 0)
    && (claims == 0 ==> out == Raised(GaUnavailable))
    && (claims > 0 ==>
          var last: nat := claims - 1;
          Decided(Seen(Left(t, rivals, last, {r}), rivals[last], {r}), Left(t, rivals, claims, {r}), m, quantity, key, r,
                  claims >= maxAttempts, windowOk, out))
  }

  /** Enough units were read, and somebody wrote the pool since. */
  predicate MetWrite(read: GaTables, now: GaTables, m: nat, quantity: int) {
    && m in read.pools && read.pools[m].available >= quantity
    && m in now.pools && now.pools[m].version > read.pools[m].version
  }

  /** What the last attempt decides. */
  ghost predicate Decided(read: GaTables, now: GaTables, m: nat, quantity: int, key: string, r: nat, exhausted: bool,
                          windowOk: bool, out: GaOutcome)
  {
    && (out == Raised(GaNotFound) <==> m !in read.pools)
    && (out == Raised(GaUnavailable) <==>
          m in read.pools && (read.pools[m].available < quantity || (MetWrite(read, now, m, quantity) && exhausted)))
    && (out == Raised(RetryWindow) <==> MetWrite(read, now, m, quantity) && !exhausted)
    && (out == Raised(RetryWindow) ==> !windowOk)
    && (out == Raised(DatabaseError) <==>
          && m in read.pools && read.pools[m].available >= quantity
          && m in now.pools && now.pools[m].version == read.pools[m].version
          && exists q :: q in now.rows && now.rows[q].key == key)
    && (out == Reserved(r, true) <==>
          && m in read.pools && read.pools[m].available >= quantity
          && m in now.pools && now.pools[m].version == read.pools[m].version
          && forall q :: q in now.rows ==> now.rows[q].key != key)
  }

  lemma AttemptDecides(t: GaTables, row: Reservation, r: nat, rivals: seq<Rivals>, last: nat, claims: nat,
                       exhausted: bool, windowOk: bool, out: GaOutcome)
    requires GaInv(t) && claims == last + 1 <= |rivals|
    requires out == Reserved(r, true) <==>
               KeyUnused(Left(t, rivals, claims, {r}), row.key)
               && OutcomeAt(t, row.matchId, row.quantity, rivals, last, {r}) == Claimed
    requires out.Raised? || out == Reserved(r, true)
    requires out.Raised? ==>
               Explains(Some(OutcomeAt(t, row.matchId, row.quantity, rivals, last, {r})), exhausted, windowOk, out.error)
    ensures Decided(Seen(Left(t, rivals, last, {r}), rivals[last], {r}), Left(t, rivals, claims, {r}), row.matchId,
                    row.quantity, row.key, r, exhausted, windowOk, out)
  {
    var before := Left(t, rivals, last, {r});
    LeftKeeps(t, rivals, last, {r});
    RivalsKeep(before, rivals[last], {r});
    ConflictMeansRival(before, row.matchId, row.quantity, rivals[last], {r});
  }

  lemma AttemptMetWrite(t: GaTables, m: nat, quantity: int, r: nat, rivals: seq<Rivals>, k: nat, next: nat)
    requires GaInv(t) && next == k + 1 <= |rivals| && OutcomeAt(t, m, quantity, rivals, k, {r}) == Conflict
    ensures MetWrite(Seen(Left(t, rivals, k, {r}), rivals[k], {r}), Left(t, rivals, next, {r}), m, quantity)
  {
    LeftKeeps(t, rivals, k, {r});
    ConflictMeansRival(Left(t, rivals, k, {r}), m, quantity, rivals[k], {r});
  }

  lemma WhatIsAnswered(t: GaTables, t': GaTables, r: nat, row: Reservation, rivals: seq<Rivals>, claims: nat,
                       maxAttempts: int, windowOk: bool, out: GaOutcome)
    requires GaInv(t) && claims <= |rivals| && Settles(t, t', r, row, rivals, claims, out)
    requires claims == 0 <==> maxAttempts <= 0
    requires out.Raised? ==>
               Explains(if claims == 0 then None
                        else Some(OutcomeAt(t, row.matchId, row.quantity, rivals, claims - 1, {r})),
                        claims >= maxAttempts, windowOk, out.error)
    ensures Answered(t, row.matchId, row.quantity, row.key, r, rivals, claims, maxAttempts, windowOk, out)
  {
    forall k: nat, next: nat | Pair(k, next) && next == k + 1 && k < claims - 1
      ensures MetWrite(Seen(Left(t, rivals, k, {r}), rivals[k], {r}), Left(t, rivals, next, {r}), row.matchId, row.quantity)
    {
      AttemptMetWrite(t, row.matchId, row.quantity, r, rivals, k, next);
    }
    if claims > 0 {
      var last: nat := claims - 1;
      AttemptDecides(t, row, r, rivals, last, claims, claims >= maxAttempts, windowOk, out);
    }
  }

  /** What a reservation made is, in the rows: one new row, its units out of the pool, nothing else. */
  ghost predicate Stored(left: GaTables, t': GaTables, r: nat, m: nat, sessionId: string, key: string, quantity: int,
                         at: int, ttl: int)
  {
    && m in left.pools
    && t'.rows == left.rows[r := Reservation(m, sessionId, key, quantity, HoldStatus.Active, at + ttl)]
    && t'.pools == left.pools[m := Pool(left.pools[m].capacity, left.pools[m].available - quantity,
                                        left.pools[m].version + 1)]
  }

  lemma WhatIsStored(t: GaTables, t': GaTables, r: nat, row: Reservation, rivals: seq<Rivals>, claims: nat, out: GaOutcome,
                     at: int, ttl: int)
    requires GaInv(t) && claims <= |rivals| && Settles(t, t', r, row, rivals, claims, out) && out.Reserved?
    requires row.status == HoldStatus.Active && row.expiresAt == at + ttl
    ensures Stored(Left(t, rivals, claims, {r}), t', r, row.matchId, row.sessionId, row.key, row.quantity, at, ttl)
  {
    assert row.matchId in Left(t, rivals, claims, {r}).pools;
  }

  /** What a call with a known key is told. */
  ghost predicate Repeats(t: GaTables, key: string, sessionId: string, out: GaOutcome) {
    forall q :: q in t.rows && t.rows[q].key == key ==>
      out == if t.rows[q].sessionId == sessionId then Reserved(q, false) else Raised(HoldConflict)
  }

  class GaReservationService {
    const session: Session
    const stock: SqlGaStock
    const maxQuantity: int
    const maxAttempts: int
    const minMs: int
    const maxMs: int
    const ttl: int
    var now: int

    constructor (s: Session, p: SqlGaStock, quantity: int, attempts: int, shortest: int, longest: int, seconds: int, at: int)
      requires p.session == s
      ensures session == s && stock == p && maxQuantity == quantity && maxAttempts == attempts
      ensures minMs == shortest && maxMs == longest && ttl == seconds && now == at
    {
      session, stock, maxQuantity, maxAttempts := s, p, quantity, attempts;
      minMs, maxMs, ttl, now := shortest, longest, seconds, at;
    }

    function NewReservation(matchId: nat, sessionId: string, key: string, quantity: int): Reservation
      reads this
    {
      Reservation(matchId, sessionId, key, quantity, HoldStatus.Active, now + ttl)
    }

    predicate WindowOk() {
      0 <= minMs <= maxMs
    }

    /** What the generator draws for the pauses lies in the window. */
    predicate Drawn(delays: seq<real>) {
      forall i :: 0 <= i < |delays| ==> minMs as real <= delays[i] <= maxMs as real
    }

    /** All pauses of a call together last no longer than one longest pause between every two attempts. */
    predicate PausesOk(delays: seq<real>) {
      WindowOk() ==> 0.0 <= Sum(delays) <= (maxAttempts - 1) as real * maxMs as real
    }

    lemma DrawnBounded(delays: seq<real>)
      requires |delays| < maxAttempts && Drawn(delays)
      ensures PausesOk(delays)
    {
      if WindowOk() { PausesBounded(delays, maxAttempts, maxMs as real); }
    }

    method FindReservation(key: string) returns (found: Option<nat>)
      ensures found == None <==> KeyUnused(session.tables.ga, key)
      ensures found.Some? ==> found.value in session.tables.ga.rows && session.tables.ga.rows[found.value].key == key
    {
      var rows := session.tables.ga.rows;
      found := None;
      if q :| q in rows && rows[q].key == key {
        found := Some(q);
      }
    }

    /** At most `maxAttempts` claims, one pause between two of them. */
    method Reserve(matchId: nat, quantity: int, sessionId: string, key: string, r: nat, rivals: seq<Rivals>,
                   jitter: seq<real>)
      returns (out: GaOutcome, claims: nat, delays: seq<real>)
      requires stock.session == session && session.tables == session.committed
      requires GaInv(session.committed.ga) && r !in session.committed.ga.rows
      requires |rivals| == |jitter| >= maxAttempts
      requires 0 <= minMs <= maxMs ==>
                 forall i :: 0 <= i < |jitter| ==> minMs as real <= jitter[i] <= maxMs as real
      modifies session
      ensures session.committed == old(session.committed).(ga := session.committed.ga)
      ensures claims <= |rivals| && (claims == 0 || claims <= maxAttempts)
      ensures |delays| == (if claims == 0 then 0 else claims - 1) && (0 <= minMs <= maxMs || delays == [])
      ensures forall i :: 0 <= i < |delays| ==> minMs as real <= delays[i] <= maxMs as real
      ensures claims > 0 && 0 <= minMs <= maxMs ==> 0.0 <= Sum(delays) <= (maxAttempts - 1) as real * maxMs as real
      ensures out == Raised(RetryWindow) ==> minMs < 0 || maxMs < minMs
      ensures !(1 <= quantity <= maxQuantity) ==> out == Raised(GaQuantity) && claims == 0
      ensures 1 <= quantity <= maxQuantity && !KeyUnused(old(session.committed.ga), key) ==>
                Repeats(old(session.committed.ga), key, sessionId, out) && claims == 0
      ensures claims == 0 ==> session.committed == old(session.committed)
      ensures 1 <= quantity <= maxQuantity && KeyUnused(old(session.committed.ga), key) ==>
                Settles(old(session.committed.ga), session.committed.ga, r,
                        NewReservation(matchId, sessionId, key, quantity), rivals, claims, out)
      ensures 1 <= quantity <= maxQuantity && KeyUnused(old(session.committed.ga), key) ==>
                Answered(old(session.committed.ga), matchId, quantity, key, r, rivals, claims, maxAttempts, WindowOk(), out)
      ensures out.Reserved? && out.created ==>
                && out.id == r
                && Stored(Left(old(session.committed.ga), rivals, claims, {r}), session.committed.ga, r, matchId, sessionId,
                          key, quantity, now, ttl)
    {
      claims, delays := 0, [];
      if quantity < 1 || quantity > maxQuantity {
        return Raised(GaQuantity), claims, delays;
      }
      var existing := FindReservation(key);
      if existing.Some? {
        out := Repeat(existing.value, sessionId);
        return;
      }
      ghost var t, row := session.committed.ga, NewReservation(matchId, sessionId, key, quantity);
      out, claims, delays := ReserveNew(matchId, quantity, sessionId, key, r, rivals, jitter);
      if claims > 0 { DrawnBounded(delays); }
      WhatIsAnswered(t, session.committed.ga, r, row, rivals, claims, maxAttempts, WindowOk(), out);
      if out.Reserved? {
        WhatIsStored(t, session.committed.ga, r, row, rivals, claims, out, now, ttl);
      }
    }

    /** One claim, after `n` attempts that came to nothing. */
    method Attempt(r: nat, row: Reservation, rivals: seq<Rivals>, n: nat, ghost t: GaTables) returns (end: ClaimEnd)
      requires stock.session == session && session.tables == session.committed
      requires n < |rivals| && session.committed.ga == Left(t, rivals, n, {r})
      modifies session
      ensures session.tables == session.committed == old(session.committed).(ga := session.committed.ga)
      ensures AttemptEnds(t, session.committed.ga, r, row, rivals, n, n + 1, end)
    {
      end := stock.Claim(row.matchId, row.quantity, r, row, rivals[n], {r});
    }

    /** The claims, one after another, until one is not a conflict. */
    method ReserveNew(matchId: nat, quantity: int, sessionId: string, key: string, r: nat, rivals: seq<Rivals>,
                      jitter: seq<real>)
      returns (out: GaOutcome, claims: nat, delays: seq<real>)
      requires stock.session == session && session.tables == session.committed && quantity >= 1
      requires GaInv(session.committed.ga) && r !in session.committed.ga.rows
      requires |rivals| == |jitter| >= maxAttempts && (WindowOk() ==> Drawn(jitter))
      modifies session
      ensures session.committed == old(session.committed).(ga := session.committed.ga)
      ensures claims <= |rivals| && (claims == 0 || claims <= maxAttempts)
      ensures |delays| == (if claims == 0 then 0 else claims - 1) && (WindowOk() || delays == []) && Drawn(delays)
      ensures claims == 0 ==> session.committed == old(session.committed) && maxAttempts <= 0
      ensures && Settles(old(session.committed.ga), session.committed.ga, r,
                         NewReservation(matchId, sessionId, key, quantity), rivals, claims, out)
              && (out.Raised? ==> Explains(
                    if claims == 0 then None
                    else Some(OutcomeAt(old(session.committed.ga), matchId, quantity, rivals, claims - 1, {r})),
                    claims >= maxAttempts, WindowOk(), out.error))
    {
      claims, delays := 0, [];
      ghost var t := session.committed.ga;
      while claims < maxAttempts
        invariant claims == 0 || claims <= maxAttempts
        invariant |delays| == (if claims == maxAttempts && claims > 0 then claims - 1 else claims)
        invariant Drawn(delays) && (WindowOk() || delays == [])
        invariant session.tables == session.committed == old(session.committed).(ga := session.committed.ga)
        invariant session.committed.ga == Left(t, rivals, claims, {r})
        invariant forall k :: 0 <= k < claims ==> OutcomeAt(t, matchId, quantity, rivals, k, {r}) == Conflict
      {
        var row := NewReservation(matchId, sessionId, key, quantity);
        var end := Attempt(r, row, rivals, claims, t);
        claims := claims + 1;
        match end {
          case KeyClash => return Raised(DatabaseError), claims, delays;
          case Ended(Claimed) => return Reserved(r, true), claims, delays;
          case Ended(Missing) => return Raised(GaNotFound), claims, delays;
          case Ended(Insufficient) => return Raised(GaUnavailable), claims, delays;
          case Ended(Conflict) =>
        }
        if claims < maxAttempts {
          if minMs < 0 || maxMs < minMs {
            return Raised(RetryWindow), claims, delays;
          }
          delays := delays + [jitter[claims - 1]];
        }
      }
      out := Raised(GaUnavailable);
    }

    method Repeat(q: nat, sessionId: string) returns (out: GaOutcome)
      requires UniqueKeys(session.tables.ga.rows) && q in session.tables.ga.rows
      ensures Repeats(session.tables.ga, session.tables.ga.rows[q].key, sessionId, out)
    {
      var rows := session.tables.ga.rows;
      forall other | other in rows && rows[other].key == rows[q].key ensures other == q {
        assert Pair(other, q);
      }
      out := if rows[q].sessionId != sessionId then Raised(HoldConflict) else Reserved(q, false);
    }
  }

  /** The books stay balanced; a call that raises has taken no units, and one that succeeds has taken
      exactly the units asked for, out of what the rivals left. */
  lemma SettlingConserves(t: GaTables, t': GaTables, r: nat, row: Reservation, rivals: seq<Rivals>, claims: nat,
                          out: GaOutcome)
    requires GaInv(t) && r !in t.rows && row.quantity >= 1 && row.status == HoldStatus.Active && claims <= |rivals|
    requires Settles(t, t', r, row, rivals, claims, out)
    ensures GaInv(t')
    ensures var left, m := Left(t, rivals, claims, {r}), row.matchId;
            && (out.Raised? ==> r !in t'.rows && t' == left)
            && (out.Reserved? ==>
                  && m in left.pools && m in t'.pools && t'.rows == left.rows[r := row]
                  && t'.pools[m].available == left.pools[m].available - row.quantity
                  && UnitsOut(t', m) == UnitsOut(left, m) + row.quantity)
  {
    var left := Left(t, rivals, claims, {r});
    LeftKeeps(t, rivals, claims, {r});
    if out.Reserved? {
      var before := Left(t, rivals, claims - 1, {r});
      assert left == Written(before, rivals[claims - 1], {r});
      ClaimPreserves(left, FindPool(Seen(before, rivals[claims - 1], {r}), row.matchId), r, row);
      WriteRow(left.rows, r, row, row.matchId);
    }
  }

  /** Without rivals the first attempt decides: it never meets a conflict, and succeeds exactly when
      the pool exists and has the units. */
  lemma AloneDecidesAtOnce(t: GaTables, m: nat, quantity: int, rivals: seq<Rivals>, n: nat, spared: set<nat>)
    requires GaInv(t) && n < |rivals| && rivals[n].during == []
    ensures OutcomeAt(t, m, quantity, rivals, n, spared) != Conflict
    ensures var pools := Seen(Left(t, rivals, n, spared), rivals[n], spared).pools;
            OutcomeAt(t, m, quantity, rivals, n, spared) == Claimed <==> m in pools && pools[m].available >= quantity
  {
    LeftKeeps(t, rivals, n, spared);
    ConflictMeansRival(Left(t, rivals, n, spared), m, quantity, rivals[n], spared);
  }

  /** A later call with the same key and session, whatever happened since, finds the reservation
      made and takes nothing more. */
  lemma ReplayTakesNothing(t: GaTables, t': GaTables, later: GaTables, r: nat, row: Reservation, rivals: seq<Rivals>,
                           claims: nat, who: string, again: GaOutcome)
    requires GaInv(t) && claims <= |rivals| && Settles(t, t', r, row, rivals, claims, Reserved(r, true))
    requires GaEvolves(t', later)
    ensures !KeyUnused(later, row.key)
    ensures Repeats(later, row.key, who, again) ==>
              again == if who == row.sessionId then Reserved(r, false) else Raised(HoldConflict)
  {
    LeftKeeps(t, rivals, claims, {r});
    assert row.matchId in Left(t, rivals, claims, {r}).pools;
    assert RowEvolves(t'.rows[r], later.rows[r]);
  }

  /** As long as the reservation stays ACTIVE its own session, and no other, may buy the units until the
      deadline; from the deadline on nobody may, and it is overdue. */
  lemma GoodUntilDeadline(left: GaTables, t': GaTables, r: nat, m: nat, sessionId: string, key: string, quantity: int,
                          at: int, ttl: int, db: Booking.Tables, who: string, clock: int)
    requires Stored(left, t', r, m, sessionId, key, quantity, at, ttl)
    requires GaEvolves(t', db.ga) && IsLive(db.ga, r)
    ensures Booking.Exists(db, GaClaim(r)) && db.ga.rows[r].quantity == quantity && db.ga.rows[r].matchId == m
    ensures Booking.Usable(db, GaClaim(r), who, clock) <==> who == sessionId && clock < at + ttl
    ensures r in Expiry.DueReservations(db.ga, clock) <==> at + ttl <= clock
  {
    assert RowEvolves(t'.rows[r], db.ga.rows[r]);
  }
}
