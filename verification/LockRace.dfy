/** Any number of lock-all calls interleaved one Redis command at a time, starting from no locks and
    with none expiring. Because every call takes its seats in increasing order, they cannot all fail. */
module LockRace {
  import opened Collections
  import opened SeatLocks

  datatype Phase = Acquiring | Releasing(given: nat) | Won | Failed

  /** One call: the seats in the order they are tried, and how many it has taken. */
  datatype Caller = Caller(matchId: nat, plan: seq<nat>, taken: nat, phase: Phase)

  datatype Race = Race(locks: map<LockKey, nat>, callers: seq<Caller>)

  function Wants(c: Caller, k: nat): LockKey
    requires k < |c.plan|
  {
    LockKey(c.matchId, c.plan[k])
  }

  predicate Finished(c: Caller) {
    c.phase == Won || c.phase == Failed
  }

  predicate Sane(r: Race) {
    forall i :: 0 <= i < |r.callers| ==> r.callers[i].taken <= |r.callers[i].plan|
  }

  /** The next command of caller `i`: SET NX, or compare-and-delete, or the return. */
  function Move(r: Race, i: nat): Race
    requires Sane(r) && i < |r.callers|
  {
    var c := r.callers[i];
    match c.phase
    case Acquiring =>
      if c.taken == |c.plan| then
        r.(callers := r.callers[i := c.(phase := Won)])
      else if Wants(c, c.taken) in r.locks then
        r.(callers := r.callers[i := c.(phase := Releasing(0))])
      else
        Race(r.locks[Wants(c, c.taken) := i], r.callers[i := c.(taken := c.taken + 1)])
    case Releasing(g) =>
      if g >= c.taken then
        r.(callers := r.callers[i := c.(phase := Failed)])
      else
        Race(WithoutOwned(r.locks, c.matchId, {c.plan[g]}, i), r.callers[i := c.(phase := Releasing(g + 1))])
    case _ => r
  }

  /** Nobody has a lock and everybody is about to try a non-empty list of seats. */
  predicate Start(r: Race) {
    && r.locks == map[]
    && forall i :: 0 <= i < |r.callers| ==>
         r.callers[i].plan != [] && r.callers[i].taken == 0 && r.callers[i].phase == Acquiring
  }

  predicate Ordered(r: Race) {
    forall i :: 0 <= i < |r.callers| ==> Increasing(r.callers[i].plan)
  }

  // ---------- the invariant ----------

  /** The seats caller `c` holds at present: those taken and not yet given back. */
  predicate Holds(c: Caller, k: nat) {
    && k < c.taken <= |c.plan|
    && match c.phase
       case Releasing(g) => g <= k
       case Failed => false
       case _ => true
  }

  /** At some time caller `c` took the lock `key`. */
  predicate Took(c: Caller, key: LockKey) {
    c.taken <= |c.plan| && exists k :: 0 <= k < c.taken && Wants(c, k) == key
  }

  /** Whoever stopped short was stopped by a lock somebody else had taken. */
  predicate BlockedBySome(r: Race, i: nat)
    requires i < |r.callers|
  {
    var c := r.callers[i];
    c.taken < |c.plan| && exists j :: 0 <= j < |r.callers| && j != i && Took(r.callers[j], Wants(c, c.taken))
  }

  predicate OwnsWhatItHolds(r: Race, i: nat)
    requires i < |r.callers|
  {
    forall k :: 0 <= k < |r.callers[i].plan| && Holds(r.callers[i], k) ==>
      Wants(r.callers[i], k) in r.locks && r.locks[Wants(r.callers[i], k)] == i
  }

  predicate LockHeld(r: Race, key: LockKey)
    requires key in r.locks
  {
    var i := r.locks[key];
    i < |r.callers| && exists k :: 0 <= k < |r.callers[i].plan| && Holds(r.callers[i], k) && Wants(r.callers[i], k) == key
  }

  predicate CallerOk(r: Race, i: nat)
    requires i < |r.callers|
  {
    var c := r.callers[i];
    && c.plan != [] && c.taken <= |c.plan|
    && OwnsWhatItHolds(r, i)
    && (c.phase.Releasing? || c.phase == Failed ==> BlockedBySome(r, i))
    && (c.phase == Won ==> c.taken == |c.plan|)
  }

  predicate RaceInv(r: Race) {
    && Ordered(r)
    && (forall i {:trigger CallerOk(r, i)} :: 0 <= i < |r.callers| ==> CallerOk(r, i))
    && (forall key {:trigger LockHeld(r, key)} :: key in r.locks ==> LockHeld(r, key))
  }

  lemma StartInv(r: Race)
    requires Start(r) && Ordered(r)
    ensures RaceInv(r)
  {
  }

  /** What a caller took stays taken in this sense, so whoever was blocked stays explained. */
  lemma BlockStays(r: Race, r': Race, i: nat, p: nat)
    requires i < |r.callers| && p < |r.callers| == |r'.callers| && BlockedBySome(r, p)
    requires r'.callers[p].(phase := r.callers[p].phase) == r.callers[p]
    requires forall q :: 0 <= q < |r.callers| && q != i ==> r'.callers[q] == r.callers[q]
    requires r'.callers[i].plan == r.callers[i].plan && r'.callers[i].matchId == r.callers[i].matchId
    requires r.callers[i].taken <= r'.callers[i].taken <= |r.callers[i].plan|
    ensures BlockedBySome(r', p)
  {
    var want := Wants(r.callers[p], r.callers[p].taken);
    var j :| 0 <= j < |r.callers| && j != p && Took(r.callers[j], want);
    var k :| 0 <= k < r.callers[j].taken && Wants(r.callers[j], k) == want;
    assert Wants(r'.callers[j], k) == want;
    assert Took(r'.callers[j], want);
  }

  /** A change of phase alone, that gives up nothing held. */
  lemma PhaseKeeps(r: Race, i: nat, phase: Phase)
    requires RaceInv(r) && i < |r.callers|
    requires var c := r.callers[i];
             var c' := c.(phase := phase);
             && (forall k :: Holds(c', k) <==> Holds(c, k))
             && (phase.Releasing? || phase == Failed ==> BlockedBySome(r, i))
             && (phase == Won ==> c.taken == |c.plan|)
    ensures RaceInv(r.(callers := r.callers[i := r.callers[i].(phase := phase)]))
  {
    var r' := r.(callers := r.callers[i := r.callers[i].(phase := phase)]);
    assert CallerOk(r, i);
    forall p | 0 <= p < |r'.callers| ensures CallerOk(r', p) {
      assert CallerOk(r, p);
      if BlockedBySome(r, p) { BlockStays(r, r', i, p); }
    }
    forall key | key in r'.locks ensures LockHeld(r', key) {
      assert LockHeld(r, key);
      var j := r.locks[key];
      var k :| 0 <= k < |r.callers[j].plan| && Holds(r.callers[j], k) && Wants(r.callers[j], k) == key;
      assert Holds(r'.callers[j], k) && Wants(r'.callers[j], k) == key;
    }
  }

  lemma AcquireKeeps(r: Race, r': Race, i: nat)
    requires RaceInv(r) && i < |r.callers|
    requires var c := r.callers[i];
             && c.phase == Acquiring && c.taken < |c.plan| && Wants(c, c.taken) !in r.locks
             && r' == Race(r.locks[Wants(c, c.taken) := i], r.callers[i := c.(taken := c.taken + 1)])
    ensures RaceInv(r')
  {
    var c := r.callers[i];
    var added := Wants(c, c.taken);
    assert CallerOk(r, i);
    forall p | 0 <= p < |r'.callers| ensures CallerOk(r', p) {
      assert CallerOk(r, p);
      if p != i && BlockedBySome(r, p) { BlockStays(r, r', i, p); }
      forall k | 0 <= k < |r'.callers[p].plan| && Holds(r'.callers[p], k)
        ensures Wants(r'.callers[p], k) in r'.locks && r'.locks[Wants(r'.callers[p], k)] == p
      {
        if p != i || k < c.taken { assert Holds(r.callers[p], k); }
      }
    }
    forall key | key in r'.locks ensures LockHeld(r', key) {
      if key == added {
        assert Holds(r'.callers[i], c.taken) && Wants(r'.callers[i], c.taken) == key;
      } else {
        assert LockHeld(r, key);
        var j := r.locks[key];
        var k :| 0 <= k < |r.callers[j].plan| && Holds(r.callers[j], k) && Wants(r.callers[j], k) == key;
        assert Holds(r'.callers[j], k) && Wants(r'.callers[j], k) == key;
      }
    }
  }

  lemma GiveBackKeeps(r: Race, r': Race, i: nat)
    requires RaceInv(r) && i < |r.callers|
    requires var c := r.callers[i];
             && c.phase.Releasing? && c.phase.given < c.taken <= |c.plan|
             && r' == Race(WithoutOwned(r.locks, c.matchId, {c.plan[c.phase.given]}, i),
                           r.callers[i := c.(phase := Releasing(c.phase.given + 1))])
    ensures RaceInv(r')
  {
    var c := r.callers[i];
    var g := c.phase.given;
    assert CallerOk(r, i);
    assert Holds(c, g);
    forall p | 0 <= p < |r'.callers| ensures CallerOk(r', p) {
      assert CallerOk(r, p);
      if BlockedBySome(r, p) { BlockStays(r, r', i, p); }
      forall k | 0 <= k < |r'.callers[p].plan| && Holds(r'.callers[p], k)
        ensures Wants(r'.callers[p], k) in r'.locks && r'.locks[Wants(r'.callers[p], k)] == p
      {
        assert Holds(r.callers[p], k);
        if p == i { assert c.plan[g] < c.plan[k]; }
      }
    }
    forall key | key in r'.locks ensures LockHeld(r', key) {
      assert LockHeld(r, key);
      var j := r.locks[key];
      var k :| 0 <= k < |r.callers[j].plan| && Holds(r.callers[j], k) && Wants(r.callers[j], k) == key;
      assert j == i ==> k != g;
      assert Holds(r'.callers[j], k) && Wants(r'.callers[j], k) == key;
    }
  }

  /** The lock that stops a caller was taken by somebody else: its own seats so far are all smaller. */
  lemma StoppedBySomebody(r: Race, i: nat)
    requires RaceInv(r) && i < |r.callers|
    requires var c := r.callers[i]; c.phase == Acquiring && c.taken < |c.plan| && Wants(c, c.taken) in r.locks
    ensures BlockedBySome(r, i)
  {
    var c := r.callers[i];
    var key := Wants(c, c.taken);
    assert CallerOk(r, i) && LockHeld(r, key);
    var j := r.locks[key];
    var k :| 0 <= k < |r.callers[j].plan| && Holds(r.callers[j], k) && Wants(r.callers[j], k) == key;
    assert k < c.taken ==> c.plan[k] < c.plan[c.taken];
    assert Took(r.callers[j], key);
  }

  lemma MoveKeeps(r: Race, i: nat)
    requires RaceInv(r) && i < |r.callers|
    ensures Sane(r) && RaceInv(Move(r, i))
  {
    forall p | 0 <= p < |r.callers| ensures r.callers[p].taken <= |r.callers[p].plan| {
      assert CallerOk(r, p);
    }
    var c := r.callers[i];
    match c.phase
    case Acquiring =>
      if c.taken == |c.plan| {
        PhaseKeeps(r, i, Won);
      } else if Wants(c, c.taken) in r.locks {
        StoppedBySomebody(r, i);
        PhaseKeeps(r, i, Releasing(0));
      } else {
        AcquireKeeps(r, Move(r, i), i);
      }
    case Releasing(g) =>
      if g >= c.taken {
        assert CallerOk(r, i);
        PhaseKeeps(r, i, Failed);
      } else {
        GiveBackKeeps(r, Move(r, i), i);
      }
    case _ =>
      assert r.callers[i := c] == r.callers;
  }

  // ---------- whole races ----------

  /** The race after callers have moved in the given order. */
  ghost function After(r: Race, schedule: seq<nat>): Race
    requires RaceInv(r) && forall n :: 0 <= n < |schedule| ==> schedule[n] < |r.callers|
    decreases |schedule|
  {
    if schedule == [] then r
    else
      MoveKeeps(r, schedule[0]);
      After(Move(r, schedule[0]), schedule[1..])
  }

  lemma {:induction false} AfterInv(r: Race, schedule: seq<nat>)
    requires RaceInv(r) && forall n :: 0 <= n < |schedule| ==> schedule[n] < |r.callers|
    ensures RaceInv(After(r, schedule)) && |After(r, schedule).callers| == |r.callers|
    decreases |schedule|
  {
    if schedule != [] {
      MoveKeeps(r, schedule[0]);
      AfterInv(Move(r, schedule[0]), schedule[1..]);
    }
  }

  /** The failed caller whose blocking seat is largest among the first `n`. */
  lemma {:induction false} LargestFailure(r: Race, n: nat, some: nat) returns (i: nat)
    requires RaceInv(r) && some < n <= |r.callers| && r.callers[some].phase == Failed
    ensures i < n && r.callers[i].phase == Failed && r.callers[i].taken < |r.callers[i].plan|
    ensures forall p :: 0 <= p < n && r.callers[p].phase == Failed ==>
              r.callers[p].taken < |r.callers[p].plan|
              && r.callers[p].plan[r.callers[p].taken] <= r.callers[i].plan[r.callers[i].taken]
  {
    assert CallerOk(r, n - 1);
    if exists q :: 0 <= q < n - 1 && r.callers[q].phase == Failed {
      var q :| 0 <= q < n - 1 && r.callers[q].phase == Failed;
      i := LargestFailure(r, n - 1, q);
      var last := r.callers[n - 1];
      if last.phase == Failed && r.callers[i].plan[r.callers[i].taken] < last.plan[last.taken] {
        i := n - 1;
      }
    } else {
      i := n - 1;
    }
  }

  /** Not everybody can have failed: whoever blocked the largest failing seat went past it. */
  lemma NotAllFail(r: Race) returns (j: nat)
    requires RaceInv(r) && r.callers != []
    ensures j < |r.callers| && r.callers[j].phase != Failed
  {
    j := 0;
    if r.callers[0].phase == Failed {
      var i := LargestFailure(r, |r.callers|, 0);
      assert CallerOk(r, i);
      var want := Wants(r.callers[i], r.callers[i].taken);
      j :| 0 <= j < |r.callers| && j != i && Took(r.callers[j], want);
      var k :| 0 <= k < r.callers[j].taken && Wants(r.callers[j], k) == want;
      assert r.callers[j].taken < |r.callers[j].plan| ==>
          r.callers[j].plan[k] < r.callers[j].plan[r.callers[j].taken];
    }
  }

  /** Ordered locking cannot end in mutual failure: from no locks, in any interleaving of any number
      of calls, once all have finished at least one has all its seats. */
  lemma SomebodyWins(r: Race, schedule: seq<nat>)
    requires Start(r) && Ordered(r) && r.callers != []
    requires forall n :: 0 <= n < |schedule| ==> schedule[n] < |r.callers|
    ensures RaceInv(r)
    ensures var end := After(r, schedule);
            (forall i :: 0 <= i < |end.callers| ==> Finished(end.callers[i])) ==>
            exists i :: 0 <= i < |end.callers| && end.callers[i].phase == Won
  {
    StartInv(r);
    AfterInv(r, schedule);
    var j := NotAllFail(After(r, schedule));
  }

  /** When all have finished the lock table holds the winners' seats and nothing else, and no two
      winners share a seat. */
  lemma WinnersKeepTheirSeats(r: Race, i: nat, j: nat, k: nat, l: nat)
    requires RaceInv(r) && i < |r.callers| && j < |r.callers| && k < |r.callers[i].plan| && l < |r.callers[j].plan|
    requires forall p :: 0 <= p < |r.callers| ==> Finished(r.callers[p])
    requires r.callers[i].phase == Won
    ensures Wants(r.callers[i], k) in r.locks && r.locks[Wants(r.callers[i], k)] == i
    ensures r.callers[j].phase == Won && j != i ==> Wants(r.callers[i], k) != Wants(r.callers[j], l)
    ensures forall key :: key in r.locks ==> r.locks[key] < |r.callers| && r.callers[r.locks[key]].phase == Won
  {
    assert CallerOk(r, i) && CallerOk(r, j);
    assert Holds(r.callers[i], k);
    if r.callers[j].phase == Won { assert Holds(r.callers[j], l); }
    forall key | key in r.locks ensures r.locks[key] < |r.callers| && r.callers[r.locks[key]].phase == Won {
      assert LockHeld(r, key);
    }
  }

  // ---------- every race ends ----------

  /** Commands a caller still has to issue at most. */
  function Left(c: Caller): nat {
    match c.phase
    case Acquiring => 2 * |c.plan| + 2 - (if c.taken <= |c.plan| then c.taken else |c.plan|)
    case Releasing(g) => if g < c.taken then c.taken - g + 1 else 1
    case _ => 0
  }

  function TotalLeft(callers: seq<Caller>): nat {
    if callers == [] then 0 else Left(callers[0]) + TotalLeft(callers[1..])
  }

  lemma {:induction false} TotalLeftUpdate(callers: seq<Caller>, i: nat, c: Caller)
    requires i < |callers|
    ensures TotalLeft(callers[i := c]) == TotalLeft(callers) - Left(callers[i]) + Left(c)
  {
    if i == 0 {
      assert callers[0 := c][1..] == callers[1..];
    } else {
      TotalLeftUpdate(callers[1..], i - 1, c);
      assert callers[i := c][1..] == callers[1..][i - 1 := c];
    }
  }

  /** No caller ever waits: an unfinished one can always move, and each move brings the end nearer. So
      every schedule that gives turns to unfinished callers ends, within this many moves. */
  lemma MovesRunOut(r: Race, i: nat)
    requires RaceInv(r) && i < |r.callers| && !Finished(r.callers[i])
    ensures Sane(r) && TotalLeft(Move(r, i).callers) < TotalLeft(r.callers)
  {
    MoveKeeps(r, i);
    assert CallerOk(r, i);
    TotalLeftUpdate(r.callers, i, Move(r, i).callers[i]);
  }

  /** Only callers that have not finished get a turn. */
  ghost predicate Busy(r: Race, schedule: seq<nat>)
    requires RaceInv(r)
    decreases |schedule|
  {
    schedule == [] ||
    (&& schedule[0] < |r.callers| && !Finished(r.callers[schedule[0]])
     && (MoveKeeps(r, schedule[0]); Busy(Move(r, schedule[0]), schedule[1..])))
  }

  /** Such a race is over after at most this many moves, whoever gets them. */
  lemma {:induction false} RaceEnds(r: Race, schedule: seq<nat>)
    requires RaceInv(r) && Busy(r, schedule)
    ensures |schedule| <= TotalLeft(r.callers)
    decreases |schedule|
  {
    if schedule != [] {
      MovesRunOut(r, schedule[0]);
      MoveKeeps(r, schedule[0]);
      RaceEnds(Move(r, schedule[0]), schedule[1..]);
    }
  }

  /** Two calls for the seats 1 and 2, each trying them in its own order, after `n` alternate moves. */
  function Crossed(n: nat): Race {
    var a, b := Caller(0, [1, 2], 1, Acquiring), Caller(0, [2, 1], 1, Acquiring);
    var one, two := LockKey(0, 1), LockKey(0, 2);
    match n
    case 0 => Race(map[], [a.(taken := 0), b.(taken := 0)])
    case 1 => Race(map[one := 0], [a, b.(taken := 0)])
    case 2 => Race(map[one := 0, two := 1], [a, b])
    case 3 => Race(map[one := 0, two := 1], [a.(phase := Releasing(0)), b])
    case 4 => Race(map[one := 0, two := 1], [a.(phase := Releasing(0)), b.(phase := Releasing(0))])
    case 5 => Race(map[two := 1], [a.(phase := Releasing(1)), b.(phase := Releasing(0))])
    case 6 => Race(map[], [a.(phase := Releasing(1)), b.(phase := Releasing(1))])
    case 7 => Race(map[], [a.(phase := Failed), b.(phase := Releasing(1))])
    case _ => Race(map[], [a.(phase := Failed), b.(phase := Failed)])
  }

  /** The order matters: tried in opposite orders, the two calls both fail. */
  lemma UnorderedCanAllFail()
    ensures Start(Crossed(0)) && !Ordered(Crossed(0))
    ensures forall n :: 0 <= n < 8 ==> Sane(Crossed(n)) && Crossed(n + 1) == Move(Crossed(n), n % 2)
    ensures Crossed(8).callers[0].phase == Failed && Crossed(8).callers[1].phase == Failed
  {
    var b := Crossed(0).callers[1];
    assert b.plan[0] > b.plan[1];
    assert !Increasing(b.plan);
    forall n | 0 <= n < 8 ensures Sane(Crossed(n)) && Crossed(n + 1) == Move(Crossed(n), n % 2) {
      CrossedMoves(n);
    }
  }

  lemma CrossedMoves(n: nat)
    requires n < 8
    ensures Sane(Crossed(n)) && Crossed(n + 1) == Move(Crossed(n), n % 2)
  {
    var r := Crossed(n);
    assert r.callers[0].plan == [1, 2] && r.callers[1].plan == [2, 1];
    match n
    case 4 => assert WithoutOwned(r.locks, 0, {1}, 0) == map[LockKey(0, 2) := 1];
    case 5 => assert WithoutOwned(r.locks, 0, {2}, 1) == map[];
    case _ =>
  }

  // ---------- one caller alone ----------

  /** `n` commands of caller `i` with nobody else in between. */
  ghost function Alone(r: Race, i: nat, n: nat): (r': Race)
    requires Sane(r) && i < |r.callers|
    ensures Sane(r') && |r'.callers| == |r.callers|
  {
    if n == 0 then r else Move(Alone(r, i, n - 1), i)
  }

  /** The caller is about to try its seats. */
  predicate Begins(r: Race, i: nat) {
    && Sane(r) && i < |r.callers|
    && r.callers[i].taken == 0 && r.callers[i].phase == Acquiring && Increasing(r.callers[i].plan)
  }

  lemma TakesOneMore(r: Race, i: nat, c: Caller, before: map<LockKey, nat>, n: nat, next: nat)
    requires Sane(r) && i < |r.callers| && r.callers[i] == c.(taken := n) && c.phase == Acquiring
    requires Increasing(c.plan) && next == n + 1 <= |c.plan| && AllFree(before, c.matchId, Elements(c.plan[..next]))
    requires LockedFor(r.locks, before, c.matchId, Elements(c.plan[..n]), i)
    ensures Move(r, i).callers[i] == c.(taken := next)
    ensures LockedFor(Move(r, i).locks, before, c.matchId, Elements(c.plan[..next]), i)
  {
    PrefixStep(c.plan, n);
    LockOneMore(r.locks, before, c.matchId, Elements(c.plan[..n]), c.plan[n], i);
    assert LockKey(c.matchId, c.plan[n]) !in before;
  }

  lemma {:induction false} AloneTakes(r: Race, i: nat, c: Caller, n: nat)
    requires Begins(r, i) && c == r.callers[i] && n <= |c.plan| && AllFree(r.locks, c.matchId, Elements(c.plan[..n]))
    ensures Alone(r, i, n).callers[i] == c.(taken := n)
    ensures LockedFor(Alone(r, i, n).locks, r.locks, c.matchId, Elements(c.plan[..n]), i)
  {
    if n > 0 {
      var m: nat := n - 1;
      PrefixStep(c.plan, m);
      AloneTakes(r, i, c, m);
      TakesOneMore(Alone(r, i, m), i, c, r.locks, m, n);
    }
  }

  /** The first command that meets a taken lock. */
  lemma MeetsLock(r: Race, i: nat, c: Caller, before: map<LockKey, nat>, n: nat)
    requires Sane(r) && i < |r.callers| && r.callers[i] == c.(taken := n) && c.phase == Acquiring
    requires n < |c.plan| && LockKey(c.matchId, c.plan[n]) in before
    requires LockedFor(r.locks, before, c.matchId, Elements(c.plan[..n]), i)
    ensures Move(r, i).callers[i] == c.(taken := n, phase := Releasing(0)) && Move(r, i).locks == r.locks
  {
  }

  lemma GivesOneMore(r: Race, i: nat, c: Caller, taken: map<LockKey, nat>, n: nat, g: nat, next: nat)
    requires Sane(r) && i < |r.callers| && r.callers[i] == c.(taken := n, phase := Releasing(g)) && Increasing(c.plan)
    requires next == g + 1 <= n <= |c.plan| && r.locks == WithoutOwned(taken, c.matchId, Elements(c.plan[..g]), i)
    ensures Move(r, i).callers[i] == c.(taken := n, phase := Releasing(next))
    ensures Move(r, i).locks == WithoutOwned(taken, c.matchId, Elements(c.plan[..next]), i)
  {
    PrefixStep(c.plan, g);
  }

  lemma AloneMeetsLock(r: Race, i: nat, c: Caller, n: nat, at: nat, held: map<LockKey, nat>)
    requires Begins(r, i) && c == r.callers[i] && n < |c.plan| && at == n + 1 && held == Alone(r, i, n).locks
    requires AllFree(r.locks, c.matchId, Elements(c.plan[..n])) && LockKey(c.matchId, c.plan[n]) in r.locks
    ensures Alone(r, i, at).callers[i] == c.(taken := n, phase := Releasing(0)) && Alone(r, i, at).locks == held
  {
    AloneTakes(r, i, c, n);
    MeetsLock(Alone(r, i, n), i, c, r.locks, n);
  }

  lemma AloneGivesNext(r: Race, i: nat, c: Caller, n: nat, g: nat, next: nat, at: nat, later: nat, held: map<LockKey, nat>)
    requires Begins(r, i) && c == r.callers[i] && next == g + 1 <= n <= |c.plan| && later == at + 1
    requires Alone(r, i, at).callers[i] == c.(taken := n, phase := Releasing(g))
    requires Alone(r, i, at).locks == WithoutOwned(held, c.matchId, Elements(c.plan[..g]), i)
    ensures Alone(r, i, later).callers[i] == c.(taken := n, phase := Releasing(next))
    ensures Alone(r, i, later).locks == WithoutOwned(held, c.matchId, Elements(c.plan[..next]), i)
  {
    GivesOneMore(Alone(r, i, at), i, c, held, n, g, next);
  }

  /** Giving back the first `g` of the locks taken. */
  lemma {:induction false} AloneGives(r: Race, i: nat, c: Caller, n: nat, g: nat, at: nat, held: map<LockKey, nat>)
    requires Begins(r, i) && c == r.callers[i] && g <= n < |c.plan| && at == n + 1 + g && held == Alone(r, i, n).locks
    requires AllFree(r.locks, c.matchId, Elements(c.plan[..n])) && LockKey(c.matchId, c.plan[n]) in r.locks
    ensures Alone(r, i, at).callers[i] == c.(taken := n, phase := Releasing(g))
    ensures Alone(r, i, at).locks == WithoutOwned(held, c.matchId, Elements(c.plan[..g]), i)
    decreases g
  {
    if g == 0 {
      AloneMeetsLock(r, i, c, n, at, held);
      NothingGiven(held, c.matchId, c.plan, i);
    } else {
      var m: nat := g - 1;
      var before: nat := at - 1;
      AloneGives(r, i, c, n, m, before, held);
      AloneGivesNext(r, i, c, n, m, g, before, at, held);
    }
  }

  lemma NothingGiven(held: map<LockKey, nat>, matchId: nat, plan: seq<nat>, i: nat)
    ensures WithoutOwned(held, matchId, Elements(plan[..0]), i) == held
  {
    assert Elements(plan[..0]) == {};
  }

  lemma NothingLeftToGive(r: Race, i: nat, c: Caller, n: nat)
    requires Sane(r) && i < |r.callers| && r.callers[i] == c.(taken := n, phase := Releasing(n))
    ensures Move(r, i).callers[i].phase == Failed && Move(r, i).locks == r.locks
  {
  }

  lemma AloneGivesAll(r: Race, i: nat, c: Caller, n: nat, last: nat)
    requires Begins(r, i) && c == r.callers[i] && n < |c.plan| && last == n + 1 + n
    requires AllFree(r.locks, c.matchId, Elements(c.plan[..n])) && LockKey(c.matchId, c.plan[n]) in r.locks
    ensures Alone(r, i, last).callers[i] == c.(taken := n, phase := Releasing(n)) && Alone(r, i, last).locks == r.locks
  {
    var held := Alone(r, i, n).locks;
    AloneGives(r, i, c, n, n, last, held);
    AloneTakes(r, i, c, n);
    GiveBack(held, r.locks, c.matchId, Elements(c.plan[..n]), i);
  }

  lemma AloneFails(r: Race, i: nat, c: Caller, n: nat, last: nat)
    requires Begins(r, i) && c == r.callers[i] && n < |c.plan| && last == n + 1 + n
    requires AllFree(r.locks, c.matchId, Elements(c.plan[..n])) && LockKey(c.matchId, c.plan[n]) in r.locks
    ensures Alone(r, i, last + 1).callers[i].phase == Failed && Alone(r, i, last + 1).locks == r.locks
  {
    AloneGivesAll(r, i, c, n, last);
    NothingLeftToGive(Alone(r, i, last), i, c, n);
  }

  lemma AloneWins(r: Race, i: nat, c: Caller, n: nat)
    requires Begins(r, i) && c == r.callers[i] && n == |c.plan| && AllFree(r.locks, c.matchId, Elements(c.plan))
    ensures Alone(r, i, n + 1).callers[i].phase == Won
    ensures LockedFor(Alone(r, i, n + 1).locks, r.locks, c.matchId, Elements(c.plan), i)
  {
    assert c.plan[..n] == c.plan;
    AloneTakes(r, i, c, n);
  }

  /** Alone, a caller does what the gate's `AcquireInOrder` does in one go: with every seat free it wins
      and has them all; otherwise it fails and the lock table is as it was. */
  lemma AloneIsAcquireInOrder(r: Race, i: nat, c: Caller) returns (n: nat)
    requires Begins(r, i) && c == r.callers[i]
    ensures AllFree(r.locks, c.matchId, Elements(c.plan)) ==>
              && Alone(r, i, n).callers[i].phase == Won
              && LockedFor(Alone(r, i, n).locks, r.locks, c.matchId, Elements(c.plan), i)
    ensures !AllFree(r.locks, c.matchId, Elements(c.plan)) ==>
              Alone(r, i, n).callers[i].phase == Failed && Alone(r, i, n).locks == r.locks
  {
    var k := FreePrefix(r.locks, c.matchId, c.plan);
    if k == |c.plan| {
      assert c.plan[..k] == c.plan;
      AloneWins(r, i, c, k);
      n := k + 1;
    } else {
      assert c.plan[k] in Elements(c.plan);
      var last := k + 1 + k;
      AloneFails(r, i, c, k, last);
      n := last + 1;
    }
  }

  lemma FreePrefix(locks: map<LockKey, nat>, matchId: nat, plan: seq<nat>) returns (k: nat)
    ensures k <= |plan| && AllFree(locks, matchId, Elements(plan[..k]))
    ensures k < |plan| ==> LockKey(matchId, plan[k]) in locks
  {
    k := 0;
    while k < |plan| && LockKey(matchId, plan[k]) !in locks
      invariant k <= |plan| && AllFree(locks, matchId, Elements(plan[..k]))
    {
      assert Elements(plan[..k + 1]) == Elements(plan[..k]) + {plan[k]};
      k := k + 1;
    }
  }
}
