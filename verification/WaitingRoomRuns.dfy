/** The waiting room over whole runs: joins, look-ups and ticks in any order and at any times. */
module WaitingRoomRuns {
  import opened Collections
  import opened RateLimit
  import opened WaitingRoom
  import WaitingRoomRows

  /** The room, and everybody ever admitted, in order. */
  datatype Hall = Hall(room: Room, log: seq<Admission>)

  /** A status query and a token look-up only drop shoppers whose time is up. */
  datatype Call =
    | Joining(visitor: Visitor, at: Instant, supply: seq<Token>)
    | Ticking(at: Instant, supply: seq<Token>)
    | Looking(at: Instant)

  predicate CanCall(hall: Hall, call: Call) {
    match call
    case Joining(_, _, supply) => |supply| > |hall.room.queue| && Unused(hall.room, supply)
    case Ticking(_, supply) => |supply| >= |hall.room.queue| && Unused(hall.room, supply)
    case Looking(_) => true
  }

  function Called(room: Room, cfg: Config, call: Call): Ticked
    requires QueueOk(room.queue, room.issued) && CanCall(Hall(room, []), call)
  {
    match call
    case Joining(v, at, supply) => Join(room, at, cfg, v, supply)
    case Ticking(at, supply) => Tick(room, at, cfg, supply)
    case Looking(at) => Ticked(Gc(room, at.now), [])
  }

  function After(hall: Hall, cfg: Config, call: Call): Hall
    requires QueueOk(hall.room.queue, hall.room.issued) && CanCall(hall, call)
  {
    var t := Called(hall.room, cfg, call);
    Hall(t.room, hall.log + t.entries)
  }

  // ---------- what a call does to the queue ----------

  /** The room when the call decides whom to admit: with the newcomer, if there is one. */
  function Deciding(room: Room, call: Call): Room {
    var clean := Gc(room, call.at.now);
    if call.Joining? && !Known(clean, call.visitor) then Enqueue(clean, call.visitor) else clean
  }

  /** Some front of the queue `q` is admitted in one second, whose budget pays for it. */
  ghost predicate Admits(q: map<Visitor, nat>, rate: map<int, int>, second: int, t: Ticked, taken: seq<Visitor>) {
    && Front(q, taken)
    && t.room.queue == q - Elements(taken)
    && t.entries == Admissions(q, taken, second)
    && Used(rate, second) + |taken| <= Used(t.room.rate, second)
    && forall e :: e != second ==> Used(t.room.rate, e) == Used(rate, e)
  }

  lemma BudgetCharged(room: Room, second: int, cfg: Config)
    ensures var charged := Charged(room, second, cfg).rate;
            && Used(charged, second) == Used(room.rate, second) + Budget(room, second, cfg).granted
            && Admitting(room, second, cfg) <= Budget(room, second, cfg).granted
            && forall e :: e != second ==> Used(charged, e) == Used(room.rate, e)
  {
  }

  lemma TickAdmits(room: Room, second: int, until: int, cfg: Config, supply: seq<Token>) returns (taken: seq<Visitor>)
    requires Distinct(room.queue) && |supply| >= |room.queue|
    ensures Admits(room.queue, room.rate, second, TickClean(room, second, until, cfg, supply), taken)
    ensures TickClean(room, second, until, cfg, supply).room.issued == room.issued
  {
    taken := WaitingRoom.Taken(room, second, cfg);
    assert |taken| <= Admitting(room, second, cfg) && Front(room.queue, taken);
    BudgetCharged(room, second, cfg);
    LetInFrame(room, second, until, cfg, taken, supply);
  }

  lemma LetInFrame(room: Room, second: int, expiresAt: int, cfg: Config, taken: seq<Visitor>, supply: seq<Token>)
    requires |taken| <= |supply|
    ensures LetIn(room, second, expiresAt, cfg, taken, supply).queue == room.queue - Elements(taken)
    ensures LetIn(room, second, expiresAt, cfg, taken, supply).issued == room.issued
    ensures LetIn(room, second, expiresAt, cfg, taken, supply).rate == Charged(room, second, cfg).rate
  {
    EnterAllFrame(Popped(room, second, cfg, taken), taken, supply, expiresAt, |taken|);
  }

  lemma NobodyAdmitted(room: Room, rate: map<int, int>, second: int, t: Ticked)
    requires t.entries == [] && t.room.queue == room.queue && t.room.rate == room.rate
    ensures Admits(room.queue, room.rate, second, t, [])
  {
    assert room.queue - Elements([]) == room.queue;
  }

  /** What every call does to the queue. */
  ghost predicate Serves(room: Room, cfg: Config, call: Call, t: Ticked, taken: seq<Visitor>) {
    && Admits(Deciding(room, call).queue, room.rate, call.at.second, t, taken)
    && t.room.issued == Deciding(room, call).issued
    && (call.Looking? ==> taken == [])
  }

  lemma KnownServes(room: Room, cfg: Config, v: Visitor, at: Instant, supply: seq<Token>)
    requires QueueOk(room.queue, room.issued) && |supply| > |room.queue| && Known(Gc(room, at.now), v)
    ensures Serves(room, cfg, Joining(v, at, supply), Join(room, at, cfg, v, supply), [])
  {
    NobodyAdmitted(room, room.rate, at.second, Join(room, at, cfg, v, supply));
  }

  lemma NewcomerServes(room: Room, cfg: Config, v: Visitor, at: Instant, supply: seq<Token>) returns (taken: seq<Visitor>)
    requires QueueOk(room.queue, room.issued) && |supply| > |room.queue| && !Known(Gc(room, at.now), v)
    ensures Serves(room, cfg, Joining(v, at, supply), Join(room, at, cfg, v, supply), taken)
  {
    taken := NewcomerAdmits(Gc(room, at.now), at, cfg, v, supply);
  }

  lemma JoinServes(room: Room, cfg: Config, v: Visitor, at: Instant, supply: seq<Token>) returns (taken: seq<Visitor>)
    requires QueueOk(room.queue, room.issued) && |supply| > |room.queue|
    ensures Serves(room, cfg, Joining(v, at, supply), Join(room, at, cfg, v, supply), taken)
  {
    if Known(Gc(room, at.now), v) {
      KnownServes(room, cfg, v, at, supply);
      taken := [];
    } else {
      taken := NewcomerServes(room, cfg, v, at, supply);
    }
  }

  lemma TickServes(room: Room, cfg: Config, at: Instant, supply: seq<Token>) returns (taken: seq<Visitor>)
    requires Distinct(room.queue) && |supply| >= |room.queue|
    ensures Serves(room, cfg, Ticking(at, supply), Tick(room, at, cfg, supply), taken)
  {
    taken := TickAdmits(Gc(room, at.now), at.second, at.until, cfg, supply);
  }

  /** Every call admits some front of the queue, possibly nobody, and does nothing else to it but add
      the newcomer at the back. */
  lemma CallServes(room: Room, cfg: Config, call: Call) returns (taken: seq<Visitor>)
    requires QueueOk(room.queue, room.issued) && CanCall(Hall(room, []), call)
    ensures Serves(room, cfg, call, Called(room, cfg, call), taken)
  {
    match call
    case Joining(v, at, supply) => taken := JoinServes(room, cfg, v, at, supply);
    case Ticking(at, supply) => taken := TickServes(room, cfg, at, supply);
    case Looking(at) =>
      taken := [];
      NobodyAdmitted(room, room.rate, at.second, Ticked(Gc(room, at.now), []));
  }

  lemma EnqueueOk(room: Room, v: Visitor)
    requires QueueOk(room.queue, room.issued) && v !in room.queue
    ensures QueueOk(Enqueue(room, v).queue, Enqueue(room, v).issued)
    ensures |Enqueue(room, v).queue| == |room.queue| + 1
  {
    EnqueueSize(room.queue, v, ScoreAfter(room));
  }

  lemma NewcomerAdmits(clean: Room, at: Instant, cfg: Config, v: Visitor, supply: seq<Token>) returns (taken: seq<Visitor>)
    requires QueueOk(clean.queue, clean.issued) && v !in clean.queue && |supply| > |clean.queue|
    ensures Distinct(Enqueue(clean, v).queue) && |supply| >= |Enqueue(clean, v).queue|
    ensures Admits(Enqueue(clean, v).queue, clean.rate, at.second, Welcome(clean, at, cfg, v, supply), taken)
    ensures Welcome(clean, at, cfg, v, supply).room.issued == Enqueue(clean, v).issued
  {
    EnqueueOk(clean, v);
    taken := TickAdmits(Gc(Enqueue(clean, v), at.now), at.second, at.until, cfg, supply);
  }

  lemma CallKeepsRoom(room: Room, cfg: Config, call: Call)
    requires RoomInv(room, cfg) && CanCall(Hall(room, []), call)
    ensures RoomInv(Called(room, cfg, call).room, cfg)
  {
    match call
    case Joining(v, at, supply) => JoinKeeps(room, at, cfg, v, supply);
    case Ticking(at, supply) => TickKeeps(room, at, cfg, supply);
    case Looking(at) => GcKeeps(room, at.now, cfg);
  }

  // ---------- the log ----------

  /** Entries of one second. */
  function Count(log: seq<Admission>, second: int): nat {
    if log == [] then 0
    else Count(log[..|log| - 1], second) + if log[|log| - 1].second == second then 1 else 0
  }

  lemma {:induction false} CountAdd(a: seq<Admission>, b: seq<Admission>, second: int)
    ensures Count(a + b, second) == Count(a, second) + Count(b, second)
  {
    if b == [] {
      assert a + b == a;
    } else {
      assert (a + b)[..|a + b| - 1] == a + b[..|b| - 1];
      CountAdd(a, b[..|b| - 1], second);
    }
  }

  lemma {:induction false} CountSame(log: seq<Admission>, at: int, second: int)
    requires forall i :: 0 <= i < |log| ==> log[i].second == at
    ensures Count(log, second) == if at == second then |log| else 0
  {
    if log != [] {
      CountSame(log[..|log| - 1], at, second);
    }
  }

  predicate Rising(log: seq<Admission>) {
    forall i, j :: 0 <= i < j < |log| ==> log[i].score < log[j].score
  }

  /** Whoever is still queued joined after everybody admitted so far. */
  predicate LogOk(queue: map<Visitor, nat>, issued: nat, log: seq<Admission>) {
    && Rising(log)
    && (forall i :: 0 <= i < |log| ==> log[i].score <= issued)
    && (forall v, i {:trigger log[i], v in queue} :: v in queue && 0 <= i < |log| ==> log[i].score < queue[v])
  }

  ghost predicate WithinBudget(rate: map<int, int>, log: seq<Admission>) {
    forall e :: Count(log, e) <= Used(rate, e)
  }

  ghost predicate HallInv(hall: Hall, cfg: Config) {
    && RoomInv(hall.room, cfg)
    && LogOk(hall.room.queue, hall.room.issued, hall.log)
    && WithinBudget(hall.room.rate, hall.log)
  }

  lemma LogGrows(q: map<Visitor, nat>, issued: nat, log: seq<Admission>, taken: seq<Visitor>, second: int)
    requires LogOk(q, issued, log) && Front(q, taken) && forall v :: v in q ==> q[v] <= issued
    ensures LogOk(q - Elements(taken), issued, log + Admissions(q, taken, second))
  {
    var entries := Admissions(q, taken, second);
    var log' := log + entries;
    forall i, j | 0 <= i < j < |log'| ensures log'[i].score < log'[j].score {
      if i >= |log| {
        assert Before(q, taken[i - |log|], taken[j - |log|]);
      } else if j >= |log| {
        assert taken[j - |log|] in q && log[i].score < q[taken[j - |log|]];
      }
    }
    forall v, i | v in q - Elements(taken) && 0 <= i < |log'| ensures log'[i].score < q[v] {
      if i >= |log| {
        assert v !in taken;
        assert Before(q, taken[i - |log|], v);
      }
    }
  }

  lemma BudgetHolds(rate: map<int, int>, log: seq<Admission>, q: map<Visitor, nat>, second: int, t: Ticked, taken: seq<Visitor>)
    requires WithinBudget(rate, log) && Admits(q, rate, second, t, taken)
    ensures WithinBudget(t.room.rate, log + t.entries)
  {
    forall e ensures Count(log + t.entries, e) <= Used(t.room.rate, e) {
      CountAdd(log, t.entries, e);
      CountSame(t.entries, second, e);
    }
  }

  lemma NewcomerLast(queue: map<Visitor, nat>, issued: nat, log: seq<Admission>, v: Visitor, score: nat)
    requires LogOk(queue, issued, log) && QueueOk(queue, issued) && v !in queue && score == issued + 1
    ensures LogOk(queue[v := score], score, log) && QueueOk(queue[v := score], score)
  {
    var q := queue[v := score];
    forall u, i | u in q && 0 <= i < |log| ensures log[i].score < q[u] {
      assert u in queue || u == v;
    }
  }

  lemma DecidingKeeps(room: Room, cfg: Config, call: Call, log: seq<Admission>)
    requires RoomInv(room, cfg) && LogOk(room.queue, room.issued, log)
    ensures LogOk(Deciding(room, call).queue, Deciding(room, call).issued, log)
    ensures QueueOk(Deciding(room, call).queue, Deciding(room, call).issued)
  {
    var clean := Gc(room, call.at.now);
    if call.Joining? && !Known(clean, call.visitor) {
      NewcomerLast(room.queue, room.issued, log, call.visitor, ScoreAfter(clean));
    }
  }

  /** Every call keeps the invariant, and so every run does. */
  lemma CallKeeps(hall: Hall, cfg: Config, call: Call)
    requires HallInv(hall, cfg) && CanCall(hall, call)
    ensures HallInv(After(hall, cfg, call), cfg)
  {
    var room, t := hall.room, Called(hall.room, cfg, call);
    CallKeepsRoom(room, cfg, call);
    var taken := CallServes(room, cfg, call);
    DecidingKeeps(room, cfg, call, hall.log);
    LogGrows(Deciding(room, call).queue, Deciding(room, call).issued, hall.log, taken, call.at.second);
    BudgetHolds(room.rate, hall.log, Deciding(room, call).queue, call.at.second, t, taken);
  }

  // ---------- runs ----------

  predicate Opens(hall: Hall) {
    hall == Hall(Room(map[], map[], map[], 0, map[]), [])
  }

  ghost predicate Next(h: Hall, call: Call, h': Hall, cfg: Config) {
    QueueOk(h.room.queue, h.room.issued) && CanCall(h, call) && h' == After(h, cfg, call)
  }

  ghost predicate Happens(hs: seq<Hall>, calls: seq<Call>, cfg: Config, i: nat) {
    i < |calls| && i + 1 < |hs| && Next(hs[i], calls[i], hs[i + 1], cfg)
  }

  /** `hs` are the states of a run and `calls` the calls between them. */
  ghost predicate Day(hs: seq<Hall>, calls: seq<Call>, cfg: Config) {
    && |hs| == |calls| + 1 && Opens(hs[0]) && 0 <= cfg.perSecond
    && forall i {:trigger Happens(hs, calls, cfg, i)} :: 0 <= i < |calls| ==> Happens(hs, calls, cfg, i)
  }

  lemma NextKeeps(h: Hall, call: Call, h': Hall, cfg: Config)
    requires HallInv(h, cfg) && Next(h, call, h', cfg)
    ensures HallInv(h', cfg)
  {
    CallKeeps(h, cfg, call);
  }

  lemma HappensKeeps(hs: seq<Hall>, calls: seq<Call>, cfg: Config, i: nat, h': Hall)
    requires Day(hs, calls, cfg) && i < |calls| && h' == hs[i + 1] && HallInv(hs[i], cfg)
    ensures HallInv(h', cfg)
  {
    assert Happens(hs, calls, cfg, i);
    NextKeeps(hs[i], calls[i], hs[i + 1], cfg);
  }

  lemma OpeningInv(hall: Hall, cfg: Config)
    requires Opens(hall) && 0 <= cfg.perSecond
    ensures HallInv(hall, cfg)
  {
  }

  /** In every state of every run: the bulkhead holds, nobody is both queued and shopping, tokens and
      shoppers match, no second is over its budget, and admissions follow the join order. */
  lemma {:induction false} DayInv(hs: seq<Hall>, calls: seq<Call>, cfg: Config, i: nat)
    requires Day(hs, calls, cfg) && i < |hs|
    ensures HallInv(hs[i], cfg)
  {
    if i == 0 {
      OpeningInv(hs[0], cfg);
    } else {
      DayInv(hs, calls, cfg, i - 1);
      HappensKeeps(hs, calls, cfg, i - 1, hs[i]);
    }
  }

  /** Both tables, and the answer of a token look-up, mean what they should. */
  lemma TokenAnswers(hs: seq<Hall>, calls: seq<Call>, cfg: Config, i: nat, t: Token, v: Visitor)
    requires Day(hs, calls, cfg) && i < |hs|
    ensures var room := hs[i].room;
            && |room.shoppers| <= Max(0, cfg.limit)
            && (t in room.tokens && room.tokens[t] == v <==> v in room.shoppers && room.shoppers[v].token == t)
            && (v in room.queue ==> v !in room.shoppers)
  {
    DayInv(hs, calls, cfg, i);
    var room := hs[i].room;
    if t in room.tokens { assert TokenOk(room.shoppers, room.tokens, t); }
    if v in room.shoppers { assert ShopperOk(room.shoppers, room.tokens, v); }
  }

  // ---------- a visit lasts ----------

  /** The visitor is inside, in time, with this entry. */
  predicate Visits(room: Room, v: Visitor, s: Shopper, now: int) {
    v in room.shoppers && room.shoppers[v] == s && now < s.expiresAt
  }

  lemma TickKeepsVisit(room: Room, at: Instant, cfg: Config, supply: seq<Token>, v: Visitor, s: Shopper)
    requires RoomInv(room, cfg) && |supply| >= |room.queue| && Visits(room, v, s, at.now)
    ensures Visits(Tick(room, at, cfg, supply).room, v, s, at.now)
  {
    var clean := Gc(room, at.now);
    var taken := WaitingRoom.Taken(clean, at.second, cfg);
    assert v !in taken;
    WaitingRoomRows.StaysInside(Popped(clean, at.second, cfg, taken), taken, supply, at.until, |taken|, v);
  }

  lemma CallKeepsVisit(room: Room, cfg: Config, call: Call, v: Visitor, s: Shopper)
    requires RoomInv(room, cfg) && CanCall(Hall(room, []), call) && Visits(room, v, s, call.at.now)
    ensures Visits(Called(room, cfg, call).room, v, s, call.at.now)
  {
    match call
    case Joining(u, at, supply) =>
      var clean := Gc(room, at.now);
      if !Known(clean, u) {
        GcKeeps(room, at.now, cfg);
        EnqueueKeeps(clean, u, cfg);
        TickKeepsVisit(Enqueue(clean, u), at, cfg, supply, v, s);
      }
    case Ticking(at, supply) => TickKeepsVisit(room, at, cfg, supply, v, s);
    case Looking(_) =>
  }

  /** Whoever is inside keeps the place and the token, whatever is called, as long as no call comes at or
      after the deadline. */
  lemma {:induction false} VisitLasts(hs: seq<Hall>, calls: seq<Call>, cfg: Config, i: nat, j: nat, v: Visitor, s: Shopper)
    requires Day(hs, calls, cfg) && i <= j < |hs|
    requires v in hs[i].room.shoppers && hs[i].room.shoppers[v] == s
    requires forall c :: i <= c < j ==> calls[c].at.now < s.expiresAt
    ensures v in hs[j].room.shoppers && hs[j].room.shoppers[v] == s
    decreases j - i
  {
    if i < j {
      var k: nat := j - 1;
      VisitLasts(hs, calls, cfg, i, k, v, s);
      DayInv(hs, calls, cfg, k);
      assert Happens(hs, calls, cfg, k);
      CallKeepsVisit(hs[k].room, cfg, calls[k], v, s);
    }
  }

  /** The first call at or after the deadline ends the visit: the entry is dropped, and unless that call
      lets the visitor in anew, the visitor is no longer inside. */
  lemma VisitEnds(room: Room, cfg: Config, call: Call, v: Visitor)
    requires RoomInv(room, cfg) && CanCall(Hall(room, []), call)
    requires v in room.shoppers && room.shoppers[v].expiresAt <= call.at.now
    ensures !(call.Joining? && call.visitor == v) ==> v !in Called(room, cfg, call).room.shoppers
  {
    match call
    case Joining(u, at, supply) => OthersJoin(room, cfg, u, at, supply, v);
    case Ticking(at, supply) => NobodyElseEnters(room, at, cfg, supply, v);
    case Looking(_) =>
  }

  lemma OthersJoin(room: Room, cfg: Config, u: Visitor, at: Instant, supply: seq<Token>, v: Visitor)
    requires RoomInv(room, cfg) && |supply| > |room.queue| && v in room.shoppers && room.shoppers[v].expiresAt <= at.now
    ensures u != v ==> v !in Join(room, at, cfg, u, supply).room.shoppers
  {
    var clean := Gc(room, at.now);
    if !Known(clean, u) && u != v {
      GcKeeps(room, at.now, cfg);
      EnqueueKeeps(clean, u, cfg);
      NobodyElseEnters(Enqueue(clean, u), at, cfg, supply, v);
    }
  }

  lemma NobodyElseEnters(room: Room, at: Instant, cfg: Config, supply: seq<Token>, v: Visitor)
    requires Distinct(room.queue) && |supply| >= |room.queue| && v !in room.queue
    requires v !in Gc(room, at.now).shoppers
    ensures v !in Tick(room, at, cfg, supply).room.shoppers
  {
    var clean := Gc(room, at.now);
    var taken := WaitingRoom.Taken(clean, at.second, cfg);
    assert v !in taken;
    WaitingRoomRows.StaysOutside(Popped(clean, at.second, cfg, taken), taken, supply, at.until, |taken|, v);
  }

  // ---------- one call, seen from the queue ----------

  /** How the queue and the log can change: whoever stays keeps the score, newcomers get later scores,
      and whoever leaves is in the log. */
  predicate QueueMoves(h: Hall, h': Hall) {
    && h.room.issued <= h'.room.issued
    && h.log <= h'.log
    && (forall v :: v in h'.room.queue ==>
          (v in h.room.queue && h.room.queue[v] == h'.room.queue[v]) || h'.room.queue[v] > h.room.issued)
    && (forall v :: v in h.room.queue && !(v in h'.room.queue && h'.room.queue[v] == h.room.queue[v]) ==>
          Logged(h'.log, |h.log|, h.room.queue[v]))
  }

  predicate Logged(log: seq<Admission>, since: nat, score: nat) {
    exists k :: since <= k < |log| && log[k].score == score
  }

  lemma TakenAreLogged(log: seq<Admission>, q: map<Visitor, nat>, taken: seq<Visitor>, second: int, v: Visitor)
    requires Front(q, taken) && v in q && v in taken
    ensures Logged(log + Admissions(q, taken, second), |log|, q[v])
  {
    var i :| 0 <= i < |taken| && taken[i] == v;
    assert (log + Admissions(q, taken, second))[|log| + i] == Admission(q[v], second);
  }

  lemma DecidingExtends(room: Room, cfg: Config, call: Call)
    requires RoomInv(room, cfg)
    ensures var d := Deciding(room, call);
            && room.issued <= d.issued
            && (forall v :: v in room.queue ==> v in d.queue && d.queue[v] == room.queue[v])
            && (forall v :: v in d.queue && v !in room.queue ==> d.queue[v] > room.issued)
  {
  }

  lemma CallMoves(h: Hall, cfg: Config, call: Call)
    requires HallInv(h, cfg) && CanCall(h, call)
    ensures QueueMoves(h, After(h, cfg, call))
  {
    var q := Deciding(h.room, call).queue;
    var taken := CallServes(h.room, cfg, call);
    DecidingExtends(h.room, cfg, call);
    var h' := After(h, cfg, call);
    forall v | v in h.room.queue && !(v in h'.room.queue && h'.room.queue[v] == h.room.queue[v])
      ensures Logged(h'.log, |h.log|, h.room.queue[v])
    {
      assert v in Elements(taken);
      TakenAreLogged(h.log, q, taken, call.at.second, v);
    }
  }

  lemma MovesOn(a: Hall, b: Hall, c: Hall)
    requires QueueMoves(a, b) && QueueMoves(b, c)
    ensures QueueMoves(a, c)
  {
    forall v | v in a.room.queue && !(v in c.room.queue && c.room.queue[v] == a.room.queue[v])
      ensures Logged(c.log, |a.log|, a.room.queue[v])
    {
      if v in b.room.queue && b.room.queue[v] == a.room.queue[v] {
        assert Logged(c.log, |b.log|, a.room.queue[v]);
      } else {
        assert Logged(b.log, |a.log|, a.room.queue[v]);
        var k :| |a.log| <= k < |b.log| && b.log[k].score == a.room.queue[v];
        assert c.log[k] == b.log[k];
      }
    }
  }

  /** The seconds of the joins and ticks among some calls. */
  function Seconds(calls: seq<Call>, i: nat, j: nat): set<int>
    requires i <= j <= |calls|
  {
    set c | i <= c < j && !calls[c].Looking? :: calls[c].at.second
  }

  /** Whatever is admitted between two points of a run is admitted in those seconds. */
  predicate Dated(log: seq<Admission>, since: nat, seconds: set<int>) {
    forall k :: since <= k < |log| ==> log[k].second in seconds
  }

  lemma HappensMoves(hs: seq<Hall>, calls: seq<Call>, cfg: Config, i: nat)
    requires Day(hs, calls, cfg) && i < |calls|
    ensures QueueMoves(hs[i], hs[i + 1])
    ensures Dated(hs[i + 1].log, |hs[i].log|, if calls[i].Looking? then {} else {calls[i].at.second})
  {
    assert Happens(hs, calls, cfg, i);
    DayInv(hs, calls, cfg, i);
    CallMoves(hs[i], cfg, calls[i]);
    var taken := CallServes(hs[i].room, cfg, calls[i]);
  }

  lemma {:induction false} DayMoves(hs: seq<Hall>, calls: seq<Call>, cfg: Config, i: nat, j: nat)
    requires Day(hs, calls, cfg) && i <= j < |hs|
    ensures QueueMoves(hs[i], hs[j]) && Dated(hs[j].log, |hs[i].log|, Seconds(calls, i, j))
    decreases j - i
  {
    if i < j {
      var k := j - 1;
      DayMoves(hs, calls, cfg, i, k);
      HappensMoves(hs, calls, cfg, k);
      MovesOn(hs[i], hs[k], hs[k + 1]);
      forall m | |hs[i].log| <= m < |hs[j].log| ensures hs[j].log[m].second in Seconds(calls, i, j) {
        if m < |hs[k].log| {
          assert hs[j].log[m] == hs[k].log[m] && hs[k].log[m].second in Seconds(calls, i, k);
        }
      }
    }
  }

  /** While a visitor stays queued, the position shown never rises. */
  lemma PositionNeverRises(hs: seq<Hall>, calls: seq<Call>, cfg: Config, i: nat, j: nat, v: Visitor)
    requires Day(hs, calls, cfg) && i <= j < |hs|
    requires v in hs[i].room.queue && v in hs[j].room.queue && hs[j].room.queue[v] == hs[i].room.queue[v]
    ensures |Ahead(hs[j].room.queue, v)| <= |Ahead(hs[i].room.queue, v)|
  {
    DayMoves(hs, calls, cfg, i, j);
    DayInv(hs, calls, cfg, i);
    SubsetSize(Ahead(hs[j].room.queue, v), Ahead(hs[i].room.queue, v));
  }

  /** Admissions follow the join order, over the whole run. */
  lemma AdmittedInOrder(hs: seq<Hall>, calls: seq<Call>, cfg: Config, i: nat, a: nat, b: nat)
    requires Day(hs, calls, cfg) && i < |hs| && a < b < |hs[i].log|
    ensures hs[i].log[a].score < hs[i].log[b].score
  {
    DayInv(hs, calls, cfg, i);
  }

  // ---------- the estimated wait ----------

  lemma {:induction false} DistinctScores(queue: map<Visitor, nat>, us: set<Visitor>)
    requires Distinct(queue) && us <= queue.Keys
    ensures |set u | u in us :: queue[u]| == |us|
    decreases |us|
  {
    if us != {} {
      var x :| x in us;
      DistinctScores(queue, us - {x});
      var rest := set u | u in us - {x} :: queue[u];
      forall u | u in us - {x} ensures queue[u] != queue[x] {
        assert Both(u, x);
      }
      assert (set u | u in us :: queue[u]) == rest + {queue[x]};
    }
  }

  function LoggedScores(log: seq<Admission>, since: nat): set<nat> {
    set k | since <= k < |log| :: log[k].score
  }

  lemma {:induction false} FewScores(log: seq<Admission>, since: nat)
    requires since <= |log|
    ensures |LoggedScores(log, since)| <= |log| - since
    decreases |log| - since
  {
    if since < |log| {
      FewScores(log, since + 1);
      assert LoggedScores(log, since) == LoggedScores(log, since + 1) + {log[since].score};
    } else {
      assert LoggedScores(log, since) == {};
    }
  }

  function Without(log: seq<Admission>, second: int): (rest: seq<Admission>)
    ensures forall k :: 0 <= k < |rest| ==> rest[k].second != second && rest[k] in log
  {
    if log == [] then []
    else Without(log[..|log| - 1], second) + if log[|log| - 1].second == second then [] else [log[|log| - 1]]
  }

  lemma {:induction false} CountWithout(log: seq<Admission>, second: int, e: int)
    ensures |log| == Count(log, second) + |Without(log, second)|
    ensures e != second ==> Count(Without(log, second), e) == Count(log, e)
  {
    if log != [] {
      CountWithout(log[..|log| - 1], second, e);
      CountAdd(Without(log[..|log| - 1], second), if log[|log| - 1].second == second then [] else [log[|log| - 1]], e);
    }
  }

  lemma Dropped(log: seq<Admission>, seconds: set<int>, second: int)
    requires Dated(log, 0, seconds)
    ensures Dated(Without(log, second), 0, seconds - {second})
  {
    var rest := Without(log, second);
    forall k | 0 <= k < |rest| ensures rest[k].second in seconds - {second} {
      var m :| 0 <= m < |log| && log[m] == rest[k];
    }
  }

  /** At most `most` entries in each of the seconds, hence at most so many in all. */
  lemma {:induction false} Pigeonhole(log: seq<Admission>, seconds: set<int>, most: nat)
    requires Dated(log, 0, seconds)
    requires forall e :: e in seconds ==> Count(log, e) <= most
    ensures |log| <= |seconds| * most
    decreases |log|
  {
    if log != [] {
      var e := log[0].second;
      var rest := Without(log, e);
      assert e in seconds && log[0] !in rest;
      Dropped(log, seconds, e);
      forall f | f in seconds - {e} ensures Count(rest, f) <= most {
        CountWithout(log, e, f);
      }
      FirstCounts(log);
      CountWithout(log, e, e);
      Pigeonhole(rest, seconds - {e}, most);
      assert |seconds| * most == (|seconds| - 1) * most + most;
    }
  }

  lemma {:induction false} FirstCounts(log: seq<Admission>)
    requires log != []
    ensures Count(log, log[0].second) > 0
  {
    if |log| > 1 {
      FirstCounts(log[..|log| - 1]);
    }
  }

  /** Everybody at or ahead of an admitted visitor has been admitted since. */
  lemma AllAheadLogged(h: Hall, h': Hall, v: Visitor, k: nat)
    requires Distinct(h.room.queue) && QueueMoves(h, h') && LogOk(h'.room.queue, h'.room.issued, h'.log)
    requires v in h.room.queue && |h.log| <= k < |h'.log| && h'.log[k].score == h.room.queue[v]
    ensures |Ahead(h.room.queue, v)| + 1 <= |h'.log| - |h.log|
  {
    var us := Ahead(h.room.queue, v) + {v};
    var scores := set u | u in us :: h.room.queue[u];
    DistinctScores(h.room.queue, us);
    forall s | s in scores ensures s in LoggedScores(h'.log, |h.log|) {
      var u :| u in us && h.room.queue[u] == s;
      assert !(u in h'.room.queue && h'.room.queue[u] == s);
      assert Logged(h'.log, |h.log|, s);
    }
    SubsetSize(scores, LoggedScores(h'.log, |h.log|));
    FewScores(h'.log, |h.log|);
  }

  lemma BudgetSince(h': Hall, cfg: Config, since: nat, e: int)
    requires HallInv(h', cfg) && since <= |h'.log|
    ensures Count(h'.log[since..], e) <= cfg.perSecond
  {
    assert h'.log == h'.log[..since] + h'.log[since..];
    CountAdd(h'.log[..since], h'.log[since..], e);
  }

  /** A visitor shown position p is admitted only after joins or ticks in at least `EstimatedWait(p)`
      distinct seconds, whatever the clock does. */
  lemma WaitIsNoLess(hs: seq<Hall>, calls: seq<Call>, cfg: Config, i: nat, j: nat, v: Visitor, k: nat)
    requires Day(hs, calls, cfg) && i <= j < |hs| && cfg.perSecond >= 1
    requires v in hs[i].room.queue
    requires |hs[i].log| <= k < |hs[j].log| && hs[j].log[k].score == hs[i].room.queue[v]
    ensures |Seconds(calls, i, j)| >= EstimatedWait(|Ahead(hs[i].room.queue, v)| + 1, cfg.perSecond)
  {
    DayInv(hs, calls, cfg, i);
    DayInv(hs, calls, cfg, j);
    DayMoves(hs, calls, cfg, i, j);
    AllAheadLogged(hs[i], hs[j], v, k);
    var since, seconds := |hs[i].log|, Seconds(calls, i, j);
    forall e | e in seconds ensures Count(hs[j].log[since..], e) <= cfg.perSecond {
      BudgetSince(hs[j], cfg, since, e);
    }
    Pigeonhole(hs[j].log[since..], seconds, cfg.perSecond);
    CeilingBelow(|Ahead(hs[i].room.queue, v)| + 1, cfg.perSecond, |seconds|);
  }

  /** The call that admitted an entry of the log. */
  lemma {:induction false} AdmittingCall(hs: seq<Hall>, calls: seq<Call>, cfg: Config, i: nat, j: nat, k: nat)
    returns (c: nat)
    requires Day(hs, calls, cfg) && i <= j < |hs| && |hs[i].log| <= k < |hs[j].log|
    ensures i <= c < j && |hs[c].log| <= k < |hs[c + 1].log|
    ensures hs[c + 1].log[k] == hs[j].log[k] && hs[j].log[k].second == calls[c].at.second
    decreases j - i
  {
    if i < j {
      var m := j - 1;
      HappensMoves(hs, calls, cfg, m);
      if k < |hs[m].log| {
        c := AdmittingCall(hs, calls, cfg, i, m, k);
      } else {
        c := m;
      }
    }
  }

  /** The clock shows at least `start` from call `i` on, and is never set back. */
  predicate ClockRises(calls: seq<Call>, i: nat, j: nat, start: int)
    requires i <= j <= |calls|
  {
    && (forall c :: i <= c < j ==> start <= calls[c].at.second)
    && (forall c, d :: i <= c < d < j ==> calls[c].at.second <= calls[d].at.second)
  }

  lemma SecondsInSpan(calls: seq<Call>, i: nat, j: nat, start: int, last: nat)
    requires i <= last < j <= |calls| && ClockRises(calls, i, j, start)
    ensures calls[last].at.second >= start
    ensures |Seconds(calls, i, last + 1)| <= calls[last].at.second - start + 1
  {
    var length := calls[last].at.second - start + 1;
    SpanSize(start, length);
    SubsetSize(Seconds(calls, i, last + 1), Span(start, length));
  }

  /** If the clock is never set back, a visitor told an estimate of e seconds in second s is not admitted
      before second s + e - 1: the estimate counts the current second. */
  lemma WaitElapsed(hs: seq<Hall>, calls: seq<Call>, cfg: Config, i: nat, j: nat, v: Visitor, k: nat, start: int)
    requires Day(hs, calls, cfg) && i <= j < |hs| && cfg.perSecond >= 1 && ClockRises(calls, i, j, start)
    requires v in hs[i].room.queue
    requires |hs[i].log| <= k < |hs[j].log| && hs[j].log[k].score == hs[i].room.queue[v]
    ensures hs[j].log[k].second >= start + EstimatedWait(|Ahead(hs[i].room.queue, v)| + 1, cfg.perSecond) - 1
  {
    var c := AdmittingCall(hs, calls, cfg, i, j, k);
    WaitIsNoLess(hs, calls, cfg, i, c + 1, v, k);
    SecondsInSpan(calls, i, j, start, c);
  }

  lemma CeilingBelow(p: nat, perSecond: int, n: nat)
    requires perSecond >= 1 && p <= n * perSecond
    ensures EstimatedWait(p, perSecond) <= n
  {
    var c := EstimatedWait(p, perSecond);
    assert (c - 1) * perSecond < p;
    if c - 1 >= n {
      Monotone(n, c - 1, perSecond);
    }
  }

  lemma Monotone(a: int, b: int, factor: nat)
    requires a <= b
    ensures a * factor <= b * factor
  {
    assert b * factor - a * factor == (b - a) * factor;
  }

  // ---------- a minute ----------

  function Within(log: seq<Admission>, start: int, length: nat): (part: seq<Admission>)
    ensures forall k :: 0 <= k < |part| ==> start <= part[k].second < start + length
  {
    if log == [] then []
    else
      var last := log[|log| - 1];
      Within(log[..|log| - 1], start, length) + if start <= last.second < start + length then [last] else []
  }

  lemma {:induction false} CountWithin(log: seq<Admission>, start: int, length: nat, e: int)
    ensures Count(Within(log, start, length), e) <= Count(log, e)
  {
    if log != [] {
      var last := log[|log| - 1];
      CountWithin(log[..|log| - 1], start, length, e);
      CountAdd(Within(log[..|log| - 1], start, length),
               if start <= last.second < start + length then [last] else [], e);
    }
  }

  function Span(start: int, length: nat): (seconds: set<int>)
    ensures forall e :: e in seconds <==> start <= e < start + length
  {
    if length == 0 then {} else Span(start, length - 1) + {start + length - 1}
  }

  lemma {:induction false} SpanSize(start: int, length: nat)
    ensures |Span(start, length)| == length
  {
    if length > 0 {
      SpanSize(start, length - 1);
    }
  }

  /** In every run, any sixty consecutive seconds see at most `perMinute + 59` admissions. */
  lemma MinuteBounded(hs: seq<Hall>, calls: seq<Call>, perMinute: int, limit: int, i: nat, start: int)
    requires Day(hs, calls, Config(AdmitsPerSecond(perMinute), limit)) && i < |hs| && perMinute >= 1
    ensures |Within(hs[i].log, start, 60)| <= perMinute + 59
  {
    var cfg, part := Config(AdmitsPerSecond(perMinute), limit), Within(hs[i].log, start, 60);
    DayInv(hs, calls, cfg, i);
    SpanSize(start, 60);
    forall e | e in Span(start, 60) ensures Count(part, e) <= cfg.perSecond {
      CountWithin(hs[i].log, start, 60, e);
      BudgetSince(hs[i], cfg, 0, e);
      assert hs[i].log[0..] == hs[i].log;
    }
    Pigeonhole(part, Span(start, 60), cfg.perSecond);
    MinuteOfBudget(perMinute);
  }

  // ---------- is admission work conserving? ----------

  lemma FrontRemoved(q: map<Visitor, nat>, taken: seq<Visitor>, n: nat)
    requires Front(q, taken) && |taken| == n
    ensures |q - Elements(taken)| == |q| - n
  {
    ListedOnce(q, taken, n);
    assert taken[..n] == taken;
    assert (q - Elements(taken)).Keys == q.Keys - Elements(taken);
    assert Elements(taken) * q.Keys == Elements(taken);
    assert |q| == |q.Keys| && |q - Elements(taken)| == |(q - Elements(taken)).Keys|;
  }

  /** Nobody is left waiting before a free place. */
  predicate NobodyWaits(room: Room, cfg: Config) {
    |room.queue| == 0 || |room.shoppers| >= Max(0, cfg.limit)
  }

  /** What the second has left covers whoever could come in: the free places, or the queue if that is
      shorter. */
  predicate BudgetSuffices(clean: Room, second: int, cfg: Config) {
    Min(Slots(clean, cfg), |clean.queue|) <= cfg.perSecond - Used(clean.rate, second)
  }

  lemma LetInSizes(clean: Room, second: int, until: int, cfg: Config, supply: seq<Token>, taken: seq<Visitor>, n: nat)
    requires RoomInv(clean, cfg) && |supply| >= n && Unused(clean, supply)
    requires Front(clean.queue, taken) && |taken| == n && |clean.shoppers| + n <= Max(0, cfg.limit)
    ensures |LetIn(clean, second, until, cfg, taken, supply).queue| == |clean.queue| - n
    ensures |LetIn(clean, second, until, cfg, taken, supply).shoppers| == |clean.shoppers| + n
  {
    var popped := Popped(clean, second, cfg, taken);
    PoppedKeeps(clean, second, cfg, taken);
    EnterAllKeeps(popped, taken, supply, until, n, cfg);
    EnterAllFrame(popped, taken, supply, until, n);
    FrontRemoved(clean.queue, taken, n);
  }

  /** The number admitted fills the places or empties the queue exactly if the budget suffices. */
  lemma EnoughIff(clean: Room, second: int, cfg: Config)
    requires |clean.shoppers| <= Max(0, cfg.limit) && cfg.perSecond >= 1 && 0 <= Used(clean.rate, second) <= cfg.perSecond
    ensures var n := Admitting(clean, second, cfg);
            n == |clean.queue| || |clean.shoppers| + n >= Max(0, cfg.limit) <==> BudgetSuffices(clean, second, cfg)
  {
  }

  /** Once the expired shoppers are gone, admission is work conserving exactly if the budget left in the
      second suffices. Ticks spend it on free places even when nobody waits. */
  lemma ConservesIff(clean: Room, second: int, until: int, cfg: Config, supply: seq<Token>)
    requires RoomInv(clean, cfg) && cfg.perSecond >= 1 && |supply| >= |clean.queue| && Unused(clean, supply)
    ensures NobodyWaits(TickClean(clean, second, until, cfg, supply).room, cfg) <==> BudgetSuffices(clean, second, cfg)
  {
    var taken := Taken(clean, second, cfg);
    TakenFits(clean, second, cfg);
    LetInSizes(clean, second, until, cfg, supply, taken, |taken|);
    EnoughIff(clean, second, cfg);
  }

  lemma TickConservesIff(room: Room, at: Instant, cfg: Config, supply: seq<Token>)
    requires RoomInv(room, cfg) && cfg.perSecond >= 1 && |supply| >= |room.queue| && Unused(room, supply)
    ensures NobodyWaits(Tick(room, at, cfg, supply).room, cfg) <==> BudgetSuffices(Gc(room, at.now), at.second, cfg)
  {
    GcKeeps(room, at.now, cfg);
    ConservesIff(Gc(room, at.now), at.second, at.until, cfg, supply);
  }

  predicate AllLater(room: Room, now: int) {
    forall v :: v in room.shoppers ==> room.shoppers[v].expiresAt > now
  }

  lemma NobodyGone(room: Room, now: int)
    requires AllLater(room, now)
    ensures Gc(room, now) == room
  {
    var after := Gc(room, now);
    assert after.shoppers == room.shoppers;
    assert forall t :: t in room.tokens ==> t in after.tokens;
    assert after.tokens == room.tokens;
  }

  lemma {:induction false} EntersLater(room: Room, taken: seq<Visitor>, supply: seq<Token>, until: int, n: nat, now: int)
    requires n <= |taken| <= |supply| && AllLater(room, now) && until > now
    ensures AllLater(EnterAll(room, taken, supply, until, n), now)
  {
    if n > 0 {
      EntersLater(room, taken, supply, until, n - 1, now);
    }
  }

  /** The same for a newcomer's join, counting the newcomer among those who wait. */
  lemma JoinConservesIff(room: Room, at: Instant, cfg: Config, v: Visitor, supply: seq<Token>)
    requires RoomInv(room, cfg) && cfg.perSecond >= 1 && |supply| > |room.queue| && Unused(room, supply)
    requires !Known(Gc(room, at.now), v) && at.until > at.now
    ensures NobodyWaits(Join(room, at, cfg, v, supply).room, cfg) <==>
              BudgetSuffices(Enqueue(Gc(room, at.now), v), at.second, cfg)
  {
    var clean := Gc(room, at.now);
    GcKeeps(room, at.now, cfg);
    WelcomeKeeps(clean, at, cfg, v, supply);
    var d := Enqueue(clean, v);
    NobodyGone(d, at.now);
    ConservesIff(d, at.second, at.until, cfg, supply);
    var taken := Taken(d, at.second, cfg);
    TakenFits(d, at.second, cfg);
    PoppedKeeps(d, at.second, cfg, taken);
    EntersLater(Popped(d, at.second, cfg, taken), taken, supply, at.until, |taken|, at.now);
    NobodyGone(TickClean(d, at.second, at.until, cfg, supply).room, at.now);
  }

  /** An empty room with the budget of one second spent or not, in a setting of one admission per
      second and five places. */
  function EmptyRoom(rate: map<int, int>): Room {
    Room(map[], map[], map[], 0, rate)
  }

  lemma IdleTickSpends(at: Instant, supply: seq<Token>)
    ensures Tick(EmptyRoom(map[]), at, Config(1, 5), supply).room == EmptyRoom(map[at.second := 1])
  {
    var room, cfg := EmptyRoom(map[]), Config(1, 5);
    assert Gc(room, at.now) == room;
    NobodyComes(room, at, cfg, supply);
    assert Charged(room, at.second, cfg) == EmptyRoom(map[at.second := 1]);
  }

  lemma BudgetIsSpent(room: Room, at: Instant)
    requires room.shoppers == map[] && room.tokens == map[] && room.rate == map[at.second := 1]
    ensures Charged(room, at.second, Config(1, 5)) == room && Admitting(room, at.second, Config(1, 5)) == 0
    ensures Gc(room, at.now) == room
  {
    assert room.rate[at.second := 1] == room.rate;
    assert Gc(room, at.now).shoppers == map[] && Gc(room, at.now).tokens == map[];
  }

  lemma TooLate(room: Room, at: Instant, supply: seq<Token>)
    requires room.shoppers == map[] && room.tokens == map[] && room.rate == map[at.second := 1]
    requires Distinct(room.queue) && |supply| >= |room.queue|
    ensures Tick(room, at, Config(1, 5), supply).room == room && Gc(room, at.now) == room
  {
    BudgetIsSpent(room, at);
    NobodyComes(room, at, Config(1, 5), supply);
  }

  lemma LateNewcomer(spent: Room, at: Instant, v: Visitor, supply: seq<Token>)
    requires spent == EmptyRoom(map[at.second := 1]) && |supply| >= 1
    ensures Join(spent, at, Config(1, 5), v, supply).room == Enqueue(spent, v)
  {
    BudgetIsSpent(spent, at);
    EnqueueSize(spent.queue, v, ScoreAfter(spent));
    TooLate(Enqueue(spent, v), at, supply);
  }

  /** For example: a tick in an empty room spends its second's budget, and whoever joins later in that
      second stays queued before free places. */
  lemma BudgetSpentOnNobody(at: Instant, v: Visitor, supply: seq<Token>)
    requires |supply| >= 1
    ensures var ticked := Tick(EmptyRoom(map[]), at, Config(1, 5), supply).room;
            && QueueOk(ticked.queue, ticked.issued) && |ticked.queue| == 0 && ticked.shoppers == map[]
            && Join(ticked, at, Config(1, 5), v, supply).room == Enqueue(ticked, v)
  {
    IdleTickSpends(at, supply);
    LateNewcomer(EmptyRoom(map[at.second := 1]), at, v, supply);
  }

  lemma NobodyComes(room: Room, at: Instant, cfg: Config, supply: seq<Token>)
    requires Distinct(room.queue) && |supply| >= |room.queue| && Gc(room, at.now) == room
    requires Admitting(room, at.second, cfg) == 0
    ensures Tick(room, at, cfg, supply).room == Charged(room, at.second, cfg)
  {
    var charged := Charged(room, at.second, cfg);
    assert charged.queue - Elements([]) == charged.queue;
  }
}
