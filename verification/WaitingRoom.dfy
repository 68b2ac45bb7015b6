/** The waiting room: a queue in join order, live shoppers with their tokens, and a budget of
    admissions per second. */
module WaitingRoom {
  import opened Collections
  import opened RateLimit

  datatype Visitor = Visitor(id: string)

  datatype Token = Token(text: string)

  datatype Shopper = Shopper(visitor: Visitor, token: Token, expiresAt: int)

  datatype Room = Room(queue: map<Visitor, nat>, shoppers: map<Visitor, Shopper>, tokens: map<Token, Visitor>,
                       issued: nat, rate: map<int, int>)

  /** The admissions per second, and the most shoppers at once. */
  datatype Config = Config(perSecond: int, limit: int)

  /** One clock reading in microseconds, the resolution of the clock; the epoch second it falls into;
      and the deadline of a shopper let in at that moment. */
  datatype Instant = Instant(now: int, second: int, until: int)

  /** `int(now)`, which truncates towards zero. */
  function Second(now: int): int {
    if now >= 0 then now / 1_000_000 else -((-now) / 1_000_000)
  }

  function Reading(now: int, ttlSeconds: int): Instant {
    Instant(now, Second(now), now + 1_000_000 * ttlSeconds)
  }

  // ---------- the queue ----------

  /** Names two visitors, so that facts about pairs are used where they are asked for. */
  predicate Both(u: Visitor, v: Visitor) { true }

  /** No two visitors share a score. */
  predicate Distinct(queue: map<Visitor, nat>) {
    forall u, v {:trigger Both(u, v)} :: Both(u, v) && u in queue && v in queue && queue[u] == queue[v] ==> u == v
  }

  function Scores(queue: map<Visitor, nat>): set<nat> {
    set v | v in queue :: queue[v]
  }

  function Ahead(queue: map<Visitor, nat>, v: Visitor): set<Visitor>
    requires v in queue
  {
    set u | u in queue && queue[u] < queue[v]
  }

  predicate Before(queue: map<Visitor, nat>, u: Visitor, v: Visitor) {
    u in queue && v in queue && queue[u] < queue[v]
  }

  /** `taken` is the front of the queue: in order, and ahead of everybody else. */
  predicate Front(queue: map<Visitor, nat>, taken: seq<Visitor>) {
    && (forall i :: 0 <= i < |taken| ==> taken[i] in queue)
    && (forall i, j {:trigger Before(queue, taken[i], taken[j])} :: 0 <= i < j < |taken| ==>
          Before(queue, taken[i], taken[j]))
    && (forall v, i {:trigger Before(queue, taken[i], v)} :: v in queue && v !in taken && 0 <= i < |taken| ==>
          Before(queue, taken[i], v))
  }

  function First(queue: map<Visitor, nat>): (v: Visitor)
    requires Distinct(queue) && queue != map[]
    ensures IsFirst(queue, v)
  {
    assert exists v :: IsFirst(queue, v) by {
      var some :| some in queue;
      assert queue[some] in Scores(queue);
      var m := LeastExists(Scores(queue));
      var v :| v in queue && queue[v] == m;
      forall u | u in queue && u != v ensures queue[v] < queue[u] {
        assert queue[u] in Scores(queue) && Both(u, v);
      }
      assert IsFirst(queue, v);
    }
    var v :| v in queue && IsFirst(queue, v);
    v
  }

  predicate IsFirst(queue: map<Visitor, nat>, v: Visitor) {
    v in queue && forall u :: u in queue && u != v ==> queue[v] < queue[u]
  }

  lemma FrontCons(queue: map<Visitor, nat>, v: Visitor, rest: seq<Visitor>)
    requires IsFirst(queue, v) && Front(queue - {v}, rest)
    ensures Front(queue, [v] + rest)
  {
    var taken := [v] + rest;
    forall i | 0 <= i < |taken| ensures taken[i] in queue {
      if i > 0 { assert taken[i] == rest[i - 1] && rest[i - 1] in queue - {v}; }
    }
    forall i, j | 0 <= i < j < |taken| ensures Before(queue, taken[i], taken[j]) {
      assert taken[j] == rest[j - 1] && rest[j - 1] in queue - {v};
      if i > 0 { assert Before(queue - {v}, rest[i - 1], rest[j - 1]); }
    }
    forall u, i | u in queue && u !in taken && 0 <= i < |taken| ensures Before(queue, taken[i], u) {
      assert taken[0] == v && taken[1..] == rest;
      assert u !in taken[1..];
      if i > 0 { assert Before(queue - {v}, rest[i - 1], u); }
    }
  }

  /** `sorted(queue, key=score)[:n]`. */
  function TakeFront(queue: map<Visitor, nat>, n: nat): (taken: seq<Visitor>)
    requires Distinct(queue)
    ensures Front(queue, taken)
    ensures |taken| == if n <= |queue| then n else |queue|
    decreases n
  {
    if n == 0 || queue == map[] then []
    else
      var v := First(queue);
      FrontCons(queue, v, TakeFront(queue - {v}, n - 1));
      OneLess(queue, v);
      [v] + TakeFront(queue - {v}, n - 1)
  }

  lemma OneLess(queue: map<Visitor, nat>, v: Visitor)
    requires v in queue
    ensures |queue - {v}| == |queue| - 1
  {
    assert (queue - {v}).Keys == queue.Keys - {v};
  }

  /** A front lists nobody twice. */
  lemma {:induction false} ListedOnce(queue: map<Visitor, nat>, ordered: seq<Visitor>, n: nat)
    requires Front(queue, ordered) && n <= |ordered|
    ensures |Elements(ordered[..n])| == n
  {
    if n > 0 {
      ListedOnce(queue, ordered, n - 1);
      assert ordered[..n] == ordered[..n - 1] + [ordered[n - 1]];
      forall k | 0 <= k < n - 1 ensures ordered[k] != ordered[n - 1] {
        assert Before(queue, ordered[k], ordered[n - 1]);
      }
      assert Elements(ordered[..n]) == Elements(ordered[..n - 1]) + {ordered[n - 1]};
    }
  }

  // ---------- the rules ----------

  /** Drops every shopper whose time is up, with its token. */
  function Gc(room: Room, now: int): Room {
    var gone := set v | v in room.shoppers && room.shoppers[v].expiresAt <= now;
    room.(shoppers := room.shoppers - gone,
          tokens := room.tokens - (set v | v in gone :: room.shoppers[v].token))
  }

  function Enter(room: Room, s: Shopper): Room {
    room.(shoppers := room.shoppers[s.visitor := s], tokens := room.tokens[s.token := s.visitor])
  }

  /** The first `n` of the taken visitors come in, in order. */
  function EnterAll(room: Room, taken: seq<Visitor>, supply: seq<Token>, expiresAt: int, n: nat): Room
    requires n <= |taken| <= |supply|
  {
    if n == 0 then room
    else Enter(EnterAll(room, taken, supply, expiresAt, n - 1), Shopper(taken[n - 1], supply[n - 1], expiresAt))
  }

  function Used(rate: map<int, int>, second: int): int {
    if second in rate then rate[second] else 0
  }

  /** One admission: who came in, by join order, and in which second. */
  datatype Admission = Admission(score: nat, second: int)

  function Admissions(queue: map<Visitor, nat>, taken: seq<Visitor>, second: int): seq<Admission>
    requires forall i :: 0 <= i < |taken| ==> taken[i] in queue
  {
    seq(|taken|, i requires 0 <= i < |taken| => Admission(queue[taken[i]], second))
  }

  datatype Ticked = Ticked(room: Room, entries: seq<Admission>)

  /** The free places, what the second still grants, and who waits: the least of the three come in.
      The budget is charged for the free places, whether or not anybody waits. */
  function Slots(room: Room, cfg: Config): nat {
    Max(0, cfg.limit - |room.shoppers|)
  }

  function Budget(room: Room, second: int, cfg: Config): Grant {
    Take(Used(room.rate, second), cfg.perSecond, Slots(room, cfg))
  }

  function Charged(room: Room, second: int, cfg: Config): Room {
    if Slots(room, cfg) == 0 then room else room.(rate := room.rate[second := Budget(room, second, cfg).counter])
  }

  function Admitting(room: Room, second: int, cfg: Config): nat {
    Max(0, Min(Budget(room, second, cfg).granted, |room.queue|))
  }

  /** The visitors a tick lets in. */
  function Taken(clean: Room, second: int, cfg: Config): seq<Visitor>
    requires Distinct(clean.queue)
  {
    TakeFront(clean.queue, Admitting(clean, second, cfg))
  }

  /** The state in which the taken visitors are let in. */
  function Popped(clean: Room, second: int, cfg: Config, taken: seq<Visitor>): Room {
    var charged := Charged(clean, second, cfg);
    charged.(queue := charged.queue - Elements(taken))
  }

  function LetIn(clean: Room, second: int, expiresAt: int, cfg: Config, taken: seq<Visitor>, supply: seq<Token>): Room
    requires |taken| <= |supply|
  {
    EnterAll(Popped(clean, second, cfg, taken), taken, supply, expiresAt, |taken|)
  }

  function TickClean(clean: Room, second: int, expiresAt: int, cfg: Config, supply: seq<Token>): Ticked
    requires Distinct(clean.queue) && |supply| >= |clean.queue|
  {
    var taken := Taken(clean, second, cfg);
    Ticked(LetIn(clean, second, expiresAt, cfg, taken, supply), Admissions(clean.queue, taken, second))
  }

  function Tick(room: Room, at: Instant, cfg: Config, supply: seq<Token>): Ticked
    requires Distinct(room.queue) && |supply| >= |room.queue|
  {
    TickClean(Gc(room, at.now), at.second, at.until, cfg, supply)
  }

  predicate Known(room: Room, visitor: Visitor) {
    visitor in room.shoppers || visitor in room.queue
  }

  function ScoreAfter(room: Room): nat {
    room.issued + 1
  }

  function Enqueue(room: Room, visitor: Visitor): Room {
    room.(issued := ScoreAfter(room), queue := room.queue[visitor := ScoreAfter(room)])
  }

  /** A newcomer is queued, a tick follows at once, and the answer is looked up. */
  function Welcome(clean: Room, at: Instant, cfg: Config, visitor: Visitor, supply: seq<Token>): Ticked
    requires Distinct(Enqueue(clean, visitor).queue) && |supply| >= |Enqueue(clean, visitor).queue|
  {
    var t := Tick(Enqueue(clean, visitor), at, cfg, supply);
    t.(room := Gc(t.room, at.now))
  }

  /** Joining: a known visitor is only looked up. */
  function Join(room: Room, at: Instant, cfg: Config, visitor: Visitor, supply: seq<Token>): Ticked
    requires QueueOk(room.queue, room.issued) && |supply| > |room.queue|
  {
    var clean := Gc(room, at.now);
    if Known(clean, visitor) then Ticked(clean, []) else Welcome(clean, at, cfg, visitor, supply)
  }

  /** The wait a queued visitor is told: positions over admissions per second, rounded up. */
  function EstimatedWait(position: nat, perSecond: int): int
    requires perSecond >= 1
  {
    (position + perSecond - 1) / perSecond
  }

  // ---------- the invariant ----------

  predicate ShopperOk(shoppers: map<Visitor, Shopper>, tokens: map<Token, Visitor>, v: Visitor) {
    && v in shoppers && shoppers[v].visitor == v
    && shoppers[v].token in tokens && tokens[shoppers[v].token] == v
  }

  predicate TokenOk(shoppers: map<Visitor, Shopper>, tokens: map<Token, Visitor>, t: Token) {
    t in tokens && tokens[t] in shoppers && shoppers[tokens[t]].token == t
  }

  /** Tokens and live shoppers point at each other. */
  predicate TokensMatch(shoppers: map<Visitor, Shopper>, tokens: map<Token, Visitor>) {
    && (forall v {:trigger ShopperOk(shoppers, tokens, v)} :: v in shoppers ==> ShopperOk(shoppers, tokens, v))
    && (forall t {:trigger TokenOk(shoppers, tokens, t)} :: t in tokens ==> TokenOk(shoppers, tokens, t))
  }

  predicate QueueOk(queue: map<Visitor, nat>, issued: nat) {
    && Distinct(queue)
    && (forall v :: v in queue ==> 1 <= queue[v] <= issued)
  }

  predicate RateOk(rate: map<int, int>, perSecond: int) {
    forall e :: e in rate ==> 0 <= rate[e] <= perSecond
  }

  predicate RoomInv(room: Room, cfg: Config) {
    && QueueOk(room.queue, room.issued)
    && room.queue.Keys !! room.shoppers.Keys
    && TokensMatch(room.shoppers, room.tokens)
    && |room.shoppers| <= Max(0, cfg.limit)
    && 0 <= cfg.perSecond && RateOk(room.rate, cfg.perSecond)
  }

  predicate Unused(room: Room, supply: seq<Token>) {
    && (forall i :: 0 <= i < |supply| ==> supply[i] !in room.tokens)
    && (forall i, j :: 0 <= i < j < |supply| ==> supply[i] != supply[j])
  }

  lemma GcKeeps(room: Room, now: int, cfg: Config)
    requires RoomInv(room, cfg)
    ensures RoomInv(Gc(room, now), cfg) && Gc(room, now).tokens.Keys <= room.tokens.Keys
    ensures Gc(room, now) == room.(shoppers := Gc(room, now).shoppers, tokens := Gc(room, now).tokens)
    ensures forall v :: v in Gc(room, now).shoppers ==> Gc(room, now).shoppers[v].expiresAt > now
  {
    var r := Gc(room, now);
    Smaller(room.shoppers, r.shoppers);
    forall v | v in r.shoppers ensures ShopperOk(r.shoppers, r.tokens, v) {
      assert ShopperOk(room.shoppers, room.tokens, v);
      forall u | u in room.shoppers && u !in r.shoppers ensures room.shoppers[u].token != room.shoppers[v].token {
        assert ShopperOk(room.shoppers, room.tokens, u);
      }
    }
    forall t | t in r.tokens ensures TokenOk(r.shoppers, r.tokens, t) {
      assert TokenOk(room.shoppers, room.tokens, t);
    }
  }

  lemma Smaller<K, V>(big: map<K, V>, small: map<K, V>)
    requires small.Keys <= big.Keys
    ensures |small| <= |big|
  {
    SubsetSize(small.Keys, big.Keys);
    assert |small| == |small.Keys| && |big| == |big.Keys|;
  }

  lemma {:induction false} SubsetSize<T>(a: set<T>, b: set<T>)
    requires a <= b
    ensures |a| <= |b|
    decreases |a|
  {
    if a != {} {
      var x :| x in a;
      SubsetSize(a - {x}, b - {x});
    }
  }

  lemma EnterKeeps(room: Room, s: Shopper, cfg: Config)
    requires RoomInv(room, cfg) && |room.shoppers| < cfg.limit
    requires s.visitor !in room.queue && s.visitor !in room.shoppers && s.token !in room.tokens
    ensures RoomInv(Enter(room, s), cfg) && |Enter(room, s).shoppers| == |room.shoppers| + 1
  {
    var r := Enter(room, s);
    assert r.shoppers.Keys == room.shoppers.Keys + {s.visitor};
    assert |r.shoppers| == |r.shoppers.Keys| && |room.shoppers| == |room.shoppers.Keys|;
    forall v | v in r.shoppers ensures ShopperOk(r.shoppers, r.tokens, v) {
      assert v == s.visitor || ShopperOk(room.shoppers, room.tokens, v);
    }
    forall t | t in r.tokens ensures TokenOk(r.shoppers, r.tokens, t) {
      assert t == s.token || TokenOk(room.shoppers, room.tokens, t);
    }
  }

  lemma {:induction false} EnterAllFrame(room: Room, taken: seq<Visitor>, supply: seq<Token>, expiresAt: int, n: nat)
    requires n <= |taken| <= |supply|
    ensures var r := EnterAll(room, taken, supply, expiresAt, n);
            && r == room.(shoppers := r.shoppers, tokens := r.tokens)
            && r.shoppers.Keys == room.shoppers.Keys + Elements(taken[..n])
            && r.tokens.Keys == room.tokens.Keys + Elements(supply[..n])
  {
    if n > 0 {
      EnterAllFrame(room, taken, supply, expiresAt, n - 1);
      assert taken[..n] == taken[..n - 1] + [taken[n - 1]];
      assert supply[..n] == supply[..n - 1] + [supply[n - 1]];
    }
  }

  /** The visitors may come in: not inside, not queued any more, and not twice. */
  predicate Admissible(room: Room, taken: seq<Visitor>) {
    && (forall i :: 0 <= i < |taken| ==> taken[i] !in room.queue && taken[i] !in room.shoppers)
    && (forall i, j :: 0 <= i < j < |taken| ==> taken[i] != taken[j])
  }

  lemma NextMayEnter(room: Room, taken: seq<Visitor>, supply: seq<Token>, expiresAt: int, n: nat, r: Room)
    requires n < |taken| <= |supply| && Admissible(room, taken) && Unused(room, supply)
    requires r == EnterAll(room, taken, supply, expiresAt, n)
    ensures taken[n] !in r.queue && taken[n] !in r.shoppers && supply[n] !in r.tokens
  {
    EnterAllFrame(room, taken, supply, expiresAt, n);
    assert taken[n] !in taken[..n] && supply[n] !in supply[..n];
  }

  lemma {:induction false} EnterAllKeeps(room: Room, taken: seq<Visitor>, supply: seq<Token>, expiresAt: int, n: nat,
                                         cfg: Config)
    requires RoomInv(room, cfg) && n <= |taken| <= |supply| && |room.shoppers| + |taken| <= Max(0, cfg.limit)
    requires Admissible(room, taken) && Unused(room, supply)
    ensures RoomInv(EnterAll(room, taken, supply, expiresAt, n), cfg)
    ensures |EnterAll(room, taken, supply, expiresAt, n).shoppers| == |room.shoppers| + n
  {
    if n > 0 {
      var r := EnterAll(room, taken, supply, expiresAt, n - 1);
      NextMayEnter(room, taken, supply, expiresAt, n - 1, r);
      EnterAllKeeps(room, taken, supply, expiresAt, n - 1, cfg);
      EnterKeeps(r, Shopper(taken[n - 1], supply[n - 1], expiresAt), cfg);
    }
  }

  // ---------- a tick ----------

  lemma ChargedKeeps(room: Room, second: int, cfg: Config)
    requires RoomInv(room, cfg)
    ensures RoomInv(Charged(room, second, cfg), cfg)
    ensures Charged(room, second, cfg) == room.(rate := Charged(room, second, cfg).rate)
    ensures Used(Charged(room, second, cfg).rate, second)
         == Used(room.rate, second) + Budget(room, second, cfg).granted
  {
  }

  lemma PoppedKeeps(room: Room, second: int, cfg: Config, taken: seq<Visitor>)
    requires RoomInv(room, cfg) && Front(room.queue, taken)
    ensures RoomInv(Popped(room, second, cfg, taken), cfg) && Admissible(Popped(room, second, cfg, taken), taken)
    ensures Popped(room, second, cfg, taken).tokens == room.tokens
    ensures Popped(room, second, cfg, taken).shoppers == room.shoppers
  {
    ChargedKeeps(room, second, cfg);
    forall i | 0 <= i < |taken| ensures taken[i] in room.queue && taken[i] in Elements(taken) {}
    forall i, j | 0 <= i < j < |taken| ensures taken[i] != taken[j] {
      assert Before(room.queue, taken[i], taken[j]);
    }
  }

  lemma TakenFits(room: Room, second: int, cfg: Config)
    requires Distinct(room.queue) && |room.shoppers| <= Max(0, cfg.limit)
    ensures |Taken(room, second, cfg)| == Admitting(room, second, cfg) <= |room.queue|
    ensures |room.shoppers| + |Taken(room, second, cfg)| <= Max(0, cfg.limit)
  {
  }

  lemma LetInKeeps(room: Room, second: int, expiresAt: int, cfg: Config, taken: seq<Visitor>, supply: seq<Token>)
    requires RoomInv(room, cfg) && Front(room.queue, taken) && |taken| <= |supply| && Unused(room, supply)
    requires |room.shoppers| + |taken| <= Max(0, cfg.limit)
    ensures RoomInv(LetIn(room, second, expiresAt, cfg, taken, supply), cfg)
  {
    PoppedKeeps(room, second, cfg, taken);
    EnterAllKeeps(Popped(room, second, cfg, taken), taken, supply, expiresAt, |taken|, cfg);
  }

  lemma TickCleanKeeps(room: Room, second: int, expiresAt: int, cfg: Config, supply: seq<Token>)
    requires RoomInv(room, cfg) && |supply| >= |room.queue| && Unused(room, supply)
    ensures RoomInv(TickClean(room, second, expiresAt, cfg, supply).room, cfg)
  {
    TakenFits(room, second, cfg);
    LetInKeeps(room, second, expiresAt, cfg, Taken(room, second, cfg), supply);
  }

  /** A tick keeps the invariant: in particular the bulkhead holds, and nobody is both queued and
      shopping. */
  lemma TickKeeps(room: Room, at: Instant, cfg: Config, supply: seq<Token>)
    requires RoomInv(room, cfg) && |supply| >= |room.queue| && Unused(room, supply)
    ensures RoomInv(Tick(room, at, cfg, supply).room, cfg)
  {
    var clean := Gc(room, at.now);
    GcKeeps(room, at.now, cfg);
    TickCleanKeeps(clean, at.second, at.until, cfg, supply);
  }

  lemma EnqueueSize(queue: map<Visitor, nat>, visitor: Visitor, score: nat)
    requires visitor !in queue
    ensures |queue[visitor := score]| == |queue| + 1
  {
    assert queue[visitor := score].Keys == queue.Keys + {visitor};
    assert |queue.Keys| == |queue| && |queue[visitor := score].Keys| == |queue[visitor := score]|;
  }

  lemma EnqueueKeeps(room: Room, visitor: Visitor, cfg: Config)
    requires RoomInv(room, cfg) && !Known(room, visitor)
    ensures RoomInv(Enqueue(room, visitor), cfg) && |Enqueue(room, visitor).queue| == |room.queue| + 1
  {
    EnqueueSize(room.queue, visitor, ScoreAfter(room));
  }

  lemma JoinKeeps(room: Room, at: Instant, cfg: Config, visitor: Visitor, supply: seq<Token>)
    requires RoomInv(room, cfg) && |supply| > |room.queue| && Unused(room, supply)
    ensures RoomInv(Join(room, at, cfg, visitor, supply).room, cfg)
  {
    var clean := Gc(room, at.now);
    GcKeeps(room, at.now, cfg);
    if !Known(clean, visitor) {
      WelcomeKeeps(clean, at, cfg, visitor, supply);
    }
  }

  lemma WelcomeKeeps(clean: Room, at: Instant, cfg: Config, visitor: Visitor, supply: seq<Token>)
    requires RoomInv(clean, cfg) && |supply| > |clean.queue| && Unused(clean, supply) && !Known(clean, visitor)
    ensures RoomInv(Enqueue(clean, visitor), cfg) && |supply| >= |Enqueue(clean, visitor).queue|
    ensures RoomInv(Welcome(clean, at, cfg, visitor, supply).room, cfg)
  {
    EnqueueKeeps(clean, visitor, cfg);
    TickKeeps(Enqueue(clean, visitor), at, cfg, supply);
    GcKeeps(Tick(Enqueue(clean, visitor), at, cfg, supply).room, at.now, cfg);
  }
}
