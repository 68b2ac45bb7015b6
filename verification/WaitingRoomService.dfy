/** The waiting room as objects: the in-memory store with its dictionaries, and the service on top. */
module WaitingRoomService {
  import opened Collections
  import opened RateLimit
  import opened WaitingRoom
  import opened WaitingRoomRows

  // ---------- positions in the sorted queue ----------

  /** The index in a sorted front of the queue is the number of visitors ahead. */
  lemma RankIsAhead(queue: map<Visitor, nat>, ordered: seq<Visitor>, i: nat)
    requires Front(queue, ordered) && i < |ordered|
    ensures |Ahead(queue, ordered[i])| == i
  {
    var ahead := Ahead(queue, ordered[i]);
    forall u | u in ahead ensures u in ordered[..i] {
      assert u !in ordered ==> Before(queue, ordered[i], u);
      var k :| 0 <= k < |ordered| && ordered[k] == u;
      assert k > i ==> Before(queue, ordered[i], ordered[k]);
    }
    forall u | u in ordered[..i] ensures u in ahead {
      var k :| 0 <= k < i && ordered[k] == u;
      assert Before(queue, ordered[k], ordered[i]);
    }
    assert ahead == Elements(ordered[..i]);
    ListedOnce(queue, ordered, i);
  }

  lemma SameRank(queue: map<Visitor, nat>, u: Visitor, v: Visitor)
    requires Distinct(queue) && u in queue && v in queue && |Ahead(queue, u)| == |Ahead(queue, v)|
    ensures u == v
  {
    assert Both(u, v);
    if queue[u] < queue[v] {
      SubsetSize(Ahead(queue, u) + {u}, Ahead(queue, v));
    } else if queue[v] < queue[u] {
      SubsetSize(Ahead(queue, v) + {v}, Ahead(queue, u));
    }
  }

  /** There is one front of each length. */
  lemma FrontUnique(queue: map<Visitor, nat>, long: seq<Visitor>, short: seq<Visitor>)
    requires Distinct(queue) && Front(queue, long) && Front(queue, short) && |short| <= |long|
    ensures short == long[..|short|]
  {
    forall i | 0 <= i < |short| ensures short[i] == long[i] {
      RankIsAhead(queue, short, i);
      RankIsAhead(queue, long, i);
      SameRank(queue, short[i], long[i]);
    }
  }

  /** A sorted list as long as the queue lists everybody. */
  lemma AllListed(queue: map<Visitor, nat>, ordered: seq<Visitor>)
    requires Front(queue, ordered) && |ordered| == |queue|
    ensures forall v :: v in queue <==> v in ordered
  {
    ListedOnce(queue, ordered, |ordered|);
    assert ordered[..|ordered|] == ordered;
    assert Elements(ordered) <= queue.Keys;
    assert |queue.Keys| == |queue|;
    SameSize(Elements(ordered), queue.Keys);
  }

  lemma SameSize<T>(a: set<T>, b: set<T>)
    requires a <= b && |a| == |b|
    ensures a == b
  {
    if x :| x in b && x !in a {
      SubsetSize(a, b - {x});
    }
  }

  // ---------- the store ----------

  class InMemoryWaitingRoomStore {
    var queue: map<Visitor, nat>
    var shoppers: map<Visitor, Shopper>
    var tokens: map<Token, Visitor>
    var issued: nat
    var rate: map<int, int>

    constructor ()
      ensures View() == Room(map[], map[], map[], 0, map[])
    {
      queue, shoppers, tokens, issued, rate := map[], map[], map[], 0, map[];
    }

    function View(): Room
      reads this
    {
      Room(queue, shoppers, tokens, issued, rate)
    }

    /** The next number in join order. */
    method NextScore() returns (score: nat)
      modifies this`issued
      ensures score == issued == old(ScoreAfter(View()))
    {
      issued := issued + 1;
      score := issued;
    }

    method Enqueue(v: Visitor, score: nat) returns (added: bool)
      modifies this`queue
      ensures added <==> v !in old(queue)
      ensures queue == if added then old(queue)[v := score] else old(queue)
    {
      if v in queue {
        return false;
      }
      queue := queue[v := score];
      added := true;
    }

    /** The position from the front, counted from zero. */
    method Rank(v: Visitor) returns (rank: Option<nat>)
      requires Distinct(queue)
      ensures rank == if v in queue then Some(|Ahead(queue, v)|) else None
    {
      if v !in queue {
        return None;
      }
      var ordered := TakeFront(queue, |queue|);
      AllListed(queue, ordered);
      var i :| 0 <= i < |ordered| && ordered[i] == v;
      RankIsAhead(queue, ordered, i);
      rank := Some(i);
    }

    method QueueSize() returns (n: nat)
      ensures n == |queue|
    {
      n := |queue|;
    }

    /** Takes the first visitors off the queue. */
    method PopFront(n: int) returns (taken: seq<Visitor>)
      requires Distinct(queue)
      modifies this`queue
      ensures taken == TakeFront(old(queue), Max(0, n))
      ensures queue == old(queue) - Elements(taken)
    {
      if n <= 0 {
        assert old(queue) - Elements([]) == old(queue);
        return [];
      }
      var ordered := TakeFront(queue, |queue|);
      taken := if n <= |ordered| then ordered[..n] else ordered;
      FrontUnique(queue, ordered, TakeFront(queue, n));
      Remove(taken);
    }

    method Remove(taken: seq<Visitor>)
      modifies this`queue
      ensures queue == old(queue) - Elements(taken)
    {
      var i := 0;
      while i < |taken|
        invariant i <= |taken| && queue == old(queue) - Elements(taken[..i])
      {
        assert taken[..i + 1] == taken[..i] + [taken[i]];
        queue := queue - {taken[i]};
        i := i + 1;
      }
      assert taken[..|taken|] == taken;
    }

    method PutShopper(s: Shopper)
      modifies this`shoppers, this`tokens
      ensures View() == Enter(old(View()), s)
    {
      shoppers := shoppers[s.visitor := s];
      tokens := tokens[s.token := s.visitor];
    }

    method GetShopper(v: Visitor) returns (s: Option<Shopper>)
      ensures s == if v in shoppers then Some(shoppers[v]) else None
    {
      s := if v in shoppers then Some(shoppers[v]) else None;
    }

    /** The visitor only while the token is the current one. */
    method VisitorForToken(t: Token) returns (v: Option<Visitor>)
      ensures v.Some? <==> t in tokens && tokens[t] in shoppers && shoppers[tokens[t]].token == t
      ensures v.Some? ==> v.value == tokens[t]
    {
      if t !in tokens {
        return None;
      }
      if tokens[t] !in shoppers || shoppers[tokens[t]].token != t {
        return None;
      }
      v := Some(tokens[t]);
    }

    /** Drops the expired shoppers one by one, each with its token. */
    method GcShoppers(now: int)
      modifies this`shoppers, this`tokens
      ensures View() == Gc(old(View()), now)
    {
      var expired := set v | v in shoppers && shoppers[v].expiresAt <= now;
      var left := expired;
      ghost var before := View();
      while left != {}
        invariant left <= expired
        invariant shoppers == before.shoppers - (expired - left)
        invariant tokens == before.tokens - (set v | v in expired - left :: before.shoppers[v].token)
        decreases |left|
      {
        var v :| v in left;
        var s := shoppers[v];
        shoppers := shoppers - {v};
        tokens := tokens - {s.token};
        left := left - {v};
      }
    }

    method ShopperCount(now: int) returns (n: nat)
      ensures n == |set v | v in shoppers && shoppers[v].expiresAt > now|
    {
      n := |set v | v in shoppers && shoppers[v].expiresAt > now|;
    }

    method TakeRateTokens(second: int, limit: int, wanted: int) returns (granted: int)
      modifies this`rate
      ensures granted == Take(old(Used(rate, second)), limit, wanted).granted
      ensures rate == if wanted <= 0 || limit <= 0 then old(rate)
                      else old(rate)[second := Take(old(Used(rate, second)), limit, wanted).counter]
    {
      if wanted <= 0 || limit <= 0 {
        return 0;
      }
      var current := Used(rate, second);
      var remaining := Max(0, limit - current);
      granted := Min(wanted, remaining);
      rate := rate[second := current + granted];
    }
  }

  // ---------- the service ----------

  /** Characters that `str.strip` removes. */
  predicate IsSpace(c: char) {
    var u := c as int;
    9 <= u <= 13 || 28 <= u <= 32 || u == 0x85 || u == 0xA0 || u == 0x1680 || 0x2000 <= u <= 0x200A
    || u == 0x2028 || u == 0x2029 || u == 0x202F || u == 0x205F || u == 0x3000
  }

  /** The same, one by one. */
  lemma SpacesAre(c: char)
    ensures IsSpace(c) <==>
              c in "\t\n\r \U{b}\U{c}\U{1c}\U{1d}\U{1e}\U{1f}\U{85}\U{a0}\U{1680}\U{2000}\U{2001}\U{2002}"
              || c in "\U{2003}\U{2004}\U{2005}\U{2006}\U{2007}\U{2008}\U{2009}\U{200a}\U{2028}\U{2029}\U{202f}"
              || c in "\U{205f}\U{3000}"
  {
  }

  predicate Blank(s: string) {
    forall i :: 0 <= i < |s| ==> IsSpace(s[i])
  }

  predicate Trimmed(s: string) {
    s != "" ==> !IsSpace(s[0]) && !IsSpace(s[|s| - 1])
  }

  /** The text without the space around it. */
  method Strip(s: string) returns (t: string)
    ensures exists before, after :: Blank(before) && Blank(after) && s == before + t + after
    ensures Trimmed(t)
  {
    var lo, hi := 0, |s|;
    while lo < hi && IsSpace(s[lo])
      invariant 0 <= lo <= hi && Blank(s[..lo])
    {
      lo := lo + 1;
    }
    while lo < hi && IsSpace(s[hi - 1])
      invariant lo <= hi <= |s| && Blank(s[hi..])
      invariant lo < hi && lo < |s| ==> !IsSpace(s[lo])
    {
      hi := hi - 1;
    }
    t := s[lo..hi];
    assert s == s[..lo] + t + s[hi..];
  }

  /** What a visitor is told. */
  datatype Answer =
    | Inside(token: Token, expiresAt: int, queued: nat, admitted: nat)
    | Waiting(position: nat, estimate: int, queued: nat, admitted: nat)
    | Unknown(queued: nat, admitted: nat)
    | Refused      // no visitor id was given

  /** The answer in a room without expired shoppers. */
  function AnswerIn(room: Room, v: Visitor, perSecond: int): Answer
    requires perSecond >= 1
  {
    if v in room.shoppers then
      Inside(room.shoppers[v].token, room.shoppers[v].expiresAt, |room.queue|, |room.shoppers|)
    else if v in room.queue then
      var position := |Ahead(room.queue, v)| + 1;
      Waiting(position, EstimatedWait(position, perSecond), |room.queue|, |room.shoppers|)
    else Unknown(|room.queue|, |room.shoppers|)
  }

  /** What a visitor is told, read off the tables. The estimate is the least number of seconds whose
      budget reaches the position. */
  ghost predicate Told(room: Room, now: int, v: Visitor, perSecond: int, answer: Answer) {
    var live := LiveAt(room, now);
    if v in room.shoppers && room.shoppers[v].expiresAt > now then
      answer == Inside(room.shoppers[v].token, room.shoppers[v].expiresAt, |room.queue|, |live|)
    else if v in room.queue then
      && answer.Waiting? && answer.queued == |room.queue| && answer.admitted == |live|
      && answer.position == 1 + |set u | u in room.queue && room.queue[u] < room.queue[v]|
      && (answer.estimate - 1) * perSecond < answer.position <= answer.estimate * perSecond
    else answer == Unknown(|room.queue|, |live|)
  }

  lemma EstimateIs(position: nat, perSecond: int)
    requires perSecond >= 1
    ensures var e := EstimatedWait(position, perSecond); (e - 1) * perSecond < position <= e * perSecond
  {
  }

  lemma ToldIn(room: Room, clean: Room, now: int, v: Visitor, perSecond: int)
    requires clean == Gc(room, now) && perSecond >= 1
    ensures Told(room, now, v, perSecond, AnswerIn(clean, v, perSecond))
  {
    assert clean.shoppers.Keys == LiveAt(room, now);
    assert |clean.shoppers| == |clean.shoppers.Keys|;
    if v in room.queue {
      EstimateIs(|Ahead(room.queue, v)| + 1, perSecond);
    }
  }

  /** What a newcomer is told: inside at once if the places and the second pay for everybody queued and
      one more, and a visit lasts at all; otherwise the place left by those who were let in. */
  ghost predicate Welcomed(a: Room, now: int, ttlSeconds: int, second: int, perSecond: int, limit: int, supply: seq<Token>,
                           answer: Answer)
  {
    var live, left := |LiveAt(a, now)|, perSecond - Used(a.rate, second);
    var paid := if limit <= live || left <= 0 then 0 else if limit - live < left then limit - live else left;
    if paid <= |a.queue| then
      && answer.Waiting? && answer.position == answer.queued == |a.queue| + 1 - paid
      && answer.admitted == (if ttlSeconds >= 1 then live + paid else live)
      && (answer.estimate - 1) * perSecond < answer.position <= answer.estimate * perSecond
    else if ttlSeconds >= 1 then
      && answer.Inside? && answer.expiresAt == now + 1_000_000 * ttlSeconds && answer.token in supply
      && answer.queued == 0 && answer.admitted == live + |a.queue| + 1
    else
      answer == Unknown(0, live)
  }

  /** The newcomer is the last to leave the queue. */
  lemma LastToGo(queue: map<Visitor, nat>, b: map<Visitor, nat>, v: Visitor, admitted: nat)
    requires GoInOrder(queue, b, admitted) && v in queue && forall u :: u in queue && u != v ==> queue[u] < queue[v]
    ensures v in b <==> admitted < |queue|
    ensures v in b ==> |Ahead(b, v)| + 1 == |b|
  {
    assert |queue| == |queue.Keys| && |b| == |b.Keys|;
    if v in b {
      assert Ahead(b, v) == b.Keys - {v};
    } else {
      forall u | u in b ensures false {
        assert Both(v, u);
      }
      assert b.Keys == {};
    }
  }

  lemma StillThere(d: Room, b: Room, clean: Room, now: int, ttlSeconds: int, came: set<Visitor>, supply: seq<Token>,
                   live: set<Visitor>, v: Visitor)
    requires ComeInside(d, b, now, ttlSeconds, came, supply) && clean == Gc(b, now) && live == LiveAt(d, now)
    requires came !! d.shoppers.Keys
    ensures v in clean.shoppers <==> v in live || (v in came && ttlSeconds >= 1)
  {
    assert v in b.shoppers <==> v in live || v in came;
    if v in live {
      assert v in d.shoppers && d.shoppers[v].expiresAt > now && v !in came;
    }
  }

  lemma StillInside(d: Room, b: Room, clean: Room, now: int, ttlSeconds: int, came: set<Visitor>, supply: seq<Token>,
                    live: set<Visitor>)
    requires ComeInside(d, b, now, ttlSeconds, came, supply) && clean == Gc(b, now) && live == LiveAt(d, now)
    requires came !! d.shoppers.Keys
    ensures clean.shoppers.Keys == live + if ttlSeconds >= 1 then came else {}
    ensures |clean.shoppers| == |live| + if ttlSeconds >= 1 then |came| else 0
  {
    forall v ensures v in clean.shoppers <==> v in live || (v in came && ttlSeconds >= 1) {
      StillThere(d, b, clean, now, ttlSeconds, came, supply, live, v);
    }
    assert live !! came;
    TogetherSize(clean.shoppers, live, if ttlSeconds >= 1 then came else {});
  }

  lemma TogetherSize(shoppers: map<Visitor, Shopper>, live: set<Visitor>, stay: set<Visitor>)
    requires live !! stay && forall v :: v in shoppers <==> v in live || v in stay
    ensures shoppers.Keys == live + stay && |shoppers| == |live| + |stay|
  {
    assert shoppers.Keys == live + stay;
    assert |shoppers| == |shoppers.Keys|;
  }

  /** Where the newcomer is once some have been let in. */
  ghost predicate NewcomerAt(answer: Answer, now: int, ttlSeconds: int, perSecond: int, supply: seq<Token>, live: nat,
                             admitted: nat, size: nat)
  {
    if admitted < size then
      && answer.Waiting? && answer.position == answer.queued == size - admitted
      && answer.admitted == (if ttlSeconds >= 1 then live + admitted else live)
      && (answer.estimate - 1) * perSecond < answer.position <= answer.estimate * perSecond
    else if ttlSeconds >= 1 then
      && answer.Inside? && answer.expiresAt == now + 1_000_000 * ttlSeconds && answer.token in supply
      && answer.queued == 0 && answer.admitted == live + size
    else
      answer == Unknown(0, live)
  }

  lemma NewcomerQueued(clean: Room, now: int, ttlSeconds: int, perSecond: int, supply: seq<Token>, admitted: nat,
                       v: Visitor, live: nat, size: nat)
    requires admitted < size && perSecond >= 1 && |clean.shoppers| == live + if ttlSeconds >= 1 then admitted else 0
    requires v !in clean.shoppers && v in clean.queue && |Ahead(clean.queue, v)| + 1 == |clean.queue| == size - admitted
    ensures NewcomerAt(AnswerIn(clean, v, perSecond), now, ttlSeconds, perSecond, supply, live, admitted, size)
  {
    EstimateIs(|Ahead(clean.queue, v)| + 1, perSecond);
  }

  lemma NewcomerInside(d: Room, b: Room, clean: Room, now: int, ttlSeconds: int, perSecond: int, supply: seq<Token>,
                       admitted: nat, v: Visitor, came: set<Visitor>, live: nat)
    requires ComeInside(d, b, now, ttlSeconds, came, supply) && clean == Gc(b, now) && came == d.queue.Keys - b.queue.Keys
    requires |came| == admitted && |b.queue| == |d.queue| - admitted && admitted >= |d.queue| && live == |LiveAt(d, now)|
    requires d.queue.Keys !! d.shoppers.Keys && v in d.queue && v !in b.queue && perSecond >= 1
    ensures NewcomerAt(AnswerIn(clean, v, perSecond), now, ttlSeconds, perSecond, supply, live, admitted, |d.queue|)
  {
    StillInside(d, b, clean, now, ttlSeconds, came, supply, LiveAt(d, now));
    assert v in came;
  }

  lemma NewcomerTold(a: Room, d: Room, b: Room, clean: Room, now: int, ttlSeconds: int, second: int, perSecond: int,
                     limit: int, supply: seq<Token>, admitted: nat, v: Visitor)
    requires LetsIn(d, b, now, ttlSeconds, second, perSecond, limit, supply, admitted) && clean == Gc(b, now)
    requires LiveAt(d, now) == LiveAt(a, now) && d.rate == a.rate && |d.queue| == |a.queue| + 1 && perSecond >= 1
    requires d.queue.Keys !! d.shoppers.Keys
    requires v in d.queue && forall u :: u in d.queue && u != v ==> d.queue[u] < d.queue[v]
    ensures Welcomed(a, now, ttlSeconds, second, perSecond, limit, supply, AnswerIn(clean, v, perSecond))
  {
    var came, live := d.queue.Keys - b.queue.Keys, |LiveAt(d, now)|;
    LastToGo(d.queue, b.queue, v, admitted);
    if v in b.queue {
      StillInside(d, b, clean, now, ttlSeconds, came, supply, LiveAt(d, now));
      NewcomerQueued(clean, now, ttlSeconds, perSecond, supply, admitted, v, live, |d.queue|);
    } else {
      NewcomerInside(d, b, clean, now, ttlSeconds, perSecond, supply, admitted, v, came, live);
    }
    PlacesPaid(a, d, b, LiveAt(d, now), second, perSecond, limit, admitted, now, ttlSeconds, supply, |d.queue|,
               AnswerIn(clean, v, perSecond));
  }

  lemma PlacesPaid(a: Room, d: Room, b: Room, live: set<Visitor>, second: int, perSecond: int, limit: int, admitted: nat,
                   now: int, ttlSeconds: int, supply: seq<Token>, size: nat, answer: Answer)
    requires Pays(d, b, live, second, perSecond, limit, admitted) && d.rate == a.rate && live == LiveAt(a, now)
    requires size == |d.queue| == |a.queue| + 1
    requires NewcomerAt(answer, now, ttlSeconds, perSecond, supply, |live|, admitted, size)
    ensures Welcomed(a, now, ttlSeconds, second, perSecond, limit, supply, answer)
  {
  }

  lemma JoinTold(room: Room, at: Instant, ttlSeconds: int, cfg: Config, v: Visitor, supply: seq<Token>)
    requires RoomInv(room, cfg) && cfg.perSecond >= 1 && |supply| > |room.queue| && Unused(room, supply)
    requires at.until == at.now + 1_000_000 * ttlSeconds
    ensures var answer := AnswerIn(WaitingRoom.Join(room, at, cfg, v, supply).room, v, cfg.perSecond);
            if Known(Gc(room, at.now), v) then Told(room, at.now, v, cfg.perSecond, answer)
            else Welcomed(room, at.now, ttlSeconds, at.second, cfg.perSecond, cfg.limit, supply, answer)
  {
    var clean := Gc(room, at.now);
    if Known(clean, v) {
      ToldIn(room, clean, at.now, v, cfg.perSecond);
    } else {
      GcKeeps(room, at.now, cfg);
      NewcomerWelcomed(room, clean, at, ttlSeconds, cfg, v, supply);
    }
  }

  lemma WithNewcomer(room: Room, clean: Room, d: Room, now: int, cfg: Config, v: Visitor)
    requires clean == Gc(room, now) && RoomInv(clean, cfg) && !Known(clean, v) && d == WaitingRoom.Enqueue(clean, v)
    ensures RoomInv(d, cfg) && |d.queue| == |room.queue| + 1
    ensures LiveAt(d, now) == LiveAt(room, now) && d.rate == room.rate && d.queue.Keys !! d.shoppers.Keys
    ensures v in d.queue && forall u :: u in d.queue && u != v ==> d.queue[u] < d.queue[v]
  {
    EnqueueKeeps(clean, v, cfg);
    SameLive(room, clean, d, now);
  }

  lemma SameLive(room: Room, clean: Room, d: Room, now: int)
    requires clean == Gc(room, now) && d.shoppers == clean.shoppers
    ensures LiveAt(d, now) == LiveAt(room, now)
  {
  }

  lemma NewcomerWelcomed(room: Room, clean: Room, at: Instant, ttlSeconds: int, cfg: Config, v: Visitor, supply: seq<Token>)
    requires clean == Gc(room, at.now) && RoomInv(clean, cfg) && cfg.perSecond >= 1 && !Known(clean, v)
    requires |supply| > |clean.queue| && at.until == at.now + 1_000_000 * ttlSeconds
    ensures Distinct(WaitingRoom.Enqueue(clean, v).queue) && |supply| >= |WaitingRoom.Enqueue(clean, v).queue|
    ensures Welcomed(room, at.now, ttlSeconds, at.second, cfg.perSecond, cfg.limit, supply,
                     AnswerIn(Welcome(clean, at, cfg, v, supply).room, v, cfg.perSecond))
  {
    var d := WaitingRoom.Enqueue(clean, v);
    WithNewcomer(room, clean, d, at.now, cfg, v);
    TickMeans(d, at, ttlSeconds, cfg, supply);
    var t := Tick(d, at, cfg, supply);
    NewcomerTold(room, d, t.room, Gc(t.room, at.now), at.now, ttlSeconds, at.second, cfg.perSecond, cfg.limit, supply,
                 |t.entries|, v);
  }

  class WaitingRoomService {
    const store: InMemoryWaitingRoomStore
    const perMinute: int
    const limit: int
    const ttlSeconds: int
    var now: int      // the clock

    constructor (s: InMemoryWaitingRoomStore, admitPerMinute: int, concurrency: int, ttl: int, start: int)
      ensures store == s && perMinute == admitPerMinute && limit == concurrency && ttlSeconds == ttl && now == start
    {
      store, perMinute, limit, ttlSeconds, now := s, admitPerMinute, concurrency, ttl, start;
    }

    function Now(): Instant
      reads this
    {
      Reading(now, ttlSeconds)
    }

    function Cfg(): Config {
      Config(AdmitsPerSecond(perMinute), limit)
    }

    ghost predicate Valid()
      reads store
    {
      RoomInv(store.View(), Cfg())
    }

    /** Where a visitor stands. */
    method Status(v: Visitor) returns (answer: Answer)
      requires Valid()
      modifies store
      ensures Valid() && store.View() == Gc(old(store.View()), now)
      ensures answer == AnswerIn(store.View(), v, Cfg().perSecond)
      ensures Told(old(store.View()), now, v, AdmitsPerSecond(perMinute), answer)
    {
      ToldIn(store.View(), Gc(store.View(), now), now, v, Cfg().perSecond);
      answer := StatusAt(Now(), v);
    }

    method StatusAt(at: Instant, v: Visitor) returns (answer: Answer)
      requires Valid()
      modifies store
      ensures Valid() && store.View() == Gc(old(store.View()), at.now)
      ensures answer == AnswerIn(store.View(), v, Cfg().perSecond)
    {
      GcKeeps(store.View(), at.now, Cfg());
      store.GcShoppers(at.now);
      answer := Look(at, v);
    }

    /** The look-up itself, once the expired shoppers are gone. */
    method Look(at: Instant, v: Visitor) returns (answer: Answer)
      requires Distinct(store.queue) && forall u :: u in store.shoppers ==> store.shoppers[u].expiresAt > at.now
      ensures answer == AnswerIn(store.View(), v, Cfg().perSecond)
    {
      var shopper := store.GetShopper(v);
      var admitted := store.ShopperCount(at.now);
      AllActive(store.shoppers, at.now);
      var queued := store.QueueSize();
      if shopper.Some? && shopper.value.expiresAt > at.now {
        return Inside(shopper.value.token, shopper.value.expiresAt, queued, admitted);
      }
      var rank := store.Rank(v);
      if rank == None {
        return Unknown(queued, admitted);
      }
      var position := rank.value + 1;
      answer := Waiting(position, EstimatedWait(position, AdmitsPerSecond(perMinute)), queued, admitted);
    }

    /** The visitor of a live shopper's current token, and nobody otherwise. */
    method VisitorForToken(t: Token) returns (v: Option<Visitor>)
      requires Valid()
      modifies store
      ensures Valid() && store.View() == Gc(old(store.View()), now)
      ensures forall u :: v == Some(u) <==>
                u in old(store.shoppers) && old(store.shoppers)[u].token == t && old(store.shoppers)[u].expiresAt > now
    {
      ghost var before := store.View();
      GcKeeps(before, now, Cfg());
      store.GcShoppers(now);
      v := store.VisitorForToken(t);
      forall u ensures v == Some(u) <==>
                u in before.shoppers && before.shoppers[u].token == t && before.shoppers[u].expiresAt > now
      {
        TokenOwner(store.shoppers, store.tokens, t, u);
      }
    }

    /** Lets as many visitors in as the places, the second's budget and the queue allow. `supply` is
        what the token factory will give out. */
    method AdmitTick(supply: seq<Token>) returns (admitted: nat)
      requires Valid() && |supply| >= |store.queue| && Unused(store.View(), supply)
      modifies store
      ensures Valid()
      ensures store.View() == Tick(old(store.View()), Now(), Cfg(), supply).room
      ensures admitted == |Tick(old(store.View()), Now(), Cfg(), supply).entries|
      ensures forall second :: InSecond(now, second) ==>
                LetsIn(old(store.View()), store.View(), now, ttlSeconds, second, AdmitsPerSecond(perMinute), limit, supply,
                       admitted)
    {
      TickMeans(store.View(), Now(), ttlSeconds, Cfg(), supply);
      forall second | InSecond(now, second) ensures second == Now().second {
        SecondIs(now, second);
      }
      admitted := AdmitTickAt(Now(), supply);
    }

    method AdmitTickAt(at: Instant, supply: seq<Token>) returns (admitted: nat)
      requires Valid() && |supply| >= |store.queue| && Unused(store.View(), supply)
      modifies store
      ensures Valid()
      ensures store.View() == Tick(old(store.View()), at, Cfg(), supply).room
      ensures admitted == |Tick(old(store.View()), at, Cfg(), supply).entries|
    {
      ghost var before := store.View();
      TickKeeps(before, at, Cfg(), supply);
      GcKeeps(before, at.now, Cfg());
      store.GcShoppers(at.now);
      admitted := AdmitClean(at, supply);
    }

    method AdmitClean(at: Instant, supply: seq<Token>) returns (admitted: nat)
      requires Distinct(store.queue) && |supply| >= |store.queue|
      requires forall u :: u in store.shoppers ==> store.shoppers[u].expiresAt > at.now
      modifies store
      ensures store.View() == TickClean(old(store.View()), at.second, at.until, Cfg(), supply).room
      ensures admitted == |TickClean(old(store.View()), at.second, at.until, Cfg(), supply).entries|
    {
      ghost var clean, cfg := store.View(), Cfg();
      var active := store.ShopperCount(at.now);
      AllActive(store.shoppers, at.now);
      var slots := Max(0, limit - active);
      var granted := store.TakeRateTokens(at.second, AdmitsPerSecond(perMinute), slots);
      assert store.View() == Charged(clean, at.second, cfg);
      var waiting := store.QueueSize();
      var n := Min(Min(granted, waiting), slots);
      NumberAdmitted(clean, at.second, cfg, granted, n);
      if n <= 0 {
        IdleTick(clean, at.second, at.until, cfg, supply);
        return 0;
      }
      var taken := store.PopFront(n);
      assert store.View() == Popped(clean, at.second, cfg, taken);
      LetAllIn(taken, supply, at.until);
      admitted := |taken|;
    }

    method LetAllIn(taken: seq<Visitor>, supply: seq<Token>, until: int)
      requires |taken| <= |supply|
      modifies store
      ensures store.View() == EnterAll(old(store.View()), taken, supply, until, |taken|)
    {
      var i := 0;
      while i < |taken|
        invariant i <= |taken| && store.View() == EnterAll(old(store.View()), taken, supply, until, i)
      {
        store.PutShopper(Shopper(taken[i], supply[i], until));
        i := i + 1;
      }
    }

    /** A known visitor is told where they stand; a new one is queued, a tick follows, and then they
        are told. */
    method Join(raw: string, supply: seq<Token>) returns (answer: Answer, ghost name: string)
      requires Valid() && |supply| > |store.queue| && Unused(store.View(), supply)
      modifies store
      ensures Valid()
      ensures Trimmed(name) && exists before, after :: Blank(before) && Blank(after) && raw == before + name + after
      ensures if name == "" then answer == Refused && store.View() == old(store.View())
              else store.View() == WaitingRoom.Join(old(store.View()), Now(), Cfg(), Visitor(name), supply).room
                   && answer == AnswerIn(store.View(), Visitor(name), Cfg().perSecond)
      ensures name != "" && Known(Gc(old(store.View()), now), Visitor(name)) ==>
                Told(old(store.View()), now, Visitor(name), AdmitsPerSecond(perMinute), answer)
      ensures name != "" && !Known(Gc(old(store.View()), now), Visitor(name)) ==>
                forall second :: InSecond(now, second) ==>
                  Welcomed(old(store.View()), now, ttlSeconds, second, AdmitsPerSecond(perMinute), limit, supply, answer)
    {
      var text := Strip(raw);
      name := text;
      if text == "" {
        return Refused, name;
      }
      forall second | InSecond(now, second) ensures second == Now().second {
        SecondIs(now, second);
      }
      answer := Admit(Now(), Visitor(text), supply);
    }

    method Admit(at: Instant, v: Visitor, supply: seq<Token>) returns (answer: Answer)
      requires at.until == at.now + 1_000_000 * ttlSeconds
      requires Valid() && |supply| > |store.queue| && Unused(store.View(), supply)
      modifies store
      ensures Valid()
      ensures store.View() == WaitingRoom.Join(old(store.View()), at, Cfg(), v, supply).room
      ensures answer == AnswerIn(store.View(), v, Cfg().perSecond)
      ensures if Known(Gc(old(store.View()), at.now), v)
              then Told(old(store.View()), at.now, v, AdmitsPerSecond(perMinute), answer)
              else Welcomed(old(store.View()), at.now, ttlSeconds, at.second, AdmitsPerSecond(perMinute), limit, supply,
                            answer)
    {
      JoinTold(store.View(), at, ttlSeconds, Cfg(), v, supply);
      GcKeeps(store.View(), at.now, Cfg());
      answer := StatusAt(at, v);
      if answer.Unknown? {
        answer := AdmitNewcomer(at, v, supply);
      }
    }

    method AdmitNewcomer(at: Instant, v: Visitor, supply: seq<Token>) returns (answer: Answer)
      requires Valid() && |supply| > |store.queue| && Unused(store.View(), supply) && !Known(store.View(), v)
      modifies store
      ensures Valid()
      ensures Distinct(WaitingRoom.Enqueue(old(store.View()), v).queue)
              && |supply| >= |WaitingRoom.Enqueue(old(store.View()), v).queue|
      ensures store.View() == Welcome(old(store.View()), at, Cfg(), v, supply).room
      ensures answer == AnswerIn(store.View(), v, Cfg().perSecond)
    {
      WelcomeKeeps(store.View(), at, Cfg(), v, supply);
      Push(v);
      var _ := AdmitTickAt(at, supply);
      answer := StatusAt(at, v);
    }

    method Push(v: Visitor)
      requires v !in store.queue
      modifies store
      ensures store.View() == WaitingRoom.Enqueue(old(store.View()), v)
    {
      var score := store.NextScore();
      var _ := store.Enqueue(v, score);
    }
  }

  lemma NumberAdmitted(clean: Room, second: int, cfg: Config, granted: int, n: int)
    requires granted == Budget(clean, second, cfg).granted
    requires n == Min(Min(granted, |clean.queue|), Slots(clean, cfg))
    ensures Max(0, n) == Admitting(clean, second, cfg)
  {
  }

  lemma IdleTick(clean: Room, second: int, until: int, cfg: Config, supply: seq<Token>)
    requires Distinct(clean.queue) && |supply| >= |clean.queue| && Admitting(clean, second, cfg) == 0
    ensures TickClean(clean, second, until, cfg, supply) == Ticked(Charged(clean, second, cfg), [])
  {
    assert Taken(clean, second, cfg) == [];
    NobodyLetIn(clean, second, until, cfg, supply);
  }

  lemma NobodyLetIn(clean: Room, second: int, until: int, cfg: Config, supply: seq<Token>)
    ensures LetIn(clean, second, until, cfg, [], supply) == Charged(clean, second, cfg)
    ensures Admissions(clean.queue, [], second) == []
  {
    var charged := Charged(clean, second, cfg);
    assert charged.queue - Elements([]) == charged.queue;
  }

  lemma TokenOwner(shoppers: map<Visitor, Shopper>, tokens: map<Token, Visitor>, t: Token, u: Visitor)
    requires TokensMatch(shoppers, tokens)
    ensures t in tokens && tokens[t] == u <==> u in shoppers && shoppers[u].token == t
  {
    if t in tokens { assert TokenOk(shoppers, tokens, t); }
    if u in shoppers { assert ShopperOk(shoppers, tokens, u); }
  }

  lemma AllActive(shoppers: map<Visitor, Shopper>, now: int)
    requires forall v :: v in shoppers ==> shoppers[v].expiresAt > now
    ensures |set v | v in shoppers && shoppers[v].expiresAt > now| == |shoppers|
  {
    assert (set v | v in shoppers && shoppers[v].expiresAt > now) == shoppers.Keys;
    assert |shoppers.Keys| == |shoppers|;
  }
}
