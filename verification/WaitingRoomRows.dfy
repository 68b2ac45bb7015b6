/** What the waiting room does, read off its tables: who comes in and until when, who stays, which second
    pays, and what a visitor is told. */
module WaitingRoomRows {
  import opened Collections
  import opened WaitingRoom

  /** The epoch second a moment falls into, for times before the epoch the one after it. */
  predicate InSecond(now: int, second: int) {
    if now >= 0 then 1_000_000 * second <= now < 1_000_000 * (second + 1)
    else 1_000_000 * (second - 1) < now <= 1_000_000 * second
  }

  lemma SecondIs(now: int, second: int)
    ensures second == Second(now) <==> InSecond(now, second)
  {
  }

  /** Shoppers whose time is not up. */
  function LiveAt(room: Room, now: int): set<Visitor> {
    set v | v in room.shoppers && room.shoppers[v].expiresAt > now
  }

  /** What a tick makes of the room `a`. */
  ghost predicate LetsIn(a: Room, b: Room, now: int, ttlSeconds: int, second: int, perSecond: int, limit: int,
                         supply: seq<Token>, admitted: nat)
  {
    && GoInOrder(a.queue, b.queue, admitted)
    && ComeInside(a, b, now, ttlSeconds, a.queue.Keys - b.queue.Keys, supply)
    && Pays(a, b, LiveAt(a, now), second, perSecond, limit, admitted)
    && b.issued == a.issued
  }

  /** Those with the smallest scores leave the queue. */
  ghost predicate GoInOrder(a: map<Visitor, nat>, b: map<Visitor, nat>, admitted: nat) {
    && |a.Keys - b.Keys| == admitted && |b| == |a| - admitted
    && (forall v :: v in b ==> v in a && b[v] == a[v])
    && (forall u, v {:trigger Both(u, v)} :: Both(u, v) && u in a && u !in b && v in b ==> a[u] < a[v])
  }

  /** Whoever leaves the queue is a shopper, with a new token, until the present plus the time a visit may
      last; whoever is inside and in time stays as they were; everybody else is out. */
  ghost predicate ComeInside(a: Room, b: Room, now: int, ttlSeconds: int, came: set<Visitor>, supply: seq<Token>) {
    && b.shoppers.Keys == LiveAt(a, now) + came
    && (forall v :: v in a.shoppers && a.shoppers[v].expiresAt > now && v !in came ==> b.shoppers[v] == a.shoppers[v])
    && (forall v :: v in came ==>
          && b.shoppers[v].visitor == v && b.shoppers[v].token in supply
          && b.shoppers[v].expiresAt == now + 1_000_000 * ttlSeconds)
  }

  /** The second pays for the free places, as far as it can, whether or not anybody waits for them. */
  ghost predicate Pays(a: Room, b: Room, live: set<Visitor>, second: int, perSecond: int, limit: int, admitted: nat) {
    var left := perSecond - Used(a.rate, second);
    var paid := if limit <= |live| || left <= 0 then 0 else if limit - |live| < left then limit - |live| else left;
    && admitted == (if paid < |a.queue| then paid else |a.queue|)
    && Used(b.rate, second) == Used(a.rate, second) + paid
    && (forall e :: e != second ==> Used(b.rate, e) == Used(a.rate, e))
  }

  lemma {:induction false} EntersWith(room: Room, taken: seq<Visitor>, supply: seq<Token>, until: int, n: nat, i: nat)
    requires i < n <= |taken| <= |supply| && forall j :: i < j < |taken| ==> taken[i] != taken[j]
    ensures var r := EnterAll(room, taken, supply, until, n);
            taken[i] in r.shoppers && r.shoppers[taken[i]] == Shopper(taken[i], supply[i], until)
  {
    if i < n - 1 {
      EntersWith(room, taken, supply, until, n - 1, i);
    }
  }

  lemma {:induction false} StaysInside(room: Room, taken: seq<Visitor>, supply: seq<Token>, until: int, n: nat, v: Visitor)
    requires n <= |taken| <= |supply| && v in room.shoppers && v !in taken
    ensures var r := EnterAll(room, taken, supply, until, n); v in r.shoppers && r.shoppers[v] == room.shoppers[v]
  {
    if n > 0 {
      StaysInside(room, taken, supply, until, n - 1, v);
    }
  }

  lemma {:induction false} StaysOutside(room: Room, taken: seq<Visitor>, supply: seq<Token>, until: int, n: nat, v: Visitor)
    requires n <= |taken| <= |supply| && v !in room.shoppers && v !in taken
    ensures v !in EnterAll(room, taken, supply, until, n).shoppers
  {
    if n > 0 {
      StaysOutside(room, taken, supply, until, n - 1, v);
    }
  }

  lemma WhoIsInside(clean: Room, popped: Room, taken: seq<Visitor>, supply: seq<Token>, now: int, ttlSeconds: int,
                    until: int, came: set<Visitor>, b: Room)
    requires |taken| <= |supply| && came == Elements(taken) && b == EnterAll(popped, taken, supply, until, |taken|)
    requires popped.shoppers == clean.shoppers
    requires forall i, j :: 0 <= i < j < |taken| ==> taken[i] != taken[j]
    requires until == now + 1_000_000 * ttlSeconds && forall v :: v in clean.shoppers ==> clean.shoppers[v].expiresAt > now
    ensures ComeInside(clean, b, now, ttlSeconds, came, supply)
  {
    EnterAllFrame(popped, taken, supply, until, |taken|);
    assert taken[..|taken|] == taken;
    forall v | v in Elements(taken)
      ensures b.shoppers[v].visitor == v && b.shoppers[v].token in supply && b.shoppers[v].expiresAt == until
    {
      var i :| 0 <= i < |taken| && taken[i] == v;
      EntersWith(popped, taken, supply, until, |taken|, i);
    }
    forall v | v in clean.shoppers && v !in Elements(taken) ensures b.shoppers[v] == clean.shoppers[v] {
      StaysInside(popped, taken, supply, until, |taken|, v);
    }
    assert LiveAt(clean, now) == clean.shoppers.Keys;
  }

  lemma WhoPays(clean: Room, second: int, cfg: Config, b: Room, live: set<Visitor>, admitted: nat)
    requires cfg.perSecond >= 1 && live == clean.shoppers.Keys && b.rate == Charged(clean, second, cfg).rate
    requires admitted == Admitting(clean, second, cfg)
    ensures Pays(clean, b, live, second, cfg.perSecond, cfg.limit, admitted)
  {
    assert |clean.shoppers| == |clean.shoppers.Keys|;
  }

  lemma Fewer(queue: map<Visitor, nat>, came: set<Visitor>, b: map<Visitor, nat>)
    requires came <= queue.Keys && b == queue - came
    ensures came == queue.Keys - b.Keys && |b| == |queue| - |came|
  {
    assert b.Keys == queue.Keys - came;
    assert |queue| == |queue.Keys| && |b| == |b.Keys|;
  }

  lemma WhoGoes(queue: map<Visitor, nat>, taken: seq<Visitor>, came: set<Visitor>, b: map<Visitor, nat>, admitted: nat)
    requires Front(queue, taken) && came == Elements(taken) && b == queue - came && admitted == |taken|
    ensures GoInOrder(queue, b, admitted) && came == queue.Keys - b.Keys
  {
    ListedOnce(queue, taken, |taken|);
    assert taken[..|taken|] == taken;
    Fewer(queue, came, b);
    forall u, v | u in queue && u !in b && v in b ensures queue[u] < queue[v] {
      assert u in came;
      InFrontOf(queue, taken, u, v);
    }
  }

  lemma InFrontOf(queue: map<Visitor, nat>, taken: seq<Visitor>, u: Visitor, v: Visitor)
    requires Front(queue, taken) && u in taken && v in queue && v !in taken
    ensures Before(queue, u, v)
  {
    var i :| 0 <= i < |taken| && taken[i] == u;
    assert Before(queue, taken[i], v);
  }

  lemma Together(a: Room, b: Room, now: int, ttlSeconds: int, second: int, perSecond: int, limit: int,
                 supply: seq<Token>, admitted: nat, came: set<Visitor>, live: set<Visitor>)
    requires GoInOrder(a.queue, b.queue, admitted) && came == a.queue.Keys - b.queue.Keys
    requires ComeInside(a, b, now, ttlSeconds, came, supply)
    requires live == LiveAt(a, now) && Pays(a, b, live, second, perSecond, limit, admitted)
    requires b.issued == a.issued
    ensures LetsIn(a, b, now, ttlSeconds, second, perSecond, limit, supply, admitted)
  {
  }

  lemma TickFrame(clean: Room, second: int, until: int, cfg: Config, supply: seq<Token>, taken: seq<Visitor>,
                  popped: Room, came: set<Visitor>, b: Room)
    requires RoomInv(clean, cfg) && |supply| >= |clean.queue| && taken == Taken(clean, second, cfg)
    requires popped == Popped(clean, second, cfg, taken) && came == Elements(taken)
    requires b == TickClean(clean, second, until, cfg, supply).room
    ensures Front(clean.queue, taken) && |taken| == Admitting(clean, second, cfg) <= |supply|
    ensures forall i, j :: 0 <= i < j < |taken| ==> taken[i] != taken[j]
    ensures b.queue == clean.queue - came && b.issued == clean.issued
    ensures b.rate == Charged(clean, second, cfg).rate && popped.shoppers == clean.shoppers
    ensures b == EnterAll(popped, taken, supply, until, |taken|)
  {
    TakenFits(clean, second, cfg);
    PoppedKeeps(clean, second, cfg, taken);
    EnterAllFrame(popped, taken, supply, until, |taken|);
  }

  lemma CleanGoes(clean: Room, second: int, until: int, cfg: Config, supply: seq<Token>, b: Room, admitted: nat)
    requires RoomInv(clean, cfg) && |supply| >= |clean.queue|
    requires b == TickClean(clean, second, until, cfg, supply).room && admitted == Admitting(clean, second, cfg)
    ensures GoInOrder(clean.queue, b.queue, admitted) && b.issued == clean.issued
    ensures clean.queue.Keys - b.queue.Keys == Elements(Taken(clean, second, cfg))
    ensures b.rate == Charged(clean, second, cfg).rate
  {
    var taken := Taken(clean, second, cfg);
    TickFrame(clean, second, until, cfg, supply, taken, Popped(clean, second, cfg, taken), Elements(taken), b);
    WhoGoes(clean.queue, taken, Elements(taken), b.queue, admitted);
  }

  lemma CleanInside(clean: Room, now: int, ttlSeconds: int, second: int, until: int, cfg: Config, supply: seq<Token>,
                    b: Room, came: set<Visitor>)
    requires RoomInv(clean, cfg) && |supply| >= |clean.queue|
    requires until == now + 1_000_000 * ttlSeconds && forall v :: v in clean.shoppers ==> clean.shoppers[v].expiresAt > now
    requires b == TickClean(clean, second, until, cfg, supply).room && came == Elements(Taken(clean, second, cfg))
    ensures ComeInside(clean, b, now, ttlSeconds, came, supply)
  {
    var taken := Taken(clean, second, cfg);
    var popped := Popped(clean, second, cfg, taken);
    TickFrame(clean, second, until, cfg, supply, taken, popped, came, b);
    WhoIsInside(clean, popped, taken, supply, now, ttlSeconds, until, came, b);
  }

  lemma CleanPays(clean: Room, now: int, second: int, cfg: Config, b: Room, live: set<Visitor>, admitted: nat)
    requires cfg.perSecond >= 1 && forall v :: v in clean.shoppers ==> clean.shoppers[v].expiresAt > now
    requires b.rate == Charged(clean, second, cfg).rate && live == LiveAt(clean, now)
    requires admitted == Admitting(clean, second, cfg)
    ensures Pays(clean, b, live, second, cfg.perSecond, cfg.limit, admitted)
  {
    assert live == clean.shoppers.Keys;
    WhoPays(clean, second, cfg, b, live, admitted);
  }

  lemma CleanTick(clean: Room, now: int, ttlSeconds: int, second: int, until: int, cfg: Config, supply: seq<Token>, b: Room,
                  admitted: nat)
    requires RoomInv(clean, cfg) && cfg.perSecond >= 1 && |supply| >= |clean.queue|
    requires until == now + 1_000_000 * ttlSeconds && forall v :: v in clean.shoppers ==> clean.shoppers[v].expiresAt > now
    requires b == TickClean(clean, second, until, cfg, supply).room && admitted == Admitting(clean, second, cfg)
    ensures LetsIn(clean, b, now, ttlSeconds, second, cfg.perSecond, cfg.limit, supply, admitted)
  {
    var came, live := clean.queue.Keys - b.queue.Keys, LiveAt(clean, now);
    CleanGoes(clean, second, until, cfg, supply, b, admitted);
    CleanInside(clean, now, ttlSeconds, second, until, cfg, supply, b, came);
    CleanPays(clean, now, second, cfg, b, live, admitted);
    Together(clean, b, now, ttlSeconds, second, cfg.perSecond, cfg.limit, supply, admitted, came, live);
  }

  lemma SameInside(room: Room, clean: Room, b: Room, now: int, ttlSeconds: int, came: set<Visitor>, supply: seq<Token>)
    requires clean == Gc(room, now) && ComeInside(clean, b, now, ttlSeconds, came, supply)
    ensures LiveAt(clean, now) == LiveAt(room, now) && ComeInside(room, b, now, ttlSeconds, came, supply)
  {
    assert LiveAt(clean, now) == LiveAt(room, now);
  }

  lemma SamePays(a: Room, a': Room, b: Room, live: set<Visitor>, second: int, perSecond: int, limit: int, admitted: nat)
    requires a'.rate == a.rate && a'.queue == a.queue && Pays(a, b, live, second, perSecond, limit, admitted)
    ensures Pays(a', b, live, second, perSecond, limit, admitted)
  {
  }

  lemma SameBefore(room: Room, clean: Room, b: Room, now: int, ttlSeconds: int, second: int, perSecond: int, limit: int,
                   supply: seq<Token>, admitted: nat)
    requires clean == Gc(room, now) && LetsIn(clean, b, now, ttlSeconds, second, perSecond, limit, supply, admitted)
    ensures LetsIn(room, b, now, ttlSeconds, second, perSecond, limit, supply, admitted)
  {
    var came, live := clean.queue.Keys - b.queue.Keys, LiveAt(clean, now);
    SameInside(room, clean, b, now, ttlSeconds, came, supply);
    SamePays(clean, room, b, live, second, perSecond, limit, admitted);
    Together(room, b, now, ttlSeconds, second, perSecond, limit, supply, admitted, came, live);
  }

  /** A tick, in these terms. */
  lemma TickMeans(room: Room, at: Instant, ttlSeconds: int, cfg: Config, supply: seq<Token>)
    requires RoomInv(room, cfg) && cfg.perSecond >= 1 && |supply| >= |room.queue|
    requires at.until == at.now + 1_000_000 * ttlSeconds
    ensures var t := Tick(room, at, cfg, supply);
            LetsIn(room, t.room, at.now, ttlSeconds, at.second, cfg.perSecond, cfg.limit, supply, |t.entries|)
  {
    var clean, t := Gc(room, at.now), Tick(room, at, cfg, supply);
    GcKeeps(room, at.now, cfg);
    TakenFits(clean, at.second, cfg);
    CleanTick(clean, at.now, ttlSeconds, at.second, at.until, cfg, supply, t.room, |t.entries|);
    SameBefore(room, clean, t.room, at.now, ttlSeconds, at.second, cfg.perSecond, cfg.limit, supply, |t.entries|);
  }
}
