/** The outbox publisher: deliver first, stamp afterwards, commit last. */
module Outbox {
  import opened Collections
  import opened OrderLife
  import opened Booking
  import opened Finalizer

  // ---------- the order of delivery ----------

  /** `ORDER BY created_at, id`, a row's position standing for its id. */
  predicate Earlier(outbox: seq<Event>, i: nat, j: nat)
    requires i < |outbox| && j < |outbox|
  {
    outbox[i].createdAt < outbox[j].createdAt || (outbox[i].createdAt == outbox[j].createdAt && i < j)
  }

  predicate Increases(outbox: seq<Event>, s: seq<nat>) {
    && (forall a :: 0 <= a < |s| ==> s[a] < |outbox|)
    && (forall a, b :: 0 <= a < b < |s| ==> Earlier(outbox, s[a], s[b]))
  }

  /** A row a pass can take on: unpublished, and not locked by another worker. */
  predicate Open(outbox: seq<Event>, locked: set<nat>, i: nat) {
    i < |outbox| && outbox[i].publishedAt == None && i !in locked
  }

  /** `s` lists the open rows, each once, in order of delivery. */
  predicate Lists(outbox: seq<Event>, locked: set<nat>, s: seq<nat>) {
    && Increases(outbox, s)
    && (forall a :: 0 <= a < |s| ==> Open(outbox, locked, s[a]))
    && (forall i: nat :: i < |outbox| && Open(outbox, locked, i) ==> i in s)
  }

  function Insert(outbox: seq<Event>, s: seq<nat>, i: nat): (r: seq<nat>)
    requires i < |outbox| && i !in s && Increases(outbox, s)
    ensures Increases(outbox, r) && forall x :: x in r <==> x in s || x == i
  {
    if s == [] || Earlier(outbox, i, s[0]) then [i] + s
    else
      var rest := Insert(outbox, s[1..], i);
      assert forall a :: 0 <= a < |rest| ==> rest[a] in rest;
      assert forall x :: x in s[1..] ==> Earlier(outbox, s[0], x);
      [s[0]] + rest
  }

  /** The open ones of the first `n` rows, in order of delivery. */
  function Queue(outbox: seq<Event>, locked: set<nat>, n: nat): (s: seq<nat>)
    requires n <= |outbox|
    ensures Increases(outbox, s)
    ensures forall i: nat :: i in s <==> i < n && Open(outbox, locked, i)
  {
    if n == 0 then []
    else if Open(outbox, locked, n - 1) then Insert(outbox, Queue(outbox, locked, n - 1), n - 1)
    else Queue(outbox, locked, n - 1)
  }

  /** There is only one such list. */
  lemma {:induction false} ListUnique(outbox: seq<Event>, s: seq<nat>, t: seq<nat>)
    requires Increases(outbox, s) && Increases(outbox, t) && forall x :: x in s <==> x in t
    ensures s == t
  {
    assert s != [] ==> s[0] in t;
    assert t != [] ==> t[0] in s;
    if s != [] {
      assert s[0] == t[0];
      forall x ensures x in s[1..] <==> x in t[1..] {
        assert x in s[1..] <==> x in s && x != s[0];
        assert x in t[1..] <==> x in t && x != t[0];
      }
      ListUnique(outbox, s[1..], t[1..]);
    }
  }

  // ---------- one pass ----------

  function Least(a: nat, b: nat): nat {
    if a < b then a else b
  }

  /** The rows one pass takes on. */
  function Due(outbox: seq<Event>, locked: set<nat>, batchSize: int): (ids: seq<nat>)
    ensures forall k :: 0 <= k < |ids| ==> Open(outbox, locked, ids[k])
    ensures batchSize <= 0 ==> ids == []
  {
    var all := Queue(outbox, locked, |outbox|);
    assert forall k :: 0 <= k < |all| ==> all[k] in all;
    if batchSize <= 0 then [] else all[..Least(batchSize, |all|)]
  }

  lemma SameList(outbox: seq<Event>, locked: set<nat>, s: seq<nat>, t: seq<nat>)
    requires Lists(outbox, locked, s) && Lists(outbox, locked, t)
    ensures s == t
  {
    assert forall a :: 0 <= a < |s| ==> s[a] in s;
    assert forall a :: 0 <= a < |t| ==> t[a] in t;
    ListUnique(outbox, s, t);
  }

  lemma QueueLists(outbox: seq<Event>, locked: set<nat>)
    ensures Lists(outbox, locked, Queue(outbox, locked, |outbox|))
  {
    var s := Queue(outbox, locked, |outbox|);
    assert forall a :: 0 <= a < |s| ==> s[a] in s;
  }

  /** How many rows are delivered before one raises. */
  function Reached(ids: seq<nat>, failing: set<nat>): (n: nat)
    ensures n <= |ids|
  {
    if ids == [] || ids[0] in failing then 0 else 1 + Reached(ids[1..], failing)
  }

  predicate NoneFails(ids: seq<nat>, failing: set<nat>) {
    forall id :: id in ids ==> id !in failing
  }

  lemma {:induction false} ReachedAt(ids: seq<nat>, failing: set<nat>, n: nat)
    requires n <= |ids| && NoneFails(ids[..n], failing) && (n < |ids| ==> ids[n] in failing)
    ensures Reached(ids, failing) == n
  {
    if n > 0 {
      assert ids[..n][0] == ids[0] && ids[..n][1..] == ids[1..][..n - 1];
      ReachedAt(ids[1..], failing, n - 1);
    }
  }

  lemma {:induction false} ReachedMeans(ids: seq<nat>, failing: set<nat>)
    ensures var n := Reached(ids, failing); NoneFails(ids[..n], failing) && (n < |ids| ==> ids[n] in failing)
  {
    if ids != [] && ids[0] !in failing {
      ReachedMeans(ids[1..], failing);
      var n := Reached(ids, failing);
      assert ids[..n] == [ids[0]] + ids[1..][..n - 1];
    }
  }

  class TicketNotifier {
    var delivered: seq<nat>      // every delivery made, in order
    var failing: set<nat>        // rows whose delivery raises

    constructor (broken: set<nat>)
      ensures delivered == [] && failing == broken
    {
      delivered, failing := [], broken;
    }

    method Deliver(id: nat) returns (ok: bool)
      modifies this`delivered
      ensures ok <==> id !in failing
      ensures delivered == if ok then old(delivered) + [id] else old(delivered)
    {
      ok := id !in failing;
      if ok { delivered := delivered + [id]; }
    }
  }

  /** What a pass that sent `sent` did, read off the rows: no row was sent while an older one it could have
      sent, or one as old with a smaller id, was not; the rows sent are stamped and no other is touched. */
  ghost predicate OldestFirst(before: seq<Event>, after: seq<Event>, locked: set<nat>, sent: seq<nat>, now: int) {
    && |after| == |before|
    && (forall i :: 0 <= i < |before| ==>
          after[i] == if i in sent then before[i].(publishedAt := Some(now)) else before[i])
    && (forall a :: 0 <= a < |sent| ==>
          sent[a] < |before| && before[sent[a]].publishedAt == None && sent[a] !in locked && sent[a] !in sent[..a])
    && (forall a, i :: 0 <= a < |sent| && 0 <= i < |before| && before[i].publishedAt == None && i !in locked
                       && (|| before[i].createdAt < before[sent[a]].createdAt
                           || (before[i].createdAt == before[sent[a]].createdAt && i < sent[a]))
          ==> i in sent[..a])
  }

  /** When a pass stops: after a whole batch, when nothing is left, or at the oldest row left if its
      delivery raises. */
  ghost predicate StopsWhen(before: seq<Event>, locked: set<nat>, failing: set<nat>, batchSize: int, sent: seq<nat>,
                            published: Option<nat>)
  {
    && (forall i :: i in sent ==> i !in failing)
    && |sent| <= (if batchSize <= 0 then 0 else batchSize)
    && (published.Some? ==>
          && published.value == |sent|
          && (|| |sent| >= batchSize
              || forall i :: 0 <= i < |before| && before[i].publishedAt == None && i !in locked ==> i in sent))
    && (published == None ==>
          && |sent| < batchSize
          && exists i :: 0 <= i < |before| && before[i].publishedAt == None && i !in locked && i in failing
               && forall j :: 0 <= j < |before| && before[j].publishedAt == None && j !in locked && j !in sent ==>
                    before[i].createdAt < before[j].createdAt || (before[i].createdAt == before[j].createdAt && i <= j))
  }

  lemma DueIsOldest(before: seq<Event>, locked: set<nat>, batchSize: int, ids: seq<nat>, n: nat, now: int)
    requires ids == Due(before, locked, batchSize) && n <= |ids|
    ensures OldestFirst(before, Stamped(before, Elements(ids[..n]), now), locked, ids[..n], now)
  {
    var all, sent := Queue(before, locked, |before|), ids[..n];
    QueueLists(before, locked);
    assert sent == all[..n];
    forall a | 0 <= a < |sent|
      ensures sent[a] !in sent[..a] && Open(before, locked, sent[a])
      ensures forall i :: 0 <= i < |before| && Open(before, locked, i) && Earlier(before, i, sent[a]) ==> i in sent[..a]
    {
      NobodyOvertaken(before, locked, all, a);
      assert all[..a] == sent[..a] && all[a] == sent[a];
    }
  }

  lemma NobodyOvertaken(before: seq<Event>, locked: set<nat>, all: seq<nat>, a: nat)
    requires Lists(before, locked, all) && a < |all|
    ensures all[a] !in all[..a] && Open(before, locked, all[a])
    ensures forall i :: 0 <= i < |before| && Open(before, locked, i) && Earlier(before, i, all[a]) ==> i in all[..a]
  {
    forall b | 0 <= b < a ensures all[b] != all[a] {
      assert Earlier(before, all[b], all[a]);
    }
    forall i | 0 <= i < |before| && Open(before, locked, i) && Earlier(before, i, all[a]) ensures i in all[..a] {
      BeforeInList(before, all, a, i);
    }
  }

  lemma DueStops(before: seq<Event>, locked: set<nat>, failing: set<nat>, batchSize: int, ids: seq<nat>, n: nat,
                 published: Option<nat>)
    requires ids == Due(before, locked, batchSize) && n <= |ids| && NoneFails(ids[..n], failing)
    requires if n < |ids| then ids[n] in failing && published == None else published == Some(n)
    ensures StopsWhen(before, locked, failing, batchSize, ids[..n], published)
  {
    var all, sent := Queue(before, locked, |before|), ids[..n];
    assert sent == all[..n];
    if n < |ids| {
      assert all[n] in all && ids[n] == all[n];
      assert n < batchSize;
      forall j | 0 <= j < |before| && Open(before, locked, j) && Earlier(before, j, all[n]) ensures j in sent {
        BeforeInList(before, all, n, j);
      }
      assert all[n] !in sent && Open(before, locked, all[n]);
    } else if n < batchSize {
      assert ids == all && sent == all;
    }
  }

  lemma BeforeInList(outbox: seq<Event>, s: seq<nat>, a: nat, i: nat)
    requires Increases(outbox, s) && a < |s| && i in s && Earlier(outbox, i, s[a])
    ensures i in s[..a]
  {
    var b :| 0 <= b < |s| && s[b] == i;
    assert a < b ==> Earlier(outbox, s[a], s[b]);
    assert s[..a][b] == i;
  }

  /** A pass in these terms: `delivered` is what it added to what had been delivered. */
  ghost predicate SentInOrder(before: seq<Event>, after: seq<Event>, locked: set<nat>, failing: set<nat>, batchSize: int,
                              now: int, was: seq<nat>, delivered: seq<nat>, published: Option<nat>)
  {
    && was <= delivered
    && OldestFirst(before, after, locked, delivered[|was|..], now)
    && StopsWhen(before, locked, failing, batchSize, delivered[|was|..], published)
  }

  lemma BatchIsOldest(before: seq<Event>, after: seq<Event>, locked: set<nat>, failing: set<nat>, batchSize: int, now: int,
                  was: seq<nat>, delivered: seq<nat>, published: Option<nat>, ids: seq<nat>, n: nat)
    requires ids == Due(before, locked, batchSize) && n == Reached(ids, failing)
    requires published == if n == |ids| then Some(n) else None
    requires after == Stamped(before, Elements(ids[..n]), now) && delivered == was + ids[..n]
    ensures SentInOrder(before, after, locked, failing, batchSize, now, was, delivered, published)
  {
    ReachedMeans(ids, failing);
    DueIsOldest(before, locked, batchSize, ids, n, now);
    DueStops(before, locked, failing, batchSize, ids, n, published);
    assert delivered[|was|..] == ids[..n];
  }

  /** Delivers the batch in order and stamps each row after its delivery. A delivery that raises ends
      the pass; what was stamped by then is not committed here. */
  method PublishOutbox(session: Session, notifier: TicketNotifier, now: int, batchSize: int, locked: set<nat>)
    returns (published: Option<nat>)
    modifies session, notifier`delivered
    ensures session.committed == old(session.committed)
    ensures var ids := Due(old(session.tables.outbox), locked, batchSize);
            var n := Reached(ids, notifier.failing);
            && published == (if n == |ids| then Some(n) else None)
            && notifier.delivered == old(notifier.delivered) + ids[..n]
            && session.tables == old(session.tables).(
                 outbox := Stamped(old(session.tables.outbox), Elements(ids[..n]), now))
    ensures SentInOrder(old(session.tables.outbox), session.tables.outbox, locked, notifier.failing, batchSize, now,
                        old(notifier.delivered), notifier.delivered, published)
  {
    var before := session.tables.outbox;
    ghost var was := notifier.delivered;
    var ids := Due(before, locked, batchSize);
    if batchSize <= 0 {
      published := Some(0);
      assert Stamped(before, {}, now) == before;
    } else {
      published := Deliveries(session, notifier, now, ids);
    }
    BatchIsOldest(before, session.tables.outbox, locked, notifier.failing, batchSize, now, was, notifier.delivered,
                  published, ids, Reached(ids, notifier.failing));
  }

  /** Deliver, then stamp, one row after another. */
  method Deliveries(session: Session, notifier: TicketNotifier, now: int, ids: seq<nat>) returns (published: Option<nat>)
    requires forall k :: 0 <= k < |ids| ==> ids[k] < |session.tables.outbox|
    modifies session, notifier`delivered
    ensures session.committed == old(session.committed)
    ensures var n := Reached(ids, notifier.failing);
            && published == (if n == |ids| then Some(n) else None)
            && notifier.delivered == old(notifier.delivered) + ids[..n]
            && session.tables == old(session.tables).(
                 outbox := Stamped(old(session.tables.outbox), Elements(ids[..n]), now))
  {
    var before := session.tables.outbox;
    assert Stamped(before, {}, now) == before;
    var count := 0;
    while count < |ids|
      invariant count <= |ids| && NoneFails(ids[..count], notifier.failing)
      invariant session.committed == old(session.committed)
      invariant notifier.delivered == old(notifier.delivered) + ids[..count]
      invariant session.tables == old(session.tables).(outbox := Stamped(before, Elements(ids[..count]), now))
    {
      var id := ids[count];
      StampOneMore(before, ids, count, now);
      var ok := notifier.Deliver(id);
      if !ok {
        ReachedAt(ids, notifier.failing, count);
        return None;
      }
      var outbox := session.tables.outbox;
      session.tables := session.tables.(outbox := outbox[id := outbox[id].(publishedAt := Some(now))]);
      count := count + 1;
    }
    ReachedAt(ids, notifier.failing, count);
    published := Some(count);
  }

  lemma StampOneMore(outbox: seq<Event>, ids: seq<nat>, n: nat, at: int)
    requires n < |ids| && ids[n] < |outbox|
    ensures var s := Stamped(outbox, Elements(ids[..n]), at);
            && ids[..n + 1] == ids[..n] + [ids[n]]
            && Stamped(outbox, Elements(ids[..n + 1]), at) == s[ids[n] := s[ids[n]].(publishedAt := Some(at))]
  {
    assert ids[..n + 1] == ids[..n] + [ids[n]];
    assert Elements(ids[..n + 1]) == Elements(ids[..n]) + {ids[n]};
  }

  // ---------- many passes ----------

  /** A pass takes rows off the front of the list; stamping them does not reorder the others. */
  lemma AfterPass(outbox: seq<Event>, after: seq<Event>, locked: set<nat>, batchSize: nat, now: int, all: seq<nat>,
                  rest: seq<nat>)
    requires Lists(outbox, locked, all) && PassTo(outbox, after, locked, now, batchSize)
    requires rest == all[Least(batchSize, |all|)..]
    ensures Due(outbox, locked, batchSize) == all[..Least(batchSize, |all|)]
    ensures Lists(after, locked, rest)
  {
    QueueLists(outbox, locked);
    SameList(outbox, locked, Queue(outbox, locked, |outbox|), all);
    StampFront(outbox, locked, Least(batchSize, |all|), now, all);
  }

  lemma StampFront(outbox: seq<Event>, locked: set<nat>, n: nat, now: int, all: seq<nat>)
    requires Lists(outbox, locked, all) && n <= |all|
    ensures Lists(Stamped(outbox, Elements(all[..n]), now), locked, all[n..])
  {
    var after, rest := Stamped(outbox, Elements(all[..n]), now), all[n..];
    forall a | 0 <= a < |rest|
      ensures rest[a] < |after| && after[rest[a]] == outbox[rest[a]] && Open(outbox, locked, rest[a])
    {
      KeepsItsPlace(outbox, locked, n, all, n + a);
    }
    forall a, b | 0 <= a < b < |rest| ensures Earlier(after, rest[a], rest[b]) {
      assert Earlier(outbox, all[n + a], all[n + b]);
    }
    forall i: nat | i < |after| && Open(after, locked, i) ensures i in rest {
      assert i !in Elements(all[..n]);
      assert Open(outbox, locked, i) && all == all[..n] + all[n..];
    }
  }

  lemma KeepsItsPlace(outbox: seq<Event>, locked: set<nat>, n: nat, all: seq<nat>, k: nat)
    requires Lists(outbox, locked, all) && n <= k < |all|
    ensures all[k] !in Elements(all[..n]) && Open(outbox, locked, all[k])
  {
    forall b | 0 <= b < n ensures all[b] != all[k] {
      assert Earlier(outbox, all[b], all[k]);
    }
  }

  /** One committed pass. */
  predicate PassTo(before: seq<Event>, after: seq<Event>, locked: set<nat>, now: int, batchSize: int) {
    after == Stamped(before, Elements(Due(before, locked, batchSize)), now)
  }

  /** `os` are the successive tables of committed passes at the given times, with nothing added, and
      `qs` list what is unpublished in each. */
  predicate Passes(os: seq<seq<Event>>, qs: seq<seq<nat>>, times: seq<int>, locked: set<nat>, batchSize: int) {
    && |os| == |qs| == |times| + 1
    && (forall j :: 0 <= j < |times| ==> PassTo(os[j], os[j + 1], locked, times[j], batchSize))
    && (forall j :: 0 <= j < |qs| ==> Lists(os[j], locked, qs[j]))
  }

  /** What the first `k` of those passes delivered. */
  function Mailed(os: seq<seq<Event>>, locked: set<nat>, k: nat, batchSize: int): seq<nat>
    requires k < |os|
  {
    if k == 0 then [] else Mailed(os, locked, k - 1, batchSize) + Due(os[k - 1], locked, batchSize)
  }

  /** Every pass takes a batch off the front. */
  predicate Advances(qs: seq<seq<nat>>, batchSize: nat) {
    forall j :: 0 < j < |qs| ==> qs[j] == qs[j - 1][Least(batchSize, |qs[j - 1]|)..]
  }

  function Fronts(qs: seq<seq<nat>>, k: nat, batchSize: nat): seq<nat>
    requires k < |qs|
  {
    if k == 0 then [] else Fronts(qs, k - 1, batchSize) + qs[k - 1][..Least(batchSize, |qs[k - 1]|)]
  }

  /** How many rows k passes can take on, of the given number. */
  function Sent(k: nat, batchSize: nat, rows: nat): (n: nat)
    ensures n <= rows
  {
    if k == 0 then 0
    else Sent(k - 1, batchSize, rows) + Least(batchSize, rows - Sent(k - 1, batchSize, rows))
  }

  lemma TakeMore(all: seq<nat>, m: nat, k: nat)
    requires m + k <= |all|
    ensures all[m..][..k] == all[m..m + k] && all[m..][k..] == all[m + k..]
    ensures all[..m] + all[m..m + k] == all[..m + k]
  {
  }

  lemma {:induction false} FrontsAreBatches(qs: seq<seq<nat>>, k: nat, batchSize: nat)
    requires k < |qs| && Advances(qs, batchSize)
    ensures Fronts(qs, k, batchSize) == qs[0][..Sent(k, batchSize, |qs[0]|)]
    ensures qs[k] == qs[0][Sent(k, batchSize, |qs[0]|)..]
  {
    if k > 0 {
      FrontsAreBatches(qs, k - 1, batchSize);
      var m := Sent(k - 1, batchSize, |qs[0]|);
      TakeMore(qs[0], m, Least(batchSize, |qs[0]| - m));
    }
  }

  lemma PassAdvances(os: seq<seq<Event>>, qs: seq<seq<nat>>, times: seq<int>, locked: set<nat>, j: nat,
                     batchSize: nat)
    requires Passes(os, qs, times, locked, batchSize) && j < |times|
    ensures Due(os[j], locked, batchSize) == qs[j][..Least(batchSize, |qs[j]|)]
    ensures qs[j + 1] == qs[j][Least(batchSize, |qs[j]|)..]
  {
    var rest := qs[j][Least(batchSize, |qs[j]|)..];
    assert PassTo(os[j], os[j + 1], locked, times[j], batchSize);
    AfterPass(os[j], os[j + 1], locked, batchSize, times[j], qs[j], rest);
    SameList(os[j + 1], locked, rest, qs[j + 1]);
  }

  predicate DueAreFronts(os: seq<seq<Event>>, qs: seq<seq<nat>>, locked: set<nat>, batchSize: nat) {
    |os| == |qs| && forall j :: 0 <= j < |os| - 1 ==> Due(os[j], locked, batchSize) == qs[j][..Least(batchSize, |qs[j]|)]
  }

  lemma {:induction false} MailedFronts(os: seq<seq<Event>>, qs: seq<seq<nat>>, locked: set<nat>, k: nat, batchSize: nat)
    requires DueAreFronts(os, qs, locked, batchSize) && k < |os|
    ensures Mailed(os, locked, k, batchSize) == Fronts(qs, k, batchSize)
  {
    if k > 0 {
      var j := k - 1;
      MailedFronts(os, qs, locked, j, batchSize);
      assert Due(os[j], locked, batchSize) == qs[j][..Least(batchSize, |qs[j]|)];
    }
  }

  /** Batching changes nothing but the number of passes: the rows go out in one fixed order, and
      after k passes exactly the first k batches of it are published. */
  lemma PassesDrain(os: seq<seq<Event>>, qs: seq<seq<nat>>, times: seq<int>, locked: set<nat>, k: nat,
                    batchSize: nat)
    requires Passes(os, qs, times, locked, batchSize) && k <= |times|
    ensures Mailed(os, locked, k, batchSize) == qs[0][..Sent(k, batchSize, |qs[0]|)]
    ensures qs[k] == qs[0][Sent(k, batchSize, |qs[0]|)..]
  {
    forall j | 0 < j < |qs| ensures qs[j] == qs[j - 1][Least(batchSize, |qs[j - 1]|)..] {
      PassAdvances(os, qs, times, locked, j - 1, batchSize);
    }
    FrontsAreBatches(qs, k, batchSize);
    forall j | 0 <= j < |os| - 1 ensures Due(os[j], locked, batchSize) == qs[j][..Least(batchSize, |qs[j]|)] {
      PassAdvances(os, qs, times, locked, j, batchSize);
    }
    MailedFronts(os, qs, locked, k, batchSize);
  }

  lemma {:induction false} SentInAll(k: nat, batchSize: nat, rows: nat)
    ensures Sent(k, batchSize, rows) == if k * batchSize <= rows then k * batchSize else rows
  {
    if k > 0 {
      SentInAll(k - 1, batchSize, rows);
      assert k * batchSize == (k - 1) * batchSize + batchSize;
    }
  }

  /** Nothing is left but rows that another worker has locked. */
  predicate AllPublished(outbox: seq<Event>, locked: set<nat>) {
    forall i :: 0 <= i < |outbox| ==> outbox[i].publishedAt.Some? || i in locked
  }

  /** Rows over batch size, rounded up: by `Enough`, the least k with k * batchSize >= rows. */
  function Batches(rows: nat, batchSize: nat): nat
    requires batchSize > 0
  {
    if rows == 0 then 0 else if rows <= batchSize then 1 else 1 + Batches(rows - batchSize, batchSize)
  }

  lemma {:induction false} Enough(k: nat, batchSize: nat, rows: nat)
    requires batchSize > 0
    ensures k * batchSize >= rows <==> k >= Batches(rows, batchSize)
  {
    if k > 0 {
      assert k * batchSize == (k - 1) * batchSize + batchSize;
      assert (k - 1) * batchSize >= 0;
      if rows > batchSize {
        Enough(k - 1, batchSize, rows - batchSize);
      }
    }
  }

  /** With nothing added and no failures, N unpublished rows need exactly as many passes as there are batches. */
  lemma DrainedIff(os: seq<seq<Event>>, qs: seq<seq<nat>>, times: seq<int>, locked: set<nat>, k: nat,
                    batchSize: nat)
    requires Passes(os, qs, times, locked, batchSize) && k <= |times| && batchSize > 0
    ensures AllPublished(os[k], locked) <==> k >= Batches(|qs[0]|, batchSize)
  {
    PassesDrain(os, qs, times, locked, k, batchSize);
    NoneLeft(os[k], locked, qs[k]);
    SentAllIff(k, batchSize, |qs[0]|);
  }

  lemma NoneLeft(outbox: seq<Event>, locked: set<nat>, left: seq<nat>)
    requires Lists(outbox, locked, left)
    ensures AllPublished(outbox, locked) <==> left == []
  {
    if left != [] {
      assert Open(outbox, locked, left[0]);
    }
    forall i: nat | i < |outbox| && !Open(outbox, locked, i) ensures outbox[i].publishedAt.Some? || i in locked {}
  }

  lemma SentAllIff(k: nat, batchSize: nat, rows: nat)
    requires batchSize > 0
    ensures Sent(k, batchSize, rows) == rows <==> k >= Batches(rows, batchSize)
  {
    SentInAll(k, batchSize, rows);
    Enough(k, batchSize, rows);
  }

  /** How often a row occurs in a list. */
  function Times(s: seq<nat>, i: nat): nat {
    multiset(s)[i]
  }

  lemma TimesAdd(s: seq<nat>, t: seq<nat>, i: nat)
    ensures Times(s + t, i) == Times(s, i) + Times(t, i)
  {
  }

  lemma TimesPositive(s: seq<nat>, i: nat)
    ensures i in s <==> Times(s, i) >= 1
  {
    assert i in s <==> i in multiset(s);
  }

  lemma {:induction false} ListedOnce(outbox: seq<Event>, s: seq<nat>, i: nat)
    requires Increases(outbox, s)
    ensures Times(s, i) <= 1
  {
    if s != [] {
      ListedOnce(outbox, s[1..], i);
      assert s == [s[0]] + s[1..];
      TimesAdd([s[0]], s[1..], i);
      TimesPositive(s[1..], i);
      assert s[0] !in s[1..];
    }
  }

  // ---------- runs with crashes ----------

  /** The outbox table and every delivery ever made. */
  datatype Mailroom = Mailroom(outbox: seq<Event>, delivered: seq<nat>)

  /** A pass may meet a delivery that raises, or crash before its commit. */
  datatype MailStep = Write(event: Event) | Pass(now: int, batchSize: int, locked: set<nat>, failing: set<nat>, crash: bool)

  predicate CanStep(s: MailStep) {
    s.Write? ==> s.event.publishedAt == None
  }

  predicate Completes(m: Mailroom, s: MailStep) {
    s.Pass? ==>
      !s.crash && Reached(Due(m.outbox, s.locked, s.batchSize), s.failing) == |Due(m.outbox, s.locked, s.batchSize)|
  }

  function MailAfter(m: Mailroom, s: MailStep): Mailroom {
    match s
    case Write(e) => m.(outbox := m.outbox + [e])
    case Pass(now, batchSize, locked, failing, _) =>
      var ids := Due(m.outbox, locked, batchSize);
      var sent := ids[..Reached(ids, failing)];
      Mailroom(if Completes(m, s) then Stamped(m.outbox, Elements(ids), now) else m.outbox, m.delivered + sent)
  }

  predicate MailRun(ms: seq<Mailroom>, steps: seq<MailStep>) {
    && |ms| == |steps| + 1
    && ms[0] == Mailroom([], [])
    && forall i :: 0 <= i < |steps| ==> CanStep(steps[i]) && ms[i + 1] == MailAfter(ms[i], steps[i])
  }

  /** Passes among the first `n` steps that were rolled back. */
  function Aborted(ms: seq<Mailroom>, steps: seq<MailStep>, n: nat): nat
    requires n <= |steps| < |ms|
  {
    if n == 0 then 0
    else Aborted(ms, steps, n - 1) + if Completes(ms[n - 1], steps[n - 1]) then 0 else 1
  }

  predicate Published(m: Mailroom, i: nat) {
    i < |m.outbox| && m.outbox[i].publishedAt.Some?
  }

  predicate MailOk(m: Mailroom, aborted: nat, i: nat) {
    && (Published(m, i) ==> i in m.delivered)
    && (i in m.delivered ==> i < |m.outbox|)
    && Times(m.delivered, i) <= aborted + if Published(m, i) then 1 else 0
  }

  lemma MailStepKeeps(m: Mailroom, s: MailStep, aborted: nat, i: nat)
    requires CanStep(s) && MailOk(m, aborted, i)
    ensures MailOk(MailAfter(m, s), aborted + if Completes(m, s) then 0 else 1, i)
    ensures Published(m, i) ==> Published(MailAfter(m, s), i) && MailAfter(m, s).outbox[i] == m.outbox[i]
  {
    if s.Pass? {
      var ids := Due(m.outbox, s.locked, s.batchSize);
      var sent := ids[..Reached(ids, s.failing)];
      SentOnce(m.outbox, s.locked, s.batchSize, |sent|, i);
      TimesAdd(m.delivered, sent, i);
      if Completes(m, s) { assert sent == ids; }
    }
  }

  lemma SentOnce(outbox: seq<Event>, locked: set<nat>, batchSize: int, n: nat, i: nat)
    requires n <= |Due(outbox, locked, batchSize)|
    ensures Times(Due(outbox, locked, batchSize)[..n], i) <= if i in Due(outbox, locked, batchSize) then 1 else 0
  {
    var sent := Due(outbox, locked, batchSize)[..n];
    ListedOnce(outbox, sent, i);
    TimesPositive(sent, i);
  }

  lemma {:induction false} MailRunOk(ms: seq<Mailroom>, steps: seq<MailStep>, n: nat, i: nat)
    requires MailRun(ms, steps) && n <= |steps|
    ensures MailOk(ms[n], Aborted(ms, steps, n), i)
  {
    if n > 0 {
      MailRunOk(ms, steps, n - 1, i);
      MailStepKeeps(ms[n - 1], steps[n - 1], Aborted(ms, steps, n - 1), i);
    }
  }

  /** In every run with crashes and failing deliveries: a row committed as published was delivered,
      and it was delivered more than once only if some pass was rolled back. */
  lemma PublishedMeansDelivered(ms: seq<Mailroom>, steps: seq<MailStep>, n: nat, i: nat)
    requires MailRun(ms, steps) && n <= |steps| && Published(ms[n], i)
    ensures 1 <= Times(ms[n].delivered, i) <= 1 + Aborted(ms, steps, n)
  {
    MailRunOk(ms, steps, n, i);
    TimesPositive(ms[n].delivered, i);
  }

  /** Publication is final. */
  lemma {:induction false} PublishedForGood(ms: seq<Mailroom>, steps: seq<MailStep>, n: nat, k: nat, i: nat)
    requires MailRun(ms, steps) && n <= k <= |steps| && Published(ms[n], i)
    ensures Published(ms[k], i) && ms[k].outbox[i] == ms[n].outbox[i]
    decreases k - n
  {
    if n < k {
      PublishedForGood(ms, steps, n, k - 1, i);
      MailRunOk(ms, steps, k - 1, i);
      MailStepKeeps(ms[k - 1], steps[k - 1], Aborted(ms, steps, k - 1), i);
    }
  }
}
