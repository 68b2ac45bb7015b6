/** The per-second admission budget, in the in-memory form and in the Redis form that adds first and
    gives back the overflow. */
module RateLimit {
  import opened Collections

  function Max(a: int, b: int): int {
    if a < b then b else a
  }

  function Min(a: int, b: int): int {
    if a < b then a else b
  }

  /** The per-minute setting spread over seconds, rounded up and never below one. */
  function AdmitsPerSecond(perMinute: int): int {
    Max(1, (perMinute + 59) / 60)
  }

  /** A minute's worth of the budget covers the setting and exceeds it by less than sixty. */
  lemma MinuteOfBudget(perMinute: int)
    ensures perMinute >= 1 ==> perMinute <= 60 * AdmitsPerSecond(perMinute) <= perMinute + 59
    ensures perMinute < 1 ==> AdmitsPerSecond(perMinute) == 1
  {
  }

  datatype Grant = Grant(granted: int, counter: int)

  /** The in-memory form: grant what is left of the second. */
  function Take(counter: int, limit: int, wanted: int): Grant {
    if wanted <= 0 || limit <= 0 then Grant(0, counter)
    else
      var granted := Min(wanted, Max(0, limit - counter));
      Grant(granted, counter + granted)
  }

  /** What a Redis call grants and gives back once its own increment brought the counter to
      `current`. */
  function Settle(current: int, limit: int, wanted: int): (g: (int, int)) {
    if current <= limit then (wanted, 0)
    else (Max(0, wanted - (current - limit)), current - limit)
  }

  function TakeRedis(counter: int, limit: int, wanted: int): Grant {
    if wanted <= 0 || limit <= 0 then Grant(0, counter)
    else
      var settled := Settle(counter + wanted, limit, wanted);
      Grant(settled.0, counter + wanted - settled.1)
  }

  /** One call at a time, the Redis form grants what the in-memory form grants; it leaves the same
      counter exactly when the counter was not already over the limit. */
  lemma RedisRefinesMemory(counter: int, limit: int, wanted: int)
    ensures TakeRedis(counter, limit, wanted).granted == Take(counter, limit, wanted).granted
    ensures TakeRedis(counter, limit, wanted) == Take(counter, limit, wanted) <==>
              counter <= limit || wanted <= 0 || limit <= 0
  {
  }

  /** The counter after a sequence of calls in one second, and the sum of what they granted. */
  function Calls(counter: int, limit: int, wanted: seq<int>): Grant {
    if wanted == [] then Grant(0, counter)
    else
      var earlier := Calls(counter, limit, wanted[..|wanted| - 1]);
      var last := Take(earlier.counter, limit, wanted[|wanted| - 1]);
      Grant(earlier.granted + last.granted, last.counter)
  }

  function CallsRedis(counter: int, limit: int, wanted: seq<int>): Grant {
    if wanted == [] then Grant(0, counter)
    else
      var earlier := CallsRedis(counter, limit, wanted[..|wanted| - 1]);
      var last := TakeRedis(earlier.counter, limit, wanted[|wanted| - 1]);
      Grant(earlier.granted + last.granted, last.counter)
  }

  /** Over any calls in one second from a fresh counter, both forms grant the same, the counter is
      the total granted, and it stays within the limit. */
  lemma {:induction false} SecondOfCalls(limit: int, wanted: seq<int>)
    ensures CallsRedis(0, limit, wanted) == Calls(0, limit, wanted)
    ensures Calls(0, limit, wanted).granted == Calls(0, limit, wanted).counter
    ensures 0 <= Calls(0, limit, wanted).counter <= Max(0, limit)
  {
    if wanted != [] {
      SecondOfCalls(limit, wanted[..|wanted| - 1]);
      RedisRefinesMemory(Calls(0, limit, wanted[..|wanted| - 1]).counter, limit, wanted[|wanted| - 1]);
    }
  }

  // ---------- calls that overlap ----------

  /** The two commands of a call: the increment, and the decrement that gives the overflow back. A call
      that asks for nothing issues neither. */
  datatype Command = Add(call: nat, wanted: nat) | GiveBack(call: nat)

  /** The counter of one second, what has been granted, what each call has still to give back, and by how
      much the increments overshot: how far over the limit each of them found the counter. */
  datatype Tally = Tally(counter: int, granted: int, owed: map<nat, int>, overshot: nat)

  predicate Issues(s: Tally, c: Command) {
    match c
    case Add(call, wanted) => wanted > 0 && call !in s.owed
    case GiveBack(call) => call in s.owed
  }

  function Issued(s: Tally, limit: int, c: Command): Tally
    requires Issues(s, c)
  {
    match c
    case Add(call, wanted) =>
      var settled := Settle(s.counter + wanted, limit, wanted);
      Tally(s.counter + wanted, s.granted + settled.0, s.owed[call := settled.1], s.overshot + Max(0, s.counter - limit))
    case GiveBack(call) => s.(counter := s.counter - s.owed[call], owed := s.owed - {call})
  }

  /** `ss` are the states of a second in which the commands of any number of calls come in any order. */
  predicate Interleaving(ss: seq<Tally>, cs: seq<Command>, start: int, limit: int) {
    && |ss| == |cs| + 1
    && ss[0] == Tally(start, 0, map[], 0)
    && forall i :: 0 <= i < |cs| ==> Issues(ss[i], cs[i]) && ss[i + 1] == Issued(ss[i], limit, cs[i])
  }

  /** While no increment has found the counter over the limit, whatever is over it will be given back. */
  ghost predicate TallyOk(s: Tally, start: int, limit: int) {
    && s.counter - Total(s.owed) + s.overshot == start + s.granted
    && (forall c :: c in s.owed ==> 0 <= s.owed[c])
    && (s.overshot == 0 ==> Total(s.owed) == Max(0, s.counter - limit))
  }

  lemma IssuedKeeps(s: Tally, c: Command, start: int, limit: int)
    requires limit >= 1 && TallyOk(s, start, limit) && Issues(s, c)
    ensures TallyOk(Issued(s, limit, c), start, limit)
  {
    TotalNonNegative(s.owed);
    match c
    case Add(call, wanted) => TotalPut(s.owed, call, Settle(s.counter + wanted, limit, wanted).1);
    case GiveBack(call) => TotalSplit(s.owed, call);
  }

  lemma {:induction false} InterleavingOk(ss: seq<Tally>, cs: seq<Command>, start: int, limit: int, n: nat)
    requires Interleaving(ss, cs, start, limit) && limit >= 1 && start <= limit && n <= |cs|
    ensures TallyOk(ss[n], start, limit)
  {
    if n > 0 {
      InterleavingOk(ss, cs, start, limit, n - 1);
      IssuedKeeps(ss[n - 1], cs[n - 1], start, limit);
    }
  }

  /** However calls overlap, once all of them have settled the counter has lost exactly what their
      increments overshot. So it is what was granted if and only if no increment found the counter over
      the limit, and then it is within the limit. */
  lemma SettledIff(ss: seq<Tally>, cs: seq<Command>, start: int, limit: int)
    requires Interleaving(ss, cs, start, limit) && limit >= 1 && start <= limit && ss[|cs|].owed == map[]
    ensures ss[|cs|].counter == start + ss[|cs|].granted - ss[|cs|].overshot
    ensures ss[|cs|].overshot == 0 <==> forall i :: 0 <= i < |cs| && cs[i].Add? ==> ss[i].counter <= limit
    ensures ss[|cs|].overshot == 0 ==> ss[|cs|].counter <= limit
  {
    InterleavingOk(ss, cs, start, limit, |cs|);
    OvershotIff(ss, cs, start, limit, |cs|);
  }

  lemma {:induction false} OvershotIff(ss: seq<Tally>, cs: seq<Command>, start: int, limit: int, n: nat)
    requires Interleaving(ss, cs, start, limit) && n <= |cs|
    ensures ss[n].overshot == 0 <==> forall i :: 0 <= i < n && cs[i].Add? ==> ss[i].counter <= limit
  {
    if n > 0 {
      OvershotIff(ss, cs, start, limit, n - 1);
      assert ss[n] == Issued(ss[n - 1], limit, cs[n - 1]);
    }
  }

  function Sum(wanted: seq<int>): int {
    if wanted == [] then 0 else Sum(wanted[..|wanted| - 1]) + wanted[|wanted| - 1]
  }

  /** Calls that all add before any of them settles: what they grant, and the counter in the end. */
  function Overlapping(counter: int, limit: int, wanted: seq<int>): Grant {
    if wanted == [] then Grant(0, counter)
    else
      var earlier := Overlapping(counter, limit, wanted[..|wanted| - 1]);
      var last := wanted[|wanted| - 1];
      var settled := Settle(counter + Sum(wanted), limit, last);
      Grant(earlier.granted + settled.0, earlier.counter + last - settled.1)
  }

  predicate AllPositive(wanted: seq<int>) {
    forall i :: 0 <= i < |wanted| ==> wanted[i] >= 1
  }

  /** The whole overlap is harmless exactly if all calls but the last fit within the limit together. */
  lemma {:induction false} OverlapIff(counter: int, limit: int, wanted: seq<int>)
    requires AllPositive(wanted) && wanted != [] && counter <= limit
    ensures var end := Overlapping(counter, limit, wanted);
            && end.counter <= counter + end.granted
            && (end.counter == counter + end.granted <==> counter + Sum(wanted[..|wanted| - 1]) <= limit)
  {
    var earlier := wanted[..|wanted| - 1];
    if earlier != [] {
      OverlapIff(counter, limit, earlier);
    }
  }

  /** For two calls: exactly if the first alone fits. */
  lemma TwoOverlapIff(counter: int, limit: int, a: int, b: int)
    requires a >= 1 && b >= 1 && counter <= limit
    ensures var end := Overlapping(counter, limit, [a, b]);
            end.counter == counter + end.granted <==> counter + a <= limit
  {
    assert [a, b][..1] == [a] && [a][..0] == [];
    OverlapIff(counter, limit, [a, b]);
  }

  /** For example with limit 1 and two calls for 2: the second refunds the first one's grant as well, and
      a third call goes over the limit. */
  lemma OverlapOverRefunds()
    ensures var end := Overlapping(0, 1, [2, 2]);
            end == Grant(1, 0) && end.granted + TakeRedis(end.counter, 1, 1).granted > 1
  {
    assert [2, 2][..1] == [2] && [2][..0] == [];
    assert Sum([2]) == 2 && Sum([2, 2]) == 4;
  }

  /** The counters of all seconds, as Redis keeps them. */
  class RedisRate {
    var counters: map<int, int>

    constructor ()
      ensures counters == map[]
    {
      counters := map[];
    }

    function Counter(second: int): int
      reads this
    {
      if second in counters then counters[second] else 0
    }

    /** INCRBY, which answers the new value. */
    method Add(second: int, amount: int) returns (current: int)
      modifies this
      ensures current == old(Counter(second)) + amount
      ensures counters == old(counters)[second := current]
    {
      current := Counter(second) + amount;
      counters := counters[second := current];
    }

    method TakeRateTokens(second: int, limit: int, wanted: int) returns (granted: int)
      modifies this
      ensures old(Counter(second)) <= limit ==>
                Grant(granted, Counter(second)) == Take(old(Counter(second)), limit, wanted)
      ensures granted == Take(old(Counter(second)), limit, wanted).granted
      ensures forall e :: e != second ==> Counter(e) == old(Counter(e))
    {
      if wanted <= 0 || limit <= 0 {
        return 0;
      }
      var current := Add(second, wanted);
      if current <= limit {
        return wanted;
      }
      var overflow := current - limit;
      granted := Max(0, wanted - overflow);
      var _ := Add(second, -overflow);
    }
  }
}
