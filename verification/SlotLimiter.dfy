/** The rate limit in front of the AI gateway: each call reserves a slot under the lock and waits for it. */
module SlotLimiter {
  import opened Options

  /** A call that took a slot: the time it read under the lock, and the interval then in force. */
  datatype Call = Call(now: int, interval: int)

  /** The slot of a call after one that got the slot last; None is the zero time, longer ago than any interval. */
  function SlotAfter(last: Option<int>, c: Call): int {
    if last.Some? && last.value > c.now then last.value + c.interval
    else if last.Some? && c.interval - (c.now - last.value) > 0 then c.now + (c.interval - (c.now - last.value))
    else c.now
  }

  /** The slots of calls in lock order. */
  function Slots(calls: seq<Call>): (slots: seq<int>)
    ensures |slots| == |calls|
  {
    if calls == [] then []
    else
      var slots := Slots(calls[..|calls| - 1]);
      slots + [SlotAfter(LastOf(slots), calls[|calls| - 1])]
  }

  function LastOf(slots: seq<int>): Option<int> {
    if slots == [] then None else Some(slots[|slots| - 1])
  }

  lemma {:induction false} OneMoreSlot(calls: seq<Call>, c: Call)
    ensures Slots(calls + [c]) == Slots(calls) + [SlotAfter(LastOf(Slots(calls)), c)]
  {
    assert (calls + [c])[..|calls|] == calls;
  }

  ghost predicate Positive(calls: seq<Call>) {
    forall i :: 0 <= i < |calls| ==> calls[i].interval > 0
  }

  /** Slots at or after the arrivals, each an interval of its call after the one before. */
  ghost predicate Feasible(calls: seq<Call>, slots: seq<int>) {
    && |slots| == |calls|
    && (forall i :: 0 <= i < |calls| ==> calls[i].now <= slots[i])
    && (forall i :: 0 < i < |calls| ==> slots[i - 1] + calls[i].interval <= slots[i])
  }

  lemma {:induction false} SlotsAreFeasible(calls: seq<Call>)
    requires Positive(calls)
    ensures Feasible(calls, Slots(calls))
  {
    if calls != [] {
      SlotsAreFeasible(calls[..|calls| - 1]);
    }
  }

  /** No schedule that keeps the intervals in this order grants any slot earlier. */
  lemma {:induction false} SlotsAreEarliest(calls: seq<Call>, other: seq<int>, n: nat)
    requires Positive(calls) && Feasible(calls, other) && n < |calls|
    ensures Slots(calls)[n] <= other[n]
  {
    var m := |calls| - 1;
    if n < m {
      SlotsAreEarliest(calls[..m], other[..m], n);
    } else if n > 0 {
      SlotsAreEarliest(calls[..m], other[..m], n - 1);
      assert Slots(calls[..m])[m - 1] <= other[m - 1];
    }
  }

  /** The earliest that call n can go when call j goes at its arrival and every later one an interval on. */
  function Chain(calls: seq<Call>, j: nat, n: nat): int
    requires j <= n < |calls|
    decreases n
  {
    if n == j then calls[j].now else Chain(calls, j, n - 1) + calls[n].interval
  }

  lemma {:induction false} ChainOfPrefix(calls: seq<Call>, m: nat, j: nat, n: nat)
    requires j <= n < m <= |calls|
    ensures Chain(calls[..m], j, n) == Chain(calls, j, n)
  {
    if j < n { ChainOfPrefix(calls, m, j, n - 1); }
  }

  /** The n-th slot is the greatest of these chains over the calls up to n. */
  lemma {:induction false} SlotIsGreatestChain(calls: seq<Call>, n: nat) returns (best: nat)
    requires Positive(calls) && n < |calls|
    ensures best <= n && Slots(calls)[n] == Chain(calls, best, n)
    ensures forall j :: 0 <= j <= n ==> Chain(calls, j, n) <= Slots(calls)[n]
  {
    var m := |calls| - 1;
    var before := calls[..m];
    if n < m {
      best := SlotIsGreatestChain(before, n);
      forall j | 0 <= j <= n ensures Chain(calls, j, n) == Chain(before, j, n) { ChainOfPrefix(calls, m, j, n); }
    } else if n == 0 {
      best := 0;
    } else {
      best := SlotIsGreatestChain(before, n - 1);
      forall j | 0 <= j <= n - 1 ensures Chain(calls, j, n) == Chain(before, j, n - 1) + calls[n].interval {
        ChainOfPrefix(calls, m, j, n - 1);
      }
      if Slots(calls)[n] == calls[n].now { best := n; }
    }
  }

  /** With one interval throughout, a chain is the arrival and as many intervals as calls since. */
  lemma {:induction false} ConstantChain(calls: seq<Call>, interval: int, j: nat, n: nat)
    requires j <= n < |calls| && forall i :: 0 <= i < |calls| ==> calls[i].interval == interval
    ensures Chain(calls, j, n) == calls[j].now + (n - j) * interval
  {
    if j < n {
      ConstantChain(calls, interval, j, n - 1);
      assert (n - j) * interval == (n - 1 - j) * interval + interval;
    }
  }

  /** With one interval throughout: the n-th slot is the maximum over j of arrival j plus (n - j) intervals. */
  lemma ClosedForm(calls: seq<Call>, interval: int, n: nat) returns (best: nat)
    requires interval > 0 && n < |calls| && forall i :: 0 <= i < |calls| ==> calls[i].interval == interval
    ensures best <= n && Slots(calls)[n] == calls[best].now + (n - best) * interval
    ensures forall j :: 0 <= j <= n ==> calls[j].now + (n - j) * interval <= Slots(calls)[n]
  {
    best := SlotIsGreatestChain(calls, n);
    forall j | 0 <= j <= n ensures Chain(calls, j, n) == calls[j].now + (n - j) * interval {
      ConstantChain(calls, interval, j, n);
    }
  }

  class Limiter {
    var minInterval: int
    var lastCall: Option<int>

    /** The calls that took a slot. */
    ghost var calls: seq<Call>

    ghost predicate Valid()
      reads this
    {
      Positive(calls) && lastCall == LastOf(Slots(calls))
    }

    constructor (interval: int)
      ensures Valid() && minInterval == interval && calls == []
    {
      minInterval, lastCall, calls := interval, None, [];
    }

    method SetMinInterval(d: int)
      requires Valid()
      modifies this`minInterval
      ensures Valid() && minInterval == d
    {
      minInterval := d;
    }

    /** When the caller may go; without a positive interval, at once and without taking a slot. */
    method WaitRateLimit(now: int) returns (at: int)
      requires Valid()
      modifies this`lastCall, this`calls
      ensures Valid()
      ensures calls == if minInterval > 0 then old(calls) + [Call(now, minInterval)] else old(calls)
      ensures minInterval > 0 ==> at == Slots(calls)[|calls| - 1]
      ensures minInterval <= 0 ==> at == now && lastCall == old(lastCall)
    {
      var interval := minInterval;
      if interval <= 0 {
        return now;
      }
      var scheduled := now;
      if lastCall.Some? && lastCall.value > now {
        scheduled := lastCall.value + interval;
      } else if lastCall.Some? {
        var wait := interval - (now - lastCall.value);
        if wait > 0 {
          scheduled := now + wait;
        }
      }
      OneMoreSlot(calls, Call(now, interval));
      lastCall := Some(scheduled);
      calls := calls + [Call(now, interval)];
      at := scheduled;
    }
  }
}
