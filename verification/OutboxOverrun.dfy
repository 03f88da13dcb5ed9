/**
 Exactly when a row gets a second holder or a second fallback: when a lease on it runs out, or when its last
 failure is not recorded, and never otherwise.
 */
module OutboxOverrun {
  import opened OutboxTable
  import opened OutboxProtocol
  import opened OutboxLease
  import opened OutboxFallback

  // ---------- runs in pieces ----------

  lemma {:induction false} RunTwice(s: State, a: seq<Step>, b: seq<Step>)
    ensures Run(s, a + b) == Run(Run(s, a), b)
    decreases |a|
  {
    if a == [] {
      assert a + b == b;
    } else {
      RunTwice(Apply(s, a[0]), a[1..], b);
      assert (a + b)[1..] == a[1..] + b;
    }
  }

  /** Within the lease and this much more, and with every failure recorded. */
  ghost predicate Orderly(s: State, steps: seq<Step>, id: int, slack: nat) {
    KeptRun(s, steps, id, slack) && RecordedRun(s, steps, id)
  }

  lemma {:induction false} OrderlyTwice(s: State, a: seq<Step>, b: seq<Step>, id: int, slack: nat)
    requires Orderly(s, a, id, slack) && Orderly(Run(s, a), b, id, slack)
    ensures Orderly(s, a + b, id, slack)
    decreases |a|
  {
    if a == [] {
      assert a + b == b;
    } else {
      OrderlyTwice(Apply(s, a[0]), a[1..], b, id, slack);
      assert (a + b)[1..] == a[1..] + b;
    }
  }

  /** Calls that succeed, no time passing, and nobody crashing. */
  predicate Prompt(step: Step) {
    !step.Tick? && !step.Crash? && (step.Advance? ==> step.storeOk)
  }

  lemma {:induction false} PromptIsOrderly(s: State, steps: seq<Step>, id: int, slack: nat)
    requires forall i :: 0 <= i < |steps| ==> Prompt(steps[i])
    ensures Orderly(s, steps, id, slack)
    decreases |steps|
  {
    if steps != [] { PromptIsOrderly(Apply(s, steps[0]), steps[1..], id, slack); }
  }

  // ---------- a second holder ----------

  ghost predicate SingleHolder(s: State, id: int) {
    forall j, k :: Holds(s, j, id) && Holds(s, k, id) ==> j == k
  }

  /** Whoever claims the row now is its only holder. */
  ghost predicate ClaimIsSafe(s: State, worker: int, id: int) {
    SingleHolder(Apply(s, ClaimRow(worker, id)), id)
  }

  ghost predicate LeaseRuns(s: State, k: nat, id: int, elapsed: nat) {
    Holds(s, k, id) && id in s.table.rows && s.table.rows[id].status == Sending ==>
      s.table.now + elapsed <= s.claims[k].task.nextRetryAt
  }

  lemma ReclaimedHasTwo(s: State, k: nat, id: int, worker: int, elapsed: nat)
    requires Leased(s, id) && !LeaseRuns(s, k, id, elapsed)
    ensures !ClaimIsSafe(Apply(s, Tick(elapsed)), worker, id)
  {
    var t := Apply(s, Tick(elapsed));
    var u := Apply(t, ClaimRow(worker, id));
    assert k in Held(s, id) && Honest(s, s.claims[k]);
    assert Claimable(t.table, id);
    assert Holds(u, k, id) && Holds(u, s.tickets, id) && k < s.tickets;
  }

  lemma OneHolds(s: State, id: int)
    requires Leased(s, id)
    ensures SingleHolder(s, id)
    ensures forall k :: Holds(s, k, id) ==>
              id in s.table.rows && (s.table.rows[id].status == Cancelled || s.table.rows[id] == s.claims[k].task)
  {
    forall k | Holds(s, k, id) ensures k in Held(s, id) && id in s.table.rows {
      assert Honest(s, s.claims[k]);
    }
  }

  lemma LeasedClaimIsSafe(s: State, worker: int, id: int, elapsed: nat)
    requires Leased(s, id) && forall k :: LeaseRuns(s, k, id, elapsed)
    ensures ClaimIsSafe(Apply(s, Tick(elapsed)), worker, id)
  {
    var t := Apply(s, Tick(elapsed));
    var u := Apply(t, ClaimRow(worker, id));
    OneHolds(s, id);
    assert t.claims == s.claims && t.table.rows == s.table.rows;
    if Claimable(t.table, id) {
      forall k ensures !Holds(s, k, id) {
        assert LeaseRuns(s, k, id, elapsed) && (Holds(s, k, id) ==> k in Held(s, id));
      }
    }
    forall j, k | Holds(u, j, id) && Holds(u, k, id) ensures j == k {
      assert j != s.tickets ==> Holds(s, j, id);
      assert k != s.tickets ==> Holds(s, k, id);
    }
  }

  /** After some time nobody can become a second holder of any row exactly when that time is within the lease
      of every holder whose row is still SENDING. */
  lemma SecondHolderIff(s: State, elapsed: nat)
    requires forall id :: Leased(s, id)
    ensures (forall worker, id :: ClaimIsSafe(Apply(s, Tick(elapsed)), worker, id))
            <==> (forall k, id :: LeaseRuns(s, k, id, elapsed))
  {
    if k, id :| !LeaseRuns(s, k, id, elapsed) {
      ReclaimedHasTwo(s, k, id, 0, elapsed);
    } else {
      forall worker, id ensures ClaimIsSafe(Apply(s, Tick(elapsed)), worker, id) {
        LeasedClaimIsSafe(s, worker, id, elapsed);
      }
    }
  }

  // ---------- a second fallback ----------

  ghost predicate TwoFallbacks(s: State, id: int) {
    exists m, n :: m != n && FallbackOf(s, m, id) && FallbackOf(s, n, id)
  }

  function CallsLeft(pc: PC): nat {
    match pc
    case CheckIssue => 5
    case Send => 4
    case Fail => 3
    case CheckFallback => 2
    case Fallback => 1
    case _ => 0
  }

  /** A claim that will fall back if its sends fail. */
  predicate Failing(s: State, k: nat) {
    && k in s.claims && CallsLeft(s.claims[k].pc) > 0
    && LastAttempt(s.claims[k].task) && s.claims[k].task.status == Sending && s.claims[k].task.channel == WxPusher
    && Active(s.table, s.claims[k].task.issue)
  }

  lemma OneCall(s: State, k: nat)
    requires Failing(s, k) && CallsLeft(s.claims[k].pc) > 1
    ensures var u := Apply(s, Advance(k, false, true));
            && Failing(u, k) && CallsLeft(u.claims[k].pc) < CallsLeft(s.claims[k].pc)
            && u.claims == s.claims[k := s.claims[k].(pc := u.claims[k].pc)] && u.fallbackOf == s.fallbackOf
            && u.table.nextId == s.table.nextId && u.table.deleted == s.table.deleted && u.table.now == s.table.now
            && (!Settling(s.claims[k].pc) ==> !Settling(u.claims[k].pc) && u.table == s.table)
  {
  }

  /** The remaining calls of such a claim, with its send failing: they create a fallback, whatever became of the row. */
  lemma {:induction false} FallsBack(s: State, k: nat) returns (steps: seq<Step>)
    requires Failing(s, k)
    ensures forall i :: 0 <= i < |steps| ==> Prompt(steps[i])
    ensures var u := Run(s, steps);
            && u.fallbackOf == s.fallbackOf[s.table.nextId := s.claims[k].id] && u.claims == s.claims - {k}
            && u.table.nextId == s.table.nextId + 1 && u.table.deleted == s.table.deleted
            && u.table.now == s.table.now && u.tickets == s.tickets
    ensures !Settling(s.claims[k].pc) ==> forall id :: id in s.table.rows && id != s.table.nextId ==>
              id in Run(s, steps).table.rows && Run(s, steps).table.rows[id] == s.table.rows[id]
    decreases CallsLeft(s.claims[k].pc)
  {
    var step := Advance(k, false, true);
    if s.claims[k].pc.Fallback? {
      steps := [step];
      assert steps[1..] == [];
    } else {
      OneCall(s, k);
      var rest := FallsBack(Apply(s, step), k);
      steps := [step] + rest;
      assert steps[1..] == rest;
    }
  }

  /** Two claims of one row that both fall back. */
  lemma BothFallBack(s: State, j: nat, k: nat, id: int) returns (steps: seq<Step>)
    requires Sane(s) && On(s, j, id) && On(s, k, id) && j != k && Failing(s, j) && Failing(s, k)
    ensures forall i :: 0 <= i < |steps| ==> Prompt(steps[i])
    ensures TwoFallbacks(Run(s, steps), id)
  {
    var first := FallsBack(s, j);
    var second := FallsBack(Run(s, first), k);
    RunTwice(s, first, second);
    steps := first + second;
    assert FallbackOf(Run(s, steps), s.table.nextId, id) && FallbackOf(Run(s, steps), s.table.nextId + 1, id);
  }

  ghost predicate Doubles(s: State, steps: seq<Step>, id: int) {
    Orderly(s, steps, id, 0) && TwoFallbacks(Run(s, steps), id)
  }

  /** A holder of the last attempt of a WXPUSHER row that may still bounce. */
  ghost predicate LastHolder(s: State, k: nat, id: int) {
    && Holds(s, k, id) && id in s.table.rows && s.table.rows[id].status == Sending
    && LastAttempt(s.claims[k].task) && s.claims[k].task.channel == WxPusher
    && (s.claims[k].pc.CheckIssue? || s.claims[k].pc.Send? || s.claims[k].pc.Fail?)
  }

  lemma OverrunIsClaimed(s: State, k: nat, id: int, elapsed: nat) returns (u: State)
    requires Leased(s, id) && LastHolder(s, k, id) && s.table.now + elapsed > s.claims[k].task.nextRetryAt
    ensures u == Apply(Apply(s, Tick(elapsed)), ClaimRow(0, id)) && Sane(u) && k != s.tickets
    ensures On(u, k, id) && On(u, s.tickets, id) && Failing(u, k) && Failing(u, s.tickets)
  {
    var t := Apply(s, Tick(elapsed));
    assert k in Held(s, id) && Honest(s, s.claims[k]);
    SanePreserved(s, Tick(elapsed));
    SanePreserved(t, ClaimRow(0, id));
    u := Apply(t, ClaimRow(0, id));
    assert k < s.tickets;
  }

  lemma OverrunDoubles(s: State, k: nat, id: int, elapsed: nat) returns (steps: seq<Step>)
    requires Leased(s, id) && LastHolder(s, k, id) && s.table.now + elapsed > s.claims[k].task.nextRetryAt
    ensures Doubles(Apply(s, Tick(elapsed)), steps, id)
  {
    var u := OverrunIsClaimed(s, k, id, elapsed);
    var rest := BothFallBack(u, k, s.tickets, id);
    steps := [ClaimRow(0, id)] + rest;
    assert steps[1..] == rest;
    PromptIsOrderly(Apply(s, Tick(elapsed)), steps, id, 0);
  }

  lemma OrderlyHasOne(s: State, steps: seq<Step>, id: int)
    requires Leased(s, id) && OneFallback(s, id) && Orderly(s, steps, id, 0)
    ensures !TwoFallbacks(Run(s, steps), id)
  {
    RunKeepsOneFallback(s, steps, id);
  }

  ghost predicate MayDouble(s: State, id: int) {
    exists steps: seq<Step> :: Doubles(s, steps, id)
  }

  /** After some time there is an orderly run in which the row of a last attempt gets two fallbacks exactly when
      that time overruns the lease of its holder. */
  lemma SecondFallbackIff(s: State, k: nat, id: int, elapsed: nat)
    requires Leased(s, id) && OneFallback(s, id) && LastHolder(s, k, id)
    ensures MayDouble(Apply(s, Tick(elapsed)), id) <==> s.table.now + elapsed > s.claims[k].task.nextRetryAt
  {
    if s.table.now + elapsed > s.claims[k].task.nextRetryAt {
      var steps := OverrunDoubles(s, k, id, elapsed);
    } else {
      forall j | j in Held(s, id) ensures s.table.now + elapsed <= Held(s, id)[j].nextRetryAt {
        assert k in Held(s, id);
      }
      StepKeepsLeased(s, Tick(elapsed), id);
      StepKeepsOneFallback(s, Tick(elapsed), id);
      forall steps: seq<Step> ensures !Doubles(Apply(s, Tick(elapsed)), steps, id) {
        if Orderly(Apply(s, Tick(elapsed)), steps, id, 0) { OrderlyHasOne(Apply(s, Tick(elapsed)), steps, id); }
      }
    }
  }

  // ---------- a failure that is not recorded ----------

  /** Nobody holds the row, which is SENDING for the last time: once the lease is over it is claimed and fails. */
  lemma AbandonedFallsBack(s: State, id: int) returns (steps: seq<Step>)
    requires Sane(s) && Held(s, id) == map[] && id in s.table.rows
    requires s.table.rows[id].status == Sending && s.table.rows[id].channel == WxPusher && LastAttempt(s.table.rows[id])
    requires s.table.now <= s.table.rows[id].nextRetryAt
    ensures Orderly(s, steps, id, 0)
    ensures Run(s, steps).fallbackOf == s.fallbackOf[s.table.nextId := id]
  {
    var wait := Tick(s.table.rows[id].nextRetryAt + 1 - s.table.now);
    var t := Apply(s, wait);
    SanePreserved(s, wait);
    var u := Apply(t, ClaimRow(0, id));
    SanePreserved(t, ClaimRow(0, id));
    var rest := FallsBack(u, s.tickets);
    PromptIsOrderly(u, rest, id, 0);
    steps := [wait, ClaimRow(0, id)] + rest;
    assert steps[1..] == [ClaimRow(0, id)] + rest && steps[1..][1..] == rest;
    assert Run(s, steps) == Run(t, steps[1..]) == Run(u, rest);
  }

  /** The worker goes on to create the fallback, and leaves the row as it is. */
  lemma LostFailure(s: State, k: nat, id: int) returns (steps: seq<Step>)
    requires Leased(s, id) && LastHolder(s, k, id) && s.claims[k].pc.Fail?
    ensures forall i :: 0 <= i < |steps| ==> Prompt(steps[i])
    ensures var u := Run(Apply(s, Advance(k, false, false)), steps);
            && Sane(u) && u.claims == s.claims - {k} && u.fallbackOf == s.fallbackOf[s.table.nextId := id]
            && id in u.table.rows && u.table.rows[id] == s.table.rows[id] && u.table.now == s.table.now
            && u.table.nextId == s.table.nextId + 1
  {
    var t := Apply(s, Advance(k, false, false));
    assert k in Held(s, id) && Honest(s, s.claims[k]);
    SanePreserved(s, Advance(k, false, false));
    assert t.claims == s.claims[k := s.claims[k].(pc := CheckFallback)] && t.table == s.table
           && t.fallbackOf == s.fallbackOf;
    assert Failing(t, k) && id < s.table.nextId;
    steps := FallsBack(t, k);
    SaneRun(t, steps);
  }

  lemma LostFailureDoubles(s: State, k: nat, id: int) returns (steps: seq<Step>)
    requires Leased(s, id) && LastHolder(s, k, id) && s.claims[k].pc.Fail?
    ensures Doubles(Apply(s, Advance(k, false, false)), steps, id)
  {
    var t := Apply(s, Advance(k, false, false));
    assert k in Held(s, id);
    var first := LostFailure(s, k, id);
    var u := Run(t, first);
    forall j | j in u.claims ensures !Holds(u, j, id) {
      assert j != k && u.claims[j] == s.claims[j];
      assert Holds(s, j, id) ==> j in Held(s, id);
    }
    assert Held(u, id) == map[];
    var second := AbandonedFallsBack(u, id);
    PromptIsOrderly(t, first, id, 0);
    RunTwice(t, first, second);
    OrderlyTwice(t, first, second, id, 0);
    steps := first + second;
    assert FallbackOf(Run(t, steps), s.table.nextId, id) && FallbackOf(Run(t, steps), s.table.nextId + 1, id);
  }

  /** Within the leases, the row of a last attempt that has bounced may get two fallbacks exactly when the store
      loses its failure: the worker goes on to the fallback all the same. */
  lemma LostFailureIff(s: State, k: nat, id: int, storeOk: bool)
    requires Leased(s, id) && OneFallback(s, id) && LastHolder(s, k, id) && s.claims[k].pc.Fail?
    ensures MayDouble(Apply(s, Advance(k, false, storeOk)), id) <==> !storeOk
  {
    var t := Apply(s, Advance(k, false, storeOk));
    if storeOk {
      StepKeepsLeased(s, Advance(k, false, storeOk), id);
      StepKeepsOneFallback(s, Advance(k, false, storeOk), id);
      forall steps: seq<Step> ensures !Doubles(t, steps, id) {
        if Orderly(t, steps, id, 0) { OrderlyHasOne(t, steps, id); }
      }
    } else {
      var steps := LostFailureDoubles(s, k, id);
    }
  }
}
