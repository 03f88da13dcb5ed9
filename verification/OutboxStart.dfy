/**
 Runs from an empty outbox in which one row is tried and tried again, by workers in time and by workers late.
 */
module OutboxStart {
  import opened OutboxTable
  import opened OutboxProtocol
  import opened OutboxLease
  import opened OutboxOverrun
  import opened OutboxSends
  import opened OutboxBudget

  lemma {:induction false} KeptLonger(s: State, steps: seq<Step>, id: int, slack: nat, longer: nat)
    requires KeptRun(s, steps, id, slack) && slack <= longer
    ensures KeptRun(s, steps, id, longer)
    decreases |steps|
  {
    if steps != [] { KeptLonger(Apply(s, steps[0]), steps[1..], id, slack, longer); }
  }

  lemma {:induction false} KeptTwice(s: State, a: seq<Step>, b: seq<Step>, id: int, slack: nat)
    requires KeptRun(s, a, id, slack) && KeptRun(Run(s, a), b, id, slack)
    ensures KeptRun(s, a + b, id, slack)
    decreases |a|
  {
    if a == [] {
      assert a + b == b;
    } else {
      KeptTwice(Apply(s, a[0]), a[1..], b, id, slack);
      assert (a + b)[1..] == a[1..] + b;
    }
  }

  const START := State(Table(map[], map[], 0, 0), map[], 0, map[], {}, {}, map[])

  lemma {:induction false} PromptIsUnbroken(s: State, steps: seq<Step>, id: int)
    requires forall i :: 0 <= i < |steps| ==> Prompt(steps[i])
    ensures UnbrokenRun(s, steps, id)
    decreases |steps|
  {
    if steps != [] { PromptIsUnbroken(Apply(s, steps[0]), steps[1..], id); }
  }

  lemma {:induction false} UnbrokenTwice(s: State, a: seq<Step>, b: seq<Step>, id: int)
    requires UnbrokenRun(s, a, id) && UnbrokenRun(Run(s, a), b, id)
    ensures UnbrokenRun(s, a + b, id)
    decreases |a|
  {
    if a == [] {
      assert a + b == b;
    } else {
      UnbrokenTwice(Apply(s, a[0]), a[1..], b, id);
      assert (a + b)[1..] == a[1..] + b;
    }
  }

  /** An orderly run about row 0 from one state to another, with nothing failing. */
  ghost predicate Leads(s: State, steps: seq<Step>, u: State, slack: nat) {
    Orderly(s, steps, 0, slack) && UnbrokenRun(s, steps, 0) && Run(s, steps) == u
  }

  lemma PromptLeads(s: State, steps: seq<Step>, slack: nat)
    requires forall i :: 0 <= i < |steps| ==> Prompt(steps[i])
    ensures Leads(s, steps, Run(s, steps), slack)
  {
    PromptIsOrderly(s, steps, 0, slack);
    PromptIsUnbroken(s, steps, 0);
  }

  lemma Joined(s: State, a: seq<Step>, t: State, b: seq<Step>, u: State, slack: nat)
    requires Leads(s, a, t, slack) && Leads(t, b, u, slack)
    ensures Leads(s, a + b, u, slack)
  {
    RunTwice(s, a, b);
    OrderlyTwice(s, a, b, 0, slack);
    UnbrokenTwice(s, a, b, 0);
  }

  /** Row 0 of issue 1, just claimed under the last ticket with this task; and what else is claimed. */
  ghost predicate JustClaimed(s: State, k: nat, task: Row, others: map<nat, Claim>) {
    && Sane(s) && s.table.deleted == map[1 := false] && s.table.rows == map[0 := task] && s.table.nextId == 1
    && s.tickets == k + 1
    && k !in others && s.claims == others[k := Claim(0, 0, task, CheckIssue)]
    && task.status == Sending && task.issue == 1 && task.channel == WxPusher && task.maxRetries == DEFAULT_MAX_RETRIES
    && task.retryCount >= 0 && task.nextRetryAt == s.table.now + LEASE
  }

  lemma TwoSteps(s: State, a: Step, b: Step)
    ensures Run(s, [a, b]) == Apply(Apply(s, a), b)
  {
    assert [a, b][1..] == [b] && [b][1..] == [];
    assert Run(s, [a, b]) == Run(Apply(s, a), [b]) == Run(Apply(Apply(s, a), b), []);
  }

  function BadCalls(j: nat): seq<Step> {
    [Advance(j, false, true), Advance(j, false, true)]
  }

  lemma SendBounces(s: State, j: nat, slack: nat) returns (u: State)
    requires Sane(s) && j in s.claims && s.claims[j].pc == CheckIssue
    requires !LastAttempt(s.claims[j].task) && Active(s.table, s.claims[j].task.issue)
    ensures Leads(s, BadCalls(j), u, slack)
    ensures Sane(u) && u.table == s.table && u.tickets == s.tickets
    ensures u.claims == s.claims[j := s.claims[j].(pc := CheckRetry)]
  {
    var step := Advance(j, false, true);
    assert Honest(s, s.claims[j]);
    TwoSteps(s, step, step);
    u := Apply(Apply(s, step), step);
    assert u.claims == s.claims[j := s.claims[j].(pc := CheckRetry)];
    SaneRun(s, BadCalls(j));
    PromptLeads(s, BadCalls(j), slack);
  }

  lemma PutsBack(s: State, j: nat, slack: nat) returns (u: State)
    requires Sane(s) && j in s.claims && s.claims[j].pc == CheckRetry && Active(s.table, s.claims[j].task.issue)
    ensures Leads(s, BadCalls(j), u, slack)
    ensures Sane(u) && u.table == Retry(s.table, s.claims[j].id, Backoff(s.claims[j].task))
    ensures u.claims == s.claims - {j} && u.tickets == s.tickets
  {
    var step := Advance(j, false, true);
    TwoSteps(s, step, step);
    u := Apply(Apply(s, step), step);
    assert u.claims == s.claims - {j};
    SaneRun(s, BadCalls(j));
    PromptLeads(s, BadCalls(j), slack);
  }

  /** Four calls of a claim that bounces with a retry left: the row goes back to wait. */
  lemma Bounces(s: State, j: nat, slack: nat) returns (steps: seq<Step>, u: State)
    requires Sane(s) && j in s.claims && s.claims[j].pc == CheckIssue && s.claims[j].id == 0
    requires !LastAttempt(s.claims[j].task) && Active(s.table, s.claims[j].task.issue)
    ensures Leads(s, steps, u, slack)
    ensures Sane(u) && u.table == Retry(s.table, 0, Backoff(s.claims[j].task))
    ensures u.claims == s.claims - {j} && u.tickets == s.tickets
  {
    var t := SendBounces(s, j, slack);
    u := PutsBack(t, j, slack);
    assert u.claims == s.claims - {j};
    Joined(s, BadCalls(j), t, BadCalls(j), u, slack);
    steps := BadCalls(j) + BadCalls(j);
  }

  /** The row of issue 1, the only one, is due after this wait. */
  predicate DueAfter(s: State, row: Row, wait: nat) {
    && s.table.deleted == map[1 := false] && s.table.rows == map[0 := row] && s.table.nextId == 1
    && row.issue == 1 && row.channel == WxPusher && row.maxRetries == DEFAULT_MAX_RETRIES && row.retryCount >= 0
    && ((row.status == Pending && row.nextRetryAt <= s.table.now + wait)
        || (row.status == Sending && row.nextRetryAt < s.table.now + wait))
  }

  lemma ClaimsDue(t: State, row: Row)
    requires Sane(t) && DueAfter(t, row, 0)
    ensures var u := Apply(t, ClaimRow(0, 0));
            && JustClaimed(u, t.tickets, row.(status := Sending, nextRetryAt := t.table.now + LEASE), t.claims)
            && u.table.now == t.table.now && u.attempts == t.attempts
  {
    var u := Apply(t, ClaimRow(0, 0));
    assert t.tickets !in t.claims;
    assert Claimable(t.table, 0);
    SanePreserved(t, ClaimRow(0, 0));
    assert u.table.rows == map[0 := row.(status := Sending, nextRetryAt := t.table.now + LEASE)];
  }

  lemma TickIsKept(s: State, wait: nat, step: Step, slack: nat)
    requires Prompt(step) && Within(Held(s, 0), s.table.now + wait, slack)
    ensures Leads(s, [Tick(wait), step], Run(s, [Tick(wait), step]), slack)
  {
    var t := Apply(s, Tick(wait));
    assert [Tick(wait), step][1..] == [step];
    PromptLeads(t, [step], slack);
  }

  predicate NoCalls(steps: seq<Step>) {
    forall i :: 0 <= i < |steps| ==> !steps[i].Advance?
  }

  /** The row is due and claimed again. */
  lemma NextClaim(s: State, row: Row, wait: nat, slack: nat) returns (steps: seq<Step>, u: State)
    requires Sane(s) && DueAfter(s, row, wait) && Within(Held(s, 0), s.table.now + wait, slack)
    ensures Leads(s, steps, u, slack) && u.table.now == s.table.now + wait && u.attempts == s.attempts
    ensures JustClaimed(u, s.tickets, row.(status := Sending, nextRetryAt := s.table.now + wait + LEASE), s.claims)
    ensures NoCalls(steps)
  {
    var t := Apply(s, Tick(wait));
    SanePreserved(s, Tick(wait));
    ClaimsDue(t, row);
    TwoSteps(s, Tick(wait), ClaimRow(0, 0));
    TickIsKept(s, wait, ClaimRow(0, 0), slack);
    steps, u := [Tick(wait), ClaimRow(0, 0)], Apply(t, ClaimRow(0, 0));
  }

  /** A claim of the row that may bounce and be retried. */
  predicate MayRetry(s: State, j: nat) {
    && j in s.claims && s.claims[j].pc == CheckIssue && s.claims[j].id == 0 && s.claims[j].task.issue == 1
    && !LastAttempt(s.claims[j].task) && s.claims[j].task.retryCount >= 0
  }

  /** The others may still be there after this wait. */
  ghost predicate OthersStay(s: State, j: nat, wait: nat, slack: nat) {
    forall i :: i in s.claims && i != j ==> s.table.now + wait <= s.claims[i].task.nextRetryAt + slack
  }

  function Waiting(task: Row, due: int): Row {
    task.(status := Pending, retryCount := task.retryCount + 1, nextRetryAt := due)
  }

  lemma RetriedWaits(t: Table, task: Row, backoff: int)
    requires t.rows == map[0 := task] && task.status == Sending && task.issue in t.deleted && !t.deleted[task.issue]
    ensures Retry(t, 0, backoff) == t.(rows := map[0 := Waiting(task, t.now + backoff * SECOND)])
  {
  }

  lemma BouncesBack(s: State, k: nat, task: Row, others: map<nat, Claim>, j: nat, wait: nat, slack: nat)
    returns (steps: seq<Step>, t: State)
    requires JustClaimed(s, k, task, others) && MayRetry(s, j)
    requires wait == Backoff(s.claims[j].task) * SECOND && OthersStay(s, j, wait, slack)
    ensures Leads(s, steps, t, slack)
    ensures Sane(t) && DueAfter(t, Waiting(task, s.table.now + wait), wait) && t.table.now == s.table.now
    ensures t.claims == s.claims - {j} && t.tickets == k + 1
  {
    steps, t := Bounces(s, j, slack);
    RetriedWaits(s.table, task, Backoff(s.claims[j].task));
  }

  lemma StillWithin(s: State, t: State, j: nat, wait: nat, slack: nat)
    requires OthersStay(s, j, wait, slack) && t.claims == s.claims - {j} && t.table.now == s.table.now
    ensures Within(Held(t, 0), t.table.now + wait, slack)
  {
    forall i | i in Held(t, 0) ensures t.table.now + wait <= Held(t, 0)[i].nextRetryAt + slack {
      assert i in s.claims - {j};
    }
  }

  /** A claim of the row bounces, and after its backoff the row is claimed again; the others are in time for that. */
  lemma Round(s: State, k: nat, task: Row, others: map<nat, Claim>, j: nat, wait: nat, slack: nat)
    returns (steps: seq<Step>, u: State)
    requires JustClaimed(s, k, task, others) && MayRetry(s, j) && wait == Backoff(s.claims[j].task) * SECOND
             && OthersStay(s, j, wait, slack)
    ensures Leads(s, steps, u, slack) && u.table.now == s.table.now + wait
    ensures JustClaimed(u, k + 1, task.(retryCount := task.retryCount + 1, nextRetryAt := s.table.now + wait + LEASE),
                        s.claims - {j})
  {
    var first, t := BouncesBack(s, k, task, others, j, wait, slack);
    var second;
    second, u := ClaimedAgain(s, t, k, task, j, wait, slack);
    Joined(s, first, t, second, u, slack);
    steps := first + second;
  }

  lemma ClaimedAgain(s: State, t: State, k: nat, task: Row, j: nat, wait: nat, slack: nat)
    returns (steps: seq<Step>, u: State)
    requires task.status == Sending && OthersStay(s, j, wait, slack)
    requires Sane(t) && DueAfter(t, Waiting(task, s.table.now + wait), wait) && t.table.now == s.table.now
    requires t.claims == s.claims - {j} && t.tickets == k + 1
    ensures Leads(t, steps, u, slack) && u.table.now == s.table.now + wait
    ensures JustClaimed(u, k + 1, task.(retryCount := task.retryCount + 1, nextRetryAt := s.table.now + wait + LEASE),
                        s.claims - {j})
  {
    StillWithin(s, t, j, wait, slack);
    steps, u := NextClaim(t, Waiting(task, s.table.now + wait), wait, slack);
  }

  lemma FirstRow(slack: nat) returns (steps: seq<Step>, u: State, row: Row)
    ensures Leads(START, steps, u, slack)
    ensures Sane(u) && DueAfter(u, row, 0) && row.retryCount == 0 && u.claims == map[] && u.tickets == 0
            && u.table.now == 0
    ensures NoCalls(steps)
  {
    var issue, entry := NewIssue(1), Enqueue(1, "NEW_ISSUE", WxPusher, "{}");
    var s1 := Apply(START, issue);
    u := Apply(s1, entry);
    SanePreserved(START, issue);
    SanePreserved(s1, entry);
    row := Row(1, "NEW_ISSUE", WxPusher, "{}", Pending, 0, DEFAULT_MAX_RETRIES, 0);
    assert u.table.rows == map[0 := row];
    steps := [issue, entry];
    assert steps[1..] == [entry] && [entry][1..] == [];
    assert Run(START, steps) == Run(s1, [entry]) == Run(u, []) == u;
    PromptLeads(START, steps, slack);
  }

  /** From an empty outbox: an issue, its WXPUSHER row, and the first claim. */
  lemma FirstClaim(slack: nat) returns (steps: seq<Step>, u: State, task: Row)
    ensures Leads(START, steps, u, slack)
    ensures JustClaimed(u, 0, task, map[]) && task.retryCount == 0 && NoCalls(steps)
  {
    var first, t, row := FirstRow(slack);
    assert Held(t, 0) == map[];
    var second;
    second, u := NextClaim(t, row, 0, slack);
    Joined(START, first, t, second, u, slack);
    steps, task := first + second, row.(status := Sending, nextRetryAt := t.table.now + LEASE);
  }

  /** n failed attempts, each within its lease, and the next claim. */
  lemma {:induction false} Attempted(n: nat) returns (steps: seq<Step>, u: State, task: Row)
    requires n < DEFAULT_MAX_RETRIES
    ensures Leads(START, steps, u, 0)
    ensures JustClaimed(u, n, task, map[]) && task.retryCount == n
  {
    if n == 0 {
      steps, u, task := FirstClaim(0);
    } else {
      var before, s, t := Attempted(n - 1);
      var round;
      round, u := Round(s, n - 1, t, map[], n - 1, Backoff(t) * SECOND, 0);
      Joined(START, before, s, round, u, 0);
      steps := before + round;
      assert s.claims - {n - 1} == map[];
      task := t.(retryCount := n, nextRetryAt := u.table.now + LEASE);
    }
  }

  /** The first holder is late by a moment, and the row is claimed again. */
  lemma LateHolder(slack: nat) returns (steps: seq<Step>, u: State, stale: Row, task: Row)
    requires slack > 0
    ensures Leads(START, steps, u, slack)
    ensures JustClaimed(u, 1, task, map[0 := Claim(0, 0, stale, CheckIssue)])
    ensures task.retryCount == stale.retryCount == 0 && stale.issue == 1 && stale.maxRetries == DEFAULT_MAX_RETRIES
  {
    var before, s, t := FirstClaim(slack);
    assert Held(s, 0) == map[0 := t];
    var claim;
    claim, u := NextClaim(s, t, LEASE + 1, slack);
    Joined(START, before, s, claim, u, slack);
    steps, stale, task := before + claim, t, t.(nextRetryAt := s.table.now + LEASE + 1 + LEASE);
    assert s.claims == map[0 := Claim(0, 0, stale, CheckIssue)];
  }

  lemma OthersAreInTime(s: State, n: nat, stale: Row, task: Row, wait: nat, slack: nat)
    requires JustClaimed(s, n + 1, task, map[n := Claim(0, 0, stale, CheckIssue)]) && slack >= LATE
    requires 0 <= stale.retryCount <= 2 && wait == Backoff(stale) * SECOND
    ensures OthersStay(s, n, wait, slack) && s.claims[n] == Claim(0, 0, stale, CheckIssue)
    ensures s.claims - {n} == map[n + 1 := Claim(0, 0, task, CheckIssue)]
  {
    Backoffs();
    assert s.claims[n + 1] == Claim(0, 0, task, CheckIssue);
  }

  /** One round in which the stale holder n puts the row back that the present one has, who is stale in turn. */
  lemma StaleRound(s: State, n: nat, stale: Row, task: Row, slack: nat) returns (steps: seq<Step>, u: State)
    requires JustClaimed(s, n + 1, task, map[n := Claim(0, 0, stale, CheckIssue)]) && slack >= LATE
    requires stale.issue == 1 && stale.maxRetries == DEFAULT_MAX_RETRIES && 0 <= stale.retryCount <= 2
    ensures Leads(s, steps, u, slack)
    ensures JustClaimed(u, n + 2, task.(retryCount := task.retryCount + 1, nextRetryAt := u.table.now + LEASE),
                        map[n + 1 := Claim(0, 0, task, CheckIssue)])
  {
    var wait := Backoff(stale) * SECOND;
    OthersAreInTime(s, n, stale, task, wait, slack);
    steps, u := Round(s, n + 1, task, map[n := Claim(0, 0, stale, CheckIssue)], n, wait, slack);
  }

  /** After n such rounds the row counts n, and its stale holder knows only n - 1. */
  lemma {:induction false} Overtaken(n: nat, slack: nat) returns (steps: seq<Step>, u: State, stale: Row, task: Row)
    requires n < DEFAULT_MAX_RETRIES && slack >= LATE
    ensures Leads(START, steps, u, slack)
    ensures JustClaimed(u, n + 1, task, map[n := Claim(0, 0, stale, CheckIssue)])
    ensures task.retryCount == n && stale.issue == 1 && stale.maxRetries == DEFAULT_MAX_RETRIES
    ensures stale.retryCount == if n == 0 then 0 else n - 1
  {
    if n == 0 {
      steps, u, stale, task := LateHolder(slack);
    } else {
      var before, s, behind, t := Overtaken(n - 1, slack);
      var round;
      round, u := StaleRound(s, n - 1, behind, t, slack);
      Joined(START, before, s, round, u, slack);
      steps, stale, task := before + round, t, t.(retryCount := n, nextRetryAt := u.table.now + LEASE);
    }
  }

  lemma BouncesOnce(s: State, k: nat) returns (steps: seq<Step>)
    requires Sane(s) && k in s.claims && s.claims[k].pc == CheckIssue && LastAttempt(s.claims[k].task)
             && Active(s.table, s.claims[k].task.issue)
    ensures forall i :: 0 <= i < |steps| ==> Prompt(steps[i])
    ensures Run(s, steps).claims == s.claims[k := s.claims[k].(pc := Fail)] && Run(s, steps).table == s.table
            && Run(s, steps).fallbackOf == s.fallbackOf
  {
    var step := Advance(k, false, true);
    assert Honest(s, s.claims[k]);
    var s1 := Apply(s, step);
    steps := [step, step];
    assert steps[1..] == [step] && [step][1..] == [];
    assert Run(s, steps) == Run(s1, [step]) == Apply(s1, step);
  }
}
