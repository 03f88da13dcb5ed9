/**
 How often a row can be sent at all: as often as outcomes are lost, and once more than it should when somebody is
 late. Both bounds are exact.
 */
module OutboxResends {
  import opened OutboxTable
  import opened OutboxProtocol
  import opened OutboxLease
  import opened OutboxOverrun
  import opened OutboxSends
  import opened OutboxStart

  lemma {:induction false} LossesTwice(s: State, a: seq<Step>, b: seq<Step>, id: int)
    ensures Losses(s, a + b, id) == Losses(s, a, id) + Losses(Run(s, a), b, id)
    decreases |a|
  {
    if a == [] {
      assert a + b == b;
    } else {
      LossesTwice(Apply(s, a[0]), a[1..], b, id);
      assert (a + b)[1..] == a[1..] + b;
    }
  }

  /** A run about row 0 within the leases from one state to another, with this many outcomes lost and every send
      delivered. */
  ghost predicate Delivers(s: State, steps: seq<Step>, u: State, lost: nat) {
    && KeptRun(s, steps, 0, 0) && Run(s, steps) == u && Losses(s, steps, 0) == lost
    && forall i :: 0 <= i < |steps| && steps[i].Advance? ==> steps[i].sendOk
  }

  lemma DeliversOn(s: State, a: seq<Step>, t: State, lost: nat, b: seq<Step>, u: State, more: nat)
    requires Delivers(s, a, t, lost) && Delivers(t, b, u, more)
    ensures Delivers(s, a + b, u, lost + more)
  {
    RunTwice(s, a, b);
    KeptTwice(s, a, b, 0, 0);
    LossesTwice(s, a, b, 0);
  }

  lemma LeadsDelivers(s: State, steps: seq<Step>, u: State)
    requires Leads(s, steps, u, 0) && NoCalls(steps)
    ensures Delivers(s, steps, u, 0)
  {
    UnbrokenLosesNothing(s, steps, 0);
  }

  /** A claim looks at the issue and sends. */
  predicate MaySend(s: State, k: nat) {
    && k in s.claims && s.claims[k].pc == CheckIssue && s.claims[k].id == 0
    && s.claims[k].task.status == Sending && Active(s.table, s.claims[k].task.issue)
  }

  function Calls(k: nat): seq<Step> {
    [Advance(k, true, true), Advance(k, true, true)]
  }

  lemma Sends(s: State, k: nat)
    requires MaySend(s, k)
    ensures var u := Run(s, Calls(k));
            && u.table == s.table && u.tickets == s.tickets
            && u.claims == s.claims[k := s.claims[k].(pc := Complete)]
            && Attempts(u, 0) == Attempts(s, 0) + 1
  {
    var step := Advance(k, true, true);
    var t := Apply(s, step);
    assert t == s.(claims := s.claims[k := s.claims[k].(pc := Send)]);
    TwoSteps(s, step, step);
    var u := Apply(t, step);
    assert u.claims == s.claims[k := s.claims[k].(pc := Complete)];
  }

  lemma TwoCallsDeliver(s: State, k: nat)
    ensures Delivers(s, Calls(k), Run(s, Calls(k)), 0)
  {
    PromptLeads(s, Calls(k), 0);
    UnbrokenLosesNothing(s, Calls(k), 0);
  }

  /** MarkOutboxSent fails after the send: nobody holds the row any more, which is as it was. */
  lemma LosesOutcomeOf(t: State, k: nat) returns (u: State)
    requires Sane(t) && k in t.claims && t.claims[k].pc == Complete && t.claims[k].id == 0
    ensures Delivers(t, [Advance(k, true, false)], u, 1)
    ensures Sane(u) && u == t.(claims := t.claims - {k})
  {
    var lose := Advance(k, true, false);
    u := Apply(t, lose);
    SanePreserved(t, lose);
    assert [lose][1..] == [];
    assert Holds(t, k, 0);
    assert Losses(u, [], 0) == 0 && Run(t, [lose]) == Run(u, []);
  }

  lemma Sent(s: State, k: nat) returns (t: State)
    requires Sane(s) && MaySend(s, k)
    ensures Delivers(s, Calls(k), t, 0)
    ensures Sane(t) && t.table == s.table && t.claims == s.claims[k := s.claims[k].(pc := Complete)]
    ensures t.tickets == s.tickets && Attempts(t, 0) == Attempts(s, 0) + 1
  {
    Sends(s, k);
    TwoCallsDeliver(s, k);
    SaneRun(s, Calls(k));
    t := Run(s, Calls(k));
  }

  lemma LosesSend(s: State, k: nat) returns (steps: seq<Step>, u: State)
    requires Sane(s) && MaySend(s, k)
    ensures Delivers(s, steps, u, 1)
    ensures Sane(u) && u.table == s.table && u.claims == s.claims - {k} && u.tickets == s.tickets
    ensures Attempts(u, 0) == Attempts(s, 0) + 1
  {
    var t := Sent(s, k);
    u := LosesOutcomeOf(t, k);
    DeliversOn(s, Calls(k), t, 0, [Advance(k, true, false)], u, 1);
    steps := Calls(k) + [Advance(k, true, false)];
  }

  /** After the lease the row is claimed again, with no retry counted. */
  lemma LostRound(s: State, k: nat, task: Row) returns (steps: seq<Step>, u: State, next: Row)
    requires JustClaimed(s, k, task, map[])
    ensures Delivers(s, steps, u, 1)
    ensures JustClaimed(u, k + 1, next, map[]) && next.retryCount == task.retryCount
    ensures Attempts(u, 0) == Attempts(s, 0) + 1
  {
    var first, t := LosesSend(s, k);
    assert t.claims == map[];
    assert Held(t, 0) == map[];
    var second;
    second, u := NextClaim(t, task, LEASE + 1, 0);
    LeadsDelivers(t, second, u);
    DeliversOn(s, first, t, 1, second, u, 0);
    steps, next := first + second, task.(status := Sending, nextRetryAt := u.table.now + LEASE);
  }

  lemma {:induction false} LostRounds(s: State, k: nat, task: Row, n: nat)
    returns (steps: seq<Step>, u: State, next: Row)
    requires JustClaimed(s, k, task, map[])
    ensures Delivers(s, steps, u, n)
    ensures JustClaimed(u, k + n, next, map[]) && next.retryCount == task.retryCount
    ensures Attempts(u, 0) == Attempts(s, 0) + n
  {
    if n == 0 {
      steps, u, next := [], s, task;
    } else {
      var before, t, row := LostRounds(s, k, task, n - 1);
      var j := k + n - 1;
      assert j + 1 == k + n;
      var round;
      round, u, next := LostRound(t, j, row);
      DeliversOn(s, before, t, n - 1, round, u, 1);
      steps := before + round;
    }
  }

  lemma AttemptsOfClaimed(steps: seq<Step>, u: State, k: nat, task: Row)
    requires Leads(START, steps, u, 0) && JustClaimed(u, k, task, map[])
    ensures Attempts(u, 0) == task.retryCount
  {
    assert Held(START, 0) == map[];
    RunStaysCounted(START, steps, 0, 0);
    UnbrokenLosesNothing(START, steps, 0);
    assert Holds(u, k, 0);
  }

  /** As often as wanted: a row that is sent, and delivered, n times within the leases, because no MarkOutboxSent
      call comes through. */
  lemma EndlessSends(n: nat) returns (steps: seq<Step>)
    ensures KeptRun(START, steps, 0, 0) && Losses(START, steps, 0) == n && Attempts(Run(START, steps), 0) == n
    ensures forall i :: 0 <= i < |steps| && steps[i].Advance? ==> steps[i].sendOk
  {
    var first, s, task := FirstClaim(0);
    LeadsDelivers(START, first, s);
    AttemptsOfClaimed(first, s, 0, task);
    var rounds, u, next := LostRounds(s, 0, task, n);
    DeliversOn(START, first, s, 0, rounds, u, n);
    steps := first + rounds;
  }

  // ---------- lost outcomes ----------

  ghost predicate SentAtMost(u: State, id: int, extra: nat) {
    id in u.table.rows ==> Attempts(u, id) <= u.table.rows[id].maxRetries + extra
  }

  /** Within the leases and with at most this many outcomes lost, a row is sent at most so much oftener than
      max_retries. */
  ghost predicate AlwaysSentAtMost(losses: nat, extra: nat) {
    forall s: State, steps: seq<Step>, id: int ::
      Initial(s) && KeptRun(s, steps, id, 0) && Losses(s, steps, id) <= losses
      ==> SentAtMost(Run(s, steps), id, extra)
  }

  lemma SentOftener(losses: nat) returns (steps: seq<Step>)
    requires losses > 0
    ensures KeptRun(START, steps, 0, 0) && Losses(START, steps, 0) == losses
    ensures !SentAtMost(Run(START, steps), 0, losses - 1)
  {
    var before, s, task := Attempted(4);
    AttemptsOfClaimed(before, s, 4, task);
    UnbrokenLosesNothing(START, before, 0);
    var rounds, t, next := LostRounds(s, 4, task, losses);
    var last := Calls(4 + losses);
    Sends(t, 4 + losses);
    TwoCallsDeliver(t, 4 + losses);
    DeliversOn(s, rounds, t, losses, last, Run(t, last), 0);
    RunTwice(START, before, rounds + last);
    KeptTwice(START, before, rounds + last, 0, 0);
    LossesTwice(START, before, rounds + last, 0);
    steps := before + (rounds + last);
  }

  /** Over all runs without a late holder, a row is sent at most so much oftener than max_retries exactly when at
      most so many outcomes are lost; so at most max_retries times exactly when none is. */
  lemma SendsIff(losses: nat, extra: nat)
    ensures AlwaysSentAtMost(losses, extra) <==> losses <= extra
  {
    if losses <= extra {
      forall s: State, steps: seq<Step>, id: int |
        Initial(s) && KeptRun(s, steps, id, 0) && Losses(s, steps, id) <= losses
        ensures SentAtMost(Run(s, steps), id, extra)
      {
        if id in Run(s, steps).table.rows { SendsAreBounded(s, steps, id); }
      }
    } else {
      var steps := SentOftener(losses);
      assert Initial(START) && !SentAtMost(Run(START, steps), 0, extra);
    }
  }

  // ---------- late holders ----------

  /** With nothing failing or crashing under it, a row is sent at most max_retries times. */
  ghost predicate AlwaysSentInBudget(slack: nat) {
    forall s: State, steps: seq<Step>, id: int ::
      Initial(s) && KeptRun(s, steps, id, slack) && UnbrokenRun(s, steps, id) ==> SentAtMost(Run(s, steps), id, 0)
  }

  lemma BothSend(t: State, j: nat, k: nat, slack: nat) returns (steps: seq<Step>, u: State)
    requires MaySend(t, j) && MaySend(t, k) && j != k
    ensures Leads(t, steps, u, slack) && u.table == t.table && Attempts(u, 0) == Attempts(t, 0) + 2
  {
    var middle := Run(t, Calls(j));
    Sends(t, j);
    Sends(middle, k);
    PromptLeads(t, Calls(j), slack);
    PromptLeads(middle, Calls(k), slack);
    u := Run(middle, Calls(k));
    Joined(t, Calls(j), middle, Calls(k), u, slack);
    steps := Calls(j) + Calls(k);
  }

  /** The holder of the last attempt is late, and the row is sent by two. */
  lemma LateSends(slack: nat) returns (steps: seq<Step>)
    requires slack > 0
    ensures KeptRun(START, steps, 0, slack) && UnbrokenRun(START, steps, 0) && !SentAtMost(Run(START, steps), 0, 0)
  {
    var before, s, task := Attempted(4);
    AttemptsOfClaimed(before, s, 4, task);
    KeptLonger(START, before, 0, 0, slack);
    assert Held(s, 0) == map[4 := task];
    var claim, t := NextClaim(s, task, LEASE + 1, slack);
    var calls, u := BothSend(t, 4, 5, slack);
    Joined(s, claim, t, calls, u, slack);
    RunTwice(START, before, claim + calls);
    KeptTwice(START, before, claim + calls, 0, slack);
    UnbrokenTwice(START, before, claim + calls, 0);
    steps := before + (claim + calls);
  }

  /** With nothing failing or crashing, a row is sent at most max_retries times in every run exactly when nobody is
      late at all. */
  lemma LateSendsIff(slack: nat)
    ensures AlwaysSentInBudget(slack) <==> slack == 0
  {
    if slack == 0 {
      forall s: State, steps: seq<Step>, id: int |
        Initial(s) && KeptRun(s, steps, id, slack) && UnbrokenRun(s, steps, id)
        ensures SentAtMost(Run(s, steps), id, 0)
      {
        if id in Run(s, steps).table.rows { SendsAreBounded(s, steps, id); }
      }
    } else {
      var steps := LateSends(slack);
      assert Initial(START);
    }
  }
}
