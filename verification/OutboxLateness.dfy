/**
 How late workers may be, over all runs from an empty outbox, for a row to keep one holder, one fallback and
 its retry budget; and what one lost failure does without anybody being late.
 */
module OutboxLateness {
  import opened OutboxTable
  import opened OutboxProtocol
  import opened OutboxLease
  import opened OutboxFallback
  import opened OutboxOverrun
  import opened OutboxBudget
  import opened OutboxStart

  ghost predicate AlwaysSingleHolder(slack: nat) {
    forall s: State, steps: seq<Step>, id: int :: Initial(s) && KeptRun(s, steps, id, slack) ==>
      SingleHolder(Run(s, steps), id)
  }

  ghost predicate AlwaysOneFallback(slack: nat) {
    forall s: State, steps: seq<Step>, id: int :: Initial(s) && Orderly(s, steps, id, slack) ==>
      !TwoFallbacks(Run(s, steps), id)
  }

  ghost predicate AlwaysInBudget(slack: nat) {
    forall s: State, steps: seq<Step>, id: int :: Initial(s) && KeptRun(s, steps, id, slack) ==>
      InBudget(Run(s, steps), id)
  }

  lemma SecondHolder(slack: nat) returns (steps: seq<Step>)
    requires slack > 0
    ensures KeptRun(START, steps, 0, slack) && !SingleHolder(Run(START, steps), 0)
  {
    var u, stale, task;
    steps, u, stale, task := LateHolder(slack);
    assert Holds(u, 0, 0) && Holds(u, 1, 0);
  }

  /** In every run one holder at a time, store failures and crashes included, exactly when nobody is late at all. */
  lemma SingleHolderIff(slack: nat)
    ensures AlwaysSingleHolder(slack) <==> slack == 0
  {
    if slack == 0 {
      forall s: State, steps: seq<Step>, id: int | Initial(s) && KeptRun(s, steps, id, slack)
        ensures SingleHolder(Run(s, steps), id)
      {
        LeaseTheorem(s, steps, id);
      }
    } else {
      var steps := SecondHolder(slack);
      assert Initial(START);
    }
  }

  lemma SecondFallback(slack: nat) returns (steps: seq<Step>)
    requires slack > 0
    ensures Orderly(START, steps, 0, slack) && TwoFallbacks(Run(START, steps), 0)
  {
    var before, s, t := Attempted(4);
    assert Held(START, 0) == map[];
    RunKeepsLeased(START, before, 0);
    assert Held(s, 0) == map[4 := t];
    var rest := OverrunDoubles(s, 4, 0, LEASE + 1);
    var late := Tick(LEASE + 1);
    var after := [late] + rest;
    assert after[1..] == rest;
    KeptLonger(START, before, 0, 0, slack);
    KeptLonger(Apply(s, late), rest, 0, 0, slack);
    RunTwice(START, before, after);
    OrderlyTwice(START, before, after, 0, slack);
    steps := before + after;
  }

  /** In every run with the failures recorded one fallback at most, exactly when nobody is late at all. */
  lemma OneFallbackIff(slack: nat)
    ensures AlwaysOneFallback(slack) <==> slack == 0
  {
    if slack == 0 {
      forall s: State, steps: seq<Step>, id: int | Initial(s) && Orderly(s, steps, id, slack)
        ensures !TwoFallbacks(Run(s, steps), id)
      {
        LeaseTheorem(s, steps, id);
      }
    } else {
      var steps := SecondFallback(slack);
      assert Initial(START);
    }
  }

  lemma BudgetExceeded(slack: nat) returns (steps: seq<Step>)
    requires slack >= LATE
    ensures KeptRun(START, steps, 0, slack)
    ensures var u := Run(START, steps);
            && 0 in u.table.rows && u.table.rows[0].status == Pending
            && u.table.rows[0].retryCount == u.table.rows[0].maxRetries
  {
    var before, s, stale, task := Overtaken(4, slack);
    var last, u := Bounces(s, 4, slack);
    Joined(START, before, s, last, u, slack);
    steps := before + last;
  }

  /** In every run a live row has a retry left, store failures and crashes included, exactly when everybody is less
      than 15 s late. */
  lemma BudgetIff(slack: nat)
    ensures AlwaysInBudget(slack) <==> slack < LATE
  {
    if slack < LATE {
      forall s: State, steps: seq<Step>, id: int | Initial(s) && KeptRun(s, steps, id, slack)
        ensures InBudget(Run(s, steps), id)
      {
        assert Held(s, id) == map[];
        RunStaysPaced(s, steps, id, slack);
      }
    } else {
      var steps := BudgetExceeded(slack);
      assert Initial(START) && !InBudget(Run(START, steps), 0);
    }
  }

  /** The last attempt of row 0 has bounced, and its failure is about to be recorded. */
  lemma LastBounce() returns (steps: seq<Step>, v: State)
    ensures KeptRun(START, steps, 0, 0) && v == Run(START, steps)
    ensures Leased(v, 0) && LastHolder(v, 4, 0) && v.claims[4].pc.Fail?
  {
    var before, s, t := Attempted(4);
    var bounce := BouncesOnce(s, 4);
    v := Run(s, bounce);
    PromptIsOrderly(s, bounce, 0, 0);
    OrderlyTwice(START, before, bounce, 0, 0);
    RunTwice(START, before, bounce);
    steps := before + bounce;
    assert Held(START, 0) == map[];
    RunKeepsLeased(START, steps, 0);
  }

  /** Nobody late, and two fallbacks all the same. */
  ghost predicate DoublesInTime(steps: seq<Step>) {
    KeptRun(START, steps, 0, 0) && TwoFallbacks(Run(START, steps), 0)
  }

  /** From an empty outbox, everybody within the lease and one lost failure: a WXPUSHER row with two fallbacks. */
  lemma LostFailureDoublesFallback()
    ensures exists steps: seq<Step> :: DoublesInTime(steps)
  {
    var before, v := LastBounce();
    var rest := LostFailureDoubles(v, 4, 0);
    var lost := Advance(4, false, false);
    var after := [lost] + rest;
    assert after[1..] == rest;
    KeptTwice(START, before, after, 0, 0);
    RunTwice(START, before, after);
    assert DoublesInTime(before + after);
  }
}
