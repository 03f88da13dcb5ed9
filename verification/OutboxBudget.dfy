/**
 How late workers may be before a row loses its retry budget. The lease is 120 s and the shortest backoffs are
 15 s, 45 s and 135 s, so a stale worker can put a row back that another one holds; the counts run ahead of
 the attempts, but for every lateness below 15 s they still stay within the default budget of five, and for
 none beyond.
 */
module OutboxBudget {
  import opened OutboxTable
  import opened OutboxProtocol
  import opened OutboxLease

  const LATE := 15 * SECOND

  // ---------- a row and the tasks of its holders ----------

  /** The holder claimed the row as it is now. */
  predicate Current(row: Row, task: Row) {
    task.nextRetryAt == row.nextRetryAt
  }

  /** A retry of this task waits less than a lease. */
  predicate Quick(task: Row) {
    task.retryCount <= 1
  }

  /** The holder may still be there when the row falls due. */
  predicate Reaches(row: Row, task: Row, slack: nat) {
    task.nextRetryAt + slack >= row.nextRetryAt
  }

  predicate Returns(row: Row, task: Row, slack: nat) {
    Quick(task) && Reaches(row, task, slack)
  }

  ghost predicate PacedSending(row: Row, now: int, held: map<nat, Row>, slack: nat) {
    && row.nextRetryAt <= now + LEASE
    && (forall k :: k in held ==> held[k].retryCount <= row.retryCount)
    && (forall k :: k in held ==>
          if Current(row, held[k]) then held[k].retryCount == row.retryCount
          else held[k].nextRetryAt + slack <= row.nextRetryAt)
    && (forall j, k :: j in held && k in held && Current(row, held[j]) && Current(row, held[k]) ==> j == k)
    && (row.retryCount <= 1 ==>
          forall j, k :: j in held && k in held && !Current(row, held[j]) && !Current(row, held[k]) ==> j == k)
    && (row.retryCount == 2 ==> forall j, k :: j in held && k in held && Quick(held[j]) && Quick(held[k]) ==> j == k)
    && (row.retryCount == 3 ==> forall k :: k in held ==> !Quick(held[k]))
    && (row.retryCount == 4 ==> forall k :: k in held ==> held[k].retryCount == 4)
  }

  ghost predicate PacedPending(row: Row, held: map<nat, Row>, slack: nat) {
    && (forall k :: k in held ==>
          held[k].retryCount < row.retryCount && held[k].nextRetryAt + slack < row.nextRetryAt + LEASE)
    && (row.retryCount == 1 ==>
          forall j, k :: j in held && k in held && Reaches(row, held[j], slack) && Reaches(row, held[k], slack) ==>
            j == k)
    && (row.retryCount == 2 ==>
          forall j, k :: j in held && k in held && Returns(row, held[j], slack) && Returns(row, held[k], slack) ==>
            j == k)
    && (row.retryCount == 3 ==> forall k :: k in held ==> !Returns(row, held[k], slack))
    && (row.retryCount == 4 ==> forall k :: k in held ==> !Reaches(row, held[k], slack))
  }

  ghost predicate Paced(row: Row, now: int, held: map<nat, Row>, slack: nat) {
    && row.maxRetries == DEFAULT_MAX_RETRIES
    && (row.status.Live() ==> 0 <= row.retryCount < row.maxRetries)
    && (forall k :: k in held ==>
          held[k].nextRetryAt <= now + LEASE && held[k].retryCount >= 0 && held[k].maxRetries == DEFAULT_MAX_RETRIES)
    && (row.status == Sending ==> PacedSending(row, now, held, slack))
    && (row.status == Pending ==> PacedPending(row, held, slack))
  }

  lemma FewerStayPaced(row: Row, now: int, later: int, held: map<nat, Row>, fewer: map<nat, Row>, slack: nat)
    requires Paced(row, now, held, slack) && now <= later && Less(fewer, held)
    ensures Paced(row, later, fewer, slack)
  {
  }

  lemma ClaimedStaysPaced(row: Row, now: int, held: map<nat, Row>, slack: nat, k: nat, next: Row)
    requires Paced(row, now, held, slack) && Within(held, now, slack) && k !in held && slack < LATE
    requires next == row.(status := Sending, nextRetryAt := now + LEASE)
    requires (row.status == Pending && row.nextRetryAt <= now) || (row.status == Sending && row.nextRetryAt < now)
    ensures Paced(next, now, held[k := next], slack)
  {
    forall j | j in held ensures !Current(next, held[j]) && held[j].nextRetryAt + slack <= next.nextRetryAt {
      assert now <= held[j].nextRetryAt + slack;
    }
  }

  lemma Backoffs()
    ensures BackoffSeconds(0) == 15 && BackoffSeconds(1) == 45 && BackoffSeconds(2) == 135
    ensures forall r: nat :: r >= 2 ==> BackoffSeconds(r) >= 135
    ensures forall r: nat :: BackoffSeconds(r) >= 15
  {
    assert Pow3(1) == 3 && Pow3(2) == 9 && Pow3(3) == 27;
    forall r: nat ensures BackoffSeconds(r) >= 15 && (r >= 2 ==> BackoffSeconds(r) >= 135) {
      Pow3Grows(1, r + 1);
      if r >= 2 { Pow3Grows(3, r + 1); }
    }
  }

  lemma RetriedStaysPaced(row: Row, now: int, held: map<nat, Row>, slack: nat, k: nat, next: Row)
    requires Paced(row, now, held, slack) && row.status == Sending && k in held && !LastAttempt(held[k]) && slack < LATE
    requires next == row.(status := Pending, retryCount := row.retryCount + 1,
                          nextRetryAt := now + Backoff(held[k]) * SECOND)
    ensures Paced(next, now, held - {k}, slack)
  {
    Backoffs();
    var rest := held - {k};
    forall j | j in rest ensures rest[j].nextRetryAt + slack < next.nextRetryAt + LEASE {
      assert held[j].nextRetryAt <= now + LEASE;
    }
    if !Quick(held[k]) {
      forall j | j in rest ensures !Reaches(next, rest[j], slack) {
        assert held[j].nextRetryAt <= now + LEASE;
      }
    }
  }

  lemma SettledStaysPaced(row: Row, now: int, held: map<nat, Row>, slack: nat, k: nat, next: Row)
    requires Paced(row, now, held, slack) && k in held && Settled(row, held[k], now, next) && slack < LATE
    ensures Paced(next, now, held - {k}, slack)
  {
    if next == row {
      FewerStayPaced(row, now, now, held, held - {k}, slack);
    } else if next.status == Pending {
      RetriedStaysPaced(row, now, held, slack, k, next);
    }
  }

  // ---------- runs ----------

  ghost predicate PacedRow(s: State, id: int, slack: nat) {
    && Sane(s) && Within(Held(s, id), s.table.now, slack)
    && (id in s.table.rows ==> Paced(s.table.rows[id], s.table.now, Held(s, id), slack))
  }

  lemma RowStepStaysPaced(s: State, u: State, id: int, slack: nat)
    requires RowStep(s, u, id) && Within(Held(s, id), s.table.now, slack) && slack < LATE
    requires id in s.table.rows ==> Paced(s.table.rows[id], s.table.now, Held(s, id), slack)
    ensures id in u.table.rows ==> Paced(u.table.rows[id], u.table.now, Held(u, id), slack)
  {
    if Quiet(s, u, id) {
      FewerStayPaced(s.table.rows[id], s.table.now, u.table.now, Held(s, id), Held(u, id), slack);
    } else if Taken(s, u, id) {
      ClaimedStaysPaced(s.table.rows[id], s.table.now, Held(s, id), slack, s.tickets, u.table.rows[id]);
    } else if k :| LetGo(s, u, id, k) {
      SettledStaysPaced(s.table.rows[id], s.table.now, Held(s, id), slack, k, u.table.rows[id]);
    }
  }

  lemma {:induction false} RunStaysPaced(s: State, steps: seq<Step>, id: int, slack: nat)
    requires PacedRow(s, id, slack) && KeptRun(s, steps, id, slack) && slack < LATE
    ensures PacedRow(Run(s, steps), id, slack)
    decreases |steps|
  {
    if steps != [] {
      var u := Apply(s, steps[0]);
      EveryStep(s, steps[0], id);
      Clock(s, steps[0]);
      StaysWithin(s, u, id, slack);
      RowStepStaysPaced(s, u, id, slack);
      RunStaysPaced(u, steps[1..], id, slack);
    }
  }

  ghost predicate InBudget(s: State, id: int) {
    id in s.table.rows && s.table.rows[id].status.Live() ==>
      0 <= s.table.rows[id].retryCount < s.table.rows[id].maxRetries
  }
}
