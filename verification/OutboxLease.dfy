/**
 What the 120 s lease buys, row by row: while nobody outlives their lease on a row, the row has one holder
 and keeps its retry budget, whatever fails or crashes.
 */
module OutboxLease {
  import opened OutboxTable
  import opened OutboxProtocol

  /** The row of the task still has to be marked by this claim. */
  predicate Settling(pc: PC) {
    !pc.CheckFallback? && !pc.Fallback?
  }

  predicate On(s: State, k: nat, id: int) {
    k in s.claims && s.claims[k].id == id
  }

  predicate Holds(s: State, k: nat, id: int) {
    On(s, k, id) && Settling(s.claims[k].pc)
  }

  /** The tasks of the claims that still have to mark the row. */
  ghost function Held(s: State, id: int): map<nat, Row> {
    map k | k in s.claims && Holds(s, k, id) :: s.claims[k].task
  }

  // ---------- the conditions on a run ----------

  /** Nobody has held the row for longer than the lease and this much more. */
  ghost predicate Within(held: map<nat, Row>, now: int, slack: nat) {
    forall k :: k in held ==> now <= held[k].nextRetryAt + slack
  }

  ghost predicate Kept(s: State, step: Step, id: int, slack: nat) {
    step.Tick? ==> Within(Held(s, id), s.table.now + step.elapsed, slack)
  }

  ghost predicate KeptRun(s: State, steps: seq<Step>, id: int, slack: nat)
    decreases |steps|
  {
    steps == [] || (Kept(s, steps[0], id, slack) && KeptRun(Apply(s, steps[0]), steps[1..], id, slack))
  }

  /** A MarkOutboxFailed call for the row does not fail. */
  predicate Recorded(s: State, step: Step, id: int) {
    step.Advance? && On(s, step.ticket, id) && s.claims[step.ticket].pc.Fail? ==> step.storeOk
  }

  ghost predicate RecordedRun(s: State, steps: seq<Step>, id: int)
    decreases |steps|
  {
    steps == [] || (Recorded(s, steps[0], id) && RecordedRun(Apply(s, steps[0]), steps[1..], id))
  }

  // ---------- what a step does to one row and its holders ----------

  ghost predicate Less(a: map<nat, Row>, b: map<nat, Row>) {
    forall k :: k in a ==> k in b && a[k] == b[k]
  }

  /** The row stays or is cancelled, and nobody new holds it. */
  ghost predicate Quiet(s: State, u: State, id: int) {
    && id in s.table.rows && id in u.table.rows && s.table.now <= u.table.now
    && Less(Held(u, id), Held(s, id))
    && (u.table.rows[id] == s.table.rows[id]
        || (s.table.rows[id].status.Live() && u.table.rows[id] == s.table.rows[id].(status := Cancelled)))
  }

  ghost predicate Taken(s: State, u: State, id: int) {
    && Claimable(s.table, id) && id in u.table.rows && u.table.now == s.table.now && s.tickets !in Held(s, id)
    && u.table.rows[id] == Claimed(s.table, s.table.rows[id])
    && Held(u, id) == Held(s, id)[s.tickets := u.table.rows[id]]
  }

  /** A row that a holder with this task may leave when it settles or gives up. */
  predicate Settled(row: Row, task: Row, now: int, next: Row) {
    || next == row
    || (row.status == Sending
        && (|| next == row.(status := Sent)
            || next == row.(status := Failed)
            || (!LastAttempt(task)
                && next == row.(status := Pending, retryCount := row.retryCount + 1,
                                nextRetryAt := now + Backoff(task) * SECOND))))
  }

  ghost predicate LetGo(s: State, u: State, id: int, k: nat) {
    && id in s.table.rows && id in u.table.rows && u.table.now == s.table.now
    && k in Held(s, id) && Held(u, id) == Held(s, id) - {k}
    && Settled(s.table.rows[id], Held(s, id)[k], s.table.now, u.table.rows[id])
  }

  ghost predicate Fresh(s: State, u: State, id: int) {
    && id !in s.table.rows && id in u.table.rows && Held(u, id) == map[]
    && u.table.rows[id].status == Pending && u.table.rows[id].retryCount == 0
    && u.table.rows[id].maxRetries == DEFAULT_MAX_RETRIES
  }

  ghost predicate Absent(u: State, id: int) {
    id !in u.table.rows && Held(u, id) == map[]
  }

  ghost predicate RowStep(s: State, u: State, id: int) {
    Quiet(s, u, id) || Taken(s, u, id) || (exists k :: LetGo(s, u, id, k)) || Fresh(s, u, id) || Absent(u, id)
  }

  lemma NobodyHolds(s: State, id: int)
    requires Sane(s) && id !in s.table.rows
    ensures Held(s, id) == map[]
  {
    forall k | k in s.claims ensures !Holds(s, k, id) {
      assert Honest(s, s.claims[k]);
    }
  }

  /** What a call of processTask does to the claims: its own is dropped or moves on. */
  ghost predicate ClaimsAdvance(s: State, u: State, k: nat) {
    && k in s.claims
    && (u.claims == s.claims - {k}
        || (k in u.claims && u.claims == s.claims[k := s.claims[k].(pc := u.claims[k].pc)]))
  }

  /** What it does to the table, if anything. */
  ghost predicate TableAdvances(s: State, u: State, k: nat)
    requires k in s.claims
  {
    var c := s.claims[k];
    || u.table == s.table
    || (c.pc.Complete? && u.table == MarkSent(s.table, c.id))
    || (c.pc.Fail? && u.table == MarkFailed(s.table, c.id))
    || (c.pc.Reschedule? && u.table == Retry(s.table, c.id, Backoff(c.task)))
    || (c.pc.Fallback? && u.table == CreateEntry(s.table, c.task.issue, c.task.event, LanWebhook, c.task.payload).0)
  }

  /** The row is let go of, or the claim still does, or still does not, hold it. */
  ghost predicate PcAdvances(s: State, u: State, k: nat)
    requires k in s.claims
  {
    && (k in u.claims && Settling(u.claims[k].pc) ==> Settling(s.claims[k].pc) && u.table == s.table)
    && (s.claims[k].pc.CheckFallback? || s.claims[k].pc.Fallback? ==> k !in u.claims || !Settling(u.claims[k].pc))
  }

  lemma Advances(s: State, k: nat, sendOk: bool, storeOk: bool)
    requires k in s.claims
    ensures var u := AdvanceTask(s, k, sendOk, storeOk);
            && ClaimsAdvance(s, u, k) && TableAdvances(s, u, k) && PcAdvances(s, u, k)
            && u.table.now == s.table.now && u.tickets == s.tickets
  {
    match s.claims[k].pc
    case CheckIssue =>
    case Send =>
    case Complete =>
    case Fail =>
    case CheckFallback =>
    case Fallback =>
    case CheckRetry =>
    case Reschedule =>
  }

  lemma HeldAfter(s: State, u: State, k: nat, id: int)
    requires ClaimsAdvance(s, u, k) && PcAdvances(s, u, k)
    ensures Held(u, id) == if Holds(s, k, id) && !Holds(u, k, id) then Held(s, id) - {k} else Held(s, id)
  {
  }

  /** A call for another row leaves this one alone, unless it creates it as a fallback. */
  lemma AdvanceElsewhere(s: State, u: State, k: nat, id: int)
    requires Sane(s) && Sane(u) && k in s.claims && s.claims[k].id != id
    requires ClaimsAdvance(s, u, k) && TableAdvances(s, u, k) && PcAdvances(s, u, k) && u.table.now == s.table.now
    ensures RowStep(s, u, id)
  {
    HeldAfter(s, u, k, id);
    if id !in s.table.rows {
      NobodyHolds(s, id);
    } else {
      assert id < s.table.nextId;
      assert u.table.rows[id] == s.table.rows[id];
      assert Quiet(s, u, id);
    }
  }

  lemma AdvanceOnRow(s: State, u: State, k: nat)
    requires Sane(s) && k in s.claims
    requires ClaimsAdvance(s, u, k) && TableAdvances(s, u, k) && PcAdvances(s, u, k) && u.table.now == s.table.now
    ensures RowStep(s, u, s.claims[k].id)
  {
    var c := s.claims[k];
    HeldAfter(s, u, k, c.id);
    assert Honest(s, c);
    assert c.id < s.table.nextId;
    if Holds(s, k, c.id) && !Holds(u, k, c.id) {
      assert LetGo(s, u, c.id, k);
    } else {
      assert u.table.rows[c.id] == s.table.rows[c.id];
      assert Quiet(s, u, c.id);
    }
  }

  lemma ClaimOnRow(s: State, worker: int, claimed: int, id: int)
    requires Sane(s)
    ensures RowStep(s, Apply(s, ClaimRow(worker, claimed)), id)
  {
    var u := Apply(s, ClaimRow(worker, claimed));
    assert s.tickets !in s.claims;
    if id !in s.table.rows {
      NobodyHolds(s, id);
      assert Held(u, id) == map[];
    } else if Claimable(s.table, claimed) && claimed == id {
      assert Held(u, id) == Held(s, id)[s.tickets := u.table.rows[id]];
      assert Taken(s, u, id);
    } else {
      assert Quiet(s, u, id);
    }
  }

  lemma OtherOnRow(s: State, step: Step, id: int)
    requires Sane(s) && !step.ClaimRow? && !step.Advance?
    ensures RowStep(s, Apply(s, step), id)
  {
    var u := Apply(s, step);
    if id !in s.table.rows {
      NobodyHolds(s, id);
      assert Held(u, id) == map[];
    } else {
      assert id < s.table.nextId;
      assert Quiet(s, u, id);
    }
  }

  /** Every step of the protocol is, for each row, one of five kinds. */
  lemma EveryStep(s: State, step: Step, id: int)
    requires Sane(s)
    ensures Sane(Apply(s, step)) && RowStep(s, Apply(s, step), id)
  {
    SanePreserved(s, step);
    match step
    case ClaimRow(worker, claimed) => ClaimOnRow(s, worker, claimed, id);
    case Advance(k, sendOk, storeOk) =>
      if k !in s.claims {
        OtherOnRow(s, Tick(0), id);
        assert Apply(s, step) == Apply(s, Tick(0));
      } else {
        Advances(s, k, sendOk, storeOk);
        if s.claims[k].id == id {
          AdvanceOnRow(s, AdvanceTask(s, k, sendOk, storeOk), k);
        } else {
          AdvanceElsewhere(s, AdvanceTask(s, k, sendOk, storeOk), k, id);
        }
      }
    case _ => OtherOnRow(s, step, id);
  }

  lemma Clock(s: State, step: Step)
    ensures Apply(s, step).table.now == s.table.now + (if step.Tick? then step.elapsed else 0)
  {
    if step.Advance? && step.ticket in s.claims { Advances(s, step.ticket, step.sendOk, step.storeOk); }
  }

  lemma StaysWithin(s: State, u: State, id: int, slack: nat)
    requires RowStep(s, u, id) && Within(Held(s, id), u.table.now, slack)
    ensures Within(Held(u, id), u.table.now, slack)
  {
  }

  // ---------- one holder ----------

  /** One holder at most, who has the row as it is unless it was cancelled; and a retry left while it is live. */
  ghost predicate Single(row: Row, held: map<nat, Row>) {
    && (forall k :: k in held ==> row.status == Cancelled || row == held[k])
    && (forall k :: k in held ==> held[k].status == Sending && 0 <= held[k].retryCount < held[k].maxRetries <= 19)
    && (forall j, k :: j in held && k in held ==> j == k)
    && row.maxRetries <= 19 && (row.status.Live() ==> 0 <= row.retryCount < row.maxRetries)
  }

  ghost predicate Leased(s: State, id: int) {
    Sane(s) && (id in s.table.rows ==> Single(s.table.rows[id], Held(s, id))) && Within(Held(s, id), s.table.now, 0)
  }

  /** A row whose lease runs cannot be claimed. */
  lemma NobodyHoldsClaimable(row: Row, held: map<nat, Row>, now: int)
    requires Single(row, held) && Within(held, now, 0)
    requires row.status == Pending || (row.status == Sending && row.nextRetryAt < now)
    ensures held == map[]
  {
    assert forall k :: k !in held;
  }

  lemma RowStepKeepsSingle(s: State, u: State, id: int)
    requires RowStep(s, u, id) && Within(Held(s, id), s.table.now, 0)
    requires id in s.table.rows ==> Single(s.table.rows[id], Held(s, id))
    ensures id in u.table.rows ==> Single(u.table.rows[id], Held(u, id))
  {
    if Taken(s, u, id) {
      NobodyHoldsClaimable(s.table.rows[id], Held(s, id), s.table.now);
    } else if k :| LetGo(s, u, id, k) {
      assert Held(u, id) == map[];
    }
  }

  lemma StepKeepsLeased(s: State, step: Step, id: int)
    requires Leased(s, id) && Kept(s, step, id, 0)
    ensures Leased(Apply(s, step), id)
  {
    EveryStep(s, step, id);
    Clock(s, step);
    StaysWithin(s, Apply(s, step), id, 0);
    RowStepKeepsSingle(s, Apply(s, step), id);
  }

  lemma {:induction false} RunKeepsLeased(s: State, steps: seq<Step>, id: int)
    requires Leased(s, id) && KeptRun(s, steps, id, 0)
    ensures Leased(Run(s, steps), id)
    decreases |steps|
  {
    if steps != [] {
      StepKeepsLeased(s, steps[0], id);
      RunKeepsLeased(Apply(s, steps[0]), steps[1..], id);
    }
  }
}
