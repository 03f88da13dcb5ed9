/**
 How often a row is sent. While nobody outlives their lease on it, its retry_count and the sends whose outcome
 was lost, because the store failed or the worker crashed before recording it, account for every send.
 */
module OutboxSends {
  import opened OutboxTable
  import opened OutboxProtocol
  import opened OutboxLease

  predicate AlreadySent(pc: PC) {
    !pc.CheckIssue? && !pc.Send?
  }

  /** Somebody who holds the row has sent it, and neither records the outcome nor will. */
  ghost predicate LosesOutcome(s: State, step: Step, id: int) {
    match step
    case Advance(k, _, storeOk) => Holds(s, k, id) && AlreadySent(s.claims[k].pc) && !storeOk
    case Crash(worker) => exists k :: Holds(s, k, id) && AlreadySent(s.claims[k].pc) && s.claims[k].worker == worker
    case _ => false
  }

  ghost function Lost(s: State, step: Step, id: int): nat {
    if LosesOutcome(s, step, id) then 1 else 0
  }

  /** How many outcomes of sends of the row a run loses. */
  ghost function Losses(s: State, steps: seq<Step>, id: int): nat
    decreases |steps|
  {
    if steps == [] then 0 else Lost(s, steps[0], id) + Losses(Apply(s, steps[0]), steps[1..], id)
  }

  ghost predicate IsHeld(s: State, id: int) {
    exists k :: Holds(s, k, id)
  }

  /** The attempts of a held row are those it was claimed with, the lost ones, and the holder's own. */
  ghost predicate HolderCounts(s: State, id: int, lost: nat) {
    forall k :: Holds(s, k, id) ==>
      Attempts(s, id) == s.claims[k].task.retryCount + lost + (if AlreadySent(s.claims[k].pc) then 1 else 0)
  }

  ghost predicate RowCounts(s: State, id: int, lost: nat) {
    if id !in s.table.rows then Attempts(s, id) == 0 && lost == 0
    else
      var row := s.table.rows[id];
      && Attempts(s, id) <= row.maxRetries + lost
      && (row.status == Pending ==> Attempts(s, id) == row.retryCount + lost)
      && (row.status == Sending && !IsHeld(s, id) ==> Attempts(s, id) == row.retryCount + lost)
  }

  ghost predicate Counted(s: State, id: int, lost: nat) {
    HolderCounts(s, id, lost) && RowCounts(s, id, lost)
  }

  lemma SendCounts(s: State, k: nat, sendOk: bool, storeOk: bool, id: int)
    requires k in s.claims
    ensures Attempts(AdvanceTask(s, k, sendOk, storeOk), id)
            == Attempts(s, id) + (if s.claims[k].pc == Send && s.claims[k].id == id then 1 else 0)
  {
    match s.claims[k].pc
    case Send =>
    case _ => assert AdvanceTask(s, k, sendOk, storeOk).attempts == s.attempts;
  }

  /** A holder moves on from before its send to after it, or lets go of a row that is no longer SENDING, or of one
      that is as it was because the store failed. */
  ghost predicate MovesOn(s: State, u: State, k: nat, id: int, storeOk: bool)
    requires On(s, k, id) && id in s.table.rows
  {
    var c := s.claims[k];
    && id in u.table.rows && u.table.rows[id].maxRetries == s.table.rows[id].maxRetries
    && if Holds(u, k, id) then
         && u.table == s.table && u.claims == s.claims[k := c.(pc := u.claims[k].pc)]
         && AlreadySent(u.claims[k].pc) == (c.pc.Send? || AlreadySent(c.pc))
         && (storeOk || !AlreadySent(c.pc))
       else
         && !c.pc.Send?
         && if storeOk then
              && u.table.rows[id].status != Sending
              && (u.table.rows[id].status == Pending ==>
                    c.pc.Reschedule? && u.table.rows[id].retryCount == c.task.retryCount + 1)
            else u.table.rows[id] == s.table.rows[id]
  }

  lemma HolderMovesOn(s: State, k: nat, sendOk: bool, storeOk: bool, id: int)
    requires Leased(s, id) && Holds(s, k, id) && id in s.table.rows
    ensures MovesOn(s, AdvanceTask(s, k, sendOk, storeOk), k, id, storeOk)
  {
    assert k in Held(s, id) && Honest(s, s.claims[k]);
    match s.claims[k].pc
    case CheckIssue =>
    case Send =>
    case Complete =>
    case Fail =>
    case CheckRetry =>
    case Reschedule =>
  }

  lemma MovedStaysCounted(s: State, u: State, k: nat, id: int, storeOk: bool, lost: nat)
    requires Leased(s, id) && Counted(s, id, lost) && Holds(s, k, id) && id in s.table.rows
    requires MovesOn(s, u, k, id, storeOk) && ClaimsAdvance(s, u, k)
    requires Attempts(u, id) == Attempts(s, id) + (if s.claims[k].pc == Send then 1 else 0)
    ensures Counted(u, id, lost + (if AlreadySent(s.claims[k].pc) && !storeOk then 1 else 0))
  {
    assert k in Held(s, id) && Honest(s, s.claims[k]);
    forall j | Holds(u, j, id) ensures j == k {
      assert Holds(s, j, id) && j in Held(s, id);
    }
  }

  lemma AdvanceStaysCounted(s: State, k: nat, sendOk: bool, storeOk: bool, id: int, lost: nat)
    requires Leased(s, id) && Counted(s, id, lost) && Holds(s, k, id)
    ensures Counted(AdvanceTask(s, k, sendOk, storeOk), id, lost + Lost(s, Advance(k, sendOk, storeOk), id))
  {
    assert Honest(s, s.claims[k]);
    HolderMovesOn(s, k, sendOk, storeOk, id);
    Advances(s, k, sendOk, storeOk);
    SendCounts(s, k, sendOk, storeOk, id);
    MovedStaysCounted(s, AdvanceTask(s, k, sendOk, storeOk), k, id, storeOk, lost);
  }

  /** The row the same, cancelled or new. */
  ghost predicate RowStays(s: State, u: State, id: int) {
    if id in s.table.rows then
      && id in u.table.rows
      && (u.table.rows[id] == s.table.rows[id] || u.table.rows[id] == s.table.rows[id].(status := Cancelled))
    else
      id in u.table.rows ==>
        u.table.rows[id].status == Pending && u.table.rows[id].retryCount == 0 && u.table.rows[id].maxRetries >= 0
  }

  /** The same holders, with their claims. */
  ghost predicate HoldersStay(s: State, u: State, id: int) {
    && (forall k :: Holds(u, k, id) <==> Holds(s, k, id))
    && (forall k :: Holds(u, k, id) ==> u.claims[k] == s.claims[k])
  }

  lemma SameHolders(s: State, u: State, id: int, lost: nat)
    requires Counted(s, id, lost) && Attempts(u, id) == Attempts(s, id) && HoldersStay(s, u, id) && RowStays(s, u, id)
    ensures Counted(u, id, lost) && (IsHeld(u, id) <==> IsHeld(s, id))
  {
    if k :| Holds(s, k, id) {
      assert Holds(u, k, id);
    }
    if k :| Holds(u, k, id) {
      assert Holds(s, k, id);
    }
  }

  lemma AdvanceElsewhereStays(s: State, k: nat, sendOk: bool, storeOk: bool, id: int)
    requires Sane(s) && k in s.claims && !Holds(s, k, id)
    ensures var u := AdvanceTask(s, k, sendOk, storeOk);
            Attempts(u, id) == Attempts(s, id) && HoldersStay(s, u, id) && RowStays(s, u, id)
  {
    assert Honest(s, s.claims[k]);
    assert id in s.table.rows ==> id < s.table.nextId;
    Advances(s, k, sendOk, storeOk);
    SendCounts(s, k, sendOk, storeOk, id);
  }

  lemma OtherStays(s: State, step: Step, id: int)
    requires Sane(s) && !step.ClaimRow? && !step.Advance? && !step.Crash?
    ensures var u := Apply(s, step);
            Attempts(u, id) == Attempts(s, id) && HoldersStay(s, u, id) && RowStays(s, u, id)
  {
    assert id in s.table.rows ==> id < s.table.nextId;
  }

  lemma ClaimElsewhereStays(s: State, worker: int, claimed: int, id: int)
    requires Sane(s) && (claimed != id || !Claimable(s.table, id))
    ensures var u := Apply(s, ClaimRow(worker, claimed));
            Attempts(u, id) == Attempts(s, id) && HoldersStay(s, u, id) && RowStays(s, u, id)
  {
    assert s.tickets !in s.claims;
  }

  lemma ClaimStaysCounted(s: State, worker: int, id: int, lost: nat)
    requires Leased(s, id) && Counted(s, id, lost) && Claimable(s.table, id)
    ensures Counted(Apply(s, ClaimRow(worker, id)), id, lost) && IsHeld(Apply(s, ClaimRow(worker, id)), id)
  {
    var u := Apply(s, ClaimRow(worker, id));
    assert s.tickets !in s.claims;
    NobodyHoldsClaimable(s.table.rows[id], Held(s, id), s.table.now);
    forall k ensures !Holds(s, k, id) {
      assert k !in Held(s, id);
    }
    assert Holds(u, s.tickets, id);
  }

  /** Nobody is left who holds the row, which stays as it is. */
  lemma LeftStaysCounted(s: State, u: State, k: nat, id: int, lost: nat)
    requires Leased(s, id) && Counted(s, id, lost) && Holds(s, k, id) && id in s.table.rows
    requires u.table == s.table && u.attempts == s.attempts && forall j :: !Holds(u, j, id)
    ensures Counted(u, id, lost + (if AlreadySent(s.claims[k].pc) then 1 else 0))
  {
    assert k in Held(s, id);
  }

  lemma CrashStaysCounted(s: State, worker: int, id: int, lost: nat)
    requires Leased(s, id) && Counted(s, id, lost)
    ensures Counted(Apply(s, Crash(worker)), id, lost + Lost(s, Crash(worker), id))
  {
    var u := Apply(s, Crash(worker));
    if k :| Holds(s, k, id) && s.claims[k].worker == worker {
      assert k in Held(s, id) && Honest(s, s.claims[k]);
      forall j ensures !Holds(u, j, id) && (Holds(s, j, id) ==> j == k) {
        assert Holds(s, j, id) ==> j in Held(s, id);
      }
      LeftStaysCounted(s, u, k, id, lost);
    } else {
      SameHolders(s, u, id, lost);
    }
  }

  lemma QuietStaysCounted(s: State, step: Step, id: int, lost: nat)
    requires Sane(s) && Counted(s, id, lost) && IsQuiet(s, step, id)
    ensures Counted(Apply(s, step), id, lost + Lost(s, step, id))
  {
    QuietStep(s, step, id);
    SameHolders(s, Apply(s, step), id, lost);
  }

  lemma StepStaysCounted(s: State, step: Step, id: int, lost: nat)
    requires Leased(s, id) && Counted(s, id, lost)
    ensures Counted(Apply(s, step), id, lost + Lost(s, step, id))
  {
    if IsQuiet(s, step, id) {
      QuietStaysCounted(s, step, id, lost);
    } else if step.ClaimRow? {
      ClaimStaysCounted(s, step.worker, id, lost);
    } else if step.Crash? {
      CrashStaysCounted(s, step.worker, id, lost);
    } else {
      AdvanceStaysCounted(s, step.ticket, step.sendOk, step.storeOk, id, lost);
    }
  }

  /** Neither a claim of the row, nor a call of its holder, nor a crash. */
  predicate IsQuiet(s: State, step: Step, id: int) {
    && !step.Crash?
    && !(step.ClaimRow? && step.id == id && Claimable(s.table, id))
    && !(step.Advance? && Holds(s, step.ticket, id))
  }

  lemma QuietStep(s: State, step: Step, id: int)
    requires Sane(s) && IsQuiet(s, step, id)
    ensures var u := Apply(s, step);
            Attempts(u, id) == Attempts(s, id) && HoldersStay(s, u, id) && RowStays(s, u, id)
    ensures !LosesOutcome(s, step, id)
  {
    if step.ClaimRow? {
      ClaimElsewhereStays(s, step.worker, step.id, id);
    } else if step.Advance? {
      if step.ticket in s.claims { AdvanceElsewhereStays(s, step.ticket, step.sendOk, step.storeOk, id); }
    } else {
      OtherStays(s, step, id);
    }
  }

  lemma {:induction false} RunStaysCounted(s: State, steps: seq<Step>, id: int, lost: nat)
    requires Leased(s, id) && Counted(s, id, lost) && KeptRun(s, steps, id, 0)
    ensures Counted(Run(s, steps), id, lost + Losses(s, steps, id))
    decreases |steps|
  {
    if steps != [] {
      StepStaysCounted(s, steps[0], id, lost);
      StepKeepsLeased(s, steps[0], id);
      RunStaysCounted(Apply(s, steps[0]), steps[1..], id, lost + Lost(s, steps[0], id));
    }
  }

  // ---------- nothing failing ----------

  /** No store call for the row fails, and nobody crashes who has claimed it. */
  ghost predicate Unbroken(s: State, step: Step, id: int) {
    && (step.Advance? && On(s, step.ticket, id) ==> step.storeOk)
    && (step.Crash? ==> forall k :: On(s, k, id) ==> s.claims[k].worker != step.worker)
  }

  ghost predicate UnbrokenRun(s: State, steps: seq<Step>, id: int)
    decreases |steps|
  {
    steps == [] || (Unbroken(s, steps[0], id) && UnbrokenRun(Apply(s, steps[0]), steps[1..], id))
  }

  lemma {:induction false} UnbrokenLosesNothing(s: State, steps: seq<Step>, id: int)
    requires UnbrokenRun(s, steps, id)
    ensures Losses(s, steps, id) == 0
    decreases |steps|
  {
    if steps != [] { UnbrokenLosesNothing(Apply(s, steps[0]), steps[1..], id); }
  }

  ghost predicate HeldIfSending(s: State, id: int) {
    id in s.table.rows && s.table.rows[id].status == Sending ==> IsHeld(s, id)
  }

  lemma StepStaysHeld(s: State, step: Step, id: int)
    requires Leased(s, id) && HeldIfSending(s, id) && Unbroken(s, step, id)
    ensures HeldIfSending(Apply(s, step), id)
  {
    var u := Apply(s, step);
    if IsQuiet(s, step, id) || step.Crash? {
      if !step.Crash? { QuietStep(s, step, id); }
      if k :| Holds(s, k, id) { assert Holds(u, k, id); }
    } else if step.ClaimRow? {
      assert Holds(u, s.tickets, id);
    } else {
      assert Honest(s, s.claims[step.ticket]);
      HolderMovesOn(s, step.ticket, step.sendOk, step.storeOk, id);
    }
  }

  lemma {:induction false} RunStaysHeld(s: State, steps: seq<Step>, id: int)
    requires Leased(s, id) && HeldIfSending(s, id) && KeptRun(s, steps, id, 0) && UnbrokenRun(s, steps, id)
    ensures HeldIfSending(Run(s, steps), id)
    decreases |steps|
  {
    if steps != [] {
      StepStaysHeld(s, steps[0], id);
      StepKeepsLeased(s, steps[0], id);
      RunStaysHeld(Apply(s, steps[0]), steps[1..], id);
    }
  }

  /** In every run from an empty outbox, store failures and crashes included, for every row that nobody held beyond
      the lease: it is sent at most max_retries times plus once for each lost outcome, and while it waits exactly
      retry_count times plus those. If moreover nothing failed or crashed under it, no outcome is lost, and while
      it is SENDING it is in the hands of a worker. */
  lemma SendsAreBounded(s: State, steps: seq<Step>, id: int)
    requires Initial(s) && KeptRun(s, steps, id, 0) && id in Run(s, steps).table.rows
    ensures var u, lost := Run(s, steps), Losses(s, steps, id);
            && Attempts(u, id) <= u.table.rows[id].maxRetries + lost
            && (u.table.rows[id].status == Pending ==> Attempts(u, id) == u.table.rows[id].retryCount + lost)
    ensures UnbrokenRun(s, steps, id) ==>
              && Losses(s, steps, id) == 0
              && (Run(s, steps).table.rows[id].status == Sending ==> IsHeld(Run(s, steps), id))
  {
    assert Held(s, id) == map[];
    RunStaysCounted(s, steps, id, 0);
    if UnbrokenRun(s, steps, id) {
      UnbrokenLosesNothing(s, steps, id);
      RunStaysHeld(s, steps, id);
    }
  }
}
