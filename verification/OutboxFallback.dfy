/**
 The fallback of a WXPUSHER row: while nobody outlives their lease on the row and its failure is recorded, it
 has one fallback at most.
 */
module OutboxFallback {
  import opened OutboxTable
  import opened OutboxProtocol
  import opened OutboxLease

  predicate GivenUp(row: Row) {
    row.status == Failed || row.status == Cancelled
  }

  /** A fallback row of this one. */
  predicate FallbackOf(s: State, n: int, id: int) {
    n in s.fallbackOf && s.fallbackOf[n] == id
  }

  /** One claim at most; whoever looks after the fallback has given up the row; and a fallback, of which there is
      one at most, comes after the last claim. */
  ghost predicate OneFallback(s: State, id: int) {
    && (forall j, k :: On(s, j, id) && On(s, k, id) ==> j == k)
    && (forall k :: On(s, k, id) && !Settling(s.claims[k].pc) ==> id in s.table.rows && GivenUp(s.table.rows[id]))
    && (forall n :: FallbackOf(s, n, id) ==>
          id in s.table.rows && s.table.rows[id].channel == WxPusher && GivenUp(s.table.rows[id]))
    && (forall n, k :: FallbackOf(s, n, id) ==> !On(s, k, id))
    && (forall m, n :: FallbackOf(s, m, id) && FallbackOf(s, n, id) ==> m == n)
  }

  /** No new claim and no new fallback; a claim that goes on to look after the fallback has given up the row. */
  lemma NothingNew(s: State, u: State, id: int)
    requires OneFallback(s, id)
    requires forall n :: FallbackOf(u, n, id) ==> FallbackOf(s, n, id)
    requires forall k :: On(u, k, id) ==> On(s, k, id)
    requires forall k :: On(u, k, id) && !Settling(u.claims[k].pc) ==>
      !Settling(s.claims[k].pc) || (id in u.table.rows && GivenUp(u.table.rows[id]))
    requires id in s.table.rows ==> id in u.table.rows && u.table.rows[id].channel == s.table.rows[id].channel
    requires id in s.table.rows && GivenUp(s.table.rows[id]) ==> u.table.rows[id] == s.table.rows[id]
    ensures OneFallback(u, id)
  {
  }

  lemma NothingYet(s: State, id: int)
    requires Initial(s)
    ensures OneFallback(s, id)
  {
  }

  lemma FirstClaim(s: State, u: State, id: int)
    requires Sane(s) && OneFallback(s, id) && id in s.table.rows && s.table.rows[id].status.Live()
    requires forall k :: !On(s, k, id)
    requires u.fallbackOf == s.fallbackOf && s.tickets in u.claims && u.claims - {s.tickets} == s.claims
    requires Settling(u.claims[s.tickets].pc)
    ensures OneFallback(u, id)
  {
    forall n ensures !FallbackOf(u, n, id) {
      assert !FallbackOf(s, n, id);
    }
    forall k | On(u, k, id) ensures k == s.tickets {
      assert k != s.tickets ==> k in u.claims - {s.tickets} && On(s, k, id);
    }
  }

  lemma ClaimKeepsOneFallback(s: State, worker: int, claimed: int, id: int)
    requires Leased(s, id) && OneFallback(s, id)
    ensures OneFallback(Apply(s, ClaimRow(worker, claimed)), id)
  {
    var u := Apply(s, ClaimRow(worker, claimed));
    if Claimable(s.table, claimed) && claimed == id {
      NobodyHoldsClaimable(s.table.rows[id], Held(s, id), s.table.now);
      forall k ensures !On(s, k, id) {
        assert k !in Held(s, id);
      }
      assert s.tickets !in s.claims;
      FirstClaim(s, u, id);
    } else {
      NothingNew(s, u, id);
    }
  }

  /** The fallback is recorded when it is created, and its claim is over. */
  ghost predicate FallbacksAdvance(s: State, u: State, k: nat)
    requires k in s.claims
  {
    && (u.fallbackOf == s.fallbackOf
        || (s.claims[k].pc.Fallback? && k !in u.claims
            && u.fallbackOf == s.fallbackOf[s.table.nextId := s.claims[k].id]))
    && (k in u.claims && Settling(s.claims[k].pc) && !Settling(u.claims[k].pc) ==> s.claims[k].pc.Fail?)
  }

  lemma FallbackAdvances(s: State, k: nat, sendOk: bool, storeOk: bool)
    requires k in s.claims
    ensures FallbacksAdvance(s, AdvanceTask(s, k, sendOk, storeOk), k)
    ensures s.claims[k].pc.Fail? && storeOk ==>
              AdvanceTask(s, k, sendOk, storeOk).table == MarkFailed(s.table, s.claims[k].id)
  {
    match s.claims[k].pc
    case CheckIssue =>
    case Send =>
    case Complete =>
    case Fail =>
    case CheckFallback =>
    case Fallback =>
    case CheckRetry =>
    case Reschedule =>
  }

  lemma ElsewhereKeepsOneFallback(s: State, u: State, k: nat, id: int)
    requires Sane(s) && OneFallback(s, id) && k in s.claims && s.claims[k].id != id
    requires ClaimsAdvance(s, u, k) && TableAdvances(s, u, k) && FallbacksAdvance(s, u, k)
    ensures OneFallback(u, id)
  {
    assert Honest(s, s.claims[k]);
    assert id in s.table.rows ==> id < s.table.nextId;
    NothingNew(s, u, id);
  }

  lemma FallbackIsTheFirst(s: State, u: State, k: nat, id: int)
    requires Sane(s) && OneFallback(s, id) && On(s, k, id) && s.claims[k].pc.Fallback?
    requires ClaimsAdvance(s, u, k) && k !in u.claims && id in u.table.rows && u.table.rows[id] == s.table.rows[id]
    requires u.fallbackOf == s.fallbackOf[s.table.nextId := id]
    ensures OneFallback(u, id)
  {
    assert Honest(s, s.claims[k]);
    forall n | FallbackOf(u, n, id) ensures n == s.table.nextId {
      assert !FallbackOf(s, n, id);
    }
    forall j ensures !On(u, j, id) {
      assert On(s, j, id) ==> j == k;
    }
  }

  lemma OnRowKeepsOneFallback(s: State, u: State, k: nat, id: int)
    requires Leased(s, id) && OneFallback(s, id) && On(s, k, id)
    requires ClaimsAdvance(s, u, k) && TableAdvances(s, u, k) && FallbacksAdvance(s, u, k)
    requires s.claims[k].pc.Fail? ==> u.table == MarkFailed(s.table, id)
    ensures OneFallback(u, id)
  {
    var c := s.claims[k];
    assert Honest(s, c);
    assert id < s.table.nextId;
    if u.fallbackOf != s.fallbackOf {
      FallbackIsTheFirst(s, u, k, id);
    } else {
      if c.pc.Fail? { assert k in Held(s, id); }
      NothingNew(s, u, id);
    }
  }

  lemma OtherKeepsOneFallback(s: State, step: Step, id: int)
    requires Sane(s) && OneFallback(s, id) && !step.ClaimRow? && !step.Advance?
    ensures OneFallback(Apply(s, step), id)
  {
    assert id in s.table.rows ==> id < s.table.nextId;
    NothingNew(s, Apply(s, step), id);
  }

  lemma AdvanceKeepsOneFallback(s: State, k: nat, sendOk: bool, storeOk: bool, id: int)
    requires Leased(s, id) && OneFallback(s, id) && k in s.claims
    requires On(s, k, id) && s.claims[k].pc.Fail? ==> storeOk
    ensures OneFallback(AdvanceTask(s, k, sendOk, storeOk), id)
  {
    Advances(s, k, sendOk, storeOk);
    FallbackAdvances(s, k, sendOk, storeOk);
    if s.claims[k].id == id {
      OnRowKeepsOneFallback(s, AdvanceTask(s, k, sendOk, storeOk), k, id);
    } else {
      ElsewhereKeepsOneFallback(s, AdvanceTask(s, k, sendOk, storeOk), k, id);
    }
  }

  lemma StepKeepsOneFallback(s: State, step: Step, id: int)
    requires Leased(s, id) && OneFallback(s, id) && Recorded(s, step, id)
    ensures OneFallback(Apply(s, step), id)
  {
    if step.ClaimRow? {
      ClaimKeepsOneFallback(s, step.worker, step.id, id);
    } else if !step.Advance? {
      OtherKeepsOneFallback(s, step, id);
    } else if step.ticket in s.claims {
      AdvanceKeepsOneFallback(s, step.ticket, step.sendOk, step.storeOk, id);
    }
  }

  lemma {:induction false} RunKeepsOneFallback(s: State, steps: seq<Step>, id: int)
    requires Leased(s, id) && OneFallback(s, id) && KeptRun(s, steps, id, 0) && RecordedRun(s, steps, id)
    ensures Leased(Run(s, steps), id) && OneFallback(Run(s, steps), id)
    decreases |steps|
  {
    if steps != [] {
      StepKeepsOneFallback(s, steps[0], id);
      StepKeepsLeased(s, steps[0], id);
      RunKeepsOneFallback(Apply(s, steps[0]), steps[1..], id);
    }
  }

  /**
   In every run from an empty outbox, store failures and crashes included, for every row whose holders all
   settled it, or let it go, within their lease: nobody holds it together with another, and it has a retry left
   while it is live. If moreover no MarkOutboxFailed call for it failed, it has at most one fallback row, and
   that only as a WXPUSHER row that is given up.
   */
  lemma LeaseTheorem(s: State, steps: seq<Step>, id: int)
    requires Initial(s) && KeptRun(s, steps, id, 0)
    ensures var u := Run(s, steps);
            && (forall j, k :: Holds(u, j, id) && Holds(u, k, id) ==> j == k)
            && (id in u.table.rows && u.table.rows[id].status.Live() ==>
                  0 <= u.table.rows[id].retryCount < u.table.rows[id].maxRetries)
    ensures var u := Run(s, steps);
            RecordedRun(s, steps, id) ==>
              && (forall m, n :: FallbackOf(u, m, id) && FallbackOf(u, n, id) ==> m == n)
              && (forall n :: FallbackOf(u, n, id) ==>
                    id in u.table.rows && u.table.rows[id].channel == WxPusher && GivenUp(u.table.rows[id]))
  {
    var u := Run(s, steps);
    assert Held(s, id) == map[];
    RunKeepsLeased(s, steps, id);
    forall j, k | Holds(u, j, id) && Holds(u, k, id) ensures j == k {
      assert Honest(u, u.claims[j]) && j in Held(u, id) && k in Held(u, id);
    }
    if RecordedRun(s, steps, id) {
      NothingYet(s, id);
      RunKeepsOneFallback(s, steps, id);
    }
  }
}
