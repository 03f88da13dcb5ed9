/**
 Several workers, the request handlers and the clock acting on one outbox. Every store call of
 Worker.processTask is a step of its own, so any other step can fall between two of them. The
 tasks of one claimed batch may be processed in any order, which contains the order the worker uses.
 */
module OutboxProtocol {
  import opened Options
  import opened OutboxTable

  /** The next store call or send of processTask for one claimed task. */
  datatype PC = CheckIssue | Send | Complete | Fail | CheckFallback | Fallback | CheckRetry | Reschedule

  /** One claimed task: task is the row as ClaimOutboxTasks returned it. */
  datatype Claim = Claim(worker: int, id: int, task: Row, pc: PC)

  /** attempts, delivered, bounced and fallbackOf are history: they record what was sent and created. */
  datatype State = State(table: Table, claims: map<nat, Claim>, tickets: nat,
                         attempts: map<int, nat>, delivered: set<int>, bounced: set<int>,
                         fallbackOf: map<int, int>)

  datatype Step =
    | ClaimRow(worker: int, id: int)
    | Advance(ticket: nat, sendOk: bool, storeOk: bool)
    | Crash(worker: int)
    | NewIssue(issue: int)
    | Enqueue(issue: int, event: string, channel: Channel, payload: string)
    | Delete(issue: int)
    | Undelete(issue: int)
    | Tick(elapsed: nat)

  function Attempts(s: State, id: int): nat {
    if id in s.attempts then s.attempts[id] else 0
  }

  function Drop(s: State, k: nat): State {
    s.(claims := s.claims - {k})
  }

  function Goto(s: State, k: nat, pc: PC): State
    requires k in s.claims
  {
    s.(claims := s.claims[k := s.claims[k].(pc := pc)])
  }

  function NoteSend(s: State, id: int, sendOk: bool): State {
    var sent := s.(attempts := s.attempts[id := Attempts(s, id) + 1]);
    if sendOk then sent.(delivered := s.delivered + {id}) else sent.(bounced := s.bounced + {id})
  }

  function SendTask(s: State, k: nat, sendOk: bool): State
    requires k in s.claims
  {
    var c := s.claims[k];
    Goto(NoteSend(s, c.id, sendOk), k, if sendOk then Complete else if LastAttempt(c.task) then Fail else CheckRetry)
  }

  function CreateFallback(s: State, k: nat): State
    requires k in s.claims
  {
    var c := s.claims[k];
    var (table, created) := CreateEntry(s.table, c.task.issue, c.task.event, LanWebhook, c.task.payload);
    match created
    case None => Drop(s, k)
    case Some(id) => Drop(s.(table := table, fallbackOf := s.fallbackOf[id := c.id]), k)
  }

  /** processTask, one call at a time. A failed store call changes nothing and is only logged. */
  function AdvanceTask(s: State, k: nat, sendOk: bool, storeOk: bool): State
    requires k in s.claims
  {
    var c := s.claims[k];
    var gone := !storeOk || IssueGone(s.table, c.task.issue);
    match c.pc
    case CheckIssue => if c.task.status != Sending || gone then Drop(s, k) else Goto(s, k, Send)
    case Send => SendTask(s, k, sendOk)
    case Complete => Drop(if storeOk then s.(table := MarkSent(s.table, c.id)) else s, k)
    case Fail =>
      var failed := if storeOk then s.(table := MarkFailed(s.table, c.id)) else s;
      if c.task.channel == WxPusher then Goto(failed, k, CheckFallback) else Drop(failed, k)
    case CheckFallback => if gone then Drop(s, k) else Goto(s, k, Fallback)
    case Fallback => if storeOk then CreateFallback(s, k) else Drop(s, k)
    case CheckRetry => if gone then Drop(s, k) else Goto(s, k, Reschedule)
    case Reschedule =>
      Drop(if storeOk then s.(table := Retry(s.table, c.id, Backoff(c.task))) else s, k)
  }

  /** A step that is not possible in s changes nothing. */
  function Apply(s: State, step: Step): State {
    match step
    case ClaimRow(worker, id) =>
      if Claimable(s.table, id) then
        var table := ClaimRows(s.table, {id});
        s.(table := table, claims := s.claims[s.tickets := Claim(worker, id, table.rows[id], CheckIssue)],
           tickets := s.tickets + 1)
      else s
    case Advance(k, sendOk, storeOk) => if k in s.claims then AdvanceTask(s, k, sendOk, storeOk) else s
    case Crash(worker) => s.(claims := map k | k in s.claims && s.claims[k].worker != worker :: s.claims[k])
    case NewIssue(issue) =>
      if issue in s.table.deleted then s else s.(table := s.table.(deleted := s.table.deleted[issue := false]))
    case Enqueue(issue, event, channel, payload) => s.(table := CreateEntry(s.table, issue, event, channel, payload).0)
    case Delete(issue) => s.(table := SoftDelete(s.table, issue))
    case Undelete(issue) => s.(table := Restore(s.table, issue))
    case Tick(elapsed) => s.(table := s.table.(now := s.table.now + elapsed))
  }

  function Run(s: State, steps: seq<Step>): State
    decreases |steps|
  {
    if steps == [] then s else Run(Apply(s, steps[0]), steps[1..])
  }

  /** An empty outbox over any issues. */
  ghost predicate Initial(s: State) {
    && s.table.rows == map[] && s.claims == map[]
    && s.attempts == map[] && s.delivered == {} && s.bounced == {} && s.fallbackOf == map[]
  }

  // ---------- every run, stale workers, store failures and crashes included ----------

  predicate AfterBounce(pc: PC) {
    pc.Fail? || pc.CheckFallback? || pc.Fallback? || pc.CheckRetry? || pc.Reschedule?
  }

  /** What the branches taken so far say of the task. */
  predicate Decided(c: Claim) {
    && (c.pc.Fail? || c.pc.CheckFallback? || c.pc.Fallback? ==> LastAttempt(c.task))
    && (c.pc.CheckFallback? || c.pc.Fallback? ==> c.task.channel == WxPusher)
    && (c.pc.CheckRetry? || c.pc.Reschedule? ==> !LastAttempt(c.task))
  }

  ghost predicate Honest(s: State, c: Claim) {
    && c.id in s.table.rows
    && s.table.rows[c.id].issue == c.task.issue
    && s.table.rows[c.id].channel == c.task.channel
    && s.table.rows[c.id].maxRetries == c.task.maxRetries
    && c.task.status == Sending && Decided(c)
    && (c.pc == Complete ==> c.id in s.delivered)
    && (AfterBounce(c.pc) ==> c.id in s.bounced)
  }

  ghost predicate Sane(s: State) {
    && Consistent(s.table)
    && (forall id :: id in s.table.rows && s.table.rows[id].status == Sent ==> id in s.delivered)
    && (forall id :: id in s.table.rows && s.table.rows[id].status == Failed ==> id in s.bounced)
    && (forall k :: k in s.claims ==> k < s.tickets && Honest(s, s.claims[k]))
    && (forall n :: n in s.fallbackOf ==> n in s.table.rows && s.table.rows[n].channel == LanWebhook)
  }

  lemma TableKeepsSane(s: State, t: Table)
    requires Sane(s) && Consistent(t)
    requires forall id :: id in s.table.rows ==>
      && id in t.rows && t.rows[id].issue == s.table.rows[id].issue
      && t.rows[id].channel == s.table.rows[id].channel && t.rows[id].maxRetries == s.table.rows[id].maxRetries
    requires forall id :: id in t.rows ==>
      && (t.rows[id].status == Sent ==> id in s.delivered)
      && (t.rows[id].status == Failed ==> id in s.bounced)
    ensures Sane(s.(table := t))
  {
    forall k | k in s.claims ensures Honest(s.(table := t), s.claims[k]) {
      assert Honest(s, s.claims[k]);
    }
  }

  lemma GotoKeepsSane(s: State, k: nat, pc: PC)
    requires Sane(s) && k in s.claims
    requires pc == Complete ==> s.claims[k].id in s.delivered
    requires AfterBounce(pc) ==> s.claims[k].id in s.bounced
    requires Decided(s.claims[k].(pc := pc))
    ensures Sane(Goto(s, k, pc))
  {
    assert Honest(s, s.claims[k]);
    forall j | j in Goto(s, k, pc).claims ensures j < s.tickets && Honest(Goto(s, k, pc), Goto(s, k, pc).claims[j]) {
      assert Honest(s, s.claims[j]);
    }
  }

  lemma DropKeepsSane(s: State, k: nat)
    requires Sane(s)
    ensures Sane(Drop(s, k))
  {
    forall j | j in Drop(s, k).claims ensures j < s.tickets && Honest(Drop(s, k), Drop(s, k).claims[j]) {
      assert Honest(s, s.claims[j]);
    }
  }

  lemma NoteKeepsSane(s: State, id: int, sendOk: bool)
    requires Sane(s)
    ensures Sane(NoteSend(s, id, sendOk))
  {
    var noted := NoteSend(s, id, sendOk);
    forall j | j in noted.claims ensures Honest(noted, noted.claims[j]) {
      assert Honest(s, s.claims[j]);
    }
  }

  lemma SendKeepsSane(s: State, k: nat, sendOk: bool)
    requires Sane(s) && k in s.claims
    ensures Sane(SendTask(s, k, sendOk))
  {
    var c := s.claims[k];
    NoteKeepsSane(s, c.id, sendOk);
    GotoKeepsSane(NoteSend(s, c.id, sendOk), k, SendTask(s, k, sendOk).claims[k].pc);
  }

  lemma FallbackKeepsSane(s: State, k: nat)
    requires Sane(s) && k in s.claims
    ensures Sane(CreateFallback(s, k))
  {
    var c := s.claims[k];
    var (table, created) := CreateEntry(s.table, c.task.issue, c.task.event, LanWebhook, c.task.payload);
    TableKeepsSane(s, table);
    DropKeepsSane(s.(table := table), k);
    DropKeepsSane(s, k);
    if created.Some? {
      var f := Drop(s.(table := table), k);
      assert CreateFallback(s, k) == f.(fallbackOf := s.fallbackOf[created.value := c.id]);
      forall j | j in f.claims ensures Honest(CreateFallback(s, k), f.claims[j]) {
        assert Honest(f, f.claims[j]);
      }
    }
  }

  lemma CompleteKeepsSane(s: State, k: nat, storeOk: bool)
    requires Sane(s) && k in s.claims && s.claims[k].pc == Complete
    ensures Sane(AdvanceTask(s, k, true, storeOk))
  {
    var c := s.claims[k];
    assert Honest(s, c);
    DropKeepsSane(s, k);
    TableKeepsSane(s, MarkSent(s.table, c.id));
    DropKeepsSane(s.(table := MarkSent(s.table, c.id)), k);
  }

  lemma FailKeepsSane(s: State, k: nat, storeOk: bool)
    requires Sane(s) && k in s.claims && s.claims[k].pc == Fail
    ensures Sane(AdvanceTask(s, k, true, storeOk))
  {
    var c := s.claims[k];
    assert Honest(s, c);
    var failed := if storeOk then s.(table := MarkFailed(s.table, c.id)) else s;
    TableKeepsSane(s, failed.table);
    DropKeepsSane(failed, k);
    if c.task.channel == WxPusher { GotoKeepsSane(failed, k, CheckFallback); }
  }

  lemma RescheduleKeepsSane(s: State, k: nat, storeOk: bool)
    requires Sane(s) && k in s.claims && s.claims[k].pc == Reschedule
    ensures Sane(AdvanceTask(s, k, true, storeOk))
  {
    var c := s.claims[k];
    DropKeepsSane(s, k);
    TableKeepsSane(s, Retry(s.table, c.id, Backoff(c.task)));
    DropKeepsSane(s.(table := Retry(s.table, c.id, Backoff(c.task))), k);
  }

  lemma CheckKeepsSane(s: State, k: nat, storeOk: bool)
    requires Sane(s) && k in s.claims
    requires s.claims[k].pc in {CheckIssue, CheckFallback, CheckRetry}
    ensures Sane(AdvanceTask(s, k, true, storeOk))
  {
    assert Honest(s, s.claims[k]);
    var pc := s.claims[k].pc;
    var next := if pc == CheckIssue then Send else if pc == CheckFallback then Fallback else Reschedule;
    DropKeepsSane(s, k);
    GotoKeepsSane(s, k, next);
  }

  lemma AdvanceKeepsSane(s: State, k: nat, sendOk: bool, storeOk: bool)
    requires Sane(s) && k in s.claims
    ensures Sane(AdvanceTask(s, k, sendOk, storeOk))
  {
    match s.claims[k].pc
    case Send => SendKeepsSane(s, k, sendOk);
    case Complete => CompleteKeepsSane(s, k, storeOk);
    case Fail => FailKeepsSane(s, k, storeOk);
    case Fallback =>
      DropKeepsSane(s, k);
      FallbackKeepsSane(s, k);
    case Reschedule => RescheduleKeepsSane(s, k, storeOk);
    case _ => CheckKeepsSane(s, k, storeOk);
  }

  lemma ClaimKeepsSane(s: State, worker: int, id: int)
    requires Sane(s)
    ensures Sane(Apply(s, ClaimRow(worker, id)))
  {
    if Claimable(s.table, id) {
      var u := Apply(s, ClaimRow(worker, id));
      TableKeepsSane(s, u.table);
      forall j | j in u.claims ensures j < u.tickets && Honest(u, u.claims[j]) {
        if j != s.tickets { assert Honest(s.(table := u.table), s.claims[j]); }
      }
    }
  }

  lemma TableStepKeepsConsistent(s: State, step: Step)
    requires Consistent(s.table)
    requires step.NewIssue? || step.Enqueue? || step.Delete? || step.Undelete? || step.Tick?
    ensures Consistent(Apply(s, step).table)
  {
    var t := Apply(s, step).table;
    forall id | id in t.rows && id in s.table.rows ensures t.rows[id].issue in t.deleted {
      assert s.table.rows[id].issue in s.table.deleted;
    }
  }

  lemma EnqueueKeepsSane(s: State, step: Step)
    requires Sane(s) && step.Enqueue?
    ensures Sane(Apply(s, step))
  {
    TableStepKeepsConsistent(s, step);
    assert forall id :: id in s.table.rows ==> id < s.table.nextId;
    TableKeepsSane(s, Apply(s, step).table);
  }

  lemma DeleteKeepsSane(s: State, step: Step)
    requires Sane(s) && step.Delete?
    ensures Sane(Apply(s, step))
  {
    TableStepKeepsConsistent(s, step);
    TableKeepsSane(s, Apply(s, step).table);
  }

  lemma SameRowsKeepSane(s: State, step: Step)
    requires Sane(s)
    requires step.NewIssue? || step.Undelete? || step.Tick?
    ensures Sane(Apply(s, step))
  {
    TableStepKeepsConsistent(s, step);
    TableKeepsSane(s, Apply(s, step).table);
  }

  lemma CrashKeepsSane(s: State, worker: int)
    requires Sane(s)
    ensures Sane(Apply(s, Crash(worker)))
  {
    var u := Apply(s, Crash(worker));
    forall j | j in u.claims ensures j < u.tickets && Honest(u, u.claims[j]) {
      assert Honest(s, s.claims[j]);
    }
  }

  lemma SanePreserved(s: State, step: Step)
    requires Sane(s)
    ensures Sane(Apply(s, step))
  {
    match step
    case ClaimRow(worker, id) => ClaimKeepsSane(s, worker, id);
    case Advance(k, sendOk, storeOk) =>
      if k in s.claims {
        AdvanceKeepsSane(s, k, sendOk, storeOk);
      }
    case Crash(worker) => CrashKeepsSane(s, worker);
    case Enqueue(_, _, _, _) => EnqueueKeepsSane(s, step);
    case Delete(_) => DeleteKeepsSane(s, step);
    case _ => SameRowsKeepSane(s, step);
  }

  lemma {:induction false} SaneRun(s: State, steps: seq<Step>)
    requires Sane(s)
    ensures Sane(Run(s, steps))
    decreases |steps|
  {
    if steps != [] {
      SanePreserved(s, steps[0]);
      SaneRun(Apply(s, steps[0]), steps[1..]);
    }
  }

  lemma CallLeavesSettled(s: State, k: nat, sendOk: bool, storeOk: bool, id: int)
    requires k in s.claims && id in s.table.rows && !s.table.rows[id].status.Live() && id < s.table.nextId
    ensures var u := AdvanceTask(s, k, sendOk, storeOk);
            id in u.table.rows && u.table.rows[id] == s.table.rows[id]
  {
    match s.claims[k].pc
    case Complete =>
    case Fail =>
    case Fallback =>
    case Reschedule =>
    case _ => assert AdvanceTask(s, k, sendOk, storeOk).table == s.table;
  }

  lemma SettledRowUntouched(s: State, step: Step, id: int)
    requires Sane(s) && id in s.table.rows && !s.table.rows[id].status.Live()
    ensures id in Apply(s, step).table.rows && Apply(s, step).table.rows[id] == s.table.rows[id]
  {
    assert id < s.table.nextId;
    if step.Advance? && step.ticket in s.claims {
      CallLeavesSettled(s, step.ticket, step.sendOk, step.storeOk, id);
    }
  }

  /** SENT, FAILED and CANCELLED rows are never changed again, whoever still holds a claim on them. */
  lemma {:induction false} SettledIsFinal(s: State, steps: seq<Step>, id: int)
    requires Sane(s) && id in s.table.rows && !s.table.rows[id].status.Live()
    ensures id in Run(s, steps).table.rows && Run(s, steps).table.rows[id] == s.table.rows[id]
    decreases |steps|
  {
    if steps != [] {
      SettledRowUntouched(s, steps[0], id);
      SanePreserved(s, steps[0]);
      SettledIsFinal(Apply(s, steps[0]), steps[1..], id);
    }
  }

  /** In every run a soft-deleted issue has no PENDING or SENDING row, a SENT row was delivered at
      least once, and a FAILED row had at least one failed delivery. */
  lemma DeletedIssueIsSilent(s: State, steps: seq<Step>, id: int)
    requires Initial(s)
    requires id in Run(s, steps).table.rows
    ensures var t := Run(s, steps).table;
            && t.rows[id].issue in t.deleted
            && (t.deleted[t.rows[id].issue] ==> !t.rows[id].status.Live())
            && (t.rows[id].status == Sent ==> id in Run(s, steps).delivered)
            && (t.rows[id].status == Failed ==> id in Run(s, steps).bounced)
  {
    SaneRun(s, steps);
  }

  // ---------- one claim alone ----------

  /** n calls of one claim, none of which fails, with the same result of its send. */
  function Calls(k: nat, sendOk: bool, n: nat): seq<Step> {
    if n == 0 then [] else [Advance(k, sendOk, true)] + Calls(k, sendOk, n - 1)
  }

  lemma NextCall(s: State, k: nat, sendOk: bool, n: nat)
    requires n > 0
    ensures Run(s, Calls(k, sendOk, n)) == Run(Apply(s, Advance(k, sendOk, true)), Calls(k, sendOk, n - 1))
  {
    assert Calls(k, sendOk, n)[1..] == Calls(k, sendOk, n - 1);
  }

  lemma LastCall(s: State, k: nat, sendOk: bool)
    ensures Run(s, Calls(k, sendOk, 1)) == Apply(s, Advance(k, sendOk, true))
  {
    NextCall(s, k, sendOk, 1);
  }

  /** A claim that has called nothing yet, and whose row is as it was claimed. */
  ghost predicate JustBegun(s: State, k: nat) {
    && Sane(s) && k in s.claims && s.claims[k].pc == CheckIssue && s.table.rows[s.claims[k].id] == s.claims[k].task
    && Active(s.table, s.claims[k].task.issue)
  }

  /** The table with one row set, and the claim gone. */
  ghost predicate Leaves(s: State, k: nat, u: State, table: Table) {
    u.table == table && u.claims == s.claims - {k} && u.tickets == s.tickets
  }

  function Set(t: Table, id: int, r: Row): Table {
    t.(rows := t.rows[id := r])
  }

  lemma SentAlone(s: State, k: nat)
    requires JustBegun(s, k)
    ensures var c, u := s.claims[k], Run(s, Calls(k, true, 3));
            Leaves(s, k, u, Set(s.table, c.id, c.task.(status := Sent))) && c.id in u.delivered
  {
    var step, c := Advance(k, true, true), s.claims[k];
    assert Honest(s, c);
    var t := Apply(s, step);
    assert t.claims[k] == c.(pc := Send) && t.table == s.table;
    var v := Apply(t, step);
    assert v.claims == s.claims[k := c.(pc := Complete)] && v.table == s.table;
    NextCall(s, k, true, 3);
    NextCall(t, k, true, 2);
    LastCall(v, k, true);
    assert Apply(v, step).claims == s.claims - {k};
  }

  /** The first two calls of a claim whose send fails. */
  lemma BouncedAlone(s: State, k: nat, n: nat) returns (v: State)
    requires JustBegun(s, k) && n >= 2
    ensures Run(s, Calls(k, false, n)) == Run(v, Calls(k, false, n - 2))
    ensures var c := s.claims[k]; v.claims == s.claims[k := c.(pc := if LastAttempt(c.task) then Fail else CheckRetry)]
    ensures v.table == s.table && v.tickets == s.tickets && v.fallbackOf == s.fallbackOf
  {
    var step, c := Advance(k, false, true), s.claims[k];
    assert Honest(s, c);
    var t := Apply(s, step);
    assert t.claims == s.claims[k := c.(pc := Send)] && t.table == s.table;
    NextCall(s, k, false, n);
    NextCall(t, k, false, n - 1);
    v := Apply(t, step);
    assert v.claims == s.claims[k := c.(pc := if LastAttempt(c.task) then Fail else CheckRetry)];
  }

  lemma PutBackAlone(v: State, k: nat)
    requires k in v.claims && v.claims[k].pc == CheckRetry && Active(v.table, v.claims[k].task.issue)
    ensures Leaves(v, k, Run(v, Calls(k, false, 2)), Retry(v.table, v.claims[k].id, Backoff(v.claims[k].task)))
  {
    var step := Advance(k, false, true);
    var w := Apply(v, step);
    assert w == v.(claims := v.claims[k := v.claims[k].(pc := Reschedule)]);
    NextCall(v, k, false, 2);
    LastCall(w, k, false);
    assert Apply(w, step).claims == v.claims - {k};
  }

  /** The table after an attempt that is not the last. */
  function RetriedTable(t: Table, id: int, task: Row, wait: int): Table {
    Set(t, id, task.(status := Pending, retryCount := task.retryCount + 1, nextRetryAt := t.now + wait * 1_000_000))
  }

  lemma RetryIsRetried(t: Table, id: int, task: Row, wait: int)
    requires id in t.rows && t.rows[id] == task && task.status == Sending && Active(t, task.issue)
    ensures Retry(t, id, wait) == RetriedTable(t, id, task, wait)
  {
  }

  lemma RetriedAlone(s: State, k: nat)
    requires JustBegun(s, k) && !LastAttempt(s.claims[k].task)
    ensures var c := s.claims[k];
            Leaves(s, k, Run(s, Calls(k, false, 4)), RetriedTable(s.table, c.id, c.task, Backoff(c.task)))
  {
    var c := s.claims[k];
    assert Honest(s, c);
    var v := BouncedAlone(s, k, 4);
    PutBackAlone(v, k);
    assert v.claims - {k} == s.claims - {k};
    RetryIsRetried(s.table, c.id, c.task, Backoff(c.task));
  }

  /** MarkOutboxFailed, and the end of a claim on a row that has no other channel. */
  lemma GivenUpAlone(v: State, k: nat)
    requires k in v.claims && v.claims[k].pc == Fail && v.claims[k].task.channel != WxPusher
    ensures var u := Run(v, Calls(k, false, 1));
            Leaves(v, k, u, MarkFailed(v.table, v.claims[k].id)) && u.fallbackOf == v.fallbackOf
  {
    LastCall(v, k, false);
    assert Apply(v, Advance(k, false, true)).claims == v.claims - {k};
  }

  lemma FallenBackAlone(v: State, k: nat)
    requires k in v.claims && v.claims[k].pc == Fail && v.claims[k].task.channel == WxPusher
    requires Active(v.table, v.claims[k].task.issue)
    ensures var c, u := v.claims[k], Run(v, Calls(k, false, 3));
            && Leaves(v, k, u, CreateEntry(MarkFailed(v.table, c.id), c.task.issue, c.task.event, LanWebhook,
                                           c.task.payload).0)
            && u.fallbackOf == v.fallbackOf[v.table.nextId := c.id]
  {
    var step, c := Advance(k, false, true), v.claims[k];
    var w := Apply(v, step);
    assert w == v.(table := MarkFailed(v.table, c.id), claims := v.claims[k := c.(pc := CheckFallback)]);
    var x := Apply(w, step);
    assert x == w.(claims := v.claims[k := c.(pc := Fallback)]);
    NextCall(v, k, false, 3);
    NextCall(w, k, false, 2);
    LastCall(x, k, false);
    assert Apply(x, step).claims == v.claims - {k};
  }

  /** After the last attempt the row fails, and a WXPUSHER row is followed by one for the other channel. */
  lemma FailedAlone(s: State, k: nat)
    requires JustBegun(s, k) && LastAttempt(s.claims[k].task)
    ensures var c, u := s.claims[k], Run(s, Calls(k, false, if s.claims[k].task.channel == WxPusher then 5 else 3));
            && Leaves(s, k, u, GivenUpTable(s.table, c.id, c.task))
            && u.fallbackOf == if c.task.channel == WxPusher then s.fallbackOf[s.table.nextId := c.id] else s.fallbackOf
  {
    var c := s.claims[k];
    assert Honest(s, c);
    if c.task.channel != WxPusher {
      var v := BouncedAlone(s, k, 3);
      GivenUpAlone(v, k);
      assert v.claims - {k} == s.claims - {k};
    } else {
      var v := BouncedAlone(s, k, 5);
      FallenBackAlone(v, k);
      assert v.claims - {k} == s.claims - {k};
    }
  }

  /** The table after the last attempt. */
  function GivenUpTable(t: Table, id: int, task: Row): Table {
    var failed := Set(t, id, task.(status := Failed));
    if task.channel == WxPusher then
      Set(failed, t.nextId, Row(task.issue, task.event, LanWebhook, task.payload, Pending, 0, 5, t.now)).(
        nextId := t.nextId + 1)
    else failed
  }

  /** A claim alone whose send is delivered leaves its row SENT; one whose send bounces leaves it PENDING again, with
      one retry more and due after the backoff, or, after the last attempt, FAILED and with a fallback row for the
      other channel if it is a WXPUSHER row. Nothing else of the table changes. */
  lemma ClaimAlone(s: State, k: nat, sendOk: bool)
    requires JustBegun(s, k)
    ensures var c := s.claims[k];
            exists n: nat ::
              var u := Run(s, Calls(k, sendOk, n));
              k !in u.claims && Outcome(s.table, c.id, c.task, sendOk, u.table)
  {
    var c := s.claims[k];
    if sendOk {
      SentAlone(s, k);
      assert k !in Run(s, Calls(k, sendOk, 3)).claims;
    } else if !LastAttempt(c.task) {
      RetriedAlone(s, k);
      assert k !in Run(s, Calls(k, sendOk, 4)).claims;
    } else {
      FailedAlone(s, k);
      assert k !in Run(s, Calls(k, sendOk, if c.task.channel == WxPusher then 5 else 3)).claims;
    }
  }

  ghost predicate Outcome(t: Table, id: int, task: Row, sendOk: bool, u: Table) {
    if sendOk then u == Set(t, id, task.(status := Sent))
    else if task.retryCount + 1 < task.maxRetries then u == RetriedTable(t, id, task, Backoff(task))
    else u == GivenUpTable(t, id, task)
  }

  // ---------- cancellation ----------

  lemma CallCancelsNothing(s: State, k: nat, sendOk: bool, storeOk: bool, id: int)
    requires Sane(s) && k in s.claims && id in AdvanceTask(s, k, sendOk, storeOk).table.rows
    requires AdvanceTask(s, k, sendOk, storeOk).table.rows[id].status == Cancelled
    ensures id in s.table.rows && s.table.rows[id].status == Cancelled
  {
    match s.claims[k].pc
    case Complete =>
    case Fail =>
    case Fallback =>
    case Reschedule =>
    case _ => assert AdvanceTask(s, k, sendOk, storeOk).table == s.table;
  }

  lemma StepCancels(s: State, step: Step, id: int)
    requires Sane(s) && id in Apply(s, step).table.rows && Apply(s, step).table.rows[id].status == Cancelled
    requires id in s.table.rows ==> s.table.rows[id].status != Cancelled
    ensures step == Delete(Apply(s, step).table.rows[id].issue)
  {
    if step.Advance? && step.ticket in s.claims {
      CallCancelsNothing(s, step.ticket, step.sendOk, step.storeOk, id);
    }
  }

  /** In every run a row is cancelled only by a deletion of its issue. */
  lemma {:induction false} CancelledByDeletion(s: State, steps: seq<Step>, id: int)
    requires Sane(s) && id in Run(s, steps).table.rows && Run(s, steps).table.rows[id].status == Cancelled
    requires id in s.table.rows ==> s.table.rows[id].status != Cancelled
    ensures exists i :: 0 <= i < |steps| && steps[i] == Delete(Run(s, steps).table.rows[id].issue)
    decreases |steps|
  {
    if steps != [] {
      var u := Apply(s, steps[0]);
      SanePreserved(s, steps[0]);
      if id in u.table.rows && u.table.rows[id].status == Cancelled {
        StepCancels(s, steps[0], id);
        SettledIsFinal(u, steps[1..], id);
      } else {
        CancelledByDeletion(u, steps[1..], id);
        var i :| 0 <= i < |steps[1..]| && steps[1..][i] == Delete(Run(s, steps).table.rows[id].issue);
        assert steps[i + 1] == steps[1..][i];
      }
    }
  }

  // ---------- the delays ----------

  /** Rows have the default budget, and the counts of rows and tasks never fall below zero. */
  ghost predicate DefaultBudgets(s: State) {
    && (forall id :: id in s.table.rows ==>
          s.table.rows[id].maxRetries == DEFAULT_MAX_RETRIES && s.table.rows[id].retryCount >= 0)
    && (forall k :: k in s.claims ==> s.claims[k].task.retryCount >= 0)
  }

  lemma CallKeepsBudgets(s: State, k: nat, sendOk: bool, storeOk: bool)
    requires DefaultBudgets(s) && k in s.claims
    ensures DefaultBudgets(AdvanceTask(s, k, sendOk, storeOk))
  {
    match s.claims[k].pc
    case CheckIssue =>
    case Send =>
    case Complete =>
    case Fail =>
    case CheckFallback =>
    case Fallback =>
    case CheckRetry =>
    case Reschedule =>
  }

  lemma StepKeepsBudgets(s: State, step: Step)
    requires DefaultBudgets(s)
    ensures DefaultBudgets(Apply(s, step))
  {
    match step
    case Advance(k, sendOk, storeOk) => if k in s.claims { CallKeepsBudgets(s, k, sendOk, storeOk); }
    case _ =>
  }

  lemma {:induction false} RunKeepsBudgets(s: State, steps: seq<Step>)
    requires DefaultBudgets(s)
    ensures DefaultBudgets(Run(s, steps))
    decreases |steps|
  {
    if steps != [] {
      StepKeepsBudgets(s, steps[0]);
      RunKeepsBudgets(Apply(s, steps[0]), steps[1..]);
    }
  }

  /** In every run, however late a worker is, the delay it is about to reschedule a row with is 15 s, 45 s,
      135 s or 405 s, as it has failed before, and so fits int32. */
  lemma EveryDelayFits(s: State, steps: seq<Step>, k: nat)
    requires Initial(s) && k in Run(s, steps).claims && Run(s, steps).claims[k].pc.Reschedule?
    ensures var task := Run(s, steps).claims[k].task;
            && 0 <= task.retryCount <= 3 && task.retryCount + 1 < task.maxRetries
            && Backoff(task) == [15, 45, 135, 405][task.retryCount] && Backoff(task) <= INT32_MAX
  {
    var u := Run(s, steps);
    SaneRun(s, steps);
    RunKeepsBudgets(s, steps);
    assert Honest(u, u.claims[k]);
    assert Pow3(1) == 3 && Pow3(2) == 9 && Pow3(3) == 27 && Pow3(4) == 81;
    assert Backoff(u.claims[k].task) == BackoffSeconds(u.claims[k].task.retryCount);
  }
}
