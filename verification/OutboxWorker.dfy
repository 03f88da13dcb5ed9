/**
 The worker's own loop over the outbox, call by call, with deletions, restorations and the clock
 acting between any two calls. One worker, no new rows from outside, no store errors.
 */
module OutboxWorker {
  import opened Options
  import opened OutboxTable
  import opened Sets

  /** A claimed task: the row id and the row as ClaimOutboxTasks returned it. */
  datatype Task = Task(id: int, row: Row)

  /** One call of the sender and its result. */
  datatype Attempt = Attempt(id: int, ok: bool)

  /** The issues that other requests have deleted and restored, as often as they have. */
  datatype Others = Others(deletions: multiset<int>, restorations: multiset<int>)

  ghost predicate Fewer(x: Others, y: Others) {
    x.deletions <= y.deletions && x.restorations <= y.restorations
  }

  /** Others have deleted the issue in between. */
  ghost predicate DeletedSince(x: Others, y: Others, issue: int) {
    x.deletions[issue] < y.deletions[issue]
  }

  /** Flags change only as others delete and restore. */
  ghost predicate FlagsFollow(a: Table, x: Others, b: Table, y: Others) {
    && Fewer(x, y) && a.deleted.Keys == b.deleted.Keys
    && forall i :: i in a.deleted && a.deleted[i] != b.deleted[i] ==>
         if b.deleted[i] then DeletedSince(x, y, i) else x.restorations[i] < y.restorations[i]
  }

  /** A row is left alone, or its issue is deleted and cancels it. */
  ghost predicate LeftAlone(r: Row, x: Others, next: Row, y: Others) {
    next == r || (r.status.Live() && next == r.(status := Cancelled) && DeletedSince(x, y, r.issue))
  }

  /** What other requests may do to the outbox between two calls of the worker. */
  ghost predicate Interfered(a: Table, x: Others, b: Table, y: Others) {
    && a.now <= b.now && a.nextId == b.nextId && a.rows.Keys == b.rows.Keys && FlagsFollow(a, x, b, y)
    && (forall id :: id in a.rows ==> LeftAlone(a.rows[id], x, b.rows[id], y))
    && (Consistent(a) ==> Consistent(b))
  }

  class Store {
    var deleted: map<int, bool>
    var rows: map<int, Row>
    var nextId: int
    var now: int
    /** What other requests have done so far; no call of the worker adds to it. */
    ghost var others: Others

    function Snapshot(): Table
      reads this
    {
      Table(deleted, rows, nextId, now)
    }

    /** The batch holds exactly the first due rows; UPDATE ... RETURNING promises no order. */
    method ClaimOutboxTasks(limit: nat) returns (tasks: seq<Task>)
      modifies this`rows
      ensures Snapshot() == ClaimRows(old(Snapshot()), FirstDue(old(Snapshot()), limit))
      ensures |tasks| == |FirstDue(old(Snapshot()), limit)|
      ensures forall i :: 0 <= i < |tasks| ==>
                tasks[i].id in FirstDue(old(Snapshot()), limit) && tasks[i].row == rows[tasks[i].id]
                && tasks[i].row == old(rows)[tasks[i].id].(status := Sending, nextRetryAt := now + 120 * 1_000_000)
      ensures forall i, j :: 0 <= i < j < |tasks| ==> tasks[i].id != tasks[j].id
    {
      var chosen := FirstDue(Snapshot(), limit);
      rows := ClaimRows(Snapshot(), chosen).rows;
      tasks := [];
      var rest := chosen;
      ghost var claimed := Snapshot();
      assert forall id :: id in chosen ==> id in rows;
      while rest != {}
        invariant Snapshot() == claimed
        invariant rest <= chosen && |tasks| + |rest| == |chosen|
        invariant forall i :: 0 <= i < |tasks| ==> tasks[i].id in chosen - rest && tasks[i].row == rows[tasks[i].id]
        invariant forall i, j :: 0 <= i < j < |tasks| ==> tasks[i].id != tasks[j].id
        decreases |rest|
      {
        HasMember(rest);
        var id :| id in rest;
        tasks := tasks + [Task(id, rows[id])];
        rest := rest - {id};
      }
    }

    method MarkOutboxSent(id: int)
      modifies this`rows
      ensures Snapshot() == MarkSent(old(Snapshot()), id)
    {
      if Settleable(Snapshot(), id) {
        rows := rows[id := rows[id].(status := Sent)];
      }
    }

    method MarkOutboxFailed(id: int)
      modifies this`rows
      ensures Snapshot() == MarkFailed(old(Snapshot()), id)
    {
      if Settleable(Snapshot(), id) {
        rows := rows[id := rows[id].(status := Failed)];
      }
    }

    method RetryOutboxTask(id: int, backoffSec: int)
      modifies this`rows
      ensures Snapshot() == Retry(old(Snapshot()), id, backoffSec)
    {
      if Settleable(Snapshot(), id) {
        var r := rows[id];
        rows := rows[id := r.(status := Pending, retryCount := r.retryCount + 1,
                              nextRetryAt := now + backoffSec * SECOND)];
      }
    }

    method CreateOutboxEntry(issue: int, event: string, channel: Channel, payload: string)
      returns (created: Option<int>)
      modifies this`rows, this`nextId
      ensures (Snapshot(), created) == CreateEntry(old(Snapshot()), issue, event, channel, payload)
      ensures created.Some? ==>
                created.value in rows && rows[created.value] == Row(issue, event, channel, payload, Pending, 0, 5, now)
    {
      if !Active(Snapshot(), issue) {
        return None;
      }
      rows := rows[nextId := NewRow(Snapshot(), issue, event, channel, payload)];
      created := Some(nextId);
      nextId := nextId + 1;
    }

    /** CancelPendingOutboxForIssue, row by row. */
    method CancelPendingOutboxForIssue(issue: int)
      modifies this`rows
      ensures Cancels(old(rows), rows, issue)
    {
      ghost var before := rows;
      var rest := rows.Keys;
      while rest != {}
        invariant rest <= rows.Keys && rows.Keys == before.Keys
        invariant forall id :: id in rest ==> rows[id] == before[id]
        invariant forall id :: id in rows && id !in rest ==> rows[id] == CancelledIf(before[id], issue)
        decreases |rest|
      {
        HasMember(rest);
        var id :| id in rest;
        if rows[id].issue == issue && rows[id].status.Live() {
          rows := rows[id := rows[id].(status := Cancelled)];
        }
        rest := rest - {id};
      }
    }

    /** The flag and the cancellation commit together: afterwards no row of the issue is live, every other row is as
        it was, and no other issue is touched. */
    method DeleteIssue(issue: int)
      modifies this`rows, this`deleted
      ensures Snapshot() == SoftDelete(old(Snapshot()), issue)
      ensures old(Active(Snapshot(), issue)) ==>
                deleted == old(deleted)[issue := true] && Cancels(old(rows), rows, issue)
      ensures !old(Active(Snapshot(), issue)) ==> deleted == old(deleted) && rows == old(rows)
      ensures old(Consistent(Snapshot())) ==>
                forall id :: id in rows && rows[id].issue == issue ==> !rows[id].status.Live()
    {
      ghost var before := Snapshot();
      if Active(Snapshot(), issue) {
        deleted := deleted[issue := true];
        CancelPendingOutboxForIssue(issue);
        CancellationIsSoftDelete(before, rows, issue);
      }
    }

    method RestoreIssue(issue: int)
      modifies this`deleted
      ensures Snapshot() == Restore(old(Snapshot()), issue)
      ensures issue in old(deleted) ==> deleted == old(deleted)[issue := false]
    {
      if issue in deleted && deleted[issue] {
        deleted := deleted[issue := false];
      }
    }

    /** Any number of deletions and restorations, and any time. */
    method OtherRequests()
      modifies this
      ensures Interfered(old(Snapshot()), old(others), Snapshot(), others)
    {
      var elapsed: nat, n: nat := *, *;
      now := now + elapsed;
      assert Interfered(old(Snapshot()), old(others), Snapshot(), others);
      for i := 0 to n
        invariant Interfered(old(Snapshot()), old(others), Snapshot(), others)
      {
        var issue: int, delete: bool := *, *;
        ghost var before, x := Snapshot(), others;
        if delete {
          DeletionIsInterference(before, x, issue);
          others := Deleting(before, x, issue);
          DeleteIssue(issue);
        } else {
          RestorationIsInterference(before, x, issue);
          others := Restoring(before, x, issue);
          RestoreIssue(issue);
        }
        InterferenceComposes(old(Snapshot()), old(others), before, x, Snapshot(), others);
      }
    }
  }

  function Deleting(t: Table, x: Others, issue: int): Others {
    if Active(t, issue) then x.(deletions := x.deletions + multiset{issue}) else x
  }

  function Restoring(t: Table, x: Others, issue: int): Others {
    if issue in t.deleted && t.deleted[issue] then x.(restorations := x.restorations + multiset{issue}) else x
  }

  function CancelledIf(r: Row, issue: int): Row {
    if r.issue == issue && r.status.Live() then r.(status := Cancelled) else r
  }

  ghost predicate Cancels(before: map<int, Row>, after: map<int, Row>, issue: int) {
    after.Keys == before.Keys && forall id :: id in before ==> after[id] == CancelledIf(before[id], issue)
  }

  lemma CancellationIsSoftDelete(t: Table, rows: map<int, Row>, issue: int)
    requires Active(t, issue) && Cancels(t.rows, rows, issue)
    ensures rows == SoftDelete(t, issue).rows
  {
    var all := SoftDelete(t, issue).rows;
    forall id | id in rows ensures id in all && rows[id] == all[id] {
    }
    assert rows.Keys == all.Keys;
    assert rows == all;
  }

  lemma DeletionIsInterference(t: Table, x: Others, issue: int)
    ensures Interfered(t, x, SoftDelete(t, issue), Deleting(t, x, issue))
  {
    var d := SoftDelete(t, issue);
    if Consistent(t) {
      forall id | id in t.rows ensures d.rows[id].issue in d.deleted {
        assert t.rows[id].issue in t.deleted;
      }
    }
  }

  lemma RestorationIsInterference(t: Table, x: Others, issue: int)
    ensures Interfered(t, x, Restore(t, issue), Restoring(t, x, issue))
  {
    var r := Restore(t, issue);
    if Consistent(t) {
      forall id | id in t.rows ensures r.rows[id].issue in r.deleted {
        assert t.rows[id].issue in t.deleted;
      }
    }
  }

  lemma InterferenceComposes(a: Table, x: Others, b: Table, y: Others, c: Table, z: Others)
    requires Interfered(a, x, b, y) && Interfered(b, y, c, z)
    ensures Interfered(a, x, c, z)
  {
  }

  // ---------- the tasks in hand ----------

  /** held maps the claimed rows not yet processed to their tasks: each is as claimed, or cancelled since. */
  ghost predicate InHand(t: Table, held: map<int, Row>) {
    forall id :: id in held ==>
      && held[id].status == Sending
      && id in t.rows && (t.rows[id] == held[id] || t.rows[id] == held[id].(status := Cancelled))
  }

  /** The load with every task in hand still at its full weight, whether cancelled meanwhile or not. */
  ghost function Budget(t: Table, held: map<int, Row>): nat {
    Load(t.rows + held)
  }

  lemma InterferenceCostsNothing(a: Table, x: Others, b: Table, y: Others, held: map<int, Row>)
    requires Interfered(a, x, b, y) && InHand(a, held)
    ensures InHand(b, held) && Budget(b, held) <= Budget(a, held)
  {
    var x, y := a.rows + held, b.rows + held;
    assert x.Keys == y.Keys;
    LoadPointwise(x, y);
  }

  /** Letting go of a task whose row now weighs r: the budget changes by that much. */
  lemma LetGo(t: Table, held: map<int, Row>, id: int, r: Row)
    requires InHand(t, held) && id in held
    ensures Load(t.rows[id := r] + (held - {id})) == Budget(t, held) - Weight(held[id]) + Weight(r)
  {
    LoadSet(t.rows + held, id, r);
    assert (t.rows + held)[id := r] == t.rows[id := r] + (held - {id});
  }

  /** Tasks in hand weigh at least what their rows weigh. */
  lemma BudgetCoversLoad(t: Table, held: map<int, Row>)
    requires InHand(t, held)
    ensures Load(t.rows) <= Budget(t, held)
  {
    assert forall id :: id in held ==> id in t.rows;
    assert t.rows.Keys == (t.rows + held).Keys;
    LoadPointwise(t.rows + held, t.rows);
  }

  ghost predicate Distinct(tasks: seq<Task>) {
    forall i, j :: 0 <= i < j < |tasks| ==> tasks[i].id != tasks[j].id
  }

  /** The tasks of a batch from position i on. */
  ghost function HeldFrom(tasks: seq<Task>, i: nat): map<int, Row>
    requires Distinct(tasks)
    decreases |tasks| - i
  {
    if i >= |tasks| then map[] else HeldFrom(tasks, i + 1)[tasks[i].id := tasks[i].row]
  }

  lemma {:induction false} HeldIds(tasks: seq<Task>, i: nat)
    requires Distinct(tasks)
    ensures forall id :: id in HeldFrom(tasks, i) ==>
              exists j :: i <= j < |tasks| && tasks[j].id == id && tasks[j].row == HeldFrom(tasks, i)[id]
    decreases |tasks| - i
  {
    if i < |tasks| {
      HeldIds(tasks, i + 1);
    }
  }

  lemma HeldNext(tasks: seq<Task>, i: nat)
    requires Distinct(tasks) && i < |tasks|
    ensures tasks[i].id in HeldFrom(tasks, i) && HeldFrom(tasks, i)[tasks[i].id] == tasks[i].row
    ensures HeldFrom(tasks, i) - {tasks[i].id} == HeldFrom(tasks, i + 1)
  {
    HeldIds(tasks, i + 1);
  }

  lemma BatchInHand(t: Table, tasks: seq<Task>)
    requires Distinct(tasks)
    requires forall i :: 0 <= i < |tasks| ==>
               tasks[i].id in t.rows && tasks[i].row == t.rows[tasks[i].id] && tasks[i].row.status == Sending
    ensures InHand(t, HeldFrom(tasks, 0)) && Budget(t, HeldFrom(tasks, 0)) == Load(t.rows)
  {
    HeldIds(tasks, 0);
    assert t.rows + HeldFrom(tasks, 0) == t.rows;
  }

  // ---------- what a call of the worker does to the rows ----------

  /** Every row but this one is left alone, and nothing is added but perhaps one new row. */
  ghost predicate Elsewhere(a: Table, x: Others, b: Table, y: Others, own: int) {
    && a.now <= b.now && FlagsFollow(a, x, b, y) && a.nextId <= b.nextId <= a.nextId + 1
    && b.rows.Keys == a.rows.Keys + (if b.nextId == a.nextId then {} else {a.nextId})
    && forall id :: id in a.rows && id != own ==> LeftAlone(a.rows[id], x, b.rows[id], y)
  }

  /** The row is cancelled only if it already was, or others have deleted its issue meanwhile; and once cancelled it
      stays as it is. */
  ghost predicate CancelledByOthers(a: Table, x: Others, b: Table, y: Others, id: int) {
    && id in a.rows && id in b.rows && b.rows[id].issue == a.rows[id].issue
    && (b.rows[id].status == Cancelled ==> a.rows[id].status == Cancelled || DeletedSince(x, y, a.rows[id].issue))
    && (a.rows[id].status == Cancelled ==> b.rows[id] == a.rows[id])
  }

  /** What the row of a processed task looks like after a send with that result. */
  ghost predicate Settled(task: Task, ok: bool, t: Table)
    requires task.id in t.rows
  {
    var r := t.rows[task.id];
    || r == task.row.(status := Cancelled)
    || (ok && r == task.row.(status := Sent))
    || (!ok && LastAttempt(task.row) && r == task.row.(status := Failed))
    || (!ok && !LastAttempt(task.row)
        && r == task.row.(status := Pending, retryCount := task.row.retryCount + 1,
                          nextRetryAt := t.now + Backoff(task.row) * SECOND))
  }

  /** The whole of it: the task's row is settled, and cancelled only by others; the other rows are left alone. */
  ghost predicate Settles(a: Table, x: Others, b: Table, y: Others, task: Task, ok: bool) {
    Elsewhere(a, x, b, y, task.id) && CancelledByOthers(a, x, b, y, task.id) && Settled(task, ok, b)
  }

  lemma InterferenceIsElsewhere(a: Table, x: Others, b: Table, y: Others, id: int)
    requires Interfered(a, x, b, y) && id in a.rows
    ensures Elsewhere(a, x, b, y, id) && CancelledByOthers(a, x, b, y, id)
  {
  }

  lemma ElsewhereComposes(a: Table, x: Others, b: Table, y: Others, c: Table, z: Others, id: int)
    requires Elsewhere(a, x, b, y, id) && Elsewhere(b, y, c, z, id) && (a.nextId == b.nextId || b.nextId == c.nextId)
    requires CancelledByOthers(a, x, b, y, id) && CancelledByOthers(b, y, c, z, id)
    ensures Elsewhere(a, x, c, z, id) && CancelledByOthers(a, x, c, z, id)
  {
  }

  /** Others act first, and then the task is settled. */
  lemma SettlesAfter(a: Table, x: Others, b: Table, y: Others, c: Table, z: Others, task: Task, ok: bool)
    requires Interfered(a, x, b, y) && task.id in a.rows && Settles(b, y, c, z, task, ok)
    ensures Settles(a, x, c, z, task, ok)
  {
    InterferenceIsElsewhere(a, x, b, y, task.id);
    ElsewhereComposes(a, x, b, y, c, z, task.id);
  }

  // ---------- what becomes of the rows ----------

  /** An attempt on the row with this result has been logged in between. */
  ghost predicate Tried(before: seq<Attempt>, after: seq<Attempt>, id: int, ok: bool) {
    exists k :: |before| <= k < |after| && after[k] == Attempt(id, ok)
  }

  /** A row changes only while it is live, and in its status, count and due time: SENT after a good attempt, FAILED or
      PENDING again after a bad one, CANCELLED after a deletion by others, or SENDING because it is claimed. */
  ghost predicate RowFate(id: int, r: Row, x: Others, before: seq<Attempt>, next: Row, y: Others, after: seq<Attempt>) {
    || next == r
    || (&& r.status.Live() && r.retryCount <= next.retryCount
        && next == r.(status := next.status, retryCount := next.retryCount, nextRetryAt := next.nextRetryAt)
        && (next.retryCount > r.retryCount ==> Tried(before, after, id, false))
        && match next.status
           case Sent => Tried(before, after, id, true)
           case Failed => Tried(before, after, id, false)
           case Cancelled => DeletedSince(x, y, r.issue)
           case Pending => next.retryCount > r.retryCount
           case Sending => true)
  }

  /** A row added meanwhile is a fallback, and is settled for the same reasons. */
  ghost predicate NewFate(id: int, x: Others, before: seq<Attempt>, next: Row, y: Others, after: seq<Attempt>) {
    && next.channel == LanWebhook
    && (next.status == Sent ==> Tried(before, after, id, true))
    && (next.status == Failed ==> Tried(before, after, id, false))
    && (next.status == Cancelled ==> DeletedSince(x, y, next.issue))
  }

  ghost predicate Fates(a: Table, x: Others, before: seq<Attempt>, b: Table, y: Others, after: seq<Attempt>) {
    && a.now <= b.now && a.nextId <= b.nextId && FlagsFollow(a, x, b, y) && before <= after
    && a.rows.Keys <= b.rows.Keys
    && (forall id :: id in a.rows ==> RowFate(id, a.rows[id], x, before, b.rows[id], y, after))
    && (forall id :: id in b.rows && id !in a.rows ==> NewFate(id, x, before, b.rows[id], y, after))
  }

  lemma {:induction false} RowFateComposes(id: int, r: Row, x: Others, l: seq<Attempt>, s: Row, y: Others,
                                           m: seq<Attempt>, t: Row, z: Others, n: seq<Attempt>)
    requires l <= m <= n && Fewer(x, y) && Fewer(y, z)
    requires RowFate(id, r, x, l, s, y, m) && RowFate(id, s, y, m, t, z, n)
    ensures RowFate(id, r, x, l, t, z, n)
  {
    TriedLonger(l, m, n, id, true);
    TriedLonger(l, m, n, id, false);
  }

  lemma {:induction false} TriedLonger(l: seq<Attempt>, m: seq<Attempt>, n: seq<Attempt>, id: int, ok: bool)
    requires l <= m <= n
    ensures Tried(l, m, id, ok) || Tried(m, n, id, ok) ==> Tried(l, n, id, ok)
  {
    if k :| |l| <= k < |m| && m[k] == Attempt(id, ok) { assert n[k] == Attempt(id, ok); }
  }

  lemma {:induction false} NewFateComposes(id: int, x: Others, l: seq<Attempt>, s: Row, y: Others, m: seq<Attempt>,
                                           t: Row, z: Others, n: seq<Attempt>)
    requires l <= m <= n && Fewer(x, y) && Fewer(y, z)
    requires NewFate(id, x, l, s, y, m) && RowFate(id, s, y, m, t, z, n)
    ensures NewFate(id, x, l, t, z, n)
  {
    TriedLonger(l, m, n, id, true);
    TriedLonger(l, m, n, id, false);
  }

  lemma {:induction false} FatesCompose(a: Table, x: Others, l: seq<Attempt>, b: Table, y: Others, m: seq<Attempt>,
                                        c: Table, z: Others, n: seq<Attempt>)
    requires Fates(a, x, l, b, y, m) && Fates(b, y, m, c, z, n)
    ensures Fates(a, x, l, c, z, n)
  {
    forall id | id in a.rows ensures id in c.rows && RowFate(id, a.rows[id], x, l, c.rows[id], z, n) {
      RowFateComposes(id, a.rows[id], x, l, b.rows[id], y, m, c.rows[id], z, n);
    }
    forall id | id in c.rows && id !in a.rows ensures NewFate(id, x, l, c.rows[id], z, n) {
      if id in b.rows {
        NewFateComposes(id, x, l, b.rows[id], y, m, c.rows[id], z, n);
      } else {
        TriedLonger(l, m, n, id, true);
        TriedLonger(l, m, n, id, false);
      }
    }
  }

  lemma {:induction false} InterferenceFates(a: Table, x: Others, b: Table, y: Others, l: seq<Attempt>)
    requires Interfered(a, x, b, y)
    ensures Fates(a, x, l, b, y, l)
  {
  }

  lemma {:induction false} ClaimFates(t: Table, x: Others, ids: set<int>, l: seq<Attempt>)
    requires ids <= Due(t)
    ensures Fates(t, x, l, ClaimRows(t, ids), x, l)
  {
    assert forall id :: id in ids ==> Claimable(t, id);
  }

  lemma {:induction false} TaskFates(a: Table, x: Others, l: seq<Attempt>, b: Table, y: Others, task: Task, ok: bool)
    requires task.row.status == Sending && Settles(a, x, b, y, task, ok)
    requires a.rows[task.id] == task.row || a.rows[task.id] == task.row.(status := Cancelled)
    requires if ok then b.nextId == a.nextId else FellBack(task, a.nextId, b)
    ensures Fates(a, x, l, b, y, l + [Attempt(task.id, ok)])
  {
    var m := l + [Attempt(task.id, ok)];
    assert m[|l|] == Attempt(task.id, ok);
    assert Tried(l, m, task.id, ok);
  }

  /** Whatever is SENDING is one of the tasks in hand, or was SENDING before the batch and no part of it. */
  ghost predicate OnlyHeld(before: Table, batch: map<int, Row>, t: Table, held: map<int, Row>) {
    forall id :: id in t.rows && t.rows[id].status == Sending ==>
      id in held || (id in before.rows && id !in batch && t.rows[id] == before.rows[id])
  }

  /** Nothing is left claimed that was not so before. */
  ghost predicate NothingClaimed(a: Table, b: Table) {
    forall id :: id in b.rows && b.rows[id].status == Sending ==> id in a.rows && b.rows[id] == a.rows[id]
  }

  lemma OnlyHeldAfterOthers(before: Table, batch: map<int, Row>, a: Table, x: Others, b: Table, y: Others,
                            held: map<int, Row>)
    requires OnlyHeld(before, batch, a, held) && Interfered(a, x, b, y)
    ensures OnlyHeld(before, batch, b, held)
  {
  }

  lemma OnlyHeldAfterTask(before: Table, batch: map<int, Row>, a: Table, x: Others, b: Table, y: Others,
                          held: map<int, Row>, task: Task, ok: bool)
    requires OnlyHeld(before, batch, a, held) && Settles(a, x, b, y, task, ok)
    requires if ok then b.nextId == a.nextId else FellBack(task, a.nextId, b)
    ensures OnlyHeld(before, batch, b, held - {task.id})
  {
  }

  /** When nothing is due and nothing is left claimed, every row that was due has been tried or is cancelled. */
  lemma {:induction false} DueIsTried(a: Table, x: Others, l: seq<Attempt>, b: Table, y: Others, m: seq<Attempt>,
                                      id: int)
    requires Fates(a, x, l, b, y, m) && NothingClaimed(a, b) && Due(b) == {} && Consistent(b) && id in Due(a)
    ensures id in b.rows && (Tried(l, m, id, true) || Tried(l, m, id, false) || b.rows[id].status == Cancelled)
  {
    assert RowFate(id, a.rows[id], x, l, b.rows[id], y, m);
    assert Claimable(a, id) && id !in Due(b) && !Claimable(b, id);
  }

  class Worker {
    const store: Store
    var log: seq<Attempt>

    constructor (store: Store)
      ensures this.store == store && log == []
    {
      this.store := store;
      log := [];
    }

    /** The sender: an outcome the worker cannot foresee. */
    method Send(task: Task) returns (ok: bool)
      modifies this
      ensures log == old(log) + [Attempt(task.id, ok)]
    {
      ok := *;
      log := log + [Attempt(task.id, ok)];
    }

    method IssueDeleted(issue: int) returns (gone: bool)
      ensures gone == IssueGone(store.Snapshot(), issue)
    {
      gone := IssueGone(store.Snapshot(), issue);
    }

    /** One call to another system or to the store is over; others had their turn. */
    method Yield(ghost held: map<int, Row>)
      requires Consistent(store.Snapshot()) && InHand(store.Snapshot(), held)
      modifies store
      ensures Interfered(old(store.Snapshot()), old(store.others), store.Snapshot(), store.others)
      ensures Consistent(store.Snapshot()) && InHand(store.Snapshot(), held)
      ensures Budget(store.Snapshot(), held) <= old(Budget(store.Snapshot(), held))
    {
      ghost var before, x := store.Snapshot(), store.others;
      store.OtherRequests();
      InterferenceCostsNothing(before, x, store.Snapshot(), store.others, held);
    }

    /**
     Processing one task sends at most once and uses up at least one unit of the budget. Nothing is sent only if the
     issue is gone. The row ends as the one send says, unless its issue is deleted meanwhile or was before; every
     other row is left alone; a fallback row is created exactly when the last attempt of a WXPUSHER row bounces and
     the issue is still there.
     */
    method ProcessTask(task: Task, ghost held: map<int, Row>)
      requires Consistent(store.Snapshot()) && InHand(store.Snapshot(), held)
      requires task.id in held && held[task.id] == task.row
      modifies this, store
      ensures Consistent(store.Snapshot()) && InHand(store.Snapshot(), held - {task.id})
      ensures Budget(store.Snapshot(), held - {task.id}) < old(Budget(store.Snapshot(), held))
      ensures if old(IssueGone(store.Snapshot(), task.row.issue)) then
                && log == old(log) && store.Snapshot() == old(store.Snapshot()) && store.others == old(store.others)
                && task.id in store.rows && store.rows[task.id].status == Cancelled
              else
                || (log == old(log) + [Attempt(task.id, true)] && store.nextId == old(store.nextId)
                    && Settles(old(store.Snapshot()), old(store.others), store.Snapshot(), store.others, task, true))
                || (log == old(log) + [Attempt(task.id, false)] && FellBack(task, old(store.nextId), store.Snapshot())
                    && Settles(old(store.Snapshot()), old(store.others), store.Snapshot(), store.others, task, false))
    {
      var gone := IssueDeleted(task.row.issue);
      if task.row.status != Sending || gone {
        LetGoOfSettled(store.Snapshot(), held, task.id);
        return;
      }
      Yield(held);
      ghost var b, y := store.Snapshot(), store.others;
      var ok := Send(task);
      if ok {
        Complete(task, held);
      } else if LastAttempt(task.row) {
        GiveUp(task, held);
      } else {
        Reschedule(task, held);
      }
      SettlesAfter(old(store.Snapshot()), old(store.others), b, y, store.Snapshot(), store.others, task, ok);
    }

    method Complete(task: Task, ghost held: map<int, Row>)
      requires Consistent(store.Snapshot()) && InHand(store.Snapshot(), held)
      requires task.id in held && held[task.id] == task.row
      modifies store
      ensures Consistent(store.Snapshot()) && InHand(store.Snapshot(), held - {task.id})
      ensures Budget(store.Snapshot(), held - {task.id}) < old(Budget(store.Snapshot(), held))
      ensures Settles(old(store.Snapshot()), old(store.others), store.Snapshot(), store.others, task, true)
      ensures store.nextId == old(store.nextId)
    {
      Yield(held);
      ghost var b, y := store.Snapshot(), store.others;
      SentIsLetGo(b, y, held, task.id);
      store.MarkOutboxSent(task.id);
      SettlesAfter(old(store.Snapshot()), old(store.others), b, y, store.Snapshot(), store.others, task, true);
    }

    /** The branch of processTask after a failed send that was not the last attempt. */
    method Reschedule(task: Task, ghost held: map<int, Row>)
      requires Consistent(store.Snapshot()) && InHand(store.Snapshot(), held)
      requires task.id in held && held[task.id] == task.row && !LastAttempt(task.row)
      modifies store
      ensures Consistent(store.Snapshot()) && InHand(store.Snapshot(), held - {task.id})
      ensures Budget(store.Snapshot(), held - {task.id}) < old(Budget(store.Snapshot(), held))
      ensures Settles(old(store.Snapshot()), old(store.others), store.Snapshot(), store.others, task, false)
      ensures store.nextId == old(store.nextId)
    {
      Yield(held);
      ghost var b, y := store.Snapshot(), store.others;
      var gone := IssueDeleted(task.row.issue);
      if gone {
        LetGoOfSettled(b, held, task.id);
      } else {
        Yield(held);
        ghost var c, z := store.Snapshot(), store.others;
        RetryIsLetGo(c, z, held, task.id);
        store.RetryOutboxTask(task.id, Backoff(task.row));
        SettlesAfter(b, y, c, z, store.Snapshot(), store.others, task, false);
      }
      SettlesAfter(old(store.Snapshot()), old(store.others), b, y, store.Snapshot(), store.others, task, false);
    }

    /** The branch of processTask after the last attempt. */
    method GiveUp(task: Task, ghost held: map<int, Row>)
      requires Consistent(store.Snapshot()) && InHand(store.Snapshot(), held)
      requires task.id in held && held[task.id] == task.row && LastAttempt(task.row)
      modifies store
      ensures Consistent(store.Snapshot()) && InHand(store.Snapshot(), held - {task.id})
      ensures Budget(store.Snapshot(), held - {task.id}) < old(Budget(store.Snapshot(), held))
      ensures Settles(old(store.Snapshot()), old(store.others), store.Snapshot(), store.others, task, false)
      ensures FellBack(task, old(store.nextId), store.Snapshot())
    {
      Yield(held);
      ghost var b, y := store.Snapshot(), store.others;
      FailedIsLetGo(b, y, held, task.id);
      store.MarkOutboxFailed(task.id);
      ghost var c := store.Snapshot();
      if task.row.channel == WxPusher {
        FallBack(task, held - {task.id});
        FallenBack(b, y, c, store.Snapshot(), store.others, task);
      }
      SettlesAfter(old(store.Snapshot()), old(store.others), b, y, store.Snapshot(), store.others, task, false);
    }

    method FallBack(task: Task, ghost rest: map<int, Row>)
      requires Consistent(store.Snapshot()) && InHand(store.Snapshot(), rest)
      requires task.row.channel == WxPusher && LastAttempt(task.row)
      requires task.id in store.rows && !store.rows[task.id].status.Live()
      modifies store
      ensures Consistent(store.Snapshot()) && InHand(store.Snapshot(), rest)
      ensures Budget(store.Snapshot(), rest) <= old(Budget(store.Snapshot(), rest)) + DEFAULT_MAX_RETRIES
      ensures Elsewhere(old(store.Snapshot()), old(store.others), store.Snapshot(), store.others, task.id)
      ensures task.id in store.rows && store.rows[task.id] == old(store.rows[task.id])
      ensures FellBack(task, old(store.nextId), store.Snapshot())
    {
      ghost var a, x := store.Snapshot(), store.others;
      Yield(rest);
      ghost var b, y := store.Snapshot(), store.others;
      InterferenceIsElsewhere(a, x, b, y, task.id);
      var gone := IssueDeleted(task.row.issue);
      if !gone {
        Yield(rest);
        ghost var c, z := store.Snapshot(), store.others;
        InterferenceIsElsewhere(b, y, c, z, task.id);
        ElsewhereComposes(a, x, b, y, c, z, task.id);
        NewRowCost(c, rest, task.row);
        NewRowIsElsewhere(c, z, task);
        var _ := store.CreateOutboxEntry(task.row.issue, task.row.event, LanWebhook, task.row.payload);
        ElsewhereComposes(a, x, c, z, store.Snapshot(), z, task.id);
      }
    }

    /**
     Claims and processes until nothing is due, or until the context is done. Every send is paid for by
     one unit of load, so the loop ends; when it was not cut short nothing is due any more, nothing is left claimed,
     and every row that was due has been tried or is cancelled; if anything was due the load is strictly lower. A row
     that is SENT, FAILED or PENDING again has been tried with that result, and one that is CANCELLED is of an issue
     that others have deleted meanwhile.
     */
    method ProcessBatch(cancellable: bool) returns (done: bool)
      requires Consistent(store.Snapshot())
      modifies this, store
      ensures Consistent(store.Snapshot())
      ensures |log| + Load(store.rows) <= |old(log)| + old(Load(store.rows))
      ensures Fates(old(store.Snapshot()), old(store.others), old(log), store.Snapshot(), store.others, log)
      ensures done ==> Due(store.Snapshot()) == {} && NothingClaimed(old(store.Snapshot()), store.Snapshot())
      ensures done ==> forall id :: id in Due(old(store.Snapshot())) ==>
                id in store.rows
                && (|| Tried(old(log), log, id, true) || Tried(old(log), log, id, false)
                    || store.rows[id].status == Cancelled)
      ensures !cancellable ==> done
      ensures done && Due(old(store.Snapshot())) != {} ==> Load(store.rows) < old(Load(store.rows))
      ensures Due(old(store.Snapshot())) == {} ==> store.Snapshot() == old(store.Snapshot()) && log == old(log)
    {
      done := false;
      var more := true;
      ghost var untouched := true;
      while more
        invariant Consistent(store.Snapshot())
        invariant |log| + Load(store.rows) <= |old(log)| + old(Load(store.rows))
        invariant Fates(old(store.Snapshot()), old(store.others), old(log), store.Snapshot(), store.others, log)
        invariant NothingClaimed(old(store.Snapshot()), store.Snapshot())
        invariant untouched ==> store.Snapshot() == old(store.Snapshot()) && log == old(log)
        invariant !untouched ==> Due(old(store.Snapshot())) != {} && Load(store.rows) < old(Load(store.rows))
        invariant done == !more && (done ==> Due(store.Snapshot()) == {})
        decreases more, Load(store.rows)
      {
        var stop: bool := *;
        if cancellable && stop {
          return;
        }
        ghost var idle := Due(store.Snapshot()) == {};
        ghost var b, y, m := store.Snapshot(), store.others, log;
        var finished: bool;
        more, finished := ProcessRound(cancellable);
        FatesCompose(old(store.Snapshot()), old(store.others), old(log), b, y, m, store.Snapshot(), store.others, log);
        if !finished {
          return;
        }
        done := !more;
        untouched := untouched && idle;
      }
      AllDueAreTried(old(store.Snapshot()), old(store.others), old(log), store.Snapshot(), store.others, log);
    }

    /** One turn of the loop: claim a batch and process it; more says that the batch was not empty. */
    method ProcessRound(cancellable: bool) returns (more: bool, finished: bool)
      requires Consistent(store.Snapshot())
      modifies this, store
      ensures Consistent(store.Snapshot())
      ensures |log| + Load(store.rows) <= |old(log)| + old(Load(store.rows))
      ensures Fates(old(store.Snapshot()), old(store.others), old(log), store.Snapshot(), store.others, log)
      ensures finished ==> NothingClaimed(old(store.Snapshot()), store.Snapshot())
      ensures finished && more ==> Load(store.rows) < old(Load(store.rows))
      ensures !cancellable ==> finished
      ensures more <==> Due(old(store.Snapshot())) != {}
      ensures !more ==> finished && store.Snapshot() == old(store.Snapshot()) && log == old(log)
    {
      ghost var t := store.Snapshot();
      ghost var chosen := FirstDue(t, BATCH_LIMIT);
      FirstDueIsPrefix(t, BATCH_LIMIT);
      ClaimingWeighsNothing(t, chosen);
      var tasks := store.ClaimOutboxTasks(BATCH_LIMIT);
      if |tasks| == 0 {
        EmptySize(chosen);
        assert ClaimRows(t, chosen).rows == t.rows;
        return false, true;
      }
      more := true;
      assert tasks[0].id in chosen;
      ghost var b, y := store.Snapshot(), store.others;
      ClaimFates(t, y, chosen, log);
      TasksAreChosen(tasks, chosen);
      finished := ProcessTasks(tasks, cancellable);
      FatesCompose(t, y, old(log), b, y, old(log), store.Snapshot(), store.others, log);
      if finished { ClaimedAreProcessed(t, chosen, tasks, store.Snapshot()); }
    }

    method ProcessTasks(tasks: seq<Task>, cancellable: bool) returns (finished: bool)
      requires Consistent(store.Snapshot()) && |tasks| > 0
      requires forall i :: 0 <= i < |tasks| ==>
                 tasks[i].id in store.rows && tasks[i].row == store.rows[tasks[i].id] && tasks[i].row.status == Sending
      requires Distinct(tasks)
      modifies this, store
      ensures Consistent(store.Snapshot())
      ensures |log| + Load(store.rows) <= |old(log)| + old(Load(store.rows))
      ensures Fates(old(store.Snapshot()), old(store.others), old(log), store.Snapshot(), store.others, log)
      ensures finished ==> Load(store.rows) < old(Load(store.rows))
      ensures finished ==> OnlyHeld(old(store.Snapshot()), HeldFrom(tasks, 0), store.Snapshot(), map[])
      ensures !cancellable ==> finished
    {
      ghost var a, x, l, batch := store.Snapshot(), store.others, log, HeldFrom(tasks, 0);
      BatchInHand(a, tasks);
      for i := 0 to |tasks|
        invariant Consistent(store.Snapshot()) && InHand(store.Snapshot(), HeldFrom(tasks, i))
        invariant |log| + Budget(store.Snapshot(), HeldFrom(tasks, i)) <= |l| + Load(a.rows)
        invariant i > 0 ==> Budget(store.Snapshot(), HeldFrom(tasks, i)) < Load(a.rows)
        invariant Fates(a, x, l, store.Snapshot(), store.others, log)
        invariant OnlyHeld(a, batch, store.Snapshot(), HeldFrom(tasks, i))
      {
        var stop: bool := *;
        if cancellable && stop {
          BudgetCoversLoad(store.Snapshot(), HeldFrom(tasks, i));
          return false;
        }
        HeldNext(tasks, i);
        ghost var b, y, m := store.Snapshot(), store.others, log;
        TakeTurn(tasks[i], HeldFrom(tasks, i), a, batch);
        FatesCompose(a, x, l, b, y, m, store.Snapshot(), store.others, log);
      }
      BudgetCoversLoad(store.Snapshot(), HeldFrom(tasks, |tasks|));
      finished := true;
    }

    /** Others act, and the next task is processed. */
    method TakeTurn(task: Task, ghost held: map<int, Row>, ghost before: Table, ghost batch: map<int, Row>)
      requires Consistent(store.Snapshot()) && InHand(store.Snapshot(), held)
      requires task.id in held && held[task.id] == task.row && OnlyHeld(before, batch, store.Snapshot(), held)
      modifies this, store
      ensures Consistent(store.Snapshot()) && InHand(store.Snapshot(), held - {task.id})
      ensures |log| <= |old(log)| + 1
      ensures Budget(store.Snapshot(), held - {task.id}) < old(Budget(store.Snapshot(), held))
      ensures Fates(old(store.Snapshot()), old(store.others), old(log), store.Snapshot(), store.others, log)
      ensures OnlyHeld(before, batch, store.Snapshot(), held - {task.id})
    {
      ghost var a, x, l := store.Snapshot(), store.others, log;
      Yield(held);
      ghost var b, y := store.Snapshot(), store.others;
      InterferenceFates(a, x, b, y, l);
      OnlyHeldAfterOthers(before, batch, a, x, b, y, held);
      ProcessTask(task, held);
      ghost var c, z := store.Snapshot(), store.others;
      if |log| > |l| {
        ghost var ok := log[|l|].ok;
        TaskFates(b, y, l, c, z, task, ok);
        OnlyHeldAfterTask(before, batch, b, y, c, z, held, task, ok);
        FatesCompose(a, x, l, b, y, l, c, z, log);
      }
    }

    /**
     The ticker of Start, without cancellation: batches every 30 s bring every row to SENT, FAILED or
     CANCELLED, with no more sends than the load at the start, and each for its reason.
     */
    method RunUntilSettled()
      requires Consistent(store.Snapshot())
      modifies this, store
      ensures Consistent(store.Snapshot())
      ensures forall id :: id in store.rows ==> !store.rows[id].status.Live()
      ensures |log| <= |old(log)| + old(Load(store.rows))
      ensures Fates(old(store.Snapshot()), old(store.others), old(log), store.Snapshot(), store.others, log)
    {
      ghost var a, x, l := store.Snapshot(), store.others, log;
      ZeroLoadIffSettled(store.rows);
      ghost var horizon := Horizon(store.rows);
      while exists id :: id in store.rows && store.rows[id].status.Live()
        invariant Consistent(store.Snapshot())
        invariant |log| + Load(store.rows) <= |l| + Load(a.rows)
        invariant Fates(a, x, l, store.Snapshot(), store.others, log)
        invariant Load(store.rows) == 0 <==> forall id :: id in store.rows ==> !store.rows[id].status.Live()
        invariant forall id :: id in store.rows ==> store.rows[id].nextRetryAt <= horizon
        decreases Load(store.rows), horizon - store.now
      {
        ghost var before := Load(store.rows);
        Tick(a, x, l);
        if Load(store.rows) < before {
          horizon := Horizon(store.rows);
        }
        ZeroLoadIffSettled(store.rows);
      }
    }

    /** Thirty seconds pass, and a batch is processed. */
    method Tick(ghost a: Table, ghost x: Others, ghost l: seq<Attempt>)
      requires Consistent(store.Snapshot()) && Fates(a, x, l, store.Snapshot(), store.others, log)
      modifies this, store
      ensures Consistent(store.Snapshot()) && Fates(a, x, l, store.Snapshot(), store.others, log)
      ensures |log| + Load(store.rows) <= |old(log)| + old(Load(store.rows))
      ensures || Load(store.rows) < old(Load(store.rows))
              || (store.rows == old(store.rows) && store.now == old(store.now) + 30 * SECOND
                  && forall id :: id in store.rows && store.rows[id].status.Live() ==>
                       store.now <= store.rows[id].nextRetryAt)
    {
      store.now := store.now + 30 * SECOND;
      ghost var b, y, m := store.Snapshot(), store.others, log;
      if Due(b) == {} {
        NotYetDue(b);
      }
      var done := ProcessBatch(false);
      FatesCompose(a, x, l, b, y, m, store.Snapshot(), store.others, log);
    }
  }

  /** next is the sequence value before the task was processed. */
  ghost predicate FellBack(task: Task, next: int, t: Table) {
    if LastAttempt(task.row) && task.row.channel == WxPusher && !IssueGone(t, task.row.issue) then
      && t.nextId == next + 1 && next in t.rows
      && t.rows[next] == Row(task.row.issue, task.row.event, LanWebhook, task.row.payload, Pending, 0,
                             DEFAULT_MAX_RETRIES, t.now)
    else t.nextId == next
  }

  lemma LetGoOfSettled(t: Table, held: map<int, Row>, id: int)
    requires Consistent(t) && InHand(t, held) && id in held && IssueGone(t, held[id].issue)
    ensures InHand(t, held - {id}) && Budget(t, held - {id}) < Budget(t, held)
    ensures t.rows[id] == held[id].(status := Cancelled)
  {
    assert t.rows[id].issue in t.deleted;
    LetGo(t, held, id, t.rows[id]);
    assert t.rows[id := t.rows[id]] == t.rows;
  }

  lemma SentIsLetGo(t: Table, x: Others, held: map<int, Row>, id: int)
    requires Consistent(t) && InHand(t, held) && id in held
    ensures var u := MarkSent(t, id);
            && Consistent(u) && InHand(u, held - {id}) && Budget(u, held - {id}) < Budget(t, held)
            && Settles(t, x, u, x, Task(id, held[id]), true)
  {
    var u := MarkSent(t, id);
    LetGo(t, held, id, u.rows[id]);
    assert u.rows == t.rows[id := u.rows[id]];
  }

  lemma FailedIsLetGo(t: Table, x: Others, held: map<int, Row>, id: int)
    requires Consistent(t) && InHand(t, held) && id in held && LastAttempt(held[id])
    ensures var u := MarkFailed(t, id);
            && Consistent(u) && InHand(u, held - {id}) && Budget(u, held - {id}) == Budget(t, held) - Weight(held[id])
            && !u.rows[id].status.Live() && Settles(t, x, u, x, Task(id, held[id]), false)
  {
    var u := MarkFailed(t, id);
    LetGo(t, held, id, u.rows[id]);
    assert u.rows == t.rows[id := u.rows[id]];
  }

  lemma RetryIsLetGo(t: Table, x: Others, held: map<int, Row>, id: int)
    requires Consistent(t) && InHand(t, held) && id in held && !LastAttempt(held[id])
    ensures var u := Retry(t, id, Backoff(held[id]));
            && Consistent(u) && InHand(u, held - {id}) && Budget(u, held - {id}) < Budget(t, held)
            && Settles(t, x, u, x, Task(id, held[id]), false)
  {
    var u := Retry(t, id, Backoff(held[id]));
    LetGo(t, held, id, u.rows[id]);
    assert u.rows == t.rows[id := u.rows[id]];
  }

  lemma NewRowIsElsewhere(t: Table, x: Others, task: Task)
    requires Consistent(t) && task.id in t.rows && LastAttempt(task.row) && task.row.channel == WxPusher
    ensures var u := CreateEntry(t, task.row.issue, task.row.event, LanWebhook, task.row.payload).0;
            && Elsewhere(t, x, u, x, task.id) && CancelledByOthers(t, x, u, x, task.id)
            && u.rows[task.id] == t.rows[task.id] && FellBack(task, t.nextId, u)
  {
    assert task.id < t.nextId;
  }

  /** After the last attempt the fallback leaves the row alone. */
  lemma FallenBack(b: Table, y: Others, c: Table, d: Table, z: Others, task: Task)
    requires Settles(b, y, c, y, task, false) && LastAttempt(task.row) && b.nextId == c.nextId
    requires Elsewhere(c, y, d, z, task.id) && task.id in d.rows && d.rows[task.id] == c.rows[task.id]
    ensures Settles(b, y, d, z, task, false)
  {
    ElsewhereComposes(b, y, c, y, d, z, task.id);
  }

  /** A fallback row weighs DEFAULT_MAX_RETRIES, which the failed WXPUSHER row had set aside. */
  lemma NewRowCost(t: Table, held: map<int, Row>, row: Row)
    requires Consistent(t) && InHand(t, held)
    ensures var u := CreateEntry(t, row.issue, row.event, LanWebhook, row.payload).0;
            Consistent(u) && InHand(u, held) && Budget(u, held) <= Budget(t, held) + DEFAULT_MAX_RETRIES
  {
    var u := CreateEntry(t, row.issue, row.event, LanWebhook, row.payload).0;
    if Active(t, row.issue) {
      assert t.nextId !in held;
      LoadSet(t.rows + held, t.nextId, u.rows[t.nextId]);
      assert u.rows + held == (t.rows + held)[t.nextId := u.rows[t.nextId]];
      forall id | id in u.rows ensures id < u.nextId && u.rows[id].issue in u.deleted {
        assert id != t.nextId ==> id in t.rows;
      }
    }
  }

  lemma ClaimingWeighsNothing(t: Table, ids: set<int>)
    requires Consistent(t) && ids <= Due(t)
    ensures Consistent(ClaimRows(t, ids)) && Load(ClaimRows(t, ids).rows) == Load(t.rows)
  {
    var u := ClaimRows(t, ids);
    assert forall id :: id in ids ==> Claimable(t, id);
    LoadPointwise(t.rows, u.rows);
    LoadPointwise(u.rows, t.rows);
  }

  lemma EmptySize(s: set<int>)
    requires |s| == 0
    ensures s == {}
  {
    assert forall x :: x !in s;
  }

  lemma {:induction false} AllDueAreTried(a: Table, x: Others, l: seq<Attempt>, b: Table, y: Others, m: seq<Attempt>)
    requires Fates(a, x, l, b, y, m) && NothingClaimed(a, b) && Due(b) == {} && Consistent(b)
    ensures forall id :: id in Due(a) ==>
              id in b.rows && (Tried(l, m, id, true) || Tried(l, m, id, false) || b.rows[id].status == Cancelled)
  {
    forall id | id in Due(a)
      ensures id in b.rows && (Tried(l, m, id, true) || Tried(l, m, id, false) || b.rows[id].status == Cancelled)
    {
      DueIsTried(a, x, l, b, y, m, id);
    }
  }

  /** The batch holds each chosen row. */
  lemma {:induction false} TasksAreChosen(tasks: seq<Task>, chosen: set<int>)
    requires Distinct(tasks) && |tasks| == |chosen| && forall i :: 0 <= i < |tasks| ==> tasks[i].id in chosen
    ensures HeldFrom(tasks, 0).Keys == chosen
  {
    HeldKeys(tasks, 0);
    HeldIds(tasks, 0);
    SameSize(HeldFrom(tasks, 0).Keys, chosen);
  }

  lemma {:induction false} HeldKeys(tasks: seq<Task>, i: nat)
    requires Distinct(tasks) && i <= |tasks|
    ensures |HeldFrom(tasks, i).Keys| == |tasks| - i
    decreases |tasks| - i
  {
    if i < |tasks| {
      HeldKeys(tasks, i + 1);
      HeldIds(tasks, i + 1);
      assert HeldFrom(tasks, i).Keys == HeldFrom(tasks, i + 1).Keys + {tasks[i].id};
    }
  }

  lemma SameSize(a: set<int>, b: set<int>)
    requires a <= b && |a| == |b|
    ensures a == b
  {
    assert b == a + (b - a);
    EmptySize(b - a);
  }

  lemma {:induction false} ClaimedAreProcessed(t: Table, chosen: set<int>, tasks: seq<Task>, u: Table)
    requires Distinct(tasks) && HeldFrom(tasks, 0).Keys == chosen
    requires OnlyHeld(ClaimRows(t, chosen), HeldFrom(tasks, 0), u, map[])
    ensures NothingClaimed(t, u)
  {
  }

  /** With live rows but none due, some lease or backoff still lies ahead. */
  lemma NotYetDue(t: Table)
    requires Consistent(t) && Due(t) == {}
    ensures forall id :: id in t.rows && t.rows[id].status.Live() ==> t.now <= t.rows[id].nextRetryAt
  {
    forall id | id in t.rows && t.rows[id].status.Live()
      ensures t.now <= t.rows[id].nextRetryAt
    {
      assert id !in Due(t);
    }
  }

  ghost function Horizon(rows: map<int, Row>): (h: int)
    ensures forall id :: id in rows ==> rows[id].nextRetryAt <= h
  {
    if rows.Keys == {} then 0
    else
      HasMember(rows.Keys);
      var id :| id in rows.Keys;
      var h := Horizon(rows - {id});
      assert forall k :: k in rows ==> k == id || k in rows - {id};
      if rows[id].nextRetryAt > h then rows[id].nextRetryAt else h
  }
}
