/**
 The notification_outbox table and the SQL statements that change it. Each statement is one
 atomic function from table to table. Instants are microseconds, the resolution of
 CURRENT_TIMESTAMP.
 */
module OutboxTable {
  import opened Options
  import opened Sets

  const SECOND := 1_000_000
  const LEASE := 120 * SECOND
  const BATCH_LIMIT: nat := 20
  // Column default of max_retries; no statement of the service sets the column.
  const DEFAULT_MAX_RETRIES := 5
  const INT32_MAX := 0x7fff_ffff

  datatype Status = Pending | Sending | Sent | Failed | Cancelled {
    /** The statuses a worker can still act on. */
    predicate Live() { Pending? || Sending? }
  }

  datatype Channel = WxPusher | LanWebhook

  datatype Row = Row(issue: int, event: string, channel: Channel, payload: string,
                     status: Status, retryCount: int, maxRetries: int, nextRetryAt: int)

  /** deleted maps each issue to whether its deleted_at is set; nextId is the BIGSERIAL sequence. */
  datatype Table = Table(deleted: map<int, bool>, rows: map<int, Row>, nextId: int, now: int)

  predicate Active(t: Table, issue: int) {
    issue in t.deleted && !t.deleted[issue]
  }

  /** Worker.issueDeleted: a missing issue counts as deleted. */
  predicate IssueGone(t: Table, issue: int) {
    !Active(t, issue)
  }

  // ---------- the statements ----------

  /** The WHERE clause of ClaimOutboxTasks. */
  predicate Claimable(t: Table, id: int) {
    && id in t.rows
    && Active(t, t.rows[id].issue)
    && (|| (t.rows[id].status == Pending && t.rows[id].nextRetryAt <= t.now)
        || (t.rows[id].status == Sending && t.rows[id].nextRetryAt < t.now))
  }

  function Due(t: Table): set<int> {
    set id | id in t.rows && Claimable(t, id)
  }

  /** ORDER BY id LIMIT n. */
  function FirstDue(t: Table, limit: nat): set<int> {
    set id | id in Due(t) && |Before(t, id)| < limit
  }

  function Before(t: Table, id: int): set<int> {
    set j | j in Due(t) && j < id
  }

  function Claimed(t: Table, r: Row): Row {
    r.(status := Sending, nextRetryAt := t.now + LEASE)
  }

  function ClaimRows(t: Table, ids: set<int>): Table {
    t.(rows := map id | id in t.rows :: if id in ids then Claimed(t, t.rows[id]) else t.rows[id])
  }

  /** The guard shared by the three settling statements. */
  predicate Settleable(t: Table, id: int) {
    id in t.rows && t.rows[id].status == Sending && Active(t, t.rows[id].issue)
  }

  function MarkSent(t: Table, id: int): Table {
    if Settleable(t, id) then t.(rows := t.rows[id := t.rows[id].(status := Sent)]) else t
  }

  function MarkFailed(t: Table, id: int): Table {
    if Settleable(t, id) then t.(rows := t.rows[id := t.rows[id].(status := Failed)]) else t
  }

  function Retry(t: Table, id: int, backoffSec: int): Table {
    if Settleable(t, id) then
      var r := t.rows[id];
      t.(rows := t.rows[id := r.(status := Pending, retryCount := r.retryCount + 1,
                                 nextRetryAt := t.now + backoffSec * SECOND)])
    else t
  }

  function NewRow(t: Table, issue: int, event: string, channel: Channel, payload: string): Row {
    Row(issue, event, channel, payload, Pending, 0, DEFAULT_MAX_RETRIES, t.now)
  }

  /** CreateOutboxEntry returns no row, and inserts none, when the issue is gone. */
  function CreateEntry(t: Table, issue: int, event: string, channel: Channel, payload: string): (Table, Option<int>) {
    if Active(t, issue) then
      (t.(rows := t.rows[t.nextId := NewRow(t, issue, event, channel, payload)], nextId := t.nextId + 1),
       Some(t.nextId))
    else (t, None)
  }

  /** A committed DeleteIssueAtomic: the flag and the cancellation in one transaction. */
  function SoftDelete(t: Table, issue: int): Table {
    if Active(t, issue) then
      t.(deleted := t.deleted[issue := true],
         rows := map id | id in t.rows ::
           if t.rows[id].issue == issue && t.rows[id].status.Live() then t.rows[id].(status := Cancelled)
           else t.rows[id])
    else t
  }

  function Restore(t: Table, issue: int): Table {
    if issue in t.deleted && t.deleted[issue] then t.(deleted := t.deleted[issue := false]) else t
  }

  // ---------- backoff ----------

  function Pow3(n: nat): nat {
    if n == 0 then 1 else 3 * Pow3(n - 1)
  }

  /** 5 * 3^(retry_count+1), before the conversion to int32. */
  function BackoffSeconds(retryCount: nat): nat {
    5 * Pow3(retryCount + 1)
  }

  /** processTask gives up instead of retrying. */
  predicate LastAttempt(task: Row) {
    task.retryCount + 1 >= task.maxRetries
  }

  /** The delay passed to RetryOutboxTask; retry_count starts at 0 and only grows. */
  function Backoff(task: Row): int {
    if task.retryCount >= 0 then BackoffSeconds(task.retryCount) else 0
  }

  lemma {:induction false} Pow3Grows(m: nat, n: nat)
    requires m <= n
    ensures Pow3(m) <= Pow3(n)
    decreases n
  {
    if m < n {
      Pow3Grows(m, n - 1);
    }
  }

  /** The conversion to int32 is exact for the first eighteen retries and for no later one. */
  lemma BackoffFitsInt32(retryCount: nat)
    ensures BackoffSeconds(retryCount) <= INT32_MAX <==> retryCount + 1 <= 18
  {
    assert Pow3(6) == 729;
    assert Pow3(12) == 531_441 by {
      assert Pow3(9) == 19_683;
    }
    assert Pow3(18) == 387_420_489 by {
      assert Pow3(15) == 14_348_907;
    }
    assert Pow3(19) == 1_162_261_467;
    if retryCount + 1 <= 18 {
      Pow3Grows(retryCount + 1, 18);
    } else {
      Pow3Grows(19, retryCount + 1);
    }
  }

  // ---------- table invariant ----------

  /** Row ids come from the sequence, every row has its issue, and a soft-deleted issue has no live row. */
  ghost predicate Consistent(t: Table) {
    forall id :: id in t.rows ==>
      && id < t.nextId
      && t.rows[id].issue in t.deleted
      && (t.rows[id].status.Live() ==> Active(t, t.rows[id].issue))
  }

  // ---------- claiming ----------

  /** The claimed rows are the smallest due ids: a prefix of the due rows, of size at most the limit,
      and empty only when nothing is due. */
  lemma FirstDueIsPrefix(t: Table, limit: nat)
    requires limit > 0
    ensures FirstDue(t, limit) <= Due(t)
    ensures |FirstDue(t, limit)| <= limit
    ensures FirstDue(t, limit) == {} <==> Due(t) == {}
    ensures forall i, j :: i in FirstDue(t, limit) && j in Due(t) && j < i ==> j in FirstDue(t, limit)
  {
    forall i, j | i in FirstDue(t, limit) && j in Due(t) && j < i
      ensures j in FirstDue(t, limit)
    {
      SubsetSize(Before(t, j), Before(t, i));
    }
    if Due(t) != {} {
      var least := LeastOf(Due(t));
      assert Before(t, least) == {};
      assert least in FirstDue(t, limit);
      var greatest := GreatestOf(FirstDue(t, limit));
      var rest := FirstDue(t, limit) - {greatest};
      assert rest <= Before(t, greatest);
      SubsetSize(rest, Before(t, greatest));
      assert |FirstDue(t, limit)| == |rest| + 1;
    }
  }

  /** A batch claim is the same as claiming its rows one after the other at one instant. */
  lemma ClaimOneByOne(t: Table, ids: set<int>, id: int)
    requires id !in ids && id in t.rows
    ensures ClaimRows(t, ids + {id}) == ClaimRows(ClaimRows(t, ids), {id})
    ensures Claimable(t, id) <==> Claimable(ClaimRows(t, ids), id)
  {
    assert ClaimRows(t, ids + {id}).rows == ClaimRows(ClaimRows(t, ids), {id}).rows;
  }

  // ---------- the termination measure ----------

  /**
   What a row may still cost: one unit for each attempt left and, for a WXPUSHER row, the whole
   budget of the LAN_WEBHOOK row that its last failure creates.
   */
  function Weight(r: Row): nat {
    if !r.status.Live() then 0
    else (if r.retryCount < r.maxRetries then r.maxRetries - r.retryCount else 1)
         + (if r.channel == WxPusher then DEFAULT_MAX_RETRIES else 0)
  }

  ghost function Load(rows: map<int, Row>): nat {
    if rows.Keys == {} then 0
    else
      HasMember(rows.Keys);
      var id :| id in rows.Keys;
      Weight(rows[id]) + Load(rows - {id})
  }

  lemma {:induction false} LoadSplit(rows: map<int, Row>, id: int)
    requires id in rows
    ensures Load(rows) == Weight(rows[id]) + Load(rows - {id})
    decreases |rows|
  {
    var k :| k in rows.Keys && Load(rows) == Weight(rows[k]) + Load(rows - {k});
    if k != id {
      LoadSplit(rows - {k}, id);
      LoadSplit(rows - {id}, k);
      assert rows - {k} - {id} == rows - {id} - {k};
    }
  }

  lemma LoadSet(rows: map<int, Row>, id: int, r: Row)
    ensures Load(rows[id := r]) == Load(rows) + Weight(r) - (if id in rows then Weight(rows[id]) else 0)
  {
    LoadSplit(rows[id := r], id);
    if id in rows {
      LoadSplit(rows, id);
      assert rows[id := r] - {id} == rows - {id};
    } else {
      assert rows[id := r] - {id} == rows;
    }
  }

  /** Rows that each get no heavier make no heavier table. */
  lemma {:induction false} LoadPointwise(a: map<int, Row>, b: map<int, Row>)
    requires a.Keys == b.Keys
    requires forall id :: id in a ==> Weight(b[id]) <= Weight(a[id])
    ensures Load(b) <= Load(a)
    decreases |a|
  {
    if a.Keys != {} {
      var id := Member(a.Keys);
      LoadSplit(a, id);
      LoadSplit(b, id);
      LoadPointwise(a - {id}, b - {id});
    }
  }

  /** Zero load means that every row is SENT, FAILED or CANCELLED, and the other way round. */
  lemma {:induction false} ZeroLoadIffSettled(rows: map<int, Row>)
    ensures Load(rows) == 0 <==> forall id :: id in rows ==> !rows[id].status.Live()
    decreases |rows|
  {
    if rows.Keys != {} {
      var id := Member(rows.Keys);
      LoadSplit(rows, id);
      ZeroLoadIffSettled(rows - {id});
      assert forall k :: k in rows ==> k == id || k in rows - {id};
    }
  }
}
