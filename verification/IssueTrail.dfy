/**
 The lifecycle rows of the audit trail: one for every close, reopen, invalidation, deletion and restoration of an
 issue, in order, each telling the issue before and after.
 */
module IssueTrail {
  import opened IssueTable
  import opened IssueService
  import opened IssueRuns
  import opened IssueStatus

  predicate IsLifecycle(a: Action) {
    a != AssignResponsibility && a != VerifyCause
  }

  /** The lifecycle rows of one issue. */
  function LifecycleOf(audits: seq<Audit>, id: int): seq<Audit> {
    if audits == [] then []
    else
      var last := audits[|audits| - 1];
      LifecycleOf(audits[..|audits| - 1], id) + if last.issue == id && IsLifecycle(last.action) then [last] else []
  }

  /** Who did it, if it is of the lifecycle, and what it is called. */
  function ActionOf(tx: Tx): seq<(int, Action)> {
    match tx
    case CloseTx(_, _, user, _) => [(user, CloseIssue)]
    case ReopenTx(_, user, _) => [(user, ReopenIssue)]
    case InvalidateTx(_, user, _) => [(user, InvalidateIssue)]
    case DeleteTx(user, _) => [(user, IssueDelete)]
    case RestoreTx(user, _) => [(user, IssueRestore)]
    case _ => []
  }

  function Told(i: Issue): AuditValue {
    Lifecycle(i.status, i.version, i.deleted)
  }

  /** The row that a transaction calls for. */
  function RowFor(id: int, tx: Tx, before: Issue, after: Issue): seq<Audit> {
    var who := ActionOf(tx);
    if who == [] then [] else [Audit(id, who[0].0, who[0].1, Told(before), Told(after))]
  }

  /** The rows that the first n transactions call for, when each leads from one state of the history to the next. */
  function RowsOf(txs: seq<Tx>, h: seq<Issue>, id: int, n: nat): seq<Audit>
    requires n <= |txs| && n < |h|
  {
    if n == 0 then []
    else
      RowsOf(txs, h, id, n - 1) + RowFor(id, txs[n - 1], h[n - 1], h[n])
  }

  lemma {:induction false} LifecycleConcat(a: seq<Audit>, b: seq<Audit>, id: int)
    ensures LifecycleOf(a + b, id) == LifecycleOf(a, id) + LifecycleOf(b, id)
  {
    if b == [] {
      assert a + b == a;
    } else {
      assert (a + b)[..|a + b| - 1] == a + b[..|b| - 1];
      LifecycleConcat(a, b[..|b| - 1], id);
    }
  }

  lemma {:induction false} NoLifecycle(audits: seq<Audit>, id: int)
    requires forall k :: 0 <= k < |audits| ==> audits[k].issue != id || !IsLifecycle(audits[k].action)
    ensures LifecycleOf(audits, id) == []
  {
    if audits != [] { NoLifecycle(audits[..|audits| - 1], id); }
  }

  lemma {:induction false} RowsPrefix(txs: seq<Tx>, h: seq<Issue>, id: int, n: nat, more: seq<Tx>, later: seq<Issue>)
    requires n <= |txs| && n < |h|
    ensures RowsOf(txs + more, h + later, id, n) == RowsOf(txs, h, id, n)
  {
    if n > 0 { RowsPrefix(txs, h, id, n - 1, more, later); }
  }

  /** A trail and a history that tell the same life. */
  ghost predicate SameLife(audits: seq<Audit>, txs: seq<Tx>, h: seq<Issue>, id: int) {
    |h| == |txs| + 1 && LifecycleOf(audits, id) == RowsOf(txs, h, id, |txs|)
  }

  ghost predicate Audited(s: State, id: int) {
    id in s.history && SameLife(s.db.audits, TxsOf(s.log, id), s.history[id], id)
  }

  ghost predicate OfIssues(s: State) {
    forall k :: 0 <= k < |s.db.audits| ==> s.db.audits[k].issue in s.db.issues
  }

  ghost predicate AllAudited(s: State) {
    OfIssues(s) && forall id :: id in s.db.issues ==> Audited(s, id)
  }

  /** Rows of one issue, none of its lifecycle. */
  ghost predicate OnlyOwner(audits: seq<Audit>, id: int) {
    forall k :: 0 <= k < |audits| ==> audits[k].issue == id && !IsLifecycle(audits[k].action)
  }

  lemma {:induction false} PatchedOwner(id: int, seen: Issue, r: Request)
    requires Decide(id, seen, r).Some? && Decide(id, seen, r).value.PatchTx?
    ensures OnlyOwner(Decide(id, seen, r).value.audits, id)
  {
  }

  /** The rows of one issue that a transaction writes, and its lifecycle row among them. */
  ghost predicate Writes(trail: seq<Audit>, id: int, tx: Tx, before: Issue) {
    && (forall k :: 0 <= k < |trail| ==> trail[k].issue == id)
    && LifecycleOf(trail, id) == RowFor(id, tx, before, Updated(before, tx))
  }

  lemma {:induction false} TrailWrites(id: int, i: Issue, tx: Tx)
    requires tx.PatchTx? ==> OnlyOwner(tx.audits, id)
    ensures Writes(Trail(id, i, Updated(i, tx), tx), id, tx, i)
  {
    var trail := Trail(id, i, Updated(i, tx), tx);
    if ActionOf(tx) == [] {
      NoLifecycle(trail, id);
    } else {
      assert trail[..0] == [] && LifecycleOf([], id) == [];
    }
  }

  lemma {:induction false} RowsNext(txs: seq<Tx>, h: seq<Issue>, id: int, tx: Tx, next: Issue)
    requires |h| == |txs| + 1
    ensures RowsOf(txs + [tx], h + [next], id, |txs| + 1)
            == RowsOf(txs, h, id, |txs|) + RowFor(id, tx, h[|txs|], next)
  {
    RowsPrefix(txs, h, id, |txs|, [tx], [next]);
    assert (txs + [tx])[|txs|] == tx && (h + [next])[|txs| + 1] == next && (h + [next])[|txs|] == h[|txs|];
  }

  lemma {:induction false} TxsNext(log: seq<Committed>, c: Committed, id: int)
    ensures TxsOf(log + [c], id) == if c.id == id then TxsOf(log, id) + [c.tx] else TxsOf(log, id)
  {
    assert (log + [c])[..|log|] == log;
  }

  lemma {:induction false} LifeGoesOn(audits: seq<Audit>, trail: seq<Audit>, txs: seq<Tx>, h: seq<Issue>, id: int,
                                      tx: Tx)
    requires SameLife(audits, txs, h, id) && Writes(trail, id, tx, h[|txs|])
    ensures SameLife(audits + trail, txs + [tx], h + [Updated(h[|txs|], tx)], id)
  {
    LifecycleConcat(audits, trail, id);
    RowsNext(txs, h, id, tx, Updated(h[|txs|], tx));
  }

  /** The trail and the log of an issue each grow by what the transaction calls for. */
  lemma {:induction false} CommittedIsAudited(s: State, u: State, id: int, c: Committed, trail: seq<Audit>)
    requires Audited(s, id) && OneMore(s, u, id, c) && s.history[id][|s.history[id]| - 1] == s.db.issues[id]
    requires u.db.audits == s.db.audits + trail && Writes(trail, id, c.tx, s.db.issues[id])
    ensures Audited(u, id)
  {
    TxsNext(s.log, c, id);
    LifeGoesOn(s.db.audits, trail, TxsOf(s.log, id), s.history[id], id, c.tx);
  }

  lemma {:induction false} OthersAreAudited(s: State, u: State, id: int, c: Committed, trail: seq<Audit>, other: int)
    requires Audited(s, other) && OneMore(s, u, id, c) && other != id && u.db.audits == s.db.audits + trail
    requires Writes(trail, id, c.tx, s.db.issues[id])
    ensures Audited(u, other)
  {
    TxsNext(s.log, c, other);
    LifecycleConcat(s.db.audits, trail, other);
    NoLifecycle(trail, other);
  }

  lemma {:induction false} TrailOfIssues(s: State, u: State, id: int, c: Committed, trail: seq<Audit>)
    requires OfIssues(s) && OneMore(s, u, id, c) && u.db.audits == s.db.audits + trail
    requires forall k :: 0 <= k < |trail| ==> trail[k].issue == id
    ensures OfIssues(u)
  {
  }

  lemma {:induction false} OneMoreIsAudited(s: State, u: State, id: int, c: Committed, trail: seq<Audit>)
    requires AllAudited(s) && OneMore(s, u, id, c) && u.db.audits == s.db.audits + trail
    requires Writes(trail, id, c.tx, s.db.issues[id])
    requires |s.history[id]| > 0 && s.history[id][|s.history[id]| - 1] == s.db.issues[id]
    ensures AllAudited(u)
  {
    TrailOfIssues(s, u, id, c, trail);
    forall k | k in u.db.issues ensures Audited(u, k) {
      if k == id { CommittedIsAudited(s, u, id, c, trail); } else { OthersAreAudited(s, u, id, c, trail, k); }
    }
  }

  /** The parts of a commit. */
  lemma {:induction false} CommitParts(s: State, id: int, seen: Issue, r: Request)
    returns (u: State, c: Committed, trail: seq<Audit>)
    requires Good(s) && id in s.history && Decide(id, seen, r).Some? && id in s.db.issues
    requires Commit(s.db, id, Decide(id, seen, r).value).Some?
    ensures u == CommitTx(s, id, Decide(id, seen, r).value, seen.version) && OneMore(s, u, id, c)
    ensures u.db.audits == s.db.audits + trail && Writes(trail, id, c.tx, s.db.issues[id])
  {
    var tx, i := Decide(id, seen, r).value, s.db.issues[id];
    CommitTables(s, id, seen, r);
    u, c := CommitTx(s, id, tx, seen.version), Committed(id, tx, seen.version, i.version);
    trail := Trail(id, i, Updated(i, tx), tx);
    if tx.PatchTx? { PatchedOwner(id, seen, r); }
    TrailWrites(id, i, tx);
  }

  lemma {:induction false} CommitIsAudited(s: State, id: int, seen: Issue, r: Request)
    requires Good(s) && AllAudited(s) && id in s.history && Decide(id, seen, r).Some? && id in s.db.issues
    requires Commit(s.db, id, Decide(id, seen, r).value).Some?
    ensures AllAudited(CommitTx(s, id, Decide(id, seen, r).value, seen.version))
  {
    var u, c, trail := CommitParts(s, id, seen, r);
    assert GoodHistory(s.history[id], s.db.issues[id]);
    OneMoreIsAudited(s, u, id, c, trail);
  }

  lemma {:induction false} SyncIsAudited(s: State, e: Event)
    requires e.Sync? && Good(s) && AllAudited(s)
    ensures AllAudited(SyncStep(s, e))
  {
    var u, id := SyncStep(s, e), s.db.nextId;
    if u != s {
      assert id !in s.db.issues;
      NoTxs(s.log, id);
      NoLifecycle(s.db.audits, id);
    }
  }

  lemma {:induction false} FollowIsAudited(s: State, more: seq<Event>)
    requires Good(s) && AllAudited(s)
    ensures AllAudited(Follow(s, more))
  {
    if more != [] {
      var u, e := Follow(s, more[..|more| - 1]), more[|more| - 1];
      FollowIsGood(s, more[..|more| - 1]);
      FollowIsAudited(s, more[..|more| - 1]);
      if e.Sync? {
        SyncIsAudited(u, e);
      } else if e.Call? && e.id in u.history && e.seen < |u.history[e.id]| {
        var d := Decide(e.id, u.history[e.id][e.seen], e.request);
        if d.Some? && Commit(u.db, e.id, d.value).Some? {
          CommitIsAudited(u, e.id, u.history[e.id][e.seen], e.request);
        }
      }
    }
  }

  /** In every run the lifecycle rows of an issue are exactly those that its committed transactions call for, in order:
      each names the user and the action, and tells status, version and deletion before and after as the history has
      them. */
  lemma LifecycleIsAudited(events: seq<Event>, id: int)
    requires id in Run(events).db.issues
    ensures var s := Run(events);
            var txs := TxsOf(s.log, id);
            && id in s.history && |s.history[id]| == |txs| + 1
            && LifecycleOf(s.db.audits, id) == RowsOf(txs, s.history[id], id, |txs|)
  {
    RunIsGood([]);
    FollowIsAudited(START, events);
  }
}
