/**
 The issues table with its score ledger and audit trail, and the transactions that change them. A
 transaction either commits as a whole or, as None, leaves everything as it was.
 */
module IssueTable {
  import opened Options

  const INT32_MAX := 0x7fff_ffff

  datatype Status = Open | PendingReview | Closed | Invalid
  datatype Category = Sort | SetInOrder | Shine | Standardize | Sustain | Safety
  datatype CauseStatus = Unverified | Confirmed | NotApplicable

  /** The auditable responsibility of an issue. */
  datatype Responsibility = Responsibility(asset: Option<int>, team: Option<int>, assignee: Option<int>,
                                           causeTeam: Option<int>, causeStatus: CauseStatus)

  datatype Issue = Issue(uuid: string, version: int, creator: int, category: Category, location: string,
                         status: Status, resolver: Option<int>, photoAfter: Option<string>, resolvedAt: Option<int>,
                         rating: int, deleted: bool, owner: Responsibility)

  datatype RuleKey = PenaltyNormal | PenaltySafety | PenaltyReopen | PenaltyInvalid | RewardNormal | RewardSafety
                   | BonusKaizen | PenaltyOverdue | RetroAdjust
  datatype ScoreTarget = Location(code: string) | User(id: int)
  datatype Score = Score(issue: int, target: ScoreTarget, rule: RuleKey, points: int)

  datatype AuditValue =
    | Lifecycle(status: Status, version: int, deleted: bool)
    | Owner(owner: Responsibility)
    | Cause(cause: CauseStatus)
  datatype Action =
    CloseIssue | ReopenIssue | InvalidateIssue | IssueDelete | IssueRestore | AssignResponsibility | VerifyCause
  datatype Audit = Audit(issue: int, user: int, action: Action, before: AuditValue, after: AuditValue)

  datatype Db = Db(issues: map<int, Issue>, scores: seq<Score>, audits: seq<Audit>, nextId: int)

  /** The assignments of one UPDATE: an outer None leaves the column alone. */
  datatype Patch = Patch(category: Option<Category>, location: Option<string>,
                         asset: Option<Option<int>>, team: Option<Option<int>>, assignee: Option<Option<int>>,
                         causeTeam: Option<Option<int>>, causeStatus: Option<CauseStatus>)

  /** The transactions, with the parameters the service hands to them. */
  datatype Tx =
    | ResolveTx(force: bool, user: int, photo: string, now: int, expected: int)
    | CloseTx(rating: int, scores: seq<Score>, user: int, version: Option<int>)
    | ReopenTx(scores: seq<Score>, user: int, version: Option<int>)
    | InvalidateTx(scores: seq<Score>, user: int, version: Option<int>)
    | DeleteTx(user: int, expected: int)
    | RestoreTx(user: int, expected: int)
    | PatchTx(patch: Patch, audits: seq<Audit>, version: Option<int>)

  predicate Matches(version: Option<int>, i: Issue) {
    version.None? || version.value == i.version
  }

  /** The WHERE clause of the UPDATE in each transaction. */
  predicate Guard(i: Issue, tx: Tx) {
    match tx
    case ResolveTx(force, _, _, _, expected) =>
      !i.deleted && i.version == expected && (i.status == Open || (force && i.status == PendingReview))
    case CloseTx(_, _, _, version) => !i.deleted && i.status == PendingReview && Matches(version, i)
    case ReopenTx(_, _, version) => !i.deleted && i.status == PendingReview && Matches(version, i)
    case InvalidateTx(_, _, version) =>
      !i.deleted && (i.status == Open || i.status == PendingReview) && Matches(version, i)
    case DeleteTx(_, expected) => !i.deleted && i.version == expected
    case RestoreTx(_, expected) => i.deleted && i.version == expected
    case PatchTx(_, _, version) => !i.deleted && Matches(version, i)
  }

  function Coalesce<T>(change: Option<T>, current: T): T {
    match change
    case None => current
    case Some(v) => v
  }

  function Patched(o: Responsibility, p: Patch): Responsibility {
    Responsibility(Coalesce(p.asset, o.asset), Coalesce(p.team, o.team), Coalesce(p.assignee, o.assignee),
                   Coalesce(p.causeTeam, o.causeTeam), Coalesce(p.causeStatus, o.causeStatus))
  }

  /** The SET clause of the UPDATE in each transaction. */
  function Updated(i: Issue, tx: Tx): Issue {
    var next := i.(version := i.version + 1);
    match tx
    case ResolveTx(_, user, photo, now, _) =>
      next.(status := PendingReview, resolver := Some(user), photoAfter := Some(photo), resolvedAt := Some(now))
    case CloseTx(rating, _, _, _) => next.(status := Closed, rating := rating)
    case ReopenTx(_, _, _) => next.(status := Open)
    case InvalidateTx(_, _, _) => next.(status := Invalid)
    case DeleteTx(_, _) => next.(deleted := true)
    case RestoreTx(_, _) => next.(deleted := false)
    case PatchTx(p, _, _) =>
      next.(category := Coalesce(p.category, i.category), location := Coalesce(p.location, i.location),
            owner := Patched(i.owner, p))
  }

  /** InsertScoreLog inserts nothing for a missing or soft-deleted issue. */
  function InsertScores(issues: map<int, Issue>, scores: seq<Score>, added: seq<Score>): seq<Score> {
    if added == [] then scores
    else
      var before := InsertScores(issues, scores, added[..|added| - 1]);
      var last := added[|added| - 1];
      if last.issue in issues && !issues[last.issue].deleted then before + [last] else before
  }

  function Effects(tx: Tx): seq<Score> {
    match tx
    case CloseTx(_, scores, _, _) => scores
    case ReopenTx(scores, _, _) => scores
    case InvalidateTx(scores, _, _) => scores
    case _ => []
  }

  function LifecycleValue(i: Issue): AuditValue {
    Lifecycle(i.status, i.version, i.deleted)
  }

  /** The audit rows a transaction writes; resolving an issue writes none. */
  function Trail(id: int, before: Issue, after: Issue, tx: Tx): seq<Audit> {
    match tx
    case ResolveTx(_, _, _, _, _) => []
    case CloseTx(_, _, user, _) => [Audit(id, user, CloseIssue, LifecycleValue(before), LifecycleValue(after))]
    case ReopenTx(_, user, _) => [Audit(id, user, ReopenIssue, LifecycleValue(before), LifecycleValue(after))]
    case InvalidateTx(_, user, _) => [Audit(id, user, InvalidateIssue, LifecycleValue(before), LifecycleValue(after))]
    case DeleteTx(user, _) => [Audit(id, user, IssueDelete, LifecycleValue(before), LifecycleValue(after))]
    case RestoreTx(user, _) => [Audit(id, user, IssueRestore, LifecycleValue(before), LifecycleValue(after))]
    case PatchTx(_, audits, _) => audits
  }

  /** One transaction on an issue: guarded UPDATE, score effects, audit rows. A version past int32 is an error. */
  function Commit(db: Db, id: int, tx: Tx): Option<Db> {
    if id !in db.issues || !Guard(db.issues[id], tx) || db.issues[id].version >= INT32_MAX then None
    else
      var before := db.issues[id];
      var after := Updated(before, tx);
      var issues := db.issues[id := after];
      Some(Db(issues, InsertScores(issues, db.scores, Effects(tx)), db.audits + Trail(id, before, after, tx),
              db.nextId))
  }

  predicate UuidTaken(db: Db, uuid: string) {
    exists id | id in db.issues :: db.issues[id].uuid == uuid
  }

  /** createIssueAtomic: the row, and the scores built for its id. The client UUID is unique. */
  function Create(db: Db, uuid: string, creator: int, category: Category, location: string,
                  owner: Responsibility, rule: RuleKey, points: int): Option<Db> {
    if UuidTaken(db, uuid) then None
    else
      var i := Issue(uuid, 1, creator, category, location, Open, None, None, None, 3, false, owner);
      var issues := db.issues[db.nextId := i];
      Some(Db(issues, InsertScores(issues, db.scores, [Score(db.nextId, Location(location), rule, points)]), db.audits,
              db.nextId + 1))
  }

  /** The tables as the service's store updates them in place. */
  class IssueStore {
    var issues: map<int, Issue>
    var scores: seq<Score>
    var audits: seq<Audit>
    var nextId: int

    function Snapshot(): Db
      reads this
    {
      Db(issues, scores, audits, nextId)
    }

    method InsertScoreLog(score: Score)
      modifies this`scores
      ensures scores == InsertScores(issues, old(scores), [score])
    {
      assert [score][..0] == [];
      if score.issue in issues && !issues[score.issue].deleted {
        scores := scores + [score];
      }
    }

    method InsertScoreEffects(added: seq<Score>)
      modifies this`scores
      ensures scores == InsertScores(issues, old(scores), added)
    {
      for k := 0 to |added|
        invariant scores == InsertScores(issues, old(scores), added[..k])
      {
        assert added[..k + 1][..k] == added[..k];
        assert [added[k]][..0] == [];
        InsertScoreLog(added[k]);
      }
      assert added[..|added|] == added;
    }

    method InsertAuditLogs(trail: seq<Audit>)
      modifies this`audits
      ensures audits == old(audits) + trail
    {
      for k := 0 to |trail|
        invariant audits == old(audits) + trail[..k]
      {
        audits := audits + [trail[k]];
      }
      assert trail[..|trail|] == trail;
    }

    /** lifecycleEffectsAtomic, issueLifecycleAtomic, ResolveIssueAtomic and patchIssueWithAuditAtomic: lock,
        update, effects, audit; any failure before the commit changes nothing. */
    method CommitAtomic(id: int, tx: Tx) returns (r: Option<Issue>)
      modifies this
      ensures r.Some? <==> Commit(old(Snapshot()), id, tx).Some?
      ensures Snapshot() == (if r.Some? then Commit(old(Snapshot()), id, tx).value else old(Snapshot()))
      ensures r.Some? ==> id in issues && r.value == issues[id]
    {
      if id !in issues {
        return None;
      }
      var before := issues[id];
      if !Guard(before, tx) || before.version >= INT32_MAX {
        return None;
      }
      var after := Updated(before, tx);
      issues := issues[id := after];
      InsertScoreEffects(Effects(tx));
      InsertAuditLogs(Trail(id, before, after, tx));
      r := Some(after);
    }

    method CreateAtomic(uuid: string, creator: int, category: Category, location: string,
                        owner: Responsibility, rule: RuleKey, points: int) returns (r: Option<int>)
      modifies this
      ensures r.Some? <==> !UuidTaken(old(Snapshot()), uuid)
      ensures r.Some? ==> r.value == old(nextId)
                          && Some(Snapshot())
                               == Create(old(Snapshot()), uuid, creator, category, location, owner, rule, points)
      ensures r.None? ==> Snapshot() == old(Snapshot())
    {
      if UuidTaken(Snapshot(), uuid) {
        return None;
      }
      var id := nextId;
      issues := issues[id := Issue(uuid, 1, creator, category, location, Open, None, None, None, 3, false, owner)];
      nextId := nextId + 1;
      InsertScoreLog(Score(id, Location(location), rule, points));
      r := Some(id);
    }
  }
}
