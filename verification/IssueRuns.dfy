/**
 Runs of the issue service: requests of any users in any order, each deciding on any state of the
 issue it may have read earlier, and committing against the state of the moment.
 */
module IssueRuns {
  import opened Options
  import opened IssueTable
  import opened IssueService

  /** history and log record every state of each issue and every committed transaction. */
  datatype Committed = Committed(id: int, tx: Tx, seen: int, at: int)
  datatype State = State(db: Db, history: map<int, seq<Issue>>, log: seq<Committed>)

  /** seen is the index, in the issue's history, of the state that the request read. */
  datatype Event =
    | Sync(uuid: string, creator: int, category: Category, location: string, asset: Option<int>, team: Option<int>,
           assignee: Option<int>, rules: Rules, valid: bool)
    | Call(id: int, seen: nat, request: Request)
    | OtherScore(score: Score)

  function SyncStep(s: State, e: Event): State
    requires e.Sync?
  {
    match CreationPenalty(e.rules, e.category)
    case None => s
    case Some((rule, points)) =>
      var owner := Responsibility(e.asset, e.team, e.assignee, None, Unverified);
      match (if e.valid then Create(s.db, e.uuid, e.creator, e.category, e.location, owner, rule, points) else None)
      case None => s
      case Some(db) => s.(db := db, history := s.history[s.db.nextId := [db.issues[s.db.nextId]]])
  }

  function CallService(s: State, id: int, seen: nat, request: Request): State
    requires id in s.history && seen < |s.history[id]|
  {
    match Decide(id, s.history[id][seen], request)
    case None => s
    case Some(tx) => CommitTx(s, id, tx, s.history[id][seen].version)
  }

  function CommitTx(s: State, id: int, tx: Tx, seen: int): State
    requires id in s.history
  {
    match Commit(s.db, id, tx)
    case None => s
    case Some(db) =>
      State(db, s.history[id := s.history[id] + [db.issues[id]]],
            s.log + [Committed(id, tx, seen, s.db.issues[id].version)])
  }

  /** The overdue scan and the repricing are the other writers of the ledger. */
  function AddOtherScore(s: State, score: Score): State {
    if score.rule == PenaltyOverdue || score.rule == RetroAdjust
    then s.(db := s.db.(scores := InsertScores(s.db.issues, s.db.scores, [score]))) else s
  }

  function Step(s: State, e: Event): State {
    match e
    case Sync(_, _, _, _, _, _, _, _, _) => SyncStep(s, e)
    case Call(id, seen, request) =>
      if id in s.history && seen < |s.history[id]| then CallService(s, id, seen, request) else s
    case OtherScore(score) => AddOtherScore(s, score)
  }

  const START := State(Db(map[], [], [], 1), map[], [])

  function Follow(s: State, more: seq<Event>): State {
    if more == [] then s else Step(Follow(s, more[..|more| - 1]), more[|more| - 1])
  }

  function Run(events: seq<Event>): State {
    Follow(START, events)
  }

  // ---------- counting ----------

  datatype ScoreClass = CreationPenalties | ReporterRewards | InvalidPenalties | ReopenPenalties | Others

  function ClassOf(rule: RuleKey): ScoreClass {
    match rule
    case PenaltyNormal => CreationPenalties
    case PenaltySafety => CreationPenalties
    case RewardNormal => ReporterRewards
    case RewardSafety => ReporterRewards
    case PenaltyInvalid => InvalidPenalties
    case PenaltyReopen => ReopenPenalties
    case _ => Others
  }

  /** How many of the first n scores are of this issue and class. */
  function CountUpTo(scores: seq<Score>, n: nat, id: int, c: ScoreClass): nat
    requires n <= |scores|
  {
    if n == 0 then 0
    else
      CountUpTo(scores, n - 1, id, c)
      + (if scores[n - 1].issue == id && ClassOf(scores[n - 1].rule) == c then 1 else 0)
  }

  function CountOf(scores: seq<Score>, id: int, c: ScoreClass): nat {
    CountUpTo(scores, |scores|, id, c)
  }

  datatype Counts = Counts(creation: int, reward: int, invalid: int, reopen: int)

  function Plus(a: Counts, b: Counts): Counts {
    Counts(a.creation + b.creation, a.reward + b.reward, a.invalid + b.invalid, a.reopen + b.reopen)
  }

  const NONE := Counts(0, 0, 0, 0)

  function Tally(scores: seq<Score>, id: int): Counts {
    Counts(CountOf(scores, id, CreationPenalties), CountOf(scores, id, ReporterRewards),
           CountOf(scores, id, InvalidPenalties), CountOf(scores, id, ReopenPenalties))
  }

  function One(c: ScoreClass): Counts {
    Counts(if c == CreationPenalties then 1 else 0, if c == ReporterRewards then 1 else 0,
           if c == InvalidPenalties then 1 else 0, if c == ReopenPenalties then 1 else 0)
  }

  /** How many committed transactions of an issue there are, how many resolved it and how many reopened it. */
  datatype Writes = Writes(all: int, resolved: int, reopened: int)

  function Write(tx: Tx): Writes {
    Writes(1, if tx.ResolveTx? then 1 else 0, if tx.ReopenTx? then 1 else 0)
  }

  function Written(log: seq<Committed>, id: int): Writes {
    if log == [] then Writes(0, 0, 0)
    else
      var rest, last := Written(log[..|log| - 1], id), log[|log| - 1];
      if last.id != id then rest
      else
        var w := Write(last.tx);
        Writes(rest.all + w.all, rest.resolved + w.resolved, rest.reopened + w.reopened)
  }

  lemma {:induction false} CountPrefix(a: seq<Score>, b: seq<Score>, n: nat, id: int, c: ScoreClass)
    requires n <= |a|
    ensures CountUpTo(a + b, n, id, c) == CountUpTo(a, n, id, c)
  {
    if n > 0 { CountPrefix(a, b, n - 1, id, c); }
  }

  lemma {:induction false} CountConcat(a: seq<Score>, b: seq<Score>, n: nat, id: int, c: ScoreClass)
    requires n <= |b|
    ensures CountUpTo(a + b, |a| + n, id, c) == CountUpTo(a, |a|, id, c) + CountUpTo(b, n, id, c)
  {
    if n == 0 { CountPrefix(a, b, |a|, id, c); } else { CountConcat(a, b, n - 1, id, c); }
  }

  lemma {:induction false} TallyConcat(a: seq<Score>, b: seq<Score>, id: int)
    ensures Tally(a + b, id) == Plus(Tally(a, id), Tally(b, id))
  {
    CountConcat(a, b, |b|, id, CreationPenalties);
    CountConcat(a, b, |b|, id, ReporterRewards);
    CountConcat(a, b, |b|, id, InvalidPenalties);
    CountConcat(a, b, |b|, id, ReopenPenalties);
  }

  lemma {:induction false} InsertedForActive(issues: map<int, Issue>, scores: seq<Score>, added: seq<Score>, id: int)
    requires id in issues && !issues[id].deleted
    requires AllOf(added, id)
    ensures InsertScores(issues, scores, added) == scores + added
  {
    if added != [] {
      InsertedForActive(issues, scores, added[..|added| - 1], id);
      assert added == added[..|added| - 1] + [added[|added| - 1]];
    }
  }

  lemma {:induction false} NoCount(scores: seq<Score>, n: nat, id: int, c: ScoreClass)
    requires n <= |scores| && forall k :: 0 <= k < n ==> scores[k].issue != id
    ensures CountUpTo(scores, n, id, c) == 0
  {
    if n > 0 { NoCount(scores, n - 1, id, c); }
  }

  lemma {:induction false} NoTally(scores: seq<Score>, id: int)
    requires forall k :: 0 <= k < |scores| ==> scores[k].issue != id
    ensures Tally(scores, id) == NONE
  {
    NoCount(scores, |scores|, id, CreationPenalties);
    NoCount(scores, |scores|, id, ReporterRewards);
    NoCount(scores, |scores|, id, InvalidPenalties);
    NoCount(scores, |scores|, id, ReopenPenalties);
  }

  lemma {:induction false} NeverWritten(log: seq<Committed>, id: int)
    requires forall k :: 0 <= k < |log| ==> log[k].id != id
    ensures Written(log, id) == Writes(0, 0, 0)
  {
    if log != [] {
      NeverWritten(log[..|log| - 1], id);
    }
  }

  lemma CountOne(score: Score, c: ScoreClass)
    ensures CountOf([score], score.issue, c) == (if ClassOf(score.rule) == c then 1 else 0)
  {
    assert CountUpTo([score], 0, score.issue, c) == 0;
  }

  lemma TallyOne(score: Score)
    ensures Tally([score], score.issue) == One(ClassOf(score.rule))
  {
    CountOne(score, CreationPenalties);
    CountOne(score, ReporterRewards);
    CountOne(score, InvalidPenalties);
    CountOne(score, ReopenPenalties);
  }

  ghost predicate AllOf(scores: seq<Score>, id: int) {
    forall k :: 0 <= k < |scores| ==> scores[k].issue == id
  }

  /** Scores of one issue that hold at most one score of one class and none of the other classes counted. */
  ghost predicate AtMostOne(scores: seq<Score>, id: int, c: ScoreClass) {
    AllOf(scores, id) && (Tally(scores, id) == NONE || Tally(scores, id) == One(c))
  }

  /** A configured score is of the issue and rule it was asked for, if there is one at all. */
  lemma {:induction false} ConfiguredTally(rules: Rules, id: int, target: ScoreTarget, key: RuleKey, fallback: int,
                                           award: bool)
    ensures AtMostOne(ConfiguredScore(rules, id, target, key, fallback, award), id, ClassOf(key))
  {
    var e := ConfiguredScore(rules, id, target, key, fallback, award);
    if e == [] {
      NoTally(e, id);
    } else {
      TallyOne(e[0]);
      assert e == [e[0]];
    }
  }

  lemma PlusNone(c: Counts)
    ensures Plus(c, NONE) == c
  {
  }

  lemma {:induction false} JoinNone(a: seq<Score>, b: seq<Score>, id: int)
    requires Tally(b, id) == NONE
    ensures Tally(a + b, id) == Tally(a, id)
  {
    TallyConcat(a, b, id);
    PlusNone(Tally(a, id));
  }

  lemma {:induction false} OthersAreNone(scores: seq<Score>, id: int)
    requires AtMostOne(scores, id, Others)
    ensures Tally(scores, id) == NONE
  {
  }

  lemma {:induction false} JoinTally(a: seq<Score>, b: seq<Score>, id: int, c: ScoreClass)
    requires AtMostOne(a, id, c) && AllOf(b, id) && Tally(b, id) == NONE
    ensures AtMostOne(a + b, id, c)
  {
    JoinNone(a, b, id);
    assert AllOf(a + b, id);
  }

  /** What each transaction may add to the counts of its issue. */
  ghost predicate MayScore(tx: Tx, c: Counts) {
    && c.creation == 0
    && 0 <= c.reward <= (if tx.CloseTx? then 1 else 0)
    && 0 <= c.invalid <= (if tx.InvalidateTx? then 1 else 0)
    && 0 <= c.reopen <= (if tx.ReopenTx? then 1 else 0)
  }

  lemma {:induction false} CloseTally(rules: Rules, id: int, i: Issue, rating: int)
    ensures AtMostOne(CloseRewards(rules, id, i, rating), id, ReporterRewards)
  {
    var key := if i.category == Safety then RewardSafety else RewardNormal;
    var fallback := if i.category == Safety then 5 else 2;
    var reward := ConfiguredScore(rules, id, User(i.creator), key, fallback, true);
    var bonus := if rating >= 4 then ConfiguredScore(rules, id, Location(i.location), BonusKaizen, 1, true) else [];
    ConfiguredTally(rules, id, User(i.creator), key, fallback, true);
    if rating >= 4 {
      ConfiguredTally(rules, id, Location(i.location), BonusKaizen, 1, true);
      OthersAreNone(bonus, id);
    } else {
      NoTally(bonus, id);
    }
    JoinTally(reward, bonus, id, ReporterRewards);
  }

  lemma {:induction false} EffectTally(id: int, i: Issue, r: Request)
    requires Decide(id, i, r).Some?
    ensures var tx := Decide(id, i, r).value;
            && AllOf(Effects(tx), id)
            && MayScore(tx, Tally(Effects(tx), id))
  {
    match r
    case Close(user, permitted, rating, rules, version) =>
      CloseTally(rules, id, i, if rating < 1 || rating > 5 then 3 else rating);
    case Reopen(user, permitted, rules, version) =>
      ConfiguredTally(rules, id, Location(i.location), PenaltyReopen, -2, false);
    case Invalidate(user, permitted, rules, version) =>
      ConfiguredTally(rules, id, User(i.creator), PenaltyInvalid, -5, false);
    case _ => NoTally([], id);
  }

  // ---------- the invariant ----------

  ghost predicate GoodIssue(i: Issue) {
    && 1 <= i.version
    && 1 <= i.rating <= 5
    && (i.status == PendingReview || i.status == Closed ==>
          i.resolver.Some? && i.photoAfter.Some? && i.resolvedAt.Some?)
    && (i.owner.causeStatus == Confirmed <==> i.owner.causeTeam.Some?)
  }

  ghost predicate GoodHistory(h: seq<Issue>, i: Issue) {
    && |h| == i.version && (forall k :: 0 <= k < |h| ==> h[k].version == k + 1)
    && (forall k :: 0 <= k < |h| - 1 && h[k].deleted ==>
          h[k + 1] == h[k].(version := h[k].version + 1, deleted := false))
    && |h| > 0 && h[|h| - 1] == i
  }

  /** An issue in this status with these counts and writes. */
  ghost predicate GoodCounts(i: Issue, c: Counts, w: Writes) {
    && i.version == 1 + w.all
    && c.creation == 1
    && 0 <= c.reward <= (if i.status == Closed then 1 else 0)
    && 0 <= c.invalid <= (if i.status == Invalid then 1 else 0)
    && 0 <= c.reopen <= w.reopened
    && w.reopened + (if i.status == PendingReview || i.status == Closed then 1 else 0) <= w.resolved
  }

  ghost predicate GoodTables(s: State) {
    && s.history.Keys == s.db.issues.Keys
    && (forall id :: id in s.db.issues ==> id < s.db.nextId && GoodIssue(s.db.issues[id]))
    && (forall id :: id in s.db.issues ==> GoodHistory(s.history[id], s.db.issues[id]))
    && (forall k :: 0 <= k < |s.db.scores| ==> s.db.scores[k].issue in s.db.issues)
    && (forall k :: 0 <= k < |s.log| ==> s.log[k].id in s.db.issues)
  }

  ghost predicate GoodScores(s: State) {
    forall id :: id in s.db.issues ==> GoodCounts(s.db.issues[id], Tally(s.db.scores, id), Written(s.log, id))
  }

  /** A close whose WHERE clause named the version that the closer had seen. */
  predicate CheckedClose(c: Committed) {
    c.tx.CloseTx? && c.tx.version == Some(c.seen)
  }

  /** The version that the WHERE clause of a transaction names, if it names one. */
  function ExpectedVersion(tx: Tx): Option<int> {
    match tx
    case ResolveTx(_, _, _, _, e) => Some(e)
    case CloseTx(_, _, _, e) => e
    case ReopenTx(_, _, e) => e
    case InvalidateTx(_, _, e) => e
    case DeleteTx(_, e) => Some(e)
    case RestoreTx(_, e) => Some(e)
    case PatchTx(_, _, e) => e
  }

  ghost predicate GoodEntry(c: Committed, i: Issue) {
    && c.at < i.version
    && (ExpectedVersion(c.tx).Some? ==> ExpectedVersion(c.tx).value == c.at)
    && (c.tx.CloseTx? ==> i.status == Closed)
    && (CheckedClose(c) ==> i.resolver.Some? && i.resolver.value != c.tx.user)
  }

  ghost predicate GoodLog(s: State) {
    && (forall k :: 0 <= k < |s.log| ==> s.log[k].id in s.db.issues && GoodEntry(s.log[k], s.db.issues[s.log[k].id]))
    && (forall j, k :: 0 <= j < k < |s.log| && s.log[j].id == s.log[k].id ==> s.log[j].at < s.log[k].at)
  }

  ghost predicate Good(s: State) {
    GoodTables(s) && GoodScores(s) && GoodLog(s)
  }

  // ---------- creation and other scores ----------

  lemma {:induction false} SyncKeepsTables(s: State, e: Event)
    requires e.Sync? && GoodTables(s)
    ensures GoodTables(SyncStep(s, e))
  {
    var u := SyncStep(s, e);
    if u != s {
      var (rule, points) := CreationPenalty(e.rules, e.category).value;
      var penalty := Score(s.db.nextId, Location(e.location), rule, points);
      InsertedForActive(u.db.issues, s.db.scores, [penalty], s.db.nextId);
      assert u.db.scores == s.db.scores + [penalty];
      assert s.db.nextId !in s.db.issues;
    }
  }

  lemma {:induction false} SyncKeepsLog(s: State, e: Event)
    requires e.Sync? && GoodTables(s) && GoodLog(s)
    ensures GoodLog(SyncStep(s, e))
  {
    var u := SyncStep(s, e);
    assert s.db.nextId !in s.db.issues;
    assert forall id :: id in s.db.issues ==> u.db.issues[id] == s.db.issues[id];
  }

  lemma {:induction false} FirstTally(scores: seq<Score>, penalty: Score)
    requires forall k :: 0 <= k < |scores| ==> scores[k].issue != penalty.issue
    ensures Tally(scores + [penalty], penalty.issue) == One(ClassOf(penalty.rule))
  {
    NoTally(scores, penalty.issue);
    TallyOne(penalty);
    TallyConcat(scores, [penalty], penalty.issue);
  }

  lemma {:induction false} FirstCounts(scores: seq<Score>, log: seq<Committed>, penalty: Score, i: Issue)
    requires forall k :: 0 <= k < |scores| ==> scores[k].issue != penalty.issue
    requires forall k :: 0 <= k < |log| ==> log[k].id != penalty.issue
    requires ClassOf(penalty.rule) == CreationPenalties && i.version == 1 && i.status == Open
    ensures GoodCounts(i, Tally(scores + [penalty], penalty.issue), Written(log, penalty.issue))
  {
    FirstTally(scores, penalty);
    NeverWritten(log, penalty.issue);
  }

  lemma {:induction false} SyncKeepsScores(s: State, e: Event)
    requires e.Sync? && GoodTables(s) && GoodScores(s)
    ensures GoodScores(SyncStep(s, e))
  {
    var u := SyncStep(s, e);
    if u != s {
      var id := s.db.nextId;
      var (rule, points) := CreationPenalty(e.rules, e.category).value;
      var penalty := Score(id, Location(e.location), rule, points);
      InsertedForActive(u.db.issues, s.db.scores, [penalty], id);
      assert id !in s.db.issues;
      FirstCounts(s.db.scores, s.log, penalty, u.db.issues[id]);
      forall k | k in s.db.issues
        ensures Tally(u.db.scores, k) == Tally(s.db.scores, k)
      {
        TallyConcat(s.db.scores, [penalty], k);
        NoTally([penalty], k);
      }
    }
  }

  lemma {:induction false} OtherTally(scores: seq<Score>, score: Score, id: int)
    requires ClassOf(score.rule) == Others
    ensures Tally(scores + [score], id) == Tally(scores, id)
  {
    if id == score.issue { TallyOne(score); } else { NoTally([score], id); }
    JoinNone(scores, [score], id);
  }

  lemma {:induction false} OtherScoreKeepsGood(s: State, score: Score)
    requires Good(s)
    ensures Good(AddOtherScore(s, score))
  {
    var u := AddOtherScore(s, score);
    assert [score][..0] == [];
    assert InsertScores(s.db.issues, s.db.scores, []) == s.db.scores;
    if u.db.scores != s.db.scores {
      assert u.db.scores == s.db.scores + [score] && score.issue in s.db.issues;
      forall id | id in u.db.issues ensures Tally(u.db.scores, id) == Tally(s.db.scores, id) {
        OtherTally(s.db.scores, score, id);
      }
    }
  }

  // ---------- a committed call ----------

  lemma UpdatedIsGood(id: int, seen: Issue, r: Request, i: Issue)
    requires Decide(id, seen, r).Some? && Guard(i, Decide(id, seen, r).value) && GoodIssue(i)
    ensures GoodIssue(Updated(i, Decide(id, seen, r).value))
  {
    match r
    case Assign(user, permitted, mayAssign, mayVerify, change, refsOk, causeTeamOk, version) =>
      var p := CausePatch(change, seen, mayVerify, causeTeamOk);
      assert p.Some?;
      assert p.value.causeStatus.Some? <==> p.value.causeTeam.Some?;
    case _ =>
  }

  lemma {:induction false} UpdatedCounts(i: Issue, tx: Tx, c: Counts, w: Writes, added: Counts)
    requires GoodCounts(i, c, w) && Guard(i, tx) && MayScore(tx, added)
    ensures GoodCounts(Updated(i, tx), Plus(c, added),
                       Writes(w.all + 1, w.resolved + Write(tx).resolved, w.reopened + Write(tx).reopened))
  {
  }

  lemma {:induction false} CommitTables(s: State, id: int, seen: Issue, r: Request)
    requires GoodTables(s) && id in s.history && Decide(id, seen, r).Some?
    requires Commit(s.db, id, Decide(id, seen, r).value).Some?
    ensures var tx := Decide(id, seen, r).value; var u := CommitTx(s, id, tx, seen.version);
            && u.db.issues == s.db.issues[id := Updated(s.db.issues[id], tx)]
            && u.history == s.history[id := s.history[id] + [Updated(s.db.issues[id], tx)]]
            && u.db.scores == s.db.scores + Effects(tx)
            && u.log == s.log + [Committed(id, tx, seen.version, s.db.issues[id].version)]
            && u.db.nextId == s.db.nextId
  {
    var tx := Decide(id, seen, r).value;
    EffectTally(id, seen, r);
    var issues := s.db.issues[id := Updated(s.db.issues[id], tx)];
    if Effects(tx) != [] {
      InsertedForActive(issues, s.db.scores, Effects(tx), id);
    }
  }

  lemma UpdatedKeepsHistory(h: seq<Issue>, i: Issue, tx: Tx)
    requires GoodHistory(h, i) && Guard(i, tx)
    ensures GoodHistory(h + [Updated(i, tx)], Updated(i, tx))
  {
  }

  lemma {:induction false} OneIssueChanged(s: State, u: State, id: int, i: Issue, h: seq<Issue>)
    requires GoodTables(s) && id in s.db.issues && GoodIssue(i) && GoodHistory(h, i)
    requires u.db.issues == s.db.issues[id := i] && u.history == s.history[id := h] && u.db.nextId == s.db.nextId
    requires |u.db.scores| >= |s.db.scores| && u.db.scores[..|s.db.scores|] == s.db.scores
    requires AllOf(u.db.scores[|s.db.scores|..], id)
    requires |u.log| == |s.log| + 1 && u.log[..|s.log|] == s.log && u.log[|s.log|].id == id
    ensures GoodTables(u)
  {
    forall k | 0 <= k < |u.db.scores| ensures u.db.scores[k].issue in u.db.issues {
      if k < |s.db.scores| {
        assert u.db.scores[k] == s.db.scores[k];
      } else {
        assert u.db.scores[k] == u.db.scores[|s.db.scores|..][k - |s.db.scores|];
      }
    }
    forall k | 0 <= k < |u.log| ensures u.log[k].id in u.db.issues {
      if k < |s.log| { assert u.log[k] == s.log[k]; }
    }
  }

  lemma {:induction false} CommitKeepsTables(s: State, id: int, seen: Issue, r: Request)
    requires GoodTables(s) && id in s.history && Decide(id, seen, r).Some?
    requires Commit(s.db, id, Decide(id, seen, r).value).Some?
    ensures GoodTables(CommitTx(s, id, Decide(id, seen, r).value, seen.version))
  {
    var tx := Decide(id, seen, r).value;
    var u := CommitTx(s, id, tx, seen.version);
    CommitTables(s, id, seen, r);
    EffectTally(id, seen, r);
    assert GoodIssue(s.db.issues[id]) && GoodHistory(s.history[id], s.db.issues[id]);
    UpdatedIsGood(id, seen, r, s.db.issues[id]);
    UpdatedKeepsHistory(s.history[id], s.db.issues[id], tx);
    assert u.db.scores[|s.db.scores|..] == Effects(tx);
    OneIssueChanged(s, u, id, Updated(s.db.issues[id], tx), s.history[id] + [Updated(s.db.issues[id], tx)]);
  }

  lemma {:induction false} CommitKeepsScores(s: State, id: int, seen: Issue, r: Request)
    requires GoodTables(s) && GoodScores(s) && id in s.history && Decide(id, seen, r).Some?
    requires Commit(s.db, id, Decide(id, seen, r).value).Some?
    ensures GoodScores(CommitTx(s, id, Decide(id, seen, r).value, seen.version))
  {
    var tx := Decide(id, seen, r).value;
    var u := CommitTx(s, id, tx, seen.version);
    CommitTables(s, id, seen, r);
    EffectTally(id, seen, r);
    assert u.log[..|u.log| - 1] == s.log;
    forall k | k in u.db.issues
      ensures GoodCounts(u.db.issues[k], Tally(u.db.scores, k), Written(u.log, k))
    {
      assert GoodCounts(s.db.issues[k], Tally(s.db.scores, k), Written(s.log, k));
      TallyConcat(s.db.scores, Effects(tx), k);
      if k == id {
        UpdatedCounts(s.db.issues[id], tx, Tally(s.db.scores, id), Written(s.log, id), Tally(Effects(tx), id));
      } else {
        NoTally(Effects(tx), k);
      }
    }
  }

  /** Earlier entries of the log stay true of the updated issue, and the new one is. */
  lemma UpdatedKeepsEntry(c: Committed, i: Issue, tx: Tx)
    requires Guard(i, tx) && GoodEntry(c, i)
    ensures GoodEntry(c, Updated(i, tx))
  {
  }

  lemma {:induction false} NewEntry(id: int, h: seq<Issue>, seen: nat, r: Request, i: Issue)
    requires GoodHistory(h, i) && GoodIssue(i) && seen < |h| && Decide(id, h[seen], r).Some?
    requires Guard(i, Decide(id, h[seen], r).value)
    ensures var tx := Decide(id, h[seen], r).value;
            GoodEntry(Committed(id, tx, h[seen].version, i.version), Updated(i, tx))
  {
    var tx := Decide(id, h[seen], r).value;
    if tx.CloseTx? && tx.version == Some(h[seen].version) {
      assert h[seen] == i;
    }
  }

  lemma {:induction false} CommitKeepsLog(s: State, id: int, seen: nat, r: Request)
    requires GoodTables(s) && GoodLog(s) && id in s.history && seen < |s.history[id]|
    requires Decide(id, s.history[id][seen], r).Some?
    requires Commit(s.db, id, Decide(id, s.history[id][seen], r).value).Some?
    ensures GoodLog(CallService(s, id, seen, r))
  {
    var i := s.db.issues[id];
    var tx := Decide(id, s.history[id][seen], r).value;
    var u := CallService(s, id, seen, r);
    CommitTables(s, id, s.history[id][seen], r);
    assert GoodIssue(i) && GoodHistory(s.history[id], i);
    NewEntry(id, s.history[id], seen, r, i);
    forall k | 0 <= k < |u.log|
      ensures u.log[k].id in u.db.issues && GoodEntry(u.log[k], u.db.issues[u.log[k].id])
    {
      if k < |s.log| {
        assert GoodEntry(s.log[k], s.db.issues[s.log[k].id]);
        if s.log[k].id == id { UpdatedKeepsEntry(s.log[k], i, tx); }
      }
    }
  }

  lemma {:induction false} CallKeepsGood(s: State, id: int, seen: nat, r: Request)
    requires Good(s) && id in s.history && seen < |s.history[id]|
    ensures Good(CallService(s, id, seen, r))
  {
    var d := Decide(id, s.history[id][seen], r);
    if d.Some? && Commit(s.db, id, d.value).Some? {
      CommitKeepsTables(s, id, s.history[id][seen], r);
      CommitKeepsScores(s, id, s.history[id][seen], r);
      CommitKeepsLog(s, id, seen, r);
    }
  }

  lemma StepKeepsGood(s: State, e: Event)
    requires Good(s)
    ensures Good(Step(s, e))
  {
    if e.Sync? {
      SyncKeepsTables(s, e);
      SyncKeepsLog(s, e);
      SyncKeepsScores(s, e);
    } else if e.Call? {
      if e.id in s.history && e.seen < |s.history[e.id]| {
        CallKeepsGood(s, e.id, e.seen, e.request);
      }
    } else {
      OtherScoreKeepsGood(s, e.score);
    }
  }

  lemma {:induction false} FollowIsGood(s: State, more: seq<Event>)
    requires Good(s)
    ensures Good(Follow(s, more))
  {
    if more != [] {
      FollowIsGood(s, more[..|more| - 1]);
      StepKeepsGood(Follow(s, more[..|more| - 1]), more[|more| - 1]);
    }
  }

  lemma RunIsGood(events: seq<Event>)
    ensures Good(Run(events))
  {
    FollowIsGood(START, events);
  }

  // ---------- what holds in every run ----------

  /** Every issue after every run of requests. */
  lemma EveryIssue(events: seq<Event>, id: int)
    requires id in Run(events).db.issues
    ensures var i := Run(events).db.issues[id];
            var w := Written(Run(events).log, id);
            var c := Tally(Run(events).db.scores, id);
            && i.version == 1 + w.all
            && (i.status == PendingReview || i.status == Closed ==>
                  i.resolver.Some? && i.photoAfter.Some? && i.resolvedAt.Some?)
            && 1 <= i.rating <= 5
            && (i.owner.causeStatus == Confirmed <==> i.owner.causeTeam.Some?)
            && c.creation == 1
            && 0 <= c.reward && 0 <= c.invalid && c.reward + c.invalid <= 1
            && c.reopen <= w.reopened <= w.resolved
  {
    RunIsGood(events);
    var s := Run(events);
    assert GoodIssue(s.db.issues[id]) && GoodCounts(s.db.issues[id], Tally(s.db.scores, id), Written(s.log, id));
  }

  /** Of all requests that name the same version of an issue, at most one commits. */
  lemma OneCommitPerVersion(events: seq<Event>, j: nat, k: nat)
    requires j < |Run(events).log| && k < |Run(events).log| && Run(events).log[j].id == Run(events).log[k].id
    requires ExpectedVersion(Run(events).log[j].tx).Some?
    requires ExpectedVersion(Run(events).log[j].tx) == ExpectedVersion(Run(events).log[k].tx)
    ensures j == k
  {
    RunIsGood(events);
    var s := Run(events);
    assert GoodEntry(s.log[j], s.db.issues[s.log[j].id]) && GoodEntry(s.log[k], s.db.issues[s.log[k].id]);
    assert s.log[j].at == s.log[k].at;
  }

  /** Whoever closed an issue at the version they had seen is not the one who resolved it. */
  lemma CheckedCloseIsReviewed(events: seq<Event>, k: nat)
    requires k < |Run(events).log| && CheckedClose(Run(events).log[k])
    ensures var c := Run(events).log[k];
            && c.id in Run(events).db.issues
            && Run(events).db.issues[c.id].status == Closed
            && Run(events).db.issues[c.id].resolver.Some?
            && Run(events).db.issues[c.id].resolver.value != c.tx.user
  {
    RunIsGood(events);
    var s := Run(events);
    assert GoodEntry(s.log[k], s.db.issues[s.log[k].id]);
  }

  lemma {:induction false} FollowTwice(s: State, first: seq<Event>, second: seq<Event>)
    ensures Follow(s, first + second) == Follow(Follow(s, first), second)
  {
    if second == [] {
      assert first + second == first;
    } else {
      FollowTwice(s, first, second[..|second| - 1]);
      assert (first + second)[..|first + second| - 1] == first + second[..|second| - 1];
    }
  }

  /** What a step leaves of an issue: its history is only appended to, and a final status is kept. */
  ghost predicate Continues(s: State, u: State, id: int) {
    && id in s.history && id in u.history && |s.history[id]| <= |u.history[id]|
    && (forall k :: 0 <= k < |s.history[id]| ==> u.history[id][k] == s.history[id][k])
    && id in s.db.issues && id in u.db.issues
    && (s.db.issues[id].status == Closed || s.db.issues[id].status == Invalid ==>
          u.db.issues[id].status == s.db.issues[id].status)
  }

  lemma {:induction false} SyncContinues(s: State, e: Event, id: int)
    requires e.Sync? && GoodTables(s) && id in s.db.issues
    ensures Continues(s, SyncStep(s, e), id)
  {
    assert s.db.nextId !in s.db.issues;
  }

  lemma {:induction false} CommitContinues(s: State, called: int, seen: Issue, r: Request, id: int)
    requires GoodTables(s) && called in s.history && id in s.db.issues && Decide(called, seen, r).Some?
    ensures Continues(s, CommitTx(s, called, Decide(called, seen, r).value, seen.version), id)
  {
    if Commit(s.db, called, Decide(called, seen, r).value).Some? {
      CommitTables(s, called, seen, r);
    }
  }

  lemma {:induction false} StepContinues(s: State, e: Event, id: int)
    requires Good(s) && id in s.db.issues
    ensures Continues(s, Step(s, e), id)
  {
    if e.Sync? {
      SyncContinues(s, e, id);
    } else if e.Call? && e.id in s.history && e.seen < |s.history[e.id]|
              && Decide(e.id, s.history[e.id][e.seen], e.request).Some?
    {
      CommitContinues(s, e.id, s.history[e.id][e.seen], e.request, id);
    }
  }

  lemma {:induction false} FollowContinues(s: State, more: seq<Event>, id: int)
    requires Good(s) && id in s.db.issues
    ensures Good(Follow(s, more)) && Continues(s, Follow(s, more), id)
  {
    FollowIsGood(s, more);
    if more != [] {
      var u := Follow(s, more[..|more| - 1]);
      FollowContinues(s, more[..|more| - 1], id);
      StepContinues(u, more[|more| - 1], id);
    }
  }

  /** CLOSED and INVALID are never left. */
  lemma FinalStatus(events: seq<Event>, more: seq<Event>, id: int)
    requires id in Run(events).db.issues && Run(events).db.issues[id].status in {Closed, Invalid}
    ensures id in Run(events + more).db.issues
    ensures Run(events + more).db.issues[id].status == Run(events).db.issues[id].status
  {
    RunIsGood(events);
    FollowTwice(START, events, more);
    FollowContinues(Run(events), more, id);
  }

  // ---------- reaching a later version ----------

  const TOUCH := PatchFields(true, true, None, None, None)

  lemma {:induction false} TouchOnce(s: State, id: int)
    requires GoodTables(s) && id in s.db.issues && !s.db.issues[id].deleted && s.db.issues[id].version < INT32_MAX
    ensures var i := s.db.issues[id];
            id in s.history && |s.history[id]| > 0
            && CallService(s, id, 0, TOUCH).db.issues == s.db.issues[id := i.(version := i.version + 1)]
  {
    assert GoodHistory(s.history[id], s.db.issues[id]);
    CommitTables(s, id, s.history[id][0], TOUCH);
  }

  /** A field patch without an expected version raises the version and may change nothing else. */
  lemma {:induction false} TouchManyTimes(s: State, id: int, n: nat) returns (more: seq<Event>)
    requires Good(s) && id in s.db.issues && !s.db.issues[id].deleted && s.db.issues[id].version + n <= INT32_MAX
    ensures forall k :: 0 <= k < |more| ==> more[k] == Call(id, 0, TOUCH)
    ensures var u := Follow(s, more);
            id in u.db.issues && u.db.issues[id] == s.db.issues[id].(version := s.db.issues[id].version + n)
  {
    if n == 0 {
      more := [];
    } else {
      var fewer := TouchManyTimes(s, id, n - 1);
      FollowContinues(s, fewer, id);
      TouchOnce(Follow(s, fewer), id);
      more := fewer + [Call(id, 0, TOUCH)];
      assert more[..|more| - 1] == fewer;
    }
  }

  /** The last version at which an issue is still as it was read, but for a restoration. */
  function LastSame(i: Issue): int {
    i.version + (if i.deleted then 1 else 0)
  }

  /** Up to that version the history shows the issue as it was read. */
  lemma SameUntilThen(h: seq<Issue>, i: Issue, seen: nat)
    requires GoodHistory(h, i) && seen < |h| && i.version <= LastSame(h[seen])
    ensures i == h[seen] || i == h[seen].(version := h[seen].version + 1, deleted := false)
  {
  }

  /** A transaction that names a version later than that, or none, may meet the issue changed; past int32 no
      transaction commits. */
  predicate MayMeetChanged(version: Option<int>, i: Issue) {
    LastSame(i) < (if version.Some? then version.value else LastSame(i) + 1) < INT32_MAX
  }

  const RESTORE_BY := 1

  function Revive(s: State, id: int): Event
    requires id in s.db.issues && id in s.history && |s.history[id]| > 0
  {
    Call(id, |s.history[id]| - 1, Restore(RESTORE_BY, true, s.db.issues[id].version))
  }

  lemma {:induction false} ReviveRestores(s: State, id: int)
    requires GoodTables(s) && id in s.db.issues && s.db.issues[id].deleted && s.db.issues[id].version < INT32_MAX
    ensures id in s.history && |s.history[id]| > 0
    ensures var i := s.db.issues[id];
            Step(s, Revive(s, id)).db.issues == s.db.issues[id := i.(version := i.version + 1, deleted := false)]
  {
    assert GoodHistory(s.history[id], s.db.issues[id]) && GoodIssue(s.db.issues[id]);
    CommitTables(s, id, s.db.issues[id], Revive(s, id).request);
  }

  /** The issue as it is, restored if it was deleted. */
  lemma {:induction false} Alive(s: State, id: int) returns (more: seq<Event>)
    requires Good(s) && id in s.db.issues && LastSame(s.db.issues[id]) <= INT32_MAX
    ensures |more| <= 1 && forall e :: e in more ==> e.Call? && e.request.Restore?
    ensures var i := s.db.issues[id]; var u := Follow(s, more);
            id in u.db.issues && u.db.issues[id] == i.(version := LastSame(i), deleted := false)
  {
    if s.db.issues[id].deleted {
      ReviveRestores(s, id);
      FollowOne(s, Revive(s, id));
      more := [Revive(s, id)];
    } else {
      more := [];
    }
  }

  lemma {:induction false} FollowOne(s: State, e: Event)
    ensures Follow(s, [e]) == Step(s, e)
  {
    assert [e][..0] == [];
    assert Follow(s, []) == s;
  }
}
