/**
 Applying the adjustments to the score ledger, and what a repricing conserves. The ledger is the
 score_logs table in id order; deleted is the set of soft-deleted issues.
 */
module ScoreLedger {
  import opened Options
  import opened ScoreRepricing

  function RowOf(e: Entry, now: int): ScoreLog {
    ScoreLog(e.issue, e.targetType, e.targetId, e.ruleKey, e.points, now, ParsePenaltyDate(e.penaltyDate))
  }

  /** uq_score_logs_overdue: one dated row for each issue, rule and date. */
  predicate SameKey(a: ScoreLog, b: ScoreLog) {
    a.penaltyDate.Some? && a.penaltyDate == b.penaltyDate && a.issue == b.issue && a.ruleKey == b.ruleKey
  }

  predicate Taken(ledger: seq<ScoreLog>, row: ScoreLog) {
    exists log | log in ledger :: SameKey(log, row)
  }

  /** INSERT ... ON CONFLICT DO NOTHING, row after row. */
  function InsertEntries(ledger: seq<ScoreLog>, entries: seq<Entry>, now: int): seq<ScoreLog> {
    if entries == [] then ledger
    else
      var before := InsertEntries(ledger, entries[..|entries| - 1], now);
      var row := RowOf(entries[|entries| - 1], now);
      if Taken(before, row) then before else before + [row]
  }

  /** InsertScoreLogsForIssue: nothing is inserted for a soft-deleted issue. */
  function InsertBatch(ledger: seq<ScoreLog>, deleted: set<int>, b: Batch, now: int): seq<ScoreLog>
    requires Aligned(b)
  {
    if b.issue in deleted then ledger else InsertEntries(ledger, Entries(b), now)
  }

  ghost predicate AllAligned(batches: seq<Batch>) {
    forall k :: 0 <= k < |batches| ==> Aligned(batches[k])
  }

  ghost function InsertAll(ledger: seq<ScoreLog>, deleted: set<int>, batches: seq<Batch>, now: int): seq<ScoreLog>
    requires AllAligned(batches)
  {
    if batches == [] then ledger
    else InsertBatch(InsertAll(ledger, deleted, batches[..|batches| - 1], now), deleted, batches[|batches| - 1], now)
  }

  /** ListScoreLogsSince */
  function Window(ledger: seq<ScoreLog>, deleted: set<int>, from: int): seq<ScoreLog> {
    if ledger == [] then []
    else
      var rest := Window(ledger[..|ledger| - 1], deleted, from);
      var last := ledger[|ledger| - 1];
      if last.createdAt >= from && last.issue !in deleted then rest + [last] else rest
  }

  // ---------- sums per target ----------

  function LogTarget(log: ScoreLog): Target {
    Target(log.targetType, log.targetId)
  }

  function Sum(logs: seq<ScoreLog>, t: Target): int {
    if logs == [] then 0
    else Sum(logs[..|logs| - 1], t) + (if LogTarget(logs[|logs| - 1]) == t then logs[|logs| - 1].points else 0)
  }

  /** The sum had every listed rule always had its new points; earlier adjustments are left out. */
  function RepricedSum(logs: seq<ScoreLog>, rules: map<string, int>, t: Target): int {
    if logs == [] then 0
    else
      var last := logs[|logs| - 1];
      RepricedSum(logs[..|logs| - 1], rules, t)
      + (if LogTarget(last) != t || last.ruleKey == RETRO then 0
         else if last.ruleKey in rules then rules[last.ruleKey] else last.points)
  }

  /** The sum of the adjustments that an earlier repricing left in the window. */
  function EarlierAdjustments(logs: seq<ScoreLog>, t: Target): int {
    if logs == [] then 0
    else
      var last := logs[|logs| - 1];
      EarlierAdjustments(logs[..|logs| - 1], t)
        + (if LogTarget(last) == t && last.ruleKey == RETRO then last.points else 0)
  }

  function EntrySum(entries: seq<Entry>, t: Target): int {
    if entries == [] then 0
    else
      var last := entries[|entries| - 1];
      EntrySum(entries[..|entries| - 1], t) + (if Target(last.targetType, last.targetId) == t then last.points else 0)
  }

  // ---------- no adjustment is refused ----------

  predicate Free(ledger: seq<ScoreLog>, before: seq<Entry>, e: Entry) {
    || e.penaltyDate == ""
    || (&& (forall log | log in ledger ::
              !(log.penaltyDate == Some(e.penaltyDate) && log.issue == e.issue && log.ruleKey == RETRO))
        && (forall x | x in before :: x.issue != e.issue || x.penaltyDate != e.penaltyDate))
  }

  /** No two dated adjustments share issue and date, and none shares them with an adjustment already in the ledger. */
  predicate NoClash(ledger: seq<ScoreLog>, entries: seq<Entry>) {
    entries == []
    || (NoClash(ledger, entries[..|entries| - 1])
        && Free(ledger, entries[..|entries| - 1], entries[|entries| - 1]))
  }

  function Rows(entries: seq<Entry>, now: int): seq<ScoreLog> {
    seq(|entries|, i requires 0 <= i < |entries| => RowOf(entries[i], now))
  }

  ghost predicate Retros(entries: seq<Entry>) {
    forall e :: e in entries ==> e.ruleKey == RETRO
  }

  lemma {:induction false} InsertedRows(ledger: seq<ScoreLog>, entries: seq<Entry>, now: int)
    requires Retros(entries)
    ensures |InsertEntries(ledger, entries, now)| <= |ledger| + |entries|
    ensures |InsertEntries(ledger, entries, now)| == |ledger| + |entries| <==> NoClash(ledger, entries)
    ensures NoClash(ledger, entries) ==> InsertEntries(ledger, entries, now) == ledger + Rows(entries, now)
  {
    if entries != [] {
      var before, e := entries[..|entries| - 1], entries[|entries| - 1];
      assert entries == before + [e];
      InsertedRows(ledger, before, now);
      if NoClash(ledger, before) {
        TakenIffNotFree(ledger, before, e, now);
        assert Rows(entries, now) == Rows(before, now) + [RowOf(e, now)];
      }
    }
  }

  lemma TakenIffNotFree(ledger: seq<ScoreLog>, before: seq<Entry>, e: Entry, now: int)
    requires Retros(before) && e.ruleKey == RETRO
    ensures Taken(ledger + Rows(before, now), RowOf(e, now)) <==> !Free(ledger, before, e)
  {
    var all, row := ledger + Rows(before, now), RowOf(e, now);
    forall x | x in before
      ensures RowOf(x, now) in all
      ensures SameKey(RowOf(x, now), row)
              <==> e.penaltyDate != "" && x.issue == e.issue && x.penaltyDate == e.penaltyDate
    {
      var i :| 0 <= i < |before| && before[i] == x;
      assert all[|ledger| + i] == RowOf(x, now);
    }
    forall log | log in all
      ensures log in ledger || exists x :: x in before && log == RowOf(x, now)
    {
      var i :| 0 <= i < |all| && all[i] == log;
      if i >= |ledger| {
        assert before[i - |ledger|] in before && log == RowOf(before[i - |ledger|], now);
      }
    }
    assert forall log :: log in ledger ==> log in all;
  }

  // ---------- grouping is a permutation ----------

  /** What the batches of issues that are still there hold, in insertion order. */
  ghost function Flatten(batches: seq<Batch>, deleted: set<int>): seq<Entry>
    requires AllAligned(batches)
  {
    if batches == [] then []
    else
      var rest := Flatten(batches[..|batches| - 1], deleted);
      var b := batches[|batches| - 1];
      if b.issue in deleted then rest else rest + Entries(b)
  }

  lemma {:induction false} InsertConcat(ledger: seq<ScoreLog>, a: seq<Entry>, b: seq<Entry>, now: int)
    ensures InsertEntries(ledger, a + b, now) == InsertEntries(InsertEntries(ledger, a, now), b, now)
  {
    if b == [] {
      assert a + b == a;
    } else {
      InsertConcat(ledger, a, b[..|b| - 1], now);
      assert (a + b)[..|a + b| - 1] == a + b[..|b| - 1];
    }
  }

  lemma {:induction false} InsertAllIsFlat(ledger: seq<ScoreLog>, deleted: set<int>, batches: seq<Batch>, now: int)
    requires AllAligned(batches)
    ensures InsertAll(ledger, deleted, batches, now) == InsertEntries(ledger, Flatten(batches, deleted), now)
  {
    if batches != [] {
      var rest, b := batches[..|batches| - 1], batches[|batches| - 1];
      InsertAllIsFlat(ledger, deleted, rest, now);
      if b.issue !in deleted {
        InsertConcat(ledger, Flatten(rest, deleted), Entries(b), now);
      }
    }
  }

  lemma {:induction false} OfIssueConcat(a: seq<Entry>, b: seq<Entry>, issue: int)
    ensures OfIssue(a + b, issue) == OfIssue(a, issue) + OfIssue(b, issue)
  {
    if b == [] {
      assert a + b == a;
    } else {
      OfIssueConcat(a, b[..|b| - 1], issue);
      assert (a + b)[..|a + b| - 1] == a + b[..|b| - 1];
    }
  }

  lemma {:induction false} OfIssueUniform(entries: seq<Entry>, owner: int, issue: int)
    requires forall e :: e in entries ==> e.issue == owner
    ensures OfIssue(entries, issue) == if issue == owner then entries else []
  {
    if entries != [] {
      OfIssueUniform(entries[..|entries| - 1], owner, issue);
    }
  }

  /** Each issue that is still there finds its own entries in the flattened batches, in order; others find none. */
  lemma {:induction false} FlattenOfIssue(batches: seq<Batch>, deleted: set<int>, issue: int)
    requires AllAligned(batches)
    requires forall j, k :: 0 <= j < k < |batches| ==> batches[j].issue < batches[k].issue
    ensures forall k :: 0 <= k < |batches| && batches[k].issue == issue ==>
              OfIssue(Flatten(batches, deleted), issue) == if issue in deleted then [] else Entries(batches[k])
    ensures (forall k :: 0 <= k < |batches| ==> batches[k].issue != issue) ==>
              OfIssue(Flatten(batches, deleted), issue) == []
  {
    if batches != [] {
      var rest, b := batches[..|batches| - 1], batches[|batches| - 1];
      FlattenOfIssue(rest, deleted, issue);
      LastBatchOfIssue(batches, deleted, issue);
      if b.issue == issue {
        assert forall k :: 0 <= k < |rest| ==> rest[k].issue < issue;
      }
    }
  }

  lemma LastBatchOfIssue(batches: seq<Batch>, deleted: set<int>, issue: int)
    requires AllAligned(batches) && batches != []
    ensures var rest, b := batches[..|batches| - 1], batches[|batches| - 1];
            OfIssue(Flatten(batches, deleted), issue)
            == OfIssue(Flatten(rest, deleted), issue)
               + (if b.issue == issue && b.issue !in deleted then Entries(b) else [])
  {
    var rest, b := batches[..|batches| - 1], batches[|batches| - 1];
    OfIssueConcat(Flatten(rest, deleted), Entries(b), issue);
    OfIssueUniform(Entries(b), b.issue, issue);
  }

  lemma {:induction false} CountOfIssue(entries: seq<Entry>, e: Entry)
    ensures multiset(entries)[e] == multiset(OfIssue(entries, e.issue))[e]
  {
    if entries != [] {
      CountOfIssue(entries[..|entries| - 1], e);
      assert entries == entries[..|entries| - 1] + [entries[|entries| - 1]];
    }
  }

  ghost predicate SameGroups(a: seq<Entry>, b: seq<Entry>) {
    forall issue :: OfIssue(a, issue) == OfIssue(b, issue)
  }

  /** Two lists with the same entries for every issue are permutations of each other. */
  lemma SameGroupsPermute(a: seq<Entry>, b: seq<Entry>)
    requires SameGroups(a, b)
    ensures multiset(a) == multiset(b)
  {
    forall e ensures multiset(a)[e] == multiset(b)[e] {
      CountOfIssue(a, e);
      CountOfIssue(b, e);
    }
  }

  /** The batches hold exactly the adjustments of the logs, regrouped. */
  lemma BatchesPermuteAdjustments(batches: seq<Batch>, entries: seq<Entry>)
    requires Groups(batches, entries)
    ensures AllAligned(batches) && multiset(Flatten(batches, {})) == multiset(entries)
  {
    forall issue ensures OfIssue(Flatten(batches, {}), issue) == OfIssue(entries, issue) {
      FlattenOfIssue(batches, {}, issue);
    }
    SameGroupsPermute(Flatten(batches, {}), entries);
  }

  lemma {:induction false} SumOfPermutation(a: seq<Entry>, b: seq<Entry>, t: Target)
    requires multiset(a) == multiset(b)
    ensures EntrySum(a, t) == EntrySum(b, t)
    decreases |a|
  {
    if a == [] {
      assert |b| == |multiset(b)| == 0;
    } else {
      var i := |a| - 1;
      assert a[i] in multiset(b) by {
        assert a[i] in multiset(a);
      }
      var j :| 0 <= j < |b| && b[j] == a[i];
      TakeOut(a, i, t);
      TakeOut(b, j, t);
      SameWithout(multiset(Without(a, i)), multiset(Without(b, j)), a[i]);
      SumOfPermutation(Without(a, i), Without(b, j), t);
    }
  }

  ghost function Without(b: seq<Entry>, j: nat): seq<Entry>
    requires j < |b|
  {
    b[..j] + b[j + 1..]
  }

  lemma TakeOut(b: seq<Entry>, j: nat, t: Target)
    requires j < |b|
    ensures multiset(b) == multiset(Without(b, j)) + multiset{b[j]}
    ensures EntrySum(b, t) == EntrySum(Without(b, j), t) + EntrySum([b[j]], t)
  {
    SumWithout(b[..j], b[j], b[j + 1..], t);
    assert b == b[..j] + [b[j]] + b[j + 1..];
  }

  lemma SameWithout(m: multiset<Entry>, n: multiset<Entry>, e: Entry)
    requires m + multiset{e} == n + multiset{e}
    ensures m == n
  {
    forall x ensures m[x] == n[x] {
      assert (m + multiset{e})[x] == (n + multiset{e})[x];
    }
  }

  lemma {:induction false} SumConcat(a: seq<Entry>, b: seq<Entry>, t: Target)
    ensures EntrySum(a + b, t) == EntrySum(a, t) + EntrySum(b, t)
  {
    if b == [] {
      assert a + b == a;
    } else {
      SumConcat(a, b[..|b| - 1], t);
      assert (a + b)[..|a + b| - 1] == a + b[..|b| - 1];
    }
  }

  lemma SumWithout(a: seq<Entry>, e: Entry, b: seq<Entry>, t: Target)
    ensures EntrySum(a + [e] + b, t) == EntrySum(a + b, t) + EntrySum([e], t)
  {
    SumConcat(a + [e], b, t);
    SumConcat(a, [e], t);
    SumConcat(a, b, t);
  }

  /** Whether the last entry is free depends only on the entries of its own issue. */
  lemma NoClashLast(ledger: seq<ScoreLog>, before: seq<Entry>, e: Entry)
    ensures NoClash(ledger, before + [e]) <==> NoClash(ledger, before) && Free(ledger, before, e)
    ensures OfIssue(before + [e], e.issue) == OfIssue(before, e.issue) + [e]
    ensures forall issue :: issue != e.issue ==> OfIssue(before + [e], issue) == OfIssue(before, issue)
    ensures NoClash(ledger, OfIssue(before, e.issue) + [e])
            <==> NoClash(ledger, OfIssue(before, e.issue)) && Free(ledger, before, e)
  {
    var own := OfIssue(before, e.issue);
    assert (before + [e])[..|before|] == before;
    assert (own + [e])[..|own|] == own;
    OfIssueMembers(before, e.issue);
    assert Free(ledger, before, e) <==> Free(ledger, own, e);
  }

  lemma {:induction false} NoClashOfIssue(ledger: seq<ScoreLog>, entries: seq<Entry>, issue: int)
    requires NoClash(ledger, entries)
    ensures NoClash(ledger, OfIssue(entries, issue))
  {
    if entries != [] {
      var before, e := entries[..|entries| - 1], entries[|entries| - 1];
      assert entries == before + [e];
      NoClashLast(ledger, before, e);
      NoClashOfIssue(ledger, before, issue);
    }
  }

  lemma {:induction false} NoClashByIssue(ledger: seq<ScoreLog>, entries: seq<Entry>)
    requires forall issue :: NoClash(ledger, OfIssue(entries, issue))
    ensures NoClash(ledger, entries)
  {
    if entries != [] {
      var before, e := entries[..|entries| - 1], entries[|entries| - 1];
      assert entries == before + [e];
      NoClashLast(ledger, before, e);
      assert NoClash(ledger, OfIssue(entries, e.issue));
      forall issue ensures NoClash(ledger, OfIssue(before, issue)) {
        assert NoClash(ledger, OfIssue(entries, issue));
      }
      NoClashByIssue(ledger, before);
    }
  }

  /** Regrouping keeps clashes and sums. */
  lemma SameGroupsAgree(ledger: seq<ScoreLog>, a: seq<Entry>, b: seq<Entry>, t: Target)
    requires SameGroups(a, b)
    ensures NoClash(ledger, a) <==> NoClash(ledger, b)
    ensures EntrySum(a, t) == EntrySum(b, t) && |a| == |b|
  {
    SameGroupsPermute(a, b);
    SumOfPermutation(a, b, t);
    assert |multiset(a)| == |multiset(b)|;
    if NoClash(ledger, a) {
      forall issue ensures NoClash(ledger, OfIssue(b, issue)) {
        NoClashOfIssue(ledger, a, issue);
        assert OfIssue(a, issue) == OfIssue(b, issue);
      }
      NoClashByIssue(ledger, b);
    }
    if NoClash(ledger, b) {
      forall issue ensures NoClash(ledger, OfIssue(a, issue)) {
        NoClashOfIssue(ledger, b, issue);
        assert OfIssue(a, issue) == OfIssue(b, issue);
      }
      NoClashByIssue(ledger, a);
    }
  }

  // ---------- deletions between reading and applying ----------

  /** The adjustments read earlier, without those of issues deleted since, are the adjustments of today's window. */
  lemma {:induction false} LaterDeletions(ledger: seq<ScoreLog>, before: set<int>, after: set<int>, from: int,
                                          rules: map<string, int>, issue: int)
    requires before <= after
    ensures OfIssue(Adjustments(Window(ledger, after, from), rules), issue)
            == if issue in after then [] else OfIssue(Adjustments(Window(ledger, before, from), rules), issue)
  {
    if ledger != [] {
      var last := ledger[|ledger| - 1];
      LaterDeletions(ledger[..|ledger| - 1], before, after, from, rules, issue);
      AdjustmentsLast(Window(ledger[..|ledger| - 1], after, from), last, rules, issue);
      AdjustmentsLast(Window(ledger[..|ledger| - 1], before, from), last, rules, issue);
    }
  }

  lemma AdjustmentsLast(logs: seq<ScoreLog>, last: ScoreLog, rules: map<string, int>, issue: int)
    ensures OfIssue(Adjustments(logs + [last], rules), issue)
            == OfIssue(Adjustments(logs, rules), issue)
               + (if last.issue == issue && Adjustment(last, rules).Some? then [Adjustment(last, rules).value] else [])
  {
    assert (logs + [last])[..|logs|] == logs;
    var rest := Adjustments(logs, rules);
    if Adjustment(last, rules).Some? {
      assert (rest + [Adjustment(last, rules).value])[..|rest|] == rest;
    }
  }

  lemma {:induction false} AdjustmentsAreRetros(logs: seq<ScoreLog>, rules: map<string, int>)
    ensures Retros(Adjustments(logs, rules))
    ensures forall e :: e in Adjustments(logs, rules) ==> exists log :: log in logs && log.issue == e.issue
  {
    if logs != [] {
      AdjustmentsAreRetros(logs[..|logs| - 1], rules);
      var last := logs[|logs| - 1];
      assert last in logs;
      assert forall log :: log in logs[..|logs| - 1] ==> log in logs;
    }
  }

  /** The batches read under one set of deleted issues and applied under another: what is applied are the
      adjustments of the logs whose issues are in neither. */
  lemma AppliedGroups(batches: seq<Batch>, ledger: seq<ScoreLog>, before: set<int>, after: set<int>, from: int,
                      rules: map<string, int>)
    requires Groups(batches, Adjustments(Window(ledger, before, from), rules))
    ensures AllAligned(batches)
    ensures SameGroups(Flatten(batches, after), Adjustments(Window(ledger, before + after, from), rules))
  {
    forall issue
      ensures OfIssue(Flatten(batches, after), issue)
              == OfIssue(Adjustments(Window(ledger, before + after, from), rules), issue)
    {
      FlattenOfIssue(batches, after, issue);
      LaterDeletions(ledger, before, before + after, from, rules, issue);
      LaterDeletions(ledger, before, before, from, rules, issue);
    }
  }

  // ---------- what is dropped ----------

  /** The entries that ON CONFLICT DO NOTHING drops, and those it lets through. */
  function Dropped(ledger: seq<ScoreLog>, entries: seq<Entry>, now: int): seq<Entry> {
    if entries == [] then []
    else
      var before, last := entries[..|entries| - 1], entries[|entries| - 1];
      if Taken(InsertEntries(ledger, before, now), RowOf(last, now)) then Dropped(ledger, before, now) + [last]
      else Dropped(ledger, before, now)
  }

  function Kept(ledger: seq<ScoreLog>, entries: seq<Entry>, now: int): seq<Entry> {
    if entries == [] then []
    else
      var before, last := entries[..|entries| - 1], entries[|entries| - 1];
      if Taken(InsertEntries(ledger, before, now), RowOf(last, now)) then Kept(ledger, before, now)
      else Kept(ledger, before, now) + [last]
  }

  lemma {:induction false} KeptRows(ledger: seq<ScoreLog>, entries: seq<Entry>, now: int)
    ensures InsertEntries(ledger, entries, now) == ledger + Rows(Kept(ledger, entries, now), now)
    ensures forall e :: e in Kept(ledger, entries, now) ==> e in entries
  {
    if entries != [] {
      var before, last := entries[..|entries| - 1], entries[|entries| - 1];
      KeptRows(ledger, before, now);
      assert entries == before + [last];
      assert Rows(Kept(ledger, before, now) + [last], now) == Rows(Kept(ledger, before, now), now) + [RowOf(last, now)];
    }
  }

  lemma {:induction false} KeptOrDropped(ledger: seq<ScoreLog>, entries: seq<Entry>, now: int, t: Target)
    ensures EntrySum(entries, t) == EntrySum(Kept(ledger, entries, now), t) + EntrySum(Dropped(ledger, entries, now), t)
    ensures |entries| == |Kept(ledger, entries, now)| + |Dropped(ledger, entries, now)|
  {
    if entries != [] {
      var before, last := entries[..|entries| - 1], entries[|entries| - 1];
      KeptOrDropped(ledger, before, now, t);
      assert entries == before + [last];
      SumConcat(before, [last], t);
      SumConcat(Kept(ledger, before, now), [last], t);
      SumConcat(Dropped(ledger, before, now), [last], t);
    }
  }

  // ---------- conservation ----------

  /** Every log of a listed rule carries points that are valid for its rule. All scores are written with the points
      that their rule has at that moment, the overdue scan's without a check of their sign; the sign holds because
      UpdateRules, which checks it, is the only writer of rules. */
  ghost predicate Signed(logs: seq<ScoreLog>, rules: map<string, int>) {
    forall log :: log in logs && log.ruleKey in rules ==>
      ValidRule(log.ruleKey, log.points) && ValidRule(log.ruleKey, rules[log.ruleKey])
  }

  lemma {:induction false} AdjustmentsReprice(logs: seq<ScoreLog>, rules: map<string, int>, t: Target)
    requires Signed(logs, rules) && RETRO !in rules
    ensures Sum(logs, t) + EntrySum(Adjustments(logs, rules), t)
            == RepricedSum(logs, rules, t) + EarlierAdjustments(logs, t)
  {
    if logs != [] {
      var before, last := logs[..|logs| - 1], logs[|logs| - 1];
      assert logs == before + [last];
      AdjustmentsReprice(before, rules, t);
      var rest := Adjustments(before, rules);
      match Adjustment(last, rules) {
        case None =>
        case Some(e) =>
          assert last in logs;
          RepriceNeverWraps(last.ruleKey, rules[last.ruleKey], last.points);
          SumConcat(rest, [e], t);
          assert EntrySum([e], t) == if LogTarget(last) == t then e.points else 0 by {
            assert [e][..0] == [];
          }
      }
    }
  }

  lemma {:induction false} WindowOfAppended(ledger: seq<ScoreLog>, rows: seq<ScoreLog>, deleted: set<int>, from: int)
    requires forall row :: row in rows ==> row.createdAt >= from && row.issue !in deleted
    ensures Window(ledger + rows, deleted, from) == Window(ledger, deleted, from) + rows
  {
    if rows == [] {
      assert ledger + rows == ledger;
    } else {
      var last := rows[|rows| - 1];
      WindowOfAppended(ledger, rows[..|rows| - 1], deleted, from);
      assert (ledger + rows)[..|ledger + rows| - 1] == ledger + rows[..|rows| - 1];
      assert rows == rows[..|rows| - 1] + [last];
    }
  }

  lemma {:induction false} SumAppended(logs: seq<ScoreLog>, entries: seq<Entry>, now: int, t: Target)
    ensures Sum(logs + Rows(entries, now), t) == Sum(logs, t) + EntrySum(entries, t)
  {
    if entries == [] {
      assert logs + Rows(entries, now) == logs;
    } else {
      var before := entries[..|entries| - 1];
      SumAppended(logs, before, now, t);
      var all := logs + Rows(entries, now);
      assert all[..|all| - 1] == logs + Rows(before, now);
    }
  }

  lemma {:induction false} WindowMembers(ledger: seq<ScoreLog>, deleted: set<int>, from: int)
    ensures forall log ::
              log in Window(ledger, deleted, from) <==> log in ledger && log.createdAt >= from && log.issue !in deleted
  {
    if ledger != [] {
      WindowMembers(ledger[..|ledger| - 1], deleted, from);
      assert ledger == ledger[..|ledger| - 1] + [ledger[|ledger| - 1]];
    }
  }

  // ---------- what other requests commit between reading and applying ----------

  /** The logs of these issues. */
  function LogsOf(logs: seq<ScoreLog>, issues: set<int>): seq<ScoreLog> {
    if logs == [] then []
    else
      var rest, last := LogsOf(logs[..|logs| - 1], issues), logs[|logs| - 1];
      if last.issue in issues then rest + [last] else rest
  }

  /** The logs in the window at the time of applying that were not read: those of issues restored since,
      and those added since. */
  function Unread(ledger: seq<ScoreLog>, added: seq<ScoreLog>, before: set<int>, after: set<int>,
                  from: int): seq<ScoreLog>
  {
    LogsOf(Window(ledger, after, from), before) + Window(added, after, from)
  }

  lemma {:induction false} LogsOfMembers(logs: seq<ScoreLog>, issues: set<int>)
    ensures forall log :: log in LogsOf(logs, issues) <==> log in logs && log.issue in issues
  {
    if logs != [] {
      LogsOfMembers(logs[..|logs| - 1], issues);
      assert logs == logs[..|logs| - 1] + [logs[|logs| - 1]];
    }
  }

  lemma UnreadMembers(ledger: seq<ScoreLog>, added: seq<ScoreLog>, before: set<int>, after: set<int>, from: int)
    ensures forall log :: log in Unread(ledger, added, before, after, from) <==>
              (log in added || (log in ledger && log.issue in before)) && log.createdAt >= from && log.issue !in after
  {
    WindowMembers(ledger, after, from);
    WindowMembers(added, after, from);
    LogsOfMembers(Window(ledger, after, from), before);
  }

  lemma {:induction false} WindowConcat(a: seq<ScoreLog>, b: seq<ScoreLog>, deleted: set<int>, from: int)
    ensures Window(a + b, deleted, from) == Window(a, deleted, from) + Window(b, deleted, from)
  {
    if b == [] {
      assert a + b == a;
    } else {
      WindowConcat(a, b[..|b| - 1], deleted, from);
      assert (a + b)[..|a + b| - 1] == a + b[..|b| - 1];
    }
  }

  lemma {:induction false} AdjustmentsConcat(a: seq<ScoreLog>, b: seq<ScoreLog>, rules: map<string, int>)
    ensures Adjustments(a + b, rules) == Adjustments(a, rules) + Adjustments(b, rules)
  {
    if b == [] {
      assert a + b == a;
    } else {
      AdjustmentsConcat(a, b[..|b| - 1], rules);
      assert (a + b)[..|a + b| - 1] == a + b[..|b| - 1];
    }
  }

  /** The adjustment of the last log joins the others. */
  lemma AdjustmentsOfLast(logs: seq<ScoreLog>, last: ScoreLog, rules: map<string, int>, t: Target)
    ensures Adjustments(logs + [last], rules) == Adjustments(logs, rules) + Adjustments([last], rules)
    ensures EntrySum(Adjustments(logs + [last], rules), t)
            == EntrySum(Adjustments(logs, rules), t) + EntrySum(Adjustments([last], rules), t)
  {
    AdjustmentsConcat(logs, [last], rules);
    SumConcat(Adjustments(logs, rules), Adjustments([last], rules), t);
  }

  /** The window is split into the logs that were read and those of issues restored since. */
  lemma {:induction false} ReadOrRestored(ledger: seq<ScoreLog>, before: set<int>, after: set<int>, from: int,
                                          rules: map<string, int>, t: Target)
    ensures var all, read := Window(ledger, after, from), Window(ledger, before + after, from);
            var restored := LogsOf(all, before);
            && EntrySum(Adjustments(all, rules), t)
                 == EntrySum(Adjustments(read, rules), t) + EntrySum(Adjustments(restored, rules), t)
            && |Adjustments(all, rules)| == |Adjustments(read, rules)| + |Adjustments(restored, rules)|
  {
    if ledger != [] {
      var rest, last := ledger[..|ledger| - 1], ledger[|ledger| - 1];
      ReadOrRestored(rest, before, after, from, rules, t);
      WindowOfLast(rest, last, before, after, from);
      assert ledger == rest + [last];
      AdjustmentsOfLast(Window(rest, after, from), last, rules, t);
      AdjustmentsOfLast(Window(rest, before + after, from), last, rules, t);
      AdjustmentsOfLast(LogsOf(Window(rest, after, from), before), last, rules, t);
    }
  }

  lemma WindowOfLast(rest: seq<ScoreLog>, last: ScoreLog, before: set<int>, after: set<int>, from: int)
    ensures var now, there := [last], last.createdAt >= from && last.issue !in after;
            && Window(rest + now, after, from)
                 == (if there then Window(rest, after, from) + now else Window(rest, after, from))
            && Window(rest + now, before + after, from)
               == (if there && last.issue !in before then Window(rest, before + after, from) + now
                   else Window(rest, before + after, from))
            && LogsOf(Window(rest + now, after, from), before)
               == (if there && last.issue in before then LogsOf(Window(rest, after, from), before) + now
                   else LogsOf(Window(rest, after, from), before))
  {
    assert (rest + [last])[..|rest|] == rest;
    var window := Window(rest, after, from);
    assert (window + [last])[..|window|] == window;
  }

  /** The adjustments due at the time of applying: those of the logs read, and those of the logs unread. */
  lemma DueIsReadAndMissed(ledger: seq<ScoreLog>, added: seq<ScoreLog>, before: set<int>, after: set<int>, from: int,
                           rules: map<string, int>, t: Target)
    ensures var due := Adjustments(Window(ledger + added, after, from), rules);
            var read := Adjustments(Window(ledger, before + after, from), rules);
            var missed := Adjustments(Unread(ledger, added, before, after, from), rules);
            && EntrySum(due, t) == EntrySum(read, t) + EntrySum(missed, t)
            && |due| == |read| + |missed|
  {
    var window, late := Window(ledger, after, from), Window(added, after, from);
    var restored := LogsOf(window, before);
    ReadOrRestored(ledger, before, after, from, rules, t);
    WindowConcat(ledger, added, after, from);
    AdjustmentsConcat(window, late, rules);
    AdjustmentsConcat(restored, late, rules);
    SumConcat(Adjustments(window, rules), Adjustments(late, rules), t);
    SumConcat(Adjustments(restored, rules), Adjustments(late, rules), t);
  }

  lemma {:induction false} NoAdjustmentIff(logs: seq<ScoreLog>, rules: map<string, int>)
    requires RETRO !in rules
    ensures Adjustments(logs, rules) == []
            <==> forall log :: log in logs && log.ruleKey in rules ==> rules[log.ruleKey] == log.points
  {
    if logs != [] {
      NoAdjustmentIff(logs[..|logs| - 1], rules);
      assert logs == logs[..|logs| - 1] + [logs[|logs| - 1]];
    }
  }

  /** A repricing misses nothing exactly when no log that came into the window after it was read, whether
      added or of a restored issue, has a listed rule at other points than the new ones. */
  lemma NothingMissedIff(ledger: seq<ScoreLog>, added: seq<ScoreLog>, before: set<int>, after: set<int>, from: int,
                         rules: map<string, int>)
    requires RETRO !in rules
    ensures Adjustments(Unread(ledger, added, before, after, from), rules) == [] <==>
              forall log :: log in added || (log in ledger && log.issue in before) ==>
                log.createdAt < from || log.issue in after || log.ruleKey !in rules || rules[log.ruleKey] == log.points
  {
    UnreadMembers(ledger, added, before, after, from);
    NoAdjustmentIff(Unread(ledger, added, before, after, from), rules);
  }

  /**
   The batches were computed from the ledger and the deletions as read; by the time they are applied, rows
   have been added and issues deleted or restored. Each target's sum over the window then misses its repriced
   sum, plus what adjustments already in the window add, by exactly the adjustments dropped as clashing and
   those missed because their logs were not read. None is dropped exactly when no adjustment that was read
   clashes with another one or with the ledger it meets.
   */
  lemma RepricingConserves(ledger: seq<ScoreLog>, added: seq<ScoreLog>, before: set<int>, after: set<int>, from: int,
                           now: int, rules: map<string, int>, batches: seq<Batch>, t: Target)
    requires Groups(batches, Adjustments(Window(ledger, before, from), rules))
    requires forall log :: log in ledger ==> log.createdAt <= now
    requires RETRO !in rules && Signed(Window(ledger + added, after, from), rules)
    ensures AllAligned(batches)
    ensures var met := ledger + added;
            var window := Window(met, after, from);
            var read := Adjustments(Window(ledger, before + after, from), rules);
            var missed := Adjustments(Unread(ledger, added, before, after, from), rules);
            var dropped := Dropped(met, Flatten(batches, after), now);
            var applied := InsertAll(met, after, batches, now);
            && Sum(Window(applied, after, from), t) + EntrySum(dropped, t) + EntrySum(missed, t)
               == RepricedSum(window, rules, t) + EarlierAdjustments(window, t)
            && |applied| == |met| + |Adjustments(window, rules)| - |missed| - |dropped|
            && (dropped == [] <==> NoClash(met, read))
  {
    AppliedIsFlat(ledger, ledger + added, before, after, from, now, rules, batches, t);
    var flat := Flatten(batches, after);
    KeptRows(ledger + added, flat, now);
    KeptOrDropped(ledger + added, flat, now, t);
    PartConserves(ledger, added, flat, before, after, from, now, rules, t);
    DueIsReadAndMissed(ledger, added, before, after, from, rules, t);
    assert |multiset(flat)| == |multiset(Adjustments(Window(ledger, before + after, from), rules))|;
  }

  lemma AppliedIsFlat(ledger: seq<ScoreLog>, met: seq<ScoreLog>, before: set<int>, after: set<int>, from: int, now: int,
                      rules: map<string, int>, batches: seq<Batch>, t: Target)
    requires Groups(batches, Adjustments(Window(ledger, before, from), rules))
    ensures AllAligned(batches)
    ensures var read, flat := Adjustments(Window(ledger, before + after, from), rules), Flatten(batches, after);
            var applied := InsertAll(met, after, batches, now);
            && applied == InsertEntries(met, flat, now)
            && multiset(flat) == multiset(read)
            && (|applied| == |met| + |read| <==> NoClash(met, read))
  {
    var read := Adjustments(Window(ledger, before + after, from), rules);
    AppliedGroups(batches, ledger, before, after, from, rules);
    var flat := Flatten(batches, after);
    InsertAllIsFlat(met, after, batches, now);
    SameGroupsAgree(met, flat, read, t);
    SameGroupsPermute(flat, read);
    AdjustmentsAreRetros(Window(ledger, before + after, from), rules);
    forall e | e in flat ensures e in read {
      assert e in multiset(flat);
    }
    InsertedRows(met, flat, now);
  }

  /** What is kept of the adjustments lands in the window. */
  lemma KeptInWindow(ledger: seq<ScoreLog>, met: seq<ScoreLog>, flat: seq<Entry>, before: set<int>, after: set<int>,
                     from: int, now: int, rules: map<string, int>, t: Target)
    requires multiset(flat) == multiset(Adjustments(Window(ledger, before + after, from), rules))
    requires forall log :: log in ledger ==> log.createdAt <= now
    ensures Sum(Window(InsertEntries(met, flat, now), after, from), t)
            == Sum(Window(met, after, from), t) + EntrySum(Kept(met, flat, now), t)
  {
    var read := Adjustments(Window(ledger, before + after, from), rules);
    var kept := Kept(met, flat, now);
    KeptRows(met, flat, now);
    WindowMembers(ledger, before + after, from);
    AdjustmentsAreRetros(Window(ledger, before + after, from), rules);
    forall row | row in Rows(kept, now) ensures row.createdAt >= from && row.issue !in after {
      var i :| 0 <= i < |kept| && row == RowOf(kept[i], now);
      assert kept[i] in flat;
      assert kept[i] in multiset(flat);
      assert kept[i] in read;
    }
    WindowOfAppended(met, Rows(kept, now), after, from);
    SumAppended(Window(met, after, from), kept, now, t);
  }

  lemma PartConserves(ledger: seq<ScoreLog>, added: seq<ScoreLog>, flat: seq<Entry>, before: set<int>, after: set<int>,
                      from: int, now: int, rules: map<string, int>, t: Target)
    requires multiset(flat) == multiset(Adjustments(Window(ledger, before + after, from), rules))
    requires forall log :: log in ledger ==> log.createdAt <= now
    requires RETRO !in rules && Signed(Window(ledger + added, after, from), rules)
    ensures var met := ledger + added;
            Sum(Window(InsertEntries(met, flat, now), after, from), t)
            + EntrySum(Dropped(met, flat, now), t)
            + EntrySum(Adjustments(Unread(ledger, added, before, after, from), rules), t)
            == RepricedSum(Window(met, after, from), rules, t) + EarlierAdjustments(Window(met, after, from), t)
  {
    var met := ledger + added;
    KeptInWindow(ledger, met, flat, before, after, from, now, rules, t);
    KeptOrDropped(met, flat, now, t);
    DueIsReadAndMissed(ledger, added, before, after, from, rules, t);
    SumOfPermutation(flat, Adjustments(Window(ledger, before + after, from), rules), t);
    AdjustmentsReprice(Window(met, after, from), rules, t);
  }

  // ---------- logs that were not read ----------

  const OLD := ScoreLog(1, "LOCATION", "A", "penalty_reopen", -2, 10, None)

  lemma OneLog(deleted: set<int>)
    ensures Window([OLD], deleted, 0) == if 1 in deleted then [] else [OLD]
    ensures Sum([OLD], Target("LOCATION", "A")) == -2
            && RepricedSum([OLD], map["penalty_reopen" := -3], Target("LOCATION", "A")) == -3
    ensures EarlierAdjustments([OLD], Target("LOCATION", "A")) == 0
  {
    assert [OLD][..0] == [];
    assert Sum([OLD][..0], Target("LOCATION", "A")) == 0;
    assert |RETRO| == 12 && |"penalty_reopen"| == 14;
    assert RepricedSum([OLD][..0], map["penalty_reopen" := -3], Target("LOCATION", "A")) == 0;
    assert EarlierAdjustments([OLD][..0], Target("LOCATION", "A")) == 0;
    assert Window([OLD][..0], deleted, 0) == [];
  }

  /** An issue deleted when the logs are read and restored before the batches, of which there are none, are
      applied: its penalty stays at the old points. */
  lemma RestoredIssueKeepsOldPoints()
    ensures var rules, t := map["penalty_reopen" := -3], Target("LOCATION", "A");
            && Adjustments(Window([OLD], {1}, 0), rules) == []
            && Groups([], Adjustments(Window([OLD], {1}, 0), rules))
            && Sum(Window(InsertAll([OLD], {}, [], 20), {}, 0), t) == -2
            && RepricedSum(Window([OLD], {}, 0), rules, t) + EarlierAdjustments(Window([OLD], {}, 0), t) == -3
  {
    OneLog({1});
    OneLog({});
  }

  /** The same for a penalty committed between the reading and the applying. */
  lemma AddedLogKeepsOldPoints()
    ensures var rules, t := map["penalty_reopen" := -3], Target("LOCATION", "A");
            && Groups([], Adjustments(Window([], {}, 0), rules))
            && Sum(Window(InsertAll([] + [OLD], {}, [], 20), {}, 0), t) == -2
            && RepricedSum(Window([] + [OLD], {}, 0), rules, t) + EarlierAdjustments(Window([] + [OLD], {}, 0), t) == -3
  {
    OneLog({});
    assert [] + [OLD] == [OLD];
  }

  // ---------- a clash ----------

  const OVERDUE := ScoreLog(1, "LOCATION", "A", "penalty_overdue", -5, 10, Some("2026-01-01"))
  const REOPENED := ScoreLog(1, "LOCATION", "A", "penalty_reopen", -2, 10, Some("2026-01-01"))
  const DEARER: map<string, int> := map["penalty_overdue" := -7, "penalty_reopen" := -3]

  lemma ClashingAdjustments()
    ensures Window([OVERDUE, REOPENED], {}, 0) == [OVERDUE, REOPENED]
    ensures Adjustments([OVERDUE, REOPENED], DEARER)
            == [Entry(1, "LOCATION", "A", RETRO, -2, "2026-01-01"), Entry(1, "LOCATION", "A", RETRO, -1, "2026-01-01")]
  {
    assert [OVERDUE, REOPENED][..1] == [OVERDUE] && [OVERDUE][..0] == [];
    assert Window([OVERDUE], {}, 0) == [OVERDUE];
    assert Adjustments([OVERDUE], DEARER) == [Entry(1, "LOCATION", "A", RETRO, -2, "2026-01-01")];
  }

  lemma SumOfThree(a: ScoreLog, b: ScoreLog, c: ScoreLog, t: Target)
    requires LogTarget(a) == LogTarget(b) == LogTarget(c) == t
    ensures Sum([a, b, c], t) == a.points + b.points + c.points
  {
    assert [a, b, c][..2] == [a, b] && [a, b][..1] == [a] && [a][..0] == [];
    assert Sum([a], t) == a.points;
    assert Sum([a, b], t) == a.points + b.points;
  }

  /** Two dated penalties of one issue and date: the second adjustment is dropped and its point is lost. */
  lemma ClashLosesPoints()
    ensures var ledger, t := [OVERDUE, REOPENED], Target("LOCATION", "A");
            var due := Adjustments(Window(ledger, {}, 0), DEARER);
            && !NoClash(ledger, due)
            && Sum(InsertEntries(ledger, due, 20), t) == -9
            && RepricedSum(ledger, DEARER, t) == -10
  {
    ClashingAdjustments();
    var ledger, t := [OVERDUE, REOPENED], Target("LOCATION", "A");
    var x := Entry(1, "LOCATION", "A", RETRO, -2, "2026-01-01");
    var y := Entry(1, "LOCATION", "A", RETRO, -1, "2026-01-01");
    assert [x, y][..1] == [x] && [x][..0] == [] && ledger[..1] == [OVERDUE] && [OVERDUE][..0] == [];
    assert !Free(ledger, [x], y);
    assert |RETRO| == 12 && |"penalty_overdue"| == 15 && |"penalty_reopen"| == 14;
    assert !Taken(ledger, RowOf(x, 20));
    assert InsertEntries(ledger, [], 20) == ledger;
    var one := InsertEntries(ledger, [x], 20);
    assert one == ledger + [RowOf(x, 20)];
    assert one == [OVERDUE, REOPENED, RowOf(x, 20)];
    assert RowOf(x, 20) in one;
    assert InsertEntries(ledger, [x, y], 20) == one;
    SumOfThree(OVERDUE, REOPENED, RowOf(x, 20), t);
    assert RepricedSum([OVERDUE], DEARER, t) == -7;
  }

  // ---------- the service ----------

  datatype Outcome = Applied | InvalidRules | MissingReason

  datatype Tables = Tables(rules: map<string, int>, ledger: seq<ScoreLog>, deleted: set<int>, audits: seq<int>)

  /** The tables that UpdateRules reads and writes. */
  class Scoring {
    var rules: map<string, int>
    var ledger: seq<ScoreLog>
    var deleted: set<int>
    var audits: seq<int>

    function Snapshot(): Tables
      reads this
    {
      Tables(rules, ledger, deleted, audits)
    }

    /** InsertScoreLogsForIssue, row by row. */
    method InsertScoreLogsForIssue(b: Batch, now: int)
      requires Aligned(b)
      modifies this`ledger
      ensures ledger == InsertBatch(old(ledger), deleted, b, now)
    {
      if b.issue in deleted {
        return;
      }
      ghost var entries := Entries(b);
      for i := 0 to |b.points|
        invariant ledger == InsertEntries(old(ledger), entries[..i], now)
      {
        assert entries[..i + 1][..i] == entries[..i];
        var row := ScoreLog(b.issue, b.targetTypes[i], b.targetIds[i], b.ruleKeys[i], b.points[i], now,
                            ParsePenaltyDate(b.penaltyDates[i]));
        assert row == RowOf(entries[..i + 1][i], now);
        if !Taken(ledger, row) {
          ledger := ledger + [row];
        }
      }
      assert entries[..|b.points|] == entries;
    }

    /** One transaction: the rules, the adjustments, and an audit row when there is a start date. */
    method UpdateScoringRulesAtomic(newRules: map<string, int>, batches: seq<Batch>, applyFrom: Option<int>, now: int)
      requires AllAligned(batches)
      modifies this`rules, this`ledger, this`audits
      ensures rules == old(rules) + newRules
      ensures ledger == InsertAll(old(ledger), deleted, batches, now)
      ensures audits == old(audits) + (if applyFrom.Some? then [applyFrom.value] else [])
    {
      rules := rules + newRules;
      for k := 0 to |batches|
        invariant ledger == InsertAll(old(ledger), deleted, batches[..k], now)
        invariant rules == old(rules) + newRules && audits == old(audits) && deleted == old(deleted)
      {
        assert batches[..k + 1][..k] == batches[..k];
        InsertScoreLogsForIssue(batches[k], now);
      }
      assert batches[..|batches|] == batches;
      if applyFrom.Some? {
        audits := audits + [applyFrom.value];
      }
    }

    /** Between reading the logs and committing, other requests add scores, at the points of their rules as
        they were, or adjustments of their own, change rules, and delete and restore issues. */
    method OtherRequests(now: int)
      requires Recorded(ledger, now)
      modifies this
      ensures old(ledger) <= ledger && Recorded(ledger, now)
    {
      var n :| 0 <= n;
      for i := 0 to n
        invariant old(ledger) <= ledger && Recorded(ledger, now)
      {
        var action: int, issue: int, row: ScoreLog, key: string, points: int := *, *, *, *, *;
        if action == 0 && row.createdAt <= now
           && (row.ruleKey in AWARDS + PENALTIES ==> ValidRule(row.ruleKey, row.points))
        {
          ledger := ledger + [row];
        } else if action == 1 {
          deleted := deleted - {issue};
        } else if action == 2 {
          deleted := deleted + {issue};
        } else if ValidRule(key, points) {
          rules := rules[key := points];
          audits := audits + [issue];
        }
      }
    }

    /** The rules and the adjustments read are applied, after what other requests have done meanwhile. */
    method ApplyRules(req: map<string, int>, applyFrom: Option<int>, batches: seq<Batch>, now: int)
      returns (ghost met: Tables)
      requires Recorded(ledger, now) && AllAligned(batches) && forall k :: k in req ==> ValidRule(k, req[k])
      requires match applyFrom
               case None => batches == []
               case Some(from) => Groups(batches, Adjustments(Window(ledger, deleted, from), req))
      modifies this
      ensures old(ledger) <= met.ledger && rules == met.rules + req && deleted == met.deleted
      ensures applyFrom.None? ==> ledger == met.ledger && audits == met.audits
      ensures applyFrom.Some? ==>
                && audits == met.audits + [applyFrom.value]
                && Repriced(old(ledger), old(deleted), met.ledger, deleted, ledger, applyFrom.value, req)
    {
      OtherRequests(now);
      met := Snapshot();
      UpdateScoringRulesAtomic(req, batches, applyFrom, now);
      if applyFrom.Some? {
        UpdateReprices(old(ledger), met.ledger, old(deleted), deleted, applyFrom.value, now, req, batches);
      }
    }

    /**
     UpdateRules refuses an empty or invalid rule set and a start date without a reason, and then changes
     nothing. Otherwise the listed rules are set in the tables that the transaction meets. Without a start date
     nothing else changes; with one, each target's sum over the window is its repriced sum plus the adjustments
     already there, less what was dropped as clashing and what was missed because it was not read.
     */
    method UpdateRules(req: map<string, int>, applyFrom: Option<int>, reason: string, now: int)
      returns (r: Outcome, ghost met: Tables)
      requires Recorded(ledger, now)
      modifies this
      ensures r == Applied
              <==> req != map[] && (applyFrom.Some? ==> reason != "") && forall k :: k in req ==> ValidRule(k, req[k])
      ensures r != Applied ==> Snapshot() == old(Snapshot())
      ensures r == Applied ==> old(ledger) <= met.ledger && rules == met.rules + req && deleted == met.deleted
      ensures r == Applied && applyFrom.None? ==> ledger == met.ledger && audits == met.audits
      ensures r == Applied && applyFrom.Some? ==>
                && audits == met.audits + [applyFrom.value]
                && Repriced(old(ledger), old(deleted), met.ledger, deleted, ledger, applyFrom.value, req)
    {
      met := Snapshot();
      if |req| == 0 {
        r := InvalidRules;
        return;
      }
      if applyFrom.Some? && reason == "" {
        r := MissingReason;
        return;
      }
      if exists k | k in req :: !ValidRule(k, req[k]) {
        r := InvalidRules;
        return;
      }
      var batches: seq<Batch> := [];
      if applyFrom.Some? {
        batches := RetroactiveBatches(Window(ledger, deleted, applyFrom.value), req);
      }
      met := ApplyRules(req, applyFrom, batches, now);
      r := Applied;
    }
  }

  /** The ledger at a time: nothing is of a later one, and every score is valid for its rule. */
  ghost predicate Recorded(ledger: seq<ScoreLog>, now: int) {
    && (forall log :: log in ledger ==> log.createdAt <= now)
    && (forall log :: log in ledger && log.ruleKey in AWARDS + PENALTIES ==> ValidRule(log.ruleKey, log.points))
  }

  /**
   Every target repriced but for the adjustments dropped and missed. Of the adjustments read, none is dropped
   exactly when none clashes; those missed are of logs added or brought back after the reading.
   */
  ghost predicate Repriced(read: seq<ScoreLog>, before: set<int>, met: seq<ScoreLog>, after: set<int>,
                           applied: seq<ScoreLog>, from: int, rules: map<string, int>)
    requires read <= met
  {
    var window := Window(met, after, from);
    var due := Adjustments(Window(read, before + after, from), rules);
    var missed := Adjustments(Unread(read, met[|read|..], before, after, from), rules);
    exists dropped: seq<Entry> {:trigger multiset(dropped)} ::
      && multiset(dropped) <= multiset(due) && |applied| == |met| + |due| - |dropped|
      && (dropped == [] <==> NoClash(met, due))
      && (forall t :: Sum(Window(applied, after, from), t) + EntrySum(dropped, t) + EntrySum(missed, t)
                      == RepricedSum(window, rules, t) + EarlierAdjustments(window, t))
  }

  lemma {:induction false} DroppedAreEntries(ledger: seq<ScoreLog>, entries: seq<Entry>, now: int)
    ensures multiset(Dropped(ledger, entries, now)) <= multiset(entries)
  {
    if entries != [] {
      var before, last := entries[..|entries| - 1], entries[|entries| - 1];
      DroppedAreEntries(ledger, before, now);
      assert entries == before + [last];
    }
  }

  lemma UpdateReprices(read: seq<ScoreLog>, met: seq<ScoreLog>, before: set<int>, after: set<int>, from: int, now: int,
                       rules: map<string, int>, batches: seq<Batch>)
    requires read <= met && Groups(batches, Adjustments(Window(read, before, from), rules))
    requires Recorded(met, now)
    requires forall k :: k in rules ==> ValidRule(k, rules[k])
    ensures AllAligned(batches)
    ensures Repriced(read, before, met, after, InsertAll(met, after, batches, now), from, rules)
  {
    assert RETRO !in rules by {
      if RETRO in rules { RetroIsNoRule(rules[RETRO]); }
    }
    var added := met[|read|..];
    assert met == read + added;
    WindowMembers(met, after, from);
    assert Signed(Window(met, after, from), rules);
    var t := Target("", "");
    AppliedIsFlat(read, met, before, after, from, now, rules, batches, t);
    RepricingConserves(read, added, before, after, from, now, rules, batches, t);
    DueIsReadAndMissed(read, added, before, after, from, rules, t);
    var dropped := Dropped(met, Flatten(batches, after), now);
    DroppedAreEntries(met, Flatten(batches, after), now);
    assert multiset(dropped) <= multiset(Adjustments(Window(read, before + after, from), rules));
    forall t
      ensures Sum(Window(InsertAll(met, after, batches, now), after, from), t)
              + EntrySum(dropped, t) + EntrySum(Adjustments(Unread(read, added, before, after, from), rules), t)
              == RepricedSum(Window(met, after, from), rules, t) + EarlierAdjustments(Window(met, after, from), t)
    {
      RepricingConserves(read, added, before, after, from, now, rules, batches, t);
    }
  }
}
