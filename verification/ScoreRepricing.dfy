/**
 Changing scoring rules retroactively: the ledger rows since a date are compared with the new
 points, the differences are grouped per issue into five parallel arrays, and one insert per issue
 adds them as retro_adjust rows unless the partial unique index on dated rows refuses.
 */
module ScoreRepricing {
  import opened Options
  import opened Sets

  const RETRO := "retro_adjust"
  const INT32_MIN := -0x8000_0000
  const INT32_MAX := 0x7fff_ffff

  /** A formatted calendar date; the empty string stands for no date in a batch. */
  type Date = s: string | s != "" witness "2026-01-01"

  datatype ScoreLog = ScoreLog(issue: int, targetType: string, targetId: string, ruleKey: string,
                               points: int, createdAt: int, penaltyDate: Option<Date>)

  /** One adjustment, as it travels in the arrays of a batch. */
  datatype Entry = Entry(issue: int, targetType: string, targetId: string, ruleKey: string, points: int,
                         penaltyDate: string)

  datatype Batch = Batch(issue: int, targetTypes: seq<string>, targetIds: seq<string>, ruleKeys: seq<string>,
                         points: seq<int>, penaltyDates: seq<string>)

  datatype Target = Target(targetType: string, targetId: string)

  // ---------- rules ----------

  const AWARDS := {"base_weekly_score", "bonus_kaizen", "reward_reporter_normal", "reward_reporter_safety"}
  const PENALTIES := {"penalty_normal", "penalty_safety", "penalty_overdue", "penalty_reopen",
                      "penalty_reporter_invalid"}

  predicate ValidRule(key: string, points: int) {
    INT32_MIN <= points <= INT32_MAX
    && ((key in AWARDS && points > 0) || (key in PENALTIES && points < 0))
  }

  /** What a reward or a base score may be worth, and what a penalty. */
  lemma ValidRuleSigns(key: string, points: int)
    requires ValidRule(key, points)
    ensures points != 0
    ensures points > 0 <==> || key == "base_weekly_score" || key == "bonus_kaizen" || key == "reward_reporter_normal"
                            || key == "reward_reporter_safety"
  {
  }

  /** retro_adjust is not a rule that an administrator can set. */
  lemma RetroIsNoRule(points: int)
    ensures !ValidRule(RETRO, points)
  {
    assert |RETRO| == 12 && RETRO[0] == 'r';
    assert |"base_weekly_score"| == 17 && |"bonus_kaizen"| == 12 && "bonus_kaizen"[0] == 'b';
    assert |"reward_reporter_normal"| == 22 && |"reward_reporter_safety"| == 22;
    assert |"penalty_normal"| == 14 && |"penalty_safety"| == 14 && |"penalty_overdue"| == 15
           && |"penalty_reopen"| == 14;
    assert |"penalty_reporter_invalid"| == 24;
  }

  /** Subtraction of two int32 values in Go. */
  function Sub32(a: int, b: int): int {
    (a - b - INT32_MIN) % 0x1_0000_0000 + INT32_MIN
  }

  /** Two values that are valid for one rule have one sign, so their difference never wraps around. */
  lemma RepriceNeverWraps(key: string, a: int, b: int)
    requires ValidRule(key, a) && ValidRule(key, b)
    ensures Sub32(a, b) == a - b
  {
    assert key !in AWARDS || key !in PENALTIES;
  }

  function FormatPenaltyDate(date: Option<Date>): string {
    match date
    case None => ""
    case Some(d) => d
  }

  /** NULLIF(penalty_date, '')::date */
  function ParsePenaltyDate(text: string): Option<Date> {
    if text == "" then None else Some(text)
  }

  // ---------- the adjustments ----------

  function Adjustment(log: ScoreLog, rules: map<string, int>): Option<Entry> {
    if log.ruleKey == RETRO || log.ruleKey !in rules || rules[log.ruleKey] == log.points then None
    else Some(Entry(log.issue, log.targetType, log.targetId, RETRO, Sub32(rules[log.ruleKey], log.points),
                    FormatPenaltyDate(log.penaltyDate)))
  }

  /** The adjustments of the logs, in log order. */
  function Adjustments(logs: seq<ScoreLog>, rules: map<string, int>): seq<Entry> {
    if logs == [] then []
    else
      var rest := Adjustments(logs[..|logs| - 1], rules);
      match Adjustment(logs[|logs| - 1], rules)
      case None => rest
      case Some(e) => rest + [e]
  }

  function OfIssue(entries: seq<Entry>, issue: int): seq<Entry> {
    if entries == [] then []
    else
      var rest := OfIssue(entries[..|entries| - 1], issue);
      if entries[|entries| - 1].issue == issue then rest + [entries[|entries| - 1]] else rest
  }

  predicate Aligned(b: Batch) {
    |b.targetTypes| == |b.targetIds| == |b.ruleKeys| == |b.points| == |b.penaltyDates|
  }

  /** The rows that unnest makes of five arrays of one length. */
  function Entries(b: Batch): seq<Entry>
    requires Aligned(b)
  {
    seq(|b.points|, i requires 0 <= i < |b.points| =>
      Entry(b.issue, b.targetTypes[i], b.targetIds[i], b.ruleKeys[i], b.points[i], b.penaltyDates[i]))
  }

  ghost predicate Increasing(ids: seq<int>) {
    forall i, j :: 0 <= i < j < |ids| ==> ids[i] < ids[j]
  }

  /** batches groups the entries by issue: aligned arrays, increasing issue ids, each issue's entries in order. */
  ghost predicate Groups(batches: seq<Batch>, entries: seq<Entry>) {
    && (forall k :: 0 <= k < |batches| ==> Aligned(batches[k]) && |batches[k].points| > 0
                                            && Entries(batches[k]) == OfIssue(entries, batches[k].issue))
    && (forall j, k :: 0 <= j < k < |batches| ==> batches[j].issue < batches[k].issue)
    && (forall issue :: OfIssue(entries, issue) != [] ==> exists k :: 0 <= k < |batches| && batches[k].issue == issue)
  }

  method SortedIds(ids: set<int>) returns (sorted: seq<int>)
    ensures Increasing(sorted) && |sorted| == |ids|
    ensures forall x :: x in ids <==> x in sorted
  {
    sorted := [];
    var rest := ids;
    while rest != {}
      invariant rest <= ids && |sorted| + |rest| == |ids|
      invariant Increasing(sorted)
      invariant forall x :: x in ids - rest <==> x in sorted
      decreases |rest|
    {
      HasMember(rest);
      var x :| x in rest;
      sorted := InsertSorted(sorted, x);
      rest := rest - {x};
    }
  }

  method InsertSorted(sorted: seq<int>, x: int) returns (r: seq<int>)
    requires Increasing(sorted) && x !in sorted
    ensures Increasing(r) && |r| == |sorted| + 1
    ensures forall y :: y in r <==> y in sorted || y == x
  {
    var i := 0;
    while i < |sorted| && sorted[i] < x
      invariant 0 <= i <= |sorted|
      invariant forall j :: 0 <= j < i ==> sorted[j] < x
    {
      i := i + 1;
    }
    assert forall j :: i <= j < |sorted| ==> x < sorted[j];
    r := sorted[..i] + [x] + sorted[i..];
    forall j, k | 0 <= j < k < |r| ensures r[j] < r[k] {
      assert r[j] == if j < i then sorted[j] else if j == i then x else sorted[j - 1];
      assert r[k] == if k < i then sorted[k] else if k == i then x else sorted[k - 1];
    }
    forall y ensures y in r <==> y in sorted || y == x {
      assert sorted == sorted[..i] + sorted[i..];
    }
  }

  /** The five arrays of one issue, filled entry by entry. */
  method BuildBatch(issue: int, entries: seq<Entry>) returns (b: Batch)
    requires forall i :: 0 <= i < |entries| ==> entries[i].issue == issue
    ensures b.issue == issue && Aligned(b) && Entries(b) == entries
  {
    b := Batch(issue, [], [], [], [], []);
    for i := 0 to |entries|
      invariant b.issue == issue && Aligned(b) && |b.points| == i
      invariant forall j :: 0 <= j < i ==>
        entries[j] == Entry(issue, b.targetTypes[j], b.targetIds[j], b.ruleKeys[j], b.points[j], b.penaltyDates[j])
    {
      var e := entries[i];
      b := Batch(issue, b.targetTypes + [e.targetType], b.targetIds + [e.targetId], b.ruleKeys + [e.ruleKey],
                 b.points + [e.points], b.penaltyDates + [e.penaltyDate]);
    }
  }

  lemma {:induction false} OfIssueMembers(entries: seq<Entry>, issue: int)
    ensures forall e :: e in OfIssue(entries, issue) <==> e in entries && e.issue == issue
  {
    if entries != [] {
      OfIssueMembers(entries[..|entries| - 1], issue);
      assert entries == entries[..|entries| - 1] + [entries[|entries| - 1]];
    }
  }

  /** The map of the first loop: for each issue with an adjustment, its adjustments in log order. */
  ghost predicate Indexed(byIssue: map<int, seq<Entry>>, entries: seq<Entry>) {
    && (forall issue :: issue in byIssue <==> OfIssue(entries, issue) != [])
    && (forall issue :: issue in byIssue ==> byIssue[issue] == OfIssue(entries, issue))
  }

  lemma IndexedNext(byIssue: map<int, seq<Entry>>, entries: seq<Entry>, e: Entry)
    requires Indexed(byIssue, entries)
    ensures Indexed(byIssue[e.issue := (if e.issue in byIssue then byIssue[e.issue] else []) + [e]], entries + [e])
  {
    assert (entries + [e])[..|entries|] == entries;
    forall issue
      ensures OfIssue(entries + [e], issue) == OfIssue(entries, issue) + (if issue == e.issue then [e] else [])
    {
    }
  }

  method GroupByIssue(logs: seq<ScoreLog>, rules: map<string, int>) returns (byIssue: map<int, seq<Entry>>)
    ensures Indexed(byIssue, Adjustments(logs, rules))
  {
    byIssue := map[];
    for i := 0 to |logs|
      invariant Indexed(byIssue, Adjustments(logs[..i], rules))
    {
      assert logs[..i + 1][..i] == logs[..i];
      var log := logs[i];
      if log.ruleKey == RETRO {
        continue;
      }
      if log.ruleKey !in rules || rules[log.ruleKey] == log.points {
        continue;
      }
      var e := Entry(log.issue, log.targetType, log.targetId, RETRO, Sub32(rules[log.ruleKey], log.points),
                     FormatPenaltyDate(log.penaltyDate));
      IndexedNext(byIssue, Adjustments(logs[..i], rules), e);
      byIssue := byIssue[e.issue := (if e.issue in byIssue then byIssue[e.issue] else []) + [e]];
    }
    assert logs[..|logs|] == logs;
  }

  method RetroactiveBatches(logs: seq<ScoreLog>, rules: map<string, int>) returns (batches: seq<Batch>)
    ensures Groups(batches, Adjustments(logs, rules))
  {
    var byIssue := GroupByIssue(logs, rules);
    ghost var entries := Adjustments(logs, rules);
    var ids := SortedIds(byIssue.Keys);
    batches := [];
    for k := 0 to |ids|
      invariant |batches| == k
      invariant forall j :: 0 <= j < k ==> batches[j].issue == ids[j] && Aligned(batches[j]) && |batches[j].points| > 0
                                           && Entries(batches[j]) == OfIssue(entries, ids[j])
    {
      OfIssueMembers(entries, ids[k]);
      assert ids[k] in byIssue.Keys;
      var b := BuildBatch(ids[k], byIssue[ids[k]]);
      batches := batches + [b];
    }
    forall issue | OfIssue(entries, issue) != []
      ensures exists k :: 0 <= k < |batches| && batches[k].issue == issue
    {
      assert issue in byIssue.Keys;
      var k :| 0 <= k < |ids| && ids[k] == issue;
      assert batches[k].issue == issue;
    }
  }
}
