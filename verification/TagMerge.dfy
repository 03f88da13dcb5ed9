/**
 Merging tags: the issues of one tag move to another inside one transaction, and the merged tag remembers
 where it went.
 */
module TagMerge {
  import opened Options

  datatype Status = Pending | Approved | Rejected | Merged

  datatype Tag = Tag(status: Status, mergedInto: Option<string>)

  /** One row of issue_tags; (issue, tag) is its primary key. */
  datatype Row = Row(issue: int, tag: string)

  datatype Db = Db(tags: map<string, Tag>, rows: seq<Row>)

  ghost predicate NoDuplicates(rows: seq<Row>) {
    forall i, j :: 0 <= i < j < |rows| ==> rows[i] != rows[j]
  }

  ghost function IssuesOf(rows: seq<Row>, tag: string): set<int> {
    set i | 0 <= i < |rows| && rows[i].tag == tag :: rows[i].issue
  }

  lemma InIssuesOf(rows: seq<Row>, tag: string)
    ensures forall issue :: issue in IssuesOf(rows, tag) <==> Row(issue, tag) in rows
  {
    forall issue | Row(issue, tag) in rows ensures issue in IssuesOf(rows, tag) {
      var i :| 0 <= i < |rows| && rows[i] == Row(issue, tag);
      assert rows[i].tag == tag;
    }
  }

  // ---------- the statements of a merge ----------

  /** MergeTagIssuesDeduplicate: drop the source's rows of issues that have the target. */
  function Deduplicate(rows: seq<Row>, source: string, target: string, all: seq<Row>): seq<Row> {
    if rows == [] then []
    else
      var rest, last := Deduplicate(rows[..|rows| - 1], source, target, all), rows[|rows| - 1];
      if last.tag == source && Row(last.issue, target) in all then rest else rest + [last]
  }

  /** MergeTagIssuesReassign, before the primary key is checked. */
  function Reassign(rows: seq<Row>, source: string, target: string): seq<Row> {
    seq(|rows|, i requires 0 <= i < |rows| => if rows[i].tag == source then rows[i].(tag := target) else rows[i])
  }

  /** MergeTagAtomic; None is a transaction rolled back, or one not begun. */
  ghost function Merge(db: Db, source: string, target: string): Option<Db> {
    if source == target || target !in db.tags || db.tags[target].status != Approved then None
    else
      var rows := Reassign(Deduplicate(db.rows, source, target, db.rows), source, target);
      if !NoDuplicates(rows) || source !in db.tags then None
      else Some(Db(db.tags[source := Tag(Merged, Some(target))], rows))
  }

  lemma {:induction false} DeduplicateKeeps(rows: seq<Row>, source: string, target: string, all: seq<Row>)
    requires NoDuplicates(rows)
    ensures var d := Deduplicate(rows, source, target, all);
            && NoDuplicates(d)
            && (forall r :: r in d <==> r in rows && !(r.tag == source && Row(r.issue, target) in all))
  {
    if rows != [] {
      var n := |rows| - 1;
      DeduplicateKeeps(rows[..n], source, target, all);
      assert rows == rows[..n] + [rows[n]];
      assert rows[n] !in rows[..n];
    }
  }

  lemma {:induction false} ReassignHolds(rows: seq<Row>, source: string, target: string)
    requires source != target
    ensures forall r :: r in Reassign(rows, source, target) <==>
              (r in rows && r.tag != source) || (r.tag == target && Row(r.issue, source) in rows)
  {
    var moved := Reassign(rows, source, target);
    forall r
      ensures r in moved
              <==> (r in rows && r.tag != source) || (r.tag == target && Row(r.issue, source) in rows)
    {
      if r in moved {
        var i :| 0 <= i < |moved| && moved[i] == r;
        assert rows[i] in rows;
        if rows[i].tag == source { assert rows[i] == Row(r.issue, source); }
      }
      if r in rows && r.tag != source {
        var i :| 0 <= i < |rows| && rows[i] == r;
        assert moved[i] == r;
      }
      if r.tag == target && Row(r.issue, source) in rows {
        var i :| 0 <= i < |rows| && rows[i] == Row(r.issue, source);
        assert moved[i] == r;
      }
    }
  }

  ghost predicate HasBoth(rows: seq<Row>, source: string, target: string) {
    exists issue :: Row(issue, source) in rows && Row(issue, target) in rows
  }

  /** Reassigning violates the primary key exactly when some issue has both tags. */
  lemma {:induction false} ReassignIff(rows: seq<Row>, source: string, target: string)
    requires NoDuplicates(rows) && source != target
    ensures NoDuplicates(Reassign(rows, source, target)) <==> !HasBoth(rows, source, target)
  {
    var moved := Reassign(rows, source, target);
    if HasBoth(rows, source, target) {
      var issue :| Row(issue, source) in rows && Row(issue, target) in rows;
      var i :| 0 <= i < |rows| && rows[i] == Row(issue, source);
      var j :| 0 <= j < |rows| && rows[j] == Row(issue, target);
      assert moved[i] == moved[j];
      assert i < j || j < i;
    } else {
      forall i, j | 0 <= i < j < |moved| ensures moved[i] != moved[j] {
        assert rows[i] != rows[j] && rows[i] in rows && rows[j] in rows;
        assert rows[i] == Row(rows[i].issue, rows[i].tag) && rows[j] == Row(rows[j].issue, rows[j].tag);
      }
    }
  }

  lemma {:induction false} MergedRows(db: Db, source: string, target: string)
    requires NoDuplicates(db.rows) && source != target
    ensures var rows := Reassign(Deduplicate(db.rows, source, target, db.rows), source, target);
            && NoDuplicates(rows)
            && (forall r ::
                  r in rows
                  <==> (r in db.rows && r.tag != source) || (r.tag == target && Row(r.issue, source) in db.rows))
  {
    var d := Deduplicate(db.rows, source, target, db.rows);
    DeduplicateKeeps(db.rows, source, target, db.rows);
    assert !HasBoth(d, source, target);
    ReassignIff(d, source, target);
    ReassignHolds(d, source, target);
  }

  /** A merge goes through exactly for two different tags of which the target is approved. */
  lemma MergeIff(db: Db, source: string, target: string)
    requires NoDuplicates(db.rows)
    ensures Merge(db, source, target).Some?
            <==> source != target && source in db.tags && target in db.tags && db.tags[target].status == Approved
  {
    if source != target { MergedRows(db, source, target); }
  }

  /** The target ends up with the issues of both, the source with none, and every other tag with its own;
      still no issue has a tag twice. */
  lemma MergeMovesIssues(db: Db, source: string, target: string, other: string)
    requires NoDuplicates(db.rows) && Merge(db, source, target).Some?
    ensures var after := Merge(db, source, target).value.rows;
            && NoDuplicates(after)
            && IssuesOf(after, target) == IssuesOf(db.rows, target) + IssuesOf(db.rows, source)
            && IssuesOf(after, source) == {}
            && (other != source && other != target ==> IssuesOf(after, other) == IssuesOf(db.rows, other))
  {
    var after := Merge(db, source, target).value.rows;
    MergedRows(db, source, target);
    InIssuesOf(after, target);
    InIssuesOf(after, source);
    InIssuesOf(after, other);
    InIssuesOf(db.rows, target);
    InIssuesOf(db.rows, source);
    InIssuesOf(db.rows, other);
  }

  // ---------- the store ----------

  class Store {
    var tags: map<string, Tag>
    var rows: seq<Row>

    ghost function Snapshot(): Db
      reads this
    {
      Db(tags, rows)
    }

    method MergeTagIssuesDeduplicate(source: string, target: string)
      modifies this`rows
      ensures rows == Deduplicate(old(rows), source, target, old(rows))
    {
      var kept: seq<Row> := [];
      for i := 0 to |rows|
        invariant rows == old(rows) && kept == Deduplicate(rows[..i], source, target, rows)
      {
        assert rows[..i + 1][..i] == rows[..i];
        if !(rows[i].tag == source && Row(rows[i].issue, target) in rows) {
          kept := kept + [rows[i]];
        }
      }
      assert rows[..|rows|] == rows;
      rows := kept;
    }

    /** An UPDATE that would store a row twice fails as a whole. */
    method MergeTagIssuesReassign(source: string, target: string) returns (ok: bool)
      requires NoDuplicates(rows) && source != target
      modifies this`rows
      ensures ok <==> NoDuplicates(Reassign(old(rows), source, target))
      ensures rows == if ok then Reassign(old(rows), source, target) else old(rows)
    {
      ReassignIff(rows, source, target);
      if exists i | 0 <= i < |rows| :: rows[i].tag == source && Row(rows[i].issue, target) in rows {
        ghost var i :| 0 <= i < |rows| && rows[i].tag == source && Row(rows[i].issue, target) in rows;
        assert rows[i] == Row(rows[i].issue, source);
        return false;
      }
      assert forall issue :: Row(issue, source) in rows ==> Row(issue, target) !in rows;
      rows := Reassign(rows, source, target);
      ok := true;
    }

    method MergeTagAtomic(source: string, target: string) returns (ok: bool)
      requires NoDuplicates(rows)
      modifies this
      ensures ok <==> Merge(old(Snapshot()), source, target).Some?
      ensures Snapshot() == if ok then Merge(old(Snapshot()), source, target).value else old(Snapshot())
    {
      if source == target || target !in tags || tags[target].status != Approved {
        return false;
      }
      var before := rows;
      MergedRows(Snapshot(), source, target);
      DeduplicateKeeps(rows, source, target, rows);
      MergeTagIssuesDeduplicate(source, target);
      ok := MergeTagIssuesReassign(source, target);
      if !ok || source !in tags {
        rows := before;
        return false;
      }
      tags := tags[source := Tag(Merged, Some(target))];
    }
  }

  // ---------- following merged tags ----------

  datatype Event =
    | Propose(tag: string)
    | Approve(tag: string)
    | Reject(tag: string)
    | MergeInto(source: string, target: string)
    | Attach(issue: int, tag: string)
    | Detach(issue: int)

  /** DeleteIssueTags: replacing the tags of an issue begins with it. */
  function Untagged(rows: seq<Row>, issue: int): seq<Row> {
    if rows == [] then []
    else
      var last := rows[|rows| - 1];
      Untagged(rows[..|rows| - 1], issue) + if last.issue == issue then [] else [last]
  }

  lemma {:induction false} UntaggedKeeps(rows: seq<Row>, issue: int)
    requires NoDuplicates(rows)
    ensures NoDuplicates(Untagged(rows, issue))
    ensures forall r :: r in Untagged(rows, issue) <==> r in rows && r.issue != issue
  {
    if rows != [] {
      var before, last := rows[..|rows| - 1], rows[|rows| - 1];
      UntaggedKeeps(before, issue);
      assert rows == before + [last];
      assert last !in before;
    }
  }

  ghost function Step(db: Db, e: Event): Db {
    match e
    case Propose(tag) => if tag in db.tags then db else db.(tags := db.tags[tag := Tag(Pending, None)])
    case Approve(tag) => if tag in db.tags then db.(tags := db.tags[tag := db.tags[tag].(status := Approved)]) else db
    case Reject(tag) => if tag in db.tags then db.(tags := db.tags[tag := db.tags[tag].(status := Rejected)]) else db
    case MergeInto(source, target) => (match Merge(db, source, target) case None => db case Some(next) => next)
    case Attach(issue, tag) =>
      if tag !in db.tags || Row(issue, tag) in db.rows then db else db.(rows := db.rows + [Row(issue, tag)])
    case Detach(issue) => db.(rows := Untagged(db.rows, issue))
  }

  ghost function Run(events: seq<Event>): Db {
    if events == [] then Db(map[], []) else Step(Run(events[..|events| - 1]), events[|events| - 1])
  }

  /** The tag that a merged tag leads to. */
  predicate LeadsTo(tags: map<string, Tag>, a: string, b: string) {
    a in tags && tags[a].status == Merged && tags[a].mergedInto == Some(b)
  }

  /** A rank that every step through a merged tag lowers. */
  ghost predicate Ranks(tags: map<string, Tag>, rank: map<string, nat>) {
    && rank.Keys == tags.Keys
    && (forall t :: t in tags && tags[t].status == Merged ==>
          tags[t].mergedInto.Some? && tags[t].mergedInto.value in tags && rank[tags[t].mergedInto.value] < rank[t])
  }

  lemma MergeKeepsRanks(db: Db, source: string, target: string, rank: map<string, nat>) returns (next: map<string, nat>)
    requires Merge(db, source, target).Some? && Ranks(db.tags, rank)
    ensures Ranks(Merge(db, source, target).value.tags, next)
  {
    var tags := Merge(db, source, target).value.tags;
    next := map t | t in tags :: if tags[t].status != Merged then 0 else if t == source then 1 else rank[t] + 1;
  }

  lemma {:induction false} RunHasRanks(events: seq<Event>) returns (rank: map<string, nat>)
    ensures NoDuplicates(Run(events).rows) && Ranks(Run(events).tags, rank)
  {
    if events == [] {
      rank := map[];
    } else {
      var db, e := Run(events[..|events| - 1]), events[|events| - 1];
      rank := RunHasRanks(events[..|events| - 1]);
      if e.MergeInto? {
        if Merge(db, e.source, e.target).Some? {
          MergedRows(db, e.source, e.target);
          rank := MergeKeepsRanks(db, e.source, e.target, rank);
        }
      } else if e.Propose? && e.tag !in db.tags {
        rank := rank[e.tag := 0];
      } else if e.Detach? {
        UntaggedKeeps(db.rows, e.issue);
      }
    }
  }

  /** A way from a tag through merged tags, each once, to a tag that is not merged. */
  ghost predicate Trail(tags: map<string, Tag>, path: seq<string>) {
    && |path| > 0
    && (forall i :: 0 <= i < |path| - 1 ==> LeadsTo(tags, path[i], path[i + 1]))
    && (forall i, j :: 0 <= i < j < |path| ==> path[i] != path[j])
    && path[|path| - 1] in tags && tags[path[|path| - 1]].status != Merged
  }

  lemma {:induction false} RankedTrail(tags: map<string, Tag>, rank: map<string, nat>, tag: string)
    returns (path: seq<string>)
    requires Ranks(tags, rank) && tag in tags
    ensures Trail(tags, path) && path[0] == tag
    ensures forall i :: 0 < i < |path| ==> path[i] in rank && rank[path[i]] < rank[tag]
    decreases rank[tag]
  {
    if tags[tag].status != Merged {
      path := [tag];
    } else {
      var rest := RankedTrail(tags, rank, tags[tag].mergedInto.value);
      path := [tag] + rest;
    }
  }

  /** After any sequence of proposals, approvals, rejections, merges, taggings and untaggings, following merged tags
      never comes back and ends at a tag that is not merged. */
  lemma MergedTagsLeadOut(events: seq<Event>, tag: string) returns (path: seq<string>)
    requires tag in Run(events).tags
    ensures Trail(Run(events).tags, path) && path[0] == tag
  {
    var rank := RunHasRanks(events);
    path := RankedTrail(Run(events).tags, rank, tag);
  }

  /** Reading merged_tag_code without the status would not do: an approved tag keeps the code of its merge,
      so any two approved tags can be made to point at each other. */
  lemma CodesAloneMayCycle(db: Db, a: string, b: string)
    requires NoDuplicates(db.rows) && a != b && a in db.tags && b in db.tags
    requires db.tags[a].status == Approved && db.tags[b].status == Approved
    ensures var tags := Step(Step(Step(db, MergeInto(a, b)), Approve(a)), MergeInto(b, a)).tags;
            a in tags && b in tags && tags[a] == Tag(Approved, Some(b)) && tags[b] == Tag(Merged, Some(a))
  {
    MergeIff(db, a, b);
    MergedRows(db, a, b);
    MergeIff(Step(Step(db, MergeInto(a, b)), Approve(a)), b, a);
  }

  // ---------- what the events say of a tag ----------

  /** The status that an event gives a tag, if it gives it one. */
  ghost function Verdict(events: seq<Event>, k: nat, tag: string): Option<Status>
    requires k < |events|
  {
    match events[k]
    case Approve(t) => if t == tag && tag in Run(events[..k]).tags then Some(Approved) else None
    case Reject(t) => if t == tag && tag in Run(events[..k]).tags then Some(Rejected) else None
    case MergeInto(source, target) =>
      if source == tag && Merge(Run(events[..k]), source, target).Some? then Some(Merged) else None
    case _ => None
  }

  ghost predicate LastVerdict(events: seq<Event>, k: nat, tag: string)
    requires k < |events|
  {
    Verdict(events, k, tag).Some? && forall j :: k < j < |events| ==> Verdict(events, j, tag).None?
  }

  lemma {:induction false} SameVerdict(before: seq<Event>, e: Event, k: nat, tag: string)
    requires k < |before|
    ensures Verdict(before + [e], k, tag) == Verdict(before, k, tag)
  {
    assert (before + [e])[..k] == before[..k];
  }

  lemma {:induction false} NewVerdict(before: seq<Event>, e: Event, tag: string)
    requires NoDuplicates(Run(before).rows) && tag in Run(before + [e]).tags
    ensures var n, now := |before|, Run(before + [e]).tags[tag];
            if Verdict(before + [e], n, tag).Some? then
              && now.status == Verdict(before + [e], n, tag).value
              && (now.status == Merged ==> e.MergeInto? && now.mergedInto == Some(e.target))
            else if tag in Run(before).tags then now == Run(before).tags[tag]
            else e == Propose(tag) && now == Tag(Pending, None)
  {
    assert (before + [e])[..|before|] == before;
    if e.MergeInto? && Merge(Run(before), e.source, e.target).Some? { MergedRows(Run(before), e.source, e.target); }
  }

  /** The status of a tag is that of the last event that gave it one, or PENDING if none did; a merged tag names the
      target of that merge. */
  lemma {:induction false} StatusOfTag(events: seq<Event>, tag: string)
    requires tag in Run(events).tags
    ensures var now := Run(events).tags[tag];
            || (exists k: nat :: k < |events| && LastVerdict(events, k, tag)
                  && now.status == Verdict(events, k, tag).value
                  && (now.status == Merged ==> events[k].MergeInto? && now.mergedInto == Some(events[k].target)))
            || (now.status == Pending && forall k: nat :: k < |events| ==> Verdict(events, k, tag).None?)
  {
    if events != [] {
      var before, e, n := events[..|events| - 1], events[|events| - 1], |events| - 1;
      assert events == before + [e];
      var rank := RunHasRanks(before);
      NewVerdict(before, e, tag);
      forall k: nat | k < n ensures Verdict(events, k, tag) == Verdict(before, k, tag) {
        SameVerdict(before, e, k, tag);
      }
      if Verdict(events, n, tag).Some? {
        assert LastVerdict(events, n, tag);
      } else if tag in Run(before).tags {
        StatusOfTag(before, tag);
        var now := Run(before).tags[tag];
        if k: nat :| k < n && LastVerdict(before, k, tag) && now.status == Verdict(before, k, tag).value
                     && (now.status == Merged ==> before[k].MergeInto? && now.mergedInto == Some(before[k].target)) {
          assert LastVerdict(events, k, tag);
        }
      } else {
        NothingBefore(before, tag);
      }
    }
  }

  /** Tags are never removed. */
  lemma {:induction false} StaysThere(events: seq<Event>, k: nat, tag: string)
    requires k <= |events| && tag in Run(events[..k]).tags
    ensures tag in Run(events).tags
  {
    if k == |events| {
      assert events[..k] == events;
    } else {
      var before := events[..|events| - 1];
      assert before[..k] == events[..k];
      StaysThere(before, k, tag);
    }
  }

  /** A tag that is not there has had no verdict. */
  lemma {:induction false} NothingBefore(events: seq<Event>, tag: string)
    requires tag !in Run(events).tags
    ensures forall k: nat :: k < |events| ==> Verdict(events, k, tag).None?
  {
    forall k: nat | k < |events| ensures Verdict(events, k, tag).None? {
      if tag in Run(events[..k]).tags { StaysThere(events, k, tag); }
    }
  }

  /** Untagging an issue takes all its tags from it, and none from any other. */
  lemma {:induction false} DetachedHasNone(db: Db, issue: int)
    requires NoDuplicates(db.rows)
    ensures var u := Step(db, Detach(issue));
            u.tags == db.tags && forall r :: r in u.rows <==> r in db.rows && r.issue != issue
  {
    UntaggedKeeps(db.rows, issue);
  }

  // ---------- following the codes alone ----------

  /** The tag that a stored code names, whatever the status. */
  function NextCode(tags: map<string, Tag>, tag: string): Option<string> {
    if tag in tags then tags[tag].mergedInto else None
  }

  function FollowCodes(tags: map<string, Tag>, tag: string, n: nat): Option<string> {
    if n == 0 then Some(tag)
    else
      match FollowCodes(tags, tag, n - 1)
      case None => None
      case Some(t) => NextCode(tags, t)
  }

  ghost predicate CodesLead(tags: map<string, Tag>, a: string, b: string) {
    exists n :: FollowCodes(tags, a, n) == Some(b)
  }

  ghost predicate CodesAcyclic(tags: map<string, Tag>) {
    forall t, n :: n > 0 ==> FollowCodes(tags, t, n) != Some(t)
  }

  lemma {:induction false} FollowOn(tags: map<string, Tag>, a: string, i: nat, b: string, j: nat)
    requires FollowCodes(tags, a, i) == Some(b)
    ensures FollowCodes(tags, a, i + j) == FollowCodes(tags, b, j)
  {
    if j > 0 { FollowOn(tags, a, i, b, j - 1); }
  }

  /** Two tables that differ in one tag's code are followed alike until that tag. */
  lemma {:induction false} SameUntil(tags: map<string, Tag>, other: map<string, Tag>, source: string, tag: string,
                                     n: nat)
    requires forall t :: t != source ==> NextCode(tags, t) == NextCode(other, t)
    requires forall i :: 0 <= i < n ==> FollowCodes(tags, tag, i) != Some(source)
    ensures FollowCodes(other, tag, n) == FollowCodes(tags, tag, n)
  {
    if n > 0 { SameUntil(tags, other, source, tag, n - 1); }
  }

  /** The first time that a tag is reached. */
  lemma {:induction false} FirstReached(tags: map<string, Tag>, tag: string, source: string, n: nat) returns (m: nat)
    requires FollowCodes(tags, tag, n) == Some(source)
    ensures m <= n && FollowCodes(tags, tag, m) == Some(source)
    ensures forall i :: 0 <= i < m ==> FollowCodes(tags, tag, i) != Some(source)
  {
    if i :| 0 <= i < n && FollowCodes(tags, tag, i) == Some(source) {
      m := FirstReached(tags, tag, source, i);
    } else {
      m := n;
    }
  }

  /** Pointing source at target closes a cycle if target already leads back to source. */
  lemma LeadingBackCloses(tags: map<string, Tag>, next: map<string, Tag>, source: string, target: string, n: nat)
    requires forall t :: t != source ==> NextCode(next, t) == NextCode(tags, t)
    requires NextCode(next, source) == Some(target) && FollowCodes(tags, target, n) == Some(source)
    ensures !CodesAcyclic(next)
  {
    var m := FirstReached(tags, target, source, n);
    SameUntil(tags, next, source, target, m);
    assert FollowCodes(next, source, 0) == Some(source);
    assert FollowCodes(next, source, 1) == Some(target);
    FollowOn(next, source, 1, target, m);
    assert FollowCodes(next, source, 1 + m) == Some(source);
  }

  /** And any cycle it closes shows that it did. */
  lemma CycleLedBack(tags: map<string, Tag>, next: map<string, Tag>, source: string, target: string, tag: string,
                     n: nat)
    requires forall t :: t != source ==> NextCode(next, t) == NextCode(tags, t)
    requires NextCode(next, source) == Some(target) && CodesAcyclic(tags) && n > 0
             && FollowCodes(next, tag, n) == Some(tag)
    ensures CodesLead(tags, target, source)
  {
    if forall i :: 0 <= i < n ==> FollowCodes(next, tag, i) != Some(source) {
      SameUntil(next, tags, source, tag, n);
      assert false;
    } else {
      var i :| 0 <= i < n && FollowCodes(next, tag, i) == Some(source);
      assert FollowCodes(next, tag, i + 1) == Some(target);
      FollowOn(next, tag, i + 1, target, n - 1 - i);
      FollowOn(next, target, n - 1 - i, tag, i);
      var m := FirstReached(next, target, source, n - 1 - i + i);
      SameUntil(next, tags, source, target, m);
    }
  }

  /** A merge leaves the stored codes without a cycle exactly when the codes did not lead from its target back to
      its source. */
  lemma CodesStayAcyclicIff(db: Db, source: string, target: string)
    requires CodesAcyclic(db.tags) && Merge(db, source, target).Some?
    ensures CodesAcyclic(Merge(db, source, target).value.tags) <==> !CodesLead(db.tags, target, source)
  {
    var next := Merge(db, source, target).value.tags;
    if CodesLead(db.tags, target, source) {
      var n :| FollowCodes(db.tags, target, n) == Some(source);
      LeadingBackCloses(db.tags, next, source, target, n);
    } else if !CodesAcyclic(next) {
      var tag, n :| n > 0 && FollowCodes(next, tag, n) == Some(tag);
      CycleLedBack(db.tags, next, source, target, tag, n);
    }
  }

  // ---------- issues of merged tags ----------

  ghost predicate MergedHaveNone(db: Db) {
    forall r :: r in db.rows ==> r.tag in db.tags && db.tags[r.tag].status != Merged
  }

  predicate TagsMerged(db: Db, e: Event) {
    e.Attach? && e.tag in db.tags && db.tags[e.tag].status == Merged
  }

  /** Only putting a merged tag on an issue leaves an issue with a merged tag. */
  lemma StepKeepsNoneIff(db: Db, e: Event)
    requires NoDuplicates(db.rows) && MergedHaveNone(db)
    ensures MergedHaveNone(Step(db, e)) <==> !TagsMerged(db, e)
  {
    if TagsMerged(db, e) {
      assert Row(e.issue, e.tag) !in db.rows;
      assert Row(e.issue, e.tag) in Step(db, e).rows;
    } else if e.MergeInto? && Merge(db, e.source, e.target).Some? {
      MergedRows(db, e.source, e.target);
    } else if e.Detach? {
      UntaggedKeeps(db.rows, e.issue);
    }
  }

  /** At no point of the run has a merged tag an issue. */
  ghost predicate AlwaysNone(events: seq<Event>) {
    MergedHaveNone(Run(events)) && (events == [] || AlwaysNone(events[..|events| - 1]))
  }

  /** No event of the run puts a merged tag on an issue. */
  ghost predicate NeverTagsMerged(events: seq<Event>) {
    events == []
    || (NeverTagsMerged(events[..|events| - 1]) && !TagsMerged(Run(events[..|events| - 1]), events[|events| - 1]))
  }

  /** At no point a merged tag has an issue exactly when no merged tag is ever put on one, whatever else is merged,
      approved and merged again. */
  lemma {:induction false} MergedTagsHaveNoIssuesIff(events: seq<Event>)
    ensures AlwaysNone(events) <==> NeverTagsMerged(events)
  {
    if events != [] {
      var before, e := events[..|events| - 1], events[|events| - 1];
      MergedTagsHaveNoIssuesIff(before);
      var rank := RunHasRanks(before);
      if MergedHaveNone(Run(before)) { StepKeepsNoneIff(Run(before), e); }
      assert Run(events) == Step(Run(before), e);
    }
  }
}
