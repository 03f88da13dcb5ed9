/**
 The audit trail of an issue's responsibility: each ASSIGN_RESPONSIBILITY row holds the snapshot the
 request read and the one it asked for, so the rows replay to the stored owner only if they chain.
 */
module IssueAudit {
  import opened Options
  import opened IssueTable
  import opened IssueService
  import opened IssueRuns

  /** Replays the first n audit rows of an issue from the owner it was created with; None when a row's
      old value is not the new value of the row before it. */
  function Replay(audits: seq<Audit>, n: nat, id: int, start: Responsibility): Option<Responsibility>
    requires n <= |audits|
  {
    if n == 0 then Some(start)
    else
      var soFar, row := Replay(audits, n - 1, id, start), audits[n - 1];
      if row.issue != id || row.action != AssignResponsibility then soFar
      else if soFar.Some? && row.before == Owner(soFar.value) && row.after.Owner? then Some(row.after.owner)
      else None
  }

  lemma {:induction false} ReplaySplit(a: seq<Audit>, b: seq<Audit>, n: nat, id: int, start: Responsibility)
    requires n <= |b|
    ensures Replay(a + b, |a| + n, id, start)
            == match Replay(a, |a|, id, start) case None => None case Some(o) => Replay(b, n, id, o)
  {
    if n == 0 {
      ReplayPrefix(a, b, |a|, id, start);
    } else {
      ReplaySplit(a, b, n - 1, id, start);
    }
  }

  lemma {:induction false} ReplayPrefix(a: seq<Audit>, b: seq<Audit>, n: nat, id: int, start: Responsibility)
    requires n <= |a|
    ensures Replay(a + b, n, id, start) == Replay(a, n, id, start)
  {
    if n > 0 { ReplayPrefix(a, b, n - 1, id, start); }
  }

  lemma {:induction false} NothingToReplay(audits: seq<Audit>, n: nat, id: int, start: Responsibility)
    requires n <= |audits|
    requires forall k :: 0 <= k < n ==> audits[k].issue != id || audits[k].action != AssignResponsibility
    ensures Replay(audits, n, id, start) == Some(start)
  {
    if n > 0 { NothingToReplay(audits, n - 1, id, start); }
  }

  /** The rows of an issue chain from the owner it was created with to the one it has. */
  ghost predicate Chained(s: State, id: int)
    requires id in s.db.issues && id in s.history && |s.history[id]| > 0
  {
    Replay(s.db.audits, |s.db.audits|, id, s.history[id][0].owner) == Some(s.db.issues[id].owner)
  }

  ghost predicate AuditsOfIssues(s: State) {
    forall k :: 0 <= k < |s.db.audits| ==> s.db.audits[k].issue in s.db.issues
  }

  ghost predicate AllChained(s: State)
    requires GoodTables(s)
  {
    AuditsOfIssues(s) && forall id :: id in s.db.issues ==>
      GoodHistory(s.history[id], s.db.issues[id]) && Chained(s, id)
  }

  /** A responsibility request of the step names the version of the issue it read. */
  predicate Checked(s: State, e: Event) {
    e.Call? && e.request.Assign? && e.id in s.history && e.seen < |s.history[e.id]| && e.request.version.Some? ==>
      e.request.version.value == s.history[e.id][e.seen].version
  }

  predicate AllChecked(s: State, more: seq<Event>) {
    more == [] || (AllChecked(s, more[..|more| - 1]) && Checked(Follow(s, more[..|more| - 1]), more[|more| - 1]))
  }

  // ---------- one transaction ----------

  /** What a decided transaction writes to the trail, against the owner it meets. */
  lemma {:induction false} TrailReplays(id: int, seen: Issue, r: Request, i: Issue)
    requires Decide(id, seen, r).Some?
    ensures var tx := Decide(id, seen, r).value; var trail := Trail(id, i, Updated(i, tx), tx);
            && (forall k :: 0 <= k < |trail| ==> trail[k].issue == id)
            && (!r.Assign? || seen.owner == i.owner ==>
                  Replay(trail, |trail|, id, i.owner) == Some(Updated(i, tx).owner))
            && (r.Assign? && seen.owner != i.owner ==> Replay(trail, |trail|, id, i.owner) == None)
  {
    var tx := Decide(id, seen, r).value;
    var trail := Trail(id, i, Updated(i, tx), tx);
    if r.Assign? {
      assert trail[0].action == AssignResponsibility && trail[0].before == Owner(seen.owner);
      assert Replay(trail, 0, id, i.owner) == Some(i.owner);
      if |trail| == 2 {
        assert Replay(trail, 1, id, i.owner) == (if seen.owner == i.owner then Some(Updated(i, tx).owner) else None);
      }
    } else {
      NothingToReplay(trail, |trail|, id, i.owner);
    }
  }

  lemma {:induction false} CommitTrail(s: State, id: int, seen: Issue, r: Request)
    requires GoodTables(s) && id in s.history && Decide(id, seen, r).Some?
    requires Commit(s.db, id, Decide(id, seen, r).value).Some?
    ensures var tx := Decide(id, seen, r).value;
            CommitTx(s, id, tx, seen.version).db.audits
              == s.db.audits + Trail(id, s.db.issues[id], Updated(s.db.issues[id], tx), tx)
  {
  }

  /** A committed transaction extends the chain of its issue exactly when it read the owner it replaces. */
  lemma {:induction false} CommitChains(s: State, id: int, seen: Issue, r: Request)
    requires GoodTables(s) && id in s.history && GoodHistory(s.history[id], s.db.issues[id]) && Chained(s, id)
    requires Decide(id, seen, r).Some? && Commit(s.db, id, Decide(id, seen, r).value).Some?
    ensures var u := CommitTx(s, id, Decide(id, seen, r).value, seen.version);
            && id in u.db.issues && id in u.history && |u.history[id]| > 0
            && (Chained(u, id) <==> !r.Assign? || seen.owner == s.db.issues[id].owner)
  {
    var tx := Decide(id, seen, r).value;
    var i := s.db.issues[id];
    var trail := Trail(id, i, Updated(i, tx), tx);
    CommitTables(s, id, seen, r);
    CommitTrail(s, id, seen, r);
    TrailReplays(id, seen, r, i);
    ReplaySplit(s.db.audits, trail, |trail|, id, s.history[id][0].owner);
  }

  lemma {:induction false} CommitLeavesOthers(s: State, id: int, seen: Issue, r: Request, other: int)
    requires GoodTables(s) && id in s.history && other in s.db.issues && other != id
    requires GoodHistory(s.history[other], s.db.issues[other]) && Chained(s, other)
    requires Decide(id, seen, r).Some? && Commit(s.db, id, Decide(id, seen, r).value).Some?
    ensures var u := CommitTx(s, id, Decide(id, seen, r).value, seen.version);
            other in u.db.issues && other in u.history && |u.history[other]| > 0 && Chained(u, other)
  {
    var tx := Decide(id, seen, r).value;
    var i := s.db.issues[id];
    var trail := Trail(id, i, Updated(i, tx), tx);
    CommitTables(s, id, seen, r);
    CommitTrail(s, id, seen, r);
    TrailReplays(id, seen, r, i);
    NothingToReplay(trail, |trail|, other, s.db.issues[other].owner);
    ReplaySplit(s.db.audits, trail, |trail|, other, s.history[other][0].owner);
  }

  // ---------- runs ----------

  lemma {:induction false} SyncChains(s: State, e: Event)
    requires e.Sync? && GoodTables(s) && AllChained(s) && GoodTables(SyncStep(s, e))
    ensures AllChained(SyncStep(s, e))
  {
    var u := SyncStep(s, e);
    assert s.db.nextId !in s.db.issues;
    if u != s {
      var id := s.db.nextId;
      NothingToReplay(s.db.audits, |s.db.audits|, id, u.history[id][0].owner);
      assert Chained(u, id);
      forall other | other in u.db.issues
        ensures GoodHistory(u.history[other], u.db.issues[other]) && Chained(u, other)
      {
        if other != id { assert Chained(s, other); }
      }
    }
  }

  lemma {:induction false} CallChains(s: State, id: int, seen: nat, r: Request)
    requires GoodTables(s) && AllChained(s) && id in s.history && seen < |s.history[id]|
    requires GoodTables(CallService(s, id, seen, r)) && Checked(s, Call(id, seen, r))
    ensures AllChained(CallService(s, id, seen, r))
  {
    var h := s.history[id];
    var u := CallService(s, id, seen, r);
    var d := Decide(id, h[seen], r);
    if d.Some? && Commit(s.db, id, d.value).Some? {
      assert r.Assign? ==> h[seen] == s.db.issues[id];
      CommitChains(s, id, h[seen], r);
      CommitTables(s, id, h[seen], r);
      CommitTrail(s, id, h[seen], r);
      TrailReplays(id, h[seen], r, s.db.issues[id]);
      forall other | other in u.db.issues
        ensures GoodHistory(u.history[other], u.db.issues[other]) && Chained(u, other)
      {
        if other != id { CommitLeavesOthers(s, id, h[seen], r, other); }
      }
    }
  }

  lemma {:induction false} FollowChains(s: State, more: seq<Event>)
    requires Good(s) && AllChained(s) && AllChecked(s, more)
    ensures Good(Follow(s, more)) && AllChained(Follow(s, more))
  {
    FollowIsGood(s, more);
    if more != [] {
      var fewer, e := more[..|more| - 1], more[|more| - 1];
      var u := Follow(s, fewer);
      FollowChains(s, fewer);
      FollowIsGood(s, fewer);
      StepKeepsGood(u, e);
      if e.Sync? {
        SyncChains(u, e);
      } else if e.Call? && e.id in u.history && e.seen < |u.history[e.id]| {
        CallChains(u, e.id, e.seen, e.request);
      }
    }
  }

  /** In every run whose responsibility requests name the version they read, the rows of each issue replay
      from the owner of its creation to the stored owner. */
  lemma {:induction false} TrailTellsOwner(events: seq<Event>, id: int)
    requires AllChecked(START, events) && id in Run(events).db.issues
    ensures id in Run(events).history && |Run(events).history[id]| > 0 && Chained(Run(events), id)
  {
    FollowChains(START, events);
  }

  // ---------- which requests are certain to keep the chain ----------

  /** If everybody else's responsibility requests are checked, the chain survives this one as well. */
  ghost predicate ChainedAfter(s: State, id: int, seen: nat, r: Request, more: seq<Event>)
    requires Good(s) && id in s.db.issues && seen < |s.history[id]|
  {
    FollowContinues(s, more, id);
    AllChecked(s, more) ==>
      var u := CallService(Follow(s, more), id, seen, r);
      id in u.db.issues && id in u.history && |u.history[id]| > 0 && Chained(u, id)
  }

  ghost predicate AlwaysChained(s: State, id: int, seen: nat, r: Request)
    requires Good(s) && id in s.db.issues && seen < |s.history[id]|
  {
    forall more: seq<Event> :: ChainedAfter(s, id, seen, r, more)
  }

  lemma {:induction false} EarlyCall(s: State, id: int, seen: nat, r: Request)
    requires GoodTables(s) && AllChained(s) && id in s.history && seen < |s.history[id]|
    requires r.Assign? && !MayMeetChanged(r.version, s.history[id][seen])
    ensures var u := CallService(s, id, seen, r);
            id in u.db.issues && id in u.history && |u.history[id]| > 0 && Chained(u, id)
  {
    var h := s.history[id];
    assert GoodHistory(h, s.db.issues[id]);
    var d := Decide(id, h[seen], r);
    if d.Some? && Commit(s.db, id, d.value).Some? {
      SameUntilThen(h, s.db.issues[id], seen);
      CommitChains(s, id, h[seen], r);
    }
  }

  lemma {:induction false} EarlyVersionKeepsChain(s: State, id: int, seen: nat, r: Request, more: seq<Event>)
    requires Good(s) && AllChained(s) && id in s.db.issues && seen < |s.history[id]|
    requires r.Assign? && !MayMeetChanged(r.version, s.history[id][seen])
    ensures ChainedAfter(s, id, seen, r, more)
  {
    FollowContinues(s, more, id);
    if AllChecked(s, more) {
      FollowChains(s, more);
      assert Follow(s, more).history[id][seen] == s.history[id][seen];
      EarlyCall(Follow(s, more), id, seen, r);
    }
  }

  /** A checked request of someone else for another asset. */
  function Reassign(s: State, id: int): Event
    requires id in s.db.issues && id in s.history && |s.history[id]| > 0
  {
    var i := s.db.issues[id];
    var asset := if i.owner.asset == None then Some(1) else None;
    var owner := Assignment(Some(asset), None, None, None, Absent);
    Call(id, |s.history[id]| - 1, Assign(1, true, true, false, owner, true, false, Some(i.version)))
  }

  lemma {:induction false} ReassignChangesOwner(s: State, id: int)
    requires GoodTables(s) && id in s.db.issues && !s.db.issues[id].deleted && s.db.issues[id].version < INT32_MAX
    ensures id in s.history && |s.history[id]| > 0 && Checked(s, Reassign(s, id))
    ensures var i := s.db.issues[id]; var u := Step(s, Reassign(s, id));
            && id in u.db.issues && u.db.issues[id].owner != i.owner
            && !u.db.issues[id].deleted && u.db.issues[id].version == i.version + 1
  {
    var i := s.db.issues[id];
    assert GoodHistory(s.history[id], i);
    var r := Reassign(s, id).request;
    assert Patched(i.owner, Decide(id, i, r).value.patch).asset != i.owner.asset;
    CommitTables(s, id, i, r);
  }

  lemma {:induction false} NoAssignsAreChecked(s: State, more: seq<Event>)
    requires forall k :: 0 <= k < |more| ==> more[k].Call? && !more[k].request.Assign?
    ensures AllChecked(s, more)
  {
    if more != [] { NoAssignsAreChecked(s, more[..|more| - 1]); }
  }

  lemma {:induction false} CheckedTwice(s: State, first: seq<Event>, second: seq<Event>)
    requires AllChecked(s, first) && AllChecked(Follow(s, first), second)
    ensures AllChecked(s, first + second)
  {
    if second == [] {
      assert first + second == first;
    } else {
      var fewer, all := second[..|second| - 1], first + second;
      CheckedTwice(s, first, fewer);
      FollowTwice(s, first, fewer);
      assert all[..|all| - 1] == first + fewer;
    }
  }

  lemma {:induction false} OneIsChecked(s: State, e: Event)
    requires Checked(s, e)
    ensures AllChecked(s, [e])
  {
    assert [e][..0] == [];
    assert AllChecked(s, []) && Follow(s, []) == s;
  }

  /** Someone else's checked request, and field patches until the version is the one asked for. */
  lemma {:induction false} ReassignUntil(s: State, id: int, version: int) returns (more: seq<Event>)
    requires Good(s) && id in s.db.issues && !s.db.issues[id].deleted && s.db.issues[id].version < version <= INT32_MAX
    ensures AllChecked(s, more)
    ensures var u := Follow(s, more);
            && id in u.db.issues && !u.db.issues[id].deleted
            && u.db.issues[id].version == version && u.db.issues[id].owner != s.db.issues[id].owner
  {
    ReassignChangesOwner(s, id);
    var first := Reassign(s, id);
    FollowOne(s, first);
    FollowIsGood(s, [first]);
    OneIsChecked(s, first);
    var touches := TouchManyTimes(Follow(s, [first]), id, version - s.db.issues[id].version - 1);
    NoAssignsAreChecked(Follow(s, [first]), touches);
    CheckedTwice(s, [first], touches);
    FollowTwice(s, [first], touches);
    more := [first] + touches;
  }

  /** The same on an issue that may be deleted: it is restored first. */
  lemma {:induction false} ReviveAndReassign(s: State, id: int, version: int) returns (more: seq<Event>)
    requires Good(s) && id in s.db.issues && LastSame(s.db.issues[id]) < version <= INT32_MAX
    ensures AllChecked(s, more)
    ensures var u := Follow(s, more);
            && id in u.db.issues && !u.db.issues[id].deleted
            && u.db.issues[id].version == version && u.db.issues[id].owner != s.db.issues[id].owner
  {
    var first := Alive(s, id);
    FollowIsGood(s, first);
    NoAssignsAreChecked(s, first);
    var rest := ReassignUntil(Follow(s, first), id, version);
    CheckedTwice(s, first, rest);
    FollowTwice(s, first, rest);
    more := first + rest;
  }

  lemma {:induction false} LateCall(s: State, id: int, seen: nat, r: Request)
    requires GoodTables(s) && AllChained(s) && id in s.db.issues && seen < |s.history[id]|
    requires r.Assign? && Decide(id, s.history[id][seen], r).Some? && s.history[id][seen].owner != s.db.issues[id].owner
    requires !s.db.issues[id].deleted && s.db.issues[id].version == r.version.value < INT32_MAX
    ensures var u := CallService(s, id, seen, r);
            id in u.db.issues && id in u.history && |u.history[id]| > 0 && !Chained(u, id)
  {
    CommitChains(s, id, s.history[id][seen], r);
  }

  lemma {:induction false} LateVersionBreaksChain(s: State, id: int, r: Request) returns (more: seq<Event>)
    requires Good(s) && AllChained(s) && id in s.db.issues
    requires r.Assign? && Decide(id, s.db.issues[id], r).Some? && MayMeetChanged(r.version, s.db.issues[id])
    ensures |s.history[id]| > 0 && !ChainedAfter(s, id, |s.history[id]| - 1, r, more)
  {
    var i := s.db.issues[id];
    more := ReviveAndReassign(s, id, r.version.value);
    FollowContinues(s, more, id);
    FollowChains(s, more);
    assert Follow(s, more).history[id][|s.history[id]| - 1] == i;
    LateCall(Follow(s, more), id, |s.history[id]| - 1, r);
  }

  /** A responsibility request on the issue as it is now is sure to keep the chain, whatever checked requests come
      first, exactly when it names a version no later than the one it read, or than the next if it read the issue
      deleted. (Or one past int32, with which nothing commits.) */
  lemma {:induction false} ChainedIff(s: State, id: int, r: Request)
    requires Good(s) && AllChained(s) && id in s.db.issues
    requires r.Assign? && Decide(id, s.db.issues[id], r).Some?
    ensures |s.history[id]| > 0
    ensures AlwaysChained(s, id, |s.history[id]| - 1, r) <==> !MayMeetChanged(r.version, s.db.issues[id])
  {
    var seen := |s.history[id]| - 1;
    if MayMeetChanged(r.version, s.db.issues[id]) {
      var more := LateVersionBreaksChain(s, id, r);
    } else {
      forall more: seq<Event> ensures ChainedAfter(s, id, seen, r, more) {
        EarlyVersionKeepsChain(s, id, seen, r, more);
      }
    }
  }
}
