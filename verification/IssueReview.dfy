/** Which closes are certain to be reviewed by someone other than the resolver, whatever happens between
    the read and the commit. */
module IssueReview {
  import opened Options
  import opened IssueTable
  import opened IssueService
  import opened IssueRuns

  /** The close, decided on the issue as read, either fails after these events or closes someone else's work. */
  ghost predicate ReviewedAfter(s: State, id: int, seen: nat, close: Request, more: seq<Event>)
    requires Good(s) && id in s.db.issues && seen < |s.history[id]| && close.Close?
  {
    FollowContinues(s, more, id);
    var u := Follow(s, more);
    var after := CallService(u, id, seen, close);
    after.log == u.log || after.db.issues[id].resolver != Some(close.user)
  }

  lemma {:induction false} CheckedCall(s: State, id: int, seen: nat, close: Request)
    requires GoodTables(s) && id in s.db.issues && seen < |s.history[id]| && close.Close?
    requires !MayMeetChanged(close.version, s.history[id][seen])
    ensures var after := CallService(s, id, seen, close);
            after.log == s.log || (id in after.db.issues && after.db.issues[id].resolver != Some(close.user))
  {
    var h := s.history[id];
    assert GoodHistory(h, s.db.issues[id]);
    var d := Decide(id, h[seen], close);
    if d.Some? && Commit(s.db, id, d.value).Some? {
      CommitTables(s, id, h[seen], close);
      SameUntilThen(h, s.db.issues[id], seen);
    }
  }

  lemma {:induction false} CheckedCloseIsSafe(s: State, id: int, seen: nat, close: Request, more: seq<Event>)
    requires Good(s) && id in s.db.issues && seen < |s.history[id]| && close.Close?
    requires !MayMeetChanged(close.version, s.history[id][seen])
    ensures ReviewedAfter(s, id, seen, close, more)
  {
    FollowContinues(s, more, id);
    assert Follow(s, more).history[id][seen] == s.history[id][seen];
    CheckedCall(Follow(s, more), id, seen, close);
  }

  lemma {:induction false} UncheckedCall(s: State, id: int, seen: nat, close: Request)
    requires GoodTables(s) && id in s.db.issues && seen < |s.history[id]| && close.Close?
    requires Decide(id, s.history[id][seen], close).Some?
    requires !s.db.issues[id].deleted && s.db.issues[id].status == PendingReview && s.db.issues[id].version < INT32_MAX
    requires Matches(close.version, s.db.issues[id]) && s.db.issues[id].resolver == Some(close.user)
    ensures var after := CallService(s, id, seen, close);
            after.log != s.log && id in after.db.issues && after.db.issues[id].resolver == Some(close.user)
  {
    CommitTables(s, id, s.history[id][seen], close);
  }

  function TakeOver(s: State, id: int, user: int): Event
    requires id in s.db.issues && id in s.history && |s.history[id]| > 0
  {
    Call(id, |s.history[id]| - 1, Resolve(user, true, true, Some("p"), 0, s.db.issues[id].version))
  }

  /** The closer resolves the issue once more by force; the version it had been read at is gone. */
  lemma {:induction false} TakeOverResolves(s: State, id: int, user: int)
    requires Good(s) && id in s.db.issues && !s.db.issues[id].deleted && s.db.issues[id].status == PendingReview
    requires s.db.issues[id].version < INT32_MAX
    ensures id in s.history && |s.history[id]| > 0
    ensures var i := s.db.issues[id];
            Step(s, TakeOver(s, id, user)).db.issues
            == s.db.issues[id := i.(version := i.version + 1, resolver := Some(user), photoAfter := Some("p"),
                                    resolvedAt := Some(0))]
  {
    assert GoodHistory(s.history[id], s.db.issues[id]) && GoodIssue(s.db.issues[id]);
    CommitTables(s, id, s.db.issues[id], TakeOver(s, id, user).request);
  }

  /** Taking over, and then patching until the version is the one asked for, leaves the closer as resolver. */
  lemma {:induction false} TakeOverUntil(s: State, id: int, user: int, version: int) returns (more: seq<Event>)
    requires Good(s) && id in s.db.issues && !s.db.issues[id].deleted && s.db.issues[id].status == PendingReview
    requires s.db.issues[id].version < version <= INT32_MAX
    ensures var u := Follow(s, more);
            && id in u.db.issues && !u.db.issues[id].deleted && u.db.issues[id].status == PendingReview
            && u.db.issues[id].version == version && u.db.issues[id].resolver == Some(user)
  {
    assert GoodHistory(s.history[id], s.db.issues[id]);
    var takeOver := TakeOver(s, id, user);
    TakeOverResolves(s, id, user);
    FollowOne(s, takeOver);
    FollowContinues(s, [takeOver], id);
    var touches := TouchManyTimes(Follow(s, [takeOver]), id, version - s.db.issues[id].version - 1);
    FollowTwice(s, [takeOver], touches);
    more := [takeOver] + touches;
  }

  /** The same on an issue that may be deleted: it is restored first. */
  lemma {:induction false} ReviveAndTakeOver(s: State, id: int, user: int, version: int) returns (more: seq<Event>)
    requires Good(s) && id in s.db.issues && s.db.issues[id].status == PendingReview
    requires LastSame(s.db.issues[id]) < version <= INT32_MAX
    ensures var u := Follow(s, more);
            && id in u.db.issues && !u.db.issues[id].deleted && u.db.issues[id].status == PendingReview
            && u.db.issues[id].version == version && u.db.issues[id].resolver == Some(user)
  {
    var first := Alive(s, id);
    FollowIsGood(s, first);
    var rest := TakeOverUntil(Follow(s, first), id, user, version);
    FollowTwice(s, first, rest);
    more := first + rest;
  }

  /** Such a run, up to the version that the close names, or any if it names none. */
  lemma {:induction false} MetChanged(s: State, id: int, close: Request) returns (more: seq<Event>, u: State)
    requires Good(s) && id in s.db.issues && close.Close? && s.db.issues[id].status == PendingReview
    requires MayMeetChanged(close.version, s.db.issues[id])
    ensures u == Follow(s, more) && Good(u) && Continues(s, u, id)
    ensures id in u.db.issues && !u.db.issues[id].deleted && u.db.issues[id].status == PendingReview
    ensures Matches(close.version, u.db.issues[id]) && u.db.issues[id].version < INT32_MAX
    ensures u.db.issues[id].resolver == Some(close.user)
    ensures 0 < |s.history[id]| <= |u.history[id]| && u.history[id][|s.history[id]| - 1] == s.db.issues[id]
  {
    assert GoodHistory(s.history[id], s.db.issues[id]);
    var version := if close.version.Some? then close.version.value else LastSame(s.db.issues[id]) + 1;
    more := ReviveAndTakeOver(s, id, close.user, version);
    u := Follow(s, more);
    FollowContinues(s, more, id);
  }

  lemma {:induction false} UncheckedCloseIsSelfReview(s: State, id: int, close: Request) returns (more: seq<Event>)
    requires Good(s) && id in s.db.issues && close.Close? && Decide(id, s.db.issues[id], close).Some?
    requires MayMeetChanged(close.version, s.db.issues[id])
    ensures |s.history[id]| > 0 && !ReviewedAfter(s, id, |s.history[id]| - 1, close, more)
  {
    var u;
    more, u := MetChanged(s, id, close);
    UncheckedCall(u, id, |s.history[id]| - 1, close);
  }

  ghost predicate AlwaysReviewed(s: State, id: int, seen: nat, close: Request)
    requires Good(s) && id in s.db.issues && seen < |s.history[id]| && close.Close?
  {
    forall more: seq<Event> :: ReviewedAfter(s, id, seen, close, more)
  }

  /** Whoever closes an issue under review is sure not to close their own work exactly when the close names a
      version no later than the one they read, or than the next if they read the issue deleted. (Or one past
      int32, with which nothing commits.) */
  lemma {:induction false} ReviewedIff(s: State, id: int, close: Request)
    requires Good(s) && id in s.db.issues && close.Close? && Decide(id, s.db.issues[id], close).Some?
    ensures |s.history[id]| > 0
    ensures AlwaysReviewed(s, id, |s.history[id]| - 1, close) <==> !MayMeetChanged(close.version, s.db.issues[id])
  {
    assert GoodHistory(s.history[id], s.db.issues[id]);
    var seen := |s.history[id]| - 1;
    if MayMeetChanged(close.version, s.db.issues[id]) {
      var more := UncheckedCloseIsSelfReview(s, id, close);
    } else {
      forall more: seq<Event> ensures ReviewedAfter(s, id, seen, close, more) {
        CheckedCloseIsSafe(s, id, seen, close, more);
      }
    }
  }
}
