/**
 Which requests on an issue as it is are committed, what a responsibility request leaves, and what the trail says of
 the issue's life: each against the code's checks, its WHERE clauses and its SET clauses taken together.
 */
module IssueRequests {
  import opened Options
  import opened IssueTable
  import opened IssueService
  import opened IssueRuns
  import opened IssueStatus

  /** The request, made on the issue as it is. */
  ghost function OnCurrent(s: State, id: int, r: Request): Event
    requires id in s.history && |s.history[id]| > 0
  {
    Call(id, |s.history[id]| - 1, r)
  }

  /** It commits a transaction. */
  ghost predicate Commits(s: State, id: int, r: Request)
    requires id in s.history && |s.history[id]| > 0
  {
    Step(s, OnCurrent(s, id, r)).log != s.log
  }

  lemma {:induction false} HasHistory(s: State, id: int)
    requires Good(s) && id in s.db.issues
    ensures id in s.history && |s.history[id]| > 0 && s.history[id][|s.history[id]| - 1] == s.db.issues[id]
    ensures s.db.issues[id].version >= 1
  {
    assert GoodHistory(s.history[id], s.db.issues[id]);
  }

  predicate Names(version: Option<int>, i: Issue) {
    version == None || version == Some(i.version)
  }

  /** Who may do what, and when. */
  ghost predicate MayCommit(i: Issue, r: Request) {
    match r
    case Resolve(_, permitted, force, photo, _, expected) =>
      && permitted && photo != None && expected == i.version && !i.deleted
      && (i.status == Open || (i.status == PendingReview && force))
    case Close(user, permitted, _, _, version) =>
      permitted && i.status == PendingReview && !i.deleted && i.resolver != Some(user) && Names(version, i)
    case Reopen(_, permitted, _, version) => permitted && i.status == PendingReview && !i.deleted && Names(version, i)
    case Invalidate(_, permitted, _, version) =>
      permitted && i.status != Closed && i.status != Invalid && !i.deleted && Names(version, i)
    case Delete(_, permitted, reasonOk, expected) => permitted && reasonOk && !i.deleted && expected == i.version
    case Restore(_, permitted, expected) => permitted && i.deleted && expected == i.version
    case PatchFields(permitted, valid, _, _, version) => permitted && valid && !i.deleted && Names(version, i)
    case Assign(_, permitted, mayAssign, mayVerify, change, refsOk, causeTeamOk, version) =>
      && permitted && !i.deleted && version == Some(i.version)
      && (ChangesOwner(change) ==> mayAssign && refsOk)
      && (ChangesCause(change) ==> mayVerify && CauseIsValid(i.owner, change, causeTeamOk))
      && Wanted(i.owner, change) != i.owner
  }

  predicate ChangesCause(a: Assignment) {
    a.cause != Absent || a.causeTeam != None
  }

  /** The cause status that a request leaves, if it is one at all. */
  function WantedStatus(o: Responsibility, a: Assignment): Option<CauseStatus> {
    match a.cause
    case Absent => Some(o.causeStatus)
    case Null => Some(Unverified)
    case Text(status) => status
  }

  /** A confirmed cause has a team, old or new, and any other has none. */
  predicate CauseIsValid(o: Responsibility, a: Assignment, causeTeamOk: bool) {
    var team := if a.causeTeam == None then o.causeTeam else a.causeTeam.value;
    match WantedStatus(o, a)
    case None => false
    case Some(Confirmed) => team != None && causeTeamOk
    case Some(_) => a.causeTeam == None || a.causeTeam == Some(None)
  }

  /** The responsibility that a valid request asks for. */
  function Wanted(o: Responsibility, a: Assignment): Responsibility {
    var status := if WantedStatus(o, a) == None then o.causeStatus else WantedStatus(o, a).value;
    var team := if a.causeTeam == None then o.causeTeam else a.causeTeam.value;
    Responsibility(if a.asset == None then o.asset else a.asset.value,
                   if a.team == None then o.team else a.team.value,
                   if a.assignee == None then o.assignee else a.assignee.value,
                   if status == Confirmed then team else if ChangesCause(a) then None else o.causeTeam,
                   status)
  }

  lemma {:induction false} AssignmentIsWanted(id: int, i: Issue, r: Request)
    requires r.Assign? && GoodIssue(i)
    ensures Decide(id, i, r).Some?
            <==> && r.permitted && r.version != None && (ChangesOwner(r.change) ==> r.mayAssign && r.refsOk)
                 && (ChangesCause(r.change) ==> r.mayVerify && CauseIsValid(i.owner, r.change, r.causeTeamOk))
                 && Wanted(i.owner, r.change) != i.owner
    ensures Decide(id, i, r).Some? ==>
              && Decide(id, i, r).value.PatchTx? && Decide(id, i, r).value.version == r.version
              && Updated(i, Decide(id, i, r).value) == i.(version := i.version + 1, owner := Wanted(i.owner, r.change))
  {
  }

  lemma {:induction false} DecidedIff(id: int, i: Issue, r: Request)
    requires GoodIssue(i)
    ensures Decide(id, i, r).Some? && Guard(i, Decide(id, i, r).value) <==> MayCommit(i, r)
  {
    if r.Assign? { AssignmentIsWanted(id, i, r); }
  }

  lemma {:induction false} CallCommitsIff(s: State, id: int, seen: nat, r: Request)
    requires GoodTables(s) && id in s.history && seen < |s.history[id]|
    ensures id in s.db.issues
    ensures var d := Decide(id, s.history[id][seen], r);
            CallService(s, id, seen, r).log != s.log
            <==> d.Some? && Guard(s.db.issues[id], d.value) && s.db.issues[id].version < 0x7fff_ffff
  {
    var d := Decide(id, s.history[id][seen], r);
    if d.Some? && Commit(s.db, id, d.value).Some? {
      CommitTables(s, id, s.history[id][seen], r);
    }
  }

  lemma {:induction false} CurrentIsCall(s: State, id: int, r: Request) returns (u: State)
    requires id in s.history && |s.history[id]| > 0
    ensures u == Step(s, OnCurrent(s, id, r)) == CallService(s, id, |s.history[id]| - 1, r)
  {
    u := CallService(s, id, |s.history[id]| - 1, r);
  }

  /** A request on an issue as it is commits exactly when the issue's status, its version and the answers it carries
      allow it. */
  lemma {:induction false} CommitsIff(s: State, id: int, r: Request)
    requires Good(s) && id in s.db.issues
    ensures id in s.history && |s.history[id]| > 0
    ensures Commits(s, id, r) <==> s.db.issues[id].version < 0x7fff_ffff && MayCommit(s.db.issues[id], r)
  {
    HasHistory(s, id);
    var u := CurrentIsCall(s, id, r);
    CallCommitsIff(s, id, |s.history[id]| - 1, r);
    assert GoodIssue(s.db.issues[id]);
    DecidedIff(id, s.db.issues[id], r);
  }

  /** What a committed request leaves. */
  ghost predicate Left(s: State, u: State, id: int, tx: Tx) {
    && id in s.db.issues && |s.log| < |u.log| && u.log == s.log + [u.log[|s.log|]] && u.log[|s.log|].id == id
    && u.log[|s.log|].tx == tx
    && u.db.issues == s.db.issues[id := Updated(s.db.issues[id], tx)]
    && u.db.scores == s.db.scores + Effects(tx)
    && u.db.audits == s.db.audits + Trail(id, s.db.issues[id], Updated(s.db.issues[id], tx), tx)
  }

  lemma {:induction false} CommitIsLogged(s: State, id: int, seen: nat, r: Request)
    requires Good(s) && id in s.history && seen < |s.history[id]|
    ensures var u, d := CallService(s, id, seen, r), Decide(id, s.history[id][seen], r);
            if u.log == s.log then u == s else d.Some? && Left(s, u, id, d.value)
  {
    var d := Decide(id, s.history[id][seen], r);
    if d.Some? && Commit(s.db, id, d.value).Some? { CommitTables(s, id, s.history[id][seen], r); }
  }

  lemma {:induction false} AssignmentTrail(id: int, i: Issue, r: Request)
    requires r.Assign? && GoodIssue(i) && Decide(id, i, r).Some?
    ensures var tx, next := Decide(id, i, r).value, Wanted(i.owner, r.change);
            Trail(id, i, Updated(i, tx), tx)
            == [Audit(id, r.user, AssignResponsibility, Owner(i.owner), Owner(next))]
               + if ChangesCause(r.change)
                 then [Audit(id, r.user, VerifyCause, Cause(i.owner.causeStatus), Cause(next.causeStatus))]
                 else []
  {
  }

  lemma {:induction false} CurrentCommit(s: State, id: int, r: Request) returns (u: State, tx: Tx)
    requires Good(s) && id in s.db.issues && id in s.history && |s.history[id]| > 0 && Commits(s, id, r)
    ensures u == Step(s, OnCurrent(s, id, r)) && Decide(id, s.db.issues[id], r) == Some(tx) && Left(s, u, id, tx)
  {
    u := CurrentIsCall(s, id, r);
    HasHistory(s, id);
    CommitIsLogged(s, id, |s.history[id]| - 1, r);
    tx := Decide(id, s.db.issues[id], r).value;
  }

  /** A committed responsibility request leaves exactly what it asks for, with a row of the trail that tells the owner
      before and after, and one that tells the cause status if it touches the cause. */
  lemma {:induction false} AssignedOwner(s: State, id: int, r: Request)
    requires Good(s) && id in s.db.issues && r.Assign? && id in s.history && |s.history[id]| > 0 && Commits(s, id, r)
    ensures var i, u, next := s.db.issues[id], Step(s, OnCurrent(s, id, r)), Wanted(s.db.issues[id].owner, r.change);
            && u.db.issues == s.db.issues[id := i.(version := i.version + 1, owner := next)]
            && u.db.audits
               == s.db.audits + ([Audit(id, r.user, AssignResponsibility, Owner(i.owner), Owner(next))]
                                 + if ChangesCause(r.change)
                                   then [Audit(id, r.user, VerifyCause, Cause(i.owner.causeStatus),
                                               Cause(next.causeStatus))]
                                   else [])
  {
    assert GoodIssue(s.db.issues[id]);
    var u, tx := CurrentCommit(s, id, r);
    AssignmentIsWanted(id, s.db.issues[id], r);
    AssignmentTrail(id, s.db.issues[id], r);
  }

  /** After a committed reopen, whoever is permitted may resolve the issue again at the version it then has. */
  lemma {:induction false} ReopenedMayBeResolved(s: State, id: int, seen: nat, reopen: Request, resolve: Request)
    requires Good(s) && id in s.history && seen < |s.history[id]| && reopen.Reopen?
    requires CallService(s, id, seen, reopen).log != s.log
    requires resolve.Resolve? && resolve.permitted && resolve.photo.Some?
    ensures var u := CallService(s, id, seen, reopen);
            && Good(u) && id in u.db.issues && id in u.history && |u.history[id]| > 0
            && (resolve.expected == u.db.issues[id].version < 0x7fff_ffff ==>
                  && Commits(u, id, resolve)
                  && Step(u, OnCurrent(u, id, resolve)).db.issues[id].status == PendingReview)
  {
    var u := CallService(s, id, seen, reopen);
    CallKeepsGood(s, id, seen, reopen);
    CommitIsLogged(s, id, seen, reopen);
    HasHistory(u, id);
    CommitsIff(u, id, resolve);
    CommitIsLogged(u, id, |u.history[id]| - 1, resolve);
  }
}
