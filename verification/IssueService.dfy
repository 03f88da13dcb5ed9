/**
 What the service decides from the issue it read: refuse, do nothing, or hand one transaction to the
 store. Permissions and reference look-ups are answers carried by the request.
 */
module IssueService {
  import opened Options
  import opened IssueTable

  /** The answer of GetScoringRuleByKey. */
  datatype RuleLookup = Found(points: int) | Missing | Unavailable

  type Rules = map<RuleKey, RuleLookup>

  function LookUp(rules: Rules, key: RuleKey): RuleLookup {
    if key in rules then rules[key] else Missing
  }

  /** configuredScore: a rule with the wrong sign, or one that cannot be loaded, scores nothing. */
  function ConfiguredScore(rules: Rules, issue: int, target: ScoreTarget, key: RuleKey, fallback: int,
                           award: bool): seq<Score>
  {
    var points := match LookUp(rules, key) case Found(p) => p case Missing => fallback case Unavailable => 0;
    if (award && points <= 0) || (!award && points >= 0) then [] else [Score(issue, target, key, points)]
  }

  /** closeRewardScores */
  function CloseRewards(rules: Rules, id: int, i: Issue, rating: int): seq<Score> {
    (if i.category == Safety then ConfiguredScore(rules, id, User(i.creator), RewardSafety, 5, true)
     else ConfiguredScore(rules, id, User(i.creator), RewardNormal, 2, true))
    + (if rating >= 4 then ConfiguredScore(rules, id, Location(i.location), BonusKaizen, 1, true) else [])
  }

  /** The creation penalty of SyncIssue; a rule that is not a penalty, or cannot be loaded, refuses the request. */
  function CreationPenalty(rules: Rules, category: Category): Option<(RuleKey, int)> {
    var key := if category == Safety then PenaltySafety else PenaltyNormal;
    match LookUp(rules, key)
    case Found(p) => if p >= 0 then None else Some((key, p))
    case Missing => Some((key, if category == Safety then -10 else -2))
    case Unavailable => None
  }

  /** A cause status in a request: absent, an explicit null, or a text that may not be a status. */
  datatype CauseChange = Absent | Null | Text(status: Option<CauseStatus>)

  datatype Assignment = Assignment(asset: Option<Option<int>>, team: Option<Option<int>>, assignee: Option<Option<int>>,
                                   causeTeam: Option<Option<int>>, cause: CauseChange)

  /** permitted: the permission checks of the operation; the other flags answer look-ups of referenced rows. */
  datatype Request =
    | Resolve(user: int, permitted: bool, force: bool, photo: Option<string>, now: int, expected: int)
    | Close(user: int, permitted: bool, rating: int, rules: Rules, version: Option<int>)
    | Reopen(user: int, permitted: bool, rules: Rules, version: Option<int>)
    | Invalidate(user: int, permitted: bool, rules: Rules, version: Option<int>)
    | Delete(user: int, permitted: bool, reasonOk: bool, expected: int)
    | Restore(user: int, permitted: bool, expected: int)
    | PatchFields(permitted: bool, valid: bool, category: Option<Category>, location: Option<string>,
                  version: Option<int>)
    | Assign(user: int, permitted: bool, mayAssign: bool, mayVerify: bool, change: Assignment,
             refsOk: bool, causeTeamOk: bool, version: Option<int>)

  predicate ChangesOwner(a: Assignment) {
    a.asset.Some? || a.team.Some? || a.assignee.Some?
  }

  /** applyCausePatch: every cause change writes status and team together, or is refused. */
  function CausePatch(a: Assignment, i: Issue, mayVerify: bool, causeTeamOk: bool): Option<Patch> {
    var none := Patch(None, None, None, None, None, None, None);
    if a.cause == Absent && a.causeTeam.None? then Some(none)
    else if !mayVerify then None
    else
      var status: Option<CauseStatus> :=
        match a.cause case Absent => Some(i.owner.causeStatus) case Null => Some(Unverified) case Text(s) => s;
      if status.None? then None
      else
        var team := if a.causeTeam.Some? then a.causeTeam.value else i.owner.causeTeam;
        if status.value != Confirmed then
          if a.causeTeam.Some? && team.Some? then None
          else Some(none.(causeTeam := Some(None), causeStatus := Some(status.value)))
        else if team.None? || !causeTeamOk then None
        else Some(none.(causeTeam := Some(team), causeStatus := Some(Confirmed)))
  }

  /** buildResponsibilityPatch; None refuses, Some(None) finds nothing to change. */
  function ResponsibilityPatch(id: int, user: int, a: Assignment, i: Issue, mayAssign: bool, mayVerify: bool,
                               refsOk: bool, causeTeamOk: bool): Option<Option<(Patch, seq<Audit>)>> {
    if ChangesOwner(a) && (!mayAssign || !refsOk) then None
    else
      match CausePatch(a, i, mayVerify, causeTeamOk)
      case None => None
      case Some(cause) =>
        var patch := cause.(asset := a.asset, team := a.team, assignee := a.assignee);
        var next := Patched(i.owner, patch);
        if next == i.owner then Some(None)
        else
          Some(Some((patch,
            [Audit(id, user, AssignResponsibility, Owner(i.owner), Owner(next))]
            + (if patch.causeStatus.Some?
               then [Audit(id, user, VerifyCause, Cause(i.owner.causeStatus), Cause(next.causeStatus))]
               else []))))
  }

  /** The checks of each service method against the issue it read, in their order. */
  function Decide(id: int, i: Issue, r: Request): Option<Tx> {
    match r
    case Resolve(user, permitted, force, photo, now, expected) =>
      if expected <= 0 || !permitted then None
      else if i.status != Open && !(force && i.status == PendingReview) then None
      else if photo.None? then None
      else Some(ResolveTx(force, user, photo.value, now, expected))
    case Close(user, permitted, rating, rules, version) =>
      if i.status != PendingReview || !permitted then None
      else if i.resolver == Some(user) then None
      else
        var stars := if rating < 1 || rating > 5 then 3 else rating;
        Some(CloseTx(stars, CloseRewards(rules, id, i, stars), user, version))
    case Reopen(user, permitted, rules, version) =>
      if i.status != PendingReview || !permitted then None
      else Some(ReopenTx(ConfiguredScore(rules, id, Location(i.location), PenaltyReopen, -2, false), user, version))
    case Invalidate(user, permitted, rules, version) =>
      if !permitted || (i.status != Open && i.status != PendingReview) then None
      else Some(InvalidateTx(ConfiguredScore(rules, id, User(i.creator), PenaltyInvalid, -5, false), user, version))
    case Delete(user, permitted, reasonOk, expected) =>
      if expected <= 0 || !reasonOk || !permitted || i.deleted then None else Some(DeleteTx(user, expected))
    case Restore(user, permitted, expected) =>
      if expected <= 0 || !permitted || !i.deleted then None else Some(RestoreTx(user, expected))
    case PatchFields(permitted, valid, category, location, version) =>
      if !permitted || !valid then None
      else Some(PatchTx(Patch(category, location, None, None, None, None, None), [], version))
    case Assign(user, permitted, mayAssign, mayVerify, change, refsOk, causeTeamOk, version) =>
      if !permitted || version.None? then None
      else
        match ResponsibilityPatch(id, user, change, i, mayAssign, mayVerify, refsOk, causeTeamOk)
        case None => None
        case Some(None) => None
        case Some(Some((patch, audits))) => Some(PatchTx(patch, audits, version))
  }

  /** One request: the decision on the issue as read, however long ago, and its transaction on the tables as
      they are by then. */
  method Handle(store: IssueStore, id: int, seen: Issue, r: Request) returns (done: Option<Issue>)
    modifies store
    ensures done.Some?
            <==> Decide(id, seen, r).Some? && Commit(old(store.Snapshot()), id, Decide(id, seen, r).value).Some?
    ensures store.Snapshot() == (if done.Some? then Commit(old(store.Snapshot()), id, Decide(id, seen, r).value).value
                                 else old(store.Snapshot()))
    ensures done.Some? ==> id in store.issues && done.value == store.issues[id]
  {
    var tx := Decide(id, seen, r);
    if tx.None? {
      return None;
    }
    done := store.CommitAtomic(id, tx.value);
  }

  /** SyncIssue: the penalty is settled before anything is written, so a refused one creates no issue. */
  method SyncIssue(store: IssueStore, uuid: string, creator: int, category: Category, location: string,
                   owner: Responsibility, rules: Rules) returns (id: Option<int>)
    modifies store
    ensures var penalty := CreationPenalty(rules, category);
            && (id.Some? <==> penalty.Some? && !UuidTaken(old(store.Snapshot()), uuid))
            && (id.Some? ==> Some(store.Snapshot())
                             == Create(old(store.Snapshot()), uuid, creator, category, location, owner, penalty.value.0,
                                       penalty.value.1))
            && (id.None? ==> store.Snapshot() == old(store.Snapshot()))
  {
    var penalty := CreationPenalty(rules, category);
    if penalty.None? {
      return None;
    }
    id := store.CreateAtomic(uuid, creator, category, location, owner, penalty.value.0, penalty.value.1);
  }
}
