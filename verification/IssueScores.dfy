/**
 Which scores the ledger gains: for every committed request, and for every creation, the rule, the target and the
 points, by what the rule table answers.
 */
module IssueScores {
  import opened Options
  import opened IssueTable
  import opened IssueService
  import opened IssueRuns
  import opened IssueRequests

  /** The points of a rule: those stored, or these for a rule that is not in the table; none if it cannot be read. */
  predicate Worth(rules: Rules, rule: RuleKey, missing: int, points: int) {
    if rule in rules && rules[rule] != Missing then rules[rule] == Found(points) else points == missing
  }

  /** A score that a committed request on the issue, as the request saw it, brings. */
  predicate Earns(id: int, i: Issue, r: Request, x: Score) {
    && x.issue == id
    && match r
       case Close(_, _, rating, rules, _) =>
         && x.points > 0
         && (|| (i.category == Safety && x.rule == RewardSafety && x.target == User(i.creator)
                 && Worth(rules, RewardSafety, 5, x.points))
             || (i.category != Safety && x.rule == RewardNormal && x.target == User(i.creator)
                 && Worth(rules, RewardNormal, 2, x.points))
             || ((rating == 4 || rating == 5) && x.rule == BonusKaizen && x.target == Location(i.location)
                 && Worth(rules, BonusKaizen, 1, x.points)))
       case Reopen(_, _, rules, _) =>
         x.points < 0 && x.rule == PenaltyReopen && x.target == Location(i.location)
         && Worth(rules, PenaltyReopen, -2, x.points)
       case Invalidate(_, _, rules, _) =>
         x.points < 0 && x.rule == PenaltyInvalid && x.target == User(i.creator)
         && Worth(rules, PenaltyInvalid, -5, x.points)
       case _ => false
  }

  predicate Once(scores: seq<Score>) {
    forall j, k :: 0 <= j < k < |scores| ==> scores[j] != scores[k]
  }

  lemma {:induction false} ConfiguredIff(rules: Rules, id: int, target: ScoreTarget, key: RuleKey, missing: int,
                                         award: bool)
    ensures var e := ConfiguredScore(rules, id, target, key, missing, award);
            && |e| <= 1
            && forall x :: x in e
                 <==> x.issue == id && x.target == target && x.rule == key && Worth(rules, key, missing, x.points)
                      && (if award then x.points > 0 else x.points < 0)
  {
  }

  lemma {:induction false} CloseEarns(id: int, i: Issue, r: Request)
    requires r.Close?
    ensures var stars := if r.rating < 1 || r.rating > 5 then 3 else r.rating;
            var e := CloseRewards(r.rules, id, i, stars);
            (forall x :: x in e <==> Earns(id, i, r, x)) && Once(e)
  {
    if i.category == Safety {
      ConfiguredIff(r.rules, id, User(i.creator), RewardSafety, 5, true);
    } else {
      ConfiguredIff(r.rules, id, User(i.creator), RewardNormal, 2, true);
    }
    ConfiguredIff(r.rules, id, Location(i.location), BonusKaizen, 1, true);
  }

  lemma {:induction false} DecisionEarns(id: int, i: Issue, r: Request)
    requires Decide(id, i, r).Some?
    ensures var e := Effects(Decide(id, i, r).value); (forall x :: x in e <==> Earns(id, i, r, x)) && Once(e)
  {
    match r
    case Close(_, _, _, _, _) => CloseEarns(id, i, r);
    case Reopen(_, _, rules, _) => ConfiguredIff(rules, id, Location(i.location), PenaltyReopen, -2, false);
    case Invalidate(_, _, rules, _) => ConfiguredIff(rules, id, User(i.creator), PenaltyInvalid, -5, false);
    case _ =>
  }

  /** A committed request brings exactly the scores that it earns, each once, and one that does not commit none: a
      close a reward for the reporter, by category, and a bonus for the location from four stars on; a reopen a
      penalty of the location, and an invalidation one of the reporter. */
  lemma {:induction false} RequestScores(s: State, id: int, seen: nat, r: Request)
    requires Good(s) && id in s.history && seen < |s.history[id]|
    ensures var u := CallService(s, id, seen, r);
            && s.db.scores <= u.db.scores
            && var gained := u.db.scores[|s.db.scores|..];
               && (forall x :: x in gained <==> u.log != s.log && Earns(id, s.history[id][seen], r, x))
               && Once(gained)
  {
    var u, d := CallService(s, id, seen, r), Decide(id, s.history[id][seen], r);
    CommitIsLogged(s, id, seen, r);
    if u.log != s.log {
      DecisionEarns(id, s.history[id][seen], r);
      assert u.db.scores[|s.db.scores|..] == Effects(d.value);
    }
  }

  /** The penalty of a new issue. */
  predicate Costs(e: Event, id: int, x: Score)
    requires e.Sync?
  {
    && x.issue == id && x.target == Location(e.location) && x.points < 0
    && if e.category == Safety then x.rule == PenaltySafety && Worth(e.rules, PenaltySafety, -10, x.points)
       else x.rule == PenaltyNormal && Worth(e.rules, PenaltyNormal, -2, x.points)
  }

  /** The row of a new issue. */
  function Created(e: Event): Issue
    requires e.Sync?
  {
    Issue(e.uuid, 1, e.creator, e.category, e.location, Open, None, None, None, 3, false,
          Responsibility(e.asset, e.team, e.assignee, None, Unverified))
  }

  /** A creation is accepted exactly when its data are valid, its UUID is new and its rule is a penalty; the issue is
      then open at version one, with exactly that penalty of its location. */
  lemma {:induction false} CreationScores(s: State, e: Event)
    requires Good(s) && e.Sync?
    ensures var u, id := SyncStep(s, e), s.db.nextId;
            && (u != s <==> e.valid && (forall k :: k in s.db.issues ==> s.db.issues[k].uuid != e.uuid)
                            && exists x :: Costs(e, id, x))
            && (u != s ==>
                  && u.db.issues == s.db.issues[id := Created(e)]
                  && |u.db.scores| == |s.db.scores| + 1 && s.db.scores <= u.db.scores
                  && Costs(e, id, u.db.scores[|s.db.scores|]))
  {
    var u, id := SyncStep(s, e), s.db.nextId;
    match CreationPenalty(e.rules, e.category) {
      case None => forall x ensures !Costs(e, id, x) {}
      case Some((rule, points)) =>
        var penalty := Score(id, Location(e.location), rule, points);
        assert Costs(e, id, penalty);
        if u != s {
          InsertedForActive(u.db.issues, s.db.scores, [penalty], id);
        } else {
          assert !e.valid || UuidTaken(s.db, e.uuid);
        }
    }
  }

  /** The other writers add a score exactly for an issue that is there and not deleted, and only of their rules. */
  lemma {:induction false} OtherScores(s: State, score: Score)
    ensures AddOtherScore(s, score).db.scores
            == if (score.rule == PenaltyOverdue || score.rule == RetroAdjust)
                  && score.issue in s.db.issues && !s.db.issues[score.issue].deleted
               then s.db.scores + [score] else s.db.scores
  {
    assert [score][..0] == [];
    assert InsertScores(s.db.issues, s.db.scores, []) == s.db.scores;
  }
}
