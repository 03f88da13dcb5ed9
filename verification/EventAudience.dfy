/**
 Who may see an issue, decided twice: user by user in canViewIssue, and for all subscribers of an event
 in one query.
 */
module EventAudience {
  import opened Options

  datatype Role = Plain | LineLeader | SafetyOfficer | Admin | Superadmin

  datatype User = User(id: int, site: int, role: Role, active: bool)

  datatype Issue = Issue(site: int, isPublic: bool, team: Option<int>, creator: int, assignee: Option<int>,
                         location: string)

  /** A period is half open, and without an end while it lasts. */
  datatype Period = Period(from: int, to: Option<int>)

  datatype LocationMembership = LocationMembership(user: int, location: string, active: bool, period: Period)
  datatype TeamLocation = TeamLocation(team: int, location: string, period: Period)

  /** sites gives the site of each location; teams holds pairs of team and member. */
  datatype Directory = Directory(users: map<int, User>, sites: map<string, int>, teams: set<(int, int)>,
                                 memberships: set<LocationMembership>, teamLocations: set<TeamLocation>, now: int)

  predicate Current(p: Period, now: int) {
    p.from <= now && (p.to.None? || p.to.value > now)
  }

  // ---------- user by user ----------

  /** ListActiveLocationCodesForUser; without a site all locations count. */
  function ActiveLocationCodes(d: Directory, user: int, site: Option<int>): set<string> {
    (set m | m in d.memberships && m.user == user && m.active && Current(m.period, d.now)
             && m.location in d.sites && (site.None? || d.sites[m.location] == site.value) :: m.location)
    + (set t | t in d.teamLocations && (t.team, user) in d.teams && Current(t.period, d.now)
               && t.location in d.sites && (site.None? || d.sites[t.location] == site.value) :: t.location)
  }

  datatype Scope = Scope(siteWide: bool, locations: set<string>)

  predicate ActsSiteWide(role: Role) {
    role == SafetyOfficer || role == Admin || role == Superadmin
  }

  function ScopeOf(d: Directory, u: User): Scope {
    if ActsSiteWide(u.role) then Scope(true, {})
    else Scope(false, ActiveLocationCodes(d, u.id, if u.site != 0 then Some(u.site) else None))
  }

  predicate CanAccessLocation(s: Scope, location: string) {
    s.siteWide || location in s.locations
  }

  /** LocationScope, over the codes in the order the query happens to return them. */
  method LocationScope(d: Directory, u: User, codes: seq<string>) returns (s: Scope)
    requires forall c :: c in codes <==> c in ActiveLocationCodes(d, u.id, if u.site != 0 then Some(u.site) else None)
    ensures s == ScopeOf(d, u)
  {
    if u.role == Superadmin || u.role == Admin || u.role == SafetyOfficer {
      return Scope(true, {});
    }
    var locations: set<string> := {};
    for i := 0 to |codes|
      invariant locations == set c | c in codes[..i]
    {
      locations := locations + {codes[i]};
    }
    assert codes[..|codes|] == codes;
    s := Scope(false, locations);
  }

  /** canViewIssue, in the order of its checks. */
  predicate CanView(d: Directory, i: Issue, u: User) {
    if i.site != 0 && u.site != 0 && i.site != u.site then false
    else if i.isPublic then true
    else if i.team.Some? && u.active && (i.team.value, u.id) in d.teams then true
    else if i.creator == u.id || i.assignee == Some(u.id) then true
    else if ActsSiteWide(u.role) then true
    else if u.role == LineLeader then CanAccessLocation(ScopeOf(d, u), i.location)
    else false
  }

  // ---------- all subscribers at once ----------

  ghost predicate LeadsByMembership(d: Directory, i: Issue, u: User) {
    exists m :: m in d.memberships && m.user == u.id && m.location == i.location
                && m.location in d.sites && d.sites[m.location] == i.site && m.active && Current(m.period, d.now)
  }

  ghost predicate LeadsByTeam(d: Directory, i: Issue, u: User) {
    exists t :: t in d.teamLocations && (t.team, u.id) in d.teams && t.location == i.location
                && t.location in d.sites && d.sites[t.location] == i.site && Current(t.period, d.now)
  }

  /** The WHERE clause of ListVisibleIssueEventRecipients. */
  ghost predicate InAudience(d: Directory, i: Issue, u: User) {
    && (i.site == 0 || u.site == 0 || i.site == u.site)
    && (i.isPublic
        || (i.team.Some? && u.active && (i.team.value, u.id) in d.teams)
        || i.creator == u.id
        || i.assignee == Some(u.id)
        || u.role in {SafetyOfficer, Admin, Superadmin}
        || (u.role == LineLeader && LeadsByMembership(d, i, u))
        || (u.role == LineLeader && LeadsByTeam(d, i, u)))
  }

  /** The batch: those of the ids that are users in the audience. */
  ghost function Recipients(d: Directory, i: Issue, ids: set<int>): set<int> {
    set id | id in ids && id in d.users && InAudience(d, i, d.users[id])
  }

  ghost function Viewers(d: Directory, i: Issue): set<int> {
    set id | id in d.users && CanView(d, i, d.users[id])
  }

  lemma LeadsIffInScope(d: Directory, i: Issue, u: User)
    requires i.site == u.site && u.site != 0
    ensures (LeadsByMembership(d, i, u) || LeadsByTeam(d, i, u))
            <==> i.location in ActiveLocationCodes(d, u.id, Some(u.site))
  {
  }

  /** With both site ids set, the query and the check decide alike. */
  lemma SameDecision(d: Directory, i: Issue, u: User)
    requires i.site != 0 && u.site != 0
    ensures InAudience(d, i, u) <==> CanView(d, i, u)
  {
    if i.site == u.site { LeadsIffInScope(d, i, u); }
  }

  /** The batch is exactly the subscribers that the check would let through. */
  lemma BatchIsExact(d: Directory, i: Issue, ids: set<int>)
    requires i.site != 0 && forall id :: id in d.users ==> d.users[id].site != 0
    ensures Recipients(d, i, ids) == ids * Viewers(d, i)
  {
    forall id | id in d.users ensures InAudience(d, i, d.users[id]) <==> CanView(d, i, d.users[id]) {
      SameDecision(d, i, d.users[id]);
    }
  }

  /** The decision does not depend on the directory. */
  predicate DecidedWithoutDirectory(i: Issue, u: User) {
    i.isPublic || i.creator == u.id || i.assignee == Some(u.id) || u.role != LineLeader
  }

  ghost predicate AgreeEverywhere(i: Issue, u: User) {
    forall d: Directory :: InAudience(d, i, u) <==> CanView(d, i, u)
  }

  /** A membership of the user at the issue's location, which lies in a site that only one of the two accepts. */
  function Disagreement(i: Issue, u: User): Directory {
    var site := if u.site != 0 then u.site else if i.site == 1 then 2 else 1;
    Directory(map[u.id := u], map[i.location := site], {},
              {LocationMembership(u.id, i.location, true, Period(0, None))}, {}, 0)
  }

  lemma ZeroSiteDisagrees(i: Issue, u: User)
    requires (i.site == 0 || u.site == 0) && !DecidedWithoutDirectory(i, u)
    ensures CanView(Disagreement(i, u), i, u) && !InAudience(Disagreement(i, u), i, u)
  {
    var d := Disagreement(i, u);
    var m := LocationMembership(u.id, i.location, true, Period(0, None));
    assert m in d.memberships && m.location in ActiveLocationCodes(d, u.id, if u.site != 0 then Some(u.site) else None);
  }

  /** An event reaches whom the check would let through, whatever the directory, exactly when both site
      ids are set or the check would not have to ask for the user's locations. */
  lemma AgreeIff(i: Issue, u: User)
    ensures AgreeEverywhere(i, u) <==> (i.site != 0 && u.site != 0) || DecidedWithoutDirectory(i, u)
  {
    if i.site != 0 && u.site != 0 {
      forall d: Directory ensures InAudience(d, i, u) <==> CanView(d, i, u) { SameDecision(d, i, u); }
    } else if DecidedWithoutDirectory(i, u) {
      assert AgreeEverywhere(i, u);
    } else {
      ZeroSiteDisagrees(i, u);
    }
  }
}
