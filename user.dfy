/**
 * GitHub users (src/model/github/user.py): the influence score and activity
 * level, the full name, the organisation lookup, and the search-result
 * filters and influence sort.
 *
 * Scores are exact `real`s; Python computes them in floating point.
 */
module Users {

  import opened Wrappers
  import opened Text

  datatype UserStats = UserStats(
    followers: int, following: int, publicRepos: int, publicGists: int,
    privateRepos: int, ownedPrivateRepos: int, totalPrivateRepos: int, collaborators: int)

  datatype Organization = Organization(login: string, name: Option<string>)

  /** The fields of `UserProfile` that its methods and the search filters read. */
  datatype UserProfile = UserProfile(
    id: string, username: string, name: Option<string>,
    location: Option<string>, company: Option<string>,
    organizations: seq<Organization>, stats: UserStats)

  // ---------------------------------------------------------------------------
  // Influence and activity level
  // ---------------------------------------------------------------------------

  /** `UserStats.influence_score()` */
  function InfluenceScore(s: UserStats): (r: real)
    ensures s.followers >= 0 && s.publicRepos >= 0 && s.publicGists >= 0 ==> r >= s.followers as real >= 0.0
  {
    s.followers as real * 1.0 + s.publicRepos as real * 0.5 + s.publicGists as real * 0.2
  }

  /** `UserProfile.get_activity_level()` as a function of the influence score. */
  function ActivityLevel(score: real): (r: string)
    ensures r in {"Very High", "High", "Medium", "Low", "New User"}
    ensures r == "Very High" <==> score >= 10000.0
    ensures r == "High" <==> 1000.0 <= score < 10000.0
    ensures r == "Medium" <==> 100.0 <= score < 1000.0
    ensures r == "Low" <==> 0.0 < score < 100.0
    ensures r == "New User" <==> score <= 0.0
  {
    if score >= 10000.0 then "Very High"
    else if score >= 1000.0 then "High"
    else if score >= 100.0 then "Medium"
    else if score > 0.0 then "Low"
    else "New User"
  }

  function LevelRank(level: string): int {
    if level == "Very High" then 4
    else if level == "High" then 3
    else if level == "Medium" then 2
    else if level == "Low" then 1
    else 0
  }

  /** A higher influence never gives a lower level. */
  lemma ActivityLevelMonotone(a: real, b: real)
    requires a <= b
    ensures LevelRank(ActivityLevel(a)) <= LevelRank(ActivityLevel(b))
  {
  }

  /** A user with no followers, repositories or gists is a "New User"; following others does not count. */
  lemma NoAudienceIsNewUser(s: UserStats)
    requires s.followers == 0 && s.publicRepos == 0 && s.publicGists == 0
    ensures ActivityLevel(InfluenceScore(s)) == "New User"
  {
  }

  // ---------------------------------------------------------------------------
  // Names and organisations
  // ---------------------------------------------------------------------------

  predicate HasName(u: UserProfile) {
    u.name.Some? && u.name.value != ""
  }

  /** `get_full_name()`: "{name} ({username})" when the name is truthy, else the username. */
  function FullName(u: UserProfile): (r: string)
    ensures HasName(u) ==> r == u.name.value + " (" + u.username + ")"
    ensures !HasName(u) ==> r == u.username
  {
    if HasName(u) then u.name.value + " (" + u.username + ")" else u.username
  }

  /** The full name is the bare username exactly when the user has no display name. */
  lemma FullNameIsUsernameIff(u: UserProfile)
    ensures FullName(u) == u.username <==> !HasName(u)
  {
    if HasName(u) {
      assert |FullName(u)| > |u.username|;
    }
  }

  function Logins(orgs: seq<Organization>): (r: seq<string>)
    ensures |r| == |orgs| && forall i :: 0 <= i < |orgs| ==> r[i] == orgs[i].login
  {
    seq(|orgs|, i requires 0 <= i < |orgs| => orgs[i].login)
  }

  /** `has_organization(org_name)`: some organisation login equals `org_name` ignoring case. */
  function HasOrganization(u: UserProfile, orgName: string): (r: bool)
    ensures r <==> exists i :: 0 <= i < |u.organizations| && Lower(u.organizations[i].login) == Lower(orgName)
  {
    var logins := Logins(u.organizations);
    assert forall i :: 0 <= i < |logins| ==> logins[i] == u.organizations[i].login;
    InIgnoringCase(logins, orgName)
  }

  /** A user in no organisation belongs to none, whatever the name asked for. */
  lemma NoOrganizations(u: UserProfile, orgName: string)
    requires u.organizations == []
    ensures !HasOrganization(u, orgName)
  {
  }

  /** `get_primary_language()`: not implemented in the source, always None. */
  function PrimaryLanguage(u: UserProfile): (r: Option<string>)
    ensures r.None?
  {
    None
  }

  // ---------------------------------------------------------------------------
  // Account age; the clock is a parameter, times are whole seconds since the epoch
  // ---------------------------------------------------------------------------

  const SecondsPerDay := 86400

  /** `account_age_days()`: whole days since `createdAt`, rounded down like `timedelta.days`. */
  function AccountAgeDays(createdAt: int, now: int): (r: int)
    ensures r * SecondsPerDay <= now - createdAt < (r + 1) * SecondsPerDay
  {
    (now - createdAt) / SecondsPerDay
  }

  /** `is_veteran_user(years)`: at least `years * 365` days old. */
  predicate IsVeteranUser(createdAt: int, now: int, years: int)
    ensures years <= 0 && createdAt <= now ==> IsVeteranUser(createdAt, now, years)
    ensures years >= 1 && now - createdAt < 365 * SecondsPerDay ==> !IsVeteranUser(createdAt, now, years)
  {
    AccountAgeDays(createdAt, now) >= years * 365
  }

  /** A veteran of `years` is exactly an account at least `years * 365` full days old. */
  lemma VeteranIffOldEnough(createdAt: int, now: int, years: int)
    ensures IsVeteranUser(createdAt, now, years) <==> now - createdAt >= years * 365 * SecondsPerDay
  {
    var d := AccountAgeDays(createdAt, now);
    if d >= years * 365 {
      assert d * SecondsPerDay >= years * 365 * SecondsPerDay;
    } else {
      assert d + 1 <= years * 365;
      assert (d + 1) * SecondsPerDay <= years * 365 * SecondsPerDay;
    }
  }

  /** An account that is a veteran for some number of years is one for any fewer. */
  lemma VeteranForFewerYears(createdAt: int, now: int, years: int, fewer: int)
    requires fewer <= years && IsVeteranUser(createdAt, now, years)
    ensures IsVeteranUser(createdAt, now, fewer)
  {
  }

  // ---------------------------------------------------------------------------
  // UserSearchResult filters
  // ---------------------------------------------------------------------------

  /** `field and query.lower() in field.lower()` */
  predicate FieldMatches(field: Option<string>, query: string) {
    field.Some? && field.value != "" && Contains(Lower(field.value), Lower(query))
  }

  datatype UserField = LocationField | CompanyField

  function FieldOf(u: UserProfile, f: UserField): Option<string> {
    match f
    case LocationField => u.location
    case CompanyField => u.company
  }

  /** `[user for user in users if <field matches query>]` */
  function FilterBy(users: seq<UserProfile>, f: UserField, query: string): (r: seq<UserProfile>)
    ensures |r| <= |users|
    ensures forall u :: u in r <==> u in users && FieldMatches(FieldOf(u, f), query)
  {
    if users == [] then []
    else
      var rest := FilterBy(users[1..], f, query);
      assert forall u :: u in users <==> u == users[0] || u in users[1..];
      if FieldMatches(FieldOf(users[0], f), query) then [users[0]] + rest else rest
  }

  /** `UserSearchResult.filter_by_location(location)` */
  function FilterByLocation(users: seq<UserProfile>, location: string): (r: seq<UserProfile>)
    ensures forall u :: u in r <==> u in users && FieldMatches(u.location, location)
  {
    FilterBy(users, LocationField, location)
  }

  /** `UserSearchResult.filter_by_company(company)` */
  function FilterByCompany(users: seq<UserProfile>, company: string): (r: seq<UserProfile>)
    ensures forall u :: u in r <==> u in users && FieldMatches(u.company, company)
  {
    FilterBy(users, CompanyField, company)
  }

  /** The filters keep the input order: filtering a concatenation filters each part. */
  lemma {:induction false} FilterKeepsOrder(a: seq<UserProfile>, b: seq<UserProfile>, f: UserField, query: string)
    ensures FilterBy(a + b, f, query) == FilterBy(a, f, query) + FilterBy(b, f, query)
  {
    if a != [] {
      assert (a + b)[1..] == a[1..] + b;
      FilterKeepsOrder(a[1..], b, f, query);
    } else {
      assert a + b == b;
    }
  }

  /** A user without the field, or with it empty, is never selected, even by the empty query. */
  lemma EmptyFieldNeverMatches(u: UserProfile, f: UserField, query: string)
    requires FieldOf(u, f) in {None, Some("")}
    ensures FilterBy([u], f, query) == []
  {
  }

  // ---------------------------------------------------------------------------
  // sort_by_influence: `sorted(users, key=influence_score, reverse=True)`
  // ---------------------------------------------------------------------------

  function Influence(u: UserProfile): real {
    InfluenceScore(u.stats)
  }

  predicate NonIncreasing(s: seq<UserProfile>) {
    forall i, j :: 0 <= i < j < |s| ==> Influence(s[i]) >= Influence(s[j])
  }

  /**
   * Put `u` in front of the first user it does not fall behind. Placing it
   * before users of equal influence keeps ties in their original order, as
   * Python's stable sort does with `reverse=True`.
   */
  function Insert(u: UserProfile, s: seq<UserProfile>): (r: seq<UserProfile>)
    ensures multiset(r) == multiset{u} + multiset(s)
  {
    if s == [] || Influence(u) >= Influence(s[0]) then [u] + s
    else
      assert s == [s[0]] + s[1..];
      [s[0]] + Insert(u, s[1..])
  }

  /** Every user in the result was inserted or was already there. */
  lemma InsertMembers(u: UserProfile, s: seq<UserProfile>, v: UserProfile)
    requires v in Insert(u, s)
    ensures v == u || v in s
  {
    assert v in multiset(Insert(u, s));
  }

  /** Prepending a user at least as influential as every other keeps the order. */
  lemma PrependKeepsOrder(x: UserProfile, rest: seq<UserProfile>)
    requires NonIncreasing(rest)
    requires forall v :: v in rest ==> Influence(x) >= Influence(v)
    ensures NonIncreasing([x] + rest)
  {
    var r := [x] + rest;
    forall i, j | 0 <= i < j < |r| ensures Influence(r[i]) >= Influence(r[j]) {
      if i == 0 {
        assert r[j] in rest;
      } else {
        assert r[i] == rest[i - 1] && r[j] == rest[j - 1];
      }
    }
  }

  /** Inserting into a list sorted by decreasing influence keeps it sorted. */
  lemma {:induction false} InsertKeepsOrder(u: UserProfile, s: seq<UserProfile>)
    requires NonIncreasing(s)
    ensures NonIncreasing(Insert(u, s))
  {
    if s == [] || Influence(u) >= Influence(s[0]) {
      forall v | v in s ensures Influence(u) >= Influence(v) {
        var k :| 0 <= k < |s| && s[k] == v;
        assert Influence(s[0]) >= Influence(s[k]) || k == 0;
      }
      PrependKeepsOrder(u, s);
    } else {
      var rest := Insert(u, s[1..]);
      InsertKeepsOrder(u, s[1..]);
      forall v | v in rest ensures Influence(s[0]) >= Influence(v) {
        InsertMembers(u, s[1..], v);
        if v != u {
          var k :| 0 <= k < |s[1..]| && s[1..][k] == v;
          assert s[k + 1] == v;
        }
      }
      PrependKeepsOrder(s[0], rest);
    }
  }

  /** `UserSearchResult.sort_by_influence()` */
  function SortByInfluence(users: seq<UserProfile>): (r: seq<UserProfile>)
    ensures multiset(r) == multiset(users)
    ensures NonIncreasing(r)
  {
    if users == [] then []
    else
      assert users == [users[0]] + users[1..];
      var rest := SortByInfluence(users[1..]);
      InsertKeepsOrder(users[0], rest);
      Insert(users[0], rest)
  }

  /** The users with influence exactly `v`, in order. */
  function WithInfluence(s: seq<UserProfile>, v: real): seq<UserProfile> {
    if s == [] then []
    else (if Influence(s[0]) == v then [s[0]] else []) + WithInfluence(s[1..], v)
  }

  lemma {:induction false} InsertWithInfluence(u: UserProfile, s: seq<UserProfile>, v: real)
    ensures WithInfluence(Insert(u, s), v) ==
      (if Influence(u) == v then [u] else []) + WithInfluence(s, v)
  {
    if s == [] || Influence(u) >= Influence(s[0]) {
      assert ([u] + s)[1..] == s;
    } else {
      InsertWithInfluence(u, s[1..], v);
      assert ([s[0]] + Insert(u, s[1..]))[1..] == Insert(u, s[1..]);
    }
  }

  /**
   * The sort is stable: the users of any one influence come out in the order
   * they went in.
   */
  lemma {:induction false} SortIsStable(users: seq<UserProfile>, v: real)
    ensures WithInfluence(SortByInfluence(users), v) == WithInfluence(users, v)
  {
    if users != [] {
      SortIsStable(users[1..], v);
      InsertWithInfluence(users[0], SortByInfluence(users[1..]), v);
    }
  }
}
