/**
 * GitHub activities (src/model/github/activity.py): the activity-type
 * validator, the one-line summary, and the statistics gathered over a list
 * of activities.
 *
 * Times are whole seconds since the epoch; turning ISO text into a time is
 * not part of this module.
 */
module Activities {

  import opened Wrappers
  import opened Text
  import opened Values
  import Enums

  type ActivityType = Enums.ActivityType

  datatype ActivityActor = ActivityActor(username: string, displayName: Option<string>)

  datatype ActivityTarget = ActivityTarget(name: string, url: Option<string>, kind: string, id: Option<string>)

  /** The fields of `Activity` that its methods and `ActivityStats` read. */
  datatype Activity = Activity(
    id: string, activityType: ActivityType, createdAt: int,
    actor: ActivityActor, repository: ActivityTarget,
    public: bool, organization: Option<string>, visibility: string)

  // ---------------------------------------------------------------------------
  // The `type` validator
  // ---------------------------------------------------------------------------

  /**
   * `validate_activity_type`: text is lower-cased and looked up among the
   * member values, falling back to UNKNOWN; anything else goes on to the
   * field's own validation, which refuses it.
   */
  function ValidateActivityType(v: Value): (r: Result<ActivityType, PyError>)
    ensures v.Str? <==> r.Ok?
    ensures v.Str? && Enums.ParseActivityType(Lower(v.s)).Some? ==> r.value.Value() == Lower(v.s)
    ensures v.Str? && Enums.ParseActivityType(Lower(v.s)).None? ==> r.value == Enums.Unknown
  {
    if v.Str? then
      match Enums.ParseActivityType(Lower(v.s))
      case Some(t) => Ok(t)
      case None => Ok(Enums.Unknown)
    else Err(ValidationError("type"))
  }

  /** A member's value and its upper-case name are both read back as that member. */
  lemma ValidatorAcceptsValueAndName(t: ActivityType)
    ensures ValidateActivityType(Str(t.Value())) == Ok(t)
    ensures ValidateActivityType(Str(t.Name())) == Ok(t)
  {
    Enums.AutoActivityValueIsLowerName(t);
    LowerIdempotent(t.Value());
    Enums.ParseInvertsValue(Enums.Activity, t);
  }

  lemma LowerIdempotent(s: string)
    ensures Lower(Lower(s)) == Lower(s)
  {
  }

  /** Text the enum does not know becomes UNKNOWN rather than an error. */
  lemma UnknownTextIsUnknown(s: string)
    requires forall t: ActivityType :: t.Value() != Lower(s)
    ensures ValidateActivityType(Str(s)) == Ok(Enums.Unknown)
  {
  }

  // ---------------------------------------------------------------------------
  // get_summary
  // ---------------------------------------------------------------------------

  /** `display_name or username` */
  function ActorName(actor: ActivityActor): (r: string)
    ensures actor.displayName.Some? && actor.displayName.value != "" ==> r == actor.displayName.value
    ensures actor.displayName.None? || actor.displayName.value == "" ==> r == actor.username
  {
    if actor.displayName.Some? && actor.displayName.value != "" then actor.displayName.value else actor.username
  }

  /**
   * The words between the actor and the repository. The nine types in the
   * summary table have their own phrase; the others fall back to
   * "performed <type value> on".
   */
  function Phrase(t: ActivityType): (r: string)
    ensures r != "" && r[0] != ' ' && r[|r| - 1] != ' '
  {
    match t
    case Push => "pushed to"
    case PullRequest => "created pull request in"
    case Issue => "created issue in"
    case Star => "starred"
    case Fork => "forked"
    case CreateRepo => "created repository"
    case Release => "released in"
    case Watch => "watched"
    case Commit => "committed to"
    case _ => "performed " + t.Value() + " on"
  }

  /** `Activity.get_summary()` */
  function Summary(a: Activity): (r: string)
    ensures StartsWith(r, ActorName(a.actor) + " ")
    ensures |r| >= |a.repository.name| + 1 && r[|r| - |a.repository.name| - 1..] == " " + a.repository.name
  {
    var r := ActorName(a.actor) + " " + Phrase(a.activityType) + " " + a.repository.name;
    assert r[..|ActorName(a.actor) + " "|] == ActorName(a.actor) + " ";
    assert r[|r| - |a.repository.name| - 1..] == " " + a.repository.name;
    r
  }

  /** The types outside the summary table are summarised with their value. */
  lemma UntabledTypesUseTheirValue(a: Activity)
    requires a.activityType in {Enums.IssueComment, Enums.Unknown}
    ensures Summary(a) == ActorName(a.actor) + " performed " + a.activityType.Value() + " on " + a.repository.name
  {
  }

  /** Different types give different phrases. */
  lemma PhraseInjective(t1: ActivityType, t2: ActivityType)
    requires t1 != t2
    ensures Phrase(t1) != Phrase(t2)
  {
    var p1, p2 := Phrase(t1), Phrase(t2);
    if t1 in {Enums.IssueComment, Enums.Unknown} && t2 in {Enums.IssueComment, Enums.Unknown} {
      assert |p1| != |p2|;
    } else {
      assert p1[..3] != p2[..3] || |p1| != |p2| || p1[3..] != p2[3..];
    }
  }

  /**
   * For one actor and one repository, the summary tells the activity type:
   * no two types share a summary.
   */
  lemma SummaryDeterminesType(a1: Activity, a2: Activity)
    requires ActorName(a1.actor) == ActorName(a2.actor) && a1.repository.name == a2.repository.name
    requires Summary(a1) == Summary(a2)
    ensures a1.activityType == a2.activityType
  {
    var pre := ActorName(a1.actor) + " ";
    var post := " " + a1.repository.name;
    SummaryFrame(a1);
    SummaryFrame(a2);
    SameFrameSameMiddle(pre, Phrase(a1.activityType), Phrase(a2.activityType), post);
    if a1.activityType != a2.activityType {
      PhraseInjective(a1.activityType, a2.activityType);
    }
  }

  lemma SummaryFrame(a: Activity)
    ensures Summary(a) == (ActorName(a.actor) + " ") + Phrase(a.activityType) + (" " + a.repository.name)
  {
  }

  lemma SameFrameSameMiddle(pre: string, m1: string, m2: string, post: string)
    requires pre + m1 + post == pre + m2 + post
    ensures m1 == m2
  {
    var s := pre + m1 + post;
    assert m1 == s[|pre|..|s| - |post|];
    assert m2 == s[|pre|..|s| - |post|];
  }

  // ---------------------------------------------------------------------------
  // ActivityStats.from_activities
  // ---------------------------------------------------------------------------

  datatype ActivityStats = ActivityStats(
    totalActivities: int,
    activitiesByType: map<ActivityType, int>,
    mostActiveRepository: Option<string>,
    activityStreak: int,
    lastActivityDate: Option<int>)

  /** `ActivityStats()` with every field at its default. */
  const EmptyStats := ActivityStats(0, map[], None, 0, None)

  /** How many of `acts` have type `t`. */
  function TypeCount(acts: seq<Activity>, t: ActivityType): nat {
    if acts == [] then 0
    else TypeCount(acts[..|acts| - 1], t) + (if acts[|acts| - 1].activityType == t then 1 else 0)
  }

  /** How many of `acts` concern the repository called `name`. */
  function RepoCount(acts: seq<Activity>, name: string): nat {
    if acts == [] then 0
    else RepoCount(acts[..|acts| - 1], name) + (if acts[|acts| - 1].repository.name == name then 1 else 0)
  }

  /** The repository names of `acts`, each once, in order of first appearance (the key order of `repo_counts`). */
  function RepoOrder(acts: seq<Activity>): seq<string> {
    if acts == [] then []
    else
      var order := RepoOrder(acts[..|acts| - 1]);
      var name := acts[|acts| - 1].repository.name;
      if name in order then order else order + [name]
  }

  /** Every repository that occurs is in the key order, and nothing else is. */
  lemma {:induction false} RepoOrderMembers(acts: seq<Activity>)
    ensures forall x :: x in RepoOrder(acts) <==> exists a :: a in acts && a.repository.name == x
  {
    if acts != [] {
      var prefix := acts[..|acts| - 1];
      RepoOrderMembers(prefix);
      assert acts == prefix + [acts[|acts| - 1]];
      assert forall a :: a in acts <==> a in prefix || a == acts[|acts| - 1];
    }
  }

  predicate Distinct(xs: seq<string>) {
    forall i, j :: 0 <= i < j < |xs| ==> xs[i] != xs[j]
  }

  lemma {:induction false} RepoOrderDistinct(acts: seq<Activity>)
    ensures Distinct(RepoOrder(acts))
  {
    if acts != [] {
      RepoOrderDistinct(acts[..|acts| - 1]);
    }
  }

  /** A repository that never appears has count zero. */
  lemma {:induction false} AbsentRepoCountsZero(acts: seq<Activity>, name: string)
    requires name !in RepoOrder(acts)
    ensures RepoCount(acts, name) == 0
  {
    if acts != [] {
      var prefix := acts[..|acts| - 1];
      assert acts[|acts| - 1] in acts;
      assert forall a :: a in prefix ==> a in acts;
      AbsentRepoCountsZero(prefix, name);
    }
  }

  /** The types occurring in `acts`, the key set of `type_counts`. */
  function TypesOf(acts: seq<Activity>): set<ActivityType> {
    if acts == [] then {} else TypesOf(acts[..|acts| - 1]) + {acts[|acts| - 1].activityType}
  }

  /** The key set of `type_counts` is the set of types that occur. */
  lemma {:induction false} TypesOfMembers(acts: seq<Activity>)
    ensures forall t :: t in TypesOf(acts) <==> exists a :: a in acts && a.activityType == t
  {
    if acts != [] {
      var prefix := acts[..|acts| - 1];
      TypesOfMembers(prefix);
      assert acts == prefix + [acts[|acts| - 1]];
      assert forall a :: a in acts <==> a in prefix || a == acts[|acts| - 1];
    }
  }

  /** The time of the latest activity. */
  function LatestTime(acts: seq<Activity>): (r: int)
    requires acts != []
    ensures forall a :: a in acts ==> a.createdAt <= r
    ensures exists a :: a in acts && a.createdAt == r
  {
    if |acts| == 1 then acts[0].createdAt
    else
      var prefix := acts[..|acts| - 1];
      var m := LatestTime(prefix);
      var last := acts[|acts| - 1];
      assert acts == prefix + [last];
      if last.createdAt > m then last.createdAt else m
  }

  /** `most_active_repository` as the source chooses it: the first repository, in key order, with the highest count. */
  predicate IsMostActive(acts: seq<Activity>, name: string) {
    var order := RepoOrder(acts);
    exists k :: 0 <= k < |order| && order[k] == name &&
      (forall j :: 0 <= j < |order| ==> RepoCount(acts, order[j]) <= RepoCount(acts, name)) &&
      (forall j :: 0 <= j < k ==> RepoCount(acts, order[j]) < RepoCount(acts, name))
  }

  /** There is only one most active repository. */
  lemma MostActiveUnique(acts: seq<Activity>, x: string, y: string)
    requires IsMostActive(acts, x) && IsMostActive(acts, y)
    ensures x == y
  {
    var order := RepoOrder(acts);
    var kx :| 0 <= kx < |order| && order[kx] == x &&
      (forall j :: 0 <= j < |order| ==> RepoCount(acts, order[j]) <= RepoCount(acts, x)) &&
      (forall j :: 0 <= j < kx ==> RepoCount(acts, order[j]) < RepoCount(acts, x));
    var ky :| 0 <= ky < |order| && order[ky] == y &&
      (forall j :: 0 <= j < |order| ==> RepoCount(acts, order[j]) <= RepoCount(acts, y)) &&
      (forall j :: 0 <= j < ky ==> RepoCount(acts, order[j]) < RepoCount(acts, y));
    assert RepoCount(acts, x) == RepoCount(acts, y);
    assert !(kx < ky) && !(ky < kx);
  }

  /**
   * `ActivityStats.from_activities(activities)`: one pass counting types and
   * repositories, then the first repository with the highest count, then
   * the latest creation time. The streak is never computed and stays 0.
   */
  method FromActivities(acts: seq<Activity>) returns (stats: ActivityStats)
    ensures acts == [] ==> stats == EmptyStats
    ensures stats.totalActivities == |acts| && stats.activityStreak == 0
    ensures stats.activitiesByType.Keys == TypesOf(acts)
    ensures forall t :: t in stats.activitiesByType ==> stats.activitiesByType[t] == TypeCount(acts, t)
    ensures acts != [] ==> stats.mostActiveRepository.Some? && IsMostActive(acts, stats.mostActiveRepository.value)
    ensures acts != [] ==> stats.lastActivityDate == Some(LatestTime(acts))
  {
    if acts == [] {
      return EmptyStats;
    }
    var typeCounts, repoCounts, repoOrder := CountActivities(acts);
    assert acts[0] in acts;
    var mostActive := MostActiveRepository(acts, repoCounts, repoOrder);
    var latest := LatestActivity(acts);
    stats := ActivityStats(|acts|, typeCounts, Some(mostActive), 0, Some(latest));
  }

  /** The counting loop of `from_activities`: `type_counts` and `repo_counts`, the latter with its key order. */
  method CountActivities(acts: seq<Activity>)
    returns (typeCounts: map<ActivityType, int>, repoCounts: map<string, int>, repoOrder: seq<string>)
    ensures typeCounts.Keys == TypesOf(acts)
    ensures forall t :: t in typeCounts ==> typeCounts[t] == TypeCount(acts, t)
    ensures repoOrder == RepoOrder(acts)
    ensures forall x :: x in repoCounts <==> x in repoOrder
    ensures forall x :: x in repoCounts ==> repoCounts[x] == RepoCount(acts, x)
  {
    typeCounts, repoCounts, repoOrder := map[], map[], [];
    for i := 0 to |acts|
      invariant TypesCounted(acts[..i], typeCounts)
      invariant ReposCounted(acts[..i], repoCounts, repoOrder)
    {
      ghost var (types0, repos0, order0) := (typeCounts, repoCounts, repoOrder);
      var t := acts[i].activityType;
      if t in typeCounts {
        typeCounts := typeCounts[t := typeCounts[t] + 1];
      } else {
        typeCounts := typeCounts[t := 1];
      }
      var name := acts[i].repository.name;
      if name in repoCounts {
        repoCounts := repoCounts[name := repoCounts[name] + 1];
      } else {
        repoCounts := repoCounts[name := 1];
        repoOrder := repoOrder + [name];
      }
      assert acts[..i + 1] == acts[..i] + [acts[i]];
      TypesCountedStep(acts[..i], acts[i], types0);
      ReposCountedStep(acts[..i], acts[i], repos0, order0);
    }
    assert acts[..|acts|] == acts;
  }

  /** What the counting loop keeps true of `type_counts` after the activities `acts`. */
  ghost predicate TypesCounted(acts: seq<Activity>, typeCounts: map<ActivityType, int>) {
    && typeCounts.Keys == TypesOf(acts)
    && forall t :: t in typeCounts ==> typeCounts[t] == TypeCount(acts, t)
  }

  /** What the counting loop keeps true of `repo_counts` and its key order after the activities `acts`. */
  ghost predicate ReposCounted(acts: seq<Activity>, repoCounts: map<string, int>, repoOrder: seq<string>) {
    && repoOrder == RepoOrder(acts)
    && (forall x :: x in repoCounts <==> x in repoOrder)
    && forall x :: x in repoCounts ==> repoCounts[x] == RepoCount(acts, x)
  }

  /** Counting one more activity's type keeps `type_counts` exact. */
  lemma TypesCountedStep(acts: seq<Activity>, a: Activity, typeCounts: map<ActivityType, int>)
    requires TypesCounted(acts, typeCounts)
    ensures var t := a.activityType;
      TypesCounted(acts + [a], if t in typeCounts then typeCounts[t := typeCounts[t] + 1] else typeCounts[t := 1])
  {
    var t := a.activityType;
    var acts' := acts + [a];
    assert acts'[..|acts'| - 1] == acts;
    if t !in typeCounts {
      AbsentTypeCountsZero(acts, t);
    }
  }

  /** Counting one more activity's repository keeps `repo_counts` exact and its key order first-seen. */
  lemma ReposCountedStep(acts: seq<Activity>, a: Activity, repoCounts: map<string, int>, repoOrder: seq<string>)
    requires ReposCounted(acts, repoCounts, repoOrder)
    ensures var name := a.repository.name;
      ReposCounted(acts + [a],
                   if name in repoCounts then repoCounts[name := repoCounts[name] + 1] else repoCounts[name := 1],
                   if name in repoCounts then repoOrder else repoOrder + [name])
  {
    var name := a.repository.name;
    var acts' := acts + [a];
    assert acts'[..|acts'| - 1] == acts;
    if name !in repoCounts {
      AbsentRepoCountsZero(acts, name);
    }
  }

  /** `max(repo_counts.items(), key=...)[0]`: the scan keeps the first of equal maxima. */
  method MostActiveRepository(acts: seq<Activity>, repoCounts: map<string, int>, repoOrder: seq<string>)
    returns (name: string)
    requires repoOrder == RepoOrder(acts) && repoOrder != []
    requires forall x :: x in repoCounts <==> x in repoOrder
    requires forall x :: x in repoCounts ==> repoCounts[x] == RepoCount(acts, x)
    ensures IsMostActive(acts, name)
  {
    var best := 0;
    for j := 1 to |repoOrder|
      invariant 0 <= best < j
      invariant forall k :: 0 <= k < j ==> RepoCount(acts, repoOrder[k]) <= RepoCount(acts, repoOrder[best])
      invariant forall k :: 0 <= k < best ==> RepoCount(acts, repoOrder[k]) < RepoCount(acts, repoOrder[best])
    {
      assert repoOrder[j] in repoCounts && repoOrder[best] in repoCounts;
      if repoCounts[repoOrder[j]] > repoCounts[repoOrder[best]] {
        best := j;
      }
    }
    name := repoOrder[best];
    assert repoOrder[best] == name;
  }

  /** `max(activities, key=created_at).created_at` */
  method LatestActivity(acts: seq<Activity>) returns (latest: int)
    requires acts != []
    ensures latest == LatestTime(acts)
  {
    latest := acts[0].createdAt;
    assert acts[..1] == [acts[0]];
    for i := 1 to |acts|
      invariant latest == LatestTime(acts[..i])
    {
      LatestStep(acts, i);
      if acts[i].createdAt > latest {
        latest := acts[i].createdAt;
      }
    }
    assert acts[..|acts|] == acts;
  }

  /** One more activity raises the latest time to its own when it is later. */
  lemma LatestStep(acts: seq<Activity>, i: nat)
    requires 0 < i < |acts|
    ensures LatestTime(acts[..i + 1]) ==
      if acts[i].createdAt > LatestTime(acts[..i]) then acts[i].createdAt else LatestTime(acts[..i])
  {
    assert acts[..i + 1][..i] == acts[..i];
  }

  lemma {:induction false} AbsentTypeCountsZero(acts: seq<Activity>, t: ActivityType)
    requires t !in TypesOf(acts)
    ensures TypeCount(acts, t) == 0
  {
    if acts != [] {
      var prefix := acts[..|acts| - 1];
      assert acts[|acts| - 1] in acts;
      assert forall a :: a in prefix ==> a in acts;
      AbsentTypeCountsZero(prefix, t);
    }
  }

  // ---------------------------------------------------------------------------
  // Counting by type accounts for every activity
  // ---------------------------------------------------------------------------

  function SumCounts(acts: seq<Activity>, ts: seq<ActivityType>): nat {
    if ts == [] then 0 else TypeCount(acts, ts[0]) + SumCounts(acts, ts[1..])
  }

  lemma {:induction false} SumCountsOfNone(ts: seq<ActivityType>)
    ensures SumCounts([], ts) == 0
  {
    if ts != [] {
      SumCountsOfNone(ts[1..]);
    }
  }

  /** Adding one activity raises the sum over a list of distinct types by one if its type is listed, else not at all. */
  lemma {:induction false} SumCountsStep(acts: seq<Activity>, a: Activity, ts: seq<ActivityType>)
    requires forall i, j :: 0 <= i < j < |ts| ==> ts[i] != ts[j]
    ensures SumCounts(acts + [a], ts) == SumCounts(acts, ts) + (if a.activityType in ts then 1 else 0)
  {
    if ts != [] {
      assert (acts + [a])[..|acts + [a]| - 1] == acts;
      SumCountsStep(acts, a, ts[1..]);
      assert a.activityType in ts <==> a.activityType == ts[0] || a.activityType in ts[1..];
    }
  }

  /** The per-type counts add up to the total: every activity is counted under exactly one type. */
  lemma {:induction false} TypeCountsSumToTotal(acts: seq<Activity>)
    ensures SumCounts(acts, Enums.AllActivityTypes) == |acts|
  {
    if acts != [] {
      var prefix := acts[..|acts| - 1];
      var last := acts[|acts| - 1];
      TypeCountsSumToTotal(prefix);
      Enums.AllMembersListed(Enums.Activity, last.activityType, Enums.Other);
      assert prefix + [last] == acts;
      SumCountsStep(prefix, last, Enums.AllActivityTypes);
    } else {
      SumCountsOfNone(Enums.AllActivityTypes);
    }
  }
}
