/**
 * The contributor profile (src/app/profile/page.js): points and level
 * derived from the numbers of contributions and scans, the level title,
 * and the ordered list of earned badges. The two Firestore counts and the
 * recent-contributions query are inputs of `ProfilePage.FetchUserStats`.
 */
module Profile {
  import opened Wrappers

  datatype Stats = Stats(totalContributions: nat, totalScans: nat, points: nat, level: nat, nextLevelPoints: nat)

  /** What the page shows before the counts arrive. */
  const InitialStats: Stats := Stats(0, 0, 0, 1, 100)

  /** Points per approved or contributed product, and per scan. */
  const PointsPerContribution: nat := 10
  const PointsPerScan: nat := 1

  /**
   * Every 100 points is one level, starting at level 1: `Math.floor(points / 100) + 1`
   * (Dafny's division by a positive number rounds down as `Math.floor` does).
   */
  function LevelFor(points: int): (level: int)
    ensures points >= 0 ==> level >= 1
    ensures (level - 1) * 100 <= points < level * 100
  {
    points / 100 + 1
  }

  /** The level is the only one whose 100-point band holds the points. */
  lemma LevelBandIsUnique(points: int, level: int)
    requires (level - 1) * 100 <= points < level * 100
    ensures level == LevelFor(points)
  {
  }

  /** More points never lower the level. */
  lemma LevelMonotone(p: int, q: int)
    requires p <= q
    ensures LevelFor(p) <= LevelFor(q)
  {
  }

  /** The stats `fetchUserStats` sets from the two counts. */
  function ComputeStats(contributions: nat, scans: nat): (s: Stats)
    ensures s.totalContributions == contributions && s.totalScans == scans
    ensures s.points == PointsPerContribution * contributions + PointsPerScan * scans
    ensures s.level >= 1 && s.nextLevelPoints == s.level * 100
    ensures (s.level - 1) * 100 <= s.points < s.nextLevelPoints
  {
    var points := contributions * 10 + scans;
    var level := LevelFor(points);
    Stats(contributions, scans, points, level, level * 100)
  }

  /** The user with no contributions and no scans gets exactly the initial stats. */
  lemma NoActivityIsInitial()
    ensures ComputeStats(0, 0) == InitialStats
  {
  }

  /** The points shown on the progress bar: the part of the points above the current level's floor. */
  function Progress(points: nat): (p: nat)
    ensures 0 <= p < 100
    ensures points == (LevelFor(points) - 1) * 100 + p
  {
    points % 100
  }

  // ----- titles -----

  /** `getLevelTitle`. */
  function LevelTitle(level: int): (t: string)
    ensures level >= 20 ==> t == "Master Contributor"
    ensures 15 <= level < 20 ==> t == "Expert Contributor"
    ensures 10 <= level < 15 ==> t == "Advanced Contributor"
    ensures 5 <= level < 10 ==> t == "Pro Contributor"
    ensures 3 <= level < 5 ==> t == "Active Contributor"
    ensures level < 3 ==> t == "New Contributor"
  {
    if level >= 20 then "Master Contributor"
    else if level >= 15 then "Expert Contributor"
    else if level >= 10 then "Advanced Contributor"
    else if level >= 5 then "Pro Contributor"
    else if level >= 3 then "Active Contributor"
    else "New Contributor"
  }

  /** The order of titles, New lowest. */
  function TitleRank(t: string): nat {
    if t == "Master Contributor" then 5
    else if t == "Expert Contributor" then 4
    else if t == "Advanced Contributor" then 3
    else if t == "Pro Contributor" then 2
    else if t == "Active Contributor" then 1
    else 0
  }

  /** A higher level never has a lower title. */
  lemma LevelTitleMonotone(l1: int, l2: int)
    requires l1 <= l2
    ensures TitleRank(LevelTitle(l1)) <= TitleRank(LevelTitle(l2))
  {
  }

  // ----- badges -----

  /** A badge as the page shows it (its emoji icon aside). */
  datatype Badge = Badge(name: string, color: string)

  /** Which count a badge rule looks at. */
  datatype Metric = Contributions | Scans | Level

  datatype BadgeRule = BadgeRule(badge: Badge, metric: Metric, threshold: nat)

  /** The badge rules in the order `getBadges` tests them. */
  const Rules: seq<BadgeRule> := [
    BadgeRule(Badge("First Contribution", "yellow"), Contributions, 1),
    BadgeRule(Badge("Contributor", "blue"), Contributions, 5),
    BadgeRule(Badge("Super Contributor", "purple"), Contributions, 10),
    BadgeRule(Badge("Elite Contributor", "pink"), Contributions, 25),
    BadgeRule(Badge("Legendary Contributor", "gold"), Contributions, 50),
    BadgeRule(Badge("Scanner", "green"), Scans, 10),
    BadgeRule(Badge("Super Scanner", "blue"), Scans, 50),
    BadgeRule(Badge("Level 5", "orange"), Level, 5),
    BadgeRule(Badge("Level 10", "gold"), Level, 10)
  ]

  function Measure(s: Stats, m: Metric): nat {
    match m
    case Contributions => s.totalContributions
    case Scans => s.totalScans
    case Level => s.level
  }

  predicate Earned(r: BadgeRule, s: Stats) {
    Measure(s, r.metric) >= r.threshold
  }

  /** The badges of the earned rules among the first k, in rule order. */
  function EarnedBadges(k: nat, s: Stats): (bs: seq<Badge>)
    requires k <= |Rules|
    ensures |bs| <= k
  {
    if k == 0 then []
    else EarnedBadges(k - 1, s) + (if Earned(Rules[k - 1], s) then [Rules[k - 1].badge] else [])
  }

  /** `getBadges`: one test and one push per rule, in order. */
  method GetBadges(s: Stats) returns (badges: seq<Badge>)
    ensures badges == EarnedBadges(|Rules|, s)
  {
    badges := [];
    if s.totalContributions >= 1 { badges := badges + [Badge("First Contribution", "yellow")]; }
    assert badges == EarnedBadges(1, s);
    if s.totalContributions >= 5 { badges := badges + [Badge("Contributor", "blue")]; }
    assert badges == EarnedBadges(2, s);
    if s.totalContributions >= 10 { badges := badges + [Badge("Super Contributor", "purple")]; }
    assert badges == EarnedBadges(3, s);
    if s.totalContributions >= 25 { badges := badges + [Badge("Elite Contributor", "pink")]; }
    assert badges == EarnedBadges(4, s);
    if s.totalContributions >= 50 { badges := badges + [Badge("Legendary Contributor", "gold")]; }
    assert badges == EarnedBadges(5, s);
    if s.totalScans >= 10 { badges := badges + [Badge("Scanner", "green")]; }
    assert badges == EarnedBadges(6, s);
    if s.totalScans >= 50 { badges := badges + [Badge("Super Scanner", "blue")]; }
    assert badges == EarnedBadges(7, s);
    if s.level >= 5 { badges := badges + [Badge("Level 5", "orange")]; }
    assert badges == EarnedBadges(8, s);
    if s.level >= 10 { badges := badges + [Badge("Level 10", "gold")]; }
    assert badges == EarnedBadges(9, s);
  }

  /** A badge is shown iff one of the tested rules awarding it is met. */
  lemma {:induction false} EarnedBadgesMembership(k: nat, s: Stats, b: Badge)
    requires k <= |Rules|
    ensures b in EarnedBadges(k, s) <==> exists i :: 0 <= i < k && Rules[i].badge == b && Earned(Rules[i], s)
  {
    if k > 0 {
      EarnedBadgesMembership(k - 1, s, b);
    }
  }

  predicate NoDuplicates<T(==)>(xs: seq<T>) {
    forall i, j :: 0 <= i < j < |xs| ==> xs[i] != xs[j]
  }

  /** No two rules award the same badge. */
  lemma RulesAwardDistinctBadges()
    ensures forall i, j :: 0 <= i < j < |Rules| ==> Rules[i].badge != Rules[j].badge
  {
  }

  lemma {:induction false} EarnedBadgesDistinct(k: nat, s: Stats)
    requires k <= |Rules|
    ensures NoDuplicates(EarnedBadges(k, s))
  {
    if k > 0 {
      EarnedBadgesDistinct(k - 1, s);
      var prev := EarnedBadges(k - 1, s);
      if Earned(Rules[k - 1], s) {
        RulesAwardDistinctBadges();
        EarnedBadgesMembership(k - 1, s, Rules[k - 1].badge);
        assert Rules[k - 1].badge !in prev;
        var bs := EarnedBadges(k, s);
        forall i, j | 0 <= i < j < |bs| ensures bs[i] != bs[j] {
          if j == |prev| {
            assert prev[i] in prev;
          }
        }
      }
    }
  }

  /** `getBadges` shows at most nine badges, none twice. */
  lemma BadgeListBounds(s: Stats)
    ensures |EarnedBadges(|Rules|, s)| <= 9
    ensures NoDuplicates(EarnedBadges(|Rules|, s))
  {
    EarnedBadgesDistinct(|Rules|, s);
  }

  /** Stats that are at least as high on every count. */
  predicate Dominates(t: Stats, s: Stats) {
    t.totalContributions >= s.totalContributions && t.totalScans >= s.totalScans && t.level >= s.level
  }

  /** Badges are never lost as contributions, scans or level grow. */
  lemma BadgesOnlyGrow(s: Stats, t: Stats, b: Badge)
    requires Dominates(t, s)
    requires b in EarnedBadges(|Rules|, s)
    ensures b in EarnedBadges(|Rules|, t)
  {
    EarnedBadgesMembership(|Rules|, s, b);
    EarnedBadgesMembership(|Rules|, t, b);
    var i :| 0 <= i < |Rules| && Rules[i].badge == b && Earned(Rules[i], s);
    assert Earned(Rules[i], t);
  }

  /** The profile page's state. */
  class ProfilePage {
    var stats: Stats
    var loading: bool
    /** Document ids of the latest contributions shown. */
    var recent: seq<string>

    constructor ()
      ensures stats == InitialStats && loading && recent == []
    {
      stats := InitialStats;
      loading := true;
      recent := [];
    }

    /**
     * `fetchUserStats`: nothing happens without a user and a database; the
     * stats are set as soon as both counts arrive, the recent list once its
     * query succeeds; loading ends in every case where the fetch ran.
     */
    method FetchUserStats(hasUserAndDb: bool, counts: Option<(nat, nat)>, recentIds: Option<seq<string>>)
      modifies this
      ensures !hasUserAndDb ==> unchanged(this)
      ensures hasUserAndDb ==>
        !loading
        && stats == (if counts.Some? then ComputeStats(counts.value.0, counts.value.1) else old(stats))
        && recent == (if counts.Some? && recentIds.Some? then recentIds.value else old(recent))
    {
      if !hasUserAndDb {
        return;
      }
      if counts.Some? {
        stats := ComputeStats(counts.value.0, counts.value.1);
        if recentIds.Some? {
          recent := recentIds.value;
        }
      }
      loading := false;
    }
  }
}
