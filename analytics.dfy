/** The dashboard rollup: a pure function of the organization's score rows,
    its most recent scoring requests and the current calendar month. */
module Analytics {
  import opened Common
  import opened Records

  /** A calendar month as `Date.getMonth()` (0..11) and `Date.getFullYear()`
      report it; the clock and the time zone stay outside the model. */
  datatype MonthYear = MonthYear(month: int, year: int)

  /** The four columns of a `cap_scores` row that the rollup selects. */
  datatype ScoreRow = ScoreRow(
    scoreValue: int,
    riskCategory: Option<RiskCategory>,
    maxRecommendedAmount: Option<int>,
    createdIn: MonthYear)

  /** The four columns of a `cap_scoring_requests` row that the feed selects. */
  datatype RequestRow = RequestRow(id: string, subjectName: Option<string>, status: ScoringStatus, createdAt: string)

  datatype Bucket = Bucket(range: string, lo: int, hi: int)
  datatype BucketCount = BucketCount(range: string, count: nat)
  datatype RiskShare = RiskShare(category: RiskCategory, count: nat, percentage: int)
  datatype ActivityKind = ScoringActivity | MemberActivity | ApiKeyActivity | BillingActivity
  datatype ActivityItem = ActivityItem(id: string, kind: ActivityKind, title: string, description: string, timestamp: string)

  datatype DashboardStats = DashboardStats(
    totalScorings: nat,
    avgScore: int,
    scoringsThisMonth: nat,
    scoringsTrend: int,
    defaultRate: int,
    totalAmountScored: int,
    scoreDistribution: seq<BucketCount>,
    recentActivity: seq<ActivityItem>,
    riskBreakdown: seq<RiskShare>)

  /** The fixed histogram: each label together with the inclusive bounds
      that splitting it at "-" yields. */
  const Buckets: seq<Bucket> := [
    Bucket("0-200", 0, 200),
    Bucket("201-400", 201, 400),
    Bucket("401-600", 401, 600),
    Bucket("601-800", 601, 800),
    Bucket("801-1000", 801, 1000)
  ]

  // ---------------------------------------------------------------- folds

  function SumScores(rows: seq<ScoreRow>): int {
    if rows == [] then 0 else rows[0].scoreValue + SumScores(rows[1..])
  }

  /** Number of rows whose score lies in [lo, hi]. */
  function CountInRange(rows: seq<ScoreRow>, lo: int, hi: int): (c: nat)
    ensures c <= |rows|
  {
    if rows == [] then 0
    else (if lo <= rows[0].scoreValue <= hi then 1 else 0) + CountInRange(rows[1..], lo, hi)
  }

  /** Number of rows whose category is `cat`; a null category matches nothing. */
  function CountCategory(rows: seq<ScoreRow>, cat: RiskCategory): (c: nat)
    ensures c <= |rows|
  {
    if rows == [] then 0
    else (if rows[0].riskCategory == Some(cat) then 1 else 0) + CountCategory(rows[1..], cat)
  }

  function CountUncategorised(rows: seq<ScoreRow>): (c: nat)
    ensures c <= |rows|
  {
    if rows == [] then 0
    else (if rows[0].riskCategory.None? then 1 else 0) + CountUncategorised(rows[1..])
  }

  /** Rows whose category is high or very_high, tested with one filter. */
  function CountHighRisk(rows: seq<ScoreRow>): (c: nat)
    ensures c <= |rows|
  {
    if rows == [] then 0
    else
      var r := rows[0].riskCategory;
      (if r == Some(High) || r == Some(VeryHigh) then 1 else 0) + CountHighRisk(rows[1..])
  }

  function CountInMonth(rows: seq<ScoreRow>, now: MonthYear): (c: nat)
    ensures c <= |rows|
  {
    if rows == [] then 0
    else (if rows[0].createdIn == now then 1 else 0) + CountInMonth(rows[1..], now)
  }

  /** Sum of `max_recommended_amount || 0`. */
  function TotalAmount(rows: seq<ScoreRow>): int {
    if rows == [] then 0 else rows[0].maxRecommendedAmount.GetOr(0) + TotalAmount(rows[1..])
  }

  // ---------------------------------------------------------- rounded ratios

  /** `avg_score`: the mean score rounded half up, 0 for no rows. */
  function AverageScore(rows: seq<ScoreRow>): (avg: int)
    ensures rows == [] ==> avg == 0
    ensures rows != [] ==> 2 * |rows| * avg - |rows| <= 2 * SumScores(rows) < 2 * |rows| * avg + |rows|
  {
    if |rows| > 0 then RoundDiv(SumScores(rows), |rows|) else 0
  }

  /** `Math.round(count / total * 100)`, or 0 when there are no rows. */
  function Percentage(count: nat, total: nat): (p: int)
    requires count <= total
    ensures 0 <= p <= 100
    ensures total == 0 ==> p == 0
    ensures total > 0 ==> 2 * total * p - total <= 200 * count < 2 * total * p + total
  {
    if total > 0 then
      RoundDivWithin(100 * count, total, 0, 100);
      RoundDiv(100 * count, total)
    else 0
  }

  // ------------------------------------------------------------- sections

  function Distribution(rows: seq<ScoreRow>): seq<BucketCount> {
    seq(|Buckets|, i requires 0 <= i < |Buckets| =>
      BucketCount(Buckets[i].range, CountInRange(rows, Buckets[i].lo, Buckets[i].hi)))
  }

  function RiskBreakdown(rows: seq<ScoreRow>): seq<RiskShare> {
    seq(|RiskCategories|, i requires 0 <= i < |RiskCategories| =>
      var count := CountCategory(rows, RiskCategories[i]);
      RiskShare(RiskCategories[i], count, Percentage(count, |rows|)))
  }

  function DefaultRate(rows: seq<ScoreRow>): (rate: int)
    ensures 0 <= rate <= 100
    ensures rows == [] ==> rate == 0
  {
    Percentage(CountHighRisk(rows), |rows|)
  }

  function ActivityFor(r: RequestRow): ActivityItem {
    ActivityItem(
      r.id,
      ScoringActivity,
      "Scoring: " + OrElse(r.subjectName, "Anonyme"),
      "Statut: " + r.status.Name(),
      r.createdAt)
  }

  /** The activity feed: one scoring item per request, in the requests' order. */
  function RecentActivity(requests: seq<RequestRow>): (items: seq<ActivityItem>)
    ensures |items| == |requests|
    ensures forall i :: 0 <= i < |items| ==>
      && items[i].id == requests[i].id
      && items[i].kind == ScoringActivity
      && items[i].title == "Scoring: " + OrElse(requests[i].subjectName, "Anonyme")
      && items[i].description == "Statut: " + requests[i].status.Name()
      && items[i].timestamp == requests[i].createdAt
  {
    if requests == [] then [] else [ActivityFor(requests[0])] + RecentActivity(requests[1..])
  }

  /** The whole rollup over rows already fetched. */
  function ComputeStats(scores: seq<ScoreRow>, recent: seq<RequestRow>, now: MonthYear): (s: DashboardStats)
    ensures s.totalScorings == |scores|
    ensures s.scoringsThisMonth <= s.totalScorings
    ensures s.scoringsTrend == 0
    ensures 0 <= s.defaultRate <= 100
    ensures |s.scoreDistribution| == |Buckets| && |s.riskBreakdown| == |RiskCategories|
    ensures |s.recentActivity| == |recent|
    ensures scores == [] ==> s.avgScore == 0 && s.defaultRate == 0 && s.totalAmountScored == 0
  {
    DashboardStats(
      |scores|,
      AverageScore(scores),
      CountInMonth(scores, now),
      0,
      DefaultRate(scores),
      TotalAmount(scores),
      Distribution(scores),
      RecentActivity(recent),
      RiskBreakdown(scores))
  }

  /** `getDashboardStats` once the two queries have answered: a failed query
      (`null` data) is read as no rows. */
  function GetDashboardStats(scores: Option<seq<ScoreRow>>, recent: Option<seq<RequestRow>>, now: MonthYear): (s: DashboardStats)
    ensures scores.None? ==> s.totalScorings == 0
    ensures recent.None? ==> s.recentActivity == []
  {
    ComputeStats(scores.GetOr([]), recent.GetOr([]), now)
  }

  // ---------------------------------------------------------------- lemmas

  /** Each score in 0..1000 lies in exactly one bucket. */
  lemma BucketsPartitionScoreDomain(v: int)
    requires 0 <= v <= 1000
    ensures exists i :: 0 <= i < |Buckets| && Buckets[i].lo <= v <= Buckets[i].hi
    ensures forall i, j :: 0 <= i < j < |Buckets| ==>
      !(Buckets[i].lo <= v <= Buckets[i].hi && Buckets[j].lo <= v <= Buckets[j].hi)
  {
    if v <= 200 { assert Buckets[0].lo <= v <= Buckets[0].hi; }
    else if v <= 400 { assert Buckets[1].lo <= v <= Buckets[1].hi; }
    else if v <= 600 { assert Buckets[2].lo <= v <= Buckets[2].hi; }
    else if v <= 800 { assert Buckets[3].lo <= v <= Buckets[3].hi; }
    else { assert Buckets[4].lo <= v <= Buckets[4].hi; }
  }

  predicate ScoresInDomain(rows: seq<ScoreRow>) {
    forall i :: 0 <= i < |rows| ==> 0 <= rows[i].scoreValue <= 1000
  }

  function SumCounts(d: seq<BucketCount>): nat {
    if d == [] then 0 else d[0].count + SumCounts(d[1..])
  }

  lemma {:induction false} FiveBucketsCoverDomain(rows: seq<ScoreRow>)
    requires ScoresInDomain(rows)
    ensures CountInRange(rows, 0, 200) + CountInRange(rows, 201, 400) + CountInRange(rows, 401, 600)
          + CountInRange(rows, 601, 800) + CountInRange(rows, 801, 1000) == |rows|
  {
    if rows != [] {
      assert ScoresInDomain(rows[1..]) by {
        forall i | 0 <= i < |rows[1..]| ensures 0 <= rows[1..][i].scoreValue <= 1000 {
          assert rows[1..][i] == rows[i + 1];
        }
      }
      FiveBucketsCoverDomain(rows[1..]);
      assert 0 <= rows[0].scoreValue <= 1000;
    }
  }

  /** The histogram always has the five fixed labels in order, and for scores
      in 0..1000 its counts add up to the number of rows. */
  lemma DistributionPartitionsRows(rows: seq<ScoreRow>)
    ensures |Distribution(rows)| == 5
    ensures forall i :: 0 <= i < 5 ==> Distribution(rows)[i].range == ["0-200", "201-400", "401-600", "601-800", "801-1000"][i]
    ensures ScoresInDomain(rows) ==> SumCounts(Distribution(rows)) == |rows|
  {
    var d := Distribution(rows);
    if ScoresInDomain(rows) {
      FiveBucketsCoverDomain(rows);
      assert d == [d[0], d[1], d[2], d[3], d[4]];
      assert SumCounts(d[4..]) == d[4].count by { assert d[4..][1..] == []; }
      assert SumCounts(d[3..]) == d[3].count + SumCounts(d[4..]) by { assert d[3..][1..] == d[4..]; }
      assert SumCounts(d[2..]) == d[2].count + SumCounts(d[3..]) by { assert d[2..][1..] == d[3..]; }
      assert SumCounts(d[1..]) == d[1].count + SumCounts(d[2..]) by { assert d[1..][1..] == d[2..]; }
    }
  }

  lemma {:induction false} SumScoresBounds(rows: seq<ScoreRow>, lo: int, hi: int)
    requires forall i :: 0 <= i < |rows| ==> lo <= rows[i].scoreValue <= hi
    ensures |rows| * lo <= SumScores(rows) <= |rows| * hi
  {
    if rows != [] {
      assert forall i :: 0 <= i < |rows[1..]| ==> rows[1..][i] == rows[i + 1];
      SumScoresBounds(rows[1..], lo, hi);
      assert |rows| * lo == lo + (|rows| - 1) * lo;
      assert |rows| * hi == hi + (|rows| - 1) * hi;
    }
  }

  /** The rounded mean of scores that all lie in [lo, hi] also lies there;
      in particular `avg_score` of scores in 0..1000 is a score in 0..1000. */
  lemma AverageWithinScoreBounds(rows: seq<ScoreRow>, lo: int, hi: int)
    requires rows != []
    requires forall i :: 0 <= i < |rows| ==> lo <= rows[i].scoreValue <= hi
    ensures lo <= AverageScore(rows) <= hi
  {
    SumScoresBounds(rows, lo, hi);
    RoundDivWithin(SumScores(rows), |rows|, lo, hi);
  }

  /** The amount scored over two batches of rows is the sum of the two
      batches' amounts, so it does not depend on how the rows are split. */
  lemma {:induction false} TotalAmountAppend(a: seq<ScoreRow>, b: seq<ScoreRow>)
    ensures TotalAmount(a + b) == TotalAmount(a) + TotalAmount(b)
  {
    if a != [] {
      assert (a + b)[1..] == a[1..] + b;
      TotalAmountAppend(a[1..], b);
    } else {
      assert a + b == b;
    }
  }

  /** A missing amount counts as 0; when every row's amount (or that 0)
      lies in [lo, hi], `total_amount_scored` lies in [n*lo, n*hi]. */
  lemma {:induction false} TotalAmountBounds(rows: seq<ScoreRow>, lo: int, hi: int)
    requires forall i :: 0 <= i < |rows| ==> lo <= rows[i].maxRecommendedAmount.GetOr(0) <= hi
    ensures |rows| * lo <= TotalAmount(rows) <= |rows| * hi
  {
    if rows != [] {
      assert forall i :: 0 <= i < |rows[1..]| ==> rows[1..][i] == rows[i + 1];
      TotalAmountBounds(rows[1..], lo, hi);
      assert |rows| * lo == lo + (|rows| - 1) * lo;
      assert |rows| * hi == hi + (|rows| - 1) * hi;
    }
  }

  lemma {:induction false} CategoriesAccountForEveryRow(rows: seq<ScoreRow>)
    ensures CountCategory(rows, VeryLow) + CountCategory(rows, Low) + CountCategory(rows, Medium)
          + CountCategory(rows, High) + CountCategory(rows, VeryHigh) + CountUncategorised(rows) == |rows|
  {
    if rows != [] {
      CategoriesAccountForEveryRow(rows[1..]);
      match rows[0].riskCategory
      case None =>
      case Some(c) => assert c == VeryLow || c == Low || c == Medium || c == High || c == VeryHigh;
    }
  }

  function SumRiskCounts(b: seq<RiskShare>): nat {
    if b == [] then 0 else b[0].count + SumRiskCounts(b[1..])
  }

  function SumPercentages(b: seq<RiskShare>): int {
    if b == [] then 0 else b[0].percentage + SumPercentages(b[1..])
  }

  /** The breakdown lists the five categories in fixed order, each with the
      number of rows of that category and its rounded percentage of all rows,
      which lies in 0..100 and is 0 with no rows. */
  lemma RiskBreakdownShape(rows: seq<ScoreRow>)
    ensures |RiskBreakdown(rows)| == 5
    ensures forall i :: 0 <= i < 5 ==>
      && RiskBreakdown(rows)[i].category == RiskCategories[i]
      && RiskBreakdown(rows)[i].count == CountCategory(rows, RiskCategories[i])
      && RiskBreakdown(rows)[i].count <= |rows|
      && RiskBreakdown(rows)[i].percentage == Percentage(RiskBreakdown(rows)[i].count, |rows|)
      && 0 <= RiskBreakdown(rows)[i].percentage <= 100
      && (rows == [] ==> RiskBreakdown(rows)[i].percentage == 0)
  {
  }

  lemma SumRiskCountsOfFive(b: seq<RiskShare>)
    requires |b| == 5
    ensures SumRiskCounts(b) == b[0].count + b[1].count + b[2].count + b[3].count + b[4].count
  {
    assert SumRiskCounts(b[4..]) == b[4].count by { assert b[4..][1..] == []; }
    assert SumRiskCounts(b[3..]) == b[3].count + SumRiskCounts(b[4..]) by { assert b[3..][1..] == b[4..]; }
    assert SumRiskCounts(b[2..]) == b[2].count + SumRiskCounts(b[3..]) by { assert b[2..][1..] == b[3..]; }
    assert SumRiskCounts(b[1..]) == b[1].count + SumRiskCounts(b[2..]) by { assert b[1..][1..] == b[2..]; }
  }

  /** The breakdown's counts together with the rows of null category make
      up all the rows. */
  lemma BreakdownCountsAccountForEveryRow(rows: seq<ScoreRow>)
    ensures SumRiskCounts(RiskBreakdown(rows)) + CountUncategorised(rows) == |rows|
  {
    var b := RiskBreakdown(rows);
    CategoriesAccountForEveryRow(rows);
    SumRiskCountsOfFive(b);
    assert b[0].count == CountCategory(rows, VeryLow);
    assert b[1].count == CountCategory(rows, Low);
    assert b[2].count == CountCategory(rows, Medium);
    assert b[3].count == CountCategory(rows, High);
    assert b[4].count == CountCategory(rows, VeryHigh);
  }

  lemma {:induction false} HighRiskIsHighPlusVeryHigh(rows: seq<ScoreRow>)
    ensures CountHighRisk(rows) == CountCategory(rows, High) + CountCategory(rows, VeryHigh)
  {
    if rows != [] {
      HighRiskIsHighPlusVeryHigh(rows[1..]);
    }
  }

  /** The default rate is the rounded percentage of rows that the breakdown
      counts as high or very_high. */
  lemma DefaultRateFromBreakdown(rows: seq<ScoreRow>)
    ensures RiskBreakdown(rows)[3].count + RiskBreakdown(rows)[4].count <= |rows|
    ensures DefaultRate(rows) == Percentage(RiskBreakdown(rows)[3].count + RiskBreakdown(rows)[4].count, |rows|)
  {
    HighRiskIsHighPlusVeryHigh(rows);
  }

  /** With no rows at all, every number is zero and both enumerations are
      still present with zero counts. */
  lemma EmptyDashboard(now: MonthYear)
    ensures ComputeStats([], [], now) == DashboardStats(
      0, 0, 0, 0, 0, 0,
      [BucketCount("0-200", 0), BucketCount("201-400", 0), BucketCount("401-600", 0),
       BucketCount("601-800", 0), BucketCount("801-1000", 0)],
      [],
      [RiskShare(VeryLow, 0, 0), RiskShare(Low, 0, 0), RiskShare(Medium, 0, 0),
       RiskShare(High, 0, 0), RiskShare(VeryHigh, 0, 0)])
  {
  }

  function Row(score: int, cat: RiskCategory): ScoreRow {
    ScoreRow(score, Some(cat), None, MonthYear(0, 0))
  }

  /** Percentages are rounded one by one and are not renormalised: three rows
      in three different categories give 33 + 33 + 33 = 99. */
  lemma PercentagesNeedNotSumToHundred()
    ensures SumPercentages(RiskBreakdown([Row(700, Low), Row(500, Medium), Row(350, High)])) == 99
  {
    var rows := [Row(700, Low), Row(500, Medium), Row(350, High)];
    var b := RiskBreakdown(rows);
    RoundDivUnique(0, 3, 0);
    RoundDivUnique(100, 3, 33);
    assert rows[1..] == [Row(500, Medium), Row(350, High)];
    assert rows[1..][1..] == [Row(350, High)];
    assert b == [RiskShare(VeryLow, 0, 0), RiskShare(Low, 1, 33), RiskShare(Medium, 1, 33),
                 RiskShare(High, 1, 33), RiskShare(VeryHigh, 0, 0)];
  }

  /** Four rows of which one is high and one very_high: a default rate of 50. */
  lemma DefaultRateExample()
    ensures DefaultRate([Row(850, VeryLow), Row(350, High), Row(100, VeryHigh), Row(500, Medium)]) == 50
  {
    var rows := [Row(850, VeryLow), Row(350, High), Row(100, VeryHigh), Row(500, Medium)];
    assert rows[1..] == [Row(350, High), Row(100, VeryHigh), Row(500, Medium)];
    assert rows[1..][1..] == [Row(100, VeryHigh), Row(500, Medium)];
    assert rows[1..][1..][1..] == [Row(500, Medium)];
    RoundDivUnique(200, 4, 50);
  }
}
