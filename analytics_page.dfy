/**
 * The analytics page (src/app/analytics/page.tsx): totals over the
 * engagement summary, the top-ten ranking by engagement rate, the chart rows,
 * and the success-rate and badge formulas of the ranking table. The ranking
 * sorts the summary array in place, and the chart rows are read from that
 * same array afterwards.
 */
module AnalyticsPage {

  import opened Types
  import opened Seqs
  import opened Sorting
  import opened Tallies
  import opened Aggregates
  import opened Catalog
  import opened CatalogExamples

  // ---------------------------------------------------------------- totals

  function ViewsOf(s: VideoSummary): nat { s.totalViews }
  function ApprovalsOf(s: VideoSummary): nat { s.approvals }
  function ConcernsOf(s: VideoSummary): nat { s.disapprovals }
  function RateOf(s: VideoSummary): real { s.engagementRate }

  /** The header figures. */
  datatype Overview = Overview(
    totalVideos: nat,
    totalUsers: nat,
    totalViews: nat,
    totalApprovals: nat,
    totalConcerns: nat,
    averageEngagementRate: real)

  /**
   * The totals of the summary and the mean engagement rate (0 for an empty
   * summary); the video and user counts are the lengths of the other two lists.
   */
  function OverviewOf(summary: seq<VideoSummary>, videoCount: nat, userCount: nat): Overview {
    Overview(
      videoCount,
      userCount,
      SumOf(summary, ViewsOf),
      SumOf(summary, ApprovalsOf),
      SumOf(summary, ConcernsOf),
      Mean(Map(summary, RateOf)))
  }

  /**
   * A total is zero exactly when every entry's field is; the mean rate is 0
   * for an empty summary and never negative.
   */
  lemma OverviewMeaning(summary: seq<VideoSummary>, videoCount: nat, userCount: nat)
    requires forall i :: 0 <= i < |summary| ==> summary[i].engagementRate >= 0.0
    ensures var o := OverviewOf(summary, videoCount, userCount);
      && o.totalVideos == videoCount && o.totalUsers == userCount
      && (o.totalViews == 0 <==> forall i :: 0 <= i < |summary| ==> summary[i].totalViews == 0)
      && (o.totalApprovals == 0 <==> forall i :: 0 <= i < |summary| ==> summary[i].approvals == 0)
      && (o.totalConcerns == 0 <==> forall i :: 0 <= i < |summary| ==> summary[i].disapprovals == 0)
      && (summary == [] ==> o.averageEngagementRate == 0.0)
      && o.averageEngagementRate >= 0.0
  {
    SumOfZero(summary, ViewsOf);
    SumOfZero(summary, ApprovalsOf);
    SumOfZero(summary, ConcernsOf);
    MeanNonNegative(Map(summary, RateOf));
  }

  /**
   * The totals do not depend on the order of the summary, so taking them
   * before the in-place sort or after it gives the same figures.
   */
  lemma TotalsIgnoreOrder(summary: seq<VideoSummary>, reordered: seq<VideoSummary>, videoCount: nat, userCount: nat)
    requires multiset(reordered) == multiset(summary)
    ensures OverviewOf(reordered, videoCount, userCount).totalViews == OverviewOf(summary, videoCount, userCount).totalViews
    ensures OverviewOf(reordered, videoCount, userCount).totalApprovals == OverviewOf(summary, videoCount, userCount).totalApprovals
    ensures OverviewOf(reordered, videoCount, userCount).totalConcerns == OverviewOf(summary, videoCount, userCount).totalConcerns
  {
    SumOfPermutation(reordered, summary, ViewsOf);
    SumOfPermutation(reordered, summary, ApprovalsOf);
    SumOfPermutation(reordered, summary, ConcernsOf);
  }

  // ---------------------------------------------------------------- ranking

  /** `b.engagementRate - a.engagementRate <= 0`: the higher rate may stay in front. */
  function HigherRate(a: VideoSummary, b: VideoSummary): bool {
    a.engagementRate >= b.engagementRate
  }

  lemma HigherRateConsistent()
    ensures TotalPreorder(HigherRate)
  {
  }

  /** One row of the top-videos table. */
  datatype TopVideo = TopVideo(
    videoId: string,
    videoName: string,
    category: AgeBand,
    shortId: string,
    views: nat,
    approvals: nat,
    disapprovals: nat,
    engagementRate: real,
    uniqueViewers: nat)

  /** One row of the chart data. */
  datatype PerformanceRow = PerformanceRow(
    videoId: string,
    views: nat,
    approvals: nat,
    disapprovals: nat,
    engagementRate: real)

  /**
   * The category the code stores in a ranking row: the classifier applied to
   * the video's display name instead of its id.
   */
  function StoredCategory(videoId: string): AgeBand {
    VideoCategory(VideoName(videoId))
  }

  /** A ranking row as the code builds it, with the stored category. */
  function TopRowAsWritten(s: VideoSummary): TopVideo {
    TopVideo(s.videoId, VideoName(s.videoId), StoredCategory(s.videoId), Take(s.videoId, 8),
             s.totalViews, s.approvals, s.disapprovals, s.engagementRate, s.uniqueViewers)
  }

  /**
   * For the first video of the 0-3 months list the stored category is
   * 'Development', while the category the page shows for that row is '0-3 Months'.
   */
  lemma StoredCategoryDisagrees(s: VideoSummary)
    requires s.videoId == "vmEHfOIf3M8"
    ensures TopRowAsWritten(s).category == Development
    ensures VideoCategory(s.videoId) == ZeroToThreeMonths
  {
    RootingReflexName();
    RootingReflexNameIsDevelopment();
    RootingReflexIsZeroToThree();
  }

  /** A ranking row with the category classified from the id, as the table displays it. */
  function TopRow(s: VideoSummary): (row: TopVideo)
    ensures row.category == VideoCategory(row.videoId)
    ensures row.videoId == s.videoId && row.videoName == VideoName(s.videoId)
    ensures |row.shortId| == Min(8, |s.videoId|) && row.shortId == s.videoId[..|row.shortId|]
    ensures row.views == s.totalViews && row.approvals == s.approvals && row.disapprovals == s.disapprovals
    ensures row.engagementRate == s.engagementRate && row.uniqueViewers == s.uniqueViewers
  {
    TopVideo(s.videoId, VideoName(s.videoId), VideoCategory(s.videoId), Take(s.videoId, 8),
             s.totalViews, s.approvals, s.disapprovals, s.engagementRate, s.uniqueViewers)
  }

  /** The corrected row differs from the written one in the category only, and only where the two classifications differ. */
  lemma TopRowCorrectsCategoryOnly(s: VideoSummary)
    ensures TopRow(s).(category := StoredCategory(s.videoId)) == TopRowAsWritten(s)
    ensures TopRow(s) == TopRowAsWritten(s) <==> VideoCategory(s.videoId) == StoredCategory(s.videoId)
    ensures Listed(ResolveId(s.videoId)) ==> TopRow(s).category != Development
  {
    ListedIdsIgnoreName(s.videoId);
  }

  function PerformanceRowOf(s: VideoSummary): PerformanceRow {
    PerformanceRow(s.videoId, s.totalViews, s.approvals, s.disapprovals, s.engagementRate)
  }

  /** `topPerformingVideos`: the first ten entries of the sorted summary. */
  function TopVideos(sorted: seq<VideoSummary>): seq<TopVideo> {
    Map(Take(sorted, 10), TopRow)
  }

  /** `videoPerformanceData`: every entry of the summary, read after the sort. */
  function Performance(sorted: seq<VideoSummary>): seq<PerformanceRow> {
    Map(sorted, PerformanceRowOf)
  }

  /**
   * `loadAnalyticsData` from the fetched lists: the header figures are taken
   * from the summary as fetched; then `sort` reorders the summary array
   * itself, and both the ranking and the chart rows are read from it.
   */
  method LoadAnalytics(summary: array<VideoSummary>, videoCount: nat, userCount: nat)
    returns (overview: Overview, top: seq<TopVideo>, performance: seq<PerformanceRow>)
    modifies summary
    ensures overview == OverviewOf(old(summary[..]), videoCount, userCount)
    ensures summary[..] == SortBy(old(summary[..]), HigherRate)
    ensures top == TopVideos(summary[..]) && performance == Performance(summary[..])
  {
    overview := OverviewOf(summary[..], videoCount, userCount);
    SortInPlace(summary, HigherRate);
    top := TopVideos(summary[..]);
    performance := Performance(summary[..]);
  }

  /**
   * The ranking has at most ten rows with non-increasing rates, holds
   * entries of the summary, and no entry left out has a higher rate than
   * the last row.
   */
  lemma RankingOrder(summary: seq<VideoSummary>)
    ensures var sorted := SortBy(summary, HigherRate);
      var top := TopVideos(sorted);
      && multiset(sorted) == multiset(summary)
      && |top| == Min(10, |summary|)
      && (forall i :: 0 <= i < |top| ==> top[i] == TopRow(sorted[i]))
      && (forall i, j :: 0 <= i < j < |top| ==> top[i].engagementRate >= top[j].engagementRate)
      && (forall j :: |top| <= j < |sorted| ==> sorted[j].engagementRate <= top[|top| - 1].engagementRate)
  {
    var sorted := SortBy(summary, HigherRate);
    SortByPermutes(summary, HigherRate);
    HigherRateConsistent();
    SortBySorted(summary, HigherRate);
    TakeOfSorted(sorted, 10, HigherRate);
  }

  /**
   * Because the summary was sorted in place, the chart rows hold every
   * entry, in non-increasing rate order, and begin with the ranking's rows.
   */
  lemma PerformanceFollowsRanking(summary: seq<VideoSummary>)
    ensures var sorted := SortBy(summary, HigherRate);
      var rows := Performance(sorted);
      var top := TopVideos(sorted);
      && |rows| == |summary|
      && (forall i :: 0 <= i < |rows| ==> rows[i] == PerformanceRowOf(sorted[i]))
      && (forall i, j :: 0 <= i < j < |rows| ==> rows[i].engagementRate >= rows[j].engagementRate)
      && (forall i :: 0 <= i < |top| ==> top[i].videoId == rows[i].videoId && top[i].engagementRate == rows[i].engagementRate)
  {
    SortByPermutes(summary, HigherRate);
    HigherRateConsistent();
    SortBySorted(summary, HigherRate);
  }

  /** The ranking rows are the first ten entries of the sorted summary, with their ids and rates. */
  lemma TopVideosFollowSorted(sorted: seq<VideoSummary>)
    ensures |TopVideos(sorted)| == Min(10, |sorted|)
    ensures forall i :: 0 <= i < |TopVideos(sorted)| ==>
      TopVideos(sorted)[i].videoId == sorted[i].videoId && TopVideos(sorted)[i].engagementRate == sorted[i].engagementRate
  {
  }

  /**
   * The top-videos card shows the first eight rows of the ranking: the best
   * min(8, n) entries of the summary, in rate order, none rated below an
   * entry it leaves out.
   */
  lemma CardShowsBestEight(summary: seq<VideoSummary>)
    ensures var sorted := SortBy(summary, HigherRate);
      var card := Take(TopVideos(sorted), 8);
      && |sorted| == |summary|
      && |card| == Min(8, |summary|)
      && (forall i :: 0 <= i < |card| ==>
            card[i].videoId == sorted[i].videoId && card[i].engagementRate == sorted[i].engagementRate)
      && (forall i, j :: 0 <= i < j < |card| ==> card[i].engagementRate >= card[j].engagementRate)
      && (forall i, j :: 0 <= i < |card| <= j < |sorted| ==> card[i].engagementRate >= sorted[j].engagementRate)
  {
    var sorted := SortBy(summary, HigherRate);
    SortByPermutes(summary, HigherRate);
    HigherRateConsistent();
    SortBySorted(summary, HigherRate);
    TopVideosFollowSorted(sorted);
    TakeOfSorted(sorted, 8, HigherRate);
  }


  // ---------------------------------------------------------------- rates and badges

  /** A row's success rate: the approvals' share of its votes, 0 without votes. */
  function SuccessRate(row: TopVideo): (r: real)
    ensures 0.0 <= r <= 100.0
    ensures row.approvals + row.disapprovals == 0 ==> r == 0.0
    ensures row.approvals + row.disapprovals > 0 ==>
      r * (row.approvals + row.disapprovals) as real == 100.0 * row.approvals as real
  {
    if row.approvals + row.disapprovals > 0 then
      ApprovalRateShare(row.approvals, row.disapprovals);
      ApprovalRate(row.approvals, row.disapprovals)
    else ApprovalRate(row.approvals, row.disapprovals)
  }

  /** The engagement badge: success from 50%, warning from 25%, error below. */
  function EngagementBadge(row: TopVideo): (l: Level)
    ensures l == Success <==> row.engagementRate >= 50.0
    ensures l == Warning <==> 25.0 <= row.engagementRate < 50.0
    ensures l == Danger <==> row.engagementRate < 25.0
  {
    Band(row.engagementRate, 50.0, 25.0)
  }

  /** The success badge: success from 70%, warning from 40%, error below. */
  function SuccessBadge(row: TopVideo): (l: Level)
    ensures l == Success <==> SuccessRate(row) >= 70.0
    ensures l == Warning <==> 40.0 <= SuccessRate(row) < 70.0
    ensures l == Danger <==> SuccessRate(row) < 40.0
  {
    Band(SuccessRate(row), 70.0, 40.0)
  }

  /** A row without votes gets the error badge for success. */
  lemma NoVotesNoSuccess(row: TopVideo)
    requires row.approvals + row.disapprovals == 0
    ensures SuccessBadge(row) == Danger
  {
  }

  /**
   * The overall success rate of the header: approvals among all votes. The
   * page divides without a guard, so it has a value only when some vote was cast.
   */
  function OverallSuccessRate(o: Overview): (r: real)
    requires o.totalApprovals + o.totalConcerns > 0
    ensures 0.0 <= r <= 100.0
    ensures r * (o.totalApprovals + o.totalConcerns) as real == 100.0 * o.totalApprovals as real
  {
    ApprovalRateShare(o.totalApprovals, o.totalConcerns);
    ApprovalRate(o.totalApprovals, o.totalConcerns)
  }
}
