/**
 * The video analytics page (src/app/videos/page.tsx): per-video metrics
 * derived from the stored counters and the video's engagement records, the
 * id search and the sort selector, the approval bar, the feedback labels and
 * the two five-entry feedback panels.
 */
module VideosPage {

  import opened Types
  import opened Seqs
  import opened Sorting
  import opened Text
  import opened Tallies
  import opened Aggregates

  /** The stored counters of a video with its records and the metrics derived from them. */
  datatype VideoWithEngagements = VideoWithEngagements(
    stats: VideoStats,
    engagements: seq<VideoEngagement>,
    uniqueViewers: nat,
    averageViewsPerUser: real,
    engagementRate: real)

  /**
   * The metrics of one video from the records `getVideoEngagements` returns
   * for it: distinct viewers, views per viewer and the engagement rate of the
   * stored counters.
   */
  function WithEngagements(video: VideoStats, engs: seq<VideoEngagement>): VideoWithEngagements {
    VideoWithEngagements(
      video,
      engs,
      |ViewerIds(engs)|,
      PerViewer(TotalViewCount(engs), |ViewerIds(engs)|),
      EngagementRate(video.totalApprovals + video.totalDisapprovals, video.totalViews))
  }

  /** `total / viewers`, or 0 without viewers. */
  function PerViewer(total: nat, viewers: nat): (r: real)
    ensures r >= 0.0
    ensures viewers == 0 ==> r == 0.0
    ensures viewers > 0 ==> r * viewers as real == total as real
  {
    if viewers > 0 then total as real / viewers as real else 0.0
  }

  /**
   * The viewer count is the number of distinct user ids, at most one per
   * record and zero only without records; views per viewer is 0 without
   * records and the total view count shared among the viewers otherwise.
   */
  lemma WithEngagementsMeaning(video: VideoStats, engs: seq<VideoEngagement>)
    ensures WithEngagements(video, engs).stats == video && WithEngagements(video, engs).engagements == engs
    ensures WithEngagements(video, engs).uniqueViewers == |ViewerIds(engs)| <= |engs|
    ensures WithEngagements(video, engs).uniqueViewers == 0 <==> engs == []
    ensures engs == [] ==> WithEngagements(video, engs).averageViewsPerUser == 0.0
    ensures engs != [] ==> |ViewerIds(engs)| > 0
    ensures engs != [] ==> WithEngagements(video, engs).averageViewsPerUser == PerViewer(TotalViewCount(engs), |ViewerIds(engs)|)
  {
    ViewersAtMostRecords(engs);
  }

  /**
   * The engagement rate is that of the stored counters: the votes as a
   * percentage of the views, or 0 without views. `EngagementRateShare` gives
   * its value, rate × views = 100 × votes.
   */
  lemma EngagementRateOfCounters(video: VideoStats, engs: seq<VideoEngagement>)
    ensures WithEngagements(video, engs).engagementRate ==
      EngagementRate(video.totalApprovals + video.totalDisapprovals, video.totalViews)
    ensures video.totalViews == 0 ==> WithEngagements(video, engs).engagementRate == 0.0
    ensures video.totalViews > 0 ==>
      WithEngagements(video, engs).engagementRate * video.totalViews as real ==
      100.0 * (video.totalApprovals + video.totalDisapprovals) as real
  {
    var votes := video.totalApprovals + video.totalDisapprovals;
    var rate := WithEngagements(video, engs).engagementRate;
    assert rate == EngagementRate(votes, video.totalViews);
    if video.totalViews > 0 {
      EngagementRateShare(votes, video.totalViews);
    }
  }


  function WithEngagementsFn(allEngs: seq<VideoEngagement>): VideoStats -> VideoWithEngagements {
    (video: VideoStats) => WithEngagements(video, ForVideo(allEngs, video.videoId))
  }

  /**
   * `loadVideoAnalytics`: one entry per stored video, in the order of
   * `getAllVideoStats`, each with that video's records; when a fetch fails
   * the page keeps its initial empty list.
   */
  function LoadVideoAnalytics(stats: seq<VideoStats>, allEngs: seq<VideoEngagement>, failed: bool): (videos: seq<VideoWithEngagements>)
    ensures failed ==> videos == []
    ensures !failed ==> |videos| == |stats|
    ensures !failed ==> forall i :: 0 <= i < |stats| ==>
      videos[i].stats == stats[i] && videos[i].engagements == ForVideo(allEngs, stats[i].videoId)
  {
    if failed then [] else Map(stats, WithEngagementsFn(allEngs))
  }

  // ---------------------------------------------------------------- search and sort

  /** The search box looks at the video id only, ignoring case. */
  predicate IdMatches(v: VideoWithEngagements, term: string) {
    Contains(ToLower(v.stats.videoId), ToLower(term))
  }

  function IdMatchesFn(term: string): VideoWithEngagements -> bool {
    (v: VideoWithEngagements) => IdMatches(v, term)
  }

  /** An empty search term keeps every video. */
  lemma EmptyTermMatchesAll(v: VideoWithEngagements)
    ensures IdMatches(v, "")
  {
    assert ToLower("") == "";
    ContainsEmpty(ToLower(v.stats.videoId));
  }

  datatype SortKey = ByViews | ByApprovals | ByEngagement

  /** The value each sort choice orders by. */
  function Key(v: VideoWithEngagements, key: SortKey): real {
    match key
    case ByViews => v.stats.totalViews as real
    case ByApprovals => v.stats.totalApprovals as real
    case ByEngagement => v.engagementRate
  }

  /** `b.x - a.x <= 0`: `a` may stay in front of `b` when its value is not smaller. */
  function Comparator(key: SortKey): (VideoWithEngagements, VideoWithEngagements) -> bool {
    (a: VideoWithEngagements, b: VideoWithEngagements) => Key(a, key) >= Key(b, key)
  }

  lemma ComparatorConsistent(key: SortKey)
    ensures TotalPreorder(Comparator(key))
  {
  }

  /** `filteredAndSortedVideos`: the videos whose id matches, highest value first. */
  function FilteredAndSorted(videos: seq<VideoWithEngagements>, term: string, key: SortKey): seq<VideoWithEngagements> {
    SortBy(Filter(videos, IdMatchesFn(term)), Comparator(key))
  }

  /**
   * The list holds each matching video as often as the input does and
   * nothing else, with values non-increasing along the list.
   */
  lemma ShownVideos(videos: seq<VideoWithEngagements>, term: string, key: SortKey)
    ensures var shown := FilteredAndSorted(videos, term, key);
      && (forall v :: multiset(shown)[v] == if IdMatches(v, term) then multiset(videos)[v] else 0)
      && (forall i, j :: 0 <= i < j < |shown| ==> Key(shown[i], key) >= Key(shown[j], key))
  {
    var filtered := Filter(videos, IdMatchesFn(term));
    SortByPermutes(filtered, Comparator(key));
    ComparatorConsistent(key);
    SortBySorted(filtered, Comparator(key));
    forall v ensures multiset(SortBy(filtered, Comparator(key)))[v] == if IdMatches(v, term) then multiset(videos)[v] else 0 {
      FilterCounts(videos, IdMatchesFn(term), v);
    }
  }

  /** With the empty term the list is a reordering of all videos. */
  lemma EmptyTermShowsAll(videos: seq<VideoWithEngagements>, key: SortKey)
    ensures multiset(FilteredAndSorted(videos, "", key)) == multiset(videos)
  {
    ShownVideos(videos, "", key);
    forall v ensures IdMatches(v, "") {
      EmptyTermMatchesAll(v);
    }
  }

  // ---------------------------------------------------------------- per-video display

  /**
   * The width of a video's approval bar, in percent: the approvals' share of
   * the stored votes, 0 without votes.
   */
  function ApprovalBarWidth(v: VideoWithEngagements): (w: real)
    ensures 0.0 <= w <= 100.0
    ensures v.stats.totalApprovals + v.stats.totalDisapprovals == 0 ==> w == 0.0
    ensures v.stats.totalApprovals + v.stats.totalDisapprovals > 0 ==>
      w * (v.stats.totalApprovals + v.stats.totalDisapprovals) as real == 100.0 * v.stats.totalApprovals as real
  {
    var a, d := v.stats.totalApprovals, v.stats.totalDisapprovals;
    if a + d > 0 then ApprovalRateShare(a, d); ApprovalRate(a, d) else ApprovalRate(a, d)
  }

  datatype Badge = BadgeSuccess | BadgeError | BadgeInfo | BadgeWarning

  /** The feedback column: its badge text and colour. */
  function FeedbackBadge(v: Vote): (string, Badge) {
    match v
    case Approve => ("Approved", BadgeSuccess)
    case Disapprove => ("Concern", BadgeError)
    case NoVote => ("No Feedback", BadgeInfo)
  }

  /** The status column: its badge text and colour. */
  function StatusBadge(v: Vote): (string, Badge) {
    match v
    case Approve => ("Milestone Achieved", BadgeSuccess)
    case Disapprove => ("Needs Attention", BadgeError)
    case NoVote => ("In Progress", BadgeWarning)
  }

  /**
   * Each column tells the three votes apart by text and by colour; the two
   * columns agree on the colour of a vote except for a record without a vote.
   */
  lemma BadgesDistinguishVotes(v1: Vote, v2: Vote)
    ensures FeedbackBadge(v1).0 == FeedbackBadge(v2).0 <==> v1 == v2
    ensures FeedbackBadge(v1).1 == FeedbackBadge(v2).1 <==> v1 == v2
    ensures StatusBadge(v1).0 == StatusBadge(v2).0 <==> v1 == v2
    ensures StatusBadge(v1).1 == StatusBadge(v2).1 <==> v1 == v2
    ensures FeedbackBadge(v1).1 == StatusBadge(v1).1 <==> v1 != NoVote
  {
    assert "Approved"[0] != "Concern"[0] && "Concern"[0] != "No Feedback"[0] && "Approved"[0] != "No Feedback"[0];
    assert "Milestone Achieved"[0] != "Needs Attention"[0] && "Needs Attention"[0] != "In Progress"[0];
    assert "Milestone Achieved"[0] != "In Progress"[0];
  }

  /**
   * The approval or concern panel: the first five records of that vote, in
   * the order of the video's records.
   */
  function Panel(engs: seq<VideoEngagement>, v: Vote): (p: seq<VideoEngagement>)
    ensures |p| == Min(5, CountVote(engs, v))
    ensures forall i :: 0 <= i < |p| ==> p[i].vote == v && p[i] in engs
    ensures p == OfVote(engs, v)[..|p|]
  {
    var all := OfVote(engs, v);
    forall e | e in all ensures e in engs {
      OfVoteMembership(engs, v, e);
    }
    Take(all, 5)
  }

  /** A panel shows its empty message exactly when no record carries its vote. */
  lemma PanelEmpty(engs: seq<VideoEngagement>, v: Vote)
    ensures Panel(engs, v) == [] <==> forall i :: 0 <= i < |engs| ==> engs[i].vote != v
  {
    var p := Panel(engs, v);
    if p != [] {
      assert p[0] in engs;
      var i :| 0 <= i < |engs| && engs[i] == p[0];
      assert engs[i].vote == v;
    }
    if exists i :: 0 <= i < |engs| && engs[i].vote == v {
      var i :| 0 <= i < |engs| && engs[i].vote == v;
      OfVoteMembership(engs, v, engs[i]);
      assert |OfVote(engs, v)| > 0;
    }
  }

  /** No record appears in both panels. */
  lemma PanelsDisjoint(engs: seq<VideoEngagement>)
    ensures forall e :: e in Panel(engs, Approve) ==> e !in Panel(engs, Disapprove)
  {
  }

  // ---------------------------------------------------------------- users of the records

  /** `users.find(u => u.id === userId)`: the first user with that id. */
  function FindUser(users: seq<User>, userId: string): (r: Option<User>)
    ensures r.None? <==> forall i :: 0 <= i < |users| ==> users[i].id != userId
    ensures r.Some? ==> exists i :: 0 <= i < |users| && users[i] == r.value && r.value.id == userId &&
                                    forall j :: 0 <= j < i ==> users[j].id != userId
    decreases |users|
  {
    if users == [] then None
    else if users[0].id == userId then Some(users[0])
    else
      var r := FindUser(users[1..], userId);
      if r.Some? then
        var i :| 0 <= i < |users[1..]| && users[1..][i] == r.value && r.value.id == userId &&
                 forall j :: 0 <= j < i ==> users[1..][j].id != userId;
        assert users[i + 1] == r.value;
        r
      else r
  }

  /** `getUserName`: the first matching user's name, even an empty one; 'Unknown User' otherwise. */
  function UserName(users: seq<User>, userId: string): (name: string)
    ensures (forall i :: 0 <= i < |users| ==> users[i].id != userId) ==> name == "Unknown User"
    ensures forall i :: FirstWithId(users, userId, i) ==> name == users[i].name
  {
    match FindUser(users, userId)
    case Some(u) => FirstMatchIsFound(users, userId); u.name
    case None => "Unknown User"
  }

  /** `getUserPhone`: the first matching user's phone number; 'N/A' otherwise. */
  function UserPhone(users: seq<User>, userId: string): (phone: string)
    ensures (forall i :: 0 <= i < |users| ==> users[i].id != userId) ==> phone == "N/A"
    ensures forall i :: FirstWithId(users, userId, i) ==> phone == users[i].phoneNumber
  {
    match FindUser(users, userId)
    case Some(u) => FirstMatchIsFound(users, userId); u.phoneNumber
    case None => "N/A"
  }

  /** `users[i]` is the first user whose id is `userId`. */
  predicate FirstWithId(users: seq<User>, userId: string, i: int) {
    0 <= i < |users| && users[i].id == userId && forall j :: 0 <= j < i ==> users[j].id != userId
  }

  /** The first user with the id is the one `FindUser` returns. */
  lemma FirstMatchIsFound(users: seq<User>, userId: string)
    ensures forall i :: FirstWithId(users, userId, i) ==> FindUser(users, userId) == Some(users[i])
  {
    forall i | FirstWithId(users, userId, i)
      ensures FindUser(users, userId) == Some(users[i])
    {
      var r := FindUser(users, userId);
      var k :| 0 <= k < |users| && users[k] == r.value && r.value.id == userId &&
               forall j :: 0 <= j < k ==> users[j].id != userId;
      assert k == i;
    }
  }

  /**
   * A record's user is found exactly when the id is a key of the id index
   * the store helpers build; with one user per id both find the same user.
   */
  lemma FindUserAgreesWithIndex(users: seq<User>, userId: string)
    ensures FindUser(users, userId).Some? <==> userId in UserIndex(users)
    ensures (forall i, j :: 0 <= i < j < |users| ==> users[i].id != users[j].id) && userId in UserIndex(users) ==>
      FindUser(users, userId) == Some(UserIndex(users)[userId])
  {
    var index := UserIndex(users);
    if (forall i, j :: 0 <= i < j < |users| ==> users[i].id != users[j].id) && userId in index {
      var found := FindUser(users, userId).value;
      var i :| 0 <= i < |users| && users[i] == found && found.id == userId;
      var k :| 0 <= k < |users| && users[k] == index[userId];
      assert i == k;
    }
  }

  // ---------------------------------------------------------------- header

  function ViewsOf(v: VideoWithEngagements): nat { v.stats.totalViews }
  function ApprovalsOf(v: VideoWithEngagements): nat { v.stats.totalApprovals }
  function ConcernsOf(v: VideoWithEngagements): nat { v.stats.totalDisapprovals }
  function RateOf(v: VideoWithEngagements): real { v.engagementRate }

  /** The four header cards: total views, approvals and concerns, and the mean engagement rate. */
  datatype Overview = Overview(views: nat, approvals: nat, concerns: nat, averageEngagement: real)

  /** `sum / videos.length || 0`: the empty list's NaN shows as 0. */
  function OverviewOf(videos: seq<VideoWithEngagements>): Overview {
    Overview(SumOf(videos, ViewsOf), SumOf(videos, ApprovalsOf), SumOf(videos, ConcernsOf), Mean(Map(videos, RateOf)))
  }

  /**
   * A total is zero exactly when every video's counter is; the mean rate is
   * 0 without videos and lies in [0, 100] when no video has more votes than
   * views.
   */
  lemma OverviewMeaning(videos: seq<VideoWithEngagements>)
    ensures var o := OverviewOf(videos);
      && (o.views == 0 <==> forall i :: 0 <= i < |videos| ==> videos[i].stats.totalViews == 0)
      && (o.approvals == 0 <==> forall i :: 0 <= i < |videos| ==> videos[i].stats.totalApprovals == 0)
      && (o.concerns == 0 <==> forall i :: 0 <= i < |videos| ==> videos[i].stats.totalDisapprovals == 0)
      && (videos == [] ==> o.averageEngagement == 0.0)
  {
    SumOfZero(videos, ViewsOf);
    SumOfZero(videos, ApprovalsOf);
    SumOfZero(videos, ConcernsOf);
  }

  /** When no video has more votes than views, the mean engagement rate lies in [0, 100]. */
  lemma AverageEngagementBounds(videos: seq<VideoWithEngagements>)
    requires forall i :: 0 <= i < |videos| ==>
      videos[i].engagementRate == EngagementRate(videos[i].stats.totalApprovals + videos[i].stats.totalDisapprovals, videos[i].stats.totalViews)
    requires forall i :: 0 <= i < |videos| ==> videos[i].stats.totalApprovals + videos[i].stats.totalDisapprovals <= videos[i].stats.totalViews
    ensures 0.0 <= OverviewOf(videos).averageEngagement <= 100.0
  {
    MeanBounds(Map(videos, RateOf), 0.0, 100.0);
  }
}
