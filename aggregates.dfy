/**
 * The computations of `getVideoEngagementSummary`, `getDashboardStats` and
 * `getUserAnalytics` (src/lib/firestore.ts) over the records once fetched.
 * Fetching is not modelled: the fetched collections are parameters, and a
 * fetch that throws is the flag `failed`, which selects the fallback value
 * the `catch` branch returns. The current time is the parameter `midnight`.
 */
module Aggregates {

  import opened Types
  import opened Seqs
  import opened Sorting
  import opened Text
  import opened Tallies

  // ---------------------------------------------------------------- users by id

  /** The users keyed by document id, as the `reduce` into a record builds it: a later document wins. */
  function UserIndex(users: seq<User>): (index: map<string, User>)
    ensures forall id :: id in index <==> exists i :: 0 <= i < |users| && users[i].id == id
    ensures forall id :: id in index ==> index[id] in users && index[id].id == id
    decreases |users|
  {
    if users == [] then map[]
    else UserIndex(users[..|users| - 1])[users[|users| - 1].id := users[|users| - 1]]
  }

  /** No document after `users[i]` has its id. */
  predicate LastWithId(users: seq<User>, i: int) {
    0 <= i < |users| && forall j :: i < j < |users| ==> users[j].id != users[i].id
  }

  /** A later document wins: each id maps to the last document carrying it. */
  lemma {:induction false} UserIndexLastWins(users: seq<User>, i: int)
    requires LastWithId(users, i)
    ensures UserIndex(users)[users[i].id] == users[i]
    decreases |users|
  {
    if i < |users| - 1 {
      UserIndexLastWins(users[..|users| - 1], i);
    }
  }

  /** The user's name, or "Unknown User" when the id is unknown or the name is empty. */
  function DisplayName(index: map<string, User>, userId: string): (name: string)
    ensures name != ""
    ensures name != "Unknown User" ==> userId in index && name == index[userId].name
    ensures userId !in index ==> name == "Unknown User"
    ensures userId in index && index[userId].name != "" ==> name == index[userId].name
  {
    if userId in index && index[userId].name != "" then index[userId].name else "Unknown User"
  }

  // ---------------------------------------------------------------- per-video and per-user records

  /** The engagement records of one video. */
  function ForVideo(engs: seq<VideoEngagement>, videoId: string): seq<VideoEngagement> {
    Filter(engs, (e: VideoEngagement) => e.videoId == videoId)
  }

  /** The engagement records of one user. */
  function ForUser(engs: seq<VideoEngagement>, userId: string): seq<VideoEngagement> {
    Filter(engs, (e: VideoEngagement) => e.userId == userId)
  }

  /** The views one user gave, summed over their records. */
  function UserViews(engs: seq<VideoEngagement>, userId: string): nat {
    TotalViewCount(ForUser(engs, userId))
  }

  /** A user with no record has no views. */
  lemma NonViewerHasNoViews(engs: seq<VideoEngagement>, userId: string)
    requires userId !in ViewerIds(engs)
    ensures ForUser(engs, userId) == [] && UserViews(engs, userId) == 0
  {
    var mine := ForUser(engs, userId);
    if mine != [] {
      FilterMembership(engs, (e: VideoEngagement) => e.userId == userId, mine[0]);
      assert false;
    }
  }

  /** Adding one record adds its views to its own user and to no other. */
  lemma UserViewsStep(engs: seq<VideoEngagement>, i: nat, userId: string)
    requires i < |engs|
    ensures UserViews(engs[..i + 1], userId)
         == UserViews(engs[..i], userId) + (if engs[i].userId == userId then engs[i].viewCount else 0)
  {
    var p := (e: VideoEngagement) => e.userId == userId;
    FilterStep(engs, i, p);
    TotalViewCountAppend(Filter(engs[..i], p), if p(engs[i]) then [engs[i]] else []);
    assert TotalViewCount([engs[i]]) == engs[i].viewCount by {
      assert [engs[i]][..0] == [];
    }
  }

  /** One record more adds its user to the viewers. */
  lemma ViewerIdsStep(engs: seq<VideoEngagement>, i: nat)
    requires i < |engs|
    ensures ViewerIds(engs[..i + 1]) == ViewerIds(engs[..i]) + {engs[i].userId}
  {
    assert engs[..i + 1][..i] == engs[..i];
  }

  // ---------------------------------------------------------------- the leaderboard

  /** `totals` holds each viewer's views in `engs`, and `order` lists each viewer once. */
  ghost predicate Tallied(engs: seq<VideoEngagement>, totals: map<string, nat>, order: seq<string>) {
    && ListsKeys(order, totals)
    && totals.Keys == ViewerIds(engs)
    && CountsViews(engs, totals)
  }

  /** `order` lists each key of `totals` exactly once. */
  ghost predicate ListsKeys(order: seq<string>, totals: map<string, nat>) {
    NoDuplicates(order) && forall u :: u in order <==> u in totals
  }

  /** Each key of `totals` maps to that user's views in `engs`. */
  ghost predicate CountsViews(engs: seq<VideoEngagement>, totals: map<string, nat>) {
    forall u :: u in totals ==> totals[u] == UserViews(engs, u)
  }

  /** `acc[e.user_id] += e.view_count`, starting a missing entry at 0. */
  function Bumped(totals: map<string, nat>, e: VideoEngagement): (t: map<string, nat>)
    ensures t.Keys == totals.Keys + {e.userId}
  {
    if e.userId in totals then totals[e.userId := totals[e.userId] + e.viewCount]
    else totals[e.userId := e.viewCount]
  }

  /** The key order of the record after `Bumped`: a new key goes last. */
  function Extended(order: seq<string>, totals: map<string, nat>, e: VideoEngagement): seq<string> {
    if e.userId in totals then order else order + [e.userId]
  }

  lemma BumpedViews(engs: seq<VideoEngagement>, i: nat, totals: map<string, nat>)
    requires i < |engs| && totals.Keys == ViewerIds(engs[..i]) && CountsViews(engs[..i], totals)
    ensures CountsViews(engs[..i + 1], Bumped(totals, engs[i]))
  {
    var t := Bumped(totals, engs[i]);
    if engs[i].userId !in totals {
      NonViewerHasNoViews(engs[..i], engs[i].userId);
    }
    forall u | u in t ensures t[u] == UserViews(engs[..i + 1], u) {
      UserViewsStep(engs, i, u);
    }
  }

  /** Adding a key the order lacks keeps the order a duplicate-free listing of the keys. */
  lemma ExtendedKeys(order: seq<string>, totals: map<string, nat>, e: VideoEngagement)
    requires ListsKeys(order, totals)
    ensures ListsKeys(Extended(order, totals, e), Bumped(totals, e))
  {
  }

  lemma TallyStep(engs: seq<VideoEngagement>, i: nat, totals: map<string, nat>, order: seq<string>)
    requires i < |engs| && Tallied(engs[..i], totals, order)
    ensures Tallied(engs[..i + 1], Bumped(totals, engs[i]), Extended(order, totals, engs[i]))
  {
    BumpedViews(engs, i, totals);
    ViewerIdsStep(engs, i);
    ExtendedKeys(order, totals, engs[i]);
  }

  /** The record the `reduce` builds over `engs`, with its key order: a left fold of `Bumped`. */
  function Tally(engs: seq<VideoEngagement>): (map<string, nat>, seq<string>)
    decreases |engs|
  {
    if engs == [] then (map[], [])
    else
      var prev := Tally(engs[..|engs| - 1]);
      var e := engs[|engs| - 1];
      (Bumped(prev.0, e), Extended(prev.1, prev.0, e))
  }

  /** The fold over one more record of a prefix. */
  lemma TallyNext(engs: seq<VideoEngagement>, i: nat)
    requires i < |engs|
    ensures Tally(engs[..i + 1]) == (Bumped(Tally(engs[..i]).0, engs[i]), Extended(Tally(engs[..i]).1, Tally(engs[..i]).0, engs[i]))
  {
    assert engs[..i + 1][..i] == engs[..i];
  }

  /** The fold holds every viewer's views, and lists every viewer once. */
  lemma {:induction false} TallyIsTallied(engs: seq<VideoEngagement>)
    ensures Tallied(engs, Tally(engs).0, Tally(engs).1)
    decreases |engs|
  {
    if engs == [] {
      assert ViewerIds(engs) == {};
    } else {
      var n := |engs| - 1;
      TallyIsTallied(engs[..n]);
      TallyStep(engs, n, Tally(engs[..n]).0, Tally(engs[..n]).1);
      assert engs[..n + 1] == engs;
    }
  }

  /**
   * The per-user view totals of the `reduce` into `userEngagementMap`, and the
   * users in the order each was first seen. This is the order `Object.entries`
   * lists the keys in only when no user id is an array index such as "42";
   * such keys come first in JavaScript, in ascending numeric order.
   */
  method TallyViews(engs: seq<VideoEngagement>) returns (totals: map<string, nat>, order: seq<string>)
    ensures totals == Tally(engs).0 && order == Tally(engs).1
    ensures Tallied(engs, totals, order)
  {
    totals, order := map[], [];
    var i := 0;
    while i < |engs|
      invariant 0 <= i <= |engs|
      invariant totals == Tally(engs[..i]).0 && order == Tally(engs[..i]).1
    {
      var e := engs[i];
      TallyNext(engs, i);
      if e.userId in totals {
        totals := totals[e.userId := totals[e.userId] + e.viewCount];
      } else {
        totals := totals[e.userId := e.viewCount];
        order := order + [e.userId];
      }
      i := i + 1;
    }
    assert engs[..|engs|] == engs;
    TallyIsTallied(engs);
  }

  /** One leaderboard line. */
  datatype TopUser = TopUser(userId: string, userName: string, viewCount: nat)

  /** The comparator `([, a], [, b]) => b - a`: more views first. */
  function MoreViewed(x: (string, nat), y: (string, nat)): bool {
    x.1 >= y.1
  }

  lemma MoreViewedTotal()
    ensures TotalPreorder(MoreViewed)
  {
  }

  /** `u` has a line on the leaderboard. */
  predicate Ranked(top: seq<TopUser>, u: string) {
    exists i :: 0 <= i < |top| && top[i].userId == u
  }

  /**
   * What the top-five list promises, over the view totals `totals`: five
   * lines, or one per viewer when there are fewer; distinct viewers with their
   * own totals and display names; most views first; and nobody left off has
   * more views than the last line.
   */
  ghost predicate Leads(top: seq<TopUser>, totals: map<string, nat>, index: map<string, User>) {
    && |top| == Min(5, |totals.Keys|)
    && (forall i :: 0 <= i < |top| ==>
          && top[i].userId in totals
          && top[i].viewCount == totals[top[i].userId]
          && top[i].userName == DisplayName(index, top[i].userId))
    && (forall i, j :: 0 <= i < j < |top| ==> top[i].viewCount >= top[j].viewCount && top[i].userId != top[j].userId)
    && (forall u :: u in totals && !Ranked(top, u) ==> 0 < |top| && totals[u] <= top[|top| - 1].viewCount)
  }

  /** The leaderboard of a video's records: it leads the per-user view totals of those records. */
  ghost predicate IsLeaderboard(top: seq<TopUser>, engs: seq<VideoEngagement>, index: map<string, User>) {
    && |top| == Min(5, |ViewerIds(engs)|)
    && (forall i :: 0 <= i < |top| ==>
          && top[i].userId in ViewerIds(engs)
          && top[i].viewCount == UserViews(engs, top[i].userId)
          && top[i].userName == DisplayName(index, top[i].userId))
    && (forall i, j :: 0 <= i < j < |top| ==> top[i].viewCount >= top[j].viewCount && top[i].userId != top[j].userId)
    && (forall u :: u in ViewerIds(engs) && !Ranked(top, u) ==>
          0 < |top| && UserViews(engs, u) <= top[|top| - 1].viewCount)
  }

  /** Leading the tally of the records is leading the records. */
  lemma LeadsTallyLeads(top: seq<TopUser>, engs: seq<VideoEngagement>, totals: map<string, nat>, order: seq<string>, index: map<string, User>)
    requires Tallied(engs, totals, order) && Leads(top, totals, index)
    ensures IsLeaderboard(top, engs, index)
  {
  }

  /** `.slice(0, 5).map(([userId, viewCount]) => ({ userId, userName, viewCount }))`. */
  function TopFive(sorted: seq<(string, nat)>, index: map<string, User>): (top: seq<TopUser>)
    ensures |top| == Min(5, |sorted|)
    ensures forall i :: 0 <= i < |top| ==> top[i] == TopUser(sorted[i].0, DisplayName(index, sorted[i].0), sorted[i].1)
  {
    Map(Take(sorted, 5), (entry: (string, nat)) => TopUser(entry.0, DisplayName(index, entry.0), entry.1))
  }

  /** `sorted` lists every key of `totals` exactly once with its total, most views first. */
  ghost predicate Ranks(sorted: seq<(string, nat)>, totals: map<string, nat>) {
    && |sorted| == |totals.Keys|
    && (forall k :: 0 <= k < |sorted| ==> sorted[k].0 in totals && sorted[k].1 == totals[sorted[k].0])
    && (forall i, j :: 0 <= i < j < |sorted| ==> sorted[i].0 != sorted[j].0)
    && (forall u :: u in totals ==> exists j :: 0 <= j < |sorted| && sorted[j].0 == u)
    && Sorted(sorted, MoreViewed)
  }

  /** The entries `Object.entries` lists: one per key, in the given key order. */
  ghost predicate EntriesOf(entries: seq<(string, nat)>, totals: map<string, nat>, order: seq<string>) {
    |entries| == |order| && forall i :: 0 <= i < |order| ==> order[i] in totals && entries[i] == (order[i], totals[order[i]])
  }

  /** Entries over a duplicate-free key order never repeat. */
  lemma EntriesDistinct(entries: seq<(string, nat)>, totals: map<string, nat>, order: seq<string>)
    requires EntriesOf(entries, totals, order) && NoDuplicates(order)
    ensures NoDuplicates(entries)
  {
    forall i, j | 0 <= i < j < |entries| ensures entries[i] != entries[j] {
      assert order[i] != order[j];
    }
  }

  /** Reordered entries still pair keys with their totals, and still cover every key. */
  lemma PermutedEntries(entries: seq<(string, nat)>, sorted: seq<(string, nat)>, totals: map<string, nat>, order: seq<string>)
    requires EntriesOf(entries, totals, order) && multiset(sorted) == multiset(entries)
    requires forall u :: u in order <==> u in totals
    ensures forall k :: 0 <= k < |sorted| ==> sorted[k].0 in totals && sorted[k].1 == totals[sorted[k].0]
    ensures forall u :: u in totals ==> exists j :: 0 <= j < |sorted| && sorted[j].0 == u
  {
    forall k | 0 <= k < |sorted| ensures sorted[k].0 in totals && sorted[k].1 == totals[sorted[k].0] {
      assert sorted[k] in multiset(entries);
      var m :| 0 <= m < |entries| && entries[m] == sorted[k];
    }
    forall u | u in totals ensures exists j :: 0 <= j < |sorted| && sorted[j].0 == u {
      var m :| 0 <= m < |order| && order[m] == u;
      assert entries[m] in multiset(sorted);
    }
  }

  /** Sorting the tally entries by views ranks the viewers. */
  lemma SortedTallyRanks(entries: seq<(string, nat)>, totals: map<string, nat>, order: seq<string>)
    requires EntriesOf(entries, totals, order) && ListsKeys(order, totals)
    ensures Ranks(SortBy(entries, MoreViewed), totals)
  {
    var sorted := SortBy(entries, MoreViewed);
    SortByPermutes(entries, MoreViewed);
    MoreViewedTotal();
    SortBySorted(entries, MoreViewed);
    assert (set x | x in order) == totals.Keys;
    NoDuplicatesCardinality(order);
    EntriesDistinct(entries, totals, order);
    NoDuplicatesPermutation(entries, sorted);
    PermutedEntries(entries, sorted, totals, order);
    forall i, j | 0 <= i < j < |sorted| ensures sorted[i].0 != sorted[j].0 {
      assert sorted[i] != sorted[j];
    }
  }

  /** The first five of a ranking, named, come most views first, each viewer once. */
  lemma RankingHeadOrdered(sorted: seq<(string, nat)>, totals: map<string, nat>, index: map<string, User>, top: seq<TopUser>)
    requires Ranks(sorted, totals) && top == TopFive(sorted, index)
    ensures forall i, j :: 0 <= i < j < |top| ==> top[i].viewCount >= top[j].viewCount && top[i].userId != top[j].userId
  {
    forall i, j | 0 <= i < j < |top| ensures top[i].viewCount >= top[j].viewCount {
      assert MoreViewed(sorted[i], sorted[j]);
    }
  }

  /** Nobody after the first five of a ranking has more views than the fifth. */
  lemma RankingTailBelow(sorted: seq<(string, nat)>, totals: map<string, nat>, index: map<string, User>, top: seq<TopUser>)
    requires Ranks(sorted, totals) && top == TopFive(sorted, index)
    ensures forall u :: u in totals && !Ranked(top, u) ==> 0 < |top| && totals[u] <= top[|top| - 1].viewCount
  {
    var n := |top|;
    forall j | 0 <= j < n ensures Ranked(top, sorted[j].0) {
      assert top[j].userId == sorted[j].0;
    }
    forall u | u in totals && !Ranked(top, u)
      ensures 0 < n && totals[u] <= top[n - 1].viewCount
    {
      var j :| 0 <= j < |sorted| && sorted[j].0 == u;
      assert MoreViewed(sorted[n - 1], sorted[j]);
    }
  }

  /** The first five of a ranking, named, are viewers with their own totals and names. */
  lemma RankingHeadLines(sorted: seq<(string, nat)>, totals: map<string, nat>, index: map<string, User>, top: seq<TopUser>)
    requires Ranks(sorted, totals) && top == TopFive(sorted, index)
    ensures |top| == Min(5, |totals.Keys|)
    ensures forall i :: 0 <= i < |top| ==>
          && top[i].userId in totals
          && top[i].viewCount == totals[top[i].userId]
          && top[i].userName == DisplayName(index, top[i].userId)
  {
  }

  /** The first five of a ranking, named, lead the totals. */
  lemma RankingLeads(sorted: seq<(string, nat)>, totals: map<string, nat>, index: map<string, User>)
    requires Ranks(sorted, totals)
    ensures Leads(TopFive(sorted, index), totals, index)
  {
    var top := TopFive(sorted, index);
    RankingHeadLines(sorted, totals, index, top);
    RankingHeadOrdered(sorted, totals, index, top);
    RankingTailBelow(sorted, totals, index, top);
  }

  /** `Object.entries(totals)`, listed in the key order `order`. */
  function Entries(totals: map<string, nat>, order: seq<string>): (entries: seq<(string, nat)>)
    requires forall u :: u in order ==> u in totals
    ensures EntriesOf(entries, totals, order)
  {
    seq(|order|, i requires 0 <= i < |order| => (order[i], totals[order[i]]))
  }

  /** The first five of the sorted tally entries, named, are the leaderboard of the records. */
  lemma TallyLeaderboard(
    engs: seq<VideoEngagement>, totals: map<string, nat>, order: seq<string>, entries: seq<(string, nat)>, index: map<string, User>)
    requires Tallied(engs, totals, order) && EntriesOf(entries, totals, order)
    ensures IsLeaderboard(TopFive(SortBy(entries, MoreViewed), index), engs, index)
  {
    SortedTallyRanks(entries, totals, order);
    RankingLeads(SortBy(entries, MoreViewed), totals, index);
    LeadsTallyLeads(TopFive(SortBy(entries, MoreViewed), index), engs, totals, order, index);
  }

  /** The `topEngagedUsers` expression over one video's records: tally, list, sort, cut and name. */
  function LeaderboardOf(engs: seq<VideoEngagement>, index: map<string, User>): seq<TopUser> {
    var tally := Tally(engs);
    TallyIsTallied(engs);
    TopFive(SortBy(Entries(tally.0, tally.1), MoreViewed), index)
  }

  /** The expression computes what a leaderboard promises. */
  lemma LeaderboardOfLeads(engs: seq<VideoEngagement>, index: map<string, User>)
    ensures IsLeaderboard(LeaderboardOf(engs, index), engs, index)
  {
    var tally := Tally(engs);
    TallyIsTallied(engs);
    TallyLeaderboard(engs, tally.0, tally.1, Entries(tally.0, tally.1), index);
  }

  /**
   * The top five viewers of one video's records: tally the views per user,
   * sort the entries by views (ties keep the order of `TallyViews`) and keep five.
   */
  method TopEngagedUsers(engs: seq<VideoEngagement>, index: map<string, User>) returns (top: seq<TopUser>)
    ensures top == LeaderboardOf(engs, index)
    ensures IsLeaderboard(top, engs, index)
  {
    var totals, order := TallyViews(engs);
    var entries := Entries(totals, order);
    // `.sort(([, a], [, b]) => b - a)` on a fresh array of the entries
    var sorted := SortSeq(entries, MoreViewed);
    top := TopFive(sorted, index);
    LeaderboardOfLeads(engs, index);
  }

  // ---------------------------------------------------------------- engagement summary

  /** One entry of the engagement summary. */
  datatype VideoSummary = VideoSummary(
    videoId: string,
    totalViews: nat,
    uniqueViewers: nat,
    approvals: nat,
    disapprovals: nat,
    engagementRate: real,
    topEngagedUsers: seq<TopUser>)

  /** `s` is the summary of `video` given all engagement records and the users. */
  ghost predicate Summarizes(s: VideoSummary, video: VideoStats, engs: seq<VideoEngagement>, index: map<string, User>) {
    var mine := ForVideo(engs, video.videoId);
    && s.videoId == video.videoId
    && s.totalViews == video.totalViews
    && s.uniqueViewers == |ViewerIds(mine)|
    && s.approvals == CountVote(mine, Approve)
    && s.disapprovals == CountVote(mine, Disapprove)
    && s.engagementRate == EngagementRate(CountVote(mine, Approve) + CountVote(mine, Disapprove), video.totalViews)
    && IsLeaderboard(s.topEngagedUsers, mine, index)
  }

  /** A summary never counts more viewers, or more votes, than the video has records. */
  lemma SummaryBounds(s: VideoSummary, video: VideoStats, engs: seq<VideoEngagement>, index: map<string, User>)
    requires Summarizes(s, video, engs, index)
    ensures s.uniqueViewers <= |ForVideo(engs, video.videoId)|
    ensures s.approvals + s.disapprovals <= |ForVideo(engs, video.videoId)|
    ensures |s.topEngagedUsers| <= s.uniqueViewers
    ensures s.uniqueViewers == 0 <==> ForVideo(engs, video.videoId) == []
    ensures video.totalViews == 0 ==> s.engagementRate == 0.0
  {
    ViewersAtMostRecords(ForVideo(engs, video.videoId));
    VotesAtMostRecords(ForVideo(engs, video.videoId));
  }

  /** The object literal the `map` callback returns for `video`, around the leaderboard `top`. */
  function SummaryWith(video: VideoStats, engs: seq<VideoEngagement>, top: seq<TopUser>): VideoSummary {
    var mine := ForVideo(engs, video.videoId);
    var approvals, disapprovals := CountVote(mine, Approve), CountVote(mine, Disapprove);
    VideoSummary(video.videoId, video.totalViews, |ViewerIds(mine)|, approvals, disapprovals,
                 EngagementRate(approvals + disapprovals, video.totalViews), top)
  }

  /** The summary entry of `video`. */
  function SummaryOf(video: VideoStats, engs: seq<VideoEngagement>, index: map<string, User>): VideoSummary {
    SummaryWith(video, engs, LeaderboardOf(ForVideo(engs, video.videoId), index))
  }

  /** The entry is the summary of the video. */
  lemma SummaryOfSummarizes(video: VideoStats, engs: seq<VideoEngagement>, index: map<string, User>)
    ensures Summarizes(SummaryOf(video, engs, index), video, engs, index)
  {
    LeaderboardOfLeads(ForVideo(engs, video.videoId), index);
  }

  method SummarizeVideo(video: VideoStats, engs: seq<VideoEngagement>, index: map<string, User>) returns (s: VideoSummary)
    ensures s == SummaryOf(video, engs, index)
  {
    var top := TopEngagedUsers(ForVideo(engs, video.videoId), index);
    s := SummaryWith(video, engs, top);
  }

  /** The summary of one `video_stats` document, as a value that `map` can apply. */
  function SummaryFn(engs: seq<VideoEngagement>, index: map<string, User>): VideoStats -> VideoSummary {
    (video: VideoStats) => SummaryOf(video, engs, index)
  }

  /** `videoStats.map(...)`: one summary per document, in document order. */
  function Summaries(stats: seq<VideoStats>, engs: seq<VideoEngagement>, index: map<string, User>): (r: seq<VideoSummary>)
    ensures |r| == |stats|
    ensures forall i :: 0 <= i < |stats| ==> r[i] == SummaryOf(stats[i], engs, index)
  {
    Map(stats, SummaryFn(engs, index))
  }

  /**
   * `getVideoEngagementSummary`: one summary per `video_stats` document, in
   * document order, or none when a fetch fails.
   */
  method EngagementSummary(stats: seq<VideoStats>, engs: seq<VideoEngagement>, users: seq<User>, failed: bool)
    returns (summary: seq<VideoSummary>)
    ensures failed ==> summary == []
    ensures !failed ==> summary == Summaries(stats, engs, UserIndex(users))
  {
    summary := [];
    if failed {
      return;
    }
    var index := UserIndex(users);
    var i := 0;
    while i < |stats|
      invariant 0 <= i <= |stats|
      invariant summary == Map(stats[..i], SummaryFn(engs, index))
    {
      var s := SummarizeVideo(stats[i], engs, index);
      MapStep(stats, i, SummaryFn(engs, index));
      summary := summary + [s];
      i := i + 1;
    }
    assert stats[..|stats|] == stats;
  }

  // ---------------------------------------------------------------- dashboard statistics

  /** A `video_stats` document as the dashboard reads it: any counter may be missing. */
  datatype StatsDoc = StatsDoc(totalViews: Option<nat>, totalApprovals: Option<nat>, totalDisapprovals: Option<nat>)

  datatype DashboardStats = DashboardStats(
    totalUsers: nat,
    totalVideos: nat,
    totalViews: nat,
    totalEngagements: nat,
    activeUsersToday: nat,
    averageVideoRating: real)

  /** `docs.reduce((sum, d) => sum + (field(d) || 0), 0)`. */
  function SumCounter(docs: seq<StatsDoc>, field: StatsDoc -> Option<nat>): nat
    decreases |docs|
  {
    if docs == [] then 0 else SumCounter(docs[..|docs| - 1], field) + field(docs[|docs| - 1]).GetOr(0)
  }

  /** A document without the counter adds nothing to its sum; one with it adds its value. */
  lemma SumCounterAppend(docs: seq<StatsDoc>, doc: StatsDoc, field: StatsDoc -> Option<nat>)
    ensures field(doc).None? ==> SumCounter(docs + [doc], field) == SumCounter(docs, field)
    ensures field(doc).Some? ==> SumCounter(docs + [doc], field) == SumCounter(docs, field) + field(doc).value
  {
    assert (docs + [doc])[..|docs|] == docs;
  }

  /** Documents without any counter leave every sum at zero. */
  lemma {:induction false} SumCounterAllMissing(docs: seq<StatsDoc>, field: StatsDoc -> Option<nat>)
    requires forall i :: 0 <= i < |docs| ==> field(docs[i]).None?
    ensures SumCounter(docs, field) == 0
    decreases |docs|
  {
    if docs != [] {
      SumCounterAllMissing(docs[..|docs| - 1], field);
    }
  }

  /** `last_active` is set and not before today's midnight. */
  predicate ActiveSince(u: User, midnight: int) {
    u.lastActive.Some? && u.lastActive.value >= midnight
  }

  function ActiveUsers(users: seq<User>, midnight: int): seq<User> {
    Filter(users, (u: User) => ActiveSince(u, midnight))
  }

  const NoStats := DashboardStats(0, 0, 0, 0, 0, 0.0)

  /** `getDashboardStats`: counts, sums and the share of approvals over all votes. */
  function DashboardStatsOf(users: seq<User>, docs: seq<StatsDoc>, engs: seq<VideoEngagement>, midnight: int, failed: bool)
    : (d: DashboardStats)
    ensures failed ==> d == NoStats
    ensures !failed ==> d.totalUsers == |users| && d.totalVideos == |docs| && d.totalEngagements == |engs|
    ensures !failed ==> d.totalViews == SumCounter(docs, (x: StatsDoc) => x.totalViews)
    ensures d.activeUsersToday <= d.totalUsers
    ensures 0.0 <= d.averageVideoRating <= 100.0
    ensures !failed ==>
      d.averageVideoRating ==
      ApprovalRate(SumCounter(docs, (x: StatsDoc) => x.totalApprovals), SumCounter(docs, (x: StatsDoc) => x.totalDisapprovals))
  {
    if failed then NoStats
    else
      var approvals := SumCounter(docs, (x: StatsDoc) => x.totalApprovals);
      var disapprovals := SumCounter(docs, (x: StatsDoc) => x.totalDisapprovals);
      DashboardStats(
        |users|, |docs|, SumCounter(docs, (x: StatsDoc) => x.totalViews), |engs|,
        |ActiveUsers(users, midnight)|, ApprovalRate(approvals, disapprovals))
  }

  /** The active count covers exactly the users active since midnight, each as often as listed. */
  lemma ActiveUsersCounted(users: seq<User>, docs: seq<StatsDoc>, engs: seq<VideoEngagement>, midnight: int, u: User)
    ensures multiset(ActiveUsers(users, midnight))[u] == if ActiveSince(u, midnight) then multiset(users)[u] else 0
    ensures DashboardStatsOf(users, docs, engs, midnight, false).activeUsersToday == |ActiveUsers(users, midnight)|
  {
    FilterCounts(users, (x: User) => ActiveSince(x, midnight), u);
  }

  /**
   * The rating is the approvals' share of all votes, as a percentage: zero
   * exactly when nothing was approved, and 100 exactly when something was
   * and nothing was disapproved.
   */
  lemma AverageRatingExtremes(users: seq<User>, docs: seq<StatsDoc>, engs: seq<VideoEngagement>, midnight: int)
    ensures var d := DashboardStatsOf(users, docs, engs, midnight, false);
      && (d.averageVideoRating == 0.0 <==> SumCounter(docs, (x: StatsDoc) => x.totalApprovals) == 0)
      && (d.averageVideoRating == 100.0 <==>
            SumCounter(docs, (x: StatsDoc) => x.totalApprovals) > 0
            && SumCounter(docs, (x: StatsDoc) => x.totalDisapprovals) == 0)
    ensures var a, d := SumCounter(docs, (x: StatsDoc) => x.totalApprovals), SumCounter(docs, (x: StatsDoc) => x.totalDisapprovals);
      a + d > 0 ==> DashboardStatsOf(users, docs, engs, midnight, false).averageVideoRating * (a + d) as real == 100.0 * a as real
  {
    var a, d := SumCounter(docs, (x: StatsDoc) => x.totalApprovals), SumCounter(docs, (x: StatsDoc) => x.totalDisapprovals);
    if a + d > 0 {
      ApprovalRateShare(a, d);
    }
  }

  // ---------------------------------------------------------------- user analytics

  /** The start of the three-month band holding month `m`: `Math.floor(m / 3) * 3`. */
  function BandStart(m: nat): (k: nat)
    ensures k % 3 == 0 && k <= m < k + 3
  {
    m / 3 * 3
  }

  /** The text `${k}-${k + 3} months`. */
  function AgeRangeText(k: nat): (t: string)
    ensures t != [] && '0' <= t[0] <= '9'
  {
    NatToString(k) + "-" + NatToString(k + 3) + " months"
  }

  /** Two band texts are equal only for the same band start: the text determines the band. */
  lemma AgeRangeTextInjective(k1: nat, k2: nat)
    requires AgeRangeText(k1) == AgeRangeText(k2)
    ensures k1 == k2
  {
    var a1, a2 := NatToString(k1), NatToString(k2);
    var r1, r2 := "-" + NatToString(k1 + 3) + " months", "-" + NatToString(k2 + 3) + " months";
    assert AgeRangeText(k1) == a1 + r1 && AgeRangeText(k2) == a2 + r2;
    DigitPrefixUnique(a1, r1, a2, r2);
    NatToStringRoundTrip(k1);
    NatToStringRoundTrip(k2);
  }

  /**
   * `profile?.child_age_months ? ... : 'Unknown'`: the age band in months, or
   * "Unknown" without a profile, without an age, or for the age 0 (falsy).
   */
  function AgeGroup(profile: Option<UserProfile>): (group: string)
    ensures group == "Unknown" <==> profile.None? || profile.value.childAgeMonths.GetOr(0) == 0
  {
    if profile.Some? && profile.value.childAgeMonths.Some? && profile.value.childAgeMonths.value != 0 then
      AgeRangeText(BandStart(profile.value.childAgeMonths.value))
    else "Unknown"
  }

  /** Two known ages get the same band text exactly when they fall in the same three months. */
  lemma AgeGroupSameBand(p1: UserProfile, p2: UserProfile, m1: nat, m2: nat)
    requires p1.childAgeMonths == Some(m1) && p2.childAgeMonths == Some(m2) && m1 > 0 && m2 > 0
    ensures AgeGroup(Some(p1)) == AgeGroup(Some(p2)) <==> m1 / 3 == m2 / 3
  {
    if AgeGroup(Some(p1)) == AgeGroup(Some(p2)) {
      AgeRangeTextInjective(BandStart(m1), BandStart(m2));
    }
  }

  datatype DevelopmentProgress = DevelopmentProgress(
    ageGroup: string,
    completedMilestones: nat,
    totalMilestones: nat,
    concerns: seq<string>)

  datatype UserAnalytics = UserAnalytics(
    user: User,
    profile: Option<UserProfile>,
    videoEngagements: seq<VideoEngagement>,
    totalWatchTime: nat,
    favoriteCategories: seq<string>,
    developmentProgress: DevelopmentProgress)

  /** The fixed list the analytics return in place of computed favourite categories. */
  const FavoriteCategories := ["Motor Skills", "Communication", "Cognitive Development"]

  /**
   * `getUserAnalytics(userId)`: nothing when a fetch fails or the user is
   * unknown; otherwise the user's own records (those of `allEngs` with their
   * id), their view total, and progress read off their votes: approvals are
   * completed milestones, disapproved videos are concerns.
   */
  function UserAnalyticsOf(
    userId: string, user: Option<User>, profile: Option<UserProfile>, allEngs: seq<VideoEngagement>, failed: bool)
    : (r: Option<UserAnalytics>)
    ensures r.None? <==> failed || user.None?
    ensures r.Some? ==>
      && r.value.user == user.value
      && r.value.profile == profile
      && r.value.videoEngagements == ForUser(allEngs, userId)
      && r.value.totalWatchTime == TotalViewCount(ForUser(allEngs, userId))
      && r.value.developmentProgress.ageGroup == AgeGroup(profile)
      && r.value.developmentProgress.completedMilestones == CountVote(ForUser(allEngs, userId), Approve)
      && r.value.developmentProgress.totalMilestones == |ForUser(allEngs, userId)|
  {
    if failed || user.None? then None
    else
      var engs := ForUser(allEngs, userId);
      var progress := DevelopmentProgress(
        AgeGroup(profile),
        CountVote(engs, Approve),
        |engs|,
        Map(OfVote(engs, Disapprove), (e: VideoEngagement) => e.videoId));
      Some(UserAnalytics(user.value, profile, engs, TotalViewCount(engs), FavoriteCategories, progress))
  }

  /**
   * The progress figures: completed milestones and concerns together never
   * exceed the milestones, which are the user's records; each concern is the
   * video of one of the user's disapprovals, in record order.
   */
  lemma ProgressBounds(
    userId: string, user: Option<User>, profile: Option<UserProfile>, allEngs: seq<VideoEngagement>, failed: bool)
    requires !failed && user.Some?
    ensures var p := UserAnalyticsOf(userId, user, profile, allEngs, failed).value.developmentProgress;
      var engs := ForUser(allEngs, userId);
      && p.totalMilestones == |engs|
      && p.completedMilestones == CountVote(engs, Approve)
      && p.completedMilestones + |p.concerns| <= p.totalMilestones
      && |p.concerns| == CountVote(engs, Disapprove)
      && (forall i :: 0 <= i < |p.concerns| ==> p.concerns[i] == OfVote(engs, Disapprove)[i].videoId)
  {
    VotesAtMostRecords(ForUser(allEngs, userId));
  }

  /** Every record in the analytics belongs to the user, and every record of the user is in it. */
  lemma AnalyticsRecordsAreTheUsers(
    userId: string, user: Option<User>, profile: Option<UserProfile>, allEngs: seq<VideoEngagement>, e: VideoEngagement)
    requires user.Some?
    ensures e in UserAnalyticsOf(userId, user, profile, allEngs, false).value.videoEngagements
        <==> e in allEngs && e.userId == userId
  {
    FilterMembership(allEngs, (x: VideoEngagement) => x.userId == userId, e);
  }
}
