/**
 * The recent-activity feed of the overview page (src/components/RecentActivity.tsx):
 * registrations of the last seven days and engagements of the last day
 * become activity items, pushed one by one onto a list that is then sorted
 * newest first and cut to eight entries.
 */
module RecentActivity {

  import opened Types
  import opened Seqs
  import opened Sorting
  import opened Aggregates
  import opened Catalog

  datatype ActivityType = UserRegistration | VideoView | VideoApproval | VideoDisapproval | MessageSent

  /** One line of the feed; `timestamp` is in milliseconds. */
  datatype ActivityItem = ActivityItem(
    id: string,
    kind: ActivityType,
    user: string,
    description: string,
    timestamp: int,
    videoId: Option<string>)

  /** Seven days and one day, in milliseconds. */
  const WeekMs: int := 7 * 24 * 60 * 60 * 1000
  const DayMs: int := 24 * 60 * 60 * 1000

  // ---------------------------------------------------------------- recent users

  /** A registration date strictly after `now` minus seven days. */
  predicate RegisteredSince(u: User, now: int) {
    u.createdAt.Some? && u.createdAt.value > now - WeekMs
  }

  function RegisteredSinceFn(now: int): User -> bool {
    (u: User) => RegisteredSince(u, now)
  }

  /** `(b.created_at?.getTime() || 0) - (a.created_at?.getTime() || 0) <= 0`. */
  function NewerUser(a: User, b: User): bool {
    a.createdAt.GetOr(0) >= b.createdAt.GetOr(0)
  }

  /** `recentUsers`: the users registered in the last week, newest first, at most three. */
  function RecentUsers(users: seq<User>, now: int): seq<User> {
    Take(SortBy(Filter(users, RegisteredSinceFn(now)), NewerUser), 3)
  }

  /** The item of one recent user, pushed only when the user has a registration date. */
  function UserItems(u: User): seq<ActivityItem> {
    if u.createdAt.Some? then [ActivityItem("user-" + u.id, UserRegistration, u.name, "New user registered", u.createdAt.value, None)]
    else []
  }

  /** The items of a list of users, in list order. */
  function AllUserItems(us: seq<User>): seq<ActivityItem>
    decreases |us|
  {
    if us == [] then [] else AllUserItems(us[..|us| - 1]) + UserItems(us[|us| - 1])
  }

  // ---------------------------------------------------------------- recent engagements

  /** A view strictly after `now` minus one day. */
  predicate ViewedSince(e: VideoEngagement, now: int) {
    e.lastViewed > now - DayMs
  }

  function ViewedSinceFn(now: int): VideoEngagement -> bool {
    (e: VideoEngagement) => ViewedSince(e, now)
  }

  /** `b.last_viewed.getTime() - a.last_viewed.getTime() <= 0`. */
  function NewerEngagement(a: VideoEngagement, b: VideoEngagement): bool {
    a.lastViewed >= b.lastViewed
  }

  /** `recentEngagements`: the records viewed in the last day, newest first, at most ten. */
  function RecentEngagements(engs: seq<VideoEngagement>, now: int): seq<VideoEngagement> {
    Take(SortBy(Filter(engs, ViewedSinceFn(now)), NewerEngagement), 10)
  }

  /**
   * The items of one record whose user is known: a view, then an approval or
   * a concern when the record carries that vote. `names` gives a video's
   * display name; the feed uses the catalogue's `VideoName`.
   */
  function EngagementItems(e: VideoEngagement, index: map<string, User>, names: string -> string): seq<ActivityItem> {
    if e.userId !in index then []
    else
      var name, videoName := index[e.userId].name, names(e.videoId);
      var suffix := e.videoId + "-" + e.userId;
      [ActivityItem("view-" + suffix, VideoView, name, "Viewed \"" + videoName + "\"", e.lastViewed, Some(e.videoId))]
      + match e.vote
        case Approve => [ActivityItem("approve-" + suffix, VideoApproval, name, "Approved \"" + videoName + "\"", e.lastViewed, Some(e.videoId))]
        case Disapprove => [ActivityItem("disapprove-" + suffix, VideoDisapproval, name, "Marked concerns for \"" + videoName + "\"", e.lastViewed, Some(e.videoId))]
        case NoVote => []
  }

  /** The items of a list of records, in list order. */
  function AllEngagementItems(es: seq<VideoEngagement>, index: map<string, User>, names: string -> string): seq<ActivityItem>
    decreases |es|
  {
    if es == [] then [] else AllEngagementItems(es[..|es| - 1], index, names) + EngagementItems(es[|es| - 1], index, names)
  }

  // ---------------------------------------------------------------- the feed

  /** `b.timestamp - a.timestamp <= 0`. */
  function NewerItem(a: ActivityItem, b: ActivityItem): bool {
    a.timestamp >= b.timestamp
  }

  /** `activityItems` before the final sort: registrations first, then engagement items. */
  function PendingItems(users: seq<User>, engs: seq<VideoEngagement>, now: int, names: string -> string): seq<ActivityItem> {
    AllUserItems(RecentUsers(users, now)) + AllEngagementItems(RecentEngagements(engs, now), UserIndex(users), names)
  }

  /** The newest eight items, or nothing when a fetch failed. */
  function FeedWith(users: seq<User>, engs: seq<VideoEngagement>, now: int, failed: bool, names: string -> string): seq<ActivityItem> {
    if failed then [] else Take(SortBy(PendingItems(users, engs, now, names), NewerItem), 8)
  }

  /** The feed shown, with the videos named from the catalogue. */
  function Feed(users: seq<User>, engs: seq<VideoEngagement>, now: int, failed: bool): seq<ActivityItem> {
    FeedWith(users, engs, now, failed, VideoName)
  }

  lemma AllUserItemsStep(us: seq<User>, i: nat)
    requires i < |us|
    ensures AllUserItems(us[..i + 1]) == AllUserItems(us[..i]) + UserItems(us[i])
  {
    assert us[..i + 1][..i] == us[..i];
  }

  lemma AllEngagementItemsStep(es: seq<VideoEngagement>, i: nat, index: map<string, User>, names: string -> string)
    requires i < |es|
    ensures AllEngagementItems(es[..i + 1], index, names) == AllEngagementItems(es[..i], index, names) + EngagementItems(es[i], index, names)
  {
    assert es[..i + 1][..i] == es[..i];
  }

  /** The `forEach` over the recent users: one push per user with a registration date. */
  method PushUserItems(recentUsers: seq<User>) returns (items: seq<ActivityItem>)
    ensures items == AllUserItems(recentUsers)
  {
    items := [];
    var i := 0;
    while i < |recentUsers|
      invariant 0 <= i <= |recentUsers|
      invariant items == AllUserItems(recentUsers[..i])
    {
      var u := recentUsers[i];
      AllUserItemsStep(recentUsers, i);
      if u.createdAt.Some? {
        items := items + [ActivityItem("user-" + u.id, UserRegistration, u.name, "New user registered", u.createdAt.value, None)];
      }
      i := i + 1;
    }
    assert recentUsers[..i] == recentUsers;
  }

  /** The pushes for one record: a view, then an approval or a concern, for a known user only. */
  method PushRecordItems(start: seq<ActivityItem>, e: VideoEngagement, userMap: map<string, User>, names: string -> string)
    returns (items: seq<ActivityItem>)
    ensures items == start + EngagementItems(e, userMap, names)
  {
    items := start;
    if e.userId in userMap {
      var name, videoName := userMap[e.userId].name, names(e.videoId);
      var suffix := e.videoId + "-" + e.userId;
      items := items + [ActivityItem("view-" + suffix, VideoView, name, "Viewed \"" + videoName + "\"", e.lastViewed, Some(e.videoId))];
      if e.vote == Approve {
        items := items + [ActivityItem("approve-" + suffix, VideoApproval, name, "Approved \"" + videoName + "\"", e.lastViewed, Some(e.videoId))];
      } else if e.vote == Disapprove {
        items := items + [ActivityItem("disapprove-" + suffix, VideoDisapproval, name, "Marked concerns for \"" + videoName + "\"", e.lastViewed, Some(e.videoId))];
      }
    }
  }

  /** The `forEach` over the recent records: pushes each record's items after those already there. */
  method PushEngagementItems(start: seq<ActivityItem>, recentEngs: seq<VideoEngagement>, userMap: map<string, User>, names: string -> string)
    returns (items: seq<ActivityItem>)
    ensures items == start + AllEngagementItems(recentEngs, userMap, names)
  {
    items := start;
    var j := 0;
    while j < |recentEngs|
      invariant 0 <= j <= |recentEngs|
      invariant items == start + AllEngagementItems(recentEngs[..j], userMap, names)
    {
      ghost var done := AllEngagementItems(recentEngs[..j], userMap, names);
      ghost var next := EngagementItems(recentEngs[j], userMap, names);
      AllEngagementItemsStep(recentEngs, j, userMap, names);
      items := PushRecordItems(items, recentEngs[j], userMap, names);
      assert items == start + (done + next);
      j := j + 1;
    }
    assert recentEngs[..j] == recentEngs;
  }

  /**
   * `loadRecentActivity`: builds the item list by pushing, user by user and
   * record by record, then sorts it newest first and keeps eight.
   */
  method LoadRecentActivity(users: seq<User>, engs: seq<VideoEngagement>, now: int, failed: bool)
    returns (feed: seq<ActivityItem>)
    ensures feed == Feed(users, engs, now, failed)
  {
    if failed {
      return [];
    }
    var userMap := UserIndex(users);
    var recentUsers := SortSeq(Filter(users, RegisteredSinceFn(now)), NewerUser);
    recentUsers := Take(recentUsers, 3);
    var items := PushUserItems(recentUsers);
    var recentEngs := SortSeq(Filter(engs, ViewedSinceFn(now)), NewerEngagement);
    recentEngs := Take(recentEngs, 10);
    items := PushEngagementItems(items, recentEngs, userMap, VideoName);
    feed := SortSeq(items, NewerItem);
    feed := Take(feed, 8);
  }

  // ---------------------------------------------------------------- properties

  /**
   * The registrations considered: at most three users, each registered in
   * the last week and taken from the input, newest first; a recent user
   * left out registered no later than the last one kept.
   */
  lemma RecentUsersMeaning(users: seq<User>, now: int)
    ensures var sorted := SortBy(Filter(users, RegisteredSinceFn(now)), NewerUser);
      var recent := RecentUsers(users, now);
      && |recent| <= 3
      && recent == sorted[..|recent|]
      && (forall u :: multiset(sorted)[u] == if RegisteredSince(u, now) then multiset(users)[u] else 0)
      && (forall i :: 0 <= i < |sorted| ==> RegisteredSince(sorted[i], now))
      && (forall i, j :: 0 <= i < j < |recent| ==> recent[i].createdAt.GetOr(0) >= recent[j].createdAt.GetOr(0))
      && (forall j :: |recent| <= j < |sorted| ==> sorted[j].createdAt.GetOr(0) <= recent[|recent| - 1].createdAt.GetOr(0))
  {
    FilterSortTake(users, RegisteredSinceFn(now), NewerUser, 3);
  }

  /**
   * The records considered: at most ten, each viewed in the last day and
   * taken from the input, newest first; a recent record left out was viewed
   * no later than the last one kept.
   */
  lemma RecentEngagementsMeaning(engs: seq<VideoEngagement>, now: int)
    ensures var sorted := SortBy(Filter(engs, ViewedSinceFn(now)), NewerEngagement);
      var recent := RecentEngagements(engs, now);
      && |recent| <= 10
      && recent == sorted[..|recent|]
      && (forall e :: multiset(sorted)[e] == if ViewedSince(e, now) then multiset(engs)[e] else 0)
      && (forall i :: 0 <= i < |sorted| ==> ViewedSince(sorted[i], now))
      && (forall i, j :: 0 <= i < j < |recent| ==> recent[i].lastViewed >= recent[j].lastViewed)
      && (forall j :: |recent| <= j < |sorted| ==> sorted[j].lastViewed <= recent[|recent| - 1].lastViewed)
  {
    FilterSortTake(engs, ViewedSinceFn(now), NewerEngagement, 10);
  }

  /**
   * A record of an unknown user gives no item; one of a known user gives a
   * view item, plus one approval or concern item when it carries that vote.
   * Every item names the record's video and carries its view time.
   */
  lemma EngagementItemsShape(e: VideoEngagement, index: map<string, User>, names: string -> string)
    ensures var items := EngagementItems(e, index, names);
      && |items| == (if e.userId !in index then 0 else if e.vote == NoVote then 1 else 2)
      && (forall k :: 0 <= k < |items| ==> items[k].timestamp == e.lastViewed && items[k].videoId == Some(e.videoId))
      && (forall k :: 0 <= k < |items| ==> items[k].user == index[e.userId].name)
      && (|items| > 0 ==> items[0].kind == VideoView && items[0].id == "view-" + e.videoId + "-" + e.userId)
      && (|items| > 1 ==> items[1].kind == (if e.vote == Approve then VideoApproval else VideoDisapproval))
      && (|items| > 1 && e.vote == Approve ==> items[1].id == "approve-" + e.videoId + "-" + e.userId)
      && (|items| > 1 && e.vote == Disapprove ==> items[1].id == "disapprove-" + e.videoId + "-" + e.userId)
  {
  }

  /** A recent user with a registration date gives one item, named after its id and dated at registration. */
  lemma UserItemsShape(u: User)
    requires u.createdAt.Some?
    ensures UserItems(u) == [ActivityItem("user-" + u.id, UserRegistration, u.name, "New user registered", u.createdAt.value, None)]
    ensures |UserItems(u)| == 1 && UserItems(u)[0].timestamp == u.createdAt.value
  {
  }

  lemma {:induction false} AllUserItemsBound(us: seq<User>)
    ensures |AllUserItems(us)| <= |us|
    decreases |us|
  {
    if us != [] {
      AllUserItemsBound(us[..|us| - 1]);
    }
  }

  lemma {:induction false} AllEngagementItemsBound(es: seq<VideoEngagement>, index: map<string, User>, names: string -> string)
    ensures |AllEngagementItems(es, index, names)| <= 2 * |es|
    decreases |es|
  {
    if es != [] {
      AllEngagementItemsBound(es[..|es| - 1], index, names);
      EngagementItemsShape(es[|es| - 1], index, names);
    }
  }

  /** Before the cut there are at most 3 + 2 * 10 items. */
  lemma PendingBound(users: seq<User>, engs: seq<VideoEngagement>, now: int, names: string -> string)
    ensures |PendingItems(users, engs, now, names)| <= 3 + 2 * 10
  {
    AllUserItemsBound(RecentUsers(users, now));
    AllEngagementItemsBound(RecentEngagements(engs, now), UserIndex(users), names);
  }

  /**
   * The feed has at most eight items, newest first, each one of the pending
   * items; no pending item left out is newer than the last one shown; a
   * failed fetch shows nothing.
   */
  lemma FeedMeaning(users: seq<User>, engs: seq<VideoEngagement>, now: int, failed: bool, names: string -> string)
    ensures failed ==> FeedWith(users, engs, now, failed, names) == []
    ensures var feed := FeedWith(users, engs, now, failed, names);
      var sorted := SortBy(PendingItems(users, engs, now, names), NewerItem);
      !failed ==>
        && |feed| <= 8
        && feed == sorted[..|feed|]
        && multiset(sorted) == multiset(PendingItems(users, engs, now, names))
        && (forall i, j :: 0 <= i < j < |feed| ==> feed[i].timestamp >= feed[j].timestamp)
        && (forall j :: |feed| <= j < |sorted| ==> sorted[j].timestamp <= feed[|feed| - 1].timestamp)
  {
    var pending := PendingItems(users, engs, now, names);
    SortByPermutes(pending, NewerItem);
    SortBySorted(pending, NewerItem);
    TakeOfSorted(SortBy(pending, NewerItem), 8, NewerItem);
  }
}
