/**
 * The users table (src/app/users/page.tsx): per-user engagement statistics,
 * then the search box and the sort selector applied to them.
 */
module UsersPage {

  import opened Types
  import opened Seqs
  import opened Sorting
  import opened Text
  import opened Tallies
  import opened Aggregates

  /** A user with the statistics the table shows. */
  datatype UserWithStats = UserWithStats(
    user: User,
    totalEngagements: nat,
    approvalRate: real,
    lastVideoWatched: string)

  /** The statistics of one user from their engagement records, as the store returns them. */
  function WithStats(user: User, engs: seq<VideoEngagement>): UserWithStats {
    var approvals := CountVote(engs, Approve);
    var disapprovals := CountVote(engs, Disapprove);
    UserWithStats(
      user,
      |engs|,
      ApprovalRate(approvals, disapprovals),
      if |engs| > 0 then engs[0].videoId else "None")
  }

  /**
   * The rate is a percentage of the user's votes; there are no more votes
   * than records; the last video watched is the first record's video, or
   * 'None' for a user without records.
   */
  lemma WithStatsMeaning(user: User, engs: seq<VideoEngagement>)
    ensures var u := WithStats(user, engs);
      && u.user == user
      && u.totalEngagements == |engs|
      && 0.0 <= u.approvalRate <= 100.0
      && (u.approvalRate == 0.0 <==> CountVote(engs, Approve) == 0)
      && CountVote(engs, Approve) + CountVote(engs, Disapprove) <= u.totalEngagements
      && (engs == [] ==> u.lastVideoWatched == "None")
      && (engs != [] ==> u.lastVideoWatched == engs[0].videoId)
    ensures var a, d := CountVote(engs, Approve), CountVote(engs, Disapprove);
      a + d > 0 ==> WithStats(user, engs).approvalRate * (a + d) as real == 100.0 * a as real
  {
    VotesAtMostRecords(engs);
    var a, d := CountVote(engs, Approve), CountVote(engs, Disapprove);
    if a + d > 0 {
      ApprovalRateShare(a, d);
    }
  }

  /** The statistics of one user, from `getUserEngagements(user.id)`. */
  function StatsFn(allEngs: seq<VideoEngagement>): User -> UserWithStats {
    (user: User) => WithStats(user, ForUser(allEngs, user.id))
  }

  /**
   * `loadUsersWithStats`: one row per user, in the order of `getAllUsers`;
   * when a fetch fails the table keeps its initial empty list.
   */
  function LoadUsersWithStats(users: seq<User>, allEngs: seq<VideoEngagement>, failed: bool): (rows: seq<UserWithStats>)
    ensures failed ==> rows == []
    ensures !failed ==> |rows| == |users|
    ensures !failed ==> forall i :: 0 <= i < |users| ==> rows[i] == WithStats(users[i], ForUser(allEngs, users[i].id))
  {
    if failed then [] else Map(users, StatsFn(allEngs))
  }

  /** Every row counts exactly that user's records, and its rate is the share of approvals among their votes. */
  lemma RowsCountOwnRecords(users: seq<User>, allEngs: seq<VideoEngagement>, i: nat)
    requires i < |users|
    ensures var row := LoadUsersWithStats(users, allEngs, false)[i];
      && row.user == users[i]
      && row.totalEngagements == |ForUser(allEngs, users[i].id)|
      && 0.0 <= row.approvalRate <= 100.0
      && forall k :: 0 <= k < |ForUser(allEngs, users[i].id)| ==> ForUser(allEngs, users[i].id)[k].userId == users[i].id
    ensures var engs := ForUser(allEngs, users[i].id);
      var a, d := CountVote(engs, Approve), CountVote(engs, Disapprove);
      a + d > 0 ==> LoadUsersWithStats(users, allEngs, false)[i].approvalRate * (a + d) as real == 100.0 * a as real
  {
    WithStatsMeaning(users[i], ForUser(allEngs, users[i].id));
  }

  // ---------------------------------------------------------------- search

  /**
   * The search box: the term in the lower-cased name, or in the phone number
   * as typed, or in the lower-cased e-mail when there is a non-empty one.
   */
  predicate SearchMatches(u: UserWithStats, term: string) {
    || Contains(ToLower(u.user.name), ToLower(term))
    || Contains(u.user.phoneNumber, term)
    || (u.user.email.Some? && u.user.email.value != "" && Contains(ToLower(u.user.email.value), ToLower(term)))
  }

  function MatchesTerm(term: string): UserWithStats -> bool {
    (u: UserWithStats) => SearchMatches(u, term)
  }

  /** An empty search term keeps every user. */
  lemma EmptyTermMatchesAll(u: UserWithStats)
    ensures SearchMatches(u, "")
  {
    assert ToLower("") == "";
    ContainsEmpty(ToLower(u.user.name));
  }

  /** The phone number is searched as typed: lower-casing the term can lose a match on it. */
  lemma PhoneSearchIsCaseSensitive()
    ensures var u := UserWithStats(User("u", "x", "AB", None, None, None), 0, 0.0, "None");
      SearchMatches(u, "AB") && !SearchMatches(u, "ab")
  {
    var u := UserWithStats(User("u", "x", "AB", None, None, None), 0, 0.0, "None");
    ContainsAt("AB", "AB", 0);
    assert ToLower("x") == "x" && ToLower("ab") == "ab";
    AbsentChar("x", "ab", 0);
    AbsentChar("AB", "ab", 0);
  }

  // ---------------------------------------------------------------- sorting

  datatype SortKey = ByName | ByActivity | ByEngagements

  /** `last_active?.getTime() || 0`: a user never seen active counts as time 0. */
  function ActivityTime(u: UserWithStats): int {
    u.user.lastActive.GetOr(0)
  }

  /**
   * The comparator of each sort choice, as "may stay in front of": names
   * ascending, activity and engagement counts descending.
   */
  function Comparator(key: SortKey): (UserWithStats, UserWithStats) -> bool {
    match key
    case ByName => (a: UserWithStats, b: UserWithStats) => NameLeq(a.user.name, b.user.name)
    case ByActivity => (a: UserWithStats, b: UserWithStats) => ActivityTime(a) >= ActivityTime(b)
    case ByEngagements => (a: UserWithStats, b: UserWithStats) => a.totalEngagements >= b.totalEngagements
  }

  /** Each comparator is consistent, so the stable sort is well defined. */
  lemma ComparatorConsistent(key: SortKey)
    ensures TotalPreorder(Comparator(key))
  {
    if key == ByName {
      var le := Comparator(key);
      forall x, y ensures le(x, y) || le(y, x) {
        NameLeqTotal(x.user.name, y.user.name);
      }
      forall x, y, z | le(x, y) && le(y, z) ensures le(x, z) {
        NameLeqTransitive(x.user.name, y.user.name, z.user.name);
      }
    }
  }

  /** `filterAndSortUsers`: filter by the term, then sort the filtered array in place. */
  method FilterAndSortUsers(users: seq<UserWithStats>, term: string, key: SortKey) returns (shown: seq<UserWithStats>)
    ensures shown == SortBy(Filter(users, MatchesTerm(term)), Comparator(key))
  {
    var filtered := Filter(users, MatchesTerm(term));
    var a := new UserWithStats[|filtered|](i requires 0 <= i < |filtered| => filtered[i]);
    assert a[..] == filtered;
    SortInPlace(a, Comparator(key));
    shown := a[..];
  }

  /**
   * The list shown holds each matching user as often as the input does and
   * nothing else, in the order of the chosen key.
   */
  lemma ShownUsers(users: seq<UserWithStats>, term: string, key: SortKey)
    ensures var shown := SortBy(Filter(users, MatchesTerm(term)), Comparator(key));
      && (forall u :: multiset(shown)[u] == if SearchMatches(u, term) then multiset(users)[u] else 0)
      && Sorted(shown, Comparator(key))
  {
    var filtered := Filter(users, MatchesTerm(term));
    SortByPermutes(filtered, Comparator(key));
    ComparatorConsistent(key);
    SortBySorted(filtered, Comparator(key));
    forall u ensures multiset(SortBy(filtered, Comparator(key)))[u] == if SearchMatches(u, term) then multiset(users)[u] else 0 {
      FilterCounts(users, MatchesTerm(term), u);
    }
  }

  /** With the empty term the list shown is a reordering of all users. */
  lemma EmptyTermShowsEveryone(users: seq<UserWithStats>, key: SortKey)
    ensures multiset(SortBy(Filter(users, MatchesTerm("")), Comparator(key))) == multiset(users)
  {
    ShownUsers(users, "", key);
    forall u ensures SearchMatches(u, "") {
      EmptyTermMatchesAll(u);
    }
  }

  /** Sorted by activity, users last active at a positive time come before users never seen. */
  lemma NeverActiveLast(shown: seq<UserWithStats>, i: nat, j: nat)
    requires Sorted(shown, Comparator(ByActivity))
    requires i < |shown| && j < |shown|
    requires shown[i].user.lastActive.None? && shown[j].user.lastActive.Some? && shown[j].user.lastActive.value > 0
    ensures j < i
  {
    assert !Comparator(ByActivity)(shown[i], shown[j]);
  }

  /** The rate's colour: success from 70, warning from 40, danger below. */
  function RateLevel(u: UserWithStats): (l: Level)
    ensures l == Success <==> u.approvalRate >= 70.0
    ensures l == Warning <==> 40.0 <= u.approvalRate < 70.0
    ensures l == Danger <==> u.approvalRate < 40.0
  {
    Band(u.approvalRate, 70.0, 40.0)
  }
}
