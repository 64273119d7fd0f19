/**
 * The records the dashboard reads from the document store (src/lib/types.ts).
 * Timestamps are milliseconds since the epoch; counters are non-negative.
 */
module Types {

  datatype Option<T> = None | Some(value: T) {
    /** `x || d` / `x ?? d` for a present-or-absent value. */
    function GetOr(default: T): T {
      match this
      case Some(v) => v
      case None => default
    }
  }

  /** A parent's feedback on a video: 'approve', 'disapprove' or 'none'. */
  datatype Vote = Approve | Disapprove | NoVote

  datatype User = User(
    id: string,
    name: string,
    phoneNumber: string,
    email: Option<string>,
    createdAt: Option<int>,
    lastActive: Option<int>)

  /** One parent's interaction with one video. */
  datatype VideoEngagement = VideoEngagement(
    videoId: string,
    userId: string,
    vote: Vote,
    viewCount: nat,
    lastViewed: int)

  /** The per-video counters the store maintains. */
  datatype VideoStats = VideoStats(
    videoId: string,
    totalViews: nat,
    totalApprovals: nat,
    totalDisapprovals: nat)

  datatype UserProfile = UserProfile(
    userId: string,
    childAgeMonths: Option<nat>)
}
