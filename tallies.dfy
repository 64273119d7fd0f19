/**
 * Counting and rate formulas that several dashboard files compute, each with
 * its own copy of the expression: vote counts, distinct viewers, view sums,
 * the approval rate over votes, the engagement rate over views, a mean with
 * an empty-input guard, and the three-level colour bands.
 * Percentages are exact rationals (`real`); display rounding is not modelled.
 */
module Tallies {

  import opened Types
  import opened Seqs

  function VoteIs(v: Vote): VideoEngagement -> bool {
    (e: VideoEngagement) => e.vote == v
  }

  /** `engs.filter(e => e.vote === v)`. */
  function OfVote(engs: seq<VideoEngagement>, v: Vote): seq<VideoEngagement> {
    Filter(engs, VoteIs(v))
  }

  /** The records kept are exactly the input's records carrying that vote. */
  lemma OfVoteMembership(engs: seq<VideoEngagement>, v: Vote, e: VideoEngagement)
    ensures e in OfVote(engs, v) <==> e in engs && e.vote == v
  {
    FilterMembership(engs, VoteIs(v), e);
  }

  /** `engs.filter(e => e.vote === v).length`. */
  function CountVote(engs: seq<VideoEngagement>, v: Vote): nat {
    |OfVote(engs, v)|
  }

  /** Every record carries exactly one of the three votes. */
  lemma {:induction false} VoteCountsPartition(engs: seq<VideoEngagement>)
    ensures CountVote(engs, Approve) + CountVote(engs, Disapprove) + CountVote(engs, NoVote) == |engs|
    decreases |engs|
  {
    if engs != [] {
      VoteCountsPartition(engs[..|engs| - 1]);
    }
  }

  /** Approvals and disapprovals together never exceed the number of records. */
  lemma VotesAtMostRecords(engs: seq<VideoEngagement>)
    ensures CountVote(engs, Approve) + CountVote(engs, Disapprove) <= |engs|
  {
    VoteCountsPartition(engs);
  }

  /** `new Set(engs.map(e => e.user_id))`. */
  function ViewerIds(engs: seq<VideoEngagement>): (r: set<string>)
    ensures forall u :: u in r <==> exists i :: 0 <= i < |engs| && engs[i].userId == u
    decreases |engs|
  {
    if engs == [] then {}
    else ViewerIds(engs[..|engs| - 1]) + {engs[|engs| - 1].userId}
  }

  /** There are never more distinct viewers than records; equality needs one record per viewer. */
  lemma {:induction false} ViewersAtMostRecords(engs: seq<VideoEngagement>)
    ensures |ViewerIds(engs)| <= |engs|
    ensures |ViewerIds(engs)| == 0 <==> engs == []
    decreases |engs|
  {
    if engs != [] {
      ViewersAtMostRecords(engs[..|engs| - 1]);
      assert engs[|engs| - 1].userId in ViewerIds(engs);
    }
  }

  /** `engs.reduce((sum, e) => sum + e.view_count, 0)`. */
  function TotalViewCount(engs: seq<VideoEngagement>): nat
    decreases |engs|
  {
    if engs == [] then 0 else TotalViewCount(engs[..|engs| - 1]) + engs[|engs| - 1].viewCount
  }

  /** Summing concatenated record lists adds the sums. */
  lemma {:induction false} TotalViewCountAppend(a: seq<VideoEngagement>, b: seq<VideoEngagement>)
    ensures TotalViewCount(a + b) == TotalViewCount(a) + TotalViewCount(b)
    decreases |b|
  {
    if b != [] {
      TotalViewCountAppend(a, b[..|b| - 1]);
      assert (a + b)[..|a + b| - 1] == a + b[..|b| - 1];
      assert (a + b)[|a + b| - 1] == b[|b| - 1];
      assert a + b != [];
    } else {
      assert a + b == a;
    }
  }

  lemma RatioAtMostOne(part: real, whole: real)
    requires 0.0 <= part <= whole && whole > 0.0
    ensures 0.0 <= part / whole <= 1.0
  {
  }

  /**
   * `votes > 0 ? (approvals / votes) * 100 : 0` with `votes = approvals + disapprovals`:
   * the share of approvals among the votes, in percent.
   */
  function ApprovalRate(approvals: nat, disapprovals: nat): (r: real)
    ensures 0.0 <= r <= 100.0
    ensures r == 0.0 <==> approvals == 0
    ensures r == 100.0 <==> approvals > 0 && disapprovals == 0
  {
    var votes := approvals + disapprovals;
    if votes > 0 then
      RatioAtMostOne(approvals as real, votes as real);
      (approvals as real / votes as real) * 100.0
    else 0.0
  }

  /**
   * `views > 0 ? (votes / views) * 100 : 0`: votes per view, in percent. It is
   * not bounded by 100: it exceeds 100 exactly when there are more votes than views.
   */
  function EngagementRate(votes: nat, views: nat): (r: real)
    ensures r >= 0.0
    ensures views == 0 ==> r == 0.0
    ensures views > 0 ==> (r <= 100.0 <==> votes <= views)
  {
    if views > 0 then (votes as real / views as real) * 100.0 else 0.0
  }

  /** With votes cast, the approval rate is the percentage of approvals among them. */
  lemma ApprovalRateShare(approvals: nat, disapprovals: nat)
    requires approvals + disapprovals > 0
    ensures ApprovalRate(approvals, disapprovals) * (approvals + disapprovals) as real == 100.0 * approvals as real
  {
  }

  /** With views recorded, the engagement rate is votes per hundred views. */
  lemma EngagementRateShare(votes: nat, views: nat)
    requires views > 0
    ensures EngagementRate(votes, views) * views as real == 100.0 * votes as real
  {
  }

  function SumReals(xs: seq<real>): real
    decreases |xs|
  {
    if xs == [] then 0.0 else SumReals(xs[..|xs| - 1]) + xs[|xs| - 1]
  }

  /** `xs.length > 0 ? xs.reduce(+) / xs.length : 0`. */
  function Mean(xs: seq<real>): real {
    if |xs| > 0 then SumReals(xs) / |xs| as real else 0.0
  }

  lemma {:induction false} SumRealsBounds(xs: seq<real>, lo: real, hi: real)
    requires forall i :: 0 <= i < |xs| ==> lo <= xs[i] <= hi
    ensures |xs| as real * lo <= SumReals(xs) <= |xs| as real * hi
    decreases |xs|
  {
    if xs != [] {
      SumRealsBounds(xs[..|xs| - 1], lo, hi);
    }
  }

  /** The mean of values in [lo, hi] lies in [lo, hi]; the mean of nothing is 0. */
  lemma MeanBounds(xs: seq<real>, lo: real, hi: real)
    requires forall i :: 0 <= i < |xs| ==> lo <= xs[i] <= hi
    ensures xs == [] ==> Mean(xs) == 0.0
    ensures xs != [] ==> lo <= Mean(xs) <= hi
  {
    if xs != [] {
      SumRealsBounds(xs, lo, hi);
      var n := |xs| as real;
      assert SumReals(xs) / n >= lo by {
        assert SumReals(xs) >= n * lo;
      }
      assert SumReals(xs) / n <= hi by {
        assert SumReals(xs) <= n * hi;
      }
    }
  }

  /** A sum of non-negative values is non-negative. */
  lemma {:induction false} SumRealsNonNegative(xs: seq<real>)
    requires forall i :: 0 <= i < |xs| ==> xs[i] >= 0.0
    ensures SumReals(xs) >= 0.0
    decreases |xs|
  {
    if xs != [] {
      SumRealsNonNegative(xs[..|xs| - 1]);
    }
  }

  /** The mean of non-negative values is non-negative. */
  lemma MeanNonNegative(xs: seq<real>)
    requires forall i :: 0 <= i < |xs| ==> xs[i] >= 0.0
    ensures Mean(xs) >= 0.0
  {
    SumRealsNonNegative(xs);
  }

  /** The colour of a badge or bar: success, warning or danger/error. */
  datatype Level = Danger | Warning | Success

  function LevelRank(l: Level): nat {
    match l
    case Danger => 0
    case Warning => 1
    case Success => 2
  }

  /** `r >= high ? success : r >= low ? warning : danger`. */
  function Band(r: real, high: real, low: real): (l: Level)
    ensures l == Success <==> r >= high
    ensures l == Danger <==> r < low && r < high
  {
    if r >= high then Success else if r >= low then Warning else Danger
  }

  /** A higher rate never gets a worse colour. */
  lemma BandMonotone(r: real, r': real, high: real, low: real)
    requires r <= r'
    ensures LevelRank(Band(r, high, low)) <= LevelRank(Band(r', high, low))
  {
  }
}
