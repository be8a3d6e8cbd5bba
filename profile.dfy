/** The rules behind the profile page: remaining session time, session count and rank. */
module Profile {
  import opened Wrappers
  import opened Api
  import opened Text
  import Utils

  /** `token ? jwtMinutesRemaining(token) : 0`: no token, or the empty one, leaves 0 minutes. */
  function MinutesLeft(token: Option<string>, nowMs: int, parse: Utils.PayloadParser): (minutes: nat)
    ensures token.None? || token.value == "" ==> minutes == 0
    ensures token.Some? && token.value != "" ==>
      minutes == Utils.JwtMinutesRemaining(token.value, nowMs, parse)
  {
    if token.Some? && token.value != "" then Utils.JwtMinutesRemaining(token.value, nowMs, parse) else 0
  }

  /**
   * "Session expires in {hoursLeft}h {minutesLeft % 60}m": the whole hours
   * and the minutes past them, which together give back the minutes left.
   */
  function ExpiryParts(minutesLeft: nat): (parts: (nat, nat))
    ensures parts.0 * 60 + parts.1 == minutesLeft
    ensures parts.1 < 60
  {
    (minutesLeft / 60, minutesLeft % 60)
  }

  /** Two readings that both split the same way are the same reading. */
  lemma ExpiryPartsUnique(minutesLeft: nat, hours: nat, minutes: nat)
    requires hours * 60 + minutes == minutesLeft && minutes < 60
    ensures ExpiryParts(minutesLeft) == (hours, minutes)
  {
  }

  /** `aggregate?.sessions ?? sessions.length`. */
  function TotalSessions(aggregate: Option<LeaderboardAggregate>, history: seq<LocalSession>): (total: nat)
    ensures aggregate.Some? ==> total == aggregate.value.sessions
    ensures aggregate.None? ==> total == |history|
  {
    if aggregate.Some? then aggregate.value.sessions else |history|
  }

  /**
   * The three statistics cards; nothing is shown while the aggregate loads.
   * The sessions card shows the very count the badge and the tier list are
   * computed from; best score and total XP are the server's, 0 without them.
   */
  function Statistics(loading: bool, aggregate: Option<LeaderboardAggregate>, history: seq<LocalSession>)
    : (stats: Option<(int, int, nat)>)
    ensures loading <==> stats.None?
    ensures stats.Some? ==> stats.value.2 == TotalSessions(aggregate, history)
    ensures stats.Some? && aggregate.Some? ==>
      stats.value.0 == aggregate.value.bestScore && stats.value.1 == aggregate.value.totalScore
    ensures stats.Some? && aggregate.None? ==> stats.value.0 == 0 && stats.value.1 == 0
  {
    if loading then None
    else if aggregate.Some? then
      Some((aggregate.value.bestScore, aggregate.value.totalScore, TotalSessions(aggregate, history)))
    else Some((0, 0, TotalSessions(aggregate, history)))
  }

  /** The heading: `displayName || email?.split('@')[0] || 'Student'`. */
  function HeadingName(displayName: Option<string>, email: Option<string>): (name: string)
    ensures name != ""
    ensures displayName.Some? && displayName.value != "" ==> name == displayName.value
    ensures (displayName.None? || displayName.value == "") && email.Some? && FirstSegment(email.value, '@') != "" ==>
      name == FirstSegment(email.value, '@')
    ensures (displayName.None? || displayName.value == "") && (email.None? || FirstSegment(email.value, '@') == "") ==>
      name == "Student"
  {
    if displayName.Some? && displayName.value != "" then displayName.value
    else if email.Some? && FirstSegment(email.value, '@') != "" then FirstSegment(email.value, '@')
    else "Student"
  }

  datatype Rank = Beginner | Learner | Expert | Legend

  /** The badge: Legend from 50 sessions, Expert from 20, Learner from 5, else Beginner. */
  function RankOf(totalSessions: int): (rank: Rank)
    ensures rank == Legend <==> totalSessions >= 50
    ensures rank == Expert <==> 20 <= totalSessions < 50
    ensures rank == Learner <==> 5 <= totalSessions < 20
    ensures rank == Beginner <==> totalSessions < 5
  {
    if totalSessions >= 50 then Legend
    else if totalSessions >= 20 then Expert
    else if totalSessions >= 5 then Learner
    else Beginner
  }

  /** Position of a rank in the progress list. */
  function Level(rank: Rank): nat {
    match rank
    case Beginner => 0
    case Learner => 1
    case Expert => 2
    case Legend => 3
  }

  /** The progress list: each tier with the least session count that reaches it. */
  datatype Tier = Tier(rank: Rank, min: int)

  const Tiers: seq<Tier> := [Tier(Beginner, 0), Tier(Learner, 5), Tier(Expert, 20), Tier(Legend, 50)]

  /** A tier is ticked when the session count is at least its minimum. */
  predicate Reached(t: Tier, totalSessions: int) {
    totalSessions >= t.min
  }

  /**
   * A signed-out visitor, or one whose token has expired, is told the
   * session expires in 0h 0m.
   */
  lemma ExpiredSessionShowsNoTime(token: Option<string>, nowMs: int, parse: Utils.PayloadParser)
    requires token.None? || token.value == "" || Utils.IsJwtExpired(token.value, nowMs, parse)
    ensures MinutesLeft(token, nowMs, parse) == 0
    ensures ExpiryParts(MinutesLeft(token, nowMs, parse)) == (0, 0)
  {
    if token.Some? && token.value != "" {
      Utils.ExpiredTokenHasNoMinutesLeft(token.value, nowMs, parse);
    }
  }

  /**
   * Without a server aggregate the badge follows the local history: a longer
   * history never shows a lower rank, and with an aggregate the server's
   * count decides whatever the history holds.
   */
  lemma {:induction false} BadgeFollowsSessionCount(
    aggregate: Option<LeaderboardAggregate>, shorter: seq<LocalSession>, longer: seq<LocalSession>)
    requires |shorter| <= |longer|
    ensures Level(RankOf(TotalSessions(None, shorter))) <= Level(RankOf(TotalSessions(None, longer)))
    ensures aggregate.Some? ==> RankOf(TotalSessions(aggregate, shorter)) == RankOf(TotalSessions(aggregate, longer))
  {
    RankMonotone(|shorter|, |longer|);
  }

  /** More sessions never lower the rank. */
  lemma RankMonotone(a: int, b: int)
    requires a <= b
    ensures Level(RankOf(a)) <= Level(RankOf(b))
  {
  }

  /** The badge names the last reached tier in the progress list. */
  lemma RankIsHighestReachedTier(totalSessions: int)
    requires totalSessions >= 0
    ensures exists i :: && 0 <= i < |Tiers| && Tiers[i].rank == RankOf(totalSessions)
                        && Reached(Tiers[i], totalSessions)
                        && forall j :: i < j < |Tiers| ==> !Reached(Tiers[j], totalSessions)
  {
    var i := Level(RankOf(totalSessions));
    assert Tiers[i].rank == RankOf(totalSessions);
  }

  /** The ticked tiers form a prefix of the list, and Beginner is always ticked. */
  lemma ReachedTiersArePrefix(totalSessions: int, i: int, j: int)
    requires totalSessions >= 0
    requires 0 <= i <= j < |Tiers| && Reached(Tiers[j], totalSessions)
    ensures Reached(Tiers[i], totalSessions) && Reached(Tiers[0], totalSessions)
  {
  }
}
