/** The leaderboard page: the id-to-name map, the top-ten chart and the table's name column. */
module Leaderboard {
  import opened Wrappers
  import opened Api
  import opened Text
  import Utils

  /** `display_name || email.split('@')[0]`. */
  function DisplayNameOf(u: UserOut): (name: string)
    ensures u.displayName.Some? && u.displayName.value != "" ==> name == u.displayName.value
    ensures u.displayName.None? || u.displayName.value == "" ==> name == FirstSegment(u.email, '@')
  {
    if u.displayName.Some? && u.displayName.value != "" then u.displayName.value
    else FirstSegment(u.email, '@')
  }

  /** The map after setting each user in list order; a later user overwrites an earlier one with the same id. */
  function UserMapOf(users: seq<UserOut>): map<string, string> {
    if users == [] then map[]
    else UserMapOf(users[..|users| - 1])[users[|users| - 1].id := DisplayNameOf(users[|users| - 1])]
  }

  /** `users?.forEach(u => map.set(u.id, ...))`: no user list gives the empty map. */
  method BuildUserMap(users: Option<seq<UserOut>>) returns (m: map<string, string>)
    ensures users.None? ==> m == map[]
    ensures users.Some? ==> m == UserMapOf(users.value)
  {
    m := map[];
    if users.None? {
      return;
    }
    var list := users.value;
    var i := 0;
    while i < |list|
      invariant 0 <= i <= |list|
      invariant m == UserMapOf(list[..i])
    {
      assert list[..i + 1][..i] == list[..i];
      m := m[list[i].id := DisplayNameOf(list[i])];
      i := i + 1;
    }
    assert list[..|list|] == list;
  }

  /** The map has exactly the listed ids, each naming the last user listed with it. */
  lemma {:induction false} UserMapLastWins(users: seq<UserOut>)
    ensures UserMapOf(users).Keys == set u | u in users :: u.id
    ensures forall i :: 0 <= i < |users| && (forall j :: i < j < |users| ==> users[j].id != users[i].id) ==>
      UserMapOf(users)[users[i].id] == DisplayNameOf(users[i])
  {
    if users != [] {
      var init := users[..|users| - 1];
      UserMapLastWins(init);
      assert users == init + [users[|users| - 1]];
      forall i | 0 <= i < |users| && (forall j :: i < j < |users| ==> users[j].id != users[i].id)
        ensures UserMapOf(users)[users[i].id] == DisplayNameOf(users[i])
      {
        if i < |users| - 1 {
          assert init[i] == users[i];
        }
      }
    }
  }

  datatype OrderBy = Best | Total

  /** One bar of the chart. */
  datatype ChartEntry = ChartEntry(name: string, score: int, isUser: bool)

  /** `userMap.get(id)?.split(' ')[0] || '#' + (i + 1)`: the first word of the mapped name, or the position. */
  function ChartName(mapped: Option<string>, i: nat): (name: string)
    ensures name != "" && ' ' !in name
    ensures mapped.Some? && FirstSegment(mapped.value, ' ') != "" ==> name == FirstSegment(mapped.value, ' ')
    ensures mapped.None? || FirstSegment(mapped.value, ' ') == "" ==> name == "#" + Decimal(i + 1)
  {
    if mapped.Some? && FirstSegment(mapped.value, ' ') != "" then
      FirstSegment(mapped.value, ' ')
    else
      "#" + Decimal(i + 1)
  }

  function ChartScore(a: LeaderboardAggregate, orderBy: OrderBy): (score: int)
    ensures orderBy == Best ==> score == a.bestScore
    ensures orderBy == Total ==> score == a.totalScore
  {
    if orderBy == Best then a.bestScore else a.totalScore
  }

  function Lookup(m: map<string, string>, id: string): (v: Option<string>)
    ensures v.Some? <==> id in m
    ensures v.Some? ==> v.value == m[id]
  {
    if id in m then Some(m[id]) else None
  }

  /** `(aggregates ?? []).slice(0, 10).map(...)`: the first ten aggregates, in order. */
  function ChartData(aggregates: Option<seq<LeaderboardAggregate>>, userMap: map<string, string>,
                     orderBy: OrderBy, userId: Option<string>): (rows: seq<ChartEntry>)
    ensures aggregates.None? ==> rows == []
    ensures aggregates.Some? ==> |rows| == if |aggregates.value| < 10 then |aggregates.value| else 10
    ensures forall i :: 0 <= i < |rows| ==>
      && rows[i].name == ChartName(Lookup(userMap, aggregates.value[i].userId), i)
      && rows[i].score == ChartScore(aggregates.value[i], orderBy)
      && (rows[i].isUser <==> userId == Some(aggregates.value[i].userId))
  {
    var aggs := aggregates.GetOr([]);
    var top := if |aggs| < 10 then aggs else aggs[..10];
    seq(|top|, i requires 0 <= i < |top| =>
      ChartEntry(ChartName(Lookup(userMap, top[i].userId), i), ChartScore(top[i], orderBy),
                 userId == Some(top[i].userId)))
  }

  /** `id.slice(0, 8) + '…'`. */
  function ShortId(id: string): (s: string)
    ensures |s| == (if |id| < 8 then |id| else 8) + 1
    ensures s[..|s| - 1] == id[..|s| - 1] && s[|s| - 1] == '\U{2026}'
  {
    (if |id| < 8 then id else id[..8]) + "\U{2026}"
  }

  /**
   * The table's name column: the user's own display name on their own row
   * when set, else the mapped name when non-empty, else the shortened id.
   */
  function TableName(isCurrentUser: bool, displayName: Option<string>, mapped: Option<string>, id: string)
    : (name: string)
    ensures name != ""
    ensures isCurrentUser && displayName.Some? && displayName.value != "" ==> name == displayName.value
    ensures !(isCurrentUser && displayName.Some? && displayName.value != "") ==>
      if mapped.Some? && mapped.value != "" then name == mapped.value else name == ShortId(id)
  {
    if isCurrentUser && displayName.Some? && displayName.value != "" then displayName.value
    else if mapped.Some? && mapped.value != "" then mapped.value
    else ShortId(id)
  }

  /** One row of the table. */
  datatype TableRow = TableRow(rank: string, name: string, isCurrentUser: bool, aggregate: LeaderboardAggregate)

  /** `aggregates?.map((agg, idx) => ...)`: every aggregate, in order, ranked by position. */
  function TableRows(aggregates: Option<seq<LeaderboardAggregate>>, userMap: map<string, string>,
                     userId: Option<string>, displayName: Option<string>): (rows: seq<TableRow>)
    ensures aggregates.None? ==> rows == []
    ensures aggregates.Some? ==> |rows| == |aggregates.value|
    ensures forall i :: 0 <= i < |rows| ==>
      && rows[i].aggregate == aggregates.value[i]
      && rows[i].rank == Utils.RankLabel(i)
      && (rows[i].isCurrentUser <==> userId == Some(aggregates.value[i].userId))
      && rows[i].name == TableName(rows[i].isCurrentUser, displayName,
                                   Lookup(userMap, aggregates.value[i].userId), aggregates.value[i].userId)
  {
    var aggs := aggregates.GetOr([]);
    seq(|aggs|, i requires 0 <= i < |aggs| =>
      var isCurrent := userId == Some(aggs[i].userId);
      TableRow(Utils.RankLabel(i), TableName(isCurrent, displayName, Lookup(userMap, aggs[i].userId), aggs[i].userId),
               isCurrent, aggs[i]))
  }

  /** The chart repeats the table's first rows: same users, same order, same own-row flag. */
  lemma ChartFollowsTable(aggregates: Option<seq<LeaderboardAggregate>>, userMap: map<string, string>,
                          orderBy: OrderBy, userId: Option<string>, displayName: Option<string>)
    ensures var chart, table := ChartData(aggregates, userMap, orderBy, userId),
                                TableRows(aggregates, userMap, userId, displayName);
      && |chart| <= |table|
      && forall i :: 0 <= i < |chart| ==>
           chart[i].isUser == table[i].isCurrentUser &&
           chart[i].score == ChartScore(table[i].aggregate, orderBy)
  {
  }
}
