/** The past-winners card: winners newest first, each with an abbreviated
    principal, the display name when the profile has one, the profit and
    loss with its sign and its percentage of the starting balance, and the
    date of the win.

    Timestamps are nanoseconds. The profile lookups are the function
    `lookup`: for a principal it gives `None` when the call throws, and
    otherwise the profile the backend returns, itself `None` for `null`.
 */
module Winners {
  import opened Wrappers
  import opened Text
  import opened Sorting
  import Leaderboard

  datatype Winner = Winner(winner: string, finalPortfolioValue: real, profitLoss: real, timestamp: nat)

  /** A profile reduced to its display name. */
  datatype UserProfile = UserProfile(name: string)

  type Profiles = map<string, Option<UserProfile>>

  function Principals(ws: seq<Winner>): set<string> {
    set w | w in ws :: w.winner
  }

  /** The profile query: nothing without an actor or winners; otherwise one
      entry per winner's principal, `null` when the lookup throws. */
  function LoadProfiles(hasActor: bool, ws: Option<seq<Winner>>, lookup: string -> Option<Option<UserProfile>>): (r: Profiles)
    ensures !hasActor || ws.None? || ws.value == [] ==> r == map[]
    ensures hasActor && ws.Some? && ws.value != [] ==>
      && r.Keys == Principals(ws.value)
      && forall p | p in r :: r[p] == (if lookup(p).Some? then lookup(p).value else None)
  {
    if !hasActor || ws.None? || ws.value == [] then map[]
    else map p | p in Principals(ws.value) :: if lookup(p).Some? then lookup(p).value else None
  }

  /** `profile?.name`, when it is non-empty. */
  function DisplayName(profiles: Option<Profiles>, principal: string): (r: Option<string>)
    ensures r.Some? <==> profiles.Some? && principal in profiles.value
                          && profiles.value[principal].Some? && profiles.value[principal].value.name != ""
    ensures r.Some? ==> r.value == profiles.value[principal].value.name
  {
    if profiles.Some? && principal in profiles.value && profiles.value[principal].Some?
       && profiles.value[principal].value.name != ""
    then Some(profiles.value[principal].value.name)
    else None
  }

  /** `slice(0, 8) + "..." + slice(-6)`. */
  function Abbreviate(principal: string): (r: string)
    ensures var head := if |principal| < 8 then |principal| else 8;
      var tail := if |principal| < 6 then |principal| else 6;
      && |r| == head + 3 + tail
      && r[..head] == principal[..head]
      && r[head..head + 3] == "..."
      && r[head + 3..] == principal[|principal| - tail..]
  {
    Take(principal, 8) + "..." + TakeLast(principal, 6)
  }

  /** A principal of 14 characters or more keeps its first eight and last
      six characters around the ellipsis. */
  lemma AbbreviationKeepsEnds(principal: string)
    requires |principal| >= 14
    ensures var r := Abbreviate(principal);
      && |r| == 17
      && r[..8] == principal[..8]
      && r[8..11] == "..."
      && r[11..] == principal[|principal| - 6..]
  {
  }

  /** `(profitLoss / 10000) * 100`. */
  function PercentOfStart(profitLoss: real): (pct: real)
    ensures pct * Leaderboard.StartingBalance == profitLoss * 100.0
  {
    profitLoss / 10000.0 * 100.0
  }

  /** `Number(timestamp) / 1000000`: nanoseconds to milliseconds. */
  function DateMs(timestamp: nat): (ms: real)
    ensures ms * 1000000.0 == timestamp as real
  {
    timestamp as real / 1000000.0
  }

  /** The `+` in front of a non-negative amount; a negative one carries its
      own minus sign. */
  function SignPrefix(profitLoss: real): (s: string)
    ensures s == "+" <==> profitLoss >= 0.0
    ensures s == "" <==> profitLoss < 0.0
  {
    if profitLoss >= 0.0 then "+" else ""
  }

  datatype Row = Row(
    key: string,
    name: Option<string>,
    abbreviation: string,
    finalValue: real,
    profitLoss: real,
    percent: real,
    up: bool,
    sign: string,
    dateMs: real)

  function ToRow(w: Winner, profiles: Option<Profiles>): (r: Row)
    ensures r.up <==> w.profitLoss >= 0.0
    ensures r.key == w.winner + "-" + NatToString(w.timestamp)
    ensures r.profitLoss == w.profitLoss && r.finalValue == w.finalPortfolioValue
  {
    Row(w.winner + "-" + NatToString(w.timestamp), DisplayName(profiles, w.winner), Abbreviate(w.winner),
        w.finalPortfolioValue, w.profitLoss, PercentOfStart(w.profitLoss), w.profitLoss >= 0.0,
        SignPrefix(w.profitLoss), DateMs(w.timestamp))
  }

  /** The arrow, the colour and the sign always agree, and a zero result
      counts as a gain. */
  lemma SignMatchesTrend(w: Winner, profiles: Option<Profiles>)
    ensures var r := ToRow(w, profiles);
      (r.up <==> r.sign == "+") && (r.up <==> r.percent >= 0.0)
  {
  }

  function ByTimestamp(w: Winner): real {
    w.timestamp as real
  }

  datatype WinnersView = Skeleton | LoadFailed | NoWinners | Table(rows: seq<Row>)

  function ToRows(ws: seq<Winner>, profiles: Option<Profiles>): (rows: seq<Row>)
    ensures |rows| == |ws|
    ensures forall i | 0 <= i < |ws| :: rows[i] == ToRow(ws[i], profiles)
  {
    seq(|ws|, i requires 0 <= i < |ws| => ToRow(ws[i], profiles))
  }

  /** `WinnersSection`: a skeleton while loading, an error card, a
      "no winners" card for a missing or empty list, otherwise the winners
      sorted newest first. */
  function WinnersSection(isLoading: bool, error: bool, winners: Option<seq<Winner>>, profiles: Option<Profiles>): (v: WinnersView)
    ensures v.Skeleton? <==> isLoading
    ensures v.LoadFailed? <==> !isLoading && error
    ensures v.NoWinners? <==> !isLoading && !error && (winners.None? || winners.value == [])
    ensures v.Table? ==> v.rows == ToRows(SortDesc(winners.value, ByTimestamp), profiles)
  {
    if isLoading then Skeleton
    else if error then LoadFailed
    else if winners.None? || winners.value == [] then NoWinners
    else Table(ToRows(SortDesc(winners.value, ByTimestamp), profiles))
  }

  /** The table lists the newest win first. */
  lemma NewestFirst(isLoading: bool, error: bool, winners: Option<seq<Winner>>, profiles: Option<Profiles>)
    requires WinnersSection(isLoading, error, winners, profiles).Table?
    ensures var rows := WinnersSection(isLoading, error, winners, profiles).rows;
      forall i, j | 0 <= i < j < |rows| :: rows[i].dateMs >= rows[j].dateMs
  {
    var sorted := SortDesc(winners.value, ByTimestamp);
    var rows := ToRows(sorted, profiles);
    forall i, j | 0 <= i < j < |rows|
      ensures rows[i].dateMs >= rows[j].dateMs
    {
      assert ByTimestamp(sorted[i]) >= ByTimestamp(sorted[j]);
    }
  }

  /** Every winner the backend reports has its row. */
  lemma EveryWinnerListed(isLoading: bool, error: bool, winners: Option<seq<Winner>>, profiles: Option<Profiles>, k: nat)
    requires WinnersSection(isLoading, error, winners, profiles).Table?
    requires k < |winners.value|
    ensures ToRow(winners.value[k], profiles) in WinnersSection(isLoading, error, winners, profiles).rows
  {
    var sorted := SortDesc(winners.value, ByTimestamp);
    assert winners.value[k] in multiset(winners.value);
    assert winners.value[k] in sorted;
    var i :| 0 <= i < |sorted| && sorted[i] == winners.value[k];
    assert ToRows(sorted, profiles)[i] == ToRow(winners.value[k], profiles);
  }
}
