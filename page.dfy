/**
 * The page script's data flow in its own order: the summary statistics and the
 * description are computed from the game list as loaded, then the list is
 * sorted in place and its first two games are named in the "top games" cards.
 * Every view built afterwards (buttons, search box) reads the sorted list.
 */
module Page {
  import opened Games
  import opened Selectors
  import opened Aggregates
  import opened Ranking

  /** Reading `.name` of `undefined` throws. */
  datatype Error = TypeError

  datatype Result<T> = Ok(value: T) | Err(error: Error)

  /** The agreement in "Currently, N game remains / games remain unfunded". */
  function RemainPhrase(unfundedCount: nat): (r: string)
    ensures r == "game remains" <==> unfundedCount == 1
    ensures r == "games remain" <==> unfundedCount != 1
  {
    if unfundedCount == 1 then "game remains" else "games remain"
  }

  /** The description is singular exactly when the "unfunded" view holds one game. */
  lemma PhraseAgreesWithUnfundedView(games: seq<Game>)
    ensures RemainPhrase(UnfundedGamesCount(games)) == "game remains" <==> |FilterUnfunded(games)| == 1
  {
  }

  /** The figures shown in the statistics cards and the description. */
  datatype Summary = Summary(
    contributions: nat,
    raised: nat,
    gameCount: nat,
    unfunded: nat,
    remain: string)

  function Summarize(games: seq<Game>): (r: Summary)
    ensures r.contributions == Sum(games, BackersOf)
    ensures r.raised == Sum(games, PledgedOf)
    ensures r.gameCount == |games|
    ensures r.unfunded == |FilterUnfunded(games)| == |games| - |FilterFunded(games)|
    ensures r.remain == "game remains" <==> r.unfunded == 1
    ensures r.unfunded != 1 ==> r.remain == "games remain"
  {
    var unfunded := UnfundedGamesCount(games);
    Summary(TotalContributions(games), TotalPledged(games), TotalGames(games),
            unfunded, RemainPhrase(unfunded))
  }

  /** The statistics cards and the description do not depend on the list's order. */
  lemma SummaryIgnoresOrder(s: seq<Game>, t: seq<Game>)
    requires multiset(s) == multiset(t)
    ensures Summarize(s) == Summarize(t)
  {
    StatisticsIgnoreOrder(s, t);
  }

  /**
   * `topPledged.innerHTML = first.name; secondPledged.innerHTML = second.name`:
   * both names when both bindings exist, a `TypeError` otherwise.
   */
  function LeaderNames(p: Podium): (r: Result<(string, string)>)
    ensures r.Ok? <==> p.first.Some? && p.second.Some?
    ensures r.Ok? ==> r.value == (p.first.value.name, p.second.value.name)
  {
    match (p.first, p.second)
    case (Some(first), Some(second)) => Ok((first.name, second.name))
    case _ => Err(TypeError)
  }

  /** On a list sorted by the ranking, every later view is in ranking order too. */
  lemma ViewsFollowRanking(games: seq<Game>, query: string)
    requires SortedByPledged(games)
    ensures SortedByPledged(FilterUnfunded(games))
    ensures SortedByPledged(FilterFunded(games))
    ensures SortedByPledged(Search(games, query))
  {
    FilterKeepsSorted(games, IsUnfunded);
    FilterKeepsSorted(games, IsFunded);
    FilterKeepsSorted(games, MatchesQuery(query));
  }

  /**
   * The script from loading to the "top games" cards: statistics on the list as
   * loaded, the in-place sort, then the two leaders' names. `firstCard` is the
   * name written into the first card before `second.name` is read; when that
   * read throws, the script stops there and the search box's listener is never
   * registered (`searchWired`).
   */
  method LoadPage(games: array<Game>)
    returns (summary: Summary, leaders: Result<(string, string)>, firstCard: Option<string>, searchWired: bool)
    modifies games
    ensures summary == Summarize(old(games[..])) == Summarize(games[..])
    ensures SortedByPledged(games[..])
    ensures multiset(games[..]) == multiset(old(games[..]))
    ensures SameTies(games[..], old(games[..]))
    ensures leaders.Ok? <==> games.Length >= 2
    ensures firstCard.Some? <==> games.Length >= 1
    ensures firstCard.Some? ==> firstCard.value == games[0].name
    ensures searchWired <==> leaders.Ok?
    ensures leaders.Ok? ==> leaders.value == (games[0].name, games[1].name)
    ensures leaders.Ok? ==> games[0].pledged >= games[1].pledged
    ensures leaders.Ok? ==> forall g :: g in games[2..] ==> games[1].pledged >= g.pledged
    ensures SortedByPledged(FilterUnfunded(games[..])) && SortedByPledged(FilterFunded(games[..]))
    ensures forall query :: SortedByPledged(Search(games[..], query))
  {
    summary := Summarize(games[..]);
    ghost var loaded := games[..];
    SortByPledged(games);
    ghost var ranked := games[..];
    SummaryIgnoresOrder(loaded, ranked);
    var podium := Destructure(games[..]);
    firstCard := if podium.first.Some? then Some(podium.first.value.name) else None;
    leaders := LeaderNames(podium);
    searchWired := leaders.Ok?;
    if games.Length >= 2 {
      PodiumOrder(ranked);
      assert podium.others == games[2..];
    }
    ViewsFollowRanking(ranked, "");
    forall query ensures SortedByPledged(Search(ranked, query)) {
      ViewsFollowRanking(ranked, query);
    }
  }
}
