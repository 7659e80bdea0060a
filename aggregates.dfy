/**
 * The summary statistics at the top of the page, each a `reduce` with seed 0
 * over the game list, and the count of games.
 */
module Aggregates {
  import opened Games
  import opened Selectors

  function BackersOf(g: Game): nat { g.backers }

  function PledgedOf(g: Game): nat { g.pledged }

  /** Total contributions: `reduce((sum, game) => sum + game.backers, 0)`. */
  function TotalContributions(games: seq<Game>): (r: nat)
    ensures r == Sum(games, BackersOf)
    ensures games == [] ==> r == 0
  {
    var step := (sum: nat, game: Game) => sum + game.backers;
    ReduceIsSum(games, step, BackersOf, 0);
    Reduce(games, step, 0)
  }

  /** Total raised: `reduce((sum, game) => sum + game.pledged, 0)`. */
  function TotalPledged(games: seq<Game>): (r: nat)
    ensures r == Sum(games, PledgedOf)
    ensures games == [] ==> r == 0
  {
    var step := (sum: nat, game: Game) => sum + game.pledged;
    ReduceIsSum(games, step, PledgedOf, 0);
    Reduce(games, step, 0)
  }

  /** Number of games on the site: the list's length; every game is funded or unfunded. */
  function TotalGames(games: seq<Game>): (r: nat)
    ensures r == |games|
    ensures r == |FilterFunded(games)| + |FilterUnfunded(games)|
  {
    FundingPartition(games);
    |games|
  }

  /**
   * Unfunded games: `reduce((sum, game) => pledged < goal ? sum + 1 : sum, 0)`;
   * it agrees with the length of the "unfunded" button's view.
   */
  function UnfundedGamesCount(games: seq<Game>): (r: nat)
    ensures r == |FilterUnfunded(games)|
    ensures r <= |games|
  {
    var step := (sum: nat, game: Game) => if game.pledged < game.goal then sum + 1 else sum;
    ReduceIsCount(games, step, IsUnfunded, 0);
    Reduce(games, step, 0)
  }

  /** Each statistic is the same whatever order the games are listed in. */
  lemma StatisticsIgnoreOrder(s: seq<Game>, t: seq<Game>)
    requires multiset(s) == multiset(t)
    ensures TotalContributions(s) == TotalContributions(t)
    ensures TotalPledged(s) == TotalPledged(t)
    ensures TotalGames(s) == TotalGames(t)
    ensures UnfundedGamesCount(s) == UnfundedGamesCount(t)
  {
    SumPermutation(s, t, BackersOf);
    SumPermutation(s, t, PledgedOf);
    FilterPermutation(s, t, IsFunded);
    FilterPermutation(s, t, IsUnfunded);
  }
}
