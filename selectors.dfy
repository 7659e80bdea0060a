/**
 * The list views behind the "unfunded", "funded" buttons and the search box:
 * each is a `filter` over the game list.
 */
module Selectors {
  import opened Games

  /** A game that has not reached its goal: `pledged < goal`. */
  predicate IsUnfunded(g: Game)
  {
    g.pledged < g.goal
  }

  /** A game that has reached or passed its goal: `pledged >= goal`. */
  predicate IsFunded(g: Game)
  {
    g.pledged >= g.goal
  }

  /** The view of the "unfunded" button. */
  function FilterUnfunded(games: seq<Game>): (r: seq<Game>)
    ensures forall g :: g in r <==> g in games && g.pledged < g.goal
    ensures forall g :: multiset(r)[g] == if g.pledged < g.goal then multiset(games)[g] else 0
    ensures IsSubsequence(r, games)
  {
    FilterCounts(games, IsUnfunded);
    FilterIsSubsequence(games, IsUnfunded);
    Filter(games, IsUnfunded)
  }

  /** The view of the "funded" button. */
  function FilterFunded(games: seq<Game>): (r: seq<Game>)
    ensures forall g :: g in r <==> g in games && g.pledged >= g.goal
    ensures forall g :: multiset(r)[g] == if g.pledged >= g.goal then multiset(games)[g] else 0
    ensures IsSubsequence(r, games)
  {
    FilterCounts(games, IsFunded);
    FilterIsSubsequence(games, IsFunded);
    Filter(games, IsFunded)
  }

  /** Every game is in exactly one of the two button views. */
  lemma {:induction false} FundingPartition(games: seq<Game>)
    ensures multiset(FilterFunded(games)) + multiset(FilterUnfunded(games)) == multiset(games)
    ensures |FilterFunded(games)| + |FilterUnfunded(games)| == |games|
    decreases |games|
  {
    if games != [] {
      FundingPartition(games[1..]);
      assert games == [games[0]] + games[1..];
    }
  }

  /** A game with a zero goal always shows as funded, never as unfunded. */
  lemma ZeroGoalIsFunded(games: seq<Game>, g: Game)
    requires g in games && g.goal == 0
    ensures g in FilterFunded(games) && g !in FilterUnfunded(games)
  {
  }

  /** Each button view applied to its own result changes nothing. */
  lemma ButtonViewsIdempotent(games: seq<Game>)
    ensures FilterUnfunded(FilterUnfunded(games)) == FilterUnfunded(games)
    ensures FilterFunded(FilterFunded(games)) == FilterFunded(games)
  {
    FilterIdempotent(games, IsUnfunded);
    FilterIdempotent(games, IsFunded);
  }

  /** `toLowerCase` restricted to ASCII: `A`..`Z` map to `a`..`z`. */
  function LowerChar(c: char): char
  {
    if 'A' <= c <= 'Z' then (c as int - 'A' as int + 'a' as int) as char else c
  }

  /** `s.toLowerCase()` on ASCII text. */
  function Lower(s: string): (r: string)
    ensures |r| == |s|
    ensures forall i :: 0 <= i < |s| ==> r[i] == LowerChar(s[i])
    ensures forall i :: 0 <= i < |r| ==> !('A' <= r[i] <= 'Z')
    decreases |s|
  {
    if s == [] then [] else [LowerChar(s[0])] + Lower(s[1..])
  }

  /** Lower-casing lower-cased text changes nothing. */
  lemma LowerIdempotent(s: string)
    ensures Lower(Lower(s)) == Lower(s)
  {
  }

  /** `s.startsWith(prefix)`. */
  predicate StartsWith(s: string, prefix: string)
  {
    |prefix| <= |s| && s[..|prefix|] == prefix
  }

  /** The search box's test: the lower-cased name starts with the lower-cased query. */
  function MatchesQuery(query: string): Game -> bool
  {
    (g: Game) => StartsWith(Lower(g.name), Lower(query))
  }

  /** The view shown for the search box's current text. */
  function Search(games: seq<Game>, query: string): (r: seq<Game>)
    ensures forall g :: g in r <==> g in games && StartsWith(Lower(g.name), Lower(query))
    ensures forall g :: multiset(r)[g] == if MatchesQuery(query)(g) then multiset(games)[g] else 0
    ensures IsSubsequence(r, games)
  {
    FilterCounts(games, MatchesQuery(query));
    FilterIsSubsequence(games, MatchesQuery(query));
    Filter(games, MatchesQuery(query))
  }

  /** An empty search box shows every game, in list order. */
  lemma SearchEmptyQuery(games: seq<Game>)
    ensures Search(games, "") == games
  {
    assert Lower("") == "";
    FilterKeepsAll(games, MatchesQuery(""));
  }

  /** Searching the result of a search for the same text changes nothing. */
  lemma SearchIdempotent(games: seq<Game>, query: string)
    ensures Search(Search(games, query), query) == Search(games, query)
  {
    FilterIdempotent(games, MatchesQuery(query));
  }

  /** Queries that differ only in letter case show the same games. */
  lemma SearchIgnoresCase(games: seq<Game>, q1: string, q2: string)
    requires Lower(q1) == Lower(q2)
    ensures Search(games, q1) == Search(games, q2)
  {
    FilterCongruent(games, MatchesQuery(q1), MatchesQuery(q2));
  }

  /**
   * Typing more characters only narrows the view: searching the current view
   * for a longer query is searching the whole list for it.
   */
  lemma SearchNarrows(games: seq<Game>, query: string, longer: string)
    requires StartsWith(Lower(longer), Lower(query))
    ensures Search(Search(games, query), longer) == Search(games, longer)
  {
    var q, l := Lower(query), Lower(longer);
    forall g | MatchesQuery(longer)(g) ensures MatchesQuery(query)(g) {
      var n := Lower(g.name);
      assert n[..|l|] == l;
      assert n[..|q|] == l[..|q|];
    }
    FilterOfFilter(games, MatchesQuery(query), MatchesQuery(longer));
  }
}
