# Crowdfunded games page — view-model in Dafny

This project models the data layer of a one-page site that lists crowdfunded
games. Each game record has a `name`, `description`, `img`, `backers`,
`pledged` and `goal`. The page script (`index.js`) does the following:

- It computes summary statistics with `reduce`: total backers ("contributions"),
  total pledged, the number of games, and the number of unfunded games.
- It picks "game remains" or "games remain" for the description sentence.
- It builds list views with `filter`. The "unfunded" button shows
  `pledged < goal`. The "funded" button shows `pledged >= goal`. The search box
  shows games whose name, lower-cased, starts with the lower-cased query.
- It sorts the shared game array **in place** by the comparator
  `item2.pledged - item1.pledged`, then destructures the first two games to fill
  the "top games" cards.

Modules:

- `Games` (`games.dfy`) defines the record datatype. It also defines the two
  array combinators as functions with their laws. `Reduce` is the seeded left
  fold that `reduce` is. `Filter` is the order-preserving selection that
  `filter` is. `Sum` is a reference definition that the folds are proved
  against.
- `Selectors` (`selectors.dfy`) holds the button views and the search, with
  ASCII `toLowerCase` and `startsWith`.
- `Aggregates` (`aggregates.dfy`) holds the four statistics.
- `Ranking` (`ranking.dfy`) holds the in-place sort. It is an insertion sort on
  an `array<Game>` that uses the source's comparator. Its contract says three
  things. The result is in non-increasing `pledged` order. It is a permutation
  of the input. For every amount `k`, the games that pledged exactly `k` stay
  in their original relative order, which is the stability ECMAScript requires
  of `Array.prototype.sort`. This module also models the destructuring
  `[first, second, ...others]`.
- `Page` (`page.dfy`) follows the script's order. It computes the statistics on
  the list as loaded, sorts the list in place, then reads `first.name` and
  `second.name`. Every view built later reads the sorted array.

Two behaviours of the code shape the model. First, the sort reorders the
shared `GAMES_JSON` array in place (index.js:175), so the "show all" view,
the button filters and the search box all list games in descending `pledged`
order once the page has loaded (`ViewsFollowRanking`). Second, with fewer
than two games, `first.name` or `second.name` is read from `undefined` and
throws a `TypeError` (index.js:184, 189). `LeaderNames` returns that as
`Err(TypeError)`. The throw stops the script, so `LoadPage` also reports
whether the first card was filled and whether the search box was wired.

## Model

| member | source | states |
|---|---|---|
| `Games.Filter` | index.js:106 | `filter` returns exactly the records that pass the predicate (membership in both directions). |
| `Games.FilterCounts` | index.js:106 | Each selected record is kept as many times as it occurs in the input. Unselected records never appear. |
| `Games.FilterIsSubsequence` | index.js:106 | `filter` keeps the input's relative order: its result is a subsequence of the input. |
| `Games.FilterAppend` | index.js:175-177 | Filtering a concatenation gives the concatenation of the filtered parts. |
| `Games.FilterKeepsAll` | index.js:199-201 | A predicate that every record passes returns the list unchanged. |
| `Games.FilterOfFilter` | index.js:199-201 | Filtering by `p` and then by a stronger `q` is the same as filtering by `q` alone. |
| `Games.FilterIdempotent` | index.js:102-121 | Applying the same filter twice is the same as applying it once. |
| `Games.FilterCongruent` | index.js:199-201 | Two predicates that agree on every record of the list select the same sublist. |
| `Games.FilterPermutation` | index.js:150-153 | Filters of two permutations of each other are permutations of each other, and have the same length. |
| `Games.FilterKeepsSorted` | index.js:199 | Any selection from a list in descending `pledged` order is itself in descending order. |
| `Games.ReduceIsSum` | index.js:71-74 | A seeded `reduce` whose step adds a field equals the seed plus the field's sum. |
| `Games.ReduceIsCount` | index.js:150-153 | A seeded `reduce` whose step adds one for each record passing `p` equals the seed plus the length of `filter(p)`. |
| `Games.SumAppend` | index.js:83 | The sum over a concatenation is the sum of the parts' sums. |
| `Games.SumPermutation` | index.js:83 | A sum does not depend on the order of the records. |
| `Selectors.FilterUnfunded` | index.js:106 | The "unfunded" view holds exactly the games with `pledged < goal`, with their multiplicities, in list order. |
| `Selectors.FilterFunded` | index.js:117 | The "funded" view holds exactly the games with `pledged >= goal`, with their multiplicities, in list order. |
| `Selectors.FundingPartition` | index.js:102-121 | The two views together hold every game exactly once, as multisets, so their lengths add up to the list's length. |
| `Selectors.ZeroGoalIsFunded` | index.js:117 | A game whose goal is 0 is always in the funded view and never in the unfunded view. |
| `Selectors.ButtonViewsIdempotent` | index.js:102-121 | Re-applying either button's filter to its own view changes nothing. |
| `Selectors.Lower` | index.js:200 | `toLowerCase` keeps the length, lower-cases `A`..`Z` position by position, and leaves no upper-case ASCII letter. |
| `Selectors.LowerIdempotent` | index.js:200 | Lower-casing text that is already lower-cased changes nothing. |
| `Selectors.Search` | index.js:199-201 | The search view holds exactly the games whose lower-cased name starts with the lower-cased query. Each such game appears as often as in the list, and in list order. |
| `Selectors.SearchEmptyQuery` | index.js:198-201 | An empty query shows the whole list unchanged. |
| `Selectors.SearchIdempotent` | index.js:198-201 | Searching a search result with the same query changes nothing. |
| `Selectors.SearchIgnoresCase` | index.js:199-201 | Two queries that lower-case to the same text show the same games. |
| `Selectors.SearchNarrows` | index.js:198-201 | Searching a view for a longer query (whose lower-cased form extends the shorter one) gives the same result as searching the whole list. |
| `Aggregates.TotalContributions` | index.js:71-74 | The backers `reduce` equals the sum of `backers`, and is 0 for an empty list. |
| `Aggregates.TotalPledged` | index.js:83 | The pledged `reduce` equals the sum of `pledged`, and is 0 for an empty list. |
| `Aggregates.TotalGames` | index.js:91 | The number of games is the list's length, which equals the funded view's length plus the unfunded view's length. |
| `Aggregates.UnfundedGamesCount` | index.js:150-153 | The counting `reduce` with a ternary equals the length of the "unfunded" view. |
| `Aggregates.StatisticsIgnoreOrder` | index.js:71-153 | All four statistics give the same values for any permutation of the list. |
| `Ranking.Compare` | index.js:175-177 | The comparator is negative exactly when `item1` pledged more, and zero exactly on a tie. |
| `Ranking.InsertNext` | index.js:175-177 | One insertion step moves `a[i]` left past the earlier entries that pledged less, and leaves the rest of the array as it was. |
| `Ranking.InsertKeepsTies` | index.js:175-177 | Placing `x` in front of entries that all pledged less appends `x` to its tie group. |
| `Ranking.InsertStep` | index.js:175-177 | One insertion keeps the prefix sorted, a permutation of the input prefix, and stable. |
| `Ranking.SortByPledged` | index.js:175-177 | The in-place sort leaves the array in non-increasing `pledged` order, as a permutation of its old contents. Games with equal `pledged` keep their old relative order. |
| `Ranking.Destructure` | index.js:180 | `[first, second, ...others]` binds `first` exactly when there is at least one game and `second` exactly when there are at least two. Putting the bindings back together gives the list. |
| `Ranking.PodiumOrder` | index.js:180 | On the sorted list, `first.pledged >= second.pledged >= r.pledged` for every `r` in `others`, and `first` pledged at least as much as any game. |
| `Page.RemainPhrase` | index.js:158-160 | The phrase is "game remains" exactly when the count is 1, and "games remain" otherwise. |
| `Page.PhraseAgreesWithUnfundedView` | index.js:150-160 | The description is singular exactly when the "unfunded" view holds one game. |
| `Page.Summarize` | index.js:71-160 | The statistics cards show the sums of `backers` and `pledged`, the list's length, and the unfunded count, which equals the list's length minus the funded view's length. The phrase is "game remains" when that count is 1 and "games remain" otherwise. |
| `Page.SummaryIgnoresOrder` | index.js:71-177 | The statistics and the description do not depend on the list's order. Computing them before the sort gives the same result as computing them after. |
| `Page.LeaderNames` | index.js:183-190 | Reading `first.name` and `second.name` succeeds exactly when both bindings exist, and a `TypeError` is raised otherwise. |
| `Page.ViewsFollowRanking` | index.js:175-201 | On the sorted list, both button views and every search view are in descending `pledged` order. |
| `Page.LoadPage` | index.js:71-198 | The summary is the same before and after the in-place sort. The array ends sorted, stable and a permutation of its old contents. The leader names are the first two games' names exactly when there are at least two games, and those games lead the ranking. The first card shows the top game's name whenever there is at least one game. The search box is wired exactly when both names were read without a `TypeError`. The later views read the sorted order. |

## Left out

- DOM work is not modelled, because it only drives the browser. This covers
  `deleteChildElements`, the card template and loop in `addGamesToPage`,
  element look-ups, `innerHTML`, `append` and `appendChild`.
- The "show all" button is not modelled. It re-renders `GAMES_JSON` unchanged,
  which after loading is the sorted array that `LoadPage` describes.
- Event wiring (`addEventListener`) and `scrollIntoView` are not modelled.
  Each handler corresponds to one function here (`FilterUnfunded`,
  `FilterFunded`, `Search`) applied to the current array contents. This holds
  for the search box only when the script got past the top-game cards. With
  fewer than two games the `TypeError` stops the script, so neither the search
  listener nor the navigation listener is registered. With exactly one game the
  first card is still filled before the throw. `LoadPage` reports both facts as
  `searchWired` and `firstCard`. The navigation listener itself is not modelled.
- Loading the data is not modelled: `import GAMES_DATA` and `JSON.parse`.
  The game list is an input. `games.js` is not part of this model.
- `toLocaleString` number formatting is not modelled, and neither is the rest
  of the description sentence's string interpolation. Only the singular or
  plural choice is modelled.
- Numbers are natural numbers, not JavaScript doubles. There is no rounding,
  no `NaN`, and no negative amount. As a result, every total is non-negative
  by its type.
- Case mapping is limited to ASCII. `Lower` maps only `A`..`Z`. Full Unicode
  `toLowerCase` is not modelled.
- The sorting algorithm itself is not modelled. ECMAScript fixes what a stable
  sort with a consistent comparator produces, but not how. `SortByPledged` is
  an insertion sort whose contract states that result: sorted, a permutation,
  and stable.
