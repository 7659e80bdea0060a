/**
 * The game records the page is built from, and the two array combinators the
 * page's statistics and views are written with: `reduce` with a seed (a left
 * fold) and `filter` (an order-preserving selection).
 */
module Games {

  /** One crowdfunded game as parsed from the game data. */
  datatype Game = Game(
    name: string,
    description: string,
    img: string,
    backers: nat,
    pledged: nat,
    goal: nat)

  /** `s.reduce(step, seed)`: folds `step` over `s` from left to right. */
  function Reduce(s: seq<Game>, step: (nat, Game) -> nat, acc: nat): nat
    decreases |s|
  {
    if s == [] then acc else Reduce(s[1..], step, step(acc, s[0]))
  }

  /** Reference definition of the sum of one numeric field over a list. */
  function Sum(s: seq<Game>, field: Game -> nat): nat
    decreases |s|
  {
    if s == [] then 0 else field(s[0]) + Sum(s[1..], field)
  }

  /** `r` can be obtained from `s` by deleting elements (greedy matching). */
  predicate IsSubsequence(r: seq<Game>, s: seq<Game>)
    decreases |s|
  {
    if r == [] then true
    else if s == [] then false
    else if r[0] == s[0] then IsSubsequence(r[1..], s[1..])
    else IsSubsequence(r, s[1..])
  }

  /** Records in non-increasing order of `pledged`. */
  predicate SortedByPledged(s: seq<Game>)
  {
    forall i, j :: 0 <= i < j < |s| ==> s[i].pledged >= s[j].pledged
  }

  /**
   * `s.filter(keep)`: exactly the records satisfying `keep`, each as often as
   * in `s`, in their original relative order.
   */
  function Filter(s: seq<Game>, keep: Game -> bool): (r: seq<Game>)
    ensures |r| <= |s|
    ensures forall g :: g in r <==> g in s && keep(g)
    decreases |s|
  {
    if s == [] then []
    else if keep(s[0]) then [s[0]] + Filter(s[1..], keep)
    else Filter(s[1..], keep)
  }

  /** A filter keeps every selected record as many times as it occurs, and no other. */
  lemma {:induction false} FilterCounts(s: seq<Game>, keep: Game -> bool)
    ensures forall g :: multiset(Filter(s, keep))[g] == if keep(g) then multiset(s)[g] else 0
    decreases |s|
  {
    if s != [] {
      FilterCounts(s[1..], keep);
      assert s == [s[0]] + s[1..];
    }
  }

  /** A filter keeps the original relative order. */
  lemma {:induction false} FilterIsSubsequence(s: seq<Game>, keep: Game -> bool)
    ensures IsSubsequence(Filter(s, keep), s)
    decreases |s|
  {
    if s != [] {
      FilterIsSubsequence(s[1..], keep);
      var r := Filter(s, keep);
      if keep(s[0]) {
        assert r[0] == s[0] && r[1..] == Filter(s[1..], keep);
      } else if r != [] {
        assert r[0] in r;
      }
    }
  }

  /** The seeded left fold of `acc + field(g)` is the field's sum plus the seed. */
  lemma {:induction false} ReduceIsSum(s: seq<Game>, step: (nat, Game) -> nat, field: Game -> nat, acc: nat)
    requires forall a: nat, g: Game :: step(a, g) == a + field(g)
    ensures Reduce(s, step, acc) == acc + Sum(s, field)
    decreases |s|
  {
    if s != [] {
      ReduceIsSum(s[1..], step, field, step(acc, s[0]));
    }
  }

  /** The seeded left fold that adds one per record satisfying `keep` counts the filter. */
  lemma {:induction false} ReduceIsCount(s: seq<Game>, step: (nat, Game) -> nat, keep: Game -> bool, acc: nat)
    requires forall a: nat, g: Game :: step(a, g) == if keep(g) then a + 1 else a
    ensures Reduce(s, step, acc) == acc + |Filter(s, keep)|
    decreases |s|
  {
    if s != [] {
      ReduceIsCount(s[1..], step, keep, step(acc, s[0]));
    }
  }

  lemma {:induction false} SumAppend(a: seq<Game>, b: seq<Game>, field: Game -> nat)
    ensures Sum(a + b, field) == Sum(a, field) + Sum(b, field)
    decreases |a|
  {
    if a == [] {
      assert a + b == b;
    } else {
      assert (a + b)[1..] == a[1..] + b;
      SumAppend(a[1..], b, field);
    }
  }

  /** Taking one record out of a list takes its field out of the sum. */
  lemma SumRemove(t: seq<Game>, i: nat, field: Game -> nat)
    requires i < |t|
    ensures Sum(t, field) == field(t[i]) + Sum(t[..i] + t[i + 1..], field)
  {
    assert t == t[..i] + ([t[i]] + t[i + 1..]);
    SumAppend(t[..i], [t[i]] + t[i + 1..], field);
    SumAppend([t[i]], t[i + 1..], field);
    SumAppend(t[..i], t[i + 1..], field);
  }

  /** Taking one record out of a list takes it out of the list's multiset. */
  lemma MultisetRemove(t: seq<Game>, i: nat)
    requires i < |t|
    ensures multiset(t[..i] + t[i + 1..]) == multiset(t) - multiset{t[i]}
  {
    assert t == t[..i] + [t[i]] + t[i + 1..];
  }

  /** A sum does not depend on the order of the records it adds up. */
  lemma {:induction false} SumPermutation(s: seq<Game>, t: seq<Game>, field: Game -> nat)
    requires multiset(s) == multiset(t)
    ensures Sum(s, field) == Sum(t, field)
    decreases |s|
  {
    if s == [] {
      assert |t| == |multiset(t)| == 0;
    } else {
      var x := s[0];
      assert x in multiset(t);
      assert x in t;
      var i :| 0 <= i < |t| && t[i] == x;
      var rest := t[..i] + t[i + 1..];
      MultisetRemove(t, i);
      assert multiset(s[1..]) == multiset(s) - multiset{x} by {
        assert s == [x] + s[1..];
      }
      SumPermutation(s[1..], rest, field);
      SumRemove(t, i, field);
    }
  }

  /** Filtering a concatenation filters each part. */
  lemma {:induction false} FilterAppend(a: seq<Game>, b: seq<Game>, keep: Game -> bool)
    ensures Filter(a + b, keep) == Filter(a, keep) + Filter(b, keep)
    decreases |a|
  {
    if a == [] {
      assert a + b == b;
    } else {
      var c := a + b;
      assert c[0] == a[0] && c[1..] == a[1..] + b;
      FilterAppend(a[1..], b, keep);
    }
  }

  /** Filters that agree on every record of `s` select the same records. */
  lemma {:induction false} FilterCongruent(s: seq<Game>, p: Game -> bool, q: Game -> bool)
    requires forall g :: g in s ==> p(g) == q(g)
    ensures Filter(s, p) == Filter(s, q)
    decreases |s|
  {
    if s != [] {
      FilterCongruent(s[1..], p, q);
    }
  }

  /** A filter that every record passes returns the list unchanged. */
  lemma {:induction false} FilterKeepsAll(s: seq<Game>, keep: Game -> bool)
    requires forall g :: g in s ==> keep(g)
    ensures Filter(s, keep) == s
    decreases |s|
  {
    if s != [] {
      FilterKeepsAll(s[1..], keep);
    }
  }

  /** Filtering by `p` and then by a stronger `q` is filtering by `q` alone. */
  lemma {:induction false} FilterOfFilter(s: seq<Game>, p: Game -> bool, q: Game -> bool)
    requires forall g :: q(g) ==> p(g)
    ensures Filter(Filter(s, p), q) == Filter(s, q)
    decreases |s|
  {
    if s != [] {
      FilterOfFilter(s[1..], p, q);
      if p(s[0]) {
        assert Filter(s, p) == [s[0]] + Filter(s[1..], p);
        assert Filter(s, p)[1..] == Filter(s[1..], p);
      }
    }
  }

  /** Applying the same filter twice is applying it once. */
  lemma FilterIdempotent(s: seq<Game>, keep: Game -> bool)
    ensures Filter(Filter(s, keep), keep) == Filter(s, keep)
  {
    FilterOfFilter(s, keep, keep);
  }

  /** Filtering two permutations of each other yields permutations of each other. */
  lemma FilterPermutation(s: seq<Game>, t: seq<Game>, keep: Game -> bool)
    requires multiset(s) == multiset(t)
    ensures multiset(Filter(s, keep)) == multiset(Filter(t, keep))
    ensures |Filter(s, keep)| == |Filter(t, keep)|
  {
    var a, b := Filter(s, keep), Filter(t, keep);
    FilterCounts(s, keep);
    FilterCounts(t, keep);
    assert forall g :: multiset(a)[g] == multiset(b)[g];
    assert multiset(a) == multiset(b);
    assert |a| == |multiset(a)| == |multiset(b)| == |b|;
  }

  /** Any selection from a sorted list is sorted. */
  lemma {:induction false} FilterKeepsSorted(s: seq<Game>, keep: Game -> bool)
    requires SortedByPledged(s)
    ensures SortedByPledged(Filter(s, keep))
    decreases |s|
  {
    if s != [] {
      var rest := Filter(s[1..], keep);
      FilterKeepsSorted(s[1..], keep);
      if keep(s[0]) {
        forall j | 0 <= j < |rest| ensures s[0].pledged >= rest[j].pledged {
          assert rest[j] in s[1..];
        }
        assert Filter(s, keep) == [s[0]] + rest;
      }
    }
  }
}
