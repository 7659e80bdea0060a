/**
 * The "top games" section: the game list is sorted in place by the comparator
 * `(item1, item2) => item2.pledged - item1.pledged`, stably, and its first two
 * entries are taken apart by `const [first, second, ...others] = sortedGames`.
 */
module Ranking {
  import opened Games

  datatype Option<T> = None | Some(value: T)

  /** The sort comparator: negative when `item1` must come before `item2`. */
  function Compare(item1: Game, item2: Game): (r: int)
    ensures r < 0 <==> item1.pledged > item2.pledged
    ensures r == 0 <==> item1.pledged == item2.pledged
  {
    item2.pledged - item1.pledged
  }

  /** Selects the games that raised exactly `k`. */
  function HasPledged(k: nat): Game -> bool
  {
    (g: Game) => g.pledged == k
  }

  /** The games that raised exactly `k`, in list order. */
  function Ties(s: seq<Game>, k: nat): seq<Game>
  {
    Filter(s, HasPledged(k))
  }

  /**
   * `t` keeps every group of equally-pledged games of `s` in its original
   * relative order (what a stable sort promises).
   */
  ghost predicate SameTies(s: seq<Game>, t: seq<Game>)
  {
    forall k: nat :: Ties(s, k) == Ties(t, k)
  }

  /**
   * One step of insertion sort: moves `a[i]` left past every earlier entry that
   * the comparator puts after it, and returns where it landed.
   */
  method InsertNext(a: array<Game>, i: nat) returns (j: nat)
    requires i < a.Length
    modifies a
    ensures j <= i
    ensures a[..i + 1] == old(a[..i])[..j] + [old(a[i])] + old(a[..i])[j..]
    ensures a[i + 1..] == old(a[i + 1..])
    ensures forall m :: j <= m < i ==> old(a[m]).pledged < old(a[i]).pledged
    ensures j > 0 ==> old(a[j - 1]).pledged >= old(a[i]).pledged
  {
    ghost var s := a[..];
    var x := a[i];
    j := i;
    while j > 0 && Compare(a[j - 1], x) > 0
      invariant j <= i
      invariant forall m :: 0 <= m < j ==> a[m] == s[m]
      invariant forall m :: j < m <= i ==> a[m] == s[m - 1]
      invariant forall m :: i < m < a.Length ==> a[m] == s[m]
      invariant forall m :: j <= m < i ==> s[m].pledged < x.pledged
    {
      a[j] := a[j - 1];
      j := j - 1;
    }
    a[j] := x;
    ShiftedInsert(s, a[..], i, j, x);
  }

  /** Reads back, as sequences, the array contents `InsertNext` leaves behind. */
  lemma ShiftedInsert(s: seq<Game>, t: seq<Game>, i: nat, j: nat, x: Game)
    requires j <= i < |s| == |t|
    requires forall m :: 0 <= m < j ==> t[m] == s[m]
    requires t[j] == x
    requires forall m :: j < m <= i ==> t[m] == s[m - 1]
    requires forall m :: i < m < |t| ==> t[m] == s[m]
    ensures t[..i + 1] == s[..i][..j] + [x] + s[..i][j..]
    ensures t[i + 1..] == s[i + 1..]
  {
    var placed := s[..i][..j] + [x] + s[..i][j..];
    forall m | 0 <= m <= i ensures t[m] == placed[m] {
      if m > j {
        assert placed[m] == s[m - 1];
      }
    }
  }

  /** Inserting `x` after the entries that raised at least as much keeps the order. */
  lemma InsertKeepsSorted(t: seq<Game>, x: Game, j: nat)
    requires SortedByPledged(t) && j <= |t|
    requires j > 0 ==> t[j - 1].pledged >= x.pledged
    requires forall m :: j <= m < |t| ==> t[m].pledged < x.pledged
    ensures SortedByPledged(t[..j] + [x] + t[j..])
  {
  }

  lemma TiesAppend(a: seq<Game>, b: seq<Game>, k: nat)
    ensures Ties(a + b, k) == Ties(a, k) + Ties(b, k)
  {
    FilterAppend(a, b, HasPledged(k));
  }

  lemma {:induction false} TiesNone(u: seq<Game>, k: nat)
    requires forall g :: g in u ==> g.pledged != k
    ensures Ties(u, k) == []
    decreases |u|
  {
    if u != [] {
      assert u[0] in u;
      TiesNone(u[1..], k);
    }
  }

  /**
   * Placing `x` in front of entries that all raised less than it appends `x`
   * to its tie group, as if it had been placed last.
   */
  lemma InsertKeepsTies(left: seq<Game>, x: Game, right: seq<Game>, k: nat)
    requires forall g :: g in right ==> g.pledged < x.pledged
    ensures Ties(left + [x] + right, k) == Ties(left + right + [x], k)
  {
    var lx := left + [x];
    var lr := left + right;
    TiesAppend(lx, right, k);
    TiesAppend(left, [x], k);
    TiesAppend(lr, [x], k);
    TiesAppend(left, right, k);
    var a, b, c := Ties(left, k), Ties([x], k), Ties(right, k);
    assert Ties(lx + right, k) == a + b + c;
    assert Ties(lr + [x], k) == a + c + b;
    if k == x.pledged {
      TiesNone(right, k);
      assert c == [];
    } else {
      TiesNone([x], k);
      assert b == [];
    }
  }

  /** An insertion adds `x` to the multiset of the entries. */
  lemma InsertPermutes(left: seq<Game>, x: Game, right: seq<Game>)
    ensures multiset(left + [x] + right) == multiset(left + right) + multiset{x}
  {
  }

  /** An insertion after every tie of `x` keeps every tie group of `done` followed by `x`. */
  lemma InsertKeepsAllTies(done: seq<Game>, before: seq<Game>, x: Game, j: nat)
    requires j <= |done| && SameTies(done, before)
    requires forall m :: j <= m < |done| ==> done[m].pledged < x.pledged
    ensures SameTies(done[..j] + [x] + done[j..], before + [x])
  {
    var left, right := done[..j], done[j..];
    assert done == left + right;
    assert forall g :: g in right ==> g.pledged < x.pledged;
    forall k: nat ensures Ties(left + [x] + right, k) == Ties(before + [x], k) {
      InsertKeepsTies(left, x, right, k);
      TiesAppend(done, [x], k);
      TiesAppend(before, [x], k);
    }
  }

  /**
   * One insertion keeps the sorted prefix sorted, a permutation of the input
   * prefix it came from, and stable.
   */
  lemma InsertStep(done: seq<Game>, before: seq<Game>, x: Game, j: nat)
    requires SortedByPledged(done) && j <= |done|
    requires multiset(done) == multiset(before) && SameTies(done, before)
    requires j > 0 ==> done[j - 1].pledged >= x.pledged
    requires forall m :: j <= m < |done| ==> done[m].pledged < x.pledged
    ensures SortedByPledged(done[..j] + [x] + done[j..])
    ensures multiset(done[..j] + [x] + done[j..]) == multiset(before + [x])
    ensures SameTies(done[..j] + [x] + done[j..], before + [x])
  {
    InsertKeepsSorted(done, x, j);
    InsertPermutes(done[..j], x, done[j..]);
    assert done[..j] + done[j..] == done;
    InsertKeepsAllTies(done, before, x, j);
  }

  /**
   * The outer loop's invariant on the whole array contents `cur`: its first `i`
   * entries are a sorted, stable permutation of the input's first `i`, and the
   * rest is still as in the input.
   */
  ghost predicate SortedUpTo(input: seq<Game>, cur: seq<Game>, i: nat)
  {
    i <= |cur| == |input|
    && SortedByPledged(cur[..i])
    && multiset(cur[..i]) == multiset(input[..i])
    && SameTies(cur[..i], input[..i])
    && cur[i..] == input[i..]
  }

  /** The outer loop's step: inserting `prev[i]` at `j` extends the sorted prefix by one. */
  lemma SortStep(input: seq<Game>, prev: seq<Game>, next: seq<Game>, i: nat, j: nat)
    requires SortedUpTo(input, prev, i) && i < |prev| == |next| && j <= i
    requires next[..i + 1] == prev[..i][..j] + [prev[i]] + prev[..i][j..]
    requires next[i + 1..] == prev[i + 1..]
    requires forall m :: j <= m < i ==> prev[m].pledged < prev[i].pledged
    requires j > 0 ==> prev[j - 1].pledged >= prev[i].pledged
    ensures SortedUpTo(input, next, i + 1)
  {
    var done, x := prev[..i], prev[i];
    assert x == input[i] by {
      assert prev[i..][0] == input[i..][0];
    }
    assert input[..i + 1] == input[..i] + [x];
    assert forall m :: j <= m < |done| ==> done[m].pledged < x.pledged;
    InsertStep(done, input[..i], x, j);
    assert next[i + 1..] == input[i + 1..] by {
      assert prev[i + 1..] == prev[i..][1..];
      assert input[i + 1..] == input[i..][1..];
    }
  }

  /** Once the sorted prefix is the whole array, the array is sorted. */
  lemma SortDone(input: seq<Game>, cur: seq<Game>)
    requires SortedUpTo(input, cur, |cur|)
    ensures SortedByPledged(cur)
    ensures multiset(cur) == multiset(input)
    ensures SameTies(cur, input)
  {
    assert cur == cur[..|cur|];
    assert input == input[..|cur|];
  }

  /**
   * `GAMES_JSON.sort(Compare)`: reorders the array in place into non-increasing
   * `pledged` order, as a permutation, keeping equally-pledged games in their
   * original relative order.
   */
  method SortByPledged(a: array<Game>)
    modifies a
    ensures SortedByPledged(a[..])
    ensures multiset(a[..]) == multiset(old(a[..]))
    ensures SameTies(a[..], old(a[..]))
  {
    ghost var input := a[..];
    var i := 0;
    while i < a.Length
      invariant SortedUpTo(input, a[..], i)
    {
      ghost var prev := a[..];
      var j := InsertNext(a, i);
      SortStep(input, prev, a[..], i, j);
      i := i + 1;
    }
    SortDone(input, a[..]);
  }

  /** What `const [first, second, ...others] = games` binds; missing entries are `undefined`. */
  datatype Podium = Podium(first: Option<Game>, second: Option<Game>, others: seq<Game>)

  function Destructure(games: seq<Game>): (p: Podium)
    ensures p.first.Some? <==> |games| >= 1
    ensures p.second.Some? <==> |games| >= 2
    ensures Reassemble(p) == games
  {
    if |games| == 0 then Podium(None, None, [])
    else if |games| == 1 then Podium(Some(games[0]), None, [])
    else Podium(Some(games[0]), Some(games[1]), games[2..])
  }

  /** The list the three bindings came from. */
  function Reassemble(p: Podium): seq<Game>
  {
    (if p.first.Some? then [p.first.value] else [])
    + (if p.second.Some? then [p.second.value] else [])
    + p.others
  }

  /** On a sorted list the first binding raised the most, the second the next most. */
  lemma PodiumOrder(games: seq<Game>)
    requires SortedByPledged(games) && |games| >= 2
    ensures Destructure(games).first.value.pledged >= Destructure(games).second.value.pledged
    ensures forall g :: g in Destructure(games).others ==> Destructure(games).second.value.pledged >= g.pledged
    ensures forall g :: g in games ==> Destructure(games).first.value.pledged >= g.pledged
  {
    var p := Destructure(games);
    forall g | g in p.others ensures p.second.value.pledged >= g.pledged {
      var m :| 0 <= m < |p.others| && p.others[m] == g;
      assert games[m + 2] == g;
    }
  }
}
