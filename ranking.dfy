/** The ranking arithmetic of fetchUserRanking (graphql/public/js/graphql.js):
    sum each user's XP amounts, keep the positive sums, sort them in
    descending order and rank the user at the first index holding their sum. */
module Ranking {

  /** A user row of the ranking query: the amounts of its XP transactions. */
  datatype RankUser = RankUser(amounts: seq<int>)

  /** The query's data: `user` (the signed-in user, at most one row) and `allUsers`. */
  datatype RankingData = RankingData(user: seq<RankUser>, allUsers: seq<RankUser>)

  /** The `{rank, total}` record. */
  datatype Standing = Standing(rank: nat, total: nat)

  /** `transactions.reduce((sum, t) => sum + t.amount, 0)`. */
  function Sum(s: seq<int>): (total: int)
    ensures (forall i :: 0 <= i < |s| ==> s[i] >= 0) ==> total >= 0
  {
    if s == [] then 0 else s[0] + Sum(s[1..])
  }

  /** `reduce` folds from the left: one more transaction adds its amount to
      the running sum. */
  lemma {:induction false} SumAppend(s: seq<int>, x: int)
    ensures Sum(s + [x]) == Sum(s) + x
  {
    if s == [] {
      assert [] + [x] == [x];
    } else {
      assert (s + [x])[1..] == s[1..] + [x];
      SumAppend(s[1..], x);
    }
  }

  /** `allUsers.map(u => sum)`. */
  function Totals(users: seq<RankUser>): (t: seq<int>)
    ensures |t| == |users|
  {
    if users == [] then [] else [Sum(users[0].amounts)] + Totals(users[1..])
  }

  /** The i-th total is the i-th user's sum. */
  lemma {:induction false} TotalsAt(users: seq<RankUser>, i: nat)
    requires i < |users|
    ensures Totals(users)[i] == Sum(users[i].amounts)
  {
    if i > 0 {
      TotalsAt(users[1..], i - 1);
    }
  }

  /** `.filter(xp => xp > 0)`. */
  function Positives(s: seq<int>): (p: seq<int>)
    ensures |p| <= |s|
    ensures forall x :: x in p <==> x in s && x > 0
  {
    if s == [] then [] else (if s[0] > 0 then [s[0]] else []) + Positives(s[1..])
  }

  predicate SortedDesc(s: seq<int>) {
    forall i, j :: 0 <= i < j < |s| ==> s[i] >= s[j]
  }

  function Insert(x: int, s: seq<int>): (r: seq<int>)
    requires SortedDesc(s)
    ensures |r| == |s| + 1
    ensures r[0] == (if s == [] || x >= s[0] then x else s[0])
    ensures SortedDesc(r)
    ensures multiset(r) == multiset(s) + multiset{x}
  {
    if s == [] then [x]
    else if x >= s[0] then SortedCons(x, s); [x] + s
    else
      SortedTail(s);
      var t := Insert(x, s[1..]);
      InsertBehind(x, s, t);
      [s[0]] + t
  }

  /** The tail of a descending list is descending and starts no higher
      than the head. */
  lemma SortedTail(s: seq<int>)
    requires SortedDesc(s) && s != []
    ensures SortedDesc(s[1..])
    ensures |s| > 1 ==> s[0] >= s[1..][0]
  {
    var tail := s[1..];
    forall i, j | 0 <= i < j < |tail| ensures tail[i] >= tail[j] {
      assert tail[i] == s[i + 1] && tail[j] == s[j + 1];
    }
  }

  /** Inserting behind the head: the head followed by the tail with x
      inserted is descending and holds the entries of s and x. */
  lemma InsertBehind(x: int, s: seq<int>, t: seq<int>)
    requires s != [] && x < s[0]
    requires |s| > 1 ==> s[0] >= s[1..][0]
    requires SortedDesc(t) && |t| == |s|
    requires t[0] == (if s[1..] == [] || x >= s[1..][0] then x else s[1..][0])
    requires multiset(t) == multiset(s[1..]) + multiset{x}
    ensures SortedDesc([s[0]] + t)
    ensures multiset([s[0]] + t) == multiset(s) + multiset{x}
  {
    var h, tail := s[0], s[1..];
    SortedCons(h, t);
    assert multiset(s) == multiset{h} + multiset(tail) by { assert s == [h] + tail; }
    assert multiset([h] + t) == multiset{h} + multiset(t);
  }

  /** A head no smaller than the first entry keeps a descending list
      descending. */
  lemma SortedCons(h: int, t: seq<int>)
    requires SortedDesc(t) && (t == [] || h >= t[0])
    ensures SortedDesc([h] + t)
  {
    var r := [h] + t;
    forall i, j | 0 <= i < j < |r|
      ensures r[i] >= r[j]
    {
      assert r[j] == t[j - 1];
      if i > 0 {
        assert r[i] == t[i - 1];
      } else if j > 1 {
        assert t[0] >= t[j - 1];
      }
    }
  }

  /** `.sort((a, b) => b - a)`: the descending permutation of its input. */
  function SortDesc(s: seq<int>): (r: seq<int>)
    ensures SortedDesc(r)
    ensures multiset(r) == multiset(s)
  {
    if s == [] then []
    else
      assert s == [s[0]] + s[1..];
      Insert(s[0], SortDesc(s[1..]))
  }

  /** `.findIndex(xp => xp === x)`: the first index holding x, or -1. */
  function FindIndex(s: seq<int>, x: int): (i: int)
    ensures -1 <= i < |s|
    ensures i == -1 <==> x !in s
    ensures i >= 0 ==> s[i] == x && forall j :: 0 <= j < i ==> s[j] != x
  {
    if s == [] then -1
    else if s[0] == x then 0
    else
      var k := FindIndex(s[1..], x);
      assert x !in s[1..] ==> x !in s by {
        assert s == [s[0]] + s[1..];
      }
      if k == -1 then -1 else k + 1
  }

  /** `data.user[0]?.transactions.reduce(...) || 0`: the signed-in user's sum,
      0 when the user row is missing. */
  function UserXP(data: RankingData): (xp: int)
    ensures data.user == [] ==> xp == 0
    ensures data.user != [] ==> xp == Sum(data.user[0].amounts)
  {
    if |data.user| > 0 then Sum(data.user[0].amounts) else 0
  }

  /** The ranking computed from the query's data. */
  function ComputeRanking(data: RankingData): (r: Standing)
    ensures r.total == |Positives(Totals(data.allUsers))|
    ensures r.rank <= r.total
    ensures r.rank > 0 ==> SortDesc(Positives(Totals(data.allUsers)))[r.rank - 1] == UserXP(data)
  {
    var positives := Positives(Totals(data.allUsers));
    var ranked := SortDesc(positives);
    assert |ranked| == |multiset(ranked)| == |multiset(positives)| == |positives|;
    var rank := FindIndex(ranked, UserXP(data)) + 1;
    Standing(rank, |ranked|)
  }

  /** The number of entries strictly greater than x. */
  function CountAbove(s: seq<int>, x: int): nat {
    if s == [] then 0 else (if s[0] > x then 1 else 0) + CountAbove(s[1..], x)
  }

  lemma {:induction false} CountAboveConcat(a: seq<int>, b: seq<int>, x: int)
    ensures CountAbove(a + b, x) == CountAbove(a, x) + CountAbove(b, x)
  {
    if a != [] {
      assert (a + b)[1..] == a[1..] + b;
      CountAboveConcat(a[1..], b, x);
    } else {
      assert a + b == b;
    }
  }

  /** Taking out the entry at j removes exactly its own contribution. */
  lemma CountAboveRemove(b: seq<int>, j: nat, x: int)
    requires j < |b|
    ensures CountAbove(b, x) == CountAbove(b[..j] + b[j + 1..], x) + (if b[j] > x then 1 else 0)
  {
    var left, rest, right := b[..j], b[j..], b[j + 1..];
    assert left + rest == b;
    assert rest[0] == b[j] && rest[1..] == right;
    CountAboveConcat(left, rest, x);
    CountAboveConcat(left, right, x);
  }

  /** CountAbove depends only on the multiset of entries. */
  lemma {:induction false} CountAbovePermutation(a: seq<int>, b: seq<int>, x: int)
    requires multiset(a) == multiset(b)
    ensures CountAbove(a, x) == CountAbove(b, x)
    decreases |a|
  {
    if a == [] {
      assert |multiset(b)| == 0;
    } else {
      assert a == [a[0]] + a[1..];
      assert a[0] in multiset(b);
      var j :| 0 <= j < |b| && b[j] == a[0];
      var rest := b[..j] + b[j + 1..];
      MultisetRemove(b, j);
      CountAbovePermutation(a[1..], rest, x);
      CountAboveRemove(b, j, x);
    }
  }

  /** Taking out the entry at j takes one copy of it out of the multiset. */
  lemma MultisetRemove<T>(b: seq<T>, j: nat)
    requires j < |b|
    ensures multiset(b[..j] + b[j + 1..]) == multiset(b) - multiset{b[j]}
  {
    var left, rest, right := b[..j], b[j..], b[j + 1..];
    assert left + rest == b;
    assert rest == [b[j]] + right;
  }

  lemma {:induction false} TotalsConcat(a: seq<RankUser>, b: seq<RankUser>)
    ensures Totals(a + b) == Totals(a) + Totals(b)
  {
    if a != [] {
      assert (a + b)[1..] == a[1..] + b;
      TotalsConcat(a[1..], b);
    } else {
      assert a + b == b;
    }
  }

  /** Taking out the user at j takes exactly that user's sum out of the
      totals. */
  lemma TotalsRemove(b: seq<RankUser>, j: nat)
    requires j < |b|
    ensures multiset(Totals(b)) == multiset{Sum(b[j].amounts)} + multiset(Totals(b[..j] + b[j + 1..]))
  {
    var left, rest, right := b[..j], b[j..], b[j + 1..];
    assert left + rest == b;
    assert rest[0] == b[j] && rest[1..] == right;
    TotalsConcat(left, rest);
    TotalsConcat(left, right);
  }

  /** Permuting the users permutes their totals. */
  lemma {:induction false} TotalsPermutation(a: seq<RankUser>, b: seq<RankUser>)
    requires multiset(a) == multiset(b)
    ensures multiset(Totals(a)) == multiset(Totals(b))
    decreases |a|
  {
    if a == [] {
      assert |multiset(b)| == 0;
    } else {
      var u, tail := a[0], a[1..];
      assert multiset(a) == multiset{u} + multiset(tail) by { assert a == [u] + tail; }
      assert u in b by { assert u in multiset(b); }
      var j :| 0 <= j < |b| && b[j] == u;
      var rest := b[..j] + b[j + 1..];
      MultisetRemove(b, j);
      TotalsPermutation(tail, rest);
      TotalsRemove(b, j);
      var h := Sum(u.amounts);
      assert Totals(a) == [h] + Totals(tail);
      assert multiset(Totals(a)) == multiset{h} + multiset(Totals(tail));
      assert multiset(Totals(b)) == multiset{h} + multiset(Totals(rest));
    }
  }

  /** The filter keeps exactly the positive entries, and for a non-negative
      threshold it keeps every entry above it. */
  lemma {:induction false} PositivesFacts(s: seq<int>, x: int)
    requires x >= 0
    ensures |Positives(s)| == CountAbove(s, 0)
    ensures forall y :: y in Positives(s) <==> y in s && y > 0
    ensures CountAbove(Positives(s), x) == CountAbove(s, x)
  {
    if s != [] {
      PositivesFacts(s[1..], x);
      var head := if s[0] > 0 then [s[0]] else [];
      CountAboveConcat(head, Positives(s[1..]), x);
      assert s == [s[0]] + s[1..];
    }
  }

  lemma {:induction false} NoneAbove(s: seq<int>, x: int)
    requires forall i :: 0 <= i < |s| ==> s[i] <= x
    ensures CountAbove(s, x) == 0
  {
    if s != [] {
      NoneAbove(s[1..], x);
    }
  }

  /** In a descending sequence, the first index of x is the number of
      entries greater than x. */
  lemma {:induction false} SortedFirstIndex(s: seq<int>, x: int)
    requires SortedDesc(s) && x in s
    ensures FindIndex(s, x) == CountAbove(s, x)
  {
    if s[0] == x {
      NoneAbove(s, x);
    } else {
      assert s == [s[0]] + s[1..];
      assert x in s[1..];
      var k :| 1 <= k < |s| && s[k] == x;
      assert s[0] > x;
      SortedTail(s);
      SortedFirstIndex(s[1..], x);
    }
  }

  /** fetchUserRanking's result: `total` counts the users whose sum is
      positive; `rank` is 1 + the number of totals strictly above the user's
      when the user's sum is among the positive totals, and 0 otherwise. */
  lemma RankingCharacterization(data: RankingData)
    ensures var t, x, r := Totals(data.allUsers), UserXP(data), ComputeRanking(data);
      && r.total == CountAbove(t, 0)
      && (x > 0 && x in t ==> r.rank == 1 + CountAbove(t, x))
      && (!(x > 0 && x in t) ==> r.rank == 0)
      && r.rank <= r.total
  {
    var t, x := Totals(data.allUsers), UserXP(data);
    var p := Positives(t);
    var ranked := SortDesc(p);
    PositivesFacts(t, if x >= 0 then x else 0);
    assert |ranked| == |multiset(ranked)| == |multiset(p)| == |p|;
    assert x in ranked <==> x in p by {
      assert x in ranked <==> x in multiset(ranked);
    }
    if x > 0 && x in t {
      SortedFirstIndex(ranked, x);
      CountAbovePermutation(ranked, p, x);
    }
  }

  /** The ranking does not depend on the order of `allUsers`. */
  lemma RankingPermutationInvariant(data: RankingData, reordered: seq<RankUser>)
    requires multiset(reordered) == multiset(data.allUsers)
    ensures ComputeRanking(data.(allUsers := reordered)) == ComputeRanking(data)
  {
    var other := data.(allUsers := reordered);
    var t, t' := Totals(data.allUsers), Totals(reordered);
    TotalsPermutation(reordered, data.allUsers);
    RankingCharacterization(data);
    RankingCharacterization(other);
    CountAbovePermutation(t, t', 0);
    CountAbovePermutation(t, t', UserXP(data));
    assert UserXP(data) in t <==> UserXP(data) in t' by {
      assert UserXP(data) in t <==> UserXP(data) in multiset(t);
      assert UserXP(data) in t' <==> UserXP(data) in multiset(t');
    }
  }

  /** A present value has strictly fewer totals above it than any smaller
      value has. */
  lemma {:induction false} CountAboveStrict(t: seq<int>, x: int, y: int)
    requires y < x && x in t
    ensures CountAbove(t, y) > CountAbove(t, x)
  {
    CountAboveMonotone(t[1..], x, y);
    if t[0] != x {
      assert x in t[1..] by { assert t == [t[0]] + t[1..]; }
      CountAboveStrict(t[1..], x, y);
    }
  }

  lemma {:induction false} CountAboveMonotone(t: seq<int>, x: int, y: int)
    requires y <= x
    ensures CountAbove(t, y) >= CountAbove(t, x)
  {
    if t != [] {
      CountAboveMonotone(t[1..], x, y);
    }
  }

  /** Two signed-in users facing the same `allUsers`: the one with the larger
      positive total gets the strictly smaller rank number. */
  lemma RankingOrder(d1: RankingData, d2: RankingData)
    requires d1.allUsers == d2.allUsers
    requires UserXP(d1) > UserXP(d2) > 0
    requires UserXP(d1) in Totals(d1.allUsers) && UserXP(d2) in Totals(d2.allUsers)
    ensures 0 < ComputeRanking(d1).rank < ComputeRanking(d2).rank
  {
    RankingCharacterization(d1);
    RankingCharacterization(d2);
    CountAboveStrict(Totals(d1.allUsers), UserXP(d1), UserXP(d2));
  }

  /** Two signed-in users facing the same `allUsers` with equal totals get
      the same standing: a tie shares its rank. */
  lemma RankingTies(d1: RankingData, d2: RankingData)
    requires d1.allUsers == d2.allUsers && UserXP(d1) == UserXP(d2)
    ensures ComputeRanking(d1) == ComputeRanking(d2)
    ensures UserXP(d1) > 0 && UserXP(d1) in Totals(d1.allUsers) ==>
      ComputeRanking(d1).rank == ComputeRanking(d2).rank == 1 + CountAbove(Totals(d1.allUsers), UserXP(d1))
  {
    RankingCharacterization(d1);
  }

  /** Totals 100, 100, 50 and 0: a user with 100 ranks first, a user with
      50 ranks third, a user without a row gets rank 0, and three users are
      ranked whoever asks. */
  lemma RankingExample(user: seq<RankUser>, all: seq<RankUser>)
    requires Totals(all) == [100, 100, 50, 0]
    requires user == [RankUser([100])] || user == [RankUser([50])] || user == []
    ensures var r := ComputeRanking(RankingData(user, all));
      && r.total == 3
      && (user == [RankUser([100])] ==> r.rank == 1)
      && (user == [RankUser([50])] ==> r.rank == 3)
      && (user == [] ==> r.rank == 0)
  {
    var data := RankingData(user, all);
    var t := Totals(all);
    RankingCharacterization(data);
    ExampleCounts();
    if user == [RankUser([100])] {
      assert UserXP(data) == 100 && t[0] == 100;
    } else if user == [RankUser([50])] {
      assert UserXP(data) == 50 && t[2] == 50;
    } else {
      assert UserXP(data) == 0 by { assert data.user == []; }
    }
  }

  /** The totals of the example's users, and how many lie above each. */
  lemma ExampleTotals()
    ensures var t := Totals([RankUser([60, 40]), RankUser([100]), RankUser([50]), RankUser([])]);
      t == [100, 100, 50, 0]
  {
    var all := [RankUser([60, 40]), RankUser([100]), RankUser([50]), RankUser([])];
    var t := [100, 100, 50, 0];
    assert Sum([60, 40]) == 100 by { assert [60, 40][1..] == [40]; }
    assert Totals(all) == t by {
      assert all[1..] == [RankUser([100]), RankUser([50]), RankUser([])];
      assert all[1..][1..] == [RankUser([50]), RankUser([])];
      assert all[1..][1..][1..] == [RankUser([])];
    }
    assert t[1..] == [100, 50, 0] && t[1..][1..] == [50, 0] && t[1..][1..][1..] == [0];
  }

  /** How many of the totals 100, 100, 50, 0 lie above each of them. */
  lemma ExampleCounts()
    ensures var t := [100, 100, 50, 0];
      CountAbove(t, 0) == 3 && CountAbove(t, 50) == 2 && CountAbove(t, 100) == 0
  {
    var t := [100, 100, 50, 0];
    assert t[1..] == [100, 50, 0] && t[1..][1..] == [50, 0] && t[1..][1..][1..] == [0];
  }
}
