/**
 * The stable sorts of the transfer service: `Comparator.comparingDouble(..).reversed()
 * .thenComparingDouble(..)` for candidates and `comparingDouble(Player::getPrediction).reversed()`
 * for squad players. Both order by a major key descending and a minor key ascending; Java's
 * sort is stable, so elements of equal rank keep their input order.
 */
module Ranking {

  /** The sort key of an element: `major` is compared descending, `minor` ascending. */
  datatype Rank = Rank(major: real, minor: int)

  /** a sorts strictly before b. */
  predicate Ahead(a: Rank, b: Rank) {
    a.major > b.major || (a.major == b.major && a.minor < b.minor)
  }

  /** Ahead is a strict total order on ranks. */
  lemma AheadIsStrictTotalOrder(a: Rank, b: Rank, c: Rank)
    ensures !Ahead(a, a)
    ensures Ahead(a, b) ==> !Ahead(b, a)
    ensures a != b ==> Ahead(a, b) || Ahead(b, a)
    ensures !Ahead(b, a) && !Ahead(c, b) ==> !Ahead(c, a)
  {
  }

  /** No element of s sorts strictly before an earlier one. */
  ghost predicate Ranked<T>(s: seq<T>, rank: T -> Rank) {
    forall i, j :: 0 <= i < j < |s| ==> !Ahead(rank(s[j]), rank(s[i]))
  }

  /** The elements of s whose rank is k, in their order in s. */
  function WithRank<T>(s: seq<T>, rank: T -> Rank, k: Rank): seq<T> {
    if s == [] then []
    else (if rank(s[0]) == k then [s[0]] else []) + WithRank(s[1..], rank, k)
  }

  /** Where x goes when inserted into s: after the leading elements that sort strictly before it. */
  function InsertPoint<T>(x: T, s: seq<T>, rank: T -> Rank): (k: nat)
    ensures k <= |s|
    ensures forall i :: 0 <= i < k ==> Ahead(rank(s[i]), rank(x))
    ensures k < |s| ==> !Ahead(rank(s[k]), rank(x))
  {
    if s == [] || !Ahead(rank(s[0]), rank(x)) then 0 else 1 + InsertPoint(x, s[1..], rank)
  }

  function Insert<T>(x: T, s: seq<T>, rank: T -> Rank): seq<T> {
    var k := InsertPoint(x, s, rank);
    s[..k] + [x] + s[k..]
  }

  /** Stable insertion sort. */
  function SortBy<T>(s: seq<T>, rank: T -> Rank): seq<T> {
    if s == [] then [] else Insert(s[0], SortBy(s[1..], rank), rank)
  }

  lemma WithRankAppend<T>(a: seq<T>, b: seq<T>, rank: T -> Rank, k: Rank)
    ensures WithRank(a + b, rank, k) == WithRank(a, rank, k) + WithRank(b, rank, k)
  {
    if a != [] {
      assert (a + b)[0] == a[0];
      assert (a + b)[1..] == a[1..] + b;
      WithRankAppend(a[1..], b, rank, k);
    } else {
      assert a + b == b;
    }
  }

  /** Inserting x adds x to its own rank class, in front of that class's members. */
  lemma InsertStable<T>(x: T, s: seq<T>, rank: T -> Rank, k: Rank)
    ensures WithRank(Insert(x, s, rank), rank, k)
         == (if rank(x) == k then [x] else []) + WithRank(s, rank, k)
  {
    var p := InsertPoint(x, s, rank);
    assert s == s[..p] + s[p..];
    WithRankAppend(s[..p] + [x], s[p..], rank, k);
    WithRankAppend(s[..p], [x], rank, k);
    WithRankAppend(s[..p], s[p..], rank, k);
    if rank(x) == k {
      NoneOfRank(s[..p], rank, k);
    }
  }

  /** A prefix whose members all sort strictly before rank k holds nothing of rank k. */
  lemma NoneOfRank<T>(s: seq<T>, rank: T -> Rank, k: Rank)
    requires forall i :: 0 <= i < |s| ==> Ahead(rank(s[i]), k)
    ensures WithRank(s, rank, k) == []
  {
    if s != [] {
      NoneOfRank(s[1..], rank, k);
    }
  }

  lemma InsertRanked<T>(x: T, s: seq<T>, rank: T -> Rank)
    requires Ranked(s, rank)
    ensures Ranked(Insert(x, s, rank), rank)
    ensures multiset(Insert(x, s, rank)) == multiset(s) + multiset{x}
  {
    var p := InsertPoint(x, s, rank);
    var r := Insert(x, s, rank);
    assert s == s[..p] + s[p..];
    assert |r| == |s| + 1 && r[p] == x;
    assert forall i :: 0 <= i < p ==> r[i] == s[i];
    assert forall i :: p < i < |r| ==> r[i] == s[i - 1];
    forall i, j | 0 <= i < j < |r|
      ensures !Ahead(rank(r[j]), rank(r[i]))
    {
      InsertedPairRanked(x, s, rank, p, r, i, j);
    }
    assert multiset(r) == multiset(s[..p]) + multiset{x} + multiset(s[p..]);
  }

  lemma InsertedPairRanked<T>(x: T, s: seq<T>, rank: T -> Rank, p: nat, r: seq<T>, i: nat, j: nat)
    requires Ranked(s, rank) && p == InsertPoint(x, s, rank)
    requires |r| == |s| + 1 && r[p] == x
    requires forall i :: 0 <= i < p ==> r[i] == s[i]
    requires forall i :: p < i < |r| ==> r[i] == s[i - 1]
    requires i < j < |r|
    ensures !Ahead(rank(r[j]), rank(r[i]))
  {
    if j < p {
      assert r[i] == s[i] && r[j] == s[j];
    } else if j == p {
      AheadIsStrictTotalOrder(rank(r[i]), rank(x), rank(x));
    } else if i == p {
      AheadIsStrictTotalOrder(rank(x), rank(s[p]), rank(s[j - 1]));
    } else if i < p {
      assert r[i] == s[i] && r[j] == s[j - 1];
    } else {
      assert r[i] == s[i - 1] && r[j] == s[j - 1];
    }
  }

  /** SortBy returns a permutation of s, ranked, with every rank class in its input order. */
  lemma {:induction false} SortByCorrect<T>(s: seq<T>, rank: T -> Rank)
    ensures multiset(SortBy(s, rank)) == multiset(s)
    ensures Ranked(SortBy(s, rank), rank)
    ensures forall k :: WithRank(SortBy(s, rank), rank, k) == WithRank(s, rank, k)
  {
    if s != [] {
      SortByCorrect(s[1..], rank);
      InsertRanked(s[0], SortBy(s[1..], rank), rank);
      assert s == [s[0]] + s[1..];
      forall k
        ensures WithRank(SortBy(s, rank), rank, k) == WithRank(s, rank, k)
      {
        InsertStable(s[0], SortBy(s[1..], rank), rank, k);
      }
    }
  }

  /**
   * A stable sort's output is determined by its input: any ranked sequence that keeps every
   * rank class of s in order is SortBy(s). So the insertion sort here agrees with Java's merge sort.
   */
  lemma {:induction false} StableSortIsUnique<T>(s: seq<T>, r: seq<T>, rank: T -> Rank)
    requires Ranked(r, rank)
    requires forall k :: WithRank(r, rank, k) == WithRank(s, rank, k)
    ensures r == SortBy(s, rank)
  {
    SortByCorrect(s, rank);
    RankedClassesDetermine(r, SortBy(s, rank), rank);
  }

  lemma {:induction false} RankedClassesDetermine<T>(a: seq<T>, b: seq<T>, rank: T -> Rank)
    requires Ranked(a, rank) && Ranked(b, rank)
    requires forall k :: WithRank(a, rank, k) == WithRank(b, rank, k)
    ensures a == b
    decreases |a| + |b|
  {
    if a == [] && b == [] {
    } else if a == [] || b == [] {
      // the rank class of the head of the non-empty one is empty in the other
      var c := if a == [] then b else a;
      HeadRankPresent(c, rank);
      assert false;
    } else {
      var ka, kb := rank(a[0]), rank(b[0]);
      if ka != kb {
        AheadIsStrictTotalOrder(ka, kb, ka);
        if Ahead(ka, kb) {
          // a[0]'s class is empty in b: b would hold a later element ahead of b[0]
          assert WithRank(a, rank, ka) != [];
          FirstOfRankIsAhead(b, rank, ka);
        } else {
          assert WithRank(b, rank, kb) != [];
          FirstOfRankIsAhead(a, rank, kb);
        }
      } else {
        assert WithRank(a, rank, ka)[0] == a[0];
        assert WithRank(b, rank, ka)[0] == b[0];
        forall k
          ensures WithRank(a[1..], rank, k) == WithRank(b[1..], rank, k)
        {
          var head := if ka == k then [a[0]] else [];
          assert WithRank(a, rank, k) == head + WithRank(a[1..], rank, k);
          assert WithRank(b, rank, k) == head + WithRank(b[1..], rank, k);
          assert WithRank(a[1..], rank, k) == WithRank(a, rank, k)[|head|..];
          assert WithRank(b[1..], rank, k) == WithRank(b, rank, k)[|head|..];
        }
        RankedTail(a, rank);
        RankedTail(b, rank);
        RankedClassesDetermine(a[1..], b[1..], rank);
        assert a == [a[0]] + a[1..] && b == [b[0]] + b[1..];
      }
    }
  }

  lemma HeadRankPresent<T>(s: seq<T>, rank: T -> Rank)
    requires s != []
    ensures WithRank(s, rank, rank(s[0])) != []
  {
  }

  lemma RankedTail<T>(s: seq<T>, rank: T -> Rank)
    requires s != [] && Ranked(s, rank)
    ensures Ranked(s[1..], rank)
  {
    forall i, j | 0 <= i < j < |s| - 1
      ensures !Ahead(rank(s[1..][j]), rank(s[1..][i]))
    {
      assert s[1..][j] == s[j + 1] && s[1..][i] == s[i + 1];
    }
  }

  /** In a ranked sequence that holds an element of rank k, k does not sort strictly before the head. */
  lemma FirstOfRankIsAhead<T>(s: seq<T>, rank: T -> Rank, k: Rank)
    requires s != [] && Ranked(s, rank)
    requires WithRank(s, rank, k) != []
    ensures !Ahead(k, rank(s[0]))
  {
    var i := IndexOfRank(s, rank, k);
    if i > 0 {
      assert !Ahead(rank(s[i]), rank(s[0]));
    }
  }

  lemma IndexOfRank<T>(s: seq<T>, rank: T -> Rank, k: Rank) returns (i: nat)
    requires WithRank(s, rank, k) != []
    ensures i < |s| && rank(s[i]) == k
  {
    if rank(s[0]) == k {
      i := 0;
    } else {
      assert WithRank(s, rank, k) == WithRank(s[1..], rank, k);
      var j := IndexOfRank(s[1..], rank, k);
      i := j + 1;
    }
  }

  /** Every prefix of a ranked sequence is ranked, and holds no element behind one it leaves out. */
  lemma RankedPrefix<T>(s: seq<T>, rank: T -> Rank, n: nat)
    requires Ranked(s, rank) && n <= |s|
    ensures Ranked(s[..n], rank)
    ensures forall i, j :: 0 <= i < n <= j < |s| ==> !Ahead(rank(s[j]), rank(s[i]))
  {
  }

  /** Whatever a prefix of a ranked sequence leaves out does not sort before anything it keeps. */
  lemma RankedPrefixIsTop<T>(s: seq<T>, rank: T -> Rank, n: nat)
    requires Ranked(s, rank) && n <= |s|
    ensures forall x :: x in multiset(s) - multiset(s[..n]) ==>
              forall i :: 0 <= i < n ==> !Ahead(rank(x), rank(s[i]))
  {
    assert s == s[..n] + s[n..];
    assert multiset(s) == multiset(s[..n]) + multiset(s[n..]);
    forall x | x in multiset(s) - multiset(s[..n])
      ensures forall i :: 0 <= i < n ==> !Ahead(rank(x), rank(s[i]))
    {
      assert x in multiset(s[n..]);
      var j :| 0 <= j < |s[n..]| && s[n..][j] == x;
      assert s[n + j] == x;
    }
  }

  /** Each rank class of a prefix is a prefix of that class in the whole sequence. */
  lemma WithRankOfPrefix<T>(s: seq<T>, rank: T -> Rank, n: nat)
    requires n <= |s|
    ensures forall k :: WithRank(s[..n], rank, k) <= WithRank(s, rank, k)
  {
    assert s == s[..n] + s[n..];
    forall k
      ensures WithRank(s[..n], rank, k) <= WithRank(s, rank, k)
    {
      WithRankAppend(s[..n], s[n..], rank, k);
    }
  }
}
