/** Lists made of consecutive blocks whose integer keys never decrease (the position blocks). */
module Blocks {

  /** Keys never decrease along s. */
  ghost predicate KeyOrdered<T>(s: seq<T>, key: T -> int) {
    forall i, j :: 0 <= i < j < |s| ==> key(s[i]) <= key(s[j])
  }

  /** Every key of s lies in lo..hi. */
  ghost predicate KeysWithin<T>(s: seq<T>, key: T -> int, lo: int, hi: int) {
    forall i :: 0 <= i < |s| ==> lo <= key(s[i]) <= hi
  }

  /** A block whose keys are all k is ordered. */
  lemma ConstantKeyOrdered<T>(s: seq<T>, key: T -> int, k: int)
    requires KeysWithin(s, key, k, k)
    ensures KeyOrdered(s, key)
  {
  }

  /** Appending an ordered block whose keys start where the first block's keys end. */
  lemma OrderedConcat<T>(a: seq<T>, b: seq<T>, key: T -> int, lo: int, mid: int, hi: int)
    requires lo <= mid <= hi
    requires KeyOrdered(a, key) && KeyOrdered(b, key)
    requires KeysWithin(a, key, lo, mid) && KeysWithin(b, key, mid, hi)
    ensures KeyOrdered(a + b, key) && KeysWithin(a + b, key, lo, hi)
  {
    var ab := a + b;
    forall i, j | 0 <= i < j < |ab|
      ensures key(ab[i]) <= key(ab[j])
    {
      if j < |a| {
        assert ab[i] == a[i] && ab[j] == a[j];
      } else if i >= |a| {
        assert ab[i] == b[i - |a|] && ab[j] == b[j - |a|];
      } else {
        assert ab[i] == a[i] && ab[j] == b[j - |a|];
      }
    }
    forall i | 0 <= i < |ab|
      ensures lo <= key(ab[i]) <= hi
    {
      if i < |a| {
        assert ab[i] == a[i];
      } else {
        assert ab[i] == b[i - |a|];
      }
    }
  }

  /** Four blocks with keys 1, 2, 3 and 4, one after another, are ordered. */
  lemma FourBlocksOrdered<T>(b1: seq<T>, b2: seq<T>, b3: seq<T>, b4: seq<T>, key: T -> int)
    requires KeysWithin(b1, key, 1, 1) && KeysWithin(b2, key, 2, 2)
    requires KeysWithin(b3, key, 3, 3) && KeysWithin(b4, key, 4, 4)
    ensures KeyOrdered(b1 + b2 + b3 + b4, key)
    ensures KeysWithin(b1 + b2 + b3 + b4, key, 1, 4)
  {
    ConstantKeyOrdered(b1, key, 1);
    ConstantKeyOrdered(b2, key, 2);
    ConstantKeyOrdered(b3, key, 3);
    ConstantKeyOrdered(b4, key, 4);
    OrderedConcat(b1, b2, key, 1, 2, 2);
    OrderedConcat(b1 + b2, b3, key, 1, 3, 3);
    OrderedConcat(b1 + b2 + b3, b4, key, 1, 4, 4);
  }
}
