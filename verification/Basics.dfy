/** Small shared vocabulary: optional values, bytes and facts about duplicate-free sequences. */
module Basics {

  datatype Option<+T> = None | Some(value: T)

  type Byte = x: int | 0 <= x < 256

  /** No element occurs at two positions. */
  ghost predicate Distinct<T(!new)>(s: seq<T>) {
    forall i, j :: 0 <= i < j < |s| ==> s[i] != s[j]
  }

  /** `order` visits every element of `keys` exactly once: one iteration over a Go map. */
  ghost predicate IsListing<T(!new)>(order: seq<T>, keys: set<T>) {
    Distinct(order) && (forall i :: 0 <= i < |order| ==> order[i] in keys) && (forall k :: k in keys ==> k in order)
  }

  lemma AppendKeepsDistinct<T(!new)>(s: seq<T>, x: T)
    requires Distinct(s) && x !in s
    ensures Distinct(s + [x])
  {
  }

  lemma {:induction false} DistinctCounts<T(!new)>(s: seq<T>, x: T)
    requires Distinct(s)
    ensures multiset(s)[x] == if x in s then 1 else 0
  {
    if |s| == 0 {
    } else {
      var front, last := s[..|s| - 1], s[|s| - 1];
      assert s == front + [last];
      DistinctCounts(front, x);
      assert multiset(s) == multiset(front) + multiset{last};
      assert last !in front;
    }
  }
}
