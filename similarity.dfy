/**
 * The Jaccard similarity of two word sets, as both the up-sot selector and the
 * script matcher compute it: |A ∩ B| / |A ∪ B| when both sets are non-empty,
 * and 0 otherwise.
 */
module Similarity {

  function Jaccard(a: set<string>, b: set<string>): real {
    if a == {} || b == {} then 0.0 else |a * b| as real / |a + b| as real
  }

  lemma SubsetCard(x: set<string>, y: set<string>)
    requires x <= y
    ensures |x| <= |y|
    ensures |x| == |y| ==> x == y
  {
    assert y == x + (y - x);
    assert x * (y - x) == {};
    assert |y| == |x| + |y - x|;
    if |x| == |y| {
      assert |y - x| == 0;
      assert y - x == {};
    }
  }

  /** The score lies in [0, 1]. */
  lemma JaccardBounds(a: set<string>, b: set<string>)
    ensures 0.0 <= Jaccard(a, b) <= 1.0
  {
    if a != {} && b != {} {
      SubsetCard(a * b, a + b);
      var x :| x in a;
      assert x in a + b;
    }
  }

  /** The score does not depend on the order of its arguments. */
  lemma JaccardSymmetric(a: set<string>, b: set<string>)
    ensures Jaccard(a, b) == Jaccard(b, a)
  {
    assert a * b == b * a && a + b == b + a;
  }

  /** The score is 1 exactly for two identical non-empty sets. */
  lemma JaccardOne(a: set<string>, b: set<string>)
    ensures Jaccard(a, b) == 1.0 <==> a == b && a != {}
  {
    if a != {} && b != {} {
      var x :| x in a;
      assert x in a + b;
      SubsetCard(a * b, a + b);
      if Jaccard(a, b) == 1.0 {
        assert |a * b| == |a + b|;
        assert a * b == a + b;
        assert a == b;
      }
      if a == b {
        assert a * b == a + b;
      }
    }
  }

  /** The score is 0 exactly when a set is empty or the sets are disjoint. */
  lemma JaccardZero(a: set<string>, b: set<string>)
    ensures Jaccard(a, b) == 0.0 <==> a == {} || b == {} || a * b == {}
  {
    if a != {} && b != {} {
      var x :| x in a;
      assert x in a + b;
      if a * b != {} {
        var y :| y in a * b;
        assert |a * b| > 0;
      }
    }
  }
}
