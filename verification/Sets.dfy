/** Two facts about finite sets. */
module Sets {

  lemma Pick<T>(some: set<T>) returns (x: T)
    requires |some| > 0
    ensures x in some
  {
    x :| x in some;
  }

  lemma {:induction false} SubsetSize<T>(a: set<T>, b: set<T>)
    requires a <= b
    ensures |a| <= |b|
    decreases a
  {
    if |a| > 0 {
      var x :| x in a;
      SubsetSize(a - {x}, b - {x});
      assert |b - {x}| == |b| - 1;
    }
  }
}
