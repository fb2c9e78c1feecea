/** Small facts about finite sets. */
module Sets {
  lemma HasElement<T>(s: set<T>)
    ensures s == {} || exists x :: x in s
  {
    if forall x :: x !in s {
      assert s == {};
    }
  }

  lemma Element<T>(s: set<T>) returns (x: T)
    requires s != {}
    ensures x in s
  {
    HasElement(s);
    x :| x in s;
  }

  lemma {:induction false} SubsetSize<T>(a: set<T>, b: set<T>)
    requires a <= b
    ensures |a| <= |b|
    ensures |a| == |b| ==> a == b
    decreases |a|
  {
    if a != {} {
      var x := Element(a);
      SubsetSize(a - {x}, b - {x});
      assert a == (a - {x}) + {x} && b == (b - {x}) + {x};
    }
  }

  lemma UnionSize<T>(a: set<T>, b: set<T>)
    ensures |a + b| <= |a| + |b|
  {
    assert a + b == a + (b - a);
    SubsetSize(b - a, b);
  }

  ghost function Elems<T>(q: seq<T>): (r: set<T>) {
    set x | x in q
  }

  lemma {:induction false} ElemsSize<T>(q: seq<T>)
    ensures |Elems(q)| <= |q|
    decreases |q|
  {
    if q == [] {
      assert Elems(q) == {};
    } else {
      ElemsSize(q[1..]);
      assert Elems(q) == {q[0]} + Elems(q[1..]);
    }
  }
}
