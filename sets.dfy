/**
 * The generic set of the utils package. The Go value wraps a map reference,
 * so copies share their members; the model is a class over a mathematical set.
 */
module Sets {
  predicate Distinct<T(==)>(s: seq<T>)
  {
    forall i, j :: 0 <= i < j < |s| ==> s[i] != s[j]
  }

  class Set<T(==)> {
    var elems: set<T>

    /** NewSet(elements...): exactly the given elements, duplicates collapsed. */
    constructor (elements: seq<T>)
      ensures elems == set x | x in elements
    {
      var m: set<T> := {};
      var i := 0;
      while i < |elements|
        invariant 0 <= i <= |elements|
        invariant m == set x | x in elements[..i]
      {
        assert elements[..i + 1] == elements[..i] + [elements[i]];
        m := m + {elements[i]};
        i := i + 1;
      }
      assert elements[..i] == elements;
      elems := m;
    }

    function Contains(x: T): (r: bool)
      reads this
      ensures r <==> x in elems
    {
      x in elems
    }

    /** Add reports whether `x` was already a member. */
    method Add(x: T) returns (existed: bool)
      modifies this
      ensures existed <==> x in old(elems)
      ensures elems == old(elems) + {x}
    {
      existed := x in elems;
      elems := elems + {x};
    }

    /** Remove reports whether `x` was a member. */
    method Remove(x: T) returns (existed: bool)
      modifies this
      ensures existed <==> x in old(elems)
      ensures elems == old(elems) - {x}
    {
      existed := x in elems;
      elems := elems - {x};
    }

    /** ToSlice: every member exactly once, in the map's (unspecified) iteration order. */
    method ToSlice() returns (r: seq<T>)
      ensures forall x :: x in r <==> x in elems
      ensures Distinct(r) && |r| == |elems|
    {
      r := [];
      var rest := elems;
      while rest != {}
        invariant rest <= elems
        invariant forall x :: x in r <==> x in elems - rest
        invariant Distinct(r) && |r| + |rest| == |elems|
        decreases |rest|
      {
        var x :| x in rest;
        assert x !in r;
        assert forall i :: 0 <= i < |r| ==> (r + [x])[i] == r[i];
        r := r + [x];
        rest := rest - {x};
      }
    }
  }
}
