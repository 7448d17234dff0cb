/** Small value types and sequence helpers shared by every component. */
module Common {

  datatype Option<+T> = None | Some(value: T)

  datatype Result<+T, +E> = Ok(value: T) | Err(error: E)

  /** No element occurs twice. */
  ghost predicate Unique<T>(s: seq<T>) {
    forall i, j :: 0 <= i < j < |s| ==> s[i] != s[j]
  }

  function Elements<T>(s: seq<T>): set<T> {
    set x | x in s
  }

  /** The elements of `s` in order of first occurrence (`list(dict.fromkeys(s))`). */
  function Dedup<T(==)>(s: seq<T>): (r: seq<T>)
    ensures Elements(r) == Elements(s)
    ensures Unique(r)
  {
    if s == [] then []
    else
      var front := Dedup(s[..|s| - 1]);
      var last := s[|s| - 1];
      assert s == s[..|s| - 1] + [last];
      assert Elements(s) == Elements(s[..|s| - 1]) + {last};
      assert last in front <==> last in Elements(front);
      assert Elements(front + [last]) == Elements(front) + {last};
      if last in front then front else front + [last]
  }

  lemma {:induction false} DedupShortens<T>(s: seq<T>)
    ensures |Dedup(s)| <= |s|
  {
    if s != [] { DedupShortens(s[..|s| - 1]); }
  }

  lemma ElementsSnoc<T>(s: seq<T>, x: T)
    ensures Elements(s + [x]) == Elements(s) + {x}
  {}

  /** A duplicate-free sequence is as long as its set of elements is large. */
  lemma {:induction false} UniqueCardinality<T>(s: seq<T>)
    requires Unique(s)
    ensures |Elements(s)| == |s|
  {
    if s == [] {
      assert Elements(s) == {};
    } else {
      var last := |s| - 1;
      UniqueCardinality(s[..last]);
      assert s == s[..last] + [s[last]];
      ElementsSnoc(s[..last], s[last]);
      assert s[last] !in s[..last];
    }
  }

  /** `len(s) == len(set(s))` */
  predicate NoRepeats<T(==)>(s: seq<T>) {
    |Elements(s)| == |s|
  }

  lemma {:induction false} FewElements<T>(s: seq<T>)
    ensures |Elements(s)| <= |s|
  {
    if s == [] {
      assert Elements(s) == {};
    } else {
      var last := |s| - 1;
      FewElements(s[..last]);
      assert s == s[..last] + [s[last]];
      ElementsSnoc(s[..last], s[last]);
    }
  }

  lemma {:induction false} NoRepeatsIffUnique<T>(s: seq<T>)
    ensures NoRepeats(s) <==> Unique(s)
  {
    if s == [] {
      assert Elements(s) == {};
    } else {
      var last := |s| - 1;
      NoRepeatsIffUnique(s[..last]);
      FewElements(s[..last]);
      assert s == s[..last] + [s[last]];
      ElementsSnoc(s[..last], s[last]);
      if s[last] in s[..last] {
        assert s[last] in Elements(s[..last]) && Elements(s) == Elements(s[..last]);
      }
    }
  }

  lemma SubsetCardinality<T>(a: set<T>, b: set<T>)
    requires a <= b
    ensures |a| <= |b|
    ensures a != b ==> |a| < |b|
  {
    var rest := b - a;
    assert b == a + rest;
    assert |b| == |a| + |rest|;
    if a != b {
      assert rest != {};
    }
  }

  lemma EmptyDifference<T>(a: set<T>, b: set<T>)
    ensures a - b == {} <==> a <= b
  {
    if a - b == {} {
      assert forall x | x in a :: x in b || x in a - b;
    }
  }
}
