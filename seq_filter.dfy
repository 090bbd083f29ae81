/**
 * Sequence filtering as the game scene's ball list uses it: removal of one
 * object by identity (JavaScript's `list.filter(p => p !== x)`) and, as its
 * specification, dropping every element of a given set while keeping the order
 * of the rest.
 */
module SeqFilter {

  /** No element occurs twice: the first is absent from the rest, which has no repetitions either. */
  predicate Distinct<T(==)>(s: seq<T>)
    decreases |s|
  {
    |s| == 0 || (s[0] !in s[1..] && Distinct(s[1..]))
  }

  /** `s` without every occurrence of `x`, the rest in order. */
  function Without<T(==)>(s: seq<T>, x: T): (r: seq<T>)
    ensures x !in r && |r| <= |s|
  {
    if |s| == 0 then [] else (if s[0] == x then [] else [s[0]]) + Without(s[1..], x)
  }

  /** The elements of `s` that are not in `out`, in their original order. */
  function Filter<T(==)>(s: seq<T>, out: set<T>): (r: seq<T>)
    ensures |r| <= |s|
  {
    if |s| == 0 then [] else (if s[0] in out then [] else [s[0]]) + Filter(s[1..], out)
  }

  /** Appending an element that is not yet present keeps a sequence without repetitions. */
  lemma {:induction false} DistinctSnoc<T>(s: seq<T>, x: T)
    requires Distinct(s) && x !in s
    ensures Distinct(s + [x])
  {
    if |s| > 0 {
      assert s == [s[0]] + s[1..];
      DistinctSnoc(s[1..], x);
      assert (s + [x])[1..] == s[1..] + [x];
    }
  }

  /** In a sequence without repetitions, every other position holds a different element. */
  lemma {:induction false} DistinctAt<T>(s: seq<T>, i: nat)
    requires Distinct(s) && i < |s|
    ensures forall j :: 0 <= j < |s| && j != i ==> s[j] != s[i]
  {
    if i == 0 {
      forall j | 0 < j < |s|
        ensures s[j] != s[0]
      {
        assert s[1..][j - 1] == s[j];
      }
    } else {
      DistinctAt(s[1..], i - 1);
      assert s[1..][i - 1] == s[i];
      forall j | 0 < j < |s| && j != i
        ensures s[j] != s[i]
      {
        assert s[1..][j - 1] == s[j];
      }
    }
  }

  /** Removing by identity from a filtered sequence is filtering with one more element left out. */
  lemma {:induction false} WithoutFilter<T>(s: seq<T>, out: set<T>, x: T)
    ensures Without(Filter(s, out), x) == Filter(s, out + {x})
  {
    if |s| > 0 {
      WithoutFilter(s[1..], out, x);
      var rest := Filter(s[1..], out);
      var rest' := Filter(s[1..], out + {x});
      if s[0] in out {
        assert Filter(s, out) == [] + rest == rest;
        assert Filter(s, out + {x}) == [] + rest' == rest';
      } else if s[0] == x {
        assert ([s[0]] + rest)[1..] == rest;
        assert Without([s[0]] + rest, x) == [] + Without(rest, x) == Without(rest, x);
        assert Filter(s, out + {x}) == [] + rest' == rest';
      } else {
        assert ([s[0]] + rest)[1..] == rest;
      }
    }
  }

  /** Filtering with nothing to leave out changes nothing. */
  lemma {:induction false} FilterNone<T>(s: seq<T>)
    ensures Filter(s, {}) == s
  {
    if |s| > 0 {
      FilterNone(s[1..]);
      assert s == [s[0]] + s[1..];
    }
  }

  /** An element survives the filter exactly when it occurs in `s` and is not left out. */
  lemma {:induction false} FilterMembers<T>(s: seq<T>, out: set<T>, y: T)
    ensures y in Filter(s, out) <==> y in s && y !in out
  {
    if |s| > 0 {
      FilterMembers(s[1..], out, y);
      assert s == [s[0]] + s[1..];
    }
  }

  /** Filtering distributes over concatenation, so the survivors keep their relative order. */
  lemma {:induction false} FilterAppend<T>(a: seq<T>, b: seq<T>, out: set<T>)
    ensures Filter(a + b, out) == Filter(a, out) + Filter(b, out)
  {
    if |a| == 0 {
      assert a + b == b;
      assert Filter(a, out) + Filter(b, out) == [] + Filter(b, out);
    } else {
      FilterAppend(a[1..], b, out);
      var head := if a[0] in out then [] else [a[0]];
      assert (a + b)[0] == a[0] && (a + b)[1..] == a[1..] + b;
      calc {
        Filter(a + b, out);
        head + Filter(a[1..] + b, out);
        head + (Filter(a[1..], out) + Filter(b, out));
        (head + Filter(a[1..], out)) + Filter(b, out);
        Filter(a, out) + Filter(b, out);
      }
    }
  }

  /** Filtering a sequence without repetitions gives one without repetitions. */
  lemma {:induction false} FilterDistinct<T>(s: seq<T>, out: set<T>)
    requires Distinct(s)
    ensures Distinct(Filter(s, out))
  {
    if |s| > 0 {
      FilterDistinct(s[1..], out);
      var rest := Filter(s[1..], out);
      if s[0] in out {
        assert Filter(s, out) == [] + rest == rest;
      } else {
        FilterMembers(s[1..], out, s[0]);
        assert ([s[0]] + rest)[1..] == rest;
      }
    }
  }

  /** Removing by identity leaves exactly the other elements. */
  lemma WithoutMembers<T>(s: seq<T>, x: T, y: T)
    ensures y in Without(s, x) <==> y in s && y != x
  {
    FilterNone(s);
    WithoutFilter(s, {}, x);
    FilterMembers(s, {x}, y);
  }
}
