/** Filtering and first-occurrence lemmas on sequences, shared by the tables of the model. */
module Seqs {

  function Filter<T(!new)>(p: T -> bool, s: seq<T>): (r: seq<T>)
    ensures |r| <= |s|
    ensures forall x :: x in r <==> x in s && p(x)
  {
    if s == [] then []
    else if p(s[0]) then [s[0]] + Filter(p, s[1..])
    else Filter(p, s[1..])
  }

  lemma {:induction false} FilterAppend<T(!new)>(p: T -> bool, a: seq<T>, b: seq<T>)
    ensures Filter(p, a + b) == Filter(p, a) + Filter(p, b)
  {
    if a == [] {
      assert a + b == b;
    } else {
      FilterAppend(p, a[1..], b);
      assert (a + b)[1..] == a[1..] + b;
    }
  }

  lemma {:induction false} FilterCons<T(!new)>(p: T -> bool, x: T, s: seq<T>)
    ensures Filter(p, [x] + s) == if p(x) then [x] + Filter(p, s) else Filter(p, s)
  {
    assert ([x] + s)[1..] == s;
  }

  lemma {:induction false} FilterSnoc<T(!new)>(p: T -> bool, s: seq<T>, x: T)
    ensures Filter(p, s + [x]) == if p(x) then Filter(p, s) + [x] else Filter(p, s)
  {
    FilterAppend(p, s, [x]);
  }

  lemma {:induction false} FilterAll<T(!new)>(p: T -> bool, s: seq<T>)
    requires forall x :: x in s ==> p(x)
    ensures Filter(p, s) == s
  {
    if s != [] {
      assert s == [s[0]] + s[1..];
      FilterAll(p, s[1..]);
    }
  }

  lemma {:induction false} FilterNone<T(!new)>(p: T -> bool, s: seq<T>)
    requires forall x :: x in s ==> !p(x)
    ensures Filter(p, s) == []
  {
    if s != [] {
      FilterNone(p, s[1..]);
    }
  }

  lemma {:induction false} FilterCongruence<T(!new)>(p: T -> bool, q: T -> bool, s: seq<T>)
    requires forall x :: x in s ==> p(x) == q(x)
    ensures Filter(p, s) == Filter(q, s)
  {
    if s != [] {
      FilterCongruence(p, q, s[1..]);
    }
  }

  /** Pairwise distinct elements. */
  ghost predicate Distinct<T>(s: seq<T>) {
    forall i, j :: 0 <= i < j < |s| ==> s[i] != s[j]
  }

  /** s without the elements that already occurred, in seen or earlier in s. */
  function FirstOccurrences<T(!new,==)>(seen: set<T>, s: seq<T>): (r: seq<T>)
    ensures forall x :: x in r <==> x in s && x !in seen
    decreases s
  {
    if s == [] then []
    else if s[0] in seen then FirstOccurrences(seen, s[1..])
    else [s[0]] + FirstOccurrences(seen + {s[0]}, s[1..])
  }

  ghost function Elems<T(!new)>(s: seq<T>): (r: set<T>)
    ensures forall x :: x in r <==> x in s
  {
    set x | x in s
  }

  lemma {:induction false} ElemsSnoc<T(!new)>(s: seq<T>, x: T)
    ensures Elems(s + [x]) == Elems(s) + {x}
  {}

  lemma {:induction false} FirstOccurrencesDistinct<T(!new)>(seen: set<T>, s: seq<T>)
    ensures Distinct(FirstOccurrences(seen, s))
    decreases s
  {
    if s != [] {
      if s[0] in seen {
        FirstOccurrencesDistinct(seen, s[1..]);
      } else {
        FirstOccurrencesDistinct(seen + {s[0]}, s[1..]);
      }
    }
  }

  lemma {:induction false} FirstOccurrencesAppend<T(!new)>(seen: set<T>, a: seq<T>, b: seq<T>)
    ensures FirstOccurrences(seen, a + b) == FirstOccurrences(seen, a) + FirstOccurrences(seen + Elems(a), b)
    decreases a
  {
    if a == [] {
      assert a + b == b;
      assert seen + Elems(a) == seen;
    } else {
      assert (a + b)[1..] == a[1..] + b;
      assert a == [a[0]] + a[1..];
      if a[0] in seen {
        assert seen + Elems(a) == seen + Elems(a[1..]);
        FirstOccurrencesAppend(seen, a[1..], b);
      } else {
        assert seen + {a[0]} + Elems(a[1..]) == seen + Elems(a);
        FirstOccurrencesAppend(seen + {a[0]}, a[1..], b);
        assert FirstOccurrences(seen, a + b) == [a[0]] + FirstOccurrences(seen + {a[0]}, a[1..] + b);
      }
    }
  }

  lemma {:induction false} FirstOccurrencesNone<T(!new)>(seen: set<T>, s: seq<T>)
    requires Elems(s) <= seen
    ensures FirstOccurrences(seen, s) == []
  {
    if s != [] {
      assert s[0] in Elems(s);
      assert Elems(s[1..]) <= Elems(s);
      FirstOccurrencesNone(seen, s[1..]);
    }
  }
}
