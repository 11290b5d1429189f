/**
 * What each stage of the catalogue yields, as functions of the finite sequence
 * its upstream still has to yield. Each function follows the way the stage
 * consumes its upstream one element at a time; the lemmas connect it to an
 * independent description (a slice, a prefix characterisation, a law).
 */
module Sequences {
  import opened Elements

  function Min(a: nat, b: nat): (m: nat)
  {
    if a <= b then a else b
  }

  // ---------------------------------------------------------------- skip

  /** What `skip(k)` yields: every skipped unit of the count consumes one upstream element. */
  function Skip<T>(s: seq<T>, k: nat): (rest: seq<T>)
  {
    if k == 0 || s == [] then s else Skip(s[1..], k - 1)
  }

  /** `skip(k)` removes the first min(k, n) elements and keeps the rest in order. */
  lemma {:induction false} SkipIsSuffix<T>(s: seq<T>, k: nat)
    ensures Skip(s, k) == s[Min(k, |s|)..]
  {
    if k != 0 && s != [] {
      SkipIsSuffix(s[1..], k - 1);
      assert s[1..][Min(k - 1, |s| - 1)..] == s[Min(k, |s|)..];
    }
  }

  // ---------------------------------------------------------------- take

  /** What `take(k)` yields: each unit of the limit lets one upstream element through. */
  function Take<T>(s: seq<T>, k: nat): (taken: seq<T>)
  {
    if k == 0 || s == [] then [] else [s[0]] + Take(s[1..], k - 1)
  }

  /** `take(k)` yields exactly the first min(k, n) elements. */
  lemma {:induction false} TakeIsPrefix<T>(s: seq<T>, k: nat)
    ensures Take(s, k) == s[..Min(k, |s|)]
  {
    if k != 0 && s != [] {
      TakeIsPrefix(s[1..], k - 1);
      assert [s[0]] + s[1..][..Min(k - 1, |s| - 1)] == s[..Min(k, |s|)];
    }
  }

  /** Taking k and skipping k split the upstream in two, losing nothing. */
  lemma {:induction false} TakeThenSkip<T>(s: seq<T>, k: nat)
    ensures Take(s, k) + Skip(s, k) == s
  {
    TakeIsPrefix(s, k);
    SkipIsSuffix(s, k);
  }

  // ---------------------------------------------------------- take while

  /** What `takeWhile(p)` yields: elements up to, not including, the first one failing `p`. */
  function TakeWhile<T>(p: T -> bool, s: seq<T>): (taken: seq<T>)
  {
    if s == [] || !p(s[0]) then [] else [s[0]] + TakeWhile(p, s[1..])
  }

  /** `takeWhile(p)` yields the longest prefix on which `p` holds, even if `p` holds again later. */
  lemma {:induction false} TakeWhileIsLongestPrefix<T>(p: T -> bool, s: seq<T>)
    ensures |TakeWhile(p, s)| <= |s| && TakeWhile(p, s) == s[..|TakeWhile(p, s)|]
    ensures forall i :: 0 <= i < |TakeWhile(p, s)| ==> p(s[i])
    ensures |TakeWhile(p, s)| < |s| ==> !p(s[|TakeWhile(p, s)|])
  {
    if s != [] && p(s[0]) {
      TakeWhileIsLongestPrefix(p, s[1..]);
    }
  }

  // ---------------------------------------------------------- skip while

  /** What `skipWhile(p)` yields: everything from the first element failing `p` on. */
  function SkipWhile<T>(p: T -> bool, s: seq<T>): (rest: seq<T>)
  {
    if s == [] || !p(s[0]) then s else SkipWhile(p, s[1..])
  }

  /** `skipWhile(p)` yields exactly what `takeWhile(p)` leaves, starting with an element failing `p`. */
  lemma {:induction false} SkipWhileIsRest<T>(p: T -> bool, s: seq<T>)
    ensures TakeWhile(p, s) + SkipWhile(p, s) == s
    ensures SkipWhile(p, s) != [] ==> !p(SkipWhile(p, s)[0])
  {
    if s != [] && p(s[0]) {
      SkipWhileIsRest(p, s[1..]);
      assert s == [s[0]] + s[1..];
    }
  }

  /** When `p` holds of every element, `skipWhile(p)` yields nothing and `takeWhile(p)` everything. */
  lemma {:induction false} WhileAllHold<T>(p: T -> bool, s: seq<T>)
    requires forall i :: 0 <= i < |s| ==> p(s[i])
    ensures SkipWhile(p, s) == [] && TakeWhile(p, s) == s
  {
    if s != [] {
      WhileAllHold(p, s[1..]);
    }
  }

  // -------------------------------------------------------------- filter

  /** What `filter(p)` yields: the upstream elements satisfying `p`. */
  function Filter<T>(p: T -> bool, s: seq<T>): (kept: seq<T>)
  {
    if s == [] then [] else (if p(s[0]) then [s[0]] else []) + Filter(p, s[1..])
  }

  /** Everything `filter(p)` yields satisfies `p`, and it never yields more than its upstream. */
  lemma {:induction false} FilterSatisfies<T>(p: T -> bool, s: seq<T>)
    ensures |Filter(p, s)| <= |s|
    ensures forall i :: 0 <= i < |Filter(p, s)| ==> p(Filter(p, s)[i])
  {
    if s != [] {
      FilterSatisfies(p, s[1..]);
    }
  }

  /** One step of `filter`: the head is kept exactly when it satisfies `p`. */
  lemma FilterCons<T>(p: T -> bool, x: T, s: seq<T>)
    ensures Filter(p, [x] + s) == if p(x) then [x] + Filter(p, s) else Filter(p, s)
  {
    assert ([x] + s)[0] == x && ([x] + s)[1..] == s;
  }

  /** Filtering preserves the original order: it distributes over concatenation. */
  lemma {:induction false} FilterAppend<T>(p: T -> bool, a: seq<T>, b: seq<T>)
    ensures Filter(p, a + b) == Filter(p, a) + Filter(p, b)
  {
    if a != [] {
      assert (a + b)[0] == a[0] && (a + b)[1..] == a[1..] + b;
      FilterAppend(p, a[1..], b);
      var h := if p(a[0]) then [a[0]] else [];
      assert Filter(p, a + b) == h + Filter(p, a[1..] + b);
      assert Filter(p, a) == h + Filter(p, a[1..]);
    } else {
      assert a + b == b;
    }
  }

  /** Filtering keeps every occurrence of an element satisfying `p` and none of the others. */
  lemma {:induction false} FilterMultiplicity<T>(p: T -> bool, s: seq<T>, x: T)
    ensures multiset(Filter(p, s))[x] == if p(x) then multiset(s)[x] else 0
  {
    if s != [] {
      FilterMultiplicity(p, s[1..], x);
      assert s == [s[0]] + s[1..];
    }
  }

  /** When `p` holds of every element, `filter(p)` yields everything. */
  lemma {:induction false} FilterKeepsAll<T>(p: T -> bool, s: seq<T>)
    requires forall i :: 0 <= i < |s| ==> p(s[i])
    ensures Filter(p, s) == s
  {
    if s != [] {
      FilterKeepsAll(p, s[1..]);
      assert s == [s[0]] + s[1..];
    }
  }

  /** When `p` fails on every element, `filter(p)` yields nothing. */
  lemma {:induction false} FilterDropsAll<T>(p: T -> bool, s: seq<T>)
    requires forall i :: 0 <= i < |s| ==> !p(s[i])
    ensures Filter(p, s) == []
  {
    if s != [] {
      FilterDropsAll(p, s[1..]);
    }
  }

  // ----------------------------------------------------------------- map

  /** What `map(f)` yields: `f` applied to each upstream element, one for one. */
  function Map<T, U>(f: T -> U, s: seq<T>): (mapped: seq<U>)
  {
    if s == [] then [] else [f(s[0])] + Map(f, s[1..])
  }

  /** `map(f)` matches its upstream one for one: the i-th output is `f` of the i-th input. */
  lemma {:induction false} MapPointwise<T, U>(f: T -> U, s: seq<T>)
    ensures |Map(f, s)| == |s|
    ensures forall i :: 0 <= i < |s| ==> Map(f, s)[i] == f(s[i])
  {
    if s != [] {
      MapPointwise(f, s[1..]);
    }
  }

  // ----------------------------------------------------------- enumerate

  /** What `enumerate(from)` yields: the k-th element paired with index `from + k`. */
  function Enumerate(from: nat, s: seq<Value>): (pairs: seq<Value>)
    decreases |s|
  {
    if s == [] then [] else [Pair(Enumerated(from, s[0]))] + Enumerate(from + 1, s[1..])
  }

  /** `enumerate(from)` pairs the k-th element (from 0) with index `from + k`. */
  lemma {:induction false} EnumerateIndexes(from: nat, s: seq<Value>)
    decreases |s|
    ensures |Enumerate(from, s)| == |s|
    ensures forall k :: 0 <= k < |s| ==> Enumerate(from, s)[k] == Pair(Enumerated(from + k, s[k]))
  {
    if s != [] {
      EnumerateIndexes(from + 1, s[1..]);
    }
  }

  // ---------------------------------------------------------------- fold

  /** A strict left fold: `a := f(a, e)` for each element `e` in order. */
  function Fold<A, T>(f: (A, T) -> A, a: A, s: seq<T>): (acc: A)
  {
    if s == [] then a else Fold(f, f(a, s[0]), s[1..])
  }

  /** Folding a concatenation folds the second part from the result of the first. */
  lemma {:induction false} FoldAppend<A, T>(f: (A, T) -> A, a: A, s: seq<T>, t: seq<T>)
    ensures Fold(f, a, s + t) == Fold(f, Fold(f, a, s), t)
  {
    if s != [] {
      assert (s + t)[0] == s[0] && (s + t)[1..] == s[1..] + t;
      FoldAppend(f, f(a, s[0]), s[1..], t);
      assert Fold(f, a, s + t) == Fold(f, f(a, s[0]), s[1..] + t);
    } else {
      assert s + t == t;
    }
  }

  // ------------------------------------------------------- first match

  /**
   * The index of the first element on which `p` gives `b`, or `|s|` when there
   * is none: where `any(p)` (b = true) and `all(p)` (b = false) stop.
   */
  function FirstWhere<T>(p: T -> bool, b: bool, s: seq<T>): (index: nat)
  {
    if s == [] || p(s[0]) == b then 0 else 1 + FirstWhere(p, b, s[1..])
  }

  /** `FirstWhere` is within bounds, no earlier element gives `b`, and the element it names does. */
  lemma {:induction false} FirstWhereIsFirst<T>(p: T -> bool, b: bool, s: seq<T>)
    ensures FirstWhere(p, b, s) <= |s|
    ensures forall j :: 0 <= j < FirstWhere(p, b, s) ==> p(s[j]) != b
    ensures FirstWhere(p, b, s) < |s| ==> p(s[FirstWhere(p, b, s)]) == b
  {
    if s != [] && p(s[0]) != b {
      FirstWhereIsFirst(p, b, s[1..]);
    }
  }

  /** Past a prefix with no element giving `b`, the search goes on in what follows. */
  lemma {:induction false} FirstWhereAppend<T>(p: T -> bool, b: bool, s: seq<T>, t: seq<T>)
    requires FirstWhere(p, b, s) == |s|
    ensures FirstWhere(p, b, s + t) == |s| + FirstWhere(p, b, t)
  {
    if s == [] {
      assert s + t == t;
    } else {
      assert (s + t)[0] == s[0] && (s + t)[1..] == s[1..] + t;
      FirstWhereAppend(p, b, s[1..], t);
    }
  }

  /** `any(p)` finds a match exactly when some element satisfies `p`. */
  lemma {:induction false} AnyFound<T>(p: T -> bool, s: seq<T>)
    ensures FirstWhere(p, true, s) < |s| <==> exists i :: 0 <= i < |s| && p(s[i])
  {
    FirstWhereIsFirst(p, true, s);
  }

  /** `all(p)` runs off the end exactly when every element satisfies `p`. */
  lemma {:induction false} AllHold<T>(p: T -> bool, s: seq<T>)
    ensures FirstWhere(p, false, s) == |s| <==> forall i :: 0 <= i < |s| ==> p(s[i])
  {
    FirstWhereIsFirst(p, false, s);
  }

  /** `all(p)` stops right after the prefix that `takeWhile(p)` yields. */
  lemma {:induction false} AllStopsAfterTakeWhile<T>(p: T -> bool, s: seq<T>)
    ensures FirstWhere(p, false, s) == |TakeWhile(p, s)|
  {
    TakeWhileIsLongestPrefix(p, s);
    FirstWhereIsFirst(p, false, s);
  }
}
