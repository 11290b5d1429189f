/**
 * The stream facade `BaseStreamInterface` and the `from` entry point
 * (Streams.h:274-422).
 *
 * A stream owns one extractor chain. An intermediate operation copies the
 * whole chain, wraps the copy in one more stage and returns a new stream: it
 * changes nothing and consumes nothing, and the new stream shares no object
 * with the old one. The single-step and terminal operations drive the chain
 * with `Advance`/`Get` loops; `Elements()` is what the stream still yields.
 */
module Streams {
  import opened Elements
  import opened Extractors
  import Sequences

  class Stream {
    const extractor: Extractor
    ghost const Repr: set<object>

    ghost predicate Valid()
      reads this, Repr
    {
      && this in Repr && extractor in Repr
      && Repr == {this} + extractor.Repr && this !in extractor.Repr
      && extractor.Valid()
    }

    /** The elements the stream has still to yield, in order. */
    ghost function Elements(): seq<Value>
      reads this, extractor
    {
      extractor.Remaining
    }

    /** The arguments the outermost stage's callback has received (Inspect and Spy). */
    function Calls(): seq<Value>
      reads this, extractor
    {
      extractor.calls
    }

    constructor (e: Extractor)
      requires e.Valid()
      ensures Valid() && extractor == e && Repr == {this} + e.Repr
    {
      extractor := e;
      Repr := {this} + e.Repr;
    }

    // ------------------------------------------------ intermediate operations

    /** Copies the chain and wraps the copy in a stage of kind `k`. */
    method Derive(k: Kind) returns (r: Stream)
      requires Valid() && !k.Sequence?
      ensures r.Valid() && fresh(r.Repr)
      ensures r.extractor.kind == k && r.Elements() == Yields(k, Elements()) && r.Calls() == []
    {
      var copy := extractor.Clone();
      var e := new Extractor.Wrap(k, copy);
      r := new Stream(e);
    }

    method Map(mapper: Value -> Value) returns (r: Stream)
      requires Valid()
      ensures r.Valid() && fresh(r.Repr)
      ensures r.Elements() == Sequences.Map(mapper, Elements())
    {
      r := Derive(Kind.Map(mapper));
    }

    method Filter(pred: Value -> bool) returns (r: Stream)
      requires Valid()
      ensures r.Valid() && fresh(r.Repr)
      ensures r.Elements() == Sequences.Filter(pred, Elements())
    {
      r := Derive(Kind.Filter(pred));
    }

    method Skip(count: nat) returns (r: Stream)
      requires Valid()
      ensures r.Valid() && fresh(r.Repr)
      ensures r.Elements() == Sequences.Skip(Elements(), count)
    {
      r := Derive(SkipFirst(count));
    }

    method SkipWhile(pred: Value -> bool) returns (r: Stream)
      requires Valid()
      ensures r.Valid() && fresh(r.Repr)
      ensures r.Elements() == Sequences.SkipWhile(pred, Elements())
    {
      r := Derive(Kind.SkipWhile(pred));
    }

    method Take(count: nat) returns (r: Stream)
      requires Valid()
      ensures r.Valid() && fresh(r.Repr)
      ensures r.Elements() == Sequences.Take(Elements(), count)
    {
      r := Derive(Kind.Take(count));
    }

    method TakeWhile(pred: Value -> bool) returns (r: Stream)
      requires Valid()
      ensures r.Valid() && fresh(r.Repr)
      ensures r.Elements() == Sequences.TakeWhile(pred, Elements())
    {
      r := Derive(Kind.TakeWhile(pred));
    }

    method Inspect() returns (r: Stream)
      requires Valid()
      ensures r.Valid() && fresh(r.Repr)
      ensures r.extractor.kind.Inspect? && r.Elements() == Elements() && r.Calls() == []
    {
      r := Derive(Kind.Inspect);
    }

    method Spy() returns (r: Stream)
      requires Valid()
      ensures r.Valid() && fresh(r.Repr)
      ensures r.extractor.kind.Spy? && r.Elements() == Elements() && r.Calls() == []
    {
      r := Derive(Kind.Spy);
    }

    method Enumerate(from: nat := 0) returns (r: Stream)
      requires Valid()
      ensures r.Valid() && fresh(r.Repr)
      ensures r.Elements() == Sequences.Enumerate(from, Elements())
    {
      r := Derive(Kind.Enumerate(from));
    }

    // ------------------------------------------------ non-terminal operations

    /** The next element, or None once the stream is exhausted. */
    method Next() returns (r: Option<Value>)
      requires Valid()
      modifies Repr
      ensures Valid()
      ensures r == if old(Elements()) == [] then None else Some(old(Elements())[0])
      ensures Elements() == Sequences.Skip(old(Elements()), 1)
      ensures extractor.kind.Inspect? || extractor.kind.Spy? ==>
                Calls() == old(Calls()) + (if r.Some? then [r.value] else [])
      ensures !(extractor.kind.Inspect? || extractor.kind.Spy?) ==> Calls() == old(Calls())
    {
      var more := extractor.Advance();
      if more {
        var x := extractor.Get();
        r := Some(x);
      } else {
        r := None;
      }
    }

    /** Discards up to `n` elements, then behaves as `Next`. */
    method Nth(n: nat) returns (r: Option<Value>)
      requires Valid()
      modifies Repr
      ensures Valid()
      ensures r == if n < |old(Elements())| then Some(old(Elements())[n]) else None
      ensures Elements() == Sequences.Skip(old(Elements()), n + 1)
      ensures extractor.kind.Inspect? ==> Calls() == old(Calls()) + Sequences.Take(old(Elements()), n + 1)
      ensures extractor.kind.Spy? ==> Calls() == old(Calls()) + (if r.Some? then [r.value] else [])
    {
      ghost var e0 := Elements();
      ghost var skipped := Discard(n);
      ghost var rest := Elements();
      r := Next();
      NthSplit(e0, skipped, rest, n);
    }

    /** The loop of `nth`: pulls while `n` is nonzero, counting it down; `skipped` is what it pulled. */
    method Discard(n: nat) returns (ghost skipped: seq<Value>)
      requires Valid()
      modifies Repr
      ensures Valid() && old(Elements()) == skipped + Elements()
      ensures |skipped| <= n && (|skipped| < n ==> Elements() == [])
      ensures extractor.kind.Inspect? ==> Calls() == old(Calls()) + skipped
      ensures extractor.kind.Spy? ==> Calls() == old(Calls())
    {
      ghost var e0 := Elements();
      skipped := [];
      var k: nat := n;
      while k != 0
        invariant Valid() && e0 == skipped + Elements() && |skipped| + k == n
        invariant extractor.kind.Inspect? ==> Calls() == old(Calls()) + skipped
        invariant extractor.kind.Spy? ==> Calls() == old(Calls())
        decreases k
      {
        ghost var before := Elements();
        var more := extractor.Advance();
        if !more {
          break;
        }
        Consume(e0, skipped, before);
        skipped := skipped + [before[0]];
        k := k - 1;
      }
    }

    // ---------------------------------------------------- terminal operations

    /** The final element, or None exactly when the stream had nothing left. */
    method Last() returns (r: Option<Value>)
      requires Valid()
      modifies Repr
      ensures Valid() && Elements() == []
      ensures r == if old(Elements()) == [] then None else Some(old(Elements())[|old(Elements())| - 1])
      ensures extractor.kind.Inspect? || extractor.kind.Spy? ==> Calls() == old(Calls()) + old(Elements())
    {
      ghost var e0 := Elements();
      var more := extractor.Advance();
      if !more {
        return None;
      }
      var x := extractor.Get();
      ghost var first := x;
      x := KeepLast(x);
      LastOrCons(e0, first);
      r := Some(x);
    }

    /** The loop of `last`: pulls until exhaustion, keeping the latest element, `x` if there is none. */
    method KeepLast(x: Value) returns (y: Value)
      requires Valid()
      modifies Repr
      ensures Valid() && Elements() == []
      ensures y == LastOr(x, old(Elements()))
      ensures extractor.kind.Inspect? || extractor.kind.Spy? ==> Calls() == old(Calls()) + old(Elements())
    {
      ghost var e0 := Elements();
      ghost var seen: seq<Value> := [];
      y := x;
      while true
        invariant Valid() && e0 == seen + Elements() && y == LastOr(x, seen)
        invariant extractor.kind.Inspect? || extractor.kind.Spy? ==> Calls() == old(Calls()) + seen
        decreases |Elements()|
      {
        ghost var before := Elements();
        var more := extractor.Advance();
        if !more {
          break;
        }
        y := extractor.Get();
        Consume(e0, seen, before);
        seen := seen + [y];
      }
      LastOf(e0, seen);
    }

    /** Calls the callable on each remaining element in order; `visited` is what it received. */
    method ForEach() returns (visited: seq<Value>)
      requires Valid()
      modifies Repr
      ensures Valid() && Elements() == [] && visited == old(Elements())
      ensures extractor.kind.Inspect? || extractor.kind.Spy? ==> Calls() == old(Calls()) + visited
    {
      ghost var e0 := Elements();
      visited := [];
      while true
        invariant Valid() && e0 == visited + Elements()
        invariant extractor.kind.Inspect? || extractor.kind.Spy? ==> Calls() == old(Calls()) + visited
        decreases |Elements()|
      {
        ghost var before := Elements();
        var more := extractor.Advance();
        if !more {
          break;
        }
        var x := extractor.Get();
        Consume(e0, visited, before);
        visited := visited + [x];
      }
      LastOf(e0, visited);
    }

    /** The number of elements left; it calls `Advance` only, never `Get`. */
    method Count() returns (counter: nat)
      requires Valid()
      modifies Repr
      ensures Valid() && Elements() == [] && counter == |old(Elements())|
      ensures extractor.kind.Inspect? ==> Calls() == old(Calls()) + old(Elements())
      ensures !extractor.kind.Inspect? ==> Calls() == old(Calls())
    {
      ghost var e0 := Elements();
      counter := 0;
      while true
        invariant Valid() && counter <= |e0| && Elements() == e0[counter..]
        invariant extractor.kind.Inspect? ==> Calls() == old(Calls()) + e0[..counter]
        invariant !extractor.kind.Inspect? ==> Calls() == old(Calls())
        decreases |Elements()|
      {
        var more := extractor.Advance();
        if !more {
          break;
        }
        counter := counter + 1;
      }
    }

    /** Whether some remaining element satisfies `pred`; stops right after the first that does. */
    method Any(pred: Value -> bool) returns (r: bool)
      requires Valid()
      modifies Repr
      ensures Valid()
      ensures r <==> exists i :: 0 <= i < |old(Elements())| && pred(old(Elements())[i])
      ensures Elements() == Sequences.Skip(old(Elements()), Sequences.FirstWhere(pred, true, old(Elements())) + 1)
      ensures extractor.kind.Inspect? || extractor.kind.Spy? ==>
                Calls() == old(Calls()) + Sequences.Take(old(Elements()), Sequences.FirstWhere(pred, true, old(Elements())) + 1)
    {
      ghost var e0 := Elements();
      ghost var seen;
      r, seen := Search(pred, true);
      SearchOutcome(pred, true, e0, seen, Elements(), r);
      Sequences.AnyFound(pred, e0);
    }

    /** Whether every remaining element satisfies `pred`; true on an exhausted stream. */
    method All(pred: Value -> bool) returns (r: bool)
      requires Valid()
      modifies Repr
      ensures Valid()
      ensures r <==> forall i :: 0 <= i < |old(Elements())| ==> pred(old(Elements())[i])
      ensures Elements() == Sequences.Skip(old(Elements()), Sequences.FirstWhere(pred, false, old(Elements())) + 1)
      ensures extractor.kind.Inspect? || extractor.kind.Spy? ==>
                Calls() == old(Calls()) + Sequences.Take(old(Elements()), Sequences.FirstWhere(pred, false, old(Elements())) + 1)
    {
      ghost var e0 := Elements();
      var found;
      ghost var seen;
      found, seen := Search(pred, false);
      r := !found;
      SearchOutcome(pred, false, e0, seen, Elements(), found);
      Sequences.FirstWhereIsFirst(pred, false, e0);
      Sequences.AllHold(pred, e0);
    }

    /**
     * The loop `any` and `all` share: pulls and gets until an element on which
     * `pred` gives `b`, and reports whether there was one; `seen` is every
     * element it got, the one that stopped it included.
     */
    method Search(pred: Value -> bool, b: bool) returns (found: bool, ghost seen: seq<Value>)
      requires Valid()
      modifies Repr
      ensures Valid() && old(Elements()) == seen + Elements()
      ensures found ==> seen != [] && pred(seen[|seen| - 1]) == b
                        && Sequences.FirstWhere(pred, b, seen[..|seen| - 1]) == |seen| - 1
      ensures !found ==> Elements() == [] && Sequences.FirstWhere(pred, b, seen) == |seen|
      ensures extractor.kind.Inspect? || extractor.kind.Spy? ==> Calls() == old(Calls()) + seen
    {
      ghost var e0 := Elements();
      seen := [];
      while true
        invariant Valid() && e0 == seen + Elements() && Sequences.FirstWhere(pred, b, seen) == |seen|
        invariant extractor.kind.Inspect? || extractor.kind.Spy? ==> Calls() == old(Calls()) + seen
        decreases |Elements()|
      {
        ghost var before := Elements();
        var more := extractor.Advance();
        if !more {
          found := false;
          break;
        }
        var x := extractor.Get();
        Consume(e0, seen, before);
        Sequences.FirstWhereAppend(pred, b, seen, [x]);
        ghost var passed := seen;
        seen := seen + [x];
        if pred(x) == b {
          found := true;
          assert seen[..|seen| - 1] == passed;
          break;
        }
      }
    }

    /** The strict left fold of the remaining elements from `a`. */
    method Fold<A>(a: A, fold: (A, Value) -> A) returns (r: A)
      requires Valid()
      modifies Repr
      ensures Valid() && Elements() == []
      ensures r == Sequences.Fold(fold, a, old(Elements()))
      ensures extractor.kind.Inspect? || extractor.kind.Spy? ==> Calls() == old(Calls()) + old(Elements())
    {
      ghost var e0 := Elements();
      ghost var seen: seq<Value> := [];
      r := a;
      while true
        invariant Valid() && Sequences.Fold(fold, r, Elements()) == Sequences.Fold(fold, a, e0)
        invariant e0 == seen + Elements()
        invariant extractor.kind.Inspect? || extractor.kind.Spy? ==> Calls() == old(Calls()) + seen
        decreases |Elements()|
      {
        ghost var before := Elements();
        var more := extractor.Advance();
        if !more {
          break;
        }
        var x := extractor.Get();
        Consume(e0, seen, before);
        seen := seen + [x];
        r := fold(r, x);
      }
      LastOf(e0, seen);
    }

    /** The remaining elements, in order, in a new sequence. */
    method Collect() returns (container: seq<Value>)
      requires Valid()
      modifies Repr
      ensures Valid() && Elements() == [] && container == old(Elements())
      ensures extractor.kind.Inspect? || extractor.kind.Spy? ==> Calls() == old(Calls()) + container
    {
      ghost var e0 := Elements();
      container := [];
      while true
        invariant Valid() && e0 == container + Elements()
        invariant extractor.kind.Inspect? || extractor.kind.Spy? ==> Calls() == old(Calls()) + container
        decreases |Elements()|
      {
        ghost var before := Elements();
        var more := extractor.Advance();
        if !more {
          break;
        }
        var x := extractor.Get();
        Consume(e0, container, before);
        container := container + [x];
      }
      LastOf(e0, container);
    }
  }

  /** `from(container)`: a stream over the container's elements, from begin to end. */
  method From(container: seq<Value>) returns (s: Stream)
    ensures s.Valid() && fresh(s.Repr) && s.Elements() == container
  {
    var e := new Extractor.FromSequence(container);
    s := new Stream(e);
  }

  /** How `nth(n)` splits its input: the skipped prefix, then the element `next` returns, then the rest. */
  lemma NthSplit(e0: seq<Value>, skipped: seq<Value>, rest: seq<Value>, n: nat)
    requires e0 == skipped + rest && |skipped| <= n && (|skipped| < n ==> rest == [])
    ensures Sequences.Skip(rest, 1) == Sequences.Skip(e0, n + 1)
    ensures (rest == []) <==> n >= |e0|
    ensures n < |e0| ==> rest[0] == e0[n]
    ensures skipped + Sequences.Take(rest, 1) == Sequences.Take(e0, n + 1)
  {
    Sequences.SkipIsSuffix(rest, 1);
    Sequences.SkipIsSuffix(e0, n + 1);
    Sequences.TakeIsPrefix(rest, 1);
    Sequences.TakeIsPrefix(e0, n + 1);
    assert rest[Sequences.Min(1, |rest|)..] == e0[Sequences.Min(n + 1, |e0|)..];
  }

  /** Pulling one element moves the head of what remains to the end of what has been seen. */
  lemma Consume(e0: seq<Value>, seen: seq<Value>, before: seq<Value>)
    requires e0 == seen + before && before != []
    ensures e0 == (seen + [before[0]]) + before[1..]
  {
    assert before == [before[0]] + before[1..];
  }

  /** The last element of `s`, or `x` when `s` is empty. */
  function LastOr(x: Value, s: seq<Value>): (last: Value)
  {
    if s == [] then x else s[|s| - 1]
  }

  /** The last of a non-empty sequence is the last of its tail, or its head when the tail is empty. */
  lemma LastOrCons(e0: seq<Value>, first: Value)
    requires e0 != [] && first == e0[0]
    ensures LastOr(first, e0[1..]) == e0[|e0| - 1]
  {
  }

  /** Once nothing remains, everything has been seen, and the final element is the last one seen. */
  lemma LastOf(e0: seq<Value>, seen: seq<Value>)
    requires e0 == seen + []
    ensures e0 == seen && (seen != [] ==> e0[|e0| - 1] == seen[|seen| - 1])
  {
  }

  /** Pulling `m` times from `seen + rest` yields `seen` and leaves `rest`, if it ran dry exactly when `m` exceeded `seen`. */
  lemma Split(e0: seq<Value>, seen: seq<Value>, rest: seq<Value>, m: nat)
    requires e0 == seen + rest && |seen| <= m && (|seen| < m ==> rest == [])
    ensures Sequences.Skip(e0, m) == rest && Sequences.Take(e0, m) == seen
  {
    Sequences.SkipIsSuffix(e0, m);
    Sequences.TakeIsPrefix(e0, m);
  }

  /** What a search that got `seen` from `e0` and left `rest` tells about where `any` or `all` stop. */
  lemma SearchOutcome(pred: Value -> bool, b: bool, e0: seq<Value>, seen: seq<Value>, rest: seq<Value>, found: bool)
    requires e0 == seen + rest
    requires found ==> seen != [] && pred(seen[|seen| - 1]) == b
                       && Sequences.FirstWhere(pred, b, seen[..|seen| - 1]) == |seen| - 1
    requires !found ==> rest == [] && Sequences.FirstWhere(pred, b, seen) == |seen|
    ensures found == (Sequences.FirstWhere(pred, b, e0) < |e0|)
    ensures Sequences.Skip(e0, Sequences.FirstWhere(pred, b, e0) + 1) == rest
    ensures Sequences.Take(e0, Sequences.FirstWhere(pred, b, e0) + 1) == seen
  {
    if found {
      StoppedAtLast(pred, b, e0, seen, rest);
    } else {
      RanDry(pred, b, e0, seen, rest);
    }
    Split(e0, seen, rest, Sequences.FirstWhere(pred, b, e0) + 1);
  }

  /** A search that stopped on its final element stopped at index `|seen| - 1` of `e0`. */
  lemma StoppedAtLast(pred: Value -> bool, b: bool, e0: seq<Value>, seen: seq<Value>, rest: seq<Value>)
    requires e0 == seen + rest && seen != [] && pred(seen[|seen| - 1]) == b
    requires Sequences.FirstWhere(pred, b, seen[..|seen| - 1]) == |seen| - 1
    ensures Sequences.FirstWhere(pred, b, e0) + 1 == |seen|
  {
    var passed := seen[..|seen| - 1];
    var tail := [seen[|seen| - 1]] + rest;
    assert e0 == passed + tail;
    assert tail[0] == seen[|seen| - 1];
    Sequences.FirstWhereAppend(pred, b, passed, tail);
  }

  /** A search that ran dry found no element of `e0` giving `b`. */
  lemma RanDry(pred: Value -> bool, b: bool, e0: seq<Value>, seen: seq<Value>, rest: seq<Value>)
    requires e0 == seen + rest && rest == [] && Sequences.FirstWhere(pred, b, seen) == |seen|
    ensures Sequences.FirstWhere(pred, b, e0) == |e0| == |seen|
  {
    assert e0 == seen;
  }
}
