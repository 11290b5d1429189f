/**
 * Client code driving whole pipelines, with what the library's own test
 * suite expects of them (tests/general.cpp) stated as postconditions over an
 * arbitrary container. Each scenario builds its streams itself, so it changes
 * nothing that existed before it was called.
 */
module Scenarios {
  import opened Elements
  import opened Streams
  import EarlyStreams
  import Extractors
  import Sequences

  /** `inspect` fires on every advance, `spy` on every get: `nth(10)` logs 11 elements, resp. one. */
  method InspectVersusSpy(s: seq<Value>)
    returns (inspected: Option<Value>, inspectLog: seq<Value>, spied: Option<Value>, spyLog: seq<Value>)
    requires |s| > 10
    ensures inspected == Some(s[10]) && inspectLog == s[..11]
    ensures spied == Some(s[10]) && spyLog == [s[10]]
  {
    var source := From(s);
    var i := source.Inspect();
    inspected := i.Nth(10);
    inspectLog := i.Calls();
    var p := source.Spy();
    spied := p.Nth(10);
    spyLog := p.Calls();
    Sequences.TakeIsPrefix(s, 11);
  }

  /** Callbacks are lazy: nothing is logged before a terminal operation, everything after `collect`. */
  method CallbacksAreLazy(s: seq<Value>)
    returns (inspectBefore: seq<Value>, inspectAfter: seq<Value>, spyBefore: seq<Value>, spyAfter: seq<Value>)
    ensures inspectBefore == [] && inspectAfter == s
    ensures spyBefore == [] && spyAfter == s
  {
    var source := From(s);
    var i := source.Inspect();
    inspectBefore := i.Calls();
    var c := i.Collect();
    inspectAfter := i.Calls();
    var p := source.Spy();
    spyBefore := p.Calls();
    c := p.Collect();
    spyAfter := p.Calls();
  }

  /** `nth` consumes what it skips: `nth(12)` then `nth(20)` give elements 12 and 33. */
  method NthState(s: seq<Value>) returns (first: Option<Value>, second: Option<Value>)
    requires |s| >= 34
    ensures first == Some(s[12]) && second == Some(s[33])
  {
    var stream := From(s);
    first := stream.Nth(12);
    Sequences.SkipIsSuffix(s, 13);
    second := stream.Nth(20);
  }

  /** `nth` past the end gives nothing, and `nth(0)` twice gives the first two elements. */
  method NthEdges(s: seq<Value>, n: nat) returns (beyond: Option<Value>, a: Option<Value>, b: Option<Value>)
    requires |s| >= 2 && n >= |s|
    ensures beyond == None && a == Some(s[0]) && b == Some(s[1])
  {
    var stream := From(s);
    beyond := stream.Nth(n);
    stream := From(s);
    a := stream.Nth(0);
    Sequences.SkipIsSuffix(s, 1);
    b := stream.Nth(0);
  }

  /** `next` yields every element in order, then nothing. */
  method NextWalk(s: seq<Value>) returns (walked: seq<Value>, after: Option<Value>)
    ensures walked == s && after == None
  {
    var stream := From(s);
    walked := [];
    while true
      invariant stream.Valid() && s == walked + stream.Elements()
      decreases |stream.Elements()|
    {
      ghost var before := stream.Elements();
      var e := stream.Next();
      if e.None? {
        break;
      }
      Consume(s, walked, before);
      walked := walked + [e.value];
    }
    after := stream.Next();
  }

  /** `count` counts every element; drained, a stream counts nothing and has no last element. */
  method CountDrains(s: seq<Value>) returns (counted: nat, again: nat, lastAfter: Option<Value>)
    ensures counted == |s| && again == 0 && lastAfter == None
  {
    var stream := From(s);
    counted := stream.Count();
    again := stream.Count();
    lastAfter := stream.Last();
  }

  /** On a drained stream `any` is false and `all` is true, whatever the predicate. */
  method DrainedAnyAll(s: seq<Value>, pred: Value -> bool) returns (anyAfter: bool, allAfter: bool)
    ensures !anyAfter && allAfter
  {
    var stream := From(s);
    var c := stream.Count();
    anyAfter := stream.Any(pred);
    allAfter := stream.All(pred);
  }

  /** `last` gives the final element, or nothing exactly on an empty container. */
  method LastElement(s: seq<Value>) returns (last: Option<Value>)
    ensures s == [] ==> last == None
    ensures s != [] ==> last == Some(s[|s| - 1])
  {
    var stream := From(s);
    last := stream.Last();
  }

  /** `enumerate()` pairs each element with its position from 0. */
  method EnumerateFromZero(s: seq<Value>) returns (pairs: seq<Value>)
    ensures |pairs| == |s|
    ensures forall k :: 0 <= k < |s| ==> pairs[k] == Pair(Enumerated(k, s[k]))
  {
    var stream := From(s);
    var e := stream.Enumerate();
    pairs := e.Collect();
    Sequences.EnumerateIndexes(0, s);
  }

  /** `skip(0)` passes everything, `skip(n)` nothing, and `skip(3)` drops the first three. */
  method SkipEdges(s: seq<Value>) returns (skipNone: seq<Value>, skipAll: seq<Value>, skipSome: seq<Value>)
    ensures skipNone == s && skipAll == []
    ensures skipSome == if |s| <= 3 then [] else s[3..]
  {
    var source := From(s);
    var t := source.Skip(0);
    skipNone := t.Collect();
    t := source.Skip(|s|);
    skipAll := t.Collect();
    t := source.Skip(3);
    skipSome := t.Collect();
    Sequences.SkipIsSuffix(s, |s|);
    Sequences.SkipIsSuffix(s, 3);
  }

  /** `take(n)` passes everything, `take(0)` nothing. */
  method TakeEdges(s: seq<Value>) returns (takeAll: seq<Value>, takeNone: seq<Value>)
    ensures takeAll == s && takeNone == []
  {
    var source := From(s);
    var t := source.Take(|s|);
    takeAll := t.Collect();
    t := source.Take(0);
    takeNone := t.Collect();
    Sequences.TakeIsPrefix(s, |s|);
  }

  /** `filter` with a predicate that always holds passes everything; one that never holds, nothing. */
  method FilterEdges(s: seq<Value>) returns (keepAll: seq<Value>, keepNone: seq<Value>)
    ensures keepAll == s && keepNone == []
  {
    var always: Value -> bool := _ => true;
    var never: Value -> bool := _ => false;
    var source := From(s);
    var t := source.Filter(always);
    keepAll := t.Collect();
    t := source.Filter(never);
    keepNone := t.Collect();
    Sequences.FilterKeepsAll(always, s);
    Sequences.FilterDropsAll(never, s);
  }

  /** With a predicate that always holds, `skipWhile` passes nothing and `takeWhile` everything. */
  method WhileEdges(s: seq<Value>) returns (skipAll: seq<Value>, takeAll: seq<Value>)
    ensures skipAll == [] && takeAll == s
  {
    var always: Value -> bool := _ => true;
    var source := From(s);
    var t := source.SkipWhile(always);
    skipAll := t.Collect();
    t := source.TakeWhile(always);
    takeAll := t.Collect();
    Sequences.WhileAllHold(always, s);
  }

  /** A derived stream is a copy: draining it leaves the stream it came from untouched. */
  method DerivedIsIndependent(s: seq<Value>, pred: Value -> bool) returns (filtered: nat, original: seq<Value>)
    ensures filtered == |Sequences.Filter(pred, s)| && original == s
  {
    var stream := EarlyStreams.EarlyFrom(s);
    var f := stream.Filter(pred);
    filtered := f.Count();
    original := stream.ForEach();
  }

  /** `peek` is called back by `forEach`, which gets every element, but never by `count`. */
  method PeekOnlyOnGet(s: seq<Value>) returns (counted: nat, countLog: seq<Value>, visitLog: seq<Value>)
    ensures counted == |s| && countLog == [] && visitLog == s
  {
    var stream := EarlyStreams.EarlyFrom(s);
    var p := stream.Peek();
    counted := p.Count();
    countLog := p.Calls();
    p := stream.Peek();
    var visited := p.ForEach();
    visitLog := p.Calls();
  }

  /** `limit(k)` of the earlier snapshot keeps the first min(k, n) elements. */
  method LimitKeepsPrefix(s: seq<Value>, k: nat) returns (kept: seq<Value>)
    ensures kept == s[..Sequences.Min(k, |s|)]
  {
    var stream := EarlyStreams.EarlyFrom(s);
    var l := stream.Limit(k);
    kept := l.ForEach();
    Sequences.TakeIsPrefix(s, k);
  }

  /** `map(f).collect()` is `f` applied to each element, one for one. */
  method MapCollect(s: seq<Value>, f: Value -> Value) returns (mapped: seq<Value>)
    ensures |mapped| == |s|
    ensures forall i :: 0 <= i < |s| ==> mapped[i] == f(s[i])
  {
    var source := From(s);
    var m := source.Map(f);
    mapped := m.Collect();
    Sequences.MapPointwise(f, s);
  }

  /** `filter(p).collect()` keeps every occurrence of each element satisfying `p` and nothing else. */
  method FilterCollect(s: seq<Value>, pred: Value -> bool) returns (kept: seq<Value>)
    ensures forall i :: 0 <= i < |kept| ==> pred(kept[i])
    ensures forall x :: multiset(kept)[x] == if pred(x) then multiset(s)[x] else 0
  {
    var source := From(s);
    var t := source.Filter(pred);
    kept := t.Collect();
    Sequences.FilterSatisfies(pred, s);
    forall x {
      Sequences.FilterMultiplicity(pred, s, x);
    }
  }

  /** The integer the sum of a container adds up to, folded from the right. */
  function IntSum(s: seq<Value>): (sum: int)
  {
    if s == [] then 0 else IntOf(s[0]) + IntSum(s[1..])
  }

  function IntOf(v: Value): (n: int)
  {
    if v.Int? then v.n else 0
  }

  /** Folding `+` from the left from `a` adds `a` to the sum. */
  lemma {:induction false} FoldIsSum(s: seq<Value>, a: int)
    ensures Sequences.Fold((acc: int, v: Value) => acc + IntOf(v), a, s) == a + IntSum(s)
  {
    if s != [] {
      FoldIsSum(s[1..], a + IntOf(s[0]));
    }
  }

  /** `fold(0, plus)` is the sum of the elements, 0 for an empty container. */
  method FoldSums(s: seq<Value>) returns (total: int)
    ensures total == IntSum(s)
    ensures s == [] ==> total == 0
  {
    var source := From(s);
    total := source.Fold(0, (acc: int, v: Value) => acc + IntOf(v));
    FoldIsSum(s, 0);
  }

  /**
   * Once a `takeWhile` stage has answered false, it is shut for good: a further
   * advance answers false again and leaves its upstream's cursor where it was.
   */
  method TakeWhileLatches(s: seq<Value>, pred: Value -> bool)
    returns (once: bool, again: bool, positionBefore: nat, positionAfter: nat)
    ensures !once && !again && positionAfter == positionBefore
  {
    var src := new Extractors.Extractor.FromSequence(s);
    var e := new Extractors.Extractor.Wrap(Extractors.TakeWhile(pred), src);
    once := e.Advance();
    while once
      invariant e.Valid() && e.kind.TakeWhile? && e.source == src
      invariant !once ==> !e.taking
      decreases |e.Remaining| + if once then 1 else 0
    {
      once := e.Advance();
    }
    positionBefore := src.next;
    again := e.Advance();
    positionAfter := src.next;
  }

  /**
   * A `take(2)` stage stops itself: after two advances its limit is spent, so a
   * third advance answers false and leaves its upstream's cursor where it was.
   */
  method TakeStopsItself(s: seq<Value>)
    returns (first: bool, second: bool, third: bool, positionBefore: nat, positionAfter: nat)
    ensures first == (|s| >= 1) && second == (|s| >= 2)
    ensures !third && positionAfter == positionBefore
  {
    var src := new Extractors.Extractor.FromSequence(s);
    var e := new Extractors.Extractor.Wrap(Extractors.Take(2), src);
    Sequences.TakeIsPrefix(s, 2);
    first := e.Advance();
    second := e.Advance();
    positionBefore := src.next;
    third := e.Advance();
    positionAfter := src.next;
  }

  /** A `filter` that finds nothing has drained its upstream: the sequence cursor is at the end. */
  method FilterDrainsUpstream(s: seq<Value>, pred: Value -> bool) returns (found: bool, position: nat)
    ensures found == (Sequences.Filter(pred, s) != [])
    ensures !found ==> position == |s|
  {
    var src := new Extractors.Extractor.FromSequence(s);
    var e := new Extractors.Extractor.Wrap(Extractors.Filter(pred), src);
    found := e.Advance();
    assert e.StageInv();
    assert src.Valid();
    assert !found ==> src.Remaining == [];
    position := src.next;
  }
}
