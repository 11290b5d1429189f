/**
 * The extractor protocol and the catalogue of stages (Streams.h:17-271).
 *
 * Every stage is an `Extractor` object: its `kind` says which struct of the
 * library it is and carries that struct's constructor arguments; `source` is the
 * one upstream stage it owns (none for the sequence source); the mutable fields
 * are the structs' own state. `Advance` and `Get` dispatch on `kind`, as the
 * library's `StreamExtractor` base dispatches to `advance_impl` and `get_impl`.
 *
 * The ghost state gives the meaning of a stage:
 *   Remaining  the elements the stage will still yield, in order;
 *   Holding    whether the last `Advance` returned true;
 *   Current    the element that `Get` returns while Holding;
 *   Pulls      how many times `Advance` has been called on this stage.
 */
module Extractors {
  import opened Elements
  import Sequences

  /** One case per stage struct, holding what its constructor receives. */
  datatype Kind =
    | Sequence(elems: seq<Value>)
    | SkipFirst(count: nat)
    | SkipWhile(pred: Value -> bool)
    | Take(count: nat)
    | TakeWhile(pred: Value -> bool)
    | Filter(pred: Value -> bool)
    | Map(mapFunc: Value -> Value)
    | Inspect
    | Spy
    | Enumerate(start: nat)

  /** What a fresh stage of kind `k` yields over an upstream that still yields `s`. */
  function Yields(k: Kind, s: seq<Value>): (yielded: seq<Value>)
  {
    match k
    case Sequence(elems) => elems
    case SkipFirst(count) => Sequences.Skip(s, count)
    case SkipWhile(pred) => Sequences.SkipWhile(pred, s)
    case Take(count) => Sequences.Take(s, count)
    case TakeWhile(pred) => Sequences.TakeWhile(pred, s)
    case Filter(pred) => Sequences.Filter(pred, s)
    case Map(mapFunc) => Sequences.Map(mapFunc, s)
    case Inspect => s
    case Spy => s
    case Enumerate(start) => Sequences.Enumerate(start, s)
  }

  class Extractor {
    const kind: Kind
    const source: Extractor?

    // SequenceStreamExtractor: the `current` and `next` iterators, as positions in kind.elems
    var current: nat
    var next: nat
    // SkipFirstStreamExtractor
    var skipCount: nat
    // SkipWhileStreamExtractor
    var skipping: bool
    // TakeStreamExtractor
    var limit: nat
    // TakeWhileStreamExtractor
    var taking: bool
    // EnumerateStreamExtractor
    var counter: nat
    // the value slot of MapStreamExtractor and EnumerateStreamExtractor
    var value: Value
    // the arguments the Inspect or Spy callback has received, in order
    var calls: seq<Value>

    ghost var Remaining: seq<Value>
    ghost var Holding: bool
    ghost var Current: Value
    ghost var Pulls: nat
    // the upstream's Pulls when a Take stage was built
    ghost const PullBase: nat
    ghost const Repr: set<object>

    ghost predicate Valid()
      reads this, Repr
      decreases Repr, 1
    {
      && this in Repr
      && (if kind.Sequence? then
            source == null && Repr == {this} && SequenceInv()
          else
            && source != null && source in Repr && source.Repr <= Repr && this !in source.Repr
            && StageInv())
    }

    /** SequenceStreamExtractor yields the elements from `next` on; `current` trails it. */
    ghost predicate SequenceInv()
      requires kind.Sequence?
      reads this
    {
      && next <= |kind.elems|
      && Remaining == kind.elems[next..]
      && (Holding ==> current + 1 == next && Current == kind.elems[current])
    }

    /** How a decorator stage's outputs follow from its own state and its upstream's. */
    ghost predicate StageInv()
      requires this in Repr && source != null && source in Repr && source.Repr <= Repr && this !in source.Repr
      reads this, Repr
      decreases Repr, 0
    {
      && source.Valid()
      && match kind
      case Sequence(_) => false
      case SkipFirst(_) =>
        && Remaining == Sequences.Skip(source.Remaining, skipCount)
        && (Holding ==> skipCount == 0 && source.Holding && Current == source.Current)
      case SkipWhile(pred) =>
        && Remaining == (if skipping then Sequences.SkipWhile(pred, source.Remaining) else source.Remaining)
        && (Holding ==> !skipping && source.Holding && Current == source.Current)
      case Take(count) =>
        && Remaining == Sequences.Take(source.Remaining, limit)
        && limit <= count && source.Pulls == PullBase + (count - limit)
        && (Holding ==> source.Holding && Current == source.Current)
      case TakeWhile(pred) =>
        && Remaining == (if taking then Sequences.TakeWhile(pred, source.Remaining) else [])
        && (Holding ==> taking && source.Holding && Current == source.Current)
      case Filter(pred) =>
        && Remaining == Sequences.Filter(pred, source.Remaining)
        && (Holding ==> source.Holding && Current == source.Current)
      case Map(mapFunc) =>
        && Remaining == Sequences.Map(mapFunc, source.Remaining)
        && (Holding ==> source.Holding && Current == mapFunc(source.Current))
      case Inspect =>
        && Remaining == source.Remaining
        && (Holding ==> source.Holding && Current == source.Current)
      case Spy =>
        && Remaining == source.Remaining
        && (Holding ==> source.Holding && Current == source.Current)
      case Enumerate(_) =>
        && Remaining == Sequences.Enumerate(counter, source.Remaining)
        && (Holding ==> counter >= 1 && source.Holding && Current == Pair(Enumerated(counter - 1, source.Current)))
    }

    /**
     * The pull protocol: an advance succeeds exactly when something remained;
     * on success the stage holds the old head and the rest remains; on failure
     * nothing remains, so every later advance fails too.
     */
    ghost predicate Stepped(before: seq<Value>, ok: bool)
      reads this
    {
      && ok == (before != [])
      && Holding == ok
      && (ok ==> Current == before[0] && Remaining == before[1..])
      && (!ok ==> Remaining == [])
    }

    /** `SequenceStreamExtractor(begin, end)` over the elements of a container. */
    constructor FromSequence(elems: seq<Value>)
      ensures Valid() && Repr == {this}
      ensures kind == Sequence(elems) && Remaining == elems
      ensures !Holding && Pulls == 0 && calls == []
    {
      kind, source := Sequence(elems), null;
      current, next := 0, 0;
      skipCount, skipping, limit, taking, counter := 0, true, 0, true, 0;
      value, calls := Int(0), [];
      Remaining, Holding, Current, Pulls := elems, false, Int(0), 0;
      PullBase := 0;
      Repr := {this};
    }

    /** A decorator of kind `k` that owns `src` as its upstream, as each stage's constructor. */
    constructor Wrap(k: Kind, src: Extractor)
      requires !k.Sequence? && src.Valid()
      ensures Valid() && kind == k && source == src && Repr == {this} + src.Repr
      ensures Remaining == Yields(k, src.Remaining)
      ensures !Holding && Pulls == 0 && calls == [] && skipping && taking
      ensures k.Take? ==> limit == k.count
    {
      kind, source := k, src;
      current, next := 0, 0;
      skipCount := if k.SkipFirst? then k.count else 0;
      limit := if k.Take? then k.count else 0;
      counter := if k.Enumerate? then k.start else 0;
      skipping, taking := true, true;
      value, calls := Int(0), [];
      Remaining, Holding, Current, Pulls := Yields(k, src.Remaining), false, Int(0), 0;
      PullBase := src.Pulls;
      Repr := {this} + src.Repr;
    }

    /** A field-by-field copy of `other` whose upstream is `src`, itself a copy of other's upstream. */
    constructor Copy(other: Extractor, src: Extractor?)
      requires other.Valid()
      requires src == null <==> other.source == null
      requires src != null ==> src.Valid() && SameState(src, other.source)
      ensures Valid() && SameState(this, other) && source == src
      ensures Repr == if src == null then {this} else {this} + src.Repr
    {
      kind, source := other.kind, src;
      current, next := other.current, other.next;
      skipCount, skipping, limit, taking, counter := other.skipCount, other.skipping, other.limit, other.taking, other.counter;
      value, calls := other.value, other.calls;
      Remaining, Holding, Current, Pulls := other.Remaining, other.Holding, other.Current, other.Pulls;
      PullBase := other.PullBase;
      Repr := if src == null then {this} else {this} + src.Repr;
    }

    /** The chain is copied stage by stage: the copy shares no object with the original. */
    method Clone() returns (c: Extractor)
      requires Valid()
      decreases Repr
      ensures c.Valid() && fresh(c.Repr) && SameState(c, this)
    {
      if source == null {
        c := new Extractor.Copy(this, null);
      } else {
        var s := source.Clone();
        c := new Extractor.Copy(this, s);
      }
    }

    /** `advance()`: dispatch to the stage's own `advance_impl`. */
    method Advance() returns (ok: bool)
      requires Valid()
      modifies Repr
      decreases Repr, 1
      ensures Valid() && Stepped(old(Remaining), ok)
      ensures Pulls == old(Pulls) + 1
      ensures calls == if kind.Inspect? && ok then old(calls) + [Current] else old(calls)
      ensures kind.Take? ==> limit == if old(limit) == 0 then 0 else old(limit) - 1
      ensures kind.Take? && old(limit) == 0 ==> unchanged(Repr - {this})
      ensures kind.TakeWhile? && !old(taking) ==> unchanged(Repr - {this})
      ensures kind.SkipFirst? ==> skipCount <= old(skipCount) && (ok ==> skipCount == 0)
      ensures kind.SkipWhile? && (ok || !old(skipping)) ==> !skipping
      ensures kind.TakeWhile? && (!ok || !old(taking)) ==> !taking
      ensures kind.Filter? && !ok ==> source.Remaining == []
      ensures kind.Enumerate? ==> counter == old(counter) + 1
    {
      Pulls := Pulls + 1;
      match kind
      case Sequence(_) => ok := AdvanceSequence();
      case SkipFirst(_) => ok := AdvanceSkipFirst();
      case SkipWhile(_) => ok := AdvanceSkipWhile();
      case Take(_) => ok := AdvanceTake();
      case TakeWhile(_) => ok := AdvanceTakeWhile();
      case Filter(_) => ok := AdvanceFilter();
      case Map(_) => ok := AdvanceDelegate();
      case Inspect => ok := AdvanceInspect();
      case Spy => ok := AdvanceDelegate();
      case Enumerate(_) => ok := AdvanceEnumerate();
    }

    /** `get()`: the current element; Map and Enumerate rewrite their value slot, Spy calls back. */
    method Get() returns (x: Value)
      requires Valid() && Holding
      modifies Repr
      decreases Repr, 0
      ensures Valid() && x == Current
      ensures Remaining == old(Remaining) && Holding && Current == old(Current) && Pulls == old(Pulls)
      ensures calls == if kind.Spy? then old(calls) + [x] else old(calls)
      ensures kind.Map? || kind.Enumerate? ==> value == x
    {
      match kind
      case Sequence(elems) =>
        x := elems[current];
      case Map(mapFunc) =>
        var y := source.Get();
        value := mapFunc(y);
        x := value;
      case Enumerate(_) =>
        var y := source.Get();
        value := Pair(Enumerated(counter - 1, y));
        x := value;
      case Spy =>
        x := source.Get();
        calls := calls + [x];
      case _ =>
        x := source.Get();
    }

    // ------------------------------------------------- the stages' advance_impl

    /** Moves `current` to `next` and `next` one further, unless `next` is at the end. */
    method AdvanceSequence() returns (ok: bool)
      requires Valid() && kind.Sequence?
      modifies this
      ensures Valid() && Stepped(old(Remaining), ok)
      ensures calls == old(calls) && Pulls == old(Pulls)
    {
      if next != |kind.elems| {
        current, next := next, next + 1;
        Remaining, Holding, Current := Remaining[1..], true, kind.elems[current];
        ok := true;
      } else {
        Holding := false;
        ok := false;
      }
    }

    /** Discards upstream elements while the count lasts, decrementing before each pull. */
    method AdvanceSkipFirst() returns (ok: bool)
      requires Valid() && kind.SkipFirst?
      modifies Repr
      decreases Repr, 0
      ensures Valid() && Stepped(old(Remaining), ok)
      ensures calls == old(calls) && Pulls == old(Pulls)
      ensures skipCount <= old(skipCount) && (ok ==> skipCount == 0)
    {
      Holding := false;
      while skipCount != 0
        invariant Valid() && Remaining == old(Remaining) && !Holding
        invariant calls == old(calls) && Pulls == old(Pulls) && skipCount <= old(skipCount)
        decreases skipCount
      {
        skipCount := skipCount - 1;
        var more := source.Advance();
        if !more {
          return false;
        }
      }
      ok := source.Advance();
      Remaining, Holding := source.Remaining, ok;
      Current := source.Current;
    }

    /** While skipping, pulls and tests each element; the first failing element ends skipping for good. */
    method AdvanceSkipWhile() returns (ok: bool)
      requires Valid() && kind.SkipWhile?
      modifies Repr
      decreases Repr, 0
      ensures Valid() && Stepped(old(Remaining), ok)
      ensures calls == old(calls) && Pulls == old(Pulls)
      ensures ok || !old(skipping) ==> !skipping
    {
      if skipping {
        while skipping
          invariant Valid() && calls == old(calls) && Pulls == old(Pulls)
          invariant skipping ==> Remaining == old(Remaining) && !Holding
          invariant !skipping ==> Stepped(old(Remaining), true)
          decreases |source.Remaining|, skipping
        {
          var more := source.Advance();
          if !more {
            break;
          }
          var x := source.Get();
          skipping := kind.pred(x);
          if !skipping {
            Remaining, Holding, Current := source.Remaining, true, x;
          }
        }
        ok := !skipping;
      } else {
        ok := source.Advance();
        Remaining, Holding, Current := source.Remaining, ok, source.Current;
      }
    }

    /** Pulls upstream only while the limit lasts. */
    method AdvanceTake() returns (ok: bool)
      requires Valid() && kind.Take?
      modifies Repr
      decreases Repr, 0
      ensures Valid() && Stepped(old(Remaining), ok)
      ensures calls == old(calls) && Pulls == old(Pulls)
      ensures limit == if old(limit) == 0 then 0 else old(limit) - 1
      ensures old(limit) == 0 ==> unchanged(Repr - {this})
    {
      if limit != 0 {
        limit := limit - 1;
        ok := source.Advance();
      } else {
        ok := false;
      }
      Remaining, Holding := if ok then old(Remaining)[1..] else [], ok;
      Current := source.Current;
    }

    /** `taking &= taking && advance && pred(get)`: the first failure latches the stage shut. */
    method AdvanceTakeWhile() returns (ok: bool)
      requires Valid() && kind.TakeWhile?
      modifies Repr
      decreases Repr, 0
      ensures Valid() && Stepped(old(Remaining), ok)
      ensures calls == old(calls) && Pulls == old(Pulls)
      ensures !old(taking) ==> unchanged(Repr - {this}) && !taking
      ensures !ok ==> !taking
    {
      if taking {
        var more := source.Advance();
        if more {
          var x := source.Get();
          taking := kind.pred(x);
        } else {
          taking := false;
        }
      }
      ok := taking;
      Remaining, Holding := if ok then old(Remaining)[1..] else [], ok;
      Current := source.Current;
    }

    /** Pulls from the upstream until it holds an element satisfying the predicate, or is exhausted. */
    method AdvanceFilter() returns (ok: bool)
      requires Valid() && kind.Filter?
      modifies Repr
      decreases Repr, 0
      ensures Valid() && Stepped(old(Remaining), ok)
      ensures calls == old(calls) && Pulls == old(Pulls)
      ensures !ok ==> source.Remaining == []
    {
      Holding := false;
      ok := source.PullUntil(kind.pred);
      if ok {
        Remaining, Holding, Current := Sequences.Filter(kind.pred, source.Remaining), true, source.Current;
      }
    }

    /**
     * The loop of FilterStreamExtractor::advance_impl, run on the filter's
     * upstream: advance, get, and repeat while the element fails `pred`.
     */
    method PullUntil(pred: Value -> bool) returns (found: bool)
      requires Valid()
      modifies Repr
      decreases Repr, 2
      ensures Valid()
      ensures found == (Sequences.Filter(pred, old(Remaining)) != [])
      ensures found ==> Holding && pred(Current)
      ensures found ==> Sequences.Filter(pred, old(Remaining)) == [Current] + Sequences.Filter(pred, Remaining)
      ensures !found ==> Remaining == []
    {
      var more := Advance();
      if !more {
        return false;
      }
      var element := Get();
      Sequences.FilterCons(pred, element, Remaining);
      while !pred(element)
        invariant Valid() && Holding && element == Current
        invariant Sequences.Filter(pred, old(Remaining)) == Sequences.Filter(pred, [element] + Remaining)
        decreases |Remaining|
      {
        more := Advance();
        if !more {
          return false;
        }
        element := Get();
        Sequences.FilterCons(pred, element, Remaining);
      }
      found := true;
    }

    /** Map and Spy advance exactly when their upstream does. */
    method AdvanceDelegate() returns (ok: bool)
      requires Valid() && (kind.Map? || kind.Spy?)
      modifies Repr
      decreases Repr, 0
      ensures Valid() && Stepped(old(Remaining), ok)
      ensures calls == old(calls) && Pulls == old(Pulls)
    {
      ok := source.Advance();
      Holding := ok;
      if kind.Map? {
        Remaining, Current := Sequences.Map(kind.mapFunc, source.Remaining), kind.mapFunc(source.Current);
      } else {
        Remaining, Current := source.Remaining, source.Current;
      }
    }

    /** Calls back once on each element the upstream produces, at advance time. */
    method AdvanceInspect() returns (ok: bool)
      requires Valid() && kind.Inspect?
      modifies Repr
      decreases Repr, 0
      ensures Valid() && Stepped(old(Remaining), ok)
      ensures calls == (if ok then old(calls) + [Current] else old(calls)) && Pulls == old(Pulls)
    {
      ok := source.Advance();
      Remaining, Holding, Current := source.Remaining, ok, source.Current;
      if ok {
        var x := source.Get();
        calls := calls + [x];
      }
    }

    /** Counts every advance, successful or not, then delegates. */
    method AdvanceEnumerate() returns (ok: bool)
      requires Valid() && kind.Enumerate?
      modifies Repr
      decreases Repr, 0
      ensures Valid() && Stepped(old(Remaining), ok)
      ensures calls == old(calls) && Pulls == old(Pulls) && counter == old(counter) + 1
    {
      counter := counter + 1;
      ok := source.Advance();
      Remaining, Holding := Sequences.Enumerate(counter, source.Remaining), ok;
      Current := Pair(Enumerated(counter - 1, source.Current));
    }
  }

  /** Two stages in the same observable state (used by copying). */
  ghost predicate SameState(a: Extractor, b: Extractor)
    reads a, b
  {
    && a.kind == b.kind && a.Remaining == b.Remaining && a.Holding == b.Holding
    && a.Current == b.Current && a.Pulls == b.Pulls && a.calls == b.calls
  }

  /** A take stage never advances its upstream more than `count` times. */
  lemma TakePullBound(e: Extractor)
    requires e.Valid() && e.kind.Take?
    ensures e.source != null && e.source.Pulls <= e.PullBase + e.kind.count
  {
    assert e.StageInv();
  }
}
