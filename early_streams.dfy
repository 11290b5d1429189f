/**
 * The earlier snapshot of the facade (src/Streams.h:165-226). Its stages are
 * the same structs as the later header's: `LimitStreamExtractor` is the take
 * stage and `PeekStreamExtractor` is the spy stage (it calls back on every
 * `get`, never on `advance`), so an `EarlyStream` drives the same extractor
 * chain through a `Stream` it owns, and offers only that snapshot's operations.
 */
module EarlyStreams {
  import opened Elements
  import Streams
  import Sequences

  class EarlyStream {
    const stream: Streams.Stream
    ghost const Repr: set<object>

    ghost predicate Valid()
      reads this, Repr
    {
      && this in Repr && stream in Repr
      && Repr == {this} + stream.Repr && this !in stream.Repr
      && stream.Valid()
    }

    /** The elements the stream has still to yield, in order. */
    ghost function Elements(): seq<Value>
      reads this, stream, stream.extractor
    {
      stream.Elements()
    }

    /** The arguments the outermost peek callback has received. */
    function Calls(): seq<Value>
      reads this, stream, stream.extractor
    {
      stream.Calls()
    }

    /** Whether the outermost stage is a peek stage. */
    predicate Peeking()
    {
      stream.extractor.kind.Spy?
    }

    constructor (s: Streams.Stream)
      requires s.Valid()
      ensures Valid() && stream == s && Repr == {this} + s.Repr
    {
      stream := s;
      Repr := {this} + s.Repr;
    }

    // ------------------------------------------------ intermediate operations

    method Map(mapper: Value -> Value) returns (r: EarlyStream)
      requires Valid()
      ensures r.Valid() && fresh(r.Repr)
      ensures r.Elements() == Sequences.Map(mapper, Elements())
    {
      var t := stream.Map(mapper);
      r := new EarlyStream(t);
    }

    method Filter(pred: Value -> bool) returns (r: EarlyStream)
      requires Valid()
      ensures r.Valid() && fresh(r.Repr)
      ensures r.Elements() == Sequences.Filter(pred, Elements())
    {
      var t := stream.Filter(pred);
      r := new EarlyStream(t);
    }

    method SkipFirst(count: nat) returns (r: EarlyStream)
      requires Valid()
      ensures r.Valid() && fresh(r.Repr)
      ensures r.Elements() == Sequences.Skip(Elements(), count)
    {
      var t := stream.Skip(count);
      r := new EarlyStream(t);
    }

    method Limit(count: nat) returns (r: EarlyStream)
      requires Valid()
      ensures r.Valid() && fresh(r.Repr)
      ensures r.Elements() == Sequences.Take(Elements(), count)
    {
      var t := stream.Take(count);
      r := new EarlyStream(t);
    }

    method Peek() returns (r: EarlyStream)
      requires Valid()
      ensures r.Valid() && fresh(r.Repr)
      ensures r.Peeking() && r.Elements() == Elements() && r.Calls() == []
    {
      var t := stream.Spy();
      r := new EarlyStream(t);
    }

    // ---------------------------------------------------- terminal operations

    /** Calls the callable on each remaining element in order; `visited` is what it received. */
    method ForEach() returns (visited: seq<Value>)
      requires Valid()
      modifies Repr
      ensures Valid() && Elements() == [] && visited == old(Elements())
      ensures Peeking() ==> Calls() == old(Calls()) + visited
    {
      visited := stream.ForEach();
    }

    /** The number of successful advances; a peek stage is never called back. */
    method Count() returns (counter: nat)
      requires Valid()
      modifies Repr
      ensures Valid() && Elements() == [] && counter == |old(Elements())|
      ensures Peeking() ==> Calls() == old(Calls())
    {
      counter := stream.Count();
    }
  }

  /** `from(container)` of the earlier snapshot. */
  method EarlyFrom(container: seq<Value>) returns (s: EarlyStream)
    ensures s.Valid() && fresh(s.Repr) && s.Elements() == container
  {
    var t := Streams.From(container);
    s := new EarlyStream(t);
  }
}
