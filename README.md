# Streams: a verified model of a lazy, pull-based stream library

The library builds pipelines of *extractors*. An extractor is a stage with two
operations:

- `advance()` moves to the next element and says whether there is one;
- `get()` hands out the current element.

A pipeline starts from a `Sequence` over a container. It is then decorated by
Skip, SkipWhile, Take, TakeWhile, Filter, Map, Inspect, Spy and Enumerate.
Each decorator owns exactly one upstream stage. The `BaseStreamInterface`
facade copies the chain into a deeper wrapper for every intermediate
operation. Its single-step operations (`next`, `nth`) and terminal operations
(`last`, `forEach`, `count`, `any`, `all`, `fold`, `collect`) drive the chain
with `while (advance())` loops. `src/Streams.h` is an earlier snapshot of the
same design: its `limit` is `take`, its `peek` is `spy` and its `skipFirst` is
`skip`.

The model is imperative, as the library is:

- `elements.dfy`: the `Optional` wrapper, the `Enumerated` pair and its
  equality, and the universe `Value` of element values.
- `sequences.dfy`: functions saying what each stage yields, in terms of the
  finite sequence its upstream still yields. Next to them are lemmas tying
  each function to an independent description: a slice, a longest-prefix
  characterisation, pointwise indexing, a multiset count, or a concatenation
  law.
- `extractors.dfy`: one class `Extractor` with one `kind` per stage struct and
  one field per mutable member of those structs (`current`/`next`,
  `skipCount`, `skipping`, `limit`, `taking`, `counter`, the value slot
  `value`). Each stage's `advance_impl` is a method with the same loops and
  branches as the source. Every stage carries ghost state:
  - `Remaining`: what it will still yield;
  - `Holding` and `Current`: the result of the last advance;
  - `Pulls`: how many times it has been advanced.

  `Valid()` ties the fields to the upstream's ghost state. `Advance` is proved
  against the pull protocol: it returns true exactly when something remained;
  then `Get` yields the old head and the rest remains; after a false result
  nothing remains, so every later advance is false too.
- `streams.dfy`: the facade class `Stream` and `From`. Each loop is proved
  against the stage functions. The Inspect and Spy callbacks append their
  argument to a record `calls`. For the outermost stage of a stream, the
  model states when and how often its callback fires.
- `early_streams.dfy`: the facade of `src/Streams.h`, driving the same chain.
- `scenarios.dfy`: client code over arbitrary containers, restating what
  `tests/general.cpp` expects.

## Model

| member | source | states |
|---|---|---|
| Elements.EnumeratedEquals | Streams.h:247-250 | two enumerated pairs are equal exactly when both index and value agree |
| Sequences.SkipIsSuffix | Streams.h:65-73 | `skip(k)` yields the upstream with its first min(k, n) elements removed, the rest in order |
| Sequences.TakeIsPrefix | Streams.h:113-119 | `take(k)` yields exactly the first min(k, n) elements |
| Sequences.TakeThenSkip | Streams.h:113-119 | what `take(k)` yields followed by what `skip(k)` yields is the whole upstream |
| Sequences.TakeWhileIsLongestPrefix | Streams.h:135-138 | `takeWhile(p)` yields a prefix on which `p` holds throughout, and the next upstream element, if any, fails `p` |
| Sequences.SkipWhileIsRest | Streams.h:89-98 | `skipWhile(p)` yields exactly what `takeWhile(p)` leaves, and its first element fails `p` |
| Sequences.WhileAllHold | Streams.h:89-98 | when `p` holds of every element, `skipWhile(p)` yields nothing and `takeWhile(p)` yields everything |
| Sequences.FilterSatisfies | Streams.h:154-167 | every element `filter(p)` yields satisfies `p`, and it yields no more than its upstream |
| Sequences.FilterAppend | Streams.h:154-167 | filtering distributes over concatenation, so the original order is kept |
| Sequences.FilterMultiplicity | Streams.h:154-167 | each element satisfying `p` is kept as often as it occurs upstream; other elements never appear |
| Sequences.FilterKeepsAll | Streams.h:154-167 | a predicate that holds everywhere lets every element through |
| Sequences.FilterDropsAll | Streams.h:154-167 | a predicate that holds nowhere lets nothing through |
| Sequences.MapPointwise | Streams.h:186-193 | `map(f)` matches its upstream one for one: the i-th output is `f` of the i-th input |
| Sequences.EnumerateIndexes | Streams.h:261-269 | `enumerate(from)` pairs the k-th element with index `from + k`, one for one |
| Sequences.FoldAppend | Streams.h:400-405 | a left fold over a concatenation folds the second part from the result of the first |
| Sequences.FirstWhereIsFirst | Streams.h:380-397 | the index where `any` or `all` stops is in bounds; no earlier element decides; the element there decides |
| Sequences.FirstWhereAppend | Streams.h:380-397 | after a prefix with no deciding element, the search continues in what follows |
| Sequences.AnyFound | Streams.h:380-387 | `any` finds a deciding element exactly when some element satisfies the predicate |
| Sequences.AllHold | Streams.h:390-397 | `all` runs to the end exactly when every element satisfies the predicate |
| Sequences.AllStopsAfterTakeWhile | Streams.h:390-397 | `all(p)` stops right after the prefix that `takeWhile(p)` yields |
| Extractors.Extractor.FromSequence | Streams.h:32 | a fresh sequence stage yields the container's elements in order and holds nothing yet |
| Extractors.Extractor.Wrap | Streams.h:56 | a fresh decorator yields its stage function of what its upstream yields; it has not advanced, has no callback record, its `skipping` and `taking` latches are open, and a take stage's limit is its count |
| Extractors.Extractor.Copy | Streams.h:281 | a field-by-field copy of a stage over a copy of its upstream is in the same observable state |
| Extractors.Extractor.Clone | Streams.h:274-275 | copying a chain gives a chain of new objects in the same observable state |
| Extractors.Extractor.Advance | Streams.h:25-27 | the pull protocol; inspect logs exactly the elements successful advances produce; take's limit falls by one per advance until it is spent, and take with a spent limit and a latched takeWhile leave the upstream untouched; a successful skipWhile advance shuts `skipping` and a failed takeWhile advance shuts `taking`, and neither reopens; a failed filter advance leaves the upstream drained; skip never raises its count and has spent it after a success; enumerate's counter rises by one on every advance |
| Extractors.Extractor.Get | Streams.h:20-22 | `get` returns the current element and consumes nothing; spy logs it; map and enumerate leave it in their value slot |
| Extractors.Extractor.AdvanceSequence | Streams.h:43-50 | the sequence source yields each position of `[begin, end)` once, in order, and then stays exhausted |
| Extractors.Extractor.AdvanceSkipFirst | Streams.h:65-73 | skip steps against `Sequences.Skip` of the upstream; its count never rises and is spent after every successful advance |
| Extractors.Extractor.AdvanceSkipWhile | Streams.h:89-98 | skipWhile steps against `Sequences.SkipWhile` of the upstream; a successful advance shuts `skipping`, and once shut it stays shut |
| Extractors.Extractor.AdvanceTake | Streams.h:113-119 | take steps against `Sequences.Take`; each advance lowers a non-zero limit by one, and with a spent limit it answers false without touching the upstream |
| Extractors.Extractor.AdvanceTakeWhile | Streams.h:135-138 | takeWhile steps against `Sequences.TakeWhile`; a failed advance shuts `taking`, and with `taking` shut an advance answers false and leaves the upstream untouched |
| Extractors.Extractor.AdvanceFilter | Streams.h:154-167 | filter steps against `Sequences.Filter` of the upstream; it fails exactly when no remaining upstream element satisfies the predicate, and then the upstream is drained |
| Extractors.Extractor.PullUntil | Streams.h:154-167 | the filter loop run on the upstream: it succeeds exactly when some remaining element satisfies the predicate, stops on the first such element with the filtered rest unchanged, and otherwise drains the upstream |
| Extractors.Extractor.AdvanceDelegate | Streams.h:191-193 | map and spy advance exactly when their upstream does |
| Extractors.Extractor.AdvanceInspect | Streams.h:209-215 | inspect calls back once on each element its upstream produces, at advance time |
| Extractors.Extractor.AdvanceEnumerate | Streams.h:266-269 | enumerate steps against `Sequences.Enumerate` from its counter; the counter rises by one on every advance, successful or not |
| Extractors.TakePullBound | Streams.h:113-119 | a take stage advances its upstream at most `count` times |
| Streams.Stream.constructor | Streams.h:281 | a stream owns the chain it is given |
| Streams.Stream.Derive | Streams.h:274-275 | an intermediate operation copies the chain and wraps the copy; the original is neither changed nor consumed |
| Streams.Stream.Map | Streams.h:286-289 | `map(f)` yields `f` of each element |
| Streams.Stream.Filter | Streams.h:292-295 | `filter(p)` yields the elements satisfying `p` |
| Streams.Stream.Skip | Streams.h:297-300 | `skip(k)` yields the elements after the first k |
| Streams.Stream.SkipWhile | Streams.h:303-306 | `skipWhile(p)` yields the elements from the first one failing `p` |
| Streams.Stream.Take | Streams.h:308-311 | `take(k)` yields the first k elements |
| Streams.Stream.TakeWhile | Streams.h:314-317 | `takeWhile(p)` yields the elements before the first one failing `p` |
| Streams.Stream.Inspect | Streams.h:320-323 | `inspect` passes every element through and has called back nothing yet (laziness) |
| Streams.Stream.Spy | Streams.h:326-329 | `spy` passes every element through and has called back nothing yet (laziness) |
| Streams.Stream.Enumerate | Streams.h:331-334 | `enumerate(from)`, with `from` 0 by default, yields each element paired with its index counted from `from` |
| Streams.Stream.Next | Streams.h:339-344 | `next` gives the head, or nothing on an exhausted stream, and consumes exactly one element; inspect and spy log it |
| Streams.Stream.Nth | Streams.h:346-351 | `nth(n)` gives element n or nothing and consumes n + 1 elements; inspect logs all of them, spy only the one returned |
| Streams.Stream.Discard | Streams.h:347-349 | the loop of `nth` pulls up to n elements, stopping early only on exhaustion |
| Streams.Stream.Last | Streams.h:354-362 | `last` drains the stream and gives its final element, nothing exactly when it was empty |
| Streams.Stream.KeepLast | Streams.h:358-360 | the loop of `last` drains the stream, keeping the latest element it got |
| Streams.Stream.ForEach | Streams.h:365-369 | `forEach` hands the callable every element, once each, in order |
| Streams.Stream.Count | Streams.h:371-377 | `count` gives the number of elements and drains the stream; spy is never called back, inspect sees every element |
| Streams.Stream.Any | Streams.h:380-387 | `any(p)` is true exactly when some element satisfies `p`; it consumes up to and including the first match |
| Streams.Stream.All | Streams.h:390-397 | `all(p)` is true exactly when every element satisfies `p`; it consumes up to and including the first failure |
| Streams.Stream.Search | Streams.h:380-397 | the loop `any` and `all` share stops right after the first deciding element, or at exhaustion |
| Streams.Stream.Fold | Streams.h:400-405 | `fold(a, f)` is the strict left fold of the elements from `a`; it drains the stream, and an inspect or spy stage logs every element |
| Streams.Stream.Collect | Streams.h:408-414 | `collect` gives the elements in order and drains the stream |
| Streams.From | Streams.h:419-422 | `from(container)` gives a new stream over the container's elements |
| EarlyStreams.EarlyStream.constructor | src/Streams.h:171 | an early stream owns the chain it is given |
| EarlyStreams.EarlyStream.Map | src/Streams.h:176-179 | `map(f)` yields `f` of each element |
| EarlyStreams.EarlyStream.Filter | src/Streams.h:182-185 | `filter(p)` yields the elements satisfying `p` |
| EarlyStreams.EarlyStream.SkipFirst | src/Streams.h:187-190 | `skipFirst(k)` yields the elements after the first k |
| EarlyStreams.EarlyStream.Limit | src/Streams.h:192-195 | `limit(k)` yields the first k elements |
| EarlyStreams.EarlyStream.Peek | src/Streams.h:198-201 | `peek` passes every element through and has called back nothing yet |
| EarlyStreams.EarlyStream.ForEach | src/Streams.h:206-210 | `forEach` hands the callable every element in order; peek sees each one |
| EarlyStreams.EarlyStream.Count | src/Streams.h:212-218 | `count` gives the number of successful advances; peek is never called back |
| EarlyStreams.EarlyFrom | src/Streams.h:223-226 | `from(container)` gives a new stream over the container's elements |
| Scenarios.InspectVersusSpy | Streams.h:209-231 | `nth(10)` under inspect logs elements 0 to 10, under spy only element 10; both return element 10 |
| Scenarios.CallbacksAreLazy | Streams.h:209-231 | nothing is logged before a terminal operation; `collect` logs every element under inspect and under spy |
| Scenarios.NthState | Streams.h:346-351 | `nth(12)` then `nth(20)` give elements 12 and 33 |
| Scenarios.NthEdges | Streams.h:346-351 | `nth` past the end gives nothing; `nth(0)` twice gives elements 0 and 1 |
| Scenarios.NextWalk | Streams.h:339-344 | repeated `next` yields every element in order, then nothing |
| Scenarios.CountDrains | Streams.h:371-377 | `count` counts every element; a drained stream counts 0 and has no last element |
| Scenarios.DrainedAnyAll | Streams.h:380-397 | on a drained stream `any` is false and `all` is true |
| Scenarios.LastElement | Streams.h:354-362 | `last` gives the final element, nothing exactly for an empty container |
| Scenarios.EnumerateFromZero | Streams.h:331-334 | `enumerate().collect()` pairs each element with its position from 0 |
| Scenarios.SkipEdges | Streams.h:65-73 | `skip(0)` passes everything, `skip(n)` nothing, `skip(3)` drops the first three |
| Scenarios.TakeEdges | Streams.h:113-119 | `take(n)` passes everything, `take(0)` nothing |
| Scenarios.FilterEdges | Streams.h:154-167 | an always-true filter passes everything, an always-false one nothing |
| Scenarios.WhileEdges | Streams.h:89-98 | with an always-true predicate, `skipWhile` passes nothing and `takeWhile` everything |
| Scenarios.DerivedIsIndependent | src/Streams.h:175-201 | draining a derived stream leaves the stream it came from with all of its elements |
| Scenarios.PeekOnlyOnGet | src/Streams.h:150-158 | `peek` is called back by `forEach` on every element and never by `count` |
| Scenarios.LimitKeepsPrefix | src/Streams.h:77-83 | `limit(k)` keeps exactly the first min(k, n) elements |
| Scenarios.MapCollect | Streams.h:186-193 | `map(f).collect()` is `f` applied to each element, one for one |
| Scenarios.FilterCollect | Streams.h:154-167 | `filter(p).collect()` keeps every occurrence of each element satisfying `p` and nothing else |
| Scenarios.FoldIsSum | Streams.h:400-405 | a left fold of `+` from `a` is `a` plus the sum of the elements |
| Scenarios.FoldSums | Streams.h:400-405 | `fold(0, plus)` is the sum of the elements, 0 for an empty container |
| Scenarios.TakeStopsItself | Streams.h:113-119 | `take(2)` succeeds on its first two advances exactly as far as the container lasts; the third answers false and leaves the upstream's cursor where it was |
| Scenarios.TakeWhileLatches | Streams.h:135-138 | a takeWhile stage driven until it answers false stays shut: a further advance answers false and leaves the upstream's cursor where it was |
| Scenarios.FilterDrainsUpstream | Streams.h:154-167 | a filter's first advance succeeds exactly when some element satisfies the predicate; when it fails, the sequence cursor is at the end |

## Left out

- I/O: none in the core. The demo program `examples/mult_of_17.cpp` prints to standard output; it is not part of this model.
- Element types: the library is generic in its element type, and `map` or `enumerate` change that type from stage to stage. The model uses one closed universe `Value` holding integers, strings and enumerated pairs. Predicates, mapping functions and fold functions are total pure Dafny functions.
- Callbacks: the inspect, spy and peek callbacks are modelled as appends to the stage's `calls` record. Their own state, exceptions and any other side effects are not modelled. A copied chain copies the record, where the C++ copies the callable.
- Pointers and iterators: `get()` returns the element value, not an iterator or a pointer into a value slot. Dangling-reference and aliasing questions are not modelled.
- Streams.Stream.Last: returns the value of the final successful `get`. The C++ `last()` instead keeps the pointer from that `get` and dereferences it after one more, failing, `advance()`. The two differ when that final, failing advance belongs to a filter, or to a takeWhile whose predicate fails, and it gets one more element through a map or enumerate stage below it: that `get` overwrites the value slot the pointer refers to. For example, `from({1, 2}).map(id).filter(x == 1).last()` gives 2 in C++. When the failing advance ends at an exhausted upstream without a `get`, as in `from({1, 2}).map(id).filter(x == 2).last()`, both give 2. The library's own tests `LastSome` and `LastNone` (tests/general.cpp:401-411) expect the final element, or nothing for an empty container, and the model follows them.
- Streams.Stream.Calls: only the callback log of a stream's outermost stage is tied to the elements. `Advance` and `Get` state how their own stage's `calls` record changes, but they say nothing about the records of stages further up the chain. So for `inspect(f).filter(p).collect()`, the model does not state what `f` received. A chain-wide log is not modelled.
- `size_t` arithmetic: `skipCount`, `limit`, `counter` and `nth`'s `n` are `nat`, so wrap-around past the maximum `size_t` is not modelled.
- `get()` before a successful `advance()` has unspecified behaviour. It is a precondition (`Holding`) instead.
- `collect`'s container and element template parameters (such as `collect<std::list, double>`): `collect` produces a sequence only.
- The deleted rvalue overloads of `from` (Streams.h:424-425, src/Streams.h:228-229) are compile-time guards with no runtime behaviour.
- The optional-header selection and the `std::experimental::optional` alias (Streams.h:4-15) are replaced by `Elements.Option`.
- CRTP dispatch and the `decltype` type plumbing are replaced by a `match` on the stage's `kind`.
- Only finite containers are modelled. Neither header has an infinite source.
- Not modelled because neither header implements them: filterMap, chain, zip, purify, flatMap/flatten, enumerateTup, min, max, find, position, partition and the counter generator. `tests/general.cpp` exercises these, and they are not part of this model.
