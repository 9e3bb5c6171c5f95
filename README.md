# catling containers in Dafny

A model of the five container types of the catling library and the laws they
obey. No operation changes a container; the one exception to value semantics
is `List.toArray()`, which hands out the list's own item array (see "Left out"):

- `Option` (`options.dfy`): `Some(value) | None`, built through the factory
  `Option(value)`, which is the one place where JavaScript's `null` and
  `undefined` become `None`. `Some.map` goes back through the factory, so a
  transform that returns null collapses to `None`.
- `Either` (`eithers.dfy`): `Left | Right`, with `map`/`leftMap` acting on one
  side, `flatMap`/`chain` short-circuiting on `Left`, the curried
  `fold(leftFn)(rightFn)`, the partial accessors `right()`/`left()` and
  `toOption()`.
- `List` (`lists.dfy`): a sequence whose operations never change it, modelled
  as the value `seq<T>`, with `map`, `filter`, `concat`, the curried
  left-to-right `fold` (JavaScript `reduce`), `flatMap` built from `fold` and
  `concat`, `head`, `headOption` and `tail`.
- `Reader` (`readers.dfy`): a wrapped total function from a context to a
  result; `map` post-composes, `flatMap` feeds one context to both steps. Laws
  are stated through `run`.
- `Writer` (`writers.dfy`): a `(log, value)` pair whose log has a semigroup
  `concat`, passed as a function; `flatMap` appends the inner log to the outer
  one, outer first.

`js_values.dfy` gives the JavaScript view of a value: `Null`, `Undefined` or
`Val(v)`. Container payloads are present values; `JsVal` appears exactly where
the code meets an arbitrary JavaScript value: the argument of the Option
factory, the result of a transform given to `Option.map`, the payload that
`Either.toOption` and `List.headOption` hand to the factory, and the
`undefined` that `get()`, `right()`, `left()` and `head()` return for a
missing value. Every operation is a pure function, as in the source, where
each transforming method is a closure returning a new object and each
accessor returns a payload or a plain value.

Three behaviours of the code that shape the model:
- `Option.map` sends its transform's result back through the factory, so a
  null or undefined result collapses to `None` (src/option.ts:29).
- `Either.toOption` passes a `Right` payload through the same factory, so a
  null payload gives `None` (src/either.ts:36).
- `List.fold` is curried, `fold(initial)(fn)` (src/list.ts:26).

## Model

| member | source | states |
|---|---|---|
| Options.Of | src/option.ts:11-13 | the factory gives `None` exactly when the value is null or undefined, and otherwise `Some` of that value |
| Options.Get | src/option.ts:25-40 | `get()` gives the payload of `Some` and undefined for `None`, never null; feeding its result back to the factory rebuilds the same option |
| Options.Map | src/option.ts:29-41 | `None.map` is `None`; `Some(v).map(fn)` is `None` exactly when `fn(v)` is null or undefined, and otherwise `Some` of the value `fn(v)` holds |
| Options.FlatMap | src/option.ts:30-42 | `Some(v).flatMap(fn)` is `fn(v)`; `None.flatMap(fn)` is `None` |
| Options.Fold | src/option.ts:31-43 | exactly one branch gives the result: `leftFn()` for `None`, `rightFn(v)` for `Some(v)` |
| Options.GetOrElse | src/option.ts:32-44 | the payload for `Some`, the alternative for `None` |
| Options.GetOfFactory | src/option.ts:11-28 | `Option(v).get()` is `v` for a present value and undefined for null or undefined |
| Options.MapIdentity | src/option.ts:29-41 | functor identity: mapping `x => x` gives every option back, factory-built ones included |
| Options.MapCompose | src/option.ts:29-41 | mapping `f` then `g` equals one map of "apply `f`, then `g` only if `f` gave a value" |
| Options.MapCollapseBreaksComposition | src/option.ts:29 | with `f` returning null and `g` sending null to 0, mapping twice gives `None` while mapping `x => g(f(x))` gives `Some(0)` |
| Options.MapIsFlatMapOf | src/option.ts:29-30 | `map(fn)` equals `flatMap(x => Option(fn(x)))` |
| Options.FlatMapLeftIdentity | src/option.ts:12-30 | `Option(v).flatMap(f)` is `f(v)` for a present `v` and `None` for null or undefined |
| Options.FlatMapRightIdentity | src/option.ts:12-42 | `m.flatMap(Option)` equals `m` |
| Options.FlatMapAssociative | src/option.ts:30-42 | `m.flatMap(f).flatMap(g)` equals `m.flatMap(x => f(x).flatMap(g))` |
| Options.GetOrElseIsFold | src/option.ts:31-44 | `getOrElse(a)` equals `fold(() => a, x => x)` |
| Options.OptionScenarios | src/option.spec.ts:7-79 | the test cases: `Option(null)` is `None`, `Option("hello").map(length)` gets 5, a null-returning map gives `None`, fold and getOrElse on both variants |
| Eithers.Map | src/either.ts:30-49 | `Right(v).map(f)` is `Right(f(v))`; `Left(e).map(f)` is `Left(e)` |
| Eithers.LeftMap | src/either.ts:31-50 | `Left(e).leftMap(f)` is `Left(f(e))`; `Right(v).leftMap(f)` is `Right(v)` |
| Eithers.FlatMap | src/either.ts:26-51 | `Right(v).flatMap(f)` is `f(v)`; `Left(e).flatMap(f)` is `Left(e)` |
| Eithers.Chain | src/either.ts:32-52 | `chain` is `flatMap` on both variants, so it too short-circuits on `Left` |
| Eithers.Fold | src/either.ts:37-56 | no contract of its own (its result is a function); `FoldRunsOneBranch` states it |
| Eithers.FoldRunsOneBranch | src/either.ts:37-56 | the curried `fold(l)(r)` is `r(v)` for `Right(v)` and `l(e)` for `Left(e)`, for any handlers |
| Eithers.GetRight | src/either.ts:34-53 | for a present payload, `right()` yields a value exactly for `Right`, and that value is the payload; for `Left` it is undefined |
| Eithers.GetLeft | src/either.ts:35-54 | for a present payload, `left()` yields a value exactly for `Left`, and that value is the payload; for `Right` it is undefined |
| Eithers.ToOption | src/either.ts:36-55 | `toOption()` is `Some` exactly for a `Right` whose payload is neither null nor undefined, and then carries that payload |
| Eithers.AccessorsExclusive | src/either.ts:34-54 | for a present payload, exactly one of `right()` and `left()` yields a value |
| Eithers.MapFunctorLaws | src/either.ts:30-49 | `map` keeps identity and composition |
| Eithers.LeftMapFunctorLaws | src/either.ts:31-50 | `leftMap` keeps identity and composition |
| Eithers.MapLeftMapCommute | src/either.ts:30-50 | `map` and `leftMap` commute |
| Eithers.MapIsFlatMap | src/either.ts:26-49 | `map(f)` equals `flatMap(x => Right(f(x)))` |
| Eithers.FlatMapLeftIdentity | src/either.ts:26 | `Right(v).flatMap(f)` equals `f(v)` |
| Eithers.FlatMapRightIdentity | src/either.ts:26-45 | `m.flatMap(Right)` equals `m` |
| Eithers.FlatMapAssociative | src/either.ts:26-45 | `m.flatMap(f).flatMap(g)` equals `m.flatMap(x => f(x).flatMap(g))` |
| Eithers.ToOptionIsFold | src/either.ts:36-56 | `toOption()` equals `fold(_ => None)(Option)` |
| Eithers.EitherScenarios | src/either.spec.ts:10-62 | the test cases for `right()`, `left()`, `map`, `flatMap`, `leftMap` and `fold` on both variants |
| Lists.Map | src/list.ts:21 | `map(f)` keeps the length and puts `f(items[i])` at index `i` |
| Lists.MapFunctorLaws | src/list.ts:21 | `map(x => x)` gives the list back and `map(f).map(g)` equals `map(x => g(f(x)))` |
| Lists.Filter | src/list.ts:22 | every kept item satisfies the predicate and comes from the list, every satisfying item is kept, and the result is no longer than the list |
| Lists.FilterConcat | src/list.ts:22 | filtering distributes over concatenation, so kept items stay in their relative order |
| Lists.FilterCount | src/list.ts:22 | each satisfying item is kept as often as it occurs, any other item never |
| Lists.FilterKeepsAll | src/list.ts:22 | `filter(p)` gives the list back exactly when every item satisfies `p` |
| Lists.Concat | src/list.ts:24 | `concat` gives the receiver's items followed by the argument's |
| Lists.ToArray | src/list.ts:19 | no contract of its own: the list is its item sequence; `ConstructionScenarios` states the test cases |
| Lists.Length | src/list.ts:23 | no contract of its own: the length of the item sequence; `ConstructionScenarios` and the `Length` clauses of `Map` and `Concat` use it |
| Lists.ConcatMonoid | src/list.ts:24 | the empty list is a left and right identity of `concat`, and `concat` is associative |
| Lists.ConstructionScenarios | src/list.ts:17-23 | `toArray()` gives the construction arguments in order and `length()` their count |
| Lists.Reduce | src/list.ts:26 | no contract of its own: JavaScript `reduce` with an initial value; `ReduceConcat` and `FoldIsLeftToRight` state it |
| Lists.Fold | src/list.ts:26 | no contract of its own (its result is a function); `FoldIsLeftToRight` states it |
| Lists.ReduceConcat | src/list.ts:26 | reducing a concatenation reduces the second part starting from the result of the first |
| Lists.FoldIsLeftToRight | src/list.ts:26 | `fold(init)(f)` is `f(...f(f(init, x0), x1)..., xn)` |
| Lists.FoldSumScenario | src/list.spec.ts:42-46 | summing `[1, 2, 3]` from 0 gives 6 |
| Lists.ReduceAppendsConcatMap | src/list.ts:25-26 | the fold inside `flatMap`, from any accumulator, appends the in-order concatenation of `f(x)` |
| Lists.FlatMap | src/list.ts:25 | no contract of its own; `FlatMapIsConcatMap` and `FlatMapMonadLaws` state it |
| Lists.FlatMapIsConcatMap | src/list.ts:25 | `flatMap(f)` is the in-order concatenation of `f(x)` over the items |
| Lists.FlatMapMonadLaws | src/list.ts:25 | left identity on a one-item list, right identity with `x => [x]`, and associativity of `flatMap` |
| Lists.FlatMapSplitScenario | src/list.spec.ts:48-53 | flat-mapping `["ga", "fp"]` to characters gives `["g", "a", "f", "p"]` |
| Lists.Head | src/list.ts:27 | for a list of present items, `head()` is undefined exactly for the empty list and otherwise the first item |
| Lists.HeadOption | src/list.ts:28 | `headOption()` is `None` exactly when the list is empty or its first item is null or undefined, and otherwise `Some` of that item |
| Lists.HeadOptionOfPresentItems | src/list.ts:27-28 | for present items, `headOption()` is the factory applied to `head()`, and `None` exactly for the empty list |
| Lists.Tail | src/list.ts:29 | `tail()` drops exactly the first item; the tail of the empty list is empty |
| Lists.ListScenarios | src/list.spec.ts:17-78 | the test cases for `map`, `concat`, `head`, `headOption` and `tail`, and the first `filter` test |
| Lists.FilterNumbersScenario | src/list.spec.ts:24-26 | keeping the numbers of the mixed list `1, 2, 4, 'a', 'b'` gives `[1, 2, 4]` |
| Readers.RunAppliesWrapped | src/reader.ts:8-15 | `Reader(f).run(c)` is `f(c)` |
| Readers.Run | src/reader.ts:15 | no contract of its own; `RunAppliesWrapped` states it |
| Readers.Map | src/reader.ts:12 | `map(g)` runs, on every context, as `g` of the original run |
| Readers.FlatMap | src/reader.ts:9 | `flatMap(k)` runs, on every context, as `k(run(c)).run(c)`: one context reaches both steps |
| Readers.Chain | src/reader.ts:9-14 | `chain` is `flatMap` |
| Readers.MapFunctorLaws | src/reader.ts:12 | through `run`: `map(x => x)` runs like the original and `map(g).map(h)` like `map(x => h(g(x)))` |
| Readers.FlatMapIdentityLaws | src/reader.ts:9 | through `run`, the constant reader is a left and right unit of `flatMap` |
| Readers.FlatMapAssociative | src/reader.ts:9 | through `run`: `r.flatMap(f).flatMap(g)` runs like `r.flatMap(x => f(x).flatMap(g))` |
| Readers.MapIsFlatMap | src/reader.ts:9-12 | through `run`: `map(g)` runs like `flatMap` into a constant reader |
| Readers.CatScenarios | src/reader.spec.ts:15-34 | the test cases: the cat's name, a greeting, a comparison, and a `flatMap` that reads the same cat twice |
| Readers.GreetingScenarios | src/reader.spec.ts:60-88 | the greeting example: the user given to `run` picks the greeting's language and supplies the capitalised name, giving "Good evening Dan" and "Bom dia Mario" |
| Writers.Accessors | src/writer.ts:22-27 | for `Writer(log, v)`: `value()` is `v`, `written()` is `log`, `run()` is `[log, v]` |
| Writers.Value | src/writer.ts:26 | no contract of its own; `Accessors` states it |
| Writers.Written | src/writer.ts:27 | no contract of its own; `Accessors` states it |
| Writers.Run | src/writer.ts:25 | no contract of its own; `Accessors` states it |
| Writers.FlatMap | src/writer.ts:28-31 | the log is `log.concat(inner log)`, outer first, and the value is the inner writer's |
| Writers.FlatMapAssociative | src/writer.ts:28-31 | with an associative `concat`, `flatMap` is associative and both groupings log `l1`, `l2`, `l3` in that order |
| Writers.ListConcatIsMonoid | src/list.ts:24 | the List `concat` (src/list.ts:24) used for the logs of the tests meets the semigroup interface of src/writer.ts:1-7: it is associative, with the empty list as identity |
| Writers.FlatMapIdentityLaws | src/writer.ts:28-32 | with a monoid log, a writer with the empty log is a left and right unit of `flatMap`, and `map` is `flatMap` into such a writer |
| Writers.Map | src/writer.ts:32 | `map(f)` applies `f` to the value and leaves the log unchanged |
| Writers.MapFunctorLaws | src/writer.ts:32 | `map(x => x)` gives the writer back and `map(f).map(g)` equals `map(x => g(f(x)))`, log untouched |
| Writers.MapWritten | src/writer.ts:33 | `mapWritten(f)` applies `f` to the log, possibly changing its type, and leaves the value unchanged |
| Writers.Bimap | src/writer.ts:34 | `bimap(lf, vf)` gives `(lf(log), vf(v))` |
| Writers.MapBoth | src/writer.ts:35-38 | `mapBoth(fn)` gives the pair `fn(log, v)` |
| Writers.BimapIsMapBoth | src/writer.ts:32-38 | `bimap(lf, vf)` equals `mapBoth((l, x) => [lf(l), vf(x)])` and equals `map(vf)` followed by `mapWritten(lf)` |
| Writers.WriterScenarios | src/writer.spec.ts:5-68 | the test cases: construction, `flatMap` with list and string logs, `map`, both `mapWritten` tests, and `bimap` and `mapBoth` upper-casing a log with the List `map` to `["A", "B"]` |

## Left out

- The string forms `toString` and `inspect` of every container: they depend on the host's value formatting and `JSON.stringify`.
- `src/utils.ts`, `src/types.ts`, `src/monoid.ts` and `verifyConditions.js` are not part of this model: the first is trivial helpers (its `returnVoid` appears as the `undefined` of `right()`/`left()`), the next two hold only type declarations (and `src/monoid.ts` imports a file that is not part of this model), and the last is a publishing gate that reads the process environment.
- Options.FlatMap: `Some(v).flatMap(fn)` returns whatever `fn` returns, even a non-Option (a test returns a string); the model admits only transforms that return an Option.
- Options.Of: the exported `Some(value)` constructor performs no check, so `Some(null)` can be built directly; in the model a `Some` always holds a present value.
- Options.GetOrElse: the alternative may have another type than the payload (`T | K`); the model uses the payload type.
- The call-count claims "`fn` is never called" cannot be observed of pure functions; the model states instead that the result does not depend on `fn`.
- `Array.prototype.map`, `filter` and `reduce` also pass the index and the array to their callback; the source's types take one argument (two for `reduce`), and so does the model.
- TypeScript type-guard narrowing in `filter` is compile-time only; the predicate is an ordinary boolean function.
- Reader: running a reader twice re-executes the wrapped function; with total pure functions repetition is not observable.
- Reference identity of results (`toBe` on objects) is not modelled; containers are compared as values.
- Operations the List tests call that src/list.ts does not define: `find` (src/list.spec.ts:80-84), `contains` (src/list.spec.ts:92-97), `chain` (src/list.spec.ts:99-110), and `isSome` on the Option that `find` returns (src/list.spec.ts:86-90). Option defines no `isSome` either (src/option.ts:1-9).
- Lists.Head: the model's list items are present values, so it does not capture that `head()` of a list whose first item is itself `undefined` is also `undefined` (src/list.ts:27); `Lists.HeadOption` is the member that takes arbitrary JavaScript items.
- The two-argument `fold(0, fn)` call in a List test does not match the curried signature of the code; the model follows the code.
- The host's `toUpperCase` in the Writer and Reader tests is a parameter of the scenario lemmas, constrained only on the strings the tests upper-case.
- Eithers.GetRight, Eithers.GetLeft, Eithers.AccessorsExclusive: the payload of an `Either` is a present value in the model; in the source `right()` of `Right(undefined)` and `left()` of `Left(undefined)` return `undefined` (src/either.ts:34-35), the same as the other variant's `returnVoid` (src/either.ts:53-54), so for such a payload neither accessor tells the variants apart.
- Lists.ToArray: `toArray()` returns the list's own rest-parameter array, not a copy (src/list.ts:19), so pushing to that array changes the list's `length()`, `head()`, `map`, `concat` and `tail`; the model treats a list as a value and does not capture this aliasing.
