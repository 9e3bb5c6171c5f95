/** The immutable sequence container. A `List(...items)` is modelled by its item
    sequence: `toArray()` is that sequence and `length()` its length, and every
    operation builds a new sequence. */
module Lists {
  import opened JsValues
  import opened Options

  /** `toArray()`: the construction arguments, in order. */
  function ToArray<T>(xs: seq<T>): seq<T> {
    xs
  }

  /** `length()`. */
  function Length<T>(xs: seq<T>): nat {
    |xs|
  }

  /** `map(fn)`, element by element as `Array.prototype.map` does. */
  function Map<T, K>(xs: seq<T>, f: T -> K): (r: seq<K>)
    ensures Length(r) == Length(xs)
    ensures forall i :: 0 <= i < |xs| ==> r[i] == f(xs[i])
  {
    if xs == [] then [] else [f(xs[0])] + Map(xs[1..], f)
  }

  /** `filter(fn)`, as `Array.prototype.filter`: the elements that satisfy the
      predicate, each once per occurrence, in their original order. */
  function Filter<T>(xs: seq<T>, p: T -> bool): (r: seq<T>)
    ensures |r| <= |xs|
    ensures forall i :: 0 <= i < |r| ==> p(r[i]) && r[i] in xs
    ensures forall i :: 0 <= i < |xs| && p(xs[i]) ==> xs[i] in r
  {
    if xs == [] then []
    else (if p(xs[0]) then [xs[0]] else []) + Filter(xs[1..], p)
  }

  /** `concat(list2)`: the receiver's items followed by the argument's. */
  function Concat<T>(xs: seq<T>, ys: seq<T>): (r: seq<T>)
    ensures Length(r) == Length(xs) + Length(ys)
    ensures r[..|xs|] == xs && r[|xs|..] == ys
  {
    xs + ys
  }

  /** `Array.prototype.reduce(fn, initial)`: the accumulator visits the items
      from the first to the last. */
  function Reduce<T, K>(xs: seq<T>, f: (K, T) -> K, initial: K): K {
    if xs == [] then initial else Reduce(xs[1..], f, f(initial, xs[0]))
  }

  /** The curried `fold(initial)(fn)`. */
  function Fold<T, K>(xs: seq<T>, initial: K): ((K, T) -> K) -> K {
    (f: (K, T) -> K) => Reduce(xs, f, initial)
  }

  /** `flatMap(fn)`, built as the source builds it: a fold from the empty list
      that concatenates `fn(item)` onto the accumulator. */
  function FlatMap<T, K>(xs: seq<T>, f: T -> seq<K>): seq<K> {
    Fold(xs, [])((acc: seq<K>, item: T) => Concat(acc, f(item)))
  }

  /** `head()`: the first item, or `undefined` for an empty list. */
  function Head<T>(xs: seq<T>): (r: JsVal<T>)
    ensures r.Undefined? <==> xs == []
    ensures xs != [] ==> r == Val(xs[0])
  {
    if |xs| > 0 then Val(xs[0]) else Undefined
  }

  /** `headOption()`: `items[0]` through the Option factory, for a list whose
      items are arbitrary JavaScript values. */
  function HeadOption<T>(xs: seq<JsVal<T>>): (r: Option<T>)
    ensures r.None? <==> xs == [] || IsAbsent(xs[0])
    ensures r.Some? ==> xs[0] == Val(r.value)
  {
    Of(if |xs| > 0 then xs[0] else Undefined)
  }

  /** `tail()`: `slice(1)`, so everything but the first item, and empty for an
      empty list. */
  function Tail<T>(xs: seq<T>): (r: seq<T>)
    ensures xs == [] ==> r == []
    ensures xs != [] ==> xs == [xs[0]] + r
  {
    if |xs| > 0 then xs[1..] else []
  }

  // ---------------------------------------------------------------------------
  // Reference definitions

  /** Left-to-right reduction written from the end: the last item is combined
      with the reduction of all the others, f(...f(f(init, x0), x1)..., xn). */
  ghost function LeftFold<T, K>(xs: seq<T>, initial: K, f: (K, T) -> K): K {
    if xs == [] then initial else f(LeftFold(xs[..|xs| - 1], initial, f), xs[|xs| - 1])
  }

  /** The in-order concatenation of `f(x)` over the items. */
  ghost function ConcatMap<T, K>(xs: seq<T>, f: T -> seq<K>): seq<K> {
    if xs == [] then [] else f(xs[0]) + ConcatMap(xs[1..], f)
  }

  // ---------------------------------------------------------------------------
  // Properties

  /** `toArray` and `length` of a constructed list, as in the List tests. */
  lemma ConstructionScenarios()
    ensures ToArray([1, 2, 3]) == [1, 2, 3]
    ensures Length([1, 1, 5]) == 3
  {
  }

  /** Functor identity and composition for `map`. */
  lemma MapFunctorLaws<T, K, M>(xs: seq<T>, f: T -> K, g: K -> M)
    ensures Map(xs, (x: T) => x) == xs
    ensures Map(Map(xs, f), g) == Map(xs, (x: T) => g(f(x)))
  {
  }

  /** Filtering distributes over concatenation, which with the one-element case
      pins down the relative order of the kept items. */
  lemma {:induction false} FilterConcat<T>(xs: seq<T>, ys: seq<T>, p: T -> bool)
    ensures Filter(xs + ys, p) == Filter(xs, p) + Filter(ys, p)
  {
    if xs == [] {
      assert xs + ys == ys;
    } else {
      assert (xs + ys)[1..] == xs[1..] + ys;
      FilterConcat(xs[1..], ys, p);
    }
  }

  /** Filtering keeps every occurrence of a satisfying item and no occurrence of
      any other. */
  lemma {:induction false} FilterCount<T>(xs: seq<T>, p: T -> bool, x: T)
    ensures multiset(Filter(xs, p))[x] == if p(x) then multiset(xs)[x] else 0
  {
    if xs != [] {
      FilterCount(xs[1..], p, x);
      assert xs == [xs[0]] + xs[1..];
    }
  }

  /** A list is its own filter exactly when every item satisfies the predicate. */
  lemma {:induction false} FilterKeepsAll<T>(xs: seq<T>, p: T -> bool)
    ensures Filter(xs, p) == xs <==> forall i :: 0 <= i < |xs| ==> p(xs[i])
  {
    if forall i :: 0 <= i < |xs| ==> p(xs[i]) {
      if xs != [] {
        FilterKeepsAll(xs[1..], p);
        assert forall i :: 0 <= i < |xs[1..]| ==> p(xs[1..][i]) by {
          forall i | 0 <= i < |xs[1..]| ensures p(xs[1..][i]) {
            assert xs[1..][i] == xs[i + 1];
          }
        }
      }
    }
  }

  /** The empty list is the identity of `concat` on both sides, and `concat` is
      associative: List is a monoid. */
  lemma ConcatMonoid<T>(xs: seq<T>, ys: seq<T>, zs: seq<T>)
    ensures Concat([], xs) == xs && Concat(xs, []) == xs
    ensures Concat(Concat(xs, ys), zs) == Concat(xs, Concat(ys, zs))
  {
  }

  /** Reducing a concatenation reduces the second part from the result of the first. */
  lemma {:induction false} ReduceConcat<T, K>(xs: seq<T>, ys: seq<T>, f: (K, T) -> K, initial: K)
    ensures Reduce(xs + ys, f, initial) == Reduce(ys, f, Reduce(xs, f, initial))
  {
    if xs == [] {
      assert xs + ys == ys;
    } else {
      assert (xs + ys)[1..] == xs[1..] + ys;
      ReduceConcat(xs[1..], ys, f, f(initial, xs[0]));
    }
  }

  /** `fold(initial)(fn)` is the left-to-right reduction f(...f(f(init, x0), x1)..., xn). */
  lemma {:induction false} FoldIsLeftToRight<T, K>(xs: seq<T>, initial: K, f: (K, T) -> K)
    ensures Fold(xs, initial)(f) == LeftFold(xs, initial, f)
  {
    if xs != [] {
      var init, last := xs[..|xs| - 1], xs[|xs| - 1];
      assert xs == init + [last];
      ReduceConcat(init, [last], f, initial);
      FoldIsLeftToRight(init, initial, f);
    }
  }

  /** Summing [1, 2, 3] from 0 gives 6, as in the List tests. */
  lemma FoldSumScenario()
    ensures Fold([1, 2, 3], 0)((acc: int, el: int) => el + acc) == 6
  {
  }

  /** The fold inside `flatMap`, started from any accumulator, appends the
      concatenation of `f(x)` over the items. */
  lemma {:induction false} ReduceAppendsConcatMap<T, K>(xs: seq<T>, f: T -> seq<K>, acc: seq<K>)
    ensures Reduce(xs, (a: seq<K>, item: T) => Concat(a, f(item)), acc) == acc + ConcatMap(xs, f)
  {
    if xs != [] {
      ReduceAppendsConcatMap(xs[1..], f, acc + f(xs[0]));
    }
  }

  /** `flatMap(fn)` is the in-order concatenation of `fn(x)` over the items. */
  lemma FlatMapIsConcatMap<T, K>(xs: seq<T>, f: T -> seq<K>)
    ensures FlatMap(xs, f) == ConcatMap(xs, f)
  {
    ReduceAppendsConcatMap(xs, f, []);
  }

  lemma {:induction false} ConcatMapConcat<T, K>(xs: seq<T>, ys: seq<T>, f: T -> seq<K>)
    ensures ConcatMap(xs + ys, f) == ConcatMap(xs, f) + ConcatMap(ys, f)
  {
    if xs == [] {
      assert xs + ys == ys;
    } else {
      assert (xs + ys)[1..] == xs[1..] + ys;
      ConcatMapConcat(xs[1..], ys, f);
    }
  }

  lemma {:induction false} ConcatMapAssociative<T, K, M>(xs: seq<T>, f: T -> seq<K>, g: K -> seq<M>)
    ensures ConcatMap(ConcatMap(xs, f), g) == ConcatMap(xs, (x: T) => FlatMap(f(x), g))
  {
    if xs != [] {
      ConcatMapConcat(f(xs[0]), ConcatMap(xs[1..], f), g);
      FlatMapIsConcatMap(f(xs[0]), g);
      ConcatMapAssociative(xs[1..], f, g);
    }
  }

  /** Monad laws for `flatMap`: a one-item list hands its item to `fn`, wrapping
      every item in a one-item list gives the list back, and chaining is associative. */
  lemma FlatMapMonadLaws<T, K, M>(x: T, xs: seq<T>, f: T -> seq<K>, g: K -> seq<M>)
    ensures FlatMap([x], f) == f(x)
    ensures FlatMap(xs, (y: T) => [y]) == xs
    ensures FlatMap(FlatMap(xs, f), g) == FlatMap(xs, (y: T) => FlatMap(f(y), g))
  {
    FlatMapIsConcatMap([x], f);
    FlatMapIsConcatMap(xs, (y: T) => [y]);
    ConcatMapSingletons(xs);
    FlatMapIsConcatMap(xs, f);
    FlatMapIsConcatMap(ConcatMap(xs, f), g);
    FlatMapIsConcatMap(xs, (y: T) => FlatMap(f(y), g));
    ConcatMapAssociative(xs, f, g);
  }

  lemma {:induction false} ConcatMapSingletons<T>(xs: seq<T>)
    ensures ConcatMap(xs, (y: T) => [y]) == xs
  {
    if xs != [] {
      ConcatMapSingletons(xs[1..]);
    }
  }

  /** Flat-mapping two words to their characters gives the characters in order,
      as in the List tests (`split('')` turns a word into one-character strings). */
  lemma FlatMapSplitScenario()
    ensures FlatMap(["ga", "fp"], (w: string) => Map(w, (c: char) => [c])) == ["g", "a", "f", "p"]
  {
    FlatMapIsConcatMap(["ga", "fp"], (w: string) => Map(w, (c: char) => [c]));
  }

  /** For a list of present values, `headOption()` is the factory applied to
      `head()`: `None` exactly for the empty list. */
  lemma HeadOptionOfPresentItems<T>(xs: seq<T>)
    ensures HeadOption(Map(xs, (x: T) => Val(x))) == Of(Head(xs))
    ensures HeadOption(Map(xs, (x: T) => Val(x))).None? <==> xs == []
  {
  }

  /** The scenarios of the List tests. */
  /** An item of the mixed list `List<unknown>(1, 2, 4, 'a', 'b')`. */
  datatype Thing = Num(n: int) | Str(s: string)

  /** The second `filter` test: keeping the numbers of a mixed list. */
  lemma FilterNumbersScenario()
    ensures Filter([Num(1), Num(2), Num(4), Str("a"), Str("b")], (t: Thing) => t.Num?) == [Num(1), Num(2), Num(4)]
  {
  }

  lemma ListScenarios()
    ensures Filter([1, 2, 10, 20], (x: int) => x > 5) == [10, 20]
    ensures Map([1, 2, 3], (x: int) => x * 2) == [2, 4, 6]
    ensures Concat([1, 2], [3, 4]) == [1, 2, 3, 4]
    ensures Head([1, 2, 4]) == Val(1)
    ensures HeadOption<int>([]).None?
    ensures HeadOption([Val(1), Val(2), Val(4)]) == Some(1)
    ensures Tail([1, 2, 3]) == [2, 3]
  {
  }
}
