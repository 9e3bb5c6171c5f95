/** The accumulating-log container: a value paired with a log. The log type only
    needs an associative `concat` (a semigroup); `concat` is passed explicitly,
    as the method the log value carries in the source. */
module Writers {
  import Lists
  import JsValues

  datatype Writer<W, T> = Writer(log: W, val: T)

  /** `concat` is associative: the semigroup law. */
  ghost predicate Associative<W(!new)>(concat: (W, W) -> W) {
    forall a, b, c :: concat(concat(a, b), c) == concat(a, concat(b, c))
  }

  /** `empty` is an identity of `concat` on both sides: with it, a monoid. */
  ghost predicate IsEmpty<W(!new)>(concat: (W, W) -> W, empty: W) {
    forall a :: concat(empty, a) == a && concat(a, empty) == a
  }

  /** `value()`. */
  function Value<W, T>(w: Writer<W, T>): T {
    w.val
  }

  /** `written()`. */
  function Written<W, T>(w: Writer<W, T>): W {
    w.log
  }

  /** `run()`: the log and the value, log first. */
  function Run<W, T>(w: Writer<W, T>): (W, T) {
    (w.log, w.val)
  }

  /** `flatMap(fn)`: the log of the inner writer is appended to the outer log,
      outer first, and the value is the inner one. */
  function FlatMap<W, T, K>(w: Writer<W, T>, f: T -> Writer<W, K>, concat: (W, W) -> W): (r: Writer<W, K>)
    ensures Written(r) == concat(Written(w), Written(f(Value(w))))
    ensures Value(r) == Value(f(Value(w)))
  {
    var inner := f(w.val);
    Writer(concat(w.log, inner.log), inner.val)
  }

  /** `map(fn)`: the value changes, the log does not. */
  function Map<W, T, K>(w: Writer<W, T>, f: T -> K): (r: Writer<W, K>)
    ensures Written(r) == Written(w)
    ensures Value(r) == f(Value(w))
  {
    Writer(w.log, f(w.val))
  }

  /** `mapWritten(fn)`: the log changes, possibly to another type; the value does not. */
  function MapWritten<W, T, W2>(w: Writer<W, T>, f: W -> W2): (r: Writer<W2, T>)
    ensures Written(r) == f(Written(w))
    ensures Value(r) == Value(w)
  {
    Writer(f(w.log), w.val)
  }

  /** `bimap(logFn, valFn)`: both parts change, each on its own. */
  function Bimap<W, T, W2, K>(w: Writer<W, T>, logFn: W -> W2, valFn: T -> K): (r: Writer<W2, K>)
    ensures Written(r) == logFn(Written(w))
    ensures Value(r) == valFn(Value(w))
  {
    Writer(logFn(w.log), valFn(w.val))
  }

  /** `mapBoth(fn)`: one function of both parts gives the new pair. */
  function MapBoth<W, T, W2, K>(w: Writer<W, T>, f: (W, T) -> (W2, K)): (r: Writer<W2, K>)
    ensures Run(r) == f(Written(w), Value(w))
  {
    var (l, v) := f(w.log, w.val);
    Writer(l, v)
  }

  /** Functor identity and composition for `map`. */
  lemma MapFunctorLaws<W, T, K, M>(w: Writer<W, T>, f: T -> K, g: K -> M)
    ensures Map(w, (x: T) => x) == w
    ensures Map(Map(w, f), g) == Map(w, (x: T) => g(f(x)))
  {
  }

  /** The accessors of a constructed writer. */
  lemma Accessors<W, T>(log: W, v: T)
    ensures Value(Writer(log, v)) == v && Written(Writer(log, v)) == log
    ensures Run(Writer(log, v)) == (log, v)
  {
  }

  /** With an associative `concat`, `flatMap` is associative: either grouping
      of three writers logs `l1`, then `l2`, then `l3`. */
  lemma FlatMapAssociative<W(!new), T, K, M>(w: Writer<W, T>, f: T -> Writer<W, K>, g: K -> Writer<W, M>, concat: (W, W) -> W)
    requires Associative(concat)
    ensures FlatMap(FlatMap(w, f, concat), g, concat) == FlatMap(w, (x: T) => FlatMap(f(x), g, concat), concat)
    ensures var l2 := Written(f(Value(w)));
            var l3 := Written(g(Value(f(Value(w)))));
            Written(FlatMap(FlatMap(w, f, concat), g, concat)) == concat(Written(w), concat(l2, l3))
  {
    var inner := f(w.val);
    var last := g(inner.val);
    assert concat(concat(w.log, inner.log), last.log) == concat(w.log, concat(inner.log, last.log));
  }

  /** The `concat` of a List log (strings concatenate the same way) is a
      semigroup with the empty list as identity, so the laws above hold for
      the logs of the tests. */
  lemma ListConcatIsMonoid<A(!new)>()
    ensures Associative(Lists.Concat<A>)
    ensures IsEmpty(Lists.Concat<A>, [])
  {
    forall a: seq<A>, b: seq<A>, c: seq<A>
      ensures Lists.Concat(Lists.Concat(a, b), c) == Lists.Concat(a, Lists.Concat(b, c))
    {
      assert (a + b) + c == a + (b + c);
    }
    forall a: seq<A>
      ensures Lists.Concat([], a) == a && Lists.Concat(a, []) == a
    {
      assert [] + a == a && a + [] == a;
    }
  }

  /** With a monoid log, a writer with the empty log is a unit for `flatMap`,
      and `map` is `flatMap` into such a writer. */
  lemma FlatMapIdentityLaws<W(!new), T, K>(x: T, w: Writer<W, T>, f: T -> Writer<W, K>, g: T -> K, concat: (W, W) -> W, empty: W)
    requires IsEmpty(concat, empty)
    ensures FlatMap(Writer(empty, x), f, concat) == f(x)
    ensures FlatMap(w, (y: T) => Writer(empty, y), concat) == w
    ensures Map(w, g) == FlatMap(w, (y: T) => Writer(empty, g(y)), concat)
  {
    assert concat(empty, f(x).log) == f(x).log;
    assert concat(w.log, empty) == w.log;
  }

  /** `bimap(lf, vf)` is `mapBoth((l, x) => [lf(l), vf(x)])`, and is `map`
      followed by `mapWritten`. */
  lemma BimapIsMapBoth<W, T, W2, K>(w: Writer<W, T>, logFn: W -> W2, valFn: T -> K)
    ensures Bimap(w, logFn, valFn) == MapBoth(w, (l: W, x: T) => (logFn(l), valFn(x)))
    ensures Bimap(w, logFn, valFn) == MapWritten(Map(w, valFn), logFn)
  {
  }

  /** The scenarios of the Writer tests. The tests upper-case with the host's
      `toUpperCase`, here the parameter `upper`, constrained on the strings the
      tests use; a log is upper-cased item by item with the List `map`. */
  lemma WriterScenarios(upper: string -> string)
    requires upper("a") == "A" && upper("b") == "B"
    requires upper("foo") == "FOO" && upper("something") == "SOMETHING"
    ensures Value(Writer(["a message"], 42)) == 42
    ensures Lists.Head(Written(Writer(["a message"], 42))) == JsValues.Val("a message")
    ensures Run(FlatMap(Writer(["z"], 30), (a: int) => Writer(["a", "b"], 12 + a), Lists.Concat)) == (["z", "a", "b"], 42)
    ensures Run(FlatMap(Writer("first", "foo"), (word: string) => Writer("second", upper(word)), Lists.Concat))
            == ("firstsecond", "FOO")
    ensures Run(Map(Writer("first", 5), (n: int) => n + 5)) == ("first", 10)
    ensures Written(MapWritten(Writer("something", "foo"), upper)) == "SOMETHING"
    ensures Written(MapWritten(Writer("something", "foo"), (log: string) => [log])) == ["something"]
    ensures Run(Bimap(Writer(["a", "b"], 27), (log: seq<string>) => Lists.Map(log, upper), (res: int) => res * 100))
            == (["A", "B"], 2700)
    ensures Run(MapBoth(Writer(["a", "b"], 27), (log: seq<string>, res: int) => (Lists.Map(log, upper), res * 100)))
            == (["A", "B"], 2700)
  {
    assert ["z"] + ["a", "b"] == ["z", "a", "b"];
    assert "first" + "second" == "firstsecond";
    var m := Lists.Map(["a", "b"], upper);
    assert |m| == 2 && m[0] == "A" && m[1] == "B";
    assert m == ["A", "B"];
  }
}
