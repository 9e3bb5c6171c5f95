/** The optional-value container: `Some(value)` or `None`. Payloads of type T are
    present values; absence enters only through the factory `Of`, which is where
    the source turns `null` and `undefined` into `None`. */
module Options {
  import opened JsValues

  datatype Option<T> = None | Some(value: T)

  /** The factory `Option(value)`. */
  function Of<T>(v: JsVal<T>): (r: Option<T>)
    ensures r.None? <==> IsAbsent(v)
    ensures r.Some? ==> v == Val(r.value)
  {
    if IsAbsent(v) then None else Some(v.value)
  }

  /** `get()`: the payload, or `undefined` for `None`. */
  function Get<T>(o: Option<T>): (r: JsVal<T>)
    ensures !r.Null?
    ensures r.Val? <==> o.Some?
    ensures Of(r) == o
  {
    match o
    case Some(v) => Val(v)
    case None => Undefined
  }

  /** `map(fn)`: `Some` re-enters the factory with `fn(value)`; `None` never calls `fn`. */
  function Map<T, K>(o: Option<T>, f: T -> JsVal<K>): (r: Option<K>)
    ensures o.None? ==> r.None?
    ensures o.Some? ==> (r.None? <==> IsAbsent(f(o.value)))
    ensures r.Some? ==> o.Some? && f(o.value) == Val(r.value)
  {
    match o
    case Some(v) => Of(f(v))
    case None => None
  }

  /** `flatMap(fn)`: the result of `fn` itself for `Some`, `None` for `None`. */
  function FlatMap<T, K>(o: Option<T>, f: T -> Option<K>): (r: Option<K>)
    ensures o.None? ==> r.None?
    ensures o.Some? ==> r == f(o.value)
  {
    match o
    case Some(v) => f(v)
    case None => None
  }

  /** `fold(leftFn, rightFn)`: exactly one of the two branches produces the result. */
  function Fold<T, K>(o: Option<T>, onEmpty: () -> K, onValue: T -> K): (r: K)
    ensures o.None? ==> r == onEmpty()
    ensures o.Some? ==> r == onValue(o.value)
  {
    match o
    case Some(v) => onValue(v)
    case None => onEmpty()
  }

  /** `getOrElse(alternative)`. */
  function GetOrElse<T>(o: Option<T>, alternative: T): (r: T)
    ensures o.Some? ==> r == o.value
    ensures o.None? ==> r == alternative
  {
    match o
    case Some(v) => v
    case None => alternative
  }

  /** Reading a factory-built option back gives the original value, except that
      `null` comes back as `undefined`. */
  lemma GetOfFactory<T>(v: JsVal<T>)
    ensures Get(Of(v)) == (if IsAbsent(v) then Undefined else v)
  {
  }

  /** Functor identity, for every option and so for every factory-built one. */
  lemma MapIdentity<T>(o: Option<T>)
    ensures Map(o, (x: T) => Val(x)) == o
  {
  }

  /** Functor composition, with the collapse built into the composite: mapping
      twice is mapping once with "apply `f`, then `g` only if `f` gave a value". */
  lemma MapCompose<T, K, M>(o: Option<T>, f: T -> JsVal<K>, g: K -> JsVal<M>)
    ensures Map(Map(o, f), g) == Map(o, (x: T) => if f(x).Val? then g(f(x).value) else Undefined)
  {
  }

  /** Because `map` collapses a null result to `None`, a JavaScript composition
      `x => g(f(x))` whose `g` turns null into a value differs from mapping twice. */
  lemma MapCollapseBreaksComposition()
    ensures var f := (x: int) => JsVal<int>.Null;
            var g := (v: JsVal<int>) => JsVal<int>.Val(0);
            Map(Map(Some(1), f), (k: int) => g(Val(k))) == None &&
            Map(Some(1), (x: int) => g(f(x))) == Some(0)
  {
  }

  /** `map` is `flatMap` followed by the factory. */
  lemma MapIsFlatMapOf<T, K>(o: Option<T>, f: T -> JsVal<K>)
    ensures Map(o, f) == FlatMap(o, (x: T) => Of(f(x)))
  {
  }

  /** Monad left identity through the factory: a present value is handed to `f`,
      an absent one short-circuits. */
  lemma FlatMapLeftIdentity<T, K>(v: JsVal<T>, f: T -> Option<K>)
    ensures FlatMap(Of(v), f) == if v.Val? then f(v.value) else None
  {
  }

  /** Monad right identity: `m.flatMap(Option)` is `m`. */
  lemma FlatMapRightIdentity<T>(o: Option<T>)
    ensures FlatMap(o, (x: T) => Of(Val(x))) == o
  {
  }

  /** Monad associativity. */
  lemma FlatMapAssociative<T, K, M>(o: Option<T>, f: T -> Option<K>, g: K -> Option<M>)
    ensures FlatMap(FlatMap(o, f), g) == FlatMap(o, (x: T) => FlatMap(f(x), g))
  {
  }

  /** `getOrElse(a)` is the fold that supplies `a` when empty and keeps the value otherwise. */
  lemma GetOrElseIsFold<T>(o: Option<T>, alternative: T)
    ensures GetOrElse(o, alternative) == Fold(o, () => alternative, (x: T) => x)
  {
  }

  /** The scenarios of the Option tests: `Option(null)` is `None`, `Option("hello")`
      maps to 5 through `length`, and a transform returning null collapses to `None`. */
  lemma OptionScenarios()
    ensures Of(JsVal<string>.Null).None?
    ensures Get(Of(Val("hello, world"))) == Val("hello, world")
    ensures Get(Map(Of(Val("hello")), (s: string) => Val(|s|))) == Val(5)
    ensures Map(Of(Val("hello")), (s: string) => JsVal<int>.Null).None?
    ensures Fold(None, () => "foo", (v: string) => v) == "foo"
    ensures Fold(Some("hello"), () => "foo", (v: string) => v) == "hello"
    ensures GetOrElse(None, "foo") == "foo" && GetOrElse(Some("hello"), "foo") == "hello"
  {
  }
}
