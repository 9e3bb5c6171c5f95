/** The two-outcome container: `Left(l)` or `Right(r)`. Exactly one side is
    populated, and every operation keeps the side it was given except `flatMap`
    on `Right`, which hands the decision to its function. */
module Eithers {
  import opened JsValues
  import opened Options

  datatype Either<L, R> = Left(lval: L) | Right(rval: R)

  /** `map(fn)`: transforms a `Right` payload; a `Left` is returned as it is. */
  function Map<L, R, K>(e: Either<L, R>, f: R -> K): (r: Either<L, K>)
    ensures r.Left? <==> e.Left?
    ensures e.Left? ==> r.lval == e.lval
    ensures e.Right? ==> r.rval == f(e.rval)
  {
    match e
    case Right(v) => Right(f(v))
    case Left(v) => Left(v)
  }

  /** `leftMap(fn)`: transforms a `Left` payload; a `Right` is returned as it is. */
  function LeftMap<L, R, K>(e: Either<L, R>, f: L -> K): (r: Either<K, R>)
    ensures r.Right? <==> e.Right?
    ensures e.Right? ==> r.rval == e.rval
    ensures e.Left? ==> r.lval == f(e.lval)
  {
    match e
    case Right(v) => Right(v)
    case Left(v) => Left(f(v))
  }

  /** `flatMap(fn)`: `fn(value)` for `Right`; a `Left` short-circuits unchanged. */
  function FlatMap<L, R, K>(e: Either<L, R>, f: R -> Either<L, K>): (r: Either<L, K>)
    ensures e.Left? ==> r == Left(e.lval)
    ensures e.Right? ==> r == f(e.rval)
  {
    match e
    case Right(v) => f(v)
    case Left(v) => Left(v)
  }

  /** `chain`: the very closure bound to `flatMap`, on both variants. */
  function Chain<L, R, K>(e: Either<L, R>, f: R -> Either<L, K>): (r: Either<L, K>)
    ensures r == FlatMap(e, f)
    ensures e.Left? ==> r.Left? && r.lval == e.lval
  {
    FlatMap(e, f)
  }

  /** The curried `fold(leftFn)(rightFn)`: `Right` ignores `leftFn` and applies
      `rightFn`; `Left` applies `leftFn` and ignores `rightFn`. */
  function Fold<L, R, K>(e: Either<L, R>, onLeft: L -> K): (R -> K) -> K
  {
    match e
    case Right(v) => (onRight: R -> K) => onRight(v)
    case Left(v) => (onRight: R -> K) => onLeft(v)
  }

  /** `right()`: the payload of a `Right`, or the `undefined` of `returnVoid`.
      The payload is a present value, so `Val` marks exactly the `Right` case. */
  function GetRight<L, R>(e: Either<L, R>): (r: JsVal<R>)
    ensures r.Val? <==> e.Right?
    ensures e.Right? ==> r.value == e.rval
    ensures e.Left? ==> r.Undefined?
  {
    match e
    case Right(v) => Val(v)
    case Left(_) => Undefined
  }

  /** `left()`: the payload of a `Left`, or the `undefined` of `returnVoid`. */
  function GetLeft<L, R>(e: Either<L, R>): (r: JsVal<L>)
    ensures r.Val? <==> e.Left?
    ensures e.Left? ==> r.value == e.lval
    ensures e.Right? ==> r.Undefined?
  {
    match e
    case Right(_) => Undefined
    case Left(v) => Val(v)
  }

  /** `toOption()`: a `Right` payload goes through the Option factory, so a null
      payload gives `None`; a `Left` gives `None`. */
  function ToOption<L, R>(e: Either<L, JsVal<R>>): (r: Option<R>)
    ensures r.Some? <==> e.Right? && !IsAbsent(e.rval)
    ensures r.Some? ==> e.rval == Val(r.value)
  {
    match e
    case Right(v) => Of(v)
    case Left(_) => None
  }

  /** Whatever the two handlers, the curried fold runs exactly the one that
      matches the variant. */
  lemma FoldRunsOneBranch<L, R, K>(e: Either<L, R>, onLeft: L -> K, onRight: R -> K)
    ensures e.Right? ==> Fold(e, onLeft)(onRight) == onRight(e.rval)
    ensures e.Left? ==> Fold(e, onLeft)(onRight) == onLeft(e.lval)
  {
  }

  /** Exactly one of the two partial accessors yields a value (payloads are
      present values here; see `GetRight`). */
  lemma AccessorsExclusive<L, R>(e: Either<L, R>)
    ensures GetRight(e).Val? != GetLeft(e).Val?
    ensures GetRight(e).Val? || GetLeft(e).Val?
  {
  }

  /** Functor identity and composition for `map` and for `leftMap`. */
  lemma MapFunctorLaws<L, R, K, M>(e: Either<L, R>, f: R -> K, g: K -> M)
    ensures Map(e, (x: R) => x) == e
    ensures Map(Map(e, f), g) == Map(e, (x: R) => g(f(x)))
  {
  }

  lemma LeftMapFunctorLaws<L, R, K, M>(e: Either<L, R>, f: L -> K, g: K -> M)
    ensures LeftMap(e, (x: L) => x) == e
    ensures LeftMap(LeftMap(e, f), g) == LeftMap(e, (x: L) => g(f(x)))
  {
  }

  /** `map` and `leftMap` touch different sides, so their order does not matter. */
  lemma MapLeftMapCommute<L, R, K, M>(e: Either<L, R>, f: R -> K, g: L -> M)
    ensures LeftMap(Map(e, f), g) == Map(LeftMap(e, g), f)
  {
  }

  /** `map` is `flatMap` into `Right`. */
  lemma MapIsFlatMap<L, R, K>(e: Either<L, R>, f: R -> K)
    ensures Map(e, f) == FlatMap(e, (x: R) => Right(f(x)))
  {
  }

  /** Monad left identity: `Right(v).flatMap(f)` is `f(v)`. */
  lemma FlatMapLeftIdentity<L, R, K>(v: R, f: R -> Either<L, K>)
    ensures FlatMap(Right(v), f) == f(v)
  {
  }

  /** Monad right identity: `m.flatMap(Right)` is `m`. */
  lemma FlatMapRightIdentity<L, R>(e: Either<L, R>)
    ensures FlatMap(e, (x: R) => Right(x)) == e
  {
  }

  /** Monad associativity. */
  lemma FlatMapAssociative<L, R, K, M>(e: Either<L, R>, f: R -> Either<L, K>, g: K -> Either<L, M>)
    ensures FlatMap(FlatMap(e, f), g) == FlatMap(e, (x: R) => FlatMap(f(x), g))
  {
  }

  /** `toOption` is the fold that maps `Left` to `None` and `Right` through the factory. */
  lemma ToOptionIsFold<L, R>(e: Either<L, JsVal<R>>)
    ensures ToOption(e) == Fold(e, (_: L) => None)(Of)
  {
  }

  /** The scenarios of the Either tests. */
  lemma EitherScenarios()
    ensures GetRight(Either<string, string>.Right("foo")) == Val("foo")
    ensures GetRight(Map(Either<string, string>.Right("foo"), (s: string) => |s|)) == Val(3)
    ensures GetRight(FlatMap(Right("foo"), (_: string) => Either<string, int>.Right(3))) == Val(3)
    ensures GetRight(LeftMap(Right("foo"), (s: string) => |s|)) == Val("foo")
    ensures Fold(Right("foo"), (e: string) => "failed with " + e)((v: string) => "succeeded with " + v)
            == "succeeded with foo"
    ensures GetLeft(Map(Left("foo"), (s: string) => |s|)) == Val("foo")
    ensures GetLeft(FlatMap(Left("gah"), (_: string) => Either<string, int>.Right(3))) == Val("gah")
    ensures GetLeft(LeftMap(Either<string, string>.Left("gah"), (s: string) => |s|)) == Val(3)
    ensures Fold(Left("gah"), (e: string) => "failed with " + e)((v: string) => "succeeded with " + v)
            == "failed with gah"
  {
  }
}
