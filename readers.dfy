/** The deferred-computation container: a `Reader` wraps a total function from a
    context to a result, and its operations compose functions without running
    them. Its laws are stated through `run`, one context at a time. */
module Readers {

  datatype Reader<!C, T> = Reader(f: C -> T)

  /** `run(ctx)`: apply the wrapped function to the context. */
  function Run<C, T>(r: Reader<C, T>, ctx: C): T {
    r.f(ctx)
  }

  /** `map(fn)`: post-compose `fn` with the wrapped function. */
  function Map<C(!new), T, K>(r: Reader<C, T>, g: T -> K): (m: Reader<C, K>)
    ensures forall ctx :: Run(m, ctx) == g(Run(r, ctx))
  {
    Reader((ctx: C) => g(r.f(ctx)))
  }

  /** `flatMap(fn)`: run the first step, feed its result to `fn`, and run the
      reader that `fn` returns on the SAME context. */
  function FlatMap<C(!new), T, K>(r: Reader<C, T>, k: T -> Reader<C, K>): (m: Reader<C, K>)
    ensures forall ctx :: Run(m, ctx) == Run(k(Run(r, ctx)), ctx)
  {
    Reader((ctx: C) => Run(k(r.f(ctx)), ctx))
  }

  /** `chain`: the very closure bound to `flatMap`. */
  function Chain<C(!new), T, K>(r: Reader<C, T>, k: T -> Reader<C, K>): (m: Reader<C, K>)
    ensures m == FlatMap(r, k)
    ensures forall ctx :: Run(m, ctx) == Run(k(Run(r, ctx)), ctx)
  {
    FlatMap(r, k)
  }

  /** `Reader(f).run(c)` is `f(c)`, for any context and as often as it is asked. */
  lemma RunAppliesWrapped<C, T>(f: C -> T, ctx: C)
    ensures Run(Reader(f), ctx) == f(ctx)
  {
  }

  /** Functor identity and composition, through `run`. */
  lemma MapFunctorLaws<C(!new), T, K, M>(r: Reader<C, T>, g: T -> K, h: K -> M, ctx: C)
    ensures Run(Map(r, (x: T) => x), ctx) == Run(r, ctx)
    ensures Run(Map(Map(r, g), h), ctx) == Run(Map(r, (x: T) => h(g(x))), ctx)
  {
  }

  /** Monad left and right identity through `run`, with the constant reader
      `Reader(_ => x)` as the unit. */
  lemma FlatMapIdentityLaws<C(!new), T, K>(x: T, k: T -> Reader<C, K>, r: Reader<C, T>, ctx: C)
    ensures Run(FlatMap(Reader((_: C) => x), k), ctx) == Run(k(x), ctx)
    ensures Run(FlatMap(r, (y: T) => Reader((_: C) => y)), ctx) == Run(r, ctx)
  {
  }

  /** Monad associativity through `run`. */
  lemma FlatMapAssociative<C(!new), T, K, M>(r: Reader<C, T>, k: T -> Reader<C, K>, j: K -> Reader<C, M>, ctx: C)
    ensures Run(FlatMap(FlatMap(r, k), j), ctx) == Run(FlatMap(r, (x: T) => FlatMap(k(x), j)), ctx)
  {
  }

  /** `map` is `flatMap` into a constant reader. */
  lemma MapIsFlatMap<C(!new), T, K>(r: Reader<C, T>, g: T -> K, ctx: C)
    ensures Run(Map(r, g), ctx) == Run(FlatMap(r, (x: T) => Reader((_: C) => g(x))), ctx)
  {
  }

  /** The cat of the Reader tests. */
  datatype Cat = Cat(name: string, favoriteFood: string)

  /** The scenarios of the Reader tests: one context reaches both steps of a `flatMap`. */
  lemma CatScenarios()
    ensures var garfield := Cat("Garfield", "Lasagna");
            var catName := Reader((c: Cat) => c.name);
            && Run(catName, garfield) == "Garfield"
            && Run(Map(catName, (n: string) => "Hello " + n), garfield) == "Hello Garfield"
            && Run(Map(catName, (n: string) => n == "Garfield"), garfield)
            && Run(FlatMap(catName, (n: string) => Reader((c: Cat) => n + "'s food is " + c.favoriteFood)), garfield)
               == "Garfield's food is Lasagna"
  {
  }

  datatype TimeOfDay = Morning | Afternoon | Evening | Night
  datatype Language = English | Portuguese
  datatype User = User(name: string, language: Language)

  function EnglishGreeting(t: TimeOfDay): string {
    match t
    case Morning => "Good morning"
    case Afternoon => "Good afternoon"
    case Evening => "Good evening"
    case Night => "Good night"
  }

  function PortugueseGreeting(t: TimeOfDay): string {
    match t
    case Morning => "Bom dia"
    case Afternoon => "Boa tarde"
    case Evening => "Boa tarde"
    case Night => "Boa noite"
  }

  /** The greeting in the user's language, read from the context. */
  function GreetingInLanguage(t: TimeOfDay): Reader<User, string> {
    Reader((u: User) => if u.language == English then EnglishGreeting(t) else PortugueseGreeting(t))
  }

  /** The user's name with its first character upper-cased (`charAt(0)` and
      `slice(1)`); the host's `toUpperCase` is the parameter `upper`. */
  function Capitalize(upper: string -> string): Reader<User, string> {
    Reader((u: User) => upper(if |u.name| > 0 then u.name[..1] else "") + (if |u.name| > 0 then u.name[1..] else ""))
  }

  function GreetPerson(upper: string -> string, greeting: string): Reader<User, string> {
    Map(Capitalize(upper), (name: string) => greeting + " " + name)
  }

  /** The greeting step and the naming step of the Reader example, joined by
      `flatMap`: both read the same user. */
  function GreetPersonInLanguage(upper: string -> string, t: TimeOfDay): Reader<User, string> {
    FlatMap(GreetingInLanguage(t), (greeting: string) => GreetPerson(upper, greeting))
  }

  /** The scenarios of the Reader example: the user supplied to `run` decides
      both the language of the greeting and the name it greets. */
  lemma GreetingScenarios(upper: string -> string)
    requires upper("D") == "D" && upper("m") == "M"
    ensures Run(GreetPersonInLanguage(upper, Evening), User("Dan", English)) == "Good evening Dan"
    ensures Run(GreetPersonInLanguage(upper, Morning), User("mario", Portuguese)) == "Bom dia Mario"
  {
    var dan := User("Dan", English);
    assert dan.name[..1] == "D" && dan.name[1..] == "an";
    assert Run(GreetingInLanguage(Evening), dan) == "Good evening";
    var mario := User("mario", Portuguese);
    assert mario.name[..1] == "m" && mario.name[1..] == "ario";
    assert Run(GreetingInLanguage(Morning), mario) == "Bom dia";
  }
}
