/** Optional values and results of operations that can throw. */
module Wrappers {

  datatype Option<+T> = None | Some(value: T) {
    function GetOr(default: T): T {
      if Some? then value else default
    }
  }

  /** The outcome of a call that either returns a value or throws an error. */
  datatype Result<+T, +E> = Ok(value: T) | Err(error: E)
}

/**
 * The JavaScript values the dependency-injection engine moves around: map keys,
 * provider arguments, cached instances. Classes are identified by number, and
 * every heap object (a constructed instance, a lazy resolver, an injector) is a
 * Dafny object, so "the same instance" is reference equality.
 */
module Values {
  import opened Wrappers

  /** A class (a constructor function), identified by number. */
  type ClassId = nat

  /** The three symbols under which the default providers are registered. */
  datatype Builtin = ValueProvider | LazyProvider | InjectProvider

  datatype Any =
    | Undefined
    | Num(n: int)
    | Str(s: string)
    /** A symbol created by user code. */
    | Sym(id: nat)
    /** A reference symbol minted by the registration table; `serial` makes it unique. */
    | Token(serial: nat)
    /** PROVIDER_VALUE, PROVIDER_LAZY or PROVIDER_INJECT. */
    | BuiltinKey(builtin: Builtin)
    /** A class used as a value, as in `Inject(SomeClass)` or `Lazy(SomeClass)`. */
    | ClassRef(c: ClassId)
    /** Any heap object. */
    | ObjectRef(o: object)
  {
    /** `typeof v === 'string' || typeof v === 'symbol'` */
    predicate IsStringOrSymbol() {
      Str? || Sym? || Token? || BuiltinKey?
    }
  }

  /** A provider descriptor `{key, args}` recorded for one parameter position. */
  datatype ProviderParameters = ProviderParameters(key: Any, args: seq<Any>)

  /**
   * A provider function `(injector, ...args) => value`. The first three are the
   * default providers; the last two stand for user-supplied closures, such as
   * `(injector, constant) => constant` and `() => v`.
   */
  datatype Provider =
    | ValueLookup
    | LazyHandle
    | InjectTarget
    | ReturnArgument
    | Constant(v: Any)

  /** The ways a lookup or a resolution throws. */
  datatype Error =
    | NotInjectable(target: Any)
    | NoValue(key: Any)
    | NoProvider(key: Any)
    | NoInstance(key: Any)
    | NoReference(key: Any)
    | NoScope(name: string)
    | InvalidTarget(target: Any)
    /** The call stack was exhausted by recursive construction (a JavaScript RangeError). */
    | StackExhausted

  /** The first argument a provider receives after the injector: `undefined` when none was given. */
  function FirstArg(args: seq<Any>): Any {
    if |args| > 0 then args[0] else Undefined
  }

  /** A `find*` outcome: the entry that was found, or the lookup error. */
  function FoundOr<V>(found: Option<V>, e: Error): Result<V, Error> {
    match found
    case Some(v) => Ok(v)
    case None => Err(e)
  }
}
