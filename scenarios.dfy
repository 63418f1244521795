/**
 * End-to-end runs of the engine on small programs, matching the behaviour the
 * repository's own test suites describe: each method builds a fresh
 * registration table and injector, applies the decorators, and states what
 * the calls return.
 */
module Scenarios {
  import opened Wrappers
  import opened Values
  import opened Lookup
  import opened Decorators
  import opened Containers
  import opened Providers
  import opened Injectable
  import opened Resolution
  import opened Injection

  /** A seed holding only values. */
  function ValuesSeed(entries: seq<(Any, Any)>): Seed {
    Seed(Some(entries), None, None, None)
  }

  /** A value in the current container hides the parent's value under the same key. */
  method ChildValueShadowsParent() returns (r: Result<Any, Error>, missing: Result<Any, Error>)
    ensures r == Ok(Num(1))
    ensures missing == Err(NoValue(Str("unknown")))
  {
    var root := new Injector(Some(ValuesSeed([(Str("my-key"), Num(2))])), null);
    var child := root.ExtendWith("extension", Some(ValuesSeed([(Str("my-key"), Num(1))])));
    r := child.FindValue(Str("my-key"));
    missing := child.FindValue(Str("unknown"));
  }

  /** A value only the parent holds is found from the child. */
  method ParentValueVisible() returns (r: Result<Any, Error>)
    ensures r == Ok(Num(2))
  {
    var root := new Injector(Some(ValuesSeed([(Str("my-key"), Num(2))])), null);
    var child := root.ExtendWith("extension", None);
    r := child.FindValue(Str("my-key"));
  }

  /** `parents()` of an extended injector: the current container first, then its parent. */
  method ParentsOrder() returns (names: seq<string>, again: seq<string>)
    ensures names == ["extension", "root"]
    ensures again == ["root"]
  {
    var root := new Injector(None, null);
    var child := root.ExtendWith("extension", None);
    var it := child.Parents();
    var cs := it.Iterate();
    names := [cs[0].name, cs[1].name];
    var cs2 := it.Iterate();
    again := [cs2[0].name];
  }

  /** `new Injector(seed)`: a valid injector over a single container called `root` holding the seed. */
  method RootInjector(seed: Option<Seed>) returns (injector: Injector)
    ensures fresh(injector) && fresh(injector.container) && injector.Valid()
    ensures injector.container.Chain() == [injector.container]
    ensures injector.NameChain() == ["root"]
    ensures injector.InstanceChain() == [Assign(map[], SeedInstances(seed))[Undefined := ObjectRef(injector)]]
    ensures injector.ValueChain() == [Assign(map[], SeedValues(seed))]
    ensures injector.ProviderChain() == [Assign(DefaultProviderMap(), SeedProviders(seed))]
    ensures injector.ReferenceChain() == [Assign(map[], SeedReferences(seed))]
  {
    injector := new Injector(seed, null);
    assert injector.container.Chain() == [injector.container];
  }

  /** `@Injectable({scope})` on class 0 of an otherwise empty program: the class's token and scope. */
  method ScopedClass(scope: string) returns (meta: Metadata)
    ensures meta.Valid()
    ensures meta == Metadata(map[0 := Token(0)], map[0 := scope], map[], map[], map[], map[], map[], 1)
  {
    var reg := new Registry();
    Injectable.Injectable(reg, Some(InjectableOptions(scope)), ClassTarget(0), Undefined);
    meta := reg.Store();
  }

  /** Scopes by name from an extended injector: its own container, its parent, and no other. */
  method ScopesByName() returns (child: Injector, own: Result<Container, Error>, parent: Result<Container, Error>,
                                 missing: Result<Container, Error>)
    ensures own == Ok(child.container) && child.container.parent != null
    ensures parent == Ok(child.container.parent)
    ensures missing == Err(NoScope("unknown-container"))
  {
    var root := new Injector(None, null);
    child := root.ExtendWith("extension", None);
    assert child.NameChain() == ["extension", "root"];
    own := child.FindScope("extension");
    parent := child.FindScope("root");
    missing := child.FindScope("unknown-container");
  }

  /**
   * `resolveFunctionArguments` on a method that was never marked injectable
   * and has no metadata: it returns `[]` rather than throwing, since the code
   * makes no injectable check.
   */
  method UnmarkedFunctionArguments() returns (r: Result<seq<Any>, Error>)
    ensures r == Ok([])
  {
    var reg := new Registry();
    var meta := reg.Store();
    var injector := RootInjector(None);
    r := injector.ResolveFunctionArguments(meta, 3, Str("run"), 1);
  }

  /** A root-scoped class resolves to the same instance every time. */
  method RootScopeResolvesOnce() returns (first: Result<Any, Error>, second: Result<Any, Error>)
    ensures first.Ok? && second == first
  {
    var meta := ScopedClass("root");
    var injector := RootInjector(None);
    assert ScopeSlot(meta, injector.NameChain(), 0) == Some(0);
    assert injector.Uncached(meta, 0) && ClassOutcomes(injector.Environment(meta), 0) == [];
    first, second := ResolveTwice(injector, meta);
  }

  /** A request-scoped class under a chain with no `request` container is built anew each time. */
  method RequestScopeResolvesEachTime() returns (first: Result<Any, Error>, second: Result<Any, Error>)
    ensures first.Ok? && second.Ok? && first.value != second.value
  {
    var meta := ScopedClass("request");
    var injector := RootInjector(None);
    assert ScopeSlot(meta, injector.NameChain(), 0).None?;
    assert injector.Uncached(meta, 0) && ClassOutcomes(injector.Environment(meta), 0) == [];
    first, second := ResolveTwice(injector, meta);
  }

  /**
   * Resolving class 0, uncached and without parameters, twice: the second call
   * returns the first instance when the chain has its scope container, and a
   * new one when it has not.
   */
  method ResolveTwice(injector: Injector, meta: Metadata) returns (first: Result<Any, Error>, second: Result<Any, Error>)
    requires meta.Valid() && injector.Valid() && injector.Uncached(meta, 0)
    requires ClassOutcomes(injector.Environment(meta), 0) == []
    modifies injector.container.Chain()`instances
    ensures first.Ok? && second.Ok?
    ensures ScopeSlot(meta, injector.NameChain(), 0).Some? ==> second == first
    ensures ScopeSlot(meta, injector.NameChain(), 0).None? ==> first.value != second.value
  {
    ghost var env := injector.Environment(meta);
    assert OkBefore(ClassOutcomes(env, 0), 0);
    first := injector.ResolveClass(meta, 0, 1, []);
    assert injector.Environment(meta) == env;
    second := injector.ResolveClass(meta, 0, 1, []);
  }

  /**
   * The table after `@Injectable({scope: 'root'})` on class 0, whose one
   * constructor parameter (declared as class 9) carries a descriptor with
   * `key` and `args`.
   */
  function ProvidedMeta(key: Any, args: seq<Any>): Metadata {
    Metadata(map[0 := Token(0)], map[0 := "root"], map[],
             map[0 := [Some(ProviderParameters(key, args))]], map[], map[0 := [9]], map[], 1)
  }

  /** Decorating class 0's parameter with `@Provide(key, args)`, then the class with `@Injectable({scope: 'root'})`. */
  method ProvidedClass(key: Any, args: Option<seq<Any>>) returns (meta: Metadata)
    ensures meta.Valid()
    ensures meta == ProvidedMeta(key, args.GetOr([]))
  {
    var reg := new Registry();
    Provide(reg, key, args, ClassTarget(0), Undefined, 0);
    assert reg.classProviders[0] == [Some(ProviderParameters(key, args.GetOr([])))] by {
      assert At(reg.classProviders[0], 0) == Some(ProviderParameters(key, args.GetOr([])));
    }
    Injectable.Injectable(reg, Some(InjectableOptions("root")), ClassTarget(0), Undefined);
    reg.EmitClassParametersTypes(0, [9]);
    meta := reg.Store();
  }

  /** Class 0 of `ProvidedMeta(key, args)` has one parameter, and its outcome is the descriptor's. */
  lemma OneParameter(env: Env, key: Any, args: seq<Any>)
    requires env.meta == ProvidedMeta(key, args)
    ensures ClassOutcomes(env, 0) == [ProviderOutcome(env, ProviderParameters(key, args))]
  {
    OutcomesAt(env, [9], [Some(ProviderParameters(key, args))], 0);
  }

  /** With `(injector, constant) => constant` under `'constant'`, the parameter gets the first argument. */
  lemma ConstantOutcomes(env: Env, args: seq<Any>)
    requires env.providers == [Assign(DefaultProviderMap(), [(Str("constant"), ReturnArgument)])]
    requires env.meta == ProvidedMeta(Str("constant"), args)
    ensures ClassOutcomes(env, 0) == [Fixed(Ok(FirstArg(args)))]
  {
    OneParameter(env, Str("constant"), args);
    assert Nearest(env.providers, Str("constant")) == Some(ReturnArgument);
  }

  /** `@Value('key')` with 100 stored under `'key'` gives 100. */
  lemma ValueOutcomes(env: Env)
    requires env.providers == [DefaultProviderMap()]
    requires env.values == [map[Str("key") := Num(100)]]
    requires env.meta == ProvidedMeta(BuiltinKey(ValueProvider), [Str("key")])
    ensures ClassOutcomes(env, 0) == [Fixed(Ok(Num(100)))]
  {
    OneParameter(env, BuiltinKey(ValueProvider), [Str("key")]);
    DefaultProviderMapIsBuiltins();
    assert Nearest(env.providers, BuiltinKey(ValueProvider)) == Some(ValueLookup);
    assert Nearest(env.values, Str("key")) == Some(Num(100));
  }

  /**
   * `@Inject(target)` with no references: a string or symbol is a missing
   * reference, anything but a class an invalid target.
   */
  lemma InjectOutcomes(env: Env, target: Any)
    requires env.providers == [DefaultProviderMap()] && env.references == [map[]]
    requires env.meta == ProvidedMeta(BuiltinKey(InjectProvider), [target])
    ensures target.IsStringOrSymbol() ==> ClassOutcomes(env, 0) == [Fixed(Err(NoReference(target)))]
    ensures !target.IsStringOrSymbol() && !target.ClassRef? ==> ClassOutcomes(env, 0) == [Fixed(Err(InvalidTarget(target)))]
  {
    OneParameter(env, BuiltinKey(InjectProvider), [target]);
    DefaultProviderMapIsBuiltins();
    assert Nearest(env.providers, BuiltinKey(InjectProvider)) == Some(InjectTarget);
  }

  /** A single position fixed to `v` pins exactly `[v]`. */
  lemma PinnedOne(outs: seq<Outcome>, vs: seq<Any>, v: Any)
    requires outs == [Fixed(Ok(v))] && Pinned(outs, vs)
    ensures vs == [v] && OkBefore(outs, 1)
  {
    assert outs[0].result == Ok(vs[0]);
  }

  /** The constructor arguments of a built instance. */
  predicate BuiltWith(r: Result<Any, Error>, args: seq<Any>) {
    r.Ok? && r.value.ObjectRef? && r.value.o is Instance && (r.value.o as Instance).parameters == args
  }

  /** Resolving class 0, uncached, whose one constructor parameter has the fixed outcome `v`. */
  method BuildOne(injector: Injector, meta: Metadata, v: Any) returns (r: Result<Any, Error>)
    requires meta.Valid() && injector.Valid() && injector.Uncached(meta, 0)
    requires ClassOutcomes(injector.Environment(meta), 0) == [Fixed(Ok(v))]
    modifies injector.container.Chain()`instances
    ensures BuiltWith(r, [v])
  {
    ghost var env := injector.Environment(meta);
    assert OkBefore(ClassOutcomes(env, 0), 1);
    r := injector.ResolveClass(meta, 0, 1, []);
    assert injector.Environment(meta) == env;
    PinnedOne(ClassOutcomes(env, 0), (r.value.o as Instance).parameters, v);
  }

  /** `@Provide('constant', [100])` with the provider `(injector, constant) => constant`: the argument is 100. */
  method ProvideConstant() returns (r: Result<Any, Error>)
    ensures BuiltWith(r, [Num(100)])
  {
    var meta := ProvidedClass(Str("constant"), Some([Num(100)]));
    var injector := RootInjector(Some(Seed(None, Some([(Str("constant"), ReturnArgument)]), None, None)));
    ConstantOutcomes(injector.Environment(meta), [Num(100)]);
    r := BuildOne(injector, meta, Num(100));
  }

  /** `@Provide('constant')` without arguments: the provider receives nothing, so the argument is `undefined`. */
  method ProvideWithoutArguments() returns (r: Result<Any, Error>)
    ensures BuiltWith(r, [Undefined])
  {
    var meta := ProvidedClass(Str("constant"), None);
    var injector := RootInjector(Some(Seed(None, Some([(Str("constant"), ReturnArgument)]), None, None)));
    ConstantOutcomes(injector.Environment(meta), []);
    r := BuildOne(injector, meta, Undefined);
  }

  /** `@Value('key')` with the value 100 under `key`: the argument is 100. */
  method ValueFromContainer() returns (r: Result<Any, Error>)
    ensures BuiltWith(r, [Num(100)])
  {
    var meta := ProvidedClass(BuiltinKey(ValueProvider), Some([Str("key")]));
    var injector := RootInjector(Some(ValuesSeed([(Str("key"), Num(100))])));
    ValueOutcomes(injector.Environment(meta));
    r := BuildOne(injector, meta, Num(100));
  }

  /** Resolving class 0, uncached, whose one constructor parameter fails with `e` whatever the caches hold. */
  method FailOne(injector: Injector, meta: Metadata, e: Error) returns (r: Result<Any, Error>)
    requires meta.Valid() && injector.Valid() && injector.Uncached(meta, 0)
    requires ClassOutcomes(injector.Environment(meta), 0) == [Fixed(Err(e))]
    modifies injector.container.Chain()`instances
    ensures r == Err(e)
  {
    ghost var env := injector.Environment(meta);
    assert FailsAt(ClassOutcomes(env, 0), 0);
    r := injector.ResolveClass(meta, 0, 1, []);
    assert injector.Environment(meta) == env;
  }

  /** `@Inject(x)` where `x` is neither a class nor a string or symbol: resolution throws. */
  method InjectInvalidTarget() returns (r: Result<Any, Error>)
    ensures r == Err(InvalidTarget(Num(3)))
  {
    var meta := ProvidedClass(BuiltinKey(InjectProvider), Some([Num(3)]));
    var injector := RootInjector(None);
    InjectOutcomes(injector.Environment(meta), Num(3));
    r := FailOne(injector, meta, InvalidTarget(Num(3)));
  }

  /** `@Inject('key')` with no reference registered under `key`: resolution throws. */
  method InjectMissingReference() returns (r: Result<Any, Error>)
    ensures r == Err(NoReference(Str("key")))
  {
    var meta := ProvidedClass(BuiltinKey(InjectProvider), Some([Str("key")]));
    var injector := RootInjector(None);
    InjectOutcomes(injector.Environment(meta), Str("key"));
    r := FailOne(injector, meta, NoReference(Str("key")));
  }

  /**
   * `@Injectable({scope: 'root'})` on `LazyService` (class 0, no parameters)
   * and on `Service` (class 1), whose constructor parameters carry the
   * descriptors `ps`.
   */
  function ServiceMeta(ps: Sparse, types: seq<ClassId>): Metadata {
    Metadata(map[0 := Token(0), 1 := Token(1)], map[0 := "root", 1 := "root"], map[],
             map[1 := ps], map[], map[1 := types], map[], 2)
  }

  /** The lazy descriptor on `LazyService`. */
  const LazyOnService := ProviderParameters(BuiltinKey(LazyProvider), [ClassRef(0)])

  /** `Service(@Lazy(LazyService) lazy)`. */
  method LazyServiceClasses() returns (meta: Metadata)
    ensures meta.Valid() && meta == ServiceMeta([Some(LazyOnService)], [9])
  {
    var reg := new Registry();
    Injectable.Injectable(reg, Some(InjectableOptions("root")), ClassTarget(0), Undefined);
    Lazy(reg, 0, ClassTarget(1), Undefined, 0);
    assert reg.classProviders[1] == [Some(LazyOnService)] by {
      assert At(reg.classProviders[1], 0) == Some(LazyOnService);
    }
    Injectable.Injectable(reg, Some(InjectableOptions("root")), ClassTarget(1), Undefined);
    reg.EmitClassParametersTypes(1, [9]);
    meta := reg.Store();
  }

  /** `Service`'s one parameter is a lazy handle on `LazyService`, and `LazyService` has no parameters. */
  lemma LazyOutcomes(env: Env)
    requires env.providers == [DefaultProviderMap()] && env.meta == ServiceMeta([Some(LazyOnService)], [9])
    ensures ClassOutcomes(env, 1) == [Handle(ClassRef(0))] && ClassOutcomes(env, 0) == []
  {
    OutcomesAt(env, [9], [Some(LazyOnService)], 0);
    DefaultProviderMapIsBuiltins();
    assert Nearest(env.providers, BuiltinKey(LazyProvider)) == Some(LazyHandle);
  }

  /**
   * `@Lazy(LazyService)` on a parameter of the root-scoped `Service`:
   * resolving `Service` succeeds without touching `LazyService`, the argument
   * is a new unresolved handle on it, and its `get()` returns the identical
   * instance each time.
   */
  method LazyResolvesOnce() returns (service: Result<Any, Error>, first: Result<Any, Error>, second: Result<Any, Error>)
    ensures service.Ok? && |Arguments(service.value)| == 1
    ensures first.Ok? && second == first
  {
    var meta := LazyServiceClasses();
    var injector := RootInjector(None);
    var lazy;
    service, lazy := ResolveService(injector, meta);
    first, second := GetTwice(lazy, meta);
  }

  /** Resolving an uncached `Service` whose one parameter is lazy: its argument is a new unresolved handle. */
  method ResolveService(injector: Injector, meta: Metadata) returns (service: Result<Any, Error>, lazy: LazyResolver)
    requires meta.Valid() && injector.Valid() && meta == ServiceMeta([Some(LazyOnService)], [9])
    requires injector.ProviderChain() == [DefaultProviderMap()]
    requires injector.InstanceChain() == [map[Undefined := ObjectRef(injector)]]
    modifies injector.container.Chain()`instances
    ensures service.Ok? && Arguments(service.value) == [ObjectRef(lazy)]
    ensures fresh(lazy) && !lazy.resolved && lazy.injector == injector && lazy.target == ClassRef(0)
    ensures injector.Environment(meta) == old(injector.Environment(meta))
    ensures meta.IsInjectableClass(0) && ClassOutcomes(injector.Environment(meta), 0) == []
  {
    ghost var env := injector.Environment(meta);
    LazyOutcomes(env);
    assert injector.Uncached(meta, 1) && OkBefore(ClassOutcomes(env, 1), 1);
    service := injector.ResolveClass(meta, 1, 2, []);
    assert injector.Environment(meta) == env;
    assert HandleAt(ClassOutcomes(env, 1), Arguments(service.value), 0);
    lazy := Arguments(service.value)[0].o as LazyResolver;
  }

  /** The value descriptor for the key `missing`. */
  const MissingValue := ProviderParameters(BuiltinKey(ValueProvider), [Str("missing")])

  /** `Service(@Lazy(LazyService) lazy, @Value('missing') v)`; parameter decorators run last to first. */
  method LazyAndValueClasses() returns (meta: Metadata)
    ensures meta.Valid() && meta == ServiceMeta([Some(LazyOnService), Some(MissingValue)], [9, 9])
  {
    var reg := new Registry();
    Injectable.Injectable(reg, Some(InjectableOptions("root")), ClassTarget(0), Undefined);
    Value(reg, Str("missing"), ClassTarget(1), Undefined, 1);
    Lazy(reg, 0, ClassTarget(1), Undefined, 0);
    assert reg.classProviders[1] == [Some(LazyOnService), Some(MissingValue)] by {
      assert At(reg.classProviders[1], 0) == Some(LazyOnService);
      assert At(reg.classProviders[1], 1) == Some(MissingValue);
    }
    Injectable.Injectable(reg, Some(InjectableOptions("root")), ClassTarget(1), Undefined);
    reg.EmitClassParametersTypes(1, [9, 9]);
    meta := reg.Store();
  }

  /** Without values, the lazy position succeeds and the value position is the first to fail. */
  lemma LazyAndValueOutcomes(env: Env)
    requires env.providers == [DefaultProviderMap()] && env.values == [map[]]
    requires env.meta == ServiceMeta([Some(LazyOnService), Some(MissingValue)], [9, 9])
    ensures ClassOutcomes(env, 1) == [Handle(ClassRef(0)), Fixed(Err(NoValue(Str("missing"))))]
    ensures FailsAt(ClassOutcomes(env, 1), 1)
  {
    OutcomesAt(env, [9, 9], [Some(LazyOnService), Some(MissingValue)], 0);
    OutcomesAt(env, [9, 9], [Some(LazyOnService), Some(MissingValue)], 1);
    DefaultProviderMapIsBuiltins();
    assert Nearest(env.providers, BuiltinKey(LazyProvider)) == Some(LazyHandle);
    assert Nearest(env.providers, BuiltinKey(ValueProvider)) == Some(ValueLookup);
  }

  /**
   * `Service(@Lazy(LazyService) lazy, @Value('missing') v)` with no value
   * under `missing`: the lazy position succeeds, so resolution throws the
   * missing value's error and caches nothing.
   */
  method LazyThenMissingValue() returns (r: Result<Any, Error>, cached: bool)
    ensures r == Err(NoValue(Str("missing"))) && !cached
  {
    var meta := LazyAndValueClasses();
    var injector := RootInjector(None);
    r := ResolveLazyThenValue(injector, meta);
    cached := injector.HasInstance(Token(1));
  }

  /** Resolving an uncached `Service(@Lazy(LazyService) lazy, @Value('missing') v)` with no values: nothing changes. */
  method ResolveLazyThenValue(injector: Injector, meta: Metadata) returns (r: Result<Any, Error>)
    requires meta.Valid() && injector.Valid() && meta == ServiceMeta([Some(LazyOnService), Some(MissingValue)], [9, 9])
    requires injector.ProviderChain() == [DefaultProviderMap()] && injector.ValueChain() == [map[]]
    requires injector.Uncached(meta, 1)
    modifies injector.container.Chain()`instances
    ensures r == Err(NoValue(Str("missing"))) && injector.InstanceChain() == old(injector.InstanceChain())
  {
    LazyAndValueOutcomes(injector.Environment(meta));
    r := injector.ResolveClass(meta, 1, 2, []);
  }

  /** Two `get()` calls on an unresolved handle whose class has no parameters and no cached instance. */
  method GetTwice(lazy: LazyResolver, meta: Metadata) returns (first: Result<Any, Error>, second: Result<Any, Error>)
    requires meta.Valid() && lazy.injector.Valid() && !lazy.resolved && lazy.target.ClassRef?
    requires meta.IsInjectableClass(lazy.target.c)
    requires ClassOutcomes(lazy.injector.Environment(meta), lazy.target.c) == []
    modifies lazy, lazy.injector.container.Chain()`instances
    ensures first.Ok? && second == first
  {
    ghost var env := lazy.injector.Environment(meta);
    ghost var before := lazy.injector.InstanceChain();
    assert OkBefore(ClassOutcomes(env, lazy.target.c), |meta.ClassParametersTypes(lazy.target.c)|);
    first := lazy.Get(meta, 1);
    assert lazy.injector.Environment(meta) == env;
    assert lazy.injector.ClassResolved(meta, lazy.target.c, 1, before, first);
    assert first.Ok?;
    second := lazy.Get(meta, 1);
  }

  /** A class that was never marked injectable cannot be resolved. */
  method NotInjectableRejected() returns (r: Result<Any, Error>)
    ensures r == Err(NotInjectable(ClassRef(7)))
  {
    var reg := new Registry();
    var meta := reg.Store();
    var injector := new Injector(None, null);
    r := injector.ResolveClass(meta, 7, 1, []);
  }
}
