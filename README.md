# Dependency-injection engine of fastify-ioc, modelled in Dafny

This project models the `src/di/` engine of fastify-ioc and proves properties of the model.

**Registration table.** Decorators (`@Injectable`, `@Provide`, `@Inject`, `@Lazy`, `@Value`) write a table keyed by class, or by (prototype, member). For each key it records:
- whether the key is injectable, with a unique reference symbol;
- its scope name;
- a sparse, position-indexed array of provider descriptors `{key, args}`;
- the declared parameter types.

**Containers.** A container is a named node with a parent link and four maps: values, providers, cached instances and references to classes. A new container starts with the three default providers, and any seed it is given is then merged in.

**Injector.** An injector wraps one container. It answers `find*`/`has*` queries by walking the chain from its own container up to the root; the nearest container holding a key wins.

`resolveClass` works in three steps:
1. It returns any cached instance of the class found on the chain.
2. Otherwise it builds a new instance. Each constructor parameter is resolved through its provider descriptor if it has one, otherwise by resolving the declared class.
3. It keeps the new instance only in the nearest container whose name equals the class's scope.

**Lazy resolver.** A `LazyResolver` resolves its target the first time `get()` is called. It keeps the result only when that resolution succeeds.

## How the model is built

- **Values.** JavaScript values are the datatype `Values.Any`. Heap objects are Dafny objects, so "the same instance" is reference equality and "a new instance" is `fresh`. Classes are numbers (`ClassId`).
- **Metadata store.** The reflection metadata is the class `Decorators.Registry`. It is a store object the decorator methods update, and `Store()` returns its contents as a `Metadata` value. Resolution only reads the store, so the injector's methods take that value as a parameter.
- **Container chain.** `Containers.Container` keeps constant `parent` and `name` fields. Its ghost constant `Ancestors` lists the parents up to the root. `Linked()` says the `parent` links follow that list, so every chain is finite and has no cycle.
- **Provider functions.** They are the datatype `Values.Provider`:
  - the three defaults: value lookup, lazy handle and inject;
  - two closure shapes: return the first argument, or return a constant.
- **Errors.** A thrown `Error` is a `Result` holding a `Values.Error`. Every error the engine throws itself is modelled; JavaScript's own `TypeError`s are modelled only as listed under "Left out".
- **Outcome functions.** Module `Resolution` states, as the datatype `Resolution.Outcome`, what each parameter position resolves to. `Fixed(result)` is a value or error that does not depend on the caches. `Handle(target)` is a new lazy handle on `target`, which always succeeds and touches no cache. `Nested(c)` is a nested `resolveClass(c)` of an injectable class; only it depends on the caches. `Injection.Resolved` bundles what one `resolveClass` promises, so the callers that end in `resolveClass` (the inject provider, `resolveProvider`, `get()`) state the same promise. It also states the only way a resolution may change the caches (`CacheFrame`): entries never disappear, and a new or changed entry is a class's instance stored in that class's scope container.
- **Construction stack.** The resolution methods take a ghost list `frames` of the constructions in progress, outermost first. Each frame is a class and the constructor position being resolved, and each position hands the next frame's class to `resolveClass`. Top-level calls pass `[]`. No class on the stack is cached, because an instance is stored only once its construction returns. The contracts use this to prove that resolving a class already under construction always throws. That is the dependency cycle which, in the source, recurses until the stack overflows.
- **Scenarios.** Module `Scenarios` replays the behaviour the repository's test suites describe on small fresh programs.

The model follows the code where it and the tests disagree:
- `resolveFunctionArguments` does no injectable check, so it returns `[]` for an unmarked method. The test at `src/di/injector.spec.ts:293-299` expects a throw.
- Tests call `Injector.of`, `hasContainer` and `findContainer`. The code has the constructor's container argument, `hasScope` and `findScope`, which are modelled.
- The injector registers itself under the reference of the `Injector` class. That class is never marked injectable, so the key is `undefined`.
- The iterable returned by `parents()` moves the variable it captured. Iterating the same iterable a second time therefore yields only the root (`Scenarios.ParentsOrder`).

## Model

| member | source | states |
|---|---|---|
| Lookup.Nearest | src/di/injector.ts:75-81 | the lookup finds nothing iff no map on the chain holds the key; otherwise it returns the entry of the first map that does, and no earlier map holds the key |
| Lookup.NearestName | src/di/injector.ts:139-145 | no position is found iff no container on the chain has the name; otherwise the position found has the name and no earlier position does |
| Lookup.NearestAt | src/di/injector.ts:76-78 | when position `i` is the first to hold the key, the lookup returns position `i`'s entry |
| Lookup.NearestShadows | src/di/injector.ts:75-81 | shadowing: a key held by the current container hides every ancestor's entry; a key it lacks is looked up among the ancestors |
| Lookup.NearestNameAt | src/di/injector.ts:139-145 | the first container with a given name is the one found, whichever later containers share the name |
| Containers.Assign | src/di/container.ts:50-65 | `m.set(k, v)` for each entry in order; what the result holds is stated by the four lemmas below |
| Containers.AssignKeys | src/di/container.ts:50-65 | after `Map.set` for each entry, the map holds exactly the old keys plus the entries' keys |
| Containers.AssignUntouched | src/di/container.ts:49-66 | a key no entry mentions keeps its presence and its old value |
| Containers.AssignLastWins | src/di/container.ts:50-65 | for a repeated key, the last entry's value wins |
| Containers.AssignSize | src/di/container.ts:54-57 | distinct fresh keys each add one entry to the map |
| Containers.DefaultProviderMapIsBuiltins | src/di/container.ts:42-43 | a new container's providers are exactly the three defaults, under their three keys |
| Containers.SeededProviderCount | src/di/container.ts:42-57 | seeding distinct non-default provider keys gives `3 + n` providers and keeps every default |
| Containers.SeedOverridesDefault | src/di/container.ts:54-57 | a seeded provider under a default key replaces that default, since `init` runs after the default loop |
| Providers.DefaultProviders | src/di/provider.ts:37-63 | the three default providers in order: value lookup, lazy handle, inject; `DefaultProviderMapIsBuiltins` states the map they give |
| Containers.Defaults | src/di/container.ts:42-43 | the loop over `DEFAULT_PROVIDERS` builds the default provider map |
| Containers.Container.constructor | src/di/container.ts:33-47 | a new container has the given name and no parent; each of its maps is the default contents followed by its own seed list, so the maps are independent of each other; no seed and `{}` give the same state |
| Containers.Container.Child | src/di/injector.ts:21-23 | a container built for `extendWith` has the parent's chain after it and the same initial maps as any new container |
| Containers.Container.Init | src/di/container.ts:49-66 | each seed list is merged into its own map, entry by entry in order, and the other maps are left alone |
| Containers.ChainDistinct | src/di/injector.ts:155-166 | the containers of a chain are pairwise distinct, so the chain has no cycle |
| Containers.ParentLinked | src/di/injector.ts:160-162 | the parent of a linked container is linked, and the parent's chain is the rest of the walk |
| Containers.AdoptLinked | src/di/injector.ts:22-23 | giving a new container a linked parent yields a linked container |
| Containers.ChainSuffixLinked | src/di/injector.ts:155-166 | every container on a chain is linked, and its chain is the suffix of the walk that starts at it |
| Decorators.Metadata.IsInjectableClass | src/di/decorators.ts:22-24 | the class has a reference entry |
| Decorators.Metadata.ClassInjectionReference | src/di/decorators.ts:25-27 | a symbol exactly when the class is injectable, `undefined` otherwise |
| Decorators.Metadata.HasScope | src/di/decorators.ts:32-34 | the class has a scope entry |
| Decorators.Metadata.Scope | src/di/decorators.ts:35-37 | a scope name exactly when `hasScope` holds |
| Decorators.Metadata.IsInjectableFunction | src/di/decorators.ts:42-44 | the (prototype, member) has a reference entry |
| Decorators.Metadata.FunctionInjectionReference | src/di/decorators.ts:45-47 | a symbol exactly when the method is injectable, `undefined` otherwise |
| Decorators.Metadata.HasClassParametersProvider | src/di/decorators.ts:54-56 | the constructor has a descriptor array |
| Decorators.Metadata.ClassParametersProvider | src/di/decorators.ts:57-59 | without a descriptor array, `[]`, so no position has a descriptor |
| Decorators.Metadata.HasFunctionParametersProvider | src/di/decorators.ts:72-74 | the method has a descriptor array |
| Decorators.Metadata.FunctionParametersProvider | src/di/decorators.ts:75-77 | without a descriptor array, `[]`, so no position has a descriptor |
| Decorators.Metadata.ClassParametersTypes | src/di/decorators.ts:79-81 | without emitted types, `[]`: the constructor takes no parameters |
| Decorators.Metadata.FunctionParametersTypes | src/di/decorators.ts:83-85 | without emitted types, `[]`: the method takes no arguments |
| Decorators.SetAt | src/di/decorators.ts:49-53 | `parameters[index] = p` sets that index, grows the array with holes when needed, and leaves every other index unchanged |
| Decorators.Registry.constructor | src/di/decorators.ts:22-27 | the store starts empty: no class or method is injectable or scoped, and all lists default to `[]` |
| Decorators.Registry.DefineInjectableClass | src/di/decorators.ts:19-27 | afterwards the class is injectable and has a defined reference, a fresh symbol that differs from every other class's reference |
| Decorators.Registry.DefineScope | src/di/decorators.ts:29-37 | afterwards `hasScope` holds and `getScope` returns the given scope; nothing else changes |
| Decorators.Registry.DefineInjectableFunction | src/di/decorators.ts:39-47 | afterwards exactly that (prototype, member) is injectable, with a fresh symbol |
| Decorators.Registry.DefineClassParametersProvider | src/di/decorators.ts:49-59 | the class's descriptor array gets `p` at the index, every other index keeps its descriptor, and the array is stored |
| Decorators.Registry.DefineFunctionParametersProvider | src/di/decorators.ts:61-77 | the same index update on the method's array, starting from `[]` when the method has none |
| Decorators.Registry.EmitClassParametersTypes | src/di/decorators.ts:79-81 | the constructor's declared parameter types are then the ones read back |
| Decorators.Registry.EmitFunctionParametersTypes | src/di/decorators.ts:83-85 | the method's declared parameter types are then the ones read back |
| Decorators.TokenIdentifiesClass | src/di/decorators.ts:20 | two injectable classes with the same reference are the same class |
| Providers.Provide | src/di/provider.ts:15-23 | records `{key, args ?? []}` at the parameter index, in the class table for a constructor and in the (prototype, member) table for a method |
| Providers.Inject | src/di/provider.ts:25-27 | records a descriptor with the inject key and the single argument `[target]` |
| Providers.Lazy | src/di/provider.ts:29-31 | records a descriptor with the lazy key and the single argument `[class]` |
| Providers.Value | src/di/provider.ts:33-35 | records a descriptor with the value key and the single argument `[key]` |
| Injectable.Injectable | src/di/injectable.ts:10-19 | with options on a class, marks it injectable and sets its scope; on a method, marks that member injectable; without options on a class, registers nothing |
| Resolution.CallOutcome | src/di/provider.ts:37-63 | the lazy provider's outcome is always a handle on its first argument; the inject provider's is a nested resolution exactly when its target is, or references, an injectable class; injecting a class that is not injectable is `NotInjectable`, and a missing reference or a target that is neither a key nor a class is an error; every other call has a fixed outcome |
| Resolution.ProviderOutcome | src/di/injector.ts:44-48 | `NoProvider` exactly when no container holds a provider under the key; otherwise the nearest provider's call outcome |
| Resolution.OutcomesFrom | src/di/injector.ts:57-65 | the outcome list of positions `i` onward has one entry per remaining parameter type |
| Resolution.Outcomes | src/di/injector.ts:57-65 | there is one outcome per declared parameter type |
| Resolution.OutcomesAt | src/di/injector.ts:58-64 | position `i`'s outcome is its descriptor's provider outcome if it has a descriptor, otherwise the outcome of its declared class |
| Resolution.ClassOutcomes | src/di/injector.ts:67-71 | a class's constructor has one outcome per declared parameter type |
| Resolution.PinnedSnoc | src/di/injector.ts:58-64 | appending the value of the next position keeps every fixed position's value |
| Resolution.FirstFailure | src/di/injector.ts:57-65 | a failure at position `i` that is not a lazy handle, after every earlier fixed or lazy position succeeded, is the first failure among fixed outcomes, with the same error |
| Resolution.ChainedPush | src/di/injector.ts:58-64 | starting on a position of the class the innermost frame hands over gives a stack whose new innermost frame hands over that position's class |
| Resolution.ReturnsToStack | src/di/injector.ts:58-71 | a class already on the stack, started again, reaches the position its earlier frame was at, and that position hands over a class on the stack: the cycle closes |
| Resolution.StackUncachedPush | src/di/injector.ts:67-71 | the stack with one more frame is uncached exactly when the stack is and the new frame's class is uncached |
| Resolution.KeepOthersUncached | src/di/injector.ts:38-39 | storing an instance of a class not under construction leaves every class under construction uncached |
| Resolution.ProgressStart | src/di/injector.ts:57-58 | before the first position, no value is collected and no cache has changed |
| Resolution.ProgressStep | src/di/injector.ts:58-64 | one more resolved position extends the values, pinned where its outcome is fixed, and the caches still changed only as a resolution may, and not at all unless the position was a nested resolution |
| Resolution.ProgressFail | src/di/injector.ts:58-64 | a failing position, which is never a lazy one, makes a fixed first failure the thrown error with no cache change, and rules out that every fixed or lazy outcome succeeds |
| Resolution.ProgressDone | src/di/injector.ts:57-65 | after the last position every fixed position holds its value and no fixed position fails, and the class being built is not already under construction |
| Resolution.CacheFrameTrans | src/di/injector.ts:57-65 | two resolutions in a row change the caches only as one resolution may |
| Resolution.CacheFrameStore | src/di/injector.ts:38-39 | storing a class's instance under its reference in its scope container is a permitted change |
| Resolution.CacheFrameTokenAt | src/di/injector.ts:38-39 | with unique references, a class's reference can be added only in its scope container |
| Resolution.NeverCachedWithoutScope | src/di/injector.ts:36-41 | a class that is uncached and has no scope container on the chain stays uncached |
| Resolution.CachedInScope | src/di/injector.ts:34-39 | after the store, the kept instance is the nearest cached one for the class |
| Resolution.KeepInScope | src/di/injector.ts:37-40 | keeping a new instance in the scope container is a permitted change, and that instance is then found first |
| Resolution.NoSlotNoCache | src/di/injector.ts:37-40 | an uncached class with no scope container is still uncached after any permitted change |
| Injection.CreatedExhausted | src/di/injector.ts:36-37 | with no room on the stack, construction throws and nothing changes |
| Injection.CreatedFailed | src/di/injector.ts:36-37 | a construction that throws before the instance exists leaves the class uncached, and a fixed first failure changes nothing |
| Injection.CreatedKept | src/di/injector.ts:37-40 | a built instance stored in the scope container is the whole change and is then the nearest cached one |
| Injection.CreatedUnkept | src/di/injector.ts:37-40 | a built instance of a class without a scope container on the chain is not cached anywhere |
| Injection.ParentsIterable.Iterate | src/di/injector.ts:155-166 | one full iteration yields the container first, then each parent up to the root; the captured cursor is left at the root |
| Injection.LazyResolver.constructor | src/di/lazy-resolver.ts:3-11 | a new handle is unresolved and holds its injector and target, with nothing resolved |
| Injection.LazyResolver.Resolve | src/di/lazy-resolver.ts:14-17 | the unresolved branch for a class target: resolved exactly when `resolveClass` succeeds, holding its result, with everything `resolveClass` promises |
| Injection.LazyResolver.ResolveTarget | src/di/lazy-resolver.ts:15 | `resolveClass` of the target, with everything `Resolved` promises |
| Injection.LazyResolver.Get | src/di/lazy-resolver.ts:13-21 | once resolved, returns the kept instance and touches no cache. Before that, it resolves the target and keeps the result exactly when resolution succeeds, staying unresolved on a throw; for a class target it gives everything `resolveClass` promises (`Resolved`), and the instance it builds is new |
| Injection.Injector.constructor | src/di/injector.ts:12-19 | without a container, builds a new root container from the seed; with one, uses it and ignores the seed; either way, registers the injector in the container's instances under `undefined` |
| Injection.Injector.ExtendWith | src/di/injector.ts:21-25 | a new injector over a new container with the given name and seed, whose parent is this injector's container, and which holds the new injector in its own instances; nothing existing changes |
| Injection.Injector.Parents | src/di/injector.ts:155-157 | a new iterable whose cursor starts at this injector's container |
| Injection.Injector.Walk | src/di/injector.ts:76 | one `for ... of this.parents()` visits the chain in order and changes no container on it |
| Injection.Injector.FindValue | src/di/injector.ts:75-81 | the nearest container's value, or an error exactly when no container holds the key |
| Injection.Injector.HasValue | src/di/injector.ts:83-89 | true iff some container on the chain holds the key |
| Injection.Injector.FindProvider | src/di/injector.ts:91-97 | the nearest container's provider, or an error exactly when none holds the key |
| Injection.Injector.HasProvider | src/di/injector.ts:99-105 | true iff some container on the chain holds a provider under the key |
| Injection.Injector.FindInstance | src/di/injector.ts:107-113 | the nearest container's cached instance, or an error exactly when none holds the key |
| Injection.Injector.HasInstance | src/di/injector.ts:115-121 | true iff some container on the chain caches an instance under the key |
| Injection.Injector.FindReference | src/di/injector.ts:123-129 | the class the nearest container maps the key to, or an error exactly when none does |
| Injection.Injector.HasReference | src/di/injector.ts:131-137 | true iff some container on the chain maps the key to a class |
| Injection.Injector.FindScope | src/di/injector.ts:139-145 | the nearest container with the name, or an error exactly when none has it |
| Injection.Injector.HasScope | src/di/injector.ts:147-153 | true iff some container on the chain has the name |
| Injection.Injector.ResolveClass | src/di/injector.ts:27-42 | (`Resolved`) a class that is not injectable throws and nothing changes; a cached instance anywhere on the chain is returned and nothing changes; otherwise a new instance built from the class's parameters (`Built`: the argument at each fixed position is that outcome's value, and at each lazy position a new, unresolved handle of this injector on that position's target), succeeding whenever every fixed position succeeds and no position is a nested resolution, kept only by the nearest container named by its scope (so found next time), or by none when no such container exists (so built anew next time); a fixed first failure is thrown and changes no cache; any failure leaves the class uncached; a class already under construction on the stack throws, and no class on the stack becomes cached; every cache change is one `CacheFrame` permits, and values, providers and references are untouched |
| Injection.Injector.CreateAndKeep | src/di/injector.ts:36-41 | (`Created`) a new instance built from the class's parameters (`Built`, with new unresolved handles at lazy positions), kept only in the nearest scope container; a construction whose first failure is a fixed outcome changes no cache; a failed construction leaves the class uncached; with no scope container, the class stays uncached whatever happens; a class already on the stack throws, and storing its instance leaves every class on the stack uncached |
| Injection.Injector.KeepInstance | src/di/injector.ts:38-39 | the caches become `Keep`: the instance is set under the class's reference in the nearest container named by its scope, and nothing changes when the chain has no such container |
| Injection.Injector.StoreInScope | src/di/injector.ts:38-39 | one entry is set in the cache of the chain's `j`th container, and no other map changes |
| Injection.Injector.ResolveProvider | src/di/injector.ts:44-48 | by the descriptor's outcome: throws `NoProvider` when no container holds a provider under the key; a fixed outcome is the result and no cache changes; a lazy one is a new unresolved handle of this injector on the target, and no cache changes; a nested one gives everything `resolveClass` of that class promises, and throws when that class is already under construction |
| Injection.Injector.Invoke | src/di/provider.ts:37-63 | the value provider returns `findValue` of its argument. The lazy provider returns a new unresolved resolver of this injector on its argument and touches no cache. The inject provider throws for a missing reference or a target that is neither a key nor a class; otherwise, for the nearest referenced class of a string or symbol, or for a class itself, it gives everything `resolveClass` promises, and throws when that class is already under construction. The two closure shapes return their argument or their constant |
| Injection.Injector.ResolveFunctionArguments | src/di/injector.ts:50-55 | the method's parameters resolved from its metadata, with the same guarantees as `ResolveParameters` (values at fixed positions, new unresolved handles at lazy ones, the fixed first failure thrown with no cache change, success when no position is nested and every fixed one succeeds) and no injectable check |
| Injection.Injector.ResolveParameters | src/di/injector.ts:57-65 | one value per declared type, each fixed position holding its outcome's value and each lazy position a new, unresolved handle of this injector on its target; a fixed first failure is thrown and no cache changes; when no position is a nested resolution and every fixed one succeeds, the call succeeds and the caches are unchanged; when the list belongs to a class already under construction, the call throws; nothing under construction becomes cached |
| Injection.Injector.ResolvePosition | src/di/injector.ts:58-64 | a position with a descriptor goes to its provider, otherwise to the declared class. A fixed outcome is the result and no cache changes; a lazy one is a new unresolved handle of this injector and no cache changes; a nested one (the declared class, or an injected class) gives everything `resolveClass` of that class promises. A position the stack already went through throws |
| Injection.Injector.CreateInstance | src/di/injector.ts:67-73 | a new instance of the class whose constructor arguments hold, at each position with a fixed outcome, that outcome's value, and at each lazy position a new, unresolved handle of this injector on its target; a fixed first failure is thrown and no cache changes; when no position is nested and every fixed one succeeds, the construction succeeds; a class already under construction throws, and the class stays uncached |
| Injection.Instance.constructor | src/di/injector.ts:72 | `new clazz(...parameters)` records its class and its constructor arguments |
| Scenarios.ChildValueShadowsParent | src/di/injector.spec.ts:74-92 | a child's value hides the parent's value under the same key, and a missing key throws |
| Scenarios.ParentValueVisible | src/di/injector.spec.ts:65-73 | a value only the parent holds is found from the child |
| Scenarios.ParentsOrder | src/di/injector.spec.ts:33-38 | `parents()` of an extended injector yields its container, then the root; iterating the same iterable again yields only the root |
| Scenarios.ScopesByName | src/di/injector.spec.ts:39-53 | the scope named `extension` is the current container, `root` is its parent, and an unknown name throws |
| Scenarios.RootInjector | src/di/injector.spec.ts:10-15 | `new Injector(seed)` has a single container called `root` holding the seed and the injector itself |
| Scenarios.ScopedClass | src/di/injectable.ts:12-15 | `@Injectable({scope})` on a class records reference symbol 0 and the scope |
| Scenarios.ResolveTwice | src/di/injector.ts:34-40 | two resolutions of an uncached class without parameters both succeed; the second returns the first instance when the chain has the scope container, and a different one when it has not |
| Scenarios.RootScopeResolvesOnce | src/di/injector.spec.ts:230-244 | a root-scoped class resolves to the same instance on two calls |
| Scenarios.RequestScopeResolvesEachTime | src/di/injector.spec.ts:245-259 | a request-scoped class resolved under a root-only chain gives two distinct instances |
| Scenarios.NotInjectableRejected | src/di/injector.spec.ts:216-220 | resolving a class never marked injectable throws |
| Scenarios.UnmarkedFunctionArguments | src/di/injector.ts:50-55 | an unmarked method without metadata resolves to `[]` |
| Scenarios.ProvidedClass | src/di/provider.spec.ts:13-22 | `@Provide(key, args)` on parameter 0 and `@Injectable({scope: 'root'})` on the class give the expected table |
| Scenarios.OneParameter | src/di/injector.ts:67-71 | that class has one parameter, whose outcome is its descriptor's |
| Scenarios.ConstantOutcomes | src/di/provider.spec.ts:13-44 | the provider `(injector, constant) => constant` gives the descriptor's first argument, or `undefined` without arguments |
| Scenarios.ValueOutcomes | src/di/provider.spec.ts:59-73 | `@Value('key')` with 100 stored under `key` resolves to 100 |
| Scenarios.InjectOutcomes | src/di/provider.spec.ts:121-137 | `@Inject` of a string with no reference is a missing reference; anything but a class, string or symbol is an invalid target |
| Scenarios.PinnedOne | src/di/injector.ts:57-65 | a single fixed position determines the argument list |
| Scenarios.BuildOne | src/di/injector.ts:67-73 | an uncached class whose one parameter has a fixed value is built with exactly that argument |
| Scenarios.FailOne | src/di/injector.ts:57-65 | an uncached class whose one parameter fails whatever the caches hold throws that error |
| Scenarios.ProvideConstant | src/di/provider.spec.ts:13-22 | the constructed instance receives 100 |
| Scenarios.ProvideWithoutArguments | src/di/provider.spec.ts:35-44 | the constructed instance receives `undefined` |
| Scenarios.ValueFromContainer | src/di/provider.spec.ts:59-73 | the constructed instance receives the container's value 100 |
| Scenarios.InjectInvalidTarget | src/di/provider.spec.ts:121-137 | `@Inject` of a non-string, non-class value makes resolution throw |
| Scenarios.InjectMissingReference | src/di/provider.ts:53-55 | `@Inject('key')` with no reference under `key` makes resolution throw |
| Scenarios.LazyOutcomes | src/di/provider.ts:44-48 | a `@Lazy(LazyService)` position of `Service` has the outcome of a handle on `LazyService`, and `LazyService` takes no parameters |
| Scenarios.ResolveService | src/di/lazy-resolver.spec.ts:8-31 | resolving an uncached `Service` with one lazy parameter succeeds, and its argument is a new unresolved handle of the same injector on `LazyService` |
| Scenarios.LazyAndValueOutcomes | src/di/provider.ts:37-48 | `Service(@Lazy(LazyService), @Value('missing'))` with no values: the lazy position succeeds and the value position is the first failure, `NoValue` |
| Scenarios.ResolveLazyThenValue | src/di/injector.ts:57-71 | resolving that class throws `NoValue` and leaves every cache as it was |
| Scenarios.LazyThenMissingValue | src/di/injector.ts:27-42 | on a new root injector, that resolution throws `NoValue` and `Service` is then not cached |
| Scenarios.GetTwice | src/di/lazy-resolver.ts:13-21 | two `get()` calls on an unresolved handle whose target is an injectable class without parameters both succeed and return the same instance |
| Scenarios.LazyResolvesOnce | src/di/lazy-resolver.spec.ts:8-31 | resolving `Service` through `resolveClass` succeeds with one argument, the lazy handle; its `get()` resolves `LazyService`, and a second `get()` returns the identical instance |

## Left out

- The reflection mechanism (`reflect-metadata`, compiler-emitted `design:paramtypes`) is replaced by an explicit store. Parameter types are given by `EmitClassParametersTypes` and `EmitFunctionParametersTypes`.
- Prototype-chain inheritance of metadata is not modelled. In the source a subclass reads its parent's reference and descriptor arrays; here every class has its own entries.
- Arbitrary provider closures are not modelled, only the three defaults and two closure shapes: return the first argument, or return a constant. `new clazz(...)` runs no user constructor code; it records the class and its arguments.
- JavaScript type errors are modelled only where the code checks the type: a target of the inject provider that is neither a string, a symbol nor a class gives `InvalidTarget`. A provider key with no provider on the chain gives `NoProvider`, the error `findProvider` throws before any call.
- A provider stored with the value `undefined` (a seed entry `{key, provider: undefined}`) is not representable: `Values.Provider` has no such case, so the `TypeError` that calling it raises is not modelled.
- `resolveClass` and `get()` on a target that is not an object: the source's `Reflect.hasMetadata` throws a `TypeError`. Here `ResolveClass` takes a class, and `Injection.LazyResolver.Get` on any other target returns `NotInjectable(target)`.
- Error messages are not modelled, only their kind and key. The source reuses the "instance" wording for `findReference`.
- The container `id` symbol is not modelled. Nothing in the engine reads it.
- `extendWith` assigns `parent` after construction. Here `Containers.Container.Child` sets it at construction, before any other code sees the container. `parent` is never reassigned afterwards, so Dafny keeps it constant.
- The metadata store is passed to resolution as a value. No resolution step writes it, so nothing is lost.
- Stack depth is the `fuel` parameter. In the source a cyclic dependency recurses until the stack overflows; here running out of fuel is `StackExhausted`.
- Injection.Injector.ResolveClass: weaker than the code where a parameter is resolved through a nested `resolveClass` of an injectable class. Such a position's result depends on the caches at that moment. So the contract does not give that argument's value, and promises success only when no position is nested. Fixed and lazy positions are fully stated.
- Injection.Injector.ResolveParameters: the same limit. Success is promised only when no position is nested and every fixed position succeeds.
- Injection.LazyResolver.Get: success is promised only when the target is cached, or can be built with no nested position. The handles inside an instance it builds are stated to be this injector's handles on their targets, but not to be new or unresolved; `ResolveClass` states both.
- Injection.LazyResolver.Resolve: the same as `Get` for the handles inside the instance it builds.
- Injection.Injector.CreateAndKeep: a construction that throws is proved to change no cache only when its first failure is a fixed outcome. When it throws after parameters built by nested constructions, their instances stay cached in their own scope containers, as in the source; the failing class itself is proved to stay uncached.
- Injection.Injector.CreateInstance: the arguments are given only at fixed and lazy positions, and success is promised only when no position is nested, because a nested construction depends on the caches at that moment.
- Injection.Injector.ResolveFunctionArguments: the same limit as `ResolveParameters`.
- Concurrency: the engine is single-threaded and synchronous.
- The Fastify plugin, controller binding and request lifecycle files are not part of this model.
