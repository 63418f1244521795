/**
 * The injector: lookups along the chain of containers, class resolution with
 * scoped caching, provider calls, and the two objects an injector hands out,
 * the `parents()` iterable and lazy resolvers. The three default providers'
 * behaviour lives here too, since it calls back into the injector.
 *
 * Resolution can recurse without bound through constructor parameters; `fuel`
 * is the depth of nested constructions the call stack can take, and running
 * out is the `RangeError` JavaScript throws on stack overflow.
 */
module Injection {
  import opened Wrappers
  import opened Values
  import opened Lookup
  import opened Decorators
  import opened Containers
  import opened Resolution

  /** An object built by `new clazz(...parameters)`. */
  class Instance {
    const clazz: ClassId
    const parameters: seq<Any>

    constructor (clazz: ClassId, parameters: seq<Any>)
      ensures this.clazz == clazz && this.parameters == parameters
    {
      this.clazz := clazz;
      this.parameters := parameters;
    }
  }

  /**
   * The object `parents()` returns. Its iterator moves the variable it
   * captured, so after one full iteration it stays at the root.
   */
  class ParentsIterable {
    var cursor: Container

    constructor (start: Container)
      ensures cursor == start
    {
      cursor := start;
    }

    /** One full `for ... of` over the iterable: the cursor's chain, nearest first. */
    method Iterate() returns (cs: seq<Container>)
      requires cursor.Linked()
      modifies this
      ensures cs == old(cursor).Chain()
      ensures cursor == cs[|cs| - 1] && cursor.Linked() && cursor.Ancestors == []
    {
      var c: Container := cursor;
      cs := [c];
      while c.parent != null
        invariant c.Linked()
        invariant |cs| > 0 && cs[|cs| - 1] == c
        invariant cs + c.Ancestors == old(cursor).Chain()
        decreases |c.Ancestors|
      {
        ParentLinked(c);
        var next: Container := c.parent;
        assert cs + [next] + next.Ancestors == cs + c.Ancestors;
        c := next;
        cs := cs + [c];
      }
      assert cs == old(cursor).Chain();
      cursor := c;
    }
  }

  /** A handle that resolves its target class the first time it is asked, then keeps the result. */
  class LazyResolver {
    var resolved: bool
    var instance: Any
    const injector: Injector
    const target: Any

    constructor (injector: Injector, target: Any)
      ensures this.injector == injector && this.target == target
      ensures !resolved && instance == Undefined
    {
      this.injector := injector;
      this.target := target;
      resolved := false;
      instance := Undefined;
    }

    /**
     * `get()`: the kept instance once resolved; otherwise resolves the target
     * and keeps it, and stays unresolved when resolution fails.
     */
    method Get(meta: Metadata, fuel: nat) returns (r: Result<Any, Error>)
      requires meta.Valid() && injector.Valid()
      modifies this`resolved, this`instance, injector.container.Chain()`instances
      ensures old(resolved) ==>
        r == Ok(old(instance)) && resolved && instance == old(instance) &&
        injector.InstanceChain() == old(injector.InstanceChain())
      ensures !old(resolved) ==> (resolved <==> r.Ok?) && instance == (if r.Ok? then r.value else old(instance))
      ensures !old(resolved) && !target.ClassRef? ==>
        r == Err(NotInjectable(target)) && injector.InstanceChain() == old(injector.InstanceChain())
      ensures !old(resolved) && target.ClassRef? ==>
        injector.ClassResolved(meta, target.c, fuel, old(injector.InstanceChain()), r)
      ensures !old(resolved) && target.ClassRef? && old(injector.Uncached(meta, target.c)) && r.Ok? ==>
        fresh(r.value.o)
      ensures injector.Framed(meta, old(injector.InstanceChain()))
      ensures injector.Environment(meta) == old(injector.Environment(meta))
    {
      if !resolved {
        if !target.ClassRef? {
          return Err(NotInjectable(target));
        }
        r := Resolve(meta, fuel);
      } else {
        return Ok(instance);
      }
    }

    /** The unresolved branch of `get()` for a class target: resolves it and keeps the outcome. */
    method Resolve(meta: Metadata, fuel: nat) returns (r: Result<Any, Error>)
      requires meta.Valid() && injector.Valid() && !resolved && target.ClassRef?
      modifies this`resolved, this`instance, injector.container.Chain()`instances
      ensures (resolved <==> r.Ok?) && instance == (if r.Ok? then r.value else old(instance))
      ensures injector.ClassResolved(meta, target.c, fuel, old(injector.InstanceChain()), r)
      ensures old(injector.Uncached(meta, target.c)) && r.Ok? ==> fresh(r.value.o)
      ensures injector.Framed(meta, old(injector.InstanceChain()))
      ensures injector.Environment(meta) == old(injector.Environment(meta))
    {
      r := ResolveTarget(meta, fuel);
      if r.Err? {
        return;
      }
      ghost var env, names, after := injector.Environment(meta), injector.NameChain(), injector.InstanceChain();
      label resolvedClass:
      instance := r.value;
      resolved := true;
      ContentsFramed@resolvedClass(injector);
      assert injector.Environment(meta) == env && injector.NameChain() == names && injector.InstanceChain() == after;
    }

    /** `resolveClass` on the target, as `get()` calls it; the handles it builds are not resolved here. */
    method ResolveTarget(meta: Metadata, fuel: nat) returns (r: Result<Any, Error>)
      requires meta.Valid() && injector.Valid() && target.ClassRef?
      modifies injector.container.Chain()`instances
      ensures injector.ClassResolved(meta, target.c, fuel, old(injector.InstanceChain()), r)
      ensures old(injector.Uncached(meta, target.c)) && r.Ok? ==> fresh(r.value.o)
      ensures injector.Framed(meta, old(injector.InstanceChain()))
      ensures injector.Environment(meta) == old(injector.Environment(meta))
    {
      r := injector.ResolveClass(meta, target.c, fuel, []);
    }
  }

  /** A change to objects off the chain leaves the chain's contents as they were. */
  twostate lemma ContentsFramed(inj: Injector)
    requires unchanged(inj.container.Chain())
    ensures inj.Contents() == old(inj.Contents())
  {
  }

  /** `v` is a lazy handle that `inj` handed out for `target`. */
  predicate IsHandle(inj: Injector, target: Any, v: Any) {
    v.ObjectRef? && v.o is LazyResolver && (v.o as LazyResolver).injector == inj && (v.o as LazyResolver).target == target
  }

  /** At every lazy position of `outs`, `vs` holds a handle `inj` handed out for that position's target. */
  ghost predicate Handles(inj: Injector, outs: seq<Outcome>, vs: seq<Any>) {
    forall i :: 0 <= i < |outs| && i < |vs| && outs[i].Handle? ==> IsHandle(inj, outs[i].target, vs[i])
  }

  /** A value that is a handle for the next position, if that one is lazy, extends `Handles`. */
  lemma HandlesSnoc(inj: Injector, outs: seq<Outcome>, vs: seq<Any>, v: Any)
    requires Handles(inj, outs, vs) && |vs| < |outs|
    requires outs[|vs|].Handle? ==> IsHandle(inj, outs[|vs|].target, v)
    ensures Handles(inj, outs, vs + [v])
  {
    forall i | 0 <= i < |outs| && i < |vs| + 1 && outs[i].Handle?
      ensures IsHandle(inj, outs[i].target, (vs + [v])[i])
    {
      if i < |vs| {
        assert (vs + [v])[i] == vs[i];
      }
    }
  }

  /** Position `i` is a lazy one and `vs` holds a lazy handle there. */
  predicate HandleAt(outs: seq<Outcome>, vs: seq<Any>, i: nat) {
    i < |outs| && i < |vs| && outs[i].Handle? && vs[i].ObjectRef? && vs[i].o is LazyResolver
  }

  /** The constructor arguments of an instance; none for any other value. */
  function Arguments(v: Any): seq<Any> {
    if v.ObjectRef? && v.o is Instance then (v.o as Instance).parameters else []
  }

  /**
   * `v` is a new instance of `c` built by `inj`: its constructor arguments
   * are pinned wherever their outcome is fixed, and are `inj`'s handles on
   * the targets at lazy positions.
   */
  ghost predicate Built(inj: Injector, outs: seq<Outcome>, c: ClassId, v: Any) {
    && v.ObjectRef? && v.o is Instance
    && (v.o as Instance).clazz == c
    && Pinned(outs, (v.o as Instance).parameters)
    && Handles(inj, outs, (v.o as Instance).parameters)
  }

  /**
   * What `resolveClass(c)` promises, given the caches `before` and `after` it
   * ran: a class that is not injectable is rejected and a cached one is
   * returned, both touching nothing; an uncached one is `Created`.
   */
  ghost predicate Resolved(inj: Injector, env: Env, names: seq<string>, c: ClassId, fuel: nat,
                           before: seq<map<Any, Any>>, after: seq<map<Any, Any>>, r: Result<Any, Error>) {
    && (!env.meta.IsInjectableClass(c) ==> r == Err(NotInjectable(ClassRef(c))) && after == before)
    && (env.meta.IsInjectableClass(c) && Nearest(before, env.meta.classTokens[c]).Some? ==>
          r == Ok(Nearest(before, env.meta.classTokens[c]).value) && after == before)
    && (env.meta.IsInjectableClass(c) && Nearest(before, env.meta.classTokens[c]).None? ==>
          Created(inj, env, names, c, fuel, before, after, r))
  }

  /**
   * The uncached branch of `resolveClass(c)`: the stack must have room; the
   * instance is built from the constructor outcomes; a fixed first failure is
   * that failure and leaves the caches as they were; any failure leaves the
   * class uncached; success keeps the new instance exactly in the class's
   * scope container, if the chain has one, and a class without one stays
   * uncached.
   */
  ghost predicate Created(inj: Injector, env: Env, names: seq<string>, c: ClassId, fuel: nat,
                          before: seq<map<Any, Any>>, after: seq<map<Any, Any>>, r: Result<Any, Error>) {
    && c in env.meta.classTokens
    && (fuel == 0 ==> r == Err(StackExhausted) && after == before)
    && (r.Ok? ==> Built(inj, ClassOutcomes(env, c), c, r.value))
    && (r.Err? ==> Nearest(after, env.meta.classTokens[c]).None?)
    && (fuel > 0 ==>
          forall i: nat :: FailsAt(ClassOutcomes(env, c), i) ==>
            r == Err(ClassOutcomes(env, c)[i].result.error) && after == before)
    && (fuel > 0 && OkBefore(ClassOutcomes(env, c), |env.meta.ClassParametersTypes(c)|) ==>
          r.Ok? && after == Keep(env.meta, names, c, before, r.value))
    && (r.Ok? && ScopeSlot(env.meta, names, c).Some? ==> Nearest(after, env.meta.classTokens[c]) == Some(r.value))
    && (ScopeSlot(env.meta, names, c).None? ==> Nearest(after, env.meta.classTokens[c]).None?)
  }

  /** With no room left on the stack, nothing is built and nothing changes. */
  lemma CreatedExhausted(inj: Injector, env: Env, names: seq<string>, c: ClassId, before: seq<map<Any, Any>>)
    requires c in env.meta.classTokens && Nearest(before, env.meta.classTokens[c]).None?
    ensures Created(inj, env, names, c, 0, before, before, Err(StackExhausted))
  {
  }

  /** A failed construction that left the class uncached. */
  lemma CreatedFailed(inj: Injector, env: Env, names: seq<string>, c: ClassId, fuel: nat,
                      before: seq<map<Any, Any>>, after: seq<map<Any, Any>>, e: Error)
    requires env.meta.Valid() && c in env.meta.classTokens && Nearest(before, env.meta.classTokens[c]).None?
    requires fuel > 0 && CacheFrame(env.meta.classTokens, env.meta.scopes, names, before, after)
    requires Nearest(after, env.meta.classTokens[c]).None?
    requires forall i: nat :: FailsAt(ClassOutcomes(env, c), i) ==>
      e == ClassOutcomes(env, c)[i].result.error && after == before
    requires !OkBefore(ClassOutcomes(env, c), |env.meta.ClassParametersTypes(c)|)
    ensures Created(inj, env, names, c, fuel, before, after, Err(e))
  {
  }

  /** A built instance stored in the class's scope container at the slot `ScopeSlot` names. */
  lemma CreatedKept(inj: Injector, env: Env, names: seq<string>, c: ClassId, fuel: nat,
                    before: seq<map<Any, Any>>, mid: seq<map<Any, Any>>, v: Any)
    requires env.meta.Valid() && c in env.meta.classTokens && Nearest(before, env.meta.classTokens[c]).None?
    requires fuel > 0 && CacheFrame(env.meta.classTokens, env.meta.scopes, names, before, mid)
    requires Built(inj, ClassOutcomes(env, c), c, v)
    requires OkBefore(ClassOutcomes(env, c), |env.meta.ClassParametersTypes(c)|) ==> mid == before
    requires ScopeSlot(env.meta, names, c).Some? && ScopeSlot(env.meta, names, c).value < |mid|
    ensures Created(inj, env, names, c, fuel, before, Keep(env.meta, names, c, mid, v), Ok(v))
    ensures CacheFrame(env.meta.classTokens, env.meta.scopes, names, before, Keep(env.meta, names, c, mid, v))
  {
    KeepInScope(env.meta, names, before, mid, c, v);
  }

  /** A built instance of a class whose scope the chain does not name: it is not cached anywhere. */
  lemma CreatedUnkept(inj: Injector, env: Env, names: seq<string>, c: ClassId, fuel: nat,
                      before: seq<map<Any, Any>>, after: seq<map<Any, Any>>, v: Any)
    requires env.meta.Valid() && c in env.meta.classTokens && Nearest(before, env.meta.classTokens[c]).None?
    requires fuel > 0 && CacheFrame(env.meta.classTokens, env.meta.scopes, names, before, after)
    requires Built(inj, ClassOutcomes(env, c), c, v)
    requires OkBefore(ClassOutcomes(env, c), |env.meta.ClassParametersTypes(c)|) ==> after == before
    requires ScopeSlot(env.meta, names, c).None?
    ensures Created(inj, env, names, c, fuel, before, after, Ok(v))
  {
    NoSlotNoCache(env.meta, names, before, after, c);
  }

  class Injector {
    const container: Container

    /** The injector's container chain is finite and follows `parent` links. */
    ghost predicate Valid() {
      container.Linked()
    }

    ghost function ValueChain(): seq<map<Any, Any>>
      reads container.Chain()`values
    {
      ValueMaps(container.Chain())
    }

    ghost function ProviderChain(): seq<map<Any, Provider>>
      reads container.Chain()`providers
    {
      ProviderMaps(container.Chain())
    }

    ghost function InstanceChain(): seq<map<Any, Any>>
      reads container.Chain()`instances
    {
      InstanceMaps(container.Chain())
    }

    ghost function ReferenceChain(): seq<map<Any, ClassId>>
      reads container.Chain()`references
    {
      ReferenceMaps(container.Chain())
    }

    ghost function NameChain(): seq<string> {
      Names(container.Chain())
    }

    /** The four maps of every container on the chain; the lookups leave them as they are. */
    ghost function Contents(): (seq<map<Any, Any>>, seq<map<Any, Provider>>, seq<map<Any, Any>>, seq<map<Any, ClassId>>)
      reads container.Chain()`values, container.Chain()`providers, container.Chain()`instances,
            container.Chain()`references
    {
      (ValueChain(), ProviderChain(), InstanceChain(), ReferenceChain())
    }

    /** What resolution reads and never writes. */
    ghost function Environment(meta: Metadata): Env
      reads container.Chain()`providers, container.Chain()`values, container.Chain()`references
    {
      Env(ProviderChain(), ValueChain(), ReferenceChain(), meta)
    }

    /** Since `before`, the instance caches changed only as a resolution may change them. */
    ghost predicate Framed(meta: Metadata, before: seq<map<Any, Any>>)
      reads container.Chain()`instances
    {
      CacheFrame(meta.classTokens, meta.scopes, NameChain(), before, InstanceChain())
    }

    /** Class `c` is injectable and no container on the chain caches its instance. */
    ghost predicate Uncached(meta: Metadata, c: ClassId)
      reads container.Chain()`instances
    {
      c in meta.classTokens && Nearest(InstanceChain(), meta.classTokens[c]).None?
    }

    /** `Resolved` on this injector's chain, with the cache contents now as the caches after. */
    ghost predicate ClassResolved(meta: Metadata, c: ClassId, fuel: nat, before: seq<map<Any, Any>>, r: Result<Any, Error>)
      reads container.Chain()`instances, container.Chain()`providers, container.Chain()`values,
            container.Chain()`references
    {
      Resolved(this, Environment(meta), NameChain(), c, fuel, before, InstanceChain(), r)
    }

    /**
     * `new Injector(initialValues, container)`: a new root container built from
     * the seed when none is given; either way the injector registers itself in
     * its container's instances under `getClassInjectionReference(Injector)`,
     * which is `undefined`.
     */
    constructor (initialValues: Option<Seed>, given: Container?)
      modifies (if given == null then {} else {given})`instances
      ensures given != null ==> container == given
      ensures given == null ==>
        && fresh(container) && container.name == "root" && container.parent == null
        && container.Ancestors == []
        && container.values == Assign(map[], SeedValues(initialValues))
        && container.providers == Assign(DefaultProviderMap(), SeedProviders(initialValues))
        && container.references == Assign(map[], SeedReferences(initialValues))
      ensures container.instances ==
        (if given == null then Assign(map[], SeedInstances(initialValues)) else old(given.instances))
          [Undefined := ObjectRef(this)]
      ensures given == null || given.Linked() ==> Valid()
    {
      if given == null {
        container := new Container("root", initialValues);
      } else {
        container := given;
      }
      new;
      container.instances := container.instances[Undefined := ObjectRef(this)];
    }

    /** `extendWith`: an injector over a new child container whose parent is this injector's container. */
    method ExtendWith(name: string, initialValues: Option<Seed>) returns (child: Injector)
      requires Valid()
      ensures Valid() && child.Valid()
      ensures fresh(child) && fresh(child.container)
      ensures child.container.name == name && child.container.parent == container
      ensures child.container.Ancestors == container.Chain()
      ensures child.container.values == Assign(map[], SeedValues(initialValues))
      ensures child.container.providers == Assign(DefaultProviderMap(), SeedProviders(initialValues))
      ensures child.container.references == Assign(map[], SeedReferences(initialValues))
      ensures child.container.instances ==
        Assign(map[], SeedInstances(initialValues))[Undefined := ObjectRef(child)]
    {
      var childContainer := new Container.Child(name, initialValues, container);
      child := new Injector(Some(EmptySeed), childContainer);
    }

    /** `parents()`: an iterable over this injector's chain. */
    method Parents() returns (it: ParentsIterable)
      ensures fresh(it) && it.cursor == container
    {
      it := new ParentsIterable(container);
    }

    /** One `for ... of this.parents()`: the chain, nearest first; the walk only moves its own cursor. */
    method Walk() returns (cs: seq<Container>)
      requires Valid()
      ensures cs == container.Chain()
      ensures unchanged(container.Chain())
    {
      var it := Parents();
      cs := it.Iterate();
      assert unchanged(container.Chain());
    }

    /** `findValue`: the nearest container's value for `key`. */
    method FindValue(key: Any) returns (r: Result<Any, Error>)
      requires Valid()
      ensures r == FoundOr(Nearest(ValueChain(), key), NoValue(key))
      ensures unchanged(container.Chain())
    {
      var cs := Walk();
      ghost var ms := ValueChain();
      assert forall j :: 0 <= j < |cs| ==> ms[j] == cs[j].values;
      for i := 0 to |cs|
        invariant forall j :: 0 <= j < i ==> key !in ms[j]
      {
        if key in cs[i].values {
          NearestAt(ms, key, i);
          return Ok(cs[i].values[key]);
        }
      }
      return Err(NoValue(key));
    }

    /** `hasValue`: some container on the chain holds a value for `key`. */
    method HasValue(key: Any) returns (b: bool)
      requires Valid()
      ensures b <==> Nearest(ValueChain(), key).Some?
      ensures unchanged(container.Chain())
    {
      var cs := Walk();
      ghost var ms := ValueChain();
      assert forall j :: 0 <= j < |cs| ==> ms[j] == cs[j].values;
      for i := 0 to |cs|
        invariant forall j :: 0 <= j < i ==> key !in ms[j]
      {
        if key in cs[i].values {
          NearestAt(ms, key, i);
          return true;
        }
      }
      return false;
    }

    /** `findProvider`: the nearest container's provider for `key`. */
    method FindProvider(key: Any) returns (r: Result<Provider, Error>)
      requires Valid()
      ensures r == FoundOr(Nearest(ProviderChain(), key), NoProvider(key))
      ensures unchanged(container.Chain())
    {
      var cs := Walk();
      ghost var ms := ProviderChain();
      assert forall j :: 0 <= j < |cs| ==> ms[j] == cs[j].providers;
      for i := 0 to |cs|
        invariant forall j :: 0 <= j < i ==> key !in ms[j]
      {
        if key in cs[i].providers {
          NearestAt(ms, key, i);
          return Ok(cs[i].providers[key]);
        }
      }
      return Err(NoProvider(key));
    }

    /** `hasProvider`: some container on the chain holds a provider for `key`. */
    method HasProvider(key: Any) returns (b: bool)
      requires Valid()
      ensures b <==> Nearest(ProviderChain(), key).Some?
      ensures unchanged(container.Chain())
    {
      var cs := Walk();
      ghost var ms := ProviderChain();
      assert forall j :: 0 <= j < |cs| ==> ms[j] == cs[j].providers;
      for i := 0 to |cs|
        invariant forall j :: 0 <= j < i ==> key !in ms[j]
      {
        if key in cs[i].providers {
          NearestAt(ms, key, i);
          return true;
        }
      }
      return false;
    }

    /** `findInstance`: the nearest container's cached instance for `key`. */
    method FindInstance(key: Any) returns (r: Result<Any, Error>)
      requires Valid()
      ensures r == FoundOr(Nearest(InstanceChain(), key), NoInstance(key))
      ensures unchanged(container.Chain())
    {
      var cs := Walk();
      ghost var ms := InstanceChain();
      assert forall j :: 0 <= j < |cs| ==> ms[j] == cs[j].instances;
      for i := 0 to |cs|
        invariant forall j :: 0 <= j < i ==> key !in ms[j]
      {
        if key in cs[i].instances {
          NearestAt(ms, key, i);
          return Ok(cs[i].instances[key]);
        }
      }
      return Err(NoInstance(key));
    }

    /** `hasInstance`: some container on the chain caches an instance for `key`. */
    method HasInstance(key: Any) returns (b: bool)
      requires Valid()
      ensures b <==> Nearest(InstanceChain(), key).Some?
      ensures unchanged(container.Chain())
    {
      var cs := Walk();
      ghost var ms := InstanceChain();
      assert forall j :: 0 <= j < |cs| ==> ms[j] == cs[j].instances;
      for i := 0 to |cs|
        invariant forall j :: 0 <= j < i ==> key !in ms[j]
      {
        if key in cs[i].instances {
          NearestAt(ms, key, i);
          return true;
        }
      }
      return false;
    }

    /** `findReference`: the class the nearest container maps `key` to. */
    method FindReference(key: Any) returns (r: Result<ClassId, Error>)
      requires Valid()
      ensures r == FoundOr(Nearest(ReferenceChain(), key), NoReference(key))
      ensures unchanged(container.Chain())
    {
      var cs := Walk();
      ghost var ms := ReferenceChain();
      assert forall j :: 0 <= j < |cs| ==> ms[j] == cs[j].references;
      for i := 0 to |cs|
        invariant forall j :: 0 <= j < i ==> key !in ms[j]
      {
        if key in cs[i].references {
          NearestAt(ms, key, i);
          return Ok(cs[i].references[key]);
        }
      }
      return Err(NoReference(key));
    }

    /** `hasReference`: some container on the chain maps `key` to a class. */
    method HasReference(key: Any) returns (b: bool)
      requires Valid()
      ensures b <==> Nearest(ReferenceChain(), key).Some?
      ensures unchanged(container.Chain())
    {
      var cs := Walk();
      ghost var ms := ReferenceChain();
      assert forall j :: 0 <= j < |cs| ==> ms[j] == cs[j].references;
      for i := 0 to |cs|
        invariant forall j :: 0 <= j < i ==> key !in ms[j]
      {
        if key in cs[i].references {
          NearestAt(ms, key, i);
          return true;
        }
      }
      return false;
    }

    /** `findScope`: the nearest container on the chain called `name`. */
    method FindScope(name: string) returns (r: Result<Container, Error>)
      requires Valid()
      ensures r.Ok? <==> NearestName(NameChain(), name).Some?
      ensures r.Ok? ==> r.value == container.Chain()[NearestName(NameChain(), name).value]
      ensures r.Err? ==> r == Err(NoScope(name))
      ensures unchanged(container.Chain())
    {
      var cs := Walk();
      ghost var ns := NameChain();
      assert forall j :: 0 <= j < |cs| ==> ns[j] == cs[j].name;
      for i := 0 to |cs|
        invariant forall j :: 0 <= j < i ==> ns[j] != name
      {
        if cs[i].name == name {
          NearestNameAt(ns, name, i);
          return Ok(cs[i]);
        }
      }
      return Err(NoScope(name));
    }

    /** `hasScope`: some container on the chain is called `name`. */
    method HasScope(name: string) returns (b: bool)
      requires Valid()
      ensures b <==> NearestName(NameChain(), name).Some?
      ensures unchanged(container.Chain())
    {
      var cs := Walk();
      ghost var ns := NameChain();
      assert forall j :: 0 <= j < |cs| ==> ns[j] == cs[j].name;
      for i := 0 to |cs|
        invariant forall j :: 0 <= j < i ==> ns[j] != name
      {
        if cs[i].name == name {
          NearestNameAt(ns, name, i);
          return true;
        }
      }
      return false;
    }

    /**
     * `resolveClass`: an injectable class's nearest cached instance, or a new
     * one, kept in the nearest container named by the class's scope when there
     * is one.
     */
    method ResolveClass(meta: Metadata, c: ClassId, fuel: nat, ghost frames: seq<Frame>) returns (r: Result<Any, Error>)
      requires meta.Valid() && Valid()
      requires Chained(Environment(meta), frames, Some(c)) && StackUncached(meta, frames, InstanceChain())
      modifies container.Chain()`instances
      decreases fuel, 1
      ensures Framed(meta, old(InstanceChain()))
      ensures Environment(meta) == old(Environment(meta))
      ensures ClassResolved(meta, c, fuel, old(InstanceChain()), r)
      ensures old(Uncached(meta, c)) && r.Ok? ==> fresh(r.value.o)
      ensures old(Uncached(meta, c)) && r.Ok? ==>
        forall j: nat :: HandleAt(ClassOutcomes(Environment(meta), c), Arguments(r.value), j) ==>
          fresh(Arguments(r.value)[j].o) && !(Arguments(r.value)[j].o as LazyResolver).resolved
      ensures StackUncached(meta, frames, InstanceChain())
      ensures OnStack(frames, c) ==> r.Err?
    {
      if !meta.IsInjectableClass(c) {
        return Err(NotInjectable(ClassRef(c)));
      }
      var reference := meta.ClassInjectionReference(c);
      var scope := meta.Scope(c);
      var cached := HasInstance(reference);
      ContentsFramed(this);
      if cached {
        label probed:
        r := FindInstance(reference);
        ContentsFramed@probed(this);
        return;
      }
      r := CreateAndKeep(meta, c, reference, scope, fuel, frames);
    }

    /**
     * The uncached branch of `resolveClass`: a new instance, stored in the
     * scope container when the chain has one of that name.
     */
    method CreateAndKeep(meta: Metadata, c: ClassId, reference: Any, scope: Option<string>, fuel: nat,
                         ghost frames: seq<Frame>)
      returns (r: Result<Any, Error>)
      requires meta.Valid() && Valid() && Uncached(meta, c)
      requires reference == meta.ClassInjectionReference(c) && scope == meta.Scope(c)
      requires Chained(Environment(meta), frames, Some(c)) && StackUncached(meta, frames, InstanceChain())
      modifies container.Chain()`instances
      decreases fuel, 0
      ensures Framed(meta, old(InstanceChain()))
      ensures Environment(meta) == old(Environment(meta))
      ensures ClassResolved(meta, c, fuel, old(InstanceChain()), r)
      ensures r.Ok? ==> fresh(r.value.o)
      ensures r.Ok? ==> forall j: nat :: HandleAt(ClassOutcomes(Environment(meta), c), Arguments(r.value), j) ==>
        fresh(Arguments(r.value)[j].o) && !(Arguments(r.value)[j].o as LazyResolver).resolved
      ensures StackUncached(meta, frames, InstanceChain())
      ensures OnStack(frames, c) ==> r.Err?
    {
      ghost var before := InstanceChain();
      if fuel == 0 {
        CreatedExhausted(this, Environment(meta), NameChain(), c, before);
        return Err(StackExhausted);
      }
      r := CreateInstance(meta, c, fuel - 1, frames);
      if r.Err? {
        CreatedFailed(this, Environment(meta), NameChain(), c, fuel, before, InstanceChain(), r.error);
        return;
      }
      ghost var mid := InstanceChain();
      KeepInstance(meta, c, reference, scope, r.value);
      if ScopeSlot(meta, NameChain(), c).Some? {
        CreatedKept(this, Environment(meta), NameChain(), c, fuel, before, mid, r.value);
        KeepOthersUncached(meta, NameChain(), frames, c, mid, r.value);
      } else {
        CreatedUnkept(this, Environment(meta), NameChain(), c, fuel, before, InstanceChain(), r.value);
      }
    }

    /**
     * The store after a construction: `v` goes into the cache of the nearest
     * container named by the class's scope, when the chain has one.
     */
    method KeepInstance(meta: Metadata, c: ClassId, reference: Any, scope: Option<string>, v: Any)
      requires meta.Valid() && Valid() && c in meta.classTokens
      requires reference == meta.ClassInjectionReference(c) && scope == meta.Scope(c)
      modifies container.Chain()`instances
      ensures InstanceChain() == Keep(meta, NameChain(), c, old(InstanceChain()), v)
      ensures Environment(meta) == old(Environment(meta))
    {
      if scope.Some? {
        label created:
        var has := HasScope(scope.value);
        ContentsFramed@created(this);
        if has {
          label probed:
          var found := FindScope(scope.value);
          ContentsFramed@probed(this);
          StoreInScope(meta, found.value, NearestName(NameChain(), scope.value).value, reference, v);
        }
      }
    }

    /** `findScope(scope).instances.set(reference, instance)`: one entry in the `j`th container's cache. */
    method StoreInScope(meta: Metadata, found: Container, ghost j: nat, key: Any, v: Any)
      requires Valid() && j < |container.Chain()| && found == container.Chain()[j]
      modifies found`instances
      ensures InstanceChain() == old(InstanceChain())[j := old(InstanceChain())[j][key := v]]
      ensures Environment(meta) == old(Environment(meta))
    {
      ChainDistinct(container);
      found.instances := found.instances[key := v];
    }

    /** `resolveProvider`: calls the nearest provider registered under the descriptor's key with its arguments. */
    method ResolveProvider(meta: Metadata, d: ProviderParameters, fuel: nat, ghost frames: seq<Frame>)
      returns (r: Result<Any, Error>)
      requires meta.Valid() && Valid()
      requires Chained(Environment(meta), frames, ProviderClass(Environment(meta), d))
      requires StackUncached(meta, frames, InstanceChain())
      modifies container.Chain()`instances
      decreases fuel, 3
      ensures StackUncached(meta, frames, InstanceChain())
      ensures ProviderClass(Environment(meta), d).Some? && OnStack(frames, ProviderClass(Environment(meta), d).value) ==>
        r.Err?
      ensures Framed(meta, old(InstanceChain()))
      ensures Environment(meta) == old(Environment(meta))
      ensures ProviderOutcome(Environment(meta), d).Fixed? ==>
        r == ProviderOutcome(Environment(meta), d).result && InstanceChain() == old(InstanceChain())
      ensures ProviderOutcome(Environment(meta), d).Handle? ==>
        r.Ok? && IsHandle(this, ProviderOutcome(Environment(meta), d).target, r.value) && fresh(r.value.o) &&
        !(r.value.o as LazyResolver).resolved && InstanceChain() == old(InstanceChain())
      ensures ProviderOutcome(Environment(meta), d).Nested? ==>
        ClassResolved(meta, ProviderOutcome(Environment(meta), d).c, fuel, old(InstanceChain()), r)
      ensures ProviderOutcome(Environment(meta), d).Nested? &&
              old(Uncached(meta, ProviderOutcome(Environment(meta), d).c)) && r.Ok? ==>
        fresh(r.value.o)
    {
      var provider := FindProvider(d.key);
      ContentsFramed(this);
      if provider.Err? {
        return Err(provider.error);
      }
      r := Invoke(meta, provider.value, d.args, fuel, frames);
    }

    /** `provider(this, ...args)` for the three default providers and the two closure shapes. */
    method Invoke(meta: Metadata, p: Provider, args: seq<Any>, fuel: nat, ghost frames: seq<Frame>)
      returns (r: Result<Any, Error>)
      requires meta.Valid() && Valid()
      requires Chained(Environment(meta), frames, CallClass(Environment(meta), p, args))
      requires StackUncached(meta, frames, InstanceChain())
      modifies container.Chain()`instances
      decreases fuel, 2
      ensures StackUncached(meta, frames, InstanceChain())
      ensures CallClass(Environment(meta), p, args).Some? && OnStack(frames, CallClass(Environment(meta), p, args).value) ==>
        r.Err?
      ensures Framed(meta, old(InstanceChain()))
      ensures Environment(meta) == old(Environment(meta))
      ensures CallOutcome(Environment(meta), p, args).Fixed? ==>
        r == CallOutcome(Environment(meta), p, args).result && InstanceChain() == old(InstanceChain())
      ensures CallOutcome(Environment(meta), p, args).Handle? ==>
        r.Ok? && IsHandle(this, CallOutcome(Environment(meta), p, args).target, r.value) && fresh(r.value.o) &&
        !(r.value.o as LazyResolver).resolved && InstanceChain() == old(InstanceChain())
      ensures CallOutcome(Environment(meta), p, args).Nested? ==>
        ClassResolved(meta, CallOutcome(Environment(meta), p, args).c, fuel, old(InstanceChain()), r)
      ensures CallOutcome(Environment(meta), p, args).Nested? &&
              old(Uncached(meta, CallOutcome(Environment(meta), p, args).c)) && r.Ok? ==>
        fresh(r.value.o)
    {
      var target := FirstArg(args);
      match p
      case ValueLookup =>
        r := FindValue(target);
        ContentsFramed(this);
      case LazyHandle =>
        var lazy := new LazyResolver(this, target);
        ContentsFramed(this);
        r := Ok(ObjectRef(lazy));
      case ReturnArgument =>
        r := Ok(target);
      case Constant(v) =>
        r := Ok(v);
      case InjectTarget =>
        if target.IsStringOrSymbol() {
          var useClass := FindReference(target);
          ContentsFramed(this);
          if useClass.Err? {
            return Err(useClass.error);
          }
          r := ResolveClass(meta, useClass.value, fuel, frames);
        } else if target.ClassRef? {
          r := ResolveClass(meta, target.c, fuel, frames);
        } else {
          r := Err(InvalidTarget(target));
        }
    }

    /** `resolveFunctionArguments`: the arguments of an injectable method, from its parameter metadata. */
    method ResolveFunctionArguments(meta: Metadata, owner: ClassId, functionName: Any, fuel: nat)
      returns (r: Result<seq<Any>, Error>)
      requires meta.Valid() && Valid()
      modifies container.Chain()`instances
      ensures Framed(meta, old(InstanceChain()))
      ensures Environment(meta) == old(Environment(meta))
      ensures r.Ok? ==>
        Pinned(Outcomes(Environment(meta), meta.FunctionParametersTypes(owner, functionName),
                        meta.FunctionParametersProvider(owner, functionName)), r.value) &&
        Handles(this, Outcomes(Environment(meta), meta.FunctionParametersTypes(owner, functionName),
                               meta.FunctionParametersProvider(owner, functionName)), r.value)
      ensures r.Ok? ==>
        forall j: nat :: HandleAt(Outcomes(Environment(meta), meta.FunctionParametersTypes(owner, functionName),
                                           meta.FunctionParametersProvider(owner, functionName)), r.value, j) ==>
          fresh(r.value[j].o) && !(r.value[j].o as LazyResolver).resolved
      ensures forall i: nat ::
        FailsAt(Outcomes(Environment(meta), meta.FunctionParametersTypes(owner, functionName),
                         meta.FunctionParametersProvider(owner, functionName)), i) ==>
        r == Err(Outcomes(Environment(meta), meta.FunctionParametersTypes(owner, functionName),
                          meta.FunctionParametersProvider(owner, functionName))[i].result.error) &&
        InstanceChain() == old(InstanceChain())
      ensures OkBefore(Outcomes(Environment(meta), meta.FunctionParametersTypes(owner, functionName),
                                meta.FunctionParametersProvider(owner, functionName)),
                       |meta.FunctionParametersTypes(owner, functionName)|) ==>
        r.Ok? && InstanceChain() == old(InstanceChain())
    {
      var parametersTypes := meta.FunctionParametersTypes(owner, functionName);
      var providers := meta.FunctionParametersProvider(owner, functionName);
      r := ResolveParameters(meta, parametersTypes, providers, fuel, None, []);
    }

    /**
     * `resolveParameters`: resolves each declared position in order and stops
     * at the first failure. `building` is the class whose constructor the
     * parameters belong to, if any; a class already under construction fails,
     * since the position the stack went through resolves back onto the stack.
     */
    method ResolveParameters(meta: Metadata, types: seq<ClassId>, providers: Sparse, fuel: nat,
                             ghost building: Option<ClassId>, ghost frames: seq<Frame>)
      returns (r: Result<seq<Any>, Error>)
      requires meta.Valid() && Valid()
      requires ForPositions(Environment(meta), types, providers, building, frames)
      requires Building(meta, building, frames, InstanceChain())
      modifies container.Chain()`instances
      decreases fuel, 5
      ensures Building(meta, building, frames, InstanceChain())
      ensures building.Some? && OnStack(frames, building.value) ==> r.Err?
      ensures Framed(meta, old(InstanceChain()))
      ensures Environment(meta) == old(Environment(meta))
      ensures r.Ok? ==>
        Pinned(Outcomes(Environment(meta), types, providers), r.value) &&
        Handles(this, Outcomes(Environment(meta), types, providers), r.value)
      ensures r.Ok? ==> forall j: nat :: HandleAt(Outcomes(Environment(meta), types, providers), r.value, j) ==>
        fresh(r.value[j].o) && !(r.value[j].o as LazyResolver).resolved
      ensures forall i: nat :: FailsAt(Outcomes(Environment(meta), types, providers), i) ==>
        r == Err(Outcomes(Environment(meta), types, providers)[i].result.error) && InstanceChain() == old(InstanceChain())
      ensures OkBefore(Outcomes(Environment(meta), types, providers), |types|) ==>
        r.Ok? && InstanceChain() == old(InstanceChain())
    {
      ghost var env := Environment(meta);
      ghost var outs := Outcomes(env, types, providers);
      ProgressStart(env, NameChain(), types, providers, building, frames, InstanceChain());
      var parameters: seq<Any> := [];
      for i := 0 to |types|
        invariant Environment(meta) == env
        invariant Progress(env, NameChain(), types, providers, building, frames, i, parameters,
                           old(InstanceChain()), InstanceChain())
        invariant Handles(this, outs, parameters)
        invariant forall j: nat :: HandleAt(outs, parameters, j) ==>
          fresh(parameters[j].o) && !(parameters[j].o as LazyResolver).resolved
      {
        ghost var pre := InstanceChain();
        var v := ResolvePosition(meta, types, providers, i, fuel, building, frames);
        assert Outcomes(Environment(meta), types, providers) == outs;
        if v.Ok? {
          HandlesSnoc(this, outs, parameters, v.value);
          forall j: nat | HandleAt(outs, parameters + [v.value], j)
            ensures fresh((parameters + [v.value])[j].o) && !((parameters + [v.value])[j].o as LazyResolver).resolved
          {
            if j < |parameters| {
              assert HandleAt(outs, parameters, j);
            } else {
              assert j == i && outs[i].Handle? && (parameters + [v.value])[j] == v.value;
            }
          }
        }
        if v.Err? {
          ProgressFail(env, NameChain(), types, providers, building, frames, i, parameters,
                       old(InstanceChain()), pre, InstanceChain(), v.error);
          return Err(v.error);
        }
        ProgressStep(env, NameChain(), types, providers, building, frames, i, parameters,
                     old(InstanceChain()), pre, InstanceChain(), v.value);
        parameters := parameters + [v.value];
      }
      ProgressDone(env, NameChain(), types, providers, building, frames, parameters,
                   old(InstanceChain()), InstanceChain());
      return Ok(parameters);
    }

    /**
     * The callback `resolveParameters` maps over the positions: a descriptor's
     * provider, or the declared class. While it runs, position `i` of
     * `building` is on the stack; if the stack already went through that very
     * position, resolution comes back onto the stack and fails.
     */
    method ResolvePosition(meta: Metadata, types: seq<ClassId>, providers: Sparse, i: nat, fuel: nat,
                           ghost building: Option<ClassId>, ghost frames: seq<Frame>)
      returns (r: Result<Any, Error>)
      requires meta.Valid() && Valid() && i < |types|
      requires ForPositions(Environment(meta), types, providers, building, frames)
      requires Building(meta, building, frames, InstanceChain())
      modifies container.Chain()`instances
      decreases fuel, 4
      ensures Building(meta, building, frames, InstanceChain())
      ensures Revisits(frames, building, i) ==> r.Err?
      ensures Framed(meta, old(InstanceChain()))
      ensures Environment(meta) == old(Environment(meta))
      ensures Outcomes(Environment(meta), types, providers)[i].Fixed? ==>
        r == Outcomes(Environment(meta), types, providers)[i].result && InstanceChain() == old(InstanceChain())
      ensures Outcomes(Environment(meta), types, providers)[i].Handle? ==>
        r.Ok? && IsHandle(this, Outcomes(Environment(meta), types, providers)[i].target, r.value) &&
        fresh(r.value.o) && !(r.value.o as LazyResolver).resolved && InstanceChain() == old(InstanceChain())
      ensures Outcomes(Environment(meta), types, providers)[i].Nested? ==>
        ClassResolved(meta, Outcomes(Environment(meta), types, providers)[i].c, fuel, old(InstanceChain()), r)
      ensures Outcomes(Environment(meta), types, providers)[i].Nested? &&
              old(Uncached(meta, Outcomes(Environment(meta), types, providers)[i].c)) && r.Ok? ==>
        fresh(r.value.o)
    {
      OutcomesAt(Environment(meta), types, providers, i);
      ghost var inner := if building.Some? then frames + [(building.value, i)] else frames;
      if building.Some? {
        ChainedPush(Environment(meta), frames, building.value, i);
        StackUncachedPush(meta, frames, (building.value, i), InstanceChain());
        if Revisits(frames, building, i) {
          ghost var k :| 0 <= k < |frames| && frames[k] == (building.value, i);
          ReturnsToStack(Environment(meta), frames, building.value, k);
        }
      }
      if At(providers, i).Some? {
        r := ResolveProvider(meta, At(providers, i).value, fuel, inner);
      } else {
        r := ResolveClass(meta, types[i], fuel, inner);
      }
      if building.Some? {
        StackUncachedPush(meta, frames, (building.value, i), InstanceChain());
      }
    }

    /** `createInstance`: `new clazz(...)` with the class's resolved constructor parameters. */
    method CreateInstance(meta: Metadata, c: ClassId, fuel: nat, ghost frames: seq<Frame>)
      returns (r: Result<Any, Error>)
      requires meta.Valid() && Valid() && Uncached(meta, c)
      requires Chained(Environment(meta), frames, Some(c)) && StackUncached(meta, frames, InstanceChain())
      modifies container.Chain()`instances
      decreases fuel, 6
      ensures Uncached(meta, c) && StackUncached(meta, frames, InstanceChain())
      ensures OnStack(frames, c) ==> r.Err?
      ensures Framed(meta, old(InstanceChain()))
      ensures Environment(meta) == old(Environment(meta))
      ensures r.Ok? ==> Built(this, ClassOutcomes(Environment(meta), c), c, r.value) && fresh(r.value.o)
      ensures r.Ok? ==> forall j: nat :: HandleAt(ClassOutcomes(Environment(meta), c), Arguments(r.value), j) ==>
        fresh(Arguments(r.value)[j].o) && !(Arguments(r.value)[j].o as LazyResolver).resolved
      ensures forall i: nat :: FailsAt(ClassOutcomes(Environment(meta), c), i) ==>
        r == Err(ClassOutcomes(Environment(meta), c)[i].result.error) && InstanceChain() == old(InstanceChain())
      ensures OkBefore(ClassOutcomes(Environment(meta), c), |meta.ClassParametersTypes(c)|) ==>
        r.Ok? && InstanceChain() == old(InstanceChain())
    {
      var parametersTypes := meta.ClassParametersTypes(c);
      var providers := meta.ClassParametersProvider(c);
      var parameters := ResolveParameters(meta, parametersTypes, providers, fuel, Some(c), frames);
      if parameters.Err? {
        return Err(parameters.error);
      }
      var instance := new Instance(c, parameters.value);
      return Ok(ObjectRef(instance));
    }
  }
}
