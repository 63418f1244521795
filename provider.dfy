/**
 * The registration half of providers: the `Provide` parameter decorator and its
 * three shorthands `Inject`, `Lazy` and `Value`, and the list of default
 * providers every new container starts with. What the default providers do
 * when called needs the injector, so it lives with the injector (module
 * Injection).
 *
 * A decorator factory and its application are one method here: `Provide(key,
 * args)` applied to `(target, propertyKey, parameterIndex)` is
 * `Provide(reg, key, args, target, propertyKey, parameterIndex)`.
 */
module Providers {
  import opened Wrappers
  import opened Values
  import opened Decorators

  /** `DEFAULT_PROVIDERS`: value lookup, lazy handle, inject. */
  const DefaultProviders: seq<(Any, Provider)> := [
    (BuiltinKey(ValueProvider), ValueLookup),
    (BuiltinKey(LazyProvider), LazyHandle),
    (BuiltinKey(InjectProvider), InjectTarget)
  ]

  /**
   * Records `{key, args ?? []}` at the parameter position: in the class table
   * for a constructor parameter, in the (prototype, member) table for a method
   * parameter.
   */
  method Provide(reg: Registry, key: Any, args: Option<seq<Any>>,
                 target: Target, propertyKey: Any, parameterIndex: nat)
    modifies reg
    ensures target.ClassTarget? ==>
      reg.Store() == old(reg.Store()).(classProviders := old(reg.classProviders)[target.c :=
        SetAt(old(reg.Store().ClassParametersProvider(target.c)), parameterIndex, ProviderParameters(key, args.GetOr([])))])
    ensures target.PrototypeTarget? ==>
      reg.Store() == old(reg.Store()).(functionProviders := old(reg.functionProviders)[(target.owner, propertyKey) :=
        SetAt(old(reg.Store().FunctionParametersProvider(target.owner, propertyKey)), parameterIndex,
              ProviderParameters(key, args.GetOr([])))])
  {
    var descriptor := ProviderParameters(key, args.GetOr([]));
    if target.ClassTarget? {
      reg.DefineClassParametersProvider(target.c, parameterIndex, descriptor);
    }
    if target.PrototypeTarget? {
      reg.DefineFunctionParametersProvider(target.owner, propertyKey, parameterIndex, descriptor);
    }
  }

  /** `Inject(t)`: a descriptor for the inject provider with the single argument `t`. */
  method Inject(reg: Registry, injected: Any, target: Target, propertyKey: Any, parameterIndex: nat)
    modifies reg
    ensures target.ClassTarget? ==>
      reg.Store() == old(reg.Store()).(classProviders := old(reg.classProviders)[target.c :=
        SetAt(old(reg.Store().ClassParametersProvider(target.c)), parameterIndex,
              ProviderParameters(BuiltinKey(InjectProvider), [injected]))])
    ensures target.PrototypeTarget? ==>
      reg.Store() == old(reg.Store()).(functionProviders := old(reg.functionProviders)[(target.owner, propertyKey) :=
        SetAt(old(reg.Store().FunctionParametersProvider(target.owner, propertyKey)), parameterIndex,
              ProviderParameters(BuiltinKey(InjectProvider), [injected]))])
  {
    Provide(reg, BuiltinKey(InjectProvider), Some([injected]), target, propertyKey, parameterIndex);
  }

  /** `Lazy(c)`: a descriptor for the lazy provider with the single argument `c`. */
  method Lazy(reg: Registry, clazz: ClassId, target: Target, propertyKey: Any, parameterIndex: nat)
    modifies reg
    ensures target.ClassTarget? ==>
      reg.Store() == old(reg.Store()).(classProviders := old(reg.classProviders)[target.c :=
        SetAt(old(reg.Store().ClassParametersProvider(target.c)), parameterIndex,
              ProviderParameters(BuiltinKey(LazyProvider), [ClassRef(clazz)]))])
    ensures target.PrototypeTarget? ==>
      reg.Store() == old(reg.Store()).(functionProviders := old(reg.functionProviders)[(target.owner, propertyKey) :=
        SetAt(old(reg.Store().FunctionParametersProvider(target.owner, propertyKey)), parameterIndex,
              ProviderParameters(BuiltinKey(LazyProvider), [ClassRef(clazz)]))])
  {
    Provide(reg, BuiltinKey(LazyProvider), Some([ClassRef(clazz)]), target, propertyKey, parameterIndex);
  }

  /** `Value(k)`: a descriptor for the value provider with the single argument `k`. */
  method Value(reg: Registry, key: Any, target: Target, propertyKey: Any, parameterIndex: nat)
    modifies reg
    ensures target.ClassTarget? ==>
      reg.Store() == old(reg.Store()).(classProviders := old(reg.classProviders)[target.c :=
        SetAt(old(reg.Store().ClassParametersProvider(target.c)), parameterIndex,
              ProviderParameters(BuiltinKey(ValueProvider), [key]))])
    ensures target.PrototypeTarget? ==>
      reg.Store() == old(reg.Store()).(functionProviders := old(reg.functionProviders)[(target.owner, propertyKey) :=
        SetAt(old(reg.Store().FunctionParametersProvider(target.owner, propertyKey)), parameterIndex,
              ProviderParameters(BuiltinKey(ValueProvider), [key]))])
  {
    Provide(reg, BuiltinKey(ValueProvider), Some([key]), target, propertyKey, parameterIndex);
  }
}
