/**
 * The `Injectable` decorator. With options on a class it marks the class
 * injectable and sets its scope; on a method (a prototype with a property key)
 * it marks that method injectable. Any other application registers nothing.
 */
module Injectable {
  import opened Wrappers
  import opened Values
  import opened Decorators

  /** `{ scope: 'root' | 'module' | 'request' }` */
  datatype InjectableOptions = InjectableOptions(scope: string)

  /** `Injectable(options)` applied to `(target, propertyKey)`. */
  method Injectable(reg: Registry, options: Option<InjectableOptions>, target: Target, propertyKey: Any)
    requires reg.Valid()
    modifies reg
    ensures reg.Valid()
    ensures target.ClassTarget? && options.Some? ==>
      reg.Store() == old(reg.Store()).(classTokens := old(reg.classTokens)[target.c := Token(old(reg.nextSymbol))],
                                       scopes := old(reg.scopes)[target.c := options.value.scope],
                                       nextSymbol := old(reg.nextSymbol) + 1)
    ensures target.PrototypeTarget? && propertyKey != Undefined ==>
      reg.Store() == old(reg.Store()).(functionTokens :=
                                         old(reg.functionTokens)[(target.owner, propertyKey) := Token(old(reg.nextSymbol))],
                                       nextSymbol := old(reg.nextSymbol) + 1)
    ensures (target.ClassTarget? && options.None?) || (target.PrototypeTarget? && propertyKey == Undefined) ==>
      reg.Store() == old(reg.Store())
  {
    if target.ClassTarget? && options.Some? {
      reg.DefineInjectableClass(target.c);
      reg.DefineScope(target.c, options.value.scope);
    }
    if target.PrototypeTarget? && propertyKey != Undefined {
      reg.DefineInjectableFunction(target.owner, propertyKey);
    }
  }
}
