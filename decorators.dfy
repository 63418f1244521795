/**
 * The registration table written by the decorators: per class, whether it is
 * injectable (with its reference token), its scope, the provider descriptors of
 * its constructor parameters and the declared parameter types; and the same per
 * (prototype, member) for methods. In the source this is reflection metadata;
 * here it is an explicit store object.
 */
module Decorators {
  import opened Wrappers
  import opened Values

  /**
   * What a decorator is applied to: a class constructor (`typeof` 'function',
   * the `isClass` test) or a class prototype (`typeof` 'object', the
   * `isPrototype` test).
   */
  datatype Target = ClassTarget(c: ClassId) | PrototypeTarget(owner: ClassId)

  /** A method: the prototype it is declared on and its property key. */
  type Member = (ClassId, Any)

  /** A sparse array of provider descriptors; a hole is `None`. */
  type Sparse = seq<Option<ProviderParameters>>

  /** Reading `a[i]` of a sparse JavaScript array: `undefined` past the end. */
  function At(a: Sparse, i: nat): Option<ProviderParameters> {
    if i < |a| then a[i] else None
  }

  /** Assigning `a[i] = p`: past the end, the array grows and the new slots before `i` are holes. */
  function SetAt(a: Sparse, i: nat, p: ProviderParameters): (r: Sparse)
    ensures |r| == if i < |a| then |a| else i + 1
    ensures At(r, i) == Some(p)
    ensures forall j: nat :: j != i ==> At(r, j) == At(a, j)
  {
    if i < |a| then a[i := Some(p)]
    else
      var holes: Sparse := seq(i - |a|, _ => None);
      var r := a + holes + [Some(p)];
      assert forall j: nat :: |a| <= j < i ==> r[j] == None;
      r
  }

  /** No two classes share a token. */
  ghost predicate Injective(tokens: map<ClassId, Any>) {
    forall c, d :: c in tokens && d in tokens && c != d ==> tokens[c] != tokens[d]
  }

  /**
   * Everything the store holds, as one value. Resolution only reads the store,
   * so the injector works on this value; the readers the decorators module
   * exports are its member functions.
   */
  datatype Metadata = Metadata(
    classTokens: map<ClassId, Any>,
    scopes: map<ClassId, string>,
    functionTokens: map<Member, Any>,
    classProviders: map<ClassId, Sparse>,
    functionProviders: map<Member, Sparse>,
    classParameterTypes: map<ClassId, seq<ClassId>>,
    functionParameterTypes: map<Member, seq<ClassId>>,
    nextSymbol: nat)
  {
    /** Every token is a symbol minted here, and no two classes share one. */
    ghost predicate Valid() {
      && (forall c :: c in classTokens ==> classTokens[c].Token? && classTokens[c].serial < nextSymbol)
      && Injective(classTokens)
      && (forall m :: m in functionTokens ==> functionTokens[m].Token? && functionTokens[m].serial < nextSymbol)
    }

    /** `isInjectableClass`: the class has an `injectable:class` entry. */
    predicate IsInjectableClass(c: ClassId) {
      c in classTokens
    }

    /** `getClassInjectionReference`: `undefined` exactly for a class never marked injectable. */
    function ClassInjectionReference(c: ClassId): (r: Any)
      ensures Valid() ==> (r.Token? <==> IsInjectableClass(c))
      ensures !IsInjectableClass(c) ==> r == Undefined
    {
      if c in classTokens then classTokens[c] else Undefined
    }

    /** `hasScope`: the class has an `injection:scope` entry. */
    predicate HasScope(c: ClassId) {
      c in scopes
    }

    /** `getScope`: `undefined` (here `None`) exactly when no scope was defined. */
    function Scope(c: ClassId): (r: Option<string>)
      ensures r.Some? <==> HasScope(c)
    {
      if c in scopes then Some(scopes[c]) else None
    }

    /** `isInjectableFunction`: the method has an `injectable:function` entry. */
    predicate IsInjectableFunction(owner: ClassId, key: Any) {
      (owner, key) in functionTokens
    }

    /** `getFunctionInjectionReference`: `undefined` exactly for a method never marked injectable. */
    function FunctionInjectionReference(owner: ClassId, key: Any): (r: Any)
      ensures Valid() ==> (r.Token? <==> IsInjectableFunction(owner, key))
      ensures !IsInjectableFunction(owner, key) ==> r == Undefined
    {
      if (owner, key) in functionTokens then functionTokens[(owner, key)] else Undefined
    }

    /** `hasClassParametersProvider`: the constructor has a descriptor array. */
    predicate HasClassParametersProvider(c: ClassId) {
      c in classProviders
    }

    /** `getClassParametersProvider`, defaulting to `[]`: with no array, no position has a descriptor. */
    function ClassParametersProvider(c: ClassId): (r: Sparse)
      ensures !HasClassParametersProvider(c) ==> r == [] && forall i: nat :: At(r, i).None?
    {
      if c in classProviders then classProviders[c] else []
    }

    /** `hasFunctionParametersProvider`: the method has a descriptor array. */
    predicate HasFunctionParametersProvider(owner: ClassId, key: Any) {
      (owner, key) in functionProviders
    }

    /** `getFunctionParametersProvider`, defaulting to `[]`: with no array, no position has a descriptor. */
    function FunctionParametersProvider(owner: ClassId, key: Any): (r: Sparse)
      ensures !HasFunctionParametersProvider(owner, key) ==> r == [] && forall i: nat :: At(r, i).None?
    {
      if (owner, key) in functionProviders then functionProviders[(owner, key)] else []
    }

    /** `getClassParametersTypes`, defaulting to `[]`: a class without emitted types takes no parameters. */
    function ClassParametersTypes(c: ClassId): (r: seq<ClassId>)
      ensures c !in classParameterTypes ==> r == []
    {
      if c in classParameterTypes then classParameterTypes[c] else []
    }

    /** `getFunctionParametersTypes`, defaulting to `[]`: a method without emitted types takes no arguments. */
    function FunctionParametersTypes(owner: ClassId, key: Any): (r: seq<ClassId>)
      ensures (owner, key) !in functionParameterTypes ==> r == []
    {
      if (owner, key) in functionParameterTypes then functionParameterTypes[(owner, key)] else []
    }
  }

  /** The metadata store the decorators write to. */
  class Registry {
    /** The `injectable:class` entry of each class: its reference token. */
    var classTokens: map<ClassId, Any>
    /** The `injection:scope` entry of each class. */
    var scopes: map<ClassId, string>
    /** The `injectable:function` entry of each method. */
    var functionTokens: map<Member, Any>
    /** The provider-descriptor array of each class's constructor. */
    var classProviders: map<ClassId, Sparse>
    /** The provider-descriptor array of each method. */
    var functionProviders: map<Member, Sparse>
    /** `design:paramtypes` of each class, as the compiler emits it. */
    var classParameterTypes: map<ClassId, seq<ClassId>>
    /** `design:paramtypes` of each method. */
    var functionParameterTypes: map<Member, seq<ClassId>>
    /** Serial of the next `Symbol(...)` the store mints. */
    var nextSymbol: nat

    function Store(): Metadata
      reads this
    {
      Metadata(classTokens, scopes, functionTokens, classProviders, functionProviders,
               classParameterTypes, functionParameterTypes, nextSymbol)
    }

    ghost predicate Valid()
      reads this
    {
      Store().Valid()
    }

    /** The empty store at program start. */
    constructor ()
      ensures Valid()
      ensures Store() == Metadata(map[], map[], map[], map[], map[], map[], map[], 0)
    {
      classTokens, scopes, functionTokens := map[], map[], map[];
      classProviders, functionProviders := map[], map[];
      classParameterTypes, functionParameterTypes := map[], map[];
      nextSymbol := 0;
    }

    /** `defineInjectableClass`: records a freshly minted reference symbol for `c`. */
    method DefineInjectableClass(c: ClassId)
      requires Valid()
      modifies this
      ensures Valid()
      ensures Store() == old(Store()).(classTokens := old(classTokens)[c := Token(old(nextSymbol))],
                                       nextSymbol := old(nextSymbol) + 1)
      ensures Store().IsInjectableClass(c) && Store().ClassInjectionReference(c) != Undefined
      ensures forall d :: d != c && d in classTokens ==>
        Store().ClassInjectionReference(d) != Store().ClassInjectionReference(c)
    {
      classTokens := classTokens[c := Token(nextSymbol)];
      nextSymbol := nextSymbol + 1;
    }

    /** `defineScope`: records the scope name of `c`. */
    method DefineScope(c: ClassId, scope: string)
      modifies this
      ensures Store() == old(Store()).(scopes := old(scopes)[c := scope])
      ensures Store().HasScope(c) && Store().Scope(c) == Some(scope)
    {
      scopes := scopes[c := scope];
    }

    /** `defineInjectableFunction`: marks one method injectable with a fresh symbol. */
    method DefineInjectableFunction(owner: ClassId, key: Any)
      requires Valid()
      modifies this
      ensures Valid()
      ensures Store() == old(Store()).(functionTokens := old(functionTokens)[(owner, key) := Token(old(nextSymbol))],
                                       nextSymbol := old(nextSymbol) + 1)
      ensures Store().IsInjectableFunction(owner, key)
    {
      functionTokens := functionTokens[(owner, key) := Token(nextSymbol)];
      nextSymbol := nextSymbol + 1;
    }

    /** `defineClassParametersProvider`: `parameters[index] = p` on the class's array, then stores it back. */
    method DefineClassParametersProvider(c: ClassId, index: nat, p: ProviderParameters)
      modifies this
      ensures Store() == old(Store()).(classProviders :=
        old(classProviders)[c := SetAt(old(Store().ClassParametersProvider(c)), index, p)])
      ensures Store().HasClassParametersProvider(c)
      ensures At(Store().ClassParametersProvider(c), index) == Some(p)
      ensures forall j: nat :: j != index ==>
        At(Store().ClassParametersProvider(c), j) == At(old(Store().ClassParametersProvider(c)), j)
    {
      var parameters := Store().ClassParametersProvider(c);
      parameters := SetAt(parameters, index, p);
      classProviders := classProviders[c := parameters];
    }

    /** `defineFunctionParametersProvider`: the same index update on a method's array. */
    method DefineFunctionParametersProvider(owner: ClassId, key: Any, index: nat, p: ProviderParameters)
      modifies this
      ensures Store() == old(Store()).(functionProviders :=
        old(functionProviders)[(owner, key) := SetAt(old(Store().FunctionParametersProvider(owner, key)), index, p)])
      ensures Store().HasFunctionParametersProvider(owner, key)
      ensures At(Store().FunctionParametersProvider(owner, key), index) == Some(p)
      ensures forall j: nat :: j != index ==>
        At(Store().FunctionParametersProvider(owner, key), j) == At(old(Store().FunctionParametersProvider(owner, key)), j)
    {
      var parameters: Sparse;
      if Store().HasFunctionParametersProvider(owner, key) {
        parameters := Store().FunctionParametersProvider(owner, key);
      } else {
        parameters := [];
      }
      parameters := SetAt(parameters, index, p);
      functionProviders := functionProviders[(owner, key) := parameters];
    }

    /** What the compiler records as `design:paramtypes` of a class constructor. */
    method EmitClassParametersTypes(c: ClassId, types: seq<ClassId>)
      modifies this
      ensures Store() == old(Store()).(classParameterTypes := old(classParameterTypes)[c := types])
      ensures Store().ClassParametersTypes(c) == types
    {
      classParameterTypes := classParameterTypes[c := types];
    }

    /** What the compiler records as `design:paramtypes` of a method. */
    method EmitFunctionParametersTypes(owner: ClassId, key: Any, types: seq<ClassId>)
      modifies this
      ensures Store() == old(Store()).(functionParameterTypes := old(functionParameterTypes)[(owner, key) := types])
      ensures Store().FunctionParametersTypes(owner, key) == types
    {
      functionParameterTypes := functionParameterTypes[(owner, key) := types];
    }
  }

  /** Tokens identify classes: two injectable classes with the same token are the same class. */
  lemma TokenIdentifiesClass(m: Metadata, c: ClassId, d: ClassId)
    requires m.Valid() && m.IsInjectableClass(c) && m.IsInjectableClass(d)
    requires m.ClassInjectionReference(c) == m.ClassInjectionReference(d)
    ensures c == d
  {
  }
}
