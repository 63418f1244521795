/**
 * A container: a named node with four independent maps (values, providers,
 * cached instances, references to classes) and a link to its parent. A new
 * container holds the default providers and then whatever seed it was given.
 */
module Containers {
  import opened Wrappers
  import opened Values
  import opened Providers

  /** `ContainerInitialisation`: each list is optional, each entry a key and its entry. */
  datatype Seed = Seed(
    values: Option<seq<(Any, Any)>>,
    providers: Option<seq<(Any, Provider)>>,
    instances: Option<seq<(Any, Any)>>,
    references: Option<seq<(Any, ClassId)>>)

  /** The seed `{}`. */
  const EmptySeed := Seed(None, None, None, None)

  /** The entries of an optional list: none when it is absent. */
  function Entries<V>(list: Option<seq<(Any, V)>>): seq<(Any, V)> {
    if list.Some? then list.value else []
  }

  /** `m.set(k, v)` for each entry `(k, v)` in order. */
  function Assign<V>(m: map<Any, V>, entries: seq<(Any, V)>): map<Any, V> {
    if entries == [] then m
    else
      var last := entries[|entries| - 1];
      Assign(m, entries[..|entries| - 1])[last.0 := last.1]
  }

  /** The seed lists of an optional seed: none when there is no seed. */
  function SeedValues(s: Option<Seed>): seq<(Any, Any)> {
    if s.Some? then Entries(s.value.values) else []
  }

  function SeedProviders(s: Option<Seed>): seq<(Any, Provider)> {
    if s.Some? then Entries(s.value.providers) else []
  }

  function SeedInstances(s: Option<Seed>): seq<(Any, Any)> {
    if s.Some? then Entries(s.value.instances) else []
  }

  function SeedReferences(s: Option<Seed>): seq<(Any, ClassId)> {
    if s.Some? then Entries(s.value.references) else []
  }

  /** The providers map of a container before its seed is merged in. */
  function DefaultProviderMap(): map<Any, Provider> {
    Assign(map[], DefaultProviders)
  }

  /** Assigning holds exactly the old keys and the keys of the entries. */
  lemma {:induction false} AssignKeys<V>(m: map<Any, V>, entries: seq<(Any, V)>, k: Any)
    ensures k in Assign(m, entries) <==> k in m || exists j :: 0 <= j < |entries| && entries[j].0 == k
  {
    if entries != [] {
      var init := entries[..|entries| - 1];
      AssignKeys(m, init, k);
      assert forall j :: 0 <= j < |init| ==> init[j] == entries[j];
    }
  }

  /** A key no entry mentions keeps the entry it had before. */
  lemma {:induction false} AssignUntouched<V>(m: map<Any, V>, entries: seq<(Any, V)>, k: Any)
    requires forall j :: 0 <= j < |entries| ==> entries[j].0 != k
    ensures k in Assign(m, entries) <==> k in m
    ensures k in m ==> Assign(m, entries)[k] == m[k]
  {
    if entries != [] {
      var init := entries[..|entries| - 1];
      assert forall j :: 0 <= j < |init| ==> init[j] == entries[j];
      AssignUntouched(m, init, k);
    }
  }

  /** For a repeated key, the last entry wins. */
  lemma {:induction false} AssignLastWins<V>(m: map<Any, V>, entries: seq<(Any, V)>, j: nat)
    requires j < |entries|
    requires forall l :: j < l < |entries| ==> entries[l].0 != entries[j].0
    ensures entries[j].0 in Assign(m, entries)
    ensures Assign(m, entries)[entries[j].0] == entries[j].1
  {
    var init := entries[..|entries| - 1];
    if j < |entries| - 1 {
      assert forall l :: j < l < |init| ==> init[l] == entries[l];
      AssignLastWins(m, init, j);
    }
  }

  /** With distinct keys none of which is already present, each entry adds one key. */
  lemma {:induction false} AssignSize<V>(m: map<Any, V>, entries: seq<(Any, V)>)
    requires forall j :: 0 <= j < |entries| ==> entries[j].0 !in m
    requires forall j, l :: 0 <= j < l < |entries| ==> entries[j].0 != entries[l].0
    ensures |Assign(m, entries)| == |m| + |entries|
  {
    if entries != [] {
      var init := entries[..|entries| - 1];
      var last := entries[|entries| - 1];
      assert forall j :: 0 <= j < |init| ==> init[j] == entries[j];
      AssignSize(m, init);
      AssignUntouched(m, init, last.0);
    }
  }

  /** A new container's providers are exactly the three built-in ones. */
  lemma DefaultProviderMapIsBuiltins()
    ensures DefaultProviderMap() == map[BuiltinKey(ValueProvider) := ValueLookup,
                                        BuiltinKey(LazyProvider) := LazyHandle,
                                        BuiltinKey(InjectProvider) := InjectTarget]
    ensures |DefaultProviderMap()| == 3
  {
    var d := DefaultProviders;
    assert d[..2][..1][..0] == [];
    calc {
      DefaultProviderMap();
      Assign(map[], d[..2])[d[2].0 := d[2].1];
      Assign(map[], d[..2][..1])[d[1].0 := d[1].1][d[2].0 := d[2].1];
      Assign(map[], d[..2][..1][..0])[d[0].0 := d[0].1][d[1].0 := d[1].1][d[2].0 := d[2].1];
    }
  }

  /**
   * Seeding providers keeps the defaults and adds one entry per seeded key:
   * `3 + |seed|` providers when the seeded keys are distinct and none is a
   * default key.
   */
  lemma SeededProviderCount(entries: seq<(Any, Provider)>)
    requires forall j :: 0 <= j < |entries| ==> !entries[j].0.BuiltinKey?
    requires forall j, l :: 0 <= j < l < |entries| ==> entries[j].0 != entries[l].0
    ensures |Assign(DefaultProviderMap(), entries)| == 3 + |entries|
    ensures forall k :: k in DefaultProviderMap() ==>
      k in Assign(DefaultProviderMap(), entries) && Assign(DefaultProviderMap(), entries)[k] == DefaultProviderMap()[k]
  {
    DefaultProviderMapIsBuiltins();
    AssignSize(DefaultProviderMap(), entries);
    forall k | k in DefaultProviderMap()
      ensures k in Assign(DefaultProviderMap(), entries) && Assign(DefaultProviderMap(), entries)[k] == DefaultProviderMap()[k]
    {
      AssignUntouched(DefaultProviderMap(), entries, k);
    }
  }

  /** A seeded provider under a default key replaces that default. */
  lemma SeedOverridesDefault(entries: seq<(Any, Provider)>, j: nat)
    requires j < |entries| && entries[j].0.BuiltinKey?
    requires forall l :: j < l < |entries| ==> entries[l].0 != entries[j].0
    ensures entries[j].0 in Assign(DefaultProviderMap(), entries)
    ensures Assign(DefaultProviderMap(), entries)[entries[j].0] == entries[j].1
  {
    AssignLastWins(DefaultProviderMap(), entries, j);
  }

  /** The loop over `DEFAULT_PROVIDERS` that fills a new container's providers. */
  method Defaults() returns (providers: map<Any, Provider>)
    ensures providers == DefaultProviderMap()
  {
    providers := map[];
    for i := 0 to |DefaultProviders|
      invariant providers == Assign(map[], DefaultProviders[..i])
    {
      var (key, provider) := DefaultProviders[i];
      assert DefaultProviders[..i + 1][..i] == DefaultProviders[..i];
      providers := providers[key := provider];
    }
    assert DefaultProviders[..|DefaultProviders|] == DefaultProviders;
  }

  class Container {
    const parent: Container?
    const name: string
    var values: map<Any, Any>
    var providers: map<Any, Provider>
    var instances: map<Any, Any>
    var references: map<Any, ClassId>
    /** This container's parent, its parent, and so on up to the root. */
    ghost const Ancestors: seq<Container>

    /** This container followed by its ancestors: the order lookups visit them in. */
    ghost function Chain(): seq<Container> {
      [this] + Ancestors
    }

    /**
     * Following `parent` from this container visits exactly its ancestors and
     * stops; every ancestor's own ancestors are the rest of the walk.
     */
    ghost predicate ParentFirst() {
      parent == (if Ancestors == [] then null else Ancestors[0])
    }

    ghost predicate Linked()
      decreases |Ancestors|
    {
      && ParentFirst()
      && (Ancestors != [] ==> Ancestors[0].Ancestors == Ancestors[1..] && Ancestors[0].Linked())
    }

    /**
     * `new Container(name, initialValues)`: four empty maps, the default
     * providers, then `init` when a seed is given. A new container has no
     * parent.
     */
    constructor (name: string, initialValues: Option<Seed>)
      ensures this.name == name && parent == null
      ensures Ancestors == [] && Linked()
      ensures values == Assign(map[], SeedValues(initialValues))
      ensures providers == Assign(DefaultProviderMap(), SeedProviders(initialValues))
      ensures instances == Assign(map[], SeedInstances(initialValues))
      ensures references == Assign(map[], SeedReferences(initialValues))
      ensures initialValues == None || initialValues == Some(EmptySeed) ==>
        values == map[] && providers == DefaultProviderMap() && instances == map[] && references == map[]
    {
      this.name := name;
      parent := null;
      var defaults := Defaults();
      values, providers, instances, references := map[], defaults, map[], map[];
      Ancestors := [];
      new;
      if initialValues.Some? {
        Init(initialValues.value);
      }
    }

    /**
     * A new container as `extendWith` makes it: built as above, then given
     * `parent` as its parent before anything else sees it.
     */
    constructor Child(name: string, initialValues: Option<Seed>, parent: Container)
      requires parent.Linked()
      ensures this.name == name && this.parent == parent
      ensures Ancestors == parent.Chain() && Linked()
      ensures values == Assign(map[], SeedValues(initialValues))
      ensures providers == Assign(DefaultProviderMap(), SeedProviders(initialValues))
      ensures instances == Assign(map[], SeedInstances(initialValues))
      ensures references == Assign(map[], SeedReferences(initialValues))
    {
      this.name := name;
      this.parent := parent;
      var defaults := Defaults();
      values, providers, instances, references := map[], defaults, map[], map[];
      Ancestors := parent.Chain();
      new;
      AdoptLinked(this, parent);
      if initialValues.Some? {
        Init(initialValues.value);
      }
    }

    /** `init`: merges each seed list into its own map, entry by entry. */
    method Init(initialisation: Seed)
      modifies this`values, this`providers, this`instances, this`references
      ensures values == Assign(old(values), Entries(initialisation.values))
      ensures providers == Assign(old(providers), Entries(initialisation.providers))
      ensures instances == Assign(old(instances), Entries(initialisation.instances))
      ensures references == Assign(old(references), Entries(initialisation.references))
    {
      var vs, ps, ins, rs := values, providers, instances, references;
      var es := Entries(initialisation.values);
      for i := 0 to |es|
        invariant vs == Assign(old(values), es[..i])
      {
        assert es[..i + 1][..i] == es[..i];
        vs := vs[es[i].0 := es[i].1];
      }
      assert es[..|es|] == es;
      var eps := Entries(initialisation.providers);
      for i := 0 to |eps|
        invariant ps == Assign(old(providers), eps[..i])
      {
        assert eps[..i + 1][..i] == eps[..i];
        ps := ps[eps[i].0 := eps[i].1];
      }
      assert eps[..|eps|] == eps;
      var eis := Entries(initialisation.instances);
      for i := 0 to |eis|
        invariant ins == Assign(old(instances), eis[..i])
      {
        assert eis[..i + 1][..i] == eis[..i];
        ins := ins[eis[i].0 := eis[i].1];
      }
      assert eis[..|eis|] == eis;
      var ers := Entries(initialisation.references);
      for i := 0 to |ers|
        invariant rs == Assign(old(references), ers[..i])
      {
        assert ers[..i + 1][..i] == ers[..i];
        rs := rs[ers[i].0 := ers[i].1];
      }
      assert ers[..|ers|] == ers;
      values, providers, instances, references := vs, ps, ins, rs;
    }
  }

  /** The containers of a linked chain are pairwise distinct: the chain has no cycle. */
  lemma ChainDistinct(c: Container)
    requires c.Linked()
    ensures forall i, j :: 0 <= i < j < |c.Chain()| ==> c.Chain()[i] != c.Chain()[j]
  {
    var cs := c.Chain();
    forall i, j | 0 <= i < j < |cs|
      ensures cs[i] != cs[j]
    {
      ChainSuffixLinked(c, i);
      ChainSuffixLinked(c, j);
      assert |cs[j].Chain()| < |cs[i].Chain()|;
    }
  }

  /** The parent of a linked container is linked, and its chain is the container's ancestors. */
  lemma ParentLinked(c: Container)
    requires c.Linked() && c.parent != null
    ensures c.parent.Linked() && c.parent.Chain() == c.Ancestors
  {
    assert c.Ancestors == [c.Ancestors[0]] + c.Ancestors[1..];
  }

  /** A container whose parent is linked and whose ancestors are the parent's chain is linked. */
  lemma AdoptLinked(c: Container, p: Container)
    requires p.Linked() && c.parent == p && c.Ancestors == p.Chain()
    ensures c.Linked()
  {
    assert c.Ancestors[0] == p && c.Ancestors[1..] == p.Ancestors;
  }

  /** Every container on a linked chain is itself linked, and its chain is the rest of the walk. */
  lemma {:induction false} ChainSuffixLinked(c: Container, i: nat)
    requires c.Linked() && i < |c.Chain()|
    ensures c.Chain()[i].Linked() && c.Chain()[i].Chain() == c.Chain()[i..]
    decreases i
  {
    if i > 0 {
      ParentLinked(c);
      ChainSuffixLinked(c.parent, i - 1);
      assert c.Chain() == [c] + c.parent.Chain();
      assert c.Chain()[i..] == c.parent.Chain()[i - 1..];
    }
  }

  /** The values maps along a chain, nearest first. */
  ghost function ValueMaps(cs: seq<Container>): (ms: seq<map<Any, Any>>)
    reads cs`values
    ensures |ms| == |cs| && forall i :: 0 <= i < |cs| ==> ms[i] == cs[i].values
  {
    if cs == [] then [] else [cs[0].values] + ValueMaps(cs[1..])
  }

  /** The providers maps along a chain, nearest first. */
  ghost function ProviderMaps(cs: seq<Container>): (ms: seq<map<Any, Provider>>)
    reads cs`providers
    ensures |ms| == |cs| && forall i :: 0 <= i < |cs| ==> ms[i] == cs[i].providers
  {
    if cs == [] then [] else [cs[0].providers] + ProviderMaps(cs[1..])
  }

  /** The instances maps along a chain, nearest first. */
  ghost function InstanceMaps(cs: seq<Container>): (ms: seq<map<Any, Any>>)
    reads cs`instances
    ensures |ms| == |cs| && forall i :: 0 <= i < |cs| ==> ms[i] == cs[i].instances
  {
    if cs == [] then [] else [cs[0].instances] + InstanceMaps(cs[1..])
  }

  /** The references maps along a chain, nearest first. */
  ghost function ReferenceMaps(cs: seq<Container>): (ms: seq<map<Any, ClassId>>)
    reads cs`references
    ensures |ms| == |cs| && forall i :: 0 <= i < |cs| ==> ms[i] == cs[i].references
  {
    if cs == [] then [] else [cs[0].references] + ReferenceMaps(cs[1..])
  }

  /** The container names along a chain, nearest first. */
  ghost function Names(cs: seq<Container>): (ns: seq<string>)
    ensures |ns| == |cs| && forall i :: 0 <= i < |cs| ==> ns[i] == cs[i].name
  {
    if cs == [] then [] else [cs[0].name] + Names(cs[1..])
  }
}
