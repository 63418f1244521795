/**
 * What resolution promises, stated over plain values: the outcome a parameter
 * position has whatever the instance caches hold (a missing provider, a value
 * lookup, a constant, a missing reference, a class that is not injectable),
 * and the only way resolution may change the instance caches.
 *
 * An environment is the part of the world resolution reads but never writes:
 * the providers, values and references maps along the chain, nearest first,
 * and the decorators' metadata.
 */
module Resolution {
  import opened Wrappers
  import opened Values
  import opened Lookup
  import opened Decorators

  datatype Env = Env(
    providers: seq<map<Any, Provider>>,
    values: seq<map<Any, Any>>,
    references: seq<map<Any, ClassId>>,
    meta: Metadata)

  /**
   * What a parameter position yields, before it runs: a result that is the
   * same whatever the instance caches hold; a new, unresolved lazy handle on
   * `target`, which always succeeds and touches no cache; or the resolution
   * of the injectable class `c`, which depends on the caches.
   */
  datatype Outcome = Fixed(result: Result<Any, Error>) | Handle(target: Any) | Nested(c: ClassId)
  {
    /** The position succeeds whatever the caches hold. */
    predicate Succeeds() {
      Handle? || (Fixed? && result.Ok?)
    }
  }

  /**
   * `resolveClass(c)` fails at once, touching nothing, for a class that is
   * not injectable; for an injectable one what happens depends on the caches.
   */
  function ClassOutcome(env: Env, c: ClassId): Outcome {
    if env.meta.IsInjectableClass(c) then Nested(c) else Fixed(Err(NotInjectable(ClassRef(c))))
  }

  /**
   * The class the inject provider resolves for `target`: a string or symbol
   * through the nearest reference, a class as itself; `None` for a missing
   * reference or a target of any other kind.
   */
  function InjectedClass(env: Env, target: Any): Option<ClassId> {
    if target.IsStringOrSymbol() then Nearest(env.references, target)
    else if target.ClassRef? then Some(target.c)
    else None
  }

  /**
   * Calling provider `p` with `args`: the value provider looks its first
   * argument up among the values; the lazy provider hands out a handle on it;
   * the inject provider maps a string or symbol through the references,
   * rejects a target that is neither that nor a class, and resolves the class
   * it names; the two closures return their argument or their constant.
   */
  function CallOutcome(env: Env, p: Provider, args: seq<Any>): (r: Outcome)
    ensures r.Handle? <==> p.LazyHandle?
    ensures p.LazyHandle? ==> r == Handle(FirstArg(args))
    ensures r.Nested? <==>
      p.InjectTarget? && InjectedClass(env, FirstArg(args)).Some? &&
      env.meta.IsInjectableClass(InjectedClass(env, FirstArg(args)).value)
    ensures r.Nested? ==> r.c == InjectedClass(env, FirstArg(args)).value
    ensures p.InjectTarget? && InjectedClass(env, FirstArg(args)).Some? &&
            !env.meta.IsInjectableClass(InjectedClass(env, FirstArg(args)).value) ==>
      r == Fixed(Err(NotInjectable(ClassRef(InjectedClass(env, FirstArg(args)).value))))
    ensures p.InjectTarget? && InjectedClass(env, FirstArg(args)).None? ==>
      r.Fixed? && r.result.Err? && (r.result.error.NoReference? || r.result.error.InvalidTarget?)
  {
    var target := FirstArg(args);
    match p
    case ValueLookup => Fixed(FoundOr(Nearest(env.values, target), NoValue(target)))
    case LazyHandle => Handle(target)
    case ReturnArgument => Fixed(Ok(target))
    case Constant(v) => Fixed(Ok(v))
    case InjectTarget =>
      if target.IsStringOrSymbol() then
        match Nearest(env.references, target)
        case None => Fixed(Err(NoReference(target)))
        case Some(c) => ClassOutcome(env, c)
      else if target.ClassRef? then ClassOutcome(env, target.c)
      else Fixed(Err(InvalidTarget(target)))
  }

  /** `resolveProvider(d)`: the nearest provider under `d.key`, called with `d.args`. */
  function ProviderOutcome(env: Env, d: ProviderParameters): (r: Outcome)
    ensures Nearest(env.providers, d.key).None? <==> r == Fixed(Err(NoProvider(d.key)))
  {
    match Nearest(env.providers, d.key)
    case None => Fixed(Err(NoProvider(d.key)))
    case Some(p) => CallOutcome(env, p, d.args)
  }

  /** Position `i` of a parameter list: its descriptor when it has one, otherwise its declared class. */
  function ParameterOutcome(env: Env, types: seq<ClassId>, providers: Sparse, i: nat): Outcome
    requires i < |types|
  {
    match At(providers, i)
    case Some(d) => ProviderOutcome(env, d)
    case None => ClassOutcome(env, types[i])
  }

  /** The outcomes of positions `i`, `i + 1`, ... of a parameter list. */
  function OutcomesFrom(env: Env, types: seq<ClassId>, providers: Sparse, i: nat): (outs: seq<Outcome>)
    ensures |outs| == if i < |types| then |types| - i else 0
    decreases |types| - i
  {
    if i >= |types| then []
    else [ParameterOutcome(env, types, providers, i)] + OutcomesFrom(env, types, providers, i + 1)
  }

  /** The outcome of every position of a parameter list, in order. */
  function Outcomes(env: Env, types: seq<ClassId>, providers: Sparse): (outs: seq<Outcome>)
    ensures |outs| == |types|
  {
    OutcomesFrom(env, types, providers, 0)
  }

  lemma {:induction false} OutcomesFromAt(env: Env, types: seq<ClassId>, providers: Sparse, i: nat, k: nat)
    requires i + k < |types|
    ensures OutcomesFrom(env, types, providers, i)[k] == ParameterOutcome(env, types, providers, i + k)
    decreases k
  {
    if k > 0 {
      OutcomesFromAt(env, types, providers, i + 1, k - 1);
    }
  }

  /** Position `i` of the outcome list is the outcome of parameter `i`. */
  lemma OutcomesAt(env: Env, types: seq<ClassId>, providers: Sparse, i: nat)
    requires i < |types|
    ensures Outcomes(env, types, providers)[i] == ParameterOutcome(env, types, providers, i)
  {
    OutcomesFromAt(env, types, providers, 0, i);
  }

  /** The outcomes of the constructor parameters of class `c`. */
  function ClassOutcomes(env: Env, c: ClassId): (outs: seq<Outcome>)
    ensures |outs| == |env.meta.ClassParametersTypes(c)|
  {
    Outcomes(env, env.meta.ClassParametersTypes(c), env.meta.ClassParametersProvider(c))
  }

  /** The class a call of provider `p` hands to `resolveClass`: only the inject provider does, for the class it names. */
  function CallClass(env: Env, p: Provider, args: seq<Any>): Option<ClassId> {
    if p.InjectTarget? then InjectedClass(env, FirstArg(args)) else None
  }

  /** The class `resolveProvider(d)` hands to `resolveClass`, if any. */
  function ProviderClass(env: Env, d: ProviderParameters): Option<ClassId> {
    match Nearest(env.providers, d.key)
    case None => None
    case Some(p) => CallClass(env, p, d.args)
  }

  /** The class position `i` of a parameter list hands to `resolveClass`: its descriptor's, or its declared class. */
  function PositionClass(env: Env, types: seq<ClassId>, providers: Sparse, i: nat): Option<ClassId>
    requires i < |types|
  {
    match At(providers, i)
    case Some(d) => ProviderClass(env, d)
    case None => Some(types[i])
  }

  /** A construction in progress: a class and the constructor position being resolved. */
  type Frame = (ClassId, nat)

  /** The class that frame `f`'s position hands to `resolveClass`. */
  function FrameClass(env: Env, f: Frame): Option<ClassId>
    requires f.1 < |env.meta.ClassParametersTypes(f.0)|
  {
    PositionClass(env, env.meta.ClassParametersTypes(f.0), env.meta.ClassParametersProvider(f.0), f.1)
  }

  /** The class frame `k`'s position should resolve: the next frame's, or `next` after the innermost. */
  function Successor(frames: seq<Frame>, k: nat, next: Option<ClassId>): Option<ClassId> {
    if k + 1 < |frames| then Some(frames[k + 1].0) else next
  }

  /**
   * The stack of constructions in progress, outermost first: each frame's
   * position resolves the next frame's class, and the innermost one resolves
   * `next`.
   */
  ghost predicate Chained(env: Env, frames: seq<Frame>, next: Option<ClassId>) {
    forall k :: 0 <= k < |frames| ==>
      && frames[k].1 < |env.meta.ClassParametersTypes(frames[k].0)|
      && FrameClass(env, frames[k]) == Successor(frames, k, next)
  }

  /** Class `c` is under construction somewhere on the stack. */
  ghost predicate OnStack(frames: seq<Frame>, c: ClassId) {
    exists k :: 0 <= k < |frames| && frames[k].0 == c
  }

  /** No class under construction has a cached instance: one is stored only once its construction returns. */
  ghost predicate StackUncached(meta: Metadata, frames: seq<Frame>, caches: seq<map<Any, Any>>) {
    forall k :: 0 <= k < |frames| ==>
      frames[k].0 in meta.classTokens && Nearest(caches, meta.classTokens[frames[k].0]).None?
  }

  /**
   * The parameter list being resolved belongs to the constructor of
   * `building`, which the stack's innermost position resolves; a list that
   * belongs to no class starts a stack of its own.
   */
  ghost predicate ForPositions(env: Env, types: seq<ClassId>, providers: Sparse, building: Option<ClassId>,
                               frames: seq<Frame>) {
    match building
    case Some(c) =>
      types == env.meta.ClassParametersTypes(c) && providers == env.meta.ClassParametersProvider(c) &&
      Chained(env, frames, building)
    case None => frames == []
  }

  /** No class under construction, the stack's nor `building`, has a cached instance. */
  ghost predicate Building(meta: Metadata, building: Option<ClassId>, frames: seq<Frame>, caches: seq<map<Any, Any>>) {
    && StackUncached(meta, frames, caches)
    && (building.Some? ==> building.value in meta.classTokens && Nearest(caches, meta.classTokens[building.value]).None?)
  }

  /** The stack already went through position `i` of `building`'s constructor. */
  ghost predicate Revisits(frames: seq<Frame>, building: Option<ClassId>, i: nat) {
    building.Some? && exists k :: 0 <= k < |frames| && frames[k] == (building.value, i)
  }

  /** Starting on position `i` of class `c`, which the stack's innermost position resolves, extends the chain. */
  lemma ChainedPush(env: Env, frames: seq<Frame>, c: ClassId, i: nat)
    requires Chained(env, frames, Some(c)) && i < |env.meta.ClassParametersTypes(c)|
    ensures Chained(env, frames + [(c, i)],
                    PositionClass(env, env.meta.ClassParametersTypes(c), env.meta.ClassParametersProvider(c), i))
  {
    var fs := frames + [(c, i)];
    forall k | 0 <= k < |fs|
      ensures fs[k].1 < |env.meta.ClassParametersTypes(fs[k].0)|
      ensures FrameClass(env, fs[k]) ==
        Successor(fs, k, PositionClass(env, env.meta.ClassParametersTypes(c), env.meta.ClassParametersProvider(c), i))
    {
      if k < |frames| {
        assert fs[k] == frames[k];
        if k + 1 < |frames| {
          assert fs[k + 1] == frames[k + 1];
        } else {
          assert fs[k + 1] == (c, i);
        }
      } else {
        assert fs[k] == (c, i);
      }
    }
  }

  /**
   * A class `c` that is already on the stack, at frame `k`, comes back onto
   * it: the position frame `k` was resolving hands over a class that is
   * on the stack once `c` starts on that position again.
   */
  lemma ReturnsToStack(env: Env, frames: seq<Frame>, c: ClassId, k: nat)
    requires Chained(env, frames, Some(c)) && k < |frames| && frames[k].0 == c
    ensures frames[k].1 < |env.meta.ClassParametersTypes(c)|
    ensures PositionClass(env, env.meta.ClassParametersTypes(c), env.meta.ClassParametersProvider(c), frames[k].1).Some?
    ensures OnStack(frames + [(c, frames[k].1)],
                    PositionClass(env, env.meta.ClassParametersTypes(c), env.meta.ClassParametersProvider(c), frames[k].1).value)
  {
    var fs := frames + [(c, frames[k].1)];
    assert FrameClass(env, frames[k]) == Successor(frames, k, Some(c));
    if k + 1 < |frames| {
      assert fs[k + 1] == frames[k + 1];
    } else {
      assert fs[|frames|] == (c, frames[k].1);
    }
  }

  /** The stack with one more frame is uncached exactly when the stack is and the new frame's class is too. */
  lemma StackUncachedPush(meta: Metadata, frames: seq<Frame>, f: Frame, caches: seq<map<Any, Any>>)
    ensures StackUncached(meta, frames + [f], caches) <==>
      StackUncached(meta, frames, caches) && f.0 in meta.classTokens && Nearest(caches, meta.classTokens[f.0]).None?
  {
    var fs := frames + [f];
    assert fs[|frames|] == f;
    assert forall k :: 0 <= k < |frames| ==> fs[k] == frames[k];
  }

  /**
   * Keeping an instance of a class that is not under construction leaves
   * every class under construction uncached: with unique tokens, the store
   * touches no other class's entry.
   */
  lemma KeepOthersUncached(meta: Metadata, names: seq<string>, frames: seq<Frame>, c: ClassId,
                           caches: seq<map<Any, Any>>, v: Any)
    requires meta.Valid() && StackUncached(meta, frames, caches) && !OnStack(frames, c)
    ensures StackUncached(meta, frames, Keep(meta, names, c, caches, v))
  {
    var after := Keep(meta, names, c, caches, v);
    forall k | 0 <= k < |frames|
      ensures Nearest(after, meta.classTokens[frames[k].0]).None?
    {
      var t := meta.classTokens[frames[k].0];
      assert frames[k].0 != c;
      forall i | 0 <= i < |after|
        ensures t !in after[i]
      {
        assert t !in caches[i];
      }
    }
  }

  /** Every position with a fixed outcome got exactly that value, and there is one value per position. */
  ghost predicate Pinned(outs: seq<Outcome>, vs: seq<Any>) {
    && |vs| == |outs|
    && forall i :: 0 <= i < |outs| && outs[i].Fixed? ==> outs[i].result == Ok(vs[i])
  }

  /** The first `n` positions all succeed whatever the caches hold. */
  ghost predicate OkBefore(outs: seq<Outcome>, n: nat) {
    forall j :: 0 <= j < n && j < |outs| ==> outs[j].Succeeds()
  }

  /** Position `i` is the first to fail, and it fails whatever the caches hold. */
  ghost predicate FailsAt(outs: seq<Outcome>, i: nat) {
    i < |outs| && OkBefore(outs, i) && outs[i].Fixed? && outs[i].result.Err?
  }

  /** A value for one more position keeps the prefix pinned. */
  lemma PinnedSnoc(outs: seq<Outcome>, vs: seq<Any>, v: Any)
    requires |vs| < |outs| && Pinned(outs[..|vs|], vs)
    requires outs[|vs|].Fixed? ==> outs[|vs|].result == Ok(v)
    ensures Pinned(outs[..|vs| + 1], vs + [v])
  {
    var i := |vs|;
    forall j | 0 <= j < i + 1 && outs[..i + 1][j].Fixed?
      ensures outs[..i + 1][j].result == Ok((vs + [v])[j])
    {
      if j < i {
        assert outs[..i][j] == outs[j];
      }
    }
  }

  /**
   * Instance key `k` at chain position `i` is the token of an injectable class
   * whose scope names position `i` as its nearest container of that name.
   */
  ghost predicate CachedAt(tokens: map<ClassId, Any>, scopes: map<ClassId, string>, names: seq<string>, k: Any, i: nat) {
    exists c :: c in tokens && tokens[c] == k && c in scopes && NearestName(names, scopes[c]) == Some(i)
  }

  /**
   * How resolution may change the instance caches of a chain: no entry
   * disappears, and every entry that is new or different is a class's
   * instance stored in that class's scope container.
   */
  ghost predicate CacheFrame(tokens: map<ClassId, Any>, scopes: map<ClassId, string>, names: seq<string>,
                             before: seq<map<Any, Any>>, after: seq<map<Any, Any>>) {
    && |after| == |before|
    && (forall i, k :: 0 <= i < |before| && k in before[i] ==> k in after[i])
    && (forall i, k :: 0 <= i < |after| && k in after[i] && (k !in before[i] || after[i][k] != before[i][k]) ==>
          CachedAt(tokens, scopes, names, k, i))
  }

  /** Two resolutions in a row change the caches only as one resolution may. */
  lemma CacheFrameTrans(tokens: map<ClassId, Any>, scopes: map<ClassId, string>, names: seq<string>,
                        a: seq<map<Any, Any>>, b: seq<map<Any, Any>>, c: seq<map<Any, Any>>)
    requires CacheFrame(tokens, scopes, names, a, b) && CacheFrame(tokens, scopes, names, b, c)
    ensures CacheFrame(tokens, scopes, names, a, c)
  {
    forall i, k | 0 <= i < |c| && k in c[i] && (k !in a[i] || c[i][k] != a[i][k])
      ensures CachedAt(tokens, scopes, names, k, i)
    {
      if k in b[i] && c[i][k] == b[i][k] {
        assert k !in a[i] || b[i][k] != a[i][k];
      }
    }
  }

  /** Storing a class's instance under its token in its scope container is a permitted change. */
  lemma CacheFrameStore(tokens: map<ClassId, Any>, scopes: map<ClassId, string>, names: seq<string>,
                        before: seq<map<Any, Any>>, c: ClassId, j: nat, v: Any)
    requires c in tokens && c in scopes && NearestName(names, scopes[c]) == Some(j) && j < |before|
    ensures CacheFrame(tokens, scopes, names, before, before[j := before[j][tokens[c] := v]])
  {
    var after := before[j := before[j][tokens[c] := v]];
    forall i, k | 0 <= i < |after| && k in after[i] && (k !in before[i] || after[i][k] != before[i][k])
      ensures CachedAt(tokens, scopes, names, k, i)
    {
      assert i == j && k == tokens[c];
    }
  }

  /**
   * With tokens unique, the only place resolution can add a class's token is
   * the class's scope container: a class without one is never cached.
   */
  lemma CacheFrameTokenAt(tokens: map<ClassId, Any>, scopes: map<ClassId, string>, names: seq<string>,
                          before: seq<map<Any, Any>>, after: seq<map<Any, Any>>, c: ClassId, i: nat)
    requires Injective(tokens) && CacheFrame(tokens, scopes, names, before, after)
    requires c in tokens && i < |after| && tokens[c] in after[i] && tokens[c] !in before[i]
    ensures c in scopes && NearestName(names, scopes[c]) == Some(i)
  {
    assert CachedAt(tokens, scopes, names, tokens[c], i);
    var d :| d in tokens && tokens[d] == tokens[c] && d in scopes && NearestName(names, scopes[d]) == Some(i);
    assert d == c;
  }

  /**
   * A class whose token no container holds before resolution, and that has no
   * scope container, still has no cached instance afterwards.
   */
  lemma NeverCachedWithoutScope(tokens: map<ClassId, Any>, scopes: map<ClassId, string>, names: seq<string>,
                                before: seq<map<Any, Any>>, after: seq<map<Any, Any>>, c: ClassId)
    requires Injective(tokens) && CacheFrame(tokens, scopes, names, before, after)
    requires c in tokens && Nearest(before, tokens[c]).None?
    requires c !in scopes || NearestName(names, scopes[c]).None?
    ensures Nearest(after, tokens[c]).None?
  {
    forall i | 0 <= i < |after|
      ensures tokens[c] !in after[i]
    {
      if tokens[c] in after[i] {
        CacheFrameTokenAt(tokens, scopes, names, before, after, c, i);
      }
    }
  }

  /**
   * A class whose token no container holds before resolution has, after its
   * instance is stored in its scope container at position `j`, exactly that
   * instance as its nearest cached one: no nearer container can hold it.
   */
  lemma CachedInScope(tokens: map<ClassId, Any>, scopes: map<ClassId, string>, names: seq<string>,
                      before: seq<map<Any, Any>>, mid: seq<map<Any, Any>>, c: ClassId, j: nat, v: Any)
    requires Injective(tokens) && CacheFrame(tokens, scopes, names, before, mid)
    requires c in tokens && Nearest(before, tokens[c]).None?
    requires c in scopes && NearestName(names, scopes[c]) == Some(j) && j < |mid|
    ensures Nearest(mid[j := mid[j][tokens[c] := v]], tokens[c]) == Some(v)
  {
    var after := mid[j := mid[j][tokens[c] := v]];
    forall i | 0 <= i < j
      ensures tokens[c] !in after[i]
    {
      if tokens[c] in mid[i] {
        CacheFrameTokenAt(tokens, scopes, names, before, mid, c, i);
      }
    }
    NearestAt(after, tokens[c], j);
  }

  /** The chain position of class `c`'s scope container: the nearest container named by its scope. */
  function ScopeSlot(meta: Metadata, names: seq<string>, c: ClassId): Option<nat> {
    if c in meta.scopes then NearestName(names, meta.scopes[c]) else None
  }

  /** The caches after `v` is kept as class `c`'s instance in its scope container, when it has one. */
  function Keep(meta: Metadata, names: seq<string>, c: ClassId, caches: seq<map<Any, Any>>, v: Any): seq<map<Any, Any>> {
    match ScopeSlot(meta, names, c)
    case Some(j) =>
      if j < |caches| && c in meta.classTokens then caches[j := caches[j][meta.classTokens[c] := v]] else caches
    case None => caches
  }

  /**
   * A class uncached before a resolution, whose instance is then kept in its
   * scope container: the whole change is one a resolution may make, and the
   * kept instance is the nearest one.
   */
  lemma KeepInScope(meta: Metadata, names: seq<string>, before: seq<map<Any, Any>>, mid: seq<map<Any, Any>>,
                    c: ClassId, v: Any)
    requires meta.Valid() && CacheFrame(meta.classTokens, meta.scopes, names, before, mid)
    requires c in meta.classTokens && Nearest(before, meta.classTokens[c]).None?
    requires ScopeSlot(meta, names, c).Some? && ScopeSlot(meta, names, c).value < |mid|
    ensures CacheFrame(meta.classTokens, meta.scopes, names, before, Keep(meta, names, c, mid, v))
    ensures Nearest(Keep(meta, names, c, mid, v), meta.classTokens[c]) == Some(v)
  {
    var j := ScopeSlot(meta, names, c).value;
    CacheFrameStore(meta.classTokens, meta.scopes, names, mid, c, j, v);
    CacheFrameTrans(meta.classTokens, meta.scopes, names, before, mid, Keep(meta, names, c, mid, v));
    CachedInScope(meta.classTokens, meta.scopes, names, before, mid, c, j, v);
  }

  /** A class uncached before a resolution and without a scope container is still uncached after it. */
  lemma NoSlotNoCache(meta: Metadata, names: seq<string>, before: seq<map<Any, Any>>, after: seq<map<Any, Any>>, c: ClassId)
    requires meta.Valid() && CacheFrame(meta.classTokens, meta.scopes, names, before, after)
    requires c in meta.classTokens && Nearest(before, meta.classTokens[c]).None?
    ensures ScopeSlot(meta, names, c).None? ==> Nearest(after, meta.classTokens[c]).None?
  {
    if ScopeSlot(meta, names, c).None? {
      NeverCachedWithoutScope(meta.classTokens, meta.scopes, names, before, after, c);
    }
  }

  /**
   * Resolving positions in order and meeting an error at position `i`, which
   * is no lazy handle, after every earlier fixed position gave its value: if
   * any position is the first to fail, it is `i` and its error is `e`, and
   * not every position succeeds whatever the caches hold.
   */
  lemma FirstFailure(outs: seq<Outcome>, vs: seq<Any>, i: nat, e: Error)
    requires i < |outs| && |vs| == i && Pinned(outs[..i], vs)
    requires !outs[i].Handle? && (outs[i].Fixed? ==> outs[i].result == Err(e))
    ensures forall k: nat :: FailsAt(outs, k) ==> k == i && outs[k].result == Err(e)
    ensures !OkBefore(outs, |outs|)
  {
    forall k: nat | FailsAt(outs, k)
      ensures k == i && outs[k].result == Err(e)
    {
      if k < i {
        assert false;
      } else if i < k {
        assert false;
      }
    }
  }
  /**
   * How far `resolveParameters` has come after `i` positions: `ps` holds
   * their values, pinned where the outcome is fixed; the caches went from
   * `before` to `now` only as a resolution may, and not at all while every
   * position so far succeeded whatever the caches hold; nothing under construction got
   * cached; and no position the stack already went through was passed.
   */
  ghost predicate Progress(env: Env, names: seq<string>, types: seq<ClassId>, providers: Sparse,
                           building: Option<ClassId>, frames: seq<Frame>, i: nat, ps: seq<Any>,
                           before: seq<map<Any, Any>>, now: seq<map<Any, Any>>) {
    && i <= |types| && |ps| == i
    && Pinned(Outcomes(env, types, providers)[..i], ps)
    && (OkBefore(Outcomes(env, types, providers), i) ==> now == before)
    && CacheFrame(env.meta.classTokens, env.meta.scopes, names, before, now)
    && Building(env.meta, building, frames, now)
    && forall p: nat :: p < i ==> !Revisits(frames, building, p)
  }

  /** Before the first position nothing has happened. */
  lemma ProgressStart(env: Env, names: seq<string>, types: seq<ClassId>, providers: Sparse,
                      building: Option<ClassId>, frames: seq<Frame>, caches: seq<map<Any, Any>>)
    requires Building(env.meta, building, frames, caches)
    ensures Progress(env, names, types, providers, building, frames, 0, [], caches, caches)
  {
  }

  /**
   * One more position resolved to `v`: its outcome, when fixed; no cache
   * change unless it is a nested construction; the stack did not already go
   * through it.
   */
  lemma ProgressStep(env: Env, names: seq<string>, types: seq<ClassId>, providers: Sparse,
                     building: Option<ClassId>, frames: seq<Frame>, i: nat, ps: seq<Any>,
                     before: seq<map<Any, Any>>, pre: seq<map<Any, Any>>, post: seq<map<Any, Any>>, v: Any)
    requires Progress(env, names, types, providers, building, frames, i, ps, before, pre) && i < |types|
    requires CacheFrame(env.meta.classTokens, env.meta.scopes, names, pre, post)
    requires Building(env.meta, building, frames, post)
    requires Outcomes(env, types, providers)[i].Fixed? ==> Outcomes(env, types, providers)[i].result == Ok(v)
    requires !Outcomes(env, types, providers)[i].Nested? ==> post == pre
    requires !Revisits(frames, building, i)
    ensures Progress(env, names, types, providers, building, frames, i + 1, ps + [v], before, post)
  {
    var outs := Outcomes(env, types, providers);
    CacheFrameTrans(env.meta.classTokens, env.meta.scopes, names, before, pre, post);
    PinnedSnoc(outs, ps, v);
  }

  /**
   * Position `i`, which is no lazy handle, failed with `e`: a fixed first
   * failure is that failure and leaves the caches as they were, and not every
   * position succeeds whatever the caches hold.
   */
  lemma ProgressFail(env: Env, names: seq<string>, types: seq<ClassId>, providers: Sparse,
                     building: Option<ClassId>, frames: seq<Frame>, i: nat, ps: seq<Any>,
                     before: seq<map<Any, Any>>, pre: seq<map<Any, Any>>, post: seq<map<Any, Any>>, e: Error)
    requires Progress(env, names, types, providers, building, frames, i, ps, before, pre) && i < |types|
    requires CacheFrame(env.meta.classTokens, env.meta.scopes, names, pre, post)
    requires !Outcomes(env, types, providers)[i].Handle?
    requires Outcomes(env, types, providers)[i].Fixed? ==>
      Outcomes(env, types, providers)[i].result == Err(e) && post == pre
    ensures CacheFrame(env.meta.classTokens, env.meta.scopes, names, before, post)
    ensures forall j: nat :: FailsAt(Outcomes(env, types, providers), j) ==>
      Outcomes(env, types, providers)[j].result.error == e && post == before
    ensures !OkBefore(Outcomes(env, types, providers), |types|)
  {
    var outs := Outcomes(env, types, providers);
    CacheFrameTrans(env.meta.classTokens, env.meta.scopes, names, before, pre, post);
    FirstFailure(outs, ps, i, e);
  }

  /**
   * Every position resolved: the values are pinned, no position fails, and a
   * class already under construction cannot be the one being built, since
   * the position its frame was at has been passed.
   */
  lemma ProgressDone(env: Env, names: seq<string>, types: seq<ClassId>, providers: Sparse,
                     building: Option<ClassId>, frames: seq<Frame>, ps: seq<Any>,
                     before: seq<map<Any, Any>>, now: seq<map<Any, Any>>)
    requires Progress(env, names, types, providers, building, frames, |types|, ps, before, now)
    requires ForPositions(env, types, providers, building, frames)
    ensures Pinned(Outcomes(env, types, providers), ps)
    ensures forall j: nat :: !FailsAt(Outcomes(env, types, providers), j)
    ensures building.Some? ==> !OnStack(frames, building.value)
  {
    var outs := Outcomes(env, types, providers);
    assert outs[..|types|] == outs;
    forall k | 0 <= k < |frames| && building.Some? && frames[k].0 == building.value
      ensures frames[k].1 < |types| && Revisits(frames, building, frames[k].1)
    {
      ReturnsToStack(env, frames, building.value, k);
    }
  }

}
