/**
 * The server builder (server_builder/src/server_builder.rs): collects
 * plugins under distinct names, then `build` flattens their initializers,
 * unions their requirements and runs `run_resorce_inits` on a new world.
 */
module ServerBuilders {
  import opened Wrappers
  import opened TypeInfos
  import opened Resources
  import opened Plugins
  import opened Resolution
  import opened ScanOrder

  // ---------------------------------------------------------------------
  // The overlap scan over every unordered pair of initializers.

  /** The findings of `init_overlap` over a list of pairs, in list order. */
  function FindingsOf(inits: seq<ResourceInitializer>, ps: seq<(nat, nat)>): seq<Finding>
    requires PairsIn(|inits|, ps)
  {
    if ps == [] then []
    else
      var p := ps[|ps| - 1];
      FindingsOf(inits, ps[..|ps| - 1]) + Overlap(inits[p.0], inits[p.1])
  }

  lemma {:induction false} FindingsOfAppend(inits: seq<ResourceInitializer>, ps: seq<(nat, nat)>, qs: seq<(nat, nat)>)
    requires PairsIn(|inits|, ps) && PairsIn(|inits|, qs)
    ensures PairsIn(|inits|, ps + qs)
    ensures FindingsOf(inits, ps + qs) == FindingsOf(inits, ps) + FindingsOf(inits, qs)
    decreases |qs|
  {
    if qs != [] {
      var n := |qs| - 1;
      assert (ps + qs)[..|ps + qs| - 1] == ps + qs[..n];
      FindingsOfAppend(inits, ps, qs[..n]);
    } else {
      assert ps + qs == ps;
    }
  }

  /** Everything the scan collects into `issues`: the findings of every pair, row by row. */
  function AllOverlaps(inits: seq<ResourceInitializer>): seq<Finding>
  {
    FindingsOf(inits, ScanPairs(|inits|, |inits|))
  }

  /** A finding is collected iff it is a finding of some pair of the list. */
  lemma {:induction false} FindingsOfMember(inits: seq<ResourceInitializer>, ps: seq<(nat, nat)>, f: Finding)
    requires PairsIn(|inits|, ps)
    ensures f in FindingsOf(inits, ps) <==> exists k :: 0 <= k < |ps| && f in Overlap(inits[ps[k].0], inits[ps[k].1])
    decreases |ps|
  {
    if ps != [] {
      var front := ps[..|ps| - 1];
      var last := ps[|ps| - 1];
      FindingsOfMember(inits, front, f);
      if f in FindingsOf(inits, front) {
        var k :| 0 <= k < |front| && f in Overlap(inits[front[k].0], inits[front[k].1]);
        assert ps[k] == front[k];
      } else if f in Overlap(inits[last.0], inits[last.1]) {
        assert ps[|ps| - 1] == last;
      } else {
        forall k | 0 <= k < |ps|
          ensures f !in Overlap(inits[ps[k].0], inits[ps[k].1])
        {
          if k < |front| {
            assert ps[k] == front[k];
          }
        }
      }
    }
  }

  /**
   * Every finding of the scan comes from a pair `i < u`, owned by `(i, u)`
   * in that order, and every finding of every such pair is collected.
   */
  lemma AllOverlapsPairs(inits: seq<ResourceInitializer>, f: Finding)
    ensures f in AllOverlaps(inits) <==>
      exists i, u :: 0 <= i < u < |inits| && f in Overlap(inits[i], inits[u])
  {
    var n := |inits|;
    var ps := ScanPairs(n, n);
    FindingsOfMember(inits, ps, f);
    if exists i, u :: 0 <= i < u < n && f in Overlap(inits[i], inits[u]) {
      var i: nat, u: nat :| i < u < n && f in Overlap(inits[i], inits[u]);
      ScanPairsCount(n, n, i, u);
      VisitsMember(ps, (i, u));
      var k :| 0 <= k < |ps| && ps[k] == (i, u);
    }
  }

  /**
   * With two initializers exactly one direction is scanned: the findings
   * are those of `a.init_overlap(b)`, each reported once.
   */
  lemma TwoInitializersScanOnce(a: ResourceInitializer, b: ResourceInitializer)
    ensures AllOverlaps([a, b]) == Overlap(a, b)
  {
    assert RowPairs(1, 2) == [];
    assert RowPairs(0, 1) == [];
    assert RowPairs(0, 2) == [(0, 1)];
    assert ScanPairs(2, 2) == [(0, 1)];
    assert [(0, 1)][..0] == [];
    assert FindingsOf([a, b], [(0, 1)]) == FindingsOf([a, b], []) + Overlap(a, b);
  }

  /**
   * Two initializers that each require `t` once and do not create it yield
   * exactly one warning about `t`, whichever was registered first.
   */
  lemma TwoInitializersOneWarning(a: ResourceInitializer, b: ResourceInitializer, t: TypeId)
    requires CountId(a.required, t) == 1 && CountId(b.required, t) == 1 && Unproduced(t, a, b)
    ensures FindingCount(AllOverlaps([a, b]), t) == 1
    ensures FindingCount(AllOverlaps([b, a]), t) == 1
  {
    TwoInitializersScanOnce(a, b);
    TwoInitializersScanOnce(b, a);
    OverlapCount(a, b, t);
    OverlapCount(b, a, t);
  }

  /** One more column of a row adds the findings of that one pair. */
  lemma FindingsOfRowStep(inits: seq<ResourceInitializer>, i: nat, u: nat)
    requires i < u < |inits|
    ensures FindingsOf(inits, RowPairs(i, u + 1)) == FindingsOf(inits, RowPairs(i, u)) + Overlap(inits[i], inits[u])
  {
    var ps := RowPairs(i, u + 1);
    assert ps[..|ps| - 1] == RowPairs(i, u);
  }

  /** The inner loop of the scan, for the row `i`: `init_overlap` with every later initializer. */
  method ScanRow(inits: seq<ResourceInitializer>, i: nat) returns (row: seq<Finding>)
    requires i < |inits|
    ensures row == FindingsOf(inits, RowPairs(i, |inits|))
  {
    row := [];
    for u := i + 1 to |inits|
      invariant row == FindingsOf(inits, RowPairs(i, u))
    {
      FindingsOfRowStep(inits, i, u);
      var found := InitOverlap(inits[i], inits[u]);
      row := row + found;
    }
  }

  /** The nested loops of the scan; they read the initializers and nothing else. */
  method OverlapScan(inits: seq<ResourceInitializer>) returns (issues: seq<Finding>)
    ensures issues == AllOverlaps(inits)
  {
    var n := |inits|;
    issues := [];
    for i := 0 to n
      invariant issues == FindingsOf(inits, ScanPairs(i, n))
    {
      var row := ScanRow(inits, i);
      FindingsOfAppend(inits, ScanPairs(i, n), RowPairs(i, n));
      issues := issues + row;
    }
  }

  // ---------------------------------------------------------------------
  // Requirement validation.

  /** The `(plugin, type)` requirements whose type was not created. */
  function MissingRequirements(reqs: set<(string, TypeInfo)>, created: set<TypeId>): (r: set<(string, TypeInfo)>)
    ensures r <= reqs
    ensures forall p :: p in reqs ==> (p in r <==> p.1.id !in created)
  {
    set p | p in reqs && p.1.id !in created
  }

  /** The loop counting `num_missing_resources`, over the set in whatever order it yields. */
  method CountMissing(reqs: set<(string, TypeInfo)>, created: set<TypeId>) returns (count: nat)
    ensures count == |MissingRequirements(reqs, created)|
  {
    var remaining := reqs;
    ghost var seen: set<(string, TypeInfo)> := {};
    count := 0;
    while remaining != {}
      invariant remaining <= reqs && seen == reqs - remaining
      invariant count == |MissingRequirements(seen, created)|
      decreases |remaining|
    {
      var p :| p in remaining;
      if p.1.id !in created {
        assert MissingRequirements(seen + {p}, created) == MissingRequirements(seen, created) + {p};
        count := count + 1;
      } else {
        assert MissingRequirements(seen + {p}, created) == MissingRequirements(seen, created);
      }
      remaining := remaining - {p};
      seen := seen + {p};
    }
    assert seen == reqs;
  }

  // ---------------------------------------------------------------------
  // run_resorce_inits

  /** Why `run_resorce_inits` panics. */
  datatype BuildError =
    | Unresolvable(stuckCount: nat, reports: seq<StuckReport>)
    | UnmetRequirements(missingCount: nat, missing: set<(string, TypeInfo)>)

  /**
   * The outcome `run_resorce_inits` reaches from the resolution of all
   * initializers: the stuck report if a pass made no progress, otherwise
   * the unmet requirements if there are any, otherwise success (`None`).
   */
  function Outcome(inits: seq<ResourceInitializer>, reqs: set<(string, TypeInfo)>, r: ResolveResult): (e: Option<BuildError>)
    requires IndicesIn(|inits|, r.stuck)
    ensures e.None? <==> r.Succeeded() && forall p :: p in reqs ==> p.1.id in r.created
    ensures !r.Succeeded() ==> e == Some(Unresolvable(|r.stuck|, Reports(inits, r.stuck, r.created)))
    ensures r.Succeeded() && e.Some? ==> e.value.UnmetRequirements? && e.value.missingCount > 0
    ensures r.Succeeded() && e.Some? ==>
      e.value == UnmetRequirements(|MissingRequirements(reqs, r.created)|, MissingRequirements(reqs, r.created))
  {
    if !r.Succeeded() then Some(Unresolvable(|r.stuck|, Reports(inits, r.stuck, r.created)))
    else
      var missing := MissingRequirements(reqs, r.created);
      if |missing| > 0 then Some(UnmetRequirements(|missing|, missing))
      else
        assert missing == {};
        None
  }

  /**
   * One pass of the loop: the `for x in &resource_inits` walk, calling what
   * is satisfied and extending `created_types` at once, and collecting the
   * rest in order.
   */
  method RunPass(inits: seq<ResourceInitializer>, pending: seq<nat>, created: set<TypeId>, world: World)
    returns (rest: seq<nat>, createdTypes: set<TypeId>)
    requires AllWellFormed(inits) && IndicesIn(|inits|, pending)
    requires created <= world.resources.Keys
    modifies world
    ensures var p := Pass(inits, pending, created, old(world.resources));
      rest == p.rest && createdTypes == p.created && world.resources == p.world
  {
    ghost var world0 := world.resources;
    ghost var called: seq<nat> := [];
    rest := [];
    createdTypes := created;
    for k := 0 to |pending|
      invariant Pass(inits, pending[..k], created, world0) == PassState(rest, createdTypes, world.resources, called)
    {
      var i := pending[k];
      assert pending[..k + 1][..k] == pending[..k];
      if AllRequiresIn(inits[i], createdTypes) {
        assert WellFormed(inits[i]);
        AllRequiresInMonotone(inits[i], createdTypes, world.resources.Keys);
        CallSucceedsWhenRequiresIn(inits[i], world.resources);
        var ok := Call(inits[i], world);
        createdTypes := createdTypes + CreatedIds(inits[i]);
        called := called + [i];
      } else {
        rest := rest + [i];
      }
    }
    assert pending[..|pending|] == pending;
  }

  /**
   * `run_resorce_inits`: the overlap scan, then the pass loop extending
   * `created_types` as it calls initializers, then requirement validation.
   * The world ends as the resolution leaves it; on failure it is the world
   * at the moment of the panic.
   */
  method RunResourceInits(inits: seq<ResourceInitializer>, reqs: set<(string, TypeInfo)>, world: World)
    returns (issues: seq<Finding>, err: Option<BuildError>)
    requires AllWellFormed(inits)
    modifies world
    ensures issues == AllOverlaps(inits)
    ensures world.resources == ResolveAll(inits, old(world.resources)).world
    ensures err == Outcome(inits, reqs, ResolveAll(inits, old(world.resources)))
  {
    issues := OverlapScan(inits);

    ghost var r0 := ResolveAll(inits, world.resources);
    var createdTypes: set<TypeId> := {};
    var pending := AllIndices(|inits|);
    while pending != []
      invariant IndicesIn(|inits|, pending)
      invariant createdTypes <= world.resources.Keys
      invariant Resolve(inits, pending, createdTypes, world.resources).created == r0.created
      invariant Resolve(inits, pending, createdTypes, world.resources).world == r0.world
      invariant Resolve(inits, pending, createdTypes, world.resources).stuck == r0.stuck
      decreases |pending|
    {
      ghost var created0 := createdTypes;
      ghost var world0 := world.resources;
      var rest;
      rest, createdTypes := RunPass(inits, pending, createdTypes, world);
      if |rest| == |pending| {
        PassCreated(inits, pending, created0, world0);
        PassWorld(inits, pending, created0, world0);
        assert Resolve(inits, pending, created0, world0) == ResolveResult(created0, world0, [], pending);
        assert createdTypes == created0 && world.resources == world0;
        err := Some(Unresolvable(|rest|, Reports(inits, pending, createdTypes)));
        return;
      }
      pending := rest;
    }

    assert Resolve(inits, [], createdTypes, world.resources) == ResolveResult(createdTypes, world.resources, [], []);
    assert r0.Succeeded() && r0.created == createdTypes;
    var count := CountMissing(reqs, createdTypes);
    if count > 0 {
      err := Some(UnmetRequirements(count, MissingRequirements(reqs, createdTypes)));
    } else {
      err := None;
    }
  }

  // ---------------------------------------------------------------------
  // The builder.

  /** `flat_map` over the plugins' initializer lists, in registration order. */
  function Flatten(plugins: seq<Plugin>): seq<ResourceInitializer>
    reads plugins
  {
    if plugins == [] then []
    else Flatten(plugins[..|plugins| - 1]) + plugins[|plugins| - 1].resourceInitialisers
  }

  /** The requirements reduced with `extend`; empty for no plugins (`unwrap_or_default`). */
  function UnionRequirements(plugins: seq<Plugin>): set<(string, TypeInfo)>
    reads plugins
  {
    if plugins == [] then {}
    else UnionRequirements(plugins[..|plugins| - 1]) + plugins[|plugins| - 1].resourceRequirements
  }

  /** The flattened list holds exactly the initializers of the plugins. */
  lemma {:induction false} FlattenMembers(plugins: seq<Plugin>)
    ensures forall x :: x in Flatten(plugins) <==> exists k :: 0 <= k < |plugins| && x in plugins[k].resourceInitialisers
  {
    if plugins != [] {
      var front := plugins[..|plugins| - 1];
      assert forall k :: 0 <= k < |front| ==> front[k] == plugins[k];
      FlattenMembers(front);
    }
  }

  /** A requirement is in the union iff some plugin declares it. */
  lemma {:induction false} UnionRequirementsMembers(plugins: seq<Plugin>)
    ensures forall q :: q in UnionRequirements(plugins) <==> exists k :: 0 <= k < |plugins| && q in plugins[k].resourceRequirements
  {
    if plugins != [] {
      var front := plugins[..|plugins| - 1];
      assert forall k :: 0 <= k < |front| ==> front[k] == plugins[k];
      UnionRequirementsMembers(front);
    }
  }

  /** With a single plugin, `build` sees exactly that plugin's initializers and requirements. */
  lemma FlattenOne(p: Plugin)
    ensures Flatten([p]) == p.resourceInitialisers
    ensures UnionRequirements([p]) == p.resourceRequirements
  {
    assert [p][..0] == [];
  }

  /**
   * `flat_map` keeps registration order: the initializers of a later
   * plugin follow those of every earlier one, each list kept whole.
   */
  lemma {:induction false} FlattenAppend(ps: seq<Plugin>, qs: seq<Plugin>)
    ensures Flatten(ps + qs) == Flatten(ps) + Flatten(qs)
    decreases |qs|
  {
    if qs == [] {
      assert ps + qs == ps;
    } else {
      var all, front := ps + qs, qs[..|qs| - 1];
      assert all[..|all| - 1] == ps + front && all[|all| - 1] == qs[|qs| - 1];
      FlattenAppend(ps, front);
    }
  }

  /** The requirements of plugins registered in two batches are the union of both batches'. */
  lemma {:induction false} UnionRequirementsAppend(ps: seq<Plugin>, qs: seq<Plugin>)
    ensures UnionRequirements(ps + qs) == UnionRequirements(ps) + UnionRequirements(qs)
    decreases |qs|
  {
    if qs == [] {
      assert ps + qs == ps;
    } else {
      var all, front := ps + qs, qs[..|qs| - 1];
      assert all[..|all| - 1] == ps + front && all[|all| - 1] == qs[|qs| - 1];
      UnionRequirementsAppend(ps, front);
    }
  }

  /**
   * The union of valid plugins' requirements holds at most one entry per
   * plugin name and type id, so structural set membership agrees with the
   * `HashSet` that compares `TypeInfo` by id.
   */
  lemma UnionRequirementsById(plugins: seq<Plugin>)
    requires forall k :: 0 <= k < |plugins| ==> plugins[k].Valid()
    ensures forall r, q :: r in UnionRequirements(plugins) && q in UnionRequirements(plugins) && r.0 == q.0 && Eq(r.1, q.1) ==> r == q
  {
    UnionRequirementsMembers(plugins);
    forall r, q | r in UnionRequirements(plugins) && q in UnionRequirements(plugins) && r.0 == q.0 && Eq(r.1, q.1)
      ensures r == q
    {
      var i :| 0 <= i < |plugins| && r in plugins[i].resourceRequirements;
      var j :| 0 <= j < |plugins| && q in plugins[j].resourceRequirements;
      assert r.1 == Of(r.1.id.ty) && q.1 == Of(q.1.id.ty);
      OfIdentifiesTypes(r.1.id.ty, q.1.id.ty);
    }
  }

  /** Flattening the boxed initializers of valid plugins yields only boxed initializers. */
  lemma FlattenWellFormed(plugins: seq<Plugin>)
    requires forall k :: 0 <= k < |plugins| ==> plugins[k].Valid()
    ensures AllWellFormed(Flatten(plugins))
  {
    var inits := Flatten(plugins);
    FlattenMembers(plugins);
    forall i | 0 <= i < |inits|
      ensures WellFormed(inits[i])
    {
      assert inits[i] in inits;
      var j :| 0 <= j < |plugins| && inits[i] in plugins[j].resourceInitialisers;
      var k :| 0 <= k < |plugins[j].resourceInitialisers| && plugins[j].resourceInitialisers[k] == inits[i];
    }
  }

  class ServerBuilder {
    var plugins: seq<Plugin>

    /** Registered names are pairwise distinct, and every plugin keeps its own invariant. */
    ghost predicate Valid()
      reads this, plugins
    {
      && (forall i, j :: 0 <= i < j < |plugins| ==> plugins[i].name != plugins[j].name)
      && (forall k :: 0 <= k < |plugins| ==> plugins[k].Valid())
    }

    /** `ServerBuilder::new`. */
    constructor ()
      ensures Valid() && plugins == []
    {
      plugins := [];
    }

    /**
     * `add_plugin`: `false` stands for the panic on a name already
     * registered; otherwise the plugin is appended.
     */
    method AddPlugin(plugin: Plugin) returns (ok: bool)
      requires Valid() && plugin.Valid()
      modifies this
      ensures Valid()
      ensures ok <==> forall k :: 0 <= k < |old(plugins)| ==> old(plugins)[k].name != plugin.name
      ensures plugins == if ok then old(plugins) + [plugin] else old(plugins)
    {
      ok := true;
      var k := 0;
      while k < |plugins|
        invariant 0 <= k <= |plugins|
        invariant ok <==> forall j :: 0 <= j < k ==> plugins[j].name != plugin.name
      {
        if plugins[k].name == plugin.name {
          ok := false;
        }
        k := k + 1;
      }
      if ok {
        plugins := plugins + [plugin];
      }
    }

    /**
     * `build`: flattens the initializers, unions the requirements and runs
     * them against a new, empty world.
     */
    method Build() returns (world: World, issues: seq<Finding>, err: Option<BuildError>)
      requires Valid()
      ensures fresh(world)
      ensures AllWellFormed(Flatten(plugins))
      ensures issues == AllOverlaps(Flatten(plugins))
      ensures world.resources == ResolveAll(Flatten(plugins), map[]).world
      ensures err == Outcome(Flatten(plugins), UnionRequirements(plugins), ResolveAll(Flatten(plugins), map[]))
    {
      var inits := Flatten(plugins);
      var reqs := UnionRequirements(plugins);
      FlattenWellFormed(plugins);
      world := new World();
      assert Flatten(plugins) == inits && UnionRequirements(plugins) == reqs;
      issues, err := RunResourceInits(inits, reqs, world);
      assert Flatten(plugins) == inits && UnionRequirements(plugins) == reqs;
    }
  }
}
