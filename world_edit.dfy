/**
 * The example server (example/src/main.rs): one plugin, `world_edit`,
 * whose initializers are registered in an order that needs two passes.
 */
module WorldEdit {
  import opened Wrappers
  import opened TypeInfos
  import opened Resources
  import opened Plugins
  import opened Resolution
  import opened ServerBuilders

  const Usize := RustType("usize", 0)
  const I32 := RustType("i32", 0)
  const PluginName := "world_edit"

  /** `|x: &usize| -> i32 { (x + 1) as i32 }`; the cast cannot wrap for the values reached here. */
  function AddOne(x: Value): Value
  {
    x + 1
  }

  /** `|| -> usize { 1 }`. */
  function One(): Value
  {
    1
  }

  /** `|x: &usize| -> i32 { (x + 1) as i32 }` as handed to `add_resource`. */
  function ReadUsize(): Closure
  {
    Fn1(Usize, I32, AddOne)
  }

  /** `|| -> usize { 1 }` as handed to `add_resource`. */
  function MakeUsize(): Closure
  {
    Fn0(Usize, One)
  }

  /** The three initializers of `init_plugin`, in registration order. */
  function ExampleInits(): (inits: seq<ResourceInitializer>)
    ensures |inits| == 3 && AllWellFormed(inits)
  {
    [ToBox(ReadUsize(), PluginName), ToBox(MakeUsize(), PluginName), ToBox(ReadUsize(), PluginName)]
  }

  /** What boxing the two closures gives: `i32` from `usize`, and `usize` from nothing. */
  lemma ExampleBoxes()
    ensures ToBox(ReadUsize(), PluginName).required == [Of(Usize)]
    ensures CreatedIds(ToBox(ReadUsize(), PluginName)) == {IdOf(I32)}
    ensures ToBox(MakeUsize(), PluginName).required == []
    ensures CreatedIds(ToBox(MakeUsize(), PluginName)) == {IdOf(Usize)}
  {
    assert CreatesIds(ToBox(ReadUsize(), PluginName)) == [IdOf(I32)];
    assert CreatesIds(ToBox(MakeUsize(), PluginName)) == [IdOf(Usize)];
  }

  /** The world after both resources exist. */
  function FinalWorld(): WorldMap
  {
    map[IdOf(Usize) := 1, IdOf(I32) := 2]
  }

  /** The first pass after two steps: the first initializer waits, the second creates `usize = 1`. */
  lemma ExampleFirstPassPrefix()
    ensures Pass(ExampleInits(), [0, 1], {}, map[]) == PassState([0], {IdOf(Usize)}, map[IdOf(Usize) := 1], [1])
  {
    var inits := ExampleInits();
    ExampleBoxes();
    assert [0, 1][..1] == [0] && [0][..0] == [];
    assert !AllRequiresIn(inits[0], {});
    assert Pass(inits, [0], {}, map[]) == PassState([0], {}, map[], []);
    assert InitResult(MakeUsize(), map[]) == Some(map[IdOf(Usize) := 1]);
  }

  /**
   * The first pass skips the first initializer (its `usize` does not exist
   * yet), calls the second and then the third, which already sees `usize`.
   */
  lemma ExampleFirstPass()
    ensures Pass(ExampleInits(), [0, 1, 2], {}, map[]) == PassState([0], {IdOf(Usize), IdOf(I32)}, FinalWorld(), [1, 2])
  {
    var inits := ExampleInits();
    var m1 := map[IdOf(Usize) := 1];
    ExampleBoxes();
    ExampleFirstPassPrefix();
    assert [0, 1, 2][..2] == [0, 1];
    assert AllRequiresIn(inits[2], {IdOf(Usize)});
    assert InitResult(ReadUsize(), m1) == Some(m1[IdOf(I32) := 2]);
    assert m1[IdOf(I32) := 2] == FinalWorld();
  }

  /** The second pass calls the first initializer, which writes `i32 = 2` again. */
  lemma ExampleSecondPass()
    ensures Pass(ExampleInits(), [0], {IdOf(Usize), IdOf(I32)}, FinalWorld())
         == PassState([], {IdOf(Usize), IdOf(I32)}, FinalWorld(), [0])
  {
    var inits := ExampleInits();
    ExampleBoxes();
    assert [0][..0] == [];
    assert AllRequiresIn(inits[0], {IdOf(Usize), IdOf(I32)});
    assert InitResult(ReadUsize(), FinalWorld()) == Some(FinalWorld()[IdOf(I32) := 2]);
    assert FinalWorld()[IdOf(I32) := 2] == FinalWorld();
  }

  /**
   * Resolution of the example needs two passes and ends with `usize = 1`
   * and `i32 = 2`.
   */
  lemma ExampleResolves()
    ensures var r := ResolveAll(ExampleInits(), map[]);
      && r.Succeeded()
      && r.order == [1, 2, 0]
      && r.world == FinalWorld()
      && r.created == {IdOf(Usize), IdOf(I32)}
  {
    var inits := ExampleInits();
    assert AllIndices(3) == [0, 1, 2];
    ExampleFirstPass();
    ExampleSecondPass();
    var created := {IdOf(Usize), IdOf(I32)};
    assert Resolve(inits, [], created, FinalWorld()) == ResolveResult(created, FinalWorld(), [], []);
    assert Resolve(inits, [0], created, FinalWorld()) == ResolveResult(created, FinalWorld(), [0], []);
  }

  /**
   * The build of the example reports no error: resolution succeeds and the
   * one requirement, `usize`, was created.
   */
  lemma ExampleOutcome()
    ensures Outcome(ExampleInits(), {(PluginName, Of(Usize))}, ResolveAll(ExampleInits(), map[])) == None
  {
    ExampleResolves();
  }

  /** `world_edit` has no whitespace, so `Plugin::new` accepts it. */
  lemma ExampleNameAccepted()
    ensures !AnyWhitespace(PluginName)
  {
    AnyWhitespaceIff(PluginName);
    forall k | 0 <= k < |PluginName|
      ensures !IsWhitespace(PluginName[k])
    {
      assert PluginName[k] in "world_edit";
    }
  }

  /** `Plugin::new("world_edit")`: the name is accepted, so it does not panic. */
  method NewPlugin() returns (plugin: Plugin)
    ensures fresh(plugin) && plugin.Valid() && plugin.name == PluginName
    ensures plugin.resourceInitialisers == [] && plugin.resourceRequirements == {}
  {
    ExampleNameAccepted();
    var created := Plugin.New(PluginName);
    plugin := created.value;
  }

  /** The three `add_resource` calls of `init_plugin`, in order. */
  method AddExampleResources(plugin: Plugin)
    requires plugin.Valid() && plugin.resourceInitialisers == []
    modifies plugin
    ensures plugin.Valid()
    ensures plugin.resourceInitialisers
         == [ToBox(ReadUsize(), plugin.name), ToBox(MakeUsize(), plugin.name), ToBox(ReadUsize(), plugin.name)]
    ensures plugin.resourceRequirements == old(plugin.resourceRequirements)
  {
    plugin.AddResource(ReadUsize());
    plugin.AddResource(MakeUsize());
    plugin.AddResource(ReadUsize());
  }

  /** `init_plugin`: three initializers and one requirement on `usize`. */
  method InitPlugin() returns (plugin: Plugin)
    ensures fresh(plugin) && plugin.Valid() && plugin.name == PluginName
    ensures plugin.resourceInitialisers == ExampleInits()
    ensures plugin.resourceRequirements == {(PluginName, Of(Usize))}
  {
    plugin := NewPlugin();
    AddExampleResources(plugin);
    plugin.AddResourceRequirement(Usize);
  }

  /**
   * The first half of `main`: register the plugin and build the server.
   * The build reports no error and leaves `usize = 1` and `i32 = 2`.
   */
  method BuildExample() returns (world: World, err: Option<BuildError>)
    ensures fresh(world)
    ensures err == None
    ensures world.resources == FinalWorld()
  {
    var plugin := InitPlugin();
    var app := new ServerBuilder();
    var ok := app.AddPlugin(plugin);
    assert app.plugins == [plugin];
    FlattenOne(plugin);
    var issues;
    world, issues, err := app.Build();
    assert Flatten(app.plugins) == ExampleInits();
    assert UnionRequirements(app.plugins) == {(PluginName, Of(Usize))};
    ExampleOutcome();
    ExampleResolves();
  }

  /**
   * `main`: build the server from `init_plugin` and read both resources
   * back: `usize` is 1 and `i32` is 2, and no requirement is unmet.
   */
  method RunExample() returns (usizeValue: Option<Value>, i32Value: Option<Value>, err: Option<BuildError>)
    ensures err == None
    ensures usizeValue == Some(1) && i32Value == Some(2)
  {
    var world;
    world, err := BuildExample();
    usizeValue := world.GetResource(IdOf(Usize));
    i32Value := world.GetResource(IdOf(I32));
  }
}
