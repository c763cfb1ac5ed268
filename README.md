# Resource resolver of static_feather, in Dafny

This project models the start-up wiring step of the static_feather server.
Plugins register *resource initializers*: functions of up to three borrowed
resources that produce one new resource. The server builder collects the
plugins, warns about pairs of initializers that read the same resource
without creating it, and then calls the initializers in passes. Each pass
calls every initializer whose inputs already exist. The loop stops when
nothing is pending, or fails when a pass makes no progress. Last, it checks
that every declared requirement was created.

The modules follow the source files. server_builder.rs is split into three
modules (`Resolution`, `ScanOrder` and `ServerBuilders`); `Wrappers` holds the
`Option` type, and `WorldEdit` is the example server:

- `TypeInfos` (`type_info.dfy`) covers `TypeInfo`. Equality and hashing use
  only the type id.
- `Resources` (`resources.dfy`) has:
  - the bevy `World` as a class over a map from type ids to values;
  - one `Closure` constructor per `ResourceInit` arity (0 to 3), with
    `consumes`, `produces`, `init` and `to_box`;
  - `ResourceInitializer`, with `all_requires_in`, `creates_ids` and `call`;
  - the `init_overlap` diagnostic. It is a method with nested loops, proved
    equal to a specification function, and that function has its own
    lemmas.
- `Plugins` (`plugin.dfy`) is the `Plugin` builder. It is a class whose
  methods update the fields in place and keep an invariant `Valid()`.
- `Resolution` (`resolution.dfy`) states the fixed-point loop of
  `run_resorce_inits` on values:
  - `Pass` is one pass and `Resolve` is the whole loop.
  - Soundness and completeness are proved about them. The loop succeeds
    exactly when a schedule of all initializers exists.
  - Each initializer is called at most once.
  - `created_types` stays a subset of the world's keys.
  - On success, `created_types` is the union of all `creates` ids.
- `ScanOrder` (`scan_order.dfy`) is the order in which the two loops of the
  overlap scan visit index pairs. Each pair `i < u` is visited exactly once.
- `ServerBuilders` (`server_builder.dfy`) holds `ServerBuilder` and
  `run_resorce_inits` as imperative methods, each proved against a
  function that specifies it:
  - the overlap scan `OverlapScan` against `AllOverlaps`;
  - the requirement count `CountMissing` against `MissingRequirements`;
  - the pass loop `RunPass` and `RunResourceInits` against `Pass` and
    `Resolve` of `Resolution`.
- `WorldEdit` (`world_edit.dfy`) is the example server. Its one plugin
  registers `usize -> i32`, `() -> usize` and `usize -> i32`. The model
  proves that resolution takes two passes and ends with `usize = 1` and
  `i32 = 2`.

Panics are modelled as error values:

- `Plugin::new` returns `None`.
- `add_system` returns `Some(LabelError)`.
- `add_plugin` returns `false`.
- `init`/`call` return `false`, or `None` from `InitResult`.
- `run_resorce_inits` returns `Some(BuildError)`, which carries the data the
  source prints: the stuck count with one report per stuck initializer, or
  the unmet requirements with their number.

Behaviour worth noting:

- An empty plugin name is accepted. Only whitespace is rejected.
- Labels are checked against the plugin's own labels only. Two plugins may
  use the same system label.
- The overlap scan also reports pairs of initializers from the same plugin.
- The scan's comment speaks of two initializers that *create* the same
  type, but the code compares `requires` lists and reports a type that
  neither of the two creates.

## Model

| member | source | states |
|---|---|---|
| TypeInfos.Of | core/feather_plugin/src/type_info.rs:23-28 | `of::<A>()` carries the id of `A` |
| TypeInfos.Eq | core/feather_plugin/src/type_info.rs:10-14 | two `TypeInfo`s are equal iff they feed the hasher the same value, so `eq` and `hash` agree in both directions |
| TypeInfos.Hash | core/feather_plugin/src/type_info.rs:16-20 | only the id is fed to the hasher; no contract of its own, `Eq` and `HashRespectsEq` state how it relates to equality |
| TypeInfos.EqIgnoresName | core/feather_plugin/src/type_info.rs:10-14 | two `TypeInfo`s are equal iff their ids are; renaming either side does not change equality |
| TypeInfos.EqIsEquivalence | core/feather_plugin/src/type_info.rs:10-14 | `eq` is reflexive, symmetric and transitive, as the derived `Eq` claims |
| TypeInfos.HashRespectsEq | core/feather_plugin/src/type_info.rs:16-20 | equal values hash equally |
| TypeInfos.OfIdentifiesTypes | core/feather_plugin/src/type_info.rs:23-28 | `of` is deterministic and separates types; on values built by `of`, `eq` is structural equality |
| TypeInfos.SameNameDistinctTypes | core/feather_plugin/src/type_info.rs:10-14 | two distinct types whose names print alike are still unequal |
| Resources.World.constructor | core/server_builder/src/server_builder.rs:31 | a new world holds no resource |
| Resources.World.GetResource | core/feather_plugin/src/resources.rs:68 | `Some` iff the type is stored, with the stored value |
| Resources.World.InsertResource | core/feather_plugin/src/resources.rs:71 | inserts or replaces the value of one type; every other entry is unchanged |
| Resources.Consumes | core/feather_plugin/src/resources.rs:74-76 | one `TypeInfo` per parameter, in declaration order, at most three (the other arities are at lines 108-114, 142-144 and 169-171) |
| Resources.Produces | core/feather_plugin/src/resources.rs:78-80 | exactly one type, so `creates` is never empty |
| Resources.InitResultSpec | core/feather_plugin/src/resources.rs:67-72 | `init` panics iff some consumed type is missing from the world; otherwise it adds the produced type's key and keeps every other entry |
| Resources.InitResult | core/feather_plugin/src/resources.rs:67-72 | the world after `init` for each arity (the other arities at lines 100-104, 136-140 and 164-166), `None` for the panic of a missing parameter; no contract of its own, `InitResultSpec` states it |
| Resources.InitReadsOnlyParams | core/feather_plugin/src/resources.rs:100-106 | the inserted value depends only on the values of the consumed types |
| Resources.Init | core/feather_plugin/src/resources.rs:136-140 | the method reading the parameters and inserting the result leaves the world as `InitResult` says, and leaves it unchanged when it panics |
| Resources.ToBox | core/feather_plugin/src/resources.rs:82-89 | stamps the owner's name and sets `requires` to `consumes()` and `creates` to `produces()` of the same closure |
| Resources.Ids | core/feather_plugin/src/resources.rs:49 | the ids of a list of types, same length and order |
| Resources.CreatesIds | core/feather_plugin/src/resources.rs:48-50 | `creates_ids` has the length and order of `creates`, mapped to ids |
| Resources.AllIdsInIff | core/feather_plugin/src/resources.rs:33 | the `all` walk holds iff every id of the list is in the set |
| Resources.AllRequiresInIff | core/feather_plugin/src/resources.rs:32-34 | `all_requires_in(s)` holds iff every `requires[k].id` is in `s`, and it always holds for an empty `requires` |
| Resources.AllRequiresIn | core/feather_plugin/src/resources.rs:32-34 | `all_requires_in` as the `all` walk over `requires`; no contract of its own, `AllRequiresInIff` and `AllRequiresInMonotone` state it |
| Resources.AllRequiresInMonotone | core/feather_plugin/src/resources.rs:32-34 | a larger set keeps a satisfied initializer satisfied |
| Resources.CallSucceedsWhenRequiresIn | core/feather_plugin/src/resources.rs:36-38 | once the requirements are among the world's keys, `call` cannot panic, and afterwards the keys are the old keys plus `creates_ids` |
| Resources.CallResult | core/feather_plugin/src/resources.rs:36-38 | `call` on the world's contents: the outcome of `init` of the boxed closure; no contract of its own, `CallSucceedsWhenRequiresIn` and `Call` state it |
| Resources.Call | core/feather_plugin/src/resources.rs:36-38 | `call` runs the boxed closure against the world |
| Resources.InitOverlap | core/feather_plugin/src/resources.rs:18-30 | the nested loops compute exactly the specification `Overlap(a, b)` |
| Resources.OverlapSound | core/feather_plugin/src/resources.rs:18-30 | every finding names a type that `a` requires, `b` requires and neither creates, owned by `(a, b)`; with either `requires` empty there is none |
| Resources.ContainsId | core/feather_plugin/src/resources.rs:23 | `Vec::contains`, which compares with `eq`: holds iff some entry has the given id, whatever its name; no contract of its own |
| Resources.Overlap | core/feather_plugin/src/resources.rs:18-30 | `init_overlap` as the rows of the nested loop; no contract of its own, `OverlapSound`, `OverlapCount` and `OverlapSymmetric` state it |
| Resources.RowSound | core/feather_plugin/src/resources.rs:21-26 | each finding of the inner loop is `(x, a, b)` for an `x` in `b.requires` that neither creates |
| Resources.OverlapOfSound | core/feather_plugin/src/resources.rs:20-28 | the outer loop's findings are those of its rows |
| Resources.FindingCountAppend | core/feather_plugin/src/resources.rs:24 | counting findings per type adds up over concatenation |
| Resources.RowCount | core/feather_plugin/src/resources.rs:21-26 | the inner loop for `x` emits one finding per entry of `b.requires` equal to `x`, when neither creates `x` |
| Resources.OverlapOfCount | core/feather_plugin/src/resources.rs:20-28 | the findings about a type number its count in the scanned prefix of `a.requires` times its count in `b.requires` |
| Resources.OverlapCount | core/feather_plugin/src/resources.rs:18-30 | one finding per index pair `(i, j)` with `a.requires[i] == b.requires[j]` of a type neither creates, and no other |
| Resources.OverlapSymmetric | core/feather_plugin/src/resources.rs:18-30 | `init_overlap(a, b)` and `init_overlap(b, a)` report each type equally often, with the owners swapped |
| Plugins.LabelPrefix | core/feather_plugin/src/lib.rs:59 | the required prefix is the plugin name followed by `::` |
| Plugins.StartsWith | core/feather_plugin/src/lib.rs:59 | `str::starts_with`: the prefix is no longer than the label and equals its first characters; no contract of its own |
| Plugins.AnyWhitespaceIff | core/feather_plugin/src/lib.rs:41 | the walk over the name finds whitespace iff some character of it is whitespace |
| Plugins.AnyWhitespace | core/feather_plugin/src/lib.rs:41 | the `any` walk over the name's characters; no contract of its own, `AnyWhitespaceIff` states it |
| Plugins.IsWhitespace | core/feather_plugin/src/lib.rs:41 | `char::is_whitespace`: the Unicode `White_Space` code points; no contract of its own |
| Plugins.Plugin.constructor | core/feather_plugin/src/lib.rs:44-50 | the new plugin has the given name and empty initializers, requirements, systems and labels |
| Plugins.Plugin.New | core/feather_plugin/src/lib.rs:40-51 | `new` panics iff the name contains whitespace (an empty name is accepted); otherwise it yields a fresh, empty, valid plugin |
| Plugins.Plugin.AddSystem | core/feather_plugin/src/lib.rs:53-72 | panics without the `"<name>::"` prefix, then panics on a label in use; otherwise records the label and appends one entry, keeping one label per system |
| Plugins.Plugin.AddResource | core/feather_plugin/src/lib.rs:101-107 | appends exactly `to_box(init, name)`; requirements, systems and labels are unchanged |
| Plugins.Plugin.AddResourceRequirement | core/feather_plugin/src/lib.rs:113-116 | inserts `(name, of::<T>())`; a repeated call changes nothing; nothing else changes |
| Plugins.LabelsExtend | core/feather_plugin/src/lib.rs:65-70 | appending an entry adds exactly its label |
| Plugins.LabelsBound | core/feather_plugin/src/lib.rs:62-70 | a list of systems has at most as many labels as entries |
| Plugins.LabelsDuplicate | core/feather_plugin/src/lib.rs:62-65 | two entries with one label leave fewer labels than entries |
| Plugins.ValidLabelsDistinct | core/feather_plugin/src/lib.rs:62-70 | in a valid plugin no two systems share a label |
| Plugins.ValidRequirementsById | core/feather_plugin/src/lib.rs:27 | a valid plugin's requirement set holds at most one entry per `TypeInfo` id, as the `HashSet` comparing by id does |
| Resolution.AllIndices | core/server_builder/src/server_builder.rs:67 | the pending list starts as every index, in list order |
| Resolution.CreatedByAppend | core/server_builder/src/server_builder.rs:75 | the ids created by two runs of calls add up |
| Resolution.CreatedByMember | core/server_builder/src/server_builder.rs:75 | every called initializer's ids are created |
| Resolution.CreatedByBound | core/server_builder/src/server_builder.rs:75 | the created ids are only those of called initializers |
| Resolution.CreatedBySameElements | core/server_builder/src/server_builder.rs:75 | the created ids depend on which initializers were called, not on the order |
| Resolution.RunAllAppend | core/server_builder/src/server_builder.rs:74 | calling two runs one after the other is calling their concatenation |
| Resolution.ValidTraceAppend | core/server_builder/src/server_builder.rs:73-75 | the requirement discipline of two runs composes |
| Resolution.SubseqExtend | core/server_builder/src/server_builder.rs:77 | pushing onto `rest` keeps it in pending order |
| Resolution.SubseqLength | core/server_builder/src/server_builder.rs:81 | a `rest` as long as the pending list is the pending list itself |
| Resolution.Pass | core/server_builder/src/server_builder.rs:72-79 | a pass keeps `created_types` among the world's keys, so no `unwrap` panics; `rest` and `called` together are as long as the pending list |
| Resolution.PassCreated | core/server_builder/src/server_builder.rs:75 | a pass adds exactly the ids of the initializers it calls |
| Resolution.CreatedIds | core/server_builder/src/server_builder.rs:75 | the ids `created_types.extend(x.creates_ids())` adds; no contract of its own, `PassCreated` and `CreatedByMember` state how the loop uses it |
| Resolution.PassPartition | core/server_builder/src/server_builder.rs:72-79 | every pending entry goes to exactly one of `rest` and `called` |
| Resolution.PassOrder | core/server_builder/src/server_builder.rs:77 | `rest` and the calls both keep the pending order |
| Resolution.PassWorld | core/server_builder/src/server_builder.rs:74 | the world after a pass is the one produced by calling the called entries in order |
| Resolution.PassTrace | core/server_builder/src/server_builder.rs:73-75 | an entry is called only when its requirements were created before the pass or earlier in the same pass |
| Resolution.PassRest | core/server_builder/src/server_builder.rs:76-78 | an entry kept in `rest` was not satisfied by the ids created before the pass |
| Resolution.PassStep | core/server_builder/src/server_builder.rs:72-75 | the entry at position `j` is called iff its requirements are among the ids created before the pass or earlier in the same pass |
| Resolution.PassStepRest | core/server_builder/src/server_builder.rs:72-79 | a called entry leaves `rest` unchanged; an entry not satisfied at position `j` is appended to `rest` and nothing is called |
| Resolution.PassProgress | core/server_builder/src/server_builder.rs:81 | a pass with an entry already satisfied calls at least one initializer |
| Resolution.Resolve | core/server_builder/src/server_builder.rs:69-101 | the loop terminates (each continuing pass shrinks the pending list) and keeps `created_types` among the world's keys |
| Resolution.ResolvePartition | core/server_builder/src/server_builder.rs:69-101 | every pending entry is called or left stuck, each as often as it was pending |
| Resolution.ResolveCreated | core/server_builder/src/server_builder.rs:74-75 | `created_types` is the ids of the called initializers, and the world is what calling them in call order produces |
| Resolution.ResolveTrace | core/server_builder/src/server_builder.rs:73-75 | every call found its requirements among the ids created before it |
| Resolution.ResolveStuck | core/server_builder/src/server_builder.rs:81-98 | every stuck initializer lacks a requirement among the final `created_types` |
| Resolution.ResolveCompleteFrom | core/server_builder/src/server_builder.rs:69-101 | from any point of the loop, a schedule of what is still pending makes the loop succeed |
| Resolution.ResolveAll | core/server_builder/src/server_builder.rs:66-67 | the loop starts with nothing created and every initializer pending in list order; no contract of its own, the `ResolveAll` lemmas below state it |
| Resolution.ResolveAllCallsOnce | core/server_builder/src/server_builder.rs:72-100 | each initializer is called at most once, and is either called or stuck, never both |
| Resolution.ResolveAllCallsAll | core/server_builder/src/server_builder.rs:69-101 | leaving the loop normally, every initializer has been called |
| Resolution.ResolveAllCreatesAll | core/server_builder/src/server_builder.rs:74-75 | leaving the loop normally, `created_types` is the union of every initializer's `creates_ids` |
| Resolution.ResolveAllSound | core/server_builder/src/server_builder.rs:66-101 | on success the call order is a schedule of all initializers, `created_types` is the union of all `creates` ids, and all of them are keys of the world |
| Resolution.ResolveAllComplete | core/server_builder/src/server_builder.rs:69-101 | if a schedule of all initializers exists, the loop does not fail |
| Resolution.ResolveAllSucceedsIffSchedulable | core/server_builder/src/server_builder.rs:69-101 | the loop fails exactly when no order can call each initializer after the ones it depends on |
| Resolution.Missing | core/server_builder/src/server_builder.rs:84-88 | the filter keeps exactly the requirements whose id was not created, and no more entries than there were |
| Resolution.MissingEmptyIff | core/server_builder/src/server_builder.rs:84-88 | nothing is missing exactly when `all_requires_in` holds |
| Resolution.Reports | core/server_builder/src/server_builder.rs:83-94 | one report per stuck initializer, in pending order: its plugin, its `creates`, and `requires` minus `created_types` |
| Resolution.ResolveAllReportsMissing | core/server_builder/src/server_builder.rs:81-98 | when the loop fails, every report names at least one missing requirement |
| ScanOrder.RowPairs | core/server_builder/src/server_builder.rs:51 | the inner loop of row `i` visits pairs `(i, u)` with `i < u < n` |
| ScanOrder.ScanPairs | core/server_builder/src/server_builder.rs:50-51 | the rows `0..i` visit pairs `(j, u)` with `j < i` and `j < u < n` |
| ScanOrder.VisitsAppend | core/server_builder/src/server_builder.rs:50-51 | visit counts add up over concatenation |
| ScanOrder.VisitsMember | core/server_builder/src/server_builder.rs:50-51 | a pair is visited iff it occurs |
| ScanOrder.RowPairsCount | core/server_builder/src/server_builder.rs:51 | the row `i` visits each `(i, u)` with `i < u < n` once and nothing else |
| ScanOrder.ScanPairsCount | core/server_builder/src/server_builder.rs:50-51 | the rows `0..i` visit each `(j, u)` with `j < i` and `j < u < n` once and nothing else |
| ScanOrder.ScanVisitsEachPairOnce | core/server_builder/src/server_builder.rs:49-56 | the scan visits every pair `i < u` exactly once, and no other pair |
| ServerBuilders.FindingsOfAppend | core/server_builder/src/server_builder.rs:54 | `issues.extend` over two runs of pairs concatenates their findings |
| ServerBuilders.FindingsOfMember | core/server_builder/src/server_builder.rs:54 | a finding is collected iff some visited pair produces it |
| ServerBuilders.AllOverlapsPairs | core/server_builder/src/server_builder.rs:49-56 | every collected finding comes from `init_overlap(i, u)` with `i < u`, and every finding of such a pair is collected |
| ServerBuilders.AllOverlaps | core/server_builder/src/server_builder.rs:49-56 | the findings of every pair `i < u`, row by row; no contract of its own, `AllOverlapsPairs` states it |
| ServerBuilders.TwoInitializersScanOnce | core/server_builder/src/server_builder.rs:49-56 | with two initializers only `a.init_overlap(b)` is scanned |
| ServerBuilders.TwoInitializersOneWarning | core/server_builder/src/server_builder.rs:49-56 | two initializers requiring the same uncreated type once each give one warning, in either registration order |
| ServerBuilders.ScanRow | core/server_builder/src/server_builder.rs:51-55 | the inner loop collects the findings of its row's pairs, in order |
| ServerBuilders.OverlapScan | core/server_builder/src/server_builder.rs:49-56 | the nested loops collect exactly the findings of every pair, row by row |
| ServerBuilders.MissingRequirements | core/server_builder/src/server_builder.rs:105-106 | a requirement is unmet iff its type was not created |
| ServerBuilders.CountMissing | core/server_builder/src/server_builder.rs:104-112 | the counter ends as the number of unmet requirements, whatever order the set yields |
| ServerBuilders.Outcome | core/server_builder/src/server_builder.rs:81-116 | no error iff resolution succeeded and every requirement was created; a stuck resolution reports the stuck count and reports; otherwise the error is exactly the set of requirements whose type was not created, with its size, which is at least one |
| ServerBuilders.RunPass | core/server_builder/src/server_builder.rs:70-79 | the imperative pass leaves `rest`, `created_types` and the world as `Pass` says |
| ServerBuilders.RunResourceInits | core/server_builder/src/server_builder.rs:42-117 | the issues are the overlap scan's, the world is the resolution's, and the error is `Outcome` of the resolution |
| ServerBuilders.Flatten | core/server_builder/src/server_builder.rs:32 | `flat_map` over the plugins in registration order; no contract of its own, `FlattenMembers`, `FlattenAppend` and `FlattenOne` state it |
| ServerBuilders.FlattenMembers | core/server_builder/src/server_builder.rs:32 | the flattened list holds exactly the plugins' initializers |
| ServerBuilders.FlattenAppend | core/server_builder/src/server_builder.rs:32 | flattening two batches of plugins is the concatenation of flattening each: every plugin's list is kept whole and in registration order |
| ServerBuilders.UnionRequirementsAppend | core/server_builder/src/server_builder.rs:33-36 | the requirements of two batches of plugins are the union of each batch's |
| ServerBuilders.UnionRequirements | core/server_builder/src/server_builder.rs:33-36 | the `reduce` with `extend`, empty for no plugins; no contract of its own, `UnionRequirementsMembers` and `UnionRequirementsAppend` state it |
| ServerBuilders.UnionRequirementsMembers | core/server_builder/src/server_builder.rs:33-36 | the union holds exactly the plugins' requirements, and is empty with no plugins |
| ServerBuilders.UnionRequirementsById | core/server_builder/src/server_builder.rs:33-36 | the union of valid plugins' requirements holds at most one entry per plugin name and type id, as the `HashSet<(&str, TypeInfo)>` does |
| ServerBuilders.FlattenOne | core/server_builder/src/server_builder.rs:32-36 | with one plugin, `build` sees that plugin's initializers and requirements |
| ServerBuilders.FlattenWellFormed | core/server_builder/src/server_builder.rs:32 | flattening valid plugins yields initializers as `to_box` built them |
| ServerBuilders.ServerBuilder.constructor | core/server_builder/src/server_builder.rs:13-17 | a new builder has no plugin |
| ServerBuilders.ServerBuilder.AddPlugin | core/server_builder/src/server_builder.rs:19-28 | panics iff a registered plugin has the same name, else appends; registered names stay pairwise distinct |
| ServerBuilders.ServerBuilder.Build | core/server_builder/src/server_builder.rs:30-39 | runs `run_resorce_inits` on the flattened initializers and unioned requirements against an empty world |
| WorldEdit.ExampleInits | example/src/main.rs:6-13 | the plugin's three boxed initializers, all well formed |
| WorldEdit.ExampleBoxes | example/src/main.rs:8-10 | `usize -> i32` requires `usize` and creates `i32`; `() -> usize` requires nothing and creates `usize` |
| WorldEdit.ExampleFirstPassPrefix | example/src/main.rs:8-9 | the first pass skips `usize -> i32` and then creates `usize = 1` |
| WorldEdit.ExampleFirstPass | example/src/main.rs:8-10 | the third initializer already sees `usize` in the first pass, so `i32 = 2` exists after it |
| WorldEdit.ExampleSecondPass | example/src/main.rs:8 | the second pass calls the first initializer, which writes `i32 = 2` again |
| WorldEdit.ExampleResolves | example/src/main.rs:19-24 | resolution succeeds in call order `[1, 2, 0]` with `usize = 1` and `i32 = 2` |
| WorldEdit.ExampleOutcome | example/src/main.rs:19 | the build of the example reports no error: resolution succeeds and the `usize` requirement was created |
| WorldEdit.ExampleNameAccepted | example/src/main.rs:7 | `world_edit` has no whitespace |
| WorldEdit.NewPlugin | example/src/main.rs:7 | `Plugin::new("world_edit")` does not panic |
| WorldEdit.AddExampleResources | example/src/main.rs:8-10 | the three `add_resource` calls append the three boxed closures in order |
| WorldEdit.InitPlugin | example/src/main.rs:6-13 | `init_plugin` yields a valid plugin with the three initializers and the one requirement |
| WorldEdit.BuildExample | example/src/main.rs:16-19 | registering the plugin and building yields a fresh world holding `usize = 1` and `i32 = 2`, with no error |
| WorldEdit.RunExample | example/src/main.rs:15-24 | `main` builds without error and reads back `usize = 1` and `i32 = 2` |

## Left out

- The bevy `World` is reduced to a map from type ids to values, with lookup and insert-or-replace. Nothing else of its internals is modelled.
- Resource values are unbounded integers (`Value = int`). Initializer bodies are Dafny functions on them.
- AddOne: does not model the wrap-around of `(x + 1) as i32`. The example only reaches 2.
- The generic dispatch of `ResourceInit` is modelled as one `Closure` constructor per arity (0 to 3).
- `required()` and `creates()` return copies of the fields. The model reads the fields `required` and `creates` directly.
- `Plugin::name()` is the constant field `name`.
- AddResourceRequirement, MissingRequirements, CountMissing: requirement sets are Dafny sets of `(string, TypeInfo)`, which compare `TypeInfo` structurally, while the source's `HashSet` compares and hashes it by id alone. The two agree on entries built by `of`. `Plugin.Valid` keeps every requirement `of`-built, and `ValidRequirementsById` and `UnionRequirementsById` prove at most one entry per plugin name and id. Writes of hand-built `TypeInfo`s straight into the public `resource_requirements` field or the public `TypeInfo` fields are not modelled.
- `SystemDescriptor`, label coercion and `SystemLocation` are opaque tags. Only the label checks and the appended entry are modelled, and the entry records the label.
- `println!`/`print!` output and panic messages are left out. The failures return the data those messages print (`BuildError`, `StuckReport`, `LabelError`).
- A panic ends the program. In the model the failing operation returns an error value instead, and the world is left as it was at the moment of the panic.
- `add_event` is `todo!()` and is not modelled.
- `BuiltServer` (core/server_builder/src/built_server.rs) only wraps the world, so `Build` returns the world itself. `run_tick` does nothing.
- core_plugins/protocol_connection is not part of this model.
- `std::mem::take` empties each plugin's initializer list during `build`. `build` consumes the builder, so this cannot be observed afterwards, and the model leaves the plugins unchanged.
- `HashSet` iteration order is not modelled. The requirement count does not depend on it (`CountMissing` picks elements in any order).
- `created_types` is given no capacity. `HashSet::with_capacity` has no observable effect.
