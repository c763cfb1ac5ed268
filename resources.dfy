/**
 * Resource initializers (feather_plugin/src/resources.rs).
 *
 * A plugin hands in a function of up to three borrowed resources; the
 * per-arity adapter derives the types it consumes and produces from the
 * function's signature and boxes it into a `ResourceInitializer`.
 */
module Resources {
  import opened Wrappers
  import opened TypeInfos

  /** A resource value. Initializer bodies are modelled as functions on integers. */
  type Value = int

  /** What a bevy `World` holds, as far as this code can observe it. */
  type WorldMap = map<TypeId, Value>

  /**
   * The bevy `World`. The code under model uses two of its operations:
   * `get_resource` and `insert_resource`.
   */
  class World {
    var resources: WorldMap

    constructor ()
      ensures resources == map[]
    {
      resources := map[];
    }

    /** `get_resource`: the stored value of that type, if there is one. */
    function GetResource(id: TypeId): (v: Option<Value>)
      reads this
      ensures v.Some? <==> id in resources
      ensures v.Some? ==> v.value == resources[id]
    {
      if id in resources then Some(resources[id]) else None
    }

    /** `insert_resource`: inserts, or silently replaces the value already there. */
    method InsertResource(id: TypeId, v: Value)
      modifies this
      ensures resources == old(resources)[id := v]
    {
      resources := resources[id := v];
    }
  }

  /** The largest arity an adapter exists for. */
  const MaxArity := 3

  /**
   * A function `Fn(&A, ..) -> R` handed to `add_resource`, one constructor
   * per `ResourceInit` impl. `ret` is `R`; `a`, `b`, `c` are the parameters.
   */
  datatype Closure =
    | Fn0(ret: RustType, f0: () -> Value)
    | Fn1(a: RustType, ret: RustType, f1: Value -> Value)
    | Fn2(a: RustType, b: RustType, ret: RustType, f2: (Value, Value) -> Value)
    | Fn3(a: RustType, b: RustType, c: RustType, ret: RustType, f3: (Value, Value, Value) -> Value)
  {
    /** The declared parameter types, in declaration order. */
    function Params(): seq<RustType>
    {
      match this
      case Fn0(_, _) => []
      case Fn1(a, _, _) => [a]
      case Fn2(a, b, _, _) => [a, b]
      case Fn3(a, b, c, _, _) => [a, b, c]
    }
  }

  /** `ResourceInit::consumes`: one `TypeInfo` per parameter, in order. */
  function Consumes(c: Closure): (r: seq<TypeInfo>)
    ensures |r| == |c.Params()| <= MaxArity
    ensures forall k :: 0 <= k < |r| ==> r[k] == Of(c.Params()[k])
  {
    match c
    case Fn0(_, _) => []
    case Fn1(a, _, _) => [Of(a)]
    case Fn2(a, b, _, _) => [Of(a), Of(b)]
    case Fn3(a, b, c3, _, _) => [Of(a), Of(b), Of(c3)]
  }

  /** `ResourceInit::produces`: always exactly one type, so `creates` is never empty. */
  function Produces(c: Closure): (r: seq<TypeInfo>)
    ensures |r| == 1
  {
    [Of(c.ret)]
  }

  /**
   * `ResourceInit::init` on the world's contents: read every parameter
   * (`get_resource().unwrap()`, `None` standing for the panic), call the
   * function, and `insert_resource` the result.
   */
  function InitResult(c: Closure, m: WorldMap): Option<WorldMap>
  {
    match c
    case Fn0(ret, f) =>
      Some(m[IdOf(ret) := f()])
    case Fn1(a, ret, f) =>
      if IdOf(a) in m then Some(m[IdOf(ret) := f(m[IdOf(a)])]) else None
    case Fn2(a, b, ret, f) =>
      if IdOf(a) in m && IdOf(b) in m then Some(m[IdOf(ret) := f(m[IdOf(a)], m[IdOf(b)])]) else None
    case Fn3(a, b, c3, ret, f) =>
      if IdOf(a) in m && IdOf(b) in m && IdOf(c3) in m
      then Some(m[IdOf(ret) := f(m[IdOf(a)], m[IdOf(b)], m[IdOf(c3)])])
      else None
  }

  /**
   * `init` panics exactly when some consumed type is missing from the
   * world; otherwise it adds the produced type's key and changes no other
   * entry.
   */
  lemma InitResultSpec(c: Closure, m: WorldMap)
    ensures InitResult(c, m).Some? <==> forall k :: 0 <= k < |Consumes(c)| ==> Consumes(c)[k].id in m
    ensures InitResult(c, m).Some? ==> InitResult(c, m).value.Keys == m.Keys + {Produces(c)[0].id}
    ensures InitResult(c, m).Some? ==> forall t :: t in m && t != Produces(c)[0].id ==> InitResult(c, m).value[t] == m[t]
  {
    var ps := Consumes(c);
    match c
    case Fn0(_, _) =>
    case Fn1(_, _, _) =>
      assert InitResult(c, m).None? ==> ps[0].id !in m;
    case Fn2(_, _, _, _) =>
      assert InitResult(c, m).None? ==> ps[0].id !in m || ps[1].id !in m;
    case Fn3(_, _, _, _, _) =>
      assert InitResult(c, m).None? ==> ps[0].id !in m || ps[1].id !in m || ps[2].id !in m;
  }

  /**
   * The value `init` inserts depends on nothing in the world but the
   * parameters it reads.
   */
  lemma InitReadsOnlyParams(c: Closure, m1: WorldMap, m2: WorldMap)
    requires InitResult(c, m1).Some? && InitResult(c, m2).Some?
    requires forall k :: 0 <= k < |Consumes(c)| ==> m1[Consumes(c)[k].id] == m2[Consumes(c)[k].id]
    ensures InitResult(c, m1).value[Produces(c)[0].id] == InitResult(c, m2).value[Produces(c)[0].id]
  {
    var ps := Consumes(c);
    match c
    case Fn0(_, _) =>
    case Fn1(_, _, _) =>
      assert m1[ps[0].id] == m2[ps[0].id];
    case Fn2(_, _, _, _) =>
      assert m1[ps[0].id] == m2[ps[0].id] && m1[ps[1].id] == m2[ps[1].id];
    case Fn3(_, _, _, _, _) =>
      assert m1[ps[0].id] == m2[ps[0].id] && m1[ps[1].id] == m2[ps[1].id] && m1[ps[2].id] == m2[ps[2].id];
  }

  /** `ResourceInit::init`: the adapter's closure, run against the world. */
  method Init(c: Closure, world: World) returns (ok: bool)
    modifies world
    ensures ok == InitResult(c, old(world.resources)).Some?
    ensures world.resources == if ok then InitResult(c, old(world.resources)).value else old(world.resources)
  {
    match c
    case Fn0(ret, f) =>
      world.InsertResource(IdOf(ret), f());
      ok := true;
    case Fn1(a, ret, f) =>
      var va := world.GetResource(IdOf(a));
      if va.None? {
        return false;
      }
      world.InsertResource(IdOf(ret), f(va.value));
      ok := true;
    case Fn2(a, b, ret, f) =>
      var va := world.GetResource(IdOf(a));
      if va.None? {
        return false;
      }
      var vb := world.GetResource(IdOf(b));
      if vb.None? {
        return false;
      }
      world.InsertResource(IdOf(ret), f(va.value, vb.value));
      ok := true;
    case Fn3(a, b, c3, ret, f) =>
      var va := world.GetResource(IdOf(a));
      if va.None? {
        return false;
      }
      var vb := world.GetResource(IdOf(b));
      if vb.None? {
        return false;
      }
      var vc := world.GetResource(IdOf(c3));
      if vc.None? {
        return false;
      }
      world.InsertResource(IdOf(ret), f(va.value, vb.value, vc.value));
      ok := true;
  }

  /**
   * `ResourceInitializer`; `required` is the source's `requires` field.
   * `requires`, `creates` and `func` are private and only `to_box` sets
   * them, so in the source they always describe the same closure
   * (`WellFormed`).
   */
  datatype ResourceInitializer = ResourceInitializer(pluginName: string, required: seq<TypeInfo>, creates: seq<TypeInfo>, func: Closure)

  /** The fields agree with the closure, as `to_box` leaves them. */
  ghost predicate WellFormed(ri: ResourceInitializer)
  {
    ri.required == Consumes(ri.func) && ri.creates == Produces(ri.func)
  }

  /** `ResourceInit::to_box`: stamps the owner and records the signature's types. */
  function ToBox(c: Closure, name: string): (ri: ResourceInitializer)
    ensures WellFormed(ri) && ri.func == c
    ensures ri.pluginName == name
  {
    ResourceInitializer(name, Consumes(c), Produces(c), c)
  }

  /** The ids of a list of types, in order (`.iter().map(|x| x.id)`). */
  function Ids(ts: seq<TypeInfo>): (r: seq<TypeId>)
    ensures |r| == |ts|
    ensures forall k :: 0 <= k < |r| ==> r[k] == ts[k].id
  {
    if ts == [] then [] else [ts[0].id] + Ids(ts[1..])
  }

  /** `creates_ids`: the ids of `creates`, same length and order. */
  function CreatesIds(ri: ResourceInitializer): (r: seq<TypeId>)
    ensures |r| == |ri.creates|
    ensures forall k :: 0 <= k < |r| ==> r[k] == ri.creates[k].id
  {
    Ids(ri.creates)
  }

  /** `.iter().all(|x| set.contains(&x.id))`, walking the list from the front. */
  predicate AllIdsIn(ts: seq<TypeInfo>, s: set<TypeId>)
  {
    ts == [] || (ts[0].id in s && AllIdsIn(ts[1..], s))
  }

  /** `all_requires_in`. */
  predicate AllRequiresIn(ri: ResourceInitializer, s: set<TypeId>)
  {
    AllIdsIn(ri.required, s)
  }

  /** The `all` walk holds iff every id is in the set; it holds vacuously for an empty list. */
  lemma {:induction false} AllIdsInIff(ts: seq<TypeInfo>, s: set<TypeId>)
    ensures AllIdsIn(ts, s) <==> forall k :: 0 <= k < |ts| ==> ts[k].id in s
    decreases |ts|
  {
    if ts != [] {
      AllIdsInIff(ts[1..], s);
      assert forall k :: 1 <= k < |ts| ==> ts[k] == ts[1..][k - 1];
    }
  }

  /** `all_requires_in(set)` holds iff every required id is in `set`. */
  lemma AllRequiresInIff(ri: ResourceInitializer, s: set<TypeId>)
    ensures AllRequiresIn(ri, s) <==> forall k :: 0 <= k < |ri.required| ==> ri.required[k].id in s
    ensures ri.required == [] ==> AllRequiresIn(ri, s)
  {
    AllIdsInIff(ri.required, s);
  }

  /** Adding to the set never makes a satisfied initializer unsatisfied. */
  lemma AllRequiresInMonotone(ri: ResourceInitializer, s: set<TypeId>, s': set<TypeId>)
    requires AllRequiresIn(ri, s) && s <= s'
    ensures AllRequiresIn(ri, s')
  {
    AllRequiresInIff(ri, s);
    AllRequiresInIff(ri, s');
  }

  /** `call` on the world's contents. */
  function CallResult(ri: ResourceInitializer, m: WorldMap): Option<WorldMap>
  {
    InitResult(ri.func, m)
  }

  /**
   * Once `all_requires_in` holds for the world's keys, `call` cannot panic,
   * and afterwards every id of `creates_ids` is a key of the world.
   */
  lemma CallSucceedsWhenRequiresIn(ri: ResourceInitializer, m: WorldMap)
    requires WellFormed(ri)
    requires AllRequiresIn(ri, m.Keys)
    ensures CallResult(ri, m).Some?
    ensures CallResult(ri, m).value.Keys == m.Keys + (set t | t in CreatesIds(ri))
  {
    AllRequiresInIff(ri, m.Keys);
    InitResultSpec(ri.func, m);
    var ids := CreatesIds(ri);
    assert (set t | t in ids) == {ids[0]};
  }

  /** `call`: runs the boxed closure against the world. */
  method Call(ri: ResourceInitializer, world: World) returns (ok: bool)
    modifies world
    ensures ok == CallResult(ri, old(world.resources)).Some?
    ensures world.resources == if ok then CallResult(ri, old(world.resources)).value else old(world.resources)
  {
    ok := Init(ri.func, world);
  }

  // ---------------------------------------------------------------------
  // The pairwise overlap diagnostic, `init_overlap`.

  /** One finding: a type both initializers read and neither creates, with their owners. */
  datatype Finding = Finding(ty: TypeInfo, first: string, second: string)

  /** `Vec::contains` on a list of types, which compares with `eq`, that is by id. */
  predicate ContainsId(ts: seq<TypeInfo>, t: TypeId)
  {
    exists k :: 0 <= k < |ts| && ts[k].id == t
  }

  /** Neither initializer creates the type with this id. */
  predicate Unproduced(t: TypeId, a: ResourceInitializer, b: ResourceInitializer)
  {
    !(ContainsId(a.creates, t) || ContainsId(b.creates, t))
  }

  /** What the inner loop of `init_overlap` pushes for one `x` of `a.requires`, over `ys`. */
  function RowFindings(x: TypeInfo, ys: seq<TypeInfo>, a: ResourceInitializer, b: ResourceInitializer): seq<Finding>
  {
    if ys == [] then []
    else
      var y := ys[|ys| - 1];
      RowFindings(x, ys[..|ys| - 1], a, b)
        + (if Eq(x, y) && Unproduced(x.id, a, b) then [Finding(x, a.pluginName, b.pluginName)] else [])
  }

  /** What the outer loop of `init_overlap` has pushed after the entries `xs` of `a.requires`. */
  function OverlapOf(xs: seq<TypeInfo>, a: ResourceInitializer, b: ResourceInitializer): seq<Finding>
  {
    if xs == [] then []
    else OverlapOf(xs[..|xs| - 1], a, b) + RowFindings(xs[|xs| - 1], b.required, a, b)
  }

  /** The result of `a.init_overlap(b)`: the rows of every entry of `a.requires`. */
  function Overlap(a: ResourceInitializer, b: ResourceInitializer): seq<Finding>
  {
    OverlapOf(a.required, a, b)
  }

  /**
   * Every finding of `a.init_overlap(b)` names a type of `a.requires` that
   * `b` also requires and neither creates, owned by `(a, b)`; with nothing
   * required on either side there is no finding.
   */
  lemma OverlapSound(a: ResourceInitializer, b: ResourceInitializer)
    ensures forall f :: f in Overlap(a, b) ==>
      f.ty in a.required && ContainsId(b.required, f.ty.id) && Unproduced(f.ty.id, a, b)
      && f.first == a.pluginName && f.second == b.pluginName
    ensures a.required == [] || b.required == [] ==> Overlap(a, b) == []
  {
    var r := Overlap(a, b);
    OverlapOfSound(a.required, a, b);
    if r != [] {
      assert r[0] in r;
    }
  }

  lemma {:induction false} RowSound(x: TypeInfo, ys: seq<TypeInfo>, a: ResourceInitializer, b: ResourceInitializer)
    ensures forall f :: f in RowFindings(x, ys, a, b) ==>
      f == Finding(x, a.pluginName, b.pluginName) && ContainsId(ys, x.id) && Unproduced(x.id, a, b)
    decreases |ys|
  {
    if ys != [] {
      var front := ys[..|ys| - 1];
      RowSound(x, front, a, b);
      forall f | f in RowFindings(x, ys, a, b)
        ensures ContainsId(ys, x.id)
      {
        if f in RowFindings(x, front, a, b) {
          var k :| 0 <= k < |front| && front[k].id == x.id;
          assert ys[k] == front[k];
        } else {
          assert ys[|ys| - 1].id == x.id;
        }
      }
    }
  }

  lemma {:induction false} OverlapOfSound(xs: seq<TypeInfo>, a: ResourceInitializer, b: ResourceInitializer)
    ensures forall f :: f in OverlapOf(xs, a, b) ==>
      f.ty in xs && ContainsId(b.required, f.ty.id) && Unproduced(f.ty.id, a, b)
      && f.first == a.pluginName && f.second == b.pluginName
    decreases |xs|
  {
    if xs != [] {
      var front := xs[..|xs| - 1];
      OverlapOfSound(front, a, b);
      RowSound(xs[|xs| - 1], b.required, a, b);
      forall f | f in OverlapOf(xs, a, b)
        ensures f.ty in xs
      {
        if f in OverlapOf(front, a, b) {
          assert f.ty in front;
        }
      }
    }
  }

  /** `init_overlap`: the nested loops pushing into `result`. */
  method InitOverlap(a: ResourceInitializer, b: ResourceInitializer) returns (result: seq<Finding>)
    ensures result == Overlap(a, b)
  {
    result := [];
    var i := 0;
    while i < |a.required|
      invariant 0 <= i <= |a.required|
      invariant result == OverlapOf(a.required[..i], a, b)
    {
      var x := a.required[i];
      var j := 0;
      while j < |b.required|
        invariant 0 <= j <= |b.required|
        invariant result == OverlapOf(a.required[..i], a, b) + RowFindings(x, b.required[..j], a, b)
      {
        var y := b.required[j];
        if Eq(x, y) {
          if !(ContainsId(a.creates, x.id) || ContainsId(b.creates, x.id)) {
            result := result + [Finding(x, a.pluginName, b.pluginName)];
          }
        }
        assert b.required[..j + 1][..j] == b.required[..j];
        j := j + 1;
      }
      assert b.required[..j] == b.required;
      assert a.required[..i + 1][..i] == a.required[..i];
      i := i + 1;
    }
    assert a.required[..i] == a.required;
  }

  // ---------------------------------------------------------------------
  // Counting findings by type id.

  /** How many entries of `ts` have id `t`. */
  function CountId(ts: seq<TypeInfo>, t: TypeId): nat
  {
    if ts == [] then 0 else CountId(ts[..|ts| - 1], t) + (if ts[|ts| - 1].id == t then 1 else 0)
  }

  /** How many findings are about the type with id `t`. */
  function FindingCount(fs: seq<Finding>, t: TypeId): nat
  {
    if fs == [] then 0 else FindingCount(fs[..|fs| - 1], t) + (if fs[|fs| - 1].ty.id == t then 1 else 0)
  }

  lemma {:induction false} FindingCountAppend(fs: seq<Finding>, gs: seq<Finding>, t: TypeId)
    ensures FindingCount(fs + gs, t) == FindingCount(fs, t) + FindingCount(gs, t)
    decreases |gs|
  {
    if gs != [] {
      var n := |gs| - 1;
      assert (fs + gs)[..|fs + gs| - 1] == fs + gs[..n];
      FindingCountAppend(fs, gs[..n], t);
    } else {
      assert fs + gs == fs;
    }
  }

  lemma {:induction false} RowCount(x: TypeInfo, ys: seq<TypeInfo>, a: ResourceInitializer, b: ResourceInitializer, t: TypeId)
    ensures FindingCount(RowFindings(x, ys, a, b), t)
         == if x.id == t && Unproduced(t, a, b) then CountId(ys, t) else 0
    decreases |ys|
  {
    if ys != [] {
      var front := ys[..|ys| - 1];
      var y := ys[|ys| - 1];
      var tail := if Eq(x, y) && Unproduced(x.id, a, b) then [Finding(x, a.pluginName, b.pluginName)] else [];
      RowCount(x, front, a, b, t);
      FindingCountAppend(RowFindings(x, front, a, b), tail, t);
      assert FindingCount(tail, t) == if Eq(x, y) && Unproduced(x.id, a, b) && x.id == t then 1 else 0 by {
        if tail != [] {
          assert tail[..0] == [];
        }
      }
    }
  }

  lemma {:induction false} OverlapOfCount(xs: seq<TypeInfo>, a: ResourceInitializer, b: ResourceInitializer, t: TypeId)
    ensures FindingCount(OverlapOf(xs, a, b), t)
         == if Unproduced(t, a, b) then CountId(xs, t) * CountId(b.required, t) else 0
    decreases |xs|
  {
    if xs != [] {
      var front := xs[..|xs| - 1];
      var x := xs[|xs| - 1];
      OverlapOfCount(front, a, b, t);
      FindingCountAppend(OverlapOf(front, a, b), RowFindings(x, b.required, a, b), t);
      RowCount(x, b.required, a, b, t);
      var n := CountId(b.required, t);
      var d := if x.id == t then 1 else 0;
      assert (CountId(front, t) + d) * n == CountId(front, t) * n + d * n;
    }
  }

  /**
   * `init_overlap` emits one finding per index pair `(i, j)` with
   * `a.requires[i] == b.requires[j]` of a type neither creates: the findings
   * about type `t` number `CountId(a.requires, t) * CountId(b.requires, t)`.
   */
  lemma OverlapCount(a: ResourceInitializer, b: ResourceInitializer, t: TypeId)
    ensures FindingCount(Overlap(a, b), t)
         == if Unproduced(t, a, b) then CountId(a.required, t) * CountId(b.required, t) else 0
  {
    OverlapOfCount(a.required, a, b, t);
  }

  /**
   * `a.init_overlap(b)` and `b.init_overlap(a)` report each type equally
   * often, with the owners swapped.
   */
  lemma OverlapSymmetric(a: ResourceInitializer, b: ResourceInitializer, t: TypeId)
    ensures FindingCount(Overlap(a, b), t) == FindingCount(Overlap(b, a), t)
    ensures forall f :: f in Overlap(a, b) ==> f.first == a.pluginName && f.second == b.pluginName
    ensures forall f :: f in Overlap(b, a) ==> f.first == b.pluginName && f.second == a.pluginName
  {
    OverlapSound(a, b);
    OverlapSound(b, a);
    OverlapCount(a, b, t);
    OverlapCount(b, a, t);
    assert Unproduced(t, a, b) == Unproduced(t, b, a);
    assert CountId(a.required, t) * CountId(b.required, t) == CountId(b.required, t) * CountId(a.required, t);
  }
}
