/**
 * The fixed-point resolution that `run_resorce_inits`
 * (server_builder/src/server_builder.rs) performs, stated on values.
 *
 * Pending initializers are indices into the flattened list, as the
 * source's `Vec<&ResourceInitializer>` holds references into it. One pass
 * walks the pending list in order, calls every initializer whose
 * requirements are already created and keeps the others, in order, for the
 * next pass; a pass that calls nothing ends the resolution.
 */
module Resolution {
  import opened Wrappers
  import opened TypeInfos
  import opened Resources

  /** Every entry is an index into a list of length `n`. */
  predicate IndicesIn(n: nat, idx: seq<nat>)
  {
    forall k :: 0 <= k < |idx| ==> idx[k] < n
  }

  /** The list `0, 1, .., n - 1`: the source's `resource_inits.iter().collect()`. */
  function AllIndices(n: nat): (r: seq<nat>)
    ensures |r| == n && IndicesIn(n, r)
    ensures forall k :: 0 <= k < n ==> r[k] == k
  {
    seq(n, k => k)
  }

  /** Every initializer has the fields `to_box` gave it. */
  ghost predicate AllWellFormed(inits: seq<ResourceInitializer>)
  {
    forall i {:trigger WellFormed(inits[i])} :: 0 <= i < |inits| ==> WellFormed(inits[i])
  }

  /** The ids `created_types.extend(x.creates_ids())` adds. */
  function CreatedIds(ri: ResourceInitializer): set<TypeId>
  {
    set t | t in CreatesIds(ri)
  }

  /** The ids created by the initializers at `order`. */
  function CreatedBy(inits: seq<ResourceInitializer>, order: seq<nat>): set<TypeId>
    requires IndicesIn(|inits|, order)
  {
    if order == [] then {}
    else CreatedBy(inits, order[..|order| - 1]) + CreatedIds(inits[order[|order| - 1]])
  }

  /** The world after calling the initializers at `order` one after another; `None` if one panics. */
  function RunAll(inits: seq<ResourceInitializer>, order: seq<nat>, m: WorldMap): Option<WorldMap>
    requires IndicesIn(|inits|, order)
  {
    if order == [] then Some(m)
    else
      match RunAll(inits, order[..|order| - 1], m)
      case None => None
      case Some(m') => CallResult(inits[order[|order| - 1]], m')
  }

  /**
   * Every initializer at `order` found its requirements among `base` and
   * the ids created by the ones called before it.
   */
  ghost predicate ValidTrace(inits: seq<ResourceInitializer>, base: set<TypeId>, order: seq<nat>)
    requires IndicesIn(|inits|, order)
  {
    forall k :: 0 <= k < |order| ==> AllRequiresIn(inits[order[k]], base + CreatedBy(inits, order[..k]))
  }

  /** An order calling every initializer, each after the ones that create what it requires. */
  ghost predicate Schedule(inits: seq<ResourceInitializer>, order: seq<nat>)
  {
    IndicesIn(|inits|, order)
    && (forall i :: 0 <= i < |inits| ==> i in order)
    && ValidTrace(inits, {}, order)
  }

  /** `xs` is `ys` with some entries dropped, the rest in their original order. */
  predicate Subseq(xs: seq<nat>, ys: seq<nat>)
    decreases |ys|
  {
    if ys == [] then xs == []
    else
      (xs != [] && xs[|xs| - 1] == ys[|ys| - 1] && Subseq(xs[..|xs| - 1], ys[..|ys| - 1]))
      || Subseq(xs, ys[..|ys| - 1])
  }

  // ---------------------------------------------------------------------
  // Facts about CreatedBy, RunAll and ValidTrace.

  lemma {:induction false} CreatedByAppend(inits: seq<ResourceInitializer>, xs: seq<nat>, ys: seq<nat>)
    requires IndicesIn(|inits|, xs) && IndicesIn(|inits|, ys)
    ensures IndicesIn(|inits|, xs + ys)
    ensures CreatedBy(inits, xs + ys) == CreatedBy(inits, xs) + CreatedBy(inits, ys)
    decreases |ys|
  {
    if ys != [] {
      var n := |ys| - 1;
      assert (xs + ys)[..|xs + ys| - 1] == xs + ys[..n];
      CreatedByAppend(inits, xs, ys[..n]);
    } else {
      assert xs + ys == xs;
    }
  }

  lemma {:induction false} CreatedByMember(inits: seq<ResourceInitializer>, order: seq<nat>, k: nat)
    requires IndicesIn(|inits|, order) && k < |order|
    ensures CreatedIds(inits[order[k]]) <= CreatedBy(inits, order)
    decreases |order|
  {
    if k < |order| - 1 {
      CreatedByMember(inits, order[..|order| - 1], k);
    }
  }

  lemma {:induction false} CreatedByBound(inits: seq<ResourceInitializer>, order: seq<nat>, s: set<TypeId>)
    requires IndicesIn(|inits|, order)
    requires forall k :: 0 <= k < |order| ==> CreatedIds(inits[order[k]]) <= s
    ensures CreatedBy(inits, order) <= s
    decreases |order|
  {
    if order != [] {
      CreatedByBound(inits, order[..|order| - 1], s);
    }
  }

  /** `CreatedBy` grows with the set of initializers called, whatever their order. */
  lemma CreatedBySameElements(inits: seq<ResourceInitializer>, xs: seq<nat>, ys: seq<nat>)
    requires IndicesIn(|inits|, xs) && IndicesIn(|inits|, ys)
    requires forall i :: i in xs ==> i in ys
    ensures CreatedBy(inits, xs) <= CreatedBy(inits, ys)
  {
    forall k | 0 <= k < |xs|
      ensures CreatedIds(inits[xs[k]]) <= CreatedBy(inits, ys)
    {
      assert xs[k] in xs;
      var j :| 0 <= j < |ys| && ys[j] == xs[k];
      CreatedByMember(inits, ys, j);
    }
    CreatedByBound(inits, xs, CreatedBy(inits, ys));
  }

  lemma {:induction false} RunAllAppend(inits: seq<ResourceInitializer>, xs: seq<nat>, ys: seq<nat>, m: WorldMap, m1: WorldMap)
    requires IndicesIn(|inits|, xs) && IndicesIn(|inits|, ys)
    requires RunAll(inits, xs, m) == Some(m1)
    ensures IndicesIn(|inits|, xs + ys)
    ensures RunAll(inits, xs + ys, m) == RunAll(inits, ys, m1)
    decreases |ys|
  {
    if ys != [] {
      var n := |ys| - 1;
      assert (xs + ys)[..|xs + ys| - 1] == xs + ys[..n];
      RunAllAppend(inits, xs, ys[..n], m, m1);
    } else {
      assert xs + ys == xs;
    }
  }

  lemma {:induction false} ValidTraceAppend(inits: seq<ResourceInitializer>, base: set<TypeId>, xs: seq<nat>, ys: seq<nat>)
    requires IndicesIn(|inits|, xs) && IndicesIn(|inits|, ys)
    requires ValidTrace(inits, base, xs)
    requires ValidTrace(inits, base + CreatedBy(inits, xs), ys)
    ensures IndicesIn(|inits|, xs + ys)
    ensures ValidTrace(inits, base, xs + ys)
  {
    var zs := xs + ys;
    forall k | 0 <= k < |zs|
      ensures AllRequiresIn(inits[zs[k]], base + CreatedBy(inits, zs[..k]))
    {
      if k < |xs| {
        assert zs[..k] == xs[..k];
      } else {
        var j := k - |xs|;
        assert zs[..k] == xs + ys[..j];
        CreatedByAppend(inits, xs, ys[..j]);
        assert base + CreatedBy(inits, zs[..k]) == (base + CreatedBy(inits, xs)) + CreatedBy(inits, ys[..j]);
        assert zs[k] == ys[j];
      }
    }
  }

  lemma SubseqExtend(xs: seq<nat>, ys: seq<nat>, i: nat)
    requires Subseq(xs, ys)
    ensures Subseq(xs + [i], ys + [i]) && Subseq(xs, ys + [i])
  {
    assert (xs + [i])[..|xs|] == xs;
    assert (ys + [i])[..|ys|] == ys;
  }

  /** A subsequence is no longer than the sequence, and one of the same length is the sequence itself. */
  lemma {:induction false} SubseqLength(xs: seq<nat>, ys: seq<nat>)
    requires Subseq(xs, ys)
    ensures |xs| <= |ys|
    ensures |xs| == |ys| ==> xs == ys
    decreases |ys|
  {
    if ys != [] {
      var yf := ys[..|ys| - 1];
      if xs != [] && xs[|xs| - 1] == ys[|ys| - 1] && Subseq(xs[..|xs| - 1], yf) {
        SubseqLength(xs[..|xs| - 1], yf);
        if |xs| == |ys| {
          assert xs == xs[..|xs| - 1] + [xs[|xs| - 1]];
          assert ys == yf + [ys[|ys| - 1]];
        }
      } else {
        SubseqLength(xs, yf);
      }
    }
  }

  // ---------------------------------------------------------------------
  // One pass.

  /** After a prefix of one pass: the `rest` kept so far, `created_types`, the world, and who was called. */
  datatype PassState = PassState(rest: seq<nat>, created: set<TypeId>, world: WorldMap, called: seq<nat>)

  /**
   * The `for x in &resource_inits` loop of one pass over `pending`: an entry
   * whose requirements are all created is called and its ids are added at
   * once, so later entries of the same pass see them; any other entry is
   * pushed onto `rest`. The created ids stay among the world's keys, so no
   * call's `unwrap` panics. The lemmas below give the rest of its contract.
   */
  function Pass(inits: seq<ResourceInitializer>, pending: seq<nat>, created: set<TypeId>, world: WorldMap): (p: PassState)
    requires AllWellFormed(inits) && IndicesIn(|inits|, pending)
    requires created <= world.Keys
    ensures IndicesIn(|inits|, p.rest) && IndicesIn(|inits|, p.called)
    ensures |p.rest| + |p.called| == |pending|
    ensures p.created <= p.world.Keys
    decreases |pending|
  {
    if pending == [] then PassState([], created, world, [])
    else
      var i := pending[|pending| - 1];
      var p := Pass(inits, pending[..|pending| - 1], created, world);
      if AllRequiresIn(inits[i], p.created) then
        assert WellFormed(inits[i]);
        AllRequiresInMonotone(inits[i], p.created, p.world.Keys);
        CallSucceedsWhenRequiresIn(inits[i], p.world);
        PassState(p.rest, p.created + CreatedIds(inits[i]), CallResult(inits[i], p.world).value, p.called + [i])
      else
        PassState(p.rest + [i], p.created, p.world, p.called)
  }

  /** The ids a pass adds are those of the initializers it calls. */
  lemma {:induction false} PassCreated(inits: seq<ResourceInitializer>, pending: seq<nat>, created: set<TypeId>, world: WorldMap)
    requires AllWellFormed(inits) && IndicesIn(|inits|, pending)
    requires created <= world.Keys
    ensures var p := Pass(inits, pending, created, world);
      p.created == created + CreatedBy(inits, p.called)
    decreases |pending|
  {
    if pending != [] {
      var front := pending[..|pending| - 1];
      var i := pending[|pending| - 1];
      var p := Pass(inits, front, created, world);
      PassCreated(inits, front, created, world);
      if AllRequiresIn(inits[i], p.created) {
        var called := Pass(inits, pending, created, world).called;
        assert called == p.called + [i];
        assert called[..|called| - 1] == p.called;
      }
    }
  }

  /** A pass splits the pending entries between `rest` and `called`, losing and duplicating none. */
  lemma {:induction false} PassPartition(inits: seq<ResourceInitializer>, pending: seq<nat>, created: set<TypeId>, world: WorldMap)
    requires AllWellFormed(inits) && IndicesIn(|inits|, pending)
    requires created <= world.Keys
    ensures var p := Pass(inits, pending, created, world);
      multiset(p.rest) + multiset(p.called) == multiset(pending)
    decreases |pending|
  {
    if pending != [] {
      var front := pending[..|pending| - 1];
      var i := pending[|pending| - 1];
      assert pending == front + [i];
      var p := Pass(inits, front, created, world);
      var q := Pass(inits, pending, created, world);
      PassPartition(inits, front, created, world);
      assert multiset(pending) == multiset(front) + multiset{i};
      if AllRequiresIn(inits[i], p.created) {
        assert q.rest == p.rest && q.called == p.called + [i];
      } else {
        assert q.rest == p.rest + [i] && q.called == p.called;
      }
    }
  }

  /** Both `rest` and `called` keep the entries in their pending order. */
  lemma {:induction false} PassOrder(inits: seq<ResourceInitializer>, pending: seq<nat>, created: set<TypeId>, world: WorldMap)
    requires AllWellFormed(inits) && IndicesIn(|inits|, pending)
    requires created <= world.Keys
    ensures var p := Pass(inits, pending, created, world);
      Subseq(p.rest, pending) && Subseq(p.called, pending)
    decreases |pending|
  {
    if pending != [] {
      var front := pending[..|pending| - 1];
      var i := pending[|pending| - 1];
      assert pending == front + [i];
      var p := Pass(inits, front, created, world);
      var q := Pass(inits, pending, created, world);
      PassOrder(inits, front, created, world);
      SubseqExtend(p.rest, front, i);
      SubseqExtend(p.called, front, i);
      if AllRequiresIn(inits[i], p.created) {
        assert q.rest == p.rest && q.called == p.called + [i];
      } else {
        assert q.rest == p.rest + [i] && q.called == p.called;
      }
    }
  }

  /** Calling the entries of `called` in order, from the world at the start of the pass, yields the pass's world. */
  lemma {:induction false} PassWorld(inits: seq<ResourceInitializer>, pending: seq<nat>, created: set<TypeId>, world: WorldMap)
    requires AllWellFormed(inits) && IndicesIn(|inits|, pending)
    requires created <= world.Keys
    ensures var p := Pass(inits, pending, created, world);
      RunAll(inits, p.called, world) == Some(p.world)
    decreases |pending|
  {
    if pending != [] {
      var front := pending[..|pending| - 1];
      var p := Pass(inits, front, created, world);
      PassWorld(inits, front, created, world);
      var i := pending[|pending| - 1];
      var q := Pass(inits, pending, created, world);
      if AllRequiresIn(inits[i], p.created) {
        assert WellFormed(inits[i]);
        AllRequiresInMonotone(inits[i], p.created, p.world.Keys);
        CallSucceedsWhenRequiresIn(inits[i], p.world);
        assert q.called[..|q.called| - 1] == p.called;
      }
    }
  }

  /**
   * Each initializer a pass calls found its requirements among the ids
   * created before the pass or by calls earlier in the same pass.
   */
  lemma {:induction false} PassTrace(inits: seq<ResourceInitializer>, pending: seq<nat>, created: set<TypeId>, world: WorldMap)
    requires AllWellFormed(inits) && IndicesIn(|inits|, pending)
    requires created <= world.Keys
    ensures ValidTrace(inits, created, Pass(inits, pending, created, world).called)
    decreases |pending|
  {
    if pending != [] {
      var front := pending[..|pending| - 1];
      var i := pending[|pending| - 1];
      var p := Pass(inits, front, created, world);
      PassTrace(inits, front, created, world);
      PassCreated(inits, front, created, world);
      if AllRequiresIn(inits[i], p.created) {
        assert Pass(inits, pending, created, world).called == p.called + [i];
        assert CreatedBy(inits, [i][..0]) == {};
        assert (created + CreatedBy(inits, p.called)) + CreatedBy(inits, [i][..0]) == p.created;
        assert ValidTrace(inits, created + CreatedBy(inits, p.called), [i]);
        ValidTraceAppend(inits, created, p.called, [i]);
      }
    }
  }

  /** An entry a pass keeps was not satisfied even by the ids created before the pass. */
  lemma {:induction false} PassRest(inits: seq<ResourceInitializer>, pending: seq<nat>, created: set<TypeId>, world: WorldMap)
    requires AllWellFormed(inits) && IndicesIn(|inits|, pending)
    requires created <= world.Keys
    ensures forall i :: i in Pass(inits, pending, created, world).rest ==> !AllRequiresIn(inits[i], created)
    decreases |pending|
  {
    if pending != [] {
      var front := pending[..|pending| - 1];
      var i := pending[|pending| - 1];
      var p := Pass(inits, front, created, world);
      PassRest(inits, front, created, world);
      PassCreated(inits, front, created, world);
      if !AllRequiresIn(inits[i], p.created) {
        assert Pass(inits, pending, created, world).rest == p.rest + [i];
        if AllRequiresIn(inits[i], created) {
          AllRequiresInMonotone(inits[i], created, p.created);
        }
      }
    }
  }

  /**
   * The step of a pass at position `j`: the entry is called iff its
   * requirements are among the ids created before the pass or by the calls
   * made earlier in the same pass (`created_types` grows in place).
   */
  lemma PassStep(inits: seq<ResourceInitializer>, pending: seq<nat>, created: set<TypeId>, world: WorldMap, j: nat)
    requires AllWellFormed(inits) && IndicesIn(|inits|, pending)
    requires created <= world.Keys
    requires j < |pending|
    ensures IndicesIn(|inits|, pending[..j]) && IndicesIn(|inits|, pending[..j + 1])
    ensures var p := Pass(inits, pending[..j], created, world);
      var ready := AllRequiresIn(inits[pending[j]], created + CreatedBy(inits, p.called));
      ready <==> Pass(inits, pending[..j + 1], created, world).called == p.called + [pending[j]]
  {
    var front, pre := pending[..j], pending[..j + 1];
    assert pre[..|pre| - 1] == front && pre[|pre| - 1] == pending[j];
    var p := Pass(inits, front, created, world);
    PassCreated(inits, front, created, world);
    var q := Pass(inits, pre, created, world);
    if !AllRequiresIn(inits[pending[j]], p.created) {
      assert |q.called| != |p.called + [pending[j]]|;
    }
  }

  /**
   * The other half of the step at position `j`: a called entry leaves
   * `rest` as it was, and an entry not yet satisfied is pushed onto `rest`
   * without any call.
   */
  lemma PassStepRest(inits: seq<ResourceInitializer>, pending: seq<nat>, created: set<TypeId>, world: WorldMap, j: nat)
    requires AllWellFormed(inits) && IndicesIn(|inits|, pending)
    requires created <= world.Keys
    requires j < |pending|
    ensures IndicesIn(|inits|, pending[..j]) && IndicesIn(|inits|, pending[..j + 1])
    ensures var p := Pass(inits, pending[..j], created, world);
      var q := Pass(inits, pending[..j + 1], created, world);
      if AllRequiresIn(inits[pending[j]], created + CreatedBy(inits, p.called))
      then q.rest == p.rest
      else q.rest == p.rest + [pending[j]] && q.called == p.called
  {
    var front, pre := pending[..j], pending[..j + 1];
    assert pre[..|pre| - 1] == front && pre[|pre| - 1] == pending[j];
    PassCreated(inits, front, created, world);
  }

  /** A pass in which some pending entry is already satisfied calls at least one initializer. */
  lemma PassProgress(inits: seq<ResourceInitializer>, pending: seq<nat>, created: set<TypeId>, world: WorldMap, k: nat)
    requires AllWellFormed(inits) && IndicesIn(|inits|, pending)
    requires created <= world.Keys
    requires k < |pending| && AllRequiresIn(inits[pending[k]], created)
    ensures |Pass(inits, pending, created, world).rest| < |pending|
  {
    var p := Pass(inits, pending, created, world);
    PassPartition(inits, pending, created, world);
    PassRest(inits, pending, created, world);
    var x := pending[k];
    assert x !in p.rest;
    assert x in multiset(pending);
    assert x in multiset(p.called);
    assert |multiset(p.rest)| + |multiset(p.called)| == |multiset(pending)|;
  }

  // ---------------------------------------------------------------------
  // The whole loop.

  /**
   * How resolution ended: the final `created_types` and world, the
   * initializers called in call order, and the ones still pending when a
   * pass made no progress (empty when the loop ran to completion).
   */
  datatype ResolveResult = ResolveResult(created: set<TypeId>, world: WorldMap, order: seq<nat>, stuck: seq<nat>)
  {
    predicate Succeeded() { stuck == [] }
  }

  /**
   * The `while !resource_inits.is_empty()` loop, from the given pending
   * list, `created_types` and world. It terminates because every pass that
   * does not end the loop shrinks the pending list; it fails exactly when a
   * pass calls nothing while entries are pending.
   */
  function Resolve(inits: seq<ResourceInitializer>, pending: seq<nat>, created: set<TypeId>, world: WorldMap): (r: ResolveResult)
    requires AllWellFormed(inits) && IndicesIn(|inits|, pending)
    requires created <= world.Keys
    ensures IndicesIn(|inits|, r.order) && IndicesIn(|inits|, r.stuck)
    ensures r.created <= r.world.Keys
    decreases |pending|
  {
    if pending == [] then ResolveResult(created, world, [], [])
    else
      var p := Pass(inits, pending, created, world);
      if |p.rest| == |pending| then ResolveResult(created, world, [], pending)
      else
        var r := Resolve(inits, p.rest, p.created, p.world);
        ResolveResult(r.created, r.world, p.called + r.order, r.stuck)
  }

  /** Every pending entry is either called or left stuck, and each exactly as often as it was pending. */
  lemma {:induction false} ResolvePartition(inits: seq<ResourceInitializer>, pending: seq<nat>, created: set<TypeId>, world: WorldMap)
    requires AllWellFormed(inits) && IndicesIn(|inits|, pending)
    requires created <= world.Keys
    ensures var r := Resolve(inits, pending, created, world);
      multiset(r.order) + multiset(r.stuck) == multiset(pending)
    decreases |pending|
  {
    if pending != [] {
      var p := Pass(inits, pending, created, world);
      PassPartition(inits, pending, created, world);
      if |p.rest| != |pending| {
        ResolvePartition(inits, p.rest, p.created, p.world);
      }
    }
  }

  /**
   * The created ids are those of the initializers called, and the world is
   * what calling them in call order produces.
   */
  lemma {:induction false} ResolveCreated(inits: seq<ResourceInitializer>, pending: seq<nat>, created: set<TypeId>, world: WorldMap)
    requires AllWellFormed(inits) && IndicesIn(|inits|, pending)
    requires created <= world.Keys
    ensures var r := Resolve(inits, pending, created, world);
      r.created == created + CreatedBy(inits, r.order) && RunAll(inits, r.order, world) == Some(r.world)
    decreases |pending|
  {
    if pending != [] {
      var p := Pass(inits, pending, created, world);
      if |p.rest| != |pending| {
        var r := Resolve(inits, p.rest, p.created, p.world);
        ResolveCreated(inits, p.rest, p.created, p.world);
        PassWorld(inits, pending, created, world);
        PassCreated(inits, pending, created, world);
        CreatedByAppend(inits, p.called, r.order);
        RunAllAppend(inits, p.called, r.order, world, p.world);
      }
    }
  }

  /** Each call found its requirements among the ids created before it. */
  lemma {:induction false} ResolveTrace(inits: seq<ResourceInitializer>, pending: seq<nat>, created: set<TypeId>, world: WorldMap)
    requires AllWellFormed(inits) && IndicesIn(|inits|, pending)
    requires created <= world.Keys
    ensures ValidTrace(inits, created, Resolve(inits, pending, created, world).order)
    decreases |pending|
  {
    if pending != [] {
      var p := Pass(inits, pending, created, world);
      if |p.rest| != |pending| {
        var r := Resolve(inits, p.rest, p.created, p.world);
        ResolveTrace(inits, p.rest, p.created, p.world);
        PassCreated(inits, pending, created, world);
        PassTrace(inits, pending, created, world);
        ValidTraceAppend(inits, created, p.called, r.order);
      }
    }
  }

  /** Every stuck initializer lacks at least one requirement among the final created ids. */
  lemma {:induction false} ResolveStuck(inits: seq<ResourceInitializer>, pending: seq<nat>, created: set<TypeId>, world: WorldMap)
    requires AllWellFormed(inits) && IndicesIn(|inits|, pending)
    requires created <= world.Keys
    ensures forall i :: i in Resolve(inits, pending, created, world).stuck ==>
      !AllRequiresIn(inits[i], Resolve(inits, pending, created, world).created)
    decreases |pending|
  {
    if pending != [] {
      var p := Pass(inits, pending, created, world);
      if |p.rest| == |pending| {
        PassOrder(inits, pending, created, world);
        SubseqLength(p.rest, pending);
        PassRest(inits, pending, created, world);
      } else {
        ResolveStuck(inits, p.rest, p.created, p.world);
        var r := Resolve(inits, p.rest, p.created, p.world);
        assert Resolve(inits, pending, created, world).stuck == r.stuck;
        assert Resolve(inits, pending, created, world).created == r.created;
      }
    }
  }

  /** The first entry of `order` that is still pending. */
  lemma FirstPending(order: seq<nat>, pending: seq<nat>) returns (k: nat)
    requires exists j :: 0 <= j < |order| && order[j] in pending
    ensures k < |order| && order[k] in pending
    ensures forall j :: 0 <= j < k ==> order[j] !in pending
  {
    k := 0;
    while order[k] !in pending
      invariant k < |order|
      invariant exists j :: k <= j < |order| && order[j] in pending
      invariant forall j :: 0 <= j < k ==> order[j] !in pending
      decreases |order| - k
    {
      k := k + 1;
    }
  }

  /**
   * Completeness, from any point of the loop: if some schedule `order`
   * exists such that every entry of it that is no longer pending has its
   * ids created, the loop runs to completion.
   */
  lemma {:induction false} ResolveCompleteFrom(inits: seq<ResourceInitializer>, pending: seq<nat>, created: set<TypeId>, world: WorldMap, order: seq<nat>)
    requires AllWellFormed(inits) && IndicesIn(|inits|, pending)
    requires created <= world.Keys
    requires IndicesIn(|inits|, order) && ValidTrace(inits, {}, order)
    requires forall i :: i in pending ==> i in order
    requires forall k :: 0 <= k < |order| && order[k] !in pending ==> CreatedIds(inits[order[k]]) <= created
    ensures Resolve(inits, pending, created, world).Succeeded()
    decreases |pending|
  {
    if pending != [] {
      assert pending[0] in order;
      var k := FirstPending(order, pending);
      var before := order[..k];
      forall j | 0 <= j < |before|
        ensures CreatedIds(inits[before[j]]) <= created
      {
        assert before[j] == order[j];
      }
      CreatedByBound(inits, before, created);
      assert AllRequiresIn(inits[order[k]], {} + CreatedBy(inits, before));
      AllRequiresInMonotone(inits[order[k]], {} + CreatedBy(inits, before), created);
      var m :| 0 <= m < |pending| && pending[m] == order[k];
      PassProgress(inits, pending, created, world, m);
      var p := Pass(inits, pending, created, world);
      PassPartition(inits, pending, created, world);
      PassCreated(inits, pending, created, world);
      forall j | 0 <= j < |order| && order[j] !in p.rest
        ensures CreatedIds(inits[order[j]]) <= p.created
      {
        if order[j] in pending {
          assert order[j] in multiset(pending);
          assert order[j] in multiset(p.called);
          var c :| 0 <= c < |p.called| && p.called[c] == order[j];
          CreatedByMember(inits, p.called, c);
        }
      }
      forall i | i in p.rest
        ensures i in order
      {
        assert i in multiset(p.rest);
        assert i in multiset(pending);
      }
      ResolveCompleteFrom(inits, p.rest, p.created, p.world, order);
    }
  }

  // ---------------------------------------------------------------------
  // Resolution from the start of `run_resorce_inits`.

  /** `run_resorce_inits` starts with nothing created and every initializer pending, in list order. */
  function ResolveAll(inits: seq<ResourceInitializer>, world: WorldMap): ResolveResult
    requires AllWellFormed(inits)
  {
    Resolve(inits, AllIndices(|inits|), {}, world)
  }

  lemma {:induction false} AllIndicesCount(n: nat, i: nat)
    ensures multiset(AllIndices(n))[i] == if i < n then 1 else 0
  {
    if n > 0 {
      assert AllIndices(n) == AllIndices(n - 1) + [n - 1];
      AllIndicesCount(n - 1, i);
    }
  }

  /** An entry that occurs at two positions occurs at least twice in the multiset. */
  lemma RepeatCount(s: seq<nat>, j: nat, k: nat)
    requires j < k < |s| && s[j] == s[k]
    ensures multiset(s)[s[j]] >= 2
  {
    var x := s[j];
    assert s == s[..k] + [x] + s[k + 1..];
    assert s[..k][j] == x;
  }

  /** Two sequences with the same multiset have the same members. */
  lemma SameMembers(xs: seq<nat>, ys: seq<nat>)
    requires multiset(xs) == multiset(ys)
    ensures forall i :: i in xs <==> i in ys
  {
    forall i
      ensures i in xs <==> i in ys
    {
      assert i in xs <==> i in multiset(xs);
      assert i in ys <==> i in multiset(ys);
    }
  }

  /**
   * Each initializer is called at most once, and each is either called or
   * reported stuck, never both.
   */
  lemma ResolveAllCallsOnce(inits: seq<ResourceInitializer>, world: WorldMap)
    requires AllWellFormed(inits)
    ensures var r := ResolveAll(inits, world);
      && (forall j, k :: 0 <= j < k < |r.order| ==> r.order[j] != r.order[k])
      && (forall i :: 0 <= i < |inits| ==> (i in r.order <==> i !in r.stuck))
  {
    var r := ResolveAll(inits, world);
    ResolvePartition(inits, AllIndices(|inits|), {}, world);
    forall j, k | 0 <= j < k < |r.order|
      ensures r.order[j] != r.order[k]
    {
      if r.order[j] == r.order[k] {
        RepeatCount(r.order, j, k);
        AllIndicesCount(|inits|, r.order[j]);
      }
    }
    forall i | 0 <= i < |inits|
      ensures i in r.order <==> i !in r.stuck
    {
      AllIndicesCount(|inits|, i);
      assert multiset(r.order)[i] + multiset(r.stuck)[i] == 1;
    }
  }

  /** A successful run calls every index of the flattened list. */
  lemma ResolveAllCallsAll(inits: seq<ResourceInitializer>, world: WorldMap)
    requires AllWellFormed(inits)
    ensures var r := ResolveAll(inits, world);
      r.Succeeded() ==> forall i :: 0 <= i < |inits| ==> i in r.order
  {
    var r := ResolveAll(inits, world);
    var all := AllIndices(|inits|);
    if r.Succeeded() {
      ResolvePartition(inits, all, {}, world);
      assert multiset(r.order) == multiset(all);
      SameMembers(r.order, all);
      forall i | 0 <= i < |inits|
        ensures i in r.order
      {
        assert all[i] == i;
      }
    }
  }

  /** A successful run has created exactly the ids of all initializers. */
  lemma ResolveAllCreatesAll(inits: seq<ResourceInitializer>, world: WorldMap)
    requires AllWellFormed(inits)
    ensures var r := ResolveAll(inits, world);
      r.Succeeded() ==> r.created == CreatedBy(inits, AllIndices(|inits|))
  {
    var r := ResolveAll(inits, world);
    var all := AllIndices(|inits|);
    if r.Succeeded() {
      assert r.created == CreatedBy(inits, r.order) by {
        ResolveCreated(inits, all, {}, world);
      }
      assert forall i :: i in all ==> i in r.order by {
        ResolveAllCallsAll(inits, world);
      }
      forall i | i in r.order
        ensures i in all
      {
        assert all[i] == i;
      }
      CreatedBySameElements(inits, all, r.order);
      CreatedBySameElements(inits, r.order, all);
    }
  }

  /**
   * Soundness: when the loop runs to completion, its call order is a
   * schedule of all initializers, `created_types` is exactly the union of
   * every initializer's `creates_ids`, and all of those are keys of the world.
   */
  lemma ResolveAllSound(inits: seq<ResourceInitializer>, world: WorldMap)
    requires AllWellFormed(inits)
    ensures var r := ResolveAll(inits, world);
      r.Succeeded() ==>
        && Schedule(inits, r.order)
        && r.created == CreatedBy(inits, AllIndices(|inits|))
        && r.created <= r.world.Keys
  {
    ResolveAllCallsAll(inits, world);
    ResolveAllCreatesAll(inits, world);
    ResolveTrace(inits, AllIndices(|inits|), {}, world);
  }

  /**
   * Completeness: if some order calls every initializer after those that
   * create what it requires (the dependencies form no cycle and nothing
   * required is missing), the loop runs to completion.
   */
  lemma ResolveAllComplete(inits: seq<ResourceInitializer>, world: WorldMap, order: seq<nat>)
    requires AllWellFormed(inits)
    requires Schedule(inits, order)
    ensures ResolveAll(inits, world).Succeeded()
  {
    var all := AllIndices(|inits|);
    forall i | i in all
      ensures i in order
    {
      var j :| 0 <= j < |all| && all[j] == i;
    }
    forall k | 0 <= k < |order|
      ensures order[k] in all
    {
      assert all[order[k]] == order[k];
    }
    ResolveCompleteFrom(inits, all, {}, world, order);
  }

  /** The loop runs to completion exactly when a schedule of all initializers exists. */
  lemma ResolveAllSucceedsIffSchedulable(inits: seq<ResourceInitializer>, world: WorldMap)
    requires AllWellFormed(inits)
    ensures ResolveAll(inits, world).Succeeded() <==> exists order :: Schedule(inits, order)
  {
    var r := ResolveAll(inits, world);
    ResolveAllSound(inits, world);
    if exists order :: Schedule(inits, order) {
      var order :| Schedule(inits, order);
      ResolveAllComplete(inits, world, order);
    }
  }

  // ---------------------------------------------------------------------
  // What a failed resolution reports.

  /** `required().into_iter().filter(|x| !created_types.contains(&x.id))`: the requirements not created, in order. */
  function Missing(required: seq<TypeInfo>, created: set<TypeId>): (r: seq<TypeInfo>)
    ensures |r| <= |required|
    ensures forall t :: t in r <==> t in required && t.id !in created
    decreases |required|
  {
    if required == [] then []
    else
      var t := required[|required| - 1];
      Missing(required[..|required| - 1], created) + (if t.id in created then [] else [t])
  }

  /** Nothing is missing exactly when `all_requires_in` holds. */
  lemma MissingEmptyIff(ri: ResourceInitializer, created: set<TypeId>)
    ensures Missing(ri.required, created) == [] <==> AllRequiresIn(ri, created)
  {
    AllRequiresInIff(ri, created);
    var m := Missing(ri.required, created);
    if m != [] {
      assert m[0] in m;
    } else {
      forall k | 0 <= k < |ri.required|
        ensures ri.required[k].id in created
      {
        assert ri.required[k] !in m;
      }
    }
  }

  /** What is printed for one stuck initializer: its plugin, what it creates, and what it misses. */
  datatype StuckReport = StuckReport(pluginName: string, creates: seq<TypeInfo>, missing: seq<TypeInfo>)

  /** One report per stuck initializer, in pending order. */
  function Reports(inits: seq<ResourceInitializer>, stuck: seq<nat>, created: set<TypeId>): (r: seq<StuckReport>)
    requires IndicesIn(|inits|, stuck)
    ensures |r| == |stuck|
    ensures forall k :: 0 <= k < |r| ==>
      r[k] == StuckReport(inits[stuck[k]].pluginName, inits[stuck[k]].creates, Missing(inits[stuck[k]].required, created))
  {
    seq(|stuck|, k requires 0 <= k < |stuck| =>
      var ri := inits[stuck[k]];
      StuckReport(ri.pluginName, ri.creates, Missing(ri.required, created)))
  }

  /** When resolution fails, every report names at least one missing requirement. */
  lemma ResolveAllReportsMissing(inits: seq<ResourceInitializer>, world: WorldMap)
    requires AllWellFormed(inits)
    ensures var r := ResolveAll(inits, world);
      forall rep :: rep in Reports(inits, r.stuck, r.created) ==> rep.missing != []
  {
    var r := ResolveAll(inits, world);
    ResolveStuck(inits, AllIndices(|inits|), {}, world);
    var reps := Reports(inits, r.stuck, r.created);
    forall rep | rep in reps
      ensures rep.missing != []
    {
      var k :| 0 <= k < |reps| && reps[k] == rep;
      assert r.stuck[k] in r.stuck;
      MissingEmptyIff(inits[r.stuck[k]], r.created);
    }
  }
}
