/**
 * The plugin builder (feather_plugin/src/lib.rs).
 *
 * A plugin is a named bundle of resource initializers, resource
 * requirements and labelled systems. Its builder methods take the plugin by
 * value and hand it back; here they update the object in place, which is
 * the same thing once the old value can no longer be used.
 */
module Plugins {
  import opened Wrappers
  import opened TypeInfos
  import opened Resources

  /**
   * `char::is_whitespace`: the code points with the Unicode White_Space
   * property.
   */
  predicate IsWhitespace(c: char)
  {
    var n := c as int;
    (0x09 <= n <= 0x0D) || n == 0x20 || n == 0x85 || n == 0xA0 || n == 0x1680
    || (0x2000 <= n <= 0x200A) || n == 0x2028 || n == 0x2029 || n == 0x202F
    || n == 0x205F || n == 0x3000
  }

  /** `name.chars().any(char::is_whitespace)`, walking the name from the front. */
  predicate AnyWhitespace(s: string)
  {
    s != [] && (IsWhitespace(s[0]) || AnyWhitespace(s[1..]))
  }

  /** The walk finds a whitespace character iff the name has one at some position. */
  lemma {:induction false} AnyWhitespaceIff(s: string)
    ensures AnyWhitespace(s) <==> exists k :: 0 <= k < |s| && IsWhitespace(s[k])
  {
    if s != [] {
      AnyWhitespaceIff(s[1..]);
      if AnyWhitespace(s[1..]) {
        var k :| 0 <= k < |s[1..]| && IsWhitespace(s[1..][k]);
        assert IsWhitespace(s[k + 1]);
      }
      if exists k :: 0 <= k < |s| && IsWhitespace(s[k]) {
        var k :| 0 <= k < |s| && IsWhitespace(s[k]);
        if k > 0 {
          assert s[1..][k - 1] == s[k];
        }
      }
    }
  }

  /** `str::starts_with`. */
  predicate StartsWith(s: string, prefix: string)
  {
    |prefix| <= |s| && s[..|prefix|] == prefix
  }

  /** The prefix every system label of the plugin `name` must carry: `"<name>::"`. */
  function LabelPrefix(name: string): (p: string)
    ensures |p| == |name| + 2 && p[..|name|] == name && p[|name|..] == "::"
  {
    name + "::"
  }

  /**
   * A system as `into_descriptor` yields it. Only its kind is modelled; the
   * system itself is an opaque tag.
   */
  datatype SystemDescriptor = Parallel(system: nat) | Exclusive(system: nat)

  /** Where a system is scheduled. `SystemLocation` is not part of this model; it is an opaque tag. */
  datatype SystemLocation = SystemLocation(tag: nat)

  /** An entry of `systems`: the descriptor, relabelled with `label` and of the same kind, and its location. */
  datatype SystemEntry = SystemEntry(descriptor: SystemDescriptor, systemLabel: string, location: SystemLocation)

  /** Why `add_system` panics. */
  datatype LabelError = MissingPrefix | DuplicateLabel

  class Plugin {
    const name: string
    var resourceInitialisers: seq<ResourceInitializer>
    var resourceRequirements: set<(string, TypeInfo)>
    var systems: seq<SystemEntry>
    var usedSystemLabels: set<string>

    /**
     * What the builder methods keep true: the name has no whitespace, every
     * initializer and requirement is stamped with the plugin's name, every
     * initializer was boxed by `to_box`, every required `TypeInfo` was built
     * by `of`, and the used labels are exactly the labels of the systems,
     * one per system, each with the plugin's prefix.
     */
    ghost predicate Valid()
      reads this
    {
      && !AnyWhitespace(name)
      && (forall k :: 0 <= k < |resourceInitialisers| ==>
            resourceInitialisers[k].pluginName == name && WellFormed(resourceInitialisers[k]))
      && (forall r :: r in resourceRequirements ==> r.0 == name && r.1 == Of(r.1.id.ty))
      && usedSystemLabels == Labels(systems)
      && |usedSystemLabels| == |systems|
      && (forall l :: l in usedSystemLabels ==> StartsWith(l, LabelPrefix(name)))
    }

    /** The struct literal of `Plugin::new`, reached only once the name is checked. */
    constructor (name: string)
      requires !AnyWhitespace(name)
      ensures Valid()
      ensures this.name == name
      ensures resourceInitialisers == [] && resourceRequirements == {}
      ensures systems == [] && usedSystemLabels == {}
    {
      this.name := name;
      resourceInitialisers := [];
      resourceRequirements := {};
      systems := [];
      usedSystemLabels := {};
    }

    /** `Plugin::new`: `None` stands for the panic on a name with whitespace. An empty name is accepted. */
    static method New(name: string) returns (p: Option<Plugin>)
      ensures p.Some? <==> !AnyWhitespace(name)
      ensures p.Some? ==> fresh(p.value) && p.value.Valid() && p.value.name == name
      ensures p.Some? ==> p.value.resourceInitialisers == [] && p.value.resourceRequirements == {}
      ensures p.Some? ==> p.value.systems == [] && p.value.usedSystemLabels == {}
    {
      if AnyWhitespace(name) {
        p := None;
      } else {
        var plugin := new Plugin(name);
        p := Some(plugin);
      }
    }

    /**
     * `add_system`: the label must start with `"<name>::"` and must not be
     * in use yet (checked in that order); `Some` stands for the panic and
     * leaves the plugin as it was. Otherwise the label is recorded and one
     * entry is appended.
     */
    method AddSystem(systemLabel: string, location: SystemLocation, system: SystemDescriptor) returns (err: Option<LabelError>)
      requires Valid()
      modifies this
      ensures Valid()
      ensures !StartsWith(systemLabel, LabelPrefix(name)) ==> err == Some(MissingPrefix)
      ensures StartsWith(systemLabel, LabelPrefix(name)) && systemLabel in old(usedSystemLabels) ==> err == Some(DuplicateLabel)
      ensures StartsWith(systemLabel, LabelPrefix(name)) && systemLabel !in old(usedSystemLabels) ==> err == None
      ensures err.None? ==> usedSystemLabels == old(usedSystemLabels) + {systemLabel}
      ensures err.None? ==> systems == old(systems) + [SystemEntry(system, systemLabel, location)]
      ensures err.Some? ==> usedSystemLabels == old(usedSystemLabels) && systems == old(systems)
      ensures resourceInitialisers == old(resourceInitialisers) && resourceRequirements == old(resourceRequirements)
    {
      if !StartsWith(systemLabel, LabelPrefix(name)) {
        return Some(MissingPrefix);
      }
      if systemLabel in usedSystemLabels {
        return Some(DuplicateLabel);
      }
      var entry := SystemEntry(system, systemLabel, location);
      LabelsExtend(systems, entry);
      usedSystemLabels := usedSystemLabels + {systemLabel};
      systems := systems + [entry];
      err := None;
    }

    /** `add_resource`: boxes the function, stamped with this plugin's name, and appends it. */
    method AddResource(init: Closure)
      requires Valid()
      modifies this
      ensures Valid()
      ensures resourceInitialisers == old(resourceInitialisers) + [ToBox(init, name)]
      ensures resourceInitialisers[|resourceInitialisers| - 1].pluginName == name
      ensures resourceRequirements == old(resourceRequirements)
      ensures systems == old(systems) && usedSystemLabels == old(usedSystemLabels)
    {
      resourceInitialisers := resourceInitialisers + [ToBox(init, name)];
    }

    /**
     * `add_resource_requirement::<T>`: records `(name, TypeInfo::of::<T>())`.
     * The set ignores a repeated call.
     */
    method AddResourceRequirement(t: RustType)
      requires Valid()
      modifies this
      ensures Valid()
      ensures resourceRequirements == old(resourceRequirements) + {(name, Of(t))}
      ensures old((name, Of(t)) in resourceRequirements) ==> resourceRequirements == old(resourceRequirements)
      ensures resourceInitialisers == old(resourceInitialisers)
      ensures systems == old(systems) && usedSystemLabels == old(usedSystemLabels)
    {
      resourceRequirements := resourceRequirements + {(name, Of(t))};
    }
  }

  /** The labels of a list of system entries. */
  function Labels(systems: seq<SystemEntry>): set<string>
  {
    set k | 0 <= k < |systems| :: systems[k].systemLabel
  }

  /** Appending an entry adds its label to the labels. */
  lemma LabelsExtend(systems: seq<SystemEntry>, e: SystemEntry)
    ensures Labels(systems + [e]) == Labels(systems) + {e.systemLabel}
  {
    var s := systems + [e];
    forall l | l in Labels(s)
      ensures l in Labels(systems) + {e.systemLabel}
    {
      var k :| 0 <= k < |s| && s[k].systemLabel == l;
      if k < |systems| {
        assert systems[k] == s[k];
      }
    }
    forall l | l in Labels(systems) + {e.systemLabel}
      ensures l in Labels(s)
    {
      if l in Labels(systems) {
        var k :| 0 <= k < |systems| && systems[k].systemLabel == l;
        assert s[k] == systems[k];
      } else {
        assert s[|systems|].systemLabel == l;
      }
    }
  }


  /** A subset is no larger than its superset. */
  lemma SubsetCard<T>(a: set<T>, b: set<T>)
    requires a <= b
    ensures |a| <= |b|
    decreases a
  {
    if a != {} {
      var x :| x in a;
      SubsetCard(a - {x}, b - {x});
    }
  }

  /** A list of systems has at most as many labels as entries. */
  lemma {:induction false} LabelsBound(systems: seq<SystemEntry>)
    ensures |Labels(systems)| <= |systems|
    decreases |systems|
  {
    if systems != [] {
      var front := systems[..|systems| - 1];
      assert systems == front + [systems[|systems| - 1]];
      LabelsExtend(front, systems[|systems| - 1]);
      LabelsBound(front);
    }
  }

  /** Two entries with the same label leave fewer labels than entries. */
  lemma LabelsDuplicate(systems: seq<SystemEntry>, i: nat, j: nat)
    requires i < j < |systems| && systems[i].systemLabel == systems[j].systemLabel
    ensures |Labels(systems)| < |systems|
  {
    var t := systems[..j] + systems[j + 1..];
    forall l | l in Labels(systems)
      ensures l in Labels(t)
    {
      var k :| 0 <= k < |systems| && systems[k].systemLabel == l;
      if k < j {
        assert t[k] == systems[k];
      } else if k == j {
        assert t[i] == systems[i];
      } else {
        assert t[k - 1] == systems[k];
      }
    }
    SubsetCard(Labels(systems), Labels(t));
    LabelsBound(t);
  }

  /**
   * The plugin invariant `|used_system_labels| == |systems|` means that no
   * two systems of a plugin share a label.
   */
  lemma ValidLabelsDistinct(p: Plugin)
    requires p.Valid()
    ensures forall i, j :: 0 <= i < j < |p.systems| ==> p.systems[i].systemLabel != p.systems[j].systemLabel
  {
    forall i, j | 0 <= i < j < |p.systems|
      ensures p.systems[i].systemLabel != p.systems[j].systemLabel
    {
      if p.systems[i].systemLabel == p.systems[j].systemLabel {
        LabelsDuplicate(p.systems, i, j);
      }
    }
  }

  /**
   * The set of a valid plugin holds at most one requirement per type id, so
   * it agrees with a set that hashes and compares `TypeInfo` by id alone.
   */
  lemma ValidRequirementsById(p: Plugin)
    requires p.Valid()
    ensures forall r, q :: r in p.resourceRequirements && q in p.resourceRequirements && Eq(r.1, q.1) ==> r == q
  {
    forall r, q | r in p.resourceRequirements && q in p.resourceRequirements && Eq(r.1, q.1)
      ensures r == q
    {
      OfIdentifiesTypes(r.1.id.ty, q.1.id.ty);
    }
  }
}
