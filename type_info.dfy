/**
 * Type identities (feather_plugin/src/type_info.rs).
 *
 * A `TypeInfo` pairs a diagnostic name with a `TypeId`. Only the id takes
 * part in equality and hashing.
 */
module TypeInfos {

  /**
   * A Rust type as the compiler sees it. `path` is what `type_name` prints;
   * `origin` tells apart types that print alike (the same path from two
   * versions of a crate, say), so the printed name is not the identity.
   */
  datatype RustType = RustType(path: string, origin: nat)

  /** `std::any::TypeId`: one opaque token per Rust type. */
  datatype TypeId = IdOf(ty: RustType)

  datatype TypeInfo = TypeInfo(name: string, id: TypeId)

  /** `PartialEq::eq`: compares the ids and ignores the names. */
  predicate Eq(a: TypeInfo, b: TypeInfo)
    ensures Eq(a, b) <==> Hash(a) == Hash(b)
  {
    a.id == b.id
  }

  /** `Hash::hash`: the value fed to the hasher is the id alone. */
  function Hash(t: TypeInfo): TypeId
  {
    t.id
  }

  /** `TypeInfo::of::<A>()`. */
  function Of(a: RustType): (t: TypeInfo)
    ensures t.id == IdOf(a)
  {
    TypeInfo(a.path, IdOf(a))
  }

  /** Equality is id equality: the name never matters. */
  lemma EqIgnoresName(a: TypeInfo, b: TypeInfo, n: string, m: string)
    ensures Eq(a, b) <==> a.id == b.id
    ensures Eq(a, b) <==> Eq(a.(name := n), b.(name := m))
  {
  }

  /** The derived `Eq` is sound: `eq` is an equivalence relation. */
  lemma EqIsEquivalence(a: TypeInfo, b: TypeInfo, c: TypeInfo)
    ensures Eq(a, a)
    ensures Eq(a, b) ==> Eq(b, a)
    ensures Eq(a, b) && Eq(b, c) ==> Eq(a, c)
  {
  }

  /** Equal values hash equally. */
  lemma HashRespectsEq(a: TypeInfo, b: TypeInfo)
    requires Eq(a, b)
    ensures Hash(a) == Hash(b)
  {
  }

  /**
   * `of` is deterministic and tells types apart; for values built by `of`,
   * `Eq` coincides with structural equality, so sets of such values
   * behave like the source's `HashSet`s.
   */
  lemma OfIdentifiesTypes(a: RustType, b: RustType)
    ensures Eq(Of(a), Of(b)) <==> a == b
    ensures Eq(Of(a), Of(b)) <==> Of(a) == Of(b)
  {
  }

  /**
   * Two distinct types may print the same name; `of` still tells them
   * apart, so the name takes no part in equality.
   */
  lemma SameNameDistinctTypes(path: string, o1: nat, o2: nat)
    requires o1 != o2
    ensures Of(RustType(path, o1)).name == Of(RustType(path, o2)).name
    ensures !Eq(Of(RustType(path, o1)), Of(RustType(path, o2)))
  {
  }
}
