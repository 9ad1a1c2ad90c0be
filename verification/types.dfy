/**
 * Type-descriptor logic: the element-type fallback, equality by dynamic kind,
 * names and wire types, over the closed tag universe of module Attr.
 */
module Types {
  import opened Wrappers
  import opened Attr
  import opened Host

  const StringTypeName: string := "SuperTypesStringType"
  const ListNamePrefix: string := "types.ListType["
  const ListNameSuffix: string := "]"

  /** How many list constructors are stacked in a type; the measure for recursion over element types. */
  function Nesting(t: AttrType): nat
  {
    match t
    case SuperListType(e) => if e.Some? then 1 + Nesting(e.value) else 1
    case BaseListType(e) => if e.Some? then 1 + Nesting(e.value) else 1
    case _ => 0
  }

  /** ListType.ElementType: the declared element type, or missingType{} when it is nil. */
  function ElementType(elem: Option<AttrType>): (r: AttrType)
    ensures elem.Some? ==> r == elem.value
    ensures r == MissingType <==> elem.None? || elem.value == MissingType
    ensures Nesting(r) + 1 <= Nesting(SuperListType(elem))
  {
    if elem.None? then MissingType else elem.value
  }

  /**
   * `t.Equal(o)`, dispatched on the kind of `t`. Every kind first type-asserts
   * `o` to one concrete Go type. The wrapper ListType asserts to the BASE list
   * type, so it is never equal to another wrapper ListType. A base list with a
   * nil element type equals nothing, and a nil `o.ElemType` fails the element
   * type's own assertion.
   */
  predicate Equal(t: AttrType, o: AttrType)
    ensures Equal(t, o) ==> SelfEqualShape(o)
    ensures Equal(t, o) ==> (t.SuperListType? || t.BaseListType? <==> o.BaseListType?)
  {
    match t
    case SuperStringType => o.SuperStringType?
    case SuperListType(e) => o.BaseListType? && e.Some? && o.elem.Some? && Equal(e.value, o.elem.value)
    case BaseStringType => o.BaseStringType?
    case BaseListType(e) => o.BaseListType? && e.Some? && o.elem.Some? && Equal(e.value, o.elem.value)
    case MissingType => o.MissingType?
  }

  /**
   * Reference definition for Equal: the one type a descriptor is Equal to, if any.
   * Lists map to the base list over their element's target.
   */
  function EqualTarget(t: AttrType): Option<AttrType>
  {
    match t
    case SuperListType(e) => ListTarget(e)
    case BaseListType(e) => ListTarget(e)
    case _ => Some(t)
  }

  function ListTarget(e: Option<AttrType>): Option<AttrType>
  {
    if e.None? then None
    else
      match EqualTarget(e.value)
      case None => None
      case Some(x) => Some(BaseListType(Some(x)))
  }

  /** The types Equal to themselves: no wrapper list and no nil element type anywhere inside. */
  predicate SelfEqualShape(t: AttrType)
  {
    match t
    case SuperListType(_) => false
    case BaseListType(e) => e.Some? && SelfEqualShape(e.value)
    case _ => true
  }

  /** The String() of every descriptor kind. */
  function TypeName(fw: Framework, t: AttrType): (r: string)
    ensures t.SuperListType? ==> |r| == |ListNamePrefix| + |TypeName(fw, ElementType(t.elem))| + |ListNameSuffix| && r[|r| - 1] == ']'
    decreases Nesting(t)
  {
    match t
    case SuperStringType => StringTypeName
    case SuperListType(e) => ListNamePrefix + TypeName(fw, ElementType(e)) + ListNameSuffix
    case BaseStringType => fw.baseStringName
    case BaseListType(e) => fw.baseListName(TypeName(fw, ElementType(e)))
    case MissingType => fw.missingName
  }

  /** The TerraformType() of every descriptor kind; the wrapper StringType inherits the base one. */
  function TerraformType(fw: Framework, t: AttrType): (r: WireType)
    ensures t.SuperStringType? || t.BaseStringType? ==> r == WireString
    ensures t.SuperListType? || t.BaseListType? ==> r.WireList? && r.elem == TerraformType(fw, ElementType(t.elem))
    decreases Nesting(t)
  {
    match t
    case SuperStringType => WireString
    case BaseStringType => WireString
    case SuperListType(e) => WireList(TerraformType(fw, ElementType(e)))
    case BaseListType(e) => WireList(TerraformType(fw, ElementType(e)))
    case MissingType => fw.missingWire
  }

  /** `n` wrapper ListTypes stacked around `leaf`. */
  function NestedList(n: nat, leaf: AttrType): AttrType
  {
    if n == 0 then leaf else SuperListType(Some(NestedList(n - 1, leaf)))
  }

  function Repeat(s: string, n: nat): string
  {
    if n == 0 then [] else s + Repeat(s, n - 1)
  }

  // ---------------------------------------------------------------------
  // Equality

  /** Equal(t, o) holds exactly when `o` is the reference target of `t`. */
  lemma {:induction false} EqualIffTarget(t: AttrType, o: AttrType)
    ensures Equal(t, o) <==> EqualTarget(t) == Some(o)
  {
    match t
    case SuperListType(e) =>
      if e.Some? && o.BaseListType? && o.elem.Some? {
        EqualIffTarget(e.value, o.elem.value);
      }
    case BaseListType(e) =>
      if e.Some? && o.BaseListType? && o.elem.Some? {
        EqualIffTarget(e.value, o.elem.value);
      }
    case _ =>
  }

  /** A target is always self-equal in shape, and a self-equal type is its own target. */
  lemma {:induction false} TargetShape(t: AttrType)
    ensures EqualTarget(t).Some? ==> SelfEqualShape(EqualTarget(t).value)
    ensures SelfEqualShape(t) ==> EqualTarget(t) == Some(t)
  {
    match t
    case SuperListType(e) =>
      assert EqualTarget(t) == ListTarget(e);
      if e.Some? { TargetShape(e.value); }
    case BaseListType(e) =>
      assert EqualTarget(t) == ListTarget(e);
      if e.Some? { TargetShape(e.value); }
    case _ =>
  }

  /** Reflexivity holds exactly on the self-equal shapes. */
  lemma {:induction false} EqualReflexiveIff(t: AttrType)
    ensures Equal(t, t) <==> SelfEqualShape(t)
  {
    EqualIffTarget(t, t);
    TargetShape(t);
  }

  /** The wrapper ListType never equals a wrapper ListType, whatever the element types. */
  lemma WrapperListNeverEqualsWrapper(e: Option<AttrType>, e': Option<AttrType>)
    ensures !Equal(SuperListType(e), SuperListType(e'))
    ensures Equal(SuperListType(e), BaseListType(e')) <==> Equal(BaseListType(e), BaseListType(e'))
  {
  }

  /** From a self-equal shape, Equal is plain identity. */
  lemma {:induction false} EqualIsIdentityOnShapes(t: AttrType, o: AttrType)
    requires SelfEqualShape(t)
    ensures Equal(t, o) <==> o == t
  {
    EqualIffTarget(t, o);
    TargetShape(t);
  }

  /**
   * Equal is not symmetric: a wrapper list accepts the base list over the same
   * element type, the base list does not accept the wrapper.
   */
  lemma EqualNotSymmetric(e: AttrType)
    requires SelfEqualShape(e)
    ensures Equal(SuperListType(Some(e)), BaseListType(Some(e)))
    ensures !Equal(BaseListType(Some(e)), SuperListType(Some(e)))
  {
    EqualReflexiveIff(e);
  }

  /** Equal is transitive. */
  lemma {:induction false} EqualTransitive(t: AttrType, o: AttrType, p: AttrType)
    requires Equal(t, o) && Equal(o, p)
    ensures Equal(t, p)
  {
    EqualIffTarget(t, o);
    EqualIffTarget(o, p);
    EqualIffTarget(t, p);
    TargetShape(t);
    TargetShape(o);
  }

  // ---------------------------------------------------------------------
  // Names and wire types

  /** A wrapper list's name embeds its element's name; a missing element still has one. */
  lemma ListNameEmbedsElement(fw: Framework, e: Option<AttrType>)
    ensures TypeName(fw, SuperListType(e)) == ListNamePrefix + TypeName(fw, ElementType(e)) + ListNameSuffix
    ensures e.None? ==> TypeName(fw, SuperListType(e)) == ListNamePrefix + fw.missingName + ListNameSuffix
  {
  }

  /** The name of `n` wrapper lists around the wrapper StringType, independent of the framework. */
  lemma {:induction false} NestedListName(fw: Framework, n: nat)
    ensures TypeName(fw, NestedList(n, SuperStringType))
         == Repeat(ListNamePrefix, n) + StringTypeName + Repeat(ListNameSuffix, n)
  {
    if n > 0 {
      var inner := NestedList(n - 1, SuperStringType);
      ListNameEmbedsElement(fw, Some(inner));
      NestedListName(fw, n - 1);
      RepeatSnoc(ListNameSuffix, n - 1);
      Regroup(ListNamePrefix, Repeat(ListNamePrefix, n - 1), StringTypeName, Repeat(ListNameSuffix, n - 1), ListNameSuffix);
    }
  }

  lemma Regroup(a: string, p: string, m: string, q: string, b: string)
    ensures a + (p + m + q) + b == (a + p) + m + (q + b)
  {
  }

  lemma {:induction false} RepeatSnoc(s: string, n: nat)
    ensures Repeat(s, n) + s == Repeat(s, n + 1)
  {
    if n > 0 {
      RepeatSnoc(s, n - 1);
    }
  }

  /** A type and its Equal target map to the same wire type. */
  lemma {:induction false} TargetSameWire(fw: Framework, t: AttrType)
    requires EqualTarget(t).Some?
    ensures TerraformType(fw, EqualTarget(t).value) == TerraformType(fw, t)
  {
    match t
    case SuperListType(e) => TargetSameWire(fw, e.value);
    case BaseListType(e) => TargetSameWire(fw, e.value);
    case _ =>
  }

  /** Equal descriptors agree on the wire: Equal(t, o) implies the same TerraformType. */
  lemma {:induction false} EqualSameWire(fw: Framework, t: AttrType, o: AttrType)
    requires Equal(t, o)
    ensures TerraformType(fw, t) == TerraformType(fw, o)
  {
    EqualIffTarget(t, o);
    TargetSameWire(fw, t);
  }

  /** The wire type of `n` wrapper lists around a string is `n` wire lists around WireString. */
  lemma {:induction false} NestedListWire(fw: Framework, n: nat)
    ensures TerraformType(fw, NestedList(n, SuperStringType)) == NestedWire(n)
  {
    if n > 0 {
      NestedListWire(fw, n - 1);
    }
  }

  function NestedWire(n: nat): WireType
  {
    if n == 0 then WireString else WireList(NestedWire(n - 1))
  }
}
