/** supertypes.ListType and supertypes.ListValue. */
module SuperList {
  import opened Wrappers
  import opened Attr
  import opened Host
  import Types
  import Values

  // ---------------------------------------------------------------------
  // ListType (equality, names, wire types and the element-type fallback are in module Types)

  /** ListType.ValueFromList: a 1:1 wrap of a base list, with no diagnostics. */
  function ValueFromList(input: BaseList): (r: (AttrValue, Diagnostics))
    ensures r.0.SuperListValue? && r.0.l == input
    ensures r.1 == [] && !HasError(r.1)
  {
    (SuperListValue(input), [])
  }

  /**
   * ListType.ValueFromTerraform for a ListType whose ElemType is `elem`: the
   * base conversion first, then the type assertion to a base list, then
   * promotion. Succeeds exactly when the base conversion yields a base list,
   * and then wraps that list unchanged.
   */
  function ValueFromTerraform(fw: Framework, elem: Option<AttrType>, wire: WireValue): (r: Result<AttrValue, ConversionError>)
    ensures fw.listFromTerraform(elem, wire).Err? ==> r == Err(BaseConversionFailed(fw.listFromTerraform(elem, wire).error))
    ensures fw.listFromTerraform(elem, wire).Ok? && !fw.listFromTerraform(elem, wire).value.BaseListValue?
            ==> r == Err(UnexpectedValueKind(fw.listFromTerraform(elem, wire).value))
    ensures r.Ok? <==> fw.listFromTerraform(elem, wire).Ok? && fw.listFromTerraform(elem, wire).value.BaseListValue?
    ensures r.Ok? ==> r.value == SuperListValue(fw.listFromTerraform(elem, wire).value.l)
  {
    match fw.listFromTerraform(elem, wire)
    case Err(msg) => Err(BaseConversionFailed(msg))
    case Ok(v) =>
      if !v.BaseListValue? then Err(UnexpectedValueKind(v))
      else
        var (w, diags) := ValueFromList(v.l);
        if HasError(diags) then Err(PromotionFailed(diags)) else Ok(w)
  }

  /** ListType.ValueType: the zero ListValue over the type's element type, which is null. */
  function ValueType(elem: Option<AttrType>): (r: AttrValue)
    ensures r.SuperListValue? && r.l.IsNull() && r.l.elemType == elem
  {
    SuperListValue(BaseList(elem, NullList))
  }

  /**
   * A ListType accepts (is Equal to) the Type() of its own values, in every
   * state, exactly when its element type is present and self-equal; the
   * reported type keeps the element type.
   */
  lemma {:induction false} TypeAcceptsOwnValues(elem: Option<AttrType>, st: ListState)
    ensures Types.Equal(SuperListType(elem), Values.TypeOf(SuperListValue(BaseList(elem, st))))
        <==> elem.Some? && Types.SelfEqualShape(elem.value)
    ensures Types.ElementType(Values.TypeOf(SuperListValue(BaseList(elem, st))).elem) == Types.ElementType(elem)
  {
    if elem.Some? {
      Types.EqualReflexiveIff(elem.value);
    }
  }

  /** A value converted from Terraform is accepted by its ListType when the framework kept the element type. */
  lemma TerraformValueAccepted(fw: Framework, elem: Option<AttrType>, wire: WireValue)
    requires ValueFromTerraform(fw, elem, wire).Ok?
    requires fw.listFromTerraform(elem, wire).value.l.elemType == elem
    requires elem.Some? && Types.SelfEqualShape(elem.value)
    ensures Types.Equal(SuperListType(elem), Values.TypeOf(ValueFromTerraform(fw, elem, wire).value))
  {
    TypeAcceptsOwnValues(elem, fw.listFromTerraform(elem, wire).value.l.state);
  }

  // ---------------------------------------------------------------------
  // ListValue

  /**
   * ListValue.Equal: false for anything but a wrapper ListValue; a list whose
   * element type is a wrapper ListType is not even Equal to itself.
   */
  lemma ValueEqualFacts(l: BaseList, o: AttrValue, e: Option<AttrType>, st: ListState)
    ensures Values.ValueEqual(SuperListValue(l), o) ==> o.SuperListValue?
    ensures !Values.ValueEqual(SuperListValue(l), BaseListValue(l))
    ensures !Values.ValueEqual(SuperListValue(BaseList(Some(SuperListType(e)), st)), SuperListValue(BaseList(Some(SuperListType(e)), st)))
  {
  }

  /**
   * An addressable supertypes.ListValue, the receiver of the pointer methods
   * Get, Set, SetNull and SetUnknown. `base` is the embedded basetypes.ListValue.
   */
  class ListValue {
    var base: BaseList

    /** ListNull */
    constructor Null(elementType: Option<AttrType>)
      ensures base == BaseList(elementType, NullList) && !IsKnown()
    {
      base := BaseList(elementType, NullList);
    }

    /** ListUnknown */
    constructor Unknown(elementType: Option<AttrType>)
      ensures base == BaseList(elementType, UnknownList) && !IsKnown()
    {
      base := BaseList(elementType, UnknownList);
    }

    /** The value held, as an attribute value. */
    function Value(): AttrValue
      reads this
    {
      SuperListValue(base)
    }

    /**
     * The element type, promoted from the embedded basetypes.ListValue: the
     * element type of the value's reported Type(), nil included (no missingType
     * fallback on the value side).
     */
    function ElementType(): (r: Option<AttrType>)
      reads this
      ensures r == Values.TypeOf(Value()).elem
    {
      base.elemType
    }

    /** IsKnown, recomputed from the current state on every call. */
    predicate IsKnown()
      reads this
      ensures IsKnown() <==> base.state.KnownList?
    {
      !base.IsNull() && !base.IsUnknown()
    }

    /**
     * Equal: only wrapper ListValues, compared by the base list's equality
     * (element types, state, elements pairwise); from a self-equal value that
     * is plain identity, so Null and Unknown differ.
     */
    function Equal(o: AttrValue): (r: bool)
      reads this
      ensures r <==> o.SuperListValue? && Values.ListEqual(base, o.l)
      ensures r ==> o.l.elemType.Some? && base.elemType.Some? && Types.Equal(base.elemType.value, o.l.elemType.value)
      ensures r ==> (o.l.state.KnownList? <==> IsKnown())
      ensures Values.SelfEqualList(base) ==> (r <==> o == Value())
      ensures o == Value() ==> (r <==> Values.SelfEqualList(base))
    {
      Values.ListEqualReflexiveIff(base);
      if Values.SelfEqualList(base) then
        Values.ValueEqualIsIdentity(Value(), o);
        Values.ValueEqual(Value(), o)
      else
        assert Values.ValueEqual(Value(), o) <==> o.SuperListValue? && Values.ListEqual(base, o.l);
        Values.ValueEqual(Value(), o)
    }

    /**
     * Type: the BASE list type over the current element type, in every state;
     * the wrapper ListType over that element type accepts it exactly when the
     * element type is present and self-equal.
     */
    function Type(): (r: AttrType)
      reads this
      ensures r == BaseListType(base.elemType) && Types.ElementType(r.elem) == Types.ElementType(base.elemType)
      ensures Types.Equal(SuperListType(base.elemType), r) <==> base.elemType.Some? && Types.SelfEqualShape(base.elemType.value)
    {
      TypeAcceptsOwnValues(base.elemType, base.state);
      Values.TypeOf(Value())
    }

    /** ToListValue: the embedded base list, with no diagnostics; ValueFromList undoes it. */
    function ToListValue(): (r: (BaseList, Diagnostics))
      reads this
      ensures r.0 == base && !HasError(r.1)
      ensures ValueFromList(r.0).0 == Value()
    {
      (base, [])
    }

    /** Get: the framework's ElementsAs on the held list, which is left as it was. */
    method Get(fw: Framework, allowUnhandled: bool) returns (target: Native, d: Diagnostics)
      ensures (target, d) == fw.elementsAs(base, allowUnhandled)
    {
      target, d := fw.elementsAs(base, allowUnhandled).0, fw.elementsAs(base, allowUnhandled).1;
    }

    /**
     * Set: converts `elements` with the current element type and stores the
     * result unconditionally, even when the diagnostics hold an error.
     */
    method Set(fw: Framework, elements: Native) returns (d: Diagnostics)
      modifies this
      ensures (base, d) == fw.listValueFrom(old(base.elemType), elements)
      ensures fw.ListValueFromKeepsElementType() && old(base.elemType).Some? ==> base.elemType == old(base.elemType)
    {
      var converted := fw.listValueFrom(ElementType(), elements);
      base, d := converted.0, converted.1;
    }

    /** SetNull: Null over the same element type, elements dropped. */
    method SetNull()
      modifies this
      ensures base == BaseList(old(base.elemType), NullList) && !IsKnown()
    {
      base := BaseList(ElementType(), NullList);
    }

    /** SetUnknown: Unknown over the same element type, elements dropped. */
    method SetUnknown()
      modifies this
      ensures base == BaseList(old(base.elemType), UnknownList) && !IsKnown()
    {
      base := BaseList(ElementType(), UnknownList);
    }
  }

  /**
   * ListNull(t), then Set, SetUnknown and SetNull: with a framework whose
   * ListValueFrom keeps the element type, `t` survives every transition.
   */
  method Lifecycle(fw: Framework, t: AttrType, elements: Native) returns (final: AttrType, d: Diagnostics)
    requires fw.ListValueFromKeepsElementType()
    ensures final == BaseListType(Some(t))
    ensures d == fw.listValueFrom(Some(t), elements).1
  {
    var v := new ListValue.Null(Some(t));
    d := v.Set(fw, elements);
    assert v.ElementType() == Some(t);
    v.SetUnknown();
    v.SetNull();
    final := v.Type();
  }
}
