/** supertypes.StringType and supertypes.StringValue. */
module SuperString {
  import opened Wrappers
  import opened Attr
  import opened Host
  import Types
  import Values

  // ---------------------------------------------------------------------
  // StringType

  /** StringType.Equal accepts only the wrapper StringType; String() is a fixed name. */
  lemma TypeDescriptor(fw: Framework, o: AttrType)
    ensures Types.Equal(SuperStringType, o) <==> o == SuperStringType
    ensures !Types.Equal(SuperStringType, BaseStringType)
    ensures Types.TypeName(fw, SuperStringType) == "SuperTypesStringType"
    ensures Types.TerraformType(fw, SuperStringType) == WireString
  {
  }

  /** StringType.ValueFromString: a 1:1 wrap of a base string, with no diagnostics. */
  function ValueFromString(input: BaseString): (r: (AttrValue, Diagnostics))
    ensures r.0.SuperStringValue? && r.0.s == input
    ensures r.1 == [] && !HasError(r.1)
  {
    (SuperStringValue(input), [])
  }

  /**
   * StringType.ValueFromTerraform: the base conversion first, then the type
   * assertion to a base string, then promotion. Succeeds exactly when the base
   * conversion yields a base string, and then wraps that string unchanged.
   */
  function ValueFromTerraform(fw: Framework, wire: WireValue): (r: Result<AttrValue, ConversionError>)
    ensures fw.stringFromTerraform(wire).Err? ==> r == Err(BaseConversionFailed(fw.stringFromTerraform(wire).error))
    ensures fw.stringFromTerraform(wire).Ok? && !fw.stringFromTerraform(wire).value.BaseStringValue?
            ==> r == Err(UnexpectedValueKind(fw.stringFromTerraform(wire).value))
    ensures r.Ok? <==> fw.stringFromTerraform(wire).Ok? && fw.stringFromTerraform(wire).value.BaseStringValue?
    ensures r.Ok? ==> r.value == SuperStringValue(fw.stringFromTerraform(wire).value.s)
    ensures r.Ok? ==> Types.Equal(SuperStringType, Values.TypeOf(r.value))
  {
    match fw.stringFromTerraform(wire)
    case Err(msg) => Err(BaseConversionFailed(msg))
    case Ok(v) =>
      if !v.BaseStringValue? then Err(UnexpectedValueKind(v))
      else
        var (w, diags) := ValueFromString(v.s);
        if HasError(diags) then Err(PromotionFailed(diags)) else Ok(w)
  }

  /** StringType.ValueType: the zero StringValue, which is null and has the wrapper type. */
  function ValueType(): (r: AttrValue)
    ensures r.SuperStringValue? && r.s.IsNull()
    ensures Types.Equal(SuperStringType, Values.TypeOf(r))
  {
    SuperStringValue(NullString)
  }

  // ---------------------------------------------------------------------
  // StringValue

  /** StringValue.Equal: true exactly for a wrapper StringValue in the same state with the same payload. */
  lemma ValueEqualIff(a: BaseString, o: AttrValue)
    ensures Values.ValueEqual(SuperStringValue(a), o) <==> o == SuperStringValue(a)
    ensures !Values.ValueEqual(SuperStringValue(a), BaseStringValue(a))
  {
  }

  /**
   * An addressable supertypes.StringValue, the receiver of the pointer methods
   * Get, Set, SetNull and SetUnknown. `base` is the embedded basetypes.StringValue.
   */
  class StringValue {
    var base: BaseString

    /** StringNull */
    constructor Null()
      ensures base == NullString && !IsKnown()
    {
      base := NullString;
    }

    /** StringUnknown */
    constructor Unknown()
      ensures base == UnknownString && !IsKnown()
    {
      base := UnknownString;
    }

    /** The value held, as an attribute value. */
    function Value(): AttrValue
      reads this
    {
      SuperStringValue(base)
    }

    /** IsKnown, recomputed from the current state on every call. */
    predicate IsKnown()
      reads this
      ensures IsKnown() <==> base.KnownString?
    {
      !base.IsNull() && !base.IsUnknown()
    }

    /** Equal */
    function Equal(o: AttrValue): (r: bool)
      reads this
      ensures r <==> o.SuperStringValue? && o.s == base
    {
      Values.ValueEqual(Value(), o)
    }

    /** Type: the wrapper StringType whatever the state, and that type accepts it. */
    function Type(): (r: AttrType)
      reads this
      ensures r == SuperStringType
      ensures Types.Equal(r, Values.TypeOf(Value()))
    {
      Values.TypeOf(Value())
    }

    /** Get: the payload when known; the base library's empty default otherwise. */
    method Get() returns (s: string)
      ensures IsKnown() ==> s == base.text
      ensures !IsKnown() ==> s == ""
    {
      s := base.ValueString();
    }

    /** Set: Known(s) from any state. */
    method Set(s: string)
      modifies this
      ensures base == KnownString(s) && IsKnown()
    {
      base := KnownString(s);
    }

    /** SetNull: Null from any state, payload dropped; a second call changes nothing. */
    method SetNull()
      modifies this
      ensures base == NullString && !IsKnown()
    {
      base := NullString;
    }

    /** SetUnknown: Unknown, not Null, from any state. */
    method SetUnknown()
      modifies this
      ensures base == UnknownString && !base.IsNull() && !IsKnown()
    {
      base := UnknownString;
    }
  }

  /** The tri-state cycle: Null, then Set, Get, SetUnknown and SetNull twice. */
  method Lifecycle(s: string) returns (got: string)
    ensures got == s
  {
    var v := new StringValue.Null();
    assert !v.IsKnown();
    v.Set(s);
    got := v.Get();
    v.SetUnknown();
    assert !v.IsKnown() && v.base != NullString;
    v.SetNull();
    v.SetNull();
    assert v.base == NullString;
  }
}
