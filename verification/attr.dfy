/** Option and Result, used for Go's nil interfaces and for (value, error) returns. */
module Wrappers {
  datatype Option<+T> = None | Some(value: T)

  datatype Result<+T, +E> = Ok(value: T) | Err(error: E)
}

/**
 * The attribute universe the supertypes package lives in. Go's `attr.Type`
 * and `attr.Value` are open interfaces checked by dynamic type assertion;
 * here they are closed sets of tags, one per concrete Go type that the
 * package's code can meet. `None` stands for a nil interface value.
 */
module Attr {
  import opened Wrappers

  /** Schema-level type descriptors. */
  datatype AttrType =
    | SuperStringType                       // supertypes.StringType{}
    | SuperListType(elem: Option<AttrType>) // supertypes.ListType{ListType: basetypes.ListType{ElemType: elem}}
    | BaseStringType                        // basetypes.StringType{}
    | BaseListType(elem: Option<AttrType>)  // basetypes.ListType{ElemType: elem}
    | MissingType                           // missingType{}, the fallback for a nil element type

  /** The state and payload of a basetypes.StringValue. */
  datatype BaseString = NullString | UnknownString | KnownString(text: string)
  {
    predicate IsNull() { NullString? }

    predicate IsUnknown() { UnknownString? }

    /** The payload; Null and Unknown read as the empty string (Go's zero value). */
    function ValueString(): string
    {
      if KnownString? then text else ""
    }
  }

  /** The state and elements of a basetypes.ListValue. */
  datatype ListState = NullList | UnknownList | KnownList(elements: seq<AttrValue>)

  /** A basetypes.ListValue: its element type (possibly nil) and its state. */
  datatype BaseList = BaseList(elemType: Option<AttrType>, state: ListState)
  {
    predicate IsNull() { state.NullList? }

    predicate IsUnknown() { state.UnknownList? }
  }

  /** Runtime values. */
  datatype AttrValue =
    | SuperStringValue(s: BaseString) // supertypes.StringValue{StringValue: s}
    | SuperListValue(l: BaseList)     // supertypes.ListValue{ListValue: l}
    | BaseStringValue(s: BaseString)  // basetypes.StringValue
    | BaseListValue(l: BaseList)      // basetypes.ListValue

  /** Wire types (tftypes.Type): an atomic string, or a list carrying its element wire type. */
  datatype WireType = WireString | WireList(elem: WireType) | WireDynamic

  /** Wire values (tftypes.Value): a wire type with a null, unknown or concrete payload. */
  datatype WireValue = WireValue(ty: WireType, payload: WirePayload)
  datatype WirePayload = WireNull | WireUnknown | WireText(text: string) | WireItems(items: seq<WireValue>)

  /** The Go values a caller hands to ListValue.Set or receives from ListValue.Get (`any`). */
  datatype Native = NativeNil | NativeText(text: string) | NativeSeq(items: seq<Native>)

  datatype Severity = Warning | Error
  datatype Diagnostic = Diagnostic(severity: Severity, summary: string)
  type Diagnostics = seq<Diagnostic>

  /** diag.Diagnostics.HasError */
  predicate HasError(d: Diagnostics)
  {
    exists k | 0 <= k < |d| :: d[k].severity == Error
  }

  /** Why a ValueFromTerraform call failed. */
  datatype ConversionError =
    | BaseConversionFailed(message: string) // the base type's own conversion returned an error
    | UnexpectedValueKind(got: AttrValue)   // the base conversion returned a value of the wrong kind
    | PromotionFailed(diags: Diagnostics)   // ValueFromString / ValueFromList reported an error
}

/**
 * What the host framework supplies and the supertypes package only calls:
 * the names and wire types of types defined outside string.go and list.go,
 * and the framework's reflection-based conversions, each reduced to a function
 * that returns a value or an error (or a value with diagnostics).
 */
module Host {
  import opened Wrappers
  import opened Attr

  datatype Framework = Framework(
    baseStringName: string,                                             // basetypes.StringType.String()
    baseListName: string -> string,                                     // basetypes.ListType.String(), given its element's name
    missingName: string,                                                // missingType.String()
    missingWire: WireType,                                              // missingType.TerraformType()
    stringFromTerraform: WireValue -> Result<AttrValue, string>,        // basetypes.StringType.ValueFromTerraform
    listFromTerraform: (Option<AttrType>, WireValue) -> Result<AttrValue, string>, // basetypes.ListType.ValueFromTerraform
    listValueFrom: (Option<AttrType>, Native) -> (BaseList, Diagnostics), // types.ListValueFrom
    elementsAs: (BaseList, bool) -> (Native, Diagnostics)                // basetypes.ListValue.ElementsAs
  )
  {
    /**
     * types.ListValueFrom builds its result with the (non-nil) element type it
     * was given. Nothing is assumed for a nil element type, which the framework
     * replaces by missingType.
     */
    ghost predicate ListValueFromKeepsElementType()
    {
      forall t: Option<AttrType>, x: Native | t.Some? :: listValueFrom(t, x).0.elemType == t
    }
  }
}
