# supertypes: wrapper attribute types for the Terraform plugin framework

The `supertypes` package wraps two attribute kinds of the Terraform plugin
framework, string and list. Each kind has a schema-level **Type**
(`StringType`, `ListType`) and a runtime **Value** (`StringValue`,
`ListValue`). Each wrapper embeds the framework's `basetypes` counterpart.
The wrappers add `Get`/`Set`/`SetNull`/`SetUnknown` accessors and an
`IsKnown` query on top of the framework's Null/Unknown/Known value states.

This Dafny project models that package:

- `attr.dfy` holds the closed universe of the package's types and values.
  Go's open `attr.Type`/`attr.Value` interfaces become tagged datatypes:
  - `AttrType` has the tags `SuperStringType`, `SuperListType`,
    `BaseStringType`, `BaseListType` and `MissingType`;
  - `AttrValue` has the tags `SuperStringValue`, `SuperListValue`,
    `BaseStringValue` and `BaseListValue`;
  - `None` stands for a nil interface;
  - the base string is `Null | Unknown | Known(text)`, and the base list is an
    element type with `Null | Unknown | Known(elements)`.

  The same file holds the `Framework` record. It carries what the package
  calls but does not define: the framework's conversions (`ValueFromTerraform`
  of the base types, `types.ListValueFrom`, `ElementsAs`), the names of the
  base types and of `missingType`, and `missingType`'s wire type. Each is a
  function-typed parameter that returns a value or an error, or a value with
  diagnostics.
- `types.dfy` (module `Types`) covers the type-descriptor logic. It has the
  `ElementType` fallback to `missingType`, `Equal` dispatched on the kind of the
  receiver, `String()` as `TypeName` and `TerraformType`. It also has the
  equality lemmas: a reference target (`EqualTarget`) that characterises
  `Equal` completely, reflexivity exactly on "self-equal shapes",
  transitivity, non-symmetry, and "Equal types share their wire type".
- `values.dfy` (module `Values`) defines value equality dispatched on kind,
  and `Type()` of a value.
- `string.dfy` (module `SuperString`) covers `StringType`'s conversions and a
  class `StringValue` whose single field is the embedded base string.
- `list.dfy` (module `SuperList`) covers `ListType`'s conversions and a class
  `ListValue` whose single field is the embedded base list. The element type
  survives every state transition.

Two behaviours are modelled as the code has them.

- `ListType.Equal` type-asserts its argument to the base `basetypes.ListType`,
  not to the wrapper. So a wrapper `ListType` is never Equal to a wrapper
  `ListType`, not even itself (`Types.WrapperListNeverEqualsWrapper`).
  `ListValue.Type` returns the base list type. The wrapper `ListType` accepts
  that type only when its element type is present and self-equal, that is,
  holds no wrapper `ListType` and no nil element type anywhere inside
  (`SuperList.TypeAcceptsOwnValues`). So `ListType{ListType{StringType}}` does
  not accept the `Type()` of its own values, and neither does a `ListType`
  with a nil element type.
- As a consequence, a list value whose element type is itself a wrapper
  `ListType` is not Equal to itself (`SuperList.ValueEqualFacts`).

One might expect `ListType{T}.Equal(ListType{T})` to hold. The code
(list.go:23-31) makes it false, and this model follows the code.

## Model

| member | source | states |
|---|---|---|
| `Types.ElementType` | list.go:78-84 | `missingType` comes back exactly when the element type is nil or is itself `missingType`; otherwise the element type comes back unchanged |
| `Types.Equal` | list.go:23-31 | an Equal argument is always a self-equal shape; a list type is Equal only to a base list type, and a string type never to a list |
| `Types.TypeName` | list.go:33-35 | a wrapper list's name is exactly as long as `"types.ListType["`, its element's name and `"]"` together, and ends with `]`; the full name is stated by `Types.ListNameEmbedsElement` |
| `Types.TerraformType` | list.go:72-76 | both string kinds map to the wire string type; both list kinds map to a wire list over the wire type of their element type, `missingType`'s when it is nil |
| `Types.EqualIffTarget` | list.go:23-31 | `t.Equal(o)` holds iff `o` is the one reference target of `t`: the same string kind, or the base list over the element's target; nil element types and wrapper lists as `o` have no match |
| `Types.EqualReflexiveIff` | list.go:23-31 | a type is Equal to itself iff it contains no wrapper `ListType` and no nil element type |
| `Types.WrapperListNeverEqualsWrapper` | list.go:23-31 | a wrapper `ListType` is never Equal to a wrapper `ListType`; it is Equal to a base list exactly when the base list with its element type would be |
| `Types.EqualIsIdentityOnShapes` | list.go:23-31 | from a self-equal type, Equal is plain identity |
| `Types.EqualNotSymmetric` | list.go:23-31 | the wrapper list over `e` is Equal to the base list over `e`, but not the other way round |
| `Types.EqualTransitive` | list.go:23-31 | Equal is transitive across all kinds |
| `Types.ListNameEmbedsElement` | list.go:33-35 | a list's `String()` is `"types.ListType["` + the element type's `String()` + `"]"`; with a nil element it embeds the missing type's name |
| `Types.NestedListName` | list.go:33-35 | `n` wrapper lists around the wrapper string type are named `"types.ListType["`×n + `"SuperTypesStringType"` + `"]"`×n, whatever the framework |
| `Types.EqualSameWire` | list.go:72-76 | two Equal types have the same `TerraformType` |
| `Types.NestedListWire` | list.go:72-76 | `n` wrapper lists around a string map to `n` wire lists around the wire string type |
| `Values.ValueEqualReflexiveIff` | list.go:103-111 | a value is Equal to itself iff every list inside it has a present, self-equal element type |
| `Values.ValueEqual` | list.go:103-111 | an Equal value is of the same concrete kind as its argument, and its `Type()` is Equal to the argument's |
| `Values.TypeOf` | list.go:113-116 | a wrapper `StringValue` reports the wrapper `StringType`; a wrapper or base list value reports the base list type over its own element type; no value reports a wrapper `ListType` or `missingType` |
| `Values.ValueEqualIsIdentity` | list.go:103-111 | from a value whose lists all have self-equal element types, Equal is plain identity: same kind, state, element type and elements |
| `Values.ListEqualIsIdentity` | list.go:103-111 | from a list with self-equal element types, base list equality is plain identity |
| `SuperString.TypeDescriptor` | string.go:24-36 | `StringType.Equal(o)` holds iff `o` is the wrapper `StringType`, never the base one; `String()` is `"SuperTypesStringType"`; the wire type is the atomic string |
| `SuperString.ValueFromString` | string.go:38-45 | wraps its input 1:1, with no error diagnostics |
| `SuperString.ValueFromTerraform` | string.go:47-66 | a base conversion error comes back as an error; a result that is not a base string is an unexpected-kind error; success happens exactly when the base conversion yields a base string, and returns it wrapped and accepted by `StringType` |
| `SuperString.ValueType` | string.go:68-71 | the template value is a null wrapper `StringValue` whose type `StringType` accepts |
| `SuperString.ValueEqualIff` | string.go:84-92 | a `StringValue` is Equal exactly to the wrapper value with the same state and payload, never to a base string value |
| `SuperString.StringValue.Null` | string.go:99-103 | `StringNull()` is Null and not known |
| `SuperString.StringValue.Unknown` | string.go:105-109 | `StringUnknown()` is Unknown and not known |
| `SuperString.StringValue.IsKnown` | string.go:129-131 | known iff the state is Known, recomputed from the current state |
| `SuperString.StringValue.Equal` | string.go:84-92 | true iff `o` is a wrapper `StringValue` with the same base state and payload |
| `SuperString.StringValue.Type` | string.go:94-97 | always the wrapper `StringType`, in every state, and that type accepts the value |
| `SuperString.StringValue.Get` | string.go:113-115 | the payload when known, the empty default otherwise |
| `SuperString.StringValue.Set` | string.go:117-119 | from any state, the value becomes Known(s) |
| `SuperString.StringValue.SetNull` | string.go:121-123 | from any state the value becomes Null and the payload is dropped, so a second call changes nothing |
| `SuperString.StringValue.SetUnknown` | string.go:125-127 | from any state the value becomes Unknown, which is not Null and not known |
| `SuperString.Lifecycle` | string.go:99-131 | after `StringNull()` then `Set(s)`, `Get()` returns exactly `s`; `SetUnknown` and `SetNull` leave the value not known |
| `SuperList.ValueFromList` | list.go:37-44 | wraps its input 1:1, with no error diagnostics |
| `SuperList.ValueFromTerraform` | list.go:46-65 | a base conversion error comes back as an error; a result that is not a base list is an unexpected-kind error; success happens exactly when the base conversion yields a base list, which is returned wrapped and unchanged |
| `SuperList.TerraformValueAccepted` | list.go:46-65 | a converted value is accepted by its `ListType` when the framework kept a self-equal element type |
| `SuperList.ValueType` | list.go:86-91 | the template value is a null wrapper `ListValue` over the type's element type |
| `SuperList.TypeAcceptsOwnValues` | list.go:113-116 | in every state, the wrapper `ListType` is Equal to its value's reported type iff the element type is present and self-equal; the reported type keeps the element type |
| `SuperList.ValueEqualFacts` | list.go:103-111 | a `ListValue` is Equal only to wrapper `ListValue`s, never to the base list; a list over a wrapper `ListType` is not Equal to itself |
| `SuperList.ListValue.Null` | list.go:122-126 | `ListNull(T)` is Null over element type `T` and not known |
| `SuperList.ListValue.Unknown` | list.go:128-132 | `ListUnknown(T)` is Unknown over element type `T` and not known |
| `SuperList.ListValue.ElementType` | list.go:140-152 | the element type promoted from the base list, nil included, is the element type of the value's reported `Type()` |
| `SuperList.ListValue.IsKnown` | list.go:154-156 | known iff the state is Known, recomputed from the current state |
| `SuperList.ListValue.Equal` | list.go:103-111 | true exactly for a wrapper `ListValue` whose base list is Equal to this one's: present, Equal element types, the same state and pairwise Equal elements; from a self-equal value that is plain identity; a value is Equal to itself iff its lists have self-equal element types |
| `SuperList.ListValue.Type` | list.go:113-116 | exactly the base list type over the current element type, in every state; the wrapper `ListType` over that element accepts it iff the element type is present and self-equal |
| `SuperList.ListValue.ToListValue` | list.go:118-120 | returns the embedded base list with no error diagnostics; `ValueFromList` on it gives the value back |
| `SuperList.ListValue.Get` | list.go:136-138 | the framework's `ElementsAs` result on the held list, which is not changed |
| `SuperList.ListValue.Set` | list.go:140-144 | the framework converts the input with the current element type, and the result is stored even when the diagnostics hold an error; the element type is kept when the framework keeps it |
| `SuperList.ListValue.SetNull` | list.go:146-148 | the value becomes Null over the same element type, and the elements are dropped |
| `SuperList.ListValue.SetUnknown` | list.go:150-152 | the value becomes Unknown over the same element type, and the elements are dropped |
| `SuperList.Lifecycle` | list.go:122-152 | starting from `ListNull(T)`, then `Set`, `SetUnknown` and `SetNull`, the value still reports the list type over `T` |

## Left out

- The framework's conversions are parameters of the `Framework` record, not definitions. This covers the base `ValueFromTerraform` of both kinds, `types.ListValueFrom` and `ListValue.ElementsAs`. They are reflection-based decoders in a library outside the package.
- SuperList.ListValue.Get: the ordered round trip of `Set` followed by `Get` depends entirely on the framework's `ListValueFrom`/`ElementsAs`, so it is not stated.
- SuperList.ListValue.Set: the element type is proved to survive only for a non-nil element type and only under the framework property `ListValueFromKeepsElementType`, which is assumed for non-nil element types alone. With a nil element type nothing is promised about the element type `Set` stores: what the framework stores then is not constrained by the model.
- Go writes `Get`'s result into a caller-supplied target pointer. The model returns it instead.
- `Native` is a reduced picture of the Go values handed to `Set`: nil, a string or a sequence.
- The base framework's own `Equal` is written out from its documented behaviour:
  - base strings compare state and payload;
  - base lists need non-nil, Equal element types, the same state and pairwise Equal elements;
  - `missingType` equals only itself.
- The names of the base types and of `missingType`, and `missingType`'s wire type, are parameters. `missingType` is defined elsewhere in the package and is not part of this model.
- The empty string as the text of a Null or Unknown base string, and Null as the state of a zero Go value, are taken from the framework's defaults.
- `ToTerraformValue` and the wire encoding of values are promoted from the framework. The wire round trip of a string value is therefore not modelled.
- `context.Context` parameters and the texts of errors and diagnostics are left out. Only whether an error or an error-severity diagnostic occurs is modelled.
- `TypeToto` and the `var _ ... =` interface assertions are compile-time wiring with no behaviour.
- Concurrency is left out: callers serialise all mutation.
