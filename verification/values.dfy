/**
 * Value-level logic shared by both kinds: `v.Equal(o)` dispatched on the kind
 * of `v`, and `v.Type()`.
 */
module Values {
  import opened Wrappers
  import opened Attr
  import Types

  /**
   * `v.Equal(o)`. Each kind type-asserts `o` to its own concrete Go type and
   * then compares the wrapped base values. Base strings compare state and
   * payload; base lists are never equal when either element type is nil, and
   * otherwise need Equal element types, the same state and, when known,
   * pairwise Equal elements.
   */
  predicate ValueEqual(v: AttrValue, o: AttrValue)
    ensures ValueEqual(v, o) ==> SameKind(v, o)
    ensures ValueEqual(v, o) ==> Types.Equal(TypeOf(v), TypeOf(o))
    decreases v
  {
    match v
    case SuperStringValue(a) => o.SuperStringValue? && a == o.s
    case SuperListValue(a) => o.SuperListValue? && ListEqual(a, o.l)
    case BaseStringValue(a) => o.BaseStringValue? && a == o.s
    case BaseListValue(a) => o.BaseListValue? && ListEqual(a, o.l)
  }

  /** basetypes.ListValue.Equal after its type assertion succeeded. */
  predicate ListEqual(a: BaseList, b: BaseList)
    decreases a
  {
    && a.elemType.Some?
    && b.elemType.Some?
    && Types.Equal(a.elemType.value, b.elemType.value)
    && match a.state
       case NullList => b.state.NullList?
       case UnknownList => b.state.UnknownList?
       case KnownList(xs) =>
         && b.state.KnownList?
         && |xs| == |b.state.elements|
         && forall i | 0 <= i < |xs| :: ValueEqual(xs[i], b.state.elements[i])
  }

  /**
   * `v.Type()`. The wrapper StringValue reports the wrapper StringType; the
   * wrapper ListValue reports the BASE list type over its element type.
   */
  function TypeOf(v: AttrValue): (r: AttrType)
    ensures !r.SuperListType? && !r.MissingType?
    ensures v.SuperStringValue? ==> r == SuperStringType
    ensures v.SuperListValue? || v.BaseListValue? ==> r == BaseListType(v.l.elemType)
  {
    match v
    case SuperStringValue(_) => SuperStringType
    case SuperListValue(l) => BaseListType(l.elemType)
    case BaseStringValue(_) => BaseStringType
    case BaseListValue(l) => BaseListType(l.elemType)
  }

  /** The values Equal to themselves: every list inside has a self-equal element type. */
  predicate SelfEqualValue(v: AttrValue)
    decreases v
  {
    match v
    case SuperListValue(l) => SelfEqualList(l)
    case BaseListValue(l) => SelfEqualList(l)
    case _ => true
  }

  predicate SelfEqualList(l: BaseList)
    decreases l
  {
    && l.elemType.Some?
    && Types.SelfEqualShape(l.elemType.value)
    && (l.state.KnownList? ==> forall i | 0 <= i < |l.state.elements| :: SelfEqualValue(l.state.elements[i]))
  }

  /** A value is Equal to itself exactly when every list inside it has a self-equal element type. */
  lemma {:induction false} ValueEqualReflexiveIff(v: AttrValue)
    ensures ValueEqual(v, v) <==> SelfEqualValue(v)
    decreases v
  {
    match v
    case SuperListValue(l) => ListEqualReflexiveIff(l);
    case BaseListValue(l) => ListEqualReflexiveIff(l);
    case _ =>
  }

  lemma {:induction false} ListEqualReflexiveIff(l: BaseList)
    ensures ListEqual(l, l) <==> SelfEqualList(l)
    decreases l
  {
    if l.elemType.Some? {
      Types.EqualReflexiveIff(l.elemType.value);
    }
    if l.state.KnownList? {
      var xs := l.state.elements;
      forall i | 0 <= i < |xs|
        ensures ValueEqual(xs[i], xs[i]) <==> SelfEqualValue(xs[i])
      {
        ValueEqualReflexiveIff(xs[i]);
      }
    }
  }

  /** Both values are of the same concrete Go type. */
  predicate SameKind(v: AttrValue, o: AttrValue)
  {
    && (v.SuperStringValue? <==> o.SuperStringValue?)
    && (v.SuperListValue? <==> o.SuperListValue?)
    && (v.BaseStringValue? <==> o.BaseStringValue?)
    && (v.BaseListValue? <==> o.BaseListValue?)
  }

  /** From a self-equal value, value equality is plain identity: same kind, state, element type and elements. */
  lemma {:induction false} ValueEqualIsIdentity(v: AttrValue, o: AttrValue)
    requires SelfEqualValue(v)
    ensures ValueEqual(v, o) <==> o == v
    decreases v
  {
    match v
    case SuperListValue(l) =>
      if o.SuperListValue? { ListEqualIsIdentity(l, o.l); }
      ListEqualReflexiveIff(l);
    case BaseListValue(l) =>
      if o.BaseListValue? { ListEqualIsIdentity(l, o.l); }
      ListEqualReflexiveIff(l);
    case _ =>
  }

  lemma {:induction false} ListEqualIsIdentity(l: BaseList, m: BaseList)
    requires SelfEqualList(l)
    ensures ListEqual(l, m) <==> m == l
    decreases l
  {
    ListEqualReflexiveIff(l);
    if ListEqual(l, m) {
      Types.EqualIsIdentityOnShapes(l.elemType.value, m.elemType.value);
      if l.state.KnownList? {
        var xs, ys := l.state.elements, m.state.elements;
        forall i | 0 <= i < |xs|
          ensures ys[i] == xs[i]
        {
          ValueEqualIsIdentity(xs[i], ys[i]);
        }
        assert ys == xs;
      }
    }
  }
}
