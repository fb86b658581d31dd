/** What every single attribute write keeps. These are the induction steps of the results
    about templates, objects and runs. */
module AttributeLaws {
  import opened Cryptoki
  import opened Attributes

  // ----- what a write can touch -----------------------------------------------------------

  /** The attributes a write to `t` may change: itself and the ones it maintains. */
  predicate Touches(t: AttrType, a: AttrType) {
    || a == t
    || (t == CKA_SENSITIVE && a == CKA_ALWAYS_SENSITIVE)
    || (t == CKA_EXTRACTABLE && a == CKA_NEVER_EXTRACTABLE)
    || (t == CKA_VALUE && (a == CKA_VALUE_LEN || a == CKA_VALUE_BITS || a == CKA_CHECK_VALUE))
    || (t == CKA_MODULUS && a == CKA_MODULUS_BITS)
    || (t == CKA_PRIME && a == CKA_PRIME_BITS)
  }

  predicate SameAt(o: Attrs, o': Attrs, a: AttrType) {
    (a in o <==> a in o') && (a in o ==> o[a] == o'[a])
  }

  /** What a write to `t` does to attribute `a`: nothing if it does not maintain `a`, never a
      deletion, and never a value of the wrong type. */
  predicate Tidy(o: Attrs, o': Attrs, t: AttrType, a: AttrType) {
    && (!Touches(t, a) ==> SameAt(o, o', a))
    && (a in o ==> a in o')
    && ((a in o ==> KindOf(a).Admits(o[a])) ==> (a in o' ==> KindOf(a).Admits(o'[a])))
  }

  lemma ValueTidy(ctx: Context, isPrivate: bool, o: Attrs, p: Payload, op: Op, a: AttrType)
    ensures Tidy(o, WriteValue(ctx, isPrivate, o, p, op).attrs, CKA_VALUE, a)
  {
    var value := Sealed(ctx, isPrivate, p);
    if value.Some? {
      var o0 := o[CKA_VALUE := BytesV(value.value)];
      assert Tidy(o, o0, CKA_VALUE, a);
      var o1 := RecordLengths(o0, p.Data(), op);
      assert Tidy(o0, o1, CKA_VALUE, a);
      StampTidy(ctx, isPrivate, o1, p.Data(), op, a);
    }
  }

  lemma StampTidy(ctx: Context, isPrivate: bool, o: Attrs, data: Bytes, op: Op, a: AttrType)
    ensures Tidy(o, StampCheck(ctx, isPrivate, o, data, op).attrs, CKA_VALUE, a)
  {
    CheckTidy(ctx, isPrivate, o, ctx.token.certificateCheck(data), a);
    CheckTidy(ctx, isPrivate, o, [], a);
    var kcv := KcvOf(ctx.token, KeyType(o), data);
    if kcv.Some? { CheckTidy(ctx, isPrivate, o, kcv.value, a); }
  }

  lemma CheckTidy(ctx: Context, isPrivate: bool, o: Attrs, check: Bytes, a: AttrType)
    ensures Tidy(o, StoreCheck(ctx, isPrivate, o, check).attrs, CKA_VALUE, a)
    ensures CKA_CHECK_VALUE in o ==> Tidy(o, StoreCheck(ctx, isPrivate, o, check).attrs, CKA_CHECK_VALUE, a)
  {
  }

  lemma MeasuredTidy(ctx: Context, t: AttrType, isPrivate: bool, o: Attrs, p: Payload, op: Op, a: AttrType)
    requires t == CKA_MODULUS || t == CKA_PRIME
    ensures Tidy(o, Write(ctx, t, isPrivate, o, p, op).attrs, t, a)
  {
  }

  lemma FlagTidy(ctx: Context, t: AttrType, isPrivate: bool, o: Attrs, p: Payload, op: Op, a: AttrType)
    requires KindOf(t).IsFlag()
    ensures Tidy(o, Write(ctx, t, isPrivate, o, p, op).attrs, t, a)
  {
    if t == CKA_SENSITIVE {
    } else if t == CKA_EXTRACTABLE {
    } else {
      var o' := Write(ctx, t, isPrivate, o, p, op).attrs;
      assert o' == o || o' == o[t := BoolV(p.AsBool())];
    }
  }

  lemma TextTidy(ctx: Context, t: AttrType, isPrivate: bool, o: Attrs, p: Payload, op: Op, a: AttrType)
    requires KindOf(t).TextKind? || KindOf(t).CheckValueKind?
    ensures Tidy(o, Write(ctx, t, isPrivate, o, p, op).attrs, t, a)
  {
    hide KcvOf, Sealed;
    if KindOf(t).CheckValueKind? { assert t == CKA_CHECK_VALUE; }
    var o' := Write(ctx, t, isPrivate, o, p, op).attrs;
    assert o' == o || (t in o' && o'[t].BytesV? && o' == o[t := o'[t]]);
  }

  lemma PlainTidy(ctx: Context, t: AttrType, isPrivate: bool, o: Attrs, p: Payload, op: Op, a: AttrType)
    requires !KindOf(t).IsFlag() && !KindOf(t).ValueKind? && !KindOf(t).ModulusKind? && !KindOf(t).PrimeKind?
    ensures Tidy(o, Write(ctx, t, isPrivate, o, p, op).attrs, t, a)
  {
    if KindOf(t).TextKind? || KindOf(t).CheckValueKind? {
      TextTidy(ctx, t, isPrivate, o, p, op, a);
    } else {
      hide FromWord, MechanismSet, DefaultOf;
      var o' := Write(ctx, t, isPrivate, o, p, op).attrs;
      assert o' == o || (t in o' && KindOf(t).Admits(o'[t]) && o' == o[t := o'[t]]) by { IdentityWrites(ctx, t, isPrivate, o, p, op); hide KindOf; }
    }
  }

  /** The attributes that name the class of an object are never written. */
  lemma IdentityWrites(ctx: Context, t: AttrType, isPrivate: bool, o: Attrs, p: Payload, op: Op)
    ensures KindOf(t).IdentityKind? ==> Write(ctx, t, isPrivate, o, p, op).attrs == o
  {
    if KindOf(t).IdentityKind? { assert DefaultOf(t).NumberV?; }
  }

  lemma WriteTidy(ctx: Context, t: AttrType, isPrivate: bool, o: Attrs, p: Payload, op: Op, a: AttrType)
    ensures Tidy(o, Write(ctx, t, isPrivate, o, p, op).attrs, t, a)
  {
    var k := KindOf(t);
    if k.IsFlag() { FlagTidy(ctx, t, isPrivate, o, p, op, a); }
    else if k.ValueKind? { ValueTidy(ctx, isPrivate, o, p, op, a); }
    else if k.ModulusKind? || k.PrimeKind? { MeasuredTidy(ctx, t, isPrivate, o, p, op, a); }
    else { PlainTidy(ctx, t, isPrivate, o, p, op, a); }
  }

  // ----- stored values have the type of their attribute --------------------------------------

  ghost predicate WellTyped(o: Attrs) {
    forall a :: a in o ==> KindOf(a).Admits(o[a])
  }

  lemma WriteKeepsTypes(ctx: Context, t: AttrType, isPrivate: bool, o: Attrs, p: Payload, op: Op)
    requires WellTyped(o)
    ensures WellTyped(Write(ctx, t, isPrivate, o, p, op).attrs)
  {
    var o' := Write(ctx, t, isPrivate, o, p, op).attrs;
    forall a | a in o' ensures KindOf(a).Admits(o'[a]) {
      WriteTidy(ctx, t, isPrivate, o, p, op, a);
    }
  }

  // ----- the attributes that summarise history -----------------------------------------------

  predicate AlwaysSensitive(o: Attrs) { Flag(o, CKA_ALWAYS_SENSITIVE, false) }

  predicate NeverExtractable(o: Attrs) { Flag(o, CKA_NEVER_EXTRACTABLE, false) }

  /** An object that has never been extractable must not be extractable now. Read like the
      check-7 guard: without the attribute an object counts as extractable. */
  predicate HistoryConsistent(o: Attrs) {
    && (AlwaysSensitive(o) ==> Sensitive(o))
    && (NeverExtractable(o) ==> !Extractable(o))
  }

  /** From `o` to `o'` no claim about the past was made stronger. */
  predicate ClaimsShrink(o: Attrs, o': Attrs) {
    && (AlwaysSensitive(o') ==> AlwaysSensitive(o))
    && (NeverExtractable(o') ==> NeverExtractable(o))
  }

  /** From `o` to `o'` protection was not lowered. */
  predicate ProtectionGrows(o: Attrs, o': Attrs) {
    && (Sensitive(o) ==> Sensitive(o'))
    && (!Extractable(o) ==> !Extractable(o'))
  }

  lemma WriteKeepsHistory(ctx: Context, t: AttrType, isPrivate: bool, o: Attrs, p: Payload, op: Op)
    requires WellTyped(o) && HistoryConsistent(o)
    ensures HistoryConsistent(Write(ctx, t, isPrivate, o, p, op).attrs)
  {
    var o' := Write(ctx, t, isPrivate, o, p, op).attrs;
    WriteTidy(ctx, t, isPrivate, o, p, op, CKA_SENSITIVE);
    WriteTidy(ctx, t, isPrivate, o, p, op, CKA_ALWAYS_SENSITIVE);
    WriteTidy(ctx, t, isPrivate, o, p, op, CKA_EXTRACTABLE);
    WriteTidy(ctx, t, isPrivate, o, p, op, CKA_NEVER_EXTRACTABLE);
  }

  /** C_SetAttributeValue and C_CopyObject can only raise protection, and can only give up
      claims about the past. An object without the extractable flag is no exception: it counts
      as extractable when read, but a write treats it as one that may not become so. */
  lemma ChangeIsMonotone(ctx: Context, t: AttrType, isPrivate: bool, o: Attrs, p: Payload, op: Op)
    requires op.Changing()
    ensures var o' := Write(ctx, t, isPrivate, o, p, op).attrs;
            ClaimsShrink(o, o') && ProtectionGrows(o, o')
  {
    WriteTidy(ctx, t, isPrivate, o, p, op, CKA_SENSITIVE);
    WriteTidy(ctx, t, isPrivate, o, p, op, CKA_ALWAYS_SENSITIVE);
    WriteTidy(ctx, t, isPrivate, o, p, op, CKA_EXTRACTABLE);
    WriteTidy(ctx, t, isPrivate, o, p, op, CKA_NEVER_EXTRACTABLE);
  }
}
