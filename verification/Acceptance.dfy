/** When a single write is accepted, attribute by attribute. */
module Acceptance {
  import opened Cryptoki
  import opened Attributes
  import opened AttributeLaws
  import opened Transparency
  import opened Secrecy
  import opened Footnotes

  /** One byte, and whether it says true. */
  predicate IsFlagByte(data: Bytes) { |data| == 1 }

  predicate IsTrue(data: Bytes) { |data| == 1 && data[0] != 0 }

  /** The flags with rules of their own. */
  predicate RuledFlag(t: AttrType) {
    || t == CKA_COPYABLE || t == CKA_TRUSTED || t == CKA_SENSITIVE || t == CKA_EXTRACTABLE || t == CKA_WRAP_WITH_TRUSTED
    || t == CKA_ALWAYS_AUTHENTICATE
  }

  predicate PlainFlag(t: AttrType) {
    t == CKA_TOKEN || t == CKA_PRIVATE || t == CKA_MODIFIABLE || t == CKA_DESTROYABLE || IsUsage(t)
  }

  /** A flag is one byte. True is accepted for CKA_TRUSTED from the security officer only, for
      CKA_ALWAYS_AUTHENTICATE in private objects only, and for CKA_COPYABLE unless it is false already. Once the
      object exists, sensitivity and the wrapping restriction cannot be written when true, extractability not when
      false. */
  lemma FlagAccepted(ctx: Context, t: AttrType, isPrivate: bool, o: Attrs, p: Payload, op: Op)
    requires (PlainFlag(t) || RuledFlag(t)) && t in o && o[t].BoolV? && (p.NullPtr? ==> p.len == 0)
    ensures Write(ctx, t, isPrivate, o, p, op).rv == OK <==>
              && IsFlagByte(p.Data())
              && (t == CKA_TRUSTED && IsTrue(p.Data()) ==> ctx.session == RwSo)
              && (t == CKA_ALWAYS_AUTHENTICATE && IsTrue(p.Data()) ==> isPrivate)
              && (t == CKA_COPYABLE && IsTrue(p.Data()) ==> Says(o, CKA_COPYABLE, true))
              && ((t == CKA_SENSITIVE || t == CKA_WRAP_WITH_TRUSTED) && op.Changing() ==> Says(o, t, false))
              && (t == CKA_EXTRACTABLE && op.Changing() ==> Says(o, t, true))
  {
  }

  /** What becomes of the claims: giving up sensitivity, or granting extraction, ends the claim about the past; a key
      that is generated or derived sensitive starts out with that claim. */
  lemma ClaimsFollow(ctx: Context, isPrivate: bool, o: Attrs, p: Payload, op: Op)
    requires p.NullPtr? ==> p.len == 0
    ensures var r := Write(ctx, CKA_SENSITIVE, isPrivate, o, p, op);
            r.rv == OK ==>
              if !IsTrue(p.Data()) then Says(r.attrs, CKA_ALWAYS_SENSITIVE, false)
              else if op.Generate? || op.Derive? then Says(r.attrs, CKA_ALWAYS_SENSITIVE, true)
              else SameAt(o, r.attrs, CKA_ALWAYS_SENSITIVE)
    ensures var r := Write(ctx, CKA_EXTRACTABLE, isPrivate, o, p, op);
            r.rv == OK ==> if IsTrue(p.Data()) then Says(r.attrs, CKA_NEVER_EXTRACTABLE, false) else SameAt(o, r.attrs, CKA_NEVER_EXTRACTABLE)
  {
  }

  predicate IsIdentity(t: AttrType) { t == CKA_CLASS || t == CKA_KEY_TYPE || t == CKA_CERTIFICATE_TYPE }

  predicate PlainNumber(t: AttrType) { t == CKA_CERTIFICATE_CATEGORY || t == CKA_JAVA_MIDP_SECURITY_DOMAIN || t == CKA_NAME_HASH_ALGORITHM }

  /** A number is a machine word. What names the class must be what the object is already; lengths are accepted when
      keys are generated, the length of a value also when it is derived, a parameter set also when it is created. */
  lemma NumberAccepted(ctx: Context, t: AttrType, isPrivate: bool, o: Attrs, p: Payload, op: Op)
    requires (IsIdentity(t) || PlainNumber(t) || IsLength(t) || t == CKA_PARAMETER_SET) && t in o && o[t].NumberV? && (p.NullPtr? ==> p.len == 0)
    ensures Write(ctx, t, isPrivate, o, p, op).rv == OK <==>
              && |p.Data()| == 8
              && (IsIdentity(t) ==> o[t] == NumberV(FromWord(p.Data())))
              && (IsLength(t) ==> op.Generate? || (op.Derive? && t == CKA_VALUE_LEN))
              && (t == CKA_PARAMETER_SET ==> op.Generate? || op.Create?)
  {
    hide FromWord;
  }

  /** What the library keeps to itself is never accepted. */
  lemma HistoryRefused(ctx: Context, t: AttrType, isPrivate: bool, o: Attrs, p: Payload, op: Op)
    requires IsHistory(t)
    ensures Write(ctx, t, isPrivate, o, p, op) == Outcome(o, ATTRIBUTE_READ_ONLY)
  {
  }

  predicate IsSetOrArray(t: AttrType) { t == CKA_ALLOWED_MECHANISMS || t == CKA_WRAP_TEMPLATE || t == CKA_UNWRAP_TEMPLATE }

  predicate WithRules(t: AttrType) {
    || PlainFlag(t) || RuledFlag(t) || IsIdentity(t) || PlainNumber(t) || IsLength(t) || t == CKA_PARAMETER_SET || IsHistory(t)
    || IsSetOrArray(t) || t == CKA_VALUE || t == CKA_CHECK_VALUE
  }

  /** A date is empty or eight bytes; other byte strings are accepted whatever they are, in private objects from
      somebody logged in. A set of mechanisms is some machine words, a nested template some entries. */
  lemma BytesAccepted(ctx: Context, t: AttrType, isPrivate: bool, o: Attrs, p: Payload, op: Op)
    requires ctx.token.Lawful() && (p.NullPtr? ==> p.len == 0) && (!WithRules(t) || IsSetOrArray(t))
    ensures Write(ctx, t, isPrivate, o, p, op).rv == OK <==>
              if IsDate(t) then |p.Data()| == 0 || |p.Data()| == 8
              else if t == CKA_ALLOWED_MECHANISMS then |p.Data()| > 0 && |p.Data()| % 8 == 0
              else if IsSetOrArray(t) then |p.Data()| % 24 == 0 && ctx.token.nested(p.Data()).Some?
              else isPrivate ==> ctx.session.LoggedIn()
  {
    hide MechanismSet, BitLength;
    if isPrivate { assert |ctx.token.cipher(p.Data())| >= |p.Data()|; }
    PlainBytes(t);
    hide KindOf;
  }

  lemma PlainBytes(t: AttrType)
    requires !WithRules(t) || IsSetOrArray(t)
    ensures IsDate(t) <==> KindOf(t).DateKind?
    ensures t == CKA_ALLOWED_MECHANISMS <==> KindOf(t).MechanismsKind?
    ensures IsSetOrArray(t) <==> KindOf(t).MechanismsKind? || KindOf(t).NestedKind?
    ensures !IsDate(t) && !IsSetOrArray(t) ==> KindOf(t).TextKind? || KindOf(t).ModulusKind? || KindOf(t).PrimeKind?
  {
  }

  lemma ValueWrites(ctx: Context, isPrivate: bool, o: Attrs, p: Payload, op: Op)
    ensures Write(ctx, CKA_VALUE, isPrivate, o, p, op) == WriteValue(ctx, isPrivate, o, p, op)
    ensures Write(ctx, CKA_CHECK_VALUE, isPrivate, o, p, op) == WriteCheckValue(ctx, isPrivate, o, p)
  {
    hide WriteValue, WriteCheckValue;
  }

  lemma SealedWhen(ctx: Context, isPrivate: bool, p: Payload)
    requires ctx.token.Lawful() && (p.NullPtr? ==> p.len == 0)
    ensures Sealed(ctx, isPrivate, p).Some? <==> (isPrivate ==> ctx.session.LoggedIn())
  {
    if isPrivate { assert |ctx.token.cipher(p.Data())| >= |p.Data()|; }
  }

  lemma StampedWhen(ctx: Context, isPrivate: bool, o: Attrs, data: Bytes, op: Op)
    requires isPrivate ==> ctx.session.LoggedIn()
    ensures StampCheck(ctx, isPrivate, o, data, op).rv == OK <==>
              (op.Create? && Class(o) == CKO_SECRET_KEY ==> KeyType(o) == CKK_GOST28147 || KcvOf(ctx.token, KeyType(o), data).Some?)
  {
    hide KcvOf;
  }

  /** The value of an object is accepted likewise; that of a created secret key also needs a key type with a check
      value. */
  lemma ValueAccepted(ctx: Context, isPrivate: bool, o: Attrs, p: Payload, op: Op)
    requires ctx.token.Lawful() && (p.NullPtr? ==> p.len == 0)
    ensures Write(ctx, CKA_VALUE, isPrivate, o, p, op).rv == OK <==>
              && (isPrivate ==> ctx.session.LoggedIn())
              && (op.Create? && Class(o) == CKO_SECRET_KEY ==> KeyType(o) == CKK_GOST28147 || KcvOf(ctx.token, KeyType(o), p.Data()).Some?)
  {
    hide Write, KcvOf, StampCheck, RecordLengths, Sealed, Token.Lawful;
    ValueWrites(ctx, isPrivate, o, p, op);
    SealedWhen(ctx, isPrivate, p);
    var value := Sealed(ctx, isPrivate, p);
    if value.Some? {
      LengthsKeepClass(o, p.Data(), op);
      StampedWhen(ctx, isPrivate, RecordLengths(o[CKA_VALUE := BytesV(value.value)], p.Data(), op), p.Data(), op);
    }
  }

  /** A check value is accepted if it is empty, or the one that belongs to the value stored; GOST keys take any. */
  lemma CheckAccepted(ctx: Context, isPrivate: bool, o: Attrs, p: Payload, op: Op)
    requires ctx.token.Lawful() && (p.NullPtr? ==> p.len == 0)
    ensures Write(ctx, CKA_CHECK_VALUE, isPrivate, o, p, op).rv == OK <==>
              && (isPrivate ==> ctx.session.LoggedIn())
              && (p.Data() != [] ==>
                    var value := if isPrivate then ctx.token.plain(Text(o, CKA_VALUE)) else Some(Text(o, CKA_VALUE));
                    value.Some? && (KeyType(o) == CKK_GOST28147 || KcvOf(ctx.token, KeyType(o), value.value) == Some(p.Data())))
  {
    hide Write, KcvOf, Sealed, Token.Lawful;
    ValueWrites(ctx, isPrivate, o, p, op);
    SealedWhen(ctx, isPrivate, p);
  }

  lemma LengthsKeepClass(o: Attrs, data: Bytes, op: Op)
    ensures forall v :: var o' := RecordLengths(o[CKA_VALUE := BytesV(v)], data, op); Class(o') == Class(o) && KeyType(o') == KeyType(o)
  {
  }

  /** Before all that: what is refused whatever the attribute. An announced length needs bytes and a fixed size must
      fit; objects that may not be modified and trusted certificates are closed to all but their own making; and the
      class must let the operation write the attribute. */
  lemma RefusedBefore(spec: AttrSpec, o: Attrs, p: Payload, op: Op)
    ensures Refusal(spec, o, p, op) == OK <==>
              && (p.NullPtr? ==> p.len == 0) && (spec.size.Some? ==> p.Length() == spec.size.value)
              && (op.Create? || op.Generate? || op.Unwrap? || (!Says(o, CKA_MODIFIABLE, false) && !(Says(o, CKA_TRUSTED, true) && Class(o) == 1)))
              && !spec.Prohibited(op) && spec.Writable(op)
    ensures Refusal(spec, o, p, op) in {OK, ATTRIBUTE_VALUE_INVALID, ATTRIBUTE_READ_ONLY}
  {
  }
}
