/** Encryption at rest is transparent. A token with a lawful cipher and one that stores
    everything in clear, given the same calls, answer the same and hold the same objects up to
    that cipher: byte strings are encrypted exactly where the object is private. */
module Transparency {
  import opened Cryptoki
  import opened Attributes
  import opened Templates

  /** The same token with a data manager that does not encrypt. */
  function ClearToken(token: Token): Token {
    token.(cipher := (x: Bytes) => x, plain := (x: Bytes) => Some(x))
  }

  function Clear(ctx: Context): Context { ctx.(token := ClearToken(ctx.token)) }

  // ----- how a stored object relates to its clear twin ----------------------------------------

  predicate Hidden(token: Token, stored: Bytes, clear: Bytes) {
    stored == token.cipher(clear) || (stored == [] && clear == [])
  }

  predicate IsDate(a: AttrType) { a == CKA_START_DATE || a == CKA_END_DATE }

  /** Byte strings are encrypted exactly in private objects; the two date attributes are stored
      by code of their own and are not compared. Everything else is stored as it is. */
  predicate HidesAt(token: Token, isPrivate: bool, a: AttrType, v: Value, w: Value) {
    if IsDate(a) then v.BytesV? && w.BytesV?
    else if v.BytesV? && isPrivate then w.BytesV? && Hidden(token, v.s, w.s)
    else v == w
  }

  ghost predicate Hides(token: Token, isPrivate: bool, o: Attrs, c: Attrs) {
    && o.Keys == c.Keys
    && forall a :: a in o ==> HidesAt(token, isPrivate, a, o[a], c[a])
  }

  lemma HiddenDecodes(token: Token, stored: Bytes, clear: Bytes)
    requires token.Lawful() && Hidden(token, stored, clear)
    ensures token.plain(stored) == Some(clear)
  {
  }

  lemma HidesPut(token: Token, isPrivate: bool, o: Attrs, c: Attrs, a: AttrType, v: Value, w: Value)
    requires Hides(token, isPrivate, o, c) && HidesAt(token, isPrivate, a, v, w)
    ensures Hides(token, isPrivate, o[a := v], c[a := w])
  {
  }

  /** The attributes the engine consults are never byte strings, apart from CKA_VALUE. */
  lemma SameReadings(token: Token, isPrivate: bool, o: Attrs, c: Attrs)
    requires Hides(token, isPrivate, o, c)
    ensures forall a, d :: !IsDate(a) ==> Flag(o, a, d) == Flag(c, a, d)
    ensures forall a, d :: !IsDate(a) ==> Number(o, a, d) == Number(c, a, d)
    ensures Class(o) == Class(c) && KeyType(o) == KeyType(c)
    ensures Modifiable(o) == Modifiable(c) && Copyable(o) == Copyable(c) && Trusted(o) == Trusted(c)
    ensures Sensitive(o) == Sensitive(c) && Extractable(o) == Extractable(c)
  {
  }

  /** Two outcomes that a caller cannot tell apart, and that stay related. */
  ghost predicate Alike(token: Token, isPrivate: bool, r: Outcome, s: Outcome) {
    r.rv == s.rv && Hides(token, isPrivate, r.attrs, s.attrs)
  }

  // ----- a token to show what can go wrong -----------------------------------------------------

  /** A lawful token whose ciphertexts begin with a marker, and whose check values are the material. */
  function MarkingToken(marker: byte): Token {
    Token((x: Bytes) => [marker] + x,
          (y: Bytes) => if |y| == 0 then Some([]) else if y[0] == marker then Some(y[1..]) else None,
          (x: Bytes) => x, (k: KcvKind, x: Bytes) => x, (x: Bytes) => None)
  }

  lemma MarkingIsLawful(marker: byte)
    ensures MarkingToken(marker).Lawful() && MarkingToken(marker).Expanding()
  {
    forall x: Bytes ensures MarkingToken(marker).plain(MarkingToken(marker).cipher(x)) == Some(x) {
      assert ([marker] + x)[1..] == x;
    }
  }

  // ----- one write --------------------------------------------------------------------------------

  lemma SealedAlike(ctx: Context, isPrivate: bool, p: Payload)
    requires ctx.token.Lawful() && (isPrivate ==> ctx.session.LoggedIn())
    requires p.NullPtr? ==> p.len == 0
    ensures Sealed(Clear(ctx), isPrivate, p) == Some(p.Data())
    ensures Sealed(ctx, isPrivate, p) == Some(if isPrivate then ctx.token.cipher(p.Data()) else p.Data())
  {
  }

  lemma StoreCheckAlike(ctx: Context, isPrivate: bool, o: Attrs, c: Attrs, check: Bytes)
    requires ctx.token.Lawful() && (isPrivate ==> ctx.session.LoggedIn())
    requires Hides(ctx.token, isPrivate, o, c)
    ensures Alike(ctx.token, isPrivate, StoreCheck(ctx, isPrivate, o, check), StoreCheck(Clear(ctx), isPrivate, c, check))
  {
  }

  lemma RecordLengthsAlike(token: Token, isPrivate: bool, o: Attrs, c: Attrs, data: Bytes, op: Op)
    requires Hides(token, isPrivate, o, c)
    ensures Hides(token, isPrivate, RecordLengths(o, data, op), RecordLengths(c, data, op))
  {
    if op.Create? || op.Unwrap? {
      var v := NumberV(|data|);
      var o1, c1 := o, c;
      if CKA_VALUE_LEN in o {
        HidesPut(token, isPrivate, o, c, CKA_VALUE_LEN, v, v);
        o1, c1 := o[CKA_VALUE_LEN := v], c[CKA_VALUE_LEN := v];
      }
      HidesPut(token, isPrivate, o1, c1, CKA_VALUE_BITS, NumberV(BitLength(data)), NumberV(BitLength(data)));
    }
  }

  lemma StampAlike(ctx: Context, isPrivate: bool, o: Attrs, c: Attrs, data: Bytes, op: Op)
    requires ctx.token.Lawful() && (isPrivate ==> ctx.session.LoggedIn())
    requires Hides(ctx.token, isPrivate, o, c)
    ensures Alike(ctx.token, isPrivate, StampCheck(ctx, isPrivate, o, data, op), StampCheck(Clear(ctx), isPrivate, c, data, op))
  {
    assert Class(o) == Class(c) && KeyType(o) == KeyType(c);
    StoreCheckAlike(ctx, isPrivate, o, c, ctx.token.certificateCheck(data));
    StoreCheckAlike(ctx, isPrivate, o, c, []);
    var kcv := KcvOf(ctx.token, KeyType(o), data);
    assert kcv == KcvOf(ClearToken(ctx.token), KeyType(c), data);
    if kcv.Some? { StoreCheckAlike(ctx, isPrivate, o, c, kcv.value); }
  }

  lemma ValueAlike(ctx: Context, isPrivate: bool, o: Attrs, c: Attrs, p: Payload, op: Op)
    requires ctx.token.Lawful() && (isPrivate ==> ctx.session.LoggedIn())
    requires p.NullPtr? ==> p.len == 0
    requires Hides(ctx.token, isPrivate, o, c)
    ensures Alike(ctx.token, isPrivate, WriteValue(ctx, isPrivate, o, p, op), WriteValue(Clear(ctx), isPrivate, c, p, op))
  {
    SealedAlike(ctx, isPrivate, p);
    var v, w := BytesV(Sealed(ctx, isPrivate, p).value), BytesV(p.Data());
    HidesPut(ctx.token, isPrivate, o, c, CKA_VALUE, v, w);
    RecordLengthsAlike(ctx.token, isPrivate, o[CKA_VALUE := v], c[CKA_VALUE := w], p.Data(), op);
    StampAlike(ctx, isPrivate, RecordLengths(o[CKA_VALUE := v], p.Data(), op),
               RecordLengths(c[CKA_VALUE := w], p.Data(), op), p.Data(), op);
  }

  lemma SameKcvs(token: Token, keyType: nat, x: Bytes)
    ensures KcvOf(ClearToken(token), keyType, x) == KcvOf(token, keyType, x)
  {
  }

  /** What the engine reads as the value of the key. */
  lemma StoredValueAlike(ctx: Context, isPrivate: bool, o: Attrs, c: Attrs)
    requires ctx.token.Lawful() && (isPrivate ==> ctx.session.LoggedIn())
    requires Hides(ctx.token, isPrivate, o, c)
    ensures (if isPrivate then ctx.Decrypt(Text(o, CKA_VALUE)) else Some(Text(o, CKA_VALUE))) == Some(Text(c, CKA_VALUE))
    ensures (if isPrivate then Clear(ctx).Decrypt(Text(c, CKA_VALUE)) else Some(Text(c, CKA_VALUE))) == Some(Text(c, CKA_VALUE))
  {
    if isPrivate { HiddenDecodes(ctx.token, Text(o, CKA_VALUE), Text(c, CKA_VALUE)); }
  }

  lemma CheckValueAlike(ctx: Context, isPrivate: bool, o: Attrs, c: Attrs, p: Payload)
    requires ctx.token.Lawful() && (isPrivate ==> ctx.session.LoggedIn())
    requires p.NullPtr? ==> p.len == 0
    requires Hides(ctx.token, isPrivate, o, c)
    ensures Alike(ctx.token, isPrivate, WriteCheckValue(ctx, isPrivate, o, p), WriteCheckValue(Clear(ctx), isPrivate, c, p))
  {
    SealedAlike(ctx, isPrivate, p);
    SameReadings(ctx.token, isPrivate, o, c);
    HidesPut(ctx.token, isPrivate, o, c, CKA_CHECK_VALUE, BytesV(Sealed(ctx, isPrivate, p).value), BytesV(p.Data()));
    StoredValueAlike(ctx, isPrivate, o, c);
    SameKcvs(ctx.token, KeyType(o), Text(c, CKA_VALUE));
    hide Sealed, KcvOf, Hides, Token.Lawful, Text, ClearToken;
  }

  lemma TextAlike(ctx: Context, t: AttrType, isPrivate: bool, o: Attrs, c: Attrs, p: Payload)
    requires ctx.token.Lawful() && (isPrivate ==> ctx.session.LoggedIn())
    requires p.NullPtr? ==> p.len == 0
    requires Hides(ctx.token, isPrivate, o, c)
    ensures Alike(ctx.token, isPrivate, WriteText(ctx, t, isPrivate, o, p), WriteText(Clear(ctx), t, isPrivate, c, p))
  {
    SealedAlike(ctx, isPrivate, p);
    hide Sealed;
    HidesPut(ctx.token, isPrivate, o, c, t, BytesV(Sealed(ctx, isPrivate, p).value), BytesV(p.Data()));
  }

  lemma MeasuredAlike(ctx: Context, t: AttrType, bits: AttrType, isPrivate: bool, o: Attrs, c: Attrs, p: Payload, op: Op)
    requires !IsDate(bits)
    requires ctx.token.Lawful() && (isPrivate ==> ctx.session.LoggedIn())
    requires p.NullPtr? ==> p.len == 0
    requires Hides(ctx.token, isPrivate, o, c)
    ensures Alike(ctx.token, isPrivate, WriteMeasured(ctx, t, bits, isPrivate, o, p, op), WriteMeasured(Clear(ctx), t, bits, isPrivate, c, p, op))
  {
    SealedAlike(ctx, isPrivate, p);
    hide Sealed, BitLength, Token.Lawful;
    var v, w := BytesV(Sealed(ctx, isPrivate, p).value), BytesV(p.Data());
    HidesPut(ctx.token, isPrivate, o, c, t, v, w);
    var n := NumberV(BitLength(p.Data()));
    HidesPut(ctx.token, isPrivate, o[t := v], c[t := w], bits, n, n);
  }

  lemma BytesAlike(ctx: Context, t: AttrType, isPrivate: bool, o: Attrs, c: Attrs, p: Payload, op: Op)
    requires ctx.token.Lawful() && (isPrivate ==> ctx.session.LoggedIn())
    requires p.NullPtr? ==> p.len == 0
    requires Hides(ctx.token, isPrivate, o, c)
    requires KindOf(t).IsBytes()
    ensures Alike(ctx.token, isPrivate, Write(ctx, t, isPrivate, o, p, op), Write(Clear(ctx), t, isPrivate, c, p, op))
  {
    hide WriteText, WriteMeasured, WriteValue, WriteCheckValue, Hides, Token.Lawful, Clear, Sealed;
    var k := KindOf(t);
    if k.ValueKind? {
      ValueAlike(ctx, isPrivate, o, c, p, op);
    } else if k.CheckValueKind? {
      CheckValueAlike(ctx, isPrivate, o, c, p);
    } else if k.DateKind? {
      HidesPut(ctx.token, isPrivate, o, c, t, BytesV(p.Data()), BytesV(p.Data()));
    } else if k.ModulusKind? {
      MeasuredAlike(ctx, t, CKA_MODULUS_BITS, isPrivate, o, c, p, op);
    } else if k.PrimeKind? {
      MeasuredAlike(ctx, t, CKA_PRIME_BITS, isPrivate, o, c, p, op);
    } else {
      hide KindOf;
      TextAlike(ctx, t, isPrivate, o, c, p);
    }
  }

  lemma PlainAlike(ctx: Context, t: AttrType, isPrivate: bool, o: Attrs, c: Attrs, p: Payload, op: Op)
    requires Hides(ctx.token, isPrivate, o, c)
    requires !KindOf(t).IsBytes()
    ensures Alike(ctx.token, isPrivate, Write(ctx, t, isPrivate, o, p, op), Write(Clear(ctx), t, isPrivate, c, p, op))
  {
    var k := KindOf(t);
    if k.SensitiveKind? || k.ExtractableKind? {
      HistoryFlagsAlike(ctx, isPrivate, o, c, p, op);
    } else if k.IsFlag() {
      FlagAlike(ctx, t, isPrivate, o, c, p, op);
    } else {
      StructuredAlike(ctx, t, isPrivate, o, c, p, op);
    }
  }

  lemma FlagAlike(ctx: Context, t: AttrType, isPrivate: bool, o: Attrs, c: Attrs, p: Payload, op: Op)
    requires Hides(ctx.token, isPrivate, o, c)
    requires KindOf(t).IsFlag() && !KindOf(t).SensitiveKind? && !KindOf(t).ExtractableKind?
    ensures Alike(ctx.token, isPrivate, Write(ctx, t, isPrivate, o, p, op), Write(Clear(ctx), t, isPrivate, c, p, op))
  {
    HidesPut(ctx.token, isPrivate, o, c, t, BoolV(p.AsBool()), BoolV(p.AsBool()));
    assert Copyable(o) == Copyable(c) && Flag(o, t, false) == Flag(c, t, false);
  }

  lemma IdentityAlike(ctx: Context, t: AttrType, isPrivate: bool, o: Attrs, c: Attrs, p: Payload, op: Op)
    requires Hides(ctx.token, isPrivate, o, c)
    requires KindOf(t).IdentityKind?
    ensures Alike(ctx.token, isPrivate, Write(ctx, t, isPrivate, o, p, op), Write(Clear(ctx), t, isPrivate, c, p, op))
  {
    hide FromWord;
    assert DefaultOf(t).NumberV? && !IsDate(t);
    hide KindOf, DefaultOf;
    assert Number(o, t, DefaultOf(t).n) == Number(c, t, DefaultOf(t).n);
  }

  lemma NestedAlike(ctx: Context, t: AttrType, isPrivate: bool, o: Attrs, c: Attrs, p: Payload, op: Op)
    requires Hides(ctx.token, isPrivate, o, c)
    requires KindOf(t).NestedKind? && !IsDate(t)
    ensures Alike(ctx.token, isPrivate, Write(ctx, t, isPrivate, o, p, op), Write(Clear(ctx), t, isPrivate, c, p, op))
  {
    hide KindOf, Hides, Payload.Length;
    var nested := ctx.token.nested(p.Data());
    if nested.Some? { HidesPut(ctx.token, isPrivate, o, c, t, MapV(nested.value), MapV(nested.value)); }
  }

  lemma MechanismsAlike(ctx: Context, t: AttrType, isPrivate: bool, o: Attrs, c: Attrs, p: Payload, op: Op)
    requires Hides(ctx.token, isPrivate, o, c)
    requires KindOf(t).MechanismsKind? && !IsDate(t)
    ensures Alike(ctx.token, isPrivate, Write(ctx, t, isPrivate, o, p, op), Write(Clear(ctx), t, isPrivate, c, p, op))
  {
    hide KindOf, MechanismSet, Hides, Payload.Length;
    HidesPut(ctx.token, isPrivate, o, c, t, MechanismsV(MechanismSet(p.Data())), MechanismsV(MechanismSet(p.Data())));
  }

  lemma NumberAlike(ctx: Context, t: AttrType, isPrivate: bool, o: Attrs, c: Attrs, p: Payload, op: Op)
    requires Hides(ctx.token, isPrivate, o, c)
    requires KindOf(t).IsNumber() && !KindOf(t).IdentityKind? && !IsDate(t)
    ensures Alike(ctx.token, isPrivate, Write(ctx, t, isPrivate, o, p, op), Write(Clear(ctx), t, isPrivate, c, p, op))
  {
    hide FromWord, KindOf, DefaultOf, Hides, Payload.Length;
    HidesPut(ctx.token, isPrivate, o, c, t, NumberV(p.AsNumber()), NumberV(p.AsNumber()));
  }

  lemma StructuredAlike(ctx: Context, t: AttrType, isPrivate: bool, o: Attrs, c: Attrs, p: Payload, op: Op)
    requires Hides(ctx.token, isPrivate, o, c)
    requires !KindOf(t).IsFlag() && !KindOf(t).IsBytes()
    ensures Alike(ctx.token, isPrivate, Write(ctx, t, isPrivate, o, p, op), Write(Clear(ctx), t, isPrivate, c, p, op))
  {
    hide Write, Alike, Hides, DefaultOf;
    assert !IsDate(t);
    hide KindOf, IsDate;
    if KindOf(t).IdentityKind? {
      IdentityAlike(ctx, t, isPrivate, o, c, p, op);
    } else if KindOf(t).NestedKind? {
      NestedAlike(ctx, t, isPrivate, o, c, p, op);
    } else if KindOf(t).MechanismsKind? {
      MechanismsAlike(ctx, t, isPrivate, o, c, p, op);
    } else {
      NumberAlike(ctx, t, isPrivate, o, c, p, op);
    }
  }

  lemma HistoryFlagsAlike(ctx: Context, isPrivate: bool, o: Attrs, c: Attrs, p: Payload, op: Op)
    requires Hides(ctx.token, isPrivate, o, c)
    ensures Alike(ctx.token, isPrivate, WriteSensitive(o, p, op), WriteSensitive(c, p, op))
    ensures Alike(ctx.token, isPrivate, WriteExtractable(o, p, op), WriteExtractable(c, p, op))
  {
    var v := BoolV(p.AsBool());
    HidesPut(ctx.token, isPrivate, o, c, CKA_SENSITIVE, v, v);
    HidesPut(ctx.token, isPrivate, o[CKA_SENSITIVE := v], c[CKA_SENSITIVE := v], CKA_ALWAYS_SENSITIVE, v, v);
    HidesPut(ctx.token, isPrivate, o, c, CKA_EXTRACTABLE, v, v);
    HidesPut(ctx.token, isPrivate, o[CKA_EXTRACTABLE := v], c[CKA_EXTRACTABLE := v], CKA_NEVER_EXTRACTABLE,
             BoolV(false), BoolV(false));
    assert Sensitive(o) == Sensitive(c) && Flag(o, CKA_EXTRACTABLE, false) == Flag(c, CKA_EXTRACTABLE, false);
  }

  lemma UpdateAlike(ctx: Context, spec: AttrSpec, t: AttrType, isPrivate: bool, o: Attrs, c: Attrs, p: Payload, op: Op)
    requires ctx.token.Lawful() && (isPrivate ==> ctx.session.LoggedIn())
    requires Hides(ctx.token, isPrivate, o, c)
    ensures Alike(ctx.token, isPrivate, Update(ctx, spec, t, isPrivate, o, p, op), Update(Clear(ctx), spec, t, isPrivate, c, p, op))
  {
    hide Write, KindOf;
    SameReadings(ctx.token, isPrivate, o, c);
    hide Token.Lawful, Hides;
    if Refusal(spec, o, p, op) == OK {
      if KindOf(t).IsBytes() { BytesAlike(ctx, t, isPrivate, o, c, p, op); } else { PlainAlike(ctx, t, isPrivate, o, c, p, op); }
    }
  }

  // ----- whole templates -------------------------------------------------------------------------------

  function ClearJob(job: Job): Job { job.(ctx := Clear(job.ctx)) }

  lemma {:induction false} ApplyAlike(job: Job, o: Attrs, c: Attrs, es: Template)
    requires job.ctx.token.Lawful() && (job.isPrivate ==> job.ctx.session.LoggedIn())
    requires Hides(job.ctx.token, job.isPrivate, o, c)
    ensures Alike(job.ctx.token, job.isPrivate, ApplyEntries(job, o, es), ApplyEntries(ClearJob(job), c, es))
    decreases |es|
  {
    if |es| > 0 {
      if es[0].t in job.schema {
        UpdateAlike(job.ctx, job.schema[es[0].t], es[0].t, job.isPrivate, o, c, es[0].p, job.op);
      }
      var r, s := UpdateEntry(job, o, es[0]), UpdateEntry(ClearJob(job), c, es[0]);
      if r.rv == OK { ApplyAlike(job, r.attrs, s.attrs, es[1..]); }
    }
  }

  /** Saving a template does the same thing to a token with encryption and to one without. */
  lemma SaveAlike(job: Job, o: Attrs, c: Attrs, es: Template, rollback: bool)
    requires job.ctx.token.Lawful() && (job.isPrivate ==> job.ctx.session.LoggedIn())
    requires Hides(job.ctx.token, job.isPrivate, o, c)
    ensures Alike(job.ctx.token, job.isPrivate,
                  SaveTemplate(job, o, es, rollback), SaveTemplate(ClearJob(job), c, es, rollback))
  {
    hide ApplyEntries;
    SameReadings(job.ctx.token, job.isPrivate, o, c);
    ApplyAlike(job, o, c, es);
    hide Hides, Token.Lawful;
  }

  /** Reading gives the same answers too, except for the dates of private objects. */
  lemma RetrieveAlike(ctx: Context, spec: AttrSpec, isPrivate: bool, o: Attrs, c: Attrs, q: Request)
    requires ctx.token.Lawful() && (isPrivate ==> ctx.session.LoggedIn())
    requires Hides(ctx.token, isPrivate, o, c)
    requires !IsDate(q.t)
    ensures Retrieve(ctx, spec, isPrivate, o, q) == Retrieve(Clear(ctx), spec, isPrivate, c, q)
  {
    SameReadings(ctx.token, isPrivate, o, c);
    if q.t in o && o[q.t].BytesV? && isPrivate { HiddenDecodes(ctx.token, o[q.t].s, c[q.t].s); }
  }
}
