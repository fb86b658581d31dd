/** What the calls that make objects leave in them. Every attribute that a template names shows what its last
    entry says; what the library adds to a key is told in plain terms of bytes. */
module Contents {
  import opened Cryptoki
  import opened Attributes
  import opened ObjectClasses
  import opened AttributeLaws
  import opened Templates
  import opened Transparency
  import opened ObjectStore
  import opened ObjectLaws
  import opened Runs
  import opened HalfMade
  import opened CheckValues
  import opened UnwrappedKeys

  // ----- what bytes mean ------------------------------------------------------------------------------------

  function Word(data: Bytes, i: nat): nat
    requires SIZEOF_ULONG * i + SIZEOF_ULONG <= |data|
  {
    FromWord(data[SIZEOF_ULONG * i..SIZEOF_ULONG * i + SIZEOF_ULONG])
  }

  /** The value is what these bytes stand for. */
  predicate Means(token: Token, data: Bytes, v: Value) {
    match v
    case BoolV(b) => |data| == 1 && (b <==> data[0] != 0)
    case NumberV(n) => |data| == 8 && n == FromWord(data)
    case BytesV(s) => s == data
    case MechanismsV(ms) => |data| > 0 && |data| % 8 == 0 && ms == set i | 0 <= i < |data| / 8 :: Word(data, i)
    case MapV(m) => |data| % 24 == 0 && token.nested(data) == Some(m)
  }

  /** The attribute, decrypted if it is encrypted, has the value that the bytes stand for. Dates never are. */
  predicate Shows(ctx: Context, isPrivate: bool, o: Attrs, t: AttrType, data: Bytes) {
    t in o && var v := Decoded(ctx, isPrivate && !IsDate(t), o[t]); v.Some? && Means(ctx.token, data, v.value)
  }

  lemma {:induction false} MechanismsAre(data: Bytes)
    requires |data| % 8 == 0
    ensures MechanismSet(data) == set i | 0 <= i < |data| / 8 :: Word(data, i)
    decreases |data|
  {
    if |data| >= 8 {
      var rest := data[8..];
      MechanismsAre(rest);
      assert Word(data, 0) == FromWord(data[..8]);
      forall i | 0 <= i < |rest| / 8 ensures Word(rest, i) == Word(data, i + 1) {
        assert rest[8 * i..8 * i + 8] == data[8 * (i + 1)..8 * (i + 1) + 8];
      }
      forall n ensures n in MechanismSet(data) <==> n in set i | 0 <= i < |data| / 8 :: Word(data, i) {
        if i :| 0 <= i < |data| / 8 && n == Word(data, i) && i > 0 { assert n == Word(rest, i - 1); }
        if i :| 0 <= i < |rest| / 8 && n == Word(rest, i) { assert n == Word(data, i + 1); }
      }
    }
  }

  // ----- one write --------------------------------------------------------------------------------------------

  lemma SealedShows(ctx: Context, isPrivate: bool, o: Attrs, t: AttrType, p: Payload)
    requires ctx.token.Lawful() && (p.NullPtr? ==> p.len == 0) && Sealed(ctx, isPrivate, p).Some? && !IsDate(t)
    requires t in o && o[t] == BytesV(Sealed(ctx, isPrivate, p).value)
    ensures Shows(ctx, isPrivate, o, t, p.Data())
  {
    if isPrivate { assert ctx.token.plain(ctx.token.cipher(p.Data())) == Some(p.Data()); }
  }

  lemma FlagShows(ctx: Context, t: AttrType, isPrivate: bool, o: Attrs, p: Payload, op: Op)
    requires KindOf(t).IsFlag() && t in o && o[t].BoolV? && (p.NullPtr? ==> p.len == 0) && Write(ctx, t, isPrivate, o, p, op).rv == OK
    ensures Shows(ctx, isPrivate, Write(ctx, t, isPrivate, o, p, op).attrs, t, p.Data())
  {
  }

  lemma NumberShows(ctx: Context, t: AttrType, isPrivate: bool, o: Attrs, p: Payload, op: Op)
    requires KindOf(t).IsNumber() && t in o && o[t].NumberV? && (p.NullPtr? ==> p.len == 0) && Write(ctx, t, isPrivate, o, p, op).rv == OK
    ensures Shows(ctx, isPrivate, Write(ctx, t, isPrivate, o, p, op).attrs, t, p.Data())
  {
    hide FromWord, DefaultOf;
  }

  lemma BytesShow(ctx: Context, t: AttrType, isPrivate: bool, o: Attrs, p: Payload, op: Op)
    requires ctx.token.Lawful() && KindOf(t).IsBytes() && (p.NullPtr? ==> p.len == 0) && Write(ctx, t, isPrivate, o, p, op).rv == OK
    ensures Shows(ctx, isPrivate, Write(ctx, t, isPrivate, o, p, op).attrs, t, p.Data())
  {
    hide Token.Lawful, Sealed, KcvOf, WriteValue, Shows;
    var o' := Write(ctx, t, isPrivate, o, p, op).attrs;
    if IsDate(t) {
      assert o' == o[t := BytesV(p.Data())];
      DateShows(ctx, isPrivate, o', t, p.Data());
    } else {
      if t == CKA_VALUE { ValueStored(ctx, isPrivate, o, p, op); }
      assert t == CKA_CHECK_VALUE <==> KindOf(t).CheckValueKind?;
      assert Sealed(ctx, isPrivate, p).Some? && t in o' && o'[t] == BytesV(Sealed(ctx, isPrivate, p).value);
      SealedShows(ctx, isPrivate, o', t, p);
    }
  }

  lemma DateShows(ctx: Context, isPrivate: bool, o: Attrs, t: AttrType, data: Bytes)
    requires IsDate(t) && t in o && o[t] == BytesV(data)
    ensures Shows(ctx, isPrivate, o, t, data)
  {
  }

  lemma ValueStored(ctx: Context, isPrivate: bool, o: Attrs, p: Payload, op: Op)
    requires WriteValue(ctx, isPrivate, o, p, op).rv == OK
    ensures var o' := WriteValue(ctx, isPrivate, o, p, op).attrs;
            Sealed(ctx, isPrivate, p).Some? && CKA_VALUE in o' && o'[CKA_VALUE] == BytesV(Sealed(ctx, isPrivate, p).value)
  {
    hide Sealed, KcvOf;
  }

  lemma SetsShow(ctx: Context, t: AttrType, isPrivate: bool, o: Attrs, p: Payload, op: Op)
    requires KindOf(t).MechanismsKind? || KindOf(t).NestedKind?
    requires (p.NullPtr? ==> p.len == 0) && Write(ctx, t, isPrivate, o, p, op).rv == OK
    ensures Shows(ctx, isPrivate, Write(ctx, t, isPrivate, o, p, op).attrs, t, p.Data())
  {
    hide KindOf, MechanismSet, Word;
    if KindOf(t).MechanismsKind? { MechanismsAre(p.Data()); }
  }

  /** Whatever the attribute: after a write that succeeds it shows what was written. */
  lemma WriteShows(ctx: Context, t: AttrType, isPrivate: bool, o: Attrs, p: Payload, op: Op)
    requires ctx.token.Lawful() && (p.NullPtr? ==> p.len == 0) && t in o && KindOf(t).Admits(o[t])
    requires Write(ctx, t, isPrivate, o, p, op).rv == OK
    ensures Shows(ctx, isPrivate, Write(ctx, t, isPrivate, o, p, op).attrs, t, p.Data())
  {
    hide Write, KindOf, Shows, Token.Lawful;
    if KindOf(t).IsFlag() {
      FlagShows(ctx, t, isPrivate, o, p, op);
    } else if KindOf(t).IsNumber() {
      NumberShows(ctx, t, isPrivate, o, p, op);
    } else if KindOf(t).IsBytes() {
      BytesShow(ctx, t, isPrivate, o, p, op);
    } else {
      SetsShow(ctx, t, isPrivate, o, p, op);
    }
  }

  // ----- a whole template ---------------------------------------------------------------------------------------

  /** What shows stays so as long as nothing touches it. */
  lemma StillShows(ctx: Context, isPrivate: bool, o: Attrs, o': Attrs, t: AttrType, data: Bytes)
    requires Shows(ctx, isPrivate, o, t, data) && SameAt(o, o', t)
    ensures Shows(ctx, isPrivate, o', t, data)
  {
  }

  lemma {:induction false} AppliedShows(job: Job, o: Attrs, es: Template, t: AttrType)
    requires job.ctx.token.Lawful() && WellTyped(o) && t in o && ApplyEntries(job, o, es).rv == OK && LastEntry(es, t).Some?
    requires forall e :: e in es && Touches(e.t, t) ==> e.t == t
    ensures Shows(job.ctx, job.isPrivate, ApplyEntries(job, o, es).attrs, t, LastEntry(es, t).value.Data())
    decreases |es|
  {
    hide Shows, Write, Touches, Token.Lawful, KindOf;
    var front, e := es[..|es| - 1], es[|es| - 1];
    assert es == front + [e];
    ApplyJoin(job, o, front, [e]);
    var o1 := ApplyEntries(job, o, front).attrs;
    assert [e][1..] == [] && ApplyEntries(job, o1, [e]) == UpdateEntry(job, o1, e);
    ApplyTidy(job, o, front);
    if e.t == t {
      WriteShows(job.ctx, t, job.isPrivate, o1, e.p, job.op);
    } else {
      AppliedShows(job, o, front, t);
      WriteTidy(job.ctx, e.t, job.isPrivate, o1, e.p, job.op, t);
      StillShows(job.ctx, job.isPrivate, o1, UpdateEntry(job, o1, e).attrs, t, LastEntry(front, t).value.Data());
    }
  }

  // ----- a new object -------------------------------------------------------------------------------------------

  lemma {:induction false} SplitEntries(es: Template, t: AttrType)
    ensures LastEntry(WithoutCheckValue(es), t) == if t == CKA_CHECK_VALUE then None else LastEntry(es, t)
    ensures LastEntry(OnlyCheckValue(es), t) == if t == CKA_CHECK_VALUE then LastEntry(es, t) else None
  {
    if |es| > 0 {
      SplitEntries(es[..|es| - 1], t);
      var e := es[|es| - 1];
      LastEntryOf(WithoutCheckValue(es[..|es| - 1]), e, t);
      LastEntryOf(OnlyCheckValue(es[..|es| - 1]), e, t);
    }
  }

  /** The attributes that writes to other attributes maintain, check values apart. */
  predicate Maintained(t: AttrType) {
    || t == CKA_ALWAYS_SENSITIVE || t == CKA_NEVER_EXTRACTABLE || t == CKA_VALUE_LEN || t == CKA_VALUE_BITS
    || t == CKA_MODULUS_BITS || t == CKA_PRIME_BITS
  }

  lemma {:induction false} LastIsNamed(es: Template, t: AttrType)
    requires LastEntry(es, t).Some?
    ensures Named(es, t)
  {
    if es[|es| - 1].t != t {
      LastIsNamed(es[..|es| - 1], t);
      var i :| 0 <= i < |es| - 1 && es[..|es| - 1][i].t == t;
      assert es[i].t == t;
    }
  }

  /** Nobody can give what the library keeps to itself; what is computed for a created object cannot be given
      with it either. */
  lemma NeverReadOnly(job: Job, o: Attrs, es: Template, t: AttrType)
    requires ApplyEntries(job, o, es).rv == OK && LastEntry(es, t).Some?
    ensures t in job.schema && t != CKA_LOCAL && t != CKA_ALWAYS_SENSITIVE && t != CKA_NEVER_EXTRACTABLE && t != CKA_KEY_GEN_MECHANISM
    ensures job.op.Create? ==> !Maintained(t)
  {
    hide Write, Maintained;
    LastIsNamed(es, t);
    var states := ApplyGivesSteps(job, o, es);
    var i :| 0 <= i < |es| && es[i].t == t;
    assert Update(job.ctx, job.schema[es[i].t], es[i].t, job.isPrivate, states[i], es[i].p, job.op) == Outcome(states[i + 1], OK);
    if job.op.Create? && Maintained(t) { ReadOnlyIsRefused(job.ctx, t, job.isPrivate, states[i], es[i].p, job.op); }
    if t == CKA_LOCAL || t == CKA_KEY_GEN_MECHANISM || t == CKA_ALWAYS_SENSITIVE || t == CKA_NEVER_EXTRACTABLE {
      ReadOnlyIsRefused(job.ctx, t, job.isPrivate, states[i], es[i].p, job.op);
    }
  }

  lemma ReadOnlyIsRefused(ctx: Context, t: AttrType, isPrivate: bool, o: Attrs, p: Payload, op: Op)
    requires t == CKA_LOCAL || t == CKA_KEY_GEN_MECHANISM || t == CKA_ALWAYS_SENSITIVE || t == CKA_NEVER_EXTRACTABLE || (op.Create? && Maintained(t))
    ensures Write(ctx, t, isPrivate, o, p, op).rv == ATTRIBUTE_READ_ONLY
  {
  }

  lemma ReorderedShows(job: Job, c: ClassId, es: Template, t: AttrType)
    requires job.ctx.token.Lawful() && job.schema == SchemaOf(c) && LastEntry(es, t).Some? && !Maintained(t)
    requires ApplyEntries(job, Initialised(c, map[]), CheckValueLast(es)).rv == OK
    ensures Shows(job.ctx, job.isPrivate, ApplyEntries(job, Initialised(c, map[]), CheckValueLast(es)).attrs, t, LastEntry(es, t).value.Data())
    ensures t != CKA_LOCAL && t != CKA_KEY_GEN_MECHANISM
  {
    hide Shows, Token.Lawful, Initialised, SchemaOf, UpdateEntry, WithoutCheckValue, OnlyCheckValue, ApplyEntries;
    var o, first, last := Initialised(c, map[]), WithoutCheckValue(es), OnlyCheckValue(es);
    SplitEntries(es, t);
    LastEntryJoin(first, last, t);
    NeverReadOnly(job, o, CheckValueLast(es), t);
    InSchemaInObject(c, t);
    NewObjectTyped(c);
    if t == CKA_CHECK_VALUE {
      ApplyJoin(job, o, first, last);
      ApplyTidy(job, o, first);
      ReorderedMembers(es);
      AppliedShows(job, ApplyEntries(job, o, first).attrs, last, t);
    } else {
      AppliedShows(job, o, CheckValueLast(es), t);
    }
  }

  lemma InSchemaInObject(c: ClassId, t: AttrType)
    requires t in SchemaOf(c)
    ensures t in Initialised(c, map[])
  {
    hide Table, Declares, FillDefaults, SchemaFrom, Decl.Spec;
    SchemaSays(Table(c), t);
    InitialisedAt(c, map[], t);
  }

  /** An object drafted from a template shows whatever the template names, as its last entry says. */
  lemma DraftShows(ctx: Context, caller: Caller, es: Template, op: Op, t: AttrType)
    requires ctx.token.Lawful() && op != Copy && op != Set && DraftObject(ctx, caller, es, op).Complete?
    requires LastEntry(es, t).Some? && (op.Create? || !Maintained(t))
    ensures var o := DraftObject(ctx, caller, es, op).item.attrs; Shows(ctx, IsPrivate(o), o, t, LastEntry(es, t).value.Data())
    ensures t != CKA_LOCAL && t != CKA_KEY_GEN_MECHANISM
  {
    hide Shows, Token.Lawful, Initialised, SchemaOf, ApplyEntries, CheckValueLast, ClassOf, ReadPlan, HaveWrite, Healthy, StoredClass, AllMandatoryNamed, IsPrivate, IsOnToken;
    CreateDraftLaw(ctx, caller, es, op);
    var p := ReadPlan(es, false, DEFAULT_PLAN).plan;
    var c := ClassOf(p.objClass, p.keyType, p.certType).value;
    var job := Job(ctx, SchemaOf(c), p.isPrivate, op);
    var o := ApplyEntries(job, Initialised(c, map[]), CheckValueLast(es)).attrs;
    ReorderedEntry(es, t);
    NeverReadOnly(job, Initialised(c, map[]), CheckValueLast(es), t);
    ReorderedShows(job, c, es, t);
    if op.Create? { StillShows(ctx, p.isPrivate, o, MarkCreated(o, p.objClass), t, LastEntry(es, t).value.Data()); }
  }

  lemma ReorderedEntry(es: Template, t: AttrType)
    ensures LastEntry(CheckValueLast(es), t) == LastEntry(es, t)
  {
    SplitEntries(es, t);
    LastEntryJoin(WithoutCheckValue(es), OnlyCheckValue(es), t);
  }

  /** The call gave out a new handle, which leads to a new object; all other objects are as they were. */
  predicate Made(w: World, r: Reply) {
    && r.rv == OK && r.handle == w.lastHandle + 1 && r.handle in r.world.handles && r.world.handles[r.handle].target == w.next
    && w.next in r.world.items && r.world.items[w.next].finished && r.world.items == w.items[w.next := r.world.items[w.next]]
  }

  lemma EnactMade(w: World, caller: Caller, d: Draft, onToken: bool, isPrivate: bool)
    requires Sound(w) && d.Complete? && d.item.finished
    ensures var r := Enact(w, caller, d, onToken, isPrivate); Made(w, r) && r.world.items[w.next] == d.item
  {
    hide SoundItem;
    assert w.next !in w.byObject;
  }

  /** C_CreateObject: a new object behind a new handle shows everything that the template names; being given
      from outside, a key is not local and claims nothing about its past. */
  lemma CreatedShows(w: World, ctx: Context, caller: Caller, es: Template)
    requires Sound(w) && ctx.token.Lawful() && CreateObject(w, ctx, caller, es, Create).rv == OK
    ensures var r := CreateObject(w, ctx, caller, es, Create);
            && Made(w, r)
            && var o := r.world.items[w.next].attrs;
               && (forall t :: LastEntry(es, t).Some? ==> Shows(ctx, IsPrivate(o), o, t, LastEntry(es, t).value.Data()))
               && (Class(o) in {CKO_PUBLIC_KEY, CKO_PRIVATE_KEY, CKO_SECRET_KEY} ==> CKA_LOCAL in o && o[CKA_LOCAL] == BoolV(false))
               && (Class(o) in {CKO_PRIVATE_KEY, CKO_SECRET_KEY} ==>
                     && CKA_ALWAYS_SENSITIVE in o && o[CKA_ALWAYS_SENSITIVE] == BoolV(false)
                     && CKA_NEVER_EXTRACTABLE in o && o[CKA_NEVER_EXTRACTABLE] == BoolV(false))
  {
    hide Shows, Token.Lawful, DraftObject, ReadPlan, Sound, Enact, Made, IsPrivate, IsOnToken, SoundDraft;
    var p := ReadPlan(es, false, DEFAULT_PLAN).plan;
    var d := DraftObject(ctx, caller, es, Create);
    CreateDraftLaw(ctx, caller, es, Create);
    DraftGoes(w, caller, d, p.onToken, p.isPrivate);
    EnactMade(w, caller, d, p.onToken, p.isPrivate);
    forall t | LastEntry(es, t).Some? ensures Shows(ctx, IsPrivate(d.item.attrs), d.item.attrs, t, LastEntry(es, t).value.Data()) {
      DraftShows(ctx, caller, es, Create, t);
    }
    DraftMarked(ctx, caller, es);
  }

  lemma DraftGoes(w: World, caller: Caller, d: Draft, onToken: bool, isPrivate: bool)
    requires SoundDraft(d, caller) && Enact(w, caller, d, onToken, isPrivate).rv == OK
    ensures d.Complete? && d.item.finished
  {
    hide Healthy, Placed, Authorised;
  }

  lemma DraftMarked(ctx: Context, caller: Caller, es: Template)
    requires DraftObject(ctx, caller, es, Create).Complete?
    ensures var o := DraftObject(ctx, caller, es, Create).item.attrs;
            && (Class(o) in {CKO_PUBLIC_KEY, CKO_PRIVATE_KEY, CKO_SECRET_KEY} ==> CKA_LOCAL in o && o[CKA_LOCAL] == BoolV(false))
            && (Class(o) in {CKO_PRIVATE_KEY, CKO_SECRET_KEY} ==>
                  && CKA_ALWAYS_SENSITIVE in o && o[CKA_ALWAYS_SENSITIVE] == BoolV(false)
                  && CKA_NEVER_EXTRACTABLE in o && o[CKA_NEVER_EXTRACTABLE] == BoolV(false))
  {
    hide Initialised, SchemaOf, ApplyEntries, CheckValueLast, ReadPlan, HaveWrite, AllMandatoryNamed, OfClass;
    var p := ReadPlan(es, false, DEFAULT_PLAN).plan;
    var c := ClassOf(p.objClass, p.keyType, p.certType).value;
    var job := Job(ctx, SchemaOf(c), p.isPrivate, Create);
    BlankOfClass(es);
    ApplyKeepsIdentity(job, Initialised(c, map[]), CheckValueLast(es));
    SameClass(Initialised(c, map[]), ApplyEntries(job, Initialised(c, map[]), CheckValueLast(es)).attrs, c);
    assert Class(ApplyEntries(job, Initialised(c, map[]), CheckValueLast(es)).attrs) == p.objClass by { PlannedNumber(p, c); }
  }

  lemma PlannedNumber(p: Plan, c: ClassId)
    requires ClassOf(p.objClass, p.keyType, p.certType) == Some(c)
    ensures ClassNumber(c) == p.objClass
  {
  }

  /** The last entry is the one after which its type is not named again. */
  lemma {:induction false} LastEntryIs(es: Template, t: AttrType, p: Payload)
    ensures LastEntry(es, t) == Some(p) <==>
              exists i :: 0 <= i < |es| && es[i] == Entry(t, p) && forall j :: i < j < |es| ==> es[j].t != t
  {
    if |es| > 0 {
      var front, e := es[..|es| - 1], es[|es| - 1];
      LastEntryIs(front, t, p);
      if i :| 0 <= i < |es| && es[i] == Entry(t, p) && forall j :: i < j < |es| ==> es[j].t != t {
        if i < |es| - 1 { assert front[i] == Entry(t, p) && e.t != t; }
      }
      if i :| 0 <= i < |front| && front[i] == Entry(t, p) && forall j :: i < j < |front| ==> front[j].t != t {
        if e.t != t {
          assert es[i] == Entry(t, p);
          forall j | i < j < |es| ensures es[j].t != t { if j < |es| - 1 { assert front[j] == es[j]; } }
        }
      }
    }
  }

  // ----- what is measured -------------------------------------------------------------------------------------------

  function Power2(k: nat): nat { if k == 0 then 1 else 2 * Power2(k - 1) }

  lemma {:induction false} Power2Adds(j: nat, k: nat)
    ensures Power2(j + k) == Power2(j) * Power2(k)
  {
    if j > 0 { Power2Adds(j - 1, k); }
  }

  lemma ByteBitsIs(b: byte)
    requires b > 0
    ensures 1 <= ByteBits(b) <= 8 && Power2(ByteBits(b) - 1) <= b < Power2(ByteBits(b))
  {
    assert Power2(1) == 2 && Power2(2) == 4 && Power2(3) == 8 && Power2(4) == 16;
    assert Power2(5) == 32 && Power2(6) == 64 && Power2(7) == 128 && Power2(8) == 256;
  }

  lemma {:induction false} NumberOfFirst(b: byte, bs: Bytes)
    ensures FromBigEndian([b] + bs) == b * Power2(8 * |bs|) + FromBigEndian(bs) && FromBigEndian(bs) < Power2(8 * |bs|)
    decreases |bs|
  {
    if |bs| == 0 {
      assert [b] + bs == [b] && [b][..0] == [];
    } else {
      var front, last := bs[..|bs| - 1], bs[|bs| - 1];
      NumberOfFirst(b, front);
      assert ([b] + bs)[..|[b] + bs| - 1] == [b] + front;
      Power2Adds(8, 8 * |front|);
      assert Power2(8) == 0x100 by { assert Power2(4) == 16; Power2Adds(4, 4); }
      assert 8 + 8 * |front| == 8 * |bs|;
      Distributes(b, Power2(8 * |front|), FromBigEndian(front), last);
    }
  }

  lemma Distributes(b: nat, x: nat, y: nat, last: byte)
    requires y < x
    ensures 0x100 * (b * x + y) + last == b * (0x100 * x) + (0x100 * y + last) && 0x100 * y + last < 0x100 * x
  {
  }

  /** The bit length is the number of binary digits of the big-endian number. */
  lemma {:induction false} BitLengthIs(bs: Bytes)
    ensures FromBigEndian(bs) < Power2(BitLength(bs))
    ensures if BitLength(bs) == 0 then FromBigEndian(bs) == 0 else Power2(BitLength(bs) - 1) <= FromBigEndian(bs)
  {
    hide Power2, FromBigEndian, ByteBits;
    assert FromBigEndian([]) == 0 && Power2(0) == 1 by { Smallest(); }
    if |bs| > 0 {
      var b, rest := bs[0], bs[1..];
      assert bs == [b] + rest;
      NumberOfFirst(b, rest);
      if b == 0 {
        BitLengthIs(rest);
      } else {
        LeadingByte(b, FromBigEndian(rest), 8 * |rest|);
      }
    }
  }

  lemma Smallest()
    ensures FromBigEndian([]) == 0 && Power2(0) == 1
  {
  }

  lemma LeadingByte(b: byte, y: nat, n: nat)
    requires b > 0 && y < Power2(n)
    ensures ByteBits(b) > 0 && Power2(n + ByteBits(b) - 1) <= b * Power2(n) + y < Power2(n + ByteBits(b))
  {
    ByteBitsIs(b);
    var k := ByteBits(b);
    hide ByteBits, Power2;
    Power2Adds(k - 1, n);
    Power2Adds(k, n);
    assert n + k == k + n && n + k - 1 == k - 1 + n;
    Scaled(Power2(k - 1), b, Power2(k), Power2(n), y);
  }

  lemma Scaled(low: nat, b: nat, high: nat, x: nat, y: nat)
    requires low <= b < high && y < x
    ensures low * x <= b * x + y < high * x
  {
    assert low * x <= b * x && (b + 1) * x <= high * x;
  }

  /** `m` records how long what is given for `t` is: in bytes for CKA_VALUE_LEN, otherwise in bits. */
  predicate Measures(m: AttrType, t: AttrType) {
    || (m == CKA_VALUE_LEN && t == CKA_VALUE) || (m == CKA_VALUE_BITS && t == CKA_VALUE)
    || (m == CKA_MODULUS_BITS && t == CKA_MODULUS) || (m == CKA_PRIME_BITS && t == CKA_PRIME)
  }

  predicate IsMeasure(m: AttrType, data: Bytes, v: Value) {
    && v.NumberV?
    && if m == CKA_VALUE_LEN then v.n == |data|
       else FromBigEndian(data) < Power2(v.n) && (if v.n == 0 then FromBigEndian(data) == 0 else Power2(v.n - 1) <= FromBigEndian(data))
  }

  lemma WriteMeasures(ctx: Context, t: AttrType, m: AttrType, isPrivate: bool, o: Attrs, p: Payload)
    requires Measures(m, t) && m in o && Write(ctx, t, isPrivate, o, p, Create).rv == OK
    ensures var o' := Write(ctx, t, isPrivate, o, p, Create).attrs; m in o' && IsMeasure(m, p.Data(), o'[m])
  {
    hide IsMeasure, BitLength, Sealed;
    var o' := Write(ctx, t, isPrivate, o, p, Create).attrs;
    MeasureIs(m, p.Data());
    if t == CKA_VALUE { ValueMeasured(ctx, m, isPrivate, o, p); }
    assert m in o' && o'[m] == NumberV(if m == CKA_VALUE_LEN then |p.Data()| else BitLength(p.Data()));
  }

  lemma MeasureIs(m: AttrType, data: Bytes)
    ensures IsMeasure(m, data, NumberV(if m == CKA_VALUE_LEN then |data| else BitLength(data)))
  {
    BitLengthIs(data);
  }

  lemma ValueMeasured(ctx: Context, m: AttrType, isPrivate: bool, o: Attrs, p: Payload)
    requires Measures(m, CKA_VALUE) && m in o && WriteValue(ctx, isPrivate, o, p, Create).rv == OK
    ensures var o' := WriteValue(ctx, isPrivate, o, p, Create).attrs;
            m in o' && o'[m] == NumberV(if m == CKA_VALUE_LEN then |p.Data()| else BitLength(p.Data()))
  {
    hide BitLength, Sealed, KcvOf;
  }

  lemma MaintainedBy(s: AttrType, m: AttrType, t: AttrType)
    requires Measures(m, t) && Touches(s, m)
    ensures s == t || s == m
  {
  }

  lemma {:induction false} AppliedMeasures(job: Job, o: Attrs, es: Template, m: AttrType, t: AttrType)
    requires job.op.Create? && Measures(m, t) && m in o && WellTyped(o) && ApplyEntries(job, o, es).rv == OK && LastEntry(es, t).Some?
    ensures var o' := ApplyEntries(job, o, es).attrs; m in o' && IsMeasure(m, LastEntry(es, t).value.Data(), o'[m])
    decreases |es|
  {
    hide IsMeasure, Write, Touches, KindOf;
    var front, e := es[..|es| - 1], es[|es| - 1];
    assert es == front + [e];
    ApplyJoin(job, o, front, [e]);
    var o1 := ApplyEntries(job, o, front).attrs;
    assert [e][1..] == [] && ApplyEntries(job, o1, [e]) == UpdateEntry(job, o1, e);
    ApplyTidy(job, o, front);
    LastEntryOf(front, e, m);
    if e.t == t {
      WriteMeasures(job.ctx, t, m, job.isPrivate, o1, e.p);
    } else {
      AppliedMeasures(job, o, front, m, t);
      WriteTidy(job.ctx, e.t, job.isPrivate, o1, e.p, job.op, m);
      if e.t == m { NeverReadOnly(job, o, es, m); }
      if Touches(e.t, m) { MaintainedBy(e.t, m, t); }
    }
  }

  /** C_CreateObject records the lengths of what it was given: the bytes of CKA_VALUE, the bits of a value,
      a modulus and a prime. */
  lemma CreatedMeasures(w: World, ctx: Context, caller: Caller, es: Template, m: AttrType, t: AttrType)
    requires Sound(w) && Measures(m, t) && LastEntry(es, t).Some? && CreateObject(w, ctx, caller, es, Create).rv == OK
    requires m in CreateObject(w, ctx, caller, es, Create).world.items[w.next].attrs
    ensures IsMeasure(m, LastEntry(es, t).value.Data(), CreateObject(w, ctx, caller, es, Create).world.items[w.next].attrs[m])
  {
    hide DraftObject, ReadPlan, Sound, Enact, IsPrivate, IsOnToken, SoundDraft, IsMeasure;
    var p := ReadPlan(es, false, DEFAULT_PLAN).plan;
    var d := DraftObject(ctx, caller, es, Create);
    CreateDraftLaw(ctx, caller, es, Create);
    DraftGoes(w, caller, d, p.onToken, p.isPrivate);
    EnactMade(w, caller, d, p.onToken, p.isPrivate);
    DraftMeasures(ctx, caller, es, m, t);
  }

  lemma DraftMeasures(ctx: Context, caller: Caller, es: Template, m: AttrType, t: AttrType)
    requires Measures(m, t) && LastEntry(es, t).Some? && DraftObject(ctx, caller, es, Create).Complete?
    requires m in DraftObject(ctx, caller, es, Create).item.attrs
    ensures IsMeasure(m, LastEntry(es, t).value.Data(), DraftObject(ctx, caller, es, Create).item.attrs[m])
  {
    hide Initialised, SchemaOf, ApplyEntries, CheckValueLast, ClassOf, ReadPlan, HaveWrite, AllMandatoryNamed, IsMeasure, NothingTouches;
    var p := ReadPlan(es, false, DEFAULT_PLAN).plan;
    var c := ClassOf(p.objClass, p.keyType, p.certType).value;
    var job := Job(ctx, SchemaOf(c), p.isPrivate, Create);
    ReorderedEntry(es, t);
    NewObjectTyped(c);
    assert m in Initialised(c, map[]) by { MeasureDeclared(job, Initialised(c, map[]), CheckValueLast(es), m); }
    AppliedMeasures(job, Initialised(c, map[]), CheckValueLast(es), m, t);
  }

  /** Saving gives an object no length that its class lacks. */
  lemma {:induction false} MeasureDeclared(job: Job, o: Attrs, es: Template, m: AttrType)
    requires m == CKA_VALUE_LEN || m == CKA_VALUE_BITS || m == CKA_MODULUS_BITS || m == CKA_PRIME_BITS
    requires job.op.Create? && ApplyEntries(job, o, es).rv == OK && m in ApplyEntries(job, o, es).attrs
    ensures m in o
    decreases |es|
  {
    hide Sealed, BitLength, Refusal, KcvOf, KindOf;
    if |es| > 0 {
      MeasureDeclared(job, UpdateEntry(job, o, es[0]).attrs, es[1..], m);
      MeasureNotAdded(job.ctx, es[0].t, job.isPrivate, o, es[0].p, m);
    }
  }

  lemma MeasureNotAdded(ctx: Context, t: AttrType, isPrivate: bool, o: Attrs, p: Payload, m: AttrType)
    requires m == CKA_VALUE_LEN || m == CKA_VALUE_BITS || m == CKA_MODULUS_BITS || m == CKA_PRIME_BITS
    requires Write(ctx, t, isPrivate, o, p, Create).rv == OK && m in Write(ctx, t, isPrivate, o, p, Create).attrs
    ensures m in o
  {
    hide Sealed, BitLength, KcvOf;
    WriteTidy(ctx, t, isPrivate, o, p, Create, m);
  }

  // ----- what nobody names ------------------------------------------------------------------------------------------

  lemma UntouchedUnless(es: Template, t: AttrType)
    requires LastEntry(es, t).None? && !Maintained(t) && t != CKA_CHECK_VALUE
    ensures NothingTouches(es, t)
  {
    hide LastEntry;
    forall i | 0 <= i < |es| ensures !Touches(es[i].t, t) {
      if es[i].t == t { SomeIsLast(es, es[i]); }
    }
  }

  lemma {:induction false} SomeIsLast(es: Template, e: Entry)
    requires e in es
    ensures LastEntry(es, e.t).Some?
  {
    if es[|es| - 1].t != e.t {
      assert es == es[..|es| - 1] + [es[|es| - 1]];
      SomeIsLast(es[..|es| - 1], e);
    }
  }

  /** An attribute that the template does not name, and that nothing named maintains, is as in a blank object. */
  lemma DraftUnnamed(ctx: Context, caller: Caller, es: Template, op: Op, t: AttrType)
    requires op != Copy && op != Set && DraftObject(ctx, caller, es, op).Complete?
    requires LastEntry(es, t).None? && !Maintained(t) && t != CKA_CHECK_VALUE && t != CKA_LOCAL
    ensures ClassPlanned(es).Some? && SameAt(Initialised(ClassPlanned(es).value, map[]), DraftObject(ctx, caller, es, op).item.attrs, t)
  {
    hide Initialised, SchemaOf, ApplyEntries, CheckValueLast, ClassOf, ReadPlan, HaveWrite, AllMandatoryNamed, NothingTouches, LastEntry;
    var p := ReadPlan(es, false, DEFAULT_PLAN).plan;
    var c := ClassOf(p.objClass, p.keyType, p.certType).value;
    var job := Job(ctx, SchemaOf(c), p.isPrivate, op);
    ReorderedEntry(es, t);
    UntouchedUnless(CheckValueLast(es), t);
    ApplyFrame(job, Initialised(c, map[]), CheckValueLast(es), t);
  }

  predicate StartsTrue(t: AttrType) {
    || t == CKA_MODIFIABLE || t == CKA_COPYABLE || t == CKA_DESTROYABLE || t == CKA_ENCRYPT || t == CKA_DECRYPT || t == CKA_SIGN
    || t == CKA_SIGN_RECOVER || t == CKA_VERIFY || t == CKA_VERIFY_RECOVER || t == CKA_WRAP || t == CKA_UNWRAP || t == CKA_NEVER_EXTRACTABLE
  }

  predicate StartsFalse(t: AttrType) {
    || t == CKA_TOKEN || t == CKA_DERIVE || t == CKA_TRUSTED || t == CKA_SENSITIVE || t == CKA_EXTRACTABLE || t == CKA_ALWAYS_SENSITIVE
    || t == CKA_LOCAL || t == CKA_WRAP_WITH_TRUSTED || t == CKA_ALWAYS_AUTHENTICATE
  }

  predicate BlankAt(c: ClassId, t: AttrType, v: Value) {
    && (StartsTrue(t) ==> v == BoolV(true)) && (StartsFalse(t) ==> v == BoolV(false))
    && (t == CKA_PRIVATE ==> v == BoolV(!c.PublicKey? && !c.X509Certificate? && !c.OpenPgpCertificate?))
    && (v.BoolV? ==> StartsTrue(t) || StartsFalse(t) || t == CKA_PRIVATE)
    && (v.BytesV? ==> v.s == []) && (v.MechanismsV? ==> v.ms == {}) && (v.MapV? ==> v.m == map[])
    && (t == CKA_KEY_GEN_MECHANISM ==> v == NumberV(0xffff_ffff_ffff_ffff))
  }

  /** What an object is like before any template is applied to it. */
  lemma BlankLooks(c: ClassId)
    ensures forall t :: t in Initialised(c, map[]) ==> BlankAt(c, t, Initialised(c, map[])[t])
  {
    hide Initialised, BlankAt;
    forall t | t in Initialised(c, map[]) ensures BlankAt(c, t, Initialised(c, map[])[t]) { BlankAttribute(c, t); }
  }

  lemma BlankAttribute(c: ClassId, t: AttrType)
    requires t in Initialised(c, map[])
    ensures BlankAt(c, t, Initialised(c, map[])[t])
  {
    hide Initialised, Table, Declares;
    InitialisedAt(c, map[], t);
    if t !in ForcePrivacy(c, ForceIdentity(c, map[])) { hide ForceIdentity; }
  }

  // ----- check values that come along ---------------------------------------------------------------------------------

  lemma {:induction false} GivenStamp(token: Token, c: ClassId, op: Op, es: Template)
    requires LastEntry(es, CKA_CHECK_VALUE).None?
    ensures Given(token, c, op, es, CKA_CHECK_VALUE) ==
              match LastEntry(es, CKA_VALUE) case Some(p) => Stamped(token, c, op, p.Data()) case None => None
  {
    if |es| > 0 {
      GivenStamp(token, c, op, es[..|es| - 1]);
      var e, front := es[|es| - 1], LastEntry(es[..|es| - 1], CKA_VALUE);
      if e.t == CKA_VALUE && front.Some? { KcvKnown(token, if c.SecretKey? then c.keyType else 0, e.p.Data(), front.value.Data()); }
      hide KcvOf;
    }
  }

  /** A certificate, and a secret key, created with a value but no check value shows the one that belongs to it. */
  lemma CreatedCheckShows(w: World, ctx: Context, caller: Caller, es: Template)
    requires Sound(w) && ctx.token.Lawful() && ctx.session == caller.state && CreateObject(w, ctx, caller, es, Create).rv == OK
    requires LastEntry(es, CKA_VALUE).Some? && LastEntry(es, CKA_CHECK_VALUE).None?
    ensures Made(w, CreateObject(w, ctx, caller, es, Create))
    ensures var o, value := CreateObject(w, ctx, caller, es, Create).world.items[w.next].attrs, LastEntry(es, CKA_VALUE).value.Data();
            && (Class(o) == CKO_CERTIFICATE ==> Shows(ctx, IsPrivate(o), o, CKA_CHECK_VALUE, ctx.token.certificateCheck(value)))
            && (Class(o) == CKO_SECRET_KEY && KeyType(o) != CKK_GOST28147 ==>
                  && KcvOf(ctx.token, KeyType(o), value).Some?
                  && Shows(ctx, IsPrivate(o), o, CKA_CHECK_VALUE, KcvOf(ctx.token, KeyType(o), value).value))
  {
    hide Shows, Token.Lawful, DraftObject, ReadPlan, Sound, Enact, Made, IsPrivate, IsOnToken, SoundDraft, KcvOf, LastEntry;
    var p := ReadPlan(es, false, DEFAULT_PLAN).plan;
    var d := DraftObject(ctx, caller, es, Create);
    CreateDraftLaw(ctx, caller, es, Create);
    DraftGoes(w, caller, d, p.onToken, p.isPrivate);
    EnactMade(w, caller, d, p.onToken, p.isPrivate);
    DraftStamped(ctx, caller, es);
  }

  lemma DraftStamped(ctx: Context, caller: Caller, es: Template)
    requires ctx.token.Lawful() && ctx.session == caller.state && DraftObject(ctx, caller, es, Create).Complete?
    requires LastEntry(es, CKA_VALUE).Some? && LastEntry(es, CKA_CHECK_VALUE).None?
    ensures var o, value := DraftObject(ctx, caller, es, Create).item.attrs, LastEntry(es, CKA_VALUE).value.Data();
            && (Class(o) == CKO_CERTIFICATE ==> Shows(ctx, IsPrivate(o), o, CKA_CHECK_VALUE, ctx.token.certificateCheck(value)))
            && (Class(o) == CKO_SECRET_KEY && KeyType(o) != CKK_GOST28147 ==>
                  && KcvOf(ctx.token, KeyType(o), value).Some?
                  && Shows(ctx, IsPrivate(o), o, CKA_CHECK_VALUE, KcvOf(ctx.token, KeyType(o), value).value))
  {
    hide Shows, Token.Lawful, Initialised, SchemaOf, ApplyEntries, CheckValueLast, ReadPlan, HaveWrite, AllMandatoryNamed, IsPrivate, IsOnToken, KcvOf, LastEntry, OfClass, Healthy, StoredClass, Given, Form;
    CreateDraftLaw(ctx, caller, es, Create);
    var p := ReadPlan(es, false, DEFAULT_PLAN).plan;
    var c := ClassOf(p.objClass, p.keyType, p.certType).value;
    var job, all := Job(ctx, SchemaOf(c), p.isPrivate, Create), CheckValueLast(es);
    var o := ApplyEntries(job, Initialised(c, map[]), all).attrs;
    if p.isPrivate { WriterIsLoggedIn(caller.state, p.onToken, p.isPrivate); }
    BlankOfClass(es);
    ApplyKeepsIdentity(job, Initialised(c, map[]), all);
    SameClass(Initialised(c, map[]), o, c);
    ReorderedEntry(es, CKA_VALUE);
    ReorderedEntry(es, CKA_CHECK_VALUE);
    GivenStamp(ctx.token, c, Create, all);
    ValueIsValue();
    hide IsText;
    AcceptedGive(job, Initialised(c, map[]), c, all, CKA_CHECK_VALUE);
    SecretStamps(ctx.token, p, c, LastEntry(es, CKA_VALUE).value.Data());
    hide Stamped;
    StampShows(ctx, p.isPrivate, c, o, MarkCreated(o, p.objClass), LastEntry(es, CKA_VALUE).value.Data());
  }

  lemma SecretStamps(token: Token, p: Plan, c: ClassId, value: Bytes)
    requires ClassOf(p.objClass, p.keyType, p.certType) == Some(c)
    ensures c.SecretKey? && c.keyType != CKK_GOST28147 ==> Stamped(token, c, Create, value).Some?
  {
  }

  lemma StampShows(ctx: Context, isPrivate: bool, c: ClassId, o: Attrs, o': Attrs, value: Bytes)
    requires ctx.token.Lawful() && (isPrivate ==> ctx.session.LoggedIn()) && OfClass(o, c)
    requires SameAt(o, o', CKA_CLASS) && SameAt(o, o', CKA_KEY_TYPE) && SameAt(o, o', CKA_CHECK_VALUE)
    requires var x := Stamped(ctx.token, c, Create, value);
             x.Some? ==> CKA_CHECK_VALUE in o && o[CKA_CHECK_VALUE] == Form(ctx.token, isPrivate, x.value)
    requires c.SecretKey? && c.keyType != CKK_GOST28147 ==> Stamped(ctx.token, c, Create, value).Some?
    ensures Class(o') == CKO_CERTIFICATE ==> Shows(ctx, isPrivate, o', CKA_CHECK_VALUE, ctx.token.certificateCheck(value))
    ensures Class(o') == CKO_SECRET_KEY && KeyType(o') != CKK_GOST28147 ==>
              && KcvOf(ctx.token, KeyType(o'), value).Some?
              && Shows(ctx, isPrivate, o', CKA_CHECK_VALUE, KcvOf(ctx.token, KeyType(o'), value).value)
  {
    hide KcvOf, Token.Lawful, Form;
    var x := Stamped(ctx.token, c, Create, value);
    if x.Some? { DecodesForm(ctx, isPrivate, x.value); }
  }

  // ----- what a template plans ----------------------------------------------------------------------------------------

  /** The plan of a template goes by the last entry that has the right size. */
  lemma {:induction false} LastSizedIs(es: Template, t: AttrType, size: nat, p: Payload)
    ensures LastSized(es, t, size) == Some(p) <==>
              exists i :: 0 <= i < |es| && es[i] == Entry(t, p) && p.Length() == size
                     && forall j :: i < j < |es| && es[j].t == t ==> es[j].p.Length() != size
  {
    hide Payload.Length;
    if |es| > 0 {
      var front, e := es[..|es| - 1], es[|es| - 1];
      LastSizedIs(front, t, size, p);
      if i :| 0 <= i < |es| && es[i] == Entry(t, p) && p.Length() == size && forall j :: i < j < |es| && es[j].t == t ==> es[j].p.Length() != size {
        if i < |es| - 1 {
          assert front[i] == Entry(t, p);
          assert !(e.t == t && e.p.Length() == size);
        }
      }
      if i :| 0 <= i < |front| && front[i] == Entry(t, p) && p.Length() == size && forall j :: i < j < |front| && front[j].t == t ==> front[j].p.Length() != size {
        if !(e.t == t && e.p.Length() == size) {
          assert es[i] == Entry(t, p);
          forall j | i < j < |es| && es[j].t == t ensures es[j].p.Length() != size { if j < |es| - 1 { assert front[j] == es[j]; } }
        }
      }
    }
  }

  predicate HasNumber(es: Template, t: AttrType) { LastSized(es, t, 8).Some? }

  /** C_CreateObject needs to be told the class, the type of a key and that of a certificate; it is incomplete without.
      No call takes more than 32 entries, of which the library itself supplies four when it makes a key. */
  lemma PlanIsComplete(w: World, ctx: Context, caller: Caller, es: Template)
    ensures var objClass := LastNumber(es, CKA_CLASS, 0);
            var complete := && HasNumber(es, CKA_CLASS) && (objClass in {2, 3, 4} ==> HasNumber(es, CKA_KEY_TYPE))
                            && (objClass == 1 ==> HasNumber(es, CKA_CERTIFICATE_TYPE));
            var r := CreateObject(w, ctx, caller, es, Create);
            && (ReadPlan(es, false, DEFAULT_PLAN).rv == if complete then OK else TEMPLATE_INCOMPLETE)
            && (!complete ==> r == Refuse(w, TEMPLATE_INCOMPLETE))
            && (|es| > 32 ==> r.rv != OK && r.world == w)
  {
    hide LastSized, ClassOf, SaveTemplate, SchemaOf, Initialised, CheckValueLast, LastFlag;
  }

  lemma TooManyEntries(w: World, ctx: Context, caller: Caller, p: Plan, es: Template, dropCheck: bool, op: Op, origin: Origin, contribute: Attrs -> Option<Attrs>)
    requires |es| > 28
    ensures MakeKey(w, ctx, caller, p, es, dropCheck, op, origin, contribute) == Refuse(w, TEMPLATE_INCONSISTENT)
  {
    assert |Header(p)| == 4;
  }
}
