/** The tables of the object classes, read the other way round: which attributes each operation needs, refuses,
    or may change, by name and class. */
module Footnotes {
  import opened Cryptoki
  import opened Attributes
  import opened ObjectClasses
  import opened AttributeLaws
  import opened Templates
  import opened ObjectStore
  import opened ObjectLaws
  import opened Runs
  import opened CheckValues
  import opened Contents

  // ----- the attributes by name -----------------------------------------------------------------------------

  predicate IsCertificate(c: ClassId) { c.X509Certificate? || c.OpenPgpCertificate? }

  /** Kept by the library: the history of a key, and lengths that follow from what is given. */
  predicate IsHistory(t: AttrType) { t == CKA_LOCAL || t == CKA_KEY_GEN_MECHANISM || t == CKA_ALWAYS_SENSITIVE || t == CKA_NEVER_EXTRACTABLE }

  predicate IsLength(t: AttrType) { t == CKA_MODULUS_BITS || t == CKA_PRIME_BITS || t == CKA_VALUE_LEN || t == CKA_VALUE_BITS }

  /** The parts of an RSA private key, and the seed of an ML-DSA key. */
  predicate IsPrivatePart(t: AttrType) {
    || t == CKA_PRIVATE_EXPONENT || t == CKA_PRIME_1 || t == CKA_PRIME_2 || t == CKA_EXPONENT_1 || t == CKA_EXPONENT_2
    || t == CKA_COEFFICIENT || t == CKA_SEED
  }

  predicate IsDomain(t: AttrType) {
    || t == CKA_PRIME || t == CKA_SUBPRIME || t == CKA_BASE || t == CKA_EC_PARAMS || t == CKA_GOSTR3410_PARAMS
    || t == CKA_GOSTR3411_PARAMS || t == CKA_PARAMETER_SET
  }

  predicate IsUsage(t: AttrType) {
    || t == CKA_ENCRYPT || t == CKA_DECRYPT || t == CKA_SIGN || t == CKA_SIGN_RECOVER || t == CKA_VERIFY || t == CKA_VERIFY_RECOVER
    || t == CKA_WRAP || t == CKA_UNWRAP || t == CKA_DERIVE
  }

  /** What C_CreateObject must be given: the class, what identifies a key or certificate, and the key itself. */
  predicate NeededToCreate(c: ClassId, t: AttrType) {
    || t == CKA_CLASS || t == CKA_KEY_TYPE || t == CKA_CERTIFICATE_TYPE
    || IsDomain(t) || t == CKA_MODULUS || t == CKA_EC_POINT || t == CKA_PRIVATE_EXPONENT
    || (IsCertificate(c) && (t == CKA_SUBJECT || t == CKA_VALUE))
    || ((c.PublicKey? || c.PrivateKey? || c.SecretKey?) && t == CKA_VALUE)
    || (c.PublicKey? && t == CKA_PUBLIC_EXPONENT) || (c.SecretKey? && t == CKA_GOST28147_PARAMS)
  }

  predicate RefusedToCreate(t: AttrType) { IsHistory(t) || IsLength(t) }

  predicate NeededToGenerate(c: ClassId, t: AttrType) {
    || t == CKA_MODULUS_BITS || t == CKA_PRIME_BITS || t == CKA_VALUE_LEN
    || (c.PublicKey? && IsDomain(t)) || (c.SecretKey? && t == CKA_GOST28147_PARAMS)
  }

  predicate RefusedToGenerate(c: ClassId, t: AttrType) {
    || IsHistory(t) || IsPrivatePart(t) || t == CKA_MODULUS || t == CKA_EC_POINT
    || ((c.PublicKey? || c.PrivateKey? || c.SecretKey?) && t == CKA_VALUE)
    || (c.PrivateKey? && (IsDomain(t) || t == CKA_PUBLIC_EXPONENT || t == CKA_GOST28147_PARAMS))
    || (c.DomainParameters? && (t == CKA_PRIME || t == CKA_SUBPRIME || t == CKA_BASE))
  }

  predicate NeededToUnwrap(c: ClassId, t: AttrType) {
    || ((c.PublicKey? || c.PrivateKey? || c.SecretKey?) && t == CKA_KEY_TYPE) || (c.SecretKey? && t == CKA_GOST28147_PARAMS)
  }

  predicate RefusedToUnwrap(c: ClassId, t: AttrType) {
    || t == CKA_KEY_GEN_MECHANISM || t == CKA_ALWAYS_SENSITIVE || t == CKA_NEVER_EXTRACTABLE || IsPrivatePart(t) || t == CKA_VALUE_BITS
    || ((c.PublicKey? || c.PrivateKey? || c.SecretKey?) && t == CKA_LOCAL)
    || ((c.PrivateKey? || c.SecretKey?) && t == CKA_VALUE)
    || (c.PrivateKey? && (IsDomain(t) || t == CKA_MODULUS || t == CKA_PUBLIC_EXPONENT || t == CKA_GOST28147_PARAMS))
    || (c == SecretKey(CKK_AES) && t == CKA_VALUE_LEN)
  }

  /** What C_SetAttributeValue may change; C_CopyObject may also settle where the copy is and what may be done to it. */
  predicate Changeable(c: ClassId, t: AttrType) {
    || t == CKA_LABEL || t == CKA_ID || t == CKA_ISSUER || t == CKA_SERIAL_NUMBER || IsUsage(t)
    || t == CKA_SENSITIVE || t == CKA_EXTRACTABLE || t == CKA_WRAP_WITH_TRUSTED || t == CKA_GOSTR3411_PARAMS
    || ((c.PublicKey? || c.PrivateKey? || c.SecretKey?) && (t == CKA_START_DATE || t == CKA_END_DATE))
    || ((c.PublicKey? || c.PrivateKey?) && (t == CKA_SUBJECT || t == CKA_GOST28147_PARAMS))
    || (c.PrivateKey? && t == CKA_PUBLIC_KEY_INFO) || (c.SecretKey? && t == CKA_CHECK_VALUE)
  }

  predicate Settleable(t: AttrType) { t == CKA_TOKEN || t == CKA_PRIVATE || t == CKA_MODIFIABLE || t == CKA_DESTROYABLE }

  // ----- the footnotes ------------------------------------------------------------------------------------------

  predicate IsKey(c: ClassId) { c.PublicKey? || c.PrivateKey? || c.SecretKey? }

  /** The footnotes that a class adds to an attribute. */
  function Added(c: ClassId, t: AttrType): set<Check> {
    match c
    case DataObject => {}
    case X509Certificate => if t == CKA_SUBJECT then {Ck1} else if t == CKA_VALUE then {Ck1, Ck14} else {}
    case OpenPgpCertificate => if t == CKA_SUBJECT then {Ck1} else if t == CKA_VALUE then {Ck1, Ck14} else {}
    case PublicKey(_) =>
      if IsDomain(t) then {Ck3} else if t == CKA_VALUE then {Ck1, Ck4} else if t == CKA_PUBLIC_EXPONENT then {Ck1}
      else if t == CKA_SUBJECT || t == CKA_GOST28147_PARAMS then {Ck8} else AddedToKeys(t)
    case PrivateKey(_) =>
      if IsDomain(t) || t == CKA_PUBLIC_EXPONENT then {Ck4, Ck6} else if t == CKA_MODULUS then {Ck6}
      else if t == CKA_VALUE then {Ck1, Ck4, Ck6, Ck7} else if t == CKA_SUBJECT || t == CKA_PUBLIC_KEY_INFO then {Ck8}
      else if t == CKA_GOST28147_PARAMS then {Ck4, Ck6, Ck8} else AddedToKeys(t)
    case SecretKey(k) =>
      if t == CKA_VALUE then {Ck1, Ck4, Ck6, Ck7} else if t == CKA_VALUE_LEN && k == CKK_AES then {Ck6}
      else if t == CKA_CHECK_VALUE then {Ck8} else if t == CKA_GOST28147_PARAMS then {Ck1, Ck3, Ck5} else AddedToKeys(t)
    case DomainParameters(_) => if t == CKA_PRIME || t == CKA_SUBPRIME || t == CKA_BASE then {Ck4} else {}
  }

  function AddedToKeys(t: AttrType): set<Check> {
    if t == CKA_KEY_TYPE then {Ck5} else if t == CKA_START_DATE || t == CKA_END_DATE then {Ck8} else if t == CKA_LOCAL then {Ck6} else {}
  }

  predicate AsAdded(c: ClassId, ds: seq<Decl>) { forall i :: 0 <= i < |ds| ==> ds[i].extra == Added(c, ds[i].t) }

  lemma CommonAdded(c: ClassId)
    ensures AsAdded(c, ANY_OBJECT)
  {
  }

  lemma KeysAdded(c: ClassId)
    requires IsKey(c)
    ensures AsAdded(c, ANY_KEY)
  {
  }

  lemma CertificatesAdded(c: ClassId)
    requires IsCertificate(c)
    ensures AsAdded(c, CERTIFICATE) && AsAdded(c, OPENPGP_CERTIFICATE) && AsAdded(c, X509_CERTIFICATE)
  {
  }

  lemma PublicAdded(k: nat)
    ensures AsAdded(PublicKey(k), PUBLIC_KEY) && AsAdded(PublicKey(k), PublicKeyPart(k))
  {
  }

  lemma PrivateAdded(k: nat)
    ensures AsAdded(PrivateKey(k), PRIVATE_KEY)
  {
  }

  lemma PrivatePartAdded(k: nat)
    ensures AsAdded(PrivateKey(k), PrivateKeyPart(k))
  {
  }

  lemma SecretAdded(k: nat)
    ensures AsAdded(SecretKey(k), SECRET_KEY) && AsAdded(SecretKey(k), SecretKeyPart(k))
  {
  }

  lemma DomainAdded(k: nat)
    ensures AsAdded(DomainParameters(k), DomainPart(k)) && AsAdded(DataObject, DATA_OBJECT)
  {
  }

  lemma TableAdded(c: ClassId)
    ensures AsAdded(c, Table(c))
  {
    hide Added, ANY_OBJECT, ANY_KEY, PUBLIC_KEY, PublicKeyPart, DomainPart, PRIVATE_KEY, PrivateKeyPart, SECRET_KEY, SecretKeyPart;
    CommonAdded(c);
    match c
    case DataObject => DomainAdded(0);
    case X509Certificate => CertificatesAdded(c);
    case OpenPgpCertificate => CertificatesAdded(c);
    case PublicKey(k) =>
      KeysAdded(c);
      PublicAdded(k);
    case PrivateKey(k) =>
      KeysAdded(c);
      PrivateAdded(k);
      PrivatePartAdded(k);
    case SecretKey(k) =>
      KeysAdded(c);
      SecretAdded(k);
    case DomainParameters(k) => DomainAdded(k);
  }

  lemma ChecksAre(c: ClassId, t: AttrType)
    requires t in SchemaOf(c)
    ensures SchemaOf(c)[t].checks == BaseChecks(t) + Added(c, t)
  {
    hide Table, BaseChecks, Added;
    TableAdded(c);
    SchemaSays(Table(c), t);
  }

  lemma CreateNotes(c: ClassId, t: AttrType)
    ensures Ck1 in BaseChecks(t) + Added(c, t) <==> NeededToCreate(c, t)
    ensures Ck2 in BaseChecks(t) + Added(c, t) <==> RefusedToCreate(t)
  {
  }

  lemma GenerateNotes(c: ClassId, t: AttrType)
    ensures Ck3 in BaseChecks(t) + Added(c, t) <==> NeededToGenerate(c, t)
    ensures Ck4 in BaseChecks(t) + Added(c, t) <==> RefusedToGenerate(c, t)
  {
  }

  lemma UnwrapNotes(c: ClassId, t: AttrType)
    ensures Ck5 in BaseChecks(t) + Added(c, t) <==> NeededToUnwrap(c, t)
    ensures Ck6 in BaseChecks(t) + Added(c, t) <==> RefusedToUnwrap(c, t)
  {
  }

  lemma ChangeNotes(c: ClassId, t: AttrType)
    ensures Ck8 in BaseChecks(t) + Added(c, t) || Ck11 in BaseChecks(t) + Added(c, t) <==> Changeable(c, t)
    ensures Ck17 in BaseChecks(t) + Added(c, t) <==> Settleable(t)
  {
  }

  /** Of every class, what each operation needs, refuses and may write. */
  lemma NotesExactly(c: ClassId, t: AttrType)
    requires t in SchemaOf(c)
    ensures var spec := SchemaOf(c)[t];
            && (spec.Mandatory(Create) <==> NeededToCreate(c, t)) && (spec.Prohibited(Create) <==> RefusedToCreate(t))
            && (spec.Mandatory(Generate) <==> NeededToGenerate(c, t)) && (spec.Prohibited(Generate) <==> RefusedToGenerate(c, t))
            && (spec.Mandatory(Unwrap) <==> NeededToUnwrap(c, t)) && (spec.Prohibited(Unwrap) <==> RefusedToUnwrap(c, t))
            && (spec.Writable(Set) <==> Changeable(c, t)) && (spec.Writable(Copy) <==> Changeable(c, t) || Settleable(t))
            && (forall op: Op :: op.Set? || op.Copy? || op.Derive? ==> !spec.Mandatory(op) && !spec.Prohibited(op))
            && (forall op: Op :: !op.Set? && !op.Copy? ==> spec.Writable(op))
  {
    hide SchemaOf, BaseChecks, Added, NeededToCreate, RefusedToCreate, NeededToGenerate, RefusedToGenerate, NeededToUnwrap, RefusedToUnwrap, Changeable, Settleable;
    ChecksAre(c, t);
    CreateNotes(c, t);
    GenerateNotes(c, t);
    UnwrapNotes(c, t);
    ChangeNotes(c, t);
  }

  // ----- what the calls do with them --------------------------------------------------------------------------------

  lemma {:induction false} NamedIsLast(es: Template, t: AttrType)
    ensures Named(es, t) <==> LastEntry(es, t).Some?
  {
    if Named(es, t) {
      var i :| 0 <= i < |es| && es[i].t == t;
      SomeIsLast(es, es[i]);
    } else if LastEntry(es, t).Some? {
      LastIsNamed(es, t);
    }
  }

  /** C_CreateObject succeeds only if the template names what the class needs, and nothing that it refuses. */
  lemma CreatedNamesNeeded(w: World, ctx: Context, caller: Caller, es: Template)
    requires Sound(w) && CreateObject(w, ctx, caller, es, Create).rv == OK
    ensures w.next in CreateObject(w, ctx, caller, es, Create).world.items
    ensures var o := CreateObject(w, ctx, caller, es, Create).world.items[w.next].attrs;
            && StoredClass(o).Some?
            && var c := StoredClass(o).value;
               && (forall t :: t in SchemaOf(c) && NeededToCreate(c, t) ==> LastEntry(es, t).Some?)
               && (forall t :: LastEntry(es, t).Some? ==> t in SchemaOf(c) && !RefusedToCreate(t))
  {
    hide DraftObject, ReadPlan, Sound, Enact, IsPrivate, IsOnToken, SoundDraft, StoredClass, SchemaOf, NeededToCreate, RefusedToCreate, LastEntry, ClassOf;
    var p := ReadPlan(es, false, DEFAULT_PLAN).plan;
    var d := DraftObject(ctx, caller, es, Create);
    CreateDraftLaw(ctx, caller, es, Create);
    DraftGoes(w, caller, d, p.onToken, p.isPrivate);
    EnactMade(w, caller, d, p.onToken, p.isPrivate);
    DraftNames(ctx, caller, es);
  }

  lemma DraftNames(ctx: Context, caller: Caller, es: Template)
    requires DraftObject(ctx, caller, es, Create).Complete?
    ensures var p := ReadPlan(es, false, DEFAULT_PLAN).plan;
            && ClassOf(p.objClass, p.keyType, p.certType).Some?
            && var c := ClassOf(p.objClass, p.keyType, p.certType).value;
               && (forall t :: t in SchemaOf(c) && NeededToCreate(c, t) ==> LastEntry(es, t).Some?)
               && (forall t :: LastEntry(es, t).Some? ==> t in SchemaOf(c) && !RefusedToCreate(t))
  {
    hide Initialised, SchemaOf, ApplyEntries, CheckValueLast, ReadPlan, HaveWrite, NeededToCreate, RefusedToCreate, LastEntry, ClassOf, AttrSpec.Mandatory, AttrSpec.Prohibited, AttrSpec.Writable;
    var p := ReadPlan(es, false, DEFAULT_PLAN).plan;
    var c := ClassOf(p.objClass, p.keyType, p.certType).value;
    var job, ordered := Job(ctx, SchemaOf(c), p.isPrivate, Create), CheckValueLast(es);
    forall t ensures Named(ordered, t) <==> LastEntry(es, t).Some? {
      ReorderedEntry(es, t);
      NamedIsLast(ordered, t);
    }
    forall t | t in SchemaOf(c)
      ensures (SchemaOf(c)[t].Mandatory(Create) <==> NeededToCreate(c, t)) && (SchemaOf(c)[t].Prohibited(Create) <==> RefusedToCreate(t))
    {
      NotesExactly(c, t);
    }
    forall t | LastEntry(es, t).Some? ensures t in SchemaOf(c) && !SchemaOf(c)[t].Prohibited(Create) {
      AcceptedTemplate(job, Initialised(c, map[]), ordered, p.onToken, t);
    }
  }

  /** What saving may change: attributes that the operation may write, and those that such a write maintains. */
  lemma {:induction false} AppliedChangesOnly(job: Job, o: Attrs, es: Template, a: AttrType)
    requires forall t :: t in job.schema && Touches(t, a) ==> job.schema[t].Prohibited(job.op) || !job.schema[t].Writable(job.op)
    ensures SameAt(o, ApplyEntries(job, o, es).attrs, a)
    decreases |es|
  {
    hide Write, Touches, AttrSpec.Prohibited, AttrSpec.Writable;
    if |es| > 0 {
      var first := UpdateEntry(job, o, es[0]);
      WriteTidy(job.ctx, es[0].t, job.isPrivate, o, es[0].p, job.op, a);
      if first.rv == OK { AppliedChangesOnly(job, first.attrs, es[1..], a); }
    }
  }

  /** The claims change with the flags that they are about. */
  predicate FollowsChange(t: AttrType) { t == CKA_ALWAYS_SENSITIVE || t == CKA_NEVER_EXTRACTABLE }

  lemma TouchedByChange(c: ClassId, t: AttrType, a: AttrType)
    requires Touches(t, a) && (Changeable(c, t) || Settleable(t))
    ensures Changeable(c, a) || Settleable(a) || FollowsChange(a)
    ensures Changeable(c, t) ==> Changeable(c, a) || FollowsChange(a)
  {
  }

  lemma ChangesOnly(job: Job, c: ClassId, o: Attrs, es: Template, rollback: bool, a: AttrType)
    requires job.op.Changing() && job.schema == SchemaOf(c)
    ensures SameAt(o, SaveTemplate(job, o, es, rollback).attrs, a) || Changeable(c, a) || FollowsChange(a) || (job.op.Copy? && Settleable(a))
  {
    hide SchemaOf, ApplyEntries, Changeable, Settleable, FollowsChange, Touches, AttrSpec.Mandatory, AttrSpec.Prohibited, AttrSpec.Writable;
    if !(Changeable(c, a) || FollowsChange(a) || (job.op.Copy? && Settleable(a))) {
      forall t | t in job.schema && Touches(t, a) ensures !job.schema[t].Writable(job.op) {
        NotesExactly(c, t);
        if Changeable(c, t) || Settleable(t) { TouchedByChange(c, t, a); }
        if Settleable(t) { SettleableAlone(t, a); }
      }
      AppliedChangesOnly(job, o, es, a);
    }
  }

  lemma SettleableAlone(t: AttrType, a: AttrType)
    requires Touches(t, a) && Settleable(t)
    ensures t == a
  {
  }

  /** C_SetAttributeValue, whatever it returns, changes only attributes that the class lets it change, and the
      claims that follow from them. */
  lemma SetChangesOnly(w: World, ctx: Context, caller: Caller, h: Handle, es: Template, id: Id, a: AttrType)
    requires Sound(w) && id in w.items
    ensures id in SetAttributeValue(w, ctx, caller, h, es).world.items && StoredClass(w.items[id].attrs).Some?
    ensures var o, o' := w.items[id].attrs, SetAttributeValue(w, ctx, caller, h, es).world.items[id].attrs;
            SameAt(o, o', a) || Changeable(StoredClass(o).value, a) || FollowsChange(a)
  {
    hide SoundHandles, SchemaOf, Initialised, SaveTemplate, Changeable, FollowsChange, StoredClass, HaveWrite, Modifiable, Whole, WellTyped;
    var it := w.items[id];
    assert SoundItem(it, id);
    ClassKnown(it.attrs);
    var c := StoredClass(it.attrs).value;
    Reinitialised(c, it.attrs);
    ChangesOnly(Job(ctx, SchemaOf(c), IsPrivate(it.attrs), Set), c, it.attrs, es, it.place.OnToken?, a);
  }

  lemma ClassKnown(o: Attrs)
    requires Healthy(o)
    ensures StoredClass(o).Some?
  {
  }
}
