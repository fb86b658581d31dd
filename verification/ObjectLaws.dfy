/** What holds of every object the library makes, whatever its class: its attributes are those of
    its class, correctly typed, and its claims about the past are consistent with its present. */
module ObjectLaws {
  import opened Cryptoki
  import opened Attributes
  import opened ObjectClasses
  import opened AttributeLaws
  import opened Templates
  import opened ObjectStore

  // ----- initialisation -----------------------------------------------------------------------

  predicate Declares(ds: seq<Decl>, t: AttrType) { exists i :: 0 <= i < |ds| && ds[i].t == t }

  lemma {:induction false} DefaultsFilled(ds: seq<Decl>, o: Attrs, t: AttrType)
    ensures t in FillDefaults(ds, o) <==> t in o || Declares(ds, t)
    ensures t in FillDefaults(ds, o) ==> FillDefaults(ds, o)[t] == if t in o then o[t] else DefaultOf(t)
    decreases |ds|
  {
    if |ds| > 0 {
      var o1 := if ds[0].t in o then o else o[ds[0].t := DefaultOf(ds[0].t)];
      DefaultsFilled(ds[1..], o1, t);
      assert Declares(ds, t) <==> ds[0].t == t || Declares(ds[1..], t) by {
        if i :| 0 <= i < |ds| && ds[i].t == t && i > 0 { assert ds[1..][i - 1] == ds[i]; }
        if i :| 0 <= i < |ds[1..]| && ds[1..][i].t == t { assert ds[i + 1].t == t; }
      }
    }
  }

  lemma DefaultAdmitted(t: AttrType)
    ensures KindOf(t).Admits(DefaultOf(t))
  {
  }

  /** The object has every attribute of its class. */
  ghost predicate Whole(o: Attrs) {
    && StoredClass(o).Some?
    && forall t :: Declares(Table(StoredClass(o).value), t) ==> t in o
  }

  /** The class can be read back from the attributes that initialisation forces. */
  lemma ForcedIdentity(c: ClassId, objClass: nat, keyType: nat, certType: nat, o: Attrs)
    requires ClassOf(objClass, keyType, certType) == Some(c)
    ensures StoredClass(ForceIdentity(c, o)) == Some(c)
  {
  }

  lemma InTable(c: ClassId, t: AttrType, i: nat)
    requires i < |Table(c)| && Table(c)[i].t == t
    ensures Declares(Table(c), t)
  {
  }

  lemma DeclaresJoin(ds: seq<Decl>, es: seq<Decl>, t: AttrType)
    ensures Declares(ds + es, t) <==> Declares(ds, t) || Declares(es, t)
  {
    if i :| 0 <= i < |ds| && ds[i].t == t { assert (ds + es)[i].t == t; }
    if i :| 0 <= i < |es| && es[i].t == t { assert (ds + es)[|ds| + i].t == t; }
  }

  lemma TableParts(c: ClassId, t: AttrType)
    ensures Declares(Table(c), t) <==> Declares(ANY_OBJECT, t) || Declares(OwnPart(c), t)
    ensures c.PublicKey? ==>
      (Declares(OwnPart(c), t) <==> Declares(ANY_KEY, t) || Declares(PUBLIC_KEY, t) || Declares(PublicKeyPart(c.keyType), t))
    ensures c.PrivateKey? ==>
      (Declares(OwnPart(c), t) <==> Declares(ANY_KEY, t) || Declares(PRIVATE_KEY, t) || Declares(PrivateKeyPart(c.keyType), t))
    ensures c.SecretKey? ==>
      (Declares(OwnPart(c), t) <==> Declares(ANY_KEY, t) || Declares(SECRET_KEY, t) || Declares(SecretKeyPart(c.keyType), t))
  {
    DeclaresJoin(ANY_OBJECT, OwnPart(c), t);
    if c.PublicKey? {
      DeclaresJoin(ANY_KEY + PUBLIC_KEY, PublicKeyPart(c.keyType), t);
      DeclaresJoin(ANY_KEY, PUBLIC_KEY, t);
    } else if c.PrivateKey? {
      DeclaresJoin(ANY_KEY + PRIVATE_KEY, PrivateKeyPart(c.keyType), t);
      DeclaresJoin(ANY_KEY, PRIVATE_KEY, t);
    } else if c.SecretKey? {
      DeclaresJoin(ANY_KEY + SECRET_KEY, SecretKeyPart(c.keyType), t);
      DeclaresJoin(ANY_KEY, SECRET_KEY, t);
    }
  }

  predicate MakesClaims(c: ClassId) { c.PrivateKey? || c.SecretKey? }

  /** Private and secret keys, and they alone, have the attributes that tell how well a key is
      and was protected. */
  lemma ClaimsDeclared(c: ClassId)
    requires MakesClaims(c)
    ensures forall t :: t in {CKA_SENSITIVE, CKA_EXTRACTABLE, CKA_ALWAYS_SENSITIVE, CKA_NEVER_EXTRACTABLE} ==> Declares(Table(c), t)
  {
    hide Table, Declares;
    forall t | t in {CKA_SENSITIVE, CKA_EXTRACTABLE, CKA_ALWAYS_SENSITIVE, CKA_NEVER_EXTRACTABLE} ensures Declares(Table(c), t) {
      if c.PrivateKey? { PrivateClaims(c.keyType, t); } else { SecretClaims(c.keyType, t); }
    }
  }

  lemma PrivateClaims(k: nat, t: AttrType)
    requires t in {CKA_SENSITIVE, CKA_EXTRACTABLE, CKA_ALWAYS_SENSITIVE, CKA_NEVER_EXTRACTABLE}
    ensures Declares(Table(PrivateKey(k)), t)
  {
    hide PrivateKeyPart;
    InTable(PrivateKey(k), t, if t == CKA_SENSITIVE then 16 else if t == CKA_EXTRACTABLE then 21 else if t == CKA_ALWAYS_SENSITIVE then 22 else 23);
  }

  lemma SecretClaims(k: nat, t: AttrType)
    requires t in {CKA_SENSITIVE, CKA_EXTRACTABLE, CKA_ALWAYS_SENSITIVE, CKA_NEVER_EXTRACTABLE}
    ensures Declares(Table(SecretKey(k)), t)
  {
    hide SecretKeyPart;
    InTable(SecretKey(k), t, if t == CKA_SENSITIVE then 15 else if t == CKA_EXTRACTABLE then 22 else if t == CKA_ALWAYS_SENSITIVE then 23 else 24);
  }

  /** The attributes that only keys to be protected have. */
  predicate IsClaim(t: AttrType) {
    t == CKA_SENSITIVE || t == CKA_EXTRACTABLE || t == CKA_ALWAYS_SENSITIVE || t == CKA_NEVER_EXTRACTABLE
  }

  predicate Claimless(ds: seq<Decl>) { forall i :: 0 <= i < |ds| ==> !IsClaim(ds[i].t) }

  lemma ClaimlessParts(k: nat)
    ensures Claimless(ANY_OBJECT) && Claimless(ANY_KEY) && Claimless(PUBLIC_KEY) && Claimless(PublicKeyPart(k))
    ensures Claimless(DATA_OBJECT) && Claimless(CERTIFICATE) && Claimless(DomainPart(k))
    ensures Claimless(OPENPGP_CERTIFICATE) && Claimless(X509_CERTIFICATE)
  {
  }

  lemma NoClaimsDeclared(c: ClassId, t: AttrType)
    requires !MakesClaims(c) && IsClaim(t)
    ensures !Declares(Table(c), t)
  {
    hide ANY_OBJECT, ANY_KEY, PUBLIC_KEY, PublicKeyPart, DATA_OBJECT, CERTIFICATE, DomainPart, OPENPGP_CERTIFICATE, X509_CERTIFICATE;
    TableParts(c, t);
    match c
    case PublicKey(k) => ClaimlessParts(k);
    case DomainParameters(k) => ClaimlessParts(k);
    case DataObject => ClaimlessParts(0);
    case X509Certificate =>
      ClaimlessParts(0);
      DeclaresJoin(CERTIFICATE, X509_CERTIFICATE, t);
    case OpenPgpCertificate =>
      ClaimlessParts(0);
      DeclaresJoin(CERTIFICATE, OPENPGP_CERTIFICATE, t);
  }

  lemma EveryObjectHas(c: ClassId)
    ensures forall t :: t in {CKA_CLASS, CKA_TOKEN, CKA_PRIVATE, CKA_MODIFIABLE, CKA_COPYABLE} ==> Declares(Table(c), t)
  {
    InTable(c, CKA_CLASS, 0);
    InTable(c, CKA_TOKEN, 1);
    InTable(c, CKA_PRIVATE, 2);
    InTable(c, CKA_MODIFIABLE, 3);
    InTable(c, CKA_COPYABLE, 5);
  }

  lemma KeyTypeDeclared(c: ClassId)
    ensures (MakesClaims(c) || c.PublicKey? || c.DomainParameters?) ==> Declares(Table(c), CKA_KEY_TYPE)
    ensures (c.X509Certificate? || c.OpenPgpCertificate?) ==> Declares(Table(c), CKA_CERTIFICATE_TYPE)
  {
    if !c.DataObject? { InTable(c, if c.X509Certificate? || c.OpenPgpCertificate? then CKA_CERTIFICATE_TYPE else CKA_KEY_TYPE, 7); }
  }

  /** What initialisation makes of one attribute. */
  lemma InitialisedAt(c: ClassId, o: Attrs, t: AttrType)
    ensures var f, i := ForcePrivacy(c, ForceIdentity(c, o)), Initialised(c, o);
            && (t in i <==> t in f || Declares(Table(c), t))
            && (t in i ==> i[t] == if t in f then f[t] else DefaultOf(t))
  {
    DefaultsFilled(Table(c), ForcePrivacy(c, ForceIdentity(c, o)), t);
  }

  lemma NewObjectTyped(c: ClassId)
    ensures WellTyped(Initialised(c, map[]))
  {
    var o := Initialised(c, map[]);
    forall t | t in o ensures KindOf(t).Admits(o[t]) {
      InitialisedAt(c, map[], t);
      DefaultAdmitted(t);
    }
  }

  lemma NewObjectClass(c: ClassId, objClass: nat, keyType: nat, certType: nat)
    requires ClassOf(objClass, keyType, certType) == Some(c)
    ensures StoredClass(Initialised(c, map[])) == Some(c)
  {
    ForcedIdentity(c, objClass, keyType, certType, map[]);
    InitialisedAt(c, map[], CKA_CLASS);
    InitialisedAt(c, map[], CKA_KEY_TYPE);
    InitialisedAt(c, map[], CKA_CERTIFICATE_TYPE);
  }

  lemma NewObjectHistory(c: ClassId)
    ensures HistoryConsistent(Initialised(c, map[]))
  {
    var o := Initialised(c, map[]);
    assert AlwaysSensitive(o) ==> Sensitive(o) by {
      InitialisedAt(c, map[], CKA_ALWAYS_SENSITIVE);
      assert DefaultOf(CKA_ALWAYS_SENSITIVE) == BoolV(false);
    }
    InitialisedAt(c, map[], CKA_EXTRACTABLE);
    InitialisedAt(c, map[], CKA_NEVER_EXTRACTABLE);
    assert DefaultOf(CKA_EXTRACTABLE) == BoolV(false);
    assert CKA_EXTRACTABLE !in ForcePrivacy(c, ForceIdentity(c, map[]));
    assert CKA_NEVER_EXTRACTABLE !in ForcePrivacy(c, ForceIdentity(c, map[]));
    if MakesClaims(c) { ClaimsDeclared(c); } else { NoClaimsDeclared(c, CKA_NEVER_EXTRACTABLE); }
  }

  /** A new object is whole, well typed, and makes no claim that its flags contradict. */
  lemma NewObject(c: ClassId, objClass: nat, keyType: nat, certType: nat)
    requires ClassOf(objClass, keyType, certType) == Some(c)
    ensures var o := Initialised(c, map[]);
            StoredClass(o) == Some(c) && Whole(o) && WellTyped(o) && HistoryConsistent(o)
  {
    NewObjectTyped(c);
    NewObjectClass(c, objClass, keyType, certType);
    NewObjectHistory(c);
    forall t | Declares(Table(c), t) ensures t in Initialised(c, map[]) { InitialisedAt(c, map[], t); }
  }

  /** Initialising an object that is already whole changes nothing. */
  lemma InitialisedAgain(c: ClassId, o: Attrs)
    requires StoredClass(o) == Some(c) && Whole(o) && WellTyped(o)
    ensures Initialised(c, o) == o
  {
    EveryObjectHas(c);
    KeyTypeDeclared(c);
    assert ForcePrivacy(c, ForceIdentity(c, o)) == o;
    forall t ensures t in o <==> t in Initialised(c, o)
             ensures t in o ==> o[t] == Initialised(c, o)[t]
    {
      InitialisedAt(c, o, t);
    }
  }

  // ----- the schema -------------------------------------------------------------------------------

  /** The schema has exactly the declared attributes, each as some declaration of it says. */
  lemma {:induction false} SchemaSays(ds: seq<Decl>, t: AttrType)
    ensures t in SchemaFrom(ds) <==> Declares(ds, t)
    ensures t in SchemaFrom(ds) ==> exists i :: 0 <= i < |ds| && ds[i].t == t && SchemaFrom(ds)[t] == ds[i].Spec()
    decreases |ds|
  {
    if |ds| > 0 {
      var front := ds[..|ds| - 1];
      SchemaSays(front, t);
      if ds[|ds| - 1].t != t && Declares(ds, t) {
        var i :| 0 <= i < |ds| && ds[i].t == t;
        assert front[i].t == t;
        var j :| 0 <= j < |front| && front[j].t == t && SchemaFrom(front)[t] == front[j].Spec();
        assert ds[j] == front[j];
      }
    }
  }

  predicate Above(ds: seq<Decl>, low: nat) { forall i :: 0 <= i < |ds| ==> low <= ds[i].t }

  lemma KeyPartsAbove(k: nat)
    ensures Above(ANY_KEY, 0x10) && Above(PUBLIC_KEY, 0x10) && Above(PRIVATE_KEY, 0x10) && Above(SECRET_KEY, 0x10)
    ensures Above(PublicKeyPart(k), 0x10) && Above(PrivateKeyPart(k), 0x10) && Above(SecretKeyPart(k), 0x10)
  {
  }

  lemma OtherPartsAbove(k: nat)
    ensures Above(DATA_OBJECT, 0x10) && Above(CERTIFICATE, 0x10) && Above(OPENPGP_CERTIFICATE, 0x10)
    ensures Above(X509_CERTIFICATE, 0x10)
    ensures Above(DomainPart(k), 0x10)
  {
  }

  lemma OwnPartAbove(c: ClassId)
    ensures Above(OwnPart(c), 0x10)
  {
    match c
    case DataObject => OtherPartsAbove(0);
    case X509Certificate => OtherPartsAbove(0);
    case OpenPgpCertificate => OtherPartsAbove(0);
    case PublicKey(k) => KeyPartsAbove(k);
    case PrivateKey(k) => KeyPartsAbove(k);
    case SecretKey(k) => KeyPartsAbove(k);
    case DomainParameters(k) => OtherPartsAbove(k);
  }

  lemma PlacementDecl(i: nat)
    requires i < |ANY_OBJECT|
    ensures ANY_OBJECT[i].t == CKA_TOKEN || ANY_OBJECT[i].t == CKA_PRIVATE ==> ANY_OBJECT[i].Spec().checks == {Ck17}
  {
  }

  /** Where an object lives and whether it is private can be chosen when it is made or copied,
      and never changed. */
  lemma PlacementIsFixed(c: ClassId, t: AttrType)
    requires t == CKA_TOKEN || t == CKA_PRIVATE
    ensures t in SchemaOf(c) && SchemaOf(c)[t].checks == {Ck17}
  {
    hide OwnPart, BaseChecks, BaseSize, SchemaFrom, ANY_OBJECT;
    EveryObjectHas(c);
    SchemaSays(Table(c), t);
    OwnPartAbove(c);
    var i :| 0 <= i < |Table(c)| && Table(c)[i].t == t && SchemaOf(c)[t] == Table(c)[i].Spec();
    PlacementDecl(i);
  }

  // ----- what every call keeps -------------------------------------------------------------------

  ghost predicate Healthy(o: Attrs) { Whole(o) && WellTyped(o) }

  /** The object is a private or secret key, so it has the attributes that make claims. */
  ghost predicate HealthyKey(o: Attrs) { Healthy(o) && MakesClaims(StoredClass(o).value) }

  predicate SameIdentity(o: Attrs, o': Attrs) {
    SameAt(o, o', CKA_CLASS) && SameAt(o, o', CKA_KEY_TYPE) && SameAt(o, o', CKA_CERTIFICATE_TYPE)
  }

  lemma StillWhole(o: Attrs, o': Attrs)
    requires Whole(o) && SameIdentity(o, o') && o.Keys <= o'.Keys
    ensures Whole(o') && StoredClass(o') == StoredClass(o)
  {
  }

  lemma {:induction false} ApplyKeepsIdentity(job: Job, o: Attrs, es: Template)
    ensures SameIdentity(o, ApplyEntries(job, o, es).attrs)
    decreases |es|
  {
    if |es| > 0 {
      var first := UpdateEntry(job, o, es[0]);
      var t := es[0].t;
      WriteTidy(job.ctx, t, job.isPrivate, o, es[0].p, job.op, CKA_CLASS);
      WriteTidy(job.ctx, t, job.isPrivate, o, es[0].p, job.op, CKA_KEY_TYPE);
      WriteTidy(job.ctx, t, job.isPrivate, o, es[0].p, job.op, CKA_CERTIFICATE_TYPE);
      if first.rv == OK { ApplyKeepsIdentity(job, first.attrs, es[1..]); }
    }
  }

  /** Saving a template, whether it succeeds or fails, leaves a healthy object of the same class. */
  lemma SaveKeepsHealth(job: Job, o: Attrs, es: Template, rollback: bool)
    requires Healthy(o)
    ensures var o' := SaveTemplate(job, o, es, rollback).attrs;
            && Healthy(o') && StoredClass(o') == StoredClass(o) && o.Keys <= o'.Keys
            && (HistoryConsistent(o) ==> HistoryConsistent(o'))
  {
    var o' := ApplyEntries(job, o, es).attrs;
    ApplyTidy(job, o, es);
    if HistoryConsistent(o) { ApplyKeepsHistory(job, o, es); }
    ApplyKeepsIdentity(job, o, es);
    StillWhole(o, o');
  }

  /** Neither C_SetAttributeValue nor the template of C_CopyObject lowers protection or invents a
      claim, not even when it fails half-way. */
  lemma SaveIsMonotone(job: Job, o: Attrs, es: Template, rollback: bool)
    requires job.op.Changing()
    ensures var o' := SaveTemplate(job, o, es, rollback).attrs;
            ClaimsShrink(o, o') && ProtectionGrows(o, o')
  {
    ApplyIsMonotone(job, o, es);
  }

  // ----- what the library contributes -----------------------------------------------------------------

  lemma MarkCreatedKeepsHealth(o: Attrs, objClass: nat)
    requires Healthy(o)
    ensures var o' := MarkCreated(o, objClass);
            && Healthy(o') && StoredClass(o') == StoredClass(o)
            && (HistoryConsistent(o) ==> HistoryConsistent(o'))
  {
    var o' := MarkCreated(o, objClass);
    assert WellTyped(o') by {
      forall a | a in o' ensures KindOf(a).Admits(o'[a]) {
        if a == CKA_LOCAL || a == CKA_ALWAYS_SENSITIVE || a == CKA_NEVER_EXTRACTABLE { assert KindOf(a).ReadOnlyFlagKind?; }
      }
    }
    StillWhole(o, o');
  }

  /** The attributes that the library writes itself when it makes a key. */
  predicate IsContributed(a: AttrType) {
    || a == CKA_LOCAL || a == CKA_KEY_GEN_MECHANISM || a == CKA_SENSITIVE || a == CKA_EXTRACTABLE
    || a == CKA_ALWAYS_SENSITIVE || a == CKA_NEVER_EXTRACTABLE || a == CKA_CHECK_VALUE || IsKeyPart(a)
  }

  /** `o'` is `o` with some contributed attributes written. */
  ghost predicate Contribution(o: Attrs, o': Attrs) {
    && o.Keys <= o'.Keys
    && (forall a :: a in o' && !IsContributed(a) ==> a in o && o'[a] == o[a])
    && (WellTyped(o) ==> WellTyped(o'))
  }

  lemma ContributionKeepsHealth(o: Attrs, o': Attrs)
    requires Healthy(o) && Contribution(o, o')
    ensures Healthy(o') && StoredClass(o') == StoredClass(o)
  {
    StillWhole(o, o');
  }

  lemma PutContribution(o0: Attrs, o: Attrs, a: AttrType, v: Value)
    requires Contribution(o0, o) && IsContributed(a) && KindOf(a).Admits(v)
    ensures Contribution(o0, o[a := v])
  {
  }

  lemma StoredBytes(ctx: Context, isPrivate: bool, x: Bytes, a: AttrType)
    requires IsKeyPart(a) || a == CKA_CHECK_VALUE
    ensures KindOf(a).Admits(Store(ctx, isPrivate, x)) && IsContributed(a)
  {
  }

  lemma FlagsContributed(o0: Attrs, o: Attrs, a: AttrType, b: bool)
    requires Contribution(o0, o)
    requires a == CKA_LOCAL || a == CKA_SENSITIVE || a == CKA_EXTRACTABLE || a == CKA_ALWAYS_SENSITIVE || a == CKA_NEVER_EXTRACTABLE
    ensures Contribution(o0, o[a := BoolV(b)])
  {
    PutContribution(o0, o, a, BoolV(b));
  }

  lemma ClaimKinds()
    ensures KindOf(CKA_SENSITIVE).IsFlag() && KindOf(CKA_EXTRACTABLE).IsFlag()
    ensures KindOf(CKA_ALWAYS_SENSITIVE).IsFlag() && KindOf(CKA_NEVER_EXTRACTABLE).IsFlag()
    ensures KindOf(CKA_LOCAL).IsFlag() && KindOf(CKA_KEY_GEN_MECHANISM).IsNumber()
  {
  }

  lemma ClaimsPresent(o: Attrs)
    requires HealthyKey(o)
    ensures CKA_SENSITIVE in o && o[CKA_SENSITIVE].BoolV? && CKA_EXTRACTABLE in o && o[CKA_EXTRACTABLE].BoolV?
    ensures CKA_ALWAYS_SENSITIVE in o && o[CKA_ALWAYS_SENSITIVE].BoolV?
    ensures CKA_NEVER_EXTRACTABLE in o && o[CKA_NEVER_EXTRACTABLE].BoolV?
  {
    hide KindOf, Table, Declares, StoredClass;
    ClaimsDeclared(StoredClass(o).value);
    ClaimKinds();
  }

  lemma StoreKeyContributed(ctx: Context, isPrivate: bool, o: Attrs, o1: Attrs, key: Bytes, kcv: Option<Bytes>)
    requires Contribution(o, o1)
    ensures var o2 := StoreKey(ctx, isPrivate, o1, key, kcv);
            && Contribution(o, o2)
            && SameAt(o1, o2, CKA_SENSITIVE) && SameAt(o1, o2, CKA_EXTRACTABLE)
            && SameAt(o1, o2, CKA_ALWAYS_SENSITIVE) && SameAt(o1, o2, CKA_NEVER_EXTRACTABLE)
  {
    hide KindOf, Contribution;
    var v := Store(ctx, isPrivate, key);
    StoredBytes(ctx, isPrivate, key, CKA_VALUE);
    PutContribution(o, o1, CKA_VALUE, v);
    if kcv.Some? {
      StoredBytes(ctx, isPrivate, kcv.value, CKA_CHECK_VALUE);
      PutContribution(o, o1[CKA_VALUE := v], CKA_CHECK_VALUE, Store(ctx, isPrivate, kcv.value));
    }
  }

  lemma GeneratedClaimsContributed(mechanism: nat, o: Attrs)
    ensures Contribution(o, GeneratedClaims(mechanism, o))
  {
    hide KindOf;
    ClaimKinds();
    var o' := GeneratedClaims(mechanism, o);
    forall a | a in o' && !(a in o && o'[a] == o[a])
      ensures IsContributed(a) && KindOf(a).Admits(o'[a]) {
    }
  }

  lemma GeneratedClaimsAre(mechanism: nat, o: Attrs)
    requires HealthyKey(o)
    ensures var o1 := GeneratedClaims(mechanism, o);
            && AlwaysSensitive(o1) == Sensitive(o1) && NeverExtractable(o1) == !Extractable(o1)
  {
    hide KindOf, Table, Declares, StoredClass;
    ClaimsPresent(o);
  }

  /** A generated key claims exactly what its flags say now. */
  lemma GeneratedIsHealthy(ctx: Context, isPrivate: bool, mechanism: nat, keyType: nat, key: Bytes, checkValue: bool, o: Attrs)
    requires HealthyKey(o)
    ensures var r := ContributeGenerated(ctx, isPrivate, mechanism, keyType, key, checkValue)(o);
            && r.Some? && Contribution(o, r.value) && Healthy(r.value) && StoredClass(r.value) == StoredClass(o)
            && HistoryConsistent(r.value)
            && AlwaysSensitive(r.value) == Sensitive(r.value) && NeverExtractable(r.value) == !Extractable(r.value)
  {
    hide KindOf, Table, Declares, StoredClass, Contribution, StoreKey, KcvOf, FixParity, GeneratedClaims, Healthy, MakesClaims;
    var o1 := GeneratedClaims(mechanism, o);
    GeneratedClaimsAre(mechanism, o);
    GeneratedClaimsContributed(mechanism, o);
    StoreKeyContributed(ctx, isPrivate, o, o1, key, if checkValue then KcvOf(ctx.token, keyType, key) else None);
    ContributionKeepsHealth(o, ContributeGenerated(ctx, isPrivate, mechanism, keyType, key, checkValue)(o).value);
  }

  /** An unwrapped key claims nothing about its past. */
  lemma UnwrappedIsHealthy(ctx: Context, isPrivate: bool, parts: KeyParts, o: Attrs)
    requires Healthy(o)
    ensures var r := ContributeUnwrapped(ctx, isPrivate, Some(parts))(o);
            && r.Some? && Contribution(o, r.value) && Healthy(r.value) && StoredClass(r.value) == StoredClass(o)
            && !AlwaysSensitive(r.value) && !NeverExtractable(r.value) && HistoryConsistent(r.value)
  {
    hide KindOf, Table, Declares, StoredClass, Contribution, WellTyped, Whole;
    var o1 := o[CKA_LOCAL := BoolV(false)];
    FlagsContributed(o, o, CKA_LOCAL, false);
    var o2 := o1[CKA_ALWAYS_SENSITIVE := BoolV(false)];
    FlagsContributed(o, o1, CKA_ALWAYS_SENSITIVE, false);
    var o3 := o2[CKA_NEVER_EXTRACTABLE := BoolV(false)];
    FlagsContributed(o, o2, CKA_NEVER_EXTRACTABLE, false);
    PartsContributed(ctx, isPrivate, parts, o, o3);
    var o4 := o3 + StoreParts(ctx, isPrivate, parts);
    assert CKA_ALWAYS_SENSITIVE !in parts && CKA_NEVER_EXTRACTABLE !in parts;
    assert o4[CKA_ALWAYS_SENSITIVE] == BoolV(false) && o4[CKA_NEVER_EXTRACTABLE] == BoolV(false);
    ContributionKeepsHealth(o, o4);
  }

  lemma PartsContributed(ctx: Context, isPrivate: bool, parts: KeyParts, o0: Attrs, o: Attrs)
    requires Contribution(o0, o)
    ensures Contribution(o0, o + StoreParts(ctx, isPrivate, parts))
  {
    hide KindOf, Table, Declares, StoredClass;
    var o' := o + StoreParts(ctx, isPrivate, parts);
    forall a | a in o' && !(a in o && o'[a] == o[a]) ensures KindOf(a).Admits(o'[a]) && IsContributed(a) {
      StoredBytes(ctx, isPrivate, parts[a], a);
    }
  }

  /** The claims written for a derived key, by every mechanism but the one that concatenates two
      keys: consistent with its flags, and never more than what the base key claims. */
  lemma ClaimsAreInherited(d: Derivation, base: Attrs, other: Attrs, o: Attrs)
    requires !d.ConcatKey?
    requires HealthyKey(o)
    requires HealthyKey(base)
    ensures var o' := DeriveClaims(d, base, other, o);
            ClaimsShrink(base, o') && (HistoryConsistent(base) ==> HistoryConsistent(o'))
  {
    ClaimsPresent(o);
    ClaimsPresent(base);
  }

  lemma DeriveClaimsContributed(d: Derivation, base: Attrs, other: Attrs, o: Attrs)
    ensures Contribution(o, DeriveClaims(d, base, other, o))
  {
    ClaimKinds();
    var o' := DeriveClaims(d, base, other, o);
    forall a | a in o' && !(a in o && o'[a] == o[a])
      ensures o'[a].BoolV? && a in {CKA_SENSITIVE, CKA_EXTRACTABLE, CKA_ALWAYS_SENSITIVE, CKA_NEVER_EXTRACTABLE} {
    }
  }

  /** A derived key is a whole object of its class; derived by any mechanism but the concatenation
      of two keys it claims no more about its past than its base key, consistently. */
  lemma DerivedIsHealthy(ctx: Context, p: Plan, d: Derivation, base: Attrs, other: Attrs, raw: Bytes, len: nat,
                         checkValue: bool, parity: byte -> byte, o: Attrs)
    requires HealthyKey(o) && HealthyKey(base)
    ensures var r := DerivedKey(ctx, p, d, base, other, raw, len, checkValue, parity, o);
            r.Some? ==>
              && Contribution(o, r.value) && Healthy(r.value) && StoredClass(r.value) == StoredClass(o)
              && (!d.ConcatKey? ==>
                    ClaimsShrink(base, r.value) && (HistoryConsistent(base) ==> HistoryConsistent(r.value)))
  {
    hide Healthy, Contribution, StoredClass, MakesClaims, StoreKey, KcvOf, FixParity, DeriveClaims, Cut;
    var r := DerivedKey(ctx, p, d, base, other, raw, len, checkValue, parity, o);
    if r.Some? {
      var o0 := o[CKA_LOCAL := BoolV(false)];
      ReflexiveContribution(o);
      FlagsContributed(o, o, CKA_LOCAL, false);
      ContributionKeepsHealth(o, o0);
      if !d.ConcatKey? { ClaimsAreInherited(d, base, other, o0); }
      var o1 := DeriveClaims(d, base, other, o0);
      DeriveClaimsContributed(d, base, other, o0);
      TransitiveContribution(o, o0, o1);
      var key := FixParity(parity, p.keyType, Cut(d, raw, len));
      var kcv := KcvOf(ctx.token, p.keyType, if d.Agreement? then raw else key);
      StoreKeyContributed(ctx, p.isPrivate, o, o1, key, if checkValue then kcv else None);
      ContributionKeepsHealth(o, r.value);
    }
  }

  lemma ReflexiveContribution(o: Attrs)
    ensures Contribution(o, o)
  {
  }

  lemma TransitiveContribution(o: Attrs, o1: Attrs, o2: Attrs)
    requires Contribution(o, o1) && Contribution(o1, o2)
    ensures Contribution(o, o2)
  {
  }

  /** Concatenating two keys writes the wrong claim: CKA_ALWAYS_SENSITIVE of the new key says
      whether both old keys were never extractable, and CKA_NEVER_EXTRACTABLE stays as the template
      left it. The claims fit the flags exactly when two never-extractable keys come with some
      sensitivity, and they are inherited exactly under the second pair of conditions. */
  lemma ConcatenationClaims(h: Handle, base: Attrs, other: Attrs, o: Attrs)
    requires HealthyKey(o) && HistoryConsistent(o)
    requires HealthyKey(base)
    requires HealthyKey(other)
    ensures var o' := DeriveClaims(ConcatKey(h), base, other, o);
            && (HistoryConsistent(o') <==>
                  (NeverExtractable(base) && NeverExtractable(other) ==> Sensitive(base) || Sensitive(other) || Sensitive(o)))
            && (ClaimsShrink(base, o') && ClaimsShrink(other, o') <==>
                  && (NeverExtractable(base) && NeverExtractable(other) ==> AlwaysSensitive(base) && AlwaysSensitive(other))
                  && (NeverExtractable(o) ==> NeverExtractable(base) && NeverExtractable(other)))
  {
    hide KindOf, Table, Declares, StoredClass;
    ClaimsPresent(o);
    ClaimsPresent(base);
    ClaimsPresent(other);
  }

  /** A generic secret key as it is made before any template is applied: whole, not sensitive, and never
      extractable. */
  function BlankKey(): Attrs { Initialised(SecretKey(CKK_GENERIC_SECRET), map[]) }

  /** Two keys that were never extractable and never sensitive make a key that claims to have
      always been sensitive while it is not. */
  lemma ConcatenationOverclaims(h: Handle)
    ensures HealthyKey(BlankKey()) && HistoryConsistent(BlankKey())
    ensures var o' := DeriveClaims(ConcatKey(h), BlankKey(), BlankKey(), BlankKey());
            AlwaysSensitive(o') && !Sensitive(o')
  {
    var c := SecretKey(CKK_GENERIC_SECRET);
    NewObject(c, CKO_SECRET_KEY, CKK_GENERIC_SECRET, 0);
    BlankFlags(c, CKA_SENSITIVE);
    BlankFlags(c, CKA_NEVER_EXTRACTABLE);
    hide Initialised, Table, Declares;
    ConcatenationClaims(h, BlankKey(), BlankKey(), BlankKey());
  }

  lemma BlankFlags(c: ClassId, t: AttrType)
    requires c == SecretKey(CKK_GENERIC_SECRET) && t in {CKA_SENSITIVE, CKA_NEVER_EXTRACTABLE}
    ensures t in Initialised(c, map[]) && Initialised(c, map[])[t] == BoolV(t == CKA_NEVER_EXTRACTABLE)
  {
    hide Initialised, Table, Declares;
    InitialisedAt(c, map[], t);
    ClaimsDeclared(c);
    assert t !in ForcePrivacy(c, ForceIdentity(c, map[]));
  }
}
