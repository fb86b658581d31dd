/** Places where the library does not do what its other parts rely on, each with the exact condition and
    an example: dates of private objects, objects left behind by a failed call, what is stored in them
    and how they stop a search. */
module Departures {
  import opened Cryptoki
  import opened Attributes
  import opened ObjectClasses
  import opened Templates
  import opened Transparency
  import opened ObjectStore
  import opened ObjectLaws
  import opened Runs
  import opened HalfMade
  import opened CheckValues
  import opened KeyWrap
  import opened Search

  // ----- dates -------------------------------------------------------------------------------------

  /** What a successful write of a plain byte string stores is read back as it was given. */
  lemma TextReadsBack(ctx: Context, t: AttrType, isPrivate: bool, o: Attrs, p: Payload, op: Op)
    requires ctx.token.Lawful() && KindOf(t).TextKind?
    requires (p.NullPtr? ==> p.len == 0) && Write(ctx, t, isPrivate, o, p, op).rv == OK
    ensures Decoded(ctx, isPrivate, Write(ctx, t, isPrivate, o, p, op).attrs[t]) == Some(BytesV(p.Data()))
  {
    hide KindOf;
    var stored := Sealed(ctx, isPrivate, p).value;
    assert Write(ctx, t, isPrivate, o, p, op).attrs[t] == BytesV(stored);
    if isPrivate {
      assert stored == ctx.token.cipher(p.Data()) && ctx.token.plain(stored) == Some(p.Data());
    }
  }

  /** What reading makes of a date just written. */
  function DateReadBack(ctx: Context, t: AttrType, isPrivate: bool, o: Attrs, date: Bytes, op: Op): Option<Value>
    requires IsDate(t)
  {
    var r := Write(ctx, t, isPrivate, o, Memory(date), op);
    if r.rv == OK && t in r.attrs then Decoded(ctx, isPrivate, r.attrs[t]) else None
  }

  /** A date is stored in clear whatever the object is, and decrypted on reading if the object is private.
      So whatever the cipher, it is read back as given exactly if the object is public or the date empty. */
  lemma DateReadsBackExactly(t: AttrType, isPrivate: bool, o: Attrs, date: Bytes, op: Op, state: SessionState)
    requires IsDate(t) && (|date| == 8 || |date| == 0)
    ensures (forall token: Token :: token.Lawful() ==> DateReadBack(Context(token, state), t, isPrivate, o, date, op) == Some(BytesV(date)))
       <==> !isPrivate || date == []
  {
    hide DateReadBack;
    forall token: Token ensures DateReadBack(Context(token, state), t, isPrivate, o, date, op) == Decoded(Context(token, state), isPrivate, BytesV(date)) {
      DateWritten(Context(token, state), t, isPrivate, o, date, op);
    }
    if isPrivate && date != [] {
      var marker: byte := if date[0] == 0 then 1 else 0;
      MarkingIsLawful(marker);
      hide Token.Lawful;
      assert Decoded(Context(MarkingToken(marker), state), true, BytesV(date)) == None;
    }
  }

  lemma DateWritten(ctx: Context, t: AttrType, isPrivate: bool, o: Attrs, date: Bytes, op: Op)
    requires IsDate(t) && (|date| == 8 || |date| == 0)
    ensures DateReadBack(ctx, t, isPrivate, o, date, op) == Decoded(ctx, isPrivate, BytesV(date))
  {
    assert KindOf(t).DateKind?;
    hide KindOf;
  }

  /** On a token whose ciphertexts begin with a zero, the start date of a private object cannot be read. */
  lemma DateLost(spec: AttrSpec, o: Attrs, op: Op, inner: nat -> Inner)
    requires Ck7 !in spec.checks
    ensures var ctx := Context(MarkingToken(0), RwUser);
            var date := Memory([50, 48, 50, 52, 48, 49, 48, 49]);
            var r := Write(ctx, CKA_START_DATE, true, o, date, op);
            && ctx.token.Lawful() && r.rv == OK
            && Retrieve(ctx, spec, true, r.attrs, Request(CKA_START_DATE, None, inner)) == Answer(GENERAL_ERROR, None, None, Nothing)
  {
    MarkingIsLawful(0);
    assert KindOf(CKA_START_DATE).DateKind?;
    hide KindOf, Token.Lawful;
  }

  // ----- half-made objects ---------------------------------------------------------------------------

  /** A creation that fails changes the store exactly if its template was refused in saving: then a new
      object stays behind that no handle names. */
  lemma FailedCreation(w: World, ctx: Context, caller: Caller, es: Template)
    requires Sound(w) && CreateObject(w, ctx, caller, es, Create).rv != OK
    ensures var r := CreateObject(w, ctx, caller, es, Create);
            var q := ReadPlan(es, false, DEFAULT_PLAN);
            var c := ClassOf(q.plan.objClass, q.plan.keyType, q.plan.certType);
            && r.world.handles == w.handles && r.handle == CK_INVALID_HANDLE
            && (r.world.items != w.items <==>
                  && q.rv == OK && HaveWrite(caller.state, q.plan.onToken, q.plan.isPrivate) == OK
                  && |es| <= MAX_ATTRIBS && c.Some?)
  {
    hide ReadPlan, ClassOf, SchemaOf, Initialised, SaveTemplate, CheckValueLast, SoundItem, SoundHandles;
    CreateDraftLaw(ctx, caller, es, Create);
    assert w.next !in w.items;
  }

  /** Either nothing has changed, or the drafted object was left, stored as its own flag says. */
  ghost predicate LeavesAtMost(w: World, w': World, ctx: Context, caller: Caller, es: Template, op: Op) {
    var d := DraftObject(ctx, caller, es, op);
    && w'.handles == w.handles
    && (w'.items != w.items ==>
          d.HalfMade? && w'.items == w.items[w.next := d.item] && !d.item.finished && !Misstored(ctx, caller, es, op))
  }

  function GenerationPlan(keyType: nat, es: Template): Plan {
    ReadPlan(es, true, DEFAULT_PLAN.(objClass := CKO_SECRET_KEY, keyType := keyType)).plan
  }

  /** The checks that C_GenerateKey makes before it creates the object. */
  predicate GenerationReached(caller: Caller, keyType: nat, es: Template) {
    var p, wish := GenerationPlan(keyType, es), SecretWish(keyType, es);
    && Generates(keyType) && p.objClass == CKO_SECRET_KEY && p.keyType == keyType
    && HaveWrite(caller.state, p.onToken, p.isPrivate) == OK
    && wish.rv == OK && wish.len != 0 && LengthAllowed(keyType, wish.len) && |es| <= MAX_ATTRIBS - 4
  }

  /** C_GenerateKey too leaves one behind, exactly whenever it fails after its own checks have passed. */
  lemma FailedGeneration(w: World, ctx: Context, caller: Caller, keyType: nat, es: Template, random: nat -> Bytes)
    requires Sound(w) && GenerateKey(w, ctx, caller, keyType, es, random).rv != OK
    ensures var w' := GenerateKey(w, ctx, caller, keyType, es, random).world;
            && LeavesAtMost(w, w', ctx, caller, Header(GenerationPlan(keyType, es)) + Rest(es, true), Generate)
            && (w'.items != w.items <==> GenerationReached(caller, keyType, es))
  {
    hide ReadPlan, SecretWish, MakeKey, ContributeGenerated, DraftObject, Rest, Sound, Misstored, LengthAllowed, Header, HaveWrite;
    var p, wish := GenerationPlan(keyType, es), SecretWish(keyType, es);
    var f := ContributeGenerated(ctx, p.isPrivate, MechanismFor(keyType), keyType, random(wish.len), wish.checkValue);
    AlwaysContributes(ctx, p.isPrivate, MechanismFor(keyType), keyType, random(wish.len), wish.checkValue);
    if MakeKey(w, ctx, caller, p, es, true, Generate, MadeBy(Generate), f).rv != OK {
      FailedKey(w, ctx, caller, p, es, true, Generate, MadeBy(Generate), f);
      assert |Header(p)| == 4 by { HeaderLength(p); }
      if GenerationReached(caller, keyType, es) { GeneratedDraft(w, ctx, caller, p, es, f); }
    }
  }

  lemma HeaderLength(p: Plan)
    ensures |Header(p)| == 4
  {
  }

  lemma AlwaysContributes(ctx: Context, isPrivate: bool, mechanism: nat, keyType: nat, key: Bytes, checkValue: bool)
    ensures forall o :: ContributeGenerated(ctx, isPrivate, mechanism, keyType, key, checkValue)(o).Some?
  {
    hide StoreKey, GeneratedClaims, KcvOf;
  }

  lemma GeneratedDraft(w: World, ctx: Context, caller: Caller, p: Plan, es: Template, f: Attrs -> Option<Attrs>)
    requires Sound(w) && Generates(p.keyType) && p.objClass == CKO_SECRET_KEY && HaveWrite(caller.state, p.onToken, p.isPrivate) == OK
    requires MakeKey(w, ctx, caller, p, es, true, Generate, MadeBy(Generate), f).rv != OK && forall o :: f(o).Some?
    ensures |es| <= MAX_ATTRIBS - 4 ==> DraftObject(ctx, caller, Header(p) + Rest(es, true), Generate).HalfMade?
  {
    hide ReadPlan, Rest, Sound, SaveTemplate, SchemaOf, Initialised, CheckValueLast, Header, HaveWrite, DraftObject, CompleteKey, Enact;
    HeaderLength(p);
    var full := Header(p) + Rest(es, true);
    var q := ReadPlan(full, false, DEFAULT_PLAN).plan;
    if |es| <= MAX_ATTRIBS - 4 {
      AcceptedDraft(ctx, caller, p, es);
      var d := DraftObject(ctx, caller, full, Generate);
      if d.Complete? { CompletionWorks(w, d.item, caller, q.onToken, q.isPrivate, f); }
    }
  }

  lemma AcceptedDraft(ctx: Context, caller: Caller, p: Plan, es: Template)
    requires Generates(p.keyType) && p.objClass == CKO_SECRET_KEY && HaveWrite(caller.state, p.onToken, p.isPrivate) == OK
    requires |es| <= MAX_ATTRIBS - 4
    ensures var d := DraftObject(ctx, caller, Header(p) + Rest(es, true), Generate); d.HalfMade? || d.Complete?
  {
    hide ReadPlan, Rest, SaveTemplate, SchemaOf, Initialised, CheckValueLast, Header, HaveWrite;
    AssembledPlan(p, es, true);
    RestNoLonger(es, true);
    HeaderLength(p);
    var q := ReadPlan(Header(p) + Rest(es, true), false, DEFAULT_PLAN).plan;
    assert ClassOf(q.objClass, q.keyType, q.certType) == Some(SecretKey(p.keyType));
  }

  lemma CompletionWorks(w: World, item: Item, caller: Caller, onToken: bool, isPrivate: bool, f: Attrs -> Option<Attrs>)
    requires Sound(w) && forall o :: f(o).Some?
    ensures var made := Enact(w, caller, Complete(item), onToken, isPrivate); made.rv == OK && CompleteKey(made, MadeBy(Generate), f).rv == OK
  {
    hide SoundItem, Hand;
    FreshHandle(w, item, caller, onToken, isPrivate);
  }

  lemma {:induction false} RestNoLonger(es: Template, dropCheck: bool)
    ensures |Rest(es, dropCheck)| <= |es|
  {
    if |es| > 0 { RestNoLonger(es[..|es| - 1], dropCheck); }
  }

  /** C_UnwrapKey leaves one exactly if the template of the new key is refused in saving. */
  lemma FailedUnwrapping(w: World, ctx: Context, caller: Caller, es: Template, parts: Option<KeyParts>)
    requires Sound(w) && UnwrapKey(w, ctx, caller, es, parts).rv != OK
    ensures var w' := UnwrapKey(w, ctx, caller, es, parts).world;
            var q := ReadPlan(es, false, DEFAULT_PLAN);
            var d := DraftObject(ctx, caller, Header(q.plan) + Rest(es, false), Unwrap);
            && LeavesAtMost(w, w', ctx, caller, Header(q.plan) + Rest(es, false), Unwrap)
            && (w'.items != w.items <==>
                  && q.rv == OK && (q.plan.objClass == CKO_SECRET_KEY || q.plan.objClass == CKO_PRIVATE_KEY)
                  && HaveWrite(caller.state, q.plan.onToken, q.plan.isPrivate) == OK && |es| <= MAX_ATTRIBS - 4 && d.HalfMade?)
  {
    hide ReadPlan, MakeKey, ContributeUnwrapped, DraftObject, Rest, Sound, Misstored, HaveWrite, Header;
    var p := ReadPlan(es, false, DEFAULT_PLAN).plan;
    var f := ContributeUnwrapped(ctx, p.isPrivate, parts);
    HeaderLength(p);
    if MakeKey(w, ctx, caller, p, es, false, Unwrap, MadeBy(Unwrap), f).rv != OK {
      FailedKey(w, ctx, caller, p, es, false, Unwrap, MadeBy(Unwrap), f);
    }
  }

  function DerivationRead(d: Derivation, es: Template): Planned {
    ReadPlan(es, d.Implicit(), if d.Implicit() then DEFAULT_PLAN.(objClass := CKO_SECRET_KEY, keyType := CKK_GENERIC_SECRET) else DEFAULT_PLAN)
  }

  function DerivationPlan(d: Derivation, es: Template): Plan { DerivationRead(d, es).plan }

  /** The checks on the keys and the plan that C_DeriveKey makes before it derives. */
  predicate DerivationAllowed(w: World, caller: Caller, d: Derivation, es: Template, id: Id)
    requires id in w.items
  {
    var base, p := w.items[id].attrs, DerivationPlan(d, es);
    && HaveRead(caller.state, IsOnToken(base), IsPrivate(base)) == OK && Flag(base, CKA_DERIVE, false)
    && DerivationRead(d, es).rv == OK && p.objClass == CKO_SECRET_KEY
    && p.keyType in {CKK_GENERIC_SECRET, CKK_DES, CKK_DES2, CKK_DES3, CKK_AES}
    && HaveWrite(caller.state, p.onToken, p.isPrivate) == OK && Class(base) == BaseClass(d)
  }

  /** The secret can be computed, and a length for the key was asked for or can be found. */
  predicate SecretFound(ctx: Context, p: Plan, d: Derivation, es: Template, base: Attrs, second: Attrs) {
    var wish, raw := ReadWish(es, true), RawSecret(ctx, d, base, second);
    && (d.ConcatKey? ==> Material(ctx, second, true).Some?)
    && wish.rv == OK && raw.Some?
    && if d.Implicit() && wish.len == 0 then ConcatenatedLength(p.keyType, |raw.value|).rv == OK
       else
         var length := DerivedLength(p.keyType, wish.len);
         length.rv == OK && (d.Implicit() && length.len == 0 ==> ConcatenatedLength(p.keyType, |raw.value|).rv == OK)
  }

  /** C_DeriveKey leaves one exactly if the keys, the plan and the secret are in order and the template of
      the new key is refused in saving. */
  lemma FailedDerivation(w: World, ctx: Context, caller: Caller, h: Handle, d: Derivation, es: Template, parity: byte -> byte)
    requires Sound(w) && DeriveKey(w, ctx, caller, h, d, es, parity).rv != OK
    ensures var w' := DeriveKey(w, ctx, caller, h, d, es, parity).world;
            var draft := DraftObject(ctx, caller, Header(DerivationPlan(d, es)) + Rest(es, true), Derive);
            var id := Lookup(w, h);
            var other := if d.ConcatKey? then Lookup(w, d.other) else id;
            && LeavesAtMost(w, w', ctx, caller, Header(DerivationPlan(d, es)) + Rest(es, true), Derive)
            && (w'.items != w.items <==>
                  && id.Some? && DerivationAllowed(w, caller, d, es, id.value)
                  && other.Some? && SecretFound(ctx, DerivationPlan(d, es), d, es, w.items[id.value].attrs, w.items[other.value].attrs)
                  && |es| <= MAX_ATTRIBS - 4 && draft.HalfMade?)
  {
    hide ReadPlan, DeriveFrom, DraftObject, Rest, Sound, Misstored, Header, HaveRead, HaveWrite, LeavesAtMost, SecretFound, Flag;
    var p := DerivationPlan(d, es);
    LeavesNothing(w, ctx, caller, Header(p) + Rest(es, true), Derive);
    var id := Lookup(w, h);
    var other := if d.ConcatKey? then Lookup(w, d.other) else id;
    if id.Some? && other.Some? && DerivationAllowed(w, caller, d, es, id.value) {
      FailedDerivationFrom(w, ctx, caller, p, d, es, parity, id.value, other.value);
    }
  }

  lemma LeavesNothing(w: World, ctx: Context, caller: Caller, es: Template, op: Op)
    ensures LeavesAtMost(w, w, ctx, caller, es, op)
  {
  }

  lemma FailedDerivationFrom(w: World, ctx: Context, caller: Caller, p: Plan, d: Derivation, es: Template, parity: byte -> byte, id: Id, other: Id)
    requires Sound(w) && id in w.items && other in w.items && DeriveFrom(w, ctx, caller, p, d, es, parity, id, other).rv != OK
    ensures var w' := DeriveFrom(w, ctx, caller, p, d, es, parity, id, other).world;
            var draft := DraftObject(ctx, caller, Header(p) + Rest(es, true), Derive);
            && LeavesAtMost(w, w', ctx, caller, Header(p) + Rest(es, true), Derive)
            && (w'.items != w.items <==>
                  && SecretFound(ctx, p, d, es, w.items[id].attrs, w.items[other].attrs)
                  && |es| <= MAX_ATTRIBS - 4 && draft.HalfMade?)
  {
    hide DeriveFrom, MakeKey, ContributeDerived, DraftObject, Rest, Sound, Misstored, Header, SecretFound;
    var raw, len, check := DeriveFromReaches(w, ctx, caller, p, d, es, parity, id, other);
    var f := ContributeDerived(ctx, p, d, w.items[id].attrs, w.items[other].attrs, raw, len, check, parity);
    HeaderLength(p);
    if SecretFound(ctx, p, d, es, w.items[id].attrs, w.items[other].attrs) {
      FailedKey(w, ctx, caller, p, es, true, Derive, DerivedFrom({id, other}, d.Agreement?), f);
    }
  }

  lemma DeriveFromReaches(w: World, ctx: Context, caller: Caller, p: Plan, d: Derivation, es: Template, parity: byte -> byte, id: Id, other: Id)
    returns (raw: Bytes, len: nat, check: bool)
    requires id in w.items && other in w.items
    ensures var r := DeriveFrom(w, ctx, caller, p, d, es, parity, id, other);
            if SecretFound(ctx, p, d, es, w.items[id].attrs, w.items[other].attrs) then
              r == MakeKey(w, ctx, caller, p, es, true, Derive, DerivedFrom({id, other}, d.Agreement?),
                           ContributeDerived(ctx, p, d, w.items[id].attrs, w.items[other].attrs, raw, len, check, parity))
            else r.rv != OK && r.world == w
  {
    hide MakeKey, ContributeDerived, RawSecret, DerivedLength, ConcatenatedLength, ReadWish, Material;
    var base, second := w.items[id].attrs, w.items[other].attrs;
    var wish := ReadWish(es, true);
    var secret := RawSecret(ctx, d, base, second);
    raw := if secret.Some? then secret.value else [];
    check := wish.checkValue;
    var length := if d.Implicit() && wish.len == 0 then Length(OK, 0) else DerivedLength(p.keyType, wish.len);
    len := if d.Implicit() && length.len == 0 then ConcatenatedLength(p.keyType, |raw|).len else length.len;
  }

  /** A data object with an attribute that data objects do not have. */
  function BadTemplate(): Template {
    [Entry(CKA_MODULUS, Memory([])), Entry(CKA_CLASS, Memory(ToWord(CKO_DATA, SIZEOF_ULONG))), Entry(CKA_TOKEN, Memory([1]))]
  }

  lemma BadTemplateFails(ctx: Context)
    ensures var job := Job(ctx, SchemaOf(DataObject), true, Create);
            ApplyEntries(job, Initialised(DataObject, map[]), CheckValueLast(BadTemplate())) == Outcome(Initialised(DataObject, map[]), ATTRIBUTE_TYPE_INVALID)
  {
    hide ToWord, Initialised, SchemaOf, CheckValueLast;
    AlreadyOrdered(BadTemplate());
    NoModulus();
    assert BadTemplate()[0].t == CKA_MODULUS;
  }

  lemma BadTemplatePlan()
    ensures var q := ReadPlan(BadTemplate(), false, DEFAULT_PLAN);
            q.rv == OK && q.plan == DEFAULT_PLAN.(onToken := true)
  {
    hide ToWord, FromWord, LastSized;
    var es := BadTemplate();
    ToWordFromWord(CKO_DATA, SIZEOF_ULONG);
    LastSizedAt(es, 1, CKA_CLASS, SIZEOF_ULONG);
    LastSizedAt(es, 2, CKA_TOKEN, SIZEOF_BBOOL);
    NeverNamed(es, CKA_KEY_TYPE, SIZEOF_ULONG);
    NeverNamed(es, CKA_CERTIFICATE_TYPE, SIZEOF_ULONG);
    NeverNamed(es, CKA_PRIVATE, SIZEOF_BBOOL);
  }

  lemma NoModulus()
    ensures CKA_MODULUS !in SchemaOf(DataObject)
  {
    SchemaSays(Table(DataObject), CKA_MODULUS);
    assert forall i :: 0 <= i < |Table(DataObject)| ==> Table(DataObject)[i].t != CKA_MODULUS;
  }

  /** One call with it on an empty library leaves such an object. */
  lemma HalfMadeExample(ctx: Context)
    ensures var r := CreateObject(EMPTY, ctx, Caller(RwUser, 1), BadTemplate(), Create);
            && r.rv == ATTRIBUTE_TYPE_INVALID && r.world.handles == map[]
            && r.world.items == map[0 := Item(Initialised(DataObject, map[]), OnToken, MadeBy(Create), false)]
  {
    hide ReadPlan, SchemaOf, Initialised, CheckValueLast, ApplyEntries;
    BadTemplatePlan();
    BadTemplateFails(ctx);
  }

  // ----- misstored objects -------------------------------------------------------------------------------

  /** A public data object whose label comes before, and whose privacy after, an attribute it cannot have. */
  function LatePrivacy(): Template {
    [Entry(CKA_CLASS, Memory(ToWord(CKO_DATA, SIZEOF_ULONG))), Entry(CKA_LABEL, Memory([120])), Entry(CKA_MODULUS, Memory([])),
     Entry(CKA_PRIVATE, Memory([0]))]
  }

  /** What is left of it: private by its flag, with the label in clear. */
  function LatePrivacyLeaves(): Attrs { Initialised(DataObject, map[])[CKA_LABEL := BytesV([120])] }

  lemma LatePrivacyPlan()
    ensures var q := ReadPlan(LatePrivacy(), false, DEFAULT_PLAN);
            q.rv == OK && q.plan == DEFAULT_PLAN.(isPrivate := false)
    ensures CheckValueLast(LatePrivacy()) == LatePrivacy()
  {
    hide ToWord, FromWord, LastSized, CheckValueLast;
    var es := LatePrivacy();
    ToWordFromWord(CKO_DATA, SIZEOF_ULONG);
    LastSizedAt(es, 0, CKA_CLASS, SIZEOF_ULONG);
    LastSizedAt(es, 3, CKA_PRIVATE, SIZEOF_BBOOL);
    NeverNamed(es, CKA_KEY_TYPE, SIZEOF_ULONG);
    NeverNamed(es, CKA_CERTIFICATE_TYPE, SIZEOF_ULONG);
    NeverNamed(es, CKA_TOKEN, SIZEOF_BBOOL);
    AlreadyOrdered(es);
  }

  lemma LatePrivacyFails(ctx: Context)
    ensures ApplyEntries(Job(ctx, SchemaOf(DataObject), false, Create), Initialised(DataObject, map[]), LatePrivacy())
         == Outcome(LatePrivacyLeaves(), ATTRIBUTE_TYPE_INVALID)
  {
    hide ToWord, FromWord, Initialised, SchemaOf, Update, LatePrivacyLeaves;
    var job, o, es := Job(ctx, SchemaOf(DataObject), false, Create), Initialised(DataObject, map[]), LatePrivacy();
    ClassAccepted(ctx);
    LabelAccepted(ctx);
    NoModulus();
    assert es[1..][0] == es[1] && es[1..][1..] == es[2..] && es[2..][0] == es[2];
    assert ApplyEntries(job, LatePrivacyLeaves(), es[2..]) == Outcome(LatePrivacyLeaves(), ATTRIBUTE_TYPE_INVALID);
    assert ApplyEntries(job, o, es[1..]) == Outcome(LatePrivacyLeaves(), ATTRIBUTE_TYPE_INVALID);
  }

  lemma ClassAccepted(ctx: Context)
    ensures var job, o := Job(ctx, SchemaOf(DataObject), false, Create), Initialised(DataObject, map[]);
            UpdateEntry(job, o, Entry(CKA_CLASS, Memory(ToWord(CKO_DATA, SIZEOF_ULONG)))) == Outcome(o, OK)
  {
    hide ToWord, FromWord, Initialised, SchemaOf;
    ToWordFromWord(CKO_DATA, SIZEOF_ULONG);
    var p := Memory(ToWord(CKO_DATA, SIZEOF_ULONG));
    assert p.Length() == SIZEOF_ULONG && p.AsNumber() == CKO_DATA;
    hide Payload.Length, Payload.AsNumber;
    DataSpec(CKA_CLASS);
    BlankData();
    assert KindOf(CKA_CLASS).IdentityKind? && DefaultOf(CKA_CLASS) == NumberV(CKO_VENDOR_DEFINED);
    hide KindOf, DefaultOf;
  }

  lemma LabelAccepted(ctx: Context)
    ensures var job, o := Job(ctx, SchemaOf(DataObject), false, Create), Initialised(DataObject, map[]);
            UpdateEntry(job, o, Entry(CKA_LABEL, Memory([120]))) == Outcome(LatePrivacyLeaves(), OK)
  {
    hide Initialised, SchemaOf;
    DataSpec(CKA_LABEL);
    BlankData();
    assert KindOf(CKA_LABEL).TextKind?;
    hide KindOf;
  }

  lemma BlankData()
    ensures var o := Initialised(DataObject, map[]); Class(o) == CKO_DATA && IsPrivate(o) && !IsOnToken(o) && Modifiable(o)
  {
    hide Table, Declares;
    NewObjectFlags(DataObject);
    InitialisedAt(DataObject, map[], CKA_CLASS);
    InitialisedAt(DataObject, map[], CKA_MODIFIABLE);
  }

  lemma DataSpec(t: AttrType)
    requires t == CKA_CLASS || t == CKA_LABEL
    ensures t in SchemaOf(DataObject) && SchemaOf(DataObject)[t] == BaseSpec(t)
  {
    var ds := Table(DataObject);
    assert ds[0].t == CKA_CLASS && ds[4].t == CKA_LABEL;
    SchemaSays(ds, t);
    var i :| 0 <= i < |ds| && ds[i].t == t && SchemaFrom(ds)[t] == ds[i].Spec();
  }

  /** One refused call of anybody leaves an object that is private by its flag, with its label in clear. */
  lemma MisstoredExample(ctx: Context)
    ensures var r := CreateObject(EMPTY, ctx, Caller(RoPublic, 1), LatePrivacy(), Create);
            && r.rv == ATTRIBUTE_TYPE_INVALID
            && r.world.items == map[0 := Item(LatePrivacyLeaves(), InSession(1, false), MadeBy(Create), false)]
    ensures IsPrivate(LatePrivacyLeaves()) && LatePrivacyLeaves()[CKA_LABEL] == BytesV([120])
    ensures Misstored(ctx, Caller(RoPublic, 1), LatePrivacy(), Create) <==> ctx.token.cipher([120]) != [120]
  {
    hide ReadPlan, SchemaOf, Initialised, CheckValueLast, ApplyEntries;
    LatePrivacyPlan();
    LatePrivacyFails(ctx);
    BlankData();
    LatePrivacyMisstored(ctx);
  }

  lemma LatePrivacyBegun(ctx: Context)
    ensures Begun(ctx, DataObject, false, Create, LatePrivacy()) == LatePrivacy()[..2]
  {
    hide ToWord, FromWord, Initialised, SchemaOf, Update, LatePrivacyLeaves, CheckValueLast;
    var job, o, es := Job(ctx, SchemaOf(DataObject), false, Create), Initialised(DataObject, map[]), LatePrivacy();
    AlreadyOrdered(es);
    ClassAccepted(ctx);
    LabelAccepted(ctx);
    NoModulus();
    assert es[1..][0] == es[1] && es[1..][1..] == es[2..] && es[2..][0] == es[2];
    assert AcceptedPrefix(job, LatePrivacyLeaves(), es[2..]) == [];
    assert AcceptedPrefix(job, o, es[1..]) == [es[1]];
  }

  lemma LatePrivacyMisstored(ctx: Context)
    ensures Misstored(ctx, Caller(RoPublic, 1), LatePrivacy(), Create) <==> ctx.token.cipher([120]) != [120]
  {
    hide ReadPlan, Begun, LastSized, ToWord, FromWord;
    LatePrivacyPlan();
    LatePrivacyBegun(ctx);
    var begun := LatePrivacy()[..2];
    NeverNamed(begun, CKA_PRIVATE, SIZEOF_BBOOL);
    assert ClassPlanned(LatePrivacy()) == Some(DataObject);
    LabelGiven(ctx.token);
    hide Given, IsText, LatePrivacy, ClassPlanned;
    assert GivesAway(ctx.token, DataObject, Create, begun, false, CKA_LABEL) <==> ctx.token.cipher([120]) != [120];
  }

  lemma LabelGiven(token: Token)
    ensures IsText(CKA_LABEL)
    ensures forall t :: IsText(t) ==>
              Given(token, DataObject, Create, LatePrivacy()[..2], t) == if t == CKA_LABEL then Some([120]) else None
  {
    var begun := LatePrivacy()[..2];
    assert begun[..1][..0] == [] && begun[1] == Entry(CKA_LABEL, Memory([120])) && begun[..1][0].t == CKA_CLASS;
    forall t | IsText(t) ensures Given(token, DataObject, Create, begun, t) == if t == CKA_LABEL then Some([120]) else None {
      assert Given(token, DataObject, Create, begun[..1], t) == None;
    }
  }

  /** After that call a user's search for the label fails, although the call that caused it was refused. */
  lemma SearchStuckExample()
    ensures var token := MarkingToken(0);
            var steps := [Step(Caller(RoPublic, 1), CallCreate(LatePrivacy()))];
            token.Lawful() && !AllDecided(Trace(token, steps)[1], Context(token, RwUser), [Entry(CKA_LABEL, Memory([120]))])
  {
    hide CreateObject, LatePrivacyLeaves, Matches, Visible, LatePrivacy;
    var token := MarkingToken(0);
    var steps := [Step(Caller(RoPublic, 1), CallCreate(LatePrivacy()))];
    MarkingIsLawful(0);
    hide Token.Lawful, MarkingToken;
    MisstoredExample(Context(token, RoPublic));
    assert steps[..0] == [];
    TraceStep(token, steps, 0);
    assert Trace(token, steps)[0] == EMPTY;
    LabelUndecided();
    var w := Trace(token, steps)[1];
    assert 0 in w.items && w.items[0].attrs == LatePrivacyLeaves();
  }

  lemma LabelUndecided()
    ensures Visible(RwUser, LatePrivacyLeaves())
    ensures Matches(Context(MarkingToken(0), RwUser), LatePrivacyLeaves(), [Entry(CKA_LABEL, Memory([120]))]) == None
  {
    hide Initialised;
    BlankData();
    assert MatchEntry(Context(MarkingToken(0), RwUser), LatePrivacyLeaves(), Entry(CKA_LABEL, Memory([120]))) == None;
  }

  // ----- the order of the check value --------------------------------------------------------------------

  /** Why the check value is moved to the end: an empty one, which asks for none to be stored, would
      otherwise be overwritten by the value that follows it. */
  lemma ReorderingMatters(job: Job, o: Attrs, value: Bytes, kcv: Bytes)
    requires job.op.Create? && Class(o) == CKO_SECRET_KEY && KcvOf(job.ctx.token, KeyType(o), value) == Some(kcv)
    requires var es := [Entry(CKA_CHECK_VALUE, Memory([])), Entry(CKA_VALUE, Memory(value))];
             && ApplyEntries(ClearJob(job), o, es).rv == OK
             && ApplyEntries(ClearJob(job), o, CheckValueLast(es)).rv == OK
    ensures var es := [Entry(CKA_CHECK_VALUE, Memory([])), Entry(CKA_VALUE, Memory(value))];
            && Text(ApplyEntries(ClearJob(job), o, es).attrs, CKA_CHECK_VALUE) == kcv
            && Text(ApplyEntries(ClearJob(job), o, CheckValueLast(es)).attrs, CKA_CHECK_VALUE) == []
  {
    hide KcvOf, UpdateEntry, CheckValueLast;
    var check, last := Entry(CKA_CHECK_VALUE, Memory([])), Entry(CKA_VALUE, Memory(value));
    var es := [check, last];
    assert es[..1] == [check] && [check][..0] == [];
    assert LastEntry(es, CKA_VALUE) == Some(Memory(value));
    assert LastEntry([check], CKA_CHECK_VALUE) == Some(Memory([])) && LastEntry(es, CKA_CHECK_VALUE) == Some(Memory([]));
    CreatedCheckValue(job, o, es);
    ApplyKeepsIdentity(ClearJob(job), o, [check]);
    assert es[1..] == [last] && last == [last][0] && [last][1..] == [];
    var o1 := UpdateEntry(ClearJob(job), o, check).attrs;
    assert ApplyEntries(ClearJob(job), o, [check]).attrs == o1 by { assert [check][0] == check && [check][1..] == []; }
    assert es[0] == check;
    assert ApplyEntries(ClearJob(job), o, es) == ApplyEntries(ClearJob(job), o1, [last]);
    assert ApplyEntries(ClearJob(job), o1, [last]) == UpdateEntry(ClearJob(job), o1, last);
    CreateValue(job, o1, Memory(value));
  }
}
